# Verification of the orbital mission compiler

The mission compiler reads a plan, checks it against a schema and a policy, compiles it to one
intent per service of every acquisition, and renders Argo and Kueue manifests into a directory that
other renders, of other missions and other installations, may share. These Dafny modules model the
parts of it whose correctness depends on several functions at once, and prove what the program
promises of them.

* **Publishing a set** (`Publishing.dfy`). The output, the backup and the staging directory are
  fields of a class, and any operation may be refused, in any pattern. Publication ends with the whole
  set over the old directory, with the old directory, or with a report naming exactly what could not
  be put back; or with an error raised once the whole set had landed. Nothing `exists` can see of the
  previous generation is ever in neither place.
* **Whose a file is** (`Ownership.dfy`, `Provenance.dfy`). What the writers stamp, what the
  classifier answers, and what may therefore be overwritten or deleted.
* **Reconciliation** (`Reconcile.dfy`). What `--prune` removes when any of its readings of a file may
  fail, each on its own; convergence, and what no run of commands, however each ended, can touch.
* **The lint gate** (`Gate.dfy`, `Documents.dfy`, `Commands.dfy`). Snapshot, predict, check, lint,
  publish, prune, with one contract over all branches, faults and misreadings, beside the two writers
  that do not lint. Documents are a graph in which a List may hold itself.
* **The critical sections** (`Sections.dfy`). The gate, the ungated Argo writer and the Kueue writer
  as step machines, one copy, rename, unlink or scan of the shared directory at a time, each with its
  own fault, and each reading a scan makes of a file with its own misreading: what holds at every
  point of them, that they end, and that they end as the contracts of the methods in `Gate.dfy` and
  `Commands.dfy` say.
* **Refusals** (`Refusals.dfy`). What the ending of a section says about which of its operations was
  the first to be refused.
* **The publish lock** (`Lock.dfy`). The bounded wait for it, and any number of those sections
  interleaving on one directory: all with the lock, some or all without it, and with processes killed
  while they hold it. Nobody is shut out for good.
* **The strict loader** (`StrictLoader.dfy`). A memoised scan of a node graph that flattening
  rewrites while later scans run, proved against the graph as it was composed.
* **The metadata walker** (`Metadata.dfy`). A depth-first walk with an explicit stack over a graph
  that may loop, proved equal to a recursive reading.
* **The pipeline** (`Policy.dfy`, `Decision.dfy`, `Plans.dfy`, `Intents.dfy`, `Names.dfy`,
  `Render.dfy`, `Writers.dfy`, `Pipeline.dfy`, `Timeline.dfy`). The ten rules over raw JSON, the
  decision parser, what the schema leaves to the policy, names, task order, claims, files and
  overlapping windows, and from a plan to the documents it is rendered to.

`Json.dfy` holds the value types the rest share. `dafny verify dfyconfig.toml` checks everything.

## Where the code does not do what it says

Behind each stands a theorem that says when the promise does hold; where a lemma gives a concrete
input on which it fails, that is named too.

* `_publish` asks `target.exists()`, which follows links, so a link with no target at a planned name
  is replaced without a backup and a rollback that reports success does not bring it back
  (`Sections.LinkIsLost` is such a run). A rollback returns the whole directory exactly when no name
  it had installed was such a link (`Publishing.FullRollbackRestoresOutput`); `preflight_writable`
  refuses links, so no command reaches it.
* `_publish` asks whether its backup is gone after the last rename, and the asking may raise. The
  gate and `render-kueue` then report `publish-failed` and a rollback while the whole new set is in
  place (`Sections.SetIsDenied` is such a run); that is the one way the report is wrong
  (`Sections.DeniedIff`).
* Directories `_publish` made go again with a rollback, but not when making them is what failed: a
  second `mkdir` refused leaves the first (`Publishing.Host.Publish`).
* The scans swallow every failure to read a file, and one reading fails open. `_report_stale` asks
  again, at cli.py:183, whether an attributed file is shared between missions, and a file it misreads
  there is deleted. So one failed reading makes `render-kueue --prune`, without `--prune-global`,
  delete another installation's class bundle and report success, and only that reading does
  (`Provenance.OneMisreadLosesABundle`). All other misreadings only spare files; the deletions they
  leave and the one they add are characterised exactly (`Ownership.MisreadPrunes`,
  `Reconcile.ForeignIsReachedIff`).
* A successful gated run leaves the manifests that were linted exactly when what the snapshot
  predicted `--prune` to remove is what it removed (`Gate.VerdictDescribesTheDirectory`). File by file
  that fails when one of the two scans misreads a stale file and the other does not, and, with nothing
  misread, when a stale artifact of the mission claims installation scope: the prediction drops it and
  the prune keeps it (`Gate.PredictionHoldsIff`, `Gate.FaithfulPredictionHoldsIff`). In both ways a
  pruning run with one new file is let through by a linter that accepts everything, and the document
  check, asked about what the run left, rejects it (`Gate.PredictionCanBeWrong`).
* `_document_problems` follows the items of a List, and an alias can make a List an item of itself. It
  then recurses until the interpreter gives up, outside every handler, so the gate ends in a traceback
  and the exit code of a rejection (`Gate.OneListInItselfEndsTheRun`). With frames for every value of
  the document the check returns exactly when no List reached through valid Lists holds itself
  (`Documents.ChecksEndIff`).
* `_artifact_mission` guards the fingerprint against values that cannot join a set, but not the
  provenance labels or the owner id: a list there, or annotations that are neither empty nor a
  mapping, raise out of the scan. A run without `--prune` then ends in a traceback after it has
  published (`Ownership.ClassifierCrashes`, `Gate.OneListLabelStopsTheScan`).
* `_workflow_name`, called with arbitrary identifiers, is not injective: `m`, `s`, `t` twice and `m`,
  `s`, `t-2` come to `m-s-t`, `m-s-t-2`, `m-s-t-2` (`Names.RepeatsCanClash`). With timestamps as
  `_to_rfc3339_z` writes them this cannot happen to names that fit; where names are cut, they are
  distinct exactly when no numbered name has the head and the digest of another hashed text, or reads
  like one (`Names.TimestampedNamesAreDistinctIff`, `Names.FittingNamesAreDistinct`,
  `Paths.PathsAreDistinctIff`, `Paths.KueuePathsAreDistinctIff`).
* `flock` answers each process by itself. Where one ungated writer is told that the file system cannot
  lock while a gate was told otherwise, it writes under the gate's lock
  (`LockProtocol.UnlockedWriterIntrudes`); what is said of interleavings below holds where all lock,
  except that foreign files survive and that gates never go without holds always.
* The validator looks `resource_class` up in a set, so a plan with a list or a mapping there makes it
  raise instead of denying; a plan the schema has passed never does (`Policy.Violations`,
  `Policy.OneListClassStopsTheValidator`, `Stages.SchemaKeepsPlansReadable`).

## Model

| member | source | states |
|---|---|---|
| Publishing.Host.MoveAside | src/orbital_mission_compiler/cli.py:1223-1225 | One rename into the backup: the entry moves, or nothing does, whatever the host refuses |
| Publishing.Host.Install | src/orbital_mission_compiler/cli.py:1226-1227 | One rename out of staging over a name of the output |
| Publishing.Host.Unlink | src/orbital_mission_compiler/cli.py:1231-1240 | One removal of a published file, or none |
| Publishing.Host.Restore | src/orbital_mission_compiler/cli.py:1241-1245 | One rename back out of the backup, over whatever stands there |
| Publishing.Host.DiscardBackup | src/orbital_mission_compiler/cli.py:1180-1191 | The backup goes as far as the host allows; whether it is still there is reported exactly, unless the asking raises |
| Publishing.Host.MakeOutput | src/orbital_mission_compiler/cli.py:1206-1215 | The missing directories are made from the outside in; what stops it is a fault, and nothing refused means all are there |
| Publishing.Host.RemoveCreated | src/orbital_mission_compiler/cli.py:1261-1263 | Those this call made go again, unless the output still holds something or the host refuses |
| Publishing.Host.MoveOne | src/orbital_mission_compiler/cli.py:1220-1227 | One staged file is installed with what `exists` saw at its name kept aside; the account of who is published and who displaced stays exact on every refusal, and it succeeds only if no operation of it was refused, the look with `exists` included |
| Publishing.Host.MoveIn | src/orbital_mission_compiler/cli.py:1219-1228 | The forward half: every name is as planned, as it was, or accounted for, and nothing visible was lost on the way |
| Publishing.Host.UnlinkAll | src/orbital_mission_compiler/cli.py:1229-1240 | The rollback's first half takes one operation a name, and the files still standing are exactly those whose removal was refused |
| Publishing.Host.RestoreAll | src/orbital_mission_compiler/cli.py:1241-1251 | The second half likewise: what stays in the backup is exactly what was refused its way back, and a granted one also clears a failed removal of the same name |
| Publishing.Host.UndoAll | src/orbital_mission_compiler/cli.py:1228-1251 | The two halves together: every name is accounted for by its old content or by one of the two reports, and each report is a matter of which operations were refused |
| Publishing.Host.Retreat | src/orbital_mission_compiler/cli.py:1228-1265 | The whole way back: the two halves, the directories that were made, and the backup if nothing is left in it that is needed |
| Publishing.Without | src/orbital_mission_compiler/cli.py:1251 | Dropping a name from the failed removals keeps all the others |
| Publishing.Host.Publish | src/orbital_mission_compiler/cli.py:1194-1267 | Under every pattern of faults: the old directory overwritten by the whole set, confirmed or not according to whether asking for the backup raised; or the old directory less exactly the links to nowhere that had been installed over; or a partial rollback whose report is exact. A directory made for an empty output that stays after a rollback means a second fault, or that making its own subdirectory was the fault. The visible part of the previous generation is in output or backup after every single operation; a failure means a fault, a partial rollback two, and a success none but perhaps the removal of the backup, which `leftover` then tells |
| Publishing.InFlightConserves | src/orbital_mission_compiler/cli.py:1194-1227 | While the set moves in, every visible old entry is in the output or the backup |
| Publishing.UndoingConserves | src/orbital_mission_compiler/cli.py:1228-1251 | And on the way back, whatever the rollback fails at |
| Publishing.InFlightCommits | src/orbital_mission_compiler/cli.py:1266-1267 | Once all is installed the output is the old tree overwritten by the staged set and nothing else |
| Publishing.FullRollbackRestoresOutput | src/orbital_mission_compiler/cli.py:1252-1265 | A rollback that reports nothing left returns the directory it was given less the links to nowhere it had installed over: the whole directory if and only if there was none |
| Publishing.PartialRollbackReportIsExact | src/orbital_mission_compiler/cli.py:1136-1159 | `unrestored` is exactly the backup's contents, every entry that differs from before is named, and each unremoved name holds new content |
| Ownership.PreflightUnique | src/orbital_mission_compiler/compiler.py:2072-2085 | Accepts exactly the path lists without a repeat |
| Ownership.PreflightWritable | src/orbital_mission_compiler/compiler.py:1960-2007 | Accepts if and only if every planned path is free or reads as the same owner's file; raises if and only if the stamps of one that is read cannot be taken |
| Ownership.MisreadsRefuse | src/orbital_mission_compiler/compiler.py:1985-1992 | A reading that fails there only refuses more |
| Ownership.Collect | src/orbital_mission_compiler/compiler.py:1970-2007 | Conflicts are collected, not the first one only, and a crash outranks them |
| Ownership.AnswerMeansUnanimous | src/orbital_mission_compiler/compiler.py:1741-1811 | The classifier names a mission or none only if every document of the file says the same mission, provenance, schema and owner |
| Ownership.UnanimousIsAnswered | src/orbital_mission_compiler/compiler.py:1741-1811 | And whenever they do, that is its answer |
| Ownership.ClassifierCrashes | src/orbital_mission_compiler/compiler.py:1759-1794 | Exactly which managed files make the classifier raise |
| Ownership.RaisesMeans | src/orbital_mission_compiler/compiler.py:1781-1794 | Label by label: a managed document makes it raise exactly when a provenance label or the owner id is a list or a mapping, or the annotations are something and not a mapping |
| Ownership.SaysMeans | src/orbital_mission_compiler/compiler.py:1759-1811 | A managed document says a mission, a renderer, a scope, a schema and an owner exactly when those very labels and that annotation are there, a fingerprint being text that is not blank |
| Ownership.RenderedIsShared | src/orbital_mission_compiler/compiler.py:1991-2002 | The fingerprint, or the owner, of a pending set is the one all its documents carry |
| Ownership.FreeIff | src/orbital_mission_compiler/compiler.py:1960-2007 | A path may be written over exactly when nothing is there, or both readings of it succeed and every document in it says the mission of the pending set or, with no mission on either side, its owner |
| Ownership.ScansReadWhatIsAsked | src/orbital_mission_compiler/compiler.py:1870-1901 | A question that names nothing reads nothing; any other raises exactly on a file it gets to and the classifier raises on, and finds stale exactly the files of the missions and owners asked about, or the shared ones if asked |
| Ownership.DeletionIsJustified | src/orbital_mission_compiler/compiler.py:1653-1697 | Whatever pruning deletes, whichever readings failed, is a regular manifest this run did not write, unanimous, of this renderer, in scope by fingerprint and owner, or installation-scoped; and then this installation's and asked for, unless it was misread where that is told |
| Ownership.MisreadPrunes | src/orbital_mission_compiler/cli.py:178-216 | Which files a prune with failed readings deletes: those a faultless one would, less the ones missed, plus exactly the shared ones misread at the last reading |
| Reconcile.Prune | src/orbital_mission_compiler/cli.py:235-248 | Files go one at a time; a refused removal leaves removed and remaining partitioning what was to go |
| Reconcile.ReportStale | src/orbital_mission_compiler/cli.py:146-249 | The four groups of the report, what is deleted and when, and how each failure leaves the directory, for any set of files each of the four readings fails on |
| Reconcile.ForeignIsReachedIff | src/orbital_mission_compiler/cli.py:178-189 | A command may change a file that belongs to another owner or to no one if and only if it scans it and misreads it at the last reading, and a pruning success has then removed it |
| Reconcile.ForeignFilesSurviveEveryRun | src/orbital_mission_compiler/compiler.py:1909-1941 | No run of commands of any length, however each ended, touches a file foreign to all of them that none misreads so |
| Reconcile.RemovableIsClaimed | src/orbital_mission_compiler/compiler.py:1814-1901 | With nothing misread, what is pruned is what the command's own provenance claims, less what it just wrote |
| Reconcile.RemovableIgnoresCurrent | src/orbital_mission_compiler/compiler.py:1814-1901 | The stale set is the same asked before publishing as after |
| Reconcile.PruningConverges | src/orbital_mission_compiler/cli.py:1270-1301 | After a pruning run of any command that has a scope, the claimed artifacts are exactly those planned files its own provenance claims and the stale ones it misread, planned files are as planned, all else unclaimed and unexposed keeps its content, and running it again removes and changes nothing; a plan that renders nothing included |
| Documents.ReturnsIff | src/orbital_mission_compiler/cli.py:803-804 | The recursion over List members runs out of frames if and only if some way down through valid Lists is as long as there are frames |
| Documents.ChecksEndIff | src/orbital_mission_compiler/cli.py:803-804 | On a List that holds itself, directly or through others, it never returns; with a frame for every value it returns if and only if there is none |
| Documents.ProblemsAreExact | src/orbital_mission_compiler/cli.py:781-814 | Where it returns, a fault is listed at a path exactly when the value there, however deep in nested Lists and however shared, has it |
| Documents.PassesIff | src/orbital_mission_compiler/cli.py:781-814 | A value passes exactly when nothing is missing from it and, if it is a List, each of its items passes in its place |
| Documents.FaultsAreWhatIsMissing | src/orbital_mission_compiler/cli.py:781-814 | Each fault is the first thing missing: a version, a kind, the items of a List, metadata, a name or one to be generated |
| Documents.GeneratedNamesPass | src/orbital_mission_compiler/cli.py:806-812 | A Job that only asks for a generated name passes |
| Documents.DocumentsAnswerIs | src/orbital_mission_compiler/cli.py:885-888 | One file's documents: fine when no check finds a fault, raising when one does not return |
| Documents.AnswersAreExact | src/orbital_mission_compiler/cli.py:857-889 | One file of the three suffixes: fine exactly when it is read, parsed, and every document in it that is not empty passes; no verdict exactly when it nests past the parser; raising exactly when the check of some document does not return |
| Documents.CheckDocuments | src/orbital_mission_compiler/cli.py:857-889 | In whatever order: clean exactly when every manifest is fine, rejected exactly when one is faulty or unreadable and none has no answer; nesting the parser cannot hold is no verdict, and a check that does not return raises |
| Gate.Carry | src/orbital_mission_compiler/cli.py:1422-1449 | What stays is copied beside the render, links are refused, other kinds skipped |
| Gate.Snapshot | src/orbital_mission_compiler/cli.py:1389-1458 | Staging becomes the predicted directory, or nothing was decided |
| Gate.DropCopies | src/orbital_mission_compiler/cli.py:1478-1501 | The copies go again and only the copies |
| Gate.CheckSays | src/orbital_mission_compiler/cli.py:857-889 | What the check answers does not depend on the order files are listed in, but for which of two unanswerable files ends it |
| Gate.LintStaged | src/orbital_mission_compiler/cli.py:1459-1519 | Passes exactly what the document check and the linter accept; a rejection is `lint-failed`, no verdict is `linter-unavailable`, a failed clean-up says what the linter said; a traceback only from a check that raises or the listing, and a pass means no operation was refused |
| Gate.ExitCodesTell | src/orbital_mission_compiler/cli.py:1346-1593 | Exit 0 is a success, 1 a rejection, a failed clean-up after one or a traceback, 2 everything else |
| Gate.CheckOwnership | src/orbital_mission_compiler/cli.py:1527-1530 | The planned set is permitted exactly when every path is free or reads as the same owner's |
| Gate.RetireStale | src/orbital_mission_compiler/cli.py:1532-1549 | After publication: what a success leaves, and that every failure is reported as having modified the output |
| Gate.PublishOnly | src/orbital_mission_compiler/cli.py:1531-1587 | Publication alone: a report that nothing was modified is true, or the whole set landed and then an error was raised; a partial rollback names what it left, and every other planned file is as it was; going on means at most the removal of the backup was refused |
| Gate.PublishSet | src/orbital_mission_compiler/cli.py:1531-1587 | Publication and prune together: modified or not is reported truthfully on every path but that one |
| Gate.Commit | src/orbital_mission_compiler/cli.py:1520-1587 | Ownership, publication and prune under one lock: a conflict leaves the output alone, any single operation may be refused, and with no fault each case has its one ending |
| Gate.ReconcileEmptyRender | src/orbital_mission_compiler/cli.py:1270-1301 | An empty plan prunes without a linter and reports `not-applicable` |
| Gate.RenderSome | src/orbital_mission_compiler/cli.py:1346-1593 | The gate's contract over a render that wrote something; a success means nothing was refused but perhaps the removal of the backup |
| Gate.RenderGated | src/orbital_mission_compiler/cli.py:1304-1593 | Over all branches, faults and misreadings: every report is true of the directory and of what happened, by its reason; a success left what it should after the predicted directory was accepted, and met no refusal but perhaps that of removing the backup; a report that is neither ok nor marked modified left the output alone, or the whole set landed before an error; a traceback comes from stamps or documents that raise, or from an operation refused after the prediction was staged; a set that is not all free or its own is not written at all; a quiet run has the one ending that directory, world and readings give it |
| Gate.RejectionsExitWithOne | src/orbital_mission_compiler/cli.py:1466-1518 | Under that contract exit 1 of a report is a rejection of the predicted directory, untouched; and where nothing is refused every rejection exits with 1, no verdict with 2 |
| Gate.VerdictDescribesTheDirectory | src/orbital_mission_compiler/cli.py:1389-1437 | The manifests a success leaves are the map the linter was given, if and only if what was predicted to go is what went |
| Gate.PredictionHoldsIff | src/orbital_mission_compiler/cli.py:1405-1421 | And that is, file by file: every stale file of the mission is missed by both scans or by neither, a file its shared scope protects counting as kept by the prune unless that is what it misreads |
| Gate.FaithfulPredictionHoldsIff | src/orbital_mission_compiler/cli.py:1405-1421 | With nothing misread: no stale artifact of this mission claims installation scope |
| Gate.SameManifestsSameRemoval | src/orbital_mission_compiler/cli.py:1405-1421 | Leaving one set out of the lint and deleting another come to the same manifests only if they are one set |
| Files.ManifestsAreNamed | src/orbital_mission_compiler/compiler.py:1888-1888 | A manifest is what has something before `.yaml`, `.yml` or `.json` |
| Gate.PredictionCanBeWrong | src/orbital_mission_compiler/cli.py:1405-1421 | Every condition of the gate holds for this run and its linter accepts, yet, the prune misreading one file or keeping it for its scope, what is left is not what was linted and would be rejected |
| Gate.OneListInItselfEndsTheRun | src/orbital_mission_compiler/cli.py:888-888 | A directory with a List that is its own item: every gated run ends in a traceback and exit code 1, untouched, however deep the interpreter recurses and whatever the linter says |
| Gate.OneListLabelStopsTheScan | src/orbital_mission_compiler/compiler.py:1781-1789 | One manifest whose renderer label is a list stops every scan that looks at it |
| Commands.WriteIndividually | src/orbital_mission_compiler/compiler.py:2144-2150 | File by file, each name holds its old content or its new one |
| Commands.RenderUngated | src/orbital_mission_compiler/cli.py:585-643 | The ungated Argo writer: within its rights on every path, untouched output where the set is not all free or its own, complete on success, which means nothing was refused, and a quiet run succeeds unless the scan raises |
| Commands.StageSet | src/orbital_mission_compiler/cli.py:1730-1738 | Every planned file in staging, or a fault |
| Commands.PrepareSet | src/orbital_mission_compiler/cli.py:1710-1738 | The room to publish from: only a backup that cannot be made is reported, any other refusal ends in a traceback, and being ready means none was met |
| Commands.PublishStaged | src/orbital_mission_compiler/cli.py:1740-1797 | Publication, the question whether staging is gone, and the prune |
| Commands.RenderKueue | src/orbital_mission_compiler/cli.py:1691-1797 | The same of the Kueue writer, which stages, publishes as a set and prunes under the lock; a report that nothing was modified is true unless the whole set landed before an error, and a quiet run has one ending |
| LockWait.Acquire | src/orbital_mission_compiler/cli.py:1083-1127 | Fewer than `5 * timeout + 2` attempts; only contention is retried; giving up on contention happens only past the deadline |
| Sections.StepKeepsSound | src/orbital_mission_compiler/cli.py:1363-1587 | Each copy, rename, unlink and scan of the three sections, granted or refused and whatever it misreads, keeps what holds at that point: what is copied is what the directory holds, what is moved is accounted for, what is removed is what the scan answered; a rollback that reports names left them and only them, after two refusals at least |
| Sections.SectionsObey | src/orbital_mission_compiler/cli.py:1691-1797 | Wherever a section has got to, it has stayed within its command's rights in the directory it found; before its first write that directory is untouched; at its end it has kept the contract of its method, the one ending of an undisturbed run included |
| Sections.OneRefusalIsUndone | src/orbital_mission_compiler/cli.py:1228-1265 | Where a publication is turned back by the only refusal of the run, it ends with the directory it found and reports just that |
| Sections.RollbackIsExact | src/orbital_mission_compiler/cli.py:1228-1265 | From the refusal on a rollback takes one operation a name and reports exactly the names whose way back was refused; every other name has its old content |
| Refusals.SectionsTell | src/orbital_mission_compiler/cli.py:1363-1587 | Whatever the host refuses, the ending of a section tells the first operation it refused: the snapshot, the look, the clean-up, a check, the room, a move, the scan or the prune; a success met no refusal at all |
| Sections.GatesVouch | src/orbital_mission_compiler/cli.py:1363-1549 | A gate that succeeds had the predicted directory accepted, and leaves it exactly when what was predicted to go is what went |
| Sections.SectionsEnd | src/orbital_mission_compiler/cli.py:1128-1133 | Every section ends, whatever is refused, so the lock is given back |
| Sections.StepSparesForeign | src/orbital_mission_compiler/cli.py:605-642 | One step leaves a file foreign to its command, and not misread where only that protects it, alone, whatever others did to the directory since the last one |
| Sections.LinkIsLost | src/orbital_mission_compiler/cli.py:1222-1265 | A run of `_publish` that installs over a link to nowhere, is refused the next file, reports that it rolled everything back, and has lost the link |
| Sections.DeniedIff | src/orbital_mission_compiler/cli.py:1190-1191 | A step that reports a failed, undone publication has left the new set in place if and only if it is the one that asks for the backup, and then the asking raised |
| Sections.SetIsDenied | src/orbital_mission_compiler/cli.py:1751-1763 | A run of `render-kueue` that does so |
| LockProtocol.StepKeepsInv | src/orbital_mission_compiler/cli.py:996-1133 | The invariant every step of every process keeps: the holder's section is alone with the directory it found, which is what the turns before it left |
| LockProtocol.MutualExclusion | src/orbital_mission_compiler/cli.py:1085-1131 | Where all lock, at most one section is between lock and unlock, and nothing but its steps changes the directory |
| LockProtocol.GatesNeedTheLock | src/orbital_mission_compiler/cli.py:1365-1376 | Whoever goes without, a gate works only while it holds the lock, so two never work at once |
| LockProtocol.UnlockedWriterIntrudes | src/orbital_mission_compiler/cli.py:605-611 | An ungated writer told that it cannot lock does to the directory all it would do alone while a gate holds the lock |
| LockProtocol.SnapshotHoldsUntilFirstWrite | src/orbital_mission_compiler/cli.py:1363-1376 | Whatever a gate has copied to be linted is what the directory holds until the gate itself writes |
| LockProtocol.HolderObeys | src/orbital_mission_compiler/cli.py:1520-1549 | At every moment, so also when it is killed there, the holder has changed only what its command may |
| LockProtocol.VerdictHoldsAtUnlock | src/orbital_mission_compiler/cli.py:1363-1376 | Among any number of writers that lock: when a gate is about to unlock after a success, the manifests of the directory are what the linter accepted, if and only if in the directory as the gate found it what was predicted to go is what went |
| LockProtocol.InterleavingIsSequential | src/orbital_mission_compiler/cli.py:996-1133 | Whenever the lock is free the directory is what the turns leave one after another: finished sections run to their end, killed ones as far as they got, those that timed out not at all |
| LockProtocol.TurnsAreARun | src/orbital_mission_compiler/cli.py:1691-1797 | The directories between turns are a run of commands within their rights |
| LockProtocol.ForeignFilesSurviveConcurrency | src/orbital_mission_compiler/cli.py:605-642 | A file foreign to all commands that none misreads so is there, unchanged, at every moment of every interleaving, with the lock or without |
| LockProtocol.HolderFinishes | src/orbital_mission_compiler/cli.py:1128-1133 | Whoever holds the lock comes to its end by its own steps alone and gives it back |
| LockProtocol.WaitersMayFinish | src/orbital_mission_compiler/cli.py:1083-1133 | From every reachable state every command still waiting may yet take the lock and finish: nothing deadlocks |
| StrictLoader.Loader.Refuse | src/orbital_mission_compiler/compiler.py:213-282 | The scan fails only on a mapping worth refusing, and each mapping is read once, before it is flattened |
| StrictLoader.Loader.RefusePairs | src/orbital_mission_compiler/compiler.py:255-282 | One mapping's pairs: repeated keys, a second `<<`, and every merge source in turn |
| StrictLoader.Loader.RefuseSources | src/orbital_mission_compiler/compiler.py:268-270 | Every source of a merge is scanned in its own right |
| StrictLoader.Loader.Flatten | src/orbital_mission_compiler/compiler.py:240-250 | Sources are spliced in at the front, flattened first, and stay there |
| StrictLoader.Loader.FlattenValue | src/orbital_mission_compiler/compiler.py:284-290 | One merge value, a mapping or a list of them, the earlier of a list winning |
| StrictLoader.UnscannedIsPristine | src/orbital_mission_compiler/compiler.py:240-248 | A mapping the scan has not reached is as its author wrote it |
| StrictLoader.RevisitIsACycle | src/orbital_mission_compiler/compiler.py:231-237 | Meeting a mapping that is being visited means it merges itself |
| StrictLoader.Loader.Construct | src/orbital_mission_compiler/compiler.py:207-211 | One construction: success and value depend on the document and the mapping alone, not on what was constructed before |
| StrictLoader.Load | src/orbital_mission_compiler/compiler.py:193-290 | Any construction calls in any order: success if and only if no mapping reached by merging repeats a key, writes `<<` twice, merges itself or merges a non-mapping, and each value is what the merge-key type gives the mapping as written |
| NodeGraph.FlatMeansMeaning | src/orbital_mission_compiler/compiler.py:240-250 | Splicing and overwriting come to the merge key's meaning |
| NodeGraph.FuelIsEnough | src/orbital_mission_compiler/compiler.py:240-250 | The depth bound in those definitions bounds nothing where merging is acyclic |
| StrictLoader.FirstSourceWins | src/orbital_mission_compiler/compiler.py:271-275 | A merged key has the value of the first source that has it |
| StrictLoader.OneReading | src/orbital_mission_compiler/compiler.py:213-232 | Permuting the entries an author wrote changes no mapping's meaning, through nested and shared sources |
| StrictLoader.OrderIsIrrelevant | src/orbital_mission_compiler/compiler.py:193-200 | Nor whether the document is accepted |
| Metadata.Walk | src/orbital_mission_compiler/schemas.py:143-218 | Always returns; accepts if and only if the recursive reading does and the unfolding has at most 10,000 values; every refusal is true: what it names stands somewhere below the root, "contains itself" a container that does |
| Metadata.FittingIsEveryTrail | src/orbital_mission_compiler/schemas.py:166-216 | The recursive reading is: every way down is at most 32 deep and ends in a sound value |
| Metadata.AcceptedIsSoundThroughout | src/orbital_mission_compiler/schemas.py:200-216 | In accepted metadata every value below the root, in lists as in mappings, is at most 32 deep, plain or keyed by text, and inside no loop |
| Metadata.OneUnsoundValueRefuses | src/orbital_mission_compiler/schemas.py:176-216 | One value too deep, of no JSON form, keyed by something else or holding itself, anywhere below, and it is not accepted |
| Metadata.LoopsNeverFit | src/orbital_mission_compiler/schemas.py:197-199 | A container inside itself is refused at any depth; sharing is not looping |
| Metadata.EnteredAreTheMarkers | src/orbital_mission_compiler/schemas.py:161-169 | The containers on the path are exactly those with a leave marker on the stack |
| Metadata.ReentryIsALoop | src/orbital_mission_compiler/schemas.py:198-199 | Reaching one of them again closes a loop through it |
| Metadata.Expanding | src/orbital_mission_compiler/schemas.py:200-216 | Marker and children take a container's place and what is pending is unchanged but for it |
| Labels.SanitizedIsALabel | src/orbital_mission_compiler/compiler.py:40-46 | Any text becomes a label of the length asked for, without double dashes |
| Labels.LabelsAreFixed | src/orbital_mission_compiler/compiler.py:40-46 | And such a label is left alone |
| Labels.CaseIsForgotten | src/orbital_mission_compiler/compiler.py:40-46 | Names that differ in case alone come to one label, the Kelvin sign and `k` included |
| Labels.OthersBecomeHyphens | src/orbital_mission_compiler/compiler.py:40-46 | Exactly what is no letter or digit in either case becomes a hyphen |
| Names.ResistantIsALabel | src/orbital_mission_compiler/compiler.py:149-160 | So is a name cut short and given a digest |
| Names.ResistantSurvivesSanitizing | src/orbital_mission_compiler/compiler.py:628-632 | The object name made from a workflow name is that name |
| Names.ResistantKeepsAHead | src/orbital_mission_compiler/compiler.py:149-160 | A leading word that fits before the digest survives cutting |
| Names.IndexIsLegible | src/orbital_mission_compiler/compiler.py:555-557 | The step's index can be read back from its task name, whatever the step is called and whatever the digest, for every index below 10^49 |
| Names.TasksAreTold | src/orbital_mission_compiler/compiler.py:553-607 | Task names are pairwise distinct, labels of at most 63 characters, and never `main` |
| Names.Namer.Name | src/orbital_mission_compiler/compiler.py:390-411 | The k-th occurrence of a canonical name gets its k-th variant |
| Names.UncutIsDated | src/orbital_mission_compiler/compiler.py:163-170 | A name that is not cut still ends in its timestamp, in `z` or in a time of day and an offset |
| Names.TimestampedNamesAreDistinctIff | src/orbital_mission_compiler/compiler.py:390-411 | The names of identifiers that end in a timestamp are distinct if and only if no numbered name has the head and digest of another cut text, or is itself uncut and reads like one |
| Names.FittingNamesAreDistinct | src/orbital_mission_compiler/compiler.py:390-411 | Names that leave room for a number are always distinct |
| Names.TellingDigestsSuffice | src/orbital_mission_compiler/compiler.py:149-160 | So are those of fewer than ten million occurrences if the digest tells the hashed texts apart |
| Names.ShortNamesAreDistinctIff | src/orbital_mission_compiler/compiler.py:390-411 | Where nothing is cut: exactly when no canonical name is another with a number its repeats reach |
| Names.RepeatsCanClash | src/orbital_mission_compiler/compiler.py:390-411 | On identifiers without a timestamp: `m-s-t` twice and `m-s-t-2` come to `m-s-t`, `m-s-t-2`, `m-s-t-2` |
| Policy.Violations | src/orbital_mission_compiler/baseline_validator.py:99-226 | The three nested loops produce the findings below, and raise exactly on a `resource_class` that cannot be looked up |
| Policy.CheckEvent | src/orbital_mission_compiler/baseline_validator.py:122-152 | One pass of the outer loop |
| Policy.CheckService | src/orbital_mission_compiler/baseline_validator.py:154-189 | One pass of the middle loop |
| Policy.CheckStep | src/orbital_mission_compiler/baseline_validator.py:191-224 | One pass of the inner loop |
| Policy.FindingsAreDenials | src/orbital_mission_compiler/baseline_validator.py:99-226 | A violation is found if and only if its own rule, stated about its own kind of node alone, denies it: no rule hides another |
| Policy.FindingsAreDistinct | src/orbital_mission_compiler/baseline_validator.py:19-20 | No rule reports one node twice |
| Policy.FindingsAreNamed | src/orbital_mission_compiler/baseline_validator.py:19-20 | Every path, evaluated as RFC 6901 section 4 says, leads to a node or to a member an existing object could have |
| Policy.PlanRulesOnRawFields | src/orbital_mission_compiler/baseline_validator.py:99-120 | Rules 1 and 2 on a plan as it is written: absent, null, empty or blank |
| Policy.EventRulesOnRawFields | src/orbital_mission_compiler/baseline_validator.py:122-152 | Rules 3, 7 and 8 on an event: an absent `ground_visibility` is not visibility, and nothing but `true` is |
| Policy.ServiceRulesOnRawFields | src/orbital_mission_compiler/baseline_validator.py:154-189 | Rules 5, 9 and 10 on a service: a zero is a number, never `false` |
| Policy.StepRulesOnRawFields | src/orbital_mission_compiler/baseline_validator.py:191-224 | Rules 4 and 6 on a step, and which classes cannot be looked up |
| Policy.PathsReadBack | src/orbital_mission_compiler/baseline_validator.py:60-69 | As text, too, distinct paths are distinct |
| Policy.UnreadableIsAStep | src/orbital_mission_compiler/baseline_validator.py:191-200 | The plans the validator raises on are those with such a step |
| Policy.OneListClassStopsTheValidator | src/orbital_mission_compiler/baseline_validator.py:191-200 | On a plan of one step the validator raises if and only if its `resource_class` is a list or a mapping |
| Decision.OnlyAnEmptyDecisionAdmits | src/orbital_mission_compiler/compiler.py:1307-1391 | The parser returns nothing to deny only for an object with `allow` absent or true, every list present empty, and one present |
| Decision.ParsedAgrees | src/orbital_mission_compiler/compiler.py:1325-1391 | Whatever it returns, every field present agrees with it, `deny` message for message |
| Decision.ReadableIff | src/orbital_mission_compiler/compiler.py:1307-1391 | A decision is read exactly when its fields have their types, one list at least is there, and list, messages and `allow` agree |
| Decision.TypedMeans | src/orbital_mission_compiler/compiler.py:1274-1305 | A violation is usable exactly when each of its six fields is there and of its kind |
| Decision.DenialsAreReturned | src/orbital_mission_compiler/compiler.py:1361-1375 | A denial of plain messages is returned message by message, each a structural violation |
| Decision.RulesAreLabelled | src/orbital_mission_compiler/baseline_validator.py:35-58 | Severity, provenance and identifier of each rule |
| Decision.DecisionsReadBack | src/orbital_mission_compiler/baseline_validator.py:229-236 | The decision made of `is_allowed`, `evaluate` and `violations` parses back to the violations, for every plan |
| Decision.ReportsTell | src/orbital_mission_compiler/baseline_validator.py:60-69 | A report tells its finding: rule by number and name, severity, provenance, path and words |
| Decision.ReportsDiffer | src/orbital_mission_compiler/baseline_validator.py:19-20 | No two reports of a plan are alike, whatever their words |
| Stages.SchemaLeavesFiveRules | src/orbital_mission_compiler/schemas.py:251-360 | A plan the schema passed can break only rules 3, 4, 5, 6 and 10 |
| Stages.AllFiveCanFire | src/orbital_mission_compiler/schemas.py:251-360 | And each of the five can still fire |
| Stages.AllowedIsClean | src/orbital_mission_compiler/baseline_validator.py:99-226 | For such plans the policy allows exactly those clean in the schema's own terms |
| Stages.SchemaKeepsPlansReadable | src/orbital_mission_compiler/baseline_validator.py:200 | And the validator never raises |
| Intents.DescribeSteps | src/orbital_mission_compiler/schemas.py:413-442 | Accepted if and only if no given hint contradicts the steps; the missing ones are filled in and no other changes |
| Intents.CompileService | src/orbital_mission_compiler/compiler.py:439-467 | One service of one acquisition: its intent, its name, its hints, refused exactly when an identifier is blank, the priority outside 0 to 100 or there is no step |
| Intents.CompilePlan | src/orbital_mission_compiler/compiler.py:414-474 | One well-made intent for each service of each acquisition, in plan order, named by occurrence; it raises exactly when some service would; a valid plan always compiles |
| Intents.StagesCompose | src/orbital_mission_compiler/compiler.py:173-190 | A plan that passed schema and policy compiles to intents on which priority scaling, primary-step choice, the hint check and the execution mode all have an answer |
| Pipeline.IntentsAreTheirServices | src/orbital_mission_compiler/compiler.py:439-467 | The k-th intent has the identity, priority and steps of the k-th service, and every hint says of event, service or steps what they are |
| Pipeline.ModesReachTheDocument | src/orbital_mission_compiler/compiler.py:609-617 | From plan to document: a sequential service runs in the order of its steps and in no other, of a parallel one no task waits for any |
| Pipeline.ImagesReachTheWorkflow | src/orbital_mission_compiler/compiler.py:568-590 | The m-th template of the workflow runs the image its author gave the m-th step |
| Pipeline.ImagesReachTheJob | src/orbital_mission_compiler/compiler.py:1036-1068 | And the Job runs that of the primary step |
| Render.RenderArgo | src/orbital_mission_compiler/compiler.py:521-663 | Renders exactly the intents it may, the size of the annotations included; templates and tasks are those of the steps, chained in sequential mode |
| Render.Chain | src/orbital_mission_compiler/compiler.py:615-617 | Each task but the first depends on the one before it, and nothing else changes |
| Render.SequentialOrderIsForced | src/orbital_mission_compiler/compiler.py:609-617 | Of the document rendered for an intent without the hint or with `sequential`: an order respects its dependencies if and only if it is the step order |
| Render.ParallelHasNoEdges | src/orbital_mission_compiler/compiler.py:612-617 | Of the document rendered with `parallel`: no task depends on any, so every order of all the tasks will do |
| Render.TasksNameTheirTemplates | src/orbital_mission_compiler/compiler.py:604-607 | Every task names its own template, which is not the entry template |
| Render.TemplatesRunTheSteps | src/orbital_mission_compiler/compiler.py:568-607 | Template by template and task by task: the step's image under the task's own name |
| Render.SubdomainIff | src/orbital_mission_compiler/compiler.py:87-107 | A name is accepted exactly when every part between its dots is a label of whatever length |
| Render.LabelsAreSubdomains | src/orbital_mission_compiler/compiler.py:54-120 | A label is a subdomain of at most 63 characters without a dot |
| Writers.PlanArgo | src/orbital_mission_compiler/compiler.py:2120-2140 | Every file of the set or none, and none exactly when some intent cannot be rendered; each intent's file is its own |
| Writers.NamespacesAreGiven | src/orbital_mission_compiler/compiler.py:2116-2141 | Every document is in the namespace that was given, or in the fallback's own if none was and the claims need one |
| Writers.PrimaryStep | src/orbital_mission_compiler/compiler.py:993-1013 | The first GPU step, else the first FPGA step, else the first |
| Writers.RenderJob | src/orbital_mission_compiler/compiler.py:1016-1205 | A Job is rendered exactly when namespace and queue are names, there is a step, the priority has a tier, the annotations fit and the class, if asked for, is a label |
| Writers.RenderClasses | src/orbital_mission_compiler/compiler.py:932-967 | All four classes of a prefix, or none |
| Writers.BundleAcceptedIff | src/orbital_mission_compiler/compiler.py:918-929 | And that is exactly whether each of the four names is a label |
| Writers.JobsRunThePrimaryStep | src/orbital_mission_compiler/compiler.py:1036-1070 | A Job's file holds one Job, last, and it runs the name and image of the first GPU step, else of the first FPGA step, else of the first step, on a GPU claim just where it is a GPU step |
| Writers.TiersAreQuarters | src/orbital_mission_compiler/compiler.py:173-190 | The four tiers are the quarters of the scale, the highest first |
| Writers.JobsNameEmittedClasses | src/orbital_mission_compiler/compiler.py:1185-1199 | The class a Job names is exactly one of the bundle of its prefix, with the value and the mapping version of its tier |
| Writers.DocumentsNameTheirService | src/orbital_mission_compiler/compiler.py:1161-1175 | Every Workflow and Job is labelled with its mission and service and named after its workflow |
| Writers.RolesTellTheDocument | src/orbital_mission_compiler/compiler.py:1571-1585 | Every document says by its role what it is, and which mission it is of in its author's words |
| Writers.PlanKueue | src/orbital_mission_compiler/cli.py:1642-1689 | The class bundle if asked for, then each intent's files, or nothing, exactly when some name, queue, step list, priority or annotation is refused |
| Writers.KueueRouteOf | src/orbital_mission_compiler/cli.py:1669-1689 | Exactly claims go with the Job, firstAvailable claims to a file apart |
| Writers.ArgoClaimsResolve | src/orbital_mission_compiler/compiler.py:591-603 | Container and Pod claims match, and each is made from a template in the same file and namespace |
| Writers.KueueClaimsResolve | src/orbital_mission_compiler/compiler.py:1093-1112 | The same for the Job, for any intent with steps whatever its hints say |
| Writers.BothHalves | src/orbital_mission_compiler/compiler.py:694-708 | Under `--dra-fallback` every GPU step of an allowed plan gets both halves of the claim |
| Writers.ReadyIsAccepted | src/orbital_mission_compiler/compiler.py:609-614 | And the renderer does not refuse such an intent |
| Writers.ClaimNamesCollideIff | src/orbital_mission_compiler/compiler.py:666-674 | The two claim templates of an intent share a name exactly when both were cut and their digests agree |
| Writers.ClaimsOfTwoCollideIff | src/orbital_mission_compiler/compiler.py:666-674 | Of two intents of one render: exactly when they share name and device, or both names were cut and agree in head and digest |
| Writers.JobsAvoidTheFallback | src/orbital_mission_compiler/compiler.py:1093-1112 | With a digest that tells them apart no Job references the firstAvailable template |
| Paths.PathsAreDistinctIff | src/orbital_mission_compiler/compiler.py:2072-2085 | The planned paths of a compiled plan are distinct if and only if no numbered name meets another cut text as above |
| Paths.FittingPathsAreDistinct | src/orbital_mission_compiler/compiler.py:2072-2085 | So a plan whose identifiers leave room for a number always passes |
| Paths.KueuePathsAreDistinctIff | src/orbital_mission_compiler/cli.py:1654-1689 | The paths of `render-kueue`, Jobs, claims set apart and class bundle together, are distinct under the same condition |
| Manifests.StampsReadBack | src/orbital_mission_compiler/compiler.py:1577-1585 | What a writer stamps on a document is what the classifier reads from it |
| Provenance.ArgoDocsBear | src/orbital_mission_compiler/compiler.py:628-648 | Every document of an Argo file bears its mission, owner and renderer, the claim template included |
| Provenance.KueueDocsBear | src/orbital_mission_compiler/compiler.py:843-861 | So does every document of a Job's file |
| Provenance.SchedulerDocsBear | src/orbital_mission_compiler/compiler.py:738-757 | And of the claims set apart from it |
| Provenance.BundleBears | src/orbital_mission_compiler/compiler.py:946-964 | The class bundle bears its installation's prefix and no mission |
| Provenance.FilesReadBack | src/orbital_mission_compiler/compiler.py:1741-1811 | Every planned file is classified back to its own mission or installation, scope, owner and renderer |
| Provenance.OverwritingNeedsTheOwner | src/orbital_mission_compiler/compiler.py:1991-2002 | Over one writer's file another may write exactly when both say the same owner |
| Provenance.RerenderIsWritable | src/orbital_mission_compiler/compiler.py:1960-2007 | An Argo render can replace any file of its mission, whichever renderer wrote it; one for another fingerprint is always refused |
| Provenance.KueueRerenderIsWritable | src/orbital_mission_compiler/compiler.py:1960-2007 | The same of both files `render-kueue` plans for an intent |
| Provenance.RebundleIsWritable | src/orbital_mission_compiler/compiler.py:1993-1998 | The same of class bundles and their prefix |
| Provenance.MissionFilesAreClaimedIff | src/orbital_mission_compiler/compiler.py:1653-1697 | A mission's file is claimed if and only if mission and renderer are those asked about: neither renderer ever prunes the other's |
| Provenance.BundlesAreClaimedIff | src/orbital_mission_compiler/cli.py:1780-1791 | A bundle is claimed if and only if `render-kueue` runs with `--prune-global` and the bundle's own prefix |
| Provenance.BundlesAreGrouped | src/orbital_mission_compiler/cli.py:182-189 | A bundle that is read well lands in exactly one group: another installation's, held back, or deleted |
| Provenance.MissionFilesAreGrouped | src/orbital_mission_compiler/cli.py:182-216 | A mission's own stale file is in neither report group and goes |
| Provenance.ArgoFilesAreClaimed | src/orbital_mission_compiler/compiler.py:2088-2150 | Every file an Argo render writes is claimed by the next run for its mission |
| Provenance.KueueFilesAreClaimed | src/orbital_mission_compiler/cli.py:1642-1689 | Every file a Kueue render writes is claimed by the next run, but the bundle only by one that prunes globally |
| Provenance.RendersConverge | src/orbital_mission_compiler/compiler.py:2088-2150 | From intents to directory: after a pruning Argo render the mission's artifacts are exactly the files just rendered, if and only if the prune misread no stale one, and repeating it changes nothing |
| Provenance.KueueRendersConverge | src/orbital_mission_compiler/cli.py:1775-1797 | The same of `render-kueue`, with and without class bundle and `--prune-global` |
| Provenance.OneMisreadLosesABundle | src/orbital_mission_compiler/cli.py:182-189 | Over another installation's bundle a pruning run that nothing is refused succeeds, and the bundle is gone if and only if that one reading of it failed |
| Timeline.Analyze | src/orbital_mission_compiler/compiler.py:341-382 | Every overlapping pair of windows once, in lexicographic order of the indices, and no other; each entry names its two windows and how long they share |
| Timeline.WindowsAreAcquisitions | src/orbital_mission_compiler/compiler.py:349-365 | The windows are the acquisitions of known length in plan order, each from its instant for its duration |
| Timeline.SkippedAreUnmeasured | src/orbital_mission_compiler/compiler.py:349-363 | What is skipped is the acquisitions of unknown length |
| Timeline.SharedIsTheLongest | src/orbital_mission_compiler/compiler.py:364-377 | Two windows overlap exactly if some stretch of time lies in both, and what they share is the longest |
| Timeline.NoConflictMeansBackToBack | src/orbital_mission_compiler/compiler.py:364-377 | Among windows that last, the list is empty if and only if, taken by start, each is over before the next begins |
| Timeline.InstantsAreMissed | src/orbital_mission_compiler/compiler.py:367-371 | A window of no length inside another is never reported |

## Left out

- Publishing.Host.Publish: names in a set are distinct by precondition, which `preflight_unique` establishes before any call.
- Gate.Carry: the listing's order is left open, so every order is covered.
- Gate.RenderGated: `output_modified` may over-report, as the source does after a scan failure; a cleanup that fails after a linter exit of 0 with a skipped file is reported as the source reports it; what raises while a traceback is already on its way is not told apart.
- Documents.ReturnsIff: one frame is counted for each call of the check itself, none for what it calls.
- Reconcile.ForeignIsReachedIff: a reading fails or succeeds as a whole, for whatever reason; that a file is replaced by another process between two readings of one scan is not modelled.
- Reconcile.ReportStale: warnings on standard error are not modelled.
- Sections.StepKeepsSound: the preflight reads one path a step, but each stale scan with its readings, the document check and the linter run, and the filling and emptying of a private staging directory, are one step each; an absent output directory is an empty one there, names in a set are distinct, and a gate's question whether its staging is gone, asked after the unlock, is in `Gate.CommitLooked` alone.
- LockProtocol.InterleavingIsSequential: all processes name the directory by one lock key; a gate that has no linter or nothing to render ends under the lock instead of before it, having touched nothing.
- StrictLoader.Load: `flatten_mapping` is PyYAML's and not part of this model; it does what the docstring says of it. Keys are hashable scalars known by value.
- Metadata.Walk: scalars are known by kind only; the position text of a refusal is left out.
- Policy.Violations: message wording is a parameter of `Decision.Reported`, and the three loops are four methods, one a level.
- Intents.CompilePlan: timestamps are text beside an instant; conflict warnings are logged only.
- Names.UncutIsDated: offsets are whole minutes, which is what a parsed plan can hold.
- Render.RenderArgo: entry points, environment, affinity, the priority label and the remaining annotations of a manifest are left out, and whether the annotations fit the size limit is an arbitrary predicate of the intent; no ordering or claim depends on them.
- Writers.PlanKueue: resource quantities, which the command leaves at their valid defaults, the accelerator node selectors, tolerations and the projection report are left out.
- Provenance.FilesReadBack: that the YAML written is read back as written is assumed; only metadata is.
- Timeline.Analyze: the two-digit rounding of the shared length is left out; arithmetic is over the reals.
- `Digest` and the fingerprint are arbitrary functions; where telling two names or two missions apart matters, the theorem says which values have to differ.
- The linter, `kubectl`, `opa` and git: the linter is an arbitrary function of the staged directory.
- YAML and JSON parsing, pydantic's coercions, node-selector syntax and argument parsing: the model starts from parsed values and typed plans.
- Lock-file permissions, mount checks, file modes and the standalone Rego bundle.
- Benchmarks, provenance records, the ablation tables, the experiment runner and the server.
