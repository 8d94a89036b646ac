/** Render, lint what the directory will hold, and publish only if that is accepted. */
module Gate {
  import opened Wrappers
  import opened Json
  import opened Files
  import opened Ownership
  import opened Publishing
  import opened Reconcile
  import opened Documents

  /** The linter's answer: an exit code, and whether its log names a file it skipped. */
  datatype Lint = Verdict(failed: bool, skippedFile: bool) | NoVerdict

  datatype LockAnswer = Locked | LockUnsupported | LockUnavailable

  /** What the world answers: is the CLI there, did the lock come, what does the linter say of a
      directory, can a backup directory be made beside the output, how deep may a check recurse. */
  datatype World = World(
    linterFound: bool, lock: LockAnswer, lint: Tree -> Lint, backupPossible: bool, frames: nat)

  datatype Reason =
    | Passed | NotApplicable | LinterUnavailable | NoManifests | PublishLockUnavailable | SymlinkedManifest
    | SnapshotFailed | LintFailed | CleanupFailed(lintFailed: bool) | NotOwned
    | RollbackIncomplete(unrestored: set<Name>, unremoved: set<Name>)
    | PruneFailed(removed: set<Name>, remaining: set<Name>)
    | StaleScanFailed | PublishFailed | StagingUnavailable

  /** The one JSON document a run prints, or the traceback it ends in instead. */
  datatype Ending =
    | Report(reason: Reason, outputModified: bool)
    | Traceback

  predicate Succeeded(e: Ending) {
    e.Report? && (e.reason.Passed? || e.reason.NotApplicable?)
  }

  function ExitCode(e: Ending): int {
    match e
    case Traceback => 1
    case Report(Passed, _) => 0
    case Report(NotApplicable, _) => 0
    case Report(LintFailed, _) => 1
    case Report(CleanupFailed(lintFailed), _) => if lintFailed then 1 else 2
    case Report(_, _) => 2
  }

  /** Exit 0 is success, exit 1 a rejection or a traceback, exit 2 a run that could not answer. */
  lemma ExitCodesTell(e: Ending)
    ensures ExitCode(e) == 0 <==> Succeeded(e)
    ensures ExitCode(e) == 1 <==>
      e.Traceback? || e.reason == LintFailed || e.reason == CleanupFailed(true)
    ensures ExitCode(e) != 0 && ExitCode(e) != 1 ==> ExitCode(e) == 2
  {
  }

  /** The regular manifests of a directory: what `kubectl apply -f` reads and the linter is shown. */
  function Manifests(t: Tree): Tree {
    map n | n in t && IsManifest(n) && t[n].Regular? :: t[n]
  }

  /** What `render-argo` asks of reconciliation: one mission, no installation. */
  predicate IsArgoQuery(q: Query) {
    q.renderer == ARGO && q.missions != {} && !q.includeUnmissioned && q.installation.None? && !q.pruneGlobal
  }

  /** The prediction the snapshot makes before anything is published. */
  function Leaving(t: Tree, c: Command, prune: bool): set<Name> {
    if prune then Mine(t, c.planned.Keys, c.q, c.readings.predicting) else {}
  }

  /** The predicted directory: what is there, less what pruning is thought to remove, plus the render. */
  function Predicted(t: Tree, c: Command, prune: bool): Tree {
    Manifests(t - Leaving(t, c, prune)) + c.planned
  }

  /** What a successful gated run leaves. */
  function Left(before: Tree, c: Command, prune: bool): Tree {
    if prune then Settled(before, c) else before + c.planned
  }

  /** The prediction raises: it asks the classifier about a file it cannot answer for. */
  predicate PredictionRaises(t: Tree, c: Command, prune: bool) {
    prune && ScanCrashes(t, c.planned.Keys, c.q, c.readings.predicting)
  }

  predicate StampsRaise(t: Tree) {
    exists n :: n in t && IsRenderedArtifact(t[n]) && Classify(t[n]).Crash?
  }

  /** The names the snapshot looks at: manifests that neither the render nor the prune replaces. */
  function Staying(t: Tree, staged: set<Name>, leaving: set<Name>): set<Name> {
    set n | n in t && IsManifest(n) && n !in staged && n !in leaving
  }

  predicate Linked(t: Tree, n: Name) {
    n in t && t[n].Symlink?
  }

  /** No manifest that will stay is a link. */
  predicate NoLinksStay(t: Tree, c: Command, prune: bool) {
    forall n :: n in Staying(t, c.planned.Keys, Leaving(t, c, prune)) ==> !Linked(t, n)
  }

  /** No operation is refused. */
  ghost predicate Quiet(host: Host) {
    forall t :: !host.refuses(t)
  }

  /** Copy the manifests that will stay into staging, refusing links. */
  method Carry(host: Host, staged: set<Name>, leaving: set<Name>)
    returns (ok: bool, refused: Reason, carried: set<Name>)
    modifies host`staging, host`tick
    ensures ok ==>
      && carried == Manifests(Restrict(host.output, Staying(host.output, staged, leaving))).Keys
      && host.staging == old(host.staging) + Manifests(Restrict(host.output, Staying(host.output, staged, leaving)))
      && forall n :: n in Staying(host.output, staged, leaving) ==> !Linked(host.output, n)
    ensures !ok ==> refused.SymlinkedManifest? || refused.SnapshotFailed?
    ensures !ok && refused.SnapshotFailed? ==> exists t :: old(host.tick) <= t && host.refuses(t)
    ensures !ok && refused.SymlinkedManifest? ==>
      exists n :: n in Staying(host.output, staged, leaving) && Linked(host.output, n)
    ensures host.tick >= old(host.tick) && (ok ==> Granted(host.refuses, old(host.tick), host.tick))
  {
    var output := host.output;
    var names := Staying(output, staged, leaving);
    var todo := names;
    ghost var source := host.staging;
    refused, carried := Passed, {};
    while todo != {}
      invariant todo <= names && carried <= names - todo
      invariant host.staging == source + Restrict(output, carried)
      invariant forall n :: n in names - todo ==> !Linked(output, n) && (output[n].Regular? <==> n in carried)
      invariant host.tick >= old(host.tick) && Granted(host.refuses, old(host.tick), host.tick)
      decreases todo
    {
      var n :| n in todo;
      assert n in names && n in output;
      if Linked(output, n) {
        assert host.output == output && n in Staying(host.output, staged, leaving);
        return false, SymlinkedManifest, {};
      }
      if output[n].Regular? {
        if host.refuses(host.tick) {
          return false, SnapshotFailed, {};
        }
        host.tick := host.tick + 1;
        host.staging := host.staging[n := output[n]];
        assert Restrict(output, carried + {n}) == Restrict(output, carried)[n := output[n]];
        carried := carried + {n};
      }
      todo := todo - {n};
    }
    ok := true;
    assert Restrict(output, carried) == Manifests(Restrict(output, names));
  }

  lemma StayingIsPredicted(t: Tree, c: Command, leaving: set<Name>)
    ensures c.planned + Manifests(Restrict(t, Staying(t, c.planned.Keys, leaving))) ==
      Manifests(t - leaving) + c.planned
  {
  }

  /** Drop the carried copies again. */
  method DropCopies(host: Host, carried: set<Name>) returns (ok: bool)
    modifies host`staging, host`tick
    ensures ok ==> host.staging == old(host.staging) - carried
    ensures !ok ==> exists t :: old(host.tick) <= t && host.refuses(t)
    ensures host.tick >= old(host.tick) && (ok ==> Granted(host.refuses, old(host.tick), host.tick))
  {
    var todo := carried;
    while todo != {}
      invariant todo <= carried && host.staging == old(host.staging) - (carried - todo)
      invariant host.tick >= old(host.tick) && Granted(host.refuses, old(host.tick), host.tick)
      decreases todo
    {
      var n :| n in todo;
      if host.refuses(host.tick) {
        return false;
      }
      host.tick := host.tick + 1;
      host.staging := host.staging - {n};
      todo := todo - {n};
    }
    ok := true;
  }

  /** The snapshot: decide what stays, and stage it beside the render. */
  method Snapshot(host: Host, c: Command, prune: bool, ghost before: Tree)
    returns (ok: bool, ending: Ending, carried: set<Name>)
    requires host.output == before
    requires WellPlanned(c.planned) && IsArgoQuery(c.q) && host.staging == c.planned
    modifies host`staging, host`tick
    ensures ok ==> host.staging == Predicted(before, c, prune) && host.staging - carried == c.planned
    ensures ok ==> carried !! c.planned.Keys
    ensures !ok ==>
      || (ending == Report(SymlinkedManifest, false) && !NoLinksStay(before, c, prune))
      || (ending == Report(SnapshotFailed, false) && !Quiet(host))
      || (ending == Traceback && PredictionRaises(before, c, prune))
    ensures ok ==> NoLinksStay(before, c, prune) && !PredictionRaises(before, c, prune)
    ensures !ok && Quiet(host) ==>
      ending == if PredictionRaises(before, c, prune) then Traceback else Report(SymlinkedManifest, false)
    ensures host.tick >= old(host.tick) && (ok ==> Granted(host.refuses, old(host.tick), host.tick))
  {
    hide ScanCrashes, Mine, IsManifest, Pending;
    ending, carried := Traceback, {};
    if host.refuses(host.tick) {
      return false, Report(SnapshotFailed, false), {};
    }
    host.tick := host.tick + 1;
    if prune {
      if host.refuses(host.tick) {
        return false, Report(SnapshotFailed, false), {};
      }
      host.tick := host.tick + 1;
      if PredictionRaises(host.output, c, prune) {
        return false, Traceback, {};
      }
    }
    var refused;
    var staged, leaving := c.planned.Keys, Leaving(host.output, c, prune);
    ok, refused, carried := Carry(host, staged, leaving);
    StayingIsPredicted(host.output, c, leaving);
    ending := Report(refused, false);
    assert ok ==> host.staging - carried == c.planned;
  }

  // ---------------------------------------------------------------- after the verdict

  lemma WritesAreWithinRights(before: Tree, c: Command, after: Tree)
    requires WellPlanned(c.planned) && Writable(before, c.planned)
    requires forall n :: n !in c.planned ==> Look(after, n) == Look(before, n)
    ensures WithinRights(before, c, after)
  {
    forall n
      ensures MayChange(before, c, n) || Look(after, n) == Look(before, n)
    {
      if n in c.planned {
        assert Overwritable(before, n, c.planned[n]);
      }
    }
  }

  lemma WritesAndRemovalsAreWithinRights(before: Tree, c: Command, removed: set<Name>, after: Tree)
    requires WellPlanned(c.planned) && Writable(before, c.planned)
    requires removed <= Retired(before, c)
    requires after == before + c.planned - removed
    ensures WithinRights(before, c, after)
  {
    forall n
      ensures MayChange(before, c, n) || Look(after, n) == Look(before, n)
    {
      if n in c.planned {
        assert Overwritable(before, n, c.planned[n]);
      }
    }
  }

  lemma WritableHasNoDanglingLinks(t: Tree, planned: Tree)
    requires WellPlanned(planned) && Writable(t, planned)
    ensures forall n :: n in planned ==> !Dangling(t, n)
  {
    forall n | n in planned
      ensures !Dangling(t, n)
    {
      assert Overwritable(t, n, planned[n]);
    }
  }

  lemma PartialRollbackStaysInPlan(
    before: Tree, d: Disk, planned: Tree, installed: set<Name>, unrestored: set<Name>, unremoved: set<Name>)
    requires Restored(before, planned, d, planned.Keys, installed, unrestored, unremoved)
    ensures forall n :: n !in planned ==> Look(d.output, n) == Look(before, n)
  {
    forall n | n !in planned
      ensures Look(d.output, n) == Look(before, n)
    {
      assert RestoredAt(before, planned, d, planned.Keys, installed, unrestored, unremoved, n);
    }
  }

  lemma SomeAreAmongAll(names: seq<Name>, k: nat)
    requires k <= |names|
    ensures Names(names[..k]) <= Names(names)
  {
  }

  /** The pending documents, path by path, as `preflight_writable` is handed them. */
  function PendingDocuments(planned: Tree, written: seq<Name>): (r: seq<(Name, seq<JSON>)>)
    requires WellPlanned(planned) && Names(written) == planned.Keys
    ensures |r| == |written|
    ensures forall i :: 0 <= i < |r| ==>
      r[i].0 == written[i] && r[i].0 in planned && r[i].1 == planned[r[i].0].owned.value && AllStampable(r[i].1)
  {
    assert forall i :: 0 <= i < |written| ==> written[i] in Names(written) && Pending(planned[written[i]]);
    seq(|written|, i requires 0 <= i < |written| => (written[i], planned[written[i]].owned.value))
  }

  /** The preflight meets a file whose stamps cannot be taken. */
  predicate PreflightRaises(t: Tree, c: Command)
    requires WellPlanned(c.planned)
  {
    exists n :: n in c.planned
      && PreflightAt(t, n, c.planned[n].owned.value, c.readings.checking) == PreflightCrash
  }

  lemma PreflightRaisesOnStamps(t: Tree, c: Command)
    requires WellPlanned(c.planned) && PreflightRaises(t, c)
    ensures StampsRaise(t) && !Permitted(t, c)
  {
    var n :| n in c.planned
             && PreflightAt(t, n, c.planned[n].owned.value, c.readings.checking) == PreflightCrash;
    assert IsRenderedArtifact(t[n]);
  }

  lemma PendingIsPlanned(planned: Tree, written: seq<Name>, n: Name) returns (i: nat)
    requires WellPlanned(planned) && Names(written) == planned.Keys && n in planned
    ensures i < |written| && PendingDocuments(planned, written)[i] == (n, planned[n].owned.value)
  {
    assert n in Names(written);
    i :| 0 <= i < |written| && written[i] == n;
  }

  /** Decide whether every planned path is free or this owner's own. */
  method CheckOwnership(t: Tree, c: Command, written: seq<Name>) returns (r: Preflight)
    requires WellPlanned(c.planned) && Names(written) == c.planned.Keys
    ensures r == Free <==> Permitted(t, c)
    ensures r == PreflightCrash <==> PreflightRaises(t, c)
  {
    hide PreflightAt;
    var pending := PendingDocuments(c.planned, written);
    r := PreflightWritable(t, pending, c.readings.checking);
    forall n | n in c.planned
      ensures exists i :: 0 <= i < |pending| && pending[i] == (n, c.planned[n].owned.value)
    {
      var i := PendingIsPlanned(c.planned, written, n);
    }
    if r == Free {
      forall n | n in c.planned
        ensures PreflightAt(t, n, c.planned[n].owned.value, c.readings.checking) == Free
      {
        var i :| 0 <= i < |pending| && pending[i] == (n, c.planned[n].owned.value);
        assert PreflightAt(t, pending[i].0, pending[i].1, c.readings.checking) == Free;
      }
    } else {
      var i :| 0 <= i < |pending| && PreflightAt(t, pending[i].0, pending[i].1, c.readings.checking) != Free;
      assert !Permitted(t, c);
    }
    if r == PreflightCrash {
      var i :| 0 <= i < |pending|
               && PreflightAt(t, pending[i].0, pending[i].1, c.readings.checking) == PreflightCrash;
      assert pending[i].0 in c.planned;
    }
  }

  // ---------------------------------------------------------------- what a report says

  /** A rollback that could not finish left just this: what it names as not put back is gone or still
      new, what it names as not removed is new, and everything else is as it was. */
  ghost predicate LeftAsReported(
    before: Tree, planned: Tree, after: Tree, unrestored: set<Name>, unremoved: set<Name>)
  {
    forall n ::
      && (n in unremoved ==> n in planned && Look(after, n) == Some(planned[n]))
      && (n in unrestored ==> n in planned && Exists(before, n) && (n !in unremoved ==> n !in after))
      && (n in unremoved && n !in unrestored ==> !Exists(before, n))
      && (n !in unrestored && n !in unremoved ==> Look(after, n) == Look(before, n))
  }

  lemma RollbackLeavesAsReported(
    before: Tree, planned: Tree, d: Disk, installed: set<Name>, unrestored: set<Name>, unremoved: set<Name>)
    requires Restored(before, planned, d, planned.Keys, installed, unrestored, unremoved)
    requires forall n :: n in planned ==> !Dangling(before, n)
    ensures LeftAsReported(before, planned, d.output, unrestored, unremoved)
  {
    forall n
      ensures n in unremoved ==> n in planned && Look(d.output, n) == Some(planned[n])
      ensures n in unrestored ==> n in planned && Exists(before, n) && (n !in unremoved ==> n !in d.output)
      ensures n in unremoved && n !in unrestored ==> !Exists(before, n)
      ensures n !in unrestored && n !in unremoved ==> Look(d.output, n) == Look(before, n)
    {
      assert RestoredAt(before, planned, d, planned.Keys, installed, unrestored, unremoved, n);
    }
  }

  /** Which reports say that the output was modified. */
  predicate SaysModified(reason: Reason) {
    reason.Passed? || reason.RollbackIncomplete? || reason.PruneFailed? || reason.StaleScanFailed?
  }

  /** What a report says happened to the directory has happened to it. The only one that may be wrong
      is `PublishFailed`, once the set had landed. */
  ghost predicate Truthful(before: Tree, c: Command, prune: bool, quiet: bool, after: Tree, ending: Ending)
    requires WellPlanned(c.planned)
  {
    ending.Report? ==>
      && (ending.outputModified <==> SaysModified(ending.reason))
      && match ending.reason
         case Passed => after == Left(before, c, prune)
         case NotApplicable => after == Left(before, c, prune)
         case NotOwned => after == before && !Permitted(before, c)
         case RollbackIncomplete(unrestored, unremoved) =>
           && !quiet && unrestored + unremoved != {}
           && LeftAsReported(before, c.planned, after, unrestored, unremoved)
         case PruneFailed(removed, remaining) =>
           && !quiet && prune && remaining != {} && removed !! remaining
           && removed + remaining == Retired(before, c) && after == before + c.planned - removed
         case StaleScanFailed => !quiet && after == before + c.planned
         case PublishFailed => !quiet && (after == before || after == before + c.planned)
         case _ => after == before
  }

  /** The published set and what reconciliation makes of the rest. */
  method RetireStale(host: Host, c: Command, prune: bool, ghost before: Tree) returns (ending: Ending)
    requires WellPlanned(c.planned) && Writable(before, c.planned) && host.output == before + c.planned
    modifies host`output, host`backup, host`staging, host`tick, host`lossless
    ensures WithinRights(before, c, host.output) && Truthful(before, c, prune, Quiet(host), host.output, ending)
    ensures ending.Report? ==> ending.reason.Passed? || ending.reason.PruneFailed? || ending.reason.StaleScanFailed?
    ensures Succeeded(ending) ==> !ScanRaises(before, c)
    ensures ending.Traceback? ==> ScanRaises(before, c) && host.output == before + c.planned
    ensures Quiet(host) ==> if ScanRaises(before, c) then ending.Traceback? else Succeeded(ending)
    ensures host.tick >= old(host.tick) && (Succeeded(ending) ==> Granted(host.refuses, old(host.tick), host.tick))
  {
    var current, m := c.planned.Keys, c.readings.pruning;
    RemovableIgnoresCurrent(before, host.output, current, c.q, m);
    var report := ReportStale(host, current, c.q, m, prune);
    match report {
      case Reported(_, _, _, pruned, _) =>
        WritesAndRemovalsAreWithinRights(before, c, Names(pruned), host.output);
        return Report(Passed, true);
      case PruneIncomplete(removed, remaining) =>
        WritesAndRemovalsAreWithinRights(before, c, Names(removed), host.output);
        assert remaining[0] in Names(remaining);
        return Report(PruneFailed(Names(removed), Names(remaining)), true);
      case ScanFailed =>
        WritesAreWithinRights(before, c, host.output);
        return Report(StaleScanFailed, true);
      case ScanRaised =>
        WritesAreWithinRights(before, c, host.output);
        return Traceback;
    }
  }

  lemma ScansRaiseOnStamps(t: Tree, current: set<Name>, q: Query, m: Misreads)
    requires ScanCrashes(t, current, q, m)
    ensures StampsRaise(t)
  {
  }

  /** An error raised once the whole set has landed is reported as a publication that was rolled
      back. */
  predicate Denied(before: Tree, c: Command, after: Tree, ending: Ending) {
    ending == Report(PublishFailed, false) && after == before + c.planned
  }

  /** A rollback that left something says so truthfully, and stays within the command's rights. */
  lemma PartialRollbackIsReported(
    before: Tree, c: Command, prune: bool, d: Disk, installed: set<Name>, unrestored: seq<Name>, unremoved: seq<Name>)
    requires WellPlanned(c.planned) && Writable(before, c.planned)
    requires Restored(before, c.planned, d, c.planned.Keys, installed, Names(unrestored), Names(unremoved))
    requires unrestored != [] || unremoved != []
    ensures WithinRights(before, c, d.output)
    ensures var ending := Report(RollbackIncomplete(Names(unrestored), Names(unremoved)), true);
            Truthful(before, c, prune, false, d.output, ending)
  {
    hide Writable, WithinRights, LeftAsReported, Restored, Retired, Permitted;
    WritableHasNoDanglingLinks(before, c.planned);
    PartialRollbackStaysInPlan(before, d, c.planned, installed, Names(unrestored), Names(unremoved));
    RollbackLeavesAsReported(before, c.planned, d, installed, Names(unrestored), Names(unremoved));
    WritesAreWithinRights(before, c, d.output);
    assert unrestored != [] ==> unrestored[0] in Names(unrestored);
    assert unremoved != [] ==> unremoved[0] in Names(unremoved);
  }

  /** Publication alone: `ended` says that the run ends with it. */
  method PublishOnly(host: Host, c: Command, written: seq<Name>, prune: bool, ghost before: Tree)
    returns (ended: bool, ending: Ending)
    requires host.output == before
    requires WellPlanned(c.planned) && host.staging == c.planned && host.backup == map[]
    requires NoDup(written) && Names(written) == c.planned.Keys
    requires Writable(before, c.planned)
    modifies host
    ensures WithinRights(before, c, host.output)
    ensures !ended ==> host.output == before + c.planned
    ensures ended ==>
      !Quiet(host) && ending.Report? && (ending.reason.PublishFailed? || ending.reason.RollbackIncomplete?)
    ensures ended ==> Truthful(before, c, prune, Quiet(host), host.output, ending)
    ensures ended && Denied(before, c, host.output, ending) && host.output != before ==>
      host.tick > 0 && host.refuses(host.tick - 1)
    ensures host.tick >= old(host.tick) && (!ended ==> AllButOne(host.refuses, old(host.tick), host.tick))
  {
    hide Dangling, Restored, Overwritten, Writable, WithinRights, LeftAsReported, Granted, AllButOne;
    WritableHasNoDanglingLinks(before, c.planned);
    var outcome, leftover, reached := host.Publish(written);
    if outcome.Published? {
      AllButTheRemoval(host.refuses, old(host.tick), host.tick);
    }
    SomeAreAmongAll(written, reached);
    assert Restrict(c.planned, c.planned.Keys) == c.planned;
    match outcome {
      case PartlyRolledBack(unrestored, unremoved) =>
        PartialRollbackIsReported(
          before, c, prune, host.Now(), Names(written[..reached]), unrestored, unremoved);
        return true, Report(RollbackIncomplete(Names(unrestored), Names(unremoved)), true);
      case _ =>
        WritesAreWithinRights(before, c, host.output);
        return !outcome.Published?, Report(PublishFailed, false);
    }
  }

  /** Publication, and the prune that follows it. */
  method PublishSet(host: Host, c: Command, written: seq<Name>, prune: bool, ghost before: Tree)
    returns (ending: Ending)
    requires host.output == before
    requires WellPlanned(c.planned) && host.staging == c.planned && host.backup == map[]
    requires NoDup(written) && Names(written) == c.planned.Keys
    requires Writable(before, c.planned)
    modifies host
    ensures WithinRights(before, c, host.output) && Truthful(before, c, prune, Quiet(host), host.output, ending)
    ensures ending.Report? ==> Publishes(ending.reason)
    ensures Succeeded(ending) ==> !ScanRaises(before, c)
    ensures ending.Traceback? ==> ScanRaises(before, c) && host.output == before + c.planned
    ensures Quiet(host) ==> if ScanRaises(before, c) then ending.Traceback? else Succeeded(ending)
    ensures host.tick >= old(host.tick) && (Succeeded(ending) ==> AllButOne(host.refuses, old(host.tick), host.tick))
  {
    hide ScanRaises, Left, Writable, WithinRights, Truthful, Granted, AllButOne;
    var ended;
    ended, ending := PublishOnly(host, c, written, prune, before);
    if !ended {
      ghost var published := host.tick;
      ending := RetireStale(host, c, prune, before);
      GrantedThen(host.refuses, old(host.tick), published, host.tick);
    }
  }

  /** The reports of the half that publishes. */
  predicate Publishes(reason: Reason) {
    || reason.Passed? || reason.RollbackIncomplete? || reason.PruneFailed? || reason.StaleScanFailed?
    || reason.PublishFailed?
  }

  /** Ownership, publication and the prune, all under the lock the snapshot was taken under. */
  method Commit(host: Host, c: Command, written: seq<Name>, prune: bool, world: World, ghost before: Tree)
    returns (ending: Ending)
    requires host.output == before
    requires WellPlanned(c.planned) && host.staging == c.planned && host.backup == map[]
    requires NoDup(written) && Names(written) == c.planned.Keys
    modifies host
    ensures WithinRights(before, c, host.output) && Truthful(before, c, prune, Quiet(host), host.output, ending)
    ensures ending.Report? ==> Publishes(ending.reason) || ending.reason.NotOwned? || ending.reason.StagingUnavailable?
    ensures Succeeded(ending) ==> Permitted(before, c) && world.backupPossible && !ScanRaises(before, c)
    ensures ending.Report? && ending.reason.StagingUnavailable? ==> !world.backupPossible
    ensures ending.Traceback? ==> StampsRaise(before)
    ensures ending.Traceback? && host.output != before ==> ScanRaises(before, c) && host.output == before + c.planned
    ensures !Permitted(before, c) ==> host.output == before
    ensures Quiet(host) ==> QuietCommit(before, host.output, c, world, ending)
    ensures host.tick >= old(host.tick) && (Succeeded(ending) ==> AllButOne(host.refuses, old(host.tick), host.tick))
  {
    hide ScanRaises, Left, StampsRaise, Permitted, PreflightRaises, AllButOne;
    if ScanRaises(before, c) {
      ScanRaisesOnStamps(before, c);
    }
    NothingChanges(before, c);
    host.tick := host.tick + 1;
    if host.refuses(host.tick - 1) {
      return Report(PublishFailed, false);
    }
    var answer := CheckOwnership(host.output, c, written);
    if answer == PreflightCrash {
      PreflightRaisesOnStamps(before, c);
      return Traceback;
    }
    if answer == Conflict {
      return Report(NotOwned, false);
    }
    if !world.backupPossible {
      return Report(StagingUnavailable, false);
    }
    PermittedIsWritable(before, c);
    ghost var checked := host.tick;
    ending := PublishSet(host, c, written, prune, before);
    GrantedThen(host.refuses, old(host.tick), checked, host.tick);
  }

  /** How that half ends where the host refuses nothing. */
  predicate QuietCommit(before: Tree, after: Tree, c: Command, world: World, ending: Ending)
    requires WellPlanned(c.planned)
  {
    if !Permitted(before, c) then
      after == before && ending == if PreflightRaises(before, c) then Traceback else Report(NotOwned, false)
    else if !world.backupPossible then after == before && ending == Report(StagingUnavailable, false)
    else if ScanRaises(before, c) then after == before + c.planned && ending.Traceback?
    else ending == Report(Passed, true)
  }

  lemma NothingChanges(before: Tree, c: Command)
    requires WellPlanned(c.planned)
    ensures WithinRights(before, c, before)
  {
  }

  lemma ScanRaisesOnStamps(t: Tree, c: Command)
    requires ScanRaises(t, c)
    ensures StampsRaise(t)
  {
    ScansRaiseOnStamps(t, c.planned.Keys, c.q, c.readings.pruning);
  }

  // ---------------------------------------------------------------- the gate

  /** The check passes every staged manifest, rejects one, has no verdict on one, or raises on one:
      it nests, or holds itself, deeper than the interpreter recurses. */
  ghost predicate DocumentsPass(world: World, c: Command, t: Tree) {
    forall n :: AnswerOf(t, n, c.readings.unread, world.frames).Fine?
  }

  ghost predicate DocumentsFail(world: World, c: Command, t: Tree) {
    && (forall n ::
          || AnswerOf(t, n, c.readings.unread, world.frames).Fine?
          || AnswerOf(t, n, c.readings.unread, world.frames).Faulty?)
    && exists n :: AnswerOf(t, n, c.readings.unread, world.frames).Faulty?
  }

  ghost predicate DocumentsDefer(world: World, c: Command, t: Tree) {
    exists n :: AnswerOf(t, n, c.readings.unread, world.frames).Deep?
  }

  ghost predicate DocumentsRaise(world: World, c: Command, t: Tree) {
    exists n :: AnswerOf(t, n, c.readings.unread, world.frames).Raises?
  }

  /** The directory the gate vouches for. */
  ghost predicate LinterAccepts(world: World, c: Command, t: Tree) {
    DocumentsPass(world, c, t) && world.lint(t) == Verdict(false, false)
  }

  ghost predicate LinterRejects(world: World, c: Command, t: Tree) {
    || DocumentsFail(world, c, t)
    || (DocumentsPass(world, c, t) && world.lint(t).Verdict? && (world.lint(t).failed || world.lint(t).skippedFile))
  }

  /** Whatever order the files are listed in. */
  lemma CheckSays(world: World, c: Command, t: Tree, listing: seq<Name>)
    requires Names(listing) == t.Keys
    ensures var r := CheckDocuments(t, listing, c.readings.unread, world.frames);
            && (r == Clean <==> DocumentsPass(world, c, t)) && (r == Rejected <==> DocumentsFail(world, c, t))
            && (r == Undecided ==> DocumentsDefer(world, c, t)) && (r == Raised ==> DocumentsRaise(world, c, t))
            && (DocumentsRaise(world, c, t) && !DocumentsDefer(world, c, t) ==> r == Raised)
  {
    hide FileAnswer, IsManifest;
    forall n
      ensures n !in listing ==> AnswerOf(t, n, c.readings.unread, world.frames).Fine?
    {
      assert n in listing <==> n in Names(listing);
    }
  }

  /** A plan that renders nothing, asked to make the directory match it: no linter runs. */
  method ReconcileEmptyRender(host: Host, c: Command, world: World, ghost before: Tree) returns (ending: Ending)
    requires host.output == before
    requires c.planned == map[]
    modifies host`output, host`backup, host`staging, host`tick, host`lossless
    ensures WithinRights(before, c, host.output) && Truthful(before, c, true, Quiet(host), host.output, ending)
    ensures ending.Report? ==>
      || ending.reason.NotApplicable? || ending.reason.PruneFailed? || ending.reason.StaleScanFailed?
      || (ending.reason.PublishLockUnavailable? && world.lock != Locked)
    ensures Succeeded(ending) ==> world.lock == Locked && !ScanRaises(before, c)
    ensures ending.Traceback? ==> host.output == before && ScanRaises(before, c)
    ensures world.lock != Locked ==> ending == Report(PublishLockUnavailable, false)
    ensures Quiet(host) && world.lock == Locked ==>
      ending == if ScanRaises(before, c) then Traceback else Report(NotApplicable, false)
    ensures host.tick >= old(host.tick) && (Succeeded(ending) ==> Granted(host.refuses, old(host.tick), host.tick))
  {
    hide ScanRaises;
    NothingChanges(before, c);
    if world.lock != Locked {
      return Report(PublishLockUnavailable, false);
    }
    assert host.output + c.planned == host.output;
    ending := RetireStale(host, c, true, host.output);
    if ending == Report(Passed, true) {
      ending := Report(NotApplicable, false);
    }
  }

  /** What a report of the check or the linter says of the directory it was shown. */
  ghost predicate LintSays(world: World, c: Command, t: Tree, quiet: bool, ending: Ending) {
    match ending
    case Traceback => !quiet || DocumentsRaise(world, c, t)
    case Report(LintFailed, false) => LinterRejects(world, c, t)
    case Report(LinterUnavailable, false) =>
      DocumentsDefer(world, c, t) || (DocumentsPass(world, c, t) && world.lint(t).NoVerdict?)
    case Report(CleanupFailed(failed), false) =>
      !quiet && DocumentsPass(world, c, t) && world.lint(t).Verdict? && world.lint(t).failed == failed
    case _ => false
  }

  /** The answer where the host refuses nothing: a rejection is a rejection, no verdict is none. */
  ghost predicate LintAnswer(world: World, c: Command, t: Tree, ok: bool, ending: Ending) {
    && (DocumentsFail(world, c, t) ==> !ok && ending == Report(LintFailed, false))
    && (DocumentsPass(world, c, t) ==>
          match world.lint(t)
          case NoVerdict => !ok && ending == Report(LinterUnavailable, false)
          case Verdict(failed, skipped) =>
            if failed || skipped then !ok && ending == Report(LintFailed, false) else ok)
    && (DocumentsDefer(world, c, t) && !DocumentsRaise(world, c, t) ==>
          !ok && ending == Report(LinterUnavailable, false))
    && (DocumentsRaise(world, c, t) && !DocumentsDefer(world, c, t) ==> !ok && ending.Traceback?)
    && (DocumentsRaise(world, c, t) && DocumentsDefer(world, c, t) ==>
          !ok && (ending.Traceback? || ending == Report(LinterUnavailable, false)))
  }

  /** Check and lint the staged prediction, then drop the copies that were only there for that. */
  method LintStaged(host: Host, carried: set<Name>, c: Command, world: World) returns (ok: bool, ending: Ending)
    modifies host`staging, host`tick
    ensures ok ==> LinterAccepts(world, c, old(host.staging)) && host.staging == old(host.staging) - carried
    ensures !ok ==> LintSays(world, c, old(host.staging), Quiet(host), ending)
    ensures !ok && ending.Traceback? ==> host.refuses(old(host.tick)) || DocumentsRaise(world, c, old(host.staging))
    ensures Quiet(host) ==> LintAnswer(world, c, old(host.staging), ok, ending)
    ensures host.tick >= old(host.tick) && (ok ==> Granted(host.refuses, old(host.tick), host.tick))
  {
    hide DocumentsPass, DocumentsFail, DocumentsRaise, DocumentsDefer, CheckDocuments;
    host.tick := host.tick + 1;
    if host.refuses(host.tick - 1) {
      return false, Traceback;
    }
    var listing := Listing(host.staging.Keys);
    CheckSays(world, c, host.staging, listing);
    OneAnswerOnly(world, c, host.staging);
    match CheckDocuments(host.staging, listing, c.readings.unread, world.frames) {
      case Rejected => return false, Report(LintFailed, false);
      case Undecided => return false, Report(LinterUnavailable, false);
      case Raised => return false, Traceback;
      case Clean =>
    }
    var lint := world.lint(host.staging);
    if lint.NoVerdict? {
      return false, Report(LinterUnavailable, false);
    }
    var dropped := DropCopies(host, carried);
    if !dropped {
      return false, Report(CleanupFailed(lint.failed), false);
    }
    ok := !lint.failed && !lint.skippedFile;
    ending := Report(LintFailed, false);
  }

  lemma OneAnswerOnly(world: World, c: Command, t: Tree)
    ensures DocumentsPass(world, c, t) ==>
      !DocumentsFail(world, c, t) && !DocumentsRaise(world, c, t) && !DocumentsDefer(world, c, t)
    ensures DocumentsFail(world, c, t) ==> !DocumentsRaise(world, c, t) && !DocumentsDefer(world, c, t)
  {
    hide AnswerOf;
  }

  /** The gate gets to look at the directory. */
  predicate Looks(c: Command, written: seq<Name>, world: World) {
    written != [] && world.linterFound && world.lock == Locked
  }

  /** What has to hold of the directory, the world and the readings for a gated run to succeed. */
  ghost predicate Opens(before: Tree, c: Command, written: seq<Name>, prune: bool, world: World)
    requires WellPlanned(c.planned)
  {
    && world.lock == Locked
    && if written == [] then prune
       else
         && world.linterFound && world.backupPossible
         && !PredictionRaises(before, c, prune) && NoLinksStay(before, c, prune)
         && LinterAccepts(world, c, Predicted(before, c, prune))
         && Permitted(before, c)
  }

  /** What may end a gated run in a traceback though the host refuses nothing. */
  ghost predicate MayRaise(before: Tree, c: Command, written: seq<Name>, prune: bool, world: World) {
    StampsRaise(before) || (Looks(c, written, world) && DocumentsRaise(world, c, Predicted(before, c, prune)))
  }

  /** And what may end one so at all: beside those, only an operation refused once the prediction has
      been staged, which is from the look to the clean-up after a success. */
  ghost predicate MayEscape(
    before: Tree, c: Command, written: seq<Name>, prune: bool, world: World, quiet: bool, linted: Tree)
  {
    || MayRaise(before, c, written, prune, world)
    || (!quiet && Looks(c, written, world) && !PredictionRaises(before, c, prune) && NoLinksStay(before, c, prune)
        && linted == Predicted(before, c, prune))
  }

  /** How a run ends to which the host refuses nothing: its one ending, but where a file without a
      verdict and one that raises are both staged. */
  ghost predicate QuietEnding(
    before: Tree, after: Tree, c: Command, written: seq<Name>, prune: bool, world: World, ending: Ending)
    requires WellPlanned(c.planned)
  {
    if written == [] && !prune then
      after == before && ending == Report(if world.linterFound then NoManifests else LinterUnavailable, false)
    else if written != [] && !world.linterFound then after == before && ending == Report(LinterUnavailable, false)
    else if world.lock != Locked then after == before && ending == Report(PublishLockUnavailable, false)
    else if written == [] then
      if ScanRaises(before, c) then after == before + c.planned && ending.Traceback?
      else ending == Report(NotApplicable, false)
    else if PredictionRaises(before, c, prune) then after == before && ending.Traceback?
    else if !NoLinksStay(before, c, prune) then after == before && ending == Report(SymlinkedManifest, false)
    else if !LinterAccepts(world, c, Predicted(before, c, prune)) then
      after == before && LintAnswer(world, c, Predicted(before, c, prune), false, ending)
    else QuietCommit(before, after, c, world, ending)
  }

  /** And what the report of any run says of the way it went is so. */
  ghost predicate Explains(
    before: Tree, c: Command, written: seq<Name>, prune: bool, world: World, quiet: bool, ending: Ending, linted: Tree)
    requires WellPlanned(c.planned)
  {
    ending.Report? ==>
      var shown := Looks(c, written, world) && linted == Predicted(before, c, prune);
      match ending.reason
      case NotApplicable => written == [] && prune && world.lock == Locked
      case NoManifests => written == [] && !prune && world.linterFound
      case PublishLockUnavailable => world.lock != Locked && (if written == [] then prune else world.linterFound)
      case SymlinkedManifest => Looks(c, written, world) && !NoLinksStay(before, c, prune)
      case SnapshotFailed => Looks(c, written, world) && !quiet
      case LinterUnavailable =>
        || (!world.linterFound && (written != [] || !prune))
        || (shown && LintSays(world, c, linted, quiet, ending))
      case LintFailed => shown && LintSays(world, c, linted, quiet, ending)
      case CleanupFailed(_) => shown && LintSays(world, c, linted, quiet, ending)
      case StagingUnavailable => shown && LinterAccepts(world, c, linted) && !world.backupPossible
      case PruneFailed(_, _) =>
        (written == [] && prune && world.lock == Locked) || (shown && LinterAccepts(world, c, linted))
      case StaleScanFailed =>
        (written == [] && prune && world.lock == Locked) || (shown && LinterAccepts(world, c, linted))
      case _ => shown && LinterAccepts(world, c, linted)
  }

  /** What one gated run promises, whatever the host refuses (`quiet` when it refuses nothing) and
      whatever is misread. It stays within its rights, and its report is true of the directory and of
      how the run went; a success left what it should, having had the predicted directory accepted; a
      report that says nothing was modified is true, but for an error raised once the set had landed;
      a set that is not all free or its own is not written at all; a traceback comes from stamps or
      documents that raise, or from the host. */
  ghost predicate GateContract(
    before: Tree, after: Tree, c: Command, written: seq<Name>, prune: bool, world: World, quiet: bool,
    ending: Ending, linted: Tree)
    requires WellPlanned(c.planned)
  {
    && WithinRights(before, c, after)
    && Truthful(before, c, prune, quiet, after, ending)
    && Explains(before, c, written, prune, world, quiet, ending, linted)
    && (Succeeded(ending) ==>
          && after == Left(before, c, prune)
          && Opens(before, c, written, prune, world) && !ScanRaises(before, c)
          && (written != [] ==> linted == Predicted(before, c, prune)))
    && (ending.Report? && !ending.outputModified && !Succeeded(ending) ==>
          after == before || (!quiet && Denied(before, c, after, ending)))
    && (!Permitted(before, c) ==> after == before)
    && (ending.Traceback? ==> MayEscape(before, c, written, prune, world, quiet, linted))
    && (ending.Traceback? && after != before ==>
          (ScanRaises(before, c) && after == before + c.planned) || (!quiet && after == Left(before, c, prune)))
    && (quiet ==> QuietEnding(before, after, c, written, prune, world, ending))
  }

  /** So a gated run exits with 1 exactly for a rejection of the predicted directory, a cleanup that
      failed after one, or a traceback; and where nothing is refused a rejection always does. */
  lemma RejectionsExitWithOne(
    before: Tree, after: Tree, c: Command, written: seq<Name>, prune: bool, world: World, quiet: bool,
    ending: Ending, linted: Tree)
    requires WellPlanned(c.planned)
    requires GateContract(before, after, c, written, prune, world, quiet, ending, linted)
    ensures ending.Report? && ExitCode(ending) == 1 ==>
      && after == before && linted == Predicted(before, c, prune)
      && (LinterRejects(world, c, linted) || (!quiet && world.lint(linted).Verdict? && world.lint(linted).failed))
    ensures quiet && Looks(c, written, world) && !PredictionRaises(before, c, prune) && NoLinksStay(before, c, prune)
            && LinterRejects(world, c, Predicted(before, c, prune)) ==>
      ending == Report(LintFailed, false) && ExitCode(ending) == 1
    ensures quiet && Looks(c, written, world) && !PredictionRaises(before, c, prune) && NoLinksStay(before, c, prune)
            && DocumentsPass(world, c, Predicted(before, c, prune))
            && world.lint(Predicted(before, c, prune)).NoVerdict? ==>
      ending == Report(LinterUnavailable, false) && ExitCode(ending) == 2
    ensures ExitCode(ending) == 0 <==> Succeeded(ending)
  {
    hide DocumentsPass, DocumentsFail, DocumentsDefer, DocumentsRaise, Predicted, WithinRights, Left, ScanRaises,
      Permitted, Opens, MayEscape, NoLinksStay, PredictionRaises, LeftAsReported;
    OneAnswerOnly(world, c, Predicted(before, c, prune));
    ExitCodesTell(ending);
  }

  /** A run that stops before publishing keeps the contract, given its reason. */
  lemma StoppingKeepsTheContract(
    before: Tree, c: Command, written: seq<Name>, prune: bool, world: World, quiet: bool, ending: Ending, linted: Tree)
    requires WellPlanned(c.planned) && !Succeeded(ending)
    requires Truthful(before, c, prune, quiet, before, ending)
    requires Explains(before, c, written, prune, world, quiet, ending, linted)
    requires ending.Traceback? ==> MayEscape(before, c, written, prune, world, quiet, linted)
    requires quiet ==> QuietEnding(before, before, c, written, prune, world, ending)
    ensures GateContract(before, before, c, written, prune, world, quiet, ending, linted)
  {
    hide Truthful, Explains, Opens, MayEscape, QuietEnding, Predicted, ScanRaises, Permitted, Left;
  }

  lemma PredictionRaisesOnStamps(t: Tree, c: Command, prune: bool)
    requires PredictionRaises(t, c, prune)
    ensures StampsRaise(t)
  {
    ScansRaiseOnStamps(t, c.planned.Keys, c.q, c.readings.predicting);
  }

  /** What follows a look that found nothing wrong; the staging directory goes last, and that may raise. */
  method CommitLooked(
    host: Host, c: Command, written: seq<Name>, prune: bool, world: World, ghost before: Tree, ghost linted: Tree)
    returns (ending: Ending)
    requires host.output == before && host.staging == c.planned && host.backup == map[]
    requires WellPlanned(c.planned) && NoDup(written) && Names(written) == c.planned.Keys
    requires Looks(c, written, world) && !PredictionRaises(before, c, prune) && NoLinksStay(before, c, prune)
    requires linted == Predicted(before, c, prune) && LinterAccepts(world, c, linted)
    modifies host
    ensures GateContract(before, host.output, c, written, prune, world, Quiet(host), ending, linted)
    ensures host.tick >= old(host.tick) && (Succeeded(ending) ==> AllButOne(host.refuses, old(host.tick), host.tick))
  {
    hide Granted, AllButOne, Predicted, ScanRaises, Permitted, Left, DocumentsRaise, DocumentsDefer, DocumentsPass,
      DocumentsFail, StampsRaise, NoLinksStay, WithinRights, LeftAsReported, PreflightRaises, PredictionRaises,
      Retired;
    ending := Commit(host, c, written, prune, world, before);
    if Succeeded(ending) {
      host.tick := host.tick + 1;
      if host.refuses(host.tick - 1) {
        ending := Traceback;
      }
      GrantedToo(host.refuses, old(host.tick), host.tick - 1);
    }
  }

  /** The gate over a render that wrote something. */
  method RenderSome(host: Host, c: Command, written: seq<Name>, prune: bool, world: World, ghost before: Tree)
    returns (ending: Ending, ghost linted: Tree)
    requires host.output == before && host.staging == c.planned && host.backup == map[]
    requires WellPlanned(c.planned) && IsArgoQuery(c.q)
    requires NoDup(written) && Names(written) == c.planned.Keys && written != []
    modifies host
    ensures GateContract(before, host.output, c, written, prune, world, Quiet(host), ending, linted)
    ensures host.tick >= old(host.tick) && (Succeeded(ending) ==> AllButOne(host.refuses, old(host.tick), host.tick))
  {
    hide Granted, AllButOne, Predicted, Permitted, DocumentsRaise, DocumentsDefer, DocumentsPass, DocumentsFail,
      StampsRaise, NoLinksStay, PreflightRaises, PredictionRaises, Pending, Retired, GateContract;
    linted := map[];
    if !world.linterFound || world.lock != Locked {
      ending := Report(if !world.linterFound then LinterUnavailable else PublishLockUnavailable, false);
      StoppingKeepsTheContract(before, c, written, prune, world, Quiet(host), ending, linted);
      return;
    }
    var ok, carried;
    ok, ending, carried := Snapshot(host, c, prune, before);
    if !ok {
      if PredictionRaises(before, c, prune) {
        PredictionRaisesOnStamps(before, c, prune);
      }
      StoppingKeepsTheContract(before, c, written, prune, world, Quiet(host), ending, linted);
      return;
    }
    linted := host.staging;
    ghost var staged := host.tick;
    OneAnswerOnly(world, c, linted);
    ok, ending := LintStaged(host, carried, c, world);
    GrantedThen(host.refuses, old(host.tick), staged, host.tick);
    if !ok {
      StoppingKeepsTheContract(before, c, written, prune, world, Quiet(host), ending, linted);
      return;
    }
    ghost var looked := host.tick;
    ending := CommitLooked(host, c, written, prune, world, before, linted);
    GrantedThen(host.refuses, old(host.tick), looked, host.tick);
  }

  /** `_render_argo_with_lint_gate`, from the rendered set in staging. `linted` is the directory
      the linter was shown. */
  method RenderGated(host: Host, c: Command, written: seq<Name>, prune: bool, world: World)
    returns (ending: Ending, ghost linted: Tree)
    requires WellPlanned(c.planned) && IsArgoQuery(c.q) && host.staging == c.planned && host.backup == map[]
    requires NoDup(written) && Names(written) == c.planned.Keys
    modifies host
    ensures GateContract(old(host.output), host.output, c, written, prune, world, Quiet(host), ending, linted)
    ensures Succeeded(ending) ==> AllButOne(host.refuses, old(host.tick), host.tick)
  {
    linted := map[];
    ghost var before := host.output;
    if written != [] {
      ending, linted := RenderSome(host, c, written, prune, world, before);
      return;
    }
    assert c.planned.Keys == {};
    if prune {
      ending := ReconcileEmptyRender(host, c, world, before);
      return;
    }
    ending := Report(if !world.linterFound then LinterUnavailable else NoManifests, false);
    StoppingKeepsTheContract(before, c, written, prune, world, Quiet(host), ending, linted);
  }

  // ---------------------------------------------------------------- what the verdict is about

  /** Leaving out `mine` and removing `removed` come to the same manifests only if they are one set. */
  lemma SameManifestsSameRemoval(before: Tree, planned: Tree, mine: set<Name>, removed: set<Name>)
    requires WellPlanned(planned) && mine !! planned.Keys && removed !! planned.Keys
    requires forall n :: n in mine + removed ==> n in Manifests(before)
    ensures Manifests(before + planned - removed) == Manifests(before - mine) + planned <==> removed == mine
  {
    var left, right := Manifests(before + planned - removed), Manifests(before - mine) + planned;
    if removed == mine {
      forall n
        ensures Look(left, n) == Look(right, n)
      {
      }
      SameLooksSameMap(left, right);
    } else {
      var n :| n in mine + removed && (n in mine <==> n !in removed);
      assert n in left <==> n in mine;
      assert n in right <==> n in removed;
    }
  }

  /** What the prediction drops is what the prune removes. */
  predicate PredictionHolds(before: Tree, c: Command, prune: bool) {
    prune ==> Leaving(before, c, true) == Retired(before, c)
  }

  /** File by file: that is so exactly when every stale file of the mission is missed by both scans
      or by neither, a file that only its shared scope protects being one the prune does not remove
      unless it misreads that. */
  lemma PredictionHoldsIff(before: Tree, c: Command)
    ensures PredictionHolds(before, c, true) <==>
      forall n :: n in Mine(before, c.planned.Keys, c.q, CLEAR) ==>
        (n in Missed(c.readings.predicting) <==>
           n in Missed(c.readings.pruning) || (Guarded(Classify(before[n]), c.q) && n !in c.readings.pruning.sharing))
  {
    hide IsManifest, IsRenderedArtifact, Classify;
    var current := c.planned.Keys;
    MisreadPrunes(before, current, c.q, c.readings.pruning);
    forall n
      ensures n in Leaving(before, c, true) <==>
        n in Mine(before, current, c.q, CLEAR) && n !in Missed(c.readings.predicting)
    {
    }
  }

  /** The directory a successful run leaves is the directory that was linted, exactly when what was
      predicted to go is what went. */
  lemma VerdictDescribesTheDirectory(before: Tree, c: Command, prune: bool)
    requires WellPlanned(c.planned)
    ensures Manifests(Left(before, c, prune)) == Predicted(before, c, prune) <==> PredictionHolds(before, c, prune)
  {
    hide Classify;
    if prune {
      SameManifestsSameRemoval(before, c.planned, Leaving(before, c, true), Retired(before, c));
    } else {
      SameManifestsSameRemoval(before, c.planned, {}, {});
      assert before + c.planned - {} == before + c.planned;
    }
  }

  /** With nothing misread, that is: no stale artifact of the mission claims installation scope. */
  lemma FaithfulPredictionHoldsIff(before: Tree, c: Command)
    requires IsArgoQuery(c.q) && c.readings == FAITHFUL
    ensures PredictionHolds(before, c, true) <==>
      forall n :: n in Mine(before, c.planned.Keys, c.q, CLEAR) ==> !InstallationScoped(Classify(before[n]))
  {
    hide Classify, Leaving, Retired;
    PredictionHoldsIff(before, c);
  }

  /** A file of one document. */
  function Holding(doc: JSON): Entry {
    Regular("", Some([doc]), Parsed(map[0 := Node(doc, None)], [0]))
  }

  /** A managed manifest whose labels are these. */
  function Stamped(labels: map<string, JSON>): Entry {
    Holding(JObj(map["metadata" := JObj(map["labels" := JObj(labels)])]))
  }

  /** What an earlier render of a mission left, in this scope; kubectl would not take it. */
  function Leftover(scope: string): Entry {
    Stamped(map[
      MANAGED_BY := JStr(COMPILER), FINGERPRINT := JStr("f"), RENDERER := JStr(ARGO),
      SCOPE := JStr(scope), SCHEMA := JStr(SCHEMA_VERSION)])
  }

  lemma LeftoverIsAMission(scope: string)
    ensures IsRenderedArtifact(Leftover(scope))
    ensures Classify(Leftover(scope)) == Mission("f", JStr(scope), JNull, JStr(ARGO))
  {
    var e := Leftover(scope);
    var stamp := Ownership.Stamp(JStr(ARGO), JStr(scope), JStr(SCHEMA_VERSION));
    var d := e.owned.value[0];
    assert d in e.owned.value;
    assert !Blank("f") by {
      assert !IsSpace("f"[0]);
    }
    assert LabelsOf(d) == Labelled(Named("f"), Some(stamp)) && OwnerIdOf(d) == Some(JNull);
    assert FacetOf(d) == Facet(Labelled(Named("f"), Some(stamp)), Some(JNull));
    assert Says(d, Some("f"), stamp, JNull);
    UnanimousIsAnswered(e, Some("f"), stamp, JNull);
  }

  /** One document of a mission, as a writer stamps it, that kubectl would take. */
  function Fresh(): Entry {
    var labels := JObj(map[
      MANAGED_BY := JStr(COMPILER), FINGERPRINT := JStr("f"), RENDERER := JStr(ARGO),
      SCOPE := JStr(SCOPE_MISSION), SCHEMA := JStr(SCHEMA_VERSION)]);
    var notes := JObj(map[OWNER_ID := JStr("m")]);
    var meta := JObj(map["name" := JStr("new"), "labels" := labels, "annotations" := notes]);
    Holding(JObj(map["apiVersion" := JStr("argoproj.io/v1alpha1"), "kind" := JStr("Workflow"), "metadata" := meta]))
  }

  /** A run that renders one new file for the mission. */
  function FreshRun(readings: Readings): Command {
    Command(map["new.yaml" := Fresh()], Query(ARGO, {"f"}, Some({"m"}), false, None, false), readings)
  }

  lemma FreshIsFine(frames: nat)
    requires frames > 0
    ensures Pending(Fresh()) && IsManifest("new.yaml") && IsManifest("stale.yaml")
    ensures FileAnswer(Fresh(), true, frames) == Fine
  {
    assert "new.yaml"[3..] == ".yaml" && "stale.yaml"[5..] == ".yaml";
    var e := Fresh();
    var doc := e.owned.value[0];
    var meta := Get(doc.fields, "metadata");
    var h := e.applied.heap;
    assert Get(meta.fields, "labels").JObj? && Get(meta.fields, "annotations").JObj?;
    assert Get(doc.fields, "kind") == JStr("Workflow") && "Workflow" != "List";
    assert meta.fields != map[] by {
      assert "name" in meta.fields;
    }
    assert LocalFault(NodeAt(h, 0)).None?;
    assert Members(h, 0) == [];
    assert Problems(h, 0, [], frames) == Some([]);
    OneDocument(h, frames);
  }

  lemma LeftoverIsFaulty(scope: string, frames: nat)
    requires frames > 0
    ensures FileAnswer(Leftover(scope), true, frames) == Faulty
  {
    var h := Leftover(scope).applied.heap;
    assert LocalFault(NodeAt(h, 0)) == Some(NoApiVersion);
    assert Problems(h, 0, [], frames) == Some([Problem([], NoApiVersion)]);
    OneDocument(h, frames);
  }

  lemma OneDocument(h: Heap, frames: nat)
    requires NodeAt(h, 0).shell != JNull
    ensures DocumentsAnswer(h, [0], frames) ==
      match Problems(h, 0, [], frames)
      case None => Raises
      case Some(problems) => if problems == [] then Fine else Faulty
  {
    var docs: seq<Id> := [0];
    assert docs[1..] == [];
  }

  lemma LeftoverIsStale(scope: string, current: set<Name>, q: Query, m: Misreads)
    requires "stale.yaml" !in current && q == FreshRun(FAITHFUL).q
    ensures Mine(map["stale.yaml" := Leftover(scope)], current, q, m)
         == if "stale.yaml" in Missed(m) then {} else {"stale.yaml"}
    ensures !ScanCrashes(map["stale.yaml" := Leftover(scope)], current, q, m)
  {
    hide IsManifest, IsRenderedArtifact, Leftover, Classify;
    LeftoverIsAMission(scope);
    FreshIsFine(1);
    var t: Tree := map["stale.yaml" := Leftover(scope)];
    assert Candidate(t, current, "stale.yaml");
  }

  /** The verdict can be about another directory. A pruning run that renders one file where one such
      leftover is, reads it rightly when it predicts, and then keeps it, because it claims
      installation scope or because it is misread, is let through by a linter that accepts
      everything; what it leaves is not what was linted, and the check would reject it. */
  lemma PredictionCanBeWrong(before: Tree, scope: string, c: Command, world: World)
    requires before == map["stale.yaml" := Leftover(scope)] && c == FreshRun(c.readings)
    requires c.readings.unread == {} && c.readings.predicting == CLEAR
    requires "stale.yaml" in Missed(c.readings.pruning)
             || (scope == SCOPE_INSTALLATION && "stale.yaml" !in c.readings.pruning.sharing)
    requires world.linterFound && world.backupPossible && world.lock == Locked && world.frames > 0
    requires forall t :: world.lint(t) == Verdict(false, false)
    ensures WellPlanned(c.planned) && IsArgoQuery(c.q)
    ensures Opens(before, c, ["new.yaml"], true, world) && !ScanRaises(before, c)
    ensures Predicted(before, c, true) == map["new.yaml" := Fresh()]
    ensures Left(before, c, true) == map["stale.yaml" := Leftover(scope), "new.yaml" := Fresh()]
    ensures DocumentsFail(world, c, Left(before, c, true)) && !PredictionHolds(before, c, true)
  {
    hide Fresh, Leftover, IsManifest, Mine, ScanCrashes, FileAnswer, Classify, Pending, IsRenderedArtifact,
      SCOPE_INSTALLATION;
    FreshIsFine(world.frames);
    LeftoverIsAMission(scope);
    LeftoverIsStale(scope, c.planned.Keys, c.q, CLEAR);
    LeftoverIsStale(scope, c.planned.Keys, c.q, c.readings.pruning);
    LeftoverIsFaulty(scope, world.frames);
    LeftoverStays(before, scope, c);
    assert c.planned.Keys == {"new.yaml"};
    assert Predicted(before, c, true) == map["new.yaml" := Fresh()];
    var left := Left(before, c, true);
    assert left == map["stale.yaml" := Leftover(scope), "new.yaml" := Fresh()];
    assert AnswerOf(left, "stale.yaml", {}, world.frames) == Faulty;
  }

  lemma LeftoverStays(before: Tree, scope: string, c: Command)
    requires before == map["stale.yaml" := Leftover(scope)] && c == FreshRun(c.readings)
    requires "stale.yaml" in Missed(c.readings.pruning)
             || (scope == SCOPE_INSTALLATION && "stale.yaml" !in c.readings.pruning.sharing)
    ensures Retired(before, c) == {}
  {
    hide Fresh, Leftover, Classify, IsManifest, IsRenderedArtifact;
    LeftoverIsAMission(scope);
    MisreadPrunes(before, c.planned.Keys, c.q, c.readings.pruning);
  }

  // ---------------------------------------------------------------- what ends a run in a traceback

  /** A List that is its own only item. */
  function InItself(): Entry {
    var shell := JObj(map["apiVersion" := JStr("v1"), "kind" := JStr("List")]);
    Regular("", Some([shell]), Parsed(map[0 := Node(shell, Some([0]))], [0]))
  }

  lemma InItselfLoops(frames: nat)
    ensures FileAnswer(InItself(), true, frames) == Raises
    ensures !IsRenderedArtifact(InItself()) && IsManifest("x.yaml")
  {
    assert "x.yaml"[1..] == ".yaml";
    var h := InItself().applied.heap;
    var shell := InItself().owned.value[0];
    assert NodeAt(h, 0).shell == shell && shell != JNull;
    assert LocalFault(NodeAt(h, 0)).None? && Members(h, 0) == [0];
    var p: seq<Id> := [0, 0];
    assert Trail(h, p) && p[0] == 0 && p[0] == p[1];
    ChecksEndIff(h, 0, [], frames);
  }

  /** One such file in the directory, and every gated run that renders something ends in a traceback
      and exit code 1, however deep the interpreter may recurse and whatever the linter says. */
  lemma OneListInItselfEndsTheRun(
    before: Tree, after: Tree, c: Command, prune: bool, world: World, ending: Ending, linted: Tree)
    requires before == map["x.yaml" := InItself()] && c == FreshRun(FAITHFUL)
    requires world.linterFound && world.lock == Locked && world.frames > 0
    ensures WellPlanned(c.planned) && DocumentsRaise(world, c, Predicted(before, c, prune))
    ensures GateContract(before, after, c, ["new.yaml"], prune, world, true, ending, linted) ==>
      ending.Traceback? && ExitCode(ending) == 1 && after == before
  {
    hide Fresh, InItself, IsManifest, IsRenderedArtifact, FileAnswer, Classify, Pending, Permitted, WithinRights,
      ScanRaises, Truthful, Explains, QuietCommit;
    FreshIsFine(world.frames);
    InItselfLoops(world.frames);
    assert InItself().Regular? by {
      InItselfIsRegular();
    }
    var t := Predicted(before, c, prune);
    assert Leaving(before, c, prune) == {};
    assert t == map["x.yaml" := InItself(), "new.yaml" := Fresh()];
    assert AnswerOf(t, "x.yaml", {}, world.frames) == Raises;
    OneAnswerOnly(world, c, t);
  }

  lemma InItselfIsRegular()
    ensures InItself().Regular?
  {
  }

  /** So is every scan that looks at a managed manifest whose renderer label is a list. */
  lemma OneListLabelStopsTheScan(current: set<Name>, q: Query, m: Misreads)
    requires !ScanIsEmpty(q) && "odd.yaml" !in current + m.ours + m.scoping
    ensures ScanCrashes(
      map["odd.yaml" := Stamped(map[MANAGED_BY := JStr(COMPILER), RENDERER := JArr([])])], current, q, m)
  {
    var e := Stamped(map[MANAGED_BY := JStr(COMPILER), RENDERER := JArr([])]);
    var t: Tree := map["odd.yaml" := e];
    AListIsNoLabel(e);
    assert Candidate(t, current, "odd.yaml") by {
      hide IsRenderedArtifact;
      assert "odd.yaml"[3..] == ".yaml";
    }
    assert Classify(t["odd.yaml"]).Crash?;
  }

  lemma AListIsNoLabel(e: Entry)
    requires e == Stamped(map[MANAGED_BY := JStr(COMPILER), RENDERER := JArr([])])
    ensures IsRenderedArtifact(e) && Classify(e).Crash?
  {
    var d := e.owned.value[0];
    assert d in e.owned.value && Managed(d);
    assert StampOf(Get(Get(d.fields, "metadata").fields, "labels").fields).None?;
    assert RaisesOn(FacetOf(d));
    ClassifierCrashes(e);
  }
}
