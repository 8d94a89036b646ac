/** The two writers that do not lint: plain `render-argo`, and `render-kueue`. */
module Commands {
  import opened Wrappers
  import opened Files
  import opened Ownership
  import opened Publishing
  import opened Reconcile
  import opened Gate

  /** Each name holds what it held, or what was planned for it. */
  ghost predicate OneGenerationOrTheOther(before: Tree, planned: Tree, after: Tree) {
    forall n :: Look(after, n) == Look(before, n) || (n in planned && Look(after, n) == Some(planned[n]))
  }

  lemma PartialWritesAreWithinRights(before: Tree, c: Command, after: Tree)
    requires WellPlanned(c.planned) && Writable(before, c.planned)
    requires OneGenerationOrTheOther(before, c.planned, after)
    ensures WithinRights(before, c, after)
  {
    forall n
      ensures MayChange(before, c, n) || Look(after, n) == Look(before, n)
    {
      if n in c.planned {
        assert Overwritable(before, n, c.planned[n]);
      }
    }
  }

  /** `atomic_write` file by file into the directory itself; there is nothing to roll back. */
  method WriteIndividually(host: Host, planned: Tree, written: seq<Name>) returns (ok: bool)
    requires Names(written) == planned.Keys
    modifies host`output, host`tick
    ensures ok ==> host.output == old(host.output) + planned
    ensures OneGenerationOrTheOther(old(host.output), planned, host.output)
    ensures Quiet(host) ==> ok
    ensures host.tick >= old(host.tick) && (ok ==> Granted(host.refuses, old(host.tick), host.tick))
  {
    hide Granted, Restrict, OneGenerationOrTheOther;
    ghost var before := host.output;
    GrantedNothing(host.refuses, host.tick);
    SomeWritten(before, planned, written);
    for i := 0 to |written|
      invariant host.output == before + Restrict(planned, Names(written[..i]))
      invariant host.tick >= old(host.tick) && Granted(host.refuses, old(host.tick), host.tick)
    {
      assert written[i] in Names(written);
      OneMoreWritten(planned, written, i);
      host.tick := host.tick + 1;
      if host.refuses(host.tick - 1) {
        return false;
      }
      GrantedToo(host.refuses, old(host.tick), host.tick - 1);
      host.output := host.output[written[i] := planned[written[i]]];
    }
    ok := true;
  }

  lemma OneMoreWritten(planned: Tree, written: seq<Name>, i: nat)
    requires i < |written| && written[i] in planned
    ensures Restrict(planned, Names(written[..i + 1]))
         == Restrict(planned, Names(written[..i]))[written[i] := planned[written[i]]]
  {
    assert written[..i + 1] == written[..i] + [written[i]];
    NamesGrow(written[..i], written[i]);
  }

  /** Some of the set over what was there is, name by name, one or the other. */
  lemma SomeWritten(before: Tree, planned: Tree, written: seq<Name>)
    requires Names(written) == planned.Keys
    ensures Restrict(planned, Names(written[..0])) == map[]
    ensures Restrict(planned, Names(written[..|written|])) == planned
    ensures forall i :: 0 <= i <= |written| ==>
      OneGenerationOrTheOther(before, planned, before + Restrict(planned, Names(written[..i])))
  {
    assert written[..|written|] == written;
    assert Restrict(planned, planned.Keys) == planned;
  }

  /** What both promise, however a run ends: the report is true of the directory, a success leaves the
      render and what reconciliation keeps, a report that nothing was modified is true but for an error
      raised once the set had landed, a set that is not all free or its own is not written at all, and
      one that is succeeds if nothing is in the way (`clear`), unless the stale scan raises. */
  ghost predicate WriterContract(before: Tree, after: Tree, c: Command, prune: bool, clear: bool, ending: Ending)
    requires WellPlanned(c.planned)
  {
    && WithinRights(before, c, after) && Truthful(before, c, prune, clear, after, ending)
    && (ending.Report? ==>
          || Publishes(ending.reason) || ending.reason.NotOwned?
          || (!clear && (ending.reason.StagingUnavailable? || ending.reason.PublishLockUnavailable?)))
    && (Succeeded(ending) ==> Permitted(before, c) && after == Left(before, c, prune))
    && (ending.Report? && !ending.outputModified ==>
          after == before || (!clear && Denied(before, c, after, ending)))
    && (!Permitted(before, c) ==> after == before)
    && (clear && Permitted(before, c) ==>
          if ScanRaises(before, c) then ending.Traceback? && after == before + c.planned else Succeeded(ending))
  }

  /** A writer that stops before it writes keeps that, given its reason. */
  lemma StoppingIsKept(before: Tree, c: Command, prune: bool, clear: bool, ending: Ending)
    requires WellPlanned(c.planned)
    requires
      || ending.Traceback? || (ending == Report(NotOwned, false) && !Permitted(before, c))
      || (!clear && (ending == Report(StagingUnavailable, false) || ending == Report(PublishLockUnavailable, false)))
    requires clear ==> !Permitted(before, c)
    ensures WriterContract(before, before, c, prune, clear, ending)
  {
    hide ScanRaises, Left, Permitted, WithinRights, LeftAsReported, Retired;
    NothingChanges(before, c);
  }

  /** `cmd_render_argo` without the gate. It promises no transaction: a refused write leaves a
      mixture, but never outside what it owns. */
  method RenderUngated(host: Host, c: Command, written: seq<Name>, prune: bool, lock: LockAnswer)
    returns (ending: Ending)
    requires WellPlanned(c.planned) && NoDup(written) && Names(written) == c.planned.Keys
    modifies host
    ensures WriterContract(
      old(host.output), host.output, c, prune, Quiet(host) && !lock.LockUnavailable?, ending)
    ensures lock.LockUnavailable? <==> ending == Report(PublishLockUnavailable, false)
    ensures ending.Report? && !ending.outputModified ==> lock.LockUnavailable? && host.output == old(host.output)
    ensures Quiet(host) && !lock.LockUnavailable? && !Permitted(old(host.output), c) ==> ending.Traceback?
    ensures Succeeded(ending) ==> Granted(host.refuses, old(host.tick), host.tick)
  {
    ghost var before := host.output;
    if lock.LockUnavailable? {
      NothingChanges(before, c);
      return Report(PublishLockUnavailable, false);
    }
    hide ScanRaises, Left, Permitted, WithinRights, PreflightRaises, LeftAsReported, Pending, Retired, IsManifest,
      Granted, AllButOne;
    host.tick := host.tick + 1;
    var answer := CheckOwnership(host.output, c, written);
    if host.refuses(host.tick - 1) || answer != Free {
      NothingChanges(before, c);
      return Traceback;
    }
    PermittedIsWritable(before, c);
    ghost var checked := host.tick;
    var ok := WriteIndividually(host, c.planned, written);
    GrantedThen(host.refuses, old(host.tick), checked, host.tick);
    ghost var wrote := host.tick;
    if !ok {
      PartialWritesAreWithinRights(before, c, host.output);
      return Traceback;
    }
    ending := RetireStale(host, c, prune, before);
    GrantedThen(host.refuses, old(host.tick), wrote, host.tick);
  }

  /** `atomic_write` of every planned file into a staging directory of its own. */
  method StageSet(host: Host, planned: Tree, written: seq<Name>) returns (ok: bool)
    requires host.staging == map[] && Names(written) == planned.Keys
    modifies host`staging, host`tick
    ensures ok ==> host.staging == planned
    ensures Quiet(host) ==> ok
    ensures host.tick >= old(host.tick) && (ok ==> Granted(host.refuses, old(host.tick), host.tick))
  {
    hide Restrict;
    SomeWritten(map[], planned, written);
    for i := 0 to |written|
      invariant host.staging == Restrict(planned, Names(written[..i]))
      invariant host.tick >= old(host.tick) && Granted(host.refuses, old(host.tick), host.tick)
    {
      assert written[i] in Names(written);
      OneMoreWritten(planned, written, i);
      host.tick := host.tick + 1;
      if host.refuses(host.tick - 1) {
        return false;
      }
      host.staging := host.staging[written[i] := planned[written[i]]];
    }
    ok := true;
  }

  /** The room a set is published from: the backup, the output directory, and the set staged. Only the
      backup reports that it could not be made. */
  method PrepareSet(host: Host, c: Command, written: seq<Name>, world: World) returns (ready: bool, ending: Ending)
    requires host.staging == map[] && Names(written) == c.planned.Keys
    modifies host`absent, host`staging, host`tick
    ensures ready ==> world.backupPossible && host.staging == c.planned
    ensures !ready ==> ending == Report(StagingUnavailable, false) || ending.Traceback?
    ensures !ready && ending.Report? ==> !world.backupPossible || host.refuses(old(host.tick))
    ensures !ready && ending.Traceback? ==> world.backupPossible && !host.refuses(old(host.tick)) && !Quiet(host)
    ensures host.tick >= old(host.tick) && (ready ==> Granted(host.refuses, old(host.tick), host.tick))
  {
    hide IsManifest, Pending, Granted;
    GrantedNothing(host.refuses, host.tick);
    host.tick := host.tick + 1;
    if !world.backupPossible || host.refuses(host.tick - 1) {
      return false, Report(StagingUnavailable, false);
    }
    GrantedToo(host.refuses, host.tick - 1, host.tick - 1);
    ghost var roomy := host.tick;
    var made := host.MakeOutput();
    if !made {
      return false, Traceback;
    }
    GrantedThen(host.refuses, old(host.tick), roomy, host.tick);
    ghost var standing := host.tick;
    ready := StageSet(host, c.planned, written);
    GrantedThen(host.refuses, old(host.tick), standing, host.tick);
    ending := Traceback;
  }

  /** `cmd_render_kueue` from its planned files: staged under the lock, then published as a set.
      Only publication and the prune report their faults; any other ends in a traceback. */
  method RenderKueue(host: Host, c: Command, written: seq<Name>, prune: bool, world: World) returns (ending: Ending)
    requires WellPlanned(c.planned) && host.staging == map[] && host.backup == map[]
    requires NoDup(written) && Names(written) == c.planned.Keys
    modifies host
    ensures WriterContract(
      old(host.output), host.output, c, prune,
      Quiet(host) && !world.lock.LockUnavailable? && world.backupPossible, ending)
    ensures ending.Traceback? ==> host.output == old(host.output) || host.output == old(host.output) + c.planned
    ensures world.lock.LockUnavailable? <==> ending == Report(PublishLockUnavailable, false)
    ensures Quiet(host) && !world.lock.LockUnavailable? ==> QuietCommit(old(host.output), host.output, c, world, ending)
    ensures Succeeded(ending) ==> AllButOne(host.refuses, old(host.tick), host.tick)
  {
    hide ScanRaises, Permitted, PreflightRaises, Pending, IsManifest, Granted, AllButOne, WriterContract, StampsRaise;
    ghost var before := host.output;
    ghost var clear := Quiet(host) && !world.lock.LockUnavailable? && world.backupPossible;
    if world.lock.LockUnavailable? {
      StoppingIsKept(before, c, prune, clear, Report(PublishLockUnavailable, false));
      return Report(PublishLockUnavailable, false);
    }
    host.tick := host.tick + 1;
    var answer := CheckOwnership(host.output, c, written);
    if host.refuses(host.tick - 1) || answer != Free {
      ending := if host.refuses(host.tick - 1) || answer == PreflightCrash then Traceback else Report(NotOwned, false);
      StoppingIsKept(before, c, prune, clear, ending);
      return;
    }
    ghost var checked := host.tick;
    GrantedNothing(host.refuses, old(host.tick));
    GrantedToo(host.refuses, old(host.tick), old(host.tick));
    var ready;
    ready, ending := PrepareSet(host, c, written, world);
    GrantedThen(host.refuses, old(host.tick), checked, host.tick);
    if !ready {
      StoppingIsKept(before, c, prune, clear, ending);
      return;
    }
    PermittedIsWritable(before, c);
    ghost var prepared := host.tick;
    ending := PublishStaged(host, c, written, prune, before);
    GrantedThen(host.refuses, old(host.tick), prepared, host.tick);
  }

  /** Publication, the check that staging is gone, and the prune. */
  method PublishStaged(host: Host, c: Command, written: seq<Name>, prune: bool, ghost before: Tree)
    returns (ending: Ending)
    requires host.output == before
    requires WellPlanned(c.planned) && host.staging == c.planned && host.backup == map[]
    requires NoDup(written) && Names(written) == c.planned.Keys
    requires Writable(before, c.planned) && Permitted(before, c)
    modifies host
    ensures WriterContract(before, host.output, c, prune, Quiet(host), ending)
    ensures ending.Traceback? ==> host.output == before + c.planned
    ensures ending.Report? ==> Publishes(ending.reason)
    ensures Quiet(host) ==> ending == if ScanRaises(before, c) then Traceback else Report(Passed, true)
    ensures host.tick >= old(host.tick) && (Succeeded(ending) ==> AllButOne(host.refuses, old(host.tick), host.tick))
  {
    hide ScanRaises, Left, Permitted, WithinRights, Writable, LeftAsReported, Granted, AllButOne;
    var ended;
    ended, ending := PublishOnly(host, c, written, prune, before);
    if ended {
      return;
    }
    host.tick := host.tick + 1;
    if host.refuses(host.tick - 1) {
      WritesAreWithinRights(before, c, host.output);
      return Traceback;
    }
    GrantedToo(host.refuses, old(host.tick), host.tick - 1);
    ghost var asked := host.tick;
    ending := RetireStale(host, c, prune, before);
    GrantedThen(host.refuses, old(host.tick), asked, host.tick);
  }
}
