/** Retiring what an earlier render left behind, and what any run of commands may touch. */
module Reconcile {
  import opened Wrappers
  import opened Json
  import opened Files
  import opened Ownership
  import opened Publishing

  /** What the stale scan leaves in the report, or how it ended. */
  datatype StaleReport =
    | Reported(
        notOurs: set<Name>, otherInstallation: set<Name>, clusterScoped: set<Name>, pruned: seq<Name>, left: set<Name>)
    | PruneIncomplete(removed: seq<Name>, remaining: seq<Name>)
    | ScanFailed
    | ScanRaised

  /** The names of a set in some order; every order of the directory listing is covered. */
  method Listing(names: set<Name>) returns (r: seq<Name>)
    ensures NoDup(r) && Names(r) == names
  {
    r := [];
    var rest := names;
    while rest != {}
      invariant NoDup(r) && Names(r) + rest == names && Names(r) !! rest
      decreases rest
    {
      var n :| n in rest;
      NamesGrow(r, n);
      r, rest := r + [n], rest - {n};
    }
  }

  /** `path.unlink()` over the files to prune, stopping at the first the host refuses. */
  method Prune(host: Host, mine: set<Name>) returns (removed: seq<Name>, remaining: seq<Name>)
    requires mine <= host.output.Keys
    modifies host`output, host`backup, host`staging, host`tick, host`lossless
    ensures Names(removed) + Names(remaining) == mine && Names(removed) !! Names(remaining)
    ensures host.output == old(host.output) - Names(removed)
    ensures host.tick >= old(host.tick)
    ensures remaining != [] ==> exists t :: old(host.tick) <= t < host.tick && host.refuses(t)
    ensures remaining == [] ==> Granted(host.refuses, old(host.tick), host.tick)
  {
    var listing := Listing(mine);
    removed := [];
    for i := 0 to |listing|
      invariant removed == listing[..i] && host.output == old(host.output) - Names(removed)
      invariant host.tick >= old(host.tick) && Granted(host.refuses, old(host.tick), host.tick)
    {
      NamesShrink(listing, i);
      assert Names(listing) == Names(listing[..i]) + Names(listing[i..]) by {
        assert listing == listing[..i] + listing[i..];
      }
      assert listing[i] in Names(listing);
      var ok := host.Unlink(listing[i]);
      if !ok {
        remaining := listing[i..];
        assert Names(removed) !! Names(remaining);
        return;
      }
      removed := removed + [listing[i]];
      assert removed == listing[..i + 1];
    }
    remaining := [];
    assert listing[..|listing|] == listing;
  }

  /** `_report_stale`, whichever files each of its readings fails on. */
  method ReportStale(host: Host, current: set<Name>, q: Query, m: Misreads, prune: bool) returns (r: StaleReport)
    modifies host`output, host`backup, host`staging, host`tick, host`lossless
    ensures r.ScanFailed? || r.ScanRaised? ==> host.output == old(host.output)
    ensures r.ScanRaised? ==> ScanCrashes(old(host.output), current, q, m)
    ensures r.ScanFailed? ==> host.refuses(old(host.tick))
    ensures r.Reported? || r.PruneIncomplete? ==> !ScanCrashes(old(host.output), current, q, m)
    ensures r.Reported? ==>
      && r.notOurs == Stale(old(host.output), current, q, m) - Mine(old(host.output), current, q, m)
      && r.otherInstallation == Theirs(old(host.output), current, q, m)
      && r.clusterScoped == HeldBack(old(host.output), current, q, m)
      && (if prune then Names(r.pruned) == Removable(old(host.output), current, q, m) && r.left == {}
          else r.pruned == [] && r.left == Removable(old(host.output), current, q, m))
      && host.output == old(host.output) - Names(r.pruned)
    ensures r.PruneIncomplete? ==>
      && prune && r.remaining != []
      && Names(r.removed) + Names(r.remaining) == Removable(old(host.output), current, q, m)
      && Names(r.removed) !! Names(r.remaining)
      && host.output == old(host.output) - Names(r.removed)
      && exists t :: old(host.tick) <= t && host.refuses(t)
    ensures host.tick >= old(host.tick)
    ensures r.Reported? ==> Granted(host.refuses, old(host.tick), host.tick)
  {
    ghost var before := host.output;
    if !ScanIsEmpty(q) {
      host.tick := host.tick + 1;
      if host.refuses(host.tick - 1) {
        return ScanFailed;
      }
      if ScanCrashes(host.output, current, q, m) {
        return ScanRaised;
      }
    }
    var stale := Stale(host.output, current, q, m);
    var mine := Mine(host.output, current, q, m);
    var notOurs := stale - mine;
    var theirs, heldBack := Theirs(host.output, current, q, m), HeldBack(host.output, current, q, m);
    mine := mine - theirs - heldBack;
    if prune {
      var removed, remaining := Prune(host, mine);
      if remaining != [] {
        return PruneIncomplete(removed, remaining);
      }
      r := Reported(notOurs, theirs, heldBack, removed, {});
    } else {
      r := Reported(notOurs, theirs, heldBack, [], mine);
    }
  }

  // ---------------------------------------------------------------- a command and its rights

  /** Which files the readings of one invocation fail on: when it predicts what a prune will remove,
      when it checks what it may overwrite, when it prunes, and when it checks staged documents. */
  datatype Readings = Readings(predicting: Misreads, checking: Misreads, pruning: Misreads, unread: set<Name>)

  const FAITHFUL := Readings(CLEAR, CLEAR, CLEAR, {})

  /** What one invocation means to leave in the directory, what it may speak for, and how its
      readings fare. */
  datatype Command = Command(planned: Tree, q: Query, readings: Readings)

  /** What a prune of this command removes. */
  function Retired(t: Tree, c: Command): (r: set<Name>)
    ensures r <= Mine(t, c.planned.Keys, c.q, c.readings.pruning)
  {
    Removable(t, c.planned.Keys, c.q, c.readings.pruning)
  }

  /** The scan before a prune, or before the report of what is stale, raises. */
  predicate ScanRaises(t: Tree, c: Command) {
    ScanCrashes(t, c.planned.Keys, c.q, c.readings.pruning)
  }

  predicate WellPlanned(planned: Tree) {
    forall n :: n in planned ==> Pending(planned[n]) && IsManifest(n)
  }

  /** A file a writer is about to produce: readable, and stamped in every document. */
  predicate Pending(e: Entry) {
    e.Regular? && e.owned.Some? && e.owned.value != [] && AllStampable(e.owned.value)
  }

  predicate Overwritable(t: Tree, n: Name, e: Entry)
    requires Pending(e)
  {
    PreflightAt(t, n, e.owned.value, CLEAR) == Free
  }

  predicate Writable(t: Tree, planned: Tree)
    requires WellPlanned(planned)
  {
    forall n :: n in planned ==> Overwritable(t, n, planned[n])
  }

  /** The preflight finds every planned path free or its own. */
  predicate Permitted(t: Tree, c: Command)
    requires WellPlanned(c.planned)
  {
    forall n :: n in c.planned ==> PreflightAt(t, n, c.planned[n].owned.value, c.readings.checking) == Free
  }

  lemma PermittedIsWritable(t: Tree, c: Command)
    requires WellPlanned(c.planned) && Permitted(t, c)
    ensures Writable(t, c.planned)
  {
    forall n | n in c.planned
      ensures Overwritable(t, n, c.planned[n])
    {
      MisreadsRefuse(t, n, c.planned[n].owned.value, c.readings.checking);
    }
  }

  /** The most a command may do, however it ends: write where its preflight found the path free
      or its own, and delete what reconciliation attributes to it. */
  ghost predicate WithinRights(before: Tree, c: Command, after: Tree)
    requires WellPlanned(c.planned)
  {
    && (forall n :: MayChange(before, c, n) || Look(after, n) == Look(before, n))
  }

  predicate MayChange(before: Tree, c: Command, n: Name)
    requires WellPlanned(c.planned)
  {
    || (n in c.planned && Overwritable(before, n, c.planned[n]))
    || n in Retired(before, c)
  }

  /** Files outside what a command speaks for: anything this compiler did not write, anything
      whose documents disagree, another mission's artifacts and another installation's. */
  predicate Foreign(e: Entry, c: Command)
    requires WellPlanned(c.planned)
  {
    IsRenderedArtifact(e) ==>
      match Classify(e)
      case Mission(m, _, _, _) =>
        m !in c.q.missions && forall n :: n in c.planned ==> RenderedMission(c.planned[n].owned.value) != JStr(m)
      case Unmissioned(scope, ownerId, _) =>
        && (scope == JStr(SCOPE_INSTALLATION) ==> ownerId != InstallationId(c.q) || !c.q.pruneGlobal)
        && forall n :: n in c.planned ==>
             RenderedMission(c.planned[n].owned.value) != JNull || RenderedOwnerId(c.planned[n].owned.value) != ownerId
      case _ => true
  }

  /** The scan of a command considers the file, and misreads it at the one point that protects what
      missions share. */
  predicate Exposed(n: Name, e: Entry, c: Command) {
    && n in c.readings.pruning.sharing && n !in Missed(c.readings.pruning)
    && n !in c.planned && IsManifest(n) && IsRenderedArtifact(e)
    && InScope(Classify(e), c.q) && Attributed(Classify(e), c.q.renderer)
  }

  /** A command reaches a foreign file exactly when it misreads it there, and then a prune that
      reports success has removed it. */
  lemma ForeignIsReachedIff(before: Tree, c: Command, n: Name)
    requires WellPlanned(c.planned) && n in before && Foreign(before[n], c)
    ensures MayChange(before, c, n) <==> Exposed(n, before[n], c)
    ensures n !in Settled(before, c) <==> Exposed(n, before[n], c)
    ensures n in Settled(before, c) && n !in c.planned ==> Settled(before, c)[n] == before[n]
  {
    hide IsManifest, IsRenderedArtifact, Classify;
    MisreadPrunes(before, c.planned.Keys, c.q, c.readings.pruning);
  }

  /** The directories a run of commands passes through. */
  ghost predicate Run(states: seq<Tree>, commands: seq<Command>) {
    && |states| == |commands| + 1
    && (forall i :: 0 <= i < |commands| ==> WellPlanned(commands[i].planned))
    && (forall i :: 0 <= i < |commands| ==> WithinRights(states[i], commands[i], states[i + 1]))
  }

  /** No run of commands, of any length and however each one ended, touches a file that is
      foreign to all of them and that none of them misreads as above. */
  lemma {:induction false} ForeignFilesSurviveEveryRun(states: seq<Tree>, commands: seq<Command>, n: Name)
    requires Run(states, commands) && n in states[0]
    requires forall i :: 0 <= i < |commands| ==>
      Foreign(states[0][n], commands[i]) && !Exposed(n, states[0][n], commands[i])
    ensures Look(states[|commands|], n) == Some(states[0][n])
  {
    if commands != [] {
      ForeignIsReachedIff(states[0], commands[0], n);
      assert Look(states[1], n) == Look(states[0], n);
      forall i | 0 <= i < |commands[1..]|
        ensures WellPlanned(commands[1..][i].planned)
        ensures WithinRights(states[1..][i], commands[1..][i], states[1..][i + 1])
      {
        assert commands[1..][i] == commands[i + 1];
      }
      forall i | 0 <= i < |commands[1..]|
        ensures Foreign(states[1..][0][n], commands[1..][i]) && !Exposed(n, states[1..][0][n], commands[1..][i])
      {
        assert commands[1..][i] == commands[i + 1];
      }
      ForeignFilesSurviveEveryRun(states[1..], commands[1..], n);
    }
  }

  // ---------------------------------------------------------------- convergence

  /** What a successful run that prunes leaves. */
  function Settled(before: Tree, c: Command): Tree {
    before + c.planned - Retired(before, c)
  }

  /** The artifacts a command's own provenance claims. */
  predicate Claims(q: Query, e: Entry) {
    && IsRenderedArtifact(e)
    && InScope(Classify(e), q) && Attributed(Classify(e), q.renderer)
    && (InstallationScoped(Classify(e)) ==> Classify(e).ownerId == InstallationId(q) && q.pruneGlobal)
  }

  function Claimed(t: Tree, q: Query): set<Name> {
    set n | n in t && IsManifest(n) && Claims(q, t[n])
  }

  lemma RemovableIsClaimed(t: Tree, current: set<Name>, q: Query)
    requires !ScanIsEmpty(q)
    ensures Removable(t, current, q, CLEAR) == Claimed(t, q) - current
  {
  }

  /** The scan answers the same before the render is published as after it. */
  lemma RemovableIgnoresCurrent(t: Tree, u: Tree, current: set<Name>, q: Query, m: Misreads)
    requires forall n :: n !in current ==> Look(t, n) == Look(u, n)
    ensures Stale(t, current, q, m) == Stale(u, current, q, m)
    ensures Removable(t, current, q, m) == Removable(u, current, q, m)
    ensures ScanCrashes(t, current, q, m) == ScanCrashes(u, current, q, m)
  {
    forall n
      ensures Candidate(t, current, n) <==> Candidate(u, current, n)
      ensures Candidate(t, current, n) ==> t[n] == u[n]
    {
      assert n !in current ==> Look(t, n) == Look(u, n);
    }
  }

  /** The claimed artifacts a prune would have removed had it not misread them. */
  function Overlooked(before: Tree, c: Command): set<Name> {
    (Claimed(before, c.q) - c.planned.Keys) * Missed(c.readings.pruning)
  }

  /** After a run that prunes, the claimed artifacts are exactly the planned files its own
      provenance claims and the stale ones it misread, every file that is neither planned nor claimed
      nor exposed is as it was, and doing it again finds nothing to prune and changes nothing. */
  lemma PruningConverges(before: Tree, c: Command)
    requires !ScanIsEmpty(c.q)
    ensures Claimed(Settled(before, c), c.q) == Claimed(c.planned, c.q) + Overlooked(before, c)
    ensures forall n :: n in c.planned ==> Look(Settled(before, c), n) == Some(c.planned[n])
    ensures forall n :: n in before && n !in c.planned && !(IsManifest(n) && Claims(c.q, before[n]))
                        && !Exposed(n, before[n], c) ==>
      Look(Settled(before, c), n) == Some(before[n])
    ensures forall n :: n in Settled(before, c) ==> n in before || n in c.planned
    ensures Retired(Settled(before, c), c) == {}
    ensures Settled(Settled(before, c), c) == Settled(before, c)
  {
    hide IsManifest, IsRenderedArtifact, Classify;
    RetiredIs(before, c);
    var after := Settled(before, c);
    RetiredIs(after, c);
    forall n
      ensures Look(Settled(after, c), n) == Look(after, n)
    {
    }
    SameLooksSameMap(Settled(after, c), after);
  }

  lemma RetiredIs(t: Tree, c: Command)
    requires !ScanIsEmpty(c.q)
    ensures forall n :: n in Retired(t, c) <==>
      && n in t && n !in c.planned && IsManifest(n) && n !in Missed(c.readings.pruning)
      && (Claims(c.q, t[n]) || Exposed(n, t[n], c))
  {
    hide IsManifest, IsRenderedArtifact, Classify;
  }
}
