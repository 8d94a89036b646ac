/** Taking the publish lock within a bounded wait. */
module LockWait {
  /** What `flock` answers: `Contended` and `Interrupted` are the errors worth retrying. */
  datatype Answer = Taken | Contended | Interrupted | CannotLock | Failed

  datatype Acquisition = Held | Unsupported | Unavailable

  predicate Retriable(a: Answer) {
    a.Contended? || a.Interrupted?
  }

  /** The monotonic clock: it never goes back, and a sleep lasts at least what was asked. */
  class Clock {
    var now: real
    const drift: nat -> real
    var readings: nat

    constructor (start: real, drift: nat -> real)
      ensures now == start && this.drift == drift
    {
      now, this.drift, readings := start, drift, 0;
    }

    method Monotonic() returns (t: real)
      modifies this
      ensures t == now >= old(now)
    {
      var d := drift(readings);
      now, readings := now + if d < 0.0 then 0.0 else d, readings + 1;
      t := now;
    }

    method Sleep(seconds: real)
      requires seconds >= 0.0
      modifies this
      ensures now >= old(now) + seconds
    {
      var d := drift(readings);
      now, readings := now + seconds + if d < 0.0 then 0.0 else d, readings + 1;
    }
  }

  function Min(a: real, b: real): real {
    if a <= b then a else b
  }

  function Max(a: real, b: real): real {
    if a >= b then a else b
  }

  /** The retry loop of `_publish_lock`. It asks fewer than `5 * timeout + 2` times, stops at the
      first answer that is not contention, and gives up on contention only past the deadline. */
  method Acquire(clock: Clock, flock: nat -> Answer, timeout: real) returns (r: Acquisition, attempts: nat)
    requires timeout >= 0.0
    modifies clock
    ensures 0 < attempts && attempts as real < 5.0 * timeout + 2.0
    ensures forall k :: 0 <= k < attempts - 1 ==> Retriable(flock(k))
    ensures r.Held? <==> flock(attempts - 1).Taken?
    ensures r.Unsupported? <==> flock(attempts - 1).CannotLock?
    ensures r.Unavailable? && Retriable(flock(attempts - 1)) ==> clock.now >= old(clock.now) + timeout
  {
    var started := clock.Monotonic();
    var deadline := started + timeout;
    attempts := 0;
    while true
      invariant forall k :: 0 <= k < attempts ==> Retriable(flock(k))
      invariant clock.now >= Min(deadline, started + 0.2 * attempts as real)
      invariant attempts as real < 5.0 * timeout + 1.0
      decreases (5.0 * timeout + 1.0).Floor - attempts
    {
      var answer := flock(attempts);
      attempts := attempts + 1;
      if answer.Taken? {
        return Held, attempts;
      }
      if answer.CannotLock? {
        return Unsupported, attempts;
      }
      if answer.Failed? {
        return Unavailable, attempts;
      }
      var t := clock.Monotonic();
      if t >= deadline {
        return Unavailable, attempts;
      }
      var u := clock.Monotonic();
      clock.Sleep(Min(0.2, Max(0.0, deadline - u)));
    }
  }
}

/** Any number of invocations sharing one directory, and the lock on it that most of them take. */
module LockProtocol {
  import opened Wrappers
  import opened Files
  import opened Ownership
  import opened Reconcile
  import opened Gate
  import opened Sections

  type Pid = nat

  ghost predicate AllProper(jobs: seq<Job>) {
    forall p :: 0 <= p < |jobs| ==> Proper(jobs[p])
  }

  /** `Working` is between lock and unlock: how far the section has got, the directory it found, and
      the steps it has taken. `Killed` is the process that ended there, whose lock the system frees. */
  datatype Phase = Waiting | Working(at: Local, found: Tree, steps: nat) | Done | Killed | GaveUp

  /** One holding of the lock that is over: by whom, and how many steps it took. */
  datatype Turn = Turn(pid: Pid, steps: nat)

  datatype State = State(dir: Tree, holder: Option<Pid>, phases: seq<Phase>, log: seq<Turn>)

  datatype Action =
    | TakeLock(pid: Pid)
    | GoUnlocked(pid: Pid)
    | GiveUp(pid: Pid)
    | Act(pid: Pid)
    | Unlock(pid: Pid)
    | Die(pid: Pid)

  ghost predicate Init(jobs: seq<Job>, d: Tree, s: State) {
    s == State(d, None, seq(|jobs|, i => Waiting), [])
  }

  function Enter(s: State, p: Pid, j: Job): State
    requires p < |s.phases|
  {
    s.(phases := s.phases[p := Working(Entering(j), s.dir, 0)])
  }

  function Leave(s: State, p: Pid, phase: Phase): State
    requires p < |s.phases| && s.phases[p].Working?
  {
    var phases := s.phases[p := phase];
    if s.holder == Some(p) then State(s.dir, None, phases, s.log + [Turn(p, s.phases[p].steps)])
    else State(s.dir, s.holder, phases, s.log)
  }

  /** One step of one process. Only contention times out. A process told that its file system cannot
      lock turns away if it is a gate and otherwise goes on without; another may be told that it
      can. */
  ghost predicate Next(jobs: seq<Job>, s: State, a: Action, s': State)
    requires AllProper(jobs)
  {
    && |s.phases| == |jobs| && a.pid < |jobs|
    && var p, phase, j := a.pid, s.phases[a.pid], jobs[a.pid];
    match a
    case TakeLock(_) => phase.Waiting? && s.holder.None? && s' == Enter(s, p, j).(holder := Some(p))
    case GoUnlocked(_) => phase.Waiting? && !j.kind.Gated? && s' == Enter(s, p, j)
    case GiveUp(_) =>
      phase.Waiting? && (s.holder.Some? || j.kind.Gated?) && s' == s.(phases := s.phases[p := GaveUp])
    case Act(_) =>
      phase.Working? && !phase.at.stage.Ended?
      && var next := Step(j, Point(phase.at, s.dir));
      s' == s.(dir := next.dir, phases := s.phases[p := Working(next.local, phase.found, phase.steps + 1)])
    case Unlock(_) => phase.Working? && phase.at.stage.Ended? && s' == Leave(s, p, Done)
    case Die(_) => phase.Working? && s' == Leave(s, p, Killed)
  }

  /** Nobody goes without the lock. */
  predicate AllLock(actions: seq<Action>) {
    forall i :: 0 <= i < |actions| ==> !actions[i].GoUnlocked?
  }

  /** The states of one interleaving. */
  ghost predicate Trace(jobs: seq<Job>, d: Tree, states: seq<State>, actions: seq<Action>)
    requires AllProper(jobs)
  {
    && |states| == |actions| + 1
    && Init(jobs, d, states[0])
    && forall i :: 0 <= i < |actions| ==> Next(jobs, states[i], actions[i], states[i + 1])
  }

  // ---------------------------------------------------------------- one holder at a time

  predicate Logged(jobs: seq<Job>, log: seq<Turn>) {
    forall i :: 0 <= i < |log| ==> log[i].pid < |jobs|
  }

  /** The directory the logged turns leave, each taken with nobody else about. */
  function Replay(jobs: seq<Job>, d: Tree, log: seq<Turn>): Tree
    requires AllProper(jobs) && Logged(jobs, log)
  {
    if log == [] then d
    else
      var last := log[|log| - 1];
      After(jobs[last.pid], Replay(jobs, d, log[..|log| - 1]), last.steps).dir
  }

  /** The last turn of a finished process came to its section's end. */
  ghost predicate Finishes(jobs: seq<Job>, d: Tree, s: State, i: nat)
    requires AllProper(jobs) && Logged(jobs, s.log) && i < |s.log| && |s.phases| == |jobs|
  {
    s.phases[s.log[i].pid].Done? ==>
      After(jobs[s.log[i].pid], Replay(jobs, d, s.log[..i]), s.log[i].steps).local.stage.Ended?
  }

  /** What every reachable state satisfies where all lock. */
  ghost predicate Inv(jobs: seq<Job>, d: Tree, s: State)
    requires AllProper(jobs)
  {
    && |s.phases| == |jobs| && Logged(jobs, s.log)
    && (forall p :: 0 <= p < |jobs| ==> (s.phases[p].Working? <==> s.holder == Some(p)))
    && (forall i :: 0 <= i < |s.log| ==> s.phases[s.log[i].pid].Done? || s.phases[s.log[i].pid].Killed?)
    && (forall i, k :: 0 <= i < k < |s.log| ==> s.log[i].pid != s.log[k].pid)
    && (forall p :: 0 <= p < |jobs| && (s.phases[p].Done? || s.phases[p].Killed?) ==>
          exists i :: 0 <= i < |s.log| && s.log[i].pid == p)
    && (forall i: nat :: i < |s.log| ==> Finishes(jobs, d, s, i))
    && (s.holder.None? ==> s.dir == Replay(jobs, d, s.log))
    && (s.holder.Some? ==> s.holder.value < |jobs| && Alone(jobs, d, s, s.holder.value))
  }

  /** The holder found what the turns before it left, and has the directory to itself since. */
  ghost predicate Alone(jobs: seq<Job>, d: Tree, s: State, p: Pid)
    requires AllProper(jobs) && Logged(jobs, s.log) && p < |jobs| && |s.phases| == |jobs|
  {
    && s.phases[p].Working? && s.phases[p].found == Replay(jobs, d, s.log)
    && Point(s.phases[p].at, s.dir) == After(jobs[p], s.phases[p].found, s.phases[p].steps)
  }

  lemma InitKeepsInv(jobs: seq<Job>, d: Tree, s: State)
    requires AllProper(jobs) && Init(jobs, d, s)
    ensures Inv(jobs, d, s)
  {
  }

  lemma TakingKeepsInv(jobs: seq<Job>, d: Tree, s: State, p: Pid, s': State)
    requires AllProper(jobs) && Inv(jobs, d, s) && Next(jobs, s, TakeLock(p), s')
    ensures Inv(jobs, d, s')
  {
    hide Proper, Step;
    forall i: nat | i < |s'.log|
      ensures Finishes(jobs, d, s', i)
    {
      assert Finishes(jobs, d, s, i);
    }
  }

  lemma GivingUpKeepsInv(jobs: seq<Job>, d: Tree, s: State, p: Pid, s': State)
    requires AllProper(jobs) && Inv(jobs, d, s) && Next(jobs, s, GiveUp(p), s')
    ensures Inv(jobs, d, s')
  {
    hide Proper, After;
    forall i: nat | i < |s'.log|
      ensures Finishes(jobs, d, s', i)
    {
      assert Finishes(jobs, d, s, i);
    }
  }

  lemma ActingKeepsInv(jobs: seq<Job>, d: Tree, s: State, p: Pid, s': State)
    requires AllProper(jobs) && Inv(jobs, d, s) && Next(jobs, s, Act(p), s')
    ensures Inv(jobs, d, s')
  {
    hide Proper, Step;
    forall i: nat | i < |s'.log|
      ensures Finishes(jobs, d, s', i)
    {
      assert Finishes(jobs, d, s, i);
    }
  }

  lemma LeavingIsLogged(jobs: seq<Job>, d: Tree, s: State, p: Pid, phase: Phase)
    requires AllProper(jobs) && Inv(jobs, d, s) && p < |jobs| && s.phases[p].Working?
    requires phase.Killed? || (phase.Done? && s.phases[p].at.stage.Ended?)
    ensures var s' := Leave(s, p, phase);
            && Logged(jobs, s'.log) && s.dir == Replay(jobs, d, s'.log)
            && forall i: nat :: i < |s'.log| ==> Finishes(jobs, d, s', i)
  {
    hide Proper, After;
    var s' := Leave(s, p, phase);
    assert s'.log[..|s'.log| - 1] == s.log;
    forall i: nat | i < |s'.log|
      ensures Finishes(jobs, d, s', i)
    {
      if i < |s.log| {
        assert s'.log[..i] == s.log[..i] && Finishes(jobs, d, s, i);
      }
    }
  }

  lemma LeavingKeepsInv(jobs: seq<Job>, d: Tree, s: State, p: Pid, phase: Phase)
    requires AllProper(jobs) && Inv(jobs, d, s) && p < |jobs| && s.phases[p].Working?
    requires phase.Killed? || (phase.Done? && s.phases[p].at.stage.Ended?)
    ensures Inv(jobs, d, Leave(s, p, phase))
  {
    hide Proper, After, Replay, Finishes;
    LeavingIsLogged(jobs, d, s, p, phase);
    var s' := Leave(s, p, phase);
    forall q | 0 <= q < |jobs| && (s'.phases[q].Done? || s'.phases[q].Killed?)
      ensures exists i :: 0 <= i < |s'.log| && s'.log[i].pid == q
    {
      if q != p {
        var i :| 0 <= i < |s.log| && s.log[i].pid == q;
        assert s'.log[i].pid == q;
      } else {
        assert s'.log[|s.log|].pid == p;
      }
    }
  }

  lemma StepKeepsInv(jobs: seq<Job>, d: Tree, s: State, a: Action, s': State)
    requires AllProper(jobs) && Inv(jobs, d, s) && Next(jobs, s, a, s') && !a.GoUnlocked?
    ensures Inv(jobs, d, s')
  {
    hide Proper, Inv, Step;
    InvIsHeld(jobs, d, s);
    match a
    case TakeLock(p) => TakingKeepsInv(jobs, d, s, p, s');
    case GiveUp(p) => GivingUpKeepsInv(jobs, d, s, p, s');
    case Act(p) => ActingKeepsInv(jobs, d, s, p, s');
    case Unlock(p) => LeavingKeepsInv(jobs, d, s, p, Done);
    case Die(p) => LeavingKeepsInv(jobs, d, s, p, Killed);
  }

  lemma InvIsHeld(jobs: seq<Job>, d: Tree, s: State)
    requires AllProper(jobs) && Inv(jobs, d, s)
    ensures |s.phases| == |jobs| && forall p :: 0 <= p < |jobs| ==> (s.phases[p].Working? <==> s.holder == Some(p))
  {
  }

  lemma {:induction false} EveryStateKeepsInv(jobs: seq<Job>, d: Tree, states: seq<State>, actions: seq<Action>, i: nat)
    requires AllProper(jobs) && Trace(jobs, d, states, actions) && AllLock(actions) && i < |states|
    ensures Inv(jobs, d, states[i])
  {
    hide Proper, Inv, Next;
    if i == 0 {
      InitKeepsInv(jobs, d, states[0]);
    } else {
      EveryStateKeepsInv(jobs, d, states, actions, i - 1);
      StepKeepsInv(jobs, d, states[i - 1], actions[i - 1], states[i]);
    }
  }

  /** At most one section is ever between lock and unlock, and only it changes the directory. */
  lemma MutualExclusion(jobs: seq<Job>, d: Tree, states: seq<State>, actions: seq<Action>, i: nat, p: Pid, q: Pid)
    requires AllProper(jobs) && Trace(jobs, d, states, actions) && AllLock(actions) && i < |states|
    requires p < |states[i].phases| && q < |states[i].phases|
    requires states[i].phases[p].Working? && states[i].phases[q].Working?
    ensures p == q
    ensures i < |actions| && states[i + 1].dir != states[i].dir ==> actions[i] == Act(p)
  {
    hide Proper, Step, Finishes, Replay, After;
    EveryStateKeepsInv(jobs, d, states, actions, i);
    assert i < |actions| ==> Next(jobs, states[i], actions[i], states[i + 1]);
  }

  /** Gates always hold the lock. */
  predicate GatesHold(jobs: seq<Job>, s: State) {
    && |s.phases| == |jobs|
    && (forall p :: 0 <= p < |jobs| && s.phases[p].Working? && jobs[p].kind.Gated? ==> s.holder == Some(p))
    && (s.holder.Some? ==> s.holder.value < |jobs| && s.phases[s.holder.value].Working?)
  }

  lemma StepKeepsGatesHold(jobs: seq<Job>, s: State, a: Action, s': State)
    requires AllProper(jobs) && Next(jobs, s, a, s') && GatesHold(jobs, s)
    ensures GatesHold(jobs, s')
  {
    hide Proper, Step;
  }

  /** Whoever else goes without, a gate works only while it holds the lock, so two never do. */
  lemma {:induction false} GatesNeedTheLock(jobs: seq<Job>, d: Tree, states: seq<State>, actions: seq<Action>, i: nat)
    requires AllProper(jobs) && Trace(jobs, d, states, actions) && i < |states|
    ensures GatesHold(jobs, states[i])
  {
    hide Proper, Next;
    if i > 0 {
      GatesNeedTheLock(jobs, d, states, actions, i - 1);
      StepKeepsGatesHold(jobs, states[i - 1], actions[i - 1], states[i]);
    }
  }

  /** But one process told that it cannot lock is enough: an ungated writer then does to the directory
      all it would do alone, while a gate that was told otherwise holds the lock on it. */
  lemma {:induction false} UnlockedWriterIntrudes(jobs: seq<Job>, d: Tree, n: nat)
    returns (states: seq<State>, actions: seq<Action>)
    requires AllProper(jobs) && |jobs| == 2 && jobs[0].kind.Gated? && !jobs[1].kind.Gated?
    requires forall k :: 0 <= k < n ==> !After(jobs[1], d, k).local.stage.Ended?
    ensures Trace(jobs, d, states, actions) && |actions| == n + 2
    ensures var s := states[n + 2];
            && s.holder == Some(0) && s.dir == After(jobs[1], d, n).dir
            && s.phases == [Working(Entering(jobs[0]), d, 0), Working(After(jobs[1], d, n).local, d, n)]
  {
    hide Proper, Step;
    if n == 0 {
      var s := State(d, None, [Waiting, Waiting], []);
      var t := Enter(s, 0, jobs[0]).(holder := Some(0));
      var u := Enter(t, 1, jobs[1]);
      states, actions := [s, t, u], [TakeLock(0), GoUnlocked(1)];
      assert Next(jobs, s, TakeLock(0), t) && Next(jobs, t, GoUnlocked(1), u);
      assert s.phases == seq(|jobs|, i => Waiting);
    } else {
      states, actions := UnlockedWriterIntrudes(jobs, d, n - 1);
      var s := states[n + 1];
      var next := After(jobs[1], d, n);
      var s' := s.(dir := next.dir, phases := s.phases[1 := Working(next.local, d, n)]);
      assert Point(s.phases[1].at, s.dir) == After(jobs[1], d, n - 1);
      assert Next(jobs, s, Act(1), s');
      TraceGrows(jobs, d, states, actions, Act(1), s');
      states, actions := states + [s'], actions + [Act(1)];
    }
  }

  lemma TraceGrows(jobs: seq<Job>, d: Tree, states: seq<State>, actions: seq<Action>, a: Action, s: State)
    requires AllProper(jobs) && Trace(jobs, d, states, actions) && Next(jobs, states[|actions|], a, s)
    ensures Trace(jobs, d, states + [s], actions + [a])
  {
    hide Proper, Next;
    var all, done := states + [s], actions + [a];
    forall i | 0 <= i < |done|
      ensures Next(jobs, all[i], done[i], all[i + 1])
    {
      if i < |actions| {
        assert all[i] == states[i] && all[i + 1] == states[i + 1] && done[i] == actions[i];
      }
    }
  }

  // ---------------------------------------------------------------- what the holder has done

  lemma HolderIsAlone(jobs: seq<Job>, d: Tree, states: seq<State>, actions: seq<Action>, i: nat, p: Pid)
    requires AllProper(jobs) && Trace(jobs, d, states, actions) && AllLock(actions) && i < |states|
    requires p < |jobs| && p < |states[i].phases| && states[i].phases[p].Working?
    ensures Logged(jobs, states[i].log) && |states[i].phases| == |jobs| && Alone(jobs, d, states[i], p)
  {
    hide Proper, After, Trace;
    EveryStateKeepsInv(jobs, d, states, actions, i);
  }

  /** Whatever a gate has staged to be linted is, until it first writes, what the directory holds: the
      copies were taken one by one, and none has gone stale. */
  lemma SnapshotHoldsUntilFirstWrite(
    jobs: seq<Job>, d: Tree, states: seq<State>, actions: seq<Action>, i: nat, p: Pid, n: Name)
    requires AllProper(jobs) && Trace(jobs, d, states, actions) && AllLock(actions) && i < |states|
    requires p < |jobs| && p < |states[i].phases| && states[i].phases[p].Working?
    requires jobs[p].kind.Gated? && OnlyReads(states[i].phases[p].at.stage)
    requires n in states[i].phases[p].at.staging && n !in jobs[p].c.planned
    ensures states[i].dir == states[i].phases[p].found
    ensures Look(states[i].dir, n) == Some(states[i].phases[p].at.staging[n])
  {
    hide Proper, After, Trace;
    HolderIsAlone(jobs, d, states, actions, i, p);
    var phase := states[i].phases[p];
    AfterIsSound(jobs[p], phase.found, phase.steps);
    StagedIsThere(jobs[p], phase.found, Point(phase.at, states[i].dir), n);
  }

  lemma StagedIsThere(j: Job, before: Tree, p: Point, n: Name)
    requires Proper(j) && Sound(j, before, p) && j.kind.Gated? && OnlyReads(p.local.stage)
    requires n in p.local.staging && n !in j.c.planned
    ensures p.dir == before && Look(before, n) == Some(p.local.staging[n])
  {
    hide WellPlanned, Leaving, Staying, Screened, NoLinksStay, LinterAccepts, ScanCrashes, IsArgoQuery, Answered,
      Kept;
  }

  /** Wherever the holder is, and whatever becomes of it, what it has changed so far is within the
      rights of its command in the directory it found. */
  lemma HolderObeys(jobs: seq<Job>, d: Tree, states: seq<State>, actions: seq<Action>, i: nat, p: Pid)
    requires AllProper(jobs) && Trace(jobs, d, states, actions) && AllLock(actions) && i < |states|
    requires p < |jobs| && p < |states[i].phases| && states[i].phases[p].Working?
    ensures WellPlanned(jobs[p].c.planned)
    ensures WithinRights(states[i].phases[p].found, jobs[p].c, states[i].dir)
  {
    hide After, Trace, WithinRights;
    HolderIsAlone(jobs, d, states, actions, i, p);
    SectionsObey(jobs[p], states[i].phases[p].found, states[i].phases[p].steps);
  }

  /** From lock to verdict to unlock, among any number of writers: when a gate is about to unlock
      after a success, the linter has accepted what it was shown, and the manifests of the directory
      are what it was shown exactly when, in the directory as the gate found it, what was predicted to
      go is what went. */
  lemma VerdictHoldsAtUnlock(jobs: seq<Job>, d: Tree, states: seq<State>, actions: seq<Action>, i: nat, p: Pid)
    requires AllProper(jobs) && Trace(jobs, d, states, actions) && AllLock(actions) && i < |states|
    requires p < |jobs| && p < |states[i].phases| && states[i].phases[p].Working? && Gates(jobs[p])
    requires states[i].phases[p].at.stage.Ended? && Succeeded(states[i].phases[p].at.stage.ending)
    ensures var (at, found, j) := (states[i].phases[p].at, states[i].phases[p].found, jobs[p]);
            && LinterAccepts(j.world, j.c, at.linted)
            && states[i].dir == Left(found, j.c, j.prune)
            && (Manifests(states[i].dir) == at.linted <==> PredictionHolds(found, j.c, j.prune))
  {
    hide Proper, After, Trace, Left, PredictionHolds, Manifests;
    HolderIsAlone(jobs, d, states, actions, i, p);
    GatesVouch(jobs[p], states[i].phases[p].found, states[i].phases[p].steps);
  }

  // ---------------------------------------------------------------- nobody is shut out

  /** One state leads to another by actions that all lock. */
  ghost predicate Leads(jobs: seq<Job>, states: seq<State>, actions: seq<Action>)
    requires AllProper(jobs)
  {
    && |states| == |actions| + 1 && AllLock(actions)
    && forall i :: 0 <= i < |actions| ==> Next(jobs, states[i], actions[i], states[i + 1])
  }

  lemma LeadsOn(jobs: seq<Job>, s: State, a: Action, states: seq<State>, actions: seq<Action>)
    requires AllProper(jobs) && Leads(jobs, states, actions)
    requires !a.GoUnlocked? && Next(jobs, s, a, states[0])
    ensures Leads(jobs, [s] + states, [a] + actions)
  {
    hide Next;
  }

  lemma {:induction false} LeadsFurther(
    jobs: seq<Job>, before: seq<State>, first: seq<Action>, after: seq<State>, then_: seq<Action>)
    requires AllProper(jobs) && Leads(jobs, before, first) && Leads(jobs, after, then_)
    requires before[|before| - 1] == after[0]
    ensures Leads(jobs, before + after[1..], first + then_)
  {
    hide Next;
    var states, actions := before + after[1..], first + then_;
    forall i | 0 <= i < |actions|
      ensures Next(jobs, states[i], actions[i], states[i + 1])
    {
      if i >= |first| {
        var k := i - |first|;
        assert Next(jobs, after[k], then_[k], after[k + 1]);
        assert states[i] == after[k] && states[i + 1] == after[k + 1];
      }
    }
  }

  /** Whoever holds the lock comes to the end of its section and gives it back, whatever its host
      refuses; the others need do nothing. */
  lemma {:induction false} HolderFinishes(jobs: seq<Job>, d: Tree, s: State, p: Pid, m: nat)
    returns (states: seq<State>, actions: seq<Action>)
    requires AllProper(jobs) && Inv(jobs, d, s) && s.holder == Some(p)
    requires s.phases[p].steps <= m && After(jobs[p], s.phases[p].found, m).local.stage.Ended?
    ensures Leads(jobs, states, actions) && states != [] && states[0] == s
    ensures var end := states[|states| - 1];
            Inv(jobs, d, end) && end.holder.None? && end.phases == s.phases[p := Done]
    decreases m - s.phases[p].steps
  {
    hide Proper, Step, Inv;
    HolderIs(jobs, d, s, p);
    if s.phases[p].at.stage.Ended? {
      var s' := Leave(s, p, Done);
      StepKeepsInv(jobs, d, s, Unlock(p), s');
      states, actions := [s, s'], [Unlock(p)];
    } else {
      var next := Step(jobs[p], Point(s.phases[p].at, s.dir));
      var phase := Working(next.local, s.phases[p].found, s.phases[p].steps + 1);
      var s' := s.(dir := next.dir, phases := s.phases[p := phase]);
      StepKeepsInv(jobs, d, s, Act(p), s');
      states, actions := HolderFinishes(jobs, d, s', p, m);
      LeadsOn(jobs, s, Act(p), states, actions);
      states, actions := [s] + states, [Act(p)] + actions;
    }
  }

  lemma HolderIs(jobs: seq<Job>, d: Tree, s: State, p: Pid)
    requires AllProper(jobs) && Inv(jobs, d, s) && s.holder == Some(p)
    ensures |s.phases| == |jobs| && p < |jobs| && s.phases[p].Working? && Proper(jobs[p])
    ensures Point(s.phases[p].at, s.dir) == After(jobs[p], s.phases[p].found, s.phases[p].steps)
  {
  }

  /** So from every reachable state every command that still waits may yet take its turn and finish. */
  lemma WaitersMayFinish(jobs: seq<Job>, d: Tree, s: State, p: Pid)
    returns (states: seq<State>, actions: seq<Action>)
    requires AllProper(jobs) && Inv(jobs, d, s) && p < |jobs| && s.phases[p].Waiting?
    ensures Leads(jobs, states, actions) && states != [] && states[0] == s
    ensures |states[|states| - 1].phases| == |jobs| && states[|states| - 1].phases[p].Done?
  {
    InvIsHeld(jobs, d, s);
    hide Proper, Step, Inv, Leads, Next, After;
    states, actions := [s], [];
    assert Leads(jobs, states, actions) by {
      LeadsNowhere(jobs, s);
    }
    if s.holder.Some? {
      var q := s.holder.value;
      HolderIsSomebody(jobs, d, s);
      var m := SectionsEnd(jobs[q], s.phases[q].found, s.phases[q].steps);
      states, actions := HolderFinishes(jobs, d, s, q, m);
    }
    var free := states[|states| - 1];
    var taken := Enter(free, p, jobs[p]).(holder := Some(p));
    assert Next(jobs, free, TakeLock(p), taken) by {
      FreeLockIsTaken(jobs, d, free, p);
    }
    StepKeepsInv(jobs, d, free, TakeLock(p), taken);
    var m := SectionsEnd(jobs[p], taken.phases[p].found, taken.phases[p].steps);
    var on, by_ := HolderFinishes(jobs, d, taken, p, m);
    LeadsOn(jobs, free, TakeLock(p), on, by_);
    LeadsFurther(jobs, states, actions, [free] + on, [TakeLock(p)] + by_);
    assert ([free] + on)[1..] == on;
    states, actions := states + on, actions + ([TakeLock(p)] + by_);
  }

  lemma LeadsNowhere(jobs: seq<Job>, s: State)
    requires AllProper(jobs)
    ensures Leads(jobs, [s], [])
  {
  }

  lemma HolderIsSomebody(jobs: seq<Job>, d: Tree, s: State)
    requires AllProper(jobs) && Inv(jobs, d, s) && s.holder.Some?
    ensures |s.phases| == |jobs| && s.holder.value < |jobs| && s.phases[s.holder.value].Working?
    ensures Proper(jobs[s.holder.value])
  {
  }

  lemma FreeLockIsTaken(jobs: seq<Job>, d: Tree, s: State, p: Pid)
    requires AllProper(jobs) && Inv(jobs, d, s) && p < |jobs| && s.phases[p].Waiting? && s.holder.None?
    ensures Next(jobs, s, TakeLock(p), Enter(s, p, jobs[p]).(holder := Some(p)))
  {
  }

  /** Whenever the lock is free the directory is what the turns so far leave taken one after another:
      those that finished to the end, those that were killed as far as they got, those that gave up
      not at all. */
  lemma InterleavingIsSequential(jobs: seq<Job>, d: Tree, states: seq<State>, actions: seq<Action>, i: nat)
    requires AllProper(jobs) && Trace(jobs, d, states, actions) && AllLock(actions) && i < |states|
    requires states[i].holder.None?
    ensures |states[i].phases| == |jobs| && Logged(jobs, states[i].log)
    ensures states[i].dir == Replay(jobs, d, states[i].log)
    ensures forall k, m :: 0 <= k < m < |states[i].log| ==> states[i].log[k].pid != states[i].log[m].pid
    ensures forall p :: 0 <= p < |jobs| ==>
      ((states[i].phases[p].Done? || states[i].phases[p].Killed?) <==>
       exists k :: 0 <= k < |states[i].log| && states[i].log[k].pid == p)
    ensures forall k: nat :: k < |states[i].log| ==> Finishes(jobs, d, states[i], k)
  {
    hide Proper, After, Trace, Replay, Finishes;
    EveryStateKeepsInv(jobs, d, states, actions, i);
  }

  // ---------------------------------------------------------------- the turns as a run of commands

  /** The directories between one turn and the next. */
  function Milestones(jobs: seq<Job>, d: Tree, log: seq<Turn>): (r: seq<Tree>)
    requires AllProper(jobs) && Logged(jobs, log)
    ensures |r| == |log| + 1 && r[0] == d && r[|log|] == Replay(jobs, d, log)
  {
    if log == [] then [d]
    else Milestones(jobs, d, log[..|log| - 1]) + [Replay(jobs, d, log)]
  }

  function Commanded(jobs: seq<Job>, log: seq<Turn>): (r: seq<Command>)
    requires Logged(jobs, log)
    ensures |r| == |log| && forall k :: 0 <= k < |r| ==> r[k] == jobs[log[k].pid].c
  {
    seq(|log|, k requires 0 <= k < |log| => jobs[log[k].pid].c)
  }

  /** So everything proved of runs of commands holds of the turns, finished or killed. */
  lemma {:induction false} TurnsAreARun(jobs: seq<Job>, d: Tree, log: seq<Turn>)
    requires AllProper(jobs) && Logged(jobs, log)
    ensures Run(Milestones(jobs, d, log), Commanded(jobs, log))
    decreases |log|
  {
    hide WithinRights, WellPlanned, After;
    if log != [] {
      var k := |log| - 1;
      var rest := log[..k];
      TurnsAreARun(jobs, d, rest);
      var ms, ns := Milestones(jobs, d, log), Milestones(jobs, d, rest);
      var cs, ds := Commanded(jobs, log), Commanded(jobs, rest);
      forall i | 0 <= i < |cs|
        ensures WellPlanned(cs[i].planned) && WithinRights(ms[i], cs[i], ms[i + 1])
      {
        if i < k {
          assert cs[i] == ds[i] && ms[i] == ns[i] && ms[i + 1] == ns[i + 1];
        } else {
          assert ms[k] == ns[k] == Replay(jobs, d, rest);
          SectionsObey(jobs[log[k].pid], ms[k], log[k].steps);
        }
      }
    }
  }

  // ---------------------------------------------------------------- with the lock and without

  /** Every working section spares the file. */
  ghost predicate Safe(jobs: seq<Job>, s: State, n: Name, e: Entry) {
    && |s.phases| == |jobs| && Look(s.dir, n) == Some(e)
    && forall p :: 0 <= p < |jobs| && s.phases[p].Working? ==> Spares(jobs[p], s.phases[p].at, n)
  }

  lemma StepKeepsSafe(jobs: seq<Job>, s: State, a: Action, s': State, n: Name, e: Entry)
    requires AllProper(jobs) && Next(jobs, s, a, s') && Safe(jobs, s, n, e)
    requires WellPlanned(jobs[a.pid].c.planned) && Foreign(e, jobs[a.pid].c) && !Exposed(n, e, jobs[a.pid].c)
    ensures Safe(jobs, s', n, e)
  {
    hide Proper, Step, Foreign, Exposed, Spares;
    var p := a.pid;
    if a.Act? {
      StepSparesForeign(jobs[p], Point(s.phases[p].at, s.dir), n);
    } else {
      StartingSpares(jobs[p], n);
    }
  }

  lemma StartingSpares(j: Job, n: Name)
    ensures Spares(j, Entering(j), n)
  {
  }

  /** A file foreign to every command, and that none misreads where only that reading protects it, is
      there, unchanged, at every moment of every interleaving: while others hold the lock, after they
      were killed, and where some or all go without. */
  lemma {:induction false} ForeignFilesSurviveConcurrency(
    jobs: seq<Job>, d: Tree, states: seq<State>, actions: seq<Action>, i: nat, n: Name)
    requires AllProper(jobs) && Trace(jobs, d, states, actions) && i < |states| && n in d
    requires forall p :: 0 <= p < |jobs| ==> Foreign(d[n], jobs[p].c) && !Exposed(n, d[n], jobs[p].c)
    ensures Safe(jobs, states[i], n, d[n])
  {
    hide Proper, Step, Foreign, Exposed, Spares, Next;
    if i > 0 {
      ForeignFilesSurviveConcurrency(jobs, d, states, actions, i - 1, n);
      NextIsOfAJob(jobs, states[i - 1], actions[i - 1], states[i]);
      StepKeepsSafe(jobs, states[i - 1], actions[i - 1], states[i], n, d[n]);
    }
  }

  lemma NextIsOfAJob(jobs: seq<Job>, s: State, a: Action, s': State)
    requires AllProper(jobs) && Next(jobs, s, a, s')
    ensures a.pid < |jobs| && WellPlanned(jobs[a.pid].c.planned)
  {
  }
}
