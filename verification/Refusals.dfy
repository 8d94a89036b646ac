/** What the ending of a section says about which of its operations was refused. */
module Refusals {
  import opened Wrappers
  import opened Files
  import opened Publishing
  import opened Ownership
  import opened Reconcile
  import opened Documents
  import opened Gate
  import opened Commands
  import opened Sections

  /** Nothing refused so far. */
  ghost predicate Smooth(j: Job, n: nat) {
    forall t :: 0 <= t < n ==> !j.refuses(t)
  }

  ghost predicate FirstAt(j: Job, t: nat) {
    j.refuses(t) && Smooth(j, t)
  }

  /** The first refused operation is one of these. */
  ghost predicate FirstWithin(j: Job, from: nat, to: nat) {
    exists t :: from <= t < to && FirstAt(j, t)
  }

  /** The operations of a gate before its first copy: a listing of the directory, another to predict
      what a prune removes. */
  function Listings(j: Job): nat {
    if j.prune then 2 else 1
  }

  /** The look at the staged prediction comes after one operation for every copy in it, and is
      followed by the clean-up. */
  function TheLook(j: Job, linted: Tree): nat {
    Listings(j) + |linted.Keys - j.c.planned.Keys|
  }

  /** The first operation of the preflight, which asks once of every planned path. */
  function TheChecks(j: Job, linted: Tree): nat {
    if Gates(j) then TheLook(j, linted) + 2 else 0
  }

  /** The first that moves a file: a gate makes its backup before it, `render-kueue` that, its staging
      directory and the staged files. */
  function TheMoves(j: Job, linted: Tree): nat {
    TheChecks(j, linted) + |j.written| + if j.kind.Kueue? then 3 else 1
  }

  /** How far a section has got, where nothing was refused or the set is being moved back. */
  ghost predicate Paced(j: Job, l: Local) {
    && (Turned(l.stage) || Smooth(j, l.tick))
    && match l.stage
       case Starting => l.tick == 0
       case Comparing(_) => l.tick == 1
       case Copying(_, carried) => l.tick == Listings(j) + |carried|
       case Linting(carried) => l.tick == Listings(j) + |carried| && carried <= l.staging.Keys
       case Checking(k, _) => l.tick == TheChecks(j, l.linted) + k
       case SettingAside(_, _) => l.tick >= TheMoves(j, l.linted)
       case Installing(_, _) => l.tick >= TheMoves(j, l.linted)
       case Discarding => l.tick >= TheMoves(j, l.linted)
       case Unlinking(_, _, _, _) => FirstWithin(j, TheMoves(j, l.linted), l.tick)
       case Restoring(_, _, _, _, _) => FirstWithin(j, TheMoves(j, l.linted), l.tick)
       case Writing(k) => l.tick == |j.written| + k
       case _ => true
  }

  /** What an ending says of the refusals: a success met none; every other says which was the first,
      or that something was wrong with what was read. */
  ghost predicate Told(j: Job, before: Tree, p: Point, ending: Ending)
    requires Proper(j)
  {
    var l, n := p.local, |j.written|;
    match ending
    case Traceback =>
      (match j.kind
       case Gated => MayRaise(before, j.c, j.written, j.prune, Under(j)) || FirstAt(j, TheLook(j, l.linted))
       case Ungated => !Permitted(before, j.c) || ScanRaises(before, j.c) || FirstWithin(j, 0, 2 * n)
       case Kueue =>
         || PreflightRaises(before, j.c) || ScanRaises(before, j.c) || FirstWithin(j, 0, n) || FirstAt(j, n + 1)
         || (p.dir == before + j.c.planned && FirstAt(j, l.tick + 1)))
    case Report(reason, _) =>
      match reason
      case Passed => Smooth(j, l.tick)
      case NotApplicable => Smooth(j, l.tick)
      case SnapshotFailed => FirstWithin(j, 0, l.tick + 1)
      case LintFailed => DocumentsFail(Under(j), j.c, l.linted) || Smooth(j, l.tick + 2)
      case CleanupFailed(_) => FirstAt(j, TheLook(j, l.linted) + 1)
      case StagingUnavailable => !j.world.backupPossible || (j.kind.Kueue? && FirstAt(j, n))
      case PublishFailed =>
        FirstWithin(j, if j.kind.Kueue? then n + 2 else TheChecks(j, l.linted), l.tick + 3)
      case RollbackIncomplete(_, _) => FirstWithin(j, TheMoves(j, l.linted), l.tick)
      case StaleScanFailed => FirstAt(j, l.tick) && p.dir == before + j.c.planned
      case PruneFailed(_, _) => FirstAt(j, l.tick)
      case _ => Smooth(j, l.tick)
  }

  ghost predicate OnPace(j: Job, before: Tree, p: Point)
    requires Proper(j)
  {
    match p.local.stage
    case Ended(ending) => Told(j, before, p, ending)
    case _ => Paced(j, p.local)
  }

  lemma FirstOfThree(j: Job, t: nat)
    requires Smooth(j, t)
    ensures j.refuses(t) ==> FirstAt(j, t) && FirstWithin(j, t, t + 1)
    ensures !j.refuses(t) && j.refuses(t + 1) ==> FirstAt(j, t + 1)
    ensures !j.refuses(t) && !j.refuses(t + 1) && j.refuses(t + 2) ==> FirstAt(j, t + 2)
    ensures !j.refuses(t) ==> Smooth(j, t + 1)
    ensures !j.refuses(t) && !j.refuses(t + 1) ==> Smooth(j, t + 2)
    ensures !j.refuses(t) && !j.refuses(t + 1) && !j.refuses(t + 2) ==> Smooth(j, t + 3)
  {
    if j.refuses(t) {
      assert t <= t < t + 1 && FirstAt(j, t);
    }
  }

  /** Endings that blame no operation need none refused. */
  lemma BlamesNone(j: Job, before: Tree, p: Point, ending: Ending)
    requires Proper(j) && Smooth(j, p.local.tick) && ending.Report?
    requires
      || ending.reason.LinterUnavailable? || ending.reason.NoManifests? || ending.reason.SymlinkedManifest?
      || ending.reason.Passed? || ending.reason.NotApplicable?
    ensures OnPace(j, before, End(p, ending))
  {
    hide Smooth, FirstAt, FirstWithin, Under, Permitted, ScanRaises, PreflightRaises, MayRaise, DocumentsFail;
  }

  lemma BlamesTheSnapshot(j: Job, before: Tree, p: Point)
    requires Proper(j) && Smooth(j, p.local.tick) && Refused(j, p)
    ensures OnPace(j, before, End(p, Report(SnapshotFailed, false)))
  {
    assert 0 <= p.local.tick < p.local.tick + 1 && FirstAt(j, p.local.tick);
  }

  lemma BlamesWhatItRead(j: Job, before: Tree, p: Point)
    requires Proper(j) && j.kind.Gated? && MayRaise(before, j.c, j.written, j.prune, Under(j))
    ensures OnPace(j, before, End(p, Traceback))
  {
  }

  // ---------------------------------------------------------------- step by step

  lemma StartKeepsPace(j: Job, before: Tree, p: Point)
    requires Proper(j) && Paced(j, p.local) && p.local.stage.Starting? && p.local.linted == map[]
    ensures OnPace(j, before, AtStarting(j, p))
  {
    hide Proper, Told, Smooth, FirstAt;
    FirstOfThree(j, 0);
    var q := AtStarting(j, p);
    if q.local.stage.Ended? {
      if q.local.stage.ending == Report(SnapshotFailed, false) {
        BlamesTheSnapshot(j, before, p);
      } else {
        BlamesNone(j, before, p, q.local.stage.ending);
      }
    }
  }

  lemma ComparingKeepsPace(j: Job, before: Tree, p: Point, listed: set<Name>)
    requires Proper(j) && OnComparing(j, before, p, listed) && Paced(j, p.local) && p.local.stage == Comparing(listed)
    ensures OnPace(j, before, AtComparing(j, p, listed))
  {
    hide Proper, PredictionRaises, StampsRaise, Leaving, Told, Smooth, FirstAt;
    FirstOfThree(j, 1);
    if j.prune && Refused(j, p) {
      BlamesTheSnapshot(j, before, p);
    } else if PredictionRaises(before, j.c, j.prune) {
      PredictionRaisesOnStamps(before, j.c, j.prune);
      BlamesWhatItRead(j, before, p);
    }
  }

  lemma CopyIsNew(j: Job, before: Tree, p: Point, todo: set<Name>, carried: set<Name>)
    requires Proper(j) && OnCopying(j, before, p, todo, carried) && todo != {}
    ensures |carried + {j.pick(todo)}| == |carried| + 1
  {
    hide Staying, Screened;
    assert j.pick(todo) in todo;
  }

  lemma CopyingKeepsPace(j: Job, before: Tree, p: Point, todo: set<Name>, carried: set<Name>)
    requires Proper(j) && OnCopying(j, before, p, todo, carried) && Paced(j, p.local)
    requires p.local.stage == Copying(todo, carried)
    ensures OnPace(j, before, AtCopying(j, p, todo, carried))
  {
    hide Proper, OnCopying, Linked, Told, Smooth, FirstAt;
    CopiesAreStaged(j, before, p, todo, carried);
    FirstOfThree(j, p.local.tick);
    if todo != {} {
      CopyIsNew(j, before, p, todo, carried);
      if Linked(p.dir, j.pick(todo)) {
        BlamesNone(j, before, p, Report(SymlinkedManifest, false));
      } else if Refused(j, p) {
        BlamesTheSnapshot(j, before, p);
      }
    }
  }

  lemma CopiesAreStaged(j: Job, before: Tree, p: Point, todo: set<Name>, carried: set<Name>)
    requires OnCopying(j, before, p, todo, carried)
    ensures carried <= p.local.staging.Keys
  {
    hide Screened, Leaving;
  }

  lemma CopiesAreCounted(j: Job, before: Tree, p: Point, carried: set<Name>)
    requires OnLinting(j, before, p, carried) && carried <= p.local.staging.Keys
    ensures p.local.staging.Keys - j.c.planned.Keys == carried
  {
    hide Screened, NoLinksStay, Predicted;
    var planned := p.local.staging - carried;
    assert planned.Keys == p.local.staging.Keys - carried && planned.Keys == j.c.planned.Keys;
  }

  lemma LintingKeepsPace(j: Job, before: Tree, p: Point, carried: set<Name>)
    requires Proper(j) && OnLinting(j, before, p, carried) && Paced(j, p.local) && p.local.stage == Linting(carried)
    ensures OnPace(j, before, AtLinting(j, p, carried))
  {
    hide Proper, Screened, Predicted, NoLinksStay, PredictionRaises, OnLinting, CheckDocuments, DocumentsPass,
      DocumentsFail, DocumentsRaise, DocumentsDefer, StampsRaise, Order, AtVerdict, FirstAt, Smooth, Told;
    LintedIsPredicted(j, before, p, carried);
    CopiesAreCounted(j, before, p, carried);
    var shown := p.local.staging;
    var q := Point(p.local.(linted := shown), p.dir);
    CheckSays(Under(j), j.c, shown, Order(j, shown.Keys));
    LooksOrNot(j, before);
    FirstOfThree(j, p.local.tick);
    if Refused(j, p) {
      BlamesTheLook(j, before, q);
    } else {
      match CheckDocuments(shown, Order(j, shown.Keys), j.c.readings.unread, j.world.frames)
      case Rejected => BlamesTheDocuments(j, before, q);
      case Undecided => BlamesNone(j, before, q, Report(LinterUnavailable, false));
      case Raised => BlamesWhatItRead(j, before, q);
      case Clean => VerdictKeepsPace(j, before, q, carried);
    }
  }

  lemma BlamesTheLook(j: Job, before: Tree, p: Point)
    requires Proper(j) && Gates(j) && FirstAt(j, TheLook(j, p.local.linted))
    ensures OnPace(j, before, End(p, Traceback))
  {
  }

  lemma BlamesTheDocuments(j: Job, before: Tree, p: Point)
    requires Proper(j) && DocumentsFail(Under(j), j.c, p.local.linted)
    ensures OnPace(j, before, End(p, Report(LintFailed, false)))
  {
  }

  lemma LooksOrNot(j: Job, before: Tree)
    requires Screened(j, before)
    ensures Gates(j) && Looks(j.c, j.written, Under(j))
  {
  }

  lemma VerdictKeepsPace(j: Job, before: Tree, p: Point, carried: set<Name>)
    requires Proper(j) && Gates(j) && Smooth(j, p.local.tick) && !Refused(j, p)
    requires p.local.tick == TheLook(j, p.local.linted)
    ensures OnPace(j, before, AtVerdict(j, p, carried))
  {
    hide Proper, Smooth, FirstAt, TheLook, MayRaise, Permitted, PreflightRaises, ScanRaises, DocumentsFail;
    FirstOfThree(j, p.local.tick);
  }

  lemma CheckingKeepsPace(j: Job, before: Tree, p: Point, k: nat, clash: bool)
    requires Proper(j) && OnChecking(j, before, p, k, clash) && Paced(j, p.local) && p.local.stage == Checking(k, clash)
    ensures OnPace(j, before, AtChecking(j, p, k, clash))
  {
    hide Proper, Answered, TheLook, Vetted, AtChecking;
    AtMostAll(j, before, k, clash);
    if k < |j.written| {
      OneCheckKeepsPace(j, before, p, k, clash);
    } else {
      LastCheckKeepsPace(j, before, p, k, clash);
    }
  }

  lemma AtMostAll(j: Job, before: Tree, k: nat, clash: bool)
    requires Proper(j) && Answered(j, before, k, clash)
    ensures k <= |j.written|
  {
    hide Proper;
  }

  lemma OneCheckKeepsPace(j: Job, before: Tree, p: Point, k: nat, clash: bool)
    requires Proper(j) && Smooth(j, p.local.tick) && p.local.tick == TheChecks(j, p.local.linted) + k
    requires p.dir == before && k < |j.written| && Answered(j, before, k, clash) && (j.kind.Gated? ==> Gates(j))
    ensures OnPace(j, before, AtChecking(j, p, k, clash))
  {
    hide Proper, AnswerAt, Answered, Told, Smooth, FirstAt, TheLook, Permitted, PreflightRaises;
    FirstOfThree(j, p.local.tick);
    OneMoreAnswer(j, before, k, clash);
    if Refused(j, p) {
      BlamesTheChecks(j, before, p, k);
    } else if AnswerAt(j, before, k) == PreflightCrash {
      BlamesAnAnswer(j, before, p);
    }
  }

  lemma LastCheckKeepsPace(j: Job, before: Tree, p: Point, k: nat, clash: bool)
    requires Proper(j) && Smooth(j, p.local.tick) && p.local.tick == TheChecks(j, p.local.linted) + k
    requires p.dir == before && k == |j.written| && Answered(j, before, k, clash) && (j.kind.Gated? ==> Gates(j))
    ensures OnPace(j, before, AtChecking(j, p, k, clash))
  {
    hide Proper, AnswerAt, Answered, Told, Smooth, FirstAt, TheLook, Permitted, PreflightRaises;
    FirstOfThree(j, p.local.tick);
    AnswersDecide(j, before, k, clash);
    if clash {
      BlamesAConflict(j, before, p);
    } else {
      BlamesTheRoom(j, before, p);
    }
  }

  /** A refusal from the preflight on, and how each command reports it. */
  lemma BlamesTheChecks(j: Job, before: Tree, p: Point, k: nat)
    requires Proper(j) && k < |j.written| && FirstAt(j, p.local.tick)
    requires p.local.tick == TheChecks(j, p.local.linted) + k
    requires j.kind.Gated? ==> Gates(j)
    ensures OnPace(j, before, End(p, if j.kind.Gated? then Report(PublishFailed, false) else Traceback))
  {
    hide TheLook, MayRaise, Permitted, PreflightRaises, ScanRaises;
  }

  lemma BlamesAnAnswer(j: Job, before: Tree, p: Point)
    requires Proper(j) && PreflightRaises(before, j.c) && !Permitted(before, j.c)
    ensures OnPace(j, before, End(p, Traceback))
  {
    hide PreflightRaises, StampsRaise, Permitted;
    PreflightRaisesOnStamps(before, j.c);
  }

  lemma BlamesAConflict(j: Job, before: Tree, p: Point)
    requires Proper(j) && !Permitted(before, j.c) && Smooth(j, p.local.tick)
    ensures OnPace(j, before, End(p, if j.kind.Ungated? then Traceback else Report(NotOwned, false)))
  {
    hide Permitted, Smooth;
  }

  /** And one between the preflight and the first move. */
  lemma BlamesTheRoom(j: Job, before: Tree, p: Point)
    requires Proper(j) && Smooth(j, p.local.tick) && (j.kind.Gated? ==> Gates(j))
    requires p.local.tick == TheChecks(j, p.local.linted) + |j.written|
    ensures !j.kind.Ungated? && !j.world.backupPossible ==>
      OnPace(j, before, End(p, Report(StagingUnavailable, false)))
    ensures j.kind.Gated? && Refused(j, p) ==> OnPace(j, before, End(p, Report(PublishFailed, false)))
    ensures j.kind.Kueue? && Refused(j, p) ==> OnPace(j, before, End(p, Report(StagingUnavailable, false)))
    ensures j.kind.Kueue? && !Refused(j, p) && j.refuses(p.local.tick + 1) ==> OnPace(j, before, End(p, Traceback))
    ensures j.kind.Kueue? && !Refused(j, p) && !j.refuses(p.local.tick + 1) && j.refuses(p.local.tick + 2) ==>
      OnPace(j, before, End(p, Report(PublishFailed, false)))
  {
    hide TheLook, Smooth, FirstAt, MayRaise, Permitted, PreflightRaises, ScanRaises;
    FirstOfThree(j, p.local.tick);
  }

  lemma SettingAsideKeepsPace(j: Job, before: Tree, p: Point, k: nat, displaced: seq<Name>)
    requires Proper(j) && Paced(j, p.local) && p.local.stage == SettingAside(k, displaced)
    ensures OnPace(j, before, AtSettingAside(j, p, k, displaced))
  {
    hide Proper, TheMoves, Exists, Told, Smooth, FirstAt;
    FirstOfThree(j, p.local.tick);
    TurnsAt(j, p);
  }

  lemma InstallingKeepsPace(j: Job, before: Tree, p: Point, k: nat, displaced: seq<Name>)
    requires Proper(j) && Paced(j, p.local) && p.local.stage == Installing(k, displaced)
    requires OnInstalling(j, before, p, k, displaced)
    ensures OnPace(j, before, AtInstalling(j, p, k, displaced))
  {
    hide Proper, OnInstalling, TheMoves, Told, Smooth, FirstAt;
    FirstOfThree(j, p.local.tick);
    TurnsAt(j, p);
    StagedIsThere(j, before, p, k, displaced);
  }

  lemma TurnsAt(j: Job, p: Point)
    requires Smooth(j, p.local.tick) && p.local.tick >= TheMoves(j, p.local.linted)
    ensures Refused(j, p) ==> FirstWithin(j, TheMoves(j, p.local.linted), p.local.tick + 1)
    ensures !Refused(j, p) && j.refuses(p.local.tick + 1) ==>
      FirstWithin(j, TheMoves(j, p.local.linted), p.local.tick + 2)
  {
    hide TheMoves, Smooth, FirstAt;
    FirstOfThree(j, p.local.tick);
  }

  lemma StagedIsThere(j: Job, before: Tree, p: Point, k: nat, displaced: seq<Name>)
    requires Proper(j) && OnInstalling(j, before, p, k, displaced)
    ensures k < |j.written| && j.written[k] in p.local.staging
  {
    hide Transacting, InFlight;
    PlannedAt(j, k);
    assert j.written[k] !in Names(j.written[..k]);
  }

  lemma StillTurned(j: Job, from: nat, to: nat)
    ensures FirstWithin(j, from, to) ==> FirstWithin(j, from, to + 1)
  {
    if FirstWithin(j, from, to) {
      var t :| from <= t < to && FirstAt(j, t);
    }
  }

  lemma UnlinkingKeepsPace(
    j: Job, before: Tree, p: Point, k: nat, i: nat, displaced: seq<Name>, standing: set<Name>)
    requires Proper(j) && FirstWithin(j, TheMoves(j, p.local.linted), p.local.tick)
    ensures OnPace(j, before, AtUnlinking(j, p, k, i, displaced, standing))
  {
    hide Proper, TheMoves, FirstWithin, Told;
    StillTurned(j, TheMoves(j, p.local.linted), p.local.tick);
  }

  lemma RestoringKeepsPace(
    j: Job, before: Tree, p: Point, k: nat, i: nat, displaced: seq<Name>, standing: set<Name>, unrestored: set<Name>)
    requires Proper(j) && FirstWithin(j, TheMoves(j, p.local.linted), p.local.tick)
    requires Transacting(j, before, p.local.linted)
    ensures OnPace(j, before, AtRestoring(j, p, k, i, displaced, standing, unrestored))
  {
    hide Proper, TheMoves, FirstWithin, Told, Transacting;
    StillTurned(j, TheMoves(j, p.local.linted), p.local.tick);
    if i >= |displaced| {
      BlamesTheMoves(j, before, p, standing, unrestored);
    }
  }

  lemma TurningKeepsPace(j: Job, before: Tree, p: Point)
    requires Proper(j) && Paced(j, p.local) && Turned(p.local.stage)
    requires Transacting(j, before, p.local.linted)
    ensures OnPace(j, before, Step(j, p))
  {
    hide Proper, TheMoves, FirstWithin, OnPace, Transacting, AtUnlinking, AtRestoring;
    match p.local.stage
    case Unlinking(k, i, displaced, standing) => UnlinkingKeepsPace(j, before, p, k, i, displaced, standing);
    case Restoring(k, i, displaced, standing, unrestored) =>
      RestoringKeepsPace(j, before, p, k, i, displaced, standing, unrestored);
  }

  lemma BlamesTheMoves(j: Job, before: Tree, p: Point, standing: set<Name>, unrestored: set<Name>)
    requires Proper(j) && Transacting(j, before, p.local.linted)
    requires FirstWithin(j, TheMoves(j, p.local.linted), p.local.tick)
    ensures OnPace(j, before, End(p, Report(PublishFailed, false)))
    ensures OnPace(j, before, End(p, Report(RollbackIncomplete(unrestored, standing), true)))
  {
    hide TheLook, FirstAt, Cleared;
    var t :| TheMoves(j, p.local.linted) <= t < p.local.tick && FirstAt(j, t);
  }

  lemma DiscardingKeepsPace(j: Job, before: Tree, p: Point)
    requires Proper(j) && Paced(j, p.local) && p.local.stage.Discarding? && OnDiscarding(j, before, p)
    ensures OnPace(j, before, AtDiscarding(j, p))
  {
    hide Proper, TheLook, Cleared, Smooth, FirstAt, Permitted, PreflightRaises, ScanRaises, MayRaise;
    FirstOfThree(j, p.local.tick);
  }

  lemma WritingKeepsPace(j: Job, before: Tree, p: Point, k: nat)
    requires Proper(j) && Paced(j, p.local) && p.local.stage == Writing(k) && OnWriting(j, before, p, k)
    ensures OnPace(j, before, AtWriting(j, p, k))
  {
    hide Proper, Cleared, Smooth, OnPace, AtWriting;
    OneWriteKeepsPace(j, before, p, k);
  }

  lemma OneWriteKeepsPace(j: Job, before: Tree, p: Point, k: nat)
    requires Proper(j) && j.kind.Ungated? && Smooth(j, p.local.tick) && p.local.tick == |j.written| + k
    ensures OnPace(j, before, AtWriting(j, p, k))
  {
    hide Proper, Smooth, FirstAt, Told;
    FirstOfThree(j, p.local.tick);
    if k < |j.written| && Refused(j, p) {
      BlamesTheWrites(j, before, p, k);
    }
  }

  lemma BlamesTheWrites(j: Job, before: Tree, p: Point, k: nat)
    requires Proper(j) && j.kind.Ungated? && k < |j.written| && FirstAt(j, |j.written| + k)
    ensures OnPace(j, before, End(p, Traceback))
  {
    hide Proper, Permitted, ScanRaises;
  }

  lemma ScanningKeepsPace(j: Job, before: Tree, p: Point)
    requires Proper(j) && Paced(j, p.local) && p.local.stage.Scanning? && OnScanning(j, before, p)
    ensures OnPace(j, before, AtScanning(j, p))
  {
    hide Proper, Cleared, Smooth, OnPace, AtScanning;
    OneScanKeepsPace(j, before, p);
  }

  lemma OneScanKeepsPace(j: Job, before: Tree, p: Point)
    requires Proper(j) && Smooth(j, p.local.tick) && p.dir == before + j.c.planned
    ensures OnPace(j, before, AtScanning(j, p))
  {
    hide Proper, Smooth, FirstAt, Told, ScanRaises, Retired, ScanIsEmpty, Finished;
    FirstOfThree(j, p.local.tick);
    SameScan(before, p.dir, j.c);
    if !ScanIsEmpty(j.c.q) && Refused(j, p) {
      BlamesTheScan(j, before, p);
    } else if ScanRaises(before, j.c) {
      BlamesTheStamps(j, before, p);
    } else if !j.prune {
      FinishBlamesNone(j, before, p);
    }
  }

  lemma FinishBlamesNone(j: Job, before: Tree, p: Point)
    requires Proper(j) && Smooth(j, p.local.tick)
    ensures OnPace(j, before, End(p, Finished(j)))
  {
    hide OnPace, Smooth;
    BlamesNone(j, before, p, Finished(j));
  }

  lemma BlamesTheScan(j: Job, before: Tree, p: Point)
    requires Proper(j) && FirstAt(j, p.local.tick) && p.dir == before + j.c.planned
    ensures OnPace(j, before, End(p, Report(StaleScanFailed, true)))
  {
  }

  lemma SameScan(before: Tree, after: Tree, c: Command)
    requires after == before + c.planned
    ensures ScanRaises(after, c) <==> ScanRaises(before, c)
  {
    RemovableIgnoresCurrent(before, after, c.planned.Keys, c.q, c.readings.pruning);
  }

  lemma BlamesTheStamps(j: Job, before: Tree, p: Point)
    requires Proper(j) && ScanRaises(before, j.c)
    ensures OnPace(j, before, End(p, Traceback))
  {
    hide ScanRaises, StampsRaise;
    ScanRaisesOnStamps(before, j.c);
  }

  lemma PruningKeepsPace(j: Job, before: Tree, p: Point, todo: set<Name>, removed: set<Name>)
    requires Proper(j) && Paced(j, p.local) && p.local.stage == Pruning(todo, removed)
    requires OnPruning(j, before, p, todo, removed)
    ensures OnPace(j, before, AtPruning(j, p, todo, removed))
  {
    hide Proper, OnPruning, Smooth, FirstAt, Told;
    NextIsThere(j, before, p, todo, removed);
    FirstOfThree(j, p.local.tick);
    if todo == {} {
      FinishBlamesNone(j, before, p);
    } else if Refused(j, p) {
      BlamesThePrune(j, before, p, removed, todo);
    }
  }

  lemma NextIsThere(j: Job, before: Tree, p: Point, todo: set<Name>, removed: set<Name>)
    requires Proper(j) && OnPruning(j, before, p, todo, removed)
    ensures todo != {} ==> j.pick(todo) in p.dir
  {
    hide OnPruning, WellPlanned;
    assert todo != {} ==> j.pick(todo) in todo;
    PrunedIsThere(j, before, p, todo, removed);
  }

  lemma BlamesThePrune(j: Job, before: Tree, p: Point, removed: set<Name>, remaining: set<Name>)
    requires Proper(j) && FirstAt(j, p.local.tick)
    ensures OnPace(j, before, End(p, Report(PruneFailed(removed, remaining), true)))
  {
  }

  lemma StepKeepsPace(j: Job, before: Tree, p: Point)
    requires Proper(j) && Sound(j, before, p) && OnPace(j, before, p)
    ensures OnPace(j, before, Step(j, p))
  {
    hide Proper, OnPace, Paced, OnComparing, OnCopying, OnLinting, OnChecking, OnSettingAside, OnInstalling,
      OnUnlinking, OnRestoring, OnDiscarding, OnWriting, OnScanning, OnPruning, Kept, AtStarting, AtComparing,
      AtCopying, AtLinting, AtChecking, AtSettingAside, AtInstalling, AtUnlinking, AtRestoring, AtDiscarding,
      AtWriting, AtScanning, AtPruning;
    if !p.local.stage.Ended? {
      PaceIs(j, before, p);
    }
    match p.local.stage
    case Starting => StartKeepsPace(j, before, p);
    case Comparing(listed) => ComparingKeepsPace(j, before, p, listed);
    case Copying(todo, carried) => CopyingKeepsPace(j, before, p, todo, carried);
    case Linting(carried) => LintingKeepsPace(j, before, p, carried);
    case Checking(k, clash) => CheckingKeepsPace(j, before, p, k, clash);
    case SettingAside(k, displaced) => SettingAsideKeepsPace(j, before, p, k, displaced);
    case Installing(k, displaced) => InstallingKeepsPace(j, before, p, k, displaced);
    case Unlinking(_, _, _, _) => TurnsTransact(j, before, p); TurningKeepsPace(j, before, p);
    case Restoring(_, _, _, _, _) => TurnsTransact(j, before, p); TurningKeepsPace(j, before, p);
    case Discarding => DiscardingKeepsPace(j, before, p);
    case Writing(k) => WritingKeepsPace(j, before, p, k);
    case Scanning => ScanningKeepsPace(j, before, p);
    case Pruning(todo, removed) => PruningKeepsPace(j, before, p, todo, removed);
    case Ended(_) =>
  }

  lemma PaceIs(j: Job, before: Tree, p: Point)
    requires Proper(j) && OnPace(j, before, p) && !p.local.stage.Ended?
    ensures Paced(j, p.local)
  {
    hide Paced, Proper;
  }

  lemma TurnsTransact(j: Job, before: Tree, p: Point)
    requires Proper(j) && Sound(j, before, p) && Turned(p.local.stage)
    ensures Transacting(j, before, p.local.linted)
  {
    hide Transacting, Proper;
  }

  /** Whatever the host refuses, the ending of a section tells the first operation it refused, or that
      it refused none, or that what was read raised. */
  lemma {:induction false} SectionsTell(j: Job, d: Tree, n: nat)
    requires Proper(j)
    ensures OnPace(j, d, After(j, d, n))
  {
    hide Proper, Step, Sound;
    if n == 0 {
      assert Smooth(j, 0);
    } else {
      SectionsTell(j, d, n - 1);
      AfterIsSound(j, d, n - 1);
      StepKeepsPace(j, d, After(j, d, n - 1));
    }
  }
}
