/** The three critical sections, one atomic read or change of the directory at a time. */
module Sections {
  import opened Wrappers
  import opened Files
  import opened Ownership
  import opened Publishing
  import opened Reconcile
  import opened Documents
  import opened Gate
  import opened Commands

  datatype Kind = Gated | Ungated | Kueue

  /** One invocation: what it renders, what it asks of reconciliation, what the linter answers, which
      of its operations the host refuses, and the order a directory is listed in. */
  datatype Job = Job(
    kind: Kind, c: Command, written: seq<Name>, prune: bool, world: World, refuses: nat -> bool,
    pick: set<Name> -> Name)

  ghost predicate Proper(j: Job) {
    && WellPlanned(j.c.planned) && NoDup(j.written) && Names(j.written) == j.c.planned.Keys
    && (j.kind.Gated? ==> IsArgoQuery(j.c.q))
    && forall s: set<Name> :: s != {} ==> j.pick(s) in s
  }

  /** Where a section is between lock and unlock. `k` counts the planned names dealt with. */
  datatype Stage =
    | Starting
    | Comparing(listed: set<Name>)
    | Copying(todo: set<Name>, carried: set<Name>)
    | Linting(carried: set<Name>)
    | Checking(k: nat, clash: bool)
    | SettingAside(k: nat, displaced: seq<Name>)
    | Installing(k: nat, displaced: seq<Name>)
    | Unlinking(k: nat, i: nat, displaced: seq<Name>, standing: set<Name>)
    | Restoring(k: nat, i: nat, displaced: seq<Name>, standing: set<Name>, unrestored: set<Name>)
    | Discarding
    | Writing(k: nat)
    | Scanning
    | Pruning(todo: set<Name>, removed: set<Name>)
    | Ended(ending: Ending)

  /** What a section keeps to itself. */
  datatype Local = Local(stage: Stage, tick: nat, staging: Tree, backup: Tree, linted: Tree)

  /** A section and the directory it shares. */
  datatype Point = Point(local: Local, dir: Tree)

  function Entering(j: Job): Local {
    Local(Starting, 0, if j.kind.Kueue? then map[] else j.c.planned, map[], map[])
  }

  function Go(p: Point, stage: Stage): Point {
    Point(p.local.(stage := stage), p.dir)
  }

  function End(p: Point, ending: Ending): Point {
    Go(p, Ended(ending))
  }

  function Ticked(p: Point, n: nat): Point {
    Point(p.local.(tick := p.local.tick + n), p.dir)
  }

  predicate Refused(j: Job, p: Point) {
    j.refuses(p.local.tick)
  }

  /** How a run that met no fault ends. */
  function Finished(j: Job): Ending {
    if j.kind.Gated? && j.written == [] then Report(NotApplicable, false) else Report(Passed, true)
  }

  // ---------------------------------------------------------------- one step

  function ManifestNames(t: Tree): set<Name> {
    set n | n in t && IsManifest(n)
  }

  function AtStarting(j: Job, p: Point): Point {
    if !j.kind.Gated? then Go(p, Checking(0, false))
    else if j.written == [] then
      if j.prune then Go(p, Scanning)
      else End(p, Report(if !j.world.linterFound then LinterUnavailable else NoManifests, false))
    else if !j.world.linterFound then End(p, Report(LinterUnavailable, false))
    else if Refused(j, p) then End(p, Report(SnapshotFailed, false))
    else Go(Ticked(p, 1), Comparing(ManifestNames(p.dir)))
  }

  /** What was listed, less what this run replaces and what it is about to prune. */
  function AtComparing(j: Job, p: Point, listed: set<Name>): Point {
    if j.prune && Refused(j, p) then End(p, Report(SnapshotFailed, false))
    else if PredictionRaises(p.dir, j.c, j.prune) then End(p, Traceback)
    else
      Go(Ticked(p, if j.prune then 1 else 0), Copying(listed - j.c.planned.Keys - Leaving(p.dir, j.c, j.prune), {}))
  }

  function AtCopying(j: Job, p: Point, todo: set<Name>, carried: set<Name>): Point {
    if todo == {} then Go(p, Linting(carried))
    else
      var n := j.pick(todo);
      if Linked(p.dir, n) then End(p, Report(SymlinkedManifest, false))
      else if n !in p.dir || !p.dir[n].Regular? then Go(p, Copying(todo - {n}, carried))
      else if Refused(j, p) then End(p, Report(SnapshotFailed, false))
      else
        var l := p.local.(staging := p.local.staging[n := p.dir[n]]);
        Go(Ticked(Point(l, p.dir), 1), Copying(todo - {n}, carried + {n}))
  }

  /** The order a directory of these names is listed in. */
  function Order(j: Job, names: set<Name>): (r: seq<Name>)
    requires Proper(j)
    ensures Names(r) == names
  {
    if names == {} then []
    else
      var n := j.pick(names);
      var rest := Order(j, names - {n});
      NamesGrow(rest, n);
      rest + [n]
  }

  function AtLinting(j: Job, p: Point, carried: set<Name>): Point
    requires Proper(j)
  {
    var shown := p.local.staging;
    var q := Point(p.local.(linted := shown), p.dir);
    if Refused(j, p) then End(q, Traceback)
    else
      match CheckDocuments(shown, Order(j, shown.Keys), j.c.readings.unread, j.world.frames)
      case Rejected => End(q, Report(LintFailed, false))
      case Undecided => End(q, Report(LinterUnavailable, false))
      case Raised => End(q, Traceback)
      case Clean => AtVerdict(j, q, carried)
  }

  function AtVerdict(j: Job, p: Point, carried: set<Name>): Point {
    match j.world.lint(p.local.staging)
    case NoVerdict => End(p, Report(LinterUnavailable, false))
    case Verdict(failed, skipped) =>
      if j.refuses(p.local.tick + 1) then End(p, Report(CleanupFailed(failed), false))
      else if failed || skipped then End(p, Report(LintFailed, false))
      else Go(Ticked(Point(p.local.(staging := p.local.staging - carried), p.dir), 2), Checking(0, false))
  }

  /** What the preflight finds at the k-th planned path. */
  function AnswerAt(j: Job, t: Tree, k: nat): Preflight
    requires Proper(j) && k < |j.written|
  {
    assert j.written[k] in Names(j.written);
    assert Pending(j.c.planned[j.written[k]]);
    PreflightAt(t, j.written[k], j.c.planned[j.written[k]].owned.value, j.c.readings.checking)
  }

  function AtChecking(j: Job, p: Point, k: nat, clash: bool): Point
    requires Proper(j)
  {
    if k < |j.written| then
      if Refused(j, p) then End(p, if j.kind.Gated? then Report(PublishFailed, false) else Traceback)
      else
        match AnswerAt(j, p.dir, k)
        case PreflightCrash => End(p, Traceback)
        case Conflict => Go(Ticked(p, 1), Checking(k + 1, true))
        case Free => Go(Ticked(p, 1), Checking(k + 1, clash))
    else if clash then End(p, if j.kind.Ungated? then Traceback else Report(NotOwned, false))
    else
      match j.kind
      case Ungated => Go(p, Writing(0))
      case Gated =>
        if !j.world.backupPossible then End(p, Report(StagingUnavailable, false))
        else if Refused(j, p) then End(p, Report(PublishFailed, false))
        else Go(Ticked(p, 1), SettingAside(0, []))
      case Kueue =>
        if !j.world.backupPossible || Refused(j, p) then End(p, Report(StagingUnavailable, false))
        else if j.refuses(p.local.tick + 1) then End(p, Traceback)
        else if j.refuses(p.local.tick + 2) then End(p, Report(PublishFailed, false))
        else Go(Ticked(Point(p.local.(staging := j.c.planned), p.dir), 3), SettingAside(0, []))
  }

  function AtSettingAside(j: Job, p: Point, k: nat, displaced: seq<Name>): Point {
    if k >= |j.written| then Go(p, Discarding)
    else
      var n := j.written[k];
      if Refused(j, p) then Go(Ticked(p, 1), Unlinking(k, 0, displaced, {}))
      else if !Exists(p.dir, n) then Go(Ticked(p, 1), Installing(k, displaced))
      else if j.refuses(p.local.tick + 1) then Go(Ticked(p, 2), Unlinking(k, 0, displaced, {}))
      else
        var l := p.local.(backup := p.local.backup[n := p.dir[n]]);
        Go(Ticked(Point(l, p.dir - {n}), 2), Installing(k, displaced + [n]))
  }

  /** Is the backup gone, and, for `render-kueue`, the staging directory? Asking may raise. */
  function AtDiscarding(j: Job, p: Point): Point {
    if Refused(j, p) then End(p, Report(PublishFailed, false))
    else if j.kind.Kueue? && j.refuses(p.local.tick + 1) then End(p, Traceback)
    else Go(Ticked(p, if j.kind.Kueue? then 2 else 1), Scanning)
  }

  function AtInstalling(j: Job, p: Point, k: nat, displaced: seq<Name>): Point {
    if k < |j.written| && !Refused(j, p) && j.written[k] in p.local.staging then
      var n := j.written[k];
      var l := p.local.(staging := p.local.staging - {n});
      Go(Ticked(Point(l, p.dir[n := p.local.staging[n]]), 1), SettingAside(k + 1, displaced))
    else Go(Ticked(p, 1), Unlinking(k, 0, displaced, {}))
  }

  function AtUnlinking(j: Job, p: Point, k: nat, i: nat, displaced: seq<Name>, standing: set<Name>): Point {
    if i >= k || i >= |j.written| then Go(p, Restoring(k, 0, displaced, standing, {}))
    else
      var n := j.written[i];
      if Refused(j, p) || n !in p.dir then Go(Ticked(p, 1), Unlinking(k, i + 1, displaced, standing + {n}))
      else Go(Ticked(Point(p.local, p.dir - {n}), 1), Unlinking(k, i + 1, displaced, standing))
  }

  function AtRestoring(
    j: Job, p: Point, k: nat, i: nat, displaced: seq<Name>, standing: set<Name>, unrestored: set<Name>): Point
  {
    if i >= |displaced| then
      End(
        p,
        if standing == {} && unrestored == {} then Report(PublishFailed, false)
        else Report(RollbackIncomplete(unrestored, standing), true))
    else
      var n := displaced[i];
      if Refused(j, p) || n !in p.local.backup then
        Go(Ticked(p, 1), Restoring(k, i + 1, displaced, standing, unrestored + {n}))
      else
        var l := p.local.(backup := p.local.backup - {n});
        Go(Ticked(Point(l, p.dir[n := p.local.backup[n]]), 1),
           Restoring(k, i + 1, displaced, standing - {n}, unrestored))
  }

  function AtWriting(j: Job, p: Point, k: nat): Point
    requires Proper(j)
  {
    if k >= |j.written| then Go(p, Scanning)
    else if Refused(j, p) then End(p, Traceback)
    else
      var n := j.written[k];
      assert n in Names(j.written);
      Go(Ticked(Point(p.local, p.dir[n := j.c.planned[n]]), 1), Writing(k + 1))
  }

  function AtScanning(j: Job, p: Point): Point {
    if !ScanIsEmpty(j.c.q) && Refused(j, p) then End(p, Report(StaleScanFailed, true))
    else if ScanRaises(p.dir, j.c) then End(p, Traceback)
    else if j.prune then Go(Ticked(p, if ScanIsEmpty(j.c.q) then 0 else 1), Pruning(Retired(p.dir, j.c), {}))
    else End(p, Finished(j))
  }

  function AtPruning(j: Job, p: Point, todo: set<Name>, removed: set<Name>): Point {
    if todo == {} then End(p, Finished(j))
    else
      var n := j.pick(todo);
      if Refused(j, p) || n !in p.dir then End(p, Report(PruneFailed(removed, todo), true))
      else Go(Ticked(Point(p.local, p.dir - {n}), 1), Pruning(todo - {n}, removed + {n}))
  }

  function Step(j: Job, p: Point): Point
    requires Proper(j)
  {
    match p.local.stage
    case Starting => AtStarting(j, p)
    case Comparing(listed) => AtComparing(j, p, listed)
    case Copying(todo, carried) => AtCopying(j, p, todo, carried)
    case Linting(carried) => AtLinting(j, p, carried)
    case Checking(k, clash) => AtChecking(j, p, k, clash)
    case SettingAside(k, displaced) => AtSettingAside(j, p, k, displaced)
    case Installing(k, displaced) => AtInstalling(j, p, k, displaced)
    case Unlinking(k, i, displaced, standing) => AtUnlinking(j, p, k, i, displaced, standing)
    case Restoring(k, i, displaced, standing, unrestored) => AtRestoring(j, p, k, i, displaced, standing, unrestored)
    case Discarding => AtDiscarding(j, p)
    case Writing(k) => AtWriting(j, p, k)
    case Scanning => AtScanning(j, p)
    case Pruning(todo, removed) => AtPruning(j, p, todo, removed)
    case Ended(_) => p
  }

  /** `n` steps in a row, nobody else touching the directory. */
  function Onward(j: Job, p: Point, n: nat): Point
    requires Proper(j)
  {
    if n == 0 then p else Step(j, Onward(j, p, n - 1))
  }

  /** The first `n` steps of a section that has the directory to itself. */
  function After(j: Job, d: Tree, n: nat): Point
    requires Proper(j)
  {
    Onward(j, Point(Entering(j), d), n)
  }

  // ---------------------------------------------------------------- what holds at every point

  /** The world as a section that has the lock finds it. */
  function Under(j: Job): World {
    j.world.(lock := Locked)
  }

  /** The host refuses none of its operations. */
  ghost predicate Undisturbed(j: Job) {
    forall t :: !j.refuses(t)
  }

  /** So many operations before this one were refused. */
  ghost predicate Once(j: Job, tick: nat) {
    exists t :: 0 <= t < tick && j.refuses(t)
  }

  ghost predicate Twice(j: Job, tick: nat) {
    exists t, u :: 0 <= t < u < tick && j.refuses(t) && j.refuses(u)
  }

  /** A backup directory can be made, if one is needed. */
  predicate HasRoom(j: Job) {
    j.kind.Kueue? ==> j.world.backupPossible
  }

  predicate Gates(j: Job) {
    j.kind.Gated? && j.written != []
  }

  predicate Screened(j: Job, before: Tree) {
    Gates(j) && j.world.linterFound && !PredictionRaises(before, j.c, j.prune)
  }

  /** A gate that renders something has had the predicted directory accepted. */
  ghost predicate Vetted(j: Job, before: Tree, linted: Tree) {
    Gates(j) ==>
      && Screened(j, before) && NoLinksStay(before, j.c, j.prune)
      && linted == Predicted(before, j.c, j.prune) && LinterAccepts(j.world, j.c, linted)
  }

  /** And whoever may publish has found every planned path free or its own. */
  ghost predicate Cleared(j: Job, before: Tree, linted: Tree)
    requires Proper(j)
  {
    && Vetted(j, before, linted) && Permitted(before, j.c) && Writable(before, j.c.planned)
    && (Gates(j) || j.kind.Kueue? ==> j.world.backupPossible)
    && (j.kind.Gated? && j.written == [] ==> j.prune)
  }

  ghost predicate Copied(j: Job, before: Tree, l: Local, leaving: set<Name>, todo: set<Name>, carried: set<Name>) {
    var names := Staying(before, j.c.planned.Keys, leaving);
    && todo <= names && carried <= names - todo
    && l.staging == j.c.planned + Restrict(before, carried)
    && forall n :: n in names - todo ==> !Linked(before, n) && (before[n].Regular? <==> n in carried)
  }

  ghost predicate Answered(j: Job, before: Tree, k: nat, clash: bool)
    requires Proper(j)
  {
    && k <= |j.written|
    && (forall m: nat :: m < k ==> AnswerAt(j, before, m) != PreflightCrash)
    && (clash <==> exists m: nat :: m < k && AnswerAt(j, before, m) == Conflict)
  }

  ghost predicate Moved(j: Job, before: Tree, p: Point, k: nat, displaced: seq<Name>) {
    && k <= |j.written| && NoDup(displaced)
    && p.local.staging == j.c.planned - Names(j.written[..k])
    && InFlight(before, j.c.planned, DiskOf(p), Names(j.written[..k]), Names(displaced))
  }

  ghost predicate TakenBack(
    j: Job, before: Tree, d: Disk, k: nat, displaced: seq<Name>, standing: set<Name>, restored: set<Name>)
  {
    && k <= |j.written| && NoDup(displaced) && Names(displaced) <= j.c.planned.Keys
    && Undoing(before, j.c.planned, d, Names(j.written[..k]), Names(displaced), standing, restored)
  }

  function DiskOf(p: Point): Disk {
    Disk(p.dir, p.local.backup)
  }

  /** Nothing has been written yet, here or elsewhere. */
  predicate Untouched(before: Tree, p: Point) {
    p.dir == before && p.local.backup == map[]
  }

  /** The set is being published as a whole. */
  ghost predicate Transacting(j: Job, before: Tree, linted: Tree)
    requires Proper(j)
  {
    Cleared(j, before, linted) && !j.kind.Ungated? && (j.kind.Gated? ==> Gates(j))
  }

  predicate OnComparing(j: Job, before: Tree, p: Point, listed: set<Name>) {
    && Untouched(before, p) && Gates(j) && j.world.linterFound && p.local.staging == j.c.planned
    && listed == ManifestNames(before)
  }

  ghost predicate OnCopying(j: Job, before: Tree, p: Point, todo: set<Name>, carried: set<Name>) {
    && Untouched(before, p) && Screened(j, before)
    && Copied(j, before, p.local, Leaving(before, j.c, j.prune), todo, carried)
  }

  ghost predicate OnLinting(j: Job, before: Tree, p: Point, carried: set<Name>) {
    && Untouched(before, p) && Screened(j, before) && NoLinksStay(before, j.c, j.prune)
    && p.local.staging == Predicted(before, j.c, j.prune) && p.local.staging - carried == j.c.planned
  }

  ghost predicate OnChecking(j: Job, before: Tree, p: Point, k: nat, clash: bool)
    requires Proper(j)
  {
    && Untouched(before, p) && Vetted(j, before, p.local.linted) && Answered(j, before, k, clash)
    && (j.kind.Gated? ==> Gates(j) && p.local.staging == j.c.planned)
  }

  ghost predicate OnSettingAside(j: Job, before: Tree, p: Point, k: nat, displaced: seq<Name>)
    requires Proper(j)
  {
    && Transacting(j, before, p.local.linted) && Moved(j, before, p, k, displaced)
    && Names(displaced) <= Names(j.written[..k])
  }

  ghost predicate OnInstalling(j: Job, before: Tree, p: Point, k: nat, displaced: seq<Name>)
    requires Proper(j)
  {
    && Transacting(j, before, p.local.linted) && Moved(j, before, p, k, displaced)
    && k < |j.written| && Names(displaced) <= Names(j.written[..k + 1])
    && (j.written[k] in Names(displaced) || !Exists(before, j.written[k]))
  }

  ghost predicate OnUnlinking(j: Job, before: Tree, p: Point, k: nat, i: nat, displaced: seq<Name>, standing: set<Name>)
    requires Proper(j)
  {
    && Transacting(j, before, p.local.linted) && i <= k <= |j.written|
    && Once(j, p.local.tick) && (standing != {} ==> Twice(j, p.local.tick))
    && TakenBack(j, before, DiskOf(p), k, displaced, standing + Names(j.written[i..k]), {})
    && standing <= Names(j.written[..i])
  }

  ghost predicate OnRestoring(
    j: Job, before: Tree, p: Point, k: nat, i: nat, displaced: seq<Name>, standing: set<Name>, unrestored: set<Name>)
    requires Proper(j)
  {
    && Transacting(j, before, p.local.linted) && i <= |displaced|
    && Once(j, p.local.tick) && (standing + unrestored != {} ==> Twice(j, p.local.tick))
    && TakenBack(j, before, DiskOf(p), k, displaced, standing, Names(displaced[..i]) - unrestored)
    && unrestored <= Names(displaced[..i])
  }

  ghost predicate OnDiscarding(j: Job, before: Tree, p: Point)
    requires Proper(j)
  {
    Transacting(j, before, p.local.linted) && p.dir == before + j.c.planned
  }

  ghost predicate OnWriting(j: Job, before: Tree, p: Point, k: nat)
    requires Proper(j)
  {
    && j.kind.Ungated? && Cleared(j, before, p.local.linted) && k <= |j.written|
    && p.dir == before + Restrict(j.c.planned, Names(j.written[..k]))
  }

  ghost predicate OnScanning(j: Job, before: Tree, p: Point)
    requires Proper(j)
  {
    Cleared(j, before, p.local.linted) && p.dir == before + j.c.planned
  }

  ghost predicate OnPruning(j: Job, before: Tree, p: Point, todo: set<Name>, removed: set<Name>)
    requires Proper(j)
  {
    && var mine := Retired(before, j.c);
    && Cleared(j, before, p.local.linted) && j.prune && !ScanRaises(before, j.c)
    && todo + removed == mine && todo !! removed && p.dir == before + j.c.planned - removed
  }

  /** Nothing outside the run is in its way. */
  ghost predicate Clear(j: Job) {
    Undisturbed(j) && HasRoom(j)
  }

  /** What a section leaves when it ends: for the gate the contract of its method, for the other two
      what they promise and how they end where nothing is refused. */
  ghost predicate Contract(j: Job, before: Tree, after: Tree, ending: Ending, linted: Tree)
    requires Proper(j)
  {
    match j.kind
    case Gated => GateContract(before, after, j.c, j.written, j.prune, Under(j), Undisturbed(j), ending, linted)
    case Ungated =>
      && WriterContract(before, after, j.c, j.prune, Clear(j), ending)
      && (Undisturbed(j) && !Permitted(before, j.c) ==> ending.Traceback?)
    case Kueue =>
      && WriterContract(before, after, j.c, j.prune, Clear(j), ending)
      && (Undisturbed(j) ==> QuietCommit(before, after, j.c, j.world, ending))
  }

  /** A rollback that could not finish met a second refusal, and its report accounts for every name in
      the directory and the backup. */
  ghost predicate Accounted(j: Job, before: Tree, p: Point, ending: Ending) {
    ending.Report? && ending.reason.RollbackIncomplete? ==>
      && Twice(j, p.local.tick)
      && Restored(
           before, j.c.planned, DiskOf(p), j.c.planned.Keys, {}, ending.reason.unrestored, ending.reason.unremoved)
  }

  ghost predicate Kept(j: Job, before: Tree, p: Point, ending: Ending)
    requires Proper(j)
  {
    Contract(j, before, p.dir, ending, p.local.linted) && Accounted(j, before, p, ending)
  }

  /** What holds of a section at every point, given the directory it found. */
  ghost predicate Sound(j: Job, before: Tree, p: Point)
    requires Proper(j)
  {
    match p.local.stage
    case Starting => Untouched(before, p) && p.local == Entering(j)
    case Comparing(listed) => OnComparing(j, before, p, listed)
    case Copying(todo, carried) => OnCopying(j, before, p, todo, carried)
    case Linting(carried) => OnLinting(j, before, p, carried)
    case Checking(k, clash) => OnChecking(j, before, p, k, clash)
    case SettingAside(k, displaced) => OnSettingAside(j, before, p, k, displaced)
    case Installing(k, displaced) => OnInstalling(j, before, p, k, displaced)
    case Unlinking(k, i, displaced, standing) => OnUnlinking(j, before, p, k, i, displaced, standing)
    case Restoring(k, i, displaced, standing, unrestored) =>
      OnRestoring(j, before, p, k, i, displaced, standing, unrestored)
    case Discarding => OnDiscarding(j, before, p)
    case Writing(k) => OnWriting(j, before, p, k)
    case Scanning => OnScanning(j, before, p)
    case Pruning(todo, removed) => OnPruning(j, before, p, todo, removed)
    case Ended(ending) => Kept(j, before, p, ending)
  }

  lemma EnteringIsSound(j: Job, d: Tree)
    requires Proper(j)
    ensures Sound(j, d, Point(Entering(j), d))
  {
  }

  /** A section stops without having written, with good reason. */
  ghost predicate Hindered(j: Job, before: Tree, linted: Tree, ending: Ending)
    requires Proper(j)
  {
    && !Succeeded(ending) && !(ending.Report? && ending.reason.RollbackIncomplete?)
    && Truthful(before, j.c, j.prune, Clear(j), before, ending)
    && match j.kind
       case Gated =>
         && Explains(before, j.c, j.written, j.prune, Under(j), Undisturbed(j), ending, linted)
         && (ending.Traceback? ==>
               MayEscape(before, j.c, j.written, j.prune, Under(j), Undisturbed(j), linted))
         && (Undisturbed(j) ==> QuietEnding(before, before, j.c, j.written, j.prune, Under(j), ending))
       case Ungated => ending.Traceback? && (Clear(j) ==> !Permitted(before, j.c))
       case Kueue =>
         && (ending.Report? ==> ending.reason in {PublishFailed, NotOwned, StagingUnavailable})
         && (ending.Report? && ending.reason.StagingUnavailable? ==> !Clear(j))
         && (Clear(j) ==> !Permitted(before, j.c))
         && (Undisturbed(j) ==> QuietCommit(before, before, j.c, j.world, ending))
  }

  /** And that keeps what it has to keep. */
  lemma StopsUntouched(j: Job, before: Tree, p: Point, ending: Ending)
    requires Proper(j) && p.dir == before && Hindered(j, before, p.local.linted, ending)
    ensures Sound(j, before, End(p, ending))
  {
    hide WellPlanned, GateContract, Truthful, Explains, MayEscape, QuietEnding, QuietCommit, Permitted, ScanRaises;
    NothingChanges(before, j.c);
    if j.kind.Gated? {
      StoppingKeepsTheContract(before, j.c, j.written, j.prune, Under(j), Undisturbed(j), ending, p.local.linted);
    }
  }

  /** A refused operation is reason enough to stop. */
  lemma RefusalHinders(j: Job, before: Tree, linted: Tree, t: nat, ending: Ending)
    requires Proper(j) && j.refuses(t)
    requires ending.Traceback? && j.kind.Gated? ==>
      MayEscape(before, j.c, j.written, j.prune, Under(j), false, linted)
    requires ending.Report? ==>
      && !j.kind.Ungated? && Truthful(before, j.c, j.prune, false, before, ending)
      && ending.reason in {PublishFailed, StagingUnavailable, SnapshotFailed, CleanupFailed(true), CleanupFailed(false)}
      && (j.kind.Gated? ==> Explains(before, j.c, j.written, j.prune, Under(j), false, ending, linted))
      && (j.kind.Kueue? ==> ending.reason in {PublishFailed, StagingUnavailable})
    ensures Hindered(j, before, linted, ending)
  {
    hide MayEscape, Permitted, QuietEnding, QuietCommit, LinterAccepts, Predicted, NoLinksStay, Retired, Left;
    assert !Undisturbed(j);
  }

  lemma StartKeepsSound(j: Job, before: Tree, p: Point)
    requires Proper(j) && Untouched(before, p) && p.local == Entering(j)
    ensures Sound(j, before, AtStarting(j, p))
  {
    hide OnCopying, OnLinting, Writable, Permitted, Kept, IsArgoQuery, LinterAccepts, NoLinksStay, PredictionRaises,
      DocumentsRaise, DocumentsDefer, StampsRaise, Left, Retired, LintSays, QuietCommit, ScanRaises, LeftAsReported;
    var q := AtStarting(j, p);
    if q.local.stage.Ended? {
      if Refused(j, p) {
        assert !Undisturbed(j);
      }
      StopsUntouched(j, before, p, q.local.stage.ending);
    } else if q.local.stage.Checking? {
      NothingAsked(j, before, p.local.linted);
    } else if q.local.stage.Scanning? {
      NothingPlanned(j, before, p);
    }
  }

  lemma NothingPlanned(j: Job, before: Tree, p: Point)
    requires Proper(j) && j.kind.Gated? && j.written == [] && j.prune && p.dir == before
    ensures OnScanning(j, before, p)
  {
    assert j.c.planned.Keys == {};
    assert before + j.c.planned == before;
  }

  lemma NothingAsked(j: Job, before: Tree, linted: Tree)
    requires Proper(j) && !j.kind.Gated?
    ensures Vetted(j, before, linted) && Answered(j, before, 0, false)
  {
  }

  lemma ComparingKeepsSound(j: Job, before: Tree, p: Point, listed: set<Name>)
    requires Proper(j) && OnComparing(j, before, p, listed)
    ensures Sound(j, before, AtComparing(j, p, listed))
  {
    hide Leaving, Staying, PredictionRaises, Kept, StampsRaise, IsArgoQuery, LinterAccepts, NoLinksStay, Writable,
      Permitted, Copied, ManifestNames, DocumentsRaise, DocumentsDefer, Left, Retired, LintSays, QuietCommit,
      ScanRaises, LeftAsReported;
    var q := AtComparing(j, p, listed);
    if q.local.stage.Ended? {
      if PredictionRaises(before, j.c, j.prune) {
        PredictionRaisesOnStamps(before, j.c, j.prune);
      }
      if j.prune && Refused(j, p) {
        assert !Undisturbed(j);
      }
      StopsUntouched(j, before, p, q.local.stage.ending);
    } else {
      NothingCopied(j, before, q.local, Leaving(before, j.c, j.prune));
    }
  }

  lemma NothingCopied(j: Job, before: Tree, l: Local, leaving: set<Name>)
    requires l.staging == j.c.planned
    ensures Copied(j, before, l, leaving, ManifestNames(before) - j.c.planned.Keys - leaving, {})
  {
    assert ManifestNames(before) - j.c.planned.Keys - leaving == Staying(before, j.c.planned.Keys, leaving);
    assert Restrict(before, {}) == map[];
    assert j.c.planned + map[] == j.c.planned;
  }

  lemma CopyingKeepsSound(j: Job, before: Tree, p: Point, todo: set<Name>, carried: set<Name>)
    requires Proper(j) && OnCopying(j, before, p, todo, carried)
    ensures Sound(j, before, AtCopying(j, p, todo, carried))
  {
    hide Leaving, PredictionRaises, Kept, StampsRaise, IsArgoQuery, OnLinting, LinterAccepts, Writable, Permitted,
      DocumentsRaise, DocumentsDefer, Left, Retired, LintSays, QuietCommit, ScanRaises, LeftAsReported;
    var leaving := Leaving(before, j.c, j.prune);
    if todo == {} {
      CopiedIsPredicted(j, before, p, leaving, carried);
      assert OnLinting(j, before, Go(p, Linting(carried)), carried);
    } else {
      var n := j.pick(todo);
      if Linked(before, n) {
        assert n in Staying(before, j.c.planned.Keys, leaving);
        StopsUntouched(j, before, p, Report(SymlinkedManifest, false));
      } else {
        CopyingOneMore(j, before, p, leaving, todo, carried, n);
        if Refused(j, p) {
          assert !Undisturbed(j);
          StopsUntouched(j, before, p, Report(SnapshotFailed, false));
        }
      }
    }
  }

  lemma CopiedIsPredicted(j: Job, before: Tree, p: Point, leaving: set<Name>, carried: set<Name>)
    requires Proper(j) && Untouched(before, p) && Screened(j, before) && leaving == Leaving(before, j.c, j.prune)
    requires Copied(j, before, p.local, leaving, {}, carried)
    ensures OnLinting(j, before, Go(p, Linting(carried)), carried)
  {
    hide Leaving, Screened;
    var names := Staying(before, j.c.planned.Keys, leaving);
    assert Restrict(before, carried) == Manifests(Restrict(before, names));
    StayingIsPredicted(before, j.c, leaving);
    assert p.local.staging - carried == j.c.planned;
  }

  lemma CopyingOneMore(
    j: Job, before: Tree, p: Point, leaving: set<Name>, todo: set<Name>, carried: set<Name>, n: Name)
    requires Copied(j, before, p.local, leaving, todo, carried) && n in todo && !Linked(before, n)
    ensures n in before
    ensures if before[n].Regular?
            then Copied(
              j, before, p.local.(staging := p.local.staging[n := before[n]]), leaving, todo - {n}, carried + {n})
            else Copied(j, before, p.local, leaving, todo - {n}, carried)
  {
    assert Restrict(before, carried + {n}) == Restrict(before, carried)[n := before[n]];
  }

  lemma LintingKeepsSound(j: Job, before: Tree, p: Point, carried: set<Name>)
    requires Proper(j) && OnLinting(j, before, p, carried)
    ensures Sound(j, before, AtLinting(j, p, carried))
  {
    hide Kept, StampsRaise, IsArgoQuery, Predicted, NoLinksStay, PredictionRaises, OnLinting, CheckDocuments,
      Answered, DocumentsPass, DocumentsFail, DocumentsRaise, DocumentsDefer, Writable, Permitted, AtVerdict,
      Hindered, Order;
    LintedIsPredicted(j, before, p, carried);
    var shown := p.local.staging;
    var q := Point(p.local.(linted := shown), p.dir);
    CheckSays(Under(j), j.c, shown, Order(j, shown.Keys));
    OneAnswerOnly(Under(j), j.c, shown);
    assert OnLinting(j, before, q, carried) by {
      StillLinting(j, before, p, carried);
    }
    var r := CheckDocuments(shown, Order(j, shown.Keys), j.c.readings.unread, j.world.frames);
    if Refused(j, p) {
      assert j.kind.Gated? ==> MayEscape(before, j.c, j.written, j.prune, Under(j), false, shown);
      RefusalHinders(j, before, shown, p.local.tick, Traceback);
      StopsUntouched(j, before, q, Traceback);
    } else if r == Clean {
      VerdictKeepsSound(j, before, q, carried);
    } else {
      var ending := AtLinting(j, p, carried).local.stage.ending;
      CheckHinders(j, before, shown, ending);
      StopsUntouched(j, before, q, ending);
    }
  }

  lemma StillLinting(j: Job, before: Tree, p: Point, carried: set<Name>)
    requires OnLinting(j, before, p, carried)
    ensures OnLinting(j, before, Point(p.local.(linted := p.local.staging), p.dir), carried)
  {
  }

  /** So is a check or a linter that does not accept. */
  lemma CheckHinders(j: Job, before: Tree, linted: Tree, ending: Ending)
    requires Proper(j) && Gates(j) && Screened(j, before) && NoLinksStay(before, j.c, j.prune)
    requires linted == Predicted(before, j.c, j.prune)
    requires LintSays(Under(j), j.c, linted, Undisturbed(j), ending)
    requires Undisturbed(j) ==>
      !LinterAccepts(Under(j), j.c, linted) && LintAnswer(Under(j), j.c, linted, false, ending)
    ensures Hindered(j, before, linted, ending)
  {
    hide DocumentsPass, DocumentsFail, DocumentsRaise, DocumentsDefer, Predicted, NoLinksStay, PredictionRaises,
      StampsRaise, Permitted, LinterAccepts, LintAnswer, Left, Retired, LeftAsReported;
  }

  /** What the linter's answer leads to. */
  lemma VerdictKeepsSound(j: Job, before: Tree, p: Point, carried: set<Name>)
    requires Proper(j) && OnLinting(j, before, p, carried) && p.local.linted == p.local.staging
    requires DocumentsPass(Under(j), j.c, p.local.staging) && !Refused(j, p)
    ensures Sound(j, before, AtVerdict(j, p, carried))
  {
    hide Kept, StampsRaise, IsArgoQuery, Predicted, NoLinksStay, PredictionRaises, OnLinting, Answered, Hindered,
      DocumentsPass, DocumentsFail, DocumentsRaise, DocumentsDefer, Writable, Permitted;
    LintedIsPredicted(j, before, p, carried);
    OneAnswerOnly(Under(j), j.c, p.local.staging);
    SameWorldBelow(j, p.local.staging);
    var q := AtVerdict(j, p, carried);
    if q.local.stage.Ended? {
      if j.refuses(p.local.tick + 1) {
        assert !Undisturbed(j);
      }
      CheckHinders(j, before, p.local.linted, q.local.stage.ending);
      StopsUntouched(j, before, p, q.local.stage.ending);
    } else {
      NothingAnswered(j, before);
    }
  }

  lemma SameWorldBelow(j: Job, t: Tree)
    ensures DocumentsPass(j.world, j.c, t) <==> DocumentsPass(Under(j), j.c, t)
  {
    hide AnswerOf;
  }

  lemma NothingAnswered(j: Job, before: Tree)
    requires Proper(j)
    ensures Answered(j, before, 0, false)
  {
  }

  lemma LintedIsPredicted(j: Job, before: Tree, p: Point, carried: set<Name>)
    requires OnLinting(j, before, p, carried)
    ensures Untouched(before, p) && Screened(j, before) && NoLinksStay(before, j.c, j.prune)
    ensures p.local.staging == Predicted(before, j.c, j.prune) && p.local.staging - carried == j.c.planned
  {
  }

  lemma CheckingKeepsSound(j: Job, before: Tree, p: Point, k: nat, clash: bool)
    requires Proper(j) && OnChecking(j, before, p, k, clash)
    ensures Sound(j, before, AtChecking(j, p, k, clash))
  {
    hide Kept, IsArgoQuery, Screened, NoLinksStay, Predicted, LinterAccepts, AnswerAt, Answered, Writable, Permitted,
      Hindered;
    var q := AtChecking(j, p, k, clash);
    if k < |j.written| {
      if Refused(j, p) {
        CheckingStops(j, before, p.local.linted, p.local.tick, q.local.stage.ending);
        StopsUntouched(j, before, p, q.local.stage.ending);
      } else {
        OneMoreAnswer(j, before, k, clash);
        if q.local.stage.Ended? {
          ConflictHinders(j, before, p.local.linted, Traceback);
          StopsUntouched(j, before, p, Traceback);
        }
      }
    } else {
      AnswersDecide(j, before, k, clash);
      if q.local.stage.Ended? {
        CheckedHinders(j, before, p, k, clash);
        StopsUntouched(j, before, p, q.local.stage.ending);
      } else {
        PermittedIsWritable(before, j.c);
        if q.local.stage.Writing? {
          StartsWriting(j, before, q);
        } else {
          StartsMoving(j, before, q);
        }
      }
    }
  }

  /** A refusal after the verdict. */
  lemma CheckingStops(j: Job, before: Tree, linted: Tree, t: nat, ending: Ending)
    requires Proper(j) && j.refuses(t) && Vetted(j, before, linted) && (j.kind.Gated? ==> Gates(j))
    requires ending.Traceback? || (!j.kind.Ungated? && ending == Report(PublishFailed, false))
             || (j.kind.Kueue? && ending == Report(StagingUnavailable, false))
    ensures Hindered(j, before, linted, ending)
  {
    hide Predicted, NoLinksStay, PredictionRaises, Permitted, DocumentsPass, Left, Retired, LeftAsReported, Hindered;
    SameWorldBelow(j, linted);
    RefusalHinders(j, before, linted, t, ending);
  }

  /** And so is a set that is not all free or its own, or the lack of room for a backup. */
  lemma ConflictHinders(j: Job, before: Tree, linted: Tree, ending: Ending)
    requires Proper(j) && Vetted(j, before, linted) && (j.kind.Gated? ==> Gates(j))
    requires
      if !Permitted(before, j.c) then
        ending == if j.kind.Ungated? || PreflightRaises(before, j.c) then Traceback else Report(NotOwned, false)
      else !j.world.backupPossible && !j.kind.Ungated? && ending == Report(StagingUnavailable, false)
    ensures Hindered(j, before, linted, ending)
  {
    hide Predicted, NoLinksStay, PredictionRaises, Permitted, PreflightRaises, StampsRaise, DocumentsPass, Left,
      Retired, LeftAsReported, ScanRaises;
    SameWorldBelow(j, linted);
    if PreflightRaises(before, j.c) {
      PreflightRaisesOnStamps(before, j.c);
    }
  }

  lemma CheckedHinders(j: Job, before: Tree, p: Point, k: nat, clash: bool)
    requires Proper(j) && OnChecking(j, before, p, k, clash) && k >= |j.written|
    requires (clash <==> !Permitted(before, j.c)) && !PreflightRaises(before, j.c)
    requires AtChecking(j, p, k, clash).local.stage.Ended?
    ensures Hindered(j, before, p.local.linted, AtChecking(j, p, k, clash).local.stage.ending)
  {
    hide Hindered, Permitted, PreflightRaises, Vetted, Answered;
    var ending := AtChecking(j, p, k, clash).local.stage.ending;
    if clash || !j.world.backupPossible {
      ConflictHinders(j, before, p.local.linted, ending);
    } else if Refused(j, p) {
      CheckingStops(j, before, p.local.linted, p.local.tick, ending);
    } else if j.refuses(p.local.tick + 1) {
      CheckingStops(j, before, p.local.linted, p.local.tick + 1, ending);
    } else {
      CheckingStops(j, before, p.local.linted, p.local.tick + 2, ending);
    }
  }

  lemma OneMoreAnswer(j: Job, before: Tree, k: nat, clash: bool)
    requires Proper(j) && k < |j.written| && Answered(j, before, k, clash)
    ensures AnswerAt(j, before, k) == PreflightCrash ==> PreflightRaises(before, j.c) && !Permitted(before, j.c)
    ensures AnswerAt(j, before, k) == Conflict ==> Answered(j, before, k + 1, true)
    ensures AnswerAt(j, before, k) == Free ==> Answered(j, before, k + 1, clash)
  {
    hide IsRenderedArtifact, Classify;
    PlannedAt(j, k);
  }

  lemma AnswersDecide(j: Job, before: Tree, k: nat, clash: bool)
    requires Proper(j) && k >= |j.written| && Answered(j, before, k, clash)
    ensures clash <==> !Permitted(before, j.c)
    ensures !PreflightRaises(before, j.c)
  {
    forall n | n in j.c.planned
      ensures exists m: nat :: m < k && j.written[m] == n
    {
      assert n in Names(j.written);
    }
    forall m: nat | m < k
      ensures j.written[m] in j.c.planned
      ensures AnswerAt(j, before, m)
           == PreflightAt(before, j.written[m], j.c.planned[j.written[m]].owned.value, j.c.readings.checking)
    {
      PlannedAt(j, m);
    }
    hide PreflightAt;
    if clash {
      var m: nat :| m < k && AnswerAt(j, before, m) == Conflict;
      assert j.written[m] in j.c.planned;
    } else {
      forall m: nat | m < k
        ensures AnswerAt(j, before, m) == Free
      {
      }
    }
  }

  lemma StartsWriting(j: Job, before: Tree, p: Point)
    requires Proper(j) && Cleared(j, before, p.local.linted) && j.kind.Ungated? && p.dir == before
    ensures OnWriting(j, before, p, 0)
  {
    assert Restrict(j.c.planned, Names(j.written[..0])) == map[];
  }

  lemma StartsMoving(j: Job, before: Tree, p: Point)
    requires Proper(j) && Transacting(j, before, p.local.linted)
    requires Untouched(before, p) && p.local.staging == j.c.planned
    ensures OnSettingAside(j, before, p, 0, [])
  {
    hide Cleared;
    assert Names(j.written[..0]) == {} && Names([]) == {};
    assert j.c.planned - {} == j.c.planned;
    forall n
      ensures InFlightAt(before, j.c.planned, DiskOf(p), {}, {}, n)
    {
    }
  }

  lemma NextName(j: Job, k: nat)
    requires Proper(j) && k < |j.written|
    ensures j.written[k] in j.c.planned && j.written[k] !in Names(j.written[..k])
    ensures Names(j.written[..k + 1]) == Names(j.written[..k]) + {j.written[k]}
    ensures Names(j.written[..k]) <= j.c.planned.Keys
  {
    NamesShrink(j.written, k);
    assert j.written[k] in Names(j.written);
  }

  lemma SettingAsideKeepsSound(j: Job, before: Tree, p: Point, k: nat, displaced: seq<Name>)
    requires Proper(j) && OnSettingAside(j, before, p, k, displaced)
    ensures Sound(j, before, AtSettingAside(j, p, k, displaced))
  {
    hide Vetted, Permitted, Writable, Kept, IsArgoQuery, InFlight, Undoing;
    if k >= |j.written| {
      AllInstalled(j, before, p, displaced);
    } else {
      NextName(j, k);
      var n := j.written[k];
      VisibleStands(j, before, p, k, displaced);
      if Refused(j, p) {
        GivesUp(j, before, p, k, displaced, 1);
      } else if Exists(p.dir, n) && j.refuses(p.local.tick + 1) {
        GivesUp(j, before, p, k, displaced, 2);
      } else if Exists(p.dir, n) {
        MovingAsideStaysInFlight(
          before, j.c.planned, DiskOf(p), Names(j.written[..k]), Names(displaced), n);
        NamesGrow(displaced, n);
      }
    }
  }

  /** What `exists` sees at a name not yet dealt with is what was there, and nothing else is. */
  lemma VisibleStands(j: Job, before: Tree, p: Point, k: nat, displaced: seq<Name>)
    requires Proper(j) && Moved(j, before, p, k, displaced)
    requires k < |j.written| && Names(displaced) <= Names(j.written[..k])
    ensures Exists(p.dir, j.written[k]) <==> Exists(before, j.written[k])
  {
    NextName(j, k);
    assert InFlightAt(
      before, j.c.planned, DiskOf(p), Names(j.written[..k]), Names(displaced), j.written[k]);
  }

  lemma AllInstalled(j: Job, before: Tree, p: Point, displaced: seq<Name>)
    requires Proper(j) && Moved(j, before, p, |j.written|, displaced) && Names(displaced) <= Names(j.written)
    ensures p.dir == before + j.c.planned
  {
    assert j.written[..|j.written|] == j.written;
    InFlightCommits(before, j.c.planned, DiskOf(p), Names(j.written), Names(displaced));
    assert Restrict(j.c.planned, j.c.planned.Keys) == j.c.planned;
  }

  /** The first refusal turns the run around. */
  lemma GivesUp(j: Job, before: Tree, p: Point, k: nat, displaced: seq<Name>, ticks: nat)
    requires Proper(j) && Transacting(j, before, p.local.linted) && Moved(j, before, p, k, displaced)
    requires k < |j.written| && Names(displaced) <= Names(j.written[..k + 1])
    requires 0 < ticks && j.refuses(p.local.tick + ticks - 1)
    ensures Sound(j, before, Go(Ticked(p, ticks), Unlinking(k, 0, displaced, {})))
  {
    hide Vetted, Permitted, Writable, Kept, IsArgoQuery, InFlight, Undoing;
    NextName(j, k);
    FailureStartsUndoing(before, j.c.planned, DiskOf(p), Names(j.written[..k]), Names(displaced));
    assert j.written[0..k] == j.written[..k];
    assert {} + Names(j.written[0..k]) == Names(j.written[..k]);
  }

  /** An error raised once the set has landed is taken for a failed publication. */
  lemma DiscardingKeepsSound(j: Job, before: Tree, p: Point)
    requires Proper(j) && OnDiscarding(j, before, p)
    ensures Sound(j, before, AtDiscarding(j, p))
  {
    hide Vetted, Permitted, Writable, Kept, IsArgoQuery, WithinRights, ScanRaises;
    WritesAreWithinRights(before, j.c, p.dir);
    var q := AtDiscarding(j, p);
    if q.local.stage.Ended? {
      StopsWithinRights(j, before, p, q.local.stage.ending);
    }
  }

  lemma InstallingKeepsSound(j: Job, before: Tree, p: Point, k: nat, displaced: seq<Name>)
    requires Proper(j) && OnInstalling(j, before, p, k, displaced)
    ensures Sound(j, before, AtInstalling(j, p, k, displaced))
  {
    hide Vetted, Permitted, Writable, Kept, IsArgoQuery, InFlight, Undoing;
    NextName(j, k);
    if Refused(j, p) {
      GivesUp(j, before, p, k, displaced, 1);
    } else {
      InstallingStaysInFlight(
        before, j.c.planned, DiskOf(p), Names(j.written[..k]), Names(displaced), j.written[k]);
    }
  }

  lemma UnlinkingKeepsSound(j: Job, before: Tree, p: Point, k: nat, i: nat, displaced: seq<Name>, standing: set<Name>)
    requires Proper(j) && OnUnlinking(j, before, p, k, i, displaced, standing)
    ensures Sound(j, before, AtUnlinking(j, p, k, i, displaced, standing))
  {
    hide Vetted, Permitted, Writable, Kept, IsArgoQuery, TakenBack, Names;
    if i == k {
      AllUnlinked(j, k, displaced, standing);
    } else {
      UnlinksOneMore(j, before, p, k, i, displaced, standing);
    }
  }

  lemma AllUnlinked(j: Job, k: nat, displaced: seq<Name>, standing: set<Name>)
    requires k <= |j.written|
    ensures standing + Names(j.written[k..k]) == standing && Names(displaced[..0]) - {} == {}
  {
  }

  lemma UnlinksOneMore(j: Job, before: Tree, p: Point, k: nat, i: nat, displaced: seq<Name>, standing: set<Name>)
    requires Proper(j) && OnUnlinking(j, before, p, k, i, displaced, standing) && i < k
    ensures var n := j.written[i];
            && n in p.dir
            && TakenBack(j, before, DiskOf(p), k, displaced, (standing + {n}) + Names(j.written[i + 1..k]), {})
            && TakenBack(
                 j, before, Disk(p.dir - {n}, p.local.backup), k, displaced, standing + Names(j.written[i + 1..k]), {})
            && standing + {n} <= Names(j.written[..i + 1])
  {
    hide Vetted, Permitted, Writable, WellPlanned, Undoing;
    var n := j.written[i];
    NextName(j, i);
    LeftToUnlink(j, i, k);
    StandingIsThere(j, before, DiskOf(p), k, displaced, standing + Names(j.written[i..k]), n);
    var all := standing + Names(j.written[i..k]);
    UnlinkingKeepsUndoing(
      before, j.c.planned, DiskOf(p), Names(j.written[..k]), Names(displaced), all, {}, n);
    assert (standing + {n}) + Names(j.written[i + 1..k]) == all;
    assert standing + Names(j.written[i + 1..k]) == all - {n};
  }

  lemma StandingIsThere(
    j: Job, before: Tree, d: Disk, k: nat, displaced: seq<Name>, standing: set<Name>, n: Name)
    requires TakenBack(j, before, d, k, displaced, standing, {}) && n in standing
    ensures n in d.output
  {
    assert UndoingAt(before, j.c.planned, d, Names(j.written[..k]), Names(displaced), standing, {}, n);
  }

  lemma LeftToUnlink(j: Job, i: nat, k: nat)
    requires Proper(j) && i < k <= |j.written|
    ensures Names(j.written[i..k]) == {j.written[i]} + Names(j.written[i + 1..k])
    ensures j.written[i] !in Names(j.written[i + 1..k])
  {
    assert j.written[i..k] == [j.written[i]] + j.written[i + 1..k];
  }

  lemma RestoringKeepsSound(
    j: Job, before: Tree, p: Point, k: nat, i: nat, displaced: seq<Name>, standing: set<Name>, unrestored: set<Name>)
    requires Proper(j) && OnRestoring(j, before, p, k, i, displaced, standing, unrestored)
    ensures Sound(j, before, AtRestoring(j, p, k, i, displaced, standing, unrestored))
  {
    hide Vetted, Permitted, Writable, Kept, IsArgoQuery, TakenBack, Names;
    if i == |displaced| {
      RolledBackKeepsSound(j, before, p, k, displaced, standing, unrestored);
    } else {
      RestoresOneMore(j, before, p, k, i, displaced, standing, unrestored);
    }
  }

  lemma RestoresOneMore(
    j: Job, before: Tree, p: Point, k: nat, i: nat, displaced: seq<Name>, standing: set<Name>, unrestored: set<Name>)
    requires Proper(j) && OnRestoring(j, before, p, k, i, displaced, standing, unrestored) && i < |displaced|
    ensures var n := displaced[i];
            && n in p.local.backup
            && TakenBack(
                 j, before, Disk(p.dir[n := p.local.backup[n]], p.local.backup - {n}), k, displaced, standing - {n},
                 Names(displaced[..i + 1]) - unrestored)
            && TakenBack(j, before, DiskOf(p), k, displaced, standing, Names(displaced[..i + 1]) - (unrestored + {n}))
            && unrestored + {n} <= Names(displaced[..i + 1])
  {
    hide Vetted, Permitted, Writable, WellPlanned, Undoing;
    NamesShrink(displaced, i);
    var n := displaced[i];
    var restored := Names(displaced[..i]) - unrestored;
    assert n in Names(displaced);
    RestoringKeepsUndoing(
      before, j.c.planned, DiskOf(p), Names(j.written[..k]), Names(displaced), standing, restored, n);
    assert Names(displaced[..i + 1]) - unrestored == restored + {n};
    assert Names(displaced[..i + 1]) - (unrestored + {n}) == restored;
  }

  /** An empty account means the directory that was found; any other is within rights. */
  lemma RolledBackKeepsSound(
    j: Job, before: Tree, p: Point, k: nat, displaced: seq<Name>, standing: set<Name>, unrestored: set<Name>)
    requires Proper(j) && OnRestoring(j, before, p, k, |displaced|, displaced, standing, unrestored)
    ensures Sound(j, before, AtRestoring(j, p, k, |displaced|, displaced, standing, unrestored))
  {
    hide Vetted, Permitted, Writable, Kept, IsArgoQuery, Undoing, Restored, LeftAsReported, Hindered;
    AllIsAccounted(j, before, p, k, displaced, standing, unrestored);
    if standing == {} && unrestored == {} {
      var t :| 0 <= t < p.local.tick && j.refuses(t);
      CheckingStops(j, before, p.local.linted, t, Report(PublishFailed, false));
      StopsUntouched(j, before, p, Report(PublishFailed, false));
    } else {
      PartialRollbackStaysInPlan(before, DiskOf(p), j.c.planned, {}, unrestored, standing);
      RollbackLeavesAsReported(before, j.c.planned, DiskOf(p), {}, unrestored, standing);
      WritesAreWithinRights(before, j.c, p.dir);
      StopsWithinRights(j, before, p, Report(RollbackIncomplete(unrestored, standing), true));
    }
  }

  lemma AllIsAccounted(
    j: Job, before: Tree, p: Point, k: nat, displaced: seq<Name>, standing: set<Name>, unrestored: set<Name>)
    requires Proper(j) && OnRestoring(j, before, p, k, |displaced|, displaced, standing, unrestored)
    ensures Restored(before, j.c.planned, DiskOf(p), j.c.planned.Keys, {}, unrestored, standing)
    ensures forall n :: n in j.c.planned ==> !Dangling(before, n)
    ensures standing == {} && unrestored == {} ==> p.dir == before
  {
    hide Vetted, Permitted, Writable, IsArgoQuery, Undoing, Restored;
    var d, near := DiskOf(p), Names(j.written[..k]);
    var restored := Names(displaced[..|displaced|]) - unrestored;
    assert displaced[..|displaced|] == displaced;
    assert Names(displaced) - restored == unrestored;
    SomeAreAmongAll(j.written, k);
    UndoneIsRestored(before, j.c.planned, d, near, Names(displaced), standing, restored, j.c.planned.Keys);
    WritableHasNoDanglingLinks(before, j.c.planned);
    NoLinkWasOverwritten(before, j.c.planned, d, near, unrestored, standing);
    if standing == {} && unrestored == {} {
      FullRollbackRestoresOutput(before, j.c.planned, d, j.c.planned.Keys, {});
    }
  }

  lemma NoLinkWasOverwritten(
    before: Tree, planned: Tree, d: Disk, installed: set<Name>, unrestored: set<Name>, unremoved: set<Name>)
    requires Restored(before, planned, d, planned.Keys, installed, unrestored, unremoved)
    requires forall n :: n in planned ==> !Dangling(before, n)
    ensures Restored(before, planned, d, planned.Keys, {}, unrestored, unremoved)
  {
    forall n
      ensures RestoredAt(before, planned, d, planned.Keys, {}, unrestored, unremoved, n)
    {
      assert RestoredAt(before, planned, d, planned.Keys, installed, unrestored, unremoved, n);
    }
  }

  /** A section may also stop where it has written, if it says so, or raised once the set had landed,
      or ends in a traceback it may. */
  lemma StopsWithinRights(j: Job, before: Tree, p: Point, ending: Ending)
    requires Proper(j) && Cleared(j, before, p.local.linted) && WithinRights(before, j.c, p.dir) && !Succeeded(ending)
    requires Truthful(before, j.c, j.prune, Undisturbed(j), p.dir, ending) && Accounted(j, before, p, ending)
    requires ending.Report? ==> !Undisturbed(j) && Publishes(ending.reason)
    requires ending.Report? && !ending.outputModified ==> Denied(before, j.c, p.dir, ending)
    requires j.kind.Gated? && ending.Report? && (ending.reason.PublishFailed? || ending.reason.RollbackIncomplete?) ==>
      Gates(j)
    requires ending.Traceback? && (j.kind.Gated? || Undisturbed(j)) ==>
      ScanRaises(before, j.c) && p.dir == before + j.c.planned
    ensures Sound(j, before, End(p, ending))
  {
    hide Permitted, Writable, WithinRights, StampsRaise, LinterAccepts, Predicted, Left, NoLinksStay,
      PredictionRaises, DocumentsRaise, DocumentsDefer, ScanRaises, LeftAsReported, Retired, LintSays, Truthful,
      PreflightRaises, Restored;
    CalmIsUndisturbed(before, j, p.dir, ending);
    if ScanRaises(before, j.c) {
      ScanRaisesOnStamps(before, j.c);
    }
    if j.kind.Gated? {
      ClearedOpens(j, before, p.local.linted);
    }
  }

  /** A report that is true where the host refused something is true of the run. */
  lemma CalmIsUndisturbed(before: Tree, j: Job, after: Tree, ending: Ending)
    requires Proper(j) && Truthful(before, j.c, j.prune, Undisturbed(j), after, ending)
    ensures Truthful(before, j.c, j.prune, Clear(j), after, ending)
  {
    hide Permitted, LeftAsReported, Left, Retired;
  }

  lemma ClearedOpens(j: Job, before: Tree, linted: Tree)
    requires Proper(j) && Cleared(j, before, linted) && j.kind.Gated?
    ensures Opens(before, j.c, j.written, j.prune, Under(j))
    ensures Gates(j) ==> linted == Predicted(before, j.c, j.prune) && LinterAccepts(Under(j), j.c, linted)
  {
    hide Permitted, Writable, NoLinksStay, PredictionRaises, Predicted, DocumentsPass;
    SameWorldBelow(j, linted);
  }

  // ---------------------------------------------------------------- after publication

  lemma WritingKeepsSound(j: Job, before: Tree, p: Point, k: nat)
    requires Proper(j) && OnWriting(j, before, p, k)
    ensures Sound(j, before, AtWriting(j, p, k))
  {
    hide Vetted, Permitted, Writable, Kept, IsArgoQuery, WithinRights;
    if k == |j.written| {
      assert j.written[..k] == j.written;
      assert Restrict(j.c.planned, j.c.planned.Keys) == j.c.planned;
    } else if Refused(j, p) {
      WritesAreWithinRights(before, j.c, p.dir);
      StopsWithinRights(j, before, p, Traceback);
    } else {
      WritesOneMore(j, before, p, k);
    }
  }

  lemma WritesOneMore(j: Job, before: Tree, p: Point, k: nat)
    requires Proper(j) && OnWriting(j, before, p, k) && k < |j.written| && !Refused(j, p)
    ensures OnWriting(j, before, AtWriting(j, p, k), k + 1)
  {
    hide Vetted, Permitted, Writable, WellPlanned, Names, Restrict;
    NextName(j, k);
    PutsOneMore(before, j.c.planned, Names(j.written[..k]), j.written[k]);
  }

  lemma PutsOneMore(before: Tree, planned: Tree, names: set<Name>, n: Name)
    requires n in planned
    ensures before + Restrict(planned, names + {n}) == (before + Restrict(planned, names))[n := planned[n]]
  {
  }

  lemma ScanningKeepsSound(j: Job, before: Tree, p: Point)
    requires Proper(j) && OnScanning(j, before, p)
    ensures Sound(j, before, AtScanning(j, p))
  {
    hide Vetted, Permitted, Writable, Kept, IsArgoQuery, WithinRights, ScanCrashes, Removable, StampsRaise;
    RemovableIgnoresCurrent(before, p.dir, j.c.planned.Keys, j.c.q, j.c.readings.pruning);
    WritesAreWithinRights(before, j.c, p.dir);
    if !ScanIsEmpty(j.c.q) && Refused(j, p) {
      StopsWithinRights(j, before, p, Report(StaleScanFailed, true));
    } else if ScanRaises(before, j.c) {
      StopsWithinRights(j, before, p, Traceback);
    } else if !j.prune {
      FinishIsKept(j, before, p);
    } else {
      var mine := Retired(before, j.c);
      assert p.dir == before + j.c.planned - (mine - mine);
    }
  }

  /** A success left what it should have. */
  lemma FinishIsKept(j: Job, before: Tree, p: Point)
    requires Proper(j) && Cleared(j, before, p.local.linted) && !ScanRaises(before, j.c)
    requires WithinRights(before, j.c, p.dir) && p.dir == Left(before, j.c, j.prune)
    ensures Sound(j, before, End(p, Finished(j)))
  {
    hide Permitted, Writable, WithinRights, ScanRaises, Left, StampsRaise, MayEscape, Vetted, LeftAsReported,
      LintSays, NoLinksStay, PredictionRaises, LinterAccepts, Predicted, Retired, PreflightRaises;
    if j.kind.Gated? {
      ClearedOpens(j, before, p.local.linted);
    }
  }

  lemma PruningKeepsSound(j: Job, before: Tree, p: Point, todo: set<Name>, removed: set<Name>)
    requires Proper(j) && OnPruning(j, before, p, todo, removed)
    ensures Sound(j, before, AtPruning(j, p, todo, removed))
  {
    hide OnPruning, Kept, IsArgoQuery;
    PruningEnds(j, before, p, todo, removed);
    if todo != {} {
      PrunesOneMore(j, before, p, todo, removed, j.pick(todo));
    }
  }

  lemma PruningEnds(j: Job, before: Tree, p: Point, todo: set<Name>, removed: set<Name>)
    requires Proper(j) && OnPruning(j, before, p, todo, removed)
    ensures todo == {} ==> Sound(j, before, End(p, Finished(j)))
    ensures todo != {} && Refused(j, p) ==> Sound(j, before, End(p, Report(PruneFailed(removed, todo), true)))
    ensures todo <= p.dir.Keys
  {
    hide Cleared, Permitted, Writable, Kept, IsArgoQuery, WithinRights, ScanRaises, Retired, StampsRaise,
      LeftAsReported, Sound;
    PrunedIsThere(j, before, p, todo, removed);
    if todo == {} {
      FinishIsKept(j, before, p);
    } else if Refused(j, p) {
      PruneFailureIsKept(j, before, p, todo, removed);
    }
  }

  lemma PruneFailureIsKept(j: Job, before: Tree, p: Point, todo: set<Name>, removed: set<Name>)
    requires Proper(j) && OnPruning(j, before, p, todo, removed) && WithinRights(before, j.c, p.dir)
    requires todo != {} && Refused(j, p)
    ensures Sound(j, before, End(p, Report(PruneFailed(removed, todo), true)))
  {
    hide Proper, Cleared, Permitted, WithinRights, ScanRaises, Retired, LeftAsReported, Sound;
    assert !Undisturbed(j);
    StopsWithinRights(j, before, p, Report(PruneFailed(removed, todo), true));
  }

  lemma PrunedIsThere(j: Job, before: Tree, p: Point, todo: set<Name>, removed: set<Name>)
    requires Proper(j) && OnPruning(j, before, p, todo, removed)
    ensures todo <= p.dir.Keys && WithinRights(before, j.c, p.dir)
    ensures todo == {} ==> p.dir == Left(before, j.c, j.prune)
  {
    hide Vetted, Permitted, Writable, WithinRights, ScanRaises, Removable, WellPlanned;
    WritesAndRemovalsAreWithinRights(before, j.c, removed, p.dir);
    if todo == {} {
      assert removed == Retired(before, j.c);
    }
  }

  lemma PrunesOneMore(j: Job, before: Tree, p: Point, todo: set<Name>, removed: set<Name>, n: Name)
    requires Proper(j) && OnPruning(j, before, p, todo, removed) && todo != {} && n == j.pick(todo)
    ensures !Refused(j, p) && n in p.dir ==>
      OnPruning(j, before, AtPruning(j, p, todo, removed), todo - {n}, removed + {n})
  {
    hide Vetted, Permitted, Writable, WellPlanned, Retired, ScanRaises;
    assert (todo - {n}) + (removed + {n}) == todo + removed;
    DropsOneMore(before + j.c.planned, removed, n);
  }

  lemma DropsOneMore(t: Tree, removed: set<Name>, n: Name)
    ensures t - removed - {n} == t - (removed + {n})
  {
  }

  /** Every step keeps what holds. */
  lemma StepKeepsSound(j: Job, before: Tree, p: Point)
    requires Proper(j) && Sound(j, before, p)
    ensures Sound(j, before, Step(j, p))
  {
    hide OnComparing, OnCopying, OnLinting, OnChecking, OnSettingAside, OnInstalling, OnUnlinking, OnRestoring,
      OnDiscarding, OnWriting, OnScanning, OnPruning, Kept, AtStarting, AtComparing, AtCopying, AtLinting,
      AtChecking, AtSettingAside, AtInstalling, AtUnlinking, AtRestoring, AtDiscarding, AtWriting, AtScanning,
      AtPruning;
    match p.local.stage
    case Starting => StartKeepsSound(j, before, p);
    case Comparing(listed) => ComparingKeepsSound(j, before, p, listed);
    case Copying(todo, carried) => CopyingKeepsSound(j, before, p, todo, carried);
    case Linting(carried) => LintingKeepsSound(j, before, p, carried);
    case Checking(k, clash) => CheckingKeepsSound(j, before, p, k, clash);
    case SettingAside(k, displaced) => SettingAsideKeepsSound(j, before, p, k, displaced);
    case Installing(k, displaced) => InstallingKeepsSound(j, before, p, k, displaced);
    case Unlinking(k, i, displaced, standing) => UnlinkingKeepsSound(j, before, p, k, i, displaced, standing);
    case Restoring(k, i, displaced, standing, unrestored) =>
      RestoringKeepsSound(j, before, p, k, i, displaced, standing, unrestored);
    case Discarding => DiscardingKeepsSound(j, before, p);
    case Writing(k) => WritingKeepsSound(j, before, p, k);
    case Scanning => ScanningKeepsSound(j, before, p);
    case Pruning(todo, removed) => PruningKeepsSound(j, before, p, todo, removed);
    case Ended(_) =>
  }

  /** So it holds of a section from its first step to its last. */
  lemma {:induction false} AfterIsSound(j: Job, d: Tree, n: nat)
    requires Proper(j)
    ensures Sound(j, d, After(j, d, n))
  {
    hide Sound, Step;
    if n == 0 {
      EnteringIsSound(j, d);
    } else {
      AfterIsSound(j, d, n - 1);
      StepKeepsSound(j, d, After(j, d, n - 1));
    }
  }

  // ---------------------------------------------------------------- what every section promises

  /** Before it starts to write a section only reads. */
  predicate OnlyReads(stage: Stage) {
    stage.Starting? || stage.Comparing? || stage.Copying? || stage.Linting? || stage.Checking?
  }

  lemma SoundIsWithinRights(j: Job, before: Tree, p: Point)
    requires Proper(j) && Sound(j, before, p)
    ensures WithinRights(before, j.c, p.dir)
    ensures OnlyReads(p.local.stage) ==> p.dir == before
  {
    hide Vetted, Permitted, Writable, InFlight, Undoing, WithinRights, MayChange, Removable, ScanCrashes,
      StampsRaise, Opens, Left, LinterRejects;
    match p.local.stage
    case SettingAside(k, displaced) => MovingStaysInPlan(j, before, p, k, displaced);
    case Installing(k, displaced) => MovingStaysInPlan(j, before, p, k, displaced);
    case Unlinking(k, i, displaced, standing) =>
      UndoingStaysInPlan(j, before, p, k, displaced, standing + Names(j.written[i..k]), {});
    case Restoring(k, i, displaced, standing, unrestored) =>
      UndoingStaysInPlan(j, before, p, k, displaced, standing, Names(displaced[..i]) - unrestored);
    case Writing(_) => WritesAreWithinRights(before, j.c, p.dir);
    case Discarding => WritesAreWithinRights(before, j.c, p.dir);
    case Scanning => WritesAreWithinRights(before, j.c, p.dir);
    case Pruning(_, removed) => WritesAndRemovalsAreWithinRights(before, j.c, removed, p.dir);
    case Ended(_) =>
    case _ => NothingChanged(before, j.c);
  }

  lemma NothingChanged(before: Tree, c: Command)
    requires WellPlanned(c.planned)
    ensures WithinRights(before, c, before)
  {
  }

  lemma MovingStaysInPlan(j: Job, before: Tree, p: Point, k: nat, displaced: seq<Name>)
    requires Proper(j) && Moved(j, before, p, k, displaced) && Names(displaced) <= Names(j.written)
    requires Writable(before, j.c.planned)
    ensures WithinRights(before, j.c, p.dir)
  {
    hide WithinRights, Writable;
    SomeAreAmongAll(j.written, k);
    forall n | n !in j.c.planned
      ensures Look(p.dir, n) == Look(before, n)
    {
      assert InFlightAt(before, j.c.planned, DiskOf(p), Names(j.written[..k]), Names(displaced), n);
    }
    WritesAreWithinRights(before, j.c, p.dir);
  }

  lemma UndoingStaysInPlan(
    j: Job, before: Tree, p: Point, k: nat, displaced: seq<Name>, standing: set<Name>, restored: set<Name>)
    requires Proper(j) && TakenBack(j, before, DiskOf(p), k, displaced, standing, restored)
    requires Writable(before, j.c.planned)
    ensures WithinRights(before, j.c, p.dir)
  {
    hide WithinRights, Writable;
    SomeAreAmongAll(j.written, k);
    forall n | n !in j.c.planned
      ensures Look(p.dir, n) == Look(before, n)
    {
      assert UndoingAt(before, j.c.planned, DiskOf(p), Names(j.written[..k]), Names(displaced), standing, restored, n);
    }
    WritesAreWithinRights(before, j.c, p.dir);
  }

  /** Wherever a section has got to, it has stayed within the rights of its command; until it writes
      the directory is as it was; and when it ends it has kept what its writer promises. */
  lemma SectionsObey(j: Job, d: Tree, n: nat)
    requires Proper(j)
    ensures var p := After(j, d, n);
            && WithinRights(d, j.c, p.dir)
            && (OnlyReads(p.local.stage) ==> p.dir == d)
            && (p.local.stage.Ended? ==> Kept(j, d, p, p.local.stage.ending))
  {
    hide WithinRights, After, Kept;
    AfterIsSound(j, d, n);
    SoundIsWithinRights(j, d, After(j, d, n));
  }

  /** A gate that succeeds had the directory it predicted accepted, and what it leaves is that
      directory exactly when what was predicted to go is what went. */
  lemma GatesVouch(j: Job, d: Tree, n: nat)
    requires Proper(j) && Gates(j)
    requires After(j, d, n).local.stage.Ended? && Succeeded(After(j, d, n).local.stage.ending)
    ensures var p := After(j, d, n);
            && p.local.linted == Predicted(d, j.c, j.prune) && LinterAccepts(j.world, j.c, p.local.linted)
            && p.dir == Left(d, j.c, j.prune)
            && (Manifests(p.dir) == p.local.linted <==> PredictionHolds(d, j.c, j.prune))
  {
    hide Left, Predicted, DocumentsPass, PredictionHolds, After, WithinRights, ScanRaises, Permitted, NoLinksStay,
      Manifests, PredictionRaises, MayEscape, Truthful, Explains, QuietEnding, Accounted;
    SectionsObey(j, d, n);
    SameWorldBelow(j, After(j, d, n).local.linted);
    VerdictDescribesTheDirectory(d, j.c, j.prune);
  }

  // ---------------------------------------------------------------- every section ends

  function Rank(stage: Stage): nat {
    match stage
    case Starting => 11
    case Comparing(_) => 10
    case Copying(_, _) => 9
    case Linting(_) => 8
    case Checking(_, _) => 7
    case Writing(_) => 6
    case SettingAside(_, _) => 5
    case Installing(_, _) => 5
    case Unlinking(_, _, _, _) => 4
    case Restoring(_, _, _, _, _) => 3
    case Discarding => 3
    case Scanning => 2
    case Pruning(_, _) => 1
    case Ended(_) => 0
  }

  function ToGo(n: nat, k: nat): nat {
    if k < n then n - k else 0
  }

  function Remaining(j: Job, stage: Stage): nat {
    match stage
    case Copying(todo, _) => |todo|
    case Checking(k, _) => ToGo(|j.written|, k)
    case SettingAside(k, _) => 2 * ToGo(|j.written|, k) + 1
    case Installing(k, _) => 2 * ToGo(|j.written|, k)
    case Unlinking(k, i, _, _) => ToGo(k, i)
    case Restoring(_, i, displaced, _, _) => ToGo(|displaced|, i)
    case Writing(k) => ToGo(|j.written|, k)
    case Pruning(todo, _) => |todo|
    case _ => 0
  }

  predicate GetsOn(j: Job, from: Stage, to: Stage) {
    Rank(to) < Rank(from) || (Rank(to) == Rank(from) && Remaining(j, to) < Remaining(j, from))
  }

  lemma FewerToCopy(j: Job, p: Point, todo: set<Name>, carried: set<Name>)
    requires Proper(j)
    ensures GetsOn(j, Copying(todo, carried), AtCopying(j, p, todo, carried).local.stage)
  {
    hide Remaining, Linked, GetsOn, Rank;
    var next := AtCopying(j, p, todo, carried).local.stage;
    LowerRank(j, Copying(todo, carried), next);
    if todo != {} {
      var n := j.pick(todo);
      FewerLeft(j, todo, n, carried);
      FewerLeft(j, todo, n, carried + {n});
    }
  }

  lemma FewerLeft(j: Job, todo: set<Name>, n: Name, carried: set<Name>)
    requires n in todo
    ensures forall was :: GetsOn(j, Copying(todo, was), Copying(todo - {n}, carried))
    ensures forall was, now :: GetsOn(j, Pruning(todo, was), Pruning(todo - {n}, now))
  {
    assert |todo - {n}| == |todo| - 1;
  }

  lemma LowerRank(j: Job, from: Stage, to: Stage)
    ensures Rank(to) < Rank(from) ==> GetsOn(j, from, to)
    ensures from.Copying? && (to.Linting? || to.Ended?) ==> GetsOn(j, from, to)
  {
  }

  lemma CheckingGetsOn(j: Job, p: Point, k: nat, clash: bool)
    requires Proper(j)
    ensures GetsOn(j, Checking(k, clash), AtChecking(j, p, k, clash).local.stage)
  {
    hide AnswerAt, WellPlanned, IsArgoQuery;
  }

  lemma VerdictGetsOn(j: Job, p: Point, carried: set<Name>)
    ensures AtVerdict(j, p, carried).local.stage.Ended? || AtVerdict(j, p, carried).local.stage.Checking?
  {
  }

  lemma LintingGetsOn(j: Job, p: Point, carried: set<Name>)
    requires Proper(j)
    ensures GetsOn(j, Linting(carried), AtLinting(j, p, carried).local.stage)
  {
    hide CheckDocuments, Remaining, WellPlanned, IsArgoQuery, AtVerdict, Order;
    VerdictGetsOn(j, Point(p.local.(linted := p.local.staging), p.dir), carried);
  }

  lemma ReadingGetsOn(j: Job, p: Point)
    requires Proper(j) && OnlyReads(p.local.stage)
    ensures GetsOn(j, p.local.stage, Step(j, p).local.stage)
  {
    hide Leaving, ScanCrashes, WellPlanned, IsArgoQuery, AtCopying, AtLinting, AtChecking, Remaining;
    match p.local.stage
    case Copying(todo, carried) => FewerToCopy(j, p, todo, carried);
    case Linting(carried) => LintingGetsOn(j, p, carried);
    case Checking(k, clash) => CheckingGetsOn(j, p, k, clash);
    case _ =>
  }

  predicate Moves(stage: Stage) {
    stage.SettingAside? || stage.Installing? || stage.Unlinking? || stage.Restoring?
  }

  lemma ForwardGetsOn(j: Job, p: Point, k: nat, displaced: seq<Name>)
    requires Proper(j)
    ensures GetsOn(j, SettingAside(k, displaced), AtSettingAside(j, p, k, displaced).local.stage)
    ensures GetsOn(j, Installing(k, displaced), AtInstalling(j, p, k, displaced).local.stage)
  {
    hide Exists, WellPlanned, IsArgoQuery;
  }

  lemma BackwardGetsOn(
    j: Job, p: Point, k: nat, i: nat, displaced: seq<Name>, standing: set<Name>, unrestored: set<Name>)
    requires Proper(j)
    ensures GetsOn(j, Unlinking(k, i, displaced, standing), AtUnlinking(j, p, k, i, displaced, standing).local.stage)
    ensures GetsOn(
      j, Restoring(k, i, displaced, standing, unrestored),
      AtRestoring(j, p, k, i, displaced, standing, unrestored).local.stage)
  {
    hide WellPlanned, IsArgoQuery;
  }

  lemma MovingGetsOn(j: Job, p: Point)
    requires Proper(j) && Moves(p.local.stage)
    ensures GetsOn(j, p.local.stage, Step(j, p).local.stage)
  {
    hide GetsOn, AtSettingAside, AtInstalling, AtUnlinking, AtRestoring, WellPlanned, IsArgoQuery;
    match p.local.stage
    case SettingAside(k, displaced) => ForwardGetsOn(j, p, k, displaced);
    case Installing(k, displaced) => ForwardGetsOn(j, p, k, displaced);
    case Unlinking(k, i, displaced, standing) => BackwardGetsOn(j, p, k, i, displaced, standing, {});
    case Restoring(k, i, displaced, standing, unrestored) =>
      BackwardGetsOn(j, p, k, i, displaced, standing, unrestored);
  }

  predicate Closes(stage: Stage) {
    stage.Discarding? || stage.Writing? || stage.Scanning? || stage.Pruning?
  }

  lemma PruningGetsOn(j: Job, p: Point, todo: set<Name>, removed: set<Name>)
    requires Proper(j)
    ensures GetsOn(j, Pruning(todo, removed), AtPruning(j, p, todo, removed).local.stage)
  {
    if todo != {} {
      FewerLeft(j, todo, j.pick(todo), {});
    }
    hide Remaining, WellPlanned, IsArgoQuery;
  }

  lemma ScanningGetsOn(j: Job, p: Point)
    requires Proper(j)
    ensures GetsOn(j, Scanning, AtScanning(j, p).local.stage)
    ensures GetsOn(j, Discarding, AtDiscarding(j, p).local.stage)
  {
    hide ScanRaises, Retired, ScanIsEmpty, Remaining, WellPlanned, IsArgoQuery;
  }

  lemma ClosingGetsOn(j: Job, p: Point)
    requires Proper(j) && Closes(p.local.stage)
    ensures GetsOn(j, p.local.stage, Step(j, p).local.stage)
  {
    hide WellPlanned, IsArgoQuery, AtPruning, AtScanning, AtDiscarding;
    match p.local.stage
    case Pruning(todo, removed) => PruningGetsOn(j, p, todo, removed);
    case Writing(_) =>
    case _ => ScanningGetsOn(j, p);
  }

  /** Every section comes to its end, whatever the host refuses, so the lock is given back. */
  lemma {:induction false} SectionsEnd(j: Job, d: Tree, n: nat) returns (m: nat)
    requires Proper(j)
    ensures n <= m && After(j, d, m).local.stage.Ended?
    decreases Rank(After(j, d, n).local.stage), Remaining(j, After(j, d, n).local.stage)
  {
    hide Step, Rank, Remaining;
    var p := After(j, d, n);
    if p.local.stage.Ended? {
      return n;
    }
    if OnlyReads(p.local.stage) {
      ReadingGetsOn(j, p);
    } else if Moves(p.local.stage) {
      MovingGetsOn(j, p);
    } else {
      ClosingGetsOn(j, p);
    }
    m := SectionsEnd(j, d, n + 1);
  }

  // ---------------------------------------------------------------- files of others, lock or no lock

  /** A section that has passed a name over will not come back to it. */
  predicate Spares(j: Job, l: Local, n: Name) {
    match l.stage
    case Checking(k, clash) => (forall m :: 0 <= m < k && m < |j.written| && j.written[m] == n ==> clash)
    case SettingAside(_, displaced) => n !in j.c.planned && n !in displaced
    case Installing(_, displaced) => n !in j.c.planned && n !in displaced
    case Unlinking(_, _, displaced, _) => n !in j.c.planned && n !in displaced
    case Restoring(_, _, displaced, _, _) => n !in j.c.planned && n !in displaced
    case Writing(_) => n !in j.c.planned
    case Pruning(todo, _) => n !in todo
    case _ => true
  }

  lemma CheckedSpares(j: Job, p: Point, n: Name, k: nat, clash: bool)
    requires Proper(j) && k >= |j.written| && (clash || n !in j.c.planned)
    ensures Spares(j, AtChecking(j, p, k, clash).local, n)
  {
    hide AnswerAt, WellPlanned, IsArgoQuery;
  }

  lemma CheckingOneSpares(j: Job, p: Point, n: Name, k: nat, clash: bool)
    requires Proper(j) && k < |j.written| && (j.written[k] == n ==> AnswerAt(j, p.dir, k) != Free)
    requires forall m :: 0 <= m < k && j.written[m] == n ==> clash
    ensures Spares(j, AtChecking(j, p, k, clash).local, n)
  {
    hide AnswerAt, WellPlanned, IsArgoQuery, NoDup, Names;
  }

  lemma CheckingSpares(j: Job, p: Point, n: Name, k: nat, clash: bool)
    requires Proper(j) && n in p.dir && Spares(j, p.local, n) && p.local.stage == Checking(k, clash)
    requires !MayChange(p.dir, j.c, n)
    ensures AtChecking(j, p, k, clash).dir == p.dir && Spares(j, AtChecking(j, p, k, clash).local, n)
  {
    hide MayChange, WellPlanned, IsArgoQuery, AtChecking, AnswerAt;
    ChecksOnlyRead(j, p, k, clash);
    NotReached(j, p.dir, n);
    if k >= |j.written| {
      CheckedSpares(j, p, n, k, clash);
    } else {
      CheckingOneSpares(j, p, n, k, clash);
    }
  }

  lemma ReadingSpares(j: Job, p: Point, n: Name)
    requires Proper(j) && OnlyReads(p.local.stage) && n in p.dir && Spares(j, p.local, n)
    requires !MayChange(p.dir, j.c, n)
    ensures Step(j, p).dir == p.dir && Spares(j, Step(j, p).local, n)
  {
    hide CheckDocuments, AtChecking, Leaving, ScanCrashes, Staying, MayChange, WellPlanned, Linked, IsArgoQuery;
    if p.local.stage.Checking? {
      CheckingSpares(j, p, n, p.local.stage.k, p.local.stage.clash);
    }
  }

  lemma MovingSpares(j: Job, p: Point, n: Name)
    requires Proper(j) && Moves(p.local.stage) && n in p.dir && Spares(j, p.local, n)
    ensures Look(Step(j, p).dir, n) == Some(p.dir[n]) && Spares(j, Step(j, p).local, n)
  {
    hide Exists, WellPlanned, IsArgoQuery;
    match p.local.stage
    case SettingAside(k, _) => PlannedAt(j, k);
    case Installing(k, _) => PlannedAt(j, k);
    case Unlinking(_, i, _, _) => PlannedAt(j, i);
    case Restoring(_, _, _, _, _) =>
  }

  lemma PruningSpares(j: Job, p: Point, n: Name, todo: set<Name>, removed: set<Name>)
    requires Proper(j) && n in p.dir && n !in todo
    ensures var q := AtPruning(j, p, todo, removed);
            Look(q.dir, n) == Some(p.dir[n]) && (q.local.stage.Pruning? || q.local.stage.Ended?)
              && Spares(j, q.local, n)
  {
    hide WellPlanned, IsArgoQuery;
  }

  lemma ScanningSpares(j: Job, p: Point, n: Name)
    requires Proper(j) && n in p.dir && n !in Retired(p.dir, j.c)
    ensures AtScanning(j, p).dir == p.dir && Spares(j, AtScanning(j, p).local, n)
    ensures AtDiscarding(j, p).dir == p.dir && Spares(j, AtDiscarding(j, p).local, n)
  {
    hide WellPlanned, IsArgoQuery, ScanRaises, Retired, ScanIsEmpty;
  }

  lemma ClosingSpares(j: Job, p: Point, n: Name)
    requires Proper(j) && Closes(p.local.stage)
    requires n in p.dir && Spares(j, p.local, n) && !MayChange(p.dir, j.c, n)
    ensures Look(Step(j, p).dir, n) == Some(p.dir[n]) && Spares(j, Step(j, p).local, n)
  {
    hide Retired, WellPlanned, IsArgoQuery, MayChange, AnswerAt, AtScanning, AtDiscarding, AtPruning;
    NotReached(j, p.dir, n);
    match p.local.stage
    case Writing(k) => PlannedAt(j, k);
    case Pruning(todo, removed) => PruningSpares(j, p, n, todo, removed);
    case _ => ScanningSpares(j, p, n);
  }

  /** One step leaves a file alone that is foreign to its command, whatever others did meanwhile. */
  lemma StepSparesForeign(j: Job, p: Point, n: Name)
    requires Proper(j) && n in p.dir && Foreign(p.dir[n], j.c) && !Exposed(n, p.dir[n], j.c) && Spares(j, p.local, n)
    ensures Look(Step(j, p).dir, n) == Some(p.dir[n]) && Spares(j, Step(j, p).local, n)
  {
    hide Foreign, MayChange, Spares, AtStarting, AtComparing, AtCopying, AtLinting, AtChecking, AtSettingAside,
      AtInstalling, AtUnlinking, AtRestoring, AtDiscarding, AtWriting, AtScanning, AtPruning;
    ForeignIsReachedIff(p.dir, j.c, n);
    if OnlyReads(p.local.stage) {
      ReadingSpares(j, p, n);
    } else if Moves(p.local.stage) {
      MovingSpares(j, p, n);
    } else if !p.local.stage.Ended? {
      ClosingSpares(j, p, n);
    }
  }

  lemma PlannedAt(j: Job, k: nat)
    requires Proper(j)
    ensures k < |j.written| ==> j.written[k] in j.c.planned
  {
    assert k < |j.written| ==> j.written[k] in Names(j.written);
  }

  lemma NotReached(j: Job, d: Tree, n: Name)
    requires Proper(j) && !MayChange(d, j.c, n)
    ensures n !in Retired(d, j.c)
    ensures forall k: nat :: k < |j.written| && j.written[k] == n ==> AnswerAt(j, d, k) != Free
    ensures n in j.c.planned ==> exists k :: 0 <= k < |j.written| && j.written[k] == n
  {
    assert n in j.c.planned <==> n in Names(j.written);
  }

  // ---------------------------------------------------------------- how a rollback ends

  predicate Turned(stage: Stage) {
    stage.Unlinking? || stage.Restoring?
  }

  /** Everything is as it was found, and the report says so; or a second refusal is on record. */
  ghost predicate Undone(j: Job, before: Tree, p: Point) {
    && p.local.stage.Ended? && p.local.stage.ending.Report?
    && if p.local.stage.ending.reason.RollbackIncomplete? then Twice(j, p.local.tick)
       else p.local.stage.ending == Report(PublishFailed, false) && p.dir == before
  }

  lemma TurnedStays(j: Job, before: Tree, p: Point)
    requires Proper(j) && Sound(j, before, p) && Turned(p.local.stage)
    ensures Turned(Step(j, p).local.stage) || Undone(j, before, Step(j, p))
  {
    hide WellPlanned, IsArgoQuery, TakenBack, Transacting;
    match p.local.stage
    case Unlinking(k, i, displaced, standing) =>
    case Restoring(k, i, displaced, standing, unrestored) =>
      if i == |displaced| {
        AllIsAccounted(j, before, p, k, displaced, standing, unrestored);
      }
  }

  lemma {:induction false} TurnedEndsUndone(j: Job, d: Tree, n: nat, m: nat)
    requires Proper(j) && n <= m && Turned(After(j, d, n).local.stage)
    ensures Turned(After(j, d, m).local.stage) || Undone(j, d, After(j, d, m))
    decreases m
  {
    hide Step, Undone, Sound;
    if n < m {
      TurnedEndsUndone(j, d, n, m - 1);
      var p := After(j, d, m - 1);
      if Turned(p.local.stage) {
        AfterIsSound(j, d, m - 1);
        TurnedStays(j, d, p);
      } else {
        UndoneStays(j, d, p);
      }
    }
  }

  lemma UndoneStays(j: Job, before: Tree, p: Point)
    requires Proper(j) && Undone(j, before, p)
    ensures Step(j, p) == p
  {
  }

  /** Where a publication is turned back by the only refusal of the run, it ends with the directory it
      found and a report of just that. */
  lemma OneRefusalIsUndone(j: Job, d: Tree, n: nat, m: nat)
    requires Proper(j) && n <= m && Turned(After(j, d, n).local.stage) && After(j, d, m).local.stage.Ended?
    requires forall t, u :: j.refuses(t) && j.refuses(u) ==> t == u
    ensures After(j, d, m).dir == d && After(j, d, m).local.stage.ending == Report(PublishFailed, false)
  {
    hide Step;
    TurnedEndsUndone(j, d, n, m);
  }

  lemma OneUnlinking(j: Job, before: Tree, p: Point, k: nat, i: nat, displaced: seq<Name>, standing: set<Name>)
    requires Proper(j) && Sound(j, before, p) && p.local.stage == Unlinking(k, i, displaced, standing) && i < k
    ensures k <= |j.written| && Sound(j, before, Step(j, p)) && Step(j, p).local.tick == p.local.tick + 1
    ensures Step(j, p).local.stage
         == Unlinking(k, i + 1, displaced, standing + if Refused(j, p) then {j.written[i]} else {})
  {
    hide Vetted, Permitted, Writable, IsArgoQuery, TakenBack, WellPlanned, Names;
    UnlinksOneMore(j, before, p, k, i, displaced, standing);
    UnlinkingKeepsSound(j, before, p, k, i, displaced, standing);
  }

  lemma {:induction false} UnlinkingRuns(j: Job, before: Tree, p: Point, k: nat, displaced: seq<Name>, i: nat)
    requires Proper(j) && Sound(j, before, p) && p.local.stage == Unlinking(k, 0, displaced, {})
    requires i <= k <= |j.written|
    ensures var q := Onward(j, p, i);
            && q.local.stage == Unlinking(k, i, displaced, RefusedAmong(j.refuses, j.written[..k], p.local.tick, i))
            && q.local.tick == p.local.tick + i && Sound(j, before, q)
  {
    hide Sound, Step, Proper;
    if i > 0 {
      UnlinkingRuns(j, before, p, k, displaced, i - 1);
      OneUnlinking(
        j, before, Onward(j, p, i - 1), k, i - 1, displaced,
        RefusedAmong(j.refuses, j.written[..k], p.local.tick, i - 1));
      OneMoreAmong(j.refuses, j.written[..k], p.local.tick, i - 1);
    }
  }

  lemma OneRestoring(
    j: Job, before: Tree, p: Point, k: nat, i: nat, displaced: seq<Name>, standing: set<Name>, unrestored: set<Name>)
    requires Proper(j) && Sound(j, before, p) && i < |displaced|
    requires p.local.stage == Restoring(k, i, displaced, standing, unrestored)
    ensures Sound(j, before, Step(j, p)) && Step(j, p).local.tick == p.local.tick + 1
    ensures Step(j, p).local.stage ==
            if Refused(j, p) then Restoring(k, i + 1, displaced, standing, unrestored + {displaced[i]})
            else Restoring(k, i + 1, displaced, standing - {displaced[i]}, unrestored)
  {
    hide Vetted, Permitted, Writable, IsArgoQuery, TakenBack, WellPlanned, Names;
    RestoresOneMore(j, before, p, k, i, displaced, standing, unrestored);
    RestoringKeepsSound(j, before, p, k, i, displaced, standing, unrestored);
  }

  lemma {:induction false} RestoringRuns(
    j: Job, before: Tree, p: Point, k: nat, displaced: seq<Name>, standing: set<Name>, i: nat)
    requires Proper(j) && Sound(j, before, p) && i <= |displaced|
    requires p.local.stage == Restoring(k, 0, displaced, standing, {})
    ensures var q := Onward(j, p, i);
            && q.local.stage == Restoring(
                 k, i, displaced, standing - GrantedAmong(j.refuses, displaced, p.local.tick, i),
                 RefusedAmong(j.refuses, displaced, p.local.tick, i))
            && q.local.tick == p.local.tick + i && Sound(j, before, q)
  {
    hide Sound, Step, Proper;
    if i > 0 {
      RestoringRuns(j, before, p, k, displaced, standing, i - 1);
      var granted := GrantedAmong(j.refuses, displaced, p.local.tick, i - 1);
      OneRestoring(
        j, before, Onward(j, p, i - 1), k, i - 1, displaced, standing - granted,
        RefusedAmong(j.refuses, displaced, p.local.tick, i - 1));
      OneMoreAmong(j.refuses, displaced, p.local.tick, i - 1);
      assert standing - granted - {displaced[i - 1]} == standing - (granted + {displaced[i - 1]});
    } else {
      assert standing - {} == standing;
    }
  }

  /** From the first refusal to its end a rollback takes one operation a name, and its report is just
      the names whose operation was refused: what it does not name has its old content, or is gone
      again if there was none. */
  lemma RollbackIsExact(j: Job, before: Tree, p: Point, k: nat, displaced: seq<Name>)
    requires Proper(j) && Sound(j, before, p) && p.local.stage == Unlinking(k, 0, displaced, {}) && k <= |j.written|
    ensures var q := Onward(j, p, k + 1 + |displaced| + 1);
            var unrestored := RefusedAmong(j.refuses, displaced, p.local.tick + k, |displaced|);
            var unremoved := RefusedAmong(j.refuses, j.written[..k], p.local.tick, k)
                           - GrantedAmong(j.refuses, displaced, p.local.tick + k, |displaced|);
            && q.local.stage == Ended(
                 if unrestored == {} && unremoved == {} then Report(PublishFailed, false)
                 else Report(RollbackIncomplete(unrestored, unremoved), true))
            && (forall n :: n !in unrestored && n !in unremoved ==> Look(q.dir, n) == Look(before, n))
            && (forall n :: n in unrestored ==> n in before && Look(q.local.backup, n) == Some(before[n]))
  {
    hide Sound, Step, Proper, RefusedAmong, GrantedAmong;
    UnlinkingRuns(j, before, p, k, displaced, k);
    var standing := RefusedAmong(j.refuses, j.written[..k], p.local.tick, k);
    UnlinkingIsOver(j, before, Onward(j, p, k), k, displaced, standing);
    var b := Onward(j, p, k + 1);
    RestoringRuns(j, before, b, k, displaced, standing, |displaced|);
    OnwardAgain(j, p, k + 1, |displaced|);
    RestoringIsOver(
      j, before, Onward(j, b, |displaced|), k, displaced,
      standing - GrantedAmong(j.refuses, displaced, p.local.tick + k, |displaced|),
      RefusedAmong(j.refuses, displaced, p.local.tick + k, |displaced|));
    assert Onward(j, p, k + 1 + |displaced| + 1) == Step(j, Onward(j, p, k + 1 + |displaced|));
  }

  lemma UnlinkingIsOver(j: Job, before: Tree, p: Point, k: nat, displaced: seq<Name>, standing: set<Name>)
    requires Proper(j) && Sound(j, before, p) && p.local.stage == Unlinking(k, k, displaced, standing)
    ensures var q := Step(j, p);
            && q == Go(p, Restoring(k, 0, displaced, standing, {})) && Sound(j, before, q)
  {
    hide Vetted, Permitted, Writable, IsArgoQuery, TakenBack, WellPlanned;
    UnlinkingKeepsSound(j, before, p, k, k, displaced, standing);
  }

  lemma RestoringIsOver(
    j: Job, before: Tree, p: Point, k: nat, displaced: seq<Name>, standing: set<Name>, unrestored: set<Name>)
    requires Proper(j) && Sound(j, before, p)
    requires p.local.stage == Restoring(k, |displaced|, displaced, standing, unrestored)
    ensures var q := Step(j, p);
            && q.local.stage == Ended(
                 if unrestored == {} && standing == {} then Report(PublishFailed, false)
                 else Report(RollbackIncomplete(unrestored, standing), true))
            && (forall n :: n !in unrestored && n !in standing ==> Look(q.dir, n) == Look(before, n))
            && (forall n :: n in unrestored ==> n in before && Look(q.local.backup, n) == Some(before[n]))
  {
    hide Vetted, Permitted, Writable, IsArgoQuery, TakenBack, WellPlanned;
    AllIsAccounted(j, before, p, k, displaced, standing, unrestored);
    forall n
      ensures n !in unrestored && n !in standing ==> Look(p.dir, n) == Look(before, n)
      ensures n in unrestored ==> n in before && Look(p.local.backup, n) == Some(before[n])
    {
      assert RestoredAt(before, j.c.planned, DiskOf(p), j.c.planned.Keys, {}, unrestored, standing, n);
    }
  }

  // ---------------------------------------------------------------- a link that is lost

  /** Publication asks whether a name exists and is told of a link's target, so without the
      preflight a link to nowhere at a planned name is replaced with nothing set aside. When the
      next install is refused the rollback reports that it undid everything, and the link is gone. */
  lemma LinkIsLost(j: Job, p: Point)
    requires Proper(j) && !j.kind.Ungated? && j.written == ["link.yaml", "next.yaml"]
    requires forall t :: j.refuses(t) <==> t == 3
    requires p == Point(Local(SettingAside(0, []), 0, j.c.planned, map[], map[]), map["link.yaml" := Symlink(false)])
    ensures var q := Onward(j, p, 7);
            q.local.stage == Ended(Report(PublishFailed, false)) && q.dir == map[] && q.local.backup == map[]
  {
    var here := InstalledOver(j, p);
    UndoneUnder(j, here);
    OnwardAgain(j, p, 4, 3);
  }

  lemma InstalledOver(j: Job, p: Point) returns (q: Point)
    requires Proper(j) && j.written == ["link.yaml", "next.yaml"] && forall t :: j.refuses(t) <==> t == 3
    requires p == Point(Local(SettingAside(0, []), 0, j.c.planned, map[], map[]), map["link.yaml" := Symlink(false)])
    ensures q == Onward(j, p, 4) && q.local.stage == Unlinking(1, 0, [], {}) && q.local.tick == 4
    ensures q.dir.Keys == {"link.yaml"} && q.local.backup == map[]
  {
    PlannedAt(j, 0);
    PlannedAt(j, 1);
    hide WellPlanned, IsArgoQuery;
    var a := AtSettingAside(j, p, 0, []);
    var b := AtInstalling(j, a, 0, []);
    var c := AtSettingAside(j, b, 1, []);
    q := AtInstalling(j, c, 1, []);
    assert Onward(j, p, 0) == p && Onward(j, p, 1) == a;
    assert Onward(j, p, 2) == b;
    assert Onward(j, p, 3) == c;
  }

  lemma UndoneUnder(j: Job, p: Point)
    requires Proper(j) && j.written == ["link.yaml", "next.yaml"] && !j.refuses(4)
    requires p.local.stage == Unlinking(1, 0, [], {}) && p.local.tick == 4 && p.dir.Keys == {"link.yaml"}
    ensures var q := Onward(j, p, 3);
            && q.local.stage == Ended(Report(PublishFailed, false)) && q.dir == map[]
            && q.local.backup == p.local.backup
  {
    hide WellPlanned, IsArgoQuery;
    var a := AtUnlinking(j, p, 1, 0, [], {});
    var b := AtUnlinking(j, a, 1, 1, [], {});
    assert Onward(j, p, 0) == p && Onward(j, p, 1) == a;
    assert Onward(j, p, 2) == b;
    assert a.dir == map[];
  }

  lemma {:induction false} OnwardAgain(j: Job, p: Point, m: nat, n: nat)
    requires Proper(j)
    ensures Onward(j, p, m + n) == Onward(j, Onward(j, p, m), n)
  {
    hide Step;
    if n > 0 {
      OnwardAgain(j, p, m, n - 1);
    }
  }

  // ---------------------------------------------------------------- a set that is denied

  /** A step reports a publication that was rolled back over a directory it was not rolled back in
      exactly where it asks whether the backup is gone and the asking raises; by then the whole set
      is in place. */
  lemma DeniedIff(j: Job, before: Tree, p: Point)
    requires Proper(j) && Sound(j, before, p) && before + j.c.planned != before
    requires Step(j, p).local.stage == Ended(Report(PublishFailed, false)) && !p.local.stage.Ended?
    ensures Step(j, p).dir != before <==> p.local.stage.Discarding?
    ensures p.local.stage.Discarding? ==> Refused(j, p) && Step(j, p).dir == before + j.c.planned
  {
    hide WellPlanned, IsArgoQuery, Vetted, Permitted, Writable, AnswerAt, CheckDocuments, Undoing, InFlight,
      TakenBack, Answered, Screened, Copied;
    match p.local.stage
    case Restoring(k, i, displaced, standing, unrestored) =>
      RestoringReports(j, p, k, i, displaced, standing, unrestored);
      AllIsAccounted(j, before, p, k, displaced, standing, unrestored);
    case Discarding =>
    case Checking(k, clash) => ChecksOnlyRead(j, p, k, clash);
    case _ => OthersDoNotReport(j, p);
  }

  lemma RestoringReports(
    j: Job, p: Point, k: nat, i: nat, displaced: seq<Name>, standing: set<Name>, unrestored: set<Name>)
    requires AtRestoring(j, p, k, i, displaced, standing, unrestored).local.stage == Ended(Report(PublishFailed, false))
    ensures i >= |displaced| && standing == {} && unrestored == {}
    ensures AtRestoring(j, p, k, i, displaced, standing, unrestored).dir == p.dir
  {
  }

  lemma ChecksOnlyRead(j: Job, p: Point, k: nat, clash: bool)
    requires Proper(j)
    ensures AtChecking(j, p, k, clash).dir == p.dir
  {
    hide WellPlanned, IsArgoQuery, AnswerAt;
  }

  lemma OthersDoNotReport(j: Job, p: Point)
    requires Proper(j) && !p.local.stage.Restoring? && !p.local.stage.Discarding? && !p.local.stage.Checking?
    requires !p.local.stage.Ended?
    ensures Step(j, p).local.stage != Ended(Report(PublishFailed, false))
  {
    hide WellPlanned, IsArgoQuery, CheckDocuments, Order, Exists, Retired, ScanRaises, PredictionRaises, Leaving,
      Linked, AtVerdict, AtRestoring, AtDiscarding, AtChecking;
    if p.local.stage.Linting? {
      VerdictDoesNotReport(j, Point(p.local.(linted := p.local.staging), p.dir), p.local.stage.carried);
    }
  }

  lemma VerdictDoesNotReport(j: Job, p: Point, carried: set<Name>)
    ensures AtVerdict(j, p, carried).local.stage != Ended(Report(PublishFailed, false))
  {
  }

  /** Such a run: one file rendered into an empty directory, one error, and the report says that the
      directory was rolled back while the file stands in it. */
  lemma SetIsDenied(j: Job)
    requires Proper(j) && j.kind.Kueue? && j.written == ["a.yaml"] && j.world.backupPossible
    requires forall t :: j.refuses(t) <==> t == 6
    ensures var q := After(j, map[], 7);
            q.local.stage == Ended(Report(PublishFailed, false)) && q.dir == j.c.planned && "a.yaml" in q.dir
  {
    PlannedAt(j, 0);
    ReadyToMove(j);
    OnwardAgain(j, Point(Entering(j), map[]), 3, 4);
    MovesAndIsDenied(j, After(j, map[], 3));
  }

  lemma ReadyToMove(j: Job)
    requires Proper(j) && j.kind.Kueue? && j.written == ["a.yaml"] && j.world.backupPossible
    requires forall t :: j.refuses(t) <==> t == 6
    ensures After(j, map[], 3) == Point(Local(SettingAside(0, []), 4, j.c.planned, map[], map[]), map[])
  {
    hide WellPlanned, IsArgoQuery;
    var p := Point(Entering(j), map[]);
    var a := AtStarting(j, p);
    assert AnswerAt(j, map[], 0) == Free;
    var b := AtChecking(j, a, 0, false);
    var c := AtChecking(j, b, 1, false);
    assert Onward(j, p, 0) == p && Onward(j, p, 1) == a;
    assert Onward(j, p, 2) == b;
    assert Onward(j, p, 3) == c;
  }

  lemma MovesAndIsDenied(j: Job, p: Point)
    requires Proper(j) && j.written == ["a.yaml"] && forall t :: j.refuses(t) <==> t == 6
    requires p == Point(Local(SettingAside(0, []), 4, j.c.planned, map[], map[]), map[])
    ensures var q := Onward(j, p, 4);
            q.local.stage == Ended(Report(PublishFailed, false)) && q.dir == j.c.planned && "a.yaml" in q.dir
  {
    PlannedAt(j, 0);
    OneName(j);
    hide WellPlanned, IsArgoQuery, Names;
    var a := AtSettingAside(j, p, 0, []);
    var b := AtInstalling(j, a, 0, []);
    var c := AtSettingAside(j, b, 1, []);
    assert Onward(j, p, 0) == p && Onward(j, p, 1) == a;
    assert Onward(j, p, 2) == b;
    assert Onward(j, p, 3) == c;
    assert b.dir == j.c.planned;
  }

  lemma OneName(j: Job)
    requires Proper(j) && j.written == ["a.yaml"]
    ensures j.c.planned.Keys == {"a.yaml"}
  {
    assert Names(["a.yaml"]) == {"a.yaml"};
  }
}
