/** Moving a rendered set into a directory, all of it or none of it. */
module Publishing {
  import opened Wrappers
  import opened Files

  datatype Disk = Disk(output: Tree, backup: Tree)

  /** `Unconfirmed` is an error raised after the whole set has landed: its callers take it for a
      rollback. */
  datatype Outcome =
    | Published(files: seq<Name>)
    | Unconfirmed
    | RolledBack
    | PartlyRolledBack(unrestored: seq<Name>, unremoved: seq<Name>)

  /** Every entry of the previous generation that `exists` can see is still somewhere. */
  ghost predicate Conserves(before: Tree, d: Disk) {
    forall n :: Exists(before, n) ==>
      Look(d.output, n) == Some(before[n]) || Look(d.backup, n) == Some(before[n])
  }

  /** Where a name stands once `published` were installed and `displaced` set aside. */
  ghost predicate InFlightAt(before: Tree, staged: Tree, d: Disk, published: set<Name>, displaced: set<Name>, n: Name) {
    && (n in published ==> n in staged && Look(d.output, n) == Some(staged[n]))
    && (n !in published && n in displaced ==> n !in d.output)
    && (n !in published && n !in displaced ==> Look(d.output, n) == Look(before, n))
    && (n in displaced ==> Exists(before, n) && Look(d.backup, n) == Some(before[n]))
    && (n !in displaced ==> n !in d.backup)
    && (n in published && n !in displaced ==> !Exists(before, n))
  }

  ghost predicate InFlight(before: Tree, staged: Tree, d: Disk, published: set<Name>, displaced: set<Name>) {
    forall n :: InFlightAt(before, staged, d, published, displaced, n)
  }

  /** Where a name stands during a rollback: `standing` still holds new content and
      `restored` has its old content back. */
  ghost predicate UndoingAt(
    before: Tree, staged: Tree, d: Disk, published: set<Name>, displaced: set<Name>,
    standing: set<Name>, restored: set<Name>, n: Name)
  {
    && (n in standing ==> n in published && n !in restored && n in staged && Look(d.output, n) == Some(staged[n]))
    && (n in displaced ==> Exists(before, n))
    && (n in restored ==> n in displaced && n !in d.backup && Look(d.output, n) == Some(before[n]))
    && (n in displaced && n !in restored ==> Look(d.backup, n) == Some(before[n]))
    && (n in displaced && n !in restored && n !in standing ==> n !in d.output)
    && (n !in displaced ==> n !in d.backup)
    && (n !in displaced && n in published ==> !Exists(before, n) && (n !in standing ==> n !in d.output))
    && (n !in displaced && n !in published ==> Look(d.output, n) == Look(before, n))
  }

  ghost predicate Undoing(
    before: Tree, staged: Tree, d: Disk, published: set<Name>, displaced: set<Name>,
    standing: set<Name>, restored: set<Name>)
  {
    forall n :: UndoingAt(before, staged, d, published, displaced, standing, restored, n)
  }

  /** Where a name stands after a rollback from `installed` that reports `unrestored` and
      `unremoved`. */
  ghost predicate RestoredAt(
    before: Tree, staged: Tree, d: Disk, planned: set<Name>, installed: set<Name>,
    unrestored: set<Name>, unremoved: set<Name>, n: Name)
  {
    && (n in unrestored <==> n in d.backup)
    && (n in unrestored ==> n in planned && Exists(before, n) && d.backup[n] == before[n])
    && (n in unremoved ==> n in planned && n in staged && Look(d.output, n) == Some(staged[n]))
    && (n in unremoved && n !in unrestored ==> !Exists(before, n))
    && (n in unrestored && n !in unremoved ==> n !in d.output)
    && (n !in unrestored && n !in unremoved ==>
          if n in installed && Dangling(before, n) then n !in d.output else Look(d.output, n) == Look(before, n))
  }

  ghost predicate Restored(
    before: Tree, staged: Tree, d: Disk, planned: set<Name>, installed: set<Name>,
    unrestored: set<Name>, unremoved: set<Name>)
  {
    && installed <= planned
    && forall n :: RestoredAt(before, staged, d, planned, installed, unrestored, unremoved, n)
  }

  /** The links to nowhere a set was installed over. */
  function Overwritten(before: Tree, installed: set<Name>): set<Name> {
    set n | n in installed && Dangling(before, n)
  }

  /** Setting one visible entry aside keeps the account of the run accurate. */
  lemma MovingAsideStaysInFlight(
    before: Tree, staged: Tree, d: Disk, published: set<Name>, displaced: set<Name>, n: Name)
    requires InFlight(before, staged, d, published, displaced)
    requires n !in published && Exists(d.output, n)
    ensures n !in displaced
    ensures InFlight(before, staged, Disk(d.output - {n}, d.backup[n := d.output[n]]), published, displaced + {n})
  {
    assert InFlightAt(before, staged, d, published, displaced, n);
    var d' := Disk(d.output - {n}, d.backup[n := d.output[n]]);
    forall k
      ensures InFlightAt(before, staged, d', published, displaced + {n}, k)
    {
      assert InFlightAt(before, staged, d, published, displaced, k);
    }
  }

  /** So does installing one staged file over a name that holds nothing visible. */
  lemma InstallingStaysInFlight(
    before: Tree, staged: Tree, d: Disk, published: set<Name>, displaced: set<Name>, n: Name)
    requires InFlight(before, staged, d, published, displaced)
    requires n !in published && n in staged && (n in displaced || !Exists(before, n))
    ensures InFlight(before, staged, d.(output := d.output[n := staged[n]]), published + {n}, displaced)
  {
    var d' := d.(output := d.output[n := staged[n]]);
    forall k
      ensures InFlightAt(before, staged, d', published + {n}, displaced, k)
    {
      assert InFlightAt(before, staged, d, published, displaced, k);
    }
  }

  /** Nothing visible of the previous generation is lost while the set is moving in. */
  lemma InFlightConserves(before: Tree, staged: Tree, d: Disk, published: set<Name>, displaced: set<Name>)
    requires InFlight(before, staged, d, published, displaced)
    ensures Conserves(before, d)
  {
    forall n | Exists(before, n)
      ensures Look(d.output, n) == Some(before[n]) || Look(d.backup, n) == Some(before[n])
    {
      assert InFlightAt(before, staged, d, published, displaced, n);
    }
  }

  /** Once everything planned is installed, the output is the old tree overwritten by the set. */
  lemma InFlightCommits(before: Tree, staged: Tree, d: Disk, published: set<Name>, displaced: set<Name>)
    requires InFlight(before, staged, d, published, displaced)
    requires displaced <= published
    ensures published <= staged.Keys && d.output == before + Restrict(staged, published)
  {
    forall n
      ensures Look(d.output, n) == Look(before + Restrict(staged, published), n)
      ensures n in published ==> n in staged
    {
      assert InFlightAt(before, staged, d, published, displaced, n);
    }
    SameLooksSameMap(d.output, before + Restrict(staged, published));
  }

  lemma FailureStartsUndoing(before: Tree, staged: Tree, d: Disk, published: set<Name>, displaced: set<Name>)
    requires InFlight(before, staged, d, published, displaced)
    ensures Undoing(before, staged, d, published, displaced, published, {})
  {
    forall n
      ensures UndoingAt(before, staged, d, published, displaced, published, {}, n)
    {
      assert InFlightAt(before, staged, d, published, displaced, n);
    }
  }

  lemma UnlinkingKeepsUndoing(
    before: Tree, staged: Tree, d: Disk, published: set<Name>, displaced: set<Name>,
    standing: set<Name>, restored: set<Name>, n: Name)
    requires Undoing(before, staged, d, published, displaced, standing, restored)
    requires n in standing
    ensures Undoing(before, staged, d.(output := d.output - {n}), published, displaced, standing - {n}, restored)
  {
    var d' := d.(output := d.output - {n});
    forall k
      ensures UndoingAt(before, staged, d', published, displaced, standing - {n}, restored, k)
    {
      assert UndoingAt(before, staged, d, published, displaced, standing, restored, k);
    }
  }

  /** Putting the old file back also accounts for a new one that could not be unlinked. */
  lemma RestoringKeepsUndoing(
    before: Tree, staged: Tree, d: Disk, published: set<Name>, displaced: set<Name>,
    standing: set<Name>, restored: set<Name>, n: Name)
    requires Undoing(before, staged, d, published, displaced, standing, restored)
    requires n in displaced && n !in restored
    ensures n in d.backup
    ensures Undoing(before, staged, Disk(d.output[n := d.backup[n]], d.backup - {n}),
                    published, displaced, standing - {n}, restored + {n})
  {
    assert UndoingAt(before, staged, d, published, displaced, standing, restored, n);
    var d' := Disk(d.output[n := d.backup[n]], d.backup - {n});
    forall k
      ensures UndoingAt(before, staged, d', published, displaced, standing - {n}, restored + {n}, k)
    {
      assert UndoingAt(before, staged, d, published, displaced, standing, restored, k);
    }
  }

  /** Nor is anything lost on the way back, whatever the rollback fails at. */
  lemma UndoingConserves(
    before: Tree, staged: Tree, d: Disk, published: set<Name>, displaced: set<Name>,
    standing: set<Name>, restored: set<Name>)
    requires Undoing(before, staged, d, published, displaced, standing, restored)
    ensures Conserves(before, d)
  {
    forall n | Exists(before, n)
      ensures Look(d.output, n) == Some(before[n]) || Look(d.backup, n) == Some(before[n])
    {
      assert UndoingAt(before, staged, d, published, displaced, standing, restored, n);
    }
  }

  lemma UndoneIsRestored(
    before: Tree, staged: Tree, d: Disk, published: set<Name>, displaced: set<Name>,
    standing: set<Name>, restored: set<Name>, planned: set<Name>)
    requires Undoing(before, staged, d, published, displaced, standing, restored)
    requires published <= planned && displaced <= planned
    ensures Restored(before, staged, d, planned, published, displaced - restored, standing)
  {
    forall n
      ensures RestoredAt(before, staged, d, planned, published, displaced - restored, standing, n)
    {
      assert UndoingAt(before, staged, d, published, displaced, standing, restored, n);
    }
  }

  lemma WiderPlanIsRestored(
    before: Tree, staged: Tree, d: Disk, near: set<Name>, planned: set<Name>, installed: set<Name>,
    unrestored: set<Name>, unremoved: set<Name>)
    requires Restored(before, staged, d, near, installed, unrestored, unremoved)
    requires near <= planned
    ensures Restored(before, staged, d, planned, installed, unrestored, unremoved)
  {
    forall n
      ensures RestoredAt(before, staged, d, planned, installed, unrestored, unremoved, n)
    {
      assert RestoredAt(before, staged, d, near, installed, unrestored, unremoved, n);
    }
  }

  lemma NothingOverwritten(before: Tree)
    ensures before - Overwritten(before, {}) == before && Names([]) == {}
  {
  }

  /** A rollback that reports nothing left behind returns the directory it was given less the
      links to nowhere it had installed over, so exactly when there was none it returns it whole;
      `preflight_writable` refuses such links. */
  lemma FullRollbackRestoresOutput(before: Tree, staged: Tree, d: Disk, planned: set<Name>, installed: set<Name>)
    requires Restored(before, staged, d, planned, installed, {}, {})
    ensures d.output == before - Overwritten(before, installed) && d.backup == map[]
    ensures d.output == before <==> forall n :: n in installed ==> !Dangling(before, n)
  {
    var lost := Overwritten(before, installed);
    forall n
      ensures Look(d.output, n) == Look(before - lost, n) && n !in d.backup
    {
      assert RestoredAt(before, staged, d, planned, installed, {}, {}, n);
    }
    SameLooksSameMap(d.output, before - lost);
    if n :| n in installed && Dangling(before, n) {
      assert n in before && n !in d.output;
    } else {
      assert lost == {};
      assert before - lost == before;
    }
  }

  /** Whatever a rollback could not undo is named by its report, and only that. */
  lemma PartialRollbackReportIsExact(
    before: Tree, staged: Tree, d: Disk, planned: set<Name>, installed: set<Name>,
    unrestored: set<Name>, unremoved: set<Name>)
    requires Restored(before, staged, d, planned, installed, unrestored, unremoved)
    requires forall n :: n in installed ==> !Dangling(before, n)
    ensures unrestored == d.backup.Keys
    ensures forall n :: n in unrestored ==> n in before && d.backup[n] == before[n]
    ensures forall n :: n in unremoved ==> n in staged && Look(d.output, n) == Some(staged[n])
    ensures forall n :: Look(d.output, n) != Look(before, n) ==> n in unrestored || n in unremoved
    ensures forall n :: n in before && n !in d.output ==> n in unrestored
    ensures forall n :: n in d.output && n !in before ==> n in unremoved
  {
    forall n
      ensures n in unrestored <==> n in d.backup
      ensures n in unrestored ==> n in before && d.backup[n] == before[n]
      ensures n in unremoved ==> n in staged && Look(d.output, n) == Some(staged[n])
      ensures Look(d.output, n) != Look(before, n) ==> n in unrestored || n in unremoved
      ensures n in before && n !in d.output ==> n in unrestored
      ensures n in d.output && n !in before ==> n in unremoved
    {
      assert RestoredAt(before, staged, d, planned, installed, unrestored, unremoved, n);
    }
  }

  lemma NamesGrow(s: seq<Name>, n: Name)
    ensures Names(s + [n]) == Names(s) + {n}
    ensures NoDup(s) && n !in Names(s) ==> NoDup(s + [n])
  {
    var t := s + [n];
    forall i | 0 <= i < |s|
      ensures s[i] in Names(t) && s[i] in Names(s)
    {
      assert t[i] == s[i];
    }
    assert t[|s|] == n;
  }

  lemma NamesShrink(s: seq<Name>, i: nat)
    requires NoDup(s) && i < |s|
    ensures Names(s[i..]) == Names(s[i + 1..]) + {s[i]} && s[i] !in Names(s[i + 1..])
    ensures Names(s[..i + 1]) == Names(s[..i]) + {s[i]} && s[i] !in Names(s[..i])
  {
    assert s[i..] == [s[i]] + s[i + 1..];
    assert s[..i + 1] == s[..i] + [s[i]];
  }

  /** None of these operations is refused. */
  ghost predicate Granted(refuses: nat -> bool, from: nat, to: nat) {
    forall t :: from <= t < to ==> !refuses(t)
  }

  /** No two of them are. */
  ghost predicate AllButOne(refuses: nat -> bool, from: nat, to: nat) {
    forall t, u :: from <= t < u < to ==> !refuses(t) || !refuses(u)
  }

  lemma GrantedThen(refuses: nat -> bool, from: nat, mid: nat, to: nat)
    requires from <= mid <= to
    ensures Granted(refuses, from, mid) && Granted(refuses, mid, to) ==> Granted(refuses, from, to)
    ensures Granted(refuses, from, mid) && AllButOne(refuses, mid, to) ==> AllButOne(refuses, from, to)
    ensures AllButOne(refuses, from, mid) && Granted(refuses, mid, to) ==> AllButOne(refuses, from, to)
  {
  }

  /** All granted up to the removal of the backup, and the last one too. */
  lemma AllButTheRemoval(refuses: nat -> bool, from: nat, to: nat)
    requires from + 2 <= to
    ensures Granted(refuses, from, to - 2) && !refuses(to - 1) ==> AllButOne(refuses, from, to)
  {
  }

  lemma GrantedNothing(refuses: nat -> bool, from: nat)
    ensures Granted(refuses, from, from)
  {
  }

  lemma GrantedToo(refuses: nat -> bool, from: nat, to: nat)
    ensures Granted(refuses, from, to) && !refuses(to) ==> Granted(refuses, from, to + 1)
    ensures AllButOne(refuses, from, to) && !refuses(to) ==> AllButOne(refuses, from, to + 1)
  {
  }

  /** The names among the first `n` whose operation, one a tick from this one on, was refused. */
  function RefusedAmong(refuses: nat -> bool, names: seq<Name>, from: nat, n: nat): set<Name>
    requires n <= |names|
  {
    set m | 0 <= m < n && refuses(from + m) :: names[m]
  }

  /** And those whose operation was granted. */
  function GrantedAmong(refuses: nat -> bool, names: seq<Name>, from: nat, n: nat): set<Name>
    requires n <= |names|
  {
    set m | 0 <= m < n && !refuses(from + m) :: names[m]
  }

  lemma OneMoreAmong(refuses: nat -> bool, names: seq<Name>, from: nat, n: nat)
    requires n < |names|
    ensures RefusedAmong(refuses, names, from, n + 1)
         == RefusedAmong(refuses, names, from, n) + if refuses(from + n) then {names[n]} else {}
    ensures GrantedAmong(refuses, names, from, n + 1)
         == GrantedAmong(refuses, names, from, n) + if refuses(from + n) then {} else {names[n]}
  {
  }

  /** `[u for u in names if u != dropped]`. */
  function Without(names: seq<Name>, dropped: Name): (r: seq<Name>)
    ensures Names(r) == Names(names) - {dropped}
    ensures NoDup(names) ==> NoDup(r)
  {
    if names == [] then []
    else
      var rest := Without(names[1..], dropped);
      assert names == [names[0]] + names[1..] && Names(names) == {names[0]} + Names(names[1..]);
      if names[0] == dropped then rest
      else
        var kept := [names[0]] + rest;
        assert Names(kept) == {names[0]} + Names(rest);
        assert forall i :: 0 <= i < |rest| ==> rest[i] in Names(rest);
        kept
  }

  function Names(s: seq<Name>): set<Name> {
    set n | n in s
  }

  /** The output directory, the backup directory beside it and the staging directory. Any
      operation may be refused: `refuses` is an arbitrary schedule of faults, read at the tick
      the operation is issued. `absent` counts the path components of the output that do not exist
      yet. `lossless` says whether every operation since `generation` was recorded
      left all of that generation in the output or the backup. */
  class Host {
    var output: Tree
    var backup: Tree
    var staging: Tree
    var absent: nat
    var tick: nat
    const refuses: nat -> bool
    const stubborn: nat -> set<Name>
    ghost var generation: Tree
    ghost var lossless: bool

    ghost function Now(): Disk
      reads this
    {
      Disk(output, backup)
    }

    constructor (output: Tree, staging: Tree, absent: nat, refuses: nat -> bool, stubborn: nat -> set<Name>)
      ensures this.output == output && this.staging == staging && this.backup == map[] && this.absent == absent
      ensures this.refuses == refuses && this.stubborn == stubborn
    {
      this.output, this.staging, this.backup, this.absent, this.tick := output, staging, map[], absent, 0;
      this.refuses, this.stubborn, this.generation, this.lossless := refuses, stubborn, output, true;
    }

    /** `os.replace(target, kept)`. */
    method MoveAside(n: Name) returns (ok: bool)
      modifies this`output, this`backup, this`staging, this`tick, this`lossless
      ensures tick == old(tick) + 1 && (ok <==> !refuses(old(tick)) && n in old(output))
      ensures ok ==> output == old(output) - {n} && backup == old(backup)[n := old(output)[n]]
      ensures !ok ==> output == old(output) && backup == old(backup)
      ensures staging == old(staging)
      ensures lossless == (old(lossless) && Conserves(generation, Now()))
    {
      ok := !refuses(tick) && n in output;
      if ok {
        backup := backup[n := output[n]];
        output := output - {n};
      }
      tick, lossless := tick + 1, lossless && Conserves(generation, Now());
    }

    /** `os.replace(path, target)` from staging. */
    method Install(n: Name) returns (ok: bool)
      modifies this`output, this`backup, this`staging, this`tick, this`lossless
      ensures tick == old(tick) + 1 && (ok <==> !refuses(old(tick)) && n in old(staging))
      ensures ok ==> output == old(output)[n := old(staging)[n]] && staging == old(staging) - {n}
      ensures !ok ==> output == old(output) && staging == old(staging)
      ensures backup == old(backup)
      ensures lossless == (old(lossless) && Conserves(generation, Now()))
    {
      ok := !refuses(tick) && n in staging;
      if ok {
        output := output[n := staging[n]];
        staging := staging - {n};
      }
      tick, lossless := tick + 1, lossless && Conserves(generation, Now());
    }

    /** `target.unlink()`. */
    method Unlink(n: Name) returns (ok: bool)
      modifies this`output, this`backup, this`staging, this`tick, this`lossless
      ensures tick == old(tick) + 1 && (ok <==> !refuses(old(tick)) && n in old(output))
      ensures ok ==> output == old(output) - {n}
      ensures !ok ==> output == old(output)
      ensures staging == old(staging) && backup == old(backup)
      ensures lossless == (old(lossless) && Conserves(generation, Now()))
    {
      ok := !refuses(tick) && n in output;
      if ok {
        output := output - {n};
      }
      tick, lossless := tick + 1, lossless && Conserves(generation, Now());
    }

    /** `os.replace(kept, target)`. */
    method Restore(n: Name) returns (ok: bool)
      modifies this`output, this`backup, this`staging, this`tick, this`lossless
      ensures tick == old(tick) + 1 && (ok <==> !refuses(old(tick)) && n in old(backup))
      ensures ok ==> output == old(output)[n := old(backup)[n]] && backup == old(backup) - {n}
      ensures !ok ==> output == old(output) && backup == old(backup)
      ensures staging == old(staging)
      ensures lossless == (old(lossless) && Conserves(generation, Now()))
    {
      ok := !refuses(tick) && n in backup;
      if ok {
        output := output[n := backup[n]];
        backup := backup - {n};
      }
      tick, lossless := tick + 1, lossless && Conserves(generation, Now());
    }

    /** Remove the backup tree as far as the host allows, and ask whether it is still there; the
        asking may raise. */
    method DiscardBackup() returns (leftover: bool, raised: bool)
      modifies this`output, this`backup, this`staging, this`tick, this`lossless
      ensures raised <==> refuses(old(tick) + 1)
      ensures leftover <==> !raised && (refuses(old(tick)) || backup != map[])
      ensures backup == Restrict(old(backup), stubborn(old(tick)))
      ensures output == old(output) && staging == old(staging) && tick == old(tick) + 2
      ensures lossless == old(lossless)
    {
      backup := Restrict(backup, stubborn(tick));
      raised := refuses(tick + 1);
      leftover := !raised && (refuses(tick) || backup != map[]);
      tick := tick + 2;
    }

    /** `out_dir.mkdir(parents=True)`, from the outermost missing directory inwards. */
    method MakeOutput() returns (ok: bool)
      modifies this`absent, this`tick
      ensures absent <= old(absent) && (ok <==> absent == 0)
      ensures tick >= old(tick) && (!ok ==> tick > old(tick) && refuses(tick - 1))
      ensures ok ==> Granted(refuses, old(tick), tick)
    {
      ok := true;
      while absent > 0
        invariant ok && absent <= old(absent) && tick >= old(tick) && Granted(refuses, old(tick), tick)
      {
        tick := tick + 1;
        if refuses(tick - 1) {
          return false;
        }
        absent := absent - 1;
      }
    }

    /** `rmdir` over the directories this call made, from the innermost outwards; one that is not
        empty stays, and what the host refuses is left. */
    method RemoveCreated(created: nat)
      requires absent == 0
      modifies this`absent, this`tick
      ensures absent <= created && tick >= old(tick)
      ensures absent < created && output == map[] ==> exists t :: old(tick) <= t < tick && refuses(t)
      ensures output != map[] ==> absent == 0
    {
      for i := 0 to created
        invariant absent <= i && tick >= old(tick)
        invariant absent < i && output == map[] ==> exists t :: old(tick) <= t < tick && refuses(t)
        invariant output != map[] ==> absent == 0
      {
        if !refuses(tick) && output == map[] && absent == i {
          absent := absent + 1;
        }
        tick := tick + 1;
      }
    }

    /** Install one staged file, setting aside whatever `exists` sees at its name. */
    method MoveOne(
      target: Name, ghost before: Tree, ghost source: Tree, ghost published: set<Name>, ghost displaced: set<Name>)
      returns (ok: bool, aside: bool)
      requires InFlight(before, source, Now(), published, displaced)
      requires target !in published && staging == source - published && generation == before
      modifies this`output, this`backup, this`staging, this`tick, this`lossless
      ensures InFlight(before, source, Now(),
                       if ok then published + {target} else published,
                       if aside then displaced + {target} else displaced)
      ensures aside ==> target !in displaced
      ensures ok ==> staging == source - (published + {target})
      ensures old(lossless) ==> lossless
      ensures tick > old(tick) && (!ok && target in source ==> refuses(tick - 1))
      ensures ok ==> Granted(refuses, old(tick), tick)
    {
      assert InFlightAt(before, source, Now(), published, displaced, target);
      aside := false;
      ghost var D := displaced;
      tick := tick + 1;
      if refuses(tick - 1) {
        return false, false;
      }
      if Exists(output, target) {
        MovingAsideStaysInFlight(before, source, Now(), published, D, target);
        ok := MoveAside(target);
        if !ok {
          InFlightConserves(before, source, Now(), published, D);
          return;
        }
        aside, D := true, D + {target};
        InFlightConserves(before, source, Now(), published, D);
      }
      if target in source {
        InstallingStaysInFlight(before, source, Now(), published, D, target);
      }
      ok := Install(target);
      InFlightConserves(before, source, Now(), if ok then published + {target} else published, D);
    }

    /** The forward half, up to the first file the host refuses. */
    method MoveIn(staged: seq<Name>) returns (ok: bool, published: seq<Name>, displaced: seq<Name>)
      requires NoDup(staged) && backup == map[] && generation == output
      modifies this`output, this`backup, this`staging, this`tick, this`lossless
      ensures ok ==> published == staged && Names(displaced) <= Names(published)
      ensures |published| <= |staged| && published == staged[..|published|]
      ensures Names(published) + Names(displaced) <= Names(staged) && NoDup(published) && NoDup(displaced)
      ensures InFlight(old(output), old(staging), Now(), Names(published), Names(displaced))
      ensures old(lossless) ==> lossless
      ensures tick >= old(tick)
      ensures !ok && Names(staged) <= old(staging).Keys ==> tick > old(tick) && refuses(tick - 1)
      ensures ok ==> Granted(refuses, old(tick), tick)
    {
      published, displaced := [], [];
      ok := true;
      ghost var before, source := output, staging;
      for i := 0 to |staged|
        invariant ok && published == staged[..i] && NoDup(displaced)
        invariant Names(displaced) <= Names(published) <= Names(staged)
        invariant InFlight(before, source, Now(), Names(published), Names(displaced))
        invariant staging == source - Names(published)
        invariant old(lossless) ==> lossless
        invariant tick >= old(tick) && Granted(refuses, old(tick), tick)
      {
        var target := staged[i];
        NamesGrow(published, target);
        NamesGrow(displaced, target);
        assert target in Names(staged);
        assert staged[..i + 1] == staged[..i] + [target];
        var aside;
        ok, aside := MoveOne(target, before, source, Names(published), Names(displaced));
        if aside {
          displaced := displaced + [target];
        }
        if !ok {
          return;
        }
        published := published + [target];
      }
      assert staged[..|staged|] == staged;
    }

    /** Take back what was installed; what the host refuses to unlink is returned. */
    method UnlinkAll(published: seq<Name>, ghost displaced: set<Name>, ghost before: Tree, ghost source: Tree)
      returns (unremoved: seq<Name>)
      requires NoDup(published) && generation == before
      requires InFlight(before, source, Now(), Names(published), displaced)
      modifies this`output, this`backup, this`staging, this`tick, this`lossless
      ensures Undoing(before, source, Now(), Names(published), displaced, Names(unremoved), {})
      ensures NoDup(unremoved)
      ensures old(lossless) ==> lossless
      ensures staging == old(staging) && tick == old(tick) + |published|
      ensures Names(unremoved) == RefusedAmong(refuses, published, old(tick), |published|)
    {
      unremoved := [];
      ghost var P := Names(published);
      ghost var standing := P;
      FailureStartsUndoing(before, source, Now(), P, displaced);
      for i := 0 to |published|
        invariant Undoing(before, source, Now(), P, displaced, standing, {})
        invariant standing == Names(unremoved) + Names(published[i..])
        invariant Names(unremoved) <= Names(published[..i]) && NoDup(unremoved)
        invariant old(lossless) ==> lossless
        invariant staging == old(staging) && tick == old(tick) + i
        invariant Names(unremoved) == RefusedAmong(refuses, published, old(tick), i)
      {
        var target := published[i];
        OneMoreAmong(refuses, published, old(tick), i);
        NamesShrink(published, i);
        NamesGrow(unremoved, target);
        assert UndoingAt(before, source, Now(), P, displaced, standing, {}, target);
        UnlinkingKeepsUndoing(before, source, Now(), P, displaced, standing, {}, target);
        var ok := Unlink(target);
        if ok {
          standing := standing - {target};
        } else {
          unremoved := unremoved + [target];
        }
        UndoingConserves(before, source, Now(), P, displaced, standing, {});
      }
      assert standing == Names(unremoved);
    }

    /** Put back what was displaced, which also accounts for a new file left at that name. */
    method RestoreAll(
      displaced: seq<Name>, leftStanding: seq<Name>, ghost published: set<Name>, ghost before: Tree, ghost source: Tree)
      returns (unrestored: seq<Name>, unremoved: seq<Name>)
      requires NoDup(displaced) && NoDup(leftStanding) && generation == before
      requires Undoing(before, source, Now(), published, Names(displaced), Names(leftStanding), {})
      modifies this`output, this`backup, this`staging, this`tick, this`lossless
      ensures Restored(
        before, source, Now(), published + Names(displaced), published, Names(unrestored), Names(unremoved))
      ensures old(lossless) ==> lossless
      ensures staging == old(staging) && tick == old(tick) + |displaced|
      ensures Names(unrestored) == RefusedAmong(refuses, displaced, old(tick), |displaced|)
      ensures Names(unremoved) == Names(leftStanding) - GrantedAmong(refuses, displaced, old(tick), |displaced|)
    {
      unrestored, unremoved := [], leftStanding;
      ghost var D := Names(displaced);
      ghost var restored: set<Name> := {};
      for i := 0 to |displaced|
        invariant Undoing(before, source, Now(), published, D, Names(unremoved), restored)
        invariant Names(unrestored) <= Names(displaced[..i]) && restored == Names(displaced[..i]) - Names(unrestored)
        invariant old(lossless) ==> lossless
        invariant staging == old(staging) && tick == old(tick) + i
        invariant Names(unrestored) == RefusedAmong(refuses, displaced, old(tick), i)
        invariant Names(unremoved) == Names(leftStanding) - GrantedAmong(refuses, displaced, old(tick), i)
      {
        var target := displaced[i];
        OneMoreAmong(refuses, displaced, old(tick), i);
        NamesShrink(displaced, i);
        NamesGrow(unrestored, target);
        RestoringKeepsUndoing(before, source, Now(), published, D, Names(unremoved), restored, target);
        var ok := Restore(target);
        if ok {
          unremoved := Without(unremoved, target);
          restored := restored + {target};
        } else {
          unrestored := unrestored + [target];
        }
        UndoingConserves(before, source, Now(), published, D, Names(unremoved), restored);
      }
      assert displaced[..|displaced|] == displaced;
      assert D - restored == Names(unrestored);
      UndoneIsRestored(before, source, Now(), published, D, Names(unremoved), restored, published + D);
    }

    /** The whole rollback: unlink what was installed, then put back what was displaced. */
    method UndoAll(
      published: seq<Name>, displaced: seq<Name>, staged: seq<Name>, ghost before: Tree, ghost source: Tree)
      returns (unrestored: seq<Name>, unremoved: seq<Name>)
      requires NoDup(published) && NoDup(displaced) && generation == before
      requires Names(published) + Names(displaced) <= Names(staged)
      requires InFlight(before, source, Now(), Names(published), Names(displaced))
      modifies this`output, this`backup, this`staging, this`tick, this`lossless
      ensures Restored(before, source, Now(), Names(staged), Names(published), Names(unrestored), Names(unremoved))
      ensures old(lossless) ==> lossless
      ensures staging == old(staging) && tick == old(tick) + |published| + |displaced|
      ensures Names(unrestored) == RefusedAmong(refuses, displaced, old(tick) + |published|, |displaced|)
      ensures Names(unremoved) == RefusedAmong(refuses, published, old(tick), |published|)
                                - GrantedAmong(refuses, displaced, old(tick) + |published|, |displaced|)
      ensures unrestored != [] || unremoved != [] ==> exists t :: old(tick) <= t < tick && refuses(t)
    {
      var leftStanding := UnlinkAll(published, Names(displaced), before, source);
      unrestored, unremoved := RestoreAll(displaced, leftStanding, Names(published), before, source);
      WiderPlanIsRestored(before, source, Now(), Names(published) + Names(displaced), Names(staged),
                          Names(published), Names(unrestored), Names(unremoved));
      assert unrestored != [] ==> unrestored[0] in Names(unrestored);
      assert unremoved != [] ==> unremoved[0] in Names(unremoved);
    }

    /** The way back, down to the directories this call made and the backup. */
    method Retreat(
      published: seq<Name>, displaced: seq<Name>, staged: seq<Name>, created: nat,
      ghost before: Tree, ghost source: Tree)
      returns (outcome: Outcome, leftover: bool)
      requires NoDup(published) && NoDup(displaced) && generation == before && absent == 0
      requires Names(published) + Names(displaced) <= Names(staged)
      requires InFlight(before, source, Now(), Names(published), Names(displaced))
      modifies this
      ensures generation == old(generation) && (old(lossless) ==> lossless) && tick >= old(tick)
      ensures outcome.RolledBack? || outcome.PartlyRolledBack?
      ensures tick >= old(tick) + 2 || outcome.PartlyRolledBack?
      ensures outcome.RolledBack? ==> (leftover <==> !refuses(tick - 1) && (refuses(tick - 2) || backup != map[]))
      ensures outcome.RolledBack? ==>
        Restored(before, source, Now().(backup := map[]), Names(staged), Names(published), {}, {})
      ensures outcome.RolledBack? && absent < created && output == map[] ==>
        exists u :: old(tick) <= u < tick && refuses(u)
      ensures outcome.RolledBack? && output == map[] ==> absent <= created
      ensures outcome.PartlyRolledBack? ==>
        && (outcome.unrestored != [] || outcome.unremoved != []) && !leftover
        && Restored(before, source, Now(), Names(staged), Names(published),
                    Names(outcome.unrestored), Names(outcome.unremoved))
        && exists u :: old(tick) <= u < tick && refuses(u)
    {
      hide InFlight, Undoing, Restored, Conserves, NoDup, Names;
      leftover := false;
      var unrestored, unremoved := UndoAll(published, displaced, staged, before, source);
      if unrestored != [] || unremoved != [] {
        return PartlyRolledBack(unrestored, unremoved), false;
      }
      outcome := RolledBack;
      NothingOverwritten(before);
      FullRollbackRestoresOutput(before, source, Now(), Names(staged), Names(published));
      assert Now() == Now().(backup := map[]);
      RemoveCreated(created);
      var raised;
      leftover, raised := DiscardBackup();
    }

    /** Publish `staged`: the whole set, or what was there before, or a report of exactly what
        could not be put back. `preflight_unique` is what makes the names distinct. `reached` is how
        many were installed before the first refusal. */
    method Publish(staged: seq<Name>) returns (outcome: Outcome, leftover: bool, ghost reached: nat)
      requires NoDup(staged) && backup == map[]
      modifies this
      ensures generation == old(output) && lossless && reached <= |staged| && tick > old(tick)
      ensures outcome.Published? || outcome.Unconfirmed? ==>
        && Names(staged) <= old(staging).Keys && reached == |staged|
        && output == old(output) + Restrict(old(staging), Names(staged)) && absent == 0
        && (outcome.Unconfirmed? <==> refuses(tick - 1))
      ensures outcome.Published? ==> outcome.files == staged
      ensures outcome.Published? ==>
        tick >= old(tick) + 2 && Granted(refuses, old(tick), tick - 2) && !refuses(tick - 1)
      ensures outcome.RolledBack? ==>
        && output == old(output) - Overwritten(old(output), Names(staged[..reached]))
        && (output == old(output) <==> forall n :: n in Names(staged[..reached]) ==> !Dangling(old(output), n))
      ensures outcome.PartlyRolledBack? ==>
        && (outcome.unrestored != [] || outcome.unremoved != [])
        && Restored(old(output), old(staging), Now(), Names(staged), Names(staged[..reached]),
                    Names(outcome.unrestored), Names(outcome.unremoved))
      ensures leftover ==> !outcome.PartlyRolledBack? && !outcome.Unconfirmed?
      ensures outcome.Published? ==> tick >= 2 && (leftover <==> refuses(tick - 2) || backup != map[])
      ensures !outcome.Published? && Names(staged) <= old(staging).Keys ==>
        exists t :: old(tick) <= t < tick && refuses(t)
      ensures outcome.PartlyRolledBack? && Names(staged) <= old(staging).Keys ==>
        exists t, u :: old(tick) <= t < u < tick && refuses(t) && refuses(u)
      ensures outcome.RolledBack? && absent != old(absent) && old(output) == map[]
              && Names(staged) <= old(staging).Keys ==>
        || (exists t, u :: old(tick) <= t < u < tick && refuses(t) && refuses(u))
        || (0 < absent < old(absent) && refuses(tick - 1) && reached == 0)
    {
      hide InFlight, Undoing, Restored, Overwritten, Conserves, NoDup, Names, Restrict, Dangling;
      leftover, reached := false, 0;
      generation, lossless := output, true;
      ghost var before, source := output, staging;
      var created := absent;
      assert staged[..0] == [];
      NothingOverwritten(before);
      tick := tick + 1;
      if refuses(tick - 1) {
        return RolledBack, false, 0;
      }
      var made := MakeOutput();
      if !made {
        return RolledBack, false, 0;
      }
      var ok, published, displaced := MoveIn(staged);
      reached := |published|;
      if !ok {
        assert Names(staged) <= source.Keys ==> refuses(tick - 1);
        outcome, leftover := Retreat(published, displaced, staged, created, before, source);
        if outcome.RolledBack? {
          FullRollbackRestoresOutput(before, source, Now().(backup := map[]), Names(staged), Names(published));
          assert before == map[] ==> output == map[];
        }
        return;
      }
      var raised;
      assert staged[..|staged|] == staged;
      InFlightCommits(before, source, Now(), Names(staged), Names(displaced));
      leftover, raised := DiscardBackup();
      outcome := if raised then Unconfirmed else Published(published);
    }
  }
}
