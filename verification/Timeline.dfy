/** Overlapping acquisition windows. */
module Timeline {
  import opened Wrappers
  import opened Plans

  datatype Window = Window(name: string, start: real, end: real)

  datatype Conflict = Conflict(a: string, b: string, overlap: real)

  function Max(x: real, y: real): real {
    if x >= y then x else y
  }

  function Min(x: real, y: real): real {
    if x <= y then x else y
  }

  function Shared(a: Window, b: Window): real {
    Min(a.end, b.end) - Max(a.start, b.start)
  }

  predicate Overlap(a: Window, b: Window) {
    Shared(a, b) > 0.0
  }

  function WindowOf(ev: Event): Window
    requires ev.duration.Some?
  {
    Window(ev.timestamp.text, ev.timestamp.seconds, ev.timestamp.seconds + ev.duration.value)
  }

  /** The acquisitions of known length, in plan order. */
  function Windows(events: seq<Event>): seq<Window> {
    if events == [] then []
    else
      var ev := events[|events| - 1];
      Windows(events[..|events| - 1])
      + (if ev.kind.Acquisition? && ev.duration.Some? then [WindowOf(ev)] else [])
  }

  /** The acquisitions of unknown length. */
  function Unmeasured(events: seq<Event>): seq<string> {
    if events == [] then []
    else
      var ev := events[|events| - 1];
      Unmeasured(events[..|events| - 1]) + (if ev.kind.Acquisition?
        && ev.duration.None? then [ev.timestamp.text] else [])
  }

  predicate Before(p: (nat, nat), q: (nat, nat)) {
    p.0 < q.0 || (p.0 == q.0 && p.1 < q.1)
  }

  /** Every overlapping pair of windows, each once, in lexicographic order of the indices. */
  ghost predicate Listing(ws: seq<Window>, pairs: seq<(nat, nat)>) {
    && (forall k, l :: 0 <= k < l < |pairs| ==> Before(pairs[k], pairs[l]))
    && (forall i: nat, j: nat :: (i, j) in pairs <==> i < j < |ws| && Overlap(ws[i], ws[j]))
  }

  /** The part of the listing the loops have reached. */
  ghost predicate ListingTo(ws: seq<Window>, pairs: seq<(nat, nat)>, i: nat, j: nat) {
    && (forall k, l :: 0 <= k < l < |pairs| ==> Before(pairs[k], pairs[l]))
    && (forall x: nat, y: nat :: (x, y) in pairs <==> x < y < |ws| && Before((x, y), (i, j)) && Overlap(ws[x], ws[y]))
  }

  lemma OnePairOn(ws: seq<Window>, pairs: seq<(nat, nat)>, i: nat, j: nat)
    requires ListingTo(ws, pairs, i, j) && i < j < |ws|
    ensures ListingTo(ws, if Overlap(ws[i], ws[j]) then pairs + [(i, j)] else pairs, i, j + 1)
  {
    hide Overlap;
    var more := if Overlap(ws[i], ws[j]) then pairs + [(i, j)] else pairs;
    forall x: nat, y: nat
      ensures (x, y) in more <==> x < y < |ws| && Before((x, y), (i, j + 1)) && Overlap(ws[x], ws[y])
    {
      assert Before((x, y), (i, j + 1)) <==> Before((x, y), (i, j)) || (x, y) == (i, j);
    }
    forall k, l | 0 <= k < l < |more|
      ensures Before(more[k], more[l])
    {
      if l == |pairs| {
        assert pairs[k] in pairs;
        assert (pairs[k].0, pairs[k].1) in pairs;
      }
    }
  }

  lemma OneRowOn(ws: seq<Window>, pairs: seq<(nat, nat)>, i: nat)
    requires ListingTo(ws, pairs, i, |ws|)
    ensures ListingTo(ws, pairs, i + 1, 0)
  {
    hide Overlap;
    forall x: nat, y: nat | x < y < |ws|
      ensures Before((x, y), (i, |ws|)) <==> Before((x, y), (i + 1, 0))
    {
    }
  }

  lemma RowStarts(ws: seq<Window>, pairs: seq<(nat, nat)>, i: nat)
    requires ListingTo(ws, pairs, i, 0)
    ensures ListingTo(ws, pairs, i, i + 1)
  {
    hide Overlap;
    forall x: nat, y: nat | x < y
      ensures Before((x, y), (i, 0)) <==> Before((x, y), (i, i + 1))
    {
    }
  }

  /** Each conflict names the two windows of its pair and how long they share. */
  ghost predicate Written(ws: seq<Window>, pairs: seq<(nat, nat)>, conflicts: seq<Conflict>) {
    |conflicts| == |pairs| && forall k :: 0 <= k < |pairs| ==>
      var (i, j) := pairs[k];
      i < j < |ws| && conflicts[k] == Conflict(ws[i].name, ws[j].name, Shared(ws[i], ws[j]))
  }

  lemma OneConflictOn(ws: seq<Window>, pairs: seq<(nat, nat)>, conflicts: seq<Conflict>, i: nat, j: nat)
    requires Written(ws, pairs, conflicts) && i < j < |ws|
    ensures Written(ws, pairs + [(i, j)], conflicts + [Conflict(ws[i].name, ws[j].name, Shared(ws[i], ws[j]))])
  {
  }

  lemma NothingListed(ws: seq<Window>)
    ensures ListingTo(ws, [], 0, 0) && Written(ws, [], [])
  {
  }

  lemma AllRows(ws: seq<Window>, pairs: seq<(nat, nat)>)
    requires ListingTo(ws, pairs, |ws|, 0)
    ensures Listing(ws, pairs)
  {
    forall i: nat, j: nat
      ensures (i, j) in pairs <==> i < j < |ws| && Overlap(ws[i], ws[j])
    {
      assert i < j < |ws| ==> Before((i, j), (|ws|, 0));
    }
  }

  /** `analyze_timeline_conflicts`. */
  method Analyze(events: seq<Event>)
    returns (conflicts: seq<Conflict>, skipped: seq<string>, ghost pairs: seq<(nat, nat)>)
    ensures skipped == Unmeasured(events)
    ensures Listing(Windows(events), pairs) && Written(Windows(events), pairs, conflicts)
  {
    hide Listing, ListingTo, Written;
    var ws: seq<Window> := [];
    skipped := [];
    for k := 0 to |events|
      invariant ws == Windows(events[..k]) && skipped == Unmeasured(events[..k])
    {
      var ev := events[k];
      assert events[..k + 1][..k] == events[..k];
      if !ev.kind.Acquisition? {
        continue;
      }
      if ev.duration.None? {
        skipped := skipped + [ev.timestamp.text];
        continue;
      }
      ws := ws + [WindowOf(ev)];
    }
    assert events[..|events|] == events;
    conflicts, pairs := [], [];
    NothingListed(ws);
    for i := 0 to |ws|
      invariant ListingTo(ws, pairs, i, 0) && Written(ws, pairs, conflicts)
    {
      RowStarts(ws, pairs, i);
      for j := i + 1 to |ws|
        invariant ListingTo(ws, pairs, i, j) && Written(ws, pairs, conflicts)
      {
        var a, b := ws[i], ws[j];
        var maxStart, minEnd := Max(a.start, b.start), Min(a.end, b.end);
        OnePairOn(ws, pairs, i, j);
        if maxStart < minEnd {
          OneConflictOn(ws, pairs, conflicts, i, j);
          conflicts := conflicts + [Conflict(a.name, b.name, minEnd - maxStart)];
          pairs := pairs + [(i, j)];
        }
      }
      OneRowOn(ws, pairs, i);
    }
    AllRows(ws, pairs);
  }

  // ---------------------------------------------------------------- what an empty list means

  /** Some order of all the windows by when they start. */
  ghost predicate SortsByStart(ws: seq<Window>, order: seq<nat>) {
    && NoDup(order) && (forall i: nat :: i in order <==> i < |ws|)
    && (forall k :: 0 <= k < |order| ==> order[k] < |ws|)
    && (forall k, l :: 0 <= k < l < |order| ==> ws[order[k]].start <= ws[order[l]].start)
  }

  predicate Lasting(ws: seq<Window>) {
    forall i :: 0 <= i < |ws| ==> ws[i].start < ws[i].end
  }

  ghost predicate BackToBack(ws: seq<Window>, order: seq<nat>)
    requires forall k :: 0 <= k < |order| ==> order[k] < |ws|
  {
    forall k :: 0 <= k < |order| - 1 ==> ws[order[k]].end <= ws[order[k + 1]].start
  }

  /** Among windows that last, no conflict is reported exactly when, taken by start, each is over
      before the next begins. */
  lemma NoConflictMeansBackToBack(ws: seq<Window>, pairs: seq<(nat, nat)>, order: seq<nat>)
    requires Listing(ws, pairs) && Lasting(ws) && SortsByStart(ws, order)
    ensures pairs == [] <==> BackToBack(ws, order)
  {
    if pairs == [] {
      forall k | 0 <= k < |order| - 1
        ensures ws[order[k]].end <= ws[order[k + 1]].start
      {
        var i, j := order[k], order[k + 1];
        assert i != j && (i, j) !in pairs && (j, i) !in pairs;
      }
    }
    if BackToBack(ws, order) && pairs != [] {
      var (i, j) := pairs[0];
      assert (i, j) in pairs && i in order && j in order;
      var k :| 0 <= k < |order| && order[k] == i;
      var l :| 0 <= l < |order| && order[l] == j;
      if k < l {
        LaterStarts(ws, order, k, l);
      } else {
        LaterStarts(ws, order, l, k);
      }
      assert false;
    }
  }

  lemma LaterStarts(ws: seq<Window>, order: seq<nat>, k: nat, l: nat)
    requires SortsByStart(ws, order) && BackToBack(ws, order) && k < l < |order|
    ensures ws[order[k]].end <= ws[order[l]].start
  {
    assert ws[order[k + 1]].start <= ws[order[l]].start;
  }

  /** A window of no length inside another is never reported, so the lengths do matter. */
  lemma InstantsAreMissed()
    ensures var ws := [Window("a", 0.0, 10.0), Window("b", 5.0, 5.0)];
            Listing(ws, []) && SortsByStart(ws, [0, 1]) && !BackToBack(ws, [0, 1])
  {
    var ws := [Window("a", 0.0, 10.0), Window("b", 5.0, 5.0)];
    assert !Overlap(ws[0], ws[1]);
    assert ws[[0, 1][0]].end > ws[[0, 1][1]].start;
  }

  // ---------------------------------------------------------------- what a window is

  predicate Measured(ev: Event) {
    ev.kind == Acquisition && ev.duration != None
  }

  predicate Spans(w: Window, ev: Event) {
    && ev.kind == Acquisition && ev.duration.Some?
    && w.start == ev.timestamp.seconds && w.end - w.start == ev.duration.value && w.name == ev.timestamp.text
  }

  /** The k-th window is of the k-th event named, and no acquisition of known length is left out. */
  ghost predicate Picks(ws: seq<Window>, events: seq<Event>, at: seq<nat>) {
    && Rising(at) && |at| == |ws|
    && (forall k :: 0 <= k < |at| ==> at[k] < |events| && Spans(ws[k], events[at[k]]))
    && (forall i :: 0 <= i < |events| && Measured(events[i]) ==> i in at)
  }

  /** The windows are the acquisitions of known length, in plan order: each begins at its event's
      instant, lasts its event's duration and is named by its event's timestamp. */
  lemma {:induction false} WindowsAreAcquisitions(events: seq<Event>) returns (at: seq<nat>)
    ensures Picks(Windows(events), events, at)
    decreases |events|
  {
    if events == [] {
      return [];
    }
    hide Picks, Spans, WindowOf, Measured;
    var n := |events| - 1;
    assert events == events[..n] + [events[n]];
    at := WindowsAreAcquisitions(events[..n]);
    OneWindowOn(events[n]);
    if Measured(events[n]) {
      PickedToo(Windows(events[..n]), events[..n], at, events[n], WindowOf(events[n]));
      at := at + [n];
    } else {
      PassedOver(Windows(events[..n]), events[..n], at, events[n]);
    }
  }

  lemma PickedToo(ws: seq<Window>, events: seq<Event>, at: seq<nat>, ev: Event, w: Window)
    requires Picks(ws, events, at) && Spans(w, ev)
    ensures Picks(ws + [w], events + [ev], at + [|events|])
  {
    hide Spans, Measured;
    var more, later := events + [ev], at + [|events|];
    assert forall i :: 0 <= i < |more| && Measured(more[i]) ==> if i < |events| then i in at else i == later[|at|];
  }

  lemma PassedOver(ws: seq<Window>, events: seq<Event>, at: seq<nat>, ev: Event)
    requires Picks(ws, events, at) && !Measured(ev)
    ensures Picks(ws, events + [ev], at)
  {
    hide Spans, Measured;
  }

  predicate Rising(at: seq<nat>) {
    forall k, l :: 0 <= k < l < |at| ==> at[k] < at[l]
  }

  lemma OneWindowOn(ev: Event)
    ensures Measured(ev) <==> ev.kind.Acquisition? && ev.duration.Some?
    ensures Measured(ev) ==> Spans(WindowOf(ev), ev)
  {
  }

  /** And the rest of the acquisitions are what is skipped. */
  lemma {:induction false} SkippedAreUnmeasured(events: seq<Event>, text: string)
    ensures text in Unmeasured(events) <==>
      exists i :: 0 <= i < |events| && events[i].kind == Acquisition && events[i].duration == None
                  && events[i].timestamp.text == text
    decreases |events|
  {
    if events != [] {
      var n := |events| - 1;
      SkippedAreUnmeasured(events[..n], text);
      assert forall i :: 0 <= i < n ==> events[..n][i] == events[i];
    }
  }

  predicate Contains(w: Window, from: real, to: real) {
    w.start <= from && to <= w.end
  }

  /** Two windows overlap exactly if some stretch of time lies in both, and what they share is the
      longest such stretch. */
  lemma SharedIsTheLongest(a: Window, b: Window)
    ensures Overlap(a, b) <==> exists from, to :: from < to && Contains(a, from, to) && Contains(b, from, to)
    ensures forall from, to :: Contains(a, from, to) && Contains(b, from, to) ==> to - from <= Shared(a, b)
    ensures exists from, to :: Contains(a, from, to) && Contains(b, from, to) && to - from == Shared(a, b)
  {
    var from, to := if a.start >= b.start then a.start else b.start, if a.end <= b.end then a.end else b.end;
    assert Contains(a, from, to) && Contains(b, from, to) && to - from == Shared(a, b);
  }
}
