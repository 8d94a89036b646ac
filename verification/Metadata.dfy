/** The metadata walker: an explicit stack over an object graph that may share and may loop. */
module Metadata {
  const MAX_NODES := 10_000
  const MAX_DEPTH := 32

  type Id = nat

  /** A scalar as the walker tells them apart. `Plain` is null, a boolean, an integer, a finite
      float, a string or a date; only the rest have anything wrong with them. */
  datatype Kind = Plain | Binary | Unordered | NonFinite | Foreign

  datatype Key = Text(s: string) | NotText

  datatype Value = Leaf(kind: Kind) | Ref(id: Id)

  datatype Container = Dict(items: seq<(Key, Value)>) | List(elements: seq<Value>)

  /** Containers by identity: one referred to twice is shared, one reachable from itself loops. */
  type Heap = map<Id, Container>

  predicate Allocated(h: Heap, v: Value) {
    v.Ref? ==> v.id in h
  }

  /** The container holds the value, under some key or at some index. */
  predicate Within(c: Container, v: Value) {
    match c
    case Dict(items) => exists i :: 0 <= i < |items| && items[i].1 == v
    case List(elements) => exists i :: 0 <= i < |elements| && elements[i] == v
  }

  predicate Closed(h: Heap) {
    forall id :: id in h ==> forall c :: c in Children(h[id]) ==> Allocated(h, c)
  }

  function Children(c: Container): (r: seq<Value>)
    ensures c.Dict? ==> |r| == |c.items| && forall i :: 0 <= i < |r| ==> r[i] == c.items[i].1
    ensures c.List? ==> r == c.elements
    ensures forall v :: v in r <==> Within(c, v)
  {
    match c
    case Dict(items) => seq(|items|, i requires 0 <= i < |items| => items[i].1)
    case List(elements) => elements
  }

  predicate TextKeys(c: Container) {
    c.Dict? ==> forall i :: 0 <= i < |c.items| ==> c.items[i].0.Text?
  }

  // ---------------------------------------------------------------- the recursive reading

  /** A value with a JSON form at this depth, unfolded as if nothing were shared. */
  predicate Fits(h: Heap, v: Value, depth: nat)
    requires Closed(h) && Allocated(h, v)
    decreases MAX_DEPTH + 1 - depth
  {
    && depth <= MAX_DEPTH
    && match v
       case Leaf(kind) => kind.Plain?
       case Ref(id) => TextKeys(h[id]) && forall c :: c in Children(h[id]) ==> Fits(h, c, depth + 1)
  }

  /** How many values the unfolding holds, down to the first level that is too deep. */
  function Size(h: Heap, v: Value, depth: nat): (n: nat)
    requires Closed(h) && Allocated(h, v)
    ensures n > 0
    decreases MAX_DEPTH + 1 - depth, 1
  {
    if v.Leaf? || depth > MAX_DEPTH then 1 else 1 + Total(h, Children(h[v.id]), depth + 1)
  }

  function Total(h: Heap, vs: seq<Value>, depth: nat): nat
    requires Closed(h) && forall v :: v in vs ==> Allocated(h, v)
    decreases MAX_DEPTH + 1 - depth, 2, |vs|
  {
    if vs == [] then 0
    else Total(h, vs[..|vs| - 1], depth) + Size(h, vs[|vs| - 1], depth)
  }

  // ---------------------------------------------------------------- every level, every path

  /** A way down from a value, one container at a time. */
  ghost predicate Trail(h: Heap, p: seq<Value>)
    requires Closed(h)
  {
    && p != [] && (forall i :: 0 <= i < |p| ==> Allocated(h, p[i]))
    && (forall i :: 0 <= i < |p| - 1 ==> p[i].Ref? && Within(h[p[i].id], p[i + 1]))
  }

  /** Nothing wrong with the value itself: a plain scalar, or a container keyed by strings. */
  predicate Sound(h: Heap, v: Value)
    requires Allocated(h, v)
  {
    match v
    case Leaf(kind) => kind.Plain?
    case Ref(id) => TextKeys(h[id])
  }

  ghost predicate TrailsEndWell(h: Heap, v: Value, depth: nat)
    requires Closed(h)
  {
    forall p :: Trail(h, p) && p[0] == v ==> depth + |p| - 1 <= MAX_DEPTH && Sound(h, p[|p| - 1])
  }

  lemma {:induction false} TrailsKeepFitting(h: Heap, p: seq<Value>, depth: nat)
    requires Closed(h) && Trail(h, p) && Fits(h, p[0], depth)
    ensures Fits(h, p[|p| - 1], depth + |p| - 1)
    decreases |p|
  {
    if |p| > 1 {
      assert Within(h[p[0].id], p[1]);
      assert p[1] in Children(h[p[0].id]);
      TrailsShorten(h, p);
      TrailsKeepFitting(h, p[1..], depth + 1);
    }
  }

  lemma {:induction false} GoodTrailsFit(h: Heap, v: Value, depth: nat)
    requires Closed(h) && Allocated(h, v) && TrailsEndWell(h, v, depth)
    ensures Fits(h, v, depth)
    decreases MAX_DEPTH + 1 - depth
  {
    hide Trail, Children;
    TrailOfOne(h, v);
    if v.Ref? {
      forall c | c in Children(h[v.id])
        ensures Fits(h, c, depth + 1)
      {
        hide TrailsEndWell;
        TrailsBelowEndWell(h, v, c, depth);
        GoodTrailsFit(h, c, depth + 1);
      }
    }
  }

  lemma TrailsBelowEndWell(h: Heap, v: Value, c: Value, depth: nat)
    requires Closed(h) && Allocated(h, v) && TrailsEndWell(h, v, depth) && v.Ref? && c in Children(h[v.id])
    ensures TrailsEndWell(h, c, depth + 1)
  {
    hide Children, TextKeys, Sound;
    forall q | Trail(h, q) && q[0] == c
      ensures depth + 1 + |q| - 1 <= MAX_DEPTH && Sound(h, q[|q| - 1])
    {
      TrailsLengthen(h, v, q);
      assert ([v] + q)[0] == v;
    }
  }

  lemma TrailOfOne(h: Heap, v: Value)
    requires Closed(h) && Allocated(h, v)
    ensures Trail(h, [v]) && [v][0] == v && |[v]| == 1
  {
  }

  /** The recursive reading, level by level: every way down stays within the depth bound and ends
      in something JSON can hold. */
  lemma FittingIsEveryTrail(h: Heap, v: Value, depth: nat)
    requires Closed(h) && Allocated(h, v)
    ensures Fits(h, v, depth) <==> TrailsEndWell(h, v, depth)
  {
    if TrailsEndWell(h, v, depth) {
      GoodTrailsFit(h, v, depth);
    }
    if Fits(h, v, depth) {
      forall p | Trail(h, p) && p[0] == v
        ensures depth + |p| - 1 <= MAX_DEPTH && Sound(h, p[|p| - 1])
      {
        TrailsKeepFitting(h, p, depth);
      }
    }
  }

  lemma TrailsShorten(h: Heap, p: seq<Value>)
    requires Closed(h) && Trail(h, p) && |p| > 1
    ensures Trail(h, p[1..])
  {
    var q := p[1..];
    forall i | 0 <= i < |q| - 1
      ensures q[i].Ref? && Within(h[q[i].id], q[i + 1])
    {
      assert p[i + 1].Ref? && Within(h[p[i + 1].id], p[i + 2]);
    }
  }

  lemma TrailsLengthen(h: Heap, v: Value, q: seq<Value>)
    requires Closed(h) && Trail(h, q) && Allocated(h, v) && v.Ref? && q[0] in Children(h[v.id])
    ensures Trail(h, [v] + q)
  {
    hide Within;
    var p := [v] + q;
    forall i | 0 <= i < |p| - 1
      ensures p[i].Ref? && Within(h[p[i].id], p[i + 1])
    {
      if i > 0 {
        assert q[i - 1].Ref? && Within(h[q[i - 1].id], q[i]);
      }
    }
  }

  /** The value stands so many containers below the root. */
  ghost predicate Reached(h: Heap, root: Value, v: Value, depth: nat)
    requires Closed(h)
  {
    exists p :: Trail(h, p) && p[0] == root && p[|p| - 1] == v && |p| == depth + 1
  }

  lemma RootIsReached(h: Heap, root: Value)
    requires Closed(h) && Allocated(h, root)
    ensures Reached(h, root, root, 0)
  {
    TrailOfOne(h, root);
    assert [root][|[root]| - 1] == root;
  }

  lemma HeldIsReached(h: Heap, root: Value, id: Id, v: Value, depth: nat)
    requires Closed(h) && id in h && Reached(h, root, Ref(id), depth) && v in Children(h[id])
    ensures Reached(h, root, v, depth + 1)
  {
    hide Within;
    var p :| Trail(h, p) && p[0] == root && p[|p| - 1] == Ref(id) && |p| == depth + 1;
    var q := p + [v];
    forall i | 0 <= i < |q| - 1
      ensures q[i].Ref? && Within(h[q[i].id], q[i + 1])
    {
      if i < |p| - 1 {
        assert p[i].Ref? && Within(h[p[i].id], p[i + 1]);
      }
    }
    forall i | 0 <= i < |q|
      ensures Allocated(h, q[i])
    {
      assert i < |p| ==> Allocated(h, p[i]);
    }
    assert Trail(h, q) && q[0] == root && q[|q| - 1] == v;
  }

  // ---------------------------------------------------------------- self-containment

  /** Each of the containers holds the next. */
  ghost predicate Chain(h: Heap, ids: seq<Id>) {
    && (forall i :: 0 <= i < |ids| ==> ids[i] in h)
    && (forall i :: 0 <= i < |ids| - 1 ==> Within(h[ids[i]], Ref(ids[i + 1])))
  }

  ghost predicate ContainsItself(h: Heap, id: Id) {
    exists ids :: Chain(h, ids) && |ids| > 1 && ids[0] == id && ids[|ids| - 1] == id
  }

  /** A container that holds itself has no finite unfolding, so no depth bound lets it in. */
  lemma {:induction false} LoopsNeverFit(h: Heap, id: Id, depth: nat)
    requires Closed(h) && id in h && ContainsItself(h, id)
    ensures !Fits(h, Ref(id), depth)
    decreases MAX_DEPTH + 1 - depth
  {
    if Fits(h, Ref(id), depth) {
      var ids :| Chain(h, ids) && |ids| > 1 && ids[0] == id && ids[|ids| - 1] == id;
      var p := seq(|ids|, i requires 0 <= i < |ids| => Ref(ids[i]));
      TrailsKeepFitting(h, p, depth);
      LoopsNeverFit(h, id, depth + |ids| - 1);
    }
  }

  // ---------------------------------------------------------------- the stack

  datatype Frame = Frame(value: Value, depth: nat, leaving: bool)

  /** All but the top of a stack. */
  function Below(stack: seq<Frame>): (r: seq<Frame>)
    requires stack != []
    ensures |r| < |stack|
  {
    stack[..|stack| - 1]
  }

  function Top(stack: seq<Frame>): Frame
    requires stack != []
  {
    stack[|stack| - 1]
  }

  /** The containers with a leave marker on the stack, outermost first. */
  function Entered(stack: seq<Frame>): seq<Id> {
    if stack == [] then []
    else Entered(Below(stack)) + Marked(Top(stack))
  }

  function Marked(f: Frame): seq<Id> {
    if f.leaving && f.value.Ref? then [f.value.id] else []
  }

  /** The value is held by the innermost container entered. */
  ghost predicate Innermost(h: Heap, entered: seq<Id>, v: Value) {
    entered != [] && entered[|entered| - 1] in h && v in Children(h[entered[|entered| - 1]])
  }

  ghost predicate Placed(h: Heap, below: seq<Frame>, f: Frame) {
    && Allocated(h, f.value) && (f.leaving ==> f.value.Ref?)
    && f.depth == |Entered(below)|
    && (below == [] || Innermost(h, Entered(below), f.value))
  }

  /** Every frame but the first sits directly inside the innermost container entered below it. */
  ghost predicate Nested(h: Heap, stack: seq<Frame>) {
    && Closed(h)
    && (stack != [] ==> Nested(h, Below(stack)) && Placed(h, Below(stack), Top(stack)))
  }

  /** What is still to be walked, counted and judged by the recursive reading. */
  ghost function Pending(h: Heap, stack: seq<Frame>): nat
    requires Nested(h, stack)
  {
    if stack == [] then 0
    else
      Pending(h, Below(stack)) + (if Top(stack).leaving then 0 else Size(h, Top(stack).value, Top(stack).depth))
  }

  ghost predicate AllFit(h: Heap, stack: seq<Frame>)
    requires Nested(h, stack)
  {
    stack != [] ==>
      AllFit(h, Below(stack)) && (Top(stack).leaving || Fits(h, Top(stack).value, Top(stack).depth))
  }

  lemma PushingOne(h: Heap, stack: seq<Frame>, f: Frame)
    requires Nested(h, stack) && Placed(h, stack, f)
    ensures Nested(h, stack + [f])
    ensures Pending(h, stack + [f]) == Pending(h, stack) + (if f.leaving then 0 else Size(h, f.value, f.depth))
    ensures AllFit(h, stack + [f]) <==> AllFit(h, stack) && (f.leaving || Fits(h, f.value, f.depth))
    ensures Entered(stack + [f]) == Entered(stack) + Marked(f)
  {
    hide Size, Fits, Placed, Closed;
    assert Below(stack + [f]) == stack && Top(stack + [f]) == f;
  }

  lemma {:induction false} EnteredIsAChain(h: Heap, stack: seq<Frame>)
    requires Nested(h, stack)
    ensures Chain(h, Entered(stack))
    decreases |stack|
  {
    if stack != [] {
      EnteredIsAChain(h, Below(stack));
    }
  }

  /** Reaching a container that is still entered closes a loop through it. */
  lemma ReentryIsALoop(h: Heap, stack: seq<Frame>, id: Id)
    requires Nested(h, stack) && id in Entered(stack) && Innermost(h, Entered(stack), Ref(id))
    ensures ContainsItself(h, id)
  {
    EnteredIsAChain(h, stack);
    ChainsLoop(h, Entered(stack), id);
  }

  lemma ChainsLoop(h: Heap, around: seq<Id>, id: Id)
    requires Chain(h, around) && id in around && Innermost(h, around, Ref(id))
    ensures ContainsItself(h, id)
  {
    var j :| 0 <= j < |around| && around[j] == id;
    var ids := around[j..] + [id];
    forall i | 0 <= i < |ids| - 1
      ensures Within(h[ids[i]], Ref(ids[i + 1]))
    {
      if i < |ids| - 2 {
        assert Within(h[around[j + i]], Ref(around[j + i + 1]));
      }
    }
    assert Chain(h, ids);
  }

  /** `onPath` is the containers with a leave marker on the stack, each of which has just one. */
  ghost predicate Walking(stack: seq<Frame>, onPath: set<Id>) {
    && (forall id :: id in onPath <==> id in Entered(stack))
    && (forall i, j :: 0 <= i < j < |Entered(stack)| ==> Entered(stack)[i] != Entered(stack)[j])
  }

  lemma {:induction false} EnteredAreTheMarkers(stack: seq<Frame>, id: Id)
    ensures id in Entered(stack) <==> exists f :: f in stack && f.leaving && f.value == Ref(id)
    decreases |stack|
  {
    if stack != [] {
      EnteredAreTheMarkers(Below(stack), id);
      assert stack == Below(stack) + [Top(stack)];
    }
  }

  lemma Leaving(stack: seq<Frame>, onPath: set<Id>)
    requires Walking(stack, onPath) && stack != [] && Top(stack).leaving && Top(stack).value.Ref?
    ensures Walking(Below(stack), onPath - {Top(stack).value.id})
  {
    var below, id := Entered(Below(stack)), Top(stack).value.id;
    assert Entered(stack) == below + [id];
    forall i | 0 <= i < |below|
      ensures below[i] != id
    {
      assert Entered(stack)[i] != Entered(stack)[|below|];
    }
    forall i, j | 0 <= i < j < |below|
      ensures below[i] != below[j]
    {
      assert Entered(stack)[i] != Entered(stack)[j];
    }
  }

  function Frames(vs: seq<Value>, depth: nat): (r: seq<Frame>)
    ensures |r| == |vs| && forall i :: 0 <= i < |r| ==> r[i] == Frame(vs[i], depth, false)
  {
    seq(|vs|, i requires 0 <= i < |vs| => Frame(vs[i], depth, false))
  }

  lemma PlacingOne(h: Heap, stack: seq<Frame>, f: Frame)
    requires Allocated(h, f.value) && !f.leaving && f.depth == |Entered(stack)|
    requires Innermost(h, Entered(stack), f.value)
    ensures Placed(h, stack, f)
  {
  }

  /** Pushing what a container holds: nothing new is entered, and what is pending grows by what
      the container holds. */
  lemma {:induction false} Pushing(h: Heap, stack: seq<Frame>, vs: seq<Value>, depth: nat)
    requires Nested(h, stack) && depth == |Entered(stack)|
    requires forall v :: v in vs ==> Allocated(h, v) && Innermost(h, Entered(stack), v)
    ensures Nested(h, stack + Frames(vs, depth)) && Entered(stack + Frames(vs, depth)) == Entered(stack)
    ensures Pending(h, stack + Frames(vs, depth)) == Pending(h, stack) + Total(h, vs, depth)
    ensures AllFit(h, stack + Frames(vs, depth)) <==> AllFit(h, stack) && forall v :: v in vs ==> Fits(h, v, depth)
    decreases |vs|
  {
    hide Nested, Placed, Innermost, Pending, AllFit, Size, Fits, Entered, Closed;
    if vs == [] {
      assert stack + Frames(vs, depth) == stack;
    } else {
      var k := |vs| - 1;
      var before := stack + Frames(vs[..k], depth);
      var f := Frame(vs[k], depth, false);
      assert forall v :: v in vs <==> v in vs[..k] || v == vs[k];
      Pushing(h, stack, vs[..k], depth);
      assert vs[k] in vs;
      PlacingOne(h, before, f);
      PushingOne(h, before, f);
      assert stack + Frames(vs, depth) == before + [f];
    }
  }

  lemma EnteringOne(was: seq<Frame>, stack: seq<Frame>, onPath: set<Id>, id: Id)
    requires was != [] && Walking(was, onPath) && !Top(was).leaving && id !in onPath
    requires Entered(stack) == Entered(Below(was)) + [id]
    ensures Walking(stack, onPath + {id})
  {
    assert Entered(was) == Entered(Below(was));
  }

  /** What the frame of a container is counted and judged for, in terms of what it holds. */
  lemma Unfolding(h: Heap, id: Id, depth: nat)
    requires Closed(h) && id in h && depth <= MAX_DEPTH
    ensures forall v :: v in Children(h[id]) ==> Allocated(h, v)
    ensures Size(h, Ref(id), depth) == 1 + Total(h, Children(h[id]), depth + 1)
    ensures Fits(h, Ref(id), depth) <==>
      TextKeys(h[id]) && forall v :: v in Children(h[id]) ==> Fits(h, v, depth + 1)
  {
  }

  /** One container walked into: its marker and its children take the place of its frame, and the
      unfolding still to be walked is what it was, less the container itself. */
  lemma Expanding(h: Heap, was: seq<Frame>, base: seq<Frame>, id: Id)
    requires Nested(h, was) && was != [] && Top(was) == Frame(Ref(id), Top(was).depth, false)
    requires Top(was).depth <= MAX_DEPTH && base == Below(was) + [Frame(Ref(id), Top(was).depth, true)]
    ensures id in h
    ensures var stack := base + Frames(Children(h[id]), Top(was).depth + 1);
            && Nested(h, stack) && Entered(stack) == Entered(Below(was)) + [id]
            && Pending(h, stack) + 1 == Pending(h, was)
            && (TextKeys(h[id]) ==> (AllFit(h, stack) <==> AllFit(h, was)))
  {
    hide Fits, Size, TextKeys, Children, Total, Entered, Closed;
    var depth := Top(was).depth;
    var marker := Frame(Ref(id), depth, true);
    PushingOne(h, Below(was), marker);
    assert Entered(base) == Entered(Below(was)) + [id];
    Unfolding(h, id, depth);
    Pushing(h, base, Children(h[id]), depth + 1);
  }

  lemma Starting(h: Heap, root: Value)
    requires Closed(h) && Allocated(h, root)
    ensures var stack := [Frame(root, 0, false)];
            && Nested(h, stack) && Walking(stack, {})
            && Pending(h, stack) == Size(h, root, 0)
            && (AllFit(h, stack) <==> Fits(h, root, 0))
  {
    hide Fits, Size;
    var stack := [Frame(root, 0, false)];
    assert Below(stack) == [] && Entered(stack) == [];
  }

  /** One frame popped: what it was counted and judged for comes off with it. */
  lemma Popping(h: Heap, was: seq<Frame>)
    requires Nested(h, was) && was != []
    ensures var below, top := Below(was), Top(was);
            && Nested(h, below) && Allocated(h, top.value) && (top.leaving ==> top.value.Ref?)
            && Pending(h, was) == Pending(h, below) + (if top.leaving then 0 else Size(h, top.value, top.depth))
            && (AllFit(h, was) <==> AllFit(h, below) && (top.leaving || Fits(h, top.value, top.depth)))
            && (!top.leaving ==> Entered(was) == Entered(below))
            && (top.value.Ref? && Entered(below) != [] ==> Innermost(h, Entered(below), top.value))
  {
    hide Fits, Size, Closed;
  }

  lemma StillWalking(was: seq<Frame>, onPath: set<Id>)
    requires was != [] && Walking(was, onPath) && !Top(was).leaving
    ensures Walking(Below(was), onPath)
  {
    assert Entered(was) == Entered(Below(was));
  }

  lemma OnPathIsEntered(was: seq<Frame>, onPath: set<Id>, id: Id)
    requires was != [] && Walking(was, onPath) && !Top(was).leaving && id in onPath
    ensures id in Entered(Below(was)) && Entered(Below(was)) != []
  {
    assert Entered(was) == Entered(Below(was));
  }

  lemma Finished(h: Heap)
    requires Nested(h, [])
    ensures Pending(h, []) == 0 && AllFit(h, [])
  {
  }

  lemma Judging(h: Heap, v: Value, depth: nat)
    requires Closed(h) && Allocated(h, v)
    ensures depth > MAX_DEPTH ==> !Fits(h, v, depth)
    ensures v.Leaf? && depth <= MAX_DEPTH ==> (Fits(h, v, depth) <==> v.kind.Plain?) && Size(h, v, depth) == 1
  {
  }

  // ---------------------------------------------------------------- the walk

  datatype Refusal = TooMany | TooDeep | IsBinary | IsUnordered | IsNonFinite | IsForeign | SelfContaining | OddKey

  datatype Verdict = Accepted | Refused(why: Refusal)

  function KindRefusal(kind: Kind): Refusal
    requires !kind.Plain?
  {
    match kind
    case Binary => IsBinary
    case Unordered => IsUnordered
    case NonFinite => IsNonFinite
    case Foreign => IsForeign
  }

  /** A refusal names what is there: somewhere below the root, at that depth. */
  ghost predicate IsTrue(h: Heap, root: Value, why: Refusal)
    requires Closed(h)
  {
    match why
    case TooMany => Allocated(h, root) && Size(h, root, 0) > MAX_NODES
    case TooDeep => exists v, d: nat :: d > MAX_DEPTH && Reached(h, root, v, d)
    case IsBinary => exists d: nat :: Reached(h, root, Leaf(Binary), d)
    case IsUnordered => exists d: nat :: Reached(h, root, Leaf(Unordered), d)
    case IsNonFinite => exists d: nat :: Reached(h, root, Leaf(NonFinite), d)
    case IsForeign => exists d: nat :: Reached(h, root, Leaf(Foreign), d)
    case SelfContaining => exists id, d: nat :: Reached(h, root, Ref(id), d) && ContainsItself(h, id)
    case OddKey =>
      exists id, d: nat, i :: Reached(h, root, Ref(id), d) && id in h && h[id].Dict?
        && 0 <= i < |h[id].items| && h[id].items[i].0.NotText?
  }

  lemma KindsAreTrue(h: Heap, root: Value, kind: Kind, depth: nat)
    requires Closed(h) && Reached(h, root, Leaf(kind), depth) && !kind.Plain?
    ensures IsTrue(h, root, KindRefusal(kind))
  {
    hide Reached;
  }

  ghost predicate AllReached(h: Heap, root: Value, stack: seq<Frame>)
    requires Closed(h)
  {
    forall f :: f in stack ==> Reached(h, root, f.value, f.depth)
  }

  lemma ExpandingReaches(h: Heap, root: Value, was: seq<Frame>, base: seq<Frame>, id: Id)
    requires Closed(h) && was != [] && AllReached(h, root, was) && id in h
    requires Top(was) == Frame(Ref(id), Top(was).depth, false)
    requires base == Below(was) + [Frame(Ref(id), Top(was).depth, true)]
    ensures AllReached(h, root, base + Frames(Children(h[id]), Top(was).depth + 1))
  {
    hide Reached, Closed, Children;
    var top := Top(was);
    var stack := base + Frames(Children(h[id]), top.depth + 1);
    assert was == Below(was) + [top];
    forall f | f in stack
      ensures Reached(h, root, f.value, f.depth)
    {
      if f !in base {
        var i :| 0 <= i < |Children(h[id])| && f == Frame(Children(h[id])[i], top.depth + 1, false);
        HeldIsReached(h, root, id, Children(h[id])[i], top.depth);
      }
    }
  }

  lemma RootIsAllReached(h: Heap, root: Value)
    requires Closed(h) && Allocated(h, root)
    ensures AllReached(h, root, [Frame(root, 0, false)])
  {
    RootIsReached(h, root);
  }

  lemma PoppingReaches(h: Heap, root: Value, was: seq<Frame>)
    requires Closed(h) && was != [] && AllReached(h, root, was)
    ensures AllReached(h, root, Below(was)) && Reached(h, root, Top(was).value, Top(was).depth)
  {
    hide Reached, Closed;
    assert was == Below(was) + [Top(was)];
  }

  /** `_serialisable_metadata`. It always returns, and it accepts exactly what the recursive
      reading accepts; a refusal for size means the unfolding really is too large, any other that
      something in it has no JSON form; and what a refusal names is there. */
  method Walk(h: Heap, root: Value) returns (r: Verdict)
    requires Closed(h) && Allocated(h, root)
    ensures r.Accepted? <==> Fits(h, root, 0) && Size(h, root, 0) <= 10_000
    ensures r.Refused? ==> IsTrue(h, root, r.why)
    ensures r.Refused? && r != Refused(TooMany) ==> !Fits(h, root, 0)
  {
    hide Fits, Size, Total, Nested, Pending, AllFit, Entered, Innermost, Walking, Closed, ContainsItself, Below, Top,
      Children, Reached, AllReached, KindRefusal;
    var onPath: set<Id> := {};
    var stack := [Frame(root, 0, false)];
    Starting(h, root);
    assert AllReached(h, root, stack) by {
      RootIsAllReached(h, root);
    }
    var nodes: nat := 0;
    while stack != []
      invariant nodes <= MAX_NODES
      invariant Nested(h, stack)
      invariant Walking(stack, onPath)
      invariant nodes + Pending(h, stack) == Size(h, root, 0)
      invariant AllFit(h, stack) <==> Fits(h, root, 0)
      invariant AllReached(h, root, stack)
      decreases MAX_NODES - nodes, |stack|
    {
      ghost var was := stack;
      var top := Top(stack);
      stack := Below(stack);
      Popping(h, was);
      PoppingReaches(h, root, was);
      if top.leaving {
        Leaving(was, onPath);
        onPath := onPath - {top.value.id};
        continue;
      }
      nodes := nodes + 1;
      if nodes > MAX_NODES {
        return Refused(TooMany);
      }
      Judging(h, top.value, top.depth);
      if top.depth > MAX_DEPTH {
        return Refused(TooDeep);
      }
      if top.value.Leaf? {
        StillWalking(was, onPath);
        if !top.value.kind.Plain? {
          KindsAreTrue(h, root, top.value.kind, top.depth);
          return Refused(KindRefusal(top.value.kind));
        }
        continue;
      }
      var id := top.value.id;
      if id in onPath {
        OnPathIsEntered(was, onPath, id);
        ReentryIsALoop(h, stack, id);
        LoopsNeverFit(h, id, top.depth);
        return Refused(SelfContaining);
      }
      ghost var base := stack + [Frame(top.value, top.depth, true)];
      Expanding(h, was, base, id);
      ExpandingReaches(h, root, was, base, id);
      EnteringOne(was, base + Frames(Children(h[id]), top.depth + 1), onPath, id);
      onPath := onPath + {id};
      stack := stack + [Frame(top.value, top.depth, true)];
      if h[id].Dict? {
        for k := 0 to |h[id].items|
          invariant forall i :: 0 <= i < k ==> h[id].items[i].0.Text?
        {
          if !h[id].items[k].0.Text? {
            Unfolding(h, id, top.depth);
            return Refused(OddKey);
          }
        }
      }
      var children := Children(h[id]);
      for k := 0 to |children|
        invariant stack == base + Frames(children[..k], top.depth + 1)
      {
        stack := stack + [Frame(children[k], top.depth + 1, false)];
      }
      assert children[..|children|] == children;
    }
    Finished(h);
    r := Accepted;
  }

  // ---------------------------------------------------------------- what acceptance comes to

  /** In accepted metadata everything below the root, through keys and list items alike, is shallow
      enough, a plain scalar or a container keyed by text, and no container holds itself. */
  lemma AcceptedIsSoundThroughout(h: Heap, root: Value, v: Value, depth: nat)
    requires Closed(h) && Allocated(h, root) && Fits(h, root, 0) && Reached(h, root, v, depth)
    ensures depth <= 32 && Allocated(h, v)
    ensures v.Leaf? ==> v.kind == Plain
    ensures v.Ref? && h[v.id].Dict? ==>
      forall i :: 0 <= i < |h[v.id].items| ==>
        h[v.id].items[i].0.Text? && Reached(h, root, h[v.id].items[i].1, depth + 1)
    ensures v.Ref? && h[v.id].List? ==>
      forall i :: 0 <= i < |h[v.id].elements| ==> Reached(h, root, h[v.id].elements[i], depth + 1)
    ensures v.Ref? ==> !ContainsItself(h, v.id)
  {
    hide Reached, ContainsItself, Fits, Within;
    ReachedFits(h, root, v, depth);
    if v.Ref? {
      FitsMeansTextKeys(h, v.id, depth);
      var children := Children(h[v.id]);
      forall i | 0 <= i < |children|
        ensures Reached(h, root, children[i], depth + 1)
        ensures h[v.id].Dict? ==> children[i] == h[v.id].items[i].1
      {
        HeldIsReached(h, root, v.id, children[i], depth);
      }
      if h[v.id].Dict? {
        forall i | 0 <= i < |h[v.id].items|
          ensures Reached(h, root, h[v.id].items[i].1, depth + 1)
        {
          assert children[i] == h[v.id].items[i].1;
        }
      }
      if ContainsItself(h, v.id) {
        LoopsNeverFit(h, v.id, depth);
      }
    } else {
      FitsMeansPlain(h, v, depth);
    }
    FitsMeansShallow(h, v, depth);
  }

  lemma ReachedFits(h: Heap, root: Value, v: Value, depth: nat)
    requires Closed(h) && Allocated(h, root) && Fits(h, root, 0) && Reached(h, root, v, depth)
    ensures Allocated(h, v) && Fits(h, v, depth)
  {
    hide Fits, Within;
    var p :| Trail(h, p) && p[0] == root && p[|p| - 1] == v && |p| == depth + 1;
    assert Allocated(h, p[|p| - 1]);
    TrailsKeepFitting(h, p, 0);
  }

  lemma FitsMeansTextKeys(h: Heap, id: Id, depth: nat)
    requires Closed(h) && id in h && Fits(h, Ref(id), depth)
    ensures TextKeys(h[id])
  {
  }

  lemma FitsMeansPlain(h: Heap, v: Value, depth: nat)
    requires Closed(h) && v.Leaf? && Fits(h, v, depth)
    ensures v.kind == Plain
  {
  }

  lemma FitsMeansShallow(h: Heap, v: Value, depth: nat)
    requires Closed(h) && Allocated(h, v) && Fits(h, v, depth)
    ensures depth <= MAX_DEPTH
  {
  }

  /** One unsound value anywhere below, in a list as in a mapping, and it is not accepted. */
  lemma OneUnsoundValueRefuses(h: Heap, root: Value, v: Value, depth: nat)
    requires Closed(h) && Allocated(h, root) && Reached(h, root, v, depth)
    requires
      || depth > 32
      || (v.Leaf? && v.kind != Plain)
      || (v.Ref? && v.id in h && h[v.id].Dict? && exists i :: 0 <= i < |h[v.id].items| && h[v.id].items[i].0.NotText?)
      || (v.Ref? && v.id in h && ContainsItself(h, v.id))
    ensures !Fits(h, root, 0)
  {
    hide Reached, ContainsItself, Fits;
    if Fits(h, root, 0) {
      AcceptedIsSoundThroughout(h, root, v, depth);
    }
  }
}
