/** The strict YAML loader: a memoised scan of a node graph that flattening later rewrites. */
module NodeGraph {
  type Id = nat

  /** A mapping key: the merge key `<<`, or a hashable key by its value. */
  datatype Key = Merge | Plain(k: int)

  type Pair = (Key, Id)

  datatype Node = Scalar | Sequence(items: seq<Id>) | Mapping(pairs: seq<Pair>)

  /** A composed document: every child is a node of it. Anchors make it a graph, cycles included. */
  type Graph = map<Id, Node>

  predicate Closed(g: Graph) {
    forall n :: n in g ==>
      match g[n]
      case Scalar => true
      case Sequence(items) => forall i :: 0 <= i < |items| ==> items[i] in g
      case Mapping(pairs) => forall i :: 0 <= i < |pairs| ==> pairs[i].1 in g
  }

  predicate IsMapping(g: Graph, n: Id) {
    n in g && g[n].Mapping?
  }

  function Mappings(g: Graph, items: seq<Id>): (r: seq<Id>)
    ensures forall n :: n in r <==> n in items && IsMapping(g, n)
  {
    if items == [] then []
    else
      assert items == [items[0]] + items[1..];
      (if IsMapping(g, items[0]) then [items[0]] else []) + Mappings(g, items[1..])
  }

  /** `_merge_sources`: the mappings a `<<` pulls from, written as one or as a list. */
  function Sources(g: Graph, v: Id): (r: seq<Id>)
    ensures forall n :: n in r ==> IsMapping(g, n)
  {
    if v !in g then []
    else if g[v].Sequence? then Mappings(g, g[v].items)
    else Mappings(g, [v])
  }

  /** One mapping pulls another in. */
  ghost predicate Edge(g: Graph, a: Id, b: Id) {
    IsMapping(g, a) && exists i :: 0 <= i < |g[a].pairs| && g[a].pairs[i].0.Merge? && b in Sources(g, g[a].pairs[i].1)
  }

  ghost predicate Path(g: Graph, p: seq<Id>) {
    p != [] && IsMapping(g, p[0]) && forall i :: 0 <= i < |p| - 1 ==> Edge(g, p[i], p[i + 1])
  }

  /** Reached by merging, in any number of steps. */
  ghost predicate Reaches(g: Graph, a: Id, b: Id)
    ensures Reaches(g, a, b) ==> IsMapping(g, b)
  {
    && IsMapping(g, b)
    && exists p :: Path(g, p) && p[0] == a && p[|p| - 1] == b
  }

  ghost predicate OnCycle(g: Graph, n: Id) {
    exists p :: Path(g, p) && |p| > 1 && p[0] == n && p[|p| - 1] == n
  }

  /** A mapping that writes no key twice and has at most one `<<`. */
  predicate NoRepeat(pairs: seq<Pair>) {
    forall i, j :: 0 <= i < j < |pairs| ==> pairs[i].0 != pairs[j].0
  }

  /** What the loader refuses a mapping for. */
  ghost predicate Refusable(g: Graph, n: Id) {
    IsMapping(g, n) && (!NoRepeat(g[n].pairs) || OnCycle(g, n))
  }

  /** A merge value is a mapping or a list of mappings. */
  predicate GoodMergeValue(g: Graph, v: Id) {
    v in g && match g[v]
    case Scalar => false
    case Sequence(items) => forall i :: 0 <= i < |items| ==> IsMapping(g, items[i])
    case Mapping(_) => true
  }

  predicate GoodMergeValues(g: Graph, n: Id) {
    IsMapping(g, n) ==> forall i :: 0 <= i < |g[n].pairs| && g[n].pairs[i].0.Merge? ==>
      GoodMergeValue(g, g[n].pairs[i].1)
  }

  lemma PathExtends(g: Graph, p: seq<Id>, n: Id)
    requires Path(g, p) && Edge(g, p[|p| - 1], n)
    ensures Path(g, p + [n])
  {
    var q := p + [n];
    forall i | 0 <= i < |q| - 1
      ensures Edge(g, q[i], q[i + 1])
    {
    }
  }

  lemma PathPrepends(g: Graph, a: Id, p: seq<Id>)
    requires Path(g, p) && Edge(g, a, p[0])
    ensures Path(g, [a] + p)
  {
    var q := [a] + p;
    forall i | 0 <= i < |q| - 1
      ensures Edge(g, q[i], q[i + 1])
    {
      if i > 0 {
        assert Edge(g, p[i - 1], p[i]);
      }
    }
  }

  lemma ReachesThrough(g: Graph, a: Id, b: Id, c: Id)
    requires Edge(g, a, b) && Reaches(g, b, c)
    ensures Reaches(g, a, c)
  {
    var p :| Path(g, p) && p[0] == b && p[|p| - 1] == c;
    PathPrepends(g, a, p);
    assert ([a] + p)[|p|] == c;
  }

  lemma ReachesItself(g: Graph, n: Id)
    requires IsMapping(g, n)
    ensures Reaches(g, n, n)
  {
    assert Path(g, [n]);
  }

  // ---------------------------------------------------------------- ranks

  /** A region closed under merging, in which every source comes strictly before what merges it:
      the order in which the scan finishes mappings. */
  ghost predicate Ranked(g: Graph, done: set<Id>, rank: map<Id, nat>) {
    && done <= rank.Keys
    && (forall n :: n in done ==> IsMapping(g, n))
    && (forall a, b :: a in done && Edge(g, a, b) ==> b in done && rank[b] < rank[a])
  }

  lemma {:induction false} RankedPathsDescend(g: Graph, done: set<Id>, rank: map<Id, nat>, p: seq<Id>)
    requires Ranked(g, done, rank) && Path(g, p) && p[0] in done
    ensures p[|p| - 1] in done
    ensures rank[p[|p| - 1]] <= rank[p[0]] && (|p| > 1 ==> rank[p[|p| - 1]] < rank[p[0]])
    decreases |p|
  {
    if |p| > 1 {
      assert Edge(g, p[0], p[1]);
      var q := p[1..];
      forall i | 0 <= i < |q| - 1
        ensures Edge(g, q[i], q[i + 1])
      {
        assert Edge(g, p[i + 1], p[i + 2]);
      }
      RankedPathsDescend(g, done, rank, q);
    }
  }

  lemma RankedHasNoCycle(g: Graph, done: set<Id>, rank: map<Id, nat>, n: Id)
    requires Ranked(g, done, rank) && n in done
    ensures !OnCycle(g, n)
  {
    if OnCycle(g, n) {
      var p :| Path(g, p) && |p| > 1 && p[0] == n && p[|p| - 1] == n;
      RankedPathsDescend(g, done, rank, p);
      assert false;
    }
  }

  // ---------------------------------------------------------------- what a mapping means

  function Own(pairs: seq<Pair>): seq<Pair> {
    if pairs == [] then []
    else (if pairs[0].0.Plain? then [pairs[0]] else []) + Own(pairs[1..])
  }

  /** `construct_mapping` over a list of pairs: the last value written for a key wins. */
  function Dict(pairs: seq<Pair>): map<int, Id> {
    if pairs == [] then map[]
    else
      var last := pairs[|pairs| - 1];
      var before := Dict(pairs[..|pairs| - 1]);
      if last.0.Plain? then before[last.0.k := last.1] else before
  }

  lemma {:induction false} DictConcat(a: seq<Pair>, b: seq<Pair>)
    ensures Dict(a + b) == Dict(a) + Dict(b)
    decreases |b|
  {
    if b == [] {
      assert a + b == a;
    } else {
      var k := |b| - 1;
      assert (a + b)[..|a + b| - 1] == a + b[..k];
      DictConcat(a, b[..k]);
    }
  }

  /** The pairs flattening leaves in a mapping: merge sources spliced in at the front, the later
      of a list first so that an earlier one overwrites it. `fuel` bounds the depth of merging;
      the number of nodes is always enough where merging is acyclic. */
  function Flat(g: Graph, n: Id, fuel: nat): seq<Pair>
    decreases fuel, 2
  {
    if fuel == 0 || !IsMapping(g, n) then []
    else FlatMerges(g, g[n].pairs, fuel - 1) + Own(g[n].pairs)
  }

  function FlatMerges(g: Graph, pairs: seq<Pair>, fuel: nat): seq<Pair>
    decreases fuel, 4, |pairs|
  {
    if pairs == [] then []
    else (if pairs[0].0.Merge? then FlatSources(g, Sources(g, pairs[0].1), fuel) else [])
         + FlatMerges(g, pairs[1..], fuel)
  }

  function FlatSources(g: Graph, sources: seq<Id>, fuel: nat): seq<Pair>
    decreases fuel, 3, |sources|
  {
    if sources == [] then []
    else FlatSources(g, sources[1..], fuel) + Flat(g, sources[0], fuel)
  }

  /** The meaning the merge-key type gives: own keys beat merged ones, and among the sources of
      one `<<` an earlier one beats a later one. */
  function Meaning(g: Graph, n: Id, fuel: nat): map<int, Id>
    decreases fuel, 2
  {
    if fuel == 0 || !IsMapping(g, n) then map[]
    else MergesMeaning(g, g[n].pairs, fuel - 1) + Dict(Own(g[n].pairs))
  }

  function MergesMeaning(g: Graph, pairs: seq<Pair>, fuel: nat): map<int, Id>
    decreases fuel, 4, |pairs|
  {
    if pairs == [] then map[]
    else (if pairs[0].0.Merge? then SourcesMeaning(g, Sources(g, pairs[0].1), fuel) else map[])
         + MergesMeaning(g, pairs[1..], fuel)
  }

  function SourcesMeaning(g: Graph, sources: seq<Id>, fuel: nat): map<int, Id>
    decreases fuel, 3, |sources|
  {
    if sources == [] then map[]
    else SourcesMeaning(g, sources[1..], fuel) + Meaning(g, sources[0], fuel)
  }

  /** Splicing and overwriting come to the meaning. */
  lemma {:induction false} FlatMeansMeaning(g: Graph, n: Id, fuel: nat)
    ensures Dict(Flat(g, n, fuel)) == Meaning(g, n, fuel)
    decreases fuel, 2
  {
    if fuel > 0 && IsMapping(g, n) {
      FlatMergesMean(g, g[n].pairs, fuel - 1);
      DictConcat(FlatMerges(g, g[n].pairs, fuel - 1), Own(g[n].pairs));
    }
  }

  lemma {:induction false} FlatMergesMean(g: Graph, pairs: seq<Pair>, fuel: nat)
    ensures Dict(FlatMerges(g, pairs, fuel)) == MergesMeaning(g, pairs, fuel)
    decreases fuel, 4, |pairs|
  {
    if pairs != [] {
      FlatMergesMean(g, pairs[1..], fuel);
      var sources := if pairs[0].0.Merge? then Sources(g, pairs[0].1) else [];
      FlatSourcesMean(g, sources, fuel);
      DictConcat(FlatSources(g, sources, fuel), FlatMerges(g, pairs[1..], fuel));
    }
  }

  lemma {:induction false} FlatSourcesMean(g: Graph, sources: seq<Id>, fuel: nat)
    ensures Dict(FlatSources(g, sources, fuel)) == SourcesMeaning(g, sources, fuel)
    decreases fuel, 3, |sources|
  {
    if sources != [] {
      FlatSourcesMean(g, sources[1..], fuel);
      FlatMeansMeaning(g, sources[0], fuel);
      DictConcat(FlatSources(g, sources[1..], fuel), Flat(g, sources[0], fuel));
    }
  }

  // ---------------------------------------------------------------- the depth bound is no bound

  lemma {:induction false} FuelIsEnough(g: Graph, done: set<Id>, rank: map<Id, nat>, n: Id, a: nat, b: nat)
    requires Ranked(g, done, rank) && n in done && a > rank[n] && b > rank[n]
    ensures Flat(g, n, a) == Flat(g, n, b)
    decreases rank[n], 2
  {
    FuelIsEnoughForMerges(g, done, rank, n, g[n].pairs, a, b);
  }

  lemma {:induction false} FuelIsEnoughForMerges(
    g: Graph, done: set<Id>, rank: map<Id, nat>, n: Id, pairs: seq<Pair>, a: nat, b: nat)
    requires Ranked(g, done, rank) && n in done && a > rank[n] && b > rank[n]
    requires forall p :: p in pairs ==> p in g[n].pairs
    ensures FlatMerges(g, pairs, a - 1) == FlatMerges(g, pairs, b - 1)
    decreases rank[n], 1, |pairs|
  {
    if pairs != [] {
      FuelIsEnoughForMerges(g, done, rank, n, pairs[1..], a, b);
      if pairs[0].0.Merge? {
        var sources := Sources(g, pairs[0].1);
        assert pairs[0] in g[n].pairs;
        forall s | s in sources
          ensures Edge(g, n, s)
        {
          var i :| 0 <= i < |g[n].pairs| && g[n].pairs[i] == pairs[0];
        }
        FuelIsEnoughForSources(g, done, rank, n, sources, a, b);
      }
    }
  }

  lemma {:induction false} FuelIsEnoughForSources(
    g: Graph, done: set<Id>, rank: map<Id, nat>, n: Id, sources: seq<Id>, a: nat, b: nat)
    requires Ranked(g, done, rank) && n in done && a > rank[n] && b > rank[n]
    requires forall s :: s in sources ==> Edge(g, n, s)
    ensures FlatSources(g, sources, a - 1) == FlatSources(g, sources, b - 1)
    decreases rank[n], 0, |sources|
  {
    hide Edge, Sources;
    if sources != [] {
      assert Edge(g, n, sources[0]);
      FuelIsEnoughForSources(g, done, rank, n, sources[1..], a, b);
      FuelIsEnough(g, done, rank, sources[0], a - 1, b - 1);
    }
  }
}

module StrictLoader {
  import opened Wrappers
  import opened NodeGraph

  lemma {:induction false} FlatMergesConcat(g: Graph, a: seq<Pair>, b: seq<Pair>, fuel: nat)
    ensures FlatMerges(g, a + b, fuel) == FlatMerges(g, a, fuel) + FlatMerges(g, b, fuel)
    decreases |a|
  {
    if a == [] {
      assert a + b == b;
    } else {
      var c := a + b;
      assert c[1..] == a[1..] + b && c[0] == a[0];
      FlatMergesConcat(g, a[1..], b, fuel);
      var first := if a[0].0.Merge? then FlatSources(g, Sources(g, a[0].1), fuel) else [];
      Associates(first, FlatMerges(g, a[1..], fuel), FlatMerges(g, b, fuel));
      assert FlatMerges(g, a, fuel) == first + FlatMerges(g, a[1..], fuel);
      assert FlatMerges(g, c, fuel) == first + FlatMerges(g, c[1..], fuel);
    }
  }

  lemma {:induction false} OwnConcat(a: seq<Pair>, b: seq<Pair>)
    ensures Own(a + b) == Own(a) + Own(b)
    decreases |a|
  {
    if a == [] {
      assert a + b == b;
    } else {
      var c := a + b;
      assert c[1..] == a[1..] + b && c[0] == a[0];
      OwnConcat(a[1..], b);
      var first := if a[0].0.Plain? then [a[0]] else [];
      Associates(first, Own(a[1..]), Own(b));
      assert Own(a) == first + Own(a[1..]);
      assert Own(c) == first + Own(c[1..]);
    }
  }

  lemma PlainPairsStand(g: Graph, pairs: seq<Pair>, fuel: nat)
    requires forall p :: p in pairs ==> p.0.Plain?
    ensures FlatMerges(g, pairs, fuel) == [] && Own(pairs) == pairs
  {
    if pairs != [] {
      assert pairs[0] in pairs;
      PlainPairsStand(g, pairs[1..], fuel);
    }
  }

  lemma FlatIsPlain(g: Graph, n: Id, fuel: nat)
    ensures forall p :: p in Flat(g, n, fuel) ==> p.0.Plain?
    decreases fuel, 2
  {
    if fuel > 0 && IsMapping(g, n) {
      FlatMergesArePlain(g, g[n].pairs, fuel - 1);
      OwnIsPlain(g[n].pairs);
    }
  }

  lemma FlatMergesArePlain(g: Graph, pairs: seq<Pair>, fuel: nat)
    ensures forall p :: p in FlatMerges(g, pairs, fuel) ==> p.0.Plain?
    decreases fuel, 4, |pairs|
  {
    if pairs != [] {
      FlatMergesArePlain(g, pairs[1..], fuel);
      if pairs[0].0.Merge? {
        FlatSourcesArePlain(g, Sources(g, pairs[0].1), fuel);
      }
    }
  }

  lemma FlatSourcesArePlain(g: Graph, sources: seq<Id>, fuel: nat)
    ensures forall p :: p in FlatSources(g, sources, fuel) ==> p.0.Plain?
    decreases fuel, 3, |sources|
  {
    if sources != [] {
      FlatSourcesArePlain(g, sources[1..], fuel);
      FlatIsPlain(g, sources[0], fuel);
    }
  }

  lemma OwnIsPlain(pairs: seq<Pair>)
    ensures forall p :: p in Own(pairs) ==> p.0.Plain?
  {
  }

  lemma FewerThanNodes(done: set<Id>, g: Graph)
    requires done <= g.Keys
    ensures |done| <= |g|
  {
    assert |g.Keys| == |g.Keys - done| + |done|;
  }

  /** The nodes a merge value lists: itself, or its items. */
  predicate Lists(g: Graph, v: Id, items: seq<Id>) {
    v in g && ((g[v].Mapping? && items == [v]) || (g[v].Sequence? && items == g[v].items))
  }

  lemma ItemsAreGood(g: Graph, v: Id, items: seq<Id>)
    requires Lists(g, v, items) && forall i :: 0 <= i < |items| ==> IsMapping(g, items[i])
    ensures GoodMergeValue(g, v) && Sources(g, v) == items
  {
    AllMappings(g, items);
  }

  lemma BadItemIsBad(g: Graph, v: Id, items: seq<Id>, i: nat)
    requires Lists(g, v, items) && i < |items| && !IsMapping(g, items[i])
    ensures !GoodMergeValue(g, v)
  {
  }

  lemma ItemIsASource(g: Graph, node: Id, at: nat, items: seq<Id>, i: nat)
    requires IsMapping(g, node) && at < |g[node].pairs| && g[node].pairs[at].0.Merge?
    requires Lists(g, g[node].pairs[at].1, items) && i < |items| && IsMapping(g, items[i])
    ensures Edge(g, node, items[i])
  {
    assert items[i] in Sources(g, g[node].pairs[at].1);
  }

  lemma NothingSpliced(g: Graph, fuel: nat)
    ensures FlatSources(g, [], fuel) == []
  {
  }

  lemma AllMappings(g: Graph, items: seq<Id>)
    requires forall i :: 0 <= i < |items| ==> IsMapping(g, items[i])
    ensures Mappings(g, items) == items
  {
    if items != [] {
      AllMappings(g, items[1..]);
    }
  }

  ghost predicate Acceptable(g: Graph, n: Id) {
    forall m :: Reaches(g, n, m) ==> !Refusable(g, m) && GoodMergeValues(g, m)
  }

  function Elements(path: seq<Id>): set<Id> {
    set n | n in path
  }

  /** Mappings that were flattened hold their flattened pairs; the rest are as composed. */
  ghost predicate Heap(g: Graph, nodes: Graph, flat: set<Id>) {
    && Closed(g) && nodes.Keys == g.Keys
    && (forall n :: n in flat ==> IsMapping(g, n) && nodes[n] == Mapping(Flat(g, n, |g|)))
    && (forall n :: n in g && n !in flat ==> nodes[n] == g[n])
    && (forall n :: n in flat ==> GoodMergeValues(g, n))
    && (forall a, b :: a in flat && Edge(g, a, b) ==> b in flat)
  }

  /** The scan is inside the mappings of `visiting` and finished with those of `done`. */
  ghost predicate Scanning(g: Graph, scanned: set<Id>, done: set<Id>, rank: map<Id, nat>, visiting: set<Id>) {
    && scanned == done + visiting && done !! visiting && scanned <= g.Keys
    && Ranked(g, done, rank)
    && (forall n :: n in done ==> NoRepeat(g[n].pairs) && rank[n] < |done|)
  }

  lemma EnteringKeepsScanning(
    g: Graph, scanned: set<Id>, done: set<Id>, rank: map<Id, nat>, path: seq<Id>, node: Id)
    requires Scanning(g, scanned, done, rank, Elements(path))
    requires IsMapping(g, node) && node !in scanned
    requires path != [] ==> Path(g, path) && Edge(g, path[|path| - 1], node)
    ensures Path(g, path + [node]) && Elements(path + [node]) == Elements(path) + {node}
    ensures Scanning(g, scanned + {node}, done, rank, Elements(path + [node]))
  {
    if path != [] {
      PathExtends(g, path, node);
    }
  }

  /** A mapping the scan has not reached is as the author wrote it: the first read of a mapping
      always precedes its flattening. */
  lemma UnscannedIsPristine(
    g: Graph, nodes: Graph, flat: set<Id>, scanned: set<Id>, done: set<Id>, rank: map<Id, nat>, path: seq<Id>, node: Id)
    requires Heap(g, nodes, flat) && flat <= done && Scanning(g, scanned, done, rank, Elements(path))
    requires IsMapping(g, node)
    ensures node !in scanned ==> node in nodes.Keys && nodes[node] == g[node] && nodes[node].Mapping?
    ensures node in scanned && node !in Elements(path) ==> node in done
    ensures node in Elements(path) <==> node in path
  {
  }

  lemma FinishingKeepsScanning(
    g: Graph, scanned: set<Id>, done: set<Id>, rank: map<Id, nat>, path: seq<Id>, node: Id)
    requires Scanning(g, scanned, done, rank, Elements(path) + {node})
    requires IsMapping(g, node) && NoRepeat(g[node].pairs) && node !in Elements(path)
    requires forall s :: Edge(g, node, s) ==> s in done
    ensures Scanning(g, scanned, done + {node}, rank[node := |done|], Elements(path))
  {
    RankedGrows(g, done, rank, node);
    MoveAcross(scanned, done, Elements(path), node);
  }

  lemma MoveAcross(whole: set<Id>, left: set<Id>, right: set<Id>, n: Id)
    requires whole == left + (right + {n}) && left !! (right + {n}) && n !in right
    ensures whole == (left + {n}) + right && (left + {n}) !! right && |left + {n}| == |left| + 1
  {
  }

  lemma RankedGrows(g: Graph, done: set<Id>, rank: map<Id, nat>, node: Id)
    requires Ranked(g, done, rank) && IsMapping(g, node) && node !in done
    requires forall n :: n in done ==> rank[n] < |done|
    requires forall s :: Edge(g, node, s) ==> s in done
    ensures Ranked(g, done + {node}, rank[node := |done|])
  {
    var done', rank' := done + {node}, rank[node := |done|];
    forall a, b | a in done' && Edge(g, a, b)
      ensures b in done' && rank'[b] < rank'[a]
    {
    }
  }

  /** Coming back to a mapping the scan is inside closes a merge cycle through it. */
  lemma RevisitIsACycle(g: Graph, path: seq<Id>, node: Id)
    requires IsMapping(g, node) && node in path
    requires Path(g, path) && Edge(g, path[|path| - 1], node)
    ensures Reaches(g, node, node) && Refusable(g, node)
  {
    var i :| 0 <= i < |path| && path[i] == node;
    var loop := path[i..];
    forall k | 0 <= k < |loop| - 1
      ensures Edge(g, loop[k], loop[k + 1])
    {
      assert Edge(g, path[i + k], path[i + k + 1]);
    }
    PathExtends(g, loop, node);
    assert (loop + [node])[0] == node && (loop + [node])[|loop|] == node;
    assert OnCycle(g, node);
    ReachesItself(g, node);
  }

  lemma RepeatIsRefusable(g: Graph, node: Id, i: nat, j: nat)
    requires IsMapping(g, node) && i < j < |g[node].pairs| && g[node].pairs[i].0 == g[node].pairs[j].0
    ensures Reaches(g, node, node) && Refusable(g, node)
  {
    ReachesItself(g, node);
  }

  /** Flattening rewrites pairs, never what kind of node a node is. */
  lemma SourcesSurviveFlattening(g: Graph, nodes: Graph, flat: set<Id>, v: Id)
    requires Heap(g, nodes, flat) && v in g
    ensures Sources(nodes, v) == Sources(g, v)
  {
    MappingsSurviveFlattening(g, nodes, flat, if g[v].Sequence? then g[v].items else [v]);
  }

  lemma MappingsSurviveFlattening(g: Graph, nodes: Graph, flat: set<Id>, items: seq<Id>)
    requires Heap(g, nodes, flat)
    ensures Mappings(nodes, items) == Mappings(g, items)
  {
    if items != [] {
      MappingsSurviveFlattening(g, nodes, flat, items[1..]);
    }
  }

  /** What one pass over a mapping's pairs has established. */
  ghost predicate Passed(g: Graph, pairs: seq<Pair>, i: nat, seen: set<int>, merged: bool, done: set<Id>) {
    && i <= |pairs|
    && (forall k :: 0 <= k < i && pairs[k].0.Plain? ==> pairs[k].0.k in seen)
    && (forall x :: x in seen ==> exists k :: 0 <= k < i && pairs[k].0 == Plain(x))
    && (merged <==> exists k :: 0 <= k < i && pairs[k].0.Merge?)
    && (forall k, l :: 0 <= k < l < i ==> pairs[k].0 != pairs[l].0)
    && (forall k, s :: 0 <= k < i && pairs[k].0.Merge? && s in Sources(g, pairs[k].1) ==> s in done)
  }

  lemma PassingAKey(g: Graph, pairs: seq<Pair>, i: nat, seen: set<int>, merged: bool, done: set<Id>)
    requires Passed(g, pairs, i, seen, merged, done) && i < |pairs|
    requires pairs[i].0.Plain? && pairs[i].0.k !in seen
    ensures Passed(g, pairs, i + 1, seen + {pairs[i].0.k}, merged, done)
  {
    assert pairs[i].0 == Plain(pairs[i].0.k);
  }

  lemma PassingAMerge(g: Graph, pairs: seq<Pair>, i: nat, seen: set<int>, done: set<Id>, done': set<Id>)
    requires Passed(g, pairs, i, seen, false, done) && i < |pairs| && done <= done'
    requires pairs[i].0.Merge? && forall s :: s in Sources(g, pairs[i].1) ==> s in done'
    ensures Passed(g, pairs, i + 1, seen, true, done')
  {
    hide Sources;
    assert forall x :: x in seen ==> exists k :: 0 <= k < i && pairs[k].0 == Plain(x);
    forall k, l | 0 <= k < l < i + 1
      ensures pairs[k].0 != pairs[l].0
    {
    }
    forall k, s | 0 <= k < i + 1 && pairs[k].0.Merge? && s in Sources(g, pairs[k].1)
      ensures s in done'
    {
    }
  }

  lemma NothingPassed(g: Graph, pairs: seq<Pair>, done: set<Id>)
    ensures Passed(g, pairs, 0, {}, false, done)
  {
  }

  lemma MergedBefore(g: Graph, pairs: seq<Pair>, i: nat, seen: set<int>, done: set<Id>) returns (k: nat)
    requires Passed(g, pairs, i, seen, true, done)
    ensures k < i <= |pairs| && pairs[k].0 == Merge
  {
    k :| k < i && pairs[k].0.Merge?;
  }

  lemma SeenBefore(g: Graph, pairs: seq<Pair>, i: nat, seen: set<int>, merged: bool, done: set<Id>, x: int)
    returns (k: nat)
    requires Passed(g, pairs, i, seen, merged, done) && x in seen
    ensures k < i <= |pairs| && pairs[k].0 == Plain(x)
  {
    k :| k < i && pairs[k].0 == Plain(x);
  }

  lemma PassedAll(g: Graph, node: Id, seen: set<int>, merged: bool, done: set<Id>)
    requires IsMapping(g, node) && Passed(g, g[node].pairs, |g[node].pairs|, seen, merged, done)
    ensures NoRepeat(g[node].pairs) && forall s :: Edge(g, node, s) ==> s in done
  {
  }

  lemma MergeEntriesAreEdges(g: Graph, node: Id, i: nat)
    requires IsMapping(g, node) && i < |g[node].pairs| && g[node].pairs[i].0.Merge?
    ensures forall s :: s in Sources(g, g[node].pairs[i].1) ==> Edge(g, node, s) && IsMapping(g, s)
  {
  }

  // ---------------------------------------------------------------- flattening

  /** What one finished scan lets flattening rely on at an edge. */
  lemma SourceIsReady(g: Graph, scanned: set<Id>, done: set<Id>, rank: map<Id, nat>, node: Id, s: Id)
    requires Scanning(g, scanned, done, rank, {}) && node in done && Edge(g, node, s)
    ensures s in done && s in rank && node in rank && rank[s] < rank[node]
    ensures Flat(g, s, |g|) == Flat(g, s, |g| - 1)
  {
    hide Flat, Edge;
    FewerThanNodes(done, g);
    FuelIsEnough(g, done, rank, s, |g|, |g| - 1);
  }

  lemma BadValueIsReached(g: Graph, node: Id, i: nat)
    requires IsMapping(g, node) && i < |g[node].pairs| && g[node].pairs[i].0.Merge?
    requires !GoodMergeValue(g, g[node].pairs[i].1)
    ensures Reaches(g, node, node) && !GoodMergeValues(g, node)
  {
    ReachesItself(g, node);
  }

  lemma {:induction false} FlatSourcesSnoc(g: Graph, sources: seq<Id>, s: Id, fuel: nat)
    ensures FlatSources(g, sources + [s], fuel) == Flat(g, s, fuel) + FlatSources(g, sources, fuel)
    decreases |sources|
  {
    if sources == [] {
      assert [s][1..] == [];
    } else {
      assert (sources + [s])[1..] == sources[1..] + [s] && (sources + [s])[0] == sources[0];
      FlatSourcesSnoc(g, sources[1..], s, fuel);
    }
  }

  lemma ValueIsANode(g: Graph, nodes: Graph, flat: set<Id>, node: Id, i: nat)
    requires Heap(g, nodes, flat) && IsMapping(g, node) && i < |g[node].pairs|
    ensures g[node].pairs[i].1 in g
  {
  }

  lemma ItemIsANode(g: Graph, nodes: Graph, flat: set<Id>, v: Id, items: seq<Id>, i: nat)
    requires Heap(g, nodes, flat) && Lists(g, v, items) && i < |items|
    ensures items[i] in g
  {
  }

  /** The merge entries passed so far had usable values, and their sources are flattened. */
  ghost predicate Resolved(g: Graph, pairs: seq<Pair>, i: nat, flat: set<Id>) {
    && i <= |pairs|
    && (forall k, s :: 0 <= k < i && pairs[k].0.Merge? && s in Sources(g, pairs[k].1) ==> s in flat)
    && (forall k :: 0 <= k < i && pairs[k].0.Merge? ==> GoodMergeValue(g, pairs[k].1))
  }

  /** What flattening a mapping's pairs has gathered. */
  ghost predicate Gathered(g: Graph, pairs: seq<Pair>, i: nat, merge: seq<Pair>, kept: seq<Pair>) {
    i <= |pairs| && |g| > 0 && merge == FlatMerges(g, pairs[..i], |g| - 1) && kept == Own(pairs[..i])
  }

  lemma GatheringAKey(g: Graph, pairs: seq<Pair>, i: nat, merge: seq<Pair>, kept: seq<Pair>, flat: set<Id>)
    requires Gathered(g, pairs, i, merge, kept) && Resolved(g, pairs, i, flat)
    requires i < |pairs| && pairs[i].0.Plain?
    ensures Gathered(g, pairs, i + 1, merge, kept + [pairs[i]]) && Resolved(g, pairs, i + 1, flat)
  {
    assert pairs[..i + 1] == pairs[..i] + [pairs[i]];
    FlatMergesConcat(g, pairs[..i], [pairs[i]], |g| - 1);
    OwnConcat(pairs[..i], [pairs[i]]);
  }

  lemma GatheringAMerge(g: Graph, pairs: seq<Pair>, i: nat, merge: seq<Pair>, kept: seq<Pair>, spliced: seq<Pair>)
    requires Gathered(g, pairs, i, merge, kept)
    requires i < |pairs| && pairs[i].0.Merge?
    requires spliced == FlatSources(g, Sources(g, pairs[i].1), |g| - 1)
    ensures Gathered(g, pairs, i + 1, merge + spliced, kept)
  {
    assert pairs[..i + 1] == pairs[..i] + [pairs[i]];
    FlatMergesConcat(g, pairs[..i], [pairs[i]], |g| - 1);
    OwnConcat(pairs[..i], [pairs[i]]);
    var last := [pairs[i]];
    assert last[1..] == [];
    assert FlatMerges(g, last, |g| - 1) == spliced;
  }

  lemma ResolvingAMerge(g: Graph, pairs: seq<Pair>, i: nat, flat: set<Id>, flat': set<Id>)
    requires Resolved(g, pairs, i, flat) && flat <= flat' && i < |pairs| && pairs[i].0.Merge?
    requires GoodMergeValue(g, pairs[i].1)
    requires forall s :: s in Sources(g, pairs[i].1) ==> s in flat'
    ensures Resolved(g, pairs, i + 1, flat')
  {
  }

  /** Whether or not a mapping was flattened before, its pairs splice to its flattened pairs. */
  lemma StartFlattening(
    g: Graph, nodes: Graph, flat: set<Id>, scanned: set<Id>, done: set<Id>, rank: map<Id, nat>, node: Id)
    requires Heap(g, nodes, flat) && flat <= done && Scanning(g, scanned, done, rank, {}) && node in done
    ensures IsMapping(g, node) && node in nodes && nodes[node].Mapping? && |g| > 0 && node in rank
    ensures Gathered(g, nodes[node].pairs, 0, [], []) && Resolved(g, nodes[node].pairs, 0, flat)
    ensures FlatMerges(g, nodes[node].pairs, |g| - 1) + Own(nodes[node].pairs) == Flat(g, node, |g|)
    ensures node !in flat ==> nodes[node] == g[node]
    ensures node in flat ==> forall i :: 0 <= i < |nodes[node].pairs| ==> nodes[node].pairs[i].0.Plain?
  {
    hide Heap, Scanning;
    DoneIsMapping(g, scanned, done, rank, node);
    NodeState(g, nodes, flat, node);
    FewerThanNodes({node}, g);
    if node in flat {
      FlatIsPlain(g, node, |g|);
      PlainPairsStand(g, nodes[node].pairs, |g| - 1);
    }
  }

  lemma HeapGrows(g: Graph, nodes: Graph, flat: set<Id>, node: Id)
    requires Heap(g, nodes, flat) && IsMapping(g, node) && GoodMergeValues(g, node)
    requires forall s :: Edge(g, node, s) ==> s in flat
    ensures Heap(g, nodes[node := Mapping(Flat(g, node, |g|))], flat + {node})
  {
  }

  lemma ResolvedAll(g: Graph, node: Id, flat: set<Id>)
    requires IsMapping(g, node) && Resolved(g, g[node].pairs, |g[node].pairs|, flat)
    ensures GoodMergeValues(g, node) && forall s :: Edge(g, node, s) ==> s in flat
  {
  }

  lemma FlatStaysResolved(g: Graph, nodes: Graph, flat: set<Id>, node: Id)
    requires Heap(g, nodes, flat) && node in flat
    ensures IsMapping(g, node) && GoodMergeValues(g, node) && forall s :: Edge(g, node, s) ==> s in flat
  {
  }

  lemma FinishFlattening(
    g: Graph, nodes: Graph, node: Id, pairs: seq<Pair>, merge: seq<Pair>, kept: seq<Pair>, earlier: set<Id>,
      flat: set<Id>)
    requires Heap(g, nodes, flat) && IsMapping(g, node) && earlier <= flat
    requires Gathered(g, pairs, |pairs|, merge, kept) && Resolved(g, pairs, |pairs|, flat)
    requires FlatMerges(g, pairs, |g| - 1) + Own(pairs) == Flat(g, node, |g|)
    requires node in earlier || g[node].pairs == pairs
    ensures Heap(g, nodes[node := Mapping(merge + kept)], flat + {node})
  {
    hide Heap, Resolved;
    assert pairs[..|pairs|] == pairs;
    if node in earlier {
      FlatStaysResolved(g, nodes, flat, node);
    } else {
      ResolvedAll(g, node, flat);
    }
    HeapGrows(g, nodes, flat, node);
  }

  lemma NodeState(g: Graph, nodes: Graph, flat: set<Id>, v: Id)
    requires Heap(g, nodes, flat) && v in g
    ensures v in nodes && (nodes[v].Mapping? <==> IsMapping(g, v))
    ensures v in flat ==> nodes[v] == Mapping(Flat(g, v, |g|))
    ensures v !in flat ==> nodes[v] == g[v]
    ensures nodes[v].Mapping? ==> Lists(g, v, [v])
    ensures nodes[v].Sequence? ==> Lists(g, v, nodes[v].items)
    ensures nodes[v].Scalar? ==> !GoodMergeValue(g, v)
  {
  }

  lemma DoneIsMapping(g: Graph, scanned: set<Id>, done: set<Id>, rank: map<Id, nat>, node: Id)
    requires Scanning(g, scanned, done, rank, {}) && node in done
    ensures IsMapping(g, node) && node in rank
  {
  }

  /** Flattened mappings reach only flattened ones, whose merge values were usable. */
  lemma {:induction false} FlatReachesFlat(g: Graph, nodes: Graph, flat: set<Id>, p: seq<Id>)
    requires Heap(g, nodes, flat) && Path(g, p) && p[0] in flat
    ensures p[|p| - 1] in flat && GoodMergeValues(g, p[|p| - 1])
    decreases |p|
  {
    if |p| > 1 {
      assert Edge(g, p[0], p[1]);
      var q := p[1..];
      forall i | 0 <= i < |q| - 1
        ensures Edge(g, q[i], q[i + 1])
      {
        assert Edge(g, p[i + 1], p[i + 2]);
      }
      FlatReachesFlat(g, nodes, flat, q);
    }
  }

  /** `nodes` is the document as flattening has rewritten it so far; `g` is what was composed. */
  class Loader {
    const g: Graph
    var nodes: Graph
    var scanned: set<Id>
    ghost var done: set<Id>
    ghost var rank: map<Id, nat>
    ghost var flat: set<Id>

    ghost predicate Valid()
      reads this
    {
      Heap(g, nodes, flat) && Scanning(g, scanned, done, rank, {}) && flat <= done
    }

    constructor (g: Graph)
      requires Closed(g)
      ensures Valid() && this.g == g
    {
      this.g, nodes, scanned := g, g, {};
      done, rank, flat := {}, map[], {};
    }

    /** `_refuse_repeated_keys`. It fails only on a mapping worth refusing. */
    method Refuse(node: Id, visiting: set<Id>, ghost path: seq<Id>) returns (ok: bool)
      requires Heap(g, nodes, flat) && flat <= done && IsMapping(g, node)
      requires visiting == Elements(path) && Scanning(g, scanned, done, rank, Elements(path))
      requires path != [] ==> Path(g, path) && Edge(g, path[|path| - 1], node)
      modifies this`scanned, this`done, this`rank
      ensures ok ==> Scanning(g, scanned, done, rank, Elements(path)) && node in done
      ensures old(done) <= done && old(scanned) <= scanned
      ensures !ok ==> exists m :: Reaches(g, node, m) && Refusable(g, m)
      decreases nodes.Keys - scanned, 0
    {
      hide *;
      UnscannedIsPristine(g, nodes, flat, scanned, done, rank, path, node);
      if node in visiting {
        RevisitIsACycle(g, path, node);
        return false;
      }
      if node in scanned {
        return true;
      }
      EnteringKeepsScanning(g, scanned, done, rank, path, node);
      scanned := scanned + {node};
      ok := RefusePairs(node, nodes[node].pairs, visiting + {node}, path + [node]);
      if ok {
        FinishingKeepsScanning(g, scanned, done, rank, path, node);
        rank := rank[node := |done|];
        done := done + {node};
      }
    }

    /** The pairs of one mapping: every key once, and every merge source in its own right. */
    method RefusePairs(node: Id, pairs: seq<Pair>, visiting: set<Id>, ghost path: seq<Id>) returns (ok: bool)
      requires Heap(g, nodes, flat) && flat <= done && IsMapping(g, node) && g[node].pairs == pairs
      requires visiting == Elements(path) && Scanning(g, scanned, done, rank, Elements(path))
      requires Path(g, path) && path[|path| - 1] == node
      modifies this`scanned, this`done, this`rank
      ensures ok ==> Scanning(g, scanned, done, rank, Elements(path)) && NoRepeat(pairs)
      ensures ok ==> forall s :: Edge(g, node, s) ==> s in done
      ensures old(done) <= done && old(scanned) <= scanned
      ensures !ok ==> exists m :: Reaches(g, node, m) && Refusable(g, m)
      decreases nodes.Keys - scanned, 2
    {
      hide Heap, Scanning, Path, Reaches, Refusable, Passed, Edge, NoRepeat, Sources, Elements;
      var seen: set<int> := {};
      var merged := false;
      NothingPassed(g, pairs, done);
      for i := 0 to |pairs|
        invariant Scanning(g, scanned, done, rank, Elements(path)) && old(done) <= done && old(scanned) <= scanned
        invariant Passed(g, pairs, i, seen, merged, done)
      {
        var (key, value) := pairs[i];
        if key.Merge? {
          if merged {
            ghost var k := MergedBefore(g, pairs, i, seen, done);
            RepeatIsRefusable(g, node, k, i);
            return false;
          }
          ghost var before := done;
          ValueIsANode(g, nodes, flat, node, i);
          SourcesSurviveFlattening(g, nodes, flat, value);
          MergeEntriesAreEdges(g, node, i);
          ok := RefuseSources(node, Sources(nodes, value), visiting, path);
          if !ok {
            return;
          }
          PassingAMerge(g, pairs, i, seen, before, done);
          merged := true;
        } else {
          if key.k in seen {
            ghost var k := SeenBefore(g, pairs, i, seen, merged, done, key.k);
            RepeatIsRefusable(g, node, k, i);
            return false;
          }
          PassingAKey(g, pairs, i, seen, merged, done);
          seen := seen + {key.k};
        }
      }
      ok := true;
      PassedAll(g, node, seen, merged, done);
    }

    method RefuseSources(node: Id, sources: seq<Id>, visiting: set<Id>, ghost path: seq<Id>) returns (ok: bool)
      requires Heap(g, nodes, flat) && flat <= done
      requires visiting == Elements(path) && Scanning(g, scanned, done, rank, Elements(path))
      requires forall s :: s in sources ==> Edge(g, node, s) && IsMapping(g, s)
      requires Path(g, path) && path[|path| - 1] == node
      modifies this`scanned, this`done, this`rank
      ensures ok ==> Scanning(g, scanned, done, rank, Elements(path))
      ensures ok ==> forall s :: s in sources ==> s in done
      ensures old(done) <= done && old(scanned) <= scanned
      ensures !ok ==> exists m :: Reaches(g, node, m) && Refusable(g, m)
      decreases nodes.Keys - scanned, 1, |sources|
    {
      hide *;
      if sources == [] {
        return true;
      }
      ok := Refuse(sources[0], visiting, path);
      if !ok {
        ghost var m :| Reaches(g, sources[0], m) && Refusable(g, m);
        ReachesThrough(g, node, sources[0], m);
        return;
      }
      ok := RefuseSources(node, sources[1..], visiting, path);
    }

    /** `flatten_mapping`: splice in each merge source, flattened first, and keep the result. */
    method Flatten(node: Id) returns (ok: bool)
      requires Heap(g, nodes, flat) && flat <= done && Scanning(g, scanned, done, rank, {}) && node in done
      requires node in rank
      modifies this`nodes, this`flat
      ensures ok ==> Heap(g, nodes, flat) && flat <= done && node in flat && old(flat) <= flat
      ensures !ok ==> exists m :: Reaches(g, node, m) && !GoodMergeValues(g, m)
      decreases rank[node], 2
    {
      hide *;
      StartFlattening(g, nodes, flat, scanned, done, rank, node);
      var pairs := nodes[node].pairs;
      var merge: seq<Pair>, kept: seq<Pair> := [], [];
      for i := 0 to |pairs|
        invariant Heap(g, nodes, flat) && flat <= done && old(flat) <= flat
        invariant Gathered(g, pairs, i, merge, kept) && Resolved(g, pairs, i, flat)
      {
        var (key, value) := pairs[i];
        if key.Merge? {
          ghost var was := flat;
          var spliced;
          ok, spliced := FlattenValue(node, i, value);
          if !ok {
            return;
          }
          GatheringAMerge(g, pairs, i, merge, kept, spliced);
          ResolvingAMerge(g, pairs, i, was, flat);
          merge := merge + spliced;
        } else {
          GatheringAKey(g, pairs, i, merge, kept, flat);
          kept := kept + [pairs[i]];
        }
      }
      ok := true;
      FinishFlattening(g, nodes, node, pairs, merge, kept, old(flat), flat);
      nodes := nodes[node := Mapping(merge + kept)];
      flat := flat + {node};
    }

    /** The pairs one `<<` contributes: a mapping's, or a list's with the earlier after the later. */
    method FlattenValue(node: Id, ghost at: nat, value: Id) returns (ok: bool, spliced: seq<Pair>)
      requires Heap(g, nodes, flat) && flat <= done && Scanning(g, scanned, done, rank, {}) && node in done
      requires IsMapping(g, node) && at < |g[node].pairs| && g[node].pairs[at] == (Merge, value)
      requires |g| > 0 && node in rank
      modifies this`nodes, this`flat
      ensures ok ==> Heap(g, nodes, flat) && flat <= done && old(flat) <= flat
      ensures ok ==> GoodMergeValue(g, value) && spliced == FlatSources(g, Sources(g, value), |g| - 1)
      ensures ok ==> forall s :: s in Sources(g, value) ==> s in flat
      ensures !ok ==> exists m :: Reaches(g, node, m) && !GoodMergeValues(g, m)
      decreases rank[node], 1
    {
      hide *;
      ValueIsANode(g, nodes, flat, node, at);
      NodeState(g, nodes, flat, value);
      spliced := [];
      var items: seq<Id> := [];
      if nodes[value].Mapping? {
        items := [value];
      } else if nodes[value].Sequence? {
        items := nodes[value].items;
      } else {
        BadValueIsReached(g, node, at);
        return false, [];
      }
      NothingSpliced(g, |g| - 1);
      for i := 0 to |items|
        invariant Heap(g, nodes, flat) && flat <= done && old(flat) <= flat
        invariant forall k :: 0 <= k < i ==> items[k] in flat && IsMapping(g, items[k])
        invariant spliced == FlatSources(g, items[..i], |g| - 1)
      {
        ItemIsANode(g, nodes, flat, value, items, i);
        NodeState(g, nodes, flat, items[i]);
        if !nodes[items[i]].Mapping? {
          BadItemIsBad(g, value, items, i);
          BadValueIsReached(g, node, at);
          return false, [];
        }
        ItemIsASource(g, node, at, items, i);
        SourceIsReady(g, scanned, done, rank, node, items[i]);
        ok := Flatten(items[i]);
        if !ok {
          ghost var m :| Reaches(g, items[i], m) && !GoodMergeValues(g, m);
          ReachesThrough(g, node, items[i], m);
          return;
        }
        NodeState(g, nodes, flat, items[i]);
        FlatSourcesSnoc(g, items[..i], items[i], |g| - 1);
        assert items[..i + 1] == items[..i] + [items[i]];
        spliced := nodes[items[i]].pairs + spliced;
      }
      ok := true;
      assert items[..|items|] == items;
      ItemsAreGood(g, value, items);
    }

    /** `construct_mapping`: scan, flatten, build. Whether it succeeds and what it builds depend on
        the document and this mapping alone, not on what was constructed before. */
    method Construct(n: Id) returns (ok: bool, value: map<int, Id>)
      requires Valid() && IsMapping(g, n)
      modifies this
      ensures ok <==> Acceptable(g, n)
      ensures ok ==> Valid() && value == Meaning(g, n, |g|)
    {
      hide Heap, Scanning, Refusable, GoodMergeValues;
      value := map[];
      ok := Refuse(n, {}, []);
      if !ok {
        return;
      }
      DoneIsMapping(g, scanned, done, rank, n);
      ok := Flatten(n);
      if !ok {
        return;
      }
      NodeState(g, nodes, flat, n);
      FlatMeansMeaning(g, n, |g|);
      value := Dict(nodes[n].pairs);
      forall m | Reaches(g, n, m)
        ensures !Refusable(g, m) && GoodMergeValues(g, m)
      {
        var p :| Path(g, p) && p[0] == n && p[|p| - 1] == m;
        FlatReachesFlat(g, nodes, flat, p);
        DoneIsFine(g, scanned, done, rank, m);
      }
    }
  }

  lemma DoneIsFine(g: Graph, scanned: set<Id>, done: set<Id>, rank: map<Id, nat>, m: Id)
    requires Scanning(g, scanned, done, rank, {}) && m in done
    ensures !Refusable(g, m)
  {
    RankedHasNoCycle(g, done, rank, m);
  }

  /** Loading a document: any sequence of constructions, in any order, scanning and flattening as
      it goes. It succeeds exactly when no mapping reached from one of them, by any chain of merges,
      repeats a key, merges itself or merges something that is not a mapping; and then each value
      is what the merge-key type gives the mapping as its author wrote it. */
  method Load(g: Graph, calls: seq<Id>) returns (ok: bool, values: seq<map<int, Id>>)
    requires Closed(g) && forall i :: 0 <= i < |calls| ==> IsMapping(g, calls[i])
    ensures ok <==> forall i :: 0 <= i < |calls| ==> Acceptable(g, calls[i])
    ensures ok ==> |values| == |calls| && forall i :: 0 <= i < |calls| ==> values[i] == Meaning(g, calls[i], |g|)
  {
    hide Closed, Acceptable, Heap, Scanning;
    var loader := new Loader(g);
    values := [];
    for i := 0 to |calls|
      invariant loader.Valid() && loader.g == g && |values| == i
      invariant forall k :: 0 <= k < i ==> Acceptable(g, calls[k]) && values[k] == Meaning(g, calls[k], |g|)
    {
      var value;
      ok, value := loader.Construct(calls[i]);
      if !ok {
        return;
      }
      values := values + [value];
    }
    ok := true;
  }

  // ---------------------------------------------------------------- one reading

  /** The first of the sources that has the key. */
  ghost predicate FirstWith(g: Graph, sources: seq<Id>, fuel: nat, k: int, i: nat)
    requires i < |sources|
  {
    k in Meaning(g, sources[i], fuel) && forall j :: 0 <= j < i ==> k !in Meaning(g, sources[j], fuel)
  }

  /** A merged key has the value of the first source that has it. */
  lemma {:induction false} FirstSourceWins(g: Graph, sources: seq<Id>, fuel: nat, k: int)
    ensures k in SourcesMeaning(g, sources, fuel) <==>
      exists i :: 0 <= i < |sources| && k in Meaning(g, sources[i], fuel)
    ensures forall i :: 0 <= i < |sources| && FirstWith(g, sources, fuel, k, i) ==>
      k in SourcesMeaning(g, sources, fuel) && SourcesMeaning(g, sources, fuel)[k] == Meaning(g, sources[i], fuel)[k]
    decreases |sources|
  {
    if sources != [] {
      FirstSourceWins(g, sources[1..], fuel, k);
      assert forall i :: 0 < i < |sources| ==> sources[i] == sources[1..][i - 1];
      forall i | 0 < i < |sources| && FirstWith(g, sources, fuel, k, i)
        ensures FirstWith(g, sources[1..], fuel, k, i - 1)
      {
        forall j | 0 <= j < i - 1
          ensures k !in Meaning(g, sources[1..][j], fuel)
        {
          assert sources[1..][j] == sources[j + 1];
        }
      }
    }
  }

  /** Without repeats, a dictionary holds exactly the pairs written. */
  lemma {:induction false} DictHoldsThePairs(pairs: seq<Pair>, k: int, v: Id)
    requires NoRepeat(pairs)
    ensures (Plain(k), v) in pairs <==> k in Dict(pairs) && Dict(pairs)[k] == v
    decreases |pairs|
  {
    if pairs != [] {
      var i := |pairs| - 1;
      assert pairs == pairs[..i] + [pairs[i]];
      DictHoldsThePairs(pairs[..i], k, v);
    }
  }

  lemma {:induction false} OwnKeepsThePlain(pairs: seq<Pair>)
    ensures forall p :: p in Own(pairs) <==> p in pairs && p.0.Plain?
    ensures NoRepeat(pairs) ==> NoRepeat(Own(pairs))
  {
    if pairs != [] {
      OwnKeepsThePlain(pairs[1..]);
      assert pairs == [pairs[0]] + pairs[1..];
      if NoRepeat(pairs) {
        assert forall i :: 0 <= i < |Own(pairs[1..])| ==> Own(pairs[1..])[i] in Own(pairs[1..]);
        forall p | p in pairs[1..]
          ensures p.0 != pairs[0].0
        {
          var j :| 0 <= j < |pairs[1..]| && pairs[1..][j] == p;
          assert pairs[j + 1] == p;
        }
      }
    }
  }

  /** The author's entries in another order: same entries, same kinds of node, same lists. */
  ghost predicate Permuted(g: Graph, h: Graph) {
    && g.Keys == h.Keys
    && forall n :: n in g ==>
      if g[n].Mapping? then h[n].Mapping? && multiset(g[n].pairs) == multiset(h[n].pairs) else h[n] == g[n]
  }

  lemma PermutedSources(g: Graph, h: Graph, v: Id)
    requires Permuted(g, h)
    ensures Sources(g, v) == Sources(h, v)
  {
    if v in g {
      PermutedMappings(g, h, if g[v].Sequence? then g[v].items else [v]);
    }
  }

  lemma PermutedMappings(g: Graph, h: Graph, items: seq<Id>)
    requires Permuted(g, h)
    ensures Mappings(g, items) == Mappings(h, items)
  {
    if items != [] {
      PermutedMappings(g, h, items[1..]);
    }
  }

  lemma SameMembers(a: seq<Pair>, b: seq<Pair>)
    requires multiset(a) == multiset(b)
    ensures |a| == |b| && forall p :: p in a <==> p in b
    ensures NoRepeat(a) ==> NoRepeat(b)
  {
    assert |a| == |multiset(a)| == |multiset(b)| == |b|;
    forall p
      ensures p in a <==> p in b
    {
      assert p in a <==> p in multiset(a);
      assert p in b <==> p in multiset(b);
    }
    if NoRepeat(a) {
      forall i, j | 0 <= i < j < |b|
        ensures b[i].0 != b[j].0
      {
        if b[i].0 == b[j].0 {
          assert b[i] in b && b[j] in b;
          var x :| 0 <= x < |a| && a[x] == b[i];
          var y :| 0 <= y < |a| && a[y] == b[j];
          assert x == y;
          TwiceInB(b, i, j);
          OnceInA(a, x);
          assert false;
        }
      }
    }
  }

  lemma TwiceInB(b: seq<Pair>, i: nat, j: nat)
    requires i < j < |b| && b[i] == b[j]
    ensures multiset(b)[b[i]] >= 2
  {
    assert b == b[..i] + [b[i]] + b[i + 1..j] + [b[j]] + b[j + 1..];
  }

  lemma OnceInA(a: seq<Pair>, x: nat)
    requires NoRepeat(a) && x < |a|
    ensures multiset(a)[a[x]] == 1
  {
    assert a == a[..x] + [a[x]] + a[x + 1..];
    assert a[x] !in a[..x] && a[x] !in a[x + 1..];
  }

  lemma SameOwn(a: seq<Pair>, b: seq<Pair>)
    requires multiset(a) == multiset(b) && NoRepeat(a)
    ensures Dict(Own(a)) == Dict(Own(b))
  {
    SameMembers(a, b);
    OwnKeepsThePlain(a);
    OwnKeepsThePlain(b);
    forall k
      ensures Look(Dict(Own(a)), k) == Look(Dict(Own(b)), k)
    {
      if k in Dict(Own(a)) {
        DictHoldsThePairs(Own(a), k, Dict(Own(a))[k]);
        DictHoldsThePairs(Own(b), k, Dict(Own(a))[k]);
      } else if k in Dict(Own(b)) {
        DictHoldsThePairs(Own(b), k, Dict(Own(b))[k]);
        DictHoldsThePairs(Own(a), k, Dict(Own(b))[k]);
      }
    }
    SameLooksSameMap(Dict(Own(a)), Dict(Own(b)));
  }

  /** A mapping with at most one `<<` merges what that one lists, wherever it was written. */
  lemma {:induction false} TheMerge(g: Graph, pairs: seq<Pair>, fuel: nat)
    requires NoRepeat(pairs)
    ensures forall v :: (Merge, v) in pairs ==> MergesMeaning(g, pairs, fuel) == SourcesMeaning(g, Sources(g, v), fuel)
    ensures (forall v :: (Merge, v) !in pairs) ==> MergesMeaning(g, pairs, fuel) == map[]
    decreases |pairs|
  {
    if pairs != [] {
      TheMerge(g, pairs[1..], fuel);
      assert pairs == [pairs[0]] + pairs[1..];
      if pairs[0].0.Merge? {
        forall j | 1 <= j < |pairs|
          ensures pairs[j].0 != Merge
        {
          assert pairs[j].0 != pairs[0].0;
        }
        assert forall v :: (Merge, v) !in pairs[1..];
        assert pairs[0] == (Merge, pairs[0].1);
        assert MergesMeaning(g, pairs, fuel) == SourcesMeaning(g, Sources(g, pairs[0].1), fuel) + map[];
      } else {
        assert MergesMeaning(g, pairs, fuel) == map[] + MergesMeaning(g, pairs[1..], fuel);
      }
    }
  }

  /** The document has one reading: permuting the entries an author wrote, in any or every mapping
      of an accepted document, changes no mapping's meaning. */
  lemma {:induction false} OneReading(g: Graph, h: Graph, n: Id, fuel: nat)
    requires Permuted(g, h) && forall m :: Reaches(g, n, m) ==> NoRepeat(g[m].pairs)
    ensures Meaning(g, n, fuel) == Meaning(h, n, fuel)
    decreases fuel, 1
  {
    if fuel > 0 && IsMapping(g, n) {
      var a, b := g[n].pairs, h[n].pairs;
      ReachesItself(g, n);
      SameOwn(a, b);
      OneMerge(g, h, n, fuel - 1);
    }
  }

  lemma {:induction false} OneMerge(g: Graph, h: Graph, n: Id, fuel: nat)
    requires Permuted(g, h) && IsMapping(g, n) && NoRepeat(g[n].pairs)
    requires forall m :: Reaches(g, n, m) ==> NoRepeat(g[m].pairs)
    ensures MergesMeaning(g, g[n].pairs, fuel) == MergesMeaning(h, h[n].pairs, fuel)
    decreases fuel, 3
  {
    var a, b := g[n].pairs, h[n].pairs;
    SameMembers(a, b);
    TheMerge(g, a, fuel);
    TheMerge(h, b, fuel);
    if v :| (Merge, v) in a {
      PermutedSources(g, h, v);
      SourcesAreReached(g, n, v);
      SourcesRead(g, h, Sources(g, v), fuel);
    }
  }

  lemma SourcesAreReached(g: Graph, n: Id, v: Id)
    requires IsMapping(g, n) && (Merge, v) in g[n].pairs
    ensures forall s, m :: s in Sources(g, v) && Reaches(g, s, m) ==> Reaches(g, n, m)
  {
    var i :| 0 <= i < |g[n].pairs| && g[n].pairs[i] == (Merge, v);
    MergeEntriesAreEdges(g, n, i);
    forall s, m | s in Sources(g, v) && Reaches(g, s, m)
      ensures Reaches(g, n, m)
    {
      ReachesThrough(g, n, s, m);
    }
  }

  lemma {:induction false} SourcesRead(g: Graph, h: Graph, sources: seq<Id>, fuel: nat)
    requires Permuted(g, h)
    requires forall s, m :: s in sources && Reaches(g, s, m) ==> NoRepeat(g[m].pairs)
    ensures SourcesMeaning(g, sources, fuel) == SourcesMeaning(h, sources, fuel)
    decreases fuel, 2, |sources|
  {
    if sources != [] {
      OneReading(g, h, sources[0], fuel);
      SourcesRead(g, h, sources[1..], fuel);
    }
  }

  lemma SameEdges(g: Graph, h: Graph, a: Id, b: Id)
    requires Permuted(g, h) && Edge(g, a, b)
    ensures Edge(h, a, b)
  {
    var i :| 0 <= i < |g[a].pairs| && g[a].pairs[i].0.Merge? && b in Sources(g, g[a].pairs[i].1);
    SameMembers(g[a].pairs, h[a].pairs);
    assert g[a].pairs[i] in g[a].pairs;
    var j :| 0 <= j < |h[a].pairs| && h[a].pairs[j] == g[a].pairs[i];
    PermutedSources(g, h, g[a].pairs[i].1);
  }

  lemma SamePaths(g: Graph, h: Graph, p: seq<Id>)
    requires Permuted(g, h) && Path(g, p)
    ensures Path(h, p)
  {
    forall i | 0 <= i < |p| - 1
      ensures Edge(h, p[i], p[i + 1])
    {
      SameEdges(g, h, p[i], p[i + 1]);
    }
  }

  lemma SameMergeValue(g: Graph, h: Graph, v: Id)
    requires Permuted(g, h) && GoodMergeValue(g, v)
    ensures GoodMergeValue(h, v)
  {
  }

  lemma SameFaults(g: Graph, h: Graph, m: Id)
    requires Permuted(g, h) && !Refusable(g, m) && GoodMergeValues(g, m)
    ensures !Refusable(h, m) && GoodMergeValues(h, m)
  {
    if IsMapping(g, m) {
      SameMembers(g[m].pairs, h[m].pairs);
      if OnCycle(h, m) {
        var p :| Path(h, p) && |p| > 1 && p[0] == m && p[|p| - 1] == m;
        SamePaths(h, g, p);
      }
      forall i | 0 <= i < |h[m].pairs| && h[m].pairs[i].0.Merge?
        ensures GoodMergeValue(h, h[m].pairs[i].1)
      {
        assert h[m].pairs[i] in g[m].pairs;
        SameMergeValue(g, h, h[m].pairs[i].1);
      }
    }
  }

  lemma StaysAcceptable(g: Graph, h: Graph, n: Id)
    requires Permuted(g, h) && Acceptable(g, n)
    ensures Acceptable(h, n)
  {
    forall m | Reaches(h, n, m)
      ensures !Refusable(h, m) && GoodMergeValues(h, m)
    {
      var p :| Path(h, p) && p[0] == n && p[|p| - 1] == m;
      SamePaths(h, g, p);
      SameFaults(g, h, m);
    }
  }

  /** Reordering the entries of any mappings changes neither whether a document loads nor what a
      mapping of it means. */
  lemma OrderIsIrrelevant(g: Graph, h: Graph, n: Id)
    requires Permuted(g, h) && IsMapping(g, n)
    ensures Acceptable(g, n) <==> Acceptable(h, n)
    ensures Acceptable(g, n) ==> Meaning(g, n, |g|) == Meaning(h, n, |h|)
  {
    if Acceptable(h, n) {
      StaysAcceptable(h, g, n);
    }
    if Acceptable(g, n) {
      StaysAcceptable(g, h, n);
      forall m | Reaches(g, n, m)
        ensures NoRepeat(g[m].pairs)
      {
        assert !Refusable(g, m);
      }
      OneReading(g, h, n, |g|);
      assert |g| == |g.Keys| == |h.Keys| == |h|;
    }
  }
}
