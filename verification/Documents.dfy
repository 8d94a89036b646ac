/** Why kubectl would refuse a document, List members included. */
module Documents {
  import opened Wrappers
  import opened Json
  import opened Files

  datatype Fault = NotAnObject | NoApiVersion | NoKind | EmptyList | NoMetadata | NoName

  /** A fault, and where: the item indices followed through nested Lists. */
  datatype Problem = Problem(path: seq<nat>, fault: Fault)

  predicate Text(v: JSON) {
    v.JStr? && v.s != ""
  }

  /** The same, of what is under a key. */
  predicate Worded(fields: map<string, JSON>, key: string) {
    key in fields && fields[key].JStr? && |fields[key].s| > 0
  }

  predicate IsList(d: JSON) {
    d.JObj? && Get(d.fields, "kind") == JStr("List")
  }

  /** What is wrong with a value apart from its members. */
  function LocalFault(n: Node): Option<Fault> {
    var d := n.shell;
    if !d.JObj? then Some(NotAnObject)
    else if !Text(Get(d.fields, "apiVersion")) then Some(NoApiVersion)
    else if !Text(Get(d.fields, "kind")) then Some(NoKind)
    else if IsList(d) then
      if n.items.None? || n.items.value == [] then Some(EmptyList) else None
    else
      var meta := Get(d.fields, "metadata");
      if !meta.JObj? || meta.fields == map[] then Some(NoMetadata)
      else if !Truthy(Get(meta.fields, "name")) && !Truthy(Get(meta.fields, "generateName")) then Some(NoName)
      else None
  }

  function NodeAt(h: Heap, id: Id): Node {
    if id in h then h[id] else Node(JNull, None)
  }

  /** A List kubectl goes into: an object that names its version and its kind, and has items. */
  predicate OpensUp(h: Heap, id: Id) {
    && id in h && h[id].shell.JObj? && h[id].items.Some? && |h[id].items.value| > 0
    && Worded(h[id].shell.fields, "apiVersion") && Worded(h[id].shell.fields, "kind")
    && h[id].shell.fields["kind"].s == "List"
  }

  /** The members of a valid List, all of them in order; every other value has none. */
  function Members(h: Heap, id: Id): (r: seq<Id>)
    ensures OpensUp(h, id) ==> r == h[id].items.value
    ensures !OpensUp(h, id) ==> r == []
  {
    var n := NodeAt(h, id);
    if LocalFault(n).None? && IsList(n.shell) then n.items.value else []
  }

  /** `_document_problems` on an interpreter with so many frames left, with the place of a member as
      a path rather than as prose; `None` is the RecursionError. */
  function Problems(h: Heap, id: Id, path: seq<nat>, frames: nat): Option<seq<Problem>>
    decreases frames, 0
  {
    if frames == 0 then None
    else if LocalFault(NodeAt(h, id)).Some? then Some([Problem(path, LocalFault(NodeAt(h, id)).value)])
    else MemberProblems(h, Members(h, id), path, 0, frames - 1)
  }

  function MemberProblems(h: Heap, members: seq<Id>, path: seq<nat>, i: nat, frames: nat): Option<seq<Problem>>
    requires i <= |members|
    decreases frames, 1 + |members| - i
  {
    if i == |members| then Some([])
    else
      match Problems(h, members[i], path + [i], frames)
      case None => None
      case Some(first) =>
        match MemberProblems(h, members, path, i + 1, frames)
        case None => None
        case Some(rest) => Some(first + rest)
  }

  // ---------------------------------------------------------------- when the check returns

  /** A way down from a value through valid Lists. */
  ghost predicate Trail(h: Heap, p: seq<Id>) {
    p != [] && forall i :: 0 <= i < |p| - 1 ==> p[i + 1] in Members(h, p[i])
  }

  /** Some way down takes so many steps. */
  ghost predicate Reaches(h: Heap, id: Id, steps: nat) {
    exists p: seq<Id> :: |p| == steps + 1 && p[0] == id && Trail(h, p)
  }

  lemma ReachesFurther(h: Heap, id: Id, member: Id, steps: nat)
    requires member in Members(h, id) && Reaches(h, member, steps)
    ensures Reaches(h, id, steps + 1)
  {
    hide Members;
    var p: seq<Id> :| |p| == steps + 1 && p[0] == member && Trail(h, p);
    var q := [id] + p;
    forall i | 0 <= i < |q| - 1
      ensures q[i + 1] in Members(h, q[i])
    {
      if i > 0 {
        assert p[i] in Members(h, p[i - 1]);
      }
    }
    assert |q| == steps + 2 && q[0] == id && Trail(h, q);
  }

  lemma ReachesThroughAMember(h: Heap, id: Id, steps: nat) returns (member: Id)
    requires Reaches(h, id, steps + 1)
    ensures member in Members(h, id) && Reaches(h, member, steps)
  {
    hide Members;
    var p: seq<Id> :| |p| == steps + 2 && p[0] == id && Trail(h, p);
    member := p[1];
    assert p[0 + 1] in Members(h, p[0]);
    forall i | 0 <= i < |p[1..]| - 1
      ensures p[1..][i + 1] in Members(h, p[1..][i])
    {
      assert p[(i + 1) + 1] in Members(h, p[i + 1]);
    }
    assert |p[1..]| == steps + 1 && p[1..][0] == member && Trail(h, p[1..]);
  }

  lemma NoMembers(h: Heap, id: Id)
    requires LocalFault(NodeAt(h, id)).Some?
    ensures Members(h, id) == []
  {
  }

  /** The check runs out of frames exactly when some way down is as long as there are frames. */
  lemma {:induction false} ReturnsIff(h: Heap, id: Id, path: seq<nat>, frames: nat)
    ensures Problems(h, id, path, frames).None? <==> Reaches(h, id, frames)
    decreases frames, 0
  {
    hide Members, LocalFault, Reaches;
    if frames == 0 {
      OneStands(h, id);
    } else if LocalFault(NodeAt(h, id)).Some? {
      NoMembers(h, id);
      if Reaches(h, id, frames) {
        var member := ReachesThroughAMember(h, id, frames - 1);
      }
    } else {
      MembersReturnIff(h, Members(h, id), path, 0, frames - 1);
      if Reaches(h, id, frames) {
        var member := ReachesThroughAMember(h, id, frames - 1);
        var i :| 0 <= i < |Members(h, id)| && Members(h, id)[i] == member;
      }
      if i :| 0 <= i < |Members(h, id)| && Reaches(h, Members(h, id)[i], frames - 1) {
        ReachesFurther(h, id, Members(h, id)[i], frames - 1);
      }
    }
  }

  lemma OneStands(h: Heap, id: Id)
    ensures Reaches(h, id, 0)
  {
    assert |[id]| == 0 + 1 && [id][0] == id && Trail(h, [id]);
  }

  lemma {:induction false} MembersReturnIff(h: Heap, members: seq<Id>, path: seq<nat>, i: nat, frames: nat)
    requires i <= |members|
    ensures MemberProblems(h, members, path, i, frames).None? <==>
      exists k :: i <= k < |members| && Reaches(h, members[k], frames)
    decreases frames, 1 + |members| - i
  {
    hide Reaches;
    if i < |members| {
      ReturnsIff(h, members[i], path + [i], frames);
      MembersReturnIff(h, members, path, i + 1, frames);
    }
  }

  /** A List reached through valid Lists that holds itself, at whatever depth. */
  ghost predicate HoldsItself(h: Heap, id: Id) {
    exists p: seq<Id>, i: nat, k: nat :: i < k < |p| && p[0] == id && Trail(h, p) && p[i] == p[k]
  }

  lemma TrailsCut(h: Heap, p: seq<Id>, n: nat)
    requires Trail(h, p) && 0 < n <= |p|
    ensures Trail(h, p[..n])
  {
    hide Members;
    forall i | 0 <= i < n - 1
      ensures p[..n][i + 1] in Members(h, p[..n][i])
    {
      assert p[i + 1] in Members(h, p[i]);
    }
  }

  lemma TrailsJoin(h: Heap, p: seq<Id>, q: seq<Id>)
    requires Trail(h, p) && Trail(h, q) && q[0] in Members(h, p[|p| - 1])
    ensures Trail(h, p + q)
  {
    hide Members;
    var r := p + q;
    forall i | 0 <= i < |r| - 1
      ensures r[i + 1] in Members(h, r[i])
    {
      if i < |p| - 1 {
        assert p[i + 1] in Members(h, p[i]);
      } else if i > |p| - 1 {
        assert q[i - |p| + 1] in Members(h, q[i - |p|]);
      }
    }
  }

  lemma TrailsStart(h: Heap, p: seq<Id>, n: nat)
    requires Trail(h, p) && n < |p|
    ensures Trail(h, p[n..])
  {
    hide Members;
    forall i | 0 <= i < |p| - n - 1
      ensures p[n..][i + 1] in Members(h, p[n..][i])
    {
      assert p[n + i + 1] in Members(h, p[n + i]);
    }
  }

  /** Once round the loop and back is a way down longer than any. */
  lemma {:induction false} LoopsGoOn(h: Heap, p: seq<Id>, i: nat, k: nat, n: nat) returns (q: seq<Id>)
    requires i < k < |p| && Trail(h, p) && p[i] == p[k]
    ensures Trail(h, q) && q[0] == p[0] && |q| > n && q[|q| - 1] == p[i]
  {
    hide Members;
    if n == 0 {
      q := p[..i + 1];
      TrailsCut(h, p, i + 1);
    } else {
      var before := LoopsGoOn(h, p, i, k, n - 1);
      var round := p[i + 1..k + 1];
      TrailsStart(h, p, i + 1);
      TrailsCut(h, p[i + 1..], k - i);
      assert p[i + 1..][..k - i] == round;
      assert p[i + 1] in Members(h, p[i]);
      TrailsJoin(h, before, round);
      q := before + round;
    }
  }

  lemma LoopsReachEverything(h: Heap, id: Id, steps: nat)
    requires HoldsItself(h, id)
    ensures Reaches(h, id, steps)
  {
    hide Members, Trail;
    var p: seq<Id>, i: nat, k: nat :| i < k < |p| && p[0] == id && Trail(h, p) && p[i] == p[k];
    var q := LoopsGoOn(h, p, i, k, steps);
    TrailsCut(h, q, steps + 1);
    assert |q[..steps + 1]| == steps + 1 && q[..steps + 1][0] == id;
  }

  lemma TrailsStayInTheHeap(h: Heap, p: seq<Id>, i: nat)
    requires Trail(h, p) && i < |p| - 1
    ensures p[i] in h
  {
    assert p[i + 1] in Members(h, p[i]);
  }

  lemma {:induction false} DistinctFit(ids: seq<Id>, s: set<Id>)
    requires NoDup(ids) && forall i :: 0 <= i < |ids| ==> ids[i] in s
    ensures |ids| <= |s|
    decreases |ids|
  {
    if ids != [] {
      var last := ids[|ids| - 1];
      DistinctFit(ids[..|ids| - 1], s - {last});
    }
  }

  /** With frames for every value of the document the check returns if and only if no List reached
      through valid Lists holds itself; on one that does it never returns. */
  lemma ChecksEndIff(h: Heap, id: Id, path: seq<nat>, frames: nat)
    ensures HoldsItself(h, id) ==> Problems(h, id, path, frames).None?
    ensures frames > |h| ==> (Problems(h, id, path, frames).Some? <==> !HoldsItself(h, id))
  {
    hide Members, Problems, Trail;
    ReturnsIff(h, id, path, frames);
    if HoldsItself(h, id) {
      LoopsReachEverything(h, id, frames);
    } else if frames > |h| && Reaches(h, id, frames) {
      var p: seq<Id> :| |p| == frames + 1 && p[0] == id && Trail(h, p);
      var q := p[..frames];
      forall i | 0 <= i < |q|
        ensures q[i] in h.Keys
      {
        TrailsStayInTheHeap(h, p, i);
      }
      forall i: nat, k: nat | i < k < |q|
        ensures q[i] != q[k]
      {
        assert p[i] == q[i] && p[k] == q[k];
      }
      DistinctFit(q, h.Keys);
    }
  }

  // ---------------------------------------------------------------- what it finds

  /** The value a path leads to. */
  function At(h: Heap, id: Id, path: seq<nat>): Option<Id>
    decreases |path|
  {
    if path == [] then Some(id)
    else if path[0] < |Members(h, id)| then At(h, Members(h, id)[path[0]], path[1..])
    else None
  }

  ghost predicate FaultAt(h: Heap, id: Id, path: seq<nat>, f: Fault) {
    At(h, id, path).Some? && LocalFault(NodeAt(h, At(h, id, path).value)) == Some(f)
  }

  /** Nothing is missed and nothing is invented: a fault is listed at a path exactly when the value
      there, however deep in nested Lists, has it. */
  lemma {:induction false} ProblemsAreExact(h: Heap, id: Id, path: seq<nat>, frames: nat, p: Problem)
    requires Problems(h, id, path, frames).Some?
    ensures p in Problems(h, id, path, frames).value <==>
      path <= p.path && FaultAt(h, id, p.path[|path|..], p.fault)
    decreases frames, 0
  {
    if LocalFault(NodeAt(h, id)).Some? {
      NoMembers(h, id);
      if path <= p.path && p.path != path {
        assert p.path[|path|..] != [];
      }
      if path <= p.path && p.path[|path|..] == [] {
        assert p.path == path;
      }
    } else {
      MemberProblemsAreExact(h, id, path, 0, frames - 1, p);
    }
  }

  lemma {:induction false} MemberProblemsAreExact(h: Heap, id: Id, path: seq<nat>, i: nat, frames: nat, p: Problem)
    requires LocalFault(NodeAt(h, id)).None? && i <= |Members(h, id)|
    requires MemberProblems(h, Members(h, id), path, i, frames).Some?
    ensures p in MemberProblems(h, Members(h, id), path, i, frames).value <==>
      path < p.path && i <= p.path[|path|] && FaultAt(h, id, p.path[|path|..], p.fault)
    decreases frames, 1 + |Members(h, id)| - i
  {
    hide LocalFault, Members;
    if i < |Members(h, id)| {
      ProblemsAreExact(h, Members(h, id)[i], path + [i], frames, p);
      MemberProblemsAreExact(h, id, path, i + 1, frames, p);
      if path < p.path {
        var rest := p.path[|path|..];
        assert rest[1..] == p.path[|path| + 1..];
        assert path + [i] <= p.path <==> p.path[|path|] == i by {
          assert p.path[..|path| + 1] == path + [p.path[|path|]];
        }
      }
    } else if path < p.path {
      assert p.path[|path|..][0] == p.path[|path|];
    }
  }

  /** A value passes exactly when it wants nothing itself and each of its items, if it is a List,
      passes in its place. */
  lemma PassesIff(h: Heap, id: Id, path: seq<nat>, frames: nat)
    requires frames > 0
    ensures Problems(h, id, path, frames) == Some([]) <==>
      && LocalFault(NodeAt(h, id)).None?
      && (OpensUp(h, id) ==>
            forall i :: 0 <= i < |h[id].items.value| ==>
              Problems(h, h[id].items.value[i], path + [i], frames - 1) == Some([]))
  {
    hide LocalFault, OpensUp, NodeAt;
    if LocalFault(NodeAt(h, id)).None? {
      AllPassIff(h, Members(h, id), path, 0, frames - 1);
    }
  }

  lemma {:induction false} AllPassIff(h: Heap, members: seq<Id>, path: seq<nat>, i: nat, frames: nat)
    requires i <= |members|
    ensures MemberProblems(h, members, path, i, frames) == Some([]) <==>
      forall k :: i <= k < |members| ==> Problems(h, members[k], path + [k], frames) == Some([])
    decreases |members| - i
  {
    hide Problems;
    if i < |members| {
      AllPassIff(h, members, path, i + 1, frames);
      var first, rest := Problems(h, members[i], path + [i], frames), MemberProblems(h, members, path, i + 1, frames);
      if first.Some? && rest.Some? {
        assert MemberProblems(h, members, path, i, frames) == Some(first.value + rest.value);
        assert |first.value + rest.value| == |first.value| + |rest.value|;
      }
      assert MemberProblems(h, members, path, i, frames) == Some([]) <==> first == Some([]) && rest == Some([]);
    }
  }

  // ---------------------------------------------------------------- over a directory

  /** What the check makes of one file; `Raises` is the RecursionError of the check itself, which,
      unlike the parser's, nothing catches. */
  datatype Finding = Fine | Faulty | Deep | Raises

  function DocumentsAnswer(h: Heap, docs: seq<Id>, frames: nat): Finding {
    if docs == [] then Fine
    else if NodeAt(h, docs[0]).shell == JNull then DocumentsAnswer(h, docs[1..], frames)
    else
      match Problems(h, docs[0], [], frames)
      case None => Raises
      case Some(problems) =>
        var rest := DocumentsAnswer(h, docs[1..], frames);
        if rest.Raises? || problems == [] then rest else Faulty
  }

  /** A file that cannot be read counts as faulty, and so does one that cannot be parsed; nesting the
      parser cannot hold is no answer. */
  function FileAnswer(e: Entry, readable: bool, frames: nat): Finding {
    if !e.Regular? then Fine
    else if !readable then Faulty
    else
      match e.applied
      case Unparseable => Faulty
      case TooDeep => Deep
      case Parsed(h, docs) => DocumentsAnswer(h, docs, frames)
  }

  lemma {:induction false} DocumentsAnswerIs(h: Heap, docs: seq<Id>, frames: nat)
    ensures !DocumentsAnswer(h, docs, frames).Deep?
    ensures DocumentsAnswer(h, docs, frames).Raises? <==>
      exists d :: d in docs && NodeAt(h, d).shell != JNull && Reaches(h, d, frames)
    ensures DocumentsAnswer(h, docs, frames).Fine? <==>
      forall d :: d in docs && NodeAt(h, d).shell != JNull ==> Problems(h, d, [], frames) == Some([])
    decreases |docs|
  {
    hide Reaches, Problems, NodeAt;
    if docs != [] {
      assert docs == [docs[0]] + docs[1..];
      DocumentsAnswerIs(h, docs[1..], frames);
      ReturnsIff(h, docs[0], [], frames);
    }
  }

  datatype Check = Clean | Rejected | Undecided | Raised

  function AnswerOf(t: Tree, n: Name, unread: set<Name>, frames: nat): Finding {
    if n in t && IsManifest(n) then FileAnswer(t[n], n !in unread, frames) else Fine
  }

  /** A file the check looks at: kubectl would take it for a manifest. */
  predicate Applies(t: Tree, n: Name) {
    n in t && t[n].Regular? && (HasSuffix(n, ".yaml") || HasSuffix(n, ".yml") || HasSuffix(n, ".json"))
  }

  /** A document of a file that was read and parsed, and is not empty. */
  predicate HasDocument(t: Tree, n: Name, d: Id)
    requires n in t && t[n].Regular?
  {
    && t[n].applied.Parsed? && d in t[n].applied.docs
    && d in t[n].applied.heap && t[n].applied.heap[d].shell != JNull
  }

  /** What the answer for a file says of it: none of its documents wants anything; or it could not be
      read or parsed, or some document wants something and every check of one returned; or it is nested
      past the parser; or the check of some document does not return. */
  lemma AnswersAreExact(t: Tree, n: Name, unread: set<Name>, frames: nat)
    ensures AnswerOf(t, n, unread, frames).Fine? <==> (Applies(t, n) ==>
      && n !in unread && t[n].applied.Parsed?
      && forall d :: HasDocument(t, n, d) ==> Problems(t[n].applied.heap, d, [], frames) == Some([]))
    ensures AnswerOf(t, n, unread, frames).Deep? <==> Applies(t, n) && n !in unread && t[n].applied.TooDeep?
    ensures AnswerOf(t, n, unread, frames).Raises? <==>
      && Applies(t, n) && n !in unread
      && exists d :: HasDocument(t, n, d) && Reaches(t[n].applied.heap, d, frames)
  {
    hide HasSuffix, Reaches, Problems;
    if Applies(t, n) && t[n].applied.Parsed? {
      DocumentsAnswerIs(t[n].applied.heap, t[n].applied.docs, frames);
    }
  }

  /** `_unreadable_documents` over a staging directory, all of whose entries are regular files, in
      the order they are listed: the first file that is no verdict, or on which the check raises,
      ends it. */
  function CheckDocuments(t: Tree, listing: seq<Name>, unread: set<Name>, frames: nat): (r: Check)
    ensures r == Clean <==> forall n :: n in listing ==> AnswerOf(t, n, unread, frames).Fine?
    ensures r == Rejected <==>
      && (forall n :: n in listing ==> AnswerOf(t, n, unread, frames).Fine? || AnswerOf(t, n, unread, frames).Faulty?)
      && (exists n :: n in listing && AnswerOf(t, n, unread, frames).Faulty?)
    ensures r == Undecided ==> exists n :: n in listing && AnswerOf(t, n, unread, frames).Deep?
    ensures r == Raised ==> exists n :: n in listing && AnswerOf(t, n, unread, frames).Raises?
  {
    if listing == [] then Clean
    else
      assert listing == [listing[0]] + listing[1..];
      match AnswerOf(t, listing[0], unread, frames)
      case Deep => Undecided
      case Raises => Raised
      case Fine => CheckDocuments(t, listing[1..], unread, frames)
      case Faulty =>
        var rest := CheckDocuments(t, listing[1..], unread, frames);
        if rest == Clean then Rejected else rest
  }

  /** A value Python does not call false, under a key. */
  predicate Given(fields: map<string, JSON>, key: string) {
    && key in fields
    && fields[key] !in {JNull, JBool(false), JInt(0), JReal(0.0), JStr(""), JArr([]), JObj(map[])}
  }

  /** What kubectl asks of a value: an object with an `apiVersion` and a `kind` in words; a List has
      items; anything else has metadata with a name or one to be generated. The first that is missing
      is what is reported. */
  lemma FaultsAreWhatIsMissing(fields: map<string, JSON>, items: Option<seq<Id>>)
    ensures LocalFault(Node(JObj(fields), items)) ==
            if !Worded(fields, "apiVersion") then Some(NoApiVersion)
            else if !Worded(fields, "kind") then Some(NoKind)
            else if fields["kind"].s == "List" then
              if items.None? || |items.value| == 0 then Some(EmptyList) else None
            else if "metadata" !in fields || !fields["metadata"].JObj? || fields["metadata"].fields == map[] then
              Some(NoMetadata)
            else if Given(fields["metadata"].fields, "name") then None
            else if Given(fields["metadata"].fields, "generateName") then None
            else Some(NoName)
  {
  }

  /** A Job that only asks for a generated name passes, and a null among a List's items does not. */
  lemma GeneratedNamesPass(name: string, frames: nat)
    requires |name| > 0 && frames > 0
    ensures var meta := JObj(map["generateName" := JStr(name)]);
            var job := JObj(map["apiVersion" := JStr("batch/v1"), "kind" := JStr("Job"), "metadata" := meta]);
            Problems(map[0 := Node(job, None)], 0, [], frames) == Some([])
  {
    var meta := map["generateName" := JStr(name)];
    var fields := map["apiVersion" := JStr("batch/v1"), "kind" := JStr("Job"), "metadata" := JObj(meta)];
    var h := map[0 := Node(JObj(fields), None)];
    assert "generateName" in meta && fields["metadata"] == JObj(meta);
    assert "Job" != "List" && "Job"[0] == 'J';
    FaultsAreWhatIsMissing(fields, None);
    assert Members(h, 0) == [];
  }

  lemma NullsAreNoObjects(items: Option<seq<Id>>)
    ensures LocalFault(Node(JNull, items)) == Some(NotAnObject)
  {
  }
}
