/** Whose a rendered file is, read back from the stamps its documents carry. */
module Ownership {
  import opened Wrappers
  import opened Json
  import opened Files

  const MANAGED_BY := "app.kubernetes.io/managed-by"
  const COMPILER := "orbital-mission-compiler"
  const FINGERPRINT := "orbital/mission-fingerprint"
  const RENDERER := "orbital/renderer"
  const SCOPE := "orbital/owner-scope"
  const ROLE := "orbital/artifact-role"
  const SCHEMA := "orbital/ownership-schema"
  const SCHEMA_VERSION := "v1"
  const OWNER_ID := "orbital/owner-id"
  const RAW_MISSION_ID := "orbital/raw-mission-id"
  const ARGO := "argo"
  const KUEUE := "kueue"
  const SCOPE_MISSION := "mission"
  const SCOPE_INSTALLATION := "installation"

  /** `Mission` and `Unmissioned` are the answers a delete may act on. `Crash` is not an answer:
      it is the TypeError or AttributeError the classifier lets escape. */
  datatype Found =
    | Mission(mission: string, scope: JSON, ownerId: JSON, renderer: JSON)
    | Unmissioned(scope: JSON, ownerId: JSON, renderer: JSON)
    | Mixed
    | Malformed
    | Crash

  // ---------------------------------------------------------------- is it ours at all

  /** A document whose `metadata.labels` is a mapping naming this compiler. */
  predicate Managed(d: JSON) {
    && d.JObj?
    && Get(d.fields, "metadata").JObj?
    && Get(Get(d.fields, "metadata").fields, "labels").JObj?
    && Get(Get(Get(d.fields, "metadata").fields, "labels").fields, MANAGED_BY) == JStr(COMPILER)
  }

  /** Every document that is not empty is this compiler's, and there is one. */
  predicate IsRenderedArtifact(e: Entry) {
    && e.Regular? && e.owned.Some?
    && (exists i :: 0 <= i < |e.owned.value| && e.owned.value[i] != JNull)
    && (forall i :: 0 <= i < |e.owned.value| ==> e.owned.value[i] == JNull || Managed(e.owned.value[i]))
  }

  // ---------------------------------------------------------------- the classifier

  datatype Stamp = Stamp(renderer: JSON, scope: JSON, schema: JSON)

  /** A fingerprint label that is absent, a name, or neither. */
  datatype Mark = NoMark | Named(name: string) | BadMark

  /** What a document's labels say. `Unreadable` is an attribute looked up on something that is
      not a mapping; a stamp is `None` when one of its values cannot join a set. */
  datatype LabelFacet = Unreadable | NotAMapping | Labelled(mark: Mark, stamp: Option<Stamp>)

  /** One mapping document as the classifier sees it; `ownerId` is `None` when reading it raises. */
  datatype Facet = Facet(labels: LabelFacet, ownerId: Option<JSON>)

  function MarkOf(labels: map<string, JSON>): Mark {
    if FINGERPRINT !in labels then NoMark
    else
      var v := labels[FINGERPRINT];
      if v.JStr? && !Blank(v.s) then Named(v.s) else BadMark
  }

  function StampOf(labels: map<string, JSON>): Option<Stamp> {
    var renderer, scope, schema := Get(labels, RENDERER), Get(labels, SCOPE), Get(labels, SCHEMA);
    if Hashable(renderer) && Hashable(scope) && Hashable(schema)
    then Some(Stamp(PyKey(renderer), PyKey(scope), PyKey(schema))) else None
  }

  function LabelsOf(d: JSON): LabelFacet
    requires d.JObj?
  {
    var meta := Get(d.fields, "metadata");
    if !Truthy(meta) then Labelled(NoMark, StampOf(map[]))
    else if !meta.JObj? then Unreadable
    else
      var labels := Get(meta.fields, "labels");
      if !Truthy(labels) then Labelled(NoMark, StampOf(map[]))
      else if !labels.JObj? then NotAMapping
      else Labelled(MarkOf(labels.fields), StampOf(labels.fields))
  }

  function OwnerIdOf(d: JSON): Option<JSON>
    requires d.JObj?
  {
    var meta := Get(d.fields, "metadata");
    if !Truthy(meta) then Some(JNull)
    else if !meta.JObj? then None
    else
      var notes := Get(meta.fields, "annotations");
      if !Truthy(notes) then Some(JNull)
      else if !notes.JObj? then None
      else
        var id := Get(notes.fields, OWNER_ID);
        if Hashable(id) then Some(PyKey(id)) else None
  }

  function FacetOf(d: JSON): Facet
    requires d.JObj?
  {
    Facet(LabelsOf(d), OwnerIdOf(d))
  }

  /** The facets of the documents that are mappings, in order. */
  function Facets(docs: seq<JSON>): (r: seq<Facet>)
    ensures forall f :: f in r <==> exists d :: d in docs && d.JObj? && FacetOf(d) == f
  {
    if docs == [] then []
    else
      var rest := Facets(docs[1..]);
      assert docs == [docs[0]] + docs[1..];
      if docs[0].JObj? then [FacetOf(docs[0])] + rest else rest
  }

  /** `_artifact_mission`. */
  function Classify(e: Entry): Found {
    if !e.Regular? || e.owned.None? then Malformed
    else ClassifyFacets(Facets(e.owned.value))
  }

  predicate Stamped(f: Facet, stamp: Stamp) {
    f.labels.Labelled? ==> f.labels.stamp == Some(stamp)
  }

  /** The provenance of the first document whose labels are a mapping. */
  function FirstStamp(fs: seq<Facet>): Stamp {
    if fs == [] then Stamp(JNull, JNull, JNull)
    else if fs[0].labels.Labelled? && fs[0].labels.stamp.Some? then fs[0].labels.stamp.value
    else FirstStamp(fs[1..])
  }

  function FirstOwnerId(fs: seq<Facet>): JSON {
    if fs != [] && fs[0].ownerId.Some? then fs[0].ownerId.value else JNull
  }

  function NameOf(f: Facet): Mark {
    if f.labels.Labelled? then f.labels.mark else NoMark
  }

  /** The questions in the order the source asks them. */
  function ClassifyFacets(fs: seq<Facet>): Found {
    if exists f :: f in fs && f.labels.Unreadable? then Crash
    else if exists f :: f in fs && NameOf(f).BadMark? then Malformed
    else if exists f :: f in fs && f.labels.Labelled? && f.labels.stamp.None? then Crash
    else if exists f :: f in fs && f.ownerId.None? then Crash
    else
      var stamp, ownerId := FirstStamp(fs), FirstOwnerId(fs);
      if exists f :: f in fs && (!Stamped(f, stamp) || f.ownerId != Some(ownerId)) then Mixed
      else if stamp.schema != JNull && stamp.schema != JStr(SCHEMA_VERSION) then Malformed
      else if forall f :: f in fs ==> NameOf(f).NoMark? then Unmissioned(stamp.scope, ownerId, stamp.renderer)
      else if forall f :: f in fs ==> NameOf(f) == NameOf(fs[0]) then
        Mission(NameOf(fs[0]).name, stamp.scope, ownerId, stamp.renderer)
      else Mixed
  }

  // ---------------------------------------------------------------- what a render reconciles

  /** Which artifacts one command may speak for: `owners` is `None` when the caller holds no
      raw mission ids, `installation` is the priority-class prefix when it has one. */
  datatype Query = Query(
    renderer: string, missions: set<string>, owners: Option<set<string>>,
    includeUnmissioned: bool, installation: Option<string>, pruneGlobal: bool)

  predicate InScope(found: Found, q: Query) {
    match found
    case Mission(m, _, ownerId, _) =>
      m in q.missions
      && (q.owners.None? || ownerId == JNull || (ownerId.JStr? && ownerId.s in q.owners.value))
    case Unmissioned(scope, _, _) => scope == JStr(SCOPE_INSTALLATION) && q.includeUnmissioned
    case _ => false
  }

  /** The names each reading of a scan fails on: is the file ours, whose is it when scoping, when
      attributing, and when telling apart what missions share. A failed reading raises nothing: it
      answers "not ours" or "malformed", whatever the file says. */
  datatype Misreads = Misreads(ours: set<Name>, scoping: set<Name>, attributing: set<Name>, sharing: set<Name>)

  const CLEAR := Misreads({}, {}, {}, {})

  /** The files that drop out of a scan unnoticed. */
  function Missed(m: Misreads): set<Name> {
    m.ours + m.scoping + m.attributing
  }

  /** The files the scan asks about: manifests by suffix, not replaced by this run, ours. */
  predicate Candidate(t: Tree, current: set<Name>, n: Name) {
    n in t && IsManifest(n) && n !in current && IsRenderedArtifact(t[n])
  }

  predicate ScanIsEmpty(q: Query) {
    q.missions == {} && !q.includeUnmissioned
  }

  predicate ScanCrashes(t: Tree, current: set<Name>, q: Query, m: Misreads) {
    && !ScanIsEmpty(q)
    && exists n :: n in t && Candidate(t, current, n) && n !in m.ours + m.scoping && Classify(t[n]).Crash?
  }

  function Stale(t: Tree, current: set<Name>, q: Query, m: Misreads): set<Name> {
    if ScanIsEmpty(q) then {}
    else set n | n in t && Candidate(t, current, n) && n !in m.ours + m.scoping && InScope(Classify(t[n]), q)
  }

  predicate Attributed(found: Found, renderer: string) {
    (found.Mission? || found.Unmissioned?) && found.renderer == JStr(renderer)
  }

  function Mine(t: Tree, current: set<Name>, q: Query, m: Misreads): (r: set<Name>)
    ensures r <= Stale(t, current, q, m)
  {
    set n | n in Stale(t, current, q, m) && n !in m.attributing && Attributed(Classify(t[n]), q.renderer)
  }

  predicate InstallationScoped(found: Found) {
    (found.Mission? || found.Unmissioned?) && found.scope == JStr(SCOPE_INSTALLATION)
  }

  function InstallationId(q: Query): JSON {
    if q.installation.Some? then JStr(q.installation.value) else JNull
  }

  function Theirs(t: Tree, current: set<Name>, q: Query, m: Misreads): (r: set<Name>)
    ensures r <= Mine(t, current, q, m)
  {
    set n | n in Mine(t, current, q, m) && n !in m.sharing && InstallationScoped(Classify(t[n]))
            && Classify(t[n]).ownerId != InstallationId(q)
  }

  function HeldBack(t: Tree, current: set<Name>, q: Query, m: Misreads): (r: set<Name>)
    ensures r <= Mine(t, current, q, m)
  {
    set n | n in Mine(t, current, q, m) && n !in m.sharing && InstallationScoped(Classify(t[n]))
            && Classify(t[n]).ownerId == InstallationId(q) && !q.pruneGlobal
  }

  /** What `--prune` deletes. */
  function Removable(t: Tree, current: set<Name>, q: Query, m: Misreads): (r: set<Name>)
    ensures r <= Mine(t, current, q, m)
  {
    Mine(t, current, q, m) - Theirs(t, current, q, m) - HeldBack(t, current, q, m)
  }

  /** The files that only the last reading keeps from being deleted. */
  predicate Guarded(found: Found, q: Query) {
    InstallationScoped(found) && (found.ownerId != InstallationId(q) || !q.pruneGlobal)
  }

  // ---------------------------------------------------------------- what a render may overwrite

  /** The shape every writer gives a document, which is what the render side reads back. */
  predicate Stampable(d: JSON) {
    && d.JObj?
    && Get(d.fields, "metadata").JObj?
    && Get(Get(d.fields, "metadata").fields, "labels").JObj?
    && Get(Get(d.fields, "metadata").fields, "annotations").JObj?
  }

  predicate AllStampable(docs: seq<JSON>) {
    forall i :: 0 <= i < |docs| ==> Stampable(docs[i])
  }

  function LabelOf(d: JSON, key: string): JSON
    requires Stampable(d)
  {
    Get(Get(Get(d.fields, "metadata").fields, "labels").fields, key)
  }

  function NoteOf(d: JSON, key: string): JSON
    requires Stampable(d)
  {
    Get(Get(Get(d.fields, "metadata").fields, "annotations").fields, key)
  }

  /** The one fingerprint a pending document set carries, or null. */
  function RenderedMission(docs: seq<JSON>): JSON
    requires AllStampable(docs)
  {
    if docs != [] && forall i :: 0 <= i < |docs| ==> LabelOf(docs[i], FINGERPRINT) == LabelOf(docs[0], FINGERPRINT)
    then LabelOf(docs[0], FINGERPRINT) else JNull
  }

  function RenderedOwnerId(docs: seq<JSON>): JSON
    requires AllStampable(docs)
  {
    if docs != [] && forall i :: 0 <= i < |docs| ==> NoteOf(docs[i], OWNER_ID) == NoteOf(docs[0], OWNER_ID)
    then NoteOf(docs[0], OWNER_ID) else JNull
  }

  datatype Preflight = Free | Conflict | PreflightCrash

  predicate SameOwner(theirs: Found, docs: seq<JSON>)
    requires AllStampable(docs)
  {
    match theirs
    case Mission(m, _, _, _) => JStr(m) == RenderedMission(docs)
    case Unmissioned(_, ownerId, _) => RenderedMission(docs) == JNull && ownerId == RenderedOwnerId(docs)
    case _ => false
  }

  /** One planned path: a link is refused, a free name is free, anything else has to be this
      compiler's output for the same owner, and to read as such. */
  function PreflightAt(t: Tree, n: Name, docs: seq<JSON>, m: Misreads): Preflight
    requires AllStampable(docs)
  {
    if n !in t then Free
    else if t[n].Symlink? then Conflict
    else if !IsRenderedArtifact(t[n]) || n in m.ours + m.scoping then Conflict
    else
      var theirs := Classify(t[n]);
      if theirs.Crash? then PreflightCrash
      else if SameOwner(theirs, docs) then Free else Conflict
  }

  // ---------------------------------------------------------------- properties

  /** The verdict on a plan from the verdicts on its paths: a crash ends the loop, conflicts
      are collected. */
  method Collect(answers: seq<Preflight>) returns (r: Preflight)
    ensures r == Free <==> forall i :: 0 <= i < |answers| ==> answers[i] == Free
    ensures r == PreflightCrash <==> PreflightCrash in answers
  {
    var conflicts := 0;
    for k := 0 to |answers|
      invariant conflicts == 0 <==> forall i :: 0 <= i < k ==> answers[i] == Free
      invariant PreflightCrash !in answers[..k]
    {
      if answers[k] == PreflightCrash {
        return PreflightCrash;
      }
      if answers[k] == Conflict {
        conflicts := conflicts + 1;
      }
    }
    r := if conflicts == 0 then Free else Conflict;
  }

  function Answers(t: Tree, planned: seq<(Name, seq<JSON>)>, m: Misreads): (r: seq<Preflight>)
    requires forall i :: 0 <= i < |planned| ==> AllStampable(planned[i].1)
    ensures |r| == |planned|
    ensures forall i :: 0 <= i < |planned| ==> r[i] == PreflightAt(t, planned[i].0, planned[i].1, m)
  {
    seq(|planned|, i requires 0 <= i < |planned| => PreflightAt(t, planned[i].0, planned[i].1, m))
  }

  /** `preflight_writable`: no planned path may hold anything but this owner's own output. */
  method PreflightWritable(t: Tree, planned: seq<(Name, seq<JSON>)>, m: Misreads) returns (r: Preflight)
    requires forall i :: 0 <= i < |planned| ==> AllStampable(planned[i].1)
    ensures r == Free <==> forall i :: 0 <= i < |planned| ==> PreflightAt(t, planned[i].0, planned[i].1, m) == Free
    ensures r == PreflightCrash <==>
      exists i :: 0 <= i < |planned| && PreflightAt(t, planned[i].0, planned[i].1, m) == PreflightCrash
  {
    var answers := Answers(t, planned, m);
    if i :| 0 <= i < |planned| && PreflightAt(t, planned[i].0, planned[i].1, m) == PreflightCrash {
      assert answers[i] == PreflightCrash;
    }
    r := Collect(answers);
  }

  /** `preflight_unique`: refuses exactly the plans that name one path twice. */
  method PreflightUnique(paths: seq<Name>) returns (ok: bool)
    ensures ok <==> NoDup(paths)
  {
    var seen: set<Name> := {};
    ok := true;
    for i := 0 to |paths|
      invariant seen == set k | 0 <= k < i :: paths[k]
      invariant ok <==> NoDup(paths[..i])
    {
      if paths[i] in seen {
        ok := false;
        var k :| 0 <= k < i && paths[k] == paths[i];
        assert paths[..i + 1][k] == paths[..i + 1][i];
      } else {
        assert forall k :: 0 <= k < i ==> paths[k] in seen;
        assert paths[..i + 1] == paths[..i] + [paths[i]];
        if !ok {
          var a, b :| 0 <= a < b < i && paths[..i][a] == paths[..i][b];
          assert paths[..i + 1][a] == paths[..i + 1][b];
        }
      }
      seen := seen + {paths[i]};
    }
    assert paths[..|paths|] == paths;
  }

  // ---------------------------------------------------------------- what an answer means

  function NamedMark(mark: Option<string>): Mark {
    if mark.Some? then Named(mark.value) else NoMark
  }

  /** One managed document names this mission or none, this provenance and this owner. */
  predicate Says(d: JSON, mark: Option<string>, stamp: Stamp, ownerId: JSON) {
    Managed(d) && FacetOf(d) == Facet(Labelled(NamedMark(mark), Some(stamp)), Some(ownerId))
  }

  /** Every document of the file that is not empty says the same thing. */
  ghost predicate Unanimous(docs: seq<JSON>, mark: Option<string>, stamp: Stamp, ownerId: JSON) {
    && (exists d :: d in docs && d != JNull)
    && (forall d :: d in docs && d != JNull ==> Says(d, mark, stamp, ownerId))
    && (stamp.schema == JNull || stamp.schema == JStr(SCHEMA_VERSION))
  }

  function Answer(mark: Option<string>, stamp: Stamp, ownerId: JSON): Found {
    if mark.Some? then Mission(mark.value, stamp.scope, ownerId, stamp.renderer)
    else Unmissioned(stamp.scope, ownerId, stamp.renderer)
  }

  /** A mapping under a key. */
  predicate HasObject(fields: map<string, JSON>, key: string) {
    key in fields && fields[key].JObj?
  }

  /** A list or a mapping under a key, which no set takes. */
  predicate Unsettable(fields: map<string, JSON>, key: string) {
    key in fields && (fields[key].JArr? || fields[key].JObj?)
  }

  predicate Unset(fields: map<string, JSON>, key: string) {
    key !in fields || fields[key] == JNull
  }

  lemma ManagedMeans(d: JSON)
    ensures Managed(d) <==>
      && d.JObj? && HasObject(d.fields, "metadata") && HasObject(d.fields["metadata"].fields, "labels")
      && Look(d.fields["metadata"].fields["labels"].fields, "app.kubernetes.io/managed-by")
         == Some(JStr("orbital-mission-compiler"))
  {
  }

  /** A fingerprint is some text that is more than blanks, no fingerprint is no such label. */
  lemma MarksAreRead(labels: map<string, JSON>, name: string)
    ensures MarkOf(labels) == NoMark <==> "orbital/mission-fingerprint" !in labels
    ensures MarkOf(labels) == Named(name) <==>
      && Look(labels, "orbital/mission-fingerprint") == Some(JStr(name))
      && exists i :: 0 <= i < |name| && !IsSpace(name[i])
  {
  }

  lemma StampsAreRead(labels: map<string, JSON>, text: string)
    ensures StampOf(labels).None? <==>
      Unsettable(labels, RENDERER) || Unsettable(labels, SCOPE) || Unsettable(labels, SCHEMA)
    ensures StampOf(labels).Some? ==>
      && (StampOf(labels).value.renderer == JStr(text) <==> Look(labels, RENDERER) == Some(JStr(text)))
      && (StampOf(labels).value.scope == JStr(text) <==> Look(labels, SCOPE) == Some(JStr(text)))
      && (StampOf(labels).value.schema == JStr(text) <==> Look(labels, SCHEMA) == Some(JStr(text)))
      && (StampOf(labels).value.schema == JNull <==> Unset(labels, SCHEMA))
  {
    hide RENDERER, SCOPE, SCHEMA;
  }

  /** The annotations a document has, if it has any. */
  function NotesIn(d: JSON): JSON
    requires d.JObj? && HasObject(d.fields, "metadata")
  {
    if "annotations" in d.fields["metadata"].fields then d.fields["metadata"].fields["annotations"] else JNull
  }

  lemma OwnersAreRead(d: JSON, text: string)
    requires d.JObj? && HasObject(d.fields, "metadata")
    ensures OwnerIdOf(d).None? <==>
      Truthy(NotesIn(d)) && (NotesIn(d).JObj? ==> Unsettable(NotesIn(d).fields, OWNER_ID))
    ensures OwnerIdOf(d) == Some(JStr(text)) <==>
      NotesIn(d).JObj? && Look(NotesIn(d).fields, OWNER_ID) == Some(JStr(text))
    ensures OwnerIdOf(d) == Some(JNull) <==>
      !Truthy(NotesIn(d)) || (NotesIn(d).JObj? && Unset(NotesIn(d).fields, OWNER_ID))
  {
    hide OWNER_ID;
  }

  /** Reading the stamps of a managed document raises exactly when a provenance label or the owner id
      is a list or a mapping, or the annotations are something other than a mapping. */
  lemma RaisesMeans(d: JSON)
    requires Managed(d)
    ensures var labels := d.fields["metadata"].fields["labels"].fields;
            RaisesOn(FacetOf(d)) <==>
              || Unsettable(labels, RENDERER) || Unsettable(labels, SCOPE) || Unsettable(labels, SCHEMA)
              || (Truthy(NotesIn(d)) && (NotesIn(d).JObj? ==> Unsettable(NotesIn(d).fields, OWNER_ID)))
  {
    hide StampOf, MarkOf, OwnerIdOf, RENDERER, SCOPE, SCHEMA, OWNER_ID, MANAGED_BY, COMPILER;
    LabelsInTheDocument(d);
    StampsAreRead(d.fields["metadata"].fields["labels"].fields, "");
    OwnersAreRead(d, "");
  }

  lemma LabelsInTheDocument(d: JSON)
    requires Managed(d)
    ensures HasObject(d.fields, "metadata") && HasObject(d.fields["metadata"].fields, "labels")
    ensures var labels := d.fields["metadata"].fields["labels"].fields;
            LabelsOf(d) == Labelled(MarkOf(labels), StampOf(labels))
  {
    hide StampOf, MarkOf;
    assert MANAGED_BY in d.fields["metadata"].fields["labels"].fields;
  }

  /** What a document that says so holds, label by label. */
  lemma SaysMeans(d: JSON, mark: Option<string>, renderer: string, scope: string, schema: Option<string>, id: string)
    requires Managed(d)
    ensures var labels := d.fields["metadata"].fields["labels"].fields;
            Says(d, mark, Stamp(JStr(renderer), JStr(scope), Pinned(schema)), JStr(id)) <==>
              && (match mark
                  case None => FINGERPRINT !in labels
                  case Some(name) => Look(labels, FINGERPRINT) == Some(JStr(name)) && !Blank(name))
              && Look(labels, RENDERER) == Some(JStr(renderer)) && Look(labels, SCOPE) == Some(JStr(scope))
              && (match schema
                  case None => Unset(labels, SCHEMA)
                  case Some(version) => Look(labels, SCHEMA) == Some(JStr(version)))
              && NotesIn(d).JObj? && Look(NotesIn(d).fields, OWNER_ID) == Some(JStr(id))
  {
    hide MANAGED_BY, COMPILER, StampOf, MarkOf, OwnerIdOf, LabelsOf, NotesIn, RENDERER, SCOPE, SCHEMA, OWNER_ID,
      FINGERPRINT;
    LabelsInTheDocument(d);
    var labels := d.fields["metadata"].fields["labels"].fields;
    MarkIs(labels, mark);
    StampIs(labels, renderer, scope, schema);
    OwnersAreRead(d, id);
  }

  /** A schema label that may be absent. */
  function Pinned(schema: Option<string>): JSON {
    match schema
    case None => JNull
    case Some(version) => JStr(version)
  }

  lemma MarkIs(labels: map<string, JSON>, mark: Option<string>)
    ensures MarkOf(labels) == NamedMark(mark) <==>
      match mark
      case None => FINGERPRINT !in labels
      case Some(name) => Look(labels, FINGERPRINT) == Some(JStr(name)) && !Blank(name)
  {
    hide FINGERPRINT, Blank;
  }

  lemma StampIs(labels: map<string, JSON>, renderer: string, scope: string, schema: Option<string>)
    ensures StampOf(labels) == Some(Stamp(JStr(renderer), JStr(scope), Pinned(schema))) <==>
      && Look(labels, RENDERER) == Some(JStr(renderer)) && Look(labels, SCOPE) == Some(JStr(scope))
      && match schema
         case None => Unset(labels, SCHEMA)
         case Some(version) => Look(labels, SCHEMA) == Some(JStr(version))
  {
    hide StampOf, RENDERER, SCOPE, SCHEMA;
    StampsAreRead(labels, renderer);
    StampsAreRead(labels, scope);
    StampsAreRead(labels, if schema.Some? then schema.value else "");
    if Look(labels, RENDERER) == Some(JStr(renderer)) && Look(labels, SCOPE) == Some(JStr(scope)) {
      assert !Unsettable(labels, RENDERER) && !Unsettable(labels, SCOPE);
    }
  }

  /** The fingerprint, or the owner id, a pending set carries is the one all its documents share. */
  lemma RenderedIsShared(docs: seq<JSON>, v: JSON)
    requires AllStampable(docs) && v != JNull
    ensures RenderedMission(docs) == v <==>
      docs != [] && forall i :: 0 <= i < |docs| ==>
        Look(docs[i].fields["metadata"].fields["labels"].fields, FINGERPRINT) == Some(v)
    ensures RenderedOwnerId(docs) == v <==>
      docs != [] && forall i :: 0 <= i < |docs| ==>
        Look(docs[i].fields["metadata"].fields["annotations"].fields, OWNER_ID) == Some(v)
  {
    hide FINGERPRINT, OWNER_ID;
    forall i | 0 <= i < |docs|
      ensures LabelOf(docs[i], FINGERPRINT) == v <==>
        Look(docs[i].fields["metadata"].fields["labels"].fields, FINGERPRINT) == Some(v)
      ensures NoteOf(docs[i], OWNER_ID) == v <==>
        Look(docs[i].fields["metadata"].fields["annotations"].fields, OWNER_ID) == Some(v)
    {
    }
  }

  lemma RenderedDocs(e: Entry)
    requires IsRenderedArtifact(e)
    ensures forall d :: d in e.owned.value && d != JNull ==> Managed(d)
    ensures exists d :: d in e.owned.value && d != JNull
  {
    var docs := e.owned.value;
    forall d | d in docs && d != JNull
      ensures Managed(d)
    {
      var i :| 0 <= i < |docs| && docs[i] == d;
    }
    var i :| 0 <= i < |docs| && docs[i] != JNull;
    assert docs[i] in docs;
  }

  lemma ManagedIsLabelled(d: JSON)
    requires Managed(d)
    ensures LabelsOf(d).Labelled?
  {
    var labels := Get(Get(d.fields, "metadata").fields, "labels");
    assert MANAGED_BY in labels.fields;
  }

  lemma FirstStampIsHead(fs: seq<Facet>)
    requires fs != [] && fs[0].labels.Labelled? && fs[0].labels.stamp.Some?
    ensures FirstStamp(fs) == fs[0].labels.stamp.value
  {
  }

  /** Over labelled documents the classifier answers exactly when they are unanimous. */
  lemma FacetsAnswer(fs: seq<Facet>, mark: Option<string>, stamp: Stamp, ownerId: JSON)
    requires fs != [] && (forall f :: f in fs ==> f.labels.Labelled?)
    requires stamp.schema == JNull || stamp.schema == JStr(SCHEMA_VERSION)
    requires forall f :: f in fs ==> f == Facet(Labelled(NamedMark(mark), Some(stamp)), Some(ownerId))
    ensures ClassifyFacets(fs) == Answer(mark, stamp, ownerId)
  {
    assert fs[0] in fs;
    FirstStampIsHead(fs);
  }

  lemma AnswerFacets(fs: seq<Facet>) returns (mark: Option<string>, stamp: Stamp, ownerId: JSON)
    requires fs != [] && (forall f :: f in fs ==> f.labels.Labelled?)
    requires ClassifyFacets(fs).Mission? || ClassifyFacets(fs).Unmissioned?
    ensures stamp.schema == JNull || stamp.schema == JStr(SCHEMA_VERSION)
    ensures forall f :: f in fs ==> f == Facet(Labelled(NamedMark(mark), Some(stamp)), Some(ownerId))
    ensures ClassifyFacets(fs) == Answer(mark, stamp, ownerId)
  {
    assert fs[0] in fs;
    stamp, ownerId := FirstStamp(fs), FirstOwnerId(fs);
    mark := if NameOf(fs[0]).Named? then Some(NameOf(fs[0]).name) else None;
  }

  /** The classifier answers only when the documents are unanimous. */
  lemma AnswerMeansUnanimous(e: Entry) returns (mark: Option<string>, stamp: Stamp, ownerId: JSON)
    requires IsRenderedArtifact(e)
    requires Classify(e).Mission? || Classify(e).Unmissioned?
    ensures Unanimous(e.owned.value, mark, stamp, ownerId)
    ensures Classify(e) == Answer(mark, stamp, ownerId)
  {
    RenderedFacets(e);
    var docs, fs := e.owned.value, Facets(e.owned.value);
    mark, stamp, ownerId := AnswerFacets(fs);
    RenderedDocs(e);
    forall d | d in docs && d != JNull
      ensures Says(d, mark, stamp, ownerId)
    {
      assert d.JObj? && FacetOf(d) in fs;
    }
  }

  lemma RenderedFacets(e: Entry)
    requires IsRenderedArtifact(e)
    ensures Facets(e.owned.value) != []
    ensures forall f :: f in Facets(e.owned.value) ==> f.labels.Labelled?
  {
    RenderedDocs(e);
    var docs, fs := e.owned.value, Facets(e.owned.value);
    forall f | f in fs
      ensures f.labels.Labelled?
    {
      var d :| d in docs && d.JObj? && FacetOf(d) == f;
      ManagedIsLabelled(d);
    }
    var d :| d in docs && d != JNull;
    assert Managed(d);
    assert FacetOf(d) in fs;
  }

  /** And it answers whenever they are. */
  lemma UnanimousIsAnswered(e: Entry, mark: Option<string>, stamp: Stamp, ownerId: JSON)
    requires e.Regular? && e.owned.Some? && Unanimous(e.owned.value, mark, stamp, ownerId)
    ensures IsRenderedArtifact(e) && Classify(e) == Answer(mark, stamp, ownerId)
  {
    var docs, fs := e.owned.value, Facets(e.owned.value);
    forall i | 0 <= i < |docs| && docs[i] != JNull
      ensures Managed(docs[i])
    {
      assert docs[i] in docs;
      assert Says(docs[i], mark, stamp, ownerId);
    }
    var d :| d in docs && d != JNull;
    RenderedFacets(e);
    forall f | f in fs
      ensures f == Facet(Labelled(NamedMark(mark), Some(stamp)), Some(ownerId))
    {
      var d :| d in docs && d.JObj? && FacetOf(d) == f;
      assert Says(d, mark, stamp, ownerId);
    }
    FacetsAnswer(fs, mark, stamp, ownerId);
  }

  predicate RaisesOn(f: Facet) {
    (f.labels.Labelled? && f.labels.stamp.None?) || f.ownerId.None?
  }

  lemma FacetsCrash(fs: seq<Facet>)
    requires forall f :: f in fs ==> f.labels.Labelled?
    ensures ClassifyFacets(fs).Crash? <==>
      (forall f :: f in fs ==> !NameOf(f).BadMark?) && (exists f :: f in fs && RaisesOn(f))
  {
  }

  /** Reading the stamps of a managed file raises exactly when a provenance label or the owner
      id is a list or a mapping, or the annotations are neither empty nor a mapping, and no
      document is refused first for a fingerprint that is not a name. */
  lemma ClassifierCrashes(e: Entry)
    requires IsRenderedArtifact(e)
    ensures Classify(e).Crash? <==>
      && (forall d :: d in e.owned.value && d.JObj? ==> !NameOf(FacetOf(d)).BadMark?)
      && (exists d :: d in e.owned.value && d.JObj? && RaisesOn(FacetOf(d)))
  {
    RenderedFacets(e);
    var docs, fs := e.owned.value, Facets(e.owned.value);
    FacetsCrash(fs);
    forall d | d in docs && d.JObj?
      ensures FacetOf(d) in fs
    {
    }
  }

  /** A failed reading before a planned path is overwritten only refuses more. */
  lemma MisreadsRefuse(t: Tree, n: Name, docs: seq<JSON>, m: Misreads)
    requires AllStampable(docs)
    ensures PreflightAt(t, n, docs, m) == Free ==> PreflightAt(t, n, docs, CLEAR) == Free
    ensures PreflightAt(t, n, docs, m) == PreflightCrash ==> PreflightAt(t, n, docs, CLEAR) == PreflightCrash
  {
  }

  /** A path may be written over exactly when nothing is there, or it was read well both times and
      every document there says the mission of the pending set or, saying no mission, the owner of a
      pending set without one. */
  lemma FreeIff(t: Tree, n: Name, docs: seq<JSON>, m: Misreads)
    requires AllStampable(docs)
    ensures PreflightAt(t, n, docs, m) == Free <==>
      || n !in t
      || (n !in m.ours && n !in m.scoping && t[n].Regular? && t[n].owned.Some?
          && exists mark, stamp, ownerId :: Unanimous(t[n].owned.value, mark, stamp, ownerId)
               && SharesOwner(docs, mark, ownerId))
  {
    hide RenderedMission, RenderedOwnerId, Classify, Unanimous, IsRenderedArtifact;
    if n in t && t[n].Regular? && t[n].owned.Some? {
      if mark, stamp, ownerId :| Unanimous(t[n].owned.value, mark, stamp, ownerId) && SharesOwner(docs, mark, ownerId) {
        UnanimousIsAnswered(t[n], mark, stamp, ownerId);
      }
    }
    if n in t && PreflightAt(t, n, docs, m) == Free {
      OnlyArtifactsAreFree(t[n]);
      var mark, stamp, ownerId := AnswerMeansUnanimous(t[n]);
      assert SharesOwner(docs, mark, ownerId);
    }
  }

  lemma OnlyArtifactsAreFree(e: Entry)
    requires IsRenderedArtifact(e)
    ensures e.Regular? && e.owned.Some?
  {
  }

  predicate SharesOwner(docs: seq<JSON>, mark: Option<string>, ownerId: JSON)
    requires AllStampable(docs)
  {
    match mark
    case Some(name) => RenderedMission(docs) == JStr(name)
    case None => RenderedMission(docs) == JNull && RenderedOwnerId(docs) == ownerId
  }

  /** A question that names no mission and asks for nothing beside reads no file; any other reads every
      manifest of this compiler's that the run does not write, and raises exactly where the classifier
      does on one it gets to. */
  lemma ScansReadWhatIsAsked(t: Tree, current: set<Name>, q: Query, m: Misreads)
    ensures q.missions == {} && !q.includeUnmissioned ==>
      Stale(t, current, q, m) == {} && !ScanCrashes(t, current, q, m)
    ensures q.missions != {} || q.includeUnmissioned ==>
      && (ScanCrashes(t, current, q, m) <==>
            exists n :: n in t && n !in current && IsManifest(n) && IsRenderedArtifact(t[n])
              && n !in m.ours && n !in m.scoping && Classify(t[n]).Crash?)
      && forall n :: n in Stale(t, current, q, m) <==>
           && n in t && n !in current && IsManifest(n) && IsRenderedArtifact(t[n])
           && n !in m.ours && n !in m.scoping
           && match Classify(t[n])
              case Mission(name, _, ownerId, _) =>
                && name in q.missions
                && (q.owners.Some? && ownerId != JNull ==> exists id :: id in q.owners.value && ownerId == JStr(id))
              case Unmissioned(scope, _, _) => scope == JStr("installation") && q.includeUnmissioned
              case _ => false
  {
    hide IsManifest, IsRenderedArtifact, Classify;
  }

  /** Whatever is deleted said, in every document, that it was this renderer's to delete; unless the
      file was misread when what missions share was told apart, that includes this installation's
      consent. */
  lemma DeletionIsJustified(t: Tree, current: set<Name>, q: Query, m: Misreads, n: Name)
    returns (mark: Option<string>, stamp: Stamp, ownerId: JSON)
    requires n in Removable(t, current, q, m)
    ensures n in t && t[n].Regular? && n !in current && IsManifest(n)
    ensures t[n].owned.Some? && Unanimous(t[n].owned.value, mark, stamp, ownerId)
    ensures stamp.renderer == JStr(q.renderer)
    ensures
      || (mark.Some? && mark.value in q.missions
          && (q.owners.None? || ownerId == JNull || (ownerId.JStr? && ownerId.s in q.owners.value)))
      || (mark.None? && stamp.scope == JStr(SCOPE_INSTALLATION) && q.includeUnmissioned)
    ensures stamp.scope == JStr(SCOPE_INSTALLATION) && n !in m.sharing ==> q.pruneGlobal && ownerId == InstallationId(q)
  {
    mark, stamp, ownerId := AnswerMeansUnanimous(t[n]);
  }

  /** What misreadings do to a prune: the first three only spare files, the last one costs exactly
      the files it alone protects. */
  lemma MisreadPrunes(t: Tree, current: set<Name>, q: Query, m: Misreads)
    ensures forall n :: n in Removable(t, current, q, m) <==>
      && n in Mine(t, current, q, CLEAR) && n !in Missed(m) && (Guarded(Classify(t[n]), q) ==> n in m.sharing)
    ensures forall n :: n in Removable(t, current, q, m) && n !in Removable(t, current, q, CLEAR) <==>
      n in Mine(t, current, q, CLEAR) && n !in Missed(m) && Guarded(Classify(t[n]), q) && n in m.sharing
  {
    hide IsRenderedArtifact, Classify, IsManifest, InScope;
  }
}
