/** What the writers stamp is what the classifier answers, file by file. */
module Provenance {
  import opened Wrappers
  import opened Json
  import opened Files
  import opened Labels
  import opened Names
  import opened Plans
  import opened Intents
  import opened Ownership
  import opened Publishing
  import opened Reconcile
  import opened Gate
  import opened Commands
  import opened Manifests
  import opened Render
  import opened Writers

  /** Whose a set of documents is, as every one of them says. */
  datatype Owner = Owner(mark: Option<string>, renderer: string, scope: string, id: string)

  ghost predicate AllBear(docs: seq<Doc>, w: Owner) {
    docs != [] && forall k :: 0 <= k < |docs| ==> Bears(docs[k].meta, w.mark, w.renderer, w.scope, w.id)
  }

  /** A mission's documents, written by one renderer. */
  function MissionOwner(i: Intent, renderer: string, h: Hashes): Owner {
    Owner(Some(h.mark(i.missionId)), renderer, SCOPE_MISSION, i.missionId)
  }

  ghost predicate Borne(d: Doc, w: Owner) {
    Bears(d.meta, w.mark, w.renderer, w.scope, w.id)
  }

  lemma FallbackBears(i: Intent, namespace: string, renderer: string, h: Hashes)
    ensures Borne(FallbackTemplate(i, namespace, renderer, h), MissionOwner(i, renderer, h))
  {
    hide ClaimMeta, Bears;
    ClaimMetaIs(i, "accel", namespace, SCHEDULER_ROUTE, renderer, "scheduler-fallback", h);
  }

  lemma ExactBears(i: Intent, namespace: string, h: Hashes)
    ensures Borne(ExactTemplate(i, namespace, h), MissionOwner(i, KUEUE, h))
  {
    hide ClaimMeta, Bears;
    ClaimMetaIs(i, "gpu", namespace, KUEUE_ROUTE, KUEUE, "kueue-job", h);
  }

  lemma WithTheClaim(claims: seq<Doc>, last: Doc, w: Owner)
    requires |claims| <= 1 && (claims != [] ==> Borne(claims[0], w)) && Borne(last, w)
    ensures AllBear(claims + [last], w)
  {
    hide Bears;
    var docs := claims + [last];
    forall k | 0 <= k < |docs|
      ensures Bears(docs[k].meta, w.mark, w.renderer, w.scope, w.id)
    {
      assert docs[k] == if k < |claims| then claims[k] else last;
    }
  }

  lemma ArgoDocsBear(i: Intent, draFallback: bool, namespace: Option<string>, account: Option<string>, h: Hashes)
    requires draFallback ==> namespace.Some?
    ensures AllBear(ArgoDocs(i, draFallback, namespace, account, h), MissionOwner(i, ARGO, h))
  {
    hide WorkflowMeta, Bears, AllBear, FallbackTemplate, Containers, Tasks, AnyFallsBack;
    WorkflowMetaIs(i, namespace, h);
    if draFallback {
      FallbackBears(i, namespace.value, ARGO, h);
    }
    WithTheClaim(
      if draFallback && AnyFallsBack(i.steps) then [FallbackTemplate(i, namespace.value, ARGO, h)] else [],
      WorkflowFor(i, draFallback, namespace, account, h), MissionOwner(i, ARGO, h));
  }

  lemma KueueDocsBear(i: Intent, o: KueueOptions, h: Hashes)
    requires i.steps != []
    ensures AllBear(KueueDocs(i, o, h), MissionOwner(i, KUEUE, h))
  {
    hide JobMeta, Bears, AllBear, ExactTemplate, ClaimTemplates, KueueRoute, PrimaryStep, Uses;
    KueueRouteOf(i, o, h);
    JobMetaIs(i, o, h);
    ExactBears(i, o.namespace, h);
    WithTheClaim(
      if Uses(i.steps, Gpu)
        then [ExactTemplate(i, o.namespace, h)] else [], JobFor(i, o, h), MissionOwner(i, KUEUE, h));
  }

  lemma SchedulerDocsBear(i: Intent, o: KueueOptions, h: Hashes)
    requires SchedulerRoute(ClaimTemplates(i, o, h)) != []
    ensures AllBear(SchedulerRoute(ClaimTemplates(i, o, h)), MissionOwner(i, KUEUE, h))
  {
    hide FallbackTemplate, Bears, ClaimTemplates, SchedulerRoute, AnyFallsBack;
    KueueRouteOf(i, o, h);
    FallbackBears(i, o.namespace, KUEUE, h);
  }

  lemma ClassBears(prefix: string, tier: nat)
    ensures Bears(PriorityClassFor(prefix, tier).meta, None, KUEUE, SCOPE_INSTALLATION, prefix)
  {
    VersionIsNoStamp();
    hide TierName, StampedLabels, MAPPING_VERSION, MAPPING, MANAGED_BY, RENDERER, SCOPE, ROLE, SCHEMA, FINGERPRINT,
      OWNER_ID, COMPILER, SCOPE_INSTALLATION, SCHEMA_VERSION, KUEUE;
    LabelsAreStamped(map[MAPPING_VERSION := MAPPING], None, KUEUE, "workload-priority-classes", SCOPE_INSTALLATION);
  }

  lemma VersionIsNoStamp()
    ensures MAPPING_VERSION != FINGERPRINT
  {
    assert |MAPPING_VERSION| == 32;
    StampKeyLengths();
  }

  lemma BundleBears(prefix: string)
    ensures AllBear(Bundle(prefix).docs, Owner(None, KUEUE, SCOPE_INSTALLATION, prefix))
  {
    ClassBears(prefix, 1);
    ClassBears(prefix, 2);
    ClassBears(prefix, 3);
    ClassBears(prefix, 4);
    hide Bears, PriorityClassFor;
  }

  // ---------------------------------------------------------------- read back

  function Documents(docs: seq<Doc>): (r: seq<JSON>)
    ensures |r| == |docs| && forall k :: 0 <= k < |r| ==> r[k] == Written(docs[k])
  {
    seq(|docs|, k requires 0 <= k < |docs| => Written(docs[k]))
  }

  /** The file a set of documents becomes: what is read back from it is what was written. */
  predicate Holds(e: Entry, docs: seq<Doc>) {
    e.Regular? && e.owned == Some(Documents(docs))
  }

  function StampFor(w: Owner): Stamp {
    Stamp(JStr(w.renderer), JStr(w.scope), JStr(SCHEMA_VERSION))
  }

  predicate Fingerprinted(w: Owner) {
    w.mark.Some? ==> !Blank(w.mark.value)
  }

  /** Every file a writer plans is classified back to its own mission, scope, owner and renderer;
      the class bundle to its installation. */
  lemma FilesReadBack(e: Entry, docs: seq<Doc>, w: Owner)
    requires Holds(e, docs) && AllBear(docs, w) && Fingerprinted(w)
    ensures IsRenderedArtifact(e) && Classify(e) == Answer(w.mark, StampFor(w), JStr(w.id))
  {
    var read := Documents(docs);
    forall d | d in read && d != JNull
      ensures Says(d, w.mark, StampFor(w), JStr(w.id))
    {
      var k :| 0 <= k < |read| && read[k] == d;
      StampsReadBack(docs[k], w.mark, w.renderer, w.scope, w.id);
    }
    assert read[0] in read && read[0] != JNull;
    UnanimousIsAnswered(e, w.mark, StampFor(w), JStr(w.id));
  }

  lemma DocumentsAreStampable(docs: seq<Doc>, w: Owner)
    requires AllBear(docs, w)
    ensures AllStampable(Documents(docs))
    ensures RenderedMission(Documents(docs)) == if w.mark.Some? then JStr(w.mark.value) else JNull
    ensures RenderedOwnerId(Documents(docs)) == JStr(w.id)
  {
    var read := Documents(docs);
    forall k | 0 <= k < |read|
      ensures Stampable(read[k]) && NoteOf(read[k], OWNER_ID) == JStr(w.id)
      ensures LabelOf(read[k], FINGERPRINT) == if w.mark.Some? then JStr(w.mark.value) else JNull
    {
      WrittenLooks(docs[k], w);
    }
  }

  lemma WrittenLooks(d: Doc, w: Owner)
    requires Bears(d.meta, w.mark, w.renderer, w.scope, w.id)
    ensures Stampable(Written(d)) && NoteOf(Written(d), OWNER_ID) == JStr(w.id)
    ensures LabelOf(Written(d), FINGERPRINT) == if w.mark.Some? then JStr(w.mark.value) else JNull
  {
    var labels, notes := Strings(d.meta.labels), Strings(d.meta.annotations);
    var meta := JObj(map["labels" := labels, "annotations" := notes]);
    assert Get(Written(d).fields, "metadata") == meta;
    assert Get(meta.fields, "labels") == labels && Get(meta.fields, "annotations") == notes;
  }

  /** One owner for what is there and what is pending: the same mission, or no mission on either
      side and the same installation. */
  predicate SameHands(there: Owner, pending: Owner) {
    there.mark == pending.mark && (there.mark.None? ==> there.id == pending.id)
  }

  /** Over one writer's file another writer may write exactly when the two say the same owner. */
  lemma OverwritingNeedsTheOwner(t: Tree, n: Name, docs: seq<Doc>, there: Owner, pending: seq<Doc>, w: Owner)
    requires n in t && Holds(t[n], docs) && AllBear(docs, there) && Fingerprinted(there)
    requires AllBear(pending, w)
    ensures Preflights(t, n, pending, if SameHands(there, w) then Free else Conflict)
  {
    hide AllBear, Bears, Documents, RenderedMission, RenderedOwnerId, Classify, IsRenderedArtifact, AllStampable;
    FilesReadBack(t[n], docs, there);
    DocumentsAreStampable(pending, w);
  }

  ghost predicate Preflights(t: Tree, n: Name, pending: seq<Doc>, verdict: Preflight) {
    AllStampable(Documents(pending)) && PreflightAt(t, n, Documents(pending), CLEAR) == verdict
  }

  /** So a render finds its mission's previous files writable, whichever renderer wrote them and
      whatever else of theirs has changed, and one for another fingerprint or another prefix is
      refused them before anything is replaced. */
  lemma RerenderIsWritable(
    t: Tree, n: Name, earlier: Intent, renderer: string, later: Intent, draFallback: bool, namespace: Option<string>,
    account: Option<string>, docs: seq<Doc>, h: Hashes)
    requires n in t && Holds(t[n], docs) && AllBear(docs, MissionOwner(earlier, renderer, h))
    requires !Blank(h.mark(earlier.missionId)) && (draFallback ==> namespace.Some?)
    ensures Preflights(t, n, ArgoDocs(later, draFallback, namespace, account, h), SameMission(earlier, later, h))
  {
    hide ArgoDocs, Preflights, Holds, AllBear;
    ArgoDocsBear(later, draFallback, namespace, account, h);
    OverwritingNeedsTheOwner(
      t, n, docs, MissionOwner(earlier, renderer, h), ArgoDocs(later, draFallback, namespace, account, h),
      MissionOwner(later, ARGO, h));
  }

  function SameMission(earlier: Intent, later: Intent, h: Hashes): Preflight {
    if h.mark(earlier.missionId) == h.mark(later.missionId) then Free else Conflict
  }

  /** The same of what `render-kueue` plans for an intent: the Job's file and the one apart. */
  lemma KueueRerenderIsWritable(
    t: Tree, n: Name, earlier: Intent, renderer: string, later: Intent, o: KueueOptions, k: nat, docs: seq<Doc>,
      h: Hashes)
    requires n in t && Holds(t[n], docs) && AllBear(docs, MissionOwner(earlier, renderer, h))
    requires !Blank(h.mark(earlier.missionId)) && later.steps != [] && k < |KueueFiles(later, o, h)|
    ensures Preflights(t, n, KueueFiles(later, o, h)[k].docs, SameMission(earlier, later, h))
  {
    hide KueueFiles, Preflights, Holds, AllBear;
    KueueFileBears(later, o, h, k);
    OverwritingNeedsTheOwner(
      t, n, docs, MissionOwner(earlier, renderer, h), KueueFiles(later, o, h)[k].docs, MissionOwner(later, KUEUE, h));
  }

  lemma RebundleIsWritable(t: Tree, n: Name, earlier: string, later: string)
    requires n in t && Holds(t[n], Bundle(earlier).docs)
    ensures Preflights(t, n, Bundle(later).docs, if earlier == later then Free else Conflict)
  {
    hide Bundle, Preflights, Holds, AllBear;
    BundleBears(earlier);
    BundleBears(later);
    OverwritingNeedsTheOwner(
      t, n, Bundle(earlier).docs, Owner(None, KUEUE, SCOPE_INSTALLATION, earlier), Bundle(later).docs,
      Owner(None, KUEUE, SCOPE_INSTALLATION, later));
  }

  // ---------------------------------------------------------------- claimed by the next run

  /** What `render-argo` asks about its own mission. */
  function ArgoQuery(missionId: string, h: Hashes): Query {
    Query(ARGO, {h.mark(missionId)}, Some({missionId}), false, None, false)
  }

  /** What `render-kueue` asks: its mission, and its installation's bundle. */
  function KueueQuery(missionId: string, prefix: string, pruneGlobal: bool, h: Hashes): Query {
    Query(KUEUE, {h.mark(missionId)}, Some({missionId}), true, Some(prefix), pruneGlobal)
  }

  /** A question about one mission claims a mission's file exactly when the mission, its fingerprint
      and the renderer are the file's own; neither renderer claims the other's. */
  lemma MissionFilesAreClaimedIff(
    e: Entry, i: Intent, renderer: string, docs: seq<Doc>, q: Query, missionId: string, h: Hashes)
    requires Holds(e, docs) && AllBear(docs, MissionOwner(i, renderer, h)) && !Blank(h.mark(i.missionId))
    requires q.missions == {h.mark(missionId)} && q.owners == Some({missionId})
    ensures Claims(q, e) <==> q.renderer == renderer && missionId == i.missionId
  {
    hide Holds, AllBear, Classify, IsRenderedArtifact;
    FilesReadBack(e, docs, MissionOwner(i, renderer, h));
    assert |SCOPE_MISSION| == 7 && |SCOPE_INSTALLATION| == 12;
  }

  /** A bundle is claimed exactly by `render-kueue --prune-global` with its own prefix. */
  lemma BundlesAreClaimedIff(e: Entry, prefix: string, q: Query)
    requires Holds(e, Bundle(prefix).docs)
    ensures Claims(q, e) <==>
      q.renderer == KUEUE && q.includeUnmissioned && q.pruneGlobal && q.installation == Some(prefix)
  {
    hide Holds, AllBear, Classify, IsRenderedArtifact, Bundle;
    BundleBears(prefix);
    FilesReadBack(e, Bundle(prefix).docs, Owner(None, KUEUE, SCOPE_INSTALLATION, prefix));
  }

  /** The group a run of `render-kueue` over prefix `ours` puts a bundle into that it read well and does
      not write itself: another installation's, its own held back, or its own to delete. */
  lemma BundlesAreGrouped(
    t: Tree, current: set<Name>, n: Name, prefix: string, missionId: string, ours: string, pruneGlobal: bool,
    m: Misreads, h: Hashes)
    requires n in t && Holds(t[n], Bundle(prefix).docs) && IsManifest(n) && n !in current
    requires n !in Missed(m) + m.sharing
    ensures var q := KueueQuery(missionId, ours, pruneGlobal, h);
            && (n in Theirs(t, current, q, m) <==> prefix != ours)
            && (n in HeldBack(t, current, q, m) <==> prefix == ours && !pruneGlobal)
            && (n in Removable(t, current, q, m) <==> prefix == ours && pruneGlobal)
  {
    hide Holds, AllBear, Classify, IsRenderedArtifact, Bundle, IsManifest;
    BundleBears(prefix);
    FilesReadBack(t[n], Bundle(prefix).docs, Owner(None, KUEUE, SCOPE_INSTALLATION, prefix));
  }

  /** A mission's own stale file is in neither report group: it is deleted. */
  lemma MissionFilesAreGrouped(
    t: Tree, current: set<Name>, n: Name, i: Intent, renderer: string, docs: seq<Doc>, q: Query, m: Misreads, h: Hashes)
    requires n in t && Holds(t[n], docs) && AllBear(docs, MissionOwner(i, renderer, h)) && !Blank(h.mark(i.missionId))
    requires IsManifest(n) && n !in current + Missed(m)
    requires q.renderer == renderer && q.missions == {h.mark(i.missionId)} && q.owners == Some({i.missionId})
    ensures n in Removable(t, current, q, m) && n !in Theirs(t, current, q, m) && n !in HeldBack(t, current, q, m)
  {
    hide Holds, AllBear, Classify, IsRenderedArtifact, IsManifest;
    FilesReadBack(t[n], docs, MissionOwner(i, renderer, h));
    assert |SCOPE_MISSION| == 7 && |SCOPE_INSTALLATION| == 12;
  }

  // ---------------------------------------------------------------- what a command plans

  function FileSet(files: seq<Planned>): set<Name> {
    set k | 0 <= k < |files| :: files[k].file
  }

  /** The directory entries of a planned set of files, no more and no fewer. */
  ghost predicate Publishes(planned: Tree, files: seq<Planned>) {
    && planned.Keys == FileSet(files)
    && forall k :: 0 <= k < |files| ==> Holds(planned[files[k].file], files[k].docs)
  }

  /** A manifest of a mission, under a name that is not the bundle's. */
  ghost predicate MissionFile(f: Planned, i: Intent, renderer: string, h: Hashes) {
    AllBear(f.docs, MissionOwner(i, renderer, h)) && IsManifest(f.file) && f.file != BUNDLE_FILE
  }

  predicate OfMission(intents: seq<Intent>, missionId: string) {
    forall k :: 0 <= k < |intents| ==> intents[k].missionId == missionId
  }

  lemma ArgoFileIs(i: Intent, draFallback: bool, namespace: Option<string>, account: Option<string>, h: Hashes)
    requires draFallback ==> namespace.Some?
    ensures var f := ArgoFile(i, draFallback, namespace, account, h);
            f.docs == ArgoDocs(i, draFallback, namespace, account, h) && IsManifest(f.file)
  {
    hide ArgoDocs, Sanitize, StampedLabels, MissionNotes;
    SanitizedIsALabel(i.workflowName, LABEL_LENGTH);
    var f := ArgoFile(i, draFallback, namespace, account, h);
    assert f.file[|f.file| - 5..] == ".yaml";
  }

  lemma ArgoFilesAreClaimed(
    planned: Tree, missionId: string, intents: seq<Intent>, draFallback: bool, namespace: Option<string>,
    account: Option<string>, h: Hashes, n: Name)
    requires (draFallback ==> namespace.Some?) && OfMission(intents, missionId) && !Blank(h.mark(missionId))
    requires Publishes(planned, ArgoFiles(intents, draFallback, namespace, account, h)) && n in planned
    ensures IsManifest(n) && Claims(ArgoQuery(missionId, h), planned[n])
  {
    hide Claims, Holds, ArgoDocs, ArgoFile, AllBear, IsManifest;
    var files := ArgoFiles(intents, draFallback, namespace, account, h);
    var k :| 0 <= k < |files| && n == files[k].file;
    ArgoFileIs(intents[k], draFallback, namespace, account, h);
    ArgoDocsBear(intents[k], draFallback, namespace, account, h);
    MissionFilesAreClaimedIff(
      planned[n], intents[k], ARGO, files[k].docs, ArgoQuery(missionId, h), missionId, h);
  }

  lemma KueueFileBears(i: Intent, o: KueueOptions, h: Hashes, k: nat)
    requires i.steps != [] && k < |KueueFiles(i, o, h)|
    ensures MissionFile(KueueFiles(i, o, h)[k], i, KUEUE, h)
  {
    hide KueueDocs, SchedulerRoute, AllBear, Sanitize, ClaimTemplates;
    var f := KueueFiles(i, o, h)[k];
    KueueDocsBear(i, o, h);
    if k == 0 {
      SuffixedName(Sanitize(i.workflowName, LABEL_LENGTH), "-kueue.yaml");
    } else {
      SchedulerDocsBear(i, o, h);
      SuffixedName(Sanitize(i.workflowName, LABEL_LENGTH), "-scheduler-fallback.yaml");
    }
  }

  lemma SuffixedName(stem: string, suffix: string)
    requires suffix == "-kueue.yaml" || suffix == "-scheduler-fallback.yaml"
    ensures IsManifest(stem + suffix) && stem + suffix != BUNDLE_FILE
  {
    var n := stem + suffix;
    assert n[|n| - 5..] == suffix[|suffix| - 5..] == ".yaml";
    assert n[|n| - 6] == suffix[|suffix| - 6];
    assert BUNDLE_FILE[|BUNDLE_FILE| - 6] == 's';
  }

  lemma {:induction false} EveryKueueFile(intents: seq<Intent>, o: KueueOptions, h: Hashes, j: nat) returns (i: Intent)
    requires forall k :: 0 <= k < |intents| ==> intents[k].steps != []
    requires j < |AllKueueFiles(intents, o, h)|
    ensures i in intents && MissionFile(AllKueueFiles(intents, o, h)[j], i, KUEUE, h)
    decreases |intents|
  {
    hide KueueFiles, MissionFile;
    var last := |intents| - 1;
    var rest := AllKueueFiles(intents[..last], o, h);
    if j < |rest| {
      i := EveryKueueFile(intents[..last], o, h, j);
    } else {
      i := intents[last];
      KueueFileBears(i, o, h, j - |rest|);
    }
  }

  lemma BundleFile(prefix: string)
    ensures Bundle(prefix).file == BUNDLE_FILE && IsManifest(BUNDLE_FILE)
  {
    assert BUNDLE_FILE[|BUNDLE_FILE| - 5..] == ".yaml";
  }

  /** Every planned file is claimed by the run that planned it, but the bundle only by a run that
      may prune globally. */
  lemma KueueFilesAreClaimed(
    planned: Tree, missionId: string, intents: seq<Intent>, o: KueueOptions, emitClasses: bool, pruneGlobal: bool,
    h: Hashes, n: Name)
    requires (forall k :: 0 <= k < |intents| ==> intents[k].steps != [])
    requires OfMission(intents, missionId) && !Blank(h.mark(missionId))
    requires Publishes(planned, KueuePlan(intents, o, emitClasses, h)) && n in planned
    ensures IsManifest(n)
    ensures Claims(KueueQuery(missionId, o.prefix, pruneGlobal, h), planned[n]) <==> n != BUNDLE_FILE || pruneGlobal
  {
    hide Claims, Holds, AllBear, IsManifest, Bundle, BUNDLE_FILE, AllKueueFiles;
    var files := KueuePlan(intents, o, emitClasses, h);
    var k :| 0 <= k < |files| && n == files[k].file;
    var q := KueueQuery(missionId, o.prefix, pruneGlobal, h);
    if emitClasses && k == 0 {
      BundleFile(o.prefix);
      BundlesAreClaimedIff(planned[n], o.prefix, q);
    } else {
      var i := EveryKueueFile(intents, o, h, if emitClasses then k - 1 else k);
      MissionFilesAreClaimedIff(planned[n], i, KUEUE, files[k].docs, q, missionId, h);
    }
  }

  // ---------------------------------------------------------------- from plan to directory

  /** After a pruning render of a mission, what carries the mission and this renderer's provenance
      is exactly the files just rendered, if and only if the prune misread none that was stale; and
      running it again finds nothing. */
  lemma RendersConverge(
    before: Tree, planned: Tree, readings: Readings, missionId: string, intents: seq<Intent>, draFallback: bool,
    namespace: Option<string>, account: Option<string>, h: Hashes)
    requires (draFallback ==> namespace.Some?) && OfMission(intents, missionId) && !Blank(h.mark(missionId))
    requires Publishes(planned, ArgoFiles(intents, draFallback, namespace, account, h))
    ensures var c := Command(planned, ArgoQuery(missionId, h), readings);
            && (Claimed(Settled(before, c), c.q) == FileSet(ArgoFiles(intents, draFallback, namespace, account, h))
                <==> Overlooked(before, c) == {})
            && Retired(Settled(before, c), c) == {} && Settled(Settled(before, c), c) == Settled(before, c)
  {
    hide Claims, Settled, Retired, IsManifest, Holds, ArgoFiles, Overlooked, FileSet;
    var c := Command(planned, ArgoQuery(missionId, h), readings);
    forall n | n in planned
      ensures IsManifest(n) && Claims(c.q, planned[n])
    {
      ArgoFilesAreClaimed(planned, missionId, intents, draFallback, namespace, account, h, n);
    }
    assert Claimed(planned, c.q) == planned.Keys;
    assert h.mark(missionId) in c.q.missions;
    PruningConverges(before, c);
    OverlookedIsStale(before, c);
  }

  lemma OverlookedIsStale(before: Tree, c: Command)
    ensures Overlooked(before, c) !! c.planned.Keys
  {
  }

  /** The same of `render-kueue`: with `--prune-global` the bundle just written is all that is left
      of this installation's, without it no bundle is claimed and none is removed. */
  lemma KueueRendersConverge(
    before: Tree, planned: Tree, readings: Readings, missionId: string, intents: seq<Intent>, o: KueueOptions,
    emitClasses: bool, pruneGlobal: bool, h: Hashes)
    requires (forall k :: 0 <= k < |intents| ==> intents[k].steps != [])
    requires OfMission(intents, missionId) && !Blank(h.mark(missionId))
    requires Publishes(planned, KueuePlan(intents, o, emitClasses, h))
    ensures var c := Command(planned, KueueQuery(missionId, o.prefix, pruneGlobal, h), readings);
            var files := FileSet(KueuePlan(intents, o, emitClasses, h));
            && (Claimed(Settled(before, c), c.q) == (if pruneGlobal then files else files - {BUNDLE_FILE})
                <==> Overlooked(before, c) == {})
            && Retired(Settled(before, c), c) == {} && Settled(Settled(before, c), c) == Settled(before, c)
  {
    hide Claims, Settled, Retired, IsManifest, BUNDLE_FILE, KueuePlan, Holds, Overlooked, FileSet;
    var c := Command(planned, KueueQuery(missionId, o.prefix, pruneGlobal, h), readings);
    forall n | n in planned
      ensures IsManifest(n) && (Claims(c.q, planned[n]) <==> n != BUNDLE_FILE || pruneGlobal)
    {
      KueueFilesAreClaimed(planned, missionId, intents, o, emitClasses, pruneGlobal, h, n);
    }
    PruningConverges(before, c);
    OverlookedIsStale(before, c);
  }

  // ---------------------------------------------------------------- a bundle that is lost

  lemma BundleIsExposed(e: Entry, theirs: string, c: Command, missionId: string, prefix: string, h: Hashes)
    requires Holds(e, Bundle(theirs).docs) && theirs != prefix && WellPlanned(c.planned) && BUNDLE_FILE !in c.planned
    requires c.q == KueueQuery(missionId, prefix, false, h)
    requires forall n :: n in c.planned ==> RenderedMission(c.planned[n].owned.value) != JNull
    ensures Foreign(e, c)
    ensures Exposed(BUNDLE_FILE, e, c) <==>
      BUNDLE_FILE in c.readings.pruning.sharing && BUNDLE_FILE !in Missed(c.readings.pruning)
  {
    hide Holds, AllBear, Classify, IsRenderedArtifact, Bundle, RenderedMission, WellPlanned, IsManifest, BUNDLE_FILE;
    BundleFile(theirs);
    BundleBears(theirs);
    FilesReadBack(e, Bundle(theirs).docs, Owner(None, KUEUE, SCOPE_INSTALLATION, theirs));
  }

  /** A run of `render-kueue --prune`, without `--prune-global`, over another installation's class
      bundle: nothing is refused, and the run reports success; the bundle, though foreign to it, is
      removed exactly when the one reading that protects it fails. */
  lemma OneMisreadLosesABundle(
    before: Tree, after: Tree, theirs: string, c: Command, missionId: string, prefix: string, h: Hashes, ending: Ending)
    requires BUNDLE_FILE in before && Holds(before[BUNDLE_FILE], Bundle(theirs).docs) && theirs != prefix
    requires WellPlanned(c.planned) && BUNDLE_FILE !in c.planned && Permitted(before, c)
    requires forall n :: n in c.planned ==> RenderedMission(c.planned[n].owned.value) != JNull
    requires c.q == KueueQuery(missionId, prefix, false, h) && !ScanRaises(before, c)
    requires WriterContract(before, after, c, true, true, ending)
    ensures Succeeded(ending) && Foreign(before[BUNDLE_FILE], c)
    ensures BUNDLE_FILE !in after <==>
      BUNDLE_FILE in c.readings.pruning.sharing && BUNDLE_FILE !in Missed(c.readings.pruning)
  {
    hide Holds, Foreign, Exposed, Permitted, ScanRaises, Settled, WithinRights, Bundle, BUNDLE_FILE, WellPlanned,
      RenderedMission;
    BundleIsExposed(before[BUNDLE_FILE], theirs, c, missionId, prefix, h);
    ForeignIsReachedIff(before, c, BUNDLE_FILE);
  }
}
