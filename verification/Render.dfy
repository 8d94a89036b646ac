/** The manifests the renderers emit, as far as naming, ordering, claims and ownership go. */
module Manifests {
  import opened Wrappers
  import opened Json
  import opened Ownership

  /** `name` is `metadata.name`, or `generateName` on a Job. */
  datatype Meta = Meta(
    name: string, namespace: Option<string>, labels: map<string, string>, annotations: map<string, string>)

  /** A pod-level claim: what the containers call it, and the template it is made from. */
  datatype PodClaim = PodClaim(name: string, template: string)

  /** A container together with the Pod-level claims it runs under. */
  datatype Container = Container(name: string, image: string, claims: seq<string>, podClaims: seq<PodClaim>)

  datatype Task = Task(name: string, template: string, depends: Option<string>)

  datatype Device = Exactly(class_: string) | FirstAvailable(classes: seq<string>)

  datatype Doc =
    | Workflow(meta: Meta, templates: seq<Container>, tasks: seq<Task>, account: Option<string>)
    | Job(meta: Meta, container: Container)
    | ClaimTemplate(meta: Meta, device: Device)
    | PriorityClass(meta: Meta, value: nat)

  function Strings(m: map<string, string>): JSON {
    JObj(map k | k in m :: JStr(m[k]))
  }

  /** What a later run reads of a document: its metadata. */
  function Written(d: Doc): JSON {
    JObj(map["metadata" := JObj(map["labels" := Strings(d.meta.labels), "annotations" := Strings(d.meta.annotations)])])
  }

  function OwnershipLabels(renderer: string, role: string, scope: string): map<string, string> {
    map[MANAGED_BY := COMPILER, RENDERER := renderer, SCOPE := scope, ROLE := role, SCHEMA := SCHEMA_VERSION]
  }

  lemma StampKeyLengths()
    ensures |MANAGED_BY| == 28 && |RENDERER| == 16 && |SCOPE| == 19 && |ROLE| == 21 && |SCHEMA| == 24
    ensures |FINGERPRINT| == 27 && |RAW_MISSION_ID| == 22 && |OWNER_ID| == 16
  {
  }

  /** The stamp keys are told apart. */
  lemma StampKeys()
    ensures MANAGED_BY != RENDERER && MANAGED_BY != SCOPE && MANAGED_BY != ROLE && MANAGED_BY != SCHEMA
    ensures RENDERER != SCOPE && RENDERER != ROLE && RENDERER != SCHEMA
    ensures SCOPE != ROLE && SCOPE != SCHEMA && ROLE != SCHEMA
    ensures FINGERPRINT !in {MANAGED_BY, RENDERER, SCOPE, ROLE, SCHEMA}
    ensures RAW_MISSION_ID != OWNER_ID
  {
    StampKeyLengths();
  }

  /** The stamps on a document, as its labels and annotations carry them. */
  predicate Bears(m: Meta, mark: Option<string>, renderer: string, scope: string, owner: string) {
    && Look(m.labels, MANAGED_BY) == Some(COMPILER)
    && Look(m.labels, FINGERPRINT) == mark
    && Look(m.labels, RENDERER) == Some(renderer)
    && Look(m.labels, SCOPE) == Some(scope)
    && Look(m.labels, SCHEMA) == Some(SCHEMA_VERSION)
    && Look(m.annotations, OWNER_ID) == Some(owner)
  }

  /** Labels of a writer's own, the mission's fingerprint if there is a mission, and the provenance. */
  function StampedLabels(
    extra: map<string, string>, mark: Option<string>, renderer: string, role: string, scope: string):
    map<string, string>
  {
    extra + (if mark.Some? then map[FINGERPRINT := mark.value] else map[]) + OwnershipLabels(renderer, role, scope)
  }

  function MissionNotes(owner: string): map<string, string> {
    map[RAW_MISSION_ID := owner, OWNER_ID := owner]
  }

  /** What a document is for, and the mission as its author wrote it, for whoever reads the cluster. */
  predicate Plays(m: Meta, role: string, missionId: string) {
    Look(m.labels, ROLE) == Some(role) && Look(m.annotations, RAW_MISSION_ID) == Some(missionId)
  }

  lemma LabelsAreStamped(
    extra: map<string, string>, mark: Option<string>, renderer: string, role: string, scope: string)
    requires FINGERPRINT !in extra
    ensures var labels := StampedLabels(extra, mark, renderer, role, scope);
            && Look(labels, MANAGED_BY) == Some(COMPILER) && Look(labels, FINGERPRINT) == mark
            && Look(labels, RENDERER) == Some(renderer) && Look(labels, SCOPE) == Some(scope)
            && Look(labels, SCHEMA) == Some(SCHEMA_VERSION) && Look(labels, ROLE) == Some(role)
            && forall k :: k !in {MANAGED_BY, RENDERER, SCOPE, ROLE, SCHEMA, FINGERPRINT} ==>
                 Look(labels, k) == Look(extra, k)
  {
    StampKeys();
    hide MANAGED_BY, RENDERER, SCOPE, ROLE, SCHEMA, FINGERPRINT, COMPILER, SCHEMA_VERSION;
  }

  lemma NotesAreStamped(owner: string)
    ensures Look(MissionNotes(owner), OWNER_ID) == Some(owner)
    ensures Look(MissionNotes(owner), RAW_MISSION_ID) == Some(owner)
  {
  }

  /** The writer's stamps are the reader's answer. */
  lemma StampsReadBack(d: Doc, mark: Option<string>, renderer: string, scope: string, owner: string)
    requires Bears(d.meta, mark, renderer, scope, owner) && (mark.Some? ==> !Blank(mark.value))
    ensures Says(Written(d), mark, Stamp(JStr(renderer), JStr(scope), JStr(SCHEMA_VERSION)), JStr(owner))
  {
    hide MANAGED_BY, RENDERER, SCOPE, ROLE, SCHEMA, FINGERPRINT, OWNER_ID, COMPILER, SCHEMA_VERSION, Blank;
    var labels, notes := Strings(d.meta.labels), Strings(d.meta.annotations);
    var meta := JObj(map["labels" := labels, "annotations" := notes]);
    assert Get(Written(d).fields, "metadata") == meta;
    assert Get(meta.fields, "labels") == labels && Get(meta.fields, "annotations") == notes;
    assert MANAGED_BY in labels.fields && OWNER_ID in notes.fields;
    assert LabelsOf(Written(d)) == Labelled(MarkOf(labels.fields), StampOf(labels.fields));
    assert OwnerIdOf(Written(d)) == Some(JStr(owner));
  }
}

module Render {
  import opened Wrappers
  import opened Json
  import opened Files
  import opened Labels
  import opened Names
  import opened Plans
  import opened Intents
  import opened Ownership
  import opened Manifests

  const CLAIM_NAME_LENGTH := 62
  const DRA_ROUTE := "orbital/dra-route"
  const SCHEDULER_ROUTE := "scheduler"
  const KUEUE_ROUTE := "kueue"

  /** A digest for names, the fingerprint of a mission, and whether the annotations of every
      document a run makes of an intent are of a size the API server takes. */
  datatype Hashes = Hashes(digest: Digest, mark: string -> string, fits: Intent -> bool)

  /** `_RFC1123_LABEL_RE` on every dot-separated part. */
  predicate Subdomain(s: string, maxLen: nat) {
    && 0 < |s| <= maxLen
    && (forall i :: 0 <= i < |s| ==> LabelChar(s[i]) || s[i] == '.')
    && Alnum(s[0]) && Alnum(s[|s| - 1])
    && (forall i :: 0 < i < |s| - 1 && s[i] == '.' ==> Alnum(s[i - 1]) && Alnum(s[i + 1]))
  }

  /** `s.split(".")`. */
  function Parts(s: string): (r: seq<string>)
    ensures r != []
    ensures r[|r| - 1] == [] <==> s == [] || s[|s| - 1] == '.'
    ensures r[|r| - 1] != [] ==> r[|r| - 1][|r[|r| - 1]| - 1] == s[|s| - 1]
  {
    if s == [] then [""]
    else
      var before, c := Parts(s[..|s| - 1]), s[|s| - 1];
      if c == '.' then before + [""] else before[..|before| - 1] + [before[|before| - 1] + [c]]
  }

  predicate IsPart(p: string) {
    AllLabelChars(p) && Capped(p)
  }

  /** What the beginning of a subdomain looks like. */
  predicate Begun(s: string) {
    && (forall i :: 0 <= i < |s| ==> LabelChar(s[i]) || s[i] == '.')
    && (s != [] ==> Alnum(s[0]))
    && (forall i :: 0 < i < |s| && s[i] == '.' ==> Alnum(s[i - 1]) && (i < |s| - 1 ==> Alnum(s[i + 1])))
  }

  lemma BegunToo(s: string, c: char)
    ensures Begun(s + [c]) <==>
      && Begun(s) && (LabelChar(c) || c == '.')
      && (c == '.' ==> s != [] && Alnum(s[|s| - 1]))
      && (c == '-' ==> s != [] && s[|s| - 1] != '.')
  {
    var t := s + [c];
    if Begun(t) {
      assert forall i :: 0 <= i < |s| ==> t[i] == s[i];
      assert t[|s|] == c;
    } else if Begun(s) {
      assert forall i :: 0 <= i < |t| ==> t[i] == if i < |s| then s[i] else c;
    }
  }

  /** All parts but the last are whole, and the last may become so. */
  predicate PartsBegun(parts: seq<string>)
    requires parts != []
  {
    && (forall k :: 0 <= k < |parts| - 1 ==> IsPart(parts[k]))
    && AllLabelChars(parts[|parts| - 1]) && (parts[|parts| - 1] != [] ==> parts[|parts| - 1][0] != '-')
  }

  lemma {:induction false} BegunIff(s: string)
    ensures Begun(s) <==> PartsBegun(Parts(s))
    decreases |s|
  {
    if s != [] {
      var t, c := s[..|s| - 1], s[|s| - 1];
      assert s == t + [c];
      BegunIff(t);
      BegunToo(t, c);
      OneMorePart(t, c);
    }
  }

  lemma OneMorePart(t: string, c: char)
    ensures PartsBegun(Parts(t + [c])) <==>
      && PartsBegun(Parts(t)) && (LabelChar(c) || c == '.')
      && (c == '.' ==> t != [] && Alnum(t[|t| - 1]))
      && (c == '-' ==> t != [] && t[|t| - 1] != '.')
  {
    var before := Parts(t);
    PartsGrow(t, c);
    LastPartIs(t);
    hide PartsBegun, Parts, Alnum, LabelChar;
    if c == '.' {
      PartEnds(before);
    } else {
      PartGoesOn(before, c);
    }
  }

  lemma PartsGrow(t: string, c: char)
    ensures var before := Parts(t);
            Parts(t + [c])
            == if c == '.' then before + [""] else before[..|before| - 1] + [before[|before| - 1] + [c]]
  {
    assert (t + [c])[..|t|] == t;
  }

  lemma LastPartIs(t: string)
    ensures Parts(t)[|Parts(t)| - 1] != [] <==> t != [] && t[|t| - 1] != '.'
    ensures PartsBegun(Parts(t)) ==>
      (Whole(Parts(t)[|Parts(t)| - 1]) <==> t != [] && Alnum(t[|t| - 1]))
  {
    hide Parts;
  }

  predicate Whole(part: string) {
    part != [] && part[|part| - 1] != '-'
  }

  lemma PartEnds(before: seq<string>)
    requires before != []
    ensures PartsBegun(before + [""]) <==> PartsBegun(before) && Whole(before[|before| - 1])
  {
    assert AllLabelChars("");
    hide AllLabelChars;
    var after := before + [""];
    assert forall k :: 0 <= k < |before| ==> after[k] == before[k];
    if PartsBegun(after) {
      assert IsPart(after[|before| - 1]);
    }
  }

  lemma PartGoesOn(before: seq<string>, c: char)
    requires before != []
    ensures var last := before[|before| - 1];
            PartsBegun(before[..|before| - 1] + [last + [c]]) <==>
              PartsBegun(before) && LabelChar(c) && (last == [] ==> c != '-')
  {
    var last := before[|before| - 1];
    var after := before[..|before| - 1] + [last + [c]];
    assert after[|after| - 1] == last + [c] && forall k :: 0 <= k < |before| - 1 ==> after[k] == before[k];
    hide IsPart;
    assert (last + [c])[|last|] == c && forall i :: 0 <= i < |last| ==> (last + [c])[i] == last[i];
  }

  /** A name is a subdomain exactly when every part between its dots is a label of whatever length. */
  lemma SubdomainIff(s: string, maxLen: nat)
    ensures Subdomain(s, maxLen) <==> 0 < |s| <= maxLen && forall k :: 0 <= k < |Parts(s)| ==> IsPart(Parts(s)[k])
  {
    BegunIff(s);
    var parts := Parts(s);
    assert Subdomain(s, maxLen) <==> 0 < |s| <= maxLen && Begun(s) && Alnum(s[|s| - 1]);
    if forall k :: 0 <= k < |parts| ==> IsPart(parts[k]) {
      assert IsPart(parts[|parts| - 1]);
    }
  }

  /** And a label is a subdomain without a dot, of at most 63 characters. */
  lemma LabelsAreSubdomains(s: string)
    ensures Label(s) <==> Subdomain(s, 63) && '.' !in s
  {
    if Subdomain(s, 63) && '.' !in s {
      assert forall i :: 0 <= i < |s| ==> s[i] in s;
    }
  }

  // ---------------------------------------------------------------- claims

  /** `_rct_name_for_intent`. */
  function ClaimName(i: Intent, device: string, digest: Digest): string {
    Resistant(i.workflowName + "-" + device + "-claim", CLAIM_NAME_LENGTH, digest)
  }

  /** The one direction a driver backs: an accelerator first, the CPU if it is taken. */
  predicate FallsBackOnCpu(s: Step) {
    s.class_ == Gpu && s.fallback == Some(Cpu)
  }

  predicate AnyFallsBack(steps: seq<Step>) {
    exists k :: 0 <= k < |steps| && FallsBackOnCpu(steps[k])
  }

  function ClaimMeta(
    i: Intent, device: string, namespace: string, route: string, renderer: string, role: string, h: Hashes): Meta
  {
    Meta(
      ClaimName(i, device, h.digest), Some(namespace),
      StampedLabels(map[DRA_ROUTE := route], Some(h.mark(i.missionId)), renderer, role, SCOPE_MISSION),
      MissionNotes(i.missionId))
  }

  lemma ClaimMetaIs(
    i: Intent, device: string, namespace: string, route: string, renderer: string, role: string, h: Hashes)
    ensures var m := ClaimMeta(i, device, namespace, route, renderer, role, h);
            && m.name == ClaimName(i, device, h.digest) && m.namespace == Some(namespace)
            && Look(m.labels, DRA_ROUTE) == Some(route)
            && Bears(m, Some(h.mark(i.missionId)), renderer, SCOPE_MISSION, i.missionId) && Plays(m, role, i.missionId)
  {
    hide ClaimName, StampedLabels, MissionNotes, DRA_ROUTE, MANAGED_BY, RENDERER, SCOPE, ROLE, SCHEMA, FINGERPRINT,
      OWNER_ID, RAW_MISSION_ID, COMPILER, SCOPE_MISSION, SCHEMA_VERSION;
    RoutesAreNoStamps();
    LabelsAreStamped(map[DRA_ROUTE := route], Some(h.mark(i.missionId)), renderer, role, SCOPE_MISSION);
    NotesAreStamped(i.missionId);
  }

  lemma RoutesAreNoStamps()
    ensures DRA_ROUTE !in {MANAGED_BY, RENDERER, SCOPE, ROLE, SCHEMA, FINGERPRINT}
    ensures SCHEDULER_ROUTE != KUEUE_ROUTE
  {
    assert |DRA_ROUTE| == 17 && |SCHEDULER_ROUTE| == 9 && |KUEUE_ROUTE| == 5;
    StampKeyLengths();
  }

  /** `_first_available_rct` where some step qualifies; every one that does shares its classes. */
  function FallbackTemplate(i: Intent, namespace: string, renderer: string, h: Hashes): Doc {
    ClaimTemplate(
      ClaimMeta(i, "accel", namespace, SCHEDULER_ROUTE, renderer, "scheduler-fallback", h),
      FirstAvailable(["gpu.nvidia.com", "dra.cpu"]))
  }

  function ExactTemplate(i: Intent, namespace: string, h: Hashes): Doc {
    ClaimTemplate(
      ClaimMeta(i, "gpu", namespace, KUEUE_ROUTE, KUEUE, "kueue-job", h), Exactly("gpu.nvidia.com"))
  }

  // ---------------------------------------------------------------- the Argo workflow

  function ContainerFor(i: Intent, k: nat, draFallback: bool, digest: Digest): Container
    requires k < |i.steps|
  {
    var step := i.steps[k];
    var wired := draFallback && FallsBackOnCpu(step);
    Container(
      TaskName(k, step.name, digest), step.image,
      if wired then ["compute"] else [],
      if wired then [PodClaim("compute", ClaimName(i, "accel", digest))] else [])
  }

  function Containers(i: Intent, draFallback: bool, digest: Digest): (r: seq<Container>)
    ensures |r| == |i.steps|
    ensures forall k :: 0 <= k < |r| ==> r[k] == ContainerFor(i, k, draFallback, digest)
  {
    seq(|i.steps|, k requires 0 <= k < |i.steps| => ContainerFor(i, k, draFallback, digest))
  }

  function TaskFor(i: Intent, k: nat, chained: bool, digest: Digest): Task
    requires k < |i.steps|
  {
    var name := TaskName(k, i.steps[k].name, digest);
    Task(name, name, if chained && k > 0 then Some(TaskName(k - 1, i.steps[k - 1].name, digest)) else None)
  }

  function Tasks(i: Intent, chained: bool, digest: Digest): (r: seq<Task>)
    ensures |r| == |i.steps|
    ensures forall k :: 0 <= k < |r| ==> r[k] == TaskFor(i, k, chained, digest)
  {
    seq(|i.steps|, k requires 0 <= k < |i.steps| => TaskFor(i, k, chained, digest))
  }

  /** `resource_hints.get("execution_mode", "sequential")`. */
  function ModeHint(i: Intent): JSON {
    if EXECUTION_MODE in i.hints then i.hints[EXECUTION_MODE] else JStr("sequential")
  }

  predicate KnownMode(i: Intent) {
    ModeHint(i) in {JStr("sequential"), JStr("parallel")}
  }

  /** Everything the Argo renderer may raise for. */
  predicate ArgoAccepts(i: Intent, namespace: Option<string>, account: Option<string>, h: Hashes) {
    && KnownMode(i) && Tier(i.priority).Some? && h.fits(i)
    && (namespace.Some? ==> Label(namespace.value))
    && (account.Some? ==> Subdomain(account.value, 253))
  }

  function WorkflowMeta(i: Intent, namespace: Option<string>, h: Hashes): Meta {
    Meta(
      Sanitize(i.workflowName, LABEL_LENGTH), namespace,
      StampedLabels(OwnLabels(i), Some(h.mark(i.missionId)), ARGO, "workflow", SCOPE_MISSION),
      MissionNotes(i.missionId))
  }

  function OwnLabels(i: Intent): map<string, string> {
    map["mission-id" := Sanitize(i.missionId, LABEL_LENGTH), "service-id" := Sanitize(i.serviceId, LABEL_LENGTH)]
  }

  /** The labels that say whose a document is to whoever searches a cluster. */
  predicate BelongsTo(m: Meta, i: Intent) {
    && Look(m.labels, "mission-id") == Some(Sanitize(i.missionId, LABEL_LENGTH))
    && Look(m.labels, "service-id") == Some(Sanitize(i.serviceId, LABEL_LENGTH))
  }

  lemma OwnLabelsName(i: Intent)
    ensures Look(OwnLabels(i), "mission-id") == Some(Sanitize(i.missionId, LABEL_LENGTH))
    ensures Look(OwnLabels(i), "service-id") == Some(Sanitize(i.serviceId, LABEL_LENGTH))
    ensures "mission-id" !in {MANAGED_BY, RENDERER, SCOPE, ROLE, SCHEMA, FINGERPRINT}
    ensures "service-id" !in {MANAGED_BY, RENDERER, SCOPE, ROLE, SCHEMA, FINGERPRINT}
  {
    hide Sanitize;
    assert |"mission-id"| == 10 && |"service-id"| == 10 && "mission-id"[0] != "service-id"[0];
    StampKeyLengths();
  }

  lemma OwnLabelsAreOwn(i: Intent)
    ensures FINGERPRINT !in OwnLabels(i)
  {
    hide Sanitize;
    assert |"mission-id"| == 10 && |"service-id"| == 10;
    StampKeyLengths();
  }

  lemma WorkflowMetaIs(i: Intent, namespace: Option<string>, h: Hashes)
    ensures var m := WorkflowMeta(i, namespace, h);
            && m.name == Sanitize(i.workflowName, LABEL_LENGTH) && m.namespace == namespace
            && Bears(m, Some(h.mark(i.missionId)), ARGO, SCOPE_MISSION, i.missionId)
            && BelongsTo(m, i) && Plays(m, "workflow", i.missionId)
  {
    hide Sanitize, StampedLabels, OwnLabels, MissionNotes, MANAGED_BY, RENDERER, SCOPE, ROLE, SCHEMA, FINGERPRINT,
      OWNER_ID, RAW_MISSION_ID, COMPILER, SCOPE_MISSION, SCHEMA_VERSION, ARGO;
    OwnLabelsAreOwn(i);
    OwnLabelsName(i);
    LabelsAreStamped(OwnLabels(i), Some(h.mark(i.missionId)), ARGO, "workflow", SCOPE_MISSION);
    NotesAreStamped(i.missionId);
  }

  function WorkflowFor(
    i: Intent, draFallback: bool, namespace: Option<string>, account: Option<string>, h: Hashes): Doc
  {
    Workflow(
      WorkflowMeta(i, namespace, h), Containers(i, draFallback, h.digest),
      Tasks(i, ModeHint(i) == JStr("sequential"), h.digest), account)
  }

  /** A task as it stands once the first `k` have been chained. */
  function Linked(tasks: seq<Task>, m: nat, k: nat): Task
    requires m < |tasks|
  {
    if 0 < m < k then tasks[m].(depends := Some(tasks[m - 1].name)) else tasks[m]
  }

  function LinkedAll(tasks: seq<Task>): (r: seq<Task>)
    ensures |r| == |tasks| && forall m :: 0 <= m < |r| ==> r[m] == Linked(tasks, m, |tasks|)
  {
    seq(|tasks|, m requires 0 <= m < |tasks| => Linked(tasks, m, |tasks|))
  }

  /** The second pass, in place: each task but the first waits for the one before it. */
  method Chain(tasks: seq<Task>) returns (r: seq<Task>)
    ensures r == LinkedAll(tasks)
  {
    r := tasks;
    if tasks == [] {
      return;
    }
    for k := 1 to |tasks|
      invariant |r| == |tasks| && forall m :: 0 <= m < |tasks| ==> r[m] == Linked(tasks, m, k)
    {
      r := r[k := r[k].(depends := Some(r[k - 1].name))];
    }
  }

  /** The first pass: a template and an unchained task for every step. */
  method Build(i: Intent, draFallback: bool, digest: Digest) returns (templates: seq<Container>, tasks: seq<Task>)
    ensures templates == Containers(i, draFallback, digest) && tasks == Tasks(i, false, digest)
  {
    hide TaskName, ContainerFor;
    templates, tasks := [], [];
    for k := 0 to |i.steps|
      invariant |templates| == k && forall m :: 0 <= m < k ==> templates[m] == ContainerFor(i, m, draFallback, digest)
      invariant |tasks| == k && forall m :: 0 <= m < k ==> tasks[m] == TaskFor(i, m, false, digest)
    {
      templates := templates + [ContainerFor(i, k, draFallback, digest)];
      var name := TaskName(k, i.steps[k].name, digest);
      tasks := tasks + [Task(name, name, None)];
    }
    assert templates == Containers(i, draFallback, digest);
    assert tasks == Tasks(i, false, digest);
  }

  /** `render_argo_workflow`; `None` where it raises. */
  method RenderArgo(i: Intent, draFallback: bool, namespace: Option<string>, account: Option<string>, h: Hashes)
    returns (r: Option<Doc>)
    ensures r.Some? <==> ArgoAccepts(i, namespace, account, h)
    ensures r.Some? ==> r.value == WorkflowFor(i, draFallback, namespace, account, h)
  {
    hide Containers, Tasks, LinkedAll, Label, Subdomain, WorkflowMeta, Tier;
    var templates, tasks := Build(i, draFallback, h.digest);
    var mode := ModeHint(i);
    if mode != JStr("sequential") && mode != JStr("parallel") {
      return None;
    }
    AllTasks(i, h.digest);
    if mode == JStr("sequential") {
      tasks := Chain(tasks);
    }
    if Tier(i.priority).None? || !h.fits(i) || (namespace.Some? && !Label(namespace.value))
       || (account.Some? && !Subdomain(account.value, 253)) {
      return None;
    }
    r := Some(Workflow(WorkflowMeta(i, namespace, h), templates, tasks, account));
  }

  lemma AllTasks(i: Intent, digest: Digest)
    ensures LinkedAll(Tasks(i, false, digest)) == Tasks(i, true, digest)
  {
    hide TaskName;
  }

  // ---------------------------------------------------------------- the order of the tasks

  /** Some order of all the tasks in which nothing starts before what it depends on. */
  ghost predicate Topological(tasks: seq<Task>, order: seq<nat>) {
    && NoDup(order) && (forall k :: 0 <= k < |order| ==> order[k] < |tasks|)
    && (forall k: nat :: k < |tasks| ==> k in order)
    && (forall k :: 0 <= k < |order| && tasks[order[k]].depends.Some? ==>
          exists j :: 0 <= j < k && tasks[order[j]].name == tasks[order[k]].depends.value)
  }

  lemma {:induction false} ChainsHaveOneOrder(tasks: seq<Task>, order: seq<nat>, k: nat)
    requires forall a, b :: 0 <= a < |tasks| && 0 <= b < |tasks| && tasks[a].name == tasks[b].name ==> a == b
    requires LinkedAll(tasks) == tasks
    requires Topological(tasks, order) && k < |order|
    ensures order[k] == k
    decreases k
  {
    var m := order[k];
    if m < k {
      ChainsHaveOneOrder(tasks, order, m);
    }
    if m > 0 {
      assert tasks[m].depends == Some(tasks[m - 1].name);
      var j :| 0 <= j < k && tasks[order[j]].name == tasks[m].depends.value;
      ChainsHaveOneOrder(tasks, order, j);
      assert j == m - 1;
    }
  }

  /** The steps in the order the plan gives them. */
  function PlanOrder(i: Intent): (r: seq<nat>)
    ensures |r| == |i.steps| && forall k :: 0 <= k < |r| ==> r[k] == k
  {
    seq(|i.steps|, k => k)
  }

  /** Without the hint, or with the hint `sequential`, the steps can run in the order the plan gives
      them and in no other. */
  lemma SequentialOrderIsForced(
    i: Intent, draFallback: bool, namespace: Option<string>, account: Option<string>, h: Hashes, order: seq<nat>)
    requires |i.steps| <= Pow10(49) && Look(i.hints, "execution_mode") in {None, Some(JStr("sequential"))}
    ensures Topological(WorkflowFor(i, draFallback, namespace, account, h).tasks, order) <==> order == PlanOrder(i)
  {
    hide TaskName, Topological, WorkflowMeta, Containers;
    var tasks := Tasks(i, true, h.digest);
    forall a: nat, b: nat | a < |tasks| && b < |tasks| && tasks[a].name == tasks[b].name
      ensures a == b
    {
      StepNamesDiffer(i, h.digest, a, b);
    }
    ChainsCanRun(tasks, PlanOrder(i));
    if Topological(tasks, order) {
      forall k | 0 <= k < |order|
        ensures order[k] == k
      {
        ChainsHaveOneOrder(tasks, order, k);
      }
      OrdersAreComplete(tasks, order);
    }
  }

  lemma ChainsCanRun(tasks: seq<Task>, order: seq<nat>)
    requires LinkedAll(tasks) == tasks && (tasks == [] || tasks[0].depends.None?)
    requires |order| == |tasks| && forall k :: 0 <= k < |order| ==> order[k] == k
    ensures Topological(tasks, order)
  {
    forall k: nat | k < |tasks|
      ensures k in order
    {
      assert order[k] == k;
    }
    forall k | 0 <= k < |order| && tasks[order[k]].depends.Some?
      ensures exists j :: 0 <= j < k && tasks[order[j]].name == tasks[order[k]].depends.value
    {
      assert tasks[k] == Linked(tasks, k, |tasks|);
      assert tasks[order[k - 1]].name == tasks[order[k]].depends.value;
    }
  }

  lemma OrdersAreComplete(tasks: seq<Task>, order: seq<nat>)
    requires Topological(tasks, order) && forall k :: 0 <= k < |order| ==> order[k] == k
    ensures |order| == |tasks|
  {
    assert |order| !in order;
    assert order != [] ==> order[|order| - 1] < |tasks|;
  }

  lemma StepNamesDiffer(i: Intent, digest: Digest, a: nat, b: nat)
    requires |i.steps| <= Pow10(49) && a < |i.steps| && b < |i.steps|
    requires TaskName(a, i.steps[a].name, digest) == TaskName(b, i.steps[b].name, digest)
    ensures a == b
  {
    IndexIsLegible(a, i.steps[a].name, digest);
    IndexIsLegible(b, i.steps[b].name, digest);
  }

  /** With the hint `parallel` nothing waits for anything, so every order will do. */
  lemma ParallelHasNoEdges(
    i: Intent, draFallback: bool, namespace: Option<string>, account: Option<string>, h: Hashes, order: seq<nat>)
    requires Look(i.hints, "execution_mode") == Some(JStr("parallel"))
    ensures var tasks := WorkflowFor(i, draFallback, namespace, account, h).tasks;
            && (forall k :: 0 <= k < |tasks| ==> tasks[k].depends == None)
            && (Topological(tasks, order) <==>
                  NoDup(order) && forall k: nat :: k in order <==> k < |tasks|)
  {
    hide TaskName, WorkflowMeta, Containers;
    assert |"parallel"| == 8 && |"sequential"| == 10;
    var tasks := WorkflowFor(i, draFallback, namespace, account, h).tasks;
    if NoDup(order) && (forall k: nat :: k in order <==> k < |tasks|) {
      forall k | 0 <= k < |order|
        ensures order[k] < |tasks|
      {
        assert order[k] in order;
      }
    }
  }

  /** The m-th template of the document runs the m-th step: its image, under its task's name. */
  lemma TemplatesRunTheSteps(
    i: Intent, draFallback: bool, namespace: Option<string>, account: Option<string>, h: Hashes, m: nat)
    requires m < |i.steps|
    ensures var doc := WorkflowFor(i, draFallback, namespace, account, h);
            && |doc.templates| == |i.steps| == |doc.tasks|
            && doc.templates[m].image == i.steps[m].image
            && doc.templates[m].name == TaskName(m, i.steps[m].name, h.digest)
            && doc.tasks[m].name == doc.tasks[m].template == doc.templates[m].name
            && (doc.templates[m].claims != [] <==>
                  draFallback && i.steps[m].class_ == Gpu && i.steps[m].fallback == Some(Cpu))
            && doc.account == account && doc.meta.namespace == namespace
  {
    hide TaskName, ClaimName, Sanitize, StampedLabels;
  }

  /** Every task runs a template of the workflow, and no task is the entry template. */
  lemma TasksNameTheirTemplates(i: Intent, draFallback: bool, chained: bool, digest: Digest, k: nat)
    requires |i.steps| <= Pow10(49) && k < |i.steps|
    ensures var task, template := Tasks(i, chained, digest)[k], Containers(i, draFallback, digest)[k];
            task.template == template.name && Label(template.name) && template.name != "main"
  {
    IndexIsLegible(k, i.steps[k].name, digest);
    ResistantIsALabel(StepPrefix(k) + "-" + i.steps[k].name, LABEL_LENGTH, digest);
  }
}
