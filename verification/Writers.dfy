/** The files a render plans, what they refer to, and what a later run reads back from them. */
module Writers {
  import opened Wrappers
  import opened Files
  import opened Labels
  import opened Names
  import opened Plans
  import opened Intents
  import opened Ownership
  import opened Manifests
  import opened Render

  datatype Planned = Planned(file: Name, docs: seq<Doc>)

  const MAPPING_VERSION := "orbital/priority-mapping-version"
  const MAPPING := "v2"
  const QUEUE_NAME := "kueue.x-k8s.io/queue-name"
  const PRIORITY_CLASS := "kueue.x-k8s.io/priority-class"
  const BUNDLE_FILE := "workload-priority-classes.yaml"
  const DRA_DEFAULT_NAMESPACE := "orbital-demo"

  // ---------------------------------------------------------------- Argo

  function Namespace(draFallback: bool, given: Option<string>): (r: Option<string>)
    ensures draFallback ==> r.Some?
  {
    if draFallback && given.None? then Some(DRA_DEFAULT_NAMESPACE) else given
  }

  /** The claim template, if a step needs it, then the Workflow. */
  function ArgoDocs(
    i: Intent, draFallback: bool, namespace: Option<string>, account: Option<string>, h: Hashes): seq<Doc>
    requires draFallback ==> namespace.Some?
  {
    (if draFallback && AnyFallsBack(i.steps) then [FallbackTemplate(i, namespace.value, ARGO, h)] else [])
    + [WorkflowFor(i, draFallback, namespace, account, h)]
  }

  /** One self-contained file, named after the Workflow. */
  function ArgoFile(
    i: Intent, draFallback: bool, namespace: Option<string>, account: Option<string>, h: Hashes): Planned
    requires draFallback ==> namespace.Some?
  {
    Planned(
      WorkflowMeta(i, namespace, h).name + ".yaml", ArgoDocs(i, draFallback, namespace, account, h))
  }

  /** The set of files, one an intent. */
  function ArgoFiles(
    intents: seq<Intent>, draFallback: bool, namespace: Option<string>, account: Option<string>, h: Hashes):
    (r: seq<Planned>)
    requires draFallback ==> namespace.Some?
    ensures |r| == |intents|
    ensures forall k :: 0 <= k < |r| ==> r[k] == ArgoFile(intents[k], draFallback, namespace, account, h)
  {
    seq(|intents|, k requires 0 <= k < |intents| => ArgoFile(intents[k], draFallback, namespace, account, h))
  }

  predicate AllArgoAccepted(intents: seq<Intent>, namespace: Option<string>, account: Option<string>, h: Hashes) {
    forall k :: 0 <= k < |intents| ==> ArgoAccepts(intents[k], namespace, account, h)
  }

  /** One pass of the loop below. */
  method RenderArgoFile(i: Intent, draFallback: bool, namespace: Option<string>, account: Option<string>, h: Hashes)
    returns (r: Option<Planned>)
    requires draFallback ==> namespace.Some?
    ensures r.Some? <==> ArgoAccepts(i, namespace, account, h)
    ensures r.Some? ==> r.value == ArgoFile(i, draFallback, namespace, account, h)
  {
    hide ArgoAccepts, ArgoFile, WorkflowFor, FallbackTemplate, AnyFallsBack;
    var workflow := RenderArgo(i, draFallback, namespace, account, h);
    if workflow.None? {
      return None;
    }
    WorkflowIsNamed(i, draFallback, namespace, account, h);
    var docs := [workflow.value];
    if draFallback && AnyFallsBack(i.steps) {
      docs := [FallbackTemplate(i, namespace.value, ARGO, h)] + docs;
    }
    r := Some(Planned(workflow.value.meta.name + ".yaml", docs));
  }

  /** `write_individual_workflows` up to the writing: every file of the set, or nothing. */
  method PlanArgo(intents: seq<Intent>, draFallback: bool, given: Option<string>, account: Option<string>, h: Hashes)
    returns (r: Option<seq<Planned>>)
    ensures r.Some? <==> AllArgoAccepted(intents, Namespace(draFallback, given), account, h)
    ensures r.Some? ==> r.value == ArgoFiles(intents, draFallback, Namespace(draFallback, given), account, h)
  {
    hide ArgoAccepts, ArgoFile, Namespace;
    var namespace := Namespace(draFallback, given);
    var planned: seq<Planned> := [];
    for k := 0 to |intents|
      invariant |planned| == k
      invariant forall m :: 0 <= m < k ==> ArgoAccepts(intents[m], namespace, account, h)
      invariant forall m :: 0 <= m < k ==> planned[m] == ArgoFile(intents[m], draFallback, namespace, account, h)
    {
      var file := RenderArgoFile(intents[k], draFallback, namespace, account, h);
      if file.None? {
        return None;
      }
      planned := planned + [file.value];
    }
    assert planned == ArgoFiles(intents, draFallback, namespace, account, h);
    r := Some(planned);
  }

  lemma WorkflowIsNamed(i: Intent, draFallback: bool, namespace: Option<string>, account: Option<string>, h: Hashes)
    requires draFallback ==> namespace.Some?
    ensures var w := WorkflowFor(i, draFallback, namespace, account, h);
            ArgoFile(i, draFallback, namespace, account, h)
            == Planned(w.meta.name + ".yaml",
                       if draFallback && AnyFallsBack(i.steps)
                       then [FallbackTemplate(i, namespace.value, ARGO, h)] + [w] else [w])
  {
    hide WorkflowMeta, FallbackTemplate, Containers, Tasks;
  }

  // ---------------------------------------------------------------- Kueue

  datatype KueueOptions = KueueOptions(
    queue: string, namespace: string, draEnabled: bool, draFallback: bool, priorityClass: bool, prefix: string)

  function FirstUsing(steps: seq<Step>, c: ResourceClass): (k: Option<nat>)
    ensures k.Some? <==> Uses(steps, c)
    ensures k.Some? ==> k.value < |steps| && steps[k.value].class_ == c
    ensures k.Some? ==> forall m :: 0 <= m < k.value ==> steps[m].class_ != c
  {
    if steps == [] then None
    else
      var before := FirstUsing(steps[..|steps| - 1], c);
      if before.Some? then before
      else if steps[|steps| - 1].class_ == c then Some(|steps| - 1)
      else None
  }

  /** `_primary_step`: a GPU step first, then an FPGA step, then whatever comes first. */
  function PrimaryStep(steps: seq<Step>): (k: nat)
    requires steps != []
    ensures k < |steps|
    ensures Uses(steps, Gpu) ==> steps[k].class_ == Gpu && forall m :: 0 <= m < k ==> steps[m].class_ != Gpu
    ensures !Uses(steps, Gpu) && Uses(steps, Fpga) ==>
      steps[k].class_ == Fpga && forall m :: 0 <= m < k ==> steps[m].class_ != Fpga
    ensures !Uses(steps, Gpu) && !Uses(steps, Fpga) ==> k == 0
  {
    var gpu, fpga := FirstUsing(steps, Gpu), FirstUsing(steps, Fpga);
    if gpu.Some? then gpu.value else if fpga.Some? then fpga.value else 0
  }

  function TierName(tier: nat): string {
    if tier == 1 then "mission-critical" else if tier == 2 then "mission-high"
    else if tier == 3 then "mission-normal" else "mission-low"
  }

  predicate KueueAccepts(i: Intent, o: KueueOptions, h: Hashes) {
    && h.fits(i) && Label(o.namespace) && Subdomain(o.queue, 63) && i.steps != [] && Tier(i.priority).Some?
    && (o.priorityClass ==> Label(o.prefix + TierName(Tier(i.priority).value)))
  }

  /** `render_resource_claim_templates` on a namespace that is one. */
  function ClaimTemplates(i: Intent, o: KueueOptions, h: Hashes): seq<Doc> {
    (if o.draFallback && AnyFallsBack(i.steps) then [FallbackTemplate(i, o.namespace, KUEUE, h)] else [])
    + (if Uses(i.steps, Gpu) then [ExactTemplate(i, o.namespace, h)] else [])
  }

  /** The labels Kueue reads: the queue, and the class of the priority where one is asked for. */
  function QueueLabels(i: Intent, o: KueueOptions): map<string, string> {
    map[QUEUE_NAME := o.queue]
    + if o.priorityClass && Tier(i.priority).Some?
      then map[PRIORITY_CLASS := o.prefix + TierName(Tier(i.priority).value), MAPPING_VERSION := MAPPING] else map[]
  }

  function JobMeta(i: Intent, o: KueueOptions, h: Hashes): Meta {
    Meta(
      Sanitize(i.workflowName, 62) + "-", Some(o.namespace),
      StampedLabels(
        OwnLabels(i) + QueueLabels(i, o),
        Some(h.mark(i.missionId)), KUEUE, "kueue-job", SCOPE_MISSION),
      MissionNotes(i.missionId))
  }

  lemma JobMetaIs(i: Intent, o: KueueOptions, h: Hashes)
    ensures var m := JobMeta(i, o, h);
            && m.namespace == Some(o.namespace)
            && Bears(m, Some(h.mark(i.missionId)), KUEUE, SCOPE_MISSION, i.missionId)
            && Look(m.labels, QUEUE_NAME) == Some(o.queue)
            && (o.priorityClass && Tier(i.priority).Some? ==>
                  && Look(m.labels, PRIORITY_CLASS) == Some(o.prefix + TierName(Tier(i.priority).value))
                  && Look(m.labels, MAPPING_VERSION) == Some(MAPPING))
            && (!o.priorityClass ==> PRIORITY_CLASS !in m.labels)
            && BelongsTo(m, i) && Plays(m, "kueue-job", i.missionId)
  {
    hide Sanitize, RAW_MISSION_ID, StampedLabels, OwnLabels, MissionNotes, QUEUE_NAME, PRIORITY_CLASS,
      MAPPING_VERSION, MAPPING, MANAGED_BY, RENDERER, SCOPE, ROLE, SCHEMA, FINGERPRINT, OWNER_ID, COMPILER,
      SCOPE_MISSION, SCHEMA_VERSION, KUEUE, Tier, TierName;
    OwnLabelsAreOwn(i);
    QueueLabelsAreNoStamps(i);
    LabelsAreStamped(
      OwnLabels(i) + QueueLabels(i, o), Some(h.mark(i.missionId)), KUEUE, "kueue-job", SCOPE_MISSION);
    NotesAreStamped(i.missionId);
    var labels, extra := JobMeta(i, o, h).labels, OwnLabels(i) + QueueLabels(i, o);
    assert Look(labels, QUEUE_NAME) == Look(extra, QUEUE_NAME);
    assert Look(labels, PRIORITY_CLASS) == Look(extra, PRIORITY_CLASS);
    assert Look(labels, MAPPING_VERSION) == Look(extra, MAPPING_VERSION);
    OwnLabelsName(i);
    assert Look(labels, "mission-id") == Look(extra, "mission-id") == Look(OwnLabels(i), "mission-id");
    assert Look(labels, "service-id") == Look(extra, "service-id") == Look(OwnLabels(i), "service-id");
  }

  lemma QueueLabelsAreNoStamps(i: Intent)
    ensures QUEUE_NAME !in {MANAGED_BY, RENDERER, SCOPE, ROLE, SCHEMA, FINGERPRINT}
    ensures PRIORITY_CLASS !in {MANAGED_BY, RENDERER, SCOPE, ROLE, SCHEMA, FINGERPRINT}
    ensures MAPPING_VERSION !in {MANAGED_BY, RENDERER, SCOPE, ROLE, SCHEMA, FINGERPRINT}
    ensures QUEUE_NAME != PRIORITY_CLASS && QUEUE_NAME != MAPPING_VERSION && PRIORITY_CLASS != MAPPING_VERSION
    ensures PRIORITY_CLASS !in OwnLabels(i)
    ensures "mission-id" !in {QUEUE_NAME, PRIORITY_CLASS, MAPPING_VERSION}
    ensures "service-id" !in {QUEUE_NAME, PRIORITY_CLASS, MAPPING_VERSION}
  {
    hide Sanitize;
    assert |QUEUE_NAME| == 25 && |PRIORITY_CLASS| == 29 && |MAPPING_VERSION| == 32;
    assert |"mission-id"| == 10 && |"service-id"| == 10;
    StampKeyLengths();
  }

  /** The primary step alone, on the exactly claim if it is a GPU step. */
  function JobContainer(i: Intent, o: KueueOptions, digest: Digest): Container
    requires i.steps != []
  {
    var primary := i.steps[PrimaryStep(i.steps)];
    var claimed := primary.class_ == Gpu && o.draEnabled;
    Container(
      Sanitize(primary.name, LABEL_LENGTH), primary.image,
      if claimed then ["gpu"] else [],
      if claimed then [PodClaim("gpu", ClaimName(i, "gpu", digest))] else [])
  }

  /** `render_kueue_job`. */
  function JobFor(i: Intent, o: KueueOptions, h: Hashes): Doc
    requires i.steps != []
  {
    Job(JobMeta(i, o, h), JobContainer(i, o, h.digest))
  }

  predicate OnSchedulerRoute(d: Doc) {
    Look(d.meta.labels, DRA_ROUTE) == Some(SCHEDULER_ROUTE)
  }

  function SchedulerRoute(docs: seq<Doc>): seq<Doc> {
    if docs == [] then []
    else (if OnSchedulerRoute(docs[0]) then [docs[0]] else []) + SchedulerRoute(docs[1..])
  }

  function KueueRoute(docs: seq<Doc>): seq<Doc> {
    if docs == [] then []
    else (if OnSchedulerRoute(docs[0]) then [] else [docs[0]]) + KueueRoute(docs[1..])
  }

  /** The Job, after what it is admitted on. */
  function KueueDocs(i: Intent, o: KueueOptions, h: Hashes): seq<Doc>
    requires i.steps != []
  {
    KueueRoute(ClaimTemplates(i, o, h)) + [JobFor(i, o, h)]
  }

  /** One intent's files: the Job's, and apart from it the claims no Job is admitted on. */
  function KueueFiles(i: Intent, o: KueueOptions, h: Hashes): seq<Planned>
    requires i.steps != []
  {
    var safe, apart := Sanitize(i.workflowName, LABEL_LENGTH), SchedulerRoute(ClaimTemplates(i, o, h));
    [Planned(safe + "-kueue.yaml", KueueDocs(i, o, h))]
    + (if apart == [] then [] else [Planned(safe + "-scheduler-fallback.yaml", apart)])
  }

  function PriorityClassFor(prefix: string, tier: nat): Doc {
    PriorityClass(
      Meta(prefix + TierName(tier), None,
           StampedLabels(
             map[MAPPING_VERSION := MAPPING], None, KUEUE, "workload-priority-classes",
             SCOPE_INSTALLATION),
           map[OWNER_ID := prefix]),
      if tier == 1 then 400 else if tier == 2 then 300 else if tier == 3 then 200 else 100)
  }

  /** `render_workload_priority_classes`. */
  function Bundle(prefix: string): Planned {
    Planned(BUNDLE_FILE, [
      PriorityClassFor(prefix, 1), PriorityClassFor(prefix, 2), PriorityClassFor(prefix, 3), PriorityClassFor(prefix,
        4)])
  }

  predicate BundleAccepted(prefix: string) {
    forall tier :: 1 <= tier <= 4 ==> Label(prefix + TierName(tier))
  }

  function AllKueueFiles(intents: seq<Intent>, o: KueueOptions, h: Hashes): seq<Planned>
    requires forall k :: 0 <= k < |intents| ==> intents[k].steps != []
  {
    if intents == [] then []
    else AllKueueFiles(intents[..|intents| - 1], o, h) + KueueFiles(intents[|intents| - 1], o, h)
  }

  predicate AllKueueAccepted(intents: seq<Intent>, o: KueueOptions, h: Hashes)
    ensures AllKueueAccepted(intents, o, h) ==> forall k :: 0 <= k < |intents| ==> intents[k].steps != []
  {
    forall k :: 0 <= k < |intents| ==> KueueAccepts(intents[k], o, h)
  }

  lemma OneMoreAccepted(intents: seq<Intent>, o: KueueOptions, h: Hashes, k: nat)
    requires k < |intents|
    ensures AllKueueAccepted(intents[..k + 1], o, h) <==>
      AllKueueAccepted(intents[..k], o, h) && KueueAccepts(intents[k], o, h)
    ensures AllKueueAccepted(intents, o, h) ==> KueueAccepts(intents[k], o, h)
    ensures KueueAccepts(intents[k], o, h) ==> intents[k].steps != []
  {
    hide Label, Subdomain, Tier, TierName;
    assert forall m :: 0 <= m < k ==> intents[..k + 1][m] == intents[..k][m];
    assert intents[..k + 1][k] == intents[k];
  }

  lemma NoneAccepted(o: KueueOptions, h: Hashes)
    ensures AllKueueAccepted([], o, h) && AllKueueFiles([], o, h) == []
  {
  }

  lemma OneMoreFiles(intents: seq<Intent>, o: KueueOptions, h: Hashes, k: nat)
    requires k < |intents| && AllKueueAccepted(intents[..k + 1], o, h) && AllKueueAccepted(intents[..k], o, h)
    ensures intents[k].steps != []
    ensures AllKueueFiles(intents[..k + 1], o, h) == AllKueueFiles(intents[..k], o, h) + KueueFiles(intents[k], o, h)
  {
    hide KueueFiles, AllKueueAccepted;
    assert intents[..k + 1][..k] == intents[..k] && intents[..k + 1][k] == intents[k];
  }

  /** The class bundle if asked for, then each intent's files. */
  function KueuePlan(intents: seq<Intent>, o: KueueOptions, emitClasses: bool, h: Hashes): seq<Planned>
    requires forall k :: 0 <= k < |intents| ==> intents[k].steps != []
  {
    (if emitClasses then [Bundle(o.prefix)] else []) + AllKueueFiles(intents, o, h)
  }

  /** `_priority_class_name` and the class around it; `None` where the name is no label. */
  method RenderClass(prefix: string, tier: nat) returns (r: Option<Doc>)
    ensures r.Some? <==> Label(prefix + TierName(tier))
    ensures r.Some? ==> r.value == PriorityClassFor(prefix, tier)
  {
    hide PriorityClassFor;
    if !Label(prefix + TierName(tier)) {
      return None;
    }
    r := Some(PriorityClassFor(prefix, tier));
  }

  /** `render_workload_priority_classes`: all four tiers, or none. */
  method RenderClasses(prefix: string) returns (r: Option<seq<Doc>>)
    ensures r.Some? <==> BundleAccepted(prefix)
    ensures r.Some? ==> r.value == Bundle(prefix).docs
  {
    hide Label, TierName, PriorityClassFor;
    var classes: seq<Doc> := [];
    for tier := 1 to 5
      invariant |classes| == tier - 1
      invariant forall m :: 1 <= m < tier ==>
        Label(prefix + TierName(m)) && classes[m - 1] == PriorityClassFor(prefix, m)
    {
      var class_ := RenderClass(prefix, tier);
      if class_.None? {
        return None;
      }
      classes := classes + [class_.value];
    }
    r := Some(classes);
  }

  /** `render_kueue_job`, and `None` for whatever it raises on. */
  method RenderJob(i: Intent, o: KueueOptions, h: Hashes) returns (r: Option<Doc>)
    ensures r.Some? <==> KueueAccepts(i, o, h)
    ensures r.Some? ==> i.steps != [] && r.value == JobFor(i, o, h)
  {
    hide Label, Subdomain, Tier, TierName, JobMeta, JobContainer;
    if !Label(o.namespace) || !Subdomain(o.queue, 63) || i.steps == [] {
      return None;
    }
    var tier := Tier(i.priority);
    if tier.None? || !h.fits(i) {
      return None;
    }
    if o.priorityClass && !Label(o.prefix + TierName(tier.value)) {
      return None;
    }
    r := Some(Job(JobMeta(i, o, h), JobContainer(i, o, h.digest)));
  }

  /** One pass of the loop below: the Job's file, and apart from it the claims no Job is admitted on. */
  method RenderKueueFiles(i: Intent, o: KueueOptions, h: Hashes) returns (r: Option<seq<Planned>>)
    ensures r.Some? <==> KueueAccepts(i, o, h)
    ensures r.Some? ==> i.steps != [] && r.value == KueueFiles(i, o, h)
  {
    hide KueueAccepts, ClaimTemplates, SchedulerRoute, KueueRoute, JobFor, Sanitize;
    var templates := ClaimTemplates(i, o, h);
    var job := RenderJob(i, o, h);
    if job.None? {
      return None;
    }
    var safe, apart := Sanitize(i.workflowName, LABEL_LENGTH), SchedulerRoute(templates);
    var files := [Planned(safe + "-kueue.yaml", KueueRoute(templates) + [job.value])];
    if apart != [] {
      files := files + [Planned(safe + "-scheduler-fallback.yaml", apart)];
    }
    r := Some(files);
  }

  lemma BundleIsNamed(prefix: string)
    ensures Bundle(prefix).file == BUNDLE_FILE
  {
    hide PriorityClassFor;
  }

  /** What `render-kueue` plans, all of it or nothing. */
  method PlanKueue(intents: seq<Intent>, o: KueueOptions, emitClasses: bool, h: Hashes)
    returns (r: Option<seq<Planned>>)
    ensures r.Some? <==> (emitClasses ==> BundleAccepted(o.prefix)) && AllKueueAccepted(intents, o, h)
    ensures r.Some? ==> r.value == KueuePlan(intents, o, emitClasses, h)
  {
    hide BundleAccepted, Bundle, KueueFiles, KueueAccepts, AllKueueAccepted, AllKueueFiles;
    var planned: seq<Planned> := [];
    if emitClasses {
      var classes := RenderClasses(o.prefix);
      if classes.None? {
        return None;
      }
      BundleIsNamed(o.prefix);
      planned := [Planned(BUNDLE_FILE, classes.value)];
    }
    ghost var first := planned;
    NoneAccepted(o, h);
    assert intents[..0] == [];
    for k := 0 to |intents|
      invariant AllKueueAccepted(intents[..k], o, h)
      invariant planned == first + AllKueueFiles(intents[..k], o, h)
    {
      var i := intents[k];
      OneMoreAccepted(intents, o, h, k);
      var files := RenderKueueFiles(i, o, h);
      if files.None? {
        return None;
      }
      OneMoreFiles(intents, o, h, k);
      Associates(first, AllKueueFiles(intents[..k], o, h), KueueFiles(i, o, h));
      planned := planned + files.value;
    }
    assert intents[..|intents|] == intents;
    r := Some(planned);
  }

  // ---------------------------------------------------------------- every claim has its template

  /** The containers claim what their Pod claims, by the same names. */
  predicate ClaimsMatch(c: Container) {
    && (forall n :: n in c.claims ==> exists p :: p in c.podClaims && p.name == n)
    && (forall p :: p in c.podClaims ==> p.name in c.claims)
  }

  /** And what the Pod claims is made from a template among the documents, in the same namespace. */
  ghost predicate ClaimsFound(c: Container, namespace: Option<string>, docs: seq<Doc>) {
    forall p :: p in c.podClaims ==>
      && namespace.Some?
      && exists d :: d in docs && d.ClaimTemplate? && d.meta.name == p.template && d.meta.namespace == namespace
  }

  /** Applied on its own, an Argo file refers to nothing it does not bring. */
  lemma ArgoClaimsResolve(
    i: Intent, draFallback: bool, namespace: Option<string>, account: Option<string>, h: Hashes, k: nat)
    requires (draFallback ==> namespace.Some?) && k < |i.steps|
    ensures var docs, c := ArgoDocs(i, draFallback, namespace, account, h), ContainerFor(i, k, draFallback, h.digest);
            && ClaimsMatch(c) && ClaimsFound(c, namespace, docs)
            && forall d :: d in docs && d.ClaimTemplate? ==> d.device == FirstAvailable(["gpu.nvidia.com", "dra.cpu"])
  {
    hide ClaimName, TaskName, WorkflowMeta, Containers, Tasks, ClaimMeta;
    var docs := ArgoDocs(i, draFallback, namespace, account, h);
    var c := ContainerFor(i, k, draFallback, h.digest);
    if draFallback && FallsBackOnCpu(i.steps[k]) {
      assert AnyFallsBack(i.steps);
      var claim := FallbackTemplate(i, namespace.value, ARGO, h);
      assert docs[0] == claim;
      FallbackTemplateIs(i, namespace.value, ARGO, h);
      OneClaim(c, "compute", claim, namespace, docs);
    }
  }

  lemma FallbackTemplateIs(i: Intent, namespace: string, renderer: string, h: Hashes)
    ensures var d := FallbackTemplate(i, namespace, renderer, h);
            d.ClaimTemplate? && d.meta.name == ClaimName(i, "accel", h.digest) && d.meta.namespace == Some(namespace)
  {
    hide ClaimName, StampedLabels, MissionNotes;
  }

  lemma ExactTemplateIs(i: Intent, namespace: string, h: Hashes)
    ensures var d := ExactTemplate(i, namespace, h);
            && d.ClaimTemplate? && d.meta.name == ClaimName(i, "gpu", h.digest) && d.meta.namespace == Some(namespace)
            && d.device == Exactly("gpu.nvidia.com")
  {
    hide ClaimName, StampedLabels, MissionNotes;
  }

  lemma OneClaim(c: Container, name: string, claim: Doc, namespace: Option<string>, docs: seq<Doc>)
    requires c.claims == [name] && claim in docs && claim.ClaimTemplate? && namespace.Some?
    requires c.podClaims == [PodClaim(name, claim.meta.name)] && claim.meta.namespace == namespace
    ensures ClaimsMatch(c) && ClaimsFound(c, namespace, docs)
  {
    assert c.podClaims[0] in c.podClaims && c.claims[0] in c.claims;
  }

  lemma NoClaims(c: Container, namespace: Option<string>, docs: seq<Doc>)
    requires c.claims == [] && c.podClaims == []
    ensures ClaimsMatch(c) && ClaimsFound(c, namespace, docs)
  {
  }

  lemma RoutesAreTold(i: Intent, namespace: string, h: Hashes)
    ensures !OnSchedulerRoute(ExactTemplate(i, namespace, h))
      && OnSchedulerRoute(FallbackTemplate(i, namespace, KUEUE, h))
  {
    hide ClaimMeta, Bears, SCHEDULER_ROUTE, KUEUE_ROUTE, DRA_ROUTE, KUEUE;
    RoutesAreNoStamps();
    ClaimMetaIs(i, "gpu", namespace, KUEUE_ROUTE, KUEUE, "kueue-job", h);
    ClaimMetaIs(i, "accel", namespace, SCHEDULER_ROUTE, KUEUE, "scheduler-fallback", h);
  }

  lemma RoutesOfTwo(a: seq<Doc>, b: seq<Doc>)
    requires |a| <= 1 && |b| <= 1
    requires (forall d :: d in a ==> OnSchedulerRoute(d)) && (forall d :: d in b ==> !OnSchedulerRoute(d))
    ensures SchedulerRoute(a + b) == a && KueueRoute(a + b) == b
  {
    hide OnSchedulerRoute;
    assert SchedulerRoute(b) == [] && KueueRoute(b) == b by {
      if b != [] {
        assert b[0] in b && b[1..] == [];
      }
    }
    if a == [] {
      assert a + b == b;
    } else {
      assert a[0] in a && (a + b)[0] == a[0] && (a + b)[1..] == b;
    }
  }

  /** Apart go the firstAvailable claims, together with the Job the exactly ones. */
  lemma KueueRouteOf(i: Intent, o: KueueOptions, h: Hashes)
    ensures KueueRoute(ClaimTemplates(i, o, h)) == if Uses(i.steps, Gpu) then [ExactTemplate(i, o.namespace, h)] else []
    ensures SchedulerRoute(ClaimTemplates(i, o, h))
         == if o.draFallback && AnyFallsBack(i.steps) then [FallbackTemplate(i, o.namespace, KUEUE, h)] else []
  {
    hide ExactTemplate, FallbackTemplate, OnSchedulerRoute, Uses, AnyFallsBack;
    RoutesAreTold(i, o.namespace, h);
    RoutesOfTwo(
      if o.draFallback && AnyFallsBack(i.steps) then [FallbackTemplate(i, o.namespace, KUEUE, h)] else [],
      if Uses(i.steps, Gpu) then [ExactTemplate(i, o.namespace, h)] else []);
  }

  /** A Job claims a GPU exactly when some step of its intent uses one, whatever the hints say. */
  lemma JobClaims(i: Intent, o: KueueOptions, digest: Digest, claimed: bool)
    requires i.steps != [] && claimed == (Uses(i.steps, Gpu) && o.draEnabled)
    ensures JobContainer(i, o, digest).claims == if claimed then ["gpu"] else []
    ensures JobContainer(i, o, digest).podClaims
         == if claimed then [PodClaim("gpu", ClaimName(i, "gpu", digest))] else []
  {
    hide ClaimName, Sanitize;
    var k := PrimaryStep(i.steps);
    if i.steps[k].class_ == Gpu {
      assert Uses(i.steps, Gpu);
    }
  }

  /** The Job's file brings the exactly template the Job is admitted on, and no other kind of
      claim. */
  lemma KueueClaimsResolve(i: Intent, o: KueueOptions, h: Hashes)
    requires i.steps != []
    ensures ClaimsMatch(JobContainer(i, o, h.digest))
    ensures ClaimsFound(JobContainer(i, o, h.digest), Some(o.namespace), KueueDocs(i, o, h))
    ensures forall d :: d in KueueDocs(i, o, h) && d.ClaimTemplate? ==> d.device == Exactly("gpu.nvidia.com")
  {
    hide ClaimName, ExactTemplate, ClaimTemplates, ClaimsMatch, ClaimsFound, Uses, JobContainer, JobMeta, KueueRoute;
    var claimed := Uses(i.steps, Gpu) && o.draEnabled;
    JobClaims(i, o, h.digest, claimed);
    KueueRouteOf(i, o, h);
    ExactTemplateIs(i, o.namespace, h);
    var docs, c := KueueDocs(i, o, h), JobContainer(i, o, h.digest);
    if claimed {
      var claim := ExactTemplate(i, o.namespace, h);
      assert docs[0] == claim;
      OneClaim(c, "gpu", claim, Some(o.namespace), docs);
    } else {
      NoClaims(c, Some(o.namespace), docs);
    }
  }

  /** The step a Job stands for: a GPU step before an FPGA step before any, and the first of its kind. */
  predicate IsPrimary(steps: seq<Step>, k: nat) {
    && k < |steps|
    && (steps[k].class_ != Gpu ==> forall m :: 0 <= m < |steps| ==> steps[m].class_ != Gpu)
    && (steps[k].class_ == Cpu ==> k == 0 && forall m :: 0 <= m < |steps| ==> steps[m].class_ != Fpga)
    && (forall m :: 0 <= m < k ==> steps[m].class_ != steps[k].class_)
  }

  /** A Job's file holds one Job, the last of its documents, and it runs the primary step: that step's
      name and image, in that namespace and queue, and on a GPU claim just where it is a GPU step. */
  lemma JobsRunThePrimaryStep(i: Intent, o: KueueOptions, h: Hashes) returns (k: nat)
    requires i.steps != []
    ensures IsPrimary(i.steps, k)
    ensures KueueFiles(i, o, h) != [] && KueueFiles(i, o, h)[0].docs != []
    ensures var docs := KueueFiles(i, o, h)[0].docs;
            var job := docs[|docs| - 1];
            && job.Job? && (forall m :: 0 <= m < |docs| - 1 ==> docs[m].ClaimTemplate?)
            && job.container.name == Sanitize(i.steps[k].name, LABEL_LENGTH)
            && job.container.image == i.steps[k].image
            && job.meta.namespace == Some(o.namespace) && Look(job.meta.labels, QUEUE_NAME) == Some(o.queue)
            && (job.container.claims != [] <==> i.steps[k].class_ == Gpu && o.draEnabled)
  {
    hide Sanitize, ClaimName, ClaimTemplates, KueueRoute, SchedulerRoute, Bears, ExactTemplate, JobMeta;
    k := PrimaryStep(i.steps);
    KueueRouteOf(i, o, h);
    ExactTemplateIs(i, o.namespace, h);
    JobMetaIs(i, o, h);
    PrimaryIsPrimary(i.steps);
  }

  lemma PrimaryIsPrimary(steps: seq<Step>)
    requires steps != []
    ensures IsPrimary(steps, PrimaryStep(steps))
  {
    hide PrimaryStep;
    var k := PrimaryStep(steps);
    if steps[k].class_ != Gpu {
      assert !Uses(steps, Gpu);
    }
    if steps[k].class_ == Cpu {
      assert !Uses(steps, Fpga);
    }
  }

  /** The tier of a priority, in one line. */
  lemma TiersAreQuarters(priority: int)
    ensures Tier(priority) == if 1 <= priority <= 100 then Some(1 + (100 - priority) / 25) else None
  {
  }

  /** The class a Job names is among the classes of its prefix, exactly once, and of two Jobs the one
      of the higher tier names the class of the higher value. */
  lemma JobsNameEmittedClasses(i: Intent, o: KueueOptions, h: Hashes) returns (k: nat)
    requires o.priorityClass && 1 <= i.priority <= 100
    ensures k < 4 && |Bundle(o.prefix).docs| == 4
    ensures var class_ := Bundle(o.prefix).docs[k];
            && class_.PriorityClass? && Look(JobMeta(i, o, h).labels, PRIORITY_CLASS) == Some(class_.meta.name)
            && class_.value == 400 - 100 * ((100 - i.priority) / 25)
            && Look(class_.meta.labels, MAPPING_VERSION) == Some(MAPPING)
            && Look(JobMeta(i, o, h).labels, MAPPING_VERSION) == Some(MAPPING)
    ensures forall m :: 0 <= m < 4 && Bundle(o.prefix).docs[m].meta.name == Bundle(o.prefix).docs[k].meta.name ==>
      m == k
  {
    hide JobMeta, Bears, BelongsTo, Plays, PriorityClassFor, TierName;
    JobMetaIs(i, o, h);
    TiersAreQuarters(i.priority);
    k := (100 - i.priority) / 25;
    assert Tier(i.priority) == Some(k + 1);
    hide Tier;
    ClassIs(o.prefix, k + 1);
    ClassesAreApart(o.prefix);
  }

  lemma ClassesAreApart(prefix: string)
    ensures |Bundle(prefix).docs| == 4
    ensures forall k :: 0 <= k < 4 ==> Bundle(prefix).docs[k] == PriorityClassFor(prefix, k + 1)
    ensures forall m, k :: 0 <= m < 4 && 0 <= k < 4 ==>
      (Bundle(prefix).docs[m].meta.name == Bundle(prefix).docs[k].meta.name ==> m == k)
  {
    hide PriorityClassFor;
    TierNamesDiffer(prefix);
    ClassIs(prefix, 1);
    ClassIs(prefix, 2);
    ClassIs(prefix, 3);
    ClassIs(prefix, 4);
    hide TierName;
    var docs := Bundle(prefix).docs;
    assert forall k :: 0 <= k < 4 ==> docs[k].meta.name == prefix + TierName(k + 1);
  }

  /** A prefix is accepted exactly when all four of its classes get names the API server takes. */
  lemma BundleAcceptedIff(prefix: string)
    ensures |Bundle(prefix).docs| == 4
    ensures BundleAccepted(prefix) <==> forall k :: 0 <= k < 4 ==> Label(Bundle(prefix).docs[k].meta.name)
  {
    hide PriorityClassFor, TierName, Label;
    ClassesAreApart(prefix);
    var docs := Bundle(prefix).docs;
    forall k | 0 <= k < 4
      ensures docs[k].meta.name == prefix + TierName(k + 1)
    {
      ClassIs(prefix, k + 1);
    }
    if forall k :: 0 <= k < 4 ==> Label(docs[k].meta.name) {
      forall tier | 1 <= tier <= 4
        ensures Label(prefix + TierName(tier))
      {
        assert Label(docs[tier - 1].meta.name);
      }
    }
  }

  /** The labels a cluster is searched by: every Workflow and every Job names its mission and its
      service, made into labels, and a name that leaves room is the workflow's own, with a hyphen
      before what the API server adds on a Job. */
  lemma DocumentsNameTheirService(
    i: Intent, draFallback: bool, namespace: Option<string>, account: Option<string>, o: KueueOptions, h: Hashes)
    requires i.steps != []
    ensures BelongsTo(WorkflowFor(i, draFallback, namespace, account, h).meta, i) && BelongsTo(JobFor(i, o, h).meta, i)
    ensures Fixed(i.workflowName) ==> WorkflowFor(i, draFallback, namespace, account, h).meta.name == i.workflowName
    ensures Fixed(i.workflowName) && |i.workflowName| < LABEL_LENGTH ==>
      JobFor(i, o, h).meta.name == i.workflowName + "-"
  {
    hide StampedLabels, MissionNotes, JobContainer, Containers, Tasks, BelongsTo, Sanitize, QueueLabels, OwnLabels;
    WorkflowMetaIs(i, namespace, h);
    JobMetaIs(i, o, h);
    if Fixed(i.workflowName) {
      LabelsAreFixed(i.workflowName, LABEL_LENGTH);
      if |i.workflowName| < LABEL_LENGTH {
        LabelsAreFixed(i.workflowName, 62);
      }
    }
  }

  /** A document is in the namespace that was given, or in the fallback's own if none was and the
      claims need one. */
  lemma NamespacesAreGiven(
    intents: seq<Intent>, draFallback: bool, given: Option<string>, account: Option<string>, h: Hashes, k: nat, d: Doc)
    requires k < |intents|
    requires d in ArgoFiles(intents, draFallback, Namespace(draFallback, given), account, h)[k].docs
    ensures d.meta.namespace == if given.Some? || !draFallback then given else Some("orbital-demo")
  {
    hide StampedLabels, MissionNotes, Containers, Tasks, Sanitize, ClaimName, OwnLabels, AnyFallsBack;
  }

  /** What its role says a document is. */
  predicate RoleTells(d: Doc) {
    var role := Look(d.meta.labels, ROLE);
    match d
    case Workflow(_, _, _, _) => role == Some("workflow")
    case Job(_, _) => role == Some("kueue-job")
    case ClaimTemplate(_, Exactly(_)) => role == Some("kueue-job")
    case ClaimTemplate(_, FirstAvailable(_)) => role == Some("scheduler-fallback")
    case PriorityClass(_, _) => role == Some("workload-priority-classes")
  }

  /** Every document a mission is rendered to says what it is for and whose it is. */
  lemma RolesTellTheDocument(
    i: Intent, draFallback: bool, namespace: Option<string>, account: Option<string>, o: KueueOptions, h: Hashes,
    d: Doc)
    requires i.steps != [] && (draFallback ==> namespace.Some?)
    requires
      || d in ArgoDocs(i, draFallback, namespace, account, h) || d in KueueDocs(i, o, h)
      || d in SchedulerRoute(ClaimTemplates(i, o, h))
    ensures RoleTells(d) && Look(d.meta.annotations, "orbital/raw-mission-id") == Some(i.missionId)
  {
    hide WorkflowMeta, JobMeta, ClaimMeta, Containers, Tasks, JobContainer, Bears, BelongsTo, ClaimTemplates,
      KueueRoute, SchedulerRoute, AnyFallsBack, Uses, ROLE;
    WorkflowMetaIs(i, namespace, h);
    JobMetaIs(i, o, h);
    KueueRouteOf(i, o, h);
    if draFallback {
      ClaimMetaIs(i, "accel", namespace.value, SCHEDULER_ROUTE, ARGO, "scheduler-fallback", h);
    }
    ClaimMetaIs(i, "accel", o.namespace, SCHEDULER_ROUTE, KUEUE, "scheduler-fallback", h);
    ClaimMetaIs(i, "gpu", o.namespace, KUEUE_ROUTE, KUEUE, "kueue-job", h);
  }

  lemma ClassIs(prefix: string, tier: nat)
    requires 1 <= tier <= 4
    ensures var d := PriorityClassFor(prefix, tier);
            && d.PriorityClass? && d.meta.name == prefix + TierName(tier) && d.value == 500 - 100 * tier
            && Look(d.meta.labels, MAPPING_VERSION) == Some(MAPPING)
            && Look(d.meta.labels, ROLE) == Some("workload-priority-classes")
  {
    hide TierName, MAPPING_VERSION, MAPPING, MANAGED_BY, RENDERER, SCOPE, ROLE, SCHEMA, FINGERPRINT, OWNER_ID,
      COMPILER, SCOPE_INSTALLATION, SCHEMA_VERSION, KUEUE, StampedLabels;
    VersionIsNoStampAtAll();
    LabelsAreStamped(
      map[MAPPING_VERSION := MAPPING], None, KUEUE, "workload-priority-classes", SCOPE_INSTALLATION);
  }

  lemma VersionIsNoStampAtAll()
    ensures MAPPING_VERSION !in {MANAGED_BY, RENDERER, SCOPE, ROLE, SCHEMA, FINGERPRINT}
  {
    assert |MAPPING_VERSION| == 32;
    StampKeyLengths();
  }

  lemma TierNamesDiffer(prefix: string)
    ensures forall m, n :: 1 <= m <= 4 && 1 <= n <= 4 && prefix + TierName(m) == prefix + TierName(n) ==> m == n
  {
    assert |TierName(1)| == 16 && |TierName(2)| == 12 && |TierName(3)| == 14 && |TierName(4)| == 11;
  }

  /** Under `--dra-fallback` a compiled plan the policy allowed leaves no GPU step on the
      environment switch: each has the container half and the Pod half of the claim. */
  lemma BothHalves(i: Intent, namespace: Option<string>, account: Option<string>, h: Hashes, k: nat)
    requires Ready(i) && namespace.Some? && k < |i.steps| && i.steps[k].class_ == Gpu
    ensures var c := ContainerFor(i, k, true, h.digest);
            && c.claims == ["compute"] && c.podClaims == [PodClaim("compute", ClaimName(i, "accel", h.digest))]
            && FallbackTemplate(i, namespace.value, ARGO, h) in ArgoDocs(i, true, namespace, account, h)
  {
    hide ClaimName, TaskName, WorkflowFor, FallbackTemplate, WellMade, Tier;
    assert FallsBackOnCpu(i.steps[k]);
    assert ArgoDocs(i, true, namespace, account, h)[0] == FallbackTemplate(i, namespace.value, ARGO, h);
  }

  /** And the renderer does not refuse such an intent, given a namespace and an account it would
      take. */
  lemma ReadyIsAccepted(i: Intent, namespace: Option<string>, account: Option<string>, h: Hashes)
    requires Ready(i) && h.fits(i)
    requires (namespace.Some? ==> Label(namespace.value)) && (account.Some? ==> Subdomain(account.value, 253))
    ensures ArgoAccepts(i, namespace, account, h)
  {
  }

  // ---------------------------------------------------------------- the Job and the other claim

  const GPU_SUFFIX := "gpu-claim"
  const ACCEL_SUFFIX := "accel-claim"

  /** What a name comes to before a suffix that is a word of its own. */
  function Stem(name: string): string {
    LStrip(Collapse(Letters(name + "-")))
  }

  lemma {:induction false} CollapseBeforeAWord(s: string, word: string)
    requires NoDouble(word) && word != [] && word[0] != '-'
    ensures Collapse(s + word) == Collapse(s) + word
    decreases |s|
  {
    if |s| == 0 {
      assert s + word == word;
      SingleDashesAreKept(word);
    } else if |s| == 1 {
      assert (s + word)[1..] == word && (s + word)[0] == s[0];
      SingleDashesAreKept(word);
    } else {
      assert (s + word)[1..] == s[1..] + word && (s + word)[0] == s[0] && (s + word)[1] == s[1];
      CollapseBeforeAWord(s[1..], word);
    }
  }

  lemma {:induction false} LStripBeforeAWord(s: string, word: string)
    requires word != [] && word[0] != '-'
    ensures LStrip(s + word) == LStrip(s) + word
    decreases |s|
  {
    if s == [] {
      assert s + word == word;
    } else if s[0] == '-' {
      assert (s + word)[1..] == s[1..] + word;
      LStripBeforeAWord(s[1..], word);
    }
  }

  lemma RStripAfterAWord(s: string, word: string)
    requires word != [] && word[|word| - 1] != '-'
    ensures RStrip(s + word) == s + word
  {
  }

  predicate IsWord(word: string) {
    AllLabelChars(word) && NoDouble(word) && Capped(word)
  }

  /** Sanitizing a name with a word after it. */
  lemma SanitizedStem(name: string, word: string)
    requires IsWord(word)
    ensures Sanitize(name + "-" + word, 253) == Defaulted(RStrip(Take(Stem(name) + word, 253)))
  {
    hide Letters, Collapse, LStrip, RStrip, Take, AllLabelChars, NoDouble;
    var s := name + "-";
    LettersConcat(s, word);
    CleanIsKept(word);
    CollapseBeforeAWord(Letters(s), word);
    LStripBeforeAWord(Collapse(Letters(s)), word);
    RStripAfterAWord(Stem(name), word);
    assert LStrip(Collapse(Letters(s + word))) == Stem(name) + word;
  }

  function Defaulted(s: string): string {
    if s == [] then DEFAULT else s
  }

  /** A stem and a word, as far as a Kubernetes name goes. */
  function Joined(stem: string, word: string): string {
    Defaulted(RStrip(Take(stem + word, 253)))
  }

  lemma JoinedIs(stem: string, word: string)
    requires NoDouble(stem) && IsWord(word)
    ensures |stem + word| <= 253 ==> Joined(stem, word) == stem + word
    ensures |stem + word| > 253 ==> Joined(stem, word) <= stem + word && |Joined(stem, word)| >= 252
  {
    hide AllLabelChars;
    RStripAfterAWord(stem, word);
    var all := stem + word;
    if |all| > 253 {
      var cut := all[..253];
      assert NoDouble(all);
      assert cut[251] != '-' || cut[252] != '-';
      RStripDropsOne(cut);
    }
  }

  lemma RStripDropsOne(s: string)
    requires |s| >= 2 && (s[|s| - 2] != '-' || s[|s| - 1] != '-')
    ensures |RStrip(s)| >= |s| - 1
  {
  }

  /** A joined name in the room a claim template's name has. */
  function Fitted(stem: string, word: string, hash: string): string {
    var s := Joined(stem, word);
    if |s| <= CLAIM_NAME_LENGTH then s else Defaulted(RStrip(s[..CLAIM_NAME_LENGTH - HASH_LENGTH - 1])) + "-" + hash
  }

  lemma FittedIs(stem: string, word: string, hash: string)
    requires NoDouble(stem) && IsWord(word) && |word| <= 11
    ensures |stem + word| <= CLAIM_NAME_LENGTH <==> |Joined(stem, word)| <= CLAIM_NAME_LENGTH
    ensures |stem + word| <= CLAIM_NAME_LENGTH ==> Fitted(stem, word, hash) == stem + word
    ensures |stem + word| > CLAIM_NAME_LENGTH && |stem| >= 53 ==>
      Fitted(stem, word, hash) == Defaulted(RStrip(stem[..53])) + "-" + hash
  {
    JoinedIs(stem, word);
    hide Joined, RStrip;
    var s := Joined(stem, word);
    if |stem| >= 53 && |s| > CLAIM_NAME_LENGTH {
      assert s <= stem + word;
      assert s[..53] == stem[..53];
    }
  }

  lemma FittedCollide(stem: string, hg: string, ha: string)
    requires NoDouble(stem) && Hex(hg) && Hex(ha)
    ensures Fitted(stem, GPU_SUFFIX, hg) == Fitted(stem, ACCEL_SUFFIX, ha) <==>
      |Joined(stem, GPU_SUFFIX)| > CLAIM_NAME_LENGTH && hg == ha
  {
    SuffixesAreWords();
    FittedIs(stem, GPU_SUFFIX, hg);
    FittedIs(stem, ACCEL_SUFFIX, ha);
    var g, a := Fitted(stem, GPU_SUFFIX, hg), Fitted(stem, ACCEL_SUFFIX, ha);
    if |stem + GPU_SUFFIX| > CLAIM_NAME_LENGTH {
      var head := Defaulted(RStrip(stem[..53])) + "-";
      assert g == head + hg && a == head + ha;
      assert g[|head|..] == hg && a[|head|..] == ha;
    } else if |stem + ACCEL_SUFFIX| > CLAIM_NAME_LENGTH {
      HashedEndsInHex(stem, ACCEL_SUFFIX, ha);
      assert g[|g| - 1] == GPU_SUFFIX[8] == 'm';
      assert a[|a| - 1] != 'm';
    } else {
      assert |g| != |a|;
    }
  }

  lemma HashedEndsInHex(stem: string, word: string, hash: string)
    requires |Joined(stem, word)| > CLAIM_NAME_LENGTH && Hex(hash)
    ensures var s := Fitted(stem, word, hash); s != [] && s[|s| - 1] != 'm'
  {
    hide Joined, RStrip;
    var s := Fitted(stem, word, hash);
    assert s[|s| - 1] == hash[HASH_LENGTH - 1];
  }

  lemma SuffixesAreWords()
    ensures IsWord(GPU_SUFFIX) && IsWord(ACCEL_SUFFIX) && |GPU_SUFFIX| == 9 && |ACCEL_SUFFIX| == 11
  {
  }

  lemma ResistantIsFitted(name: string, word: string, digest: Digest)
    requires IsWord(word)
    ensures var s := name + "-" + word;
            && Resistant(s, CLAIM_NAME_LENGTH, digest) == Fitted(Stem(name), word, HexText(digest(s)))
            && Sanitize(s, 253) == Joined(Stem(name), word)
  {
    SanitizedStem(name, word);
    hide Sanitize, Stem, RStrip, IsWord;
  }

  lemma StemIsSingle(name: string)
    ensures NoDouble(Stem(name))
  {
  }

  /** The two claim templates of one intent share a name exactly when the names had to be cut and
      the digests of the uncut ones agree. */
  lemma ClaimNamesCollideIff(i: Intent, digest: Digest)
    ensures var gpu, accel := i.workflowName + "-" + GPU_SUFFIX, i.workflowName + "-" + ACCEL_SUFFIX;
            ClaimName(i, "gpu", digest) == ClaimName(i, "accel", digest) <==>
              |Sanitize(gpu, 253)| > CLAIM_NAME_LENGTH && digest(gpu) == digest(accel)
  {
    var gpu, accel := i.workflowName + "-" + GPU_SUFFIX, i.workflowName + "-" + ACCEL_SUFFIX;
    ClaimNameIs(i, digest);
    SuffixesAreWords();
    StemIsSingle(i.workflowName);
    hide Resistant, Sanitize, Stem, Fitted, Joined, IsWord, ClaimName, GPU_SUFFIX, ACCEL_SUFFIX;
    ResistantIsFitted(i.workflowName, GPU_SUFFIX, digest);
    ResistantIsFitted(i.workflowName, ACCEL_SUFFIX, digest);
    FittedCollide(Stem(i.workflowName), HexText(digest(gpu)), HexText(digest(accel)));
    HexReadsBack(digest(gpu), digest(accel));
  }

  lemma ClaimNameIs(i: Intent, digest: Digest)
    ensures ClaimName(i, "gpu", digest) == Resistant(i.workflowName + "-" + GPU_SUFFIX, CLAIM_NAME_LENGTH, digest)
    ensures ClaimName(i, "accel", digest) == Resistant(i.workflowName + "-" + ACCEL_SUFFIX, CLAIM_NAME_LENGTH, digest)
  {
    hide Resistant;
    var n := i.workflowName;
    assert "gpu" + "-claim" == GPU_SUFFIX && "accel" + "-claim" == ACCEL_SUFFIX;
    assert n + "-" + "gpu" + "-claim" == n + "-" + ("gpu" + "-claim");
    assert n + "-" + "accel" + "-claim" == n + "-" + ("accel" + "-claim");
  }

  function ClaimText(name: string, device: string): string {
    name + "-" + device + "-claim"
  }

  lemma ClaimTextIsClean(name: string, device: string)
    requires Fixed(name) && (device == "gpu" || device == "accel")
    ensures var s := ClaimText(name, device);
            && s == name + "-" + (device + "-claim") && IsWord(s) && |s| <= 253 && |s| > 6
            && s[|s| - 6] == '-' && s[0] != '-'
  {
    var word := device + "-claim";
    SuffixesAreWords();
    assert word == GPU_SUFFIX || word == ACCEL_SUFFIX;
    var s := name + "-" + word;
    assert ClaimText(name, device) == s;
    forall i | 0 <= i < |s|
      ensures LabelChar(s[i])
      ensures i < |s| - 1 ==> s[i] != '-' || s[i + 1] != '-'
    {
      if i < |name| {
        assert s[i] == name[i];
      } else if i > |name| {
        assert s[i] == word[i - |name| - 1];
      } else {
        assert s[i + 1] == word[0];
      }
    }
    assert s[|s| - 6] == word[|word| - 6];
  }

  /** A claim template's name as it is when the text has to be cut. */
  lemma ClaimNameOf(name: string, device: string, digest: Digest)
    requires Fixed(name) && (device == "gpu" || device == "accel")
    ensures var s := ClaimText(name, device);
            Resistant(s, CLAIM_NAME_LENGTH, digest) ==
              if |s| <= CLAIM_NAME_LENGTH then s else RStrip(s[..53]) + "-" + HexText(digest(s))
  {
    var s := ClaimText(name, device);
    ClaimTextIsClean(name, device);
    LabelsAreFixed(s, 253);
    hide Sanitize, ClaimText;
    if |s| > CLAIM_NAME_LENGTH {
      RStripKeepsTheFirst(s[..53]);
    }
  }

  /** Of two intents of one render, in one namespace, the claim templates share a name exactly when
      they are for the same device of intents of one name, or both names were cut and agree in what
      is kept of them and in their digests. */
  lemma ClaimsOfTwoCollideIff(i: Intent, k: Intent, device: string, other: string, digest: Digest)
    requires Fixed(i.workflowName) && Fixed(k.workflowName)
    requires device in {"gpu", "accel"} && other in {"gpu", "accel"}
    ensures var a, b := ClaimText(i.workflowName, device), ClaimText(k.workflowName, other);
            ClaimName(i, device, digest) == ClaimName(k, other, digest) <==>
              || (i.workflowName == k.workflowName && device == other)
              || (|a| > CLAIM_NAME_LENGTH && |b| > CLAIM_NAME_LENGTH
                  && RStrip(a[..53]) == RStrip(b[..53]) && digest(a) == digest(b))
  {
    var a, b := ClaimText(i.workflowName, device), ClaimText(k.workflowName, other);
    ClaimNameOf(i.workflowName, device, digest);
    ClaimNameOf(k.workflowName, other, digest);
    ClaimTextIsClean(i.workflowName, device);
    ClaimTextIsClean(k.workflowName, other);
    assert ClaimName(i, device, digest) == Resistant(a, CLAIM_NAME_LENGTH, digest);
    assert ClaimName(k, other, digest) == Resistant(b, CLAIM_NAME_LENGTH, digest);
    ClaimTextsAgreeIff(i.workflowName, device, k.workflowName, other);
    hide Resistant, ClaimName, ClaimText, RStrip, IsWord, HexText;
    HexReadsBack(digest(a), digest(b));
    if |a| > CLAIM_NAME_LENGTH && |b| > CLAIM_NAME_LENGTH {
      if RStrip(a[..53]) + "-" + HexText(digest(a)) == RStrip(b[..53]) + "-" + HexText(digest(b)) {
        SplitHash(RStrip(a[..53]), HexText(digest(a)), RStrip(b[..53]), HexText(digest(b)));
      }
    } else if |a| > CLAIM_NAME_LENGTH {
      HashIsNoClaim(RStrip(a[..53]), digest(a), b);
    } else if |b| > CLAIM_NAME_LENGTH {
      HashIsNoClaim(RStrip(b[..53]), digest(b), a);
    }
  }

  lemma HashIsNoClaim(head: string, w: Word, s: string)
    requires |s| > 6 && s[|s| - 6] == '-'
    ensures s != head + "-" + HexText(w)
  {
    var t := head + "-" + HexText(w);
    assert t[|t| - 6] == HexText(w)[2];
  }

  lemma ClaimTextsAgreeIff(m: string, device: string, n: string, other: string)
    requires device in {"gpu", "accel"} && other in {"gpu", "accel"}
    ensures ClaimText(m, device) == ClaimText(n, other) <==> m == n && device == other
  {
    var a, b := ClaimText(m, device), ClaimText(n, other);
    if a == b {
      assert a[|a| - 9] == if device == "gpu" then 'g' else 'c';
      assert b[|b| - 9] == if other == "gpu" then 'g' else 'c';
      assert device == other;
      assert a[..|m|] == m && b[..|n|] == n;
    }
  }

  /** With a digest that tells the two uncut names apart, no claim of a Job is made from the
      firstAvailable template. */
  lemma JobsAvoidTheFallback(i: Intent, o: KueueOptions, h: Hashes, p: PodClaim)
    requires i.steps != [] && p in JobContainer(i, o, h.digest).podClaims
    requires h.digest(i.workflowName + "-" + GPU_SUFFIX) != h.digest(i.workflowName + "-" + ACCEL_SUFFIX)
    ensures p.template != FallbackTemplate(i, o.namespace, KUEUE, h).meta.name
  {
    hide JobContainer, Uses, ClaimName, FallbackTemplate, Sanitize, GPU_SUFFIX, ACCEL_SUFFIX;
    JobClaims(i, o, h.digest, Uses(i.steps, Gpu) && o.draEnabled);
    ClaimNamesCollideIff(i, h.digest);
    FallbackTemplateIs(i, o.namespace, KUEUE, h);
  }
}

/** Whether the files of a set are told apart. */
module Paths {
  import opened Wrappers
  import opened Files
  import opened Labels
  import opened Names
  import opened Intents
  import opened Manifests
  import opened Render
  import opened Writers

  function FileNames(files: seq<Planned>): (r: seq<Name>)
    ensures |r| == |files| && forall k :: 0 <= k < |r| ==> r[k] == files[k].file
  {
    seq(|files|, k requires 0 <= k < |files| => files[k].file)
  }

  lemma PlannedNames(
    missionId: string, os: seq<Occurrence>, intents: seq<Intent>, draFallback: bool, namespace: Option<string>,
    account: Option<string>, h: Hashes, k: nat)
    requires (draFallback ==> namespace.Some?) && Compiled(missionId, os, intents, h.digest) && k < |intents|
    ensures var names := Named(Canonicals(missionId, os, h.digest), h.digest);
            FileNames(ArgoFiles(intents, draFallback, namespace, account, h))[k] == names[k] + ".yaml"
  {
    var cs := Canonicals(missionId, os, h.digest);
    NameAt(cs, k, h.digest);
    CanonicalIsFixed(missionId, os[k].1.serviceId, os[k].0.timestamp.text, h.digest);
    hide ArgoDocs, Sanitize, Canonical, Variant, Count, Named, Fixed, Label, HintsFor;
    VariantIsFixed(cs[k], Count(cs[..k + 1], cs[k]), h.digest);
    FixedStays(Named(cs, h.digest)[k]);
    FileIsNamed(intents[k], draFallback, namespace, account, h);
  }

  lemma FixedStays(s: string)
    requires Fixed(s)
    ensures Sanitize(s, LABEL_LENGTH) == s
  {
    LabelsAreFixed(s, LABEL_LENGTH);
  }

  lemma PathsFollowNames(
    missionId: string, os: seq<Occurrence>, intents: seq<Intent>, draFallback: bool, namespace: Option<string>,
    account: Option<string>, h: Hashes)
    requires (draFallback ==> namespace.Some?) && Compiled(missionId, os, intents, h.digest)
    ensures NoDup(FileNames(ArgoFiles(intents, draFallback, namespace, account, h)))
      <==> NoDup(Named(Canonicals(missionId, os, h.digest), h.digest))
  {
    hide *;
    var cs := Canonicals(missionId, os, h.digest);
    var paths, names := FileNames(ArgoFiles(intents, draFallback, namespace, account, h)), Named(cs, h.digest);
    CompiledLengths(missionId, os, intents, h.digest);
    forall k | 0 <= k < |names|
      ensures paths[k] == names[k] + ".yaml"
    {
      PlannedNames(missionId, os, intents, draFallback, namespace, account, h, k);
    }
    SuffixKeepsDistinct(names, paths, ".yaml");
  }

  /** The texts the names of a plan are made of. */
  function Identifiers(missionId: string, os: seq<Occurrence>): (r: seq<string>)
    ensures |r| == |os|
    ensures forall k :: 0 <= k < |r| ==> r[k] == missionId + "-" + os[k].1.serviceId + "-" + os[k].0.timestamp.text
  {
    seq(|os|, k requires 0 <= k < |os| => missionId + "-" + os[k].1.serviceId + "-" + os[k].0.timestamp.text)
  }

  /** Every timestamp is in the form `_to_rfc3339_z` gives it. */
  predicate TimesAreWritten(os: seq<Occurrence>) {
    forall k :: 0 <= k < |os| ==> Timestamped(os[k].0.timestamp.text)
  }

  lemma IdentifiersAreTimestamped(missionId: string, os: seq<Occurrence>)
    requires TimesAreWritten(os)
    ensures forall raw :: raw in Identifiers(missionId, os) ==> Timestamped(raw)
  {
    hide Timestamped;
    var raws := Identifiers(missionId, os);
    forall raw | raw in raws
      ensures Timestamped(raw)
    {
      var k :| 0 <= k < |raws| && raws[k] == raw;
      TailDecides(missionId + "-" + os[k].1.serviceId + "-", os[k].0.timestamp.text);
    }
  }

  lemma TailDecides(p: string, t: string)
    requires Timestamped(t)
    ensures Timestamped(p + t)
  {
    hide Fits;
    var raw := p + t;
    assert t != [] ==> raw[|raw| - 1] == t[|t| - 1];
    assert |t| >= |OFFSET| ==> raw[|raw| - |OFFSET|..] == t[|t| - |OFFSET|..];
    assert |t| >= |FINE_OFFSET| ==> raw[|raw| - |FINE_OFFSET|..] == t[|t| - |FINE_OFFSET|..];
  }

  lemma CanonicalsAreCanons(missionId: string, os: seq<Occurrence>, digest: Digest)
    ensures Canonicals(missionId, os, digest) == Canons(Identifiers(missionId, os), digest)
  {
    hide Resistant;
    var cs, canons := Canonicals(missionId, os, digest), Canons(Identifiers(missionId, os), digest);
    forall k | 0 <= k < |os|
      ensures cs[k] == canons[k]
    {
      assert cs[k] == Canonical(missionId, os[k].1.serviceId, os[k].0.timestamp.text, digest);
    }
  }

  /** The paths of a compiled plan, which `preflight_unique` then checks, are distinct exactly when
      no numbered name meets the cut name of another text. */
  lemma PathsAreDistinctIff(
    missionId: string, os: seq<Occurrence>, intents: seq<Intent>, draFallback: bool, namespace: Option<string>,
    account: Option<string>, h: Hashes)
    requires (draFallback ==> namespace.Some?) && Compiled(missionId, os, intents, h.digest) && TimesAreWritten(os)
    ensures NoDup(FileNames(ArgoFiles(intents, draFallback, namespace, account, h)))
      <==> !Confused(Identifiers(missionId, os), h.digest)
  {
    hide *;
    PathsFollowNames(missionId, os, intents, draFallback, namespace, account, h);
    IdentifiersAreTimestamped(missionId, os);
    CanonicalsAreCanons(missionId, os, h.digest);
    TimestampedNamesAreDistinctIff(Identifiers(missionId, os), h.digest);
  }

  /** Identifiers that leave room for a number never come to the same path. */
  lemma FittingPathsAreDistinct(
    missionId: string, os: seq<Occurrence>, intents: seq<Intent>, draFallback: bool, namespace: Option<string>,
    account: Option<string>, h: Hashes)
    requires (draFallback ==> namespace.Some?) && Compiled(missionId, os, intents, h.digest) && TimesAreWritten(os)
    requires forall raw :: raw in Identifiers(missionId, os) ==>
      |Sanitize(raw, 253)| + 1 + |Decimal(|os|)| <= LABEL_LENGTH
    ensures NoDup(FileNames(ArgoFiles(intents, draFallback, namespace, account, h)))
  {
    hide Sanitize, Decimal, Timestamped, Compiled, TimesAreWritten, Named, FileNames, ArgoFiles;
    PathsFollowNames(missionId, os, intents, draFallback, namespace, account, h);
    IdentifiersAreTimestamped(missionId, os);
    CanonicalsAreCanons(missionId, os, h.digest);
    FittingNamesAreDistinct(Identifiers(missionId, os), h.digest);
  }

  // ---------------------------------------------------------------- the files of `render-kueue`

  const JOB_ENDING := "-kueue.yaml"
  const APART_ENDING := "-scheduler-fallback.yaml"

  function Safe(i: Intent): string {
    Sanitize(i.workflowName, LABEL_LENGTH)
  }

  predicate GoesApart(i: Intent, o: KueueOptions, h: Hashes) {
    SchedulerRoute(ClaimTemplates(i, o, h)) != []
  }

  lemma FilesOfOne(i: Intent, o: KueueOptions, h: Hashes)
    requires i.steps != []
    ensures FileNames(KueueFiles(i, o, h))
         == [Safe(i) + JOB_ENDING] + (if GoesApart(i, o, h) then [Safe(i) + APART_ENDING] else [])
  {
    hide KueueDocs, SchedulerRoute, ClaimTemplates, Sanitize;
  }

  lemma EndingsDiffer(a: string, b: string)
    ensures a + JOB_ENDING != b + APART_ENDING && a + JOB_ENDING != BUNDLE_FILE && a + APART_ENDING != BUNDLE_FILE
  {
    assert JOB_ENDING[5] == 'e' && APART_ENDING[18] == 'k' && BUNDLE_FILE[24] == 's';
    assert (a + JOB_ENDING)[|a| + 5] == 'e' && (b + APART_ENDING)[|b| + 18] == 'k';
    assert (a + APART_ENDING)[|a| + 18] == 'k';
    assert |JOB_ENDING| == 11 && |APART_ENDING| == 24 && |BUNDLE_FILE| == 30;
  }

  predicate Stepped(intents: seq<Intent>) {
    forall k :: 0 <= k < |intents| ==> intents[k].steps != []
  }

  lemma {:induction false} FileNamesConcat(a: seq<Planned>, b: seq<Planned>)
    ensures FileNames(a + b) == FileNames(a) + FileNames(b)
  {
  }

  /** Every name in the set is made from some intent's, by one of the two endings. */
  lemma {:induction false} NamesInTheSet(intents: seq<Intent>, o: KueueOptions, h: Hashes, n: Name)
    requires Stepped(intents)
    ensures n in FileNames(AllKueueFiles(intents, o, h)) <==>
      exists k :: 0 <= k < |intents|
        && (n == Safe(intents[k]) + JOB_ENDING || (GoesApart(intents[k], o, h) && n == Safe(intents[k]) + APART_ENDING))
    decreases |intents|
  {
    hide KueueFiles, Safe, GoesApart, JOB_ENDING, APART_ENDING;
    if intents != [] {
      var last := |intents| - 1;
      NamesInTheSet(intents[..last], o, h, n);
      FilesOfOne(intents[last], o, h);
      FileNamesConcat(AllKueueFiles(intents[..last], o, h), KueueFiles(intents[last], o, h));
    }
  }

  function SafeNames(intents: seq<Intent>): (r: seq<string>)
    ensures |r| == |intents| && forall k :: 0 <= k < |r| ==> r[k] == Safe(intents[k])
  {
    seq(|intents|, k requires 0 <= k < |intents| => Safe(intents[k]))
  }

  lemma NoDupOfTwo(a: seq<Name>, b: seq<Name>)
    ensures NoDup(a + b) <==> NoDup(a) && NoDup(b) && forall n :: n in a ==> n !in b
  {
    var c := a + b;
    if NoDup(c) {
      forall i, j | 0 <= i < j < |b|
        ensures b[i] != b[j]
      {
        assert c[|a| + i] == b[i] && c[|a| + j] == b[j];
      }
      forall i, j | 0 <= i < j < |a|
        ensures a[i] != a[j]
      {
        assert c[i] == a[i] && c[j] == a[j];
      }
      forall n | n in a
        ensures n !in b
      {
        var i :| 0 <= i < |a| && a[i] == n;
        assert c[i] == n;
        assert forall j :: 0 <= j < |b| ==> c[|a| + j] == b[j];
      }
    } else {
      var i, j :| 0 <= i < j < |c| && c[i] == c[j];
      if i < |a| <= j {
        assert c[i] in a && c[j] in b;
      } else if j < |a| {
        assert a[i] == a[j];
      } else {
        assert b[i - |a|] == b[j - |a|];
      }
    }
  }

  lemma LastFilesAreNew(intents: seq<Intent>, o: KueueOptions, h: Hashes, k: nat)
    requires Stepped(intents) && k < |intents|
    ensures NoDup(FileNames(KueueFiles(intents[k], o, h)))
    ensures (forall n :: n in FileNames(AllKueueFiles(intents[..k], o, h)) ==>
      n !in FileNames(KueueFiles(intents[k], o, h)))
      <==> Safe(intents[k]) !in SafeNames(intents[..k])
  {
    hide KueueFiles, AllKueueFiles, Safe, GoesApart, JOB_ENDING, APART_ENDING, FileNames;
    var stem := Safe(intents[k]);
    FilesOfOne(intents[k], o, h);
    EndingsDiffer(stem, stem);
    if stem in SafeNames(intents[..k]) {
      var m :| 0 <= m < k && Safe(intents[..k][m]) == stem;
      NamesInTheSet(intents[..k], o, h, stem + JOB_ENDING);
      assert stem + JOB_ENDING in FileNames(KueueFiles(intents[k], o, h));
    } else {
      forall n | n in FileNames(AllKueueFiles(intents[..k], o, h))
        ensures n !in FileNames(KueueFiles(intents[k], o, h))
      {
        NamesInTheSet(intents[..k], o, h, n);
        var m :| 0 <= m < k
                 && (n == Safe(intents[..k][m]) + JOB_ENDING
                     || (GoesApart(intents[..k][m], o, h) && n == Safe(intents[..k][m]) + APART_ENDING));
        var earlier := Safe(intents[..k][m]);
        assert earlier == SafeNames(intents[..k])[m];
        EndingsDiffer(earlier, stem);
        EndingsDiffer(stem, earlier);
        SuffixCancels(earlier, stem, JOB_ENDING);
        SuffixCancels(earlier, stem, APART_ENDING);
      }
    }
  }

  lemma {:induction false} KueuePathsFollowNames(intents: seq<Intent>, o: KueueOptions, h: Hashes)
    requires Stepped(intents)
    ensures NoDup(FileNames(AllKueueFiles(intents, o, h))) <==> NoDup(SafeNames(intents))
    decreases |intents|
  {
    hide KueueFiles, Safe, FileNames;
    if intents != [] {
      var k := |intents| - 1;
      KueuePathsFollowNames(intents[..k], o, h);
      LastFilesAreNew(intents, o, h, k);
      FileNamesConcat(AllKueueFiles(intents[..k], o, h), KueueFiles(intents[k], o, h));
      NoDupOfTwo(FileNames(AllKueueFiles(intents[..k], o, h)), FileNames(KueueFiles(intents[k], o, h)));
      assert SafeNames(intents) == SafeNames(intents[..k]) + [Safe(intents[k])];
      NoDupOfTwo(SafeNames(intents[..k]), [Safe(intents[k])]);
    } else {
      assert FileNames([]) == [];
    }
  }

  lemma BundleIsApart(intents: seq<Intent>, o: KueueOptions, h: Hashes)
    requires Stepped(intents)
    ensures BUNDLE_FILE !in FileNames(AllKueueFiles(intents, o, h))
  {
    hide AllKueueFiles, Safe, GoesApart, JOB_ENDING, APART_ENDING, BUNDLE_FILE;
    NamesInTheSet(intents, o, h, BUNDLE_FILE);
    if BUNDLE_FILE in FileNames(AllKueueFiles(intents, o, h)) {
      var k :| 0 <= k < |intents|
               && (BUNDLE_FILE == Safe(intents[k]) + JOB_ENDING
                   || (GoesApart(intents[k], o, h) && BUNDLE_FILE == Safe(intents[k]) + APART_ENDING));
      EndingsDiffer(Safe(intents[k]), "");
    }
  }

  lemma BundleGoesFirst(intents: seq<Intent>, o: KueueOptions, emitClasses: bool, h: Hashes)
    requires Stepped(intents)
    ensures NoDup(FileNames(KueuePlan(intents, o, emitClasses, h))) <==> NoDup(FileNames(AllKueueFiles(intents, o, h)))
  {
    hide AllKueueFiles, Bundle;
    BundleIsApart(intents, o, h);
    assert Bundle(o.prefix).file == BUNDLE_FILE by {
      BundleIsNamed(o.prefix);
    }
    var first := if emitClasses then [Bundle(o.prefix)] else [];
    FileNamesConcat(first, AllKueueFiles(intents, o, h));
    NoDupOfTwo(FileNames(first), FileNames(AllKueueFiles(intents, o, h)));
  }

  /** The paths of `render-kueue`, Jobs, claims set apart and class bundle together, are distinct
      exactly when the Argo paths of the same plan are. */
  lemma KueuePathsAreDistinctIff(
    missionId: string, os: seq<Occurrence>, intents: seq<Intent>, o: KueueOptions, emitClasses: bool, h: Hashes)
    requires Compiled(missionId, os, intents, h.digest) && TimesAreWritten(os) && Stepped(intents)
    ensures NoDup(FileNames(KueuePlan(intents, o, emitClasses, h))) <==> !Confused(Identifiers(missionId, os), h.digest)
  {
    hide *;
    BundleGoesFirst(intents, o, emitClasses, h);
    KueuePathsFollowNames(intents, o, h);
    SafeNamesAreNames(missionId, os, intents, h);
    IdentifiersAreTimestamped(missionId, os);
    CanonicalsAreCanons(missionId, os, h.digest);
    TimestampedNamesAreDistinctIff(Identifiers(missionId, os), h.digest);
  }

  lemma SafeNamesAreNames(missionId: string, os: seq<Occurrence>, intents: seq<Intent>, h: Hashes)
    requires Compiled(missionId, os, intents, h.digest)
    ensures SafeNames(intents) == Named(Canonicals(missionId, os, h.digest), h.digest)
  {
    hide Sanitize, Named, Canonical, ArgoFiles, Compiled, FileNames;
    CompiledLengths(missionId, os, intents, h.digest);
    var names := Named(Canonicals(missionId, os, h.digest), h.digest);
    forall k | 0 <= k < |intents|
      ensures SafeNames(intents)[k] == names[k]
    {
      PlannedNames(missionId, os, intents, false, None, None, h, k);
      FileIsNamed(intents[k], false, None, None, h);
      ArgoFileNames(intents, h, k);
      SuffixCancels(Safe(intents[k]), names[k], ".yaml");
    }
  }

  lemma ArgoFileNames(intents: seq<Intent>, h: Hashes, k: nat)
    requires k < |intents|
    ensures |FileNames(ArgoFiles(intents, false, None, None, h))| == |intents|
    ensures FileNames(ArgoFiles(intents, false, None, None, h))[k] == ArgoFile(intents[k], false, None, None, h).file
  {
    hide ArgoFile;
  }

  lemma CompiledLengths(missionId: string, os: seq<Occurrence>, intents: seq<Intent>, digest: Digest)
    requires Compiled(missionId, os, intents, digest)
    ensures |intents| == |os|
  {
  }

  lemma SuffixKeepsDistinct(names: seq<string>, paths: seq<string>, suffix: string)
    requires |names| == |paths| && forall k :: 0 <= k < |names| ==> paths[k] == names[k] + suffix
    ensures NoDup(paths) <==> NoDup(names)
  {
    forall j, k | 0 <= j < k < |names|
      ensures paths[j] == paths[k] <==> names[j] == names[k]
    {
      SuffixCancels(names[j], names[k], suffix);
    }
  }

  lemma FileIsNamed(i: Intent, draFallback: bool, namespace: Option<string>, account: Option<string>, h: Hashes)
    requires draFallback ==> namespace.Some?
    ensures ArgoFile(i, draFallback, namespace, account, h).file == Sanitize(i.workflowName, LABEL_LENGTH) + ".yaml"
  {
    hide ArgoDocs, Sanitize, StampedLabels, MissionNotes;
  }

  lemma SuffixCancels(a: string, b: string, suffix: string)
    ensures a + suffix == b + suffix <==> a == b
  {
    if a + suffix == b + suffix {
      assert (a + suffix)[..|a|] == a && (b + suffix)[..|b|] == b;
    }
  }
}
