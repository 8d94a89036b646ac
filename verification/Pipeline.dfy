/** From a typed plan to the documents it is rendered to, link by link and in one. */
module Pipeline {
  import opened Wrappers
  import opened Json
  import opened Labels
  import opened Names
  import opened Plans
  import opened Intents
  import opened Manifests
  import opened Render
  import opened Writers

  /** A text or a number that may be absent is a null in the hints. */
  function TextOrNull(v: Option<string>): JSON {
    match v
    case None => JNull
    case Some(s) => JStr(s)
  }

  /** Every intent is one service of one acquisition: its identity, priority and steps, and hints that
      say of event, service and steps what they are. */
  lemma IntentsAreTheirServices(missionId: string, os: seq<Occurrence>, intents: seq<Intent>, digest: Digest, k: nat)
    requires Compiled(missionId, os, intents, digest) && k < |os|
    ensures |intents| == |os|
    ensures var (i, ev, svc) := (intents[k], os[k].0, os[k].1);
            && i.missionId == missionId && i.serviceId == svc.serviceId
            && i.priority == svc.priority && i.steps == svc.steps
            && Look(i.hints, "event_timestamp") == Some(JStr(ev.timestamp.text))
            && Look(i.hints, "ground_visibility") == Some(JBool(ev.visible))
            && Look(i.hints, "region_type") == Some(TextOrNull(ev.region))
            && Look(i.hints, "orbit") == Some(match ev.orbit case None => JNull case Some(n) => JInt(n))
            && Look(i.hints, "duration_seconds") == Some(match ev.duration case None => JNull case Some(d) => JReal(d))
            && Look(i.hints, "landscape_type") == Some(TextOrNull(svc.landscape))
            && Look(i.hints, "execution_mode")
               == Some(match svc.mode case Sequential => JStr("sequential") case Parallel => JStr("parallel"))
            && Look(i.hints, "requires_gpu")
               == Some(JBool(exists m :: 0 <= m < |svc.steps| && svc.steps[m].class_ == Gpu))
            && Look(i.hints, "requires_fpga")
               == Some(JBool(exists m :: 0 <= m < |svc.steps| && svc.steps[m].class_ == Fpga))
            && Look(i.hints, "fallback_enabled")
               == Some(JBool(exists m :: 0 <= m < |svc.steps| && svc.steps[m].fallback != None))
  {
    hide Named, Canonicals;
    HintsAre(os[k]);
    hide HintsFor;
  }

  lemma HintsAre(o: Occurrence)
    ensures var hints, ev, svc := HintsFor(o), o.0, o.1;
            && Look(hints, "event_timestamp") == Some(JStr(ev.timestamp.text))
            && Look(hints, "ground_visibility") == Some(JBool(ev.visible))
            && Look(hints, "region_type") == Some(TextOrNull(ev.region))
            && Look(hints, "orbit") == Some(match ev.orbit case None => JNull case Some(n) => JInt(n))
            && Look(hints, "duration_seconds") == Some(match ev.duration case None => JNull case Some(d) => JReal(d))
            && Look(hints, "landscape_type") == Some(TextOrNull(svc.landscape))
            && Look(hints, "execution_mode")
               == Some(match svc.mode case Sequential => JStr("sequential") case Parallel => JStr("parallel"))
            && Look(hints, "requires_gpu")
               == Some(JBool(exists m :: 0 <= m < |svc.steps| && svc.steps[m].class_ == Gpu))
            && Look(hints, "requires_fpga")
               == Some(JBool(exists m :: 0 <= m < |svc.steps| && svc.steps[m].class_ == Fpga))
            && Look(hints, "fallback_enabled")
               == Some(JBool(exists m :: 0 <= m < |svc.steps| && svc.steps[m].fallback != None))
  {
    HintKeysDiffer();
    var hints, svc := HintsFor(o), o.1;
    assert Look(hints, "requires_gpu") == Some(JBool(Uses(svc.steps, Gpu)));
    assert Look(hints, "requires_fpga") == Some(JBool(Uses(svc.steps, Fpga)));
    assert Look(hints, "fallback_enabled") == Some(JBool(FallsBack(svc.steps)));
  }

  lemma HintKeysDiffer()
    ensures |"event_timestamp"| == 15 && |"ground_visibility"| == 17 && |"region_type"| == 11 && |"orbit"| == 5
    ensures |"duration_seconds"| == 16 && |"landscape_type"| == 14 && |EXECUTION_MODE| == 14 && |REQUIRES_GPU| == 12
    ensures |REQUIRES_FPGA| == 13 && |FALLBACK_ENABLED| == 16
    ensures "landscape_type"[0] != EXECUTION_MODE[0] && "duration_seconds"[0] != FALLBACK_ENABLED[0]
  {
  }

  /** A service its author made sequential runs in the order of its steps and in no other, in the
      document it is rendered to; one made parallel runs in any. */
  lemma ModesReachTheDocument(
    missionId: string, os: seq<Occurrence>, intents: seq<Intent>, k: nat, draFallback: bool,
    namespace: Option<string>, account: Option<string>, h: Hashes, order: seq<nat>)
    requires Compiled(missionId, os, intents, h.digest) && k < |os| && |os[k].1.steps| <= Pow10(49)
    ensures |intents| == |os|
    ensures var tasks := WorkflowFor(intents[k], draFallback, namespace, account, h).tasks;
            match os[k].1.mode
            case Sequential =>
              Topological(tasks, order) <==>
                |order| == |os[k].1.steps| && forall m :: 0 <= m < |order| ==> order[m] == m
            case Parallel =>
              && (forall m :: 0 <= m < |tasks| ==> tasks[m].depends == None)
              && (Topological(tasks, order) <==> NoDup(order) && forall m: nat :: m in order <==> m < |os[k].1.steps|)
  {
    hide Compiled, Topological, Named;
    IntentsAreTheirServices(missionId, os, intents, h.digest, k);
    var i := intents[k];
    match os[k].1.mode
    case Sequential =>
      SequentialOrderIsForced(i, draFallback, namespace, account, h, order);
      assert order == PlanOrder(i) <==> |order| == |i.steps| && forall m :: 0 <= m < |order| ==> order[m] == m;
    case Parallel =>
      ParallelHasNoEdges(i, draFallback, namespace, account, h, order);
  }

  /** The images a service's author named are what the templates of its workflow run, step by step. */
  lemma ImagesReachTheWorkflow(
    missionId: string, os: seq<Occurrence>, intents: seq<Intent>, k: nat, draFallback: bool,
    namespace: Option<string>, account: Option<string>, h: Hashes, m: nat)
    requires Compiled(missionId, os, intents, h.digest) && k < |os| && m < |os[k].1.steps|
    ensures |intents| == |os|
    ensures var templates := WorkflowFor(intents[k], draFallback, namespace, account, h).templates;
            |templates| == |os[k].1.steps| && templates[m].image == os[k].1.steps[m].image
  {
    hide Compiled, Containers, Tasks;
    IntentsAreTheirServices(missionId, os, intents, h.digest, k);
    TemplatesRunTheSteps(intents[k], draFallback, namespace, account, h, m);
  }

  /** And its Job runs that of the primary step. */
  lemma ImagesReachTheJob(
    missionId: string, os: seq<Occurrence>, intents: seq<Intent>, k: nat, o: KueueOptions, h: Hashes)
    returns (primary: nat)
    requires Compiled(missionId, os, intents, h.digest) && k < |os| && os[k].1.steps != []
    ensures |intents| == |os| && intents[k].steps == os[k].1.steps && IsPrimary(os[k].1.steps, primary)
    ensures KueueFiles(intents[k], o, h) != [] && KueueFiles(intents[k], o, h)[0].docs != []
    ensures var docs := KueueFiles(intents[k], o, h)[0].docs;
            docs[|docs| - 1].Job? && docs[|docs| - 1].container.image == os[k].1.steps[primary].image
  {
    hide Compiled, KueueFiles, IsPrimary;
    IntentsAreTheirServices(missionId, os, intents, h.digest, k);
    primary := JobsRunThePrimaryStep(intents[k], o, h);
  }
}
