/** The typed mission plan, what the schema asks of it, and the JSON the policy engines see. */
module Plans {
  import opened Wrappers
  import opened Json

  datatype ResourceClass = Cpu | Gpu | Fpga

  datatype Phase = Preprocessing | Ai | Postprocessing

  datatype Mode = Sequential | Parallel

  datatype Kind = Acquisition | Download

  datatype Step = Step(
    name: string, image: string, phase: Option<Phase>, class_: ResourceClass, fallback: Option<ResourceClass>,
    accelerated: bool, command: seq<string>, args: seq<string>, metadata: map<string, JSON>,
    selector: map<string, string>)

  datatype Service = Service(
    serviceId: string, priority: int, landscape: Option<string>, mode: Mode, steps: seq<Step>)

  /** An instant, and the RFC 3339 text it is written as. */
  datatype Timestamp = Timestamp(seconds: real, text: string)

  datatype Event = Event(
    timestamp: Timestamp, kind: Kind, orbit: Option<int>, duration: Option<real>, instrument: Option<string>,
    sensor: Option<string>, visible: bool, region: Option<string>, services: seq<Service>)

  datatype Plan = Plan(missionId: string, clientId: Option<string>, events: seq<Event>)

  // ---------------------------------------------------------------- the schema

  predicate ValidStep(step: Step) {
    !Blank(step.name) && !Blank(step.image)
  }

  predicate ValidService(svc: Service) {
    && !Blank(svc.serviceId) && 0 <= svc.priority <= 100
    && svc.steps != [] && forall k :: 0 <= k < |svc.steps| ==> ValidStep(svc.steps[k])
  }

  predicate ValidEvent(ev: Event) {
    && (ev.orbit.Some? ==> ev.orbit.value >= 0) && (ev.duration.Some? ==> ev.duration.value >= 0.0)
    && (ev.kind.Acquisition? ==> ev.instrument.Some? && !Blank(ev.instrument.value))
    && (ev.kind.Download? ==> ev.duration.Some? && ev.services == [] && ev.visible)
    && forall j :: 0 <= j < |ev.services| ==> ValidService(ev.services[j])
  }

  predicate Valid(plan: Plan) {
    && !Blank(plan.missionId)
    && plan.events != [] && forall i :: 0 <= i < |plan.events| ==> ValidEvent(plan.events[i])
  }

  // ---------------------------------------------------------------- model_dump(mode="json")

  function OrNull<T>(v: Option<T>, f: T -> JSON): JSON {
    if v.None? then JNull else f(v.value)
  }

  function Text(s: string): JSON {
    JStr(s)
  }

  function ClassName(c: ResourceClass): string {
    match c
    case Cpu => "cpu"
    case Gpu => "gpu"
    case Fpga => "fpga"
  }

  function PhaseName(p: Phase): string {
    match p
    case Preprocessing => "preprocessing"
    case Ai => "ai"
    case Postprocessing => "postprocessing"
  }

  function ModeName(m: Mode): string {
    if m.Sequential? then "sequential" else "parallel"
  }

  function KindName(k: Kind): string {
    if k.Acquisition? then "acquisition" else "download"
  }

  function Texts(items: seq<string>): JSON {
    JArr(seq(|items|, i requires 0 <= i < |items| => JStr(items[i])))
  }

  function DumpStep(s: Step): JSON {
    JObj(map[
      "name" := JStr(s.name), "image" := JStr(s.image),
      "phase" := OrNull(s.phase, p => JStr(PhaseName(p))),
      "resource_class" := JStr(ClassName(s.class_)),
      "fallback_resource_class" := OrNull(s.fallback, c => JStr(ClassName(c))),
      "needs_acceleration" := JBool(s.accelerated),
      "command" := Texts(s.command), "args" := Texts(s.args),
      "metadata" := JObj(s.metadata),
      "preferred_node_selector" := JObj(map k | k in s.selector :: JStr(s.selector[k]))])
  }

  function DumpService(s: Service): JSON {
    JObj(map[
      "service_id" := JStr(s.serviceId), "priority" := JInt(s.priority),
      "landscape_type" := OrNull(s.landscape, Text),
      "execution_mode" := JStr(ModeName(s.mode)),
      "steps" := JArr(seq(|s.steps|, k requires 0 <= k < |s.steps| => DumpStep(s.steps[k])))])
  }

  function DumpEvent(e: Event): JSON {
    JObj(map[
      "timestamp" := JStr(e.timestamp.text), "event_type" := JStr(KindName(e.kind)),
      "orbit" := OrNull(e.orbit, n => JInt(n)), "duration_seconds" := OrNull(e.duration, d => JReal(d)),
      "instrument" := OrNull(e.instrument, Text), "sensor" := OrNull(e.sensor, Text),
      "ground_visibility" := JBool(e.visible), "region_type" := OrNull(e.region, Text),
      "services" := JArr(seq(|e.services|, j requires 0 <= j < |e.services| => DumpService(e.services[j])))])
  }

  function Dump(p: Plan): JSON {
    JObj(map[
      "mission_id" := JStr(p.missionId), "client_id" := OrNull(p.clientId, Text),
      "events" := JArr(seq(|p.events|, i requires 0 <= i < |p.events| => DumpEvent(p.events[i])))])
  }
}

/** What is left for the policy once the schema has passed a plan. */
module Stages {
  import opened Wrappers
  import opened Json
  import opened Plans
  import opened Policy

  lemma DumpedPlan(p: Plan)
    ensures Dump(p).JObj? && Member(Dump(p), "mission_id") == JStr(p.missionId)
    ensures Member(Dump(p), "events").JArr? && |Events(Dump(p))| == |p.events|
    ensures forall i :: 0 <= i < |p.events| ==> Events(Dump(p))[i] == DumpEvent(p.events[i])
  {
  }

  lemma DumpedEvent(e: Event)
    ensures DumpEvent(e).JObj?
    ensures Member(DumpEvent(e), "event_type") == JStr(KindName(e.kind))
    ensures Member(DumpEvent(e), "ground_visibility") == JBool(e.visible)
    ensures Member(DumpEvent(e), "services").JArr? && |Services(DumpEvent(e))| == |e.services|
    ensures forall j :: 0 <= j < |e.services| ==> Services(DumpEvent(e))[j] == DumpService(e.services[j])
  {
  }

  lemma DumpedService(s: Service)
    ensures DumpService(s).JObj?
    ensures Member(DumpService(s), "priority") == JInt(s.priority)
    ensures Member(DumpService(s), "landscape_type") == (if s.landscape.None? then JNull else JStr(s.landscape.value))
    ensures Member(DumpService(s), "steps").JArr? && |Steps(DumpService(s))| == |s.steps|
    ensures forall k :: 0 <= k < |s.steps| ==> Steps(DumpService(s))[k] == DumpStep(s.steps[k])
  {
  }

  lemma DumpedStep(s: Step)
    ensures DumpStep(s).JObj?
    ensures Member(DumpStep(s), "resource_class") == JStr(ClassName(s.class_))
    ensures Member(DumpStep(s), "fallback_resource_class")
         == (if s.fallback.None? then JNull else JStr(ClassName(s.fallback.value)))
    ensures Member(DumpStep(s), "needs_acceleration") == JBool(s.accelerated)
  {
  }

  /** What each rule that can still fire says, in the schema's own terms. */
  predicate CleanStep(s: Step) {
    && (s.class_ in {Gpu, Fpga} ==> s.fallback == Some(Cpu))
    && (s.class_ == Cpu ==> !s.accelerated)
  }

  predicate CleanService(s: Service) {
    && s.priority != 0 && (s.landscape.Some? ==> s.landscape.value in {"ocean", "land"})
    && forall k :: 0 <= k < |s.steps| ==> CleanStep(s.steps[k])
  }

  predicate CleanEvent(e: Event) {
    && (e.kind.Acquisition? ==> e.services != [])
    && forall j :: 0 <= j < |e.services| ==> CleanService(e.services[j])
  }

  predicate Clean(p: Plan) {
    forall i :: 0 <= i < |p.events| ==> CleanEvent(p.events[i])
  }

  const LEFT_TO_POLICY: set<Option<nat>> := {Some(3), Some(4), Some(5), Some(6), Some(10)}

  lemma StepRules(s: Step)
    ensures !Unhashable(DumpStep(s))
    ensures NoUsableFallback(DumpStep(s)) <==> s.class_ in {Gpu, Fpga} && s.fallback != Some(Cpu)
    ensures IdleAcceleration(DumpStep(s)) <==> s.class_ == Cpu && s.accelerated
  {
    DumpedStep(s);
    hide DumpStep;
    assert ClassName(Cpu) == "cpu" && ClassName(Gpu) == "gpu" && ClassName(Fpga) == "fpga";
    assert "cpu"[0] == 'c' && "gpu"[0] == 'g' && "fpga"[0] == 'f';
  }

  lemma ServiceRules(s: Service)
    requires ValidService(s)
    ensures !NoSteps(DumpService(s)) && !Malformed(Member(DumpService(s), "steps"))
    ensures ZeroPriority(DumpService(s)) <==> s.priority == 0
    ensures StrangeLandscape(DumpService(s)) <==> s.landscape.Some? && s.landscape.value !in {"ocean", "land"}
  {
    DumpedService(s);
    hide DumpService;
  }

  lemma EventRules(e: Event)
    requires ValidEvent(e)
    ensures !DownloadWithServices(DumpEvent(e)) && !DownloadUnseen(DumpEvent(e))
    ensures !Malformed(Member(DumpEvent(e), "services"))
    ensures AcquisitionWithoutService(DumpEvent(e)) <==> e.kind.Acquisition? && e.services == []
  {
    DumpedEvent(e);
    hide DumpEvent;
    assert "acquisition"[0] == 'a' && "download"[0] == 'd';
  }

  /** The parts of a dumped plan are the dumped parts. */
  lemma Located(p: Plan, i: nat, j: nat, k: nat)
    ensures IsEvent(Dump(p), i) <==> i < |p.events|
    ensures i < |p.events| ==> EventAt(Dump(p), i) == DumpEvent(p.events[i])
    ensures IsService(Dump(p), i, j) <==> i < |p.events| && j < |p.events[i].services|
    ensures IsService(Dump(p), i, j) ==> ServiceAt(Dump(p), i, j) == DumpService(p.events[i].services[j])
    ensures IsStep(Dump(p), i, j, k) <==>
      i < |p.events| && j < |p.events[i].services| && k < |p.events[i].services[j].steps|
    ensures IsStep(Dump(p), i, j, k) ==> StepAt(Dump(p), i, j, k) == DumpStep(p.events[i].services[j].steps[k])
  {
    DumpedPlan(p);
    hide Dump, DumpEvent, DumpService, DumpStep;
    if i < |p.events| {
      DumpedEvent(p.events[i]);
      if j < |p.events[i].services| {
        DumpedService(p.events[i].services[j]);
      }
    }
  }

  lemma PlanRules(p: Plan)
    requires Valid(p)
    ensures PlanHeader(Dump(p)) == []
  {
    DumpedPlan(p);
    hide Dump;
  }

  lemma EventAtRules(p: Plan, i: nat, v: Violation)
    requires Valid(p) && i < |p.events|
    ensures v in EventHeader(EventAt(Dump(p), i), EventPath(i)) <==>
      v == Violation(Some(3), EventPath(i) + ["services"]) && p.events[i].kind.Acquisition?
        && p.events[i].services == []
  {
    Located(p, i, 0, 0);
    DumpedEvent(p.events[i]);
    EventRules(p.events[i]);
    hide Dump, DumpEvent, Malformed, AcquisitionWithoutService, DownloadWithServices, DownloadUnseen;
  }

  lemma ServiceAtRules(p: Plan, i: nat, j: nat, v: Violation)
    requires Valid(p) && i < |p.events| && j < |p.events[i].services|
    ensures var s := p.events[i].services[j];
            v in ServiceHeader(ServiceAt(Dump(p), i, j), ServicePath(i, j)) <==>
              || (v == Violation(Some(5), ServicePath(i, j)) && s.priority == 0)
              || (v == Violation(Some(10), ServicePath(i, j))
                  && s.landscape.Some? && s.landscape.value !in {"ocean", "land"})
  {
    Located(p, i, j, 0);
    assert ValidEvent(p.events[i]);
    DumpedService(p.events[i].services[j]);
    ServiceRules(p.events[i].services[j]);
    hide Dump, DumpService, Malformed, ZeroPriority, NoSteps, StrangeLandscape;
  }

  lemma StepAtRules(p: Plan, i: nat, j: nat, k: nat, v: Violation)
    requires i < |p.events| && j < |p.events[i].services| && k < |p.events[i].services[j].steps|
    ensures var s := p.events[i].services[j].steps[k];
            v in StepFindings(StepAt(Dump(p), i, j, k), StepPath(i, j, k)) <==>
              || (v == Violation(Some(4), StepPath(i, j, k)) && s.class_ in {Gpu, Fpga} && s.fallback != Some(Cpu))
              || (v == Violation(Some(6), StepPath(i, j, k)) && s.class_ == Cpu && s.accelerated)
  {
    Located(p, i, j, k);
    DumpedStep(p.events[i].services[j].steps[k]);
    StepRules(p.events[i].services[j].steps[k]);
    hide Dump, DumpStep, NoUsableFallback, IdleAcceleration;
  }

  /** A plan the schema passed can break no other rule: those are settled, and the structural
      guard never fires. */
  lemma SchemaLeavesFiveRules(p: Plan, v: Violation)
    requires Valid(p) && v in Findings(Dump(p))
    ensures v.rule in LEFT_TO_POLICY
  {
    hide EventHeader, ServiceHeader, StepFindings, PlanHeader, Findings, Dump, Valid;
    var site := MadeAtOrBelowPlan(Dump(p), v);
    PlanRules(p);
    match site {
      case AtPlan =>
      case AtEvent(i) =>
        Located(p, i, 0, 0);
        EventAtRules(p, i, v);
      case AtService(i, j) =>
        Located(p, i, j, 0);
        ServiceAtRules(p, i, j, v);
      case AtStep(i, j, k) =>
        Located(p, i, j, k);
        StepAtRules(p, i, j, k, v);
    }
  }

  /** Nor does it ever make the validator raise. */
  lemma SchemaKeepsPlansReadable(p: Plan)
    ensures !Unreadable(Dump(p))
  {
    UnreadableIsAStep(Dump(p));
    hide Unhashable, Dump, Unreadable;
    if i: nat, j: nat, k: nat :| IsStep(Dump(p), i, j, k) && Unhashable(StepAt(Dump(p), i, j, k)) {
      Located(p, i, j, k);
      StepRules(p.events[i].services[j].steps[k]);
    }
  }

  /** What the policy adds, for plans the schema passed, in the schema's own terms. */
  lemma AllowedIsClean(p: Plan)
    requires Valid(p)
    ensures Allowed(Dump(p)) <==> Clean(p)
  {
    if Clean(p) && !Allowed(Dump(p)) {
      var v := Findings(Dump(p))[0];
      var site := MadeAtOrBelowPlan(Dump(p), v);
      CleanMakesNone(p, v, site);
    }
    if Allowed(Dump(p)) {
      AllowedEventsAreClean(p);
    }
  }

  lemma CleanMakesNone(p: Plan, v: Violation, site: Site)
    requires Valid(p) && Clean(p)
    ensures !MadeAt(Dump(p), v, site)
  {
    hide EventHeader, ServiceHeader, StepFindings, PlanHeader, Dump, Valid;
    PlanRules(p);
    match site {
      case AtPlan =>
      case AtEvent(i) =>
        Located(p, i, 0, 0);
        if i < |p.events| {
          EventAtRules(p, i, v);
        }
      case AtService(i, j) =>
        Located(p, i, j, 0);
        if i < |p.events| && j < |p.events[i].services| {
          ServiceAtRules(p, i, j, v);
        }
      case AtStep(i, j, k) =>
        Located(p, i, j, k);
        if i < |p.events| && j < |p.events[i].services| && k < |p.events[i].services[j].steps| {
          StepAtRules(p, i, j, k, v);
        }
    }
  }

  lemma AllowedEventsAreClean(p: Plan)
    requires Valid(p) && Allowed(Dump(p))
    ensures Clean(p)
  {
    hide Dump, Valid, Findings;
    forall i | 0 <= i < |p.events|
      ensures CleanEvent(p.events[i])
    {
      var v := Violation(Some(3), EventPath(i) + ["services"]);
      Located(p, i, 0, 0);
      EventAtRules(p, i, v);
      Unfound(p, v, AtEvent(i));
      forall j | 0 <= j < |p.events[i].services|
        ensures CleanService(p.events[i].services[j])
      {
        AllowedServiceIsClean(p, i, j);
      }
    }
  }

  lemma Unfound(p: Plan, v: Violation, site: Site)
    requires Allowed(Dump(p))
    ensures !MadeAt(Dump(p), v, site)
  {
    if MadeAt(Dump(p), v, site) {
      MadeIsFound(Dump(p), v, site);
      assert false;
    }
  }

  lemma AllowedServiceIsClean(p: Plan, i: nat, j: nat)
    requires Valid(p) && Allowed(Dump(p)) && i < |p.events| && j < |p.events[i].services|
    ensures CleanService(p.events[i].services[j])
  {
    hide Dump, Valid, Findings;
    var s := p.events[i].services[j];
    var five, ten := Violation(Some(5), ServicePath(i, j)), Violation(Some(10), ServicePath(i, j));
    Located(p, i, j, 0);
    ServiceAtRules(p, i, j, five);
    ServiceAtRules(p, i, j, ten);
    Unfound(p, five, AtService(i, j));
    Unfound(p, ten, AtService(i, j));
    forall k | 0 <= k < |s.steps|
      ensures CleanStep(s.steps[k])
    {
      var four, six := Violation(Some(4), StepPath(i, j, k)), Violation(Some(6), StepPath(i, j, k));
      Located(p, i, j, k);
      StepAtRules(p, i, j, k, four);
      StepAtRules(p, i, j, k, six);
      Unfound(p, four, AtStep(i, j, k));
      Unfound(p, six, AtStep(i, j, k));
    }
  }

  /** A plan the schema passes that breaks all five. */
  function Offender(): Plan {
    var bare := Step("s", "i", None, Gpu, None, false, [], [], map[], map[]);
    var idle := Step("s", "i", None, Cpu, None, true, [], [], map[], map[]);
    var svc := Service("s", 0, Some("desert"), Sequential, [bare, idle]);
    var busy := Event(Timestamp(0.0, "t"), Acquisition, None, None, Some("camera"), None, false, None, [svc]);
    Plan("m", None, [busy, busy.(services := [])])
  }

  lemma OffenderIsValid()
    ensures Valid(Offender())
  {
    assert !IsSpace("s"[0]) && !IsSpace("i"[0]) && !IsSpace("m"[0]) && !IsSpace("camera"[0]);
    var p := Offender();
    assert ValidStep(p.events[0].services[0].steps[0]) && ValidStep(p.events[0].services[0].steps[1]);
    assert ValidService(p.events[0].services[0]);
    assert ValidEvent(p.events[0]) && ValidEvent(p.events[1]);
  }

  /** None of the five is settled by the schema. */
  lemma AllFiveCanFire(r: Option<nat>)
    requires r in LEFT_TO_POLICY
    ensures exists v :: v in Findings(Dump(Offender())) && v.rule == r
  {
    OffenderIsValid();
    var p := Offender();
    hide Valid, Dump, Findings, EventHeader, ServiceHeader, StepFindings, EventPath, ServicePath, StepPath;
    if r == Some(3) {
      var v := Violation(r, EventPath(1) + ["services"]);
      Located(p, 1, 0, 0);
      EventAtRules(p, 1, v);
      MadeIsFound(Dump(p), v, AtEvent(1));
    } else if r in {Some(5), Some(10)} {
      var v := Violation(r, ServicePath(0, 0));
      Located(p, 0, 0, 0);
      ServiceAtRules(p, 0, 0, v);
      MadeIsFound(Dump(p), v, AtService(0, 0));
    } else {
      var k := if r == Some(4) then 0 else 1;
      var v := Violation(r, StepPath(0, 0, k));
      Located(p, 0, 0, k);
      StepAtRules(p, 0, 0, k, v);
      MadeIsFound(Dump(p), v, AtStep(0, 0, k));
    }
  }
}
