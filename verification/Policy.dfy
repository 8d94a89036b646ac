/** The in-process policy engine: ten deny rules over a raw JSON plan. */
module Policy {
  import opened Wrappers
  import opened Json
  import opened Labels

  /** Reference tokens of a JSON Pointer, RFC 6901 section 4. */
  type Pointer = seq<string>

  /** A violation: a numbered rule, or the structural guard, at a node of the plan. */
  datatype Violation = Violation(rule: Option<nat>, path: Pointer)

  const STRUCTURAL: Option<nat> := None

  // ---------------------------------------------------------------- reading a plan

  /** The members of a list, none for anything else. */
  function Items(v: JSON): seq<JSON> {
    if v.JArr? then v.items else []
  }

  /** A member of an object; null for anything else. */
  function Member(v: JSON, key: string): JSON {
    if v.JObj? then Get(v.fields, key) else JNull
  }

  /** `_as_list` calls it malformed. */
  predicate Malformed(v: JSON) {
    !v.JNull? && !v.JArr?
  }

  predicate Zero(v: JSON) {
    v == JInt(0) || v == JReal(0.0)
  }

  function EventPath(i: nat): Pointer {
    ["events", Decimal(i)]
  }

  function ServicePath(i: nat, j: nat): Pointer {
    ["events", Decimal(i), "services", Decimal(j)]
  }

  function StepPath(i: nat, j: nat, k: nat): Pointer {
    ["events", Decimal(i), "services", Decimal(j), "steps", Decimal(k)]
  }

  // ---------------------------------------------------------------- what each rule says, on its own

  predicate NoMission(plan: JSON) {
    var mid := Member(plan, "mission_id");
    mid.JNull? || (mid.JStr? && Blank(mid.s))
  }

  predicate NoEvents(plan: JSON) {
    var events := Member(plan, "events");
    events.JNull? || events == JArr([])
  }

  predicate AcquisitionWithoutService(event: JSON) {
    && event.JObj? && Member(event, "event_type") == JStr("acquisition")
    && !Malformed(Member(event, "services")) && Items(Member(event, "services")) == []
  }

  predicate DownloadWithServices(event: JSON) {
    && event.JObj? && Member(event, "event_type") == JStr("download")
    && Items(Member(event, "services")) != []
  }

  predicate DownloadUnseen(event: JSON) {
    && event.JObj? && Member(event, "event_type") == JStr("download")
    && Member(event, "ground_visibility") != JBool(true)
  }

  predicate ZeroPriority(svc: JSON) {
    svc.JObj? && Zero(Member(svc, "priority"))
  }

  predicate NoSteps(svc: JSON) {
    svc.JObj? && !Malformed(Member(svc, "steps")) && Items(Member(svc, "steps")) == []
  }

  predicate StrangeLandscape(svc: JSON) {
    && svc.JObj?
    && !Member(svc, "landscape_type").JNull?
    && Member(svc, "landscape_type") !in {JStr("ocean"), JStr("land")}
  }

  predicate Accelerated(step: JSON) {
    step.JObj? && Member(step, "resource_class") in {JStr("gpu"), JStr("fpga")}
  }

  predicate NoUsableFallback(step: JSON) {
    Accelerated(step) && Member(step, "fallback_resource_class") != JStr("cpu")
  }

  predicate IdleAcceleration(step: JSON) {
    && step.JObj? && Member(step, "resource_class") == JStr("cpu")
    && Member(step, "needs_acceleration") == JBool(true)
  }

  /** Looking the class up in a set raises on a list or a mapping. */
  predicate Unhashable(step: JSON) {
    step.JObj? && !Hashable(Member(step, "resource_class"))
  }

  // ---------------------------------------------------------------- where the nodes are

  function Events(plan: JSON): seq<JSON> {
    Items(Member(plan, "events"))
  }

  function Services(event: JSON): seq<JSON> {
    Items(Member(event, "services"))
  }

  function Steps(svc: JSON): seq<JSON> {
    Items(Member(svc, "steps"))
  }

  predicate IsEvent(plan: JSON, i: nat) {
    i < |Events(plan)|
  }

  predicate IsService(plan: JSON, i: nat, j: nat) {
    IsEvent(plan, i) && j < |Services(Events(plan)[i])|
  }

  predicate IsStep(plan: JSON, i: nat, j: nat, k: nat) {
    IsService(plan, i, j) && k < |Steps(Services(Events(plan)[i])[j])|
  }

  function EventAt(plan: JSON, i: nat): JSON
    requires IsEvent(plan, i)
  {
    Events(plan)[i]
  }

  function ServiceAt(plan: JSON, i: nat, j: nat): JSON
    requires IsService(plan, i, j)
  {
    Services(EventAt(plan, i))[j]
  }

  function StepAt(plan: JSON, i: nat, j: nat, k: nat): JSON
    requires IsStep(plan, i, j, k)
  {
    Steps(ServiceAt(plan, i, j))[k]
  }

  /** The rules as they are written down: each about its own kind of node, none about what any
      other rule found. */
  ghost predicate Denies(plan: JSON, v: Violation) {
    match v.rule
    case None => Misshapen(plan, v.path)
    case Some(1) => v.path == ["mission_id"] && NoMission(plan)
    case Some(2) => v.path == ["events"] && NoEvents(plan)
    case Some(3) =>
      exists i: nat :: IsEvent(plan, i) && v.path == EventPath(i) + ["services"]
                       && AcquisitionWithoutService(EventAt(plan, i))
    case Some(4) =>
      exists i: nat, j: nat, k: nat ::
        IsStep(plan, i, j, k) && v.path == StepPath(i, j, k) && NoUsableFallback(StepAt(plan, i, j, k))
    case Some(5) =>
      exists i: nat, j: nat :: IsService(plan, i, j) && v.path == ServicePath(i, j)
        && ZeroPriority(ServiceAt(plan, i, j))
    case Some(6) =>
      exists i: nat, j: nat, k: nat ::
        IsStep(plan, i, j, k) && v.path == StepPath(i, j, k) && IdleAcceleration(StepAt(plan, i, j, k))
    case Some(7) =>
      exists i: nat :: IsEvent(plan, i) && v.path == EventPath(i) && DownloadWithServices(EventAt(plan, i))
    case Some(8) =>
      exists i: nat :: IsEvent(plan, i) && v.path == EventPath(i) && DownloadUnseen(EventAt(plan, i))
    case Some(9) =>
      exists i: nat, j: nat :: IsService(plan, i, j) && v.path == ServicePath(i, j) && NoSteps(ServiceAt(plan, i, j))
    case Some(10) =>
      exists i: nat, j: nat ::
        IsService(plan, i, j) && v.path == ServicePath(i, j) && StrangeLandscape(ServiceAt(plan, i, j))
    case Some(_) => false
  }

  /** The structural guard: a container that is not a list, or a member that is not an object. */
  ghost predicate Misshapen(plan: JSON, path: Pointer) {
    || (path == ["events"] && Malformed(Member(plan, "events")))
    || (exists i: nat :: IsEvent(plan, i) && path == EventPath(i) && !EventAt(plan, i).JObj?)
    || (exists i: nat ::
          IsEvent(plan, i) && path == EventPath(i) + ["services"] && Malformed(Member(EventAt(plan, i), "services")))
    || (exists i: nat, j: nat :: IsService(plan, i, j) && path == ServicePath(i, j) && !ServiceAt(plan, i, j).JObj?)
    || (exists i: nat, j: nat ::
          IsService(plan, i, j) && path == ServicePath(i, j) + ["steps"]
          && Malformed(Member(ServiceAt(plan, i, j), "steps")))
    || (exists i: nat, j: nat, k: nat ::
          IsStep(plan, i, j, k) && path == StepPath(i, j, k) && !StepAt(plan, i, j, k).JObj?)
  }

  // ---------------------------------------------------------------- the nested loops

  function When(found: bool, rule: Option<nat>, path: Pointer): (r: seq<Violation>)
    ensures forall v :: v in r <==> found && v == Violation(rule, path)
  {
    if found then [Violation(rule, path)] else []
  }

  function StepFindings(step: JSON, path: Pointer): seq<Violation> {
    if !step.JObj? then [Violation(STRUCTURAL, path)]
    else When(NoUsableFallback(step), Some(4), path) + When(IdleAcceleration(step), Some(6), path)
  }

  function ServiceHeader(svc: JSON, path: Pointer): seq<Violation> {
    if !svc.JObj? then [Violation(STRUCTURAL, path)]
    else
      When(Malformed(Member(svc, "steps")), STRUCTURAL, path + ["steps"])
      + When(ZeroPriority(svc), Some(5), path)
      + When(NoSteps(svc), Some(9), path)
      + When(StrangeLandscape(svc), Some(10), path)
  }

  function ServiceFindings(svc: JSON, path: Pointer): seq<Violation> {
    ServiceHeader(svc, path) + StepsFindings(Steps(svc), path)
  }

  function StepsFindings(steps: seq<JSON>, path: Pointer): seq<Violation> {
    if steps == [] then []
    else
      var k := |steps| - 1;
      StepsFindings(steps[..k], path) + StepFindings(steps[k], path + ["steps", Decimal(k)])
  }

  function EventHeader(event: JSON, path: Pointer): seq<Violation> {
    if !event.JObj? then [Violation(STRUCTURAL, path)]
    else
      When(Malformed(Member(event, "services")), STRUCTURAL, path + ["services"])
      + When(AcquisitionWithoutService(event), Some(3), path + ["services"])
      + When(DownloadWithServices(event), Some(7), path)
      + When(DownloadUnseen(event), Some(8), path)
  }

  function EventFindings(event: JSON, path: Pointer): seq<Violation> {
    EventHeader(event, path) + ServicesFindings(Services(event), path)
  }

  function ServicesFindings(services: seq<JSON>, path: Pointer): seq<Violation> {
    if services == [] then []
    else
      var j := |services| - 1;
      ServicesFindings(services[..j], path) + ServiceFindings(services[j], path + ["services", Decimal(j)])
  }

  function PlanHeader(plan: JSON): seq<Violation> {
    When(NoMission(plan), Some(1), ["mission_id"])
    + When(NoEvents(plan), Some(2), ["events"])
    + When(Malformed(Member(plan, "events")), STRUCTURAL, ["events"])
  }

  function EventsFindings(events: seq<JSON>): seq<Violation> {
    if events == [] then []
    else
      var i := |events| - 1;
      EventsFindings(events[..i]) + EventFindings(events[i], EventPath(i))
  }

  function Findings(plan: JSON): seq<Violation> {
    PlanHeader(plan) + EventsFindings(Events(plan))
  }

  // ---------------------------------------------------------------- where a finding sits

  lemma {:induction false} InSteps(steps: seq<JSON>, path: Pointer, v: Violation)
    ensures v in StepsFindings(steps, path) <==>
      exists k: nat :: k < |steps| && v in StepFindings(steps[k], path + ["steps", Decimal(k)])
    decreases |steps|
  {
    hide StepFindings, Decimal;
    if steps != [] {
      var k := |steps| - 1;
      InSteps(steps[..k], path, v);
      assert forall m: nat :: m < k ==> steps[..k][m] == steps[m];
    }
  }

  lemma {:induction false} InServices(services: seq<JSON>, path: Pointer, v: Violation)
    ensures v in ServicesFindings(services, path) <==>
      exists j: nat :: j < |services| && v in ServiceFindings(services[j], path + ["services", Decimal(j)])
    decreases |services|
  {
    hide ServiceFindings, Decimal;
    if services != [] {
      var j := |services| - 1;
      InServices(services[..j], path, v);
      assert forall m: nat :: m < j ==> services[..j][m] == services[m];
    }
  }

  lemma {:induction false} InEvents(events: seq<JSON>, v: Violation)
    ensures v in EventsFindings(events) <==>
      exists i: nat :: i < |events| && v in EventFindings(events[i], EventPath(i))
    decreases |events|
  {
    hide EventFindings, EventPath;
    if events != [] {
      var i := |events| - 1;
      InEvents(events[..i], v);
      assert forall m: nat :: m < i ==> events[..i][m] == events[m];
    }
  }

  lemma PathsExtend(i: nat, j: nat, k: nat)
    ensures ServicePath(i, j) == EventPath(i) + ["services", Decimal(j)]
    ensures StepPath(i, j, k) == ServicePath(i, j) + ["steps", Decimal(k)]
  {
  }

  lemma FoundAtStep(plan: JSON, i: nat, j: nat, k: nat, v: Violation)
    requires IsStep(plan, i, j, k) && v in StepFindings(StepAt(plan, i, j, k), StepPath(i, j, k))
    ensures v in Findings(plan)
  {
    hide StepFindings, EventHeader, ServiceHeader, PlanHeader, Decimal;
    PathsExtend(i, j, k);
    InSteps(Steps(ServiceAt(plan, i, j)), ServicePath(i, j), v);
    FoundAtService(plan, i, j, v);
  }

  lemma FoundAtService(plan: JSON, i: nat, j: nat, v: Violation)
    requires IsService(plan, i, j) && v in ServiceFindings(ServiceAt(plan, i, j), ServicePath(i, j))
    ensures v in Findings(plan)
  {
    hide ServiceFindings, EventHeader, PlanHeader, Decimal;
    PathsExtend(i, j, 0);
    InServices(Services(EventAt(plan, i)), EventPath(i), v);
    FoundAtEvent(plan, i, v);
  }

  lemma FoundAtEvent(plan: JSON, i: nat, v: Violation)
    requires IsEvent(plan, i) && v in EventFindings(EventAt(plan, i), EventPath(i))
    ensures v in Findings(plan)
  {
    hide EventFindings, PlanHeader, EventPath;
    InEvents(Events(plan), v);
  }

  /** Every finding is made at the plan, at an event, at a service or at a step. */
  datatype Site = AtPlan | AtEvent(i: nat) | AtService(i: nat, j: nat) | AtStep(i: nat, j: nat, k: nat)

  ghost predicate MadeAt(plan: JSON, v: Violation, site: Site) {
    match site
    case AtPlan => v in PlanHeader(plan)
    case AtEvent(i) => IsEvent(plan, i) && v in EventHeader(EventAt(plan, i), EventPath(i))
    case AtService(i, j) => IsService(plan, i, j) && v in ServiceHeader(ServiceAt(plan, i, j), ServicePath(i, j))
    case AtStep(i, j, k) => IsStep(plan, i, j, k) && v in StepFindings(StepAt(plan, i, j, k), StepPath(i, j, k))
  }

  lemma MadeAtOrBelowPlan(plan: JSON, v: Violation) returns (site: Site)
    requires v in Findings(plan)
    ensures MadeAt(plan, v, site)
  {
    hide EventFindings, EventPath, PlanHeader;
    if v in PlanHeader(plan) {
      return AtPlan;
    }
    InEvents(Events(plan), v);
    var i: nat :| i < |Events(plan)| && v in EventFindings(Events(plan)[i], EventPath(i));
    site := MadeAtOrBelowEvent(plan, i, v);
  }

  lemma MadeAtOrBelowEvent(plan: JSON, i: nat, v: Violation) returns (site: Site)
    requires IsEvent(plan, i) && v in EventFindings(EventAt(plan, i), EventPath(i))
    ensures MadeAt(plan, v, site)
  {
    hide ServiceFindings, EventHeader, Decimal;
    if v in EventHeader(EventAt(plan, i), EventPath(i)) {
      return AtEvent(i);
    }
    InServices(Services(EventAt(plan, i)), EventPath(i), v);
    var j: nat :| j < |Services(EventAt(plan, i))|
                  && v in ServiceFindings(Services(EventAt(plan, i))[j], EventPath(i) + ["services", Decimal(j)]);
    PathsExtend(i, j, 0);
    site := MadeAtOrBelowService(plan, i, j, v);
  }

  lemma MadeAtOrBelowService(plan: JSON, i: nat, j: nat, v: Violation) returns (site: Site)
    requires IsService(plan, i, j) && v in ServiceFindings(ServiceAt(plan, i, j), ServicePath(i, j))
    ensures MadeAt(plan, v, site)
  {
    hide StepFindings, ServiceHeader, Decimal;
    if v in ServiceHeader(ServiceAt(plan, i, j), ServicePath(i, j)) {
      return AtService(i, j);
    }
    InSteps(Steps(ServiceAt(plan, i, j)), ServicePath(i, j), v);
    var k: nat :| k < |Steps(ServiceAt(plan, i, j))|
                  && v in StepFindings(Steps(ServiceAt(plan, i, j))[k], ServicePath(i, j) + ["steps", Decimal(k)]);
    PathsExtend(i, j, k);
    return AtStep(i, j, k);
  }

  lemma MadeIsFound(plan: JSON, v: Violation, site: Site)
    requires MadeAt(plan, v, site)
    ensures v in Findings(plan)
  {
    hide StepFindings, EventHeader, ServiceHeader, PlanHeader, Decimal;
    match site {
      case AtPlan =>
      case AtEvent(i) => FoundAtEvent(plan, i, v);
      case AtService(i, j) => FoundAtService(plan, i, j, v);
      case AtStep(i, j, k) => FoundAtStep(plan, i, j, k, v);
    }
  }

  // ---------------------------------------------------------------- each rule on its own

  /** No rule hides another: what the loops find is what the rules say, taken one at a time over
      every node of the plan. */
  lemma FindingsAreDenials(plan: JSON, v: Violation)
    ensures v in Findings(plan) <==> Denies(plan, v)
  {
    if v in Findings(plan) {
      var site := MadeAtOrBelowPlan(plan, v);
      MadeIsDenied(plan, v, site);
    }
    if Denies(plan, v) {
      var site := DeniedIsMade(plan, v);
      MadeIsFound(plan, v, site);
    }
  }

  lemma MadeIsDenied(plan: JSON, v: Violation, site: Site)
    requires MadeAt(plan, v, site)
    ensures Denies(plan, v)
  {
    hide Denies, EventHeader, ServiceHeader, StepFindings;
    match site {
      case AtPlan => MadeAtPlan(plan, v);
      case AtEvent(i) => MadeAtEvent(plan, v, i);
      case AtService(i, j) => MadeAtService(plan, v, i, j);
      case AtStep(i, j, k) => MadeAtStep(plan, v, i, j, k);
    }
  }

  lemma MadeAtPlan(plan: JSON, v: Violation)
    requires v in PlanHeader(plan)
    ensures Denies(plan, v)
  {
  }

  predicate EventDenied(event: JSON, here: Pointer, v: Violation) {
    || (v == Violation(STRUCTURAL, here) && !event.JObj?)
    || (v == Violation(STRUCTURAL, here + ["services"]) && Malformed(Member(event, "services")))
    || (v == Violation(Some(3), here + ["services"]) && AcquisitionWithoutService(event))
    || (v == Violation(Some(7), here) && DownloadWithServices(event))
    || (v == Violation(Some(8), here) && DownloadUnseen(event))
  }

  lemma EventHeaderSays(event: JSON, here: Pointer, v: Violation)
    requires v in EventHeader(event, here)
    ensures EventDenied(event, here, v)
  {
    hide AcquisitionWithoutService, DownloadWithServices, DownloadUnseen, Malformed;
  }

  lemma MadeAtEvent(plan: JSON, v: Violation, i: nat)
    requires IsEvent(plan, i) && v in EventHeader(EventAt(plan, i), EventPath(i))
    ensures Denies(plan, v)
  {
    EventHeaderSays(EventAt(plan, i), EventPath(i), v);
    hide *;
    EventDenies(plan, v, i);
  }

  lemma EventDenies(plan: JSON, v: Violation, i: nat)
    requires IsEvent(plan, i) && EventDenied(EventAt(plan, i), EventPath(i), v)
    ensures Denies(plan, v)
  {
    hide EventPath, EventAt, IsEvent, IsService, IsStep, AcquisitionWithoutService, DownloadWithServices,
      DownloadUnseen, Malformed, Member;
  }

  predicate ServiceDenied(svc: JSON, here: Pointer, v: Violation) {
    || (v == Violation(STRUCTURAL, here) && !svc.JObj?)
    || (v == Violation(STRUCTURAL, here + ["steps"]) && Malformed(Member(svc, "steps")))
    || (v == Violation(Some(5), here) && ZeroPriority(svc))
    || (v == Violation(Some(9), here) && NoSteps(svc))
    || (v == Violation(Some(10), here) && StrangeLandscape(svc))
  }

  lemma ServiceHeaderSays(svc: JSON, here: Pointer, v: Violation)
    requires v in ServiceHeader(svc, here)
    ensures ServiceDenied(svc, here, v)
  {
    hide ZeroPriority, NoSteps, StrangeLandscape, Malformed;
  }

  lemma MadeAtService(plan: JSON, v: Violation, i: nat, j: nat)
    requires IsService(plan, i, j) && v in ServiceHeader(ServiceAt(plan, i, j), ServicePath(i, j))
    ensures Denies(plan, v)
  {
    ServiceHeaderSays(ServiceAt(plan, i, j), ServicePath(i, j), v);
    hide *;
    ServiceDenies(plan, v, i, j);
  }

  lemma ServiceDenies(plan: JSON, v: Violation, i: nat, j: nat)
    requires IsService(plan, i, j) && ServiceDenied(ServiceAt(plan, i, j), ServicePath(i, j), v)
    ensures Denies(plan, v)
  {
    hide ServicePath, ServiceAt, IsEvent, IsService, IsStep, ZeroPriority, NoSteps, StrangeLandscape, Malformed,
      Member;
  }

  lemma MadeAtStep(plan: JSON, v: Violation, i: nat, j: nat, k: nat)
    requires IsStep(plan, i, j, k) && v in StepFindings(StepAt(plan, i, j, k), StepPath(i, j, k))
    ensures Denies(plan, v)
  {
    hide EventPath, ServicePath, StepPath, EventAt, ServiceAt, StepAt, IsEvent, IsService, IsStep, NoUsableFallback,
      IdleAcceleration;
  }

  lemma DeniedIsMade(plan: JSON, v: Violation) returns (site: Site)
    requires Denies(plan, v)
    ensures MadeAt(plan, v, site)
  {
    hide EventPath, ServicePath, StepPath, EventAt, ServiceAt, StepAt, IsEvent, IsService, IsStep;
    match v.rule {
      case None => site := MisshapenIsMade(plan, v);
      case Some(r) =>
        if r <= 2 {
          site := AtPlan;
        } else if r in {3, 7, 8} {
          site := DeniedEvent(plan, v);
        } else if r in {5, 9, 10} {
          site := DeniedService(plan, v);
        } else {
          site := DeniedStep(plan, v);
        }
    }
  }

  lemma DeniedEvent(plan: JSON, v: Violation) returns (site: Site)
    requires Denies(plan, v) && v.rule in {Some(3), Some(7), Some(8)}
    ensures MadeAt(plan, v, site)
  {
    hide EventPath, EventAt, IsEvent;
    var i: nat :|
      && IsEvent(plan, i)
      && ((v == Violation(Some(3), EventPath(i) + ["services"]) && AcquisitionWithoutService(EventAt(plan, i)))
          || (v == Violation(Some(7), EventPath(i)) && DownloadWithServices(EventAt(plan, i)))
          || (v == Violation(Some(8), EventPath(i)) && DownloadUnseen(EventAt(plan, i))));
    site := AtEvent(i);
  }

  lemma DeniedService(plan: JSON, v: Violation) returns (site: Site)
    requires Denies(plan, v) && v.rule in {Some(5), Some(9), Some(10)}
    ensures MadeAt(plan, v, site)
  {
    hide ServicePath, ServiceAt, IsService;
    var i: nat, j: nat :|
      && IsService(plan, i, j) && v.path == ServicePath(i, j)
      && ((v.rule == Some(5) && ZeroPriority(ServiceAt(plan, i, j)))
          || (v.rule == Some(9) && NoSteps(ServiceAt(plan, i, j)))
          || (v.rule == Some(10) && StrangeLandscape(ServiceAt(plan, i, j))));
    site := AtService(i, j);
  }

  lemma DeniedStep(plan: JSON, v: Violation) returns (site: Site)
    requires Denies(plan, v) && v.rule in {Some(4), Some(6)}
    ensures MadeAt(plan, v, site)
  {
    hide StepPath, StepAt, IsStep;
    var i: nat, j: nat, k: nat :|
      && IsStep(plan, i, j, k) && v.path == StepPath(i, j, k)
      && ((v.rule == Some(4) && NoUsableFallback(StepAt(plan, i, j, k)))
          || (v.rule == Some(6) && IdleAcceleration(StepAt(plan, i, j, k))));
    site := AtStep(i, j, k);
  }

  lemma MisshapenIsMade(plan: JSON, v: Violation) returns (site: Site)
    requires v.rule == STRUCTURAL && Misshapen(plan, v.path)
    ensures MadeAt(plan, v, site)
  {
    hide EventPath, ServicePath, StepPath, EventAt, ServiceAt, StepAt, IsEvent, IsService, IsStep;
    if v.path == ["events"] && Malformed(Member(plan, "events")) {
      return AtPlan;
    }
    if i: nat :|
      IsEvent(plan, i) && (
        (v.path == EventPath(i) && !EventAt(plan, i).JObj?)
        || (v.path == EventPath(i) + ["services"] && Malformed(Member(EventAt(plan, i), "services")))) {
      return AtEvent(i);
    }
    if i: nat, j: nat :|
      IsService(plan, i, j) && (
        (v.path == ServicePath(i, j) && !ServiceAt(plan, i, j).JObj?)
        || (v.path == ServicePath(i, j) + ["steps"] && Malformed(Member(ServiceAt(plan, i, j), "steps")))) {
      return AtService(i, j);
    }
    var i: nat, j: nat, k: nat :| IsStep(plan, i, j, k) && v.path == StepPath(i, j, k) && !StepAt(plan, i, j, k).JObj?;
    return AtStep(i, j, k);
  }

  // ---------------------------------------------------------------- one finding per rule and node

  lemma SamePrefix(p: Pointer, a: string, x: nat, b: string, y: nat, path: Pointer)
    requires p + [a, Decimal(x)] <= path && p + [b, Decimal(y)] <= path
    ensures a == b && x == y
  {
    assert path[|p|] == (p + [a, Decimal(x)])[|p|] == (p + [b, Decimal(y)])[|p|];
    assert path[|p| + 1] == (p + [a, Decimal(x)])[|p| + 1] == (p + [b, Decimal(y)])[|p| + 1];
    DecimalReadsBack(x);
    DecimalReadsBack(y);
  }

  lemma NoDupConcat<T(!new)>(a: seq<T>, b: seq<T>)
    requires NoDup(a) && NoDup(b) && forall x :: x in a ==> x !in b
    ensures NoDup(a + b)
  {
    var s := a + b;
    forall i, j | 0 <= i < j < |s|
      ensures s[i] != s[j]
    {
      assert j < |a| ==> s[i] == a[i] && s[j] == a[j];
      assert i >= |a| ==> s[i] == b[i - |a|] && s[j] == b[j - |a|];
      if i < |a| <= j {
        assert a[i] in a && b[j - |a|] in b;
      }
    }
  }

  /** All findings made at or below a node. */
  ghost predicate Below(vs: seq<Violation>, path: Pointer) {
    forall v :: v in vs ==> path <= v.path
  }

  lemma StepFindingsOnce(step: JSON, path: Pointer)
    ensures NoDup(StepFindings(step, path)) && forall v :: v in StepFindings(step, path) ==> v.path == path
  {
  }

  /** In one of the first `n` members of a list. */
  ghost predicate Among(path: Pointer, list: Pointer, key: string, n: nat) {
    exists k: nat :: k < n && list + [key, Decimal(k)] <= path
  }

  lemma {:induction false} StepsFindingsOnce(steps: seq<JSON>, path: Pointer)
    ensures NoDup(StepsFindings(steps, path))
    ensures forall v :: v in StepsFindings(steps, path) ==> Among(v.path, path, "steps", |steps|)
    decreases |steps|
  {
    hide StepFindings, Decimal;
    if steps == [] {
      assert StepsFindings(steps, path) == [];
    } else {
      var k := |steps| - 1;
      var here := path + ["steps", Decimal(k)];
      StepsFindingsOnce(steps[..k], path);
      StepFindingsOnce(steps[k], here);
      forall v | v in StepsFindings(steps[..k], path)
        ensures v !in StepFindings(steps[k], here)
      {
        var m: nat :| m < k && path + ["steps", Decimal(m)] <= v.path;
        if v.path == here {
          SamePrefix(path, "steps", m, "steps", k, v.path);
        }
      }
      NoDupConcat(StepsFindings(steps[..k], path), StepFindings(steps[k], here));
      assert StepsFindings(steps, path) == StepsFindings(steps[..k], path) + StepFindings(steps[k], here);
      assert Among(here, path, "steps", |steps|);
    }
  }

  lemma ServiceHeaderOnce(svc: JSON, path: Pointer)
    ensures NoDup(ServiceHeader(svc, path))
    ensures forall v :: v in ServiceHeader(svc, path) ==> v.path == path || v.path == path + ["steps"]
  {
  }

  lemma ServiceFindingsOnce(svc: JSON, path: Pointer)
    ensures NoDup(ServiceFindings(svc, path)) && Below(ServiceFindings(svc, path), path)
  {
    hide ServiceHeader, Decimal;
    ServiceHeaderOnce(svc, path);
    StepsFindingsOnce(Steps(svc), path);
    NoDupConcat(ServiceHeader(svc, path), StepsFindings(Steps(svc), path));
  }

  lemma {:induction false} ServicesFindingsOnce(services: seq<JSON>, path: Pointer)
    ensures NoDup(ServicesFindings(services, path))
    ensures forall v :: v in ServicesFindings(services, path) ==> Among(v.path, path, "services", |services|)
    decreases |services|
  {
    hide ServiceFindings, Decimal;
    if services == [] {
      assert ServicesFindings(services, path) == [];
    } else {
      var j := |services| - 1;
      var here := path + ["services", Decimal(j)];
      ServicesFindingsOnce(services[..j], path);
      ServiceFindingsOnce(services[j], here);
      forall v | v in ServicesFindings(services[..j], path)
        ensures v !in ServiceFindings(services[j], here)
      {
        var m: nat :| m < j && path + ["services", Decimal(m)] <= v.path;
        if here <= v.path {
          SamePrefix(path, "services", m, "services", j, v.path);
        }
      }
      NoDupConcat(ServicesFindings(services[..j], path), ServiceFindings(services[j], here));
      assert ServicesFindings(services, path) ==
        ServicesFindings(services[..j], path) + ServiceFindings(services[j], here);
      forall v | v in ServicesFindings(services, path)
        ensures Among(v.path, path, "services", |services|)
      {
        if v in ServiceFindings(services[j], here) {
          assert path + ["services", Decimal(j)] <= v.path;
        } else {
          var m: nat :| m < j && path + ["services", Decimal(m)] <= v.path;
        }
      }
    }
  }

  lemma EventHeaderOnce(event: JSON, path: Pointer)
    ensures NoDup(EventHeader(event, path))
    ensures forall v :: v in EventHeader(event, path) ==> v.path == path || v.path == path + ["services"]
  {
  }

  lemma EventFindingsOnce(event: JSON, path: Pointer)
    ensures NoDup(EventFindings(event, path)) && Below(EventFindings(event, path), path)
  {
    hide EventHeader, Decimal;
    EventHeaderOnce(event, path);
    ServicesFindingsOnce(Services(event), path);
    NoDupConcat(EventHeader(event, path), ServicesFindings(Services(event), path));
  }

  lemma {:induction false} EventsFindingsOnce(events: seq<JSON>)
    ensures NoDup(EventsFindings(events))
    ensures forall v :: v in EventsFindings(events) ==> exists i: nat :: i < |events| && EventPath(i) <= v.path
    decreases |events|
  {
    hide EventFindings, EventPath;
    if events != [] {
      var i := |events| - 1;
      EventsFindingsOnce(events[..i]);
      EventFindingsOnce(events[i], EventPath(i));
      forall v | v in EventsFindings(events[..i])
        ensures v !in EventFindings(events[i], EventPath(i))
      {
        var m: nat :| m < i && EventPath(m) <= v.path;
        if EventPath(i) <= v.path {
          EventPathsDiffer(m, i, v.path);
        }
      }
      NoDupConcat(EventsFindings(events[..i]), EventFindings(events[i], EventPath(i)));
    }
  }

  lemma EventPathsDiffer(i: nat, j: nat, path: Pointer)
    requires EventPath(i) <= path && EventPath(j) <= path
    ensures i == j
  {
    assert EventPath(i) == [] + ["events", Decimal(i)] && EventPath(j) == [] + ["events", Decimal(j)];
    SamePrefix([], "events", i, "events", j, path);
  }

  lemma PlanHeaderOnce(plan: JSON)
    ensures NoDup(PlanHeader(plan)) && forall v :: v in PlanHeader(plan) ==> |v.path| == 1
  {
  }

  /** No rule reports one node twice. */
  lemma FindingsAreDistinct(plan: JSON)
    ensures NoDup(Findings(plan))
  {
    hide PlanHeader, Decimal;
    PlanHeaderOnce(plan);
    EventsFindingsOnce(Events(plan));
    NoDupConcat(PlanHeader(plan), EventsFindings(Events(plan)));
  }

  // ---------------------------------------------------------------- paths

  /** One reference token: a member of an object, or an element of an array by its decimal index. */
  function Child(v: JSON, token: string): Option<JSON> {
    match v
    case JObj(fields) => Look(fields, token)
    case JArr(items) =>
      if (forall c :: c in token ==> IsDigit(c)) && Decimal(Value(token)) == token && Value(token) < |items|
      then Some(items[Value(token)]) else None
    case _ => None
  }

  /** Evaluation of a JSON Pointer, RFC 6901 section 4. */
  function Resolve(v: JSON, path: Pointer): Option<JSON> {
    if path == [] then Some(v)
    else
      var child := Child(v, path[0]);
      if child.None? then None else Resolve(child.value, path[1..])
  }

  /** The path names a node, or a member that an existing object could have. */
  predicate Names(v: JSON, path: Pointer) {
    || Resolve(v, path).Some?
    || (path != [] && Resolve(v, path[..|path| - 1]).Some? && Resolve(v, path[..|path| - 1]).value.JObj?)
  }

  lemma {:induction false} ResolveConcat(v: JSON, a: Pointer, b: Pointer)
    requires Resolve(v, a).Some?
    ensures Resolve(v, a + b) == Resolve(Resolve(v, a).value, b)
    decreases |a|
  {
    if a == [] {
      assert a + b == b;
    } else {
      assert (a + b)[1..] == a[1..] + b;
      ResolveConcat(Child(v, a[0]).value, a[1..], b);
    }
  }

  lemma ResolveElement(v: JSON, key: string, i: nat)
    requires i < |Items(Member(v, key))|
    ensures Resolve(v, [key, Decimal(i)]) == Some(Items(Member(v, key))[i])
  {
    DecimalReadsBack(i);
    var list := Member(v, key);
    assert Child(v, key) == Some(list) && Child(list, Decimal(i)) == Some(list.items[i]);
    assert [key, Decimal(i)][1..] == [Decimal(i)] && [Decimal(i)][1..] == [];
    assert Resolve(list, [Decimal(i)]) == Some(list.items[i]);
  }

  lemma ResolveEvent(plan: JSON, i: nat)
    requires IsEvent(plan, i)
    ensures Resolve(plan, EventPath(i)) == Some(EventAt(plan, i))
  {
    ResolveElement(plan, "events", i);
  }

  lemma ResolveService(plan: JSON, i: nat, j: nat)
    requires IsService(plan, i, j)
    ensures Resolve(plan, ServicePath(i, j)) == Some(ServiceAt(plan, i, j))
  {
    hide Resolve, Decimal;
    ResolveEvent(plan, i);
    ResolveElement(EventAt(plan, i), "services", j);
    PathsExtend(i, j, 0);
    ResolveConcat(plan, EventPath(i), ["services", Decimal(j)]);
  }

  lemma ResolveStep(plan: JSON, i: nat, j: nat, k: nat)
    requires IsStep(plan, i, j, k)
    ensures Resolve(plan, StepPath(i, j, k)) == Some(StepAt(plan, i, j, k))
  {
    hide Resolve, Decimal;
    ResolveService(plan, i, j);
    ResolveElement(ServiceAt(plan, i, j), "steps", k);
    PathsExtend(i, j, k);
    ResolveConcat(plan, ServicePath(i, j), ["steps", Decimal(k)]);
  }

  lemma MembersAreNamed(v: JSON, path: Pointer, key: string)
    requires Resolve(v, path).Some? && Resolve(v, path).value.JObj?
    ensures Names(v, path + [key])
  {
    assert (path + [key])[..|path|] == path;
  }

  /** Every path reported leads to the node it is about, or to a member missing from an object
      that is there. */
  lemma FindingsAreNamed(plan: JSON, v: Violation)
    requires plan.JObj? && v in Findings(plan)
    ensures Names(plan, v.path)
  {
    hide Names, Resolve, EventPath, ServicePath, StepPath, EventHeader, ServiceHeader, StepFindings, PlanHeader,
      Findings, EventAt, ServiceAt, StepAt, IsEvent, IsService, IsStep;
    var site := MadeAtOrBelowPlan(plan, v);
    match site {
      case AtPlan =>
        PlanHeaderOnce(plan);
        RootIsNamed(plan, v.path[0]);
        assert v.path == [v.path[0]];
      case AtEvent(i) =>
        ResolveEvent(plan, i);
        EventHeaderOnce(EventAt(plan, i), EventPath(i));
        NodeOrMember(plan, EventPath(i), EventAt(plan, i), v.path, "services");
        EventMemberNeedsObject(EventAt(plan, i), EventPath(i), v);
      case AtService(i, j) =>
        ResolveService(plan, i, j);
        ServiceHeaderOnce(ServiceAt(plan, i, j), ServicePath(i, j));
        NodeOrMember(plan, ServicePath(i, j), ServiceAt(plan, i, j), v.path, "steps");
        ServiceMemberNeedsObject(ServiceAt(plan, i, j), ServicePath(i, j), v);
      case AtStep(i, j, k) =>
        ResolveStep(plan, i, j, k);
        StepFindingsOnce(StepAt(plan, i, j, k), StepPath(i, j, k));
        NodeIsNamed(plan, StepPath(i, j, k));
    }
  }

  /** A finding one below its node is made only where the node is an object. */
  lemma EventMemberNeedsObject(event: JSON, path: Pointer, v: Violation)
    requires v in EventHeader(event, path)
    ensures event.JObj? || v.path == path
  {
    hide AcquisitionWithoutService, DownloadWithServices, DownloadUnseen, Malformed;
  }

  lemma ServiceMemberNeedsObject(svc: JSON, path: Pointer, v: Violation)
    requires v in ServiceHeader(svc, path)
    ensures svc.JObj? || v.path == path
  {
    hide ZeroPriority, NoSteps, StrangeLandscape, Malformed;
  }

  lemma NodeOrMember(plan: JSON, here: Pointer, node: JSON, path: Pointer, key: string)
    requires Resolve(plan, here) == Some(node) && (path == here || path == here + [key])
    ensures node.JObj? || path == here ==> Names(plan, path)
  {
    hide Names, Resolve;
    NodeIsNamed(plan, here);
    if path != here && node.JObj? {
      MembersAreNamed(plan, here, key);
    }
  }

  lemma NodeIsNamed(v: JSON, path: Pointer)
    requires Resolve(v, path).Some?
    ensures Names(v, path)
  {
  }

  lemma RootIsNamed(v: JSON, key: string)
    requires v.JObj?
    ensures Names(v, [key])
  {
    assert Resolve(v, []) == Some(v);
    MembersAreNamed(v, [], key);
    assert [] + [key] == [key];
  }

  /** A path as text. None of the tokens used holds a `/` or a `~`, so none is escaped. */
  function Text(path: Pointer): string {
    if path == [] then "" else Text(path[..|path| - 1]) + "/" + path[|path| - 1]
  }

  ghost predicate Plain(path: Pointer) {
    forall i, k :: 0 <= i < |path| && 0 <= k < |path[i]| ==> path[i][k] != '/' && path[i][k] != '~'
  }

  /** Distinct paths are distinct text. */
  lemma {:induction false} TextReadsBack(a: Pointer, b: Pointer)
    requires Plain(a) && Plain(b) && Text(a) == Text(b)
    ensures a == b
    decreases |a|
  {
    if a != [] && b != [] {
      var m, n := |a| - 1, |b| - 1;
      forall k | 0 <= k < |a[m]|
        ensures a[m][k] != '/'
      {
        assert a[m][k] != '~';
      }
      forall k | 0 <= k < |b[n]|
        ensures b[n][k] != '/'
      {
        assert b[n][k] != '~';
      }
      LastMark(Text(a[..m]), a[m], Text(b[..n]), b[n], '/');
      assert Plain(a[..m]) && Plain(b[..n]);
      TextReadsBack(a[..m], b[..n]);
      assert a == a[..m] + [a[m]] && b == b[..n] + [b[n]];
    }
  }

  // ---------------------------------------------------------------- the validator

  ghost predicate StepUnreadable(svc: JSON, n: nat) {
    exists k: nat :: k < n && k < |Steps(svc)| && Unhashable(Steps(svc)[k])
  }

  ghost predicate ServiceUnreadable(event: JSON, n: nat) {
    exists j: nat :: j < n && j < |Services(event)| && StepUnreadable(Services(event)[j], |Steps(Services(event)[j])|)
  }

  ghost predicate EventUnreadable(plan: JSON, n: nat) {
    exists i: nat :: i < n && i < |Events(plan)| && ServiceUnreadable(Events(plan)[i], |Services(Events(plan)[i])|)
  }

  /** Some step's class cannot be looked up. */
  ghost predicate Unreadable(plan: JSON) {
    EventUnreadable(plan, |Events(plan)|)
  }

  /** That is: some step of some service of some event. */
  lemma UnreadableIsAStep(plan: JSON)
    ensures Unreadable(plan) <==>
      exists i: nat, j: nat, k: nat :: IsStep(plan, i, j, k) && Unhashable(StepAt(plan, i, j, k))
  {
    hide Unhashable, Events, Services, Steps;
    if i: nat, j: nat, k: nat :| IsStep(plan, i, j, k) && Unhashable(StepAt(plan, i, j, k)) {
      assert StepUnreadable(ServiceAt(plan, i, j), |Steps(ServiceAt(plan, i, j))|);
      assert ServiceUnreadable(EventAt(plan, i), |Services(EventAt(plan, i))|);
    }
    if Unreadable(plan) {
      var i: nat :| i < |Events(plan)| && ServiceUnreadable(Events(plan)[i], |Services(Events(plan)[i])|);
      var services := Services(Events(plan)[i]);
      var j: nat :| j < |services| && StepUnreadable(services[j], |Steps(services[j])|);
      var k: nat :| k < |Steps(services[j])| && Unhashable(Steps(services[j])[k]);
      assert IsStep(plan, i, j, k) && Unhashable(StepAt(plan, i, j, k));
    }
  }

  /** A plan of one acquisition, one service and one step, its class being this value. */
  function PlanWithClass(class_: JSON): JSON {
    var step := JObj(map["name" := JStr("detect"), "image" := JStr("detect:1"), "resource_class" := class_]);
    var svc := JObj(map["service_id" := JStr("s"), "priority" := JInt(50), "steps" := JArr([step])]);
    var event := JObj(map["event_type" := JStr("acquisition"), "instrument" := JStr("cam"), "services" := JArr([svc])]);
    JObj(map["mission_id" := JStr("m"), "events" := JArr([event])])
  }

  /** On such a plan the validator raises exactly when the value is a list or a mapping. */
  lemma OneListClassStopsTheValidator(class_: JSON)
    ensures Unreadable(PlanWithClass(class_)) <==> class_.JArr? || class_.JObj?
  {
    var plan := PlanWithClass(class_);
    UnreadableIsAStep(plan);
    OneStepOnly(class_);
    hide Unreadable, IsStep, StepAt;
    assert IsStep(plan, 0, 0, 0) && (Unhashable(StepAt(plan, 0, 0, 0)) <==> class_.JArr? || class_.JObj?);
  }

  lemma OneStepOnly(class_: JSON)
    ensures var plan := PlanWithClass(class_);
            && IsStep(plan, 0, 0, 0) && StepAt(plan, 0, 0, 0).JObj?
            && Member(StepAt(plan, 0, 0, 0), "resource_class") == class_
            && forall i: nat, j: nat, k: nat :: IsStep(plan, i, j, k) ==> i == 0 && j == 0 && k == 0
  {
    var plan := PlanWithClass(class_);
    var event := Member(plan, "events").items[0];
    var svc := Member(event, "services").items[0];
    assert Events(plan) == [event] && Services(event) == [svc] && |Steps(svc)| == 1;
  }

  lemma OneMoreStep(steps: seq<JSON>, k: nat, path: Pointer)
    requires k < |steps|
    ensures StepsFindings(steps[..k + 1], path)
         == StepsFindings(steps[..k], path) + StepFindings(steps[k], path + ["steps", Decimal(k)])
  {
    assert steps[..k + 1][..k] == steps[..k];
  }

  lemma OneMoreService(services: seq<JSON>, j: nat, path: Pointer)
    requires j < |services|
    ensures ServicesFindings(services[..j + 1], path)
         == ServicesFindings(services[..j], path) + ServiceFindings(services[j], path + ["services", Decimal(j)])
  {
    assert services[..j + 1][..j] == services[..j];
  }

  lemma OneMoreEvent(events: seq<JSON>, i: nat)
    requires i < |events|
    ensures EventsFindings(events[..i + 1]) == EventsFindings(events[..i]) + EventFindings(events[i], EventPath(i))
  {
    assert events[..i + 1][..i] == events[..i];
  }

  /** `violations`, its three loops one inside the other. It raises only where a step's class
      cannot be looked up in a set; otherwise it reports what the rules deny and nothing else. */
  method Violations(plan: JSON) returns (crash: bool, out: seq<Violation>)
    requires plan.JObj?
    ensures crash <==> Unreadable(plan)
    ensures !crash ==> out == Findings(plan)
  {
    hide EventFindings, Blank, ServiceUnreadable;
    out := [];
    var mid := Member(plan, "mission_id");
    if mid.JNull? || (mid.JStr? && Blank(mid.s)) {
      out := out + [Violation(Some(1), ["mission_id"])];
    }
    var events := Member(plan, "events");
    if events.JNull? {
      return false, out + [Violation(Some(2), ["events"])];
    }
    if !events.JArr? {
      return false, out + [Violation(STRUCTURAL, ["events"])];
    }
    if |events.items| == 0 {
      out := out + [Violation(Some(2), ["events"])];
    }
    assert out == PlanHeader(plan);
    for i := 0 to |events.items|
      invariant !EventUnreadable(plan, i)
      invariant out == PlanHeader(plan) + EventsFindings(events.items[..i])
    {
      OneMoreEvent(events.items, i);
      Associates(PlanHeader(plan), EventsFindings(events.items[..i]), EventFindings(events.items[i], EventPath(i)));
      crash, out := CheckEvent(events.items[i], EventPath(i), out);
      if crash {
        return;
      }
    }
    crash := false;
    assert events.items[..|events.items|] == events.items;
  }

  method CheckEvent(event: JSON, path: Pointer, before: seq<Violation>) returns (crash: bool, out: seq<Violation>)
    ensures crash <==> ServiceUnreadable(event, |Services(event)|)
    ensures !crash ==> out == before + EventFindings(event, path)
  {
    hide ServiceFindings, StepUnreadable, Decimal;
    out := before;
    crash := false;
    if !event.JObj? {
      return false, out + [Violation(STRUCTURAL, path)];
    }
    out := CheckEventItself(event, path, out);
    ghost var header := out;
    var services := Services(event);
    for j := 0 to |services|
      invariant !ServiceUnreadable(event, j)
      invariant out == header + ServicesFindings(services[..j], path)
    {
      var here := path + ["services", Decimal(j)];
      OneMoreService(services, j, path);
      Associates(header, ServicesFindings(services[..j], path), ServiceFindings(services[j], here));
      crash, out := CheckService(services[j], here, out);
      if crash {
        return;
      }
    }
    assert services[..|services|] == services;
    Associates(before, EventHeader(event, path), ServicesFindings(services, path));
  }

  /** What an event is denied for on its own account. */
  method CheckEventItself(event: JSON, path: Pointer, before: seq<Violation>) returns (out: seq<Violation>)
    requires event.JObj?
    ensures out == before + EventHeader(event, path)
  {
    hide When;
    out := before;
    var etype, malformed := Member(event, "event_type"), Malformed(Member(event, "services"));
    var services := Services(event);
    if malformed {
      out := out + [Violation(STRUCTURAL, path + ["services"])];
    }
    Adds(before, out, malformed, STRUCTURAL, path + ["services"]);
    ghost var one := out;
    if etype == JStr("acquisition") && !malformed && |services| == 0 {
      out := out + [Violation(Some(3), path + ["services"])];
    }
    Adds(one, out, AcquisitionWithoutService(event), Some(3), path + ["services"]);
    ghost var two := out;
    if etype == JStr("download") && !malformed && |services| > 0 {
      out := out + [Violation(Some(7), path)];
    }
    Adds(two, out, DownloadWithServices(event), Some(7), path);
    ghost var three := out;
    if etype == JStr("download") && Member(event, "ground_visibility") != JBool(true) {
      out := out + [Violation(Some(8), path)];
    }
    Adds(three, out, DownloadUnseen(event), Some(8), path);
  }

  /** One rule's finding appended, or nothing. */
  lemma Adds(before: seq<Violation>, after: seq<Violation>, found: bool, rule: Option<nat>, path: Pointer)
    requires after == if found then before + [Violation(rule, path)] else before
    ensures after == before + When(found, rule, path)
  {
  }

  lemma NonObjectHeader(svc: JSON, path: Pointer)
    requires !svc.JObj?
    ensures ServiceFindings(svc, path) == [Violation(STRUCTURAL, path)] && Steps(svc) == []
  {
  }

  method CheckService(svc: JSON, path: Pointer, before: seq<Violation>) returns (crash: bool, out: seq<Violation>)
    ensures crash <==> StepUnreadable(svc, |Steps(svc)|)
    ensures !crash ==> out == before + ServiceFindings(svc, path)
  {
    hide StepFindings, ServiceHeader, Decimal, Unhashable;
    out := before;
    crash := false;
    if !svc.JObj? {
      NonObjectHeader(svc, path);
      return false, out + [Violation(STRUCTURAL, path)];
    }
    out := CheckServiceItself(svc, path, out);
    ghost var header := out;
    var steps := Steps(svc);
    for k := 0 to |steps|
      invariant !StepUnreadable(svc, k)
      invariant out == header + StepsFindings(steps[..k], path)
    {
      var here := path + ["steps", Decimal(k)];
      OneMoreStep(steps, k, path);
      Associates(header, StepsFindings(steps[..k], path), StepFindings(steps[k], here));
      if Unhashable(steps[k]) {
        return true, out;
      }
      out := CheckStep(steps[k], here, out);
    }
    assert steps[..|steps|] == steps;
    Associates(before, ServiceHeader(svc, path), StepsFindings(steps, path));
  }

  predicate Recognized(landscape: string) {
    landscape in {"ocean", "land"}
  }

  lemma LandscapeCases(svc: JSON)
    requires svc.JObj?
    ensures var lt := Member(svc, "landscape_type");
            StrangeLandscape(svc) <==> (lt.JStr? && !Recognized(lt.s)) || (!lt.JNull? && !lt.JStr?)
  {
  }

  /** What a service is denied for on its own account. */
  method CheckServiceItself(svc: JSON, path: Pointer, before: seq<Violation>) returns (out: seq<Violation>)
    requires svc.JObj?
    ensures out == before + ServiceHeader(svc, path)
  {
    hide When, StrangeLandscape, Recognized, Zero;
    LandscapeCases(svc);
    out := before;
    var malformed, steps := Malformed(Member(svc, "steps")), Steps(svc);
    if malformed {
      out := out + [Violation(STRUCTURAL, path + ["steps"])];
    }
    Adds(before, out, malformed, STRUCTURAL, path + ["steps"]);
    ghost var one := out;
    var prio := Member(svc, "priority");
    if Zero(prio) {
      out := out + [Violation(Some(5), path)];
    }
    Adds(one, out, ZeroPriority(svc), Some(5), path);
    ghost var two := out;
    if !malformed && |steps| == 0 {
      out := out + [Violation(Some(9), path)];
    }
    Adds(two, out, NoSteps(svc), Some(9), path);
    ghost var three := out;
    var lt := Member(svc, "landscape_type");
    if lt.JStr? && !Recognized(lt.s) {
      out := out + [Violation(Some(10), path)];
    } else if !lt.JNull? && !lt.JStr? {
      out := out + [Violation(Some(10), path)];
    }
    Adds(three, out, StrangeLandscape(svc), Some(10), path);
  }

  method CheckStep(step: JSON, path: Pointer, before: seq<Violation>) returns (out: seq<Violation>)
    requires !Unhashable(step)
    ensures out == before + StepFindings(step, path)
  {
    out := before;
    if !step.JObj? {
      return out + [Violation(STRUCTURAL, path)];
    }
    var rc := Member(step, "resource_class");
    if rc in {JStr("gpu"), JStr("fpga")} {
      var fb := Member(step, "fallback_resource_class");
      if fb.JNull? {
        out := out + [Violation(Some(4), path)];
      } else if fb != JStr("cpu") {
        out := out + [Violation(Some(4), path)];
      }
    }
    if rc == JStr("cpu") && Member(step, "needs_acceleration") == JBool(true) {
      out := out + [Violation(Some(6), path)];
    }
  }

  /** `is_allowed`. */
  predicate Allowed(plan: JSON) {
    Findings(plan) == []
  }

  /** The text of a reported path tells it from every other. */
  lemma PathsReadBack(plan: JSON, v: Violation, w: Violation)
    requires v in Findings(plan) && w in Findings(plan) && Text(v.path) == Text(w.path)
    ensures v.path == w.path
  {
    FindingsArePlain(plan, v);
    FindingsArePlain(plan, w);
    TextReadsBack(v.path, w.path);
  }

  lemma PlainAppend(p: Pointer, key: string)
    requires Plain(p) && forall k :: 0 <= k < |key| ==> key[k] != '/' && key[k] != '~'
    ensures Plain(p + [key])
  {
  }

  lemma PlainElement(p: Pointer, key: string, i: nat)
    requires Plain(p) && key in {"events", "services", "steps"}
    ensures Plain(p + [key]) && Plain(p + [key, Decimal(i)])
  {
    assert forall k :: 0 <= k < |Decimal(i)| ==> IsDigit(Decimal(i)[k]);
    PlainAppend(p, key);
    PlainAppend(p + [key], Decimal(i));
    assert p + [key] + [Decimal(i)] == p + [key, Decimal(i)];
  }

  lemma FindingsArePlain(plan: JSON, v: Violation)
    requires v in Findings(plan)
    ensures Plain(v.path)
  {
    hide Plain, Resolve, EventPath, ServicePath, StepPath, EventHeader, ServiceHeader, StepFindings, Findings;
    var site := MadeAtOrBelowPlan(plan, v);
    match site {
      case AtPlan => RootsArePlain();
      case AtEvent(i) =>
        NodesArePlain(i, 0, 0);
        EventHeaderOnce(EventAt(plan, i), EventPath(i));
      case AtService(i, j) =>
        NodesArePlain(i, j, 0);
        ServiceHeaderOnce(ServiceAt(plan, i, j), ServicePath(i, j));
      case AtStep(i, j, k) =>
        NodesArePlain(i, j, k);
        StepFindingsOnce(StepAt(plan, i, j, k), StepPath(i, j, k));
    }
  }

  lemma RootsArePlain()
    ensures Plain(["mission_id"]) && Plain(["events"])
  {
  }

  lemma NodesArePlain(i: nat, j: nat, k: nat)
    ensures Plain(EventPath(i)) && Plain(EventPath(i) + ["services"])
    ensures Plain(ServicePath(i, j)) && Plain(ServicePath(i, j) + ["steps"])
    ensures Plain(StepPath(i, j, k))
  {
    PlainElement([], "events", i);
    assert [] + ["events", Decimal(i)] == EventPath(i);
    PlainElement(EventPath(i), "services", j);
    PathsExtend(i, j, k);
    PlainElement(ServicePath(i, j), "steps", k);
  }

  // ---------------------------------------------------------------- the rules on raw fields

  /** The rules about events, in the fields as they are written: an absent field and an explicit null
      are alike, and only the boolean `true` is visibility. */
  lemma EventRulesOnRawFields(event: map<string, JSON>)
    ensures AcquisitionWithoutService(JObj(event)) <==>
      && "event_type" in event && event["event_type"] == JStr("acquisition")
      && ("services" !in event || event["services"] == JNull || event["services"] == JArr([]))
    ensures DownloadWithServices(JObj(event)) <==>
      && "event_type" in event && event["event_type"] == JStr("download")
      && "services" in event && event["services"].JArr? && |event["services"].items| > 0
    ensures DownloadUnseen(JObj(event)) <==>
      && "event_type" in event && event["event_type"] == JStr("download")
      && !("ground_visibility" in event && event["ground_visibility"] == JBool(true))
  {
  }

  /** About services: zero is an integer or a real, never `false`. */
  lemma ServiceRulesOnRawFields(svc: map<string, JSON>)
    ensures ZeroPriority(JObj(svc)) <==>
      "priority" in svc && (svc["priority"] == JInt(0) || (svc["priority"].JReal? && svc["priority"].r == 0.0))
    ensures NoSteps(JObj(svc)) <==> "steps" !in svc || svc["steps"] == JNull || svc["steps"] == JArr([])
    ensures StrangeLandscape(JObj(svc)) <==>
      && "landscape_type" in svc && svc["landscape_type"] != JNull
      && !(svc["landscape_type"].JStr? && (svc["landscape_type"].s == "ocean" || svc["landscape_type"].s == "land"))
  {
  }

  /** About steps. */
  lemma StepRulesOnRawFields(step: map<string, JSON>)
    ensures NoUsableFallback(JObj(step)) <==>
      && "resource_class" in step && (step["resource_class"] == JStr("gpu") || step["resource_class"] == JStr("fpga"))
      && !("fallback_resource_class" in step && step["fallback_resource_class"] == JStr("cpu"))
    ensures IdleAcceleration(JObj(step)) <==>
      && "resource_class" in step && step["resource_class"] == JStr("cpu")
      && "needs_acceleration" in step && step["needs_acceleration"] == JBool(true)
    ensures Unhashable(JObj(step)) <==>
      "resource_class" in step && (step["resource_class"].JArr? || step["resource_class"].JObj?)
  {
  }

  /** And about the plan, and what is not a list where one is wanted. */
  lemma PlanRulesOnRawFields(plan: map<string, JSON>, key: string)
    ensures NoMission(JObj(plan)) <==>
      || "mission_id" !in plan || plan["mission_id"] == JNull
      || (plan["mission_id"].JStr? && forall i :: 0 <= i < |plan["mission_id"].s| ==> IsSpace(plan["mission_id"].s[i]))
    ensures NoEvents(JObj(plan)) <==> "events" !in plan || plan["events"] == JNull || plan["events"] == JArr([])
    ensures Malformed(Member(JObj(plan), key)) <==> key in plan && plan[key] != JNull && !plan[key].JArr?
  {
  }

  /** No rule speaks of what is not an object. */
  lemma RulesAreAboutObjects(v: JSON)
    requires !v.JObj?
    ensures !AcquisitionWithoutService(v) && !DownloadWithServices(v) && !DownloadUnseen(v)
    ensures !ZeroPriority(v) && !NoSteps(v) && !StrangeLandscape(v)
    ensures !NoUsableFallback(v) && !IdleAcceleration(v) && !Unhashable(v)
  {
  }
}
