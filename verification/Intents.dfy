/** Compiled intents: one for every service of every acquisition. */
module Intents {
  import opened Wrappers
  import opened Json
  import opened Labels
  import opened Names
  import opened Plans
  import opened Policy
  import opened Stages

  datatype Intent = Intent(
    missionId: string, serviceId: string, priority: int, workflowName: string, steps: seq<Step>,
    hints: map<string, JSON>)

  const REQUIRES_GPU := "requires_gpu"
  const REQUIRES_FPGA := "requires_fpga"
  const FALLBACK_ENABLED := "fallback_enabled"
  const EXECUTION_MODE := "execution_mode"

  /** `scale_priority_orchide`: the tier, 1 highest; `None` where it raises. */
  function Tier(priority: int): Option<nat> {
    if priority <= 0 || priority > 100 then None
    else if priority >= 76 then Some(1)
    else if priority >= 51 then Some(2)
    else if priority >= 26 then Some(3)
    else Some(4)
  }

  predicate Uses(steps: seq<Step>, c: ResourceClass) {
    exists i :: 0 <= i < |steps| && steps[i].class_ == c
  }

  predicate FallsBack(steps: seq<Step>) {
    exists i :: 0 <= i < |steps| && steps[i].fallback.Some?
  }

  /** What the steps say of the hints that describe them. */
  function Derived(steps: seq<Step>): map<string, JSON> {
    map[
      REQUIRES_GPU := JBool(Uses(steps, Gpu)), REQUIRES_FPGA := JBool(Uses(steps, Fpga)),
      FALLBACK_ENABLED := JBool(FallsBack(steps))]
  }

  /** No hint that describes the steps says otherwise; one that merely reads as true does. */
  predicate Agree(hints: map<string, JSON>, steps: seq<Step>) {
    forall k :: k in Derived(steps) && k in hints ==> hints[k] == Derived(steps)[k]
  }

  /** `_hints_describe_the_steps`: the missing hints are filled in, the given ones are held to. */
  method DescribeSteps(given: map<string, JSON>, steps: seq<Step>) returns (r: Option<map<string, JSON>>)
    ensures r.Some? <==> Agree(given, steps)
    ensures r.Some? ==> r.value == given + Derived(steps)
  {
    var derived := Derived(steps);
    var keys := [REQUIRES_GPU, REQUIRES_FPGA, FALLBACK_ENABLED];
    assert forall k :: k in derived <==> k in keys;
    var hints := given;
    hide Derived;
    for i := 0 to |keys|
      invariant forall k :: 0 <= k < i && keys[k] in given ==> given[keys[k]] == derived[keys[k]]
      invariant forall k :: k in given ==> k in hints && hints[k] == given[k]
      invariant forall k :: k in hints ==> k in given || k in keys[..i]
      invariant forall k :: 0 <= k < i ==> keys[k] in hints && hints[keys[k]] == derived[keys[k]]
    {
      var key := keys[i];
      assert keys[..i + 1] == keys[..i] + [key];
      if key !in hints {
        hints := hints[key := derived[key]];
      } else if hints[key] != derived[key] {
        assert key in given;
        return None;
      }
    }
    assert keys[..|keys|] == keys;
    SameLooksSameMap(hints, given + derived);
    r := Some(hints);
  }

  // ---------------------------------------------------------------- compilation

  type Occurrence = (Event, Service)

  /** The services of the acquisitions, in plan order. */
  function Occurrences(events: seq<Event>): seq<Occurrence> {
    if events == [] then []
    else
      var ev := events[|events| - 1];
      Occurrences(events[..|events| - 1]) + (if ev.kind.Acquisition? then OccurrencesIn(ev, ev.services) else [])
  }

  function OccurrencesIn(ev: Event, services: seq<Service>): (r: seq<Occurrence>)
    ensures |r| == |services| && forall j :: 0 <= j < |r| ==> r[j] == (ev, services[j])
  {
    seq(|services|, j requires 0 <= j < |services| => (ev, services[j]))
  }

  function CanonicalOf(missionId: string, o: Occurrence, digest: Digest): string {
    Canonical(missionId, o.1.serviceId, o.0.timestamp.text, digest)
  }

  function Canonicals(missionId: string, os: seq<Occurrence>, digest: Digest): (r: seq<string>)
    ensures |r| == |os| && forall k :: 0 <= k < |r| ==> r[k] == CanonicalOf(missionId, os[k], digest)
  {
    seq(|os|, k requires 0 <= k < |os| => CanonicalOf(missionId, os[k], digest))
  }

  /** The hints the compiler writes: the event, the service, and what the steps need. */
  function HintsFor(o: Occurrence): map<string, JSON> {
    var (ev, svc) := o;
    map[
      "event_timestamp" := JStr(ev.timestamp.text),
      "ground_visibility" := JBool(ev.visible),
      "region_type" := OrNull(ev.region, Plans.Text),
      "orbit" := OrNull(ev.orbit, n => JInt(n)),
      "duration_seconds" := OrNull(ev.duration, d => JReal(d)),
      "landscape_type" := OrNull(svc.landscape, Plans.Text),
      EXECUTION_MODE := JStr(ModeName(svc.mode)),
      REQUIRES_GPU := JBool(Uses(svc.steps, Gpu)),
      REQUIRES_FPGA := JBool(Uses(svc.steps, Fpga)),
      FALLBACK_ENABLED := JBool(FallsBack(svc.steps))]
  }

  function IntentFor(missionId: string, o: Occurrence, name: string): Intent {
    Intent(missionId, o.1.serviceId, o.1.priority, name, o.1.steps, HintsFor(o))
  }

  /** The intent model's own constraints. */
  predicate WellMade(i: Intent) {
    && !Blank(i.missionId) && !Blank(i.serviceId) && !Blank(i.workflowName)
    && 0 <= i.priority <= 100 && i.steps != [] && Agree(i.hints, i.steps)
  }

  ghost predicate Compiled(missionId: string, os: seq<Occurrence>, intents: seq<Intent>, digest: Digest) {
    && |intents| == |os|
    && forall k :: 0 <= k < |os| ==>
         intents[k] == IntentFor(missionId, os[k], Named(Canonicals(missionId, os, digest), digest)[k])
  }

  lemma LabelsAreNotBlank(name: string)
    requires Label(name)
    ensures !Blank(name)
  {
    assert LabelChar(name[0]) && !IsSpace(name[0]);
  }

  lemma HintsAgree(o: Occurrence)
    ensures Agree(HintsFor(o), o.1.steps) && HintsFor(o) + Derived(o.1.steps) == HintsFor(o)
  {
  }

  lemma OneMoreIntent(
    missionId: string, os: seq<Occurrence>, o: Occurrence, intents: seq<Intent>, name: string, digest: Digest)
    requires Compiled(missionId, os, intents, digest)
    requires Named(Canonicals(missionId, os, digest) + [CanonicalOf(missionId, o, digest)], digest)
          == Named(Canonicals(missionId, os, digest), digest) + [name]
    ensures Canonicals(missionId, os + [o], digest)
         == Canonicals(missionId, os, digest) + [CanonicalOf(missionId, o, digest)]
    ensures Compiled(missionId, os + [o], intents + [IntentFor(missionId, o, name)], digest)
  {
    hide IntentFor, CanonicalOf, Named;
    assert Canonicals(missionId, os + [o], digest)
        == Canonicals(missionId, os, digest) + [CanonicalOf(missionId, o, digest)];
  }

  /** What the loops have made of the occurrences so far. */
  ghost predicate Progress(
    missionId: string, os: seq<Occurrence>, intents: seq<Intent>, seen: seq<string>, digest: Digest)
  {
    && seen == Canonicals(missionId, os, digest)
    && Compiled(missionId, os, intents, digest)
    && forall k :: 0 <= k < |intents| ==> WellMade(intents[k])
  }

  /** What the schema of an intent asks of the service it is made from. */
  predicate Compiles(missionId: string, svc: Service) {
    !Blank(missionId) && !Blank(svc.serviceId) && 0 <= svc.priority <= 100 && |svc.steps| > 0
  }

  /** One service of one acquisition; `None` exactly where the intent it would be is refused. */
  method CompileService(missionId: string, ev: Event, svc: Service, namer: Namer) returns (r: Option<Intent>)
    requires namer.Valid()
    modifies namer
    ensures namer.Valid()
    ensures namer.seen == old(namer.seen) + [CanonicalOf(missionId, (ev, svc), namer.digest)]
    ensures r.Some? ==> WellMade(r.value) && r.value == IntentFor(missionId, (ev, svc), r.value.workflowName)
    ensures r.Some? ==>
      Named(namer.seen, namer.digest) == Named(old(namer.seen), namer.digest) + [r.value.workflowName]
    ensures r.Some? <==> Compiles(missionId, svc)
  {
    hide Named, Resistant, Label, Fixed, HintsFor, Agree, Uses, FallsBack;
    HintsAgree((ev, svc));
    var name := namer.Name(missionId, svc.serviceId, ev.timestamp.text);
    CanonicalIsFixed(missionId, svc.serviceId, ev.timestamp.text, namer.digest);
    LastNameIsALabel(namer.seen, namer.digest);
    LabelsAreNotBlank(name);
    var intent := IntentFor(missionId, (ev, svc), name);
    var hints := DescribeSteps(intent.hints, intent.steps);
    if hints.None? || !WellMade(intent) {
      return None;
    }
    r := Some(intent.(hints := hints.value));
  }

  lemma NothingCompiled(missionId: string, events: seq<Event>, digest: Digest)
    ensures Progress(missionId, [], [], [], digest) && Occurrences(events[..0]) == []
  {
  }

  lemma OneMoreEventIn(events: seq<Event>, i: nat)
    requires i < |events|
    ensures var ev := events[i];
            Occurrences(events[..i + 1])
            == Occurrences(events[..i]) + (if ev.kind.Acquisition? then OccurrencesIn(ev, ev.services) else [])
  {
    assert events[..i + 1][..i] == events[..i];
  }

  lemma OneMoreServiceIn(before: seq<Occurrence>, ev: Event, j: nat)
    requires j < |ev.services|
    ensures before + OccurrencesIn(ev, ev.services[..j + 1])
         == before + OccurrencesIn(ev, ev.services[..j]) + [(ev, ev.services[j])]
  {
    assert OccurrencesIn(ev, ev.services[..j + 1]) == OccurrencesIn(ev, ev.services[..j]) + [(ev, ev.services[j])];
  }

  lemma Finished(missionId: string, os: seq<Occurrence>, intents: seq<Intent>, seen: seq<string>, digest: Digest)
    requires Progress(missionId, os, intents, seen, digest)
    ensures Compiled(missionId, os, intents, digest) && forall k :: 0 <= k < |intents| ==> WellMade(intents[k])
  {
  }

  lemma Progressed(
    missionId: string, os: seq<Occurrence>, o: Occurrence, intents: seq<Intent>, intent: Intent,
    seen: seq<string>, digest: Digest)
    requires Progress(missionId, os, intents, seen, digest)
    requires WellMade(intent) && intent == IntentFor(missionId, o, intent.workflowName)
    requires Named(seen + [CanonicalOf(missionId, o, digest)], digest) == Named(seen, digest) + [intent.workflowName]
    ensures Progress(missionId, os + [o], intents + [intent], seen + [CanonicalOf(missionId, o, digest)], digest)
  {
    hide WellMade, IntentFor, CanonicalOf, Named, Compiled, Canonicals;
    OneMoreIntent(missionId, os, o, intents, intent.workflowName, digest);
  }

  predicate EventCompiles(missionId: string, ev: Event) {
    ev.kind.Acquisition? ==> forall j :: 0 <= j < |ev.services| ==> Compiles(missionId, ev.services[j])
  }

  lemma ValidCompiles(plan: Plan)
    ensures Valid(plan) ==> forall i :: 0 <= i < |plan.events| ==> EventCompiles(plan.missionId, plan.events[i])
  {
    hide Blank;
  }

  /** `compile_plan_to_intents`; `None` where building an intent raises. */
  method CompilePlan(plan: Plan, digest: Digest) returns (r: Option<seq<Intent>>)
    ensures r.Some? ==> Compiled(plan.missionId, Occurrences(plan.events), r.value, digest)
    ensures r.Some? ==> forall k :: 0 <= k < |r.value| ==> WellMade(r.value[k])
    ensures r.Some? <==> forall i :: 0 <= i < |plan.events| ==> EventCompiles(plan.missionId, plan.events[i])
    ensures Valid(plan) ==> r.Some?
  {
    ValidCompiles(plan);
    hide Progress, WellMade, Named, Compiled, Compiles, Valid, Occurrences;
    var namer := new Namer(digest);
    var intents: seq<Intent> := [];
    ghost var os: seq<Occurrence> := [];
    NothingCompiled(plan.missionId, plan.events, digest);
    for i := 0 to |plan.events|
      invariant namer.Valid() && namer.digest == digest && fresh(namer)
      invariant os == Occurrences(plan.events[..i])
      invariant forall k :: 0 <= k < i ==> EventCompiles(plan.missionId, plan.events[k])
      invariant Progress(plan.missionId, os, intents, namer.seen, digest)
    {
      var ev := plan.events[i];
      OneMoreEventIn(plan.events, i);
      if !ev.kind.Acquisition? {
        continue;
      }
      ghost var before := os;
      for j := 0 to |ev.services|
        invariant namer.Valid() && namer.digest == digest && fresh(namer)
        invariant os == before + OccurrencesIn(ev, ev.services[..j])
        invariant forall m :: 0 <= m < j ==> Compiles(plan.missionId, ev.services[m])
        invariant Progress(plan.missionId, os, intents, namer.seen, digest)
      {
        ghost var seen := namer.seen;
        var intent := CompileService(plan.missionId, ev, ev.services[j], namer);
        if intent.None? {
          return None;
        }
        OneMoreServiceIn(before, ev, j);
        Progressed(plan.missionId, os, (ev, ev.services[j]), intents, intent.value, seen, digest);
        intents := intents + [intent.value];
        os := os + [(ev, ev.services[j])];
      }
      assert ev.services[..|ev.services|] == ev.services;
    }
    assert plan.events[..|plan.events|] == plan.events;
    Finished(plan.missionId, os, intents, namer.seen, digest);
    r := Some(intents);
  }

  // ---------------------------------------------------------------- stages in a row

  lemma {:induction false} OccurrencesArePlanned(events: seq<Event>, o: Occurrence)
    requires o in Occurrences(events)
    ensures o.0 in events && o.0.kind.Acquisition? && o.1 in o.0.services
    decreases |events|
  {
    var n := |events| - 1;
    if o in Occurrences(events[..n]) {
      OccurrencesArePlanned(events[..n], o);
    } else {
      assert events[n] in events;
    }
  }

  /** Nothing a renderer asks of an intent is missing, and no GPU step is without a way to run on
      a CPU. */
  predicate Ready(i: Intent) {
    && WellMade(i) && Tier(i.priority).Some?
    && EXECUTION_MODE in i.hints && i.hints[EXECUTION_MODE] in {JStr("sequential"), JStr("parallel")}
    && forall k :: 0 <= k < |i.steps| && i.steps[k].class_.Gpu? ==> i.steps[k].fallback == Some(Cpu)
  }

  lemma OccurrenceIsReady(missionId: string, o: Occurrence, name: string)
    requires CleanService(o.1) && ValidService(o.1)
    requires WellMade(IntentFor(missionId, o, name))
    ensures Ready(IntentFor(missionId, o, name))
  {
    assert forall k :: 0 <= k < |o.1.steps| ==> CleanStep(o.1.steps[k]);
  }

  /** Schema, policy, compiler: a plan the first two passed compiles to intents on which the
      priority scale, the choice of a primary step, the hint check and the execution mode all have
      an answer. */
  lemma StagesCompose(plan: Plan, intents: seq<Intent>, digest: Digest, k: nat)
    requires Valid(plan) && Allowed(Dump(plan))
    requires Compiled(plan.missionId, Occurrences(plan.events), intents, digest) && k < |intents|
    requires WellMade(intents[k])
    ensures Ready(intents[k])
  {
    hide Dump, Allowed, Named, Ready, WellMade, ValidService, CleanService;
    var o := Occurrences(plan.events)[k];
    OccurrencesArePlanned(plan.events, o);
    AllowedIsClean(plan);
    assert ValidEvent(o.0) && CleanEvent(o.0);
    OccurrenceIsReady(plan.missionId, o, intents[k].workflowName);
  }
}
