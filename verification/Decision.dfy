/** Reading a policy engine's decision: an unreadable or contradictory one admits nothing. */
module Decision {
  import opened Wrappers
  import opened Json
  import opened Labels
  import opened Policy

  const STRUCTURAL_ID := "OMP-STRUCTURAL"

  /** `_RULE_META`: severity and provenance. */
  function Meta(rule: Option<nat>): (string, string) {
    match rule
    case None => ("T1", "A")
    case Some(r) =>
      if r in {1, 2} then ("T1", "A")
      else if r in {3, 10} then ("T4", "D")
      else if r in {4, 6} then ("T2", "A")
      else if r in {7, 8} then ("T3", "D")
      else ("T4", "A")
  }

  /** `OMP-004` for a numbered rule. */
  function RuleId(rule: Option<nat>): string {
    match rule
    case None => STRUCTURAL_ID
    case Some(r) => "OMP-" + (if r < 10 then "00" else if r < 100 then "0" else "") + Decimal(r)
  }

  // ---------------------------------------------------------------- the parser

  predicate IsText(v: JSON) {
    v.JStr? && v.s != ""
  }

  /** `_validate_typed_violation`: every field there and usable. */
  predicate Typed(item: JSON) {
    && item.JObj?
    && {"rule", "rule_id", "severity", "provenance", "path", "message"} <= item.fields.Keys
    && (item.fields["rule"].JNull? || item.fields["rule"].JInt?)
    && IsText(item.fields["rule_id"])
    && item.fields["severity"] in {JStr("T1"), JStr("T2"), JStr("T3"), JStr("T4")}
    && item.fields["provenance"] in {JStr("A"), JStr("D")}
    && item.fields["path"].JStr?
    && IsText(item.fields["message"])
  }

  predicate AllText(items: seq<JSON>) {
    forall i :: 0 <= i < |items| ==> items[i].JStr?
  }

  predicate AllTyped(items: seq<JSON>) {
    forall i :: 0 <= i < |items| ==> Typed(items[i])
  }

  function Messages(items: seq<JSON>): set<JSON>
    requires AllTyped(items)
  {
    set i | 0 <= i < |items| :: items[i].fields["message"]
  }

  function Distinct(items: seq<JSON>): set<JSON> {
    set i | 0 <= i < |items| :: items[i]
  }

  /** A plain deny message on the typed shape. */
  function Projected(message: JSON): JSON {
    JObj(map[
      "rule" := JNull, "rule_id" := JStr(STRUCTURAL_ID), "severity" := JStr("T1"),
      "provenance" := JStr("A"), "path" := JStr(""), "message" := message])
  }

  /** `typed_violations_from_decision`; `None` is the error that stops the gate. */
  function Parse(value: JSON): Option<seq<JSON>> {
    if !value.JObj? then None
    else
      var fields := value.fields;
      if "allow" in fields && !fields["allow"].JBool? then None
      else if "deny" in fields && !(fields["deny"].JArr? && AllText(fields["deny"].items)) then None
      else
        var found :=
          if "violations" in fields then FromViolations(fields)
          else if "deny" in fields then
            var deny := fields["deny"].items;
            Some(seq(|deny|, i requires 0 <= i < |deny| => Projected(deny[i])))
          else None;
        if found.None? then None
        else if "allow" in fields && fields["allow"].b == (found.value != []) then None
        else found
  }

  function FromViolations(fields: map<string, JSON>): Option<seq<JSON>>
    requires "violations" in fields
    requires "deny" in fields ==> fields["deny"].JArr?
  {
    var raw := fields["violations"];
    if !raw.JArr? || !AllTyped(raw.items) then None
    else if "deny" in fields && Distinct(fields["deny"].items) != Messages(raw.items) then None
    else Some(raw.items)
  }

  // ---------------------------------------------------------------- fail closed

  predicate AbsentOr(fields: map<string, JSON>, key: string, v: JSON) {
    key in fields ==> fields[key] == v
  }

  /** Nothing listed anywhere, at least one list to say so, and no `allow` that says otherwise. */
  predicate Admitting(value: JSON) {
    && value.JObj?
    && AbsentOr(value.fields, "allow", JBool(true))
    && AbsentOr(value.fields, "violations", JArr([])) && AbsentOr(value.fields, "deny", JArr([]))
    && ("violations" in value.fields || "deny" in value.fields)
  }

  /** The gate is opened by one kind of decision only. */
  lemma OnlyAnEmptyDecisionAdmits(value: JSON)
    ensures Parse(value) == Some([]) <==> Admitting(value)
  {
    if Admitting(value) {
      AdmittingIsParsed(value);
    }
    if Parse(value) == Some([]) && "violations" in value.fields && "deny" in value.fields {
      DistinctOfNothing(value.fields["deny"].items);
      assert Messages([]) == {};
    }
  }

  lemma AdmittingIsParsed(value: JSON)
    requires Admitting(value)
    ensures Parse(value) == Some([])
  {
    var fields := value.fields;
    if "violations" in fields {
      assert Distinct([]) == {} && Messages([]) == {};
      assert FromViolations(fields) == Some([]);
    } else {
      var deny := fields["deny"].items;
      assert seq(|deny|, i requires 0 <= i < |deny| => Projected(deny[i])) == [];
    }
  }

  lemma DistinctOfNothing(items: seq<JSON>)
    ensures Distinct(items) == {} <==> items == []
  {
    if items != [] {
      assert items[0] in Distinct(items);
    }
  }

  /** Whatever is returned, every field present agrees with it: `allow` with there being none,
      `deny` message for message. */
  lemma ParsedAgrees(value: JSON, vs: seq<JSON>)
    requires Parse(value) == Some(vs)
    ensures value.JObj?
    ensures "allow" in value.fields ==> value.fields["allow"] == JBool(vs == [])
    ensures "violations" in value.fields ==> value.fields["violations"] == JArr(vs) && AllTyped(vs)
    ensures "deny" in value.fields ==>
      value.fields["deny"].JArr? && forall m :: m in value.fields["deny"].items <==> Says(vs, m)
  {
    var fields := value.fields;
    if "deny" in fields {
      forall m
        ensures m in fields["deny"].items <==> Says(vs, m)
      {
        DenyIsTheMessages(fields, vs, m);
      }
    }
  }

  ghost predicate Says(vs: seq<JSON>, m: JSON) {
    exists i :: 0 <= i < |vs| && vs[i].JObj? && Get(vs[i].fields, "message") == m
  }

  lemma DenyIsTheMessages(fields: map<string, JSON>, vs: seq<JSON>, m: JSON)
    requires Parse(JObj(fields)) == Some(vs) && "deny" in fields
    ensures m in fields["deny"].items <==> Says(vs, m)
  {
    var deny := fields["deny"].items;
    assert m in deny <==> m in Distinct(deny);
    if "violations" in fields {
      assert Distinct(deny) == Messages(vs);
      assert m in Messages(vs) <==> Says(vs, m);
    } else {
      assert forall i :: 0 <= i < |vs| ==> vs[i] == Projected(deny[i]);
      if m in deny {
        var i :| 0 <= i < |deny| && deny[i] == m;
        assert Get(vs[i].fields, "message") == m;
      }
    }
  }

  // ---------------------------------------------------------------- round trip

  /** A violation as the engine reports it; `say` words it. */
  function Reported(plan: JSON, v: Violation, say: (JSON, Violation) -> string): JSON {
    JObj(map[
      "rule" := if v.rule.None? then JNull else JInt(v.rule.value),
      "rule_id" := JStr(RuleId(v.rule)),
      "severity" := JStr(Meta(v.rule).0),
      "provenance" := JStr(Meta(v.rule).1),
      "path" := JStr(Text(v.path)),
      "message" := JStr(say(plan, v))])
  }

  function Reports(plan: JSON, say: (JSON, Violation) -> string): (r: seq<JSON>)
    ensures |r| == |Findings(plan)|
    ensures forall i :: 0 <= i < |r| ==> r[i] == Reported(plan, Findings(plan)[i], say)
  {
    var vs := Findings(plan);
    seq(|vs|, i requires 0 <= i < |vs| => Reported(plan, vs[i], say))
  }

  /** `evaluate`. */
  function Evaluate(plan: JSON, say: (JSON, Violation) -> string): (r: seq<JSON>)
    ensures |r| == |Findings(plan)|
    ensures forall i :: 0 <= i < |r| ==> r[i] == JStr(say(plan, Findings(plan)[i]))
  {
    var vs := Findings(plan);
    seq(|vs|, i requires 0 <= i < |vs| => JStr(say(plan, vs[i])))
  }

  /** The decision the in-process engine amounts to: `is_allowed`, `evaluate` and `violations`. */
  function Decided(plan: JSON, say: (JSON, Violation) -> string): JSON {
    JObj(map[
      "allow" := JBool(Allowed(plan)),
      "deny" := JArr(Evaluate(plan, say)),
      "violations" := JArr(Reports(plan, say))])
  }

  lemma ReportedIsTyped(plan: JSON, v: Violation, say: (JSON, Violation) -> string)
    requires say(plan, v) != ""
    ensures Typed(Reported(plan, v, say)) && Reported(plan, v, say).fields["message"] == JStr(say(plan, v))
  {
  }

  /** A report tells its finding: the rule, by number and by name, where, how bad, and in what words. */
  lemma ReportsTell(plan: JSON, say: (JSON, Violation) -> string, i: nat)
    requires i < |Findings(plan)|
    ensures var (v, r) := (Findings(plan)[i], Reports(plan, say)[i]);
            && r.JObj?
            && Look(r.fields, "rule") == Some(match v.rule case None => JNull case Some(n) => JInt(n))
            && Look(r.fields, "rule_id") == Some(JStr(RuleId(v.rule)))
            && Look(r.fields, "severity") == Some(JStr(Meta(v.rule).0))
            && Look(r.fields, "provenance") == Some(JStr(Meta(v.rule).1))
            && Look(r.fields, "path") == Some(JStr(Text(v.path)))
            && Look(r.fields, "message") == Some(JStr(say(plan, v)))
  {
    hide Findings, Text, RuleId, Meta;
    ReportIs(plan, Findings(plan)[i], say);
  }

  lemma ReportIs(plan: JSON, v: Violation, say: (JSON, Violation) -> string)
    ensures var r := Reported(plan, v, say);
            && r.JObj?
            && Look(r.fields, "rule") == Some(match v.rule case None => JNull case Some(n) => JInt(n))
            && Look(r.fields, "rule_id") == Some(JStr(RuleId(v.rule)))
            && Look(r.fields, "severity") == Some(JStr(Meta(v.rule).0))
            && Look(r.fields, "provenance") == Some(JStr(Meta(v.rule).1))
            && Look(r.fields, "path") == Some(JStr(Text(v.path)))
            && Look(r.fields, "message") == Some(JStr(say(plan, v)))
  {
    hide Text, RuleId, Meta;
    assert |"rule"| == 4 && |"rule_id"| == 7 && |"severity"| == 8 && |"provenance"| == 10 && |"path"| == 4
        && |"message"| == 7 && "rule"[0] != "path"[0] && "rule_id"[0] != "message"[0];
  }

  /** So no two reports of a plan are alike, whatever words are used. */
  lemma ReportsDiffer(plan: JSON, say: (JSON, Violation) -> string, i: nat, j: nat)
    requires i < j < |Findings(plan)|
    ensures Reports(plan, say)[i] != Reports(plan, say)[j]
  {
    hide Findings, Text, RuleId, Meta, Reported;
    FindingsAreDistinct(plan);
    ReportsTell(plan, say, i);
    ReportsTell(plan, say, j);
    var v, w := Findings(plan)[i], Findings(plan)[j];
    if Reports(plan, say)[i] == Reports(plan, say)[j] {
      PathsReadBack(plan, v, w);
      assert false;
    }
  }

  /** Every plan's own decision is read back as its violations, none dropped and none altered. */
  lemma DecisionsReadBack(plan: JSON, say: (JSON, Violation) -> string)
    requires forall v :: v in Findings(plan) ==> say(plan, v) != ""
    ensures Parse(Decided(plan, say)) == Some(Reports(plan, say))
  {
    hide Findings, Reported;
    var vs, deny := Reports(plan, say), Evaluate(plan, say);
    forall i | 0 <= i < |vs|
      ensures Typed(vs[i]) && vs[i].fields["message"] == deny[i]
    {
      ReportedIsTyped(plan, Findings(plan)[i], say);
    }
    assert Distinct(deny) == Messages(vs);
    hide Typed, Reports, Evaluate;
    var fields := Decided(plan, say).fields;
    assert FromViolations(fields) == Some(vs);
    assert Allowed(plan) == (vs == []);
  }

  // ---------------------------------------------------------------- what is readable

  /** The table of severities and provenances, and the names of the rules. */
  lemma RulesAreLabelled()
    ensures Meta(None) == ("T1", "A") && Meta(Some(1)) == ("T1", "A") && Meta(Some(2)) == ("T1", "A")
    ensures Meta(Some(3)) == ("T4", "D") && Meta(Some(4)) == ("T2", "A") && Meta(Some(5)) == ("T4", "A")
    ensures Meta(Some(6)) == ("T2", "A") && Meta(Some(7)) == ("T3", "D") && Meta(Some(8)) == ("T3", "D")
    ensures Meta(Some(9)) == ("T4", "A") && Meta(Some(10)) == ("T4", "D")
    ensures RuleId(None) == "OMP-STRUCTURAL" && RuleId(Some(4)) == "OMP-004" && RuleId(Some(10)) == "OMP-010"
  {
    assert Decimal(4) == "4" && Decimal(10) == "10";
  }

  /** A violation is usable exactly if each of its six fields is there and of its kind. */
  lemma TypedMeans(fields: map<string, JSON>)
    ensures Typed(JObj(fields)) <==>
      && "rule" in fields && (fields["rule"].JNull? || fields["rule"].JInt?)
      && "rule_id" in fields && fields["rule_id"].JStr? && |fields["rule_id"].s| > 0
      && "severity" in fields && fields["severity"].JStr? && fields["severity"].s in {"T1", "T2", "T3", "T4"}
      && "provenance" in fields && fields["provenance"].JStr? && fields["provenance"].s in {"A", "D"}
      && "path" in fields && fields["path"].JStr?
      && "message" in fields && fields["message"].JStr? && |fields["message"].s| > 0
  {
  }

  /** The decision has the shape of one: what is there is of its kind, and something is listed. */
  predicate Shaped(fields: map<string, JSON>) {
    && ("allow" in fields ==> fields["allow"].JBool?)
    && ("deny" in fields ==>
          fields["deny"].JArr? && forall i :: 0 <= i < |fields["deny"].items| ==> fields["deny"].items[i].JStr?)
    && ("violations" in fields ==>
          && fields["violations"].JArr?
          && forall i :: 0 <= i < |fields["violations"].items| ==> Typed(fields["violations"].items[i]))
    && ("violations" in fields || "deny" in fields)
  }

  /** And it does not contradict itself: both lists say the same messages, and `allow` is there being
      none. */
  ghost predicate Consistent(fields: map<string, JSON>)
    requires Shaped(fields)
  {
    && ("violations" in fields && "deny" in fields ==>
          forall m :: m in fields["deny"].items <==> Says(fields["violations"].items, m))
    && ("allow" in fields ==>
          (fields["allow"].b <==>
             if "violations" in fields then fields["violations"].items == [] else fields["deny"].items == []))
  }

  /** A decision is read exactly if it is one and says one thing. */
  lemma ReadableIff(value: JSON)
    ensures Parse(value).Some? <==> value.JObj? && Shaped(value.fields) && Consistent(value.fields)
  {
    hide Typed, Projected;
    if value.JObj? && Shaped(value.fields) {
      var fields := value.fields;
      if "violations" in fields && "deny" in fields {
        MessagesAgreeIff(fields["deny"].items, fields["violations"].items);
      }
    }
  }

  lemma MessagesAgreeIff(deny: seq<JSON>, vs: seq<JSON>)
    requires AllTyped(vs)
    ensures Distinct(deny) == Messages(vs) <==> forall m :: m in deny <==> Says(vs, m)
  {
    forall m
      ensures m in Distinct(deny) <==> m in deny
      ensures m in Messages(vs) <==> Says(vs, m)
    {
      TypedHaveMessages(vs, m);
    }
  }

  lemma TypedHaveMessages(vs: seq<JSON>, m: JSON)
    requires AllTyped(vs)
    ensures m in Messages(vs) <==> Says(vs, m)
  {
    forall i | 0 <= i < |vs|
      ensures vs[i].JObj? && Get(vs[i].fields, "message") == vs[i].fields["message"]
    {
      assert Typed(vs[i]);
    }
  }

  /** A denial of plain messages is returned, message by message, each as a structural violation. */
  lemma DenialsAreReturned(fields: map<string, JSON>, messages: seq<string>)
    requires "violations" !in fields && "deny" in fields
    requires fields["deny"] == JArr(seq(|messages|, i requires 0 <= i < |messages| => JStr(messages[i])))
    requires "allow" in fields ==> fields["allow"] == JBool(|messages| == 0)
    ensures Parse(JObj(fields)).Some? && |Parse(JObj(fields)).value| == |messages|
    ensures forall i :: 0 <= i < |messages| ==>
      var v := Parse(JObj(fields)).value[i];
      && v.JObj? && Look(v.fields, "message") == Some(JStr(messages[i]))
      && Look(v.fields, "rule") == Some(JNull) && Look(v.fields, "rule_id") == Some(JStr("OMP-STRUCTURAL"))
      && Look(v.fields, "severity") == Some(JStr(Meta(STRUCTURAL).0))
      && Look(v.fields, "provenance") == Some(JStr(Meta(STRUCTURAL).1)) && Look(v.fields, "path") == Some(JStr(""))
      && (messages[i] != "" ==> Typed(v))
  {
  }
}
