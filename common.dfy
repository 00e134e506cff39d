/**
 * The finding normaliser shared by every demo: the expected-result taxonomy,
 * the classification of one finding, and the extraction of all findings from
 * an ApplyGuardrail response (`assessments`) or a Converse response
 * (`trace.guardrail.outputAssessments`).
 */
module Common {
  import opened Wrappers
  import opened JsonValues

  /** The expected result of a test case; `Value` is the enum's string value. */
  datatype TestResult = ExpectValid | ExpectInvalid | ExpectSatisfiable {
    function Value(): string {
      match this
      case ExpectValid => "VALID"
      case ExpectInvalid => "INVALID"
      case ExpectSatisfiable => "SATISFIABLE"
    }
  }

  /** The ValueError raised when a string names no TestResult member. */
  datatype ConfigError = NotATestResult(value: string)

  /** `TestResult(s)`: only the three member values are accepted. */
  function ParseTestResult(s: string): (r: Result<TestResult, ConfigError>)
    ensures r.Ok? <==> s == "VALID" || s == "INVALID" || s == "SATISFIABLE"
    ensures r.Ok? ==> r.value.Value() == s
    ensures r.Err? ==> r.error == NotATestResult(s)
  {
    if s == "VALID" then Ok(ExpectValid)
    else if s == "INVALID" then Ok(ExpectInvalid)
    else if s == "SATISFIABLE" then Ok(ExpectSatisfiable)
    else Err(NotATestResult(s))
  }

  /** Every member's value converts back to that member. */
  lemma ParseTestResultRoundTrip(t: TestResult)
    ensures ParseTestResult(t.Value()) == Ok(t)
  {
  }

  /** The result category the normaliser gives a finding. */
  datatype Verdict = Satisfiable | Valid | Invalid | Ambiguous {
    function Name(): string {
      match this
      case Satisfiable => "SATISFIABLE"
      case Valid => "VALID"
      case Invalid => "INVALID"
      case Ambiguous => "AMBIGUOUS"
    }
  }

  /** The `result` string of a normalised finding (None when unclassified). */
  function ResultName(v: Option<Verdict>): Option<string> {
    match v
    case Some(c) => Some(c.Name())
    case None => None
  }

  /** A normalised finding: its category, the payload it came from, its rules. */
  datatype Finding = Finding(result: Option<Verdict>, finding: Json, rules: seq<Json>)

  /** The TypeError, AttributeError or KeyError Python raises on a mistyped payload. */
  datatype ShapeError = Malformed

  /**
   * The category of a finding payload, chosen by key presence alone in the
   * fixed order satisfiable, valid, invalid, translationAmbiguous.
   */
  function Classify(payload: Fields): (r: Option<Verdict>)
    ensures r == Some(Satisfiable) <==> HasKey(payload, "satisfiable")
    ensures r == Some(Valid) <==> !HasKey(payload, "satisfiable") && HasKey(payload, "valid")
    ensures r == Some(Invalid) <==>
      !HasKey(payload, "satisfiable") && !HasKey(payload, "valid") && HasKey(payload, "invalid")
    ensures r == Some(Ambiguous) <==>
      !HasKey(payload, "satisfiable") && !HasKey(payload, "valid") && !HasKey(payload, "invalid")
      && HasKey(payload, "translationAmbiguous")
    ensures r == None <==>
      !HasKey(payload, "satisfiable") && !HasKey(payload, "valid") && !HasKey(payload, "invalid")
      && !HasKey(payload, "translationAmbiguous")
  {
    if HasKey(payload, "satisfiable") then Some(Satisfiable)
    else if HasKey(payload, "valid") then Some(Valid)
    else if HasKey(payload, "invalid") then Some(Invalid)
    else if HasKey(payload, "translationAmbiguous") then Some(Ambiguous)
    else None
  }

  /** `finding.get(key, [])` read as a list of rule references. */
  function RuleList(payload: Fields, key: string): Result<seq<Json>, ShapeError> {
    match GetOr(payload, key, Arr([]))
    case Arr(rules) => Ok(rules)
    case _ => Err(Malformed)
  }

  /**
   * `_parse_finding`: the category, the payload itself, and the supporting
   * rules followed by the contradicting rules (a missing list is empty).
   * A payload that is not an object, or whose rule lists are not lists, raises.
   */
  function ParseFinding(payload: Json): (r: Result<Finding, ShapeError>)
    ensures r.Ok? <==>
      payload.Obj? && RuleList(payload.fields, "supportingRules").Ok?
      && RuleList(payload.fields, "contradictingRules").Ok?
    ensures r.Ok? ==>
      && r.value.finding == payload
      && r.value.result == Classify(payload.fields)
      && r.value.rules
         == RuleList(payload.fields, "supportingRules").value
            + RuleList(payload.fields, "contradictingRules").value
  {
    if !payload.Obj? then Err(Malformed)
    else
      match (RuleList(payload.fields, "supportingRules"), RuleList(payload.fields, "contradictingRules"))
      case (Ok(supporting), Ok(contradicting)) =>
        Ok(Finding(Classify(payload.fields), payload, supporting + contradicting))
      case _ => Err(Malformed)
  }

  /**
   * Runs `f` over `xs` in order and concatenates what it yields; the first
   * element on which `f` raises makes the whole raise. This is the shape of
   * every `for ... in ...: findings.append(...)` loop of the normaliser.
   */
  function Collect<A>(xs: seq<A>, f: A -> Result<seq<Finding>, ShapeError>): Result<seq<Finding>, ShapeError>
    decreases |xs|
  {
    if xs == [] then Ok([])
    else
      match Collect(xs[..|xs| - 1], f)
      case Err(e) => Err(e)
      case Ok(acc) =>
        match f(xs[|xs| - 1])
        case Err(e) => Err(e)
        case Ok(ys) => Ok(acc + ys)
  }

  /** `prefix` followed by what `r` yields, or the error `r` raised. */
  function Prepended(prefix: seq<Finding>, r: Result<seq<Finding>, ShapeError>): Result<seq<Finding>, ShapeError> {
    match r
    case Ok(ys) => Ok(prefix + ys)
    case Err(e) => Err(e)
  }

  /** One parsed finding, as a one-element list. */
  function ParseOne(payload: Json): Result<seq<Finding>, ShapeError> {
    match ParseFinding(payload)
    case Ok(x) => Ok([x])
    case Err(e) => Err(e)
  }

  /**
   * The findings one assessment contributes: none unless it has
   * `automatedReasoningPolicy`, else each of that policy's `findings`, parsed.
   */
  function PolicyFindings(assessment: Json): Result<seq<Finding>, ShapeError> {
    match Contains(assessment, "automatedReasoningPolicy")
    case None => Err(Malformed)
    case Some(false) => Ok([])
    case Some(true) =>
      if !assessment.Obj? then Err(Malformed)
      else
        match Get(assessment.fields, "automatedReasoningPolicy")
        case Obj(policy) =>
          (match Elements(GetOr(policy, "findings", Arr([])))
           case Some(payloads) => Collect(payloads, ParseOne)
           case None => Err(Malformed))
        case _ => Err(Malformed)
  }

  /** The findings of one `outputAssessments` entry: its list of assessments. */
  function GroupFindings(group: (string, Json)): Result<seq<Finding>, ShapeError> {
    match Elements(group.1)
    case Some(assessments) => Collect(assessments, PolicyFindings)
    case None => Err(Malformed)
  }

  /**
   * `extract_automated_reasoning_results`: the direct shape when the response
   * has `assessments` (even an empty list), otherwise the trace shape when
   * `trace`, `guardrail` and `outputAssessments` are all present, otherwise
   * no findings.
   */
  function Extract(response: Fields): Result<seq<Finding>, ShapeError> {
    if HasKey(response, "assessments") then
      match Elements(Get(response, "assessments"))
      case Some(assessments) => Collect(assessments, PolicyFindings)
      case None => Err(Malformed)
    else if HasKey(response, "trace") then TraceFindings(Get(response, "trace"))
    else Ok([])
  }

  /** The trace branch: `trace.guardrail.outputAssessments`, each entry in map order. */
  function TraceFindings(trace: Json): Result<seq<Finding>, ShapeError> {
    match Contains(trace, "guardrail")
    case None => Err(Malformed)
    case Some(false) => Ok([])
    case Some(true) =>
      if !trace.Obj? then Err(Malformed)
      else
        var guardrail := Get(trace.fields, "guardrail");
        match Contains(guardrail, "outputAssessments")
        case None => Err(Malformed)
        case Some(false) => Ok([])
        case Some(true) =>
          if !guardrail.Obj? then Err(Malformed)
          else
            match Get(guardrail.fields, "outputAssessments")
            case Obj(groups) => Collect(groups, GroupFindings)
            case _ => Err(Malformed)
  }

  // ---------------------------------------------------------------------
  // The imperative normaliser

  /**
   * The inner loop of the normaliser for one assessment: appends the parsed
   * findings of its policy to `findings`.
   */
  method AppendPolicyFindings(assessment: Json, findings: seq<Finding>) returns (r: Result<seq<Finding>, ShapeError>)
    ensures r == Prepended(findings, PolicyFindings(assessment))
  {
    var present := Contains(assessment, "automatedReasoningPolicy");
    if present.None? {
      return Err(Malformed);
    }
    if !present.value {
      assert findings + [] == findings;
      return Ok(findings);
    }
    if !assessment.Obj? {
      return Err(Malformed);
    }
    var policy := Get(assessment.fields, "automatedReasoningPolicy");
    if !policy.Obj? {
      return Err(Malformed);
    }
    var listed := Elements(GetOr(policy.fields, "findings", Arr([])));
    if listed.None? {
      return Err(Malformed);
    }
    var payloads := listed.value;
    var acc := findings;
    var j := 0;
    while j < |payloads|
      invariant 0 <= j <= |payloads|
      invariant Collect(payloads[..j], ParseOne).Ok?
      invariant acc == findings + Collect(payloads[..j], ParseOne).value
    {
      var parsed := ParseFinding(payloads[j]);
      if parsed.Err? {
        CollectFailsAt(payloads, ParseOne, j);
        return Err(Malformed);
      }
      CollectStep(payloads, ParseOne, j);
      ghost var done := Collect(payloads[..j], ParseOne).value;
      AppendAssoc(findings, done, [parsed.value]);
      acc := acc + [parsed.value];
      j := j + 1;
    }
    assert payloads[..j] == payloads;
    return Ok(acc);
  }

  /** The loop over a list of assessments: appends each one's policy findings to `findings`. */
  method AppendAssessments(assessments: seq<Json>, findings: seq<Finding>) returns (r: Result<seq<Finding>, ShapeError>)
    ensures r == Prepended(findings, Collect(assessments, PolicyFindings))
  {
    var acc := findings;
    var i := 0;
    assert findings + [] == findings;
    while i < |assessments|
      invariant 0 <= i <= |assessments|
      invariant Collect(assessments[..i], PolicyFindings).Ok?
      invariant acc == findings + Collect(assessments[..i], PolicyFindings).value
    {
      var next := AppendPolicyFindings(assessments[i], acc);
      if next.Err? {
        CollectFailsAt(assessments, PolicyFindings, i);
        return Err(Malformed);
      }
      CollectStep(assessments, PolicyFindings, i);
      ghost var done := Collect(assessments[..i], PolicyFindings).value;
      ghost var added := PolicyFindings(assessments[i]).value;
      AppendAssoc(findings, done, added);
      acc := next.value;
      i := i + 1;
    }
    assert assessments[..i] == assessments;
    return Ok(acc);
  }

  /** The trace branch as written: the loop over the `outputAssessments` values. */
  method AppendTraceFindings(trace: Json, findings: seq<Finding>) returns (r: Result<seq<Finding>, ShapeError>)
    ensures r == Prepended(findings, TraceFindings(trace))
  {
    var hasGuardrail := Contains(trace, "guardrail");
    if hasGuardrail.None? {
      return Err(Malformed);
    }
    if !hasGuardrail.value {
      assert findings + [] == findings;
      return Ok(findings);
    }
    if !trace.Obj? {
      return Err(Malformed);
    }
    var guardrail := Get(trace.fields, "guardrail");
    var hasOutput := Contains(guardrail, "outputAssessments");
    if hasOutput.None? {
      return Err(Malformed);
    }
    if !hasOutput.value {
      assert findings + [] == findings;
      return Ok(findings);
    }
    if !guardrail.Obj? {
      return Err(Malformed);
    }
    var outputAssessments := Get(guardrail.fields, "outputAssessments");
    if !outputAssessments.Obj? {
      return Err(Malformed);
    }
    var groups := outputAssessments.fields;
    var acc := findings;
    var g := 0;
    assert findings + [] == findings;
    while g < |groups|
      invariant 0 <= g <= |groups|
      invariant Collect(groups[..g], GroupFindings).Ok?
      invariant acc == findings + Collect(groups[..g], GroupFindings).value
    {
      var listed := Elements(groups[g].1);
      if listed.None? {
        CollectFailsAt(groups, GroupFindings, g);
        return Err(Malformed);
      }
      var next := AppendAssessments(listed.value, acc);
      if next.Err? {
        CollectFailsAt(groups, GroupFindings, g);
        return Err(Malformed);
      }
      CollectStep(groups, GroupFindings, g);
      ghost var done := Collect(groups[..g], GroupFindings).value;
      ghost var added := GroupFindings(groups[g]).value;
      AppendAssoc(findings, done, added);
      acc := next.value;
      g := g + 1;
    }
    assert groups[..g] == groups;
    return Ok(acc);
  }

  /**
   * `extract_automated_reasoning_results` as written: nested loops that
   * append to a local list, starting from the empty list.
   */
  method ExtractAutomatedReasoningResults(response: Fields) returns (r: Result<seq<Finding>, ShapeError>)
    ensures r == Extract(response)
  {
    EmptyPrefix(Extract(response));
    var findings: seq<Finding> := [];
    if HasKey(response, "assessments") {
      var listed := Elements(Get(response, "assessments"));
      if listed.None? {
        return Err(Malformed);
      }
      r := AppendAssessments(listed.value, findings);
    } else if HasKey(response, "trace") {
      r := AppendTraceFindings(Get(response, "trace"), findings);
    } else {
      r := Ok(findings);
    }
  }

  /** Concatenation of findings is associative. */
  lemma AppendAssoc(a: seq<Finding>, b: seq<Finding>, c: seq<Finding>)
    ensures a + (b + c) == (a + b) + c
  {
  }

  /** Prepending nothing leaves a collection unchanged. */
  lemma EmptyPrefix(r: Result<seq<Finding>, ShapeError>)
    ensures Prepended([], r) == r
  {
    match r
    case Ok(ys) => assert [] + ys == ys;
    case Err(e) =>
  }

  // ---------------------------------------------------------------------
  // Properties of the normaliser

  /** Collect succeeds exactly when `f` succeeds on every element. */
  lemma {:induction false} CollectOk<A>(xs: seq<A>, f: A -> Result<seq<Finding>, ShapeError>)
    ensures Collect(xs, f).Ok? <==> forall i :: 0 <= i < |xs| ==> f(xs[i]).Ok?
    decreases |xs|
  {
    if xs != [] {
      var init := xs[..|xs| - 1];
      CollectOk(init, f);
      assert forall i :: 0 <= i < |init| ==> init[i] == xs[i];
    }
  }

  /** An element on which `f` raises makes the whole collection raise. */
  lemma CollectFailsAt<A>(xs: seq<A>, f: A -> Result<seq<Finding>, ShapeError>, i: nat)
    requires i < |xs| && f(xs[i]).Err?
    ensures Collect(xs, f) == Err(Malformed)
  {
    CollectOk(xs, f);
    match Collect(xs, f).error
    case Malformed =>
  }

  /** One more element: what the prefix collected, then what `f` yields on the element. */
  lemma CollectStep<A>(xs: seq<A>, f: A -> Result<seq<Finding>, ShapeError>, i: nat)
    requires i < |xs|
    ensures Collect(xs[..i + 1], f) ==
      match Collect(xs[..i], f)
      case Err(e) => Err(e)
      case Ok(a) => Prepended(a, f(xs[i]))
  {
    assert xs[..i + 1][..i] == xs[..i];
  }

  /** Collecting a single element yields what `f` yields on it. */
  lemma CollectOne<A>(x: A, f: A -> Result<seq<Finding>, ShapeError>)
    ensures Collect([x], f) == f(x)
  {
    assert [x][..0] == [];
    EmptyPrefix(f(x));
  }

  /** Collecting two elements yields what `f` yields on each, in order. */
  lemma CollectTwo<A>(x: A, y: A, f: A -> Result<seq<Finding>, ShapeError>)
    ensures Collect([x, y], f) ==
      match f(x)
      case Err(e) => Err(e)
      case Ok(a) => Prepended(a, f(y))
  {
    assert [x, y][..1] == [x];
    CollectOne(x, f);
  }

  /** Collecting over a concatenation concatenates the two collections. */
  lemma {:induction false} CollectAppend<A>(xs: seq<A>, ys: seq<A>, f: A -> Result<seq<Finding>, ShapeError>)
    ensures Collect(xs + ys, f) ==
      match Collect(xs, f)
      case Err(e) => Err(e)
      case Ok(a) => Prepended(a, Collect(ys, f))
    decreases |ys|
  {
    if ys == [] {
      assert xs + ys == xs;
      match Collect(xs, f)
      case Err(e) =>
      case Ok(a) => assert a + [] == a;
    } else {
      var init := ys[..|ys| - 1];
      assert (xs + ys)[..|xs + ys| - 1] == xs + init;
      assert (xs + ys)[|xs + ys| - 1] == ys[|ys| - 1];
      CollectAppend(xs, init, f);
      match Collect(xs, f)
      case Err(e) =>
      case Ok(a) =>
        match Collect(init, f)
        case Err(e) =>
        case Ok(b) =>
          match f(ys[|ys| - 1])
          case Err(e) =>
          case Ok(c) => assert a + b + c == a + (b + c);
    }
  }

  /** The payloads of a list of normalised findings. */
  function Payloads(fs: seq<Finding>): (ps: seq<Json>)
    ensures |ps| == |fs|
    ensures forall i :: 0 <= i < |fs| ==> ps[i] == fs[i].finding
  {
    seq(|fs|, i requires 0 <= i < |fs| => fs[i].finding)
  }

  /**
   * Parsing a list of payloads keeps every payload, unchanged and in order,
   * one finding per payload.
   */
  lemma ParsedPayloadsInOrder(payloads: seq<Json>)
    requires Collect(payloads, ParseOne).Ok?
    ensures Payloads(Collect(payloads, ParseOne).value) == payloads
  {
    forall x | ParseOne(x).Ok? ensures Payloads(ParseOne(x).value) == [x] {
    }
    CollectKeepsPayloads(payloads, ParseOne);
  }

  /** Collecting with a parser that keeps each payload as its one finding keeps them all, in order. */
  lemma {:induction false} CollectKeepsPayloads(payloads: seq<Json>, f: Json -> Result<seq<Finding>, ShapeError>)
    requires forall x :: f(x).Ok? ==> Payloads(f(x).value) == [x]
    requires Collect(payloads, f).Ok?
    ensures Payloads(Collect(payloads, f).value) == payloads
    decreases |payloads|
  {
    if payloads != [] {
      var n := |payloads| - 1;
      var init := payloads[..n];
      assert Collect(init, f).Ok?;
      CollectKeepsPayloads(init, f);
      var a := Collect(init, f).value;
      PayloadsAppend(a, f(payloads[n]).value);
      assert payloads == init + [payloads[n]];
    }
  }

  /** The raw finding payloads one assessment holds (none without a policy). */
  function RawPolicyFindings(assessment: Json): seq<Json> {
    if assessment.Obj? && HasKey(assessment.fields, "automatedReasoningPolicy") then
      match Get(assessment.fields, "automatedReasoningPolicy")
      case Obj(policy) =>
        (match GetOr(policy, "findings", Arr([]))
         case Arr(payloads) => payloads
         case _ => [])
      case _ => []
    else []
  }

  /** The raw finding payloads of a list of assessments, in assessment order. */
  function RawFindings(assessments: seq<Json>): seq<Json>
    decreases |assessments|
  {
    if assessments == [] then []
    else RawFindings(assessments[..|assessments| - 1]) + RawPolicyFindings(assessments[|assessments| - 1])
  }

  /**
   * The direct shape: when every assessment is an object, every policy an
   * object and every findings value a list, the normalised findings carry
   * exactly the raw finding payloads, in assessment order and then in list
   * order; assessments without a policy contribute nothing.
   */
  lemma {:induction false} DirectFindingsInOrder(assessments: seq<Json>)
    requires Collect(assessments, PolicyFindings).Ok?
    requires forall i :: 0 <= i < |assessments| ==> WellShapedAssessment(assessments[i])
    ensures Payloads(Collect(assessments, PolicyFindings).value) == RawFindings(assessments)
    decreases |assessments|
  {
    if assessments != [] {
      var init := assessments[..|assessments| - 1];
      var last := assessments[|assessments| - 1];
      assert Collect(init, PolicyFindings).Ok?;
      assert forall i :: 0 <= i < |init| ==> init[i] == assessments[i];
      DirectFindingsInOrder(init);
      var a := Collect(init, PolicyFindings).value;
      var b := PolicyFindings(last).value;
      assert Collect(assessments, PolicyFindings).value == a + b;
      PolicyPayloadsInOrder(last);
      PayloadsAppend(a, b);
    }
  }

  /** The payloads of a concatenation are the concatenated payloads. */
  lemma PayloadsAppend(a: seq<Finding>, b: seq<Finding>)
    ensures Payloads(a + b) == Payloads(a) + Payloads(b)
  {
  }

  /** One well-shaped assessment contributes exactly its raw finding payloads. */
  lemma PolicyPayloadsInOrder(assessment: Json)
    requires WellShapedAssessment(assessment) && PolicyFindings(assessment).Ok?
    ensures Payloads(PolicyFindings(assessment).value) == RawPolicyFindings(assessment)
  {
    if HasKey(assessment.fields, "automatedReasoningPolicy") {
      var policy := Get(assessment.fields, "automatedReasoningPolicy").fields;
      ParsedPayloadsInOrder(GetOr(policy, "findings", Arr([])).items);
    }
  }

  /** An assessment whose policy (if any) is an object with a list of findings. */
  predicate WellShapedAssessment(assessment: Json) {
    && assessment.Obj?
    && (HasKey(assessment.fields, "automatedReasoningPolicy") ==>
          && Get(assessment.fields, "automatedReasoningPolicy").Obj?
          && GetOr(Get(assessment.fields, "automatedReasoningPolicy").fields, "findings", Arr([])).Arr?)
  }

  /** The assessment lists of an `outputAssessments` map, concatenated in entry order. */
  function FlattenGroups(groups: Fields): seq<Json>
    requires forall i :: 0 <= i < |groups| ==> groups[i].1.Arr?
    decreases |groups|
  {
    if groups == [] then []
    else FlattenGroups(groups[..|groups| - 1]) + groups[|groups| - 1].1.items
  }

  /**
   * The trace shape: when every `outputAssessments` value is a list, it yields
   * the same findings as the direct shape would for the concatenation of
   * those lists, in map-entry order.
   */
  lemma {:induction false} TraceIsFlattenedDirect(groups: Fields)
    requires forall i :: 0 <= i < |groups| ==> groups[i].1.Arr?
    ensures Collect(groups, GroupFindings) == Collect(FlattenGroups(groups), PolicyFindings)
    decreases |groups|
  {
    if groups != [] {
      var init := groups[..|groups| - 1];
      var last := groups[|groups| - 1];
      TraceIsFlattenedDirect(init);
      CollectAppend(FlattenGroups(init), last.1.items, PolicyFindings);
    }
  }

  /** When `assessments` is present only the direct branch runs: a trace added after it is ignored. */
  lemma AssessmentsTakePriority(response: Fields, trace: Json)
    requires HasKey(response, "assessments")
    ensures Extract(response + [("trace", trace)]) == Extract(response)
  {
    LookupAppend(response, [("trace", trace)], "assessments");
  }

  /** An empty `assessments` list yields no findings, whatever the trace holds. */
  lemma EmptyAssessmentsIgnoreTrace(trace: Json)
    ensures Extract([("assessments", Arr([])), ("trace", trace)]) == Ok([])
  {
  }

  /** A response with neither shape yields no findings and raises nothing. */
  lemma NeitherShapeYieldsNothing(response: Fields)
    requires !HasKey(response, "assessments")
    requires !HasKey(response, "trace")
      || (Get(response, "trace").Obj? && !HasKey(Get(response, "trace").fields, "guardrail"))
      || (Get(response, "trace").Obj? && HasKey(Get(response, "trace").fields, "guardrail")
          && Get(Get(response, "trace").fields, "guardrail").Obj?
          && !HasKey(Get(Get(response, "trace").fields, "guardrail").fields, "outputAssessments"))
    ensures Extract(response) == Ok([])
  {
  }

  /** `satisfiable` wins over `valid`, and a `false` value still selects its key. */
  lemma PresenceNotValue()
    ensures Classify([("valid", Bool(true)), ("satisfiable", Bool(false))]) == Some(Satisfiable)
    ensures Classify([("valid", Bool(false))]) == Some(Valid)
    ensures Classify([("supportingRules", Arr([]))]) == None
  {
  }

  /** Supporting rules [A, B] and contradicting rules [C] give [A, B, C]. */
  lemma RulesExample(a: Json, b: Json, c: Json)
    ensures
      var payload := Obj([("valid", Obj([])), ("supportingRules", Arr([a, b])), ("contradictingRules", Arr([c]))]);
      ParseFinding(payload) == Ok(Finding(Some(Valid), payload, [a, b, c]))
  {
    var fs := [("valid", Obj([])), ("supportingRules", Arr([a, b])), ("contradictingRules", Arr([c]))];
    assert fs[1..] == [("supportingRules", Arr([a, b])), ("contradictingRules", Arr([c]))];
    assert fs[1..][1..] == [("contradictingRules", Arr([c]))];
    assert Lookup(fs, "supportingRules") == Some(Arr([a, b]));
    assert Lookup(fs[1..][1..], "contradictingRules") == Some(Arr([c]));
    assert Lookup(fs[1..], "contradictingRules") == Some(Arr([c]));
    assert Lookup(fs, "contradictingRules") == Some(Arr([c]));
    assert Lookup(fs, "satisfiable") == None;
    assert Lookup(fs, "valid") == Some(Obj([]));
    assert [a, b] + [c] == [a, b, c];
  }

  /** A finding payload without rule lists parses to one finding with no rules. */
  lemma BareFinding(f: Fields)
    requires !HasKey(f, "supportingRules") && !HasKey(f, "contradictingRules")
    ensures ParseOne(Obj(f)) == Ok([Finding(Classify(f), Obj(f), [])])
  {
  }

  /** An assessment that wraps a findings list yields what that list's payloads parse to. */
  lemma WrappedFindings(payloads: seq<Json>)
    ensures PolicyFindings(Obj([("automatedReasoningPolicy", Obj([("findings", Arr(payloads))]))]))
      == Collect(payloads, ParseOne)
  {
  }

  /** A response with an `assessments` list is the direct shape over that list. */
  lemma DirectResponse(assessments: seq<Json>)
    ensures Extract([("assessments", Arr(assessments))]) == Collect(assessments, PolicyFindings)
  {
  }

  /** A response with `trace.guardrail.outputAssessments` is the trace shape over those entries. */
  lemma TracedResponse(groups: Fields)
    ensures Extract([("trace", Obj([("guardrail", Obj([("outputAssessments", Obj(groups))]))]))])
      == Collect(groups, GroupFindings)
  {
  }

  /** Two assessments holding one and two findings give three findings in order. */
  lemma DirectExample(f1: Fields, f2: Fields, f3: Fields)
    requires !HasKey(f1, "supportingRules") && !HasKey(f1, "contradictingRules")
    requires !HasKey(f2, "supportingRules") && !HasKey(f2, "contradictingRules")
    requires !HasKey(f3, "supportingRules") && !HasKey(f3, "contradictingRules")
    ensures
      var a1 := Obj([("automatedReasoningPolicy", Obj([("findings", Arr([Obj(f1)]))]))]);
      var a2 := Obj([("automatedReasoningPolicy", Obj([("findings", Arr([Obj(f2), Obj(f3)]))]))]);
      Extract([("assessments", Arr([a1, a2]))])
        == Ok([Finding(Classify(f1), Obj(f1), []), Finding(Classify(f2), Obj(f2), []), Finding(Classify(f3), Obj(f3), [])])
  {
    var x1, x2, x3 := Finding(Classify(f1), Obj(f1), []), Finding(Classify(f2), Obj(f2), []), Finding(Classify(f3), Obj(f3), []);
    var a1 := Obj([("automatedReasoningPolicy", Obj([("findings", Arr([Obj(f1)]))]))]);
    var a2 := Obj([("automatedReasoningPolicy", Obj([("findings", Arr([Obj(f2), Obj(f3)]))]))]);
    FirstAssessment(f1);
    SecondAssessment(f2, f3);
    DirectResponse([a1, a2]);
    CollectTwo(a1, a2, PolicyFindings);
    assert [x1] + [x2, x3] == [x1, x2, x3];
  }

  /** The first assessment of `DirectExample`. */
  lemma FirstAssessment(f1: Fields)
    requires !HasKey(f1, "supportingRules") && !HasKey(f1, "contradictingRules")
    ensures PolicyFindings(Obj([("automatedReasoningPolicy", Obj([("findings", Arr([Obj(f1)]))]))]))
      == Ok([Finding(Classify(f1), Obj(f1), [])])
  {
    BareFinding(f1);
    WrappedFindings([Obj(f1)]);
    CollectOne(Obj(f1), ParseOne);
  }

  /** The second assessment of `DirectExample`. */
  lemma SecondAssessment(f2: Fields, f3: Fields)
    requires !HasKey(f2, "supportingRules") && !HasKey(f2, "contradictingRules")
    requires !HasKey(f3, "supportingRules") && !HasKey(f3, "contradictingRules")
    ensures PolicyFindings(Obj([("automatedReasoningPolicy", Obj([("findings", Arr([Obj(f2), Obj(f3)]))]))]))
      == Ok([Finding(Classify(f2), Obj(f2), []), Finding(Classify(f3), Obj(f3), [])])
  {
    var x2, x3 := Finding(Classify(f2), Obj(f2), []), Finding(Classify(f3), Obj(f3), []);
    BareFinding(f2);
    BareFinding(f3);
    WrappedFindings([Obj(f2), Obj(f3)]);
    CollectTwo(Obj(f2), Obj(f3), ParseOne);
    assert [x2] + [x3] == [x2, x3];
  }

  /** One trace entry holding one `translationAmbiguous` finding gives one AMBIGUOUS finding. */
  lemma TraceExample()
    ensures
      var payload := Obj([("translationAmbiguous", Obj([]))]);
      var assessment := Obj([("automatedReasoningPolicy", Obj([("findings", Arr([payload]))]))]);
      var response := [("trace", Obj([("guardrail", Obj([("outputAssessments", Obj([("g1", Arr([assessment]))]))]))]))];
      Extract(response) == Ok([Finding(Some(Ambiguous), payload, [])])
  {
    var payload := Obj([("translationAmbiguous", Obj([]))]);
    var assessment := Obj([("automatedReasoningPolicy", Obj([("findings", Arr([payload]))]))]);
    var x := Finding(Some(Ambiguous), payload, []);
    AmbiguousAssessment();
    CollectOne(assessment, PolicyFindings);
    var group := ("g1", Arr([assessment]));
    assert GroupFindings(group) == Ok([x]);
    CollectOne(group, GroupFindings);
    TracedResponse([group]);
  }

  /** The assessment of `TraceExample`. */
  lemma AmbiguousAssessment()
    ensures
      var payload := Obj([("translationAmbiguous", Obj([]))]);
      PolicyFindings(Obj([("automatedReasoningPolicy", Obj([("findings", Arr([payload]))]))]))
        == Ok([Finding(Some(Ambiguous), payload, [])])
  {
    var payload := Obj([("translationAmbiguous", Obj([]))]);
    assert Classify(payload.fields) == Some(Ambiguous);
    BareFinding(payload.fields);
    WrappedFindings([payload]);
    CollectOne(payload, ParseOne);
  }
}
