/**
 * The static test runner: test cases with an expected result, one
 * ApplyGuardrail call per case, the actual result taken from the findings,
 * the pass/fail rule, the tally over all cases, and the `--test n` selection.
 */
module StaticRunner {
  import opened Wrappers
  import opened JsonValues
  import opened Common
  import opened Guardrail

  /** A test case after `__post_init__`: the expected result is a member, never a string. */
  datatype TestCase = TestCase(expected: TestResult, question: Option<string>, answer: Option<string>)

  /** The `expected_result` a test case is constructed with: a member already, or its string value. */
  datatype ExpectedField = AsMember(member: TestResult) | AsText(text: string)

  /** `TestCase(expected_result, question, answer)` followed by `__post_init__`. */
  function MakeTestCase(expected: ExpectedField, question: Option<string>, answer: Option<string>)
    : (r: Result<TestCase, ConfigError>)
    ensures expected.AsMember? ==> r == Ok(TestCase(expected.member, question, answer))
    ensures expected.AsText? ==>
      (r.Ok? <==> expected.text in {"VALID", "INVALID", "SATISFIABLE"})
    ensures expected.AsText? && r.Ok? ==>
      r.value.expected.Value() == expected.text && r.value.question == question && r.value.answer == answer
    ensures r.Err? ==> r.error == NotATestResult(expected.text)
  {
    match expected
    case AsMember(t) => Ok(TestCase(t, question, answer))
    case AsText(s) =>
      match ParseTestResult(s)
      case Ok(t) => Ok(TestCase(t, question, answer))
      case Err(e) => Err(e)
  }

  /** The response returned without a call when there is nothing to check. */
  const NoContentResponse: Fields := [("action", Str("ERROR")), ("error", Str("No content provided"))]

  /** The response `apply_guardrail` returns for a question and answer; the source is always OUTPUT. */
  function StaticResponse(guardrail: GuardrailService, question: Option<string>, answer: Option<string>): Fields {
    var content := Content(question, answer);
    if content == [] then NoContentResponse else guardrail(GuardrailRequest(Output, content))
  }

  /** `apply_guardrail` of the static runner. */
  method ApplyGuardrail(guardrail: GuardrailService, question: Option<string>, answer: Option<string>)
    returns (response: Fields)
    ensures !Given(question) && !Given(answer) ==> response == NoContentResponse
    ensures Given(question) || Given(answer) ==>
      response == guardrail(GuardrailRequest(Output, Content(question, answer)))
  {
    var content := BuildContent(question, answer);
    if content == [] {
      return NoContentResponse;
    }
    response := guardrail(GuardrailRequest(Output, content));
  }

  /** The service is never consulted when neither question nor answer is given. */
  lemma NoContentNoCall(g1: GuardrailService, g2: GuardrailService, question: Option<string>, answer: Option<string>)
    requires !Given(question) && !Given(answer)
    ensures StaticResponse(g1, question, answer) == StaticResponse(g2, question, answer) == NoContentResponse
  {
  }

  /** The rule printing loop calls `rule.get`, which raises on a rule that is not an object. */
  predicate Printable(f: Finding) {
    forall j :: 0 <= j < |f.rules| ==> f.rules[j].Obj?
  }

  /**
   * What the result loop of `run_test_case` leaves in `actual_result`: the
   * result of the last finding, None when there are none; the loop raises
   * when some finding has a rule it cannot print.
   */
  function ActualResult(findings: seq<Finding>): Result<Option<string>, ShapeError> {
    if exists i :: 0 <= i < |findings| && !Printable(findings[i]) then Err(Malformed)
    else if findings == [] then Ok(None)
    else Ok(ResultName(findings[|findings| - 1].result))
  }

  /** The loop of `run_test_case` that overwrites `actual_result` with each finding's result. */
  method LastResult(findings: seq<Finding>) returns (r: Result<Option<string>, ShapeError>)
    ensures r == ActualResult(findings)
  {
    var actual: Option<string> := None;
    var i := 0;
    while i < |findings|
      invariant 0 <= i <= |findings|
      invariant forall k :: 0 <= k < i ==> Printable(findings[k])
      invariant actual == if i == 0 then None else ResultName(findings[i - 1].result)
    {
      actual := ResultName(findings[i].result);
      var rules := findings[i].rules;
      if rules != [] {
        var j := 0;
        while j < |rules|
          invariant 0 <= j <= |rules|
          invariant forall k :: 0 <= k < j ==> rules[k].Obj?
        {
          if !rules[j].Obj? {
            return Err(Malformed);
          }
          j := j + 1;
        }
      }
      i := i + 1;
    }
    r := Ok(actual);
  }

  /** The `type` of the single `tests_run` entry. */
  datatype TestType = QuestionAndAnswer | AnswerOnly | QuestionOnly {
    function Name(): string {
      match this
      case QuestionAndAnswer => "QUESTION_AND_ANSWER"
      case AnswerOnly => "ANSWER_ONLY"
      case QuestionOnly => "QUESTION_ONLY"
    }
  }

  /** Question and answer, else answer only, else question only (also when neither is given). */
  function TypeOf(tc: TestCase): TestType {
    if Given(tc.question) && Given(tc.answer) then QuestionAndAnswer
    else if Given(tc.answer) then AnswerOnly
    else QuestionOnly
  }

  /** The test type names the content the guardrail was sent. */
  lemma TypeMatchesContent(tc: TestCase)
    ensures TypeOf(tc) == QuestionAndAnswer <==> |Content(tc.question, tc.answer)| == 2
    ensures TypeOf(tc) == AnswerOnly <==>
      Given(tc.answer) && Content(tc.question, tc.answer) == [TextBlock(tc.answer.value, [])]
    ensures TypeOf(tc) == QuestionOnly <==>
      Content(tc.question, tc.answer) == []
      || (Given(tc.question) && Content(tc.question, tc.answer) == [TextBlock(tc.question.value, [])])
  {
  }

  /** Python's f-string rendering of an optional string. */
  function Show(s: Option<string>): string {
    match s
    case Some(t) => t
    case None => "None"
  }

  /** The `content` summary of the `tests_run` entry. */
  function Summary(tc: TestCase): string {
    match TypeOf(tc)
    case QuestionAndAnswer => "Q: " + Show(tc.question) + " | A: " + Show(tc.answer)
    case AnswerOnly => "A: " + Show(tc.answer)
    case QuestionOnly => "Q: " + Show(tc.question)
  }

  /** `actual_result or "ERROR"`. */
  function OverallAction(actual: Option<string>): (action: string)
    ensures action == "ERROR" <==> !Given(actual) || actual == Some("ERROR")
    ensures Given(actual) ==> action == actual.value
  {
    if Given(actual) then actual.value else "ERROR"
  }

  /** `_evaluate_test_result`: a falsy actual result fails; otherwise exact string equality. */
  function EvaluateTestResult(actual: Option<string>, expected: TestResult): (passed: bool)
    ensures passed <==> actual == Some(expected.Value())
  {
    if !Given(actual) then false else actual.value == expected.Value()
  }

  /** Passing means the overall action is the expected value, never "ERROR". */
  lemma PassedActionIsExpected(actual: Option<string>, expected: TestResult)
    requires EvaluateTestResult(actual, expected)
    ensures OverallAction(actual) == expected.Value() && OverallAction(actual) != "ERROR"
  {
  }

  /** A normalised result passes exactly when its category names the expected member; AMBIGUOUS never passes. */
  lemma VerdictPasses(v: Option<Verdict>, expected: TestResult)
    ensures EvaluateTestResult(ResultName(v), expected) <==>
      (expected == ExpectValid && v == Some(Valid))
      || (expected == ExpectInvalid && v == Some(Invalid))
      || (expected == ExpectSatisfiable && v == Some(Satisfiable))
    ensures v == Some(Ambiguous) || v == None ==> !EvaluateTestResult(ResultName(v), expected)
  {
  }

  /** None and "" always fail, and the comparison is case-sensitive. */
  lemma FalsyOrMiscasedFails(expected: TestResult)
    ensures !EvaluateTestResult(None, expected)
    ensures !EvaluateTestResult(Some(""), expected)
    ensures !EvaluateTestResult(Some("valid"), ExpectValid)
  {
  }

  /** The one `tests_run` entry of a test case. */
  datatype TestRun = TestRun(
    testType: TestType,
    content: string,
    action: Json,
    usage: Json,
    assessments: Json,
    automatedReasoningResult: Option<string>,
    automatedReasoningFindings: seq<Finding>)

  /** The dictionary `run_test_case` returns. */
  datatype TestRecord = TestRecord(
    expectedResult: string,
    testsRun: seq<TestRun>,
    overallAction: string,
    testPassed: bool)

  /** What `run_test_case` yields for one case, or the error it raises. */
  function TestCaseOutcome(guardrail: GuardrailService, tc: TestCase): Result<TestRecord, ShapeError> {
    var response := StaticResponse(guardrail, tc.question, tc.answer);
    match Extract(response)
    case Err(e) => Err(e)
    case Ok(findings) =>
      match ActualResult(findings)
      case Err(e) => Err(e)
      case Ok(actual) =>
        var run := TestRun(TypeOf(tc), Summary(tc), GetOr(response, "action", Str("ERROR")),
                           GetOr(response, "usage", Obj([])), GetOr(response, "assessments", Arr([])),
                           actual, findings);
        Ok(TestRecord(tc.expected.Value(), [run], OverallAction(actual), EvaluateTestResult(actual, tc.expected)))
  }

  /** `run_test_case`. */
  method RunTestCase(guardrail: GuardrailService, tc: TestCase) returns (r: Result<TestRecord, ShapeError>)
    ensures r == TestCaseOutcome(guardrail, tc)
  {
    var response := ApplyGuardrail(guardrail, tc.question, tc.answer);
    var extracted := ExtractAutomatedReasoningResults(response);
    if extracted.Err? {
      return Err(extracted.error);
    }
    var findings := extracted.value;
    var actual := LastResult(findings);
    if actual.Err? {
      return Err(actual.error);
    }
    var testType := TypeOf(tc);
    var run := TestRun(testType, Summary(tc), GetOr(response, "action", Str("ERROR")),
                       GetOr(response, "usage", Obj([])), GetOr(response, "assessments", Arr([])),
                       actual.value, findings);
    r := Ok(TestRecord(tc.expected.Value(), [run], OverallAction(actual.value),
                       EvaluateTestResult(actual.value, tc.expected)));
  }

  /**
   * Every completed case records exactly one run, of the case's type, and
   * passes exactly when the last finding's result is the expected value.
   */
  lemma OutcomeProperties(guardrail: GuardrailService, tc: TestCase)
    requires TestCaseOutcome(guardrail, tc).Ok?
    ensures var rec := TestCaseOutcome(guardrail, tc).value;
      var findings := Extract(StaticResponse(guardrail, tc.question, tc.answer)).value;
      && |rec.testsRun| == 1
      && rec.testsRun[0].testType == TypeOf(tc)
      && rec.expectedResult == tc.expected.Value()
      && (rec.testPassed <==> findings != [] && ResultName(findings[|findings| - 1].result) == Some(tc.expected.Value()))
  {
  }

  /** A case with neither question nor answer gets the ERROR response, no findings, and fails. */
  lemma EmptyCaseFails(guardrail: GuardrailService, expected: TestResult)
    ensures var tc := TestCase(expected, None, None);
      TestCaseOutcome(guardrail, tc).Ok?
      && TestCaseOutcome(guardrail, tc).value.testsRun[0].action == Str("ERROR")
      && TestCaseOutcome(guardrail, tc).value.overallAction == "ERROR"
      && !TestCaseOutcome(guardrail, tc).value.testPassed
  {
    var tc := TestCase(expected, None, None);
    assert StaticResponse(guardrail, tc.question, tc.answer) == NoContentResponse;
    assert Lookup(NoContentResponse, "action") == Some(Str("ERROR"));
    assert !HasKey(NoContentResponse, "assessments");
    assert Extract(NoContentResponse) == Ok([]);
  }

  /** How many of the records passed. */
  function PassedCount(records: seq<TestRecord>): (n: nat)
    ensures n <= |records|
  {
    if records == [] then 0
    else PassedCount(records[..|records| - 1]) + (if records[|records| - 1].testPassed then 1 else 0)
  }

  /** Runs `f` over `xs` in order, keeping every result; the first error aborts. */
  function Traverse<A, B>(xs: seq<A>, f: A -> Result<B, ShapeError>): Result<seq<B>, ShapeError>
    decreases |xs|
  {
    if xs == [] then Ok([])
    else
      match Traverse(xs[..|xs| - 1], f)
      case Err(e) => Err(e)
      case Ok(ys) =>
        match f(xs[|xs| - 1])
        case Err(e) => Err(e)
        case Ok(y) => Ok(ys + [y])
  }

  /** A traversal completes iff `f` succeeds everywhere, and then result i is `f(xs[i])`. */
  lemma {:induction false} TraversePerElement<A, B>(xs: seq<A>, f: A -> Result<B, ShapeError>)
    ensures Traverse(xs, f).Ok? <==> forall k :: 0 <= k < |xs| ==> f(xs[k]).Ok?
    ensures Traverse(xs, f).Ok? ==>
      |Traverse(xs, f).value| == |xs|
      && forall k :: 0 <= k < |xs| ==> Traverse(xs, f).value[k] == f(xs[k]).value
    decreases |xs|
  {
    if xs != [] {
      var init := xs[..|xs| - 1];
      TraversePerElement(init, f);
      assert forall k :: 0 <= k < |init| ==> init[k] == xs[k];
    }
  }

  /** One more successful element extends a successful traversal by its result. */
  lemma TraverseStep<A, B>(xs: seq<A>, f: A -> Result<B, ShapeError>, i: nat, ys: seq<B>)
    requires i < |xs| && Traverse(xs[..i], f) == Ok(ys) && f(xs[i]).Ok?
    ensures Traverse(xs[..i + 1], f) == Ok(ys + [f(xs[i]).value])
  {
    assert xs[..i + 1][..i] == xs[..i];
  }

  /** A failing element makes the whole traversal fail. */
  lemma TraverseFails<A, B>(xs: seq<A>, f: A -> Result<B, ShapeError>, i: nat)
    requires i < |xs| && f(xs[i]).Err?
    ensures Traverse(xs, f).Err?
  {
    TraversePerElement(xs, f);
  }

  /** The records of running `cases` in order; the first case that raises aborts the run. */
  function AllOutcomes(guardrail: GuardrailService, cases: seq<TestCase>): Result<seq<TestRecord>, ShapeError> {
    Traverse(cases, tc => TestCaseOutcome(guardrail, tc))
  }

  /** A run completes iff every case completes, and then record i is case i's record. */
  lemma AllOutcomesPerCase(guardrail: GuardrailService, cases: seq<TestCase>)
    ensures AllOutcomes(guardrail, cases).Ok? <==>
      forall k :: 0 <= k < |cases| ==> TestCaseOutcome(guardrail, cases[k]).Ok?
    ensures AllOutcomes(guardrail, cases).Ok? ==>
      |AllOutcomes(guardrail, cases).value| == |cases|
      && forall k :: 0 <= k < |cases| ==>
        AllOutcomes(guardrail, cases).value[k] == TestCaseOutcome(guardrail, cases[k]).value
  {
    TraversePerElement(cases, tc => TestCaseOutcome(guardrail, tc));
  }

  /** The dictionary `run_all_tests` returns (`success_rate` aside). */
  datatype RunSummary = RunSummary(
    guardrailId: string,
    guardrailVersion: string,
    totalTests: nat,
    passed: nat,
    failed: nat,
    testResults: seq<TestRecord>)

  /**
   * `run_all_tests`: every case in input order; the counters split the
   * cases into passed and failed. The first case that raises aborts the run.
   */
  method RunAllTests(guardrailId: string, guardrailVersion: string, guardrail: GuardrailService, cases: seq<TestCase>)
    returns (r: Result<RunSummary, ShapeError>)
    ensures r.Ok? <==> AllOutcomes(guardrail, cases).Ok?
    ensures r.Ok? ==>
      && r.value.guardrailId == guardrailId && r.value.guardrailVersion == guardrailVersion
      && r.value.testResults == AllOutcomes(guardrail, cases).value
      && r.value.totalTests == |cases|
      && r.value.passed == PassedCount(r.value.testResults)
      && r.value.passed + r.value.failed == r.value.totalTests
  {
    var results: seq<TestRecord> := [];
    var passed: nat := 0;
    var failed: nat := 0;
    var i := 0;
    ghost var run := tc => TestCaseOutcome(guardrail, tc);
    while i < |cases|
      invariant 0 <= i <= |cases|
      invariant Traverse(cases[..i], run) == Ok(results)
      invariant passed == PassedCount(results)
      invariant passed + failed == i
    {
      var outcome := RunTestCase(guardrail, cases[i]);
      if outcome.Err? {
        TraverseFails(cases, run, i);
        return Err(outcome.error);
      }
      TraverseStep(cases, run, i, results);
      assert (results + [outcome.value])[..|results|] == results;
      results := results + [outcome.value];
      if outcome.value.testPassed {
        passed := passed + 1;
      } else {
        failed := failed + 1;
      }
      i := i + 1;
    }
    assert cases[..i] == cases;
    r := Ok(RunSummary(guardrailId, guardrailVersion, |cases|, passed, failed, results));
  }

  /** Why `--test n` was refused: n is outside 1 to the number of cases. */
  datatype SelectionError = OutOfRange(n: int, available: nat)

  /** The `--test` filter: absent or 0 runs every case; otherwise only 1 <= n <= len is accepted. */
  function SelectTests<T>(test: Option<int>, cases: seq<T>): (r: Result<seq<T>, SelectionError>)
    ensures test == None || test == Some(0) ==> r == Ok(cases)
    ensures test.Some? && test.value != 0 ==>
      (r.Ok? <==> 1 <= test.value <= |cases|)
    ensures r.Ok? && test.Some? && test.value != 0 ==> r.value == [cases[test.value - 1]]
    ensures r.Err? ==> r.error == OutOfRange(test.value, |cases|)
  {
    if test.None? || test.value == 0 then Ok(cases)
    else if test.value < 1 || test.value > |cases| then Err(OutOfRange(test.value, |cases|))
    else Ok([cases[test.value - 1]])
  }

  /** Any selection runs either every case or exactly one of them. */
  lemma SelectionIsAllOrOne<T>(test: Option<int>, cases: seq<T>)
    requires SelectTests(test, cases).Ok?
    ensures var chosen := SelectTests(test, cases).value;
      chosen == cases || (|chosen| == 1 && chosen[0] in cases)
  {
  }
}
