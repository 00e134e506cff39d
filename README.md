# Automated reasoning checks demos — verified model

These demos exercise the automated reasoning checks of Amazon Bedrock Guardrails.
They send text to the ApplyGuardrail API, or attach the guardrail to a model call. They
then read the automated reasoning findings out of the response.

This project models the deterministic logic of those demos in Dafny:

- `json.dfy` (`JsonValues`): JSON values. Objects are ordered association lists, so key
  order is Python's insertion order. The module also spells out the Python behaviour the
  code relies on: truthiness (the empty string counts as absent), `in` on a dict, string
  or list, `d.get(k, default)`, and what `for x in v` visits.
- `common.dfy` (`Common`): the `TestResult` enum and the finding normaliser. The
  normaliser reads either the direct `assessments` list or the
  `trace.guardrail.outputAssessments` map. The module has a left-recursive specification
  (`Extract`) and an imperative version with nested loops that is proved equal to it.
- `guardrail.dfy` (`Guardrail`): the content blocks built from an optional question and
  answer, the ApplyGuardrail request, and the `GUARDRAIL_INTERVENED` test.
- `static_runner.dfy` (`StaticRunner`): the static test runner, covering:
  - test case construction;
  - the guardrail call with its no-content short cut;
  - the actual result (the last finding's);
  - the test type;
  - the pass/fail rule;
  - the pass/fail counters of `run_all_tests`;
  - the `--test` selection.
- `export_policy.dfy` (`ExportPolicy`): parsing a policy ARN with Python's `str.split`,
  the CloudFormation template, and the fallback for its policy name.
- `openai_chat.dfy` (`OpenAIChat`): the OpenAI-SDK tester. It checks input and output
  with two separate guardrail calls, assembles the request messages and keeps a
  conversation history.
- `bedrock_chat.dfy` (`BedrockChat`): the Converse tester. The user turn joins the history
  before the call. The assistant text is concatenated from the response's content blocks.
- `strands_hook.dfy` (`StrandsHook`): the Strands agent hook. It checks user input and the
  last question/answer pair, and keeps the last findings of each kind.

The remote services are total function parameters. A client error that the source turns
into an `{"error": ...}` response is one of the values such a function can return. These
services are:

- ApplyGuardrail (`GuardrailService`);
- Converse (`ConverseService`);
- the OpenAI chat completion (`ChatModel`), which returns the first choice's content or
  the message of the exception it raised.

The refund-policy PDF is an `Option<string>` parameter holding its extracted text. None
means the file was not found. A Python exception raised by a malformed response
(TypeError, AttributeError, KeyError) is an `Err(Malformed)` result.

## Model

| member | source | states |
|---|---|---|
| Common.ParseTestResult | utils/automated_reasoning_common.py:12-17 | only "VALID", "INVALID" and "SATISFIABLE" convert, to the member with that value; any other string is an error naming it |
| Common.ParseTestResultRoundTrip | utils/automated_reasoning_common.py:12-17 | converting a member's value gives back that member |
| Common.Classify | utils/automated_reasoning_common.py:79-88 | first match by key presence in the order satisfiable, valid, invalid, translationAmbiguous; None iff none of the four keys is present |
| Common.PresenceNotValue | utils/automated_reasoning_common.py:80-88 | a key whose value is false still selects its category; satisfiable beats valid; rule keys alone give None |
| Common.ParseFinding | utils/automated_reasoning_common.py:69-95 | succeeds iff the payload is a dict whose rule lists are lists; the finding is the payload unchanged, the result is its classification, the rules are supporting then contradicting (missing lists empty) |
| Common.RulesExample | utils/automated_reasoning_common.py:90-95 | a VALID payload with rules [a, b] and [c] yields rules [a, b, c] |
| Common.BareFinding | utils/automated_reasoning_common.py:90-95 | a payload with neither rule list yields one finding with no rules |
| Common.ExtractAutomatedReasoningResults | utils/automated_reasoning_common.py:27-66 | the nested loops that append findings compute exactly the specification `Extract`, raised errors included |
| Common.AppendPolicyFindings | utils/automated_reasoning_common.py:48-51 | the loop over one assessment's findings appends that assessment's parsed findings to those collected so far |
| Common.AppendAssessments | utils/automated_reasoning_common.py:47-51 | the loop over an assessment list appends the findings of every assessment in order |
| Common.AppendTraceFindings | utils/automated_reasoning_common.py:54-64 | the trace branch appends the findings of every `outputAssessments` entry in map order, and nothing when `guardrail` or `outputAssessments` is missing |
| Common.CollectOk | utils/automated_reasoning_common.py:47-51 | collecting succeeds iff every element's parse succeeds |
| Common.CollectFailsAt | utils/automated_reasoning_common.py:50-51 | one element that raises makes the whole extraction raise |
| Common.CollectAppend | utils/automated_reasoning_common.py:43-66 | the findings of a concatenated list are the findings of each part, concatenated in order |
| Common.ParsedPayloadsInOrder | utils/automated_reasoning_common.py:50-51 | parsing a findings list keeps every payload, unchanged and in order, one finding per payload |
| Common.PolicyPayloadsInOrder | utils/automated_reasoning_common.py:48-51 | a well-shaped assessment contributes exactly its raw finding payloads |
| Common.DirectFindingsInOrder | utils/automated_reasoning_common.py:46-51 | the direct shape yields the raw payloads of all assessments concatenated in assessment order; assessments without a policy contribute nothing |
| Common.TraceIsFlattenedDirect | utils/automated_reasoning_common.py:54-64 | the trace shape equals the direct shape over the map's assessment lists concatenated in entry order |
| Common.AssessmentsTakePriority | utils/automated_reasoning_common.py:46-54 | with `assessments` present, a trace added to the response changes nothing |
| Common.EmptyAssessmentsIgnoreTrace | utils/automated_reasoning_common.py:46-54 | an empty `assessments` list yields no findings even beside a trace |
| Common.NeitherShapeYieldsNothing | utils/automated_reasoning_common.py:43-66 | without `assessments`, and with no `trace.guardrail.outputAssessments`, the result is the empty list and nothing raises |
| Common.DirectResponse | utils/automated_reasoning_common.py:46-51 | a response holding an assessments list yields the findings of those assessments |
| Common.TracedResponse | utils/automated_reasoning_common.py:54-64 | a response holding `trace.guardrail.outputAssessments` yields the findings of those entries |
| Common.WrappedFindings | utils/automated_reasoning_common.py:48-51 | an assessment holding a findings list yields those findings parsed |
| Common.FirstAssessment | utils/automated_reasoning_common.py:47-51 | an assessment with one bare finding yields that one finding |
| Common.SecondAssessment | utils/automated_reasoning_common.py:47-51 | an assessment with two bare findings yields both, in order |
| Common.DirectExample | utils/automated_reasoning_common.py:46-51 | two assessments holding one and two findings yield the three findings in order |
| Common.AmbiguousAssessment | utils/automated_reasoning_common.py:87-88 | a `translationAmbiguous` finding is AMBIGUOUS |
| Common.TraceExample | utils/automated_reasoning_common.py:54-64 | one trace entry holding one ambiguous finding yields one AMBIGUOUS finding |
| Guardrail.Content | automated-reasoning-checks-demo-static.py:74-91 | empty iff neither input is given; `[query, guard_content]` iff both are; otherwise the one given input without qualifiers |
| Guardrail.BuildContent | automated-reasoning-checks-demo-static.py:74-91 | the appends build exactly `Content` |
| Guardrail.ContentCarriesPresentInputs | automated-reasoning-checks-demo-static.py:74-91 | the block texts are exactly the given inputs, question before answer |
| Guardrail.AnswerIsLastBlock | automated-reasoning-checks-demo-static.py:77-86 | a given answer is always the last block, qualified guard_content iff a question precedes it |
| StaticRunner.MakeTestCase | automated-reasoning-checks-demo-static.py:22-33 | an enum member is kept; a string converts only when it is one of the three values, and otherwise raises |
| StaticRunner.ApplyGuardrail | automated-reasoning-checks-demo-static.py:59-118 | with no input the ERROR response comes back without a call; otherwise the service is called with source OUTPUT and the built content |
| StaticRunner.NoContentNoCall | automated-reasoning-checks-demo-static.py:90-91 | with no input the response does not depend on the service |
| StaticRunner.LastResult | automated-reasoning-checks-demo-static.py:165-173 | the loop leaves the last finding's result, None for no findings, and raises when a rule cannot be printed |
| StaticRunner.TypeMatchesContent | automated-reasoning-checks-demo-static.py:176-184 | QUESTION_AND_ANSWER iff two blocks are sent, ANSWER_ONLY iff only the answer is, QUESTION_ONLY otherwise |
| StaticRunner.OverallAction | automated-reasoning-checks-demo-static.py:199 | the actual result when truthy, else "ERROR" |
| StaticRunner.EvaluateTestResult | automated-reasoning-checks-demo-static.py:206-223 | passes iff the actual result is exactly the expected value |
| StaticRunner.PassedActionIsExpected | automated-reasoning-checks-demo-static.py:199-202 | a passed test's overall action is the expected value, never ERROR |
| StaticRunner.VerdictPasses | automated-reasoning-checks-demo-static.py:219-223 | a finding result passes iff it is the expected verdict; AMBIGUOUS and None never pass |
| StaticRunner.FalsyOrMiscasedFails | automated-reasoning-checks-demo-static.py:219-223 | None and "" fail; "valid" does not match VALID |
| StaticRunner.RunTestCase | automated-reasoning-checks-demo-static.py:134-204 | the runner computes `TestCaseOutcome`, raised errors included |
| StaticRunner.OutcomeProperties | automated-reasoning-checks-demo-static.py:134-204 | exactly one run of the case's type is recorded; the test passes iff there are findings and the last one's result is the expected value |
| StaticRunner.EmptyCaseFails | automated-reasoning-checks-demo-static.py:90-91 | a case with neither input records action ERROR and fails |
| StaticRunner.PassedCount | automated-reasoning-checks-demo-static.py:250-253 | the passed count never exceeds the number of records |
| StaticRunner.AllOutcomesPerCase | automated-reasoning-checks-demo-static.py:245-248 | a run completes iff every case does, and record i is case i's record |
| StaticRunner.RunAllTests | automated-reasoning-checks-demo-static.py:225-261 | the records are the cases' outcomes in input order; total is the number of cases; passed counts the passed records; passed + failed == total |
| StaticRunner.SelectTests | automated-reasoning-checks-demo-static.py:306-316 | None or 0 runs all; 1..len selects case n-1 alone; any other number is out of range |
| StaticRunner.SelectionIsAllOrOne | automated-reasoning-checks-demo-static.py:306-316 | a selection is either every case or exactly one of them |
| ExportPolicy.SplitPieces | export-automated-reasoning-policy.py:263 | `str.split(sep)` yields pieces without the separator, one more than there are separators |
| ExportPolicy.JoinSplit | export-automated-reasoning-policy.py:263 | joining the pieces of a split gives back the string |
| ExportPolicy.SplitJoin | export-automated-reasoning-policy.py:263 | splitting a join of separator-free pieces gives back the pieces |
| ExportPolicy.ParsePolicyArn | export-automated-reasoning-policy.py:257-276 | an error names the ARN; the parsed region and account hold no colon, and the policy id and version hold no slash |
| ExportPolicy.ArnErrorsByCount | export-automated-reasoning-policy.py:263-269 | "Invalid ARN format" iff fewer than five colons; "Invalid policy ARN format" iff enough colons but fewer than two slashes in the sixth field |
| ExportPolicy.ParsedArnInPlace | export-automated-reasoning-policy.py:271-276 | region and account are colon fields 4 and 5, policy id and version are slash components 2 and 3 of field 6, and the pieces join back to the ARN |
| ExportPolicy.ParseAssembledArn | export-automated-reasoning-policy.py:257-276 | an ARN assembled from separator-free fields parses to those fields, whatever the resource type and extra parts |
| ExportPolicy.ExampleArn | export-automated-reasoning-policy.py:291 | the usage example parses to us-east-1, 123456789012, abc123, 1 |
| ExportPolicy.ConvertTags | export-automated-reasoning-policy.py:101-104 | succeeds iff every tag has `key` and `value`; same length and order, tag i becomes `{Key, Value}` of tag i |
| ExportPolicy.GenerateTemplate | export-automated-reasoning-policy.py:71-129 | Name is the given name; PolicyDefinition iff the definition is truthy; Description iff the key is present; Tags iff included, present and truthy; raises only on malformed tags |
| ExportPolicy.TemplateConstants | export-automated-reasoning-policy.py:107-127 | format version 2010-09-09, the fixed resource type, the description prefix plus the name, and GetAtt outputs PolicyId and PolicyArn of the resource |
| ExportPolicy.TagsPreserved | export-automated-reasoning-policy.py:99-105 | a non-empty tag list is converted entry by entry, same length and order |
| ExportPolicy.NoTagsNeverRaises | export-automated-reasoning-policy.py:99-105 | without tags the template never raises and has no Tags |
| ExportPolicy.CfnPolicyName | export-automated-reasoning-policy.py:415-417 | the explicit name, else the selected name, else "AutomatedReasoningPolicy" followed by the policy id; never empty |
| OpenAIChat.SourceFor | automated-reasoning-checks-demo-with-openai.py:100 | OUTPUT iff the answer is truthy |
| OpenAIChat.ApplyGuardrail | automated-reasoning-checks-demo-with-openai.py:79-108 | raises "At least one of question or answer must be provided" iff neither is given; otherwise calls the service with the built content and the answer-driven source |
| OpenAIChat.RequestMessages | automated-reasoning-checks-demo-with-openai.py:159-171 | the system message with prompt, heading and policy, then the history, then the user message |
| OpenAIChat.AssembleMessages | automated-reasoning-checks-demo-with-openai.py:159-171 | append, extend, append build exactly `RequestMessages` |
| OpenAIChat.OneSystemMessage | automated-reasoning-checks-demo-with-openai.py:159-171 | a history without system turns yields a request whose only system message is the first |
| OpenAIChat.InputBlockSkipsModel | automated-reasoning-checks-demo-with-openai.py:141-154 | a turn blocked at input is blocked at the input stage, whatever the model would say |
| OpenAIChat.MissingPolicyFailsFirst | automated-reasoning-checks-demo-with-openai.py:239-243 | without a loaded policy and without the file the turn fails with the file-not-found message |
| OpenAIChat.OutputCheckPairsQuestionAndAnswer | automated-reasoning-checks-demo-with-openai.py:176-205 | when the model answers with non-empty text, `chat_with_model` sends the question as query and the answer as guard_content with source OUTPUT; the reply passes iff that check does not intervene, and carries the answer and that check's response |
| OpenAIChat.AppendTurnKeepsWellFormed | automated-reasoning-checks-demo-with-openai.py:261-271 | appending a user turn, optionally followed by an assistant turn, keeps every assistant turn directly after a user turn |
| OpenAIChat.InteractiveTester.constructor | automated-reasoning-checks-demo-with-openai.py:57-62 | the history starts empty and no policy is loaded |
| OpenAIChat.InteractiveTester.ChatWithModel | automated-reasoning-checks-demo-with-openai.py:124-246 | loads the policy lazily, leaves the history alone, and returns `Chat`: error, blocked at input, blocked at output, or passed |
| OpenAIChat.InteractiveTester.ProcessResponse | automated-reasoning-checks-demo-with-openai.py:248-271 | an error changes nothing; otherwise the user turn is appended, and the assistant's message too unless blocked; well-formedness is kept |
| OpenAIChat.InteractiveTester.ClearHistory | automated-reasoning-checks-demo-with-openai.py:361-364 | the history is emptied and the loaded policy kept |
| OpenAIChat.InteractiveTester.Exchange | automated-reasoning-checks-demo-with-openai.py:401-402 | one session step keeps the history well formed and replies with `Chat` |
| BedrockChat.RequestIsNewHistory | automated-reasoning-checks-demo-with-bedrock.py:71-90 | the request's messages are the history with the new user turn appended, each as one text block; the system text is prompt, heading and policy |
| BedrockChat.ConvertHistory | automated-reasoning-checks-demo-with-bedrock.py:71-75 | the loop maps every history entry, in order, to a message with one text block |
| BedrockChat.ConcatText | automated-reasoning-checks-demo-with-bedrock.py:141-145 | the `+=` loop computes `TextOf`, raised errors included |
| BedrockChat.ConcatPresentTexts | automated-reasoning-checks-demo-with-bedrock.py:141-145 | dict blocks concatenate to the `text` entries of the blocks that have one, in order; a block without `text` contributes "" |
| BedrockChat.TextOfSkipsMissingParts | automated-reasoning-checks-demo-with-bedrock.py:141-142 | no `output`, or an output without `message`, gives the empty text |
| BedrockChat.SingleTextBlock | automated-reasoning-checks-demo-with-bedrock.py:141-145 | a message with one text block gives exactly that text |
| BedrockChat.Reply | automated-reasoning-checks-demo-with-bedrock.py:136-156 | at most one assistant turn is added, iff there is no error, the text is assembled and non-empty, and the guardrail did not stop the reply |
| BedrockChat.StoppedReplyDropped | automated-reasoning-checks-demo-with-bedrock.py:150-153 | a reply with stopReason guardrail_intervened never reaches the history |
| BedrockChat.UserTurnKeepsWellFormed | automated-reasoning-checks-demo-with-bedrock.py:78 | a user turn followed by at most one assistant turn keeps every assistant turn directly after a user turn |
| BedrockChat.InteractiveTester.constructor | automated-reasoning-checks-demo-with-bedrock.py:48-53 | the history starts empty and no policy is loaded |
| BedrockChat.InteractiveTester.ConverseWithGuardrail | automated-reasoning-checks-demo-with-bedrock.py:55-113 | a missing file returns the file-not-found error and appends nothing; otherwise the user turn is appended before the call and the response is the service's answer to `Request` |
| BedrockChat.InteractiveTester.ProcessResponse | automated-reasoning-checks-demo-with-bedrock.py:129-156 | the history gains exactly `Reply(response)`; the policy is kept |
| BedrockChat.InteractiveTester.ClearHistory | automated-reasoning-checks-demo-with-bedrock.py:227-231 | the history is emptied and the loaded policy kept |
| BedrockChat.InteractiveTester.Exchange | automated-reasoning-checks-demo-with-bedrock.py:267-268 | one session step keeps the history well formed; it adds nothing without a policy, else the user turn then `Reply` of the service's response |
| StrandsHook.JoinAgreesWithConcat | automated-reasoning-checks-demo-with-strands.py:108 | on dict blocks the hook's join equals the Converse tester's concatenation, errors included |
| StrandsHook.MessageTextOfPresentTexts | automated-reasoning-checks-demo-with-strands.py:108 | a message's text is the `text` entries of its dict blocks in order, a block without one contributing "" |
| StrandsHook.StringBlockDiffers | automated-reasoning-checks-demo-with-strands.py:108 | a string block always raises in the hook's join; the Converse concatenation skips it when it does not contain "text" and raises when it does |
| StrandsHook.InputCheckProperties | automated-reasoning-checks-demo-with-strands.py:105-114 | checked iff the role is user and the joined text is non-empty (and extraction succeeds); the request is that text alone, as INPUT; the findings are the extraction of the response |
| StrandsHook.OtherRolesSkipped | automated-reasoning-checks-demo-with-strands.py:107 | a message of any other role is never checked |
| StrandsHook.OutputCheckProperties | automated-reasoning-checks-demo-with-strands.py:124-156 | checked only with at least two messages, the last an assistant's with non-empty text; the request is [question as query, answer as guard_content] with source OUTPUT |
| StrandsHook.OutputCheckHappens | automated-reasoning-checks-demo-with-strands.py:124-156 | conversely, at least two messages, the last an assistant's with non-empty text and a readable question, are checked whenever the guardrail response can be read |
| StrandsHook.OrphanAnswerHasEmptyQuery | automated-reasoning-checks-demo-with-strands.py:135-140 | an answer that follows a non-user message goes out with an empty query block |
| StrandsHook.GuardrailHook.constructor | automated-reasoning-checks-demo-with-strands.py:40-41 | both finding lists start empty |
| StrandsHook.GuardrailHook.CheckUserInput | automated-reasoning-checks-demo-with-strands.py:105-122 | returns `InputCheck`; the input findings are replaced by the latest extraction when a check ran, and the output findings are untouched |
| StrandsHook.GuardrailHook.CheckAssistantResponse | automated-reasoning-checks-demo-with-strands.py:124-164 | returns `OutputCheck`; the output findings are replaced by the latest extraction when a check ran, and the input findings are untouched |

## Left out

- Remote services (ApplyGuardrail, Converse, the OpenAI client, the Strands agent and
  model) are function parameters. The export API and its paginator are not part of this
  model. Only the responses these services return are modelled.
- PDF text extraction (`utils/pdf_utils.py`) is not part of this model. Its result is the
  `policyFile` parameter, and other exceptions it could raise are not modelled.
- Configuration loading (`utils/config.py`), environment variables and `.env` files are
  not part of this model.
- The interactive REPL loops are left out. Each tester's loop body is modelled as
  `Exchange`. Also left out: command handling, `show_help`, `show_status`,
  `display_policies`, `interactive_policy_selection` and every `print` or `json.dumps`
  call.
- The printing of findings after the history updates is left out. This covers both the
  OpenAI and Converse testers, and the hooks' intervention messages. In the Converse
  tester this printing comes after the history update, so it cannot change the history.
- The static `apply_guardrail` prints every finding payload. This loop raises only on
  responses that extraction also rejects, so the model leaves it out.
- Token usage figures, `success_rate` (floating point), file writing, YAML dumping and
  timestamped file names are left out.
- The template is typed records. Its JSON and YAML rendering is not modelled.
- The OpenAI tester's reply is a typed record rather than a dictionary, so `"message" in
  response` always holds for a reply that is not an error.
- The Strands tester's `chat_with_agent` runs inside the agent library and is not part of
  this model. The hook's callbacks receive the message, or the message list, as their
  argument.
- ExportPolicy.ExampleArn: the usage example ARN is stated as its colon-joined fields,
  not as one string literal.
- ExportPolicy.ParsePolicyArn: its own contract states less than the source promises.
  The error conditions are stated by `ArnErrorsByCount`, and the field positions by
  `ParsedArnInPlace`.
- StaticRunner.PassedCount: its own contract bounds the count only. What the count means
  is stated by `RunAllTests`.
- Common.ParseFinding: any rule list that is not a list is treated as malformed. Python
  `supporting + contradicting` does not raise on two strings, which it concatenates, or
  on two numbers or booleans, which it adds. The model keeps a finding's rules as a list
  of JSON values, so it does not represent those results.
