/**
 * The hook the Strands agent calls when a message is added and after each
 * invocation: it sends the user's text, and then the question with the
 * assistant's answer, to ApplyGuardrail and keeps the automated reasoning
 * findings of the last check of each kind.
 */
module StrandsHook {
  import opened Wrappers
  import opened JsonValues
  import opened Common
  import opened Guardrail
  import BedrockChat

  /** What `block.get("text", "")` contributes to `"".join(...)`: a string, or a raised error. */
  function JoinPiece(block: Json): Result<string, ShapeError> {
    if !block.Obj? then Err(Malformed)
    else
      var text := GetOr(block.fields, "text", Str(""));
      if text.Str? then Ok(text.s) else Err(Malformed)
  }

  /** The pieces of some blocks joined in order, failing when any block raises. */
  function JoinTexts(blocks: seq<Json>): Result<string, ShapeError> {
    if blocks == [] then Ok("")
    else match JoinTexts(blocks[..|blocks| - 1])
      case Err(e) => Err(e)
      case Ok(t) =>
        match JoinPiece(blocks[|blocks| - 1])
        case Err(e) => Err(e)
        case Ok(u) => Ok(t + u)
  }

  /** `"".join(block.get("text", "") for block in message.get("content", []))`. */
  function MessageText(message: Fields): Result<string, ShapeError> {
    match Elements(GetOr(message, "content", Arr([])))
    case None => Err(Malformed)
    case Some(blocks) => JoinTexts(blocks)
  }

  /**
   * On dictionary blocks the hook's join and the Converse tester's
   * concatenation agree, raised errors included; they differ only on blocks
   * that are not dictionaries.
   */
  lemma {:induction false} JoinAgreesWithConcat(blocks: seq<Json>)
    requires forall i :: 0 <= i < |blocks| ==> blocks[i].Obj?
    ensures JoinTexts(blocks) == BedrockChat.ConcatTexts(blocks)
  {
    if blocks != [] {
      JoinAgreesWithConcat(blocks[..|blocks| - 1]);
    }
  }

  /**
   * A message's text is the `text` entries of its dictionary blocks in order,
   * a block without one contributing "", as in the Converse tester.
   */
  lemma MessageTextOfPresentTexts(message: Fields, blocks: seq<Json>)
    requires GetOr(message, "content", Arr([])) == Arr(blocks)
    requires forall i :: 0 <= i < |blocks| ==> BedrockChat.TextBlockShape(blocks[i])
    ensures MessageText(message) == Ok(BedrockChat.PresentTexts(blocks))
  {
    JoinAgreesWithConcat(blocks);
    BedrockChat.ConcatPresentTexts(blocks);
  }

  /**
   * A string block always raises in the hook; the Converse tester skips one
   * that does not contain "text" and raises on one that does.
   */
  lemma StringBlockDiffers(s: string)
    ensures JoinTexts([Str(s)]).Err?
    ensures !IsSubstring("text", s) ==> BedrockChat.ConcatTexts([Str(s)]) == Ok("")
    ensures IsSubstring("text", s) ==> BedrockChat.ConcatTexts([Str(s)]).Err?
  {
    assert [Str(s)][..0] == [];
    if !IsSubstring("text", s) {
      assert BedrockChat.BlockText(Str(s)) == Ok("");
      assert BedrockChat.ConcatTexts([Str(s)]) == Ok("" + "");
      assert "" + "" == "";
    }
  }

  /** What one hook call did: nothing, or one guardrail call and the findings taken from it. */
  datatype Check = Skipped | Checked(request: GuardrailRequest, response: Fields, findings: seq<Finding>)

  /** One guardrail call and the extraction of its findings. */
  function Evaluate(guardrail: GuardrailService, request: GuardrailRequest): Result<Check, ShapeError> {
    var response := guardrail(request);
    match Extract(response)
    case Err(e) => Err(e)
    case Ok(findings) => Ok(Checked(request, response, findings))
  }

  /** `check_user_input`: a user message with non-empty text is checked alone, as input. */
  function InputCheck(message: Fields, guardrail: GuardrailService): Result<Check, ShapeError> {
    if Lookup(message, "role") != Some(Str("user")) then Ok(Skipped)
    else match MessageText(message)
      case Err(e) => Err(e)
      case Ok(text) =>
        if text == "" then Ok(Skipped)
        else Evaluate(guardrail, GuardrailRequest(Input, [TextBlock(text, [])]))
  }

  /** The question that accompanies the answer: the text of the preceding user message, else empty. */
  function QuestionText(previous: Fields): Result<string, ShapeError> {
    if Lookup(previous, "role") == Some(Str("user")) then MessageText(previous) else Ok("")
  }

  /**
   * `check_assistant_response`: when the last of at least two messages is the
   * assistant's and its text is non-empty, the question and answer are
   * checked together, as output.
   */
  function OutputCheck(messages: seq<Fields>, guardrail: GuardrailService): Result<Check, ShapeError> {
    if |messages| < 2 then Ok(Skipped)
    else
      var last := messages[|messages| - 1];
      if Lookup(last, "role") != Some(Str("assistant")) then Ok(Skipped)
      else match MessageText(last)
        case Err(e) => Err(e)
        case Ok(answer) =>
          match QuestionText(messages[|messages| - 2])
          case Err(e) => Err(e)
          case Ok(question) =>
            if answer == "" then Ok(Skipped)
            else Evaluate(guardrail, GuardrailRequest(Output, [TextBlock(question, [Query]), TextBlock(answer, [GuardContent])]))
  }

  /** Exactly the user messages with non-empty text reach the guardrail, alone and as input. */
  lemma InputCheckProperties(message: Fields, guardrail: GuardrailService)
    ensures var r := InputCheck(message, guardrail);
      (r.Ok? && r.value.Checked? <==>
        Lookup(message, "role") == Some(Str("user")) && MessageText(message).Ok? && MessageText(message).value != ""
        && Extract(guardrail(GuardrailRequest(Input, [TextBlock(MessageText(message).value, [])]))).Ok?)
      && (r.Ok? && r.value.Checked? ==>
        r.value.request == GuardrailRequest(Input, Content(Some(MessageText(message).value), None))
        && r.value.response == guardrail(r.value.request)
        && r.value.findings == Extract(r.value.response).value)
  {
  }

  /** Messages of any other role never reach the guardrail. */
  lemma OtherRolesSkipped(message: Fields, guardrail: GuardrailService)
    requires Lookup(message, "role") != Some(Str("user"))
    ensures InputCheck(message, guardrail) == Ok(Skipped)
  {
  }

  /**
   * The output check always sends two qualified blocks; with a non-empty
   * question they are the ones the other testers build from question and answer.
   */
  lemma OutputCheckProperties(messages: seq<Fields>, guardrail: GuardrailService)
    ensures var r := OutputCheck(messages, guardrail);
      r.Ok? && r.value.Checked? ==>
        |messages| >= 2
        && Lookup(messages[|messages| - 1], "role") == Some(Str("assistant"))
        && var answer := MessageText(messages[|messages| - 1]).value;
        var question := QuestionText(messages[|messages| - 2]).value;
        answer != ""
        && r.value.request.source == Output
        && r.value.request.content == [TextBlock(question, [Query]), TextBlock(answer, [GuardContent])]
        && (question != "" ==> r.value.request.content == Content(Some(question), Some(answer)))
        && r.value.findings == Extract(r.value.response).value
  {
  }

  /**
   * Conversely, an assistant's non-empty answer after at least one other
   * message, whose question text can be read, is checked once the guardrail's
   * response can be read.
   */
  lemma OutputCheckHappens(messages: seq<Fields>, guardrail: GuardrailService)
    requires |messages| >= 2
    requires Lookup(messages[|messages| - 1], "role") == Some(Str("assistant"))
    requires MessageText(messages[|messages| - 1]).Ok? && MessageText(messages[|messages| - 1]).value != ""
    requires QuestionText(messages[|messages| - 2]).Ok?
    requires Extract(guardrail(GuardrailRequest(Output,
      [TextBlock(QuestionText(messages[|messages| - 2]).value, [Query]),
       TextBlock(MessageText(messages[|messages| - 1]).value, [GuardContent])]))).Ok?
    ensures OutputCheck(messages, guardrail).Ok? && OutputCheck(messages, guardrail).value.Checked?
  {
  }

  /** An answer after a non-user message goes out with an empty query block. */
  lemma OrphanAnswerHasEmptyQuery(messages: seq<Fields>, guardrail: GuardrailService)
    requires |messages| >= 2
    requires Lookup(messages[|messages| - 2], "role") != Some(Str("user"))
    requires OutputCheck(messages, guardrail).Ok? && OutputCheck(messages, guardrail).value.Checked?
    ensures OutputCheck(messages, guardrail).value.request.content[0] == TextBlock("", [Query])
  {
  }

  /** `AutomatedReasoningGuardrailHook`: the findings of the last input and output checks. */
  class GuardrailHook {
    var lastInputFindings: seq<Finding>
    var lastOutputFindings: seq<Finding>

    constructor()
      ensures lastInputFindings == [] && lastOutputFindings == []
    {
      lastInputFindings := [];
      lastOutputFindings := [];
    }

    /** `check_user_input`: the input findings are replaced only when a check ran to completion. */
    method CheckUserInput(message: Fields, guardrail: GuardrailService) returns (r: Result<Check, ShapeError>)
      modifies this
      ensures r == InputCheck(message, guardrail)
      ensures lastOutputFindings == old(lastOutputFindings)
      ensures lastInputFindings == if r.Ok? && r.value.Checked? then r.value.findings else old(lastInputFindings)
    {
      if Lookup(message, "role") != Some(Str("user")) {
        return Ok(Skipped);
      }
      var text := MessageText(message);
      if text.Err? {
        return Err(text.error);
      }
      if text.value == "" {
        return Ok(Skipped);
      }
      var request := GuardrailRequest(Input, [TextBlock(text.value, [])]);
      var response := guardrail(request);
      var findings := ExtractAutomatedReasoningResults(response);
      if findings.Err? {
        return Err(findings.error);
      }
      lastInputFindings := findings.value;
      r := Ok(Checked(request, response, findings.value));
    }

    /** `check_assistant_response`: the output findings are replaced only when a check ran to completion. */
    method CheckAssistantResponse(messages: seq<Fields>, guardrail: GuardrailService) returns (r: Result<Check, ShapeError>)
      modifies this
      ensures r == OutputCheck(messages, guardrail)
      ensures lastInputFindings == old(lastInputFindings)
      ensures lastOutputFindings == if r.Ok? && r.value.Checked? then r.value.findings else old(lastOutputFindings)
    {
      if |messages| < 2 {
        return Ok(Skipped);
      }
      var last := messages[|messages| - 1];
      if Lookup(last, "role") != Some(Str("assistant")) {
        return Ok(Skipped);
      }
      var answer := MessageText(last);
      if answer.Err? {
        return Err(answer.error);
      }
      var question: Result<string, ShapeError> := Ok("");
      if Lookup(messages[|messages| - 2], "role") == Some(Str("user")) {
        question := MessageText(messages[|messages| - 2]);
        if question.Err? {
          return Err(question.error);
        }
      }
      if answer.value == "" {
        return Ok(Skipped);
      }
      var request := GuardrailRequest(Output, [TextBlock(question.value, [Query]), TextBlock(answer.value, [GuardContent])]);
      var response := guardrail(request);
      var findings := ExtractAutomatedReasoningResults(response);
      if findings.Err? {
        return Err(findings.error);
      }
      lastOutputFindings := findings.value;
      r := Ok(Checked(request, response, findings.value));
    }
  }
}
