/**
 * The interactive tester that talks to the model through the Bedrock
 * Converse API with the guardrail attached to the call. Its state is the
 * conversation history and the lazily loaded refund policy text; the
 * Converse endpoint and the policy file are parameters.
 */
module BedrockChat {
  import opened Wrappers
  import opened JsonValues
  import opened Common

  /** The `role` of a conversation message. */
  datatype Role = User | Assistant

  /** One entry of the conversation history. */
  datatype Message = Message(role: Role, content: string)

  /** A Converse message: a role and its `{"text": ...}` content blocks. */
  datatype ConverseMessage = ConverseMessage(role: Role, content: seq<string>)

  /** The arguments of one Converse call (model and guardrail configuration are fixed per tester). */
  datatype ConverseRequest = ConverseRequest(messages: seq<ConverseMessage>, system: seq<string>)

  /** The Converse endpoint; a client error comes back as an `{"error": ...}` response. */
  type ConverseService = ConverseRequest -> Fields

  const SystemPrompt := "You are a customer support agent. You follow the provided refund policy. Reply with max 10 words"
  const PolicyHeading := "\n\nREFUND POLICY:\n"
  const PolicyNotFound := "Refund policy file not found at ./docs/Customer Support Refund Policy.pdf"
  const GuardrailIntervened := "guardrail_intervened"

  /** A history entry as a Converse message with one text block. */
  function ToConverse(m: Message): ConverseMessage {
    ConverseMessage(m.role, [m.content])
  }

  /** The history entries converted one by one, in order. */
  function Turns(history: seq<Message>): seq<ConverseMessage> {
    seq(|history|, i requires 0 <= i < |history| => ToConverse(history[i]))
  }

  /** The request for a new user message: the history, the user turn, and the policy in the system text. */
  function Request(policyText: string, history: seq<Message>, userMessage: string): ConverseRequest {
    ConverseRequest(Turns(history) + [ConverseMessage(User, [userMessage])], [SystemPrompt + PolicyHeading + policyText])
  }

  /** The request carries exactly the history with the new user turn appended, each as one text block. */
  lemma RequestIsNewHistory(policyText: string, history: seq<Message>, userMessage: string)
    ensures var r := Request(policyText, history, userMessage);
      r.messages == Turns(history + [Message(User, userMessage)])
      && |r.messages| == |history| + 1
      && (forall i :: 0 <= i < |history| ==> r.messages[i].role == history[i].role && r.messages[i].content == [history[i].content])
      && r.messages[|history|] == ConverseMessage(User, [userMessage])
      && r.system == [SystemPrompt + PolicyHeading + policyText]
  {
    var r := Request(policyText, history, userMessage);
    var h := history + [Message(User, userMessage)];
    assert |r.messages| == |Turns(h)|;
    forall i | 0 <= i < |h| ensures r.messages[i] == Turns(h)[i] {
      if i < |history| {
        assert h[i] == history[i];
      }
    }
  }

  /** The loop over the history that fills `messages`. */
  method ConvertHistory(history: seq<Message>) returns (messages: seq<ConverseMessage>)
    ensures |messages| == |history|
    ensures forall i :: 0 <= i < |history| ==> messages[i] == ConverseMessage(history[i].role, [history[i].content])
  {
    messages := [];
    var i := 0;
    while i < |history|
      invariant 0 <= i <= |history|
      invariant |messages| == i
      invariant forall j :: 0 <= j < i ==> messages[j] == ToConverse(history[j])
    {
      messages := messages + [ToConverse(history[i])];
      i := i + 1;
    }
  }

  /** The policy text after the lazy load: kept when truthy, otherwise read from the file if it exists. */
  function LoadedPolicy(policyText: Option<string>, policyFile: Option<string>): Option<string> {
    if Given(policyText) then policyText
    else if policyFile.Some? then policyFile
    else policyText
  }

  /** `"stopReason" in response and response["stopReason"] == "guardrail_intervened"`. */
  predicate Stopped(response: Fields) {
    HasKey(response, "stopReason") && Get(response, "stopReason") == Str(GuardrailIntervened)
  }

  /**
   * The text `content["text"]` contributes to the assistant message: nothing
   * when `"text" in content` is false, the string when it is a dictionary
   * entry holding one, and a raised error otherwise.
   */
  function BlockText(block: Json): Result<string, ShapeError> {
    match Contains(block, "text")
    case None => Err(Malformed)
    case Some(false) => Ok("")
    case Some(true) =>
      if block.Obj? && Get(block.fields, "text").Str? then Ok(Get(block.fields, "text").s) else Err(Malformed)
  }

  /** The concatenation of the block texts, failing at the first block that raises. */
  function ConcatTexts(blocks: seq<Json>): Result<string, ShapeError> {
    if blocks == [] then Ok("")
    else match ConcatTexts(blocks[..|blocks| - 1])
      case Err(e) => Err(e)
      case Ok(t) =>
        match BlockText(blocks[|blocks| - 1])
        case Err(e) => Err(e)
        case Ok(u) => Ok(t + u)
  }

  /** The assistant message `process_response` assembles from `output.message.content`. */
  function TextOf(response: Fields): Result<string, ShapeError> {
    if !HasKey(response, "output") then Ok("")
    else
      var output := Get(response, "output");
      match Contains(output, "message")
      case None => Err(Malformed)
      case Some(false) => Ok("")
      case Some(true) =>
        if !output.Obj? then Err(Malformed)
        else
          var message := Get(output.fields, "message");
          if !message.Obj? then Err(Malformed)
          else
            match Elements(GetOr(message.fields, "content", Arr([])))
            case None => Err(Malformed)
            case Some(blocks) => ConcatTexts(blocks)
  }

  /** A dictionary block whose `text` entry, when it has one, is a string. */
  predicate TextBlockShape(block: Json) {
    block.Obj? && (HasKey(block.fields, "text") ==> Get(block.fields, "text").Str?)
  }

  /** The `text` entries of dictionary blocks in order, a block without one contributing "". */
  function PresentTexts(blocks: seq<Json>): string
    requires forall i :: 0 <= i < |blocks| ==> TextBlockShape(blocks[i])
  {
    if blocks == [] then ""
    else
      var last := blocks[|blocks| - 1];
      assert TextBlockShape(last);
      PresentTexts(blocks[..|blocks| - 1]) + (if HasKey(last.fields, "text") then Get(last.fields, "text").s else "")
  }

  /** Dictionary blocks concatenate to the texts of those that have one, in order. */
  lemma {:induction false} ConcatPresentTexts(blocks: seq<Json>)
    requires forall i :: 0 <= i < |blocks| ==> TextBlockShape(blocks[i])
    ensures ConcatTexts(blocks) == Ok(PresentTexts(blocks))
  {
    if blocks != [] {
      ConcatPresentTexts(blocks[..|blocks| - 1]);
    }
  }

  /** Blocks without a text entry, and the absence of an output message, contribute nothing. */
  lemma TextOfSkipsMissingParts(response: Fields)
    ensures !HasKey(response, "output") ==> TextOf(response) == Ok("")
    ensures HasKey(response, "output") && Get(response, "output") == Obj([]) ==> TextOf(response) == Ok("")
  {
  }

  /** A message with one well-shaped text block yields exactly that text. */
  lemma SingleTextBlock(text: string, rest: Fields)
    ensures TextOf([("output", Obj([("message", Obj([("content", Arr([Obj([("text", Str(text))])]))]))]))] + rest) == Ok(text)
  {
    var block := Obj([("text", Str(text))]);
    var message := Obj([("content", Arr([block]))]);
    var output := Obj([("message", message)]);
    var response := [("output", output)] + rest;
    assert response[0] == ("output", output);
    assert Get(response, "output") == output;
    assert Get(output.fields, "message") == message;
    assert GetOr(message.fields, "content", Arr([])) == Arr([block]);
    assert Contains(output, "message") == Some(true);
    assert Contains(block, "text") == Some(true);
    assert Get(block.fields, "text") == Str(text);
    assert BlockText(block) == Ok(text);
    assert [block][..0] == [];
    assert ConcatTexts([block]) == Ok("" + text);
    assert "" + text == text;
  }

  /** The assistant turn `process_response` appends for a response: at most one, and only for unblocked, non-empty text. */
  function Reply(response: Fields): (added: seq<Message>)
    ensures |added| <= 1
    ensures added != [] ==> added[0].role == Assistant && added[0].content != ""
    ensures added != [] <==>
      !HasKey(response, "error") && !Stopped(response) && TextOf(response).Ok? && TextOf(response).value != ""
  {
    if HasKey(response, "error") then []
    else match TextOf(response)
      case Err(_) => []
      case Ok(text) => if text != "" && !Stopped(response) then [Message(Assistant, text)] else []
  }

  /** A reply the guardrail stopped never reaches the history, whatever text it carries. */
  lemma StoppedReplyDropped(response: Fields)
    requires Stopped(response)
    ensures Reply(response) == []
  {
  }

  /** Every assistant turn directly follows a user turn. */
  predicate WellFormedHistory(history: seq<Message>) {
    forall i :: 0 <= i < |history| && history[i].role == Assistant ==> i > 0 && history[i - 1].role == User
  }

  /** A user turn followed by what `Reply` adds keeps a history well formed. */
  lemma {:induction false} UserTurnKeepsWellFormed(history: seq<Message>, userMessage: string, added: seq<Message>)
    requires WellFormedHistory(history)
    requires |added| <= 1
    ensures WellFormedHistory(history + [Message(User, userMessage)] + added)
  {
    var h := history + [Message(User, userMessage)] + added;
    forall i | 0 <= i < |h| && h[i].role == Assistant ensures i > 0 && h[i - 1].role == User {
      if i < |history| {
        assert h[i] == history[i] && h[i - 1] == history[i - 1];
      } else if i > |history| {
        assert h[i - 1] == Message(User, userMessage);
      }
    }
  }

  /** The `for` loop of `process_response` that concatenates the assistant's text blocks. */
  method ConcatText(response: Fields) returns (r: Result<string, ShapeError>)
    ensures r == TextOf(response)
  {
    if !HasKey(response, "output") {
      return Ok("");
    }
    var output := Get(response, "output");
    var hasMessage := Contains(output, "message");
    if hasMessage.None? {
      return Err(Malformed);
    }
    if !hasMessage.value {
      return Ok("");
    }
    if !output.Obj? || !Get(output.fields, "message").Obj? {
      return Err(Malformed);
    }
    var message := Get(output.fields, "message");
    var contents := Elements(GetOr(message.fields, "content", Arr([])));
    if contents.None? {
      return Err(Malformed);
    }
    var blocks := contents.value;
    var text := "";
    var i := 0;
    while i < |blocks|
      invariant 0 <= i <= |blocks|
      invariant ConcatTexts(blocks[..i]) == Ok(text)
    {
      assert blocks[..i + 1][..i] == blocks[..i];
      var piece := BlockText(blocks[i]);
      if piece.Err? {
        ConcatFailsAt(blocks, i);
        return Err(piece.error);
      }
      text := text + piece.value;
      i := i + 1;
    }
    assert blocks[..i] == blocks;
    r := Ok(text);
  }

  /** `InteractiveAutomatedReasoningTester`: the mutable part of the tester. */
  class InteractiveTester {
    var history: seq<Message>
    var policyText: Option<string>

    constructor()
      ensures history == [] && policyText == None
    {
      history := [];
      policyText := None;
    }

    /**
     * `converse_with_guardrail`: without a policy the call fails before the
     * history changes; otherwise the user turn joins the history before the
     * call, and stays there whatever the call returns.
     */
    method ConverseWithGuardrail(userMessage: string, policyFile: Option<string>, converse: ConverseService)
      returns (response: Fields)
      modifies this
      ensures policyText == LoadedPolicy(old(policyText), policyFile)
      ensures !Given(old(policyText)) && policyFile.None? ==>
        response == [("error", Str(PolicyNotFound))] && history == old(history)
      ensures Given(old(policyText)) || policyFile.Some? ==>
        history == old(history) + [Message(User, userMessage)]
        && response == converse(Request(policyText.value, old(history), userMessage))
    {
      if !Given(policyText) {
        if policyFile.None? {
          return [("error", Str(PolicyNotFound))];
        }
        policyText := policyFile;
      }
      var messages := ConvertHistory(history);
      RequestIsNewHistory(policyText.value, history, userMessage);
      history := history + [Message(User, userMessage)];
      messages := messages + [ConverseMessage(User, [userMessage])];
      var request := ConverseRequest(messages, [SystemPrompt + PolicyHeading + policyText.value]);
      assert request == Request(policyText.value, old(history), userMessage);
      response := converse(request);
    }

    /**
     * `process_response`: an error response changes nothing, and neither does
     * one whose text cannot be assembled; otherwise the assistant's non-empty
     * text joins the history unless the guardrail stopped it.
     */
    method ProcessResponse(response: Fields)
      modifies this
      ensures policyText == old(policyText)
      ensures history == old(history) + Reply(response)
    {
      if HasKey(response, "error") {
        return;
      }
      var text := ConcatText(response);
      if text.Err? {
        return;
      }
      if text.value != "" && !Stopped(response) {
        history := history + [Message(Assistant, text.value)];
      }
    }

    /** `clear_history`: the history empties, the loaded policy stays. */
    method ClearHistory()
      modifies this
      ensures history == [] && policyText == old(policyText)
    {
      history := [];
    }

    /** One pass of the session loop: `converse_with_guardrail`, then `process_response`. */
    method Exchange(userMessage: string, policyFile: Option<string>, converse: ConverseService)
      modifies this
      requires WellFormedHistory(history)
      ensures WellFormedHistory(history)
      ensures policyText == LoadedPolicy(old(policyText), policyFile)
      ensures !Given(old(policyText)) && policyFile.None? ==> history == old(history)
      ensures Given(old(policyText)) || policyFile.Some? ==>
        history == old(history) + [Message(User, userMessage)]
          + Reply(converse(Request(policyText.value, old(history), userMessage)))
    {
      var response := ConverseWithGuardrail(userMessage, policyFile, converse);
      ProcessResponse(response);
      if Given(old(policyText)) || policyFile.Some? {
        UserTurnKeepsWellFormed(old(history), userMessage, Reply(response));
      }
    }
  }

  /** Once a block raises, the whole concatenation raises its error. */
  lemma ConcatFailsAt(blocks: seq<Json>, i: nat)
    requires i < |blocks|
    requires ConcatTexts(blocks[..i]).Ok? && BlockText(blocks[i]).Err?
    ensures ConcatTexts(blocks) == Err(BlockText(blocks[i]).error)
  {
    assert blocks[..i + 1][..i] == blocks[..i];
    ConcatFailsFrom(blocks, i + 1, BlockText(blocks[i]).error);
  }

  /** A prefix that raises makes every longer prefix raise the same error. */
  lemma {:induction false} ConcatFailsFrom(blocks: seq<Json>, k: nat, e: ShapeError)
    requires 0 < k <= |blocks|
    requires ConcatTexts(blocks[..k]) == Err(e)
    ensures ConcatTexts(blocks) == Err(e)
    decreases |blocks| - k
  {
    if k < |blocks| {
      assert blocks[..k + 1][..k] == blocks[..k];
      ConcatFailsFrom(blocks, k + 1, e);
    } else {
      assert blocks[..k] == blocks;
    }
  }
}
