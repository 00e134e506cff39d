/**
 * The interactive tester that talks to the model through the OpenAI SDK and
 * checks input and output with two separate ApplyGuardrail calls. Its state
 * is the conversation history and the lazily loaded refund policy text; the
 * guardrail, the model and the policy file are parameters.
 */
module OpenAIChat {
  import opened Wrappers
  import opened JsonValues
  import opened Guardrail

  /** The `role` of a chat message. */
  datatype Role = System | User | Assistant

  /** A `{"role": ..., "content": ...}` chat message; the model's content may be None. */
  datatype ChatMessage = ChatMessage(role: Role, content: Option<string>)

  const SystemPrompt := "You are a customer support agent. You follow the provided refund policy."
  const PolicyHeading := "\n\nREFUND POLICY:\n"
  const PolicyNotFound := "Refund policy file not found at ./docs/Customer Support Refund Policy.pdf"
  const NoInputMessage := "At least one of question or answer must be provided"
  const ApiErrorPrefix := "OpenAI API error: "

  /** The chat completion endpoint: the first choice's content, or the message of the exception it raised. */
  type ChatModel = seq<ChatMessage> -> Result<Option<string>, string>

  /** The guardrail check that blocked a turn. */
  datatype Stage = InputStage | OutputStage

  /** The dictionary `chat_with_model` returns (token usage aside). */
  datatype ChatReply =
    | Failed(error: string)
    | Blocked(stage: Stage, guardrailResponse: Fields, message: Option<string>)
    | Passed(message: Option<string>, inputGuardrailResponse: Fields, outputGuardrailResponse: Fields)

  /** `"OUTPUT" if answer else "INPUT"`. */
  function SourceFor(answer: Option<string>): (s: Source)
    ensures s == Output <==> Given(answer)
  {
    if Given(answer) then Output else Input
  }

  /**
   * `apply_guardrail` of this tester: the same content as the static runner,
   * but a ValueError when there is nothing to check, and the source follows
   * the answer.
   */
  method ApplyGuardrail(guardrail: GuardrailService, question: Option<string>, answer: Option<string>)
    returns (r: Result<Fields, string>)
    ensures r.Err? <==> !Given(question) && !Given(answer)
    ensures r.Err? ==> r.error == NoInputMessage
    ensures r.Ok? ==> r.value == guardrail(GuardrailRequest(SourceFor(answer), Content(question, answer)))
  {
    var content := BuildContent(question, answer);
    if content == [] {
      return Err(NoInputMessage);
    }
    r := Ok(guardrail(GuardrailRequest(SourceFor(answer), content)));
  }

  /** The system message: the prompt, the heading, then the policy text. */
  function SystemMessage(policyText: string): ChatMessage {
    ChatMessage(System, Some(SystemPrompt + PolicyHeading + policyText))
  }

  /** The request messages: the system message, the history in order, the new user message. */
  function RequestMessages(policyText: string, history: seq<ChatMessage>, userMessage: string): (msgs: seq<ChatMessage>)
    ensures |msgs| == |history| + 2
    ensures msgs[0] == SystemMessage(policyText)
    ensures msgs[1..|msgs| - 1] == history
    ensures msgs[|msgs| - 1] == ChatMessage(User, Some(userMessage))
  {
    [SystemMessage(policyText)] + history + [ChatMessage(User, Some(userMessage))]
  }

  /** The `messages` list built by append, extend, append. */
  method AssembleMessages(policyText: string, history: seq<ChatMessage>, userMessage: string)
    returns (messages: seq<ChatMessage>)
    ensures messages == RequestMessages(policyText, history, userMessage)
  {
    messages := [];
    messages := messages + [SystemMessage(policyText)];
    messages := messages + history;
    messages := messages + [ChatMessage(User, Some(userMessage))];
  }

  /** A history without system turns yields a request whose only system message is the first. */
  lemma OneSystemMessage(policyText: string, history: seq<ChatMessage>, userMessage: string)
    requires forall i :: 0 <= i < |history| ==> history[i].role != System
    ensures var msgs := RequestMessages(policyText, history, userMessage);
      forall i :: 0 <= i < |msgs| ==> (msgs[i].role == System <==> i == 0)
  {
    var msgs := RequestMessages(policyText, history, userMessage);
    forall i | 0 < i < |msgs| - 1 ensures msgs[i].role != System {
      assert msgs[i] == msgs[1..|msgs| - 1][i - 1];
    }
  }

  /** The policy text after the lazy load: kept when truthy, otherwise read from the file if it exists. */
  function LoadedPolicy(policyText: Option<string>, policyFile: Option<string>): Option<string> {
    if Given(policyText) then policyText
    else if policyFile.Some? then policyFile
    else policyText
  }

  /** What `chat_with_model` returns for the state it starts from and what the services answer. */
  function Chat(policyText: Option<string>, policyFile: Option<string>, history: seq<ChatMessage>,
                userMessage: string, guardrail: GuardrailService, model: ChatModel): ChatReply
  {
    if !Given(policyText) && policyFile.None? then Failed(PolicyNotFound)
    else if userMessage == "" then Failed(NoInputMessage)
    else
      var text := LoadedPolicy(policyText, policyFile).value;
      var inputResponse := guardrail(GuardrailRequest(Input, Content(Some(userMessage), None)));
      if Intervened(inputResponse) then Blocked(InputStage, inputResponse, Some(userMessage))
      else
        match model(RequestMessages(text, history, userMessage))
        case Err(e) => Failed(ApiErrorPrefix + e)
        case Ok(answer) =>
          var outputResponse := guardrail(GuardrailRequest(SourceFor(answer), Content(Some(userMessage), answer)));
          if Intervened(outputResponse) then Blocked(OutputStage, outputResponse, answer)
          else Passed(answer, inputResponse, outputResponse)
  }

  /** A turn blocked at input never reaches the model: any model gives the same reply. */
  lemma InputBlockSkipsModel(policyText: Option<string>, policyFile: Option<string>, history: seq<ChatMessage>,
                             userMessage: string, guardrail: GuardrailService, m1: ChatModel, m2: ChatModel)
    requires userMessage != ""
    requires Intervened(guardrail(GuardrailRequest(Input, [TextBlock(userMessage, [])])))
    ensures Chat(policyText, policyFile, history, userMessage, guardrail, m1)
         == Chat(policyText, policyFile, history, userMessage, guardrail, m2)
    ensures Given(policyText) || policyFile.Some? ==>
      Chat(policyText, policyFile, history, userMessage, guardrail, m1).Blocked?
      && Chat(policyText, policyFile, history, userMessage, guardrail, m1).stage == InputStage
  {
  }

  /** A missing policy file fails the turn before any service is consulted. */
  lemma MissingPolicyFailsFirst(history: seq<ChatMessage>, userMessage: string, guardrail: GuardrailService, model: ChatModel)
    ensures Chat(None, None, history, userMessage, guardrail, model) == Failed(PolicyNotFound)
    ensures Chat(Some(""), None, history, userMessage, guardrail, model) == Failed(PolicyNotFound)
  {
  }

  /**
   * When the model answers with non-empty text, the output check sends the
   * question as query and the answer as guarded content, with source OUTPUT,
   * and the reply carries exactly that check's response.
   */
  lemma OutputCheckPairsQuestionAndAnswer(policyText: Option<string>, policyFile: Option<string>, history: seq<ChatMessage>,
                                          userMessage: string, guardrail: GuardrailService, model: ChatModel, answer: string)
    requires Given(policyText) || policyFile.Some?
    requires userMessage != "" && answer != ""
    requires !Intervened(guardrail(GuardrailRequest(Input, [TextBlock(userMessage, [])])))
    requires model(RequestMessages(LoadedPolicy(policyText, policyFile).value, history, userMessage)) == Ok(Some(answer))
    ensures var outputResponse := guardrail(GuardrailRequest(Output, [TextBlock(userMessage, [Query]), TextBlock(answer, [GuardContent])]));
      var reply := Chat(policyText, policyFile, history, userMessage, guardrail, model);
      (reply.Passed? || reply.Blocked?)
      && (reply.Passed? ==> reply.message == Some(answer) && reply.outputGuardrailResponse == outputResponse)
      && (reply.Blocked? ==> reply.stage == OutputStage && reply.guardrailResponse == outputResponse)
      && (reply.Passed? <==> !Intervened(outputResponse))
  {
  }

  /** Every assistant turn directly follows a user turn, and the history holds no system turn. */
  predicate WellFormedHistory(history: seq<ChatMessage>) {
    forall i {:trigger history[i]} :: 0 <= i < |history| ==>
      history[i].role != System && (history[i].role == Assistant ==> i > 0 && history[i - 1].role == User)
  }

  /** Appending a user turn, optionally followed by an assistant turn, keeps a history well formed. */
  lemma {:induction false} AppendTurnKeepsWellFormed(history: seq<ChatMessage>, user: ChatMessage, assistant: seq<ChatMessage>)
    requires WellFormedHistory(history)
    requires user.role == User
    requires |assistant| <= 1 && forall j :: 0 <= j < |assistant| ==> assistant[j].role == Assistant
    ensures WellFormedHistory(history + [user] + assistant)
  {
    var h := history + [user] + assistant;
    forall i | 0 <= i < |h|
      ensures h[i].role != System && (h[i].role == Assistant ==> i > 0 && h[i - 1].role == User)
    {
      if i < |history| {
        assert h[i] == history[i];
        if i > 0 { assert h[i - 1] == history[i - 1]; }
      } else if i == |history| {
        assert h[i] == user;
      } else {
        assert h[i] == assistant[i - |history| - 1] && h[i - 1] == user;
      }
    }
  }

  /** `InteractiveAutomatedReasoningTester`: the mutable part of the tester. */
  class InteractiveTester {
    var history: seq<ChatMessage>
    var policyText: Option<string>

    constructor()
      ensures history == [] && policyText == None
    {
      history := [];
      policyText := None;
    }

    /** `chat_with_model`: loads the policy if needed and leaves the history alone. */
    method ChatWithModel(userMessage: string, policyFile: Option<string>, guardrail: GuardrailService, model: ChatModel)
      returns (reply: ChatReply)
      modifies this
      ensures history == old(history)
      ensures policyText == LoadedPolicy(old(policyText), policyFile)
      ensures reply == Chat(old(policyText), policyFile, old(history), userMessage, guardrail, model)
    {
      if !Given(policyText) {
        if policyFile.None? {
          return Failed(PolicyNotFound);
        }
        policyText := policyFile;
      }
      var inputResponse := ApplyGuardrail(guardrail, Some(userMessage), None);
      if inputResponse.Err? {
        return Failed(inputResponse.error);
      }
      if Intervened(inputResponse.value) {
        return Blocked(InputStage, inputResponse.value, Some(userMessage));
      }
      var messages := AssembleMessages(policyText.value, history, userMessage);
      var completion := model(messages);
      if completion.Err? {
        return Failed(ApiErrorPrefix + completion.error);
      }
      var answer := completion.value;
      var outputResponse := ApplyGuardrail(guardrail, Some(userMessage), answer);
      assert outputResponse.Ok?;
      if Intervened(outputResponse.value) {
        return Blocked(OutputStage, outputResponse.value, answer);
      }
      reply := Passed(answer, inputResponse.value, outputResponse.value);
    }

    /**
     * `process_response`: an error changes nothing; otherwise the user turn
     * is appended, and the assistant's message too unless the turn was blocked.
     */
    method ProcessResponse(reply: ChatReply, userMessage: string)
      modifies this
      ensures policyText == old(policyText)
      ensures reply.Failed? ==> history == old(history)
      ensures reply.Blocked? ==> history == old(history) + [ChatMessage(User, Some(userMessage))]
      ensures reply.Passed? ==>
        history == old(history) + [ChatMessage(User, Some(userMessage)), ChatMessage(Assistant, reply.message)]
      ensures WellFormedHistory(old(history)) ==> WellFormedHistory(history)
    {
      if reply.Failed? {
        return;
      }
      ghost var before := history;
      history := history + [ChatMessage(User, Some(userMessage))];
      if !reply.Blocked? {
        history := history + [ChatMessage(Assistant, reply.message)];
        AppendTurnKeepsWellFormed2(before, userMessage, reply.message);
      } else {
        if WellFormedHistory(before) {
          AppendTurnKeepsWellFormed(before, ChatMessage(User, Some(userMessage)), []);
          assert before + [ChatMessage(User, Some(userMessage))] + [] == history;
        }
      }
    }

    /** `clear_history`: the history empties, the loaded policy stays. */
    method ClearHistory()
      modifies this
      ensures history == [] && policyText == old(policyText)
    {
      history := [];
    }

    /** One pass of the session loop: `chat_with_model`, then `process_response`. */
    method Exchange(userMessage: string, policyFile: Option<string>, guardrail: GuardrailService, model: ChatModel)
      returns (reply: ChatReply)
      modifies this
      requires WellFormedHistory(history)
      ensures WellFormedHistory(history)
      ensures reply == Chat(old(policyText), policyFile, old(history), userMessage, guardrail, model)
      ensures policyText == LoadedPolicy(old(policyText), policyFile)
    {
      reply := ChatWithModel(userMessage, policyFile, guardrail, model);
      ProcessResponse(reply, userMessage);
    }
  }

  /** `AppendTurnKeepsWellFormed` for a user turn followed by one assistant turn. */
  lemma AppendTurnKeepsWellFormed2(history: seq<ChatMessage>, userMessage: string, message: Option<string>)
    ensures WellFormedHistory(history) ==>
      WellFormedHistory(history + [ChatMessage(User, Some(userMessage))] + [ChatMessage(Assistant, message)])
  {
    if WellFormedHistory(history) {
      AppendTurnKeepsWellFormed(history, ChatMessage(User, Some(userMessage)), [ChatMessage(Assistant, message)]);
    }
  }
}
