/**
 * The ApplyGuardrail request the demos build from an optional question and
 * answer, and the intervention test they apply to its response. The remote
 * service itself is a parameter: a total function from request to response.
 */
module Guardrail {
  import opened Wrappers
  import opened JsonValues

  /** The `source` argument of ApplyGuardrail. */
  datatype Source = Input | Output

  /** The `qualifiers` of a text block: `query` or `guard_content`. */
  datatype Qualifier = Query | GuardContent

  /** One `{"text": {"text": ..., "qualifiers": [...]}}` content block. */
  datatype ContentBlock = TextBlock(text: string, qualifiers: seq<Qualifier>)

  /** The arguments of one ApplyGuardrail call (identifier and version are fixed per tester). */
  datatype GuardrailRequest = GuardrailRequest(source: Source, content: seq<ContentBlock>)

  /** The guardrail endpoint; a client error comes back as an `{"error": ...}` response. */
  type GuardrailService = GuardrailRequest -> Fields

  /** The texts of some content blocks, in order. */
  function Texts(blocks: seq<ContentBlock>): (ts: seq<string>)
    ensures |ts| == |blocks|
    ensures forall i :: 0 <= i < |blocks| ==> ts[i] == blocks[i].text
  {
    if blocks == [] then [] else [blocks[0].text] + Texts(blocks[1..])
  }

  /** The inputs among `question`, `answer` that Python counts as given, in that order. */
  function Present(question: Option<string>, answer: Option<string>): seq<string> {
    (if Given(question) then [question.value] else []) + (if Given(answer) then [answer.value] else [])
  }

  /**
   * The content list `apply_guardrail` builds: a qualified query and guarded
   * answer when both are given, otherwise the one given input unqualified,
   * otherwise nothing.
   */
  function Content(question: Option<string>, answer: Option<string>): (blocks: seq<ContentBlock>)
    ensures blocks == [] <==> !Given(question) && !Given(answer)
    ensures |blocks| == 2 <==> Given(question) && Given(answer)
    ensures Given(question) && Given(answer) ==>
      blocks == [TextBlock(question.value, [Query]), TextBlock(answer.value, [GuardContent])]
    ensures !(Given(question) && Given(answer)) ==>
      forall i :: 0 <= i < |blocks| ==> blocks[i].qualifiers == []
  {
    if Given(question) && Given(answer) then
      [TextBlock(question.value, [Query]), TextBlock(answer.value, [GuardContent])]
    else if Given(answer) then
      [TextBlock(answer.value, [])]
    else if Given(question) then
      [TextBlock(question.value, [])]
    else
      []
  }

  /** The content list built by appending blocks, as `apply_guardrail` does. */
  method BuildContent(question: Option<string>, answer: Option<string>) returns (content: seq<ContentBlock>)
    ensures content == Content(question, answer)
  {
    content := [];
    if Given(question) && Given(answer) {
      content := content + [TextBlock(question.value, [Query])];
      content := content + [TextBlock(answer.value, [GuardContent])];
    } else if Given(answer) {
      content := content + [TextBlock(answer.value, [])];
    } else if Given(question) {
      content := content + [TextBlock(question.value, [])];
    }
  }

  /** The blocks carry exactly the given inputs, question before answer, and nothing else. */
  lemma ContentCarriesPresentInputs(question: Option<string>, answer: Option<string>)
    ensures Texts(Content(question, answer)) == Present(question, answer)
  {
  }

  /** When the answer is given it is always the last block, guarded when a question precedes it. */
  lemma AnswerIsLastBlock(question: Option<string>, answer: Option<string>)
    requires Given(answer)
    ensures var blocks := Content(question, answer);
      blocks != [] && blocks[|blocks| - 1].text == answer.value
      && (blocks[|blocks| - 1].qualifiers == [GuardContent] <==> Given(question))
  {
  }

  /** `"action" in response and response["action"] == "GUARDRAIL_INTERVENED"`. */
  predicate Intervened(response: Fields)
  {
    HasKey(response, "action") && Get(response, "action") == Str("GUARDRAIL_INTERVENED")
  }
}
