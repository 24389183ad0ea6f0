/** The chat transcript: messages and the token estimate the engine makes of them. */
module Transcript {
  import opened Text

  datatype Option<+T> = None | Some(value: T)

  // Roles after the engine's normalisation (trimmed and lower-cased).
  datatype Role = System | User | Assistant | Tool | OtherRole

  datatype Part = TextPart | ImagePart | OtherPart

  datatype LlmCall = LlmCall(id: string, name: string, arguments: string)

  // jsonBytes is the length of the message's JSON encoding, 0 when it cannot be encoded.
  datatype Message = Message(
    role: Role,
    content: string,
    parts: seq<Part>,
    toolCalls: seq<LlmCall>,
    toolCallId: string,
    jsonBytes: nat)

  predicate HasImagePart(m: Message) {
    ImagePart in m.parts
  }

  predicate HasToolCalls(m: Message) {
    m.role.Assistant? && m.toolCalls != []
  }

  // A user message with text and nothing else: runtime metadata, its context, and checkpoints.
  predicate IsPlainUserMessage(m: Message) {
    m.role.User? && m.content != "" && m.parts == [] && m.toolCalls == [] && m.toolCallId == ""
  }

  // The least number of tokens, but at least one, at three bytes a token.
  function EstimateMessageTokens(m: Message): (tokens: nat)
    ensures tokens >= 1 && m.jsonBytes <= 3 * tokens
    ensures tokens == 1 || 3 * (tokens - 1) < m.jsonBytes
  {
    var tokens := (m.jsonBytes + 2) / 3;
    if tokens < 1 then 1 else tokens
  }

  function SumTokens(ms: seq<Message>): nat {
    if ms == [] then 0 else SumTokens(ms[..|ms| - 1]) + EstimateMessageTokens(ms[|ms| - 1])
  }

  method EstimateMessagesTokens(ms: seq<Message>) returns (total: nat)
    ensures total == SumTokens(ms)
  {
    total := 0;
    for i := 0 to |ms|
      invariant total == SumTokens(ms[..i])
    {
      assert ms[..i + 1][..i] == ms[..i];
      total := total + EstimateMessageTokens(ms[i]);
    }
    assert ms[..|ms|] == ms;
  }

  lemma {:induction false} SumTokensConcat(a: seq<Message>, b: seq<Message>)
    ensures SumTokens(a + b) == SumTokens(a) + SumTokens(b)
  {
    if b == [] {
      assert a + b == a;
    } else {
      var init := b[..|b| - 1];
      assert (a + b)[..|a + b| - 1] == a + init;
      SumTokensConcat(a, init);
    }
  }
}
