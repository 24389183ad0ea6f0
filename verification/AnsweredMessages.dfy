/**
 Messages whose tool calls are all answered: what the parser finds in them
 (agent/context_compaction_blocks.go), and how the responses of a run come to be answered (runLoop in
 agent/engine_loop.go).
 */
module AnsweredMessages {
  import opened Transcript
  import opened Blocks
  import opened Checkpoints
  import opened ToolBatches
  import opened ToolRuns
  import opened ResponseLives
  import opened ToolExchanges

  // ----- Answered messages -----

  // The length of the first exchange, or 1 if the messages do not begin with one.
  function HeadLength(ms: seq<Message>): (n: nat)
    requires ms != []
    ensures 1 <= n <= |ms|
  {
    if HasToolCalls(ms[0]) then 1 + ToolRun(ms[1..]) else 1
  }

  predicate HeadAnswered(ms: seq<Message>)
    requires ms != []
  {
    if HasToolCalls(ms[0]) then CompleteExchange(ms[0].toolCalls, ms[1..HeadLength(ms)]) else !ms[0].role.Tool?
  }

  // Every message with tool calls is followed by the results of exactly its calls, and there are no
  // other results.
  predicate Answered(ms: seq<Message>) {
    ms == [] || (HeadAnswered(ms) && Answered(ms[HeadLength(ms)..]))
  }

  lemma ToolRunBefore(a: seq<Message>, b: seq<Message>)
    requires b == [] || !b[0].role.Tool?
    ensures ToolRun(a + b) == ToolRun(a)
  {
    ToolRunIs(a + b, ToolRun(a));
  }

  lemma HeadBefore(a: seq<Message>, b: seq<Message>)
    requires a != [] && (b == [] || !b[0].role.Tool?)
    ensures var n := HeadLength(a);
            && HeadLength(a + b) == n && (HeadAnswered(a + b) <==> HeadAnswered(a))
            && (a + b)[n..] == a[n..] + b
  {
    var n, all := HeadLength(a), a + b;
    assert all[0] == a[0] && all[1..] == a[1..] + b;
    ToolRunBefore(a[1..], b);
    assert all[1..n] == a[1..n];
  }

  lemma {:induction false} AnsweredConcat(a: seq<Message>, b: seq<Message>)
    requires Answered(a) && Answered(b)
    ensures Answered(a + b)
  {
    if a == [] {
      assert a + b == b;
    } else {
      HeadBefore(a, b);
      AnsweredConcat(a[HeadLength(a)..], b);
    }
  }

  lemma {:induction false} PlainAnswered(ms: seq<Message>)
    requires forall j :: 0 <= j < |ms| ==> !HasToolCalls(ms[j]) && !ms[j].role.Tool?
    ensures Answered(ms)
  {
    if ms != [] {
      PlainAnswered(ms[1..]);
    }
  }

  // ----- What the parser finds -----

  lemma HeadIsBlock(ms: seq<Message>, i: int, opts: Options)
    requires 0 <= i < |ms|
    ensures BlockAt(ms, i, opts).end == i + HeadLength(ms[i..])
    ensures HeadAnswered(ms[i..]) ==> !BlockAt(ms, i, opts).reason.InvalidTool?
    ensures HeadAnswered(ms[i..]) <==>
            if HasToolCalls(ms[i]) then CompleteExchange(ms[i].toolCalls, ms[i + 1..ExchangeEnd(ms, i)])
            else !ms[i].role.Tool?
  {
    var tail := ms[i..];
    assert tail[1..] == ms[i + 1..];
    assert HasToolCalls(ms[i]) ==> tail[1..HeadLength(tail)] == ms[i + 1..ExchangeEnd(ms, i)];
  }

  // Whatever is protected, pending or prepared, the parser finds no invalid exchange in answered messages.
  lemma {:induction false} AnsweredParses(ms: seq<Message>, i: int, opts: Options)
    requires 0 <= i <= |ms| && Answered(ms[i..])
    ensures NoInvalidTool(BlocksFrom(ms, i, opts))
    decreases |ms| - i
  {
    if i < |ms| {
      var next := BlockAt(ms, i, opts).end;
      HeadIsBlock(ms, i, opts);
      assert ms[i..][next - i..] == ms[next..];
      AnsweredParses(ms, next, opts);
      NoInvalidConcat([BlockAt(ms, i, opts)], BlocksFrom(ms, next, opts));
    }
  }

  // Without images the check of a compacted transcript finds no invalid exchange only in those.
  lemma {:induction false} AnsweredExactly(ms: seq<Message>, i: int, fixedMessageCount: int)
    requires 0 <= i <= |ms| && forall j :: i <= j < |ms| ==> !HasImagePart(ms[j])
    ensures NoInvalidTool(BlocksFrom(ms, i, BareOptions(fixedMessageCount))) <==> Answered(ms[i..])
    decreases |ms| - i
  {
    var bare := BareOptions(fixedMessageCount);
    if i < |ms| {
      var next := BlockAt(ms, i, bare).end;
      HeadIsBlock(ms, i, bare);
      InvalidToolMeans(ms, i, fixedMessageCount);
      assert ms[i..][next - i..] == ms[next..];
      AnsweredExactly(ms, next, fixedMessageCount);
      assert [BlockAt(ms, i, bare)][0] == BlockAt(ms, i, bare);
      NoInvalidConcat([BlockAt(ms, i, bare)], BlocksFrom(ms, next, bare));
    }
  }

  // What starts at a block of answered messages is answered.
  lemma {:induction false} AnsweredFromBlock(ms: seq<Message>, i: int, opts: Options, k: nat)
    requires 0 <= i <= |ms| && Answered(ms[i..]) && k < |BlocksFrom(ms, i, opts)|
    ensures 0 <= BlocksFrom(ms, i, opts)[k].start <= |ms|
    ensures Answered(ms[BlocksFrom(ms, i, opts)[k].start..])
    decreases k
  {
    if k > 0 {
      var next := BlockAt(ms, i, opts).end;
      HeadIsBlock(ms, i, opts);
      assert ms[i..][next - i..] == ms[next..];
      AnsweredFromBlock(ms, next, opts, k - 1);
    }
  }

  // ----- Responses -----

  lemma ExchangeAnswered(ms: seq<Message>, n: int)
    requires 0 <= n < |ms| && HasToolCalls(ms[n]) && ExchangeEnd(ms, n) == |ms|
    requires CompleteExchange(ms[n].toolCalls, ms[n + 1..ExchangeEnd(ms, n)])
    ensures Answered(ms[n..])
  {
    HeadIsBlock(ms, n, BareOptions(0));
    assert ms[n..][HeadLength(ms[n..])..] == [];
  }

  lemma ResultsAnswer(ms: seq<Message>, n: int, response: Message)
    requires 0 <= n < |ms| && ms[n] == response && HasToolCalls(response) && Answerable(response.toolCalls)
    requires AnswersEach(ms[n + 1..], AgentCalls(response.toolCalls))
    ensures Answered(ms[n..])
  {
    var results := ms[n + 1..];
    assert results == results + [];
    ExchangeComplete(ms, n, results, []);
    ExchangeAnswered(ms, n);
  }

  // The whole life of a response with answerable calls, over any number of pauses, adds answered
  // messages.
  lemma ResponseAnswered(rules: Rules, before: ToolState, response: Message, legs: seq<Leg>, st2: ToolState,
        calls2: seq<ToolCall>, last: Leg)
    requires HasToolCalls(response) && Answerable(response.toolCalls)
    requires Reaches(rules, before.(messages := before.messages + [response]), AgentCalls(response.toolCalls), legs, st2, calls2)
    requires LegRuns(rules, st2, calls2, last) && OutcomeOf(rules, st2, calls2, last).Continued?
    ensures var ms := AfterLeg(rules, st2, calls2, last).messages;
            before.messages <= ms && Answered(ms[|before.messages|..])
  {
    var st := before.(messages := before.messages + [response]);
    var ms, n := AfterLeg(rules, st2, calls2, last).messages, |before.messages|;
    AnsweredInOrder(rules, st, AgentCalls(response.toolCalls), legs, st2, calls2, last);
    ResultsAnswer(ms, n, response);
  }
}
