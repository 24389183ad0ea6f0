/**
 The exchange a tool-call response leaves in the transcript (runLoop in agent/engine_loop.go and
 toAgentToolCalls in agent/tools_adapter.go), and when the block parser accepts it as complete.
 */
module ToolExchanges {
  import opened Text
  import opened Transcript
  import opened Blocks
  import opened ToolBatches
  import opened ToolRuns
  import opened ResponseLives

  // m is the result message of the call.
  predicate AnswersCall(m: Message, call: ToolCall) {
    && m.parts == [] && m.toolCalls == []
    && if TrimSpace(call.id) != "" then m.role.Tool? && m.toolCallId == call.id
       else m.role.User? && m.toolCallId == ""
  }

  predicate AnswersEach(ms: seq<Message>, calls: seq<ToolCall>) {
    |ms| == |calls| && forall i :: 0 <= i < |ms| ==> AnswersCall(ms[i], calls[i])
  }

  // ----- The results of one passage -----

  lemma {:induction false} CheckedInCallOrder(c: Checked, rules: Rules, calls: seq<ToolCall>,
        answers: seq<GuardAnswer>, identity: string)
    requires |c.items| <= |calls| == |answers|
    requires forall i :: 0 <= i < |c.items| ==> c.items[i].call == calls[i]
    ensures var done := CheckCalls(c, rules, calls, answers, identity);
            && |done.items| <= |calls|
            && (done.asked || done.aborted || |done.items| == |calls|)
            && forall i :: 0 <= i < |done.items| ==> done.items[i].call == calls[i]
    decreases |calls| - |c.items|
  {
    var i := |c.items|;
    if i < |calls| && !c.asked && !c.aborted {
      var next := CheckNext(c, rules, calls[i], answers[i], IdentityOf(identity, i));
      if !next.asked && !next.aborted {
        CheckedInCallOrder(next, rules, calls, answers, identity);
      }
    }
  }

  lemma CallsKept(b: Batch, log: seq<Completion>)
    requires Orderly(log, |b.items|)
    ensures forall i :: 0 <= i < |b.items| ==> CompleteAll(b, log).items[i].call == b.items[i].call
  {
    ItemsAfter(b, log);
    forall i: nat | i < |b.items| ensures CompleteAll(b, log).items[i].call == b.items[i].call {
      if Recorded(log, i) {
        var k :| 0 <= k < |log| && log[k].index == i;
      }
    }
  }

  function IndexSet(log: seq<Completion>): set<nat> {
    set k | 0 <= k < |log| :: log[k].index
  }

  lemma {:induction false} IndexSetSize(log: seq<Completion>, n: nat)
    requires Orderly(log, n)
    ensures |IndexSet(log)| == |log|
  {
    if log != [] {
      var m := |log| - 1;
      IndexSetSize(log[..m], n);
      assert IndexSet(log) == IndexSet(log[..m]) + {log[m].index} by {
        forall i | i in IndexSet(log) ensures i in IndexSet(log[..m]) + {log[m].index} {
          var k :| 0 <= k < |log| && log[k].index == i;
          assert k < m ==> log[..m][k].index == i;
        }
      }
    }
  }

  function Below(n: nat): (s: set<nat>)
    ensures |s| == n && forall i: nat :: i in s <==> i < n
  {
    if n == 0 then {} else Below(n - 1) + {n - 1}
  }

  // A record that misses no call has one entry for each.
  lemma RecordsAllLength(log: seq<Completion>, n: nat)
    requires RecordsAll(log, n)
    ensures |log| == n
  {
    IndexSetSize(log, n);
    forall i: nat | i < n ensures i in IndexSet(log) {
      assert Recorded(log, i);
    }
    assert IndexSet(log) == Below(n);
  }

  // Nothing but the results of the recorded calls is appended, in the order of the calls.
  lemma LegAnswers(rules: Rules, st: ToolState, calls: seq<ToolCall>, leg: Leg)
    requires LegRuns(rules, st, calls, leg)
    ensures var after := AfterLeg(rules, st, calls, leg).messages;
            && st.messages <= after
            && AnswersEach(after[|st.messages|..], calls[..|leg.log|])
    ensures !OutcomeOf(rules, st, calls, leg).Stopped? ==> |leg.log| == |Check(rules, st, calls, leg).items|
    ensures OutcomeOf(rules, st, calls, leg).Continued? ==> |leg.log| == |calls|
  {
    var c := Check(rules, st, calls, leg);
    CheckedInCallOrder(Checked([], st.counts, st.approved, false, false), rules, calls, leg.guard, Identity(st));
    CallsKept(BatchOf(st, c), leg.log);
    if !OutcomeOf(rules, st, calls, leg).Stopped? {
      LegRecordsAll(rules, st, calls, leg);
      RecordsAllLength(leg.log, |c.items|);
    }
  }

  lemma ItemsMatchSteps(b: Batch, log: seq<Completion>, k: nat)
    requires Orderly(log, |b.items|) && k < |log|
    ensures var after := CompleteAll(b, log);
            && |after.steps| == |b.steps| + |log|
            && after.steps[|b.steps| + k] == StepOf(after.items[log[k].index])
  {
    ItemsAfter(b, log);
    StepsAfter(b, log);
  }

  lemma ResultAt(rules: Rules, before: seq<Message>, items: seq<Item>, n: nat, i: nat)
    requires i < n <= |items|
    ensures (before + Results(rules, items[..n]))[|before| + i] == ResultMessage(rules, items[i].call, items[i].observation)
  {
  }

  lemma LegCall(rules: Rules, st: ToolState, calls: seq<ToolCall>, leg: Leg, i: nat)
    requires LegRuns(rules, st, calls, leg) && i < |leg.log|
    ensures i < |calls| && CompleteAll(BatchOf(st, Check(rules, st, calls, leg)), leg.log).items[i].call == calls[i]
  {
    CheckedInCallOrder(Checked([], st.counts, st.approved, false, false), rules, calls, leg.guard, Identity(st));
    CallsKept(BatchOf(st, Check(rules, st, calls, leg)), leg.log);
  }

  lemma LegResult(rules: Rules, st: ToolState, calls: seq<ToolCall>, leg: Leg, i: nat)
    requires LegRuns(rules, st, calls, leg) && i < |leg.log|
    ensures var after := AfterLeg(rules, st, calls, leg);
            var item := CompleteAll(BatchOf(st, Check(rules, st, calls, leg)), leg.log).items[i];
            && |after.messages| == |st.messages| + |leg.log|
            && i < |calls| && item.call == calls[i]
            && after.messages[|st.messages| + i] == ResultMessage(rules, item.call, item.observation)
  {
    LegCall(rules, st, calls, leg, i);
    ResultAt(rules, st.messages, CompleteAll(BatchOf(st, Check(rules, st, calls, leg)), leg.log).items, |leg.log|, i);
  }

  // The message tells the observation: alone for a call with an ID, and under the tool's name otherwise.
  predicate Tells(m: Message, call: ToolCall, observation: string) {
    m.content == if TrimSpace(call.id) != "" then observation else "Tool Result (" + call.name + "):\n" + observation
  }

  // Of what was added from st to st2, message i tells the observation of step k, which is the call's.
  predicate ToldBy(st: ToolState, st2: ToolState, call: ToolCall, i: nat, k: nat) {
    && |st.steps| <= k < |st2.steps| && |st.messages| + i < |st2.messages|
    && st2.steps[k].action == call.name && Tells(st2.messages[|st.messages| + i], call, st2.steps[k].observation)
  }

  // Each result tells the observation of the step recorded for its call.
  lemma ResultsMatchSteps(rules: Rules, st: ToolState, calls: seq<ToolCall>, leg: Leg, k: nat)
    requires LegRuns(rules, st, calls, leg) && k < |leg.log| && leg.log[k].index < |leg.log|
    ensures var after, i := AfterLeg(rules, st, calls, leg), leg.log[k].index;
            && |after.steps| == |st.steps| + |leg.log| && |after.messages| == |st.messages| + |leg.log|
            && i < |calls| && ToldBy(st, after, calls[i], i, |st.steps| + k)
  {
    LegResult(rules, st, calls, leg, leg.log[k].index);
    ItemsMatchSteps(BatchOf(st, Check(rules, st, calls, leg)), leg.log, k);
  }

  // ----- The results over all pauses -----

  lemma AnswersJoin(a: seq<Message>, b: seq<Message>, c: seq<ToolCall>, d: seq<ToolCall>)
    requires AnswersEach(a, c) && AnswersEach(b, d)
    ensures AnswersEach(a + b, c + d)
  {
  }

  ghost predicate AnsweredBetween(st: ToolState, calls: seq<ToolCall>, st2: ToolState, calls2: seq<ToolCall>) {
    && |calls2| <= |calls| && calls2 == calls[|calls| - |calls2|..]
    && st.messages <= st2.messages
    && AnswersEach(st2.messages[|st.messages|..], calls[..|calls| - |calls2|])
  }

  lemma AnsweredJoin(s0: ToolState, c0: seq<ToolCall>, s1: ToolState, c1: seq<ToolCall>, s2: ToolState,
        c2: seq<ToolCall>)
    requires AnsweredBetween(s0, c0, s1, c1) && AnsweredBetween(s1, c1, s2, c2)
    ensures AnsweredBetween(s0, c0, s2, c2)
  {
    AnswersJoin(s1.messages[|s0.messages|..], s2.messages[|s1.messages|..],
                c0[..|c0| - |c1|], c1[..|c1| - |c2|]);
    assert s2.messages[|s0.messages|..] == s1.messages[|s0.messages|..] + s2.messages[|s1.messages|..];
    assert c0[..|c0| - |c2|] == c0[..|c0| - |c1|] + c1[..|c1| - |c2|];
  }

  lemma LegAnswered(rules: Rules, st: ToolState, calls: seq<ToolCall>, leg: Leg)
    requires LegRuns(rules, st, calls, leg) && OutcomeOf(rules, st, calls, leg).Paused?
    ensures var saved := OutcomeOf(rules, st, calls, leg).saved;
            AnsweredBetween(st, calls, Resumed(AfterLeg(rules, st, calls, leg), saved), PendingCalls(saved))
  {
    LegAnswers(rules, st, calls, leg);
    var n := |leg.log|;
    assert [calls[n]] + calls[n + 1..] == calls[n..];
  }

  // Up to each pause the transcript has the results of the calls made so far, and the calls that wait
  // are exactly the others.
  lemma {:induction false} AnsweredSoFar(rules: Rules, st: ToolState, calls: seq<ToolCall>, legs: seq<Leg>,
        st2: ToolState, calls2: seq<ToolCall>)
    requires Reaches(rules, st, calls, legs, st2, calls2)
    ensures AnsweredBetween(st, calls, st2, calls2)
    decreases |legs|
  {
    if legs != [] {
      var after, saved := AfterLeg(rules, st, calls, legs[0]), OutcomeOf(rules, st, calls, legs[0]).saved;
      LegAnswered(rules, st, calls, legs[0]);
      AnsweredSoFar(rules, Resumed(after, saved), PendingCalls(saved), legs[1..], st2, calls2);
      AnsweredJoin(st, calls, Resumed(after, saved), PendingCalls(saved), st2, calls2);
    }
  }

  lemma LastLegAnswered(rules: Rules, st: ToolState, calls: seq<ToolCall>, leg: Leg)
    requires LegRuns(rules, st, calls, leg) && OutcomeOf(rules, st, calls, leg).Continued?
    ensures AnsweredBetween(st, calls, AfterLeg(rules, st, calls, leg), [])
  {
    LegAnswers(rules, st, calls, leg);
  }

  // However often a response was paused, once it is through the transcript has exactly one result for
  // each call, in the order of the calls, and nothing between them.
  lemma AnsweredInOrder(rules: Rules, st: ToolState, calls: seq<ToolCall>, legs: seq<Leg>, st2: ToolState,
        calls2: seq<ToolCall>, last: Leg)
    requires Reaches(rules, st, calls, legs, st2, calls2)
    requires LegRuns(rules, st2, calls2, last) && OutcomeOf(rules, st2, calls2, last).Continued?
    ensures var after := AfterLeg(rules, st2, calls2, last).messages;
            st.messages <= after && AnswersEach(after[|st.messages|..], calls)
  {
    AnsweredSoFar(rules, st, calls, legs, st2, calls2);
    LastLegAnswered(rules, st2, calls2, last);
    AnsweredJoin(st, calls, st2, calls2, AfterLeg(rules, st2, calls2, last), []);
    assert calls[..|calls|] == calls;
  }

  // ----- The exchange -----

  predicate Named(call: LlmCall) {
    TrimSpace(call.name) != ""
  }

  // The calls the agent makes of the model's: those with a name.
  function AgentCalls(calls: seq<LlmCall>): (agent: seq<ToolCall>)
    ensures |agent| <= |calls|
  {
    if calls == [] then []
    else
      var call := calls[|calls| - 1];
      AgentCalls(calls[..|calls| - 1]) +
      if !Named(call) then [] else [ToolCall(call.id, TrimSpace(call.name), call.arguments)]
  }

  lemma AgentCallsNext(calls: seq<LlmCall>, k: nat)
    requires k < |calls|
    ensures AgentCalls(calls[..k + 1]) ==
            AgentCalls(calls[..k])
            + if TrimSpace(calls[k].name) == "" then []
              else [ToolCall(calls[k].id, TrimSpace(calls[k].name), calls[k].arguments)]
  {
    assert calls[..k + 1][..k] == calls[..k];
  }

  lemma {:induction false} AgentCallsPrefix(calls: seq<LlmCall>, k: nat)
    requires k <= |calls|
    ensures AgentCalls(calls[..k]) <= AgentCalls(calls)
    decreases |calls| - k
  {
    if k == |calls| {
      assert calls[..k] == calls;
    } else {
      AgentCallsNext(calls, k);
      AgentCallsPrefix(calls, k + 1);
    }
  }

  // Every call with a name is made, behind those before it, under its ID, its trimmed name and with its
  // arguments; the others are not.
  lemma AgentCallsKeep(calls: seq<LlmCall>, k: nat)
    requires k < |calls|
    ensures |AgentCalls(calls[..k])| <= |AgentCalls(calls)|
    ensures TrimSpace(calls[k].name) != "" ==>
      && |AgentCalls(calls[..k])| < |AgentCalls(calls)|
      && AgentCalls(calls)[|AgentCalls(calls[..k])|] == ToolCall(calls[k].id, TrimSpace(calls[k].name), calls[k].arguments)
    ensures TrimSpace(calls[k].name) == "" ==> AgentCalls(calls[..k + 1]) == AgentCalls(calls[..k])
  {
    AgentCallsNext(calls, k);
    AgentCallsPrefix(calls, k + 1);
  }

  method ToAgentToolCalls(calls: seq<LlmCall>) returns (out: seq<ToolCall>)
    ensures out == AgentCalls(calls)
  {
    out := [];
    for i := 0 to |calls|
      invariant out == AgentCalls(calls[..i])
    {
      assert calls[..i + 1][..i] == calls[..i];
      var name := TrimSpace(calls[i].name);
      if name == "" {
        continue;
      }
      out := out + [ToolCall(calls[i].id, name, calls[i].arguments)];
    }
    assert calls[..|calls|] == calls;
  }

  predicate AllNamed(calls: seq<LlmCall>) {
    forall k :: 0 <= k < |calls| ==> Named(calls[k])
  }

  // What a response must fulfil for its exchange to be complete.
  predicate Answerable(calls: seq<LlmCall>) {
    "" !in CallIds(calls) && NoDuplicates(CallIds(calls)) && AllNamed(calls)
  }

  lemma AllNamedSnoc(calls: seq<LlmCall>)
    requires calls != []
    ensures AllNamed(calls) <==> AllNamed(calls[..|calls| - 1]) && Named(calls[|calls| - 1])
  {
    var init, last := calls[..|calls| - 1], calls[|calls| - 1];
    assert calls == init + [last];
    if AllNamed(init) && Named(last) {
      forall k | 0 <= k < |calls| ensures Named(calls[k]) {
        assert k < |init| ==> calls[k] == init[k];
      }
    }
    if AllNamed(calls) {
      forall k | 0 <= k < |init| ensures Named(init[k]) {
        assert init[k] == calls[k];
      }
    }
  }

  lemma {:induction false} AgentCallsCount(calls: seq<LlmCall>)
    ensures |AgentCalls(calls)| == |calls| <==> AllNamed(calls)
  {
    if calls != [] {
      AgentCallsCount(calls[..|calls| - 1]);
      AllNamedSnoc(calls);
    }
  }

  // Without nameless calls each call of the model is one of the agent's, with its ID.
  lemma {:induction false} AgentCallsIds(calls: seq<LlmCall>, k: nat)
    requires AllNamed(calls) && k < |calls|
    ensures |AgentCalls(calls)| == |calls| && AgentCalls(calls)[k].id == calls[k].id
  {
    var n := |calls| - 1;
    AllNamedSnoc(calls);
    AgentCallsCount(calls[..n]);
    if k < n {
      AgentCallsIds(calls[..n], k);
    }
  }

  lemma {:induction false} ElementsSize<T>(s: seq<T>)
    ensures |Elements(s)| <= |s|
    ensures |Elements(s)| == |s| <==> NoDuplicates(s)
  {
    if s != [] {
      var n := |s| - 1;
      ElementsSize(s[..n]);
      ElementsSnoc(s[..n], s[n]);
      assert s == s[..n] + [s[n]];
    }
  }

  lemma {:induction false} ToolRunStops(a: seq<Message>, b: seq<Message>)
    requires b == [] || !b[0].role.Tool?
    ensures ToolRun(a + b) <= |a|
    ensures (forall i :: 0 <= i < |a| ==> a[i].role.Tool?) ==> ToolRun(a + b) == |a|
  {
    if a == [] {
      assert a + b == b;
    } else {
      ToolRunStops(a[1..], b);
      assert (a + b)[1..] == a[1..] + b;
    }
  }

  lemma AnswerableIds(calls: seq<LlmCall>, results: seq<Message>)
    requires Answerable(calls) && AnswersEach(results, AgentCalls(calls))
    ensures ResultIds(results) == CallIds(calls) && forall i :: 0 <= i < |results| ==> results[i].role.Tool?
  {
    AgentCallsCount(calls);
    forall i | 0 <= i < |results| ensures results[i].role.Tool? && ResultIds(results)[i] == CallIds(calls)[i] {
      AgentCallsIds(calls, i);
      assert AnswersCall(results[i], AgentCalls(calls)[i]);
      assert CallIds(calls)[i] == TrimSpace(calls[i].id);
    }
  }

  lemma CompleteNeedsNames(calls: seq<LlmCall>, answered: seq<Message>)
    requires CompleteExchange(calls, answered) && |answered| <= |AgentCalls(calls)|
    ensures AllNamed(calls)
  {
    AgentCallsCount(calls);
    ElementsSize(CallIds(calls));
    ElementsSize(ResultIds(answered));
  }

  // A response whose calls have been answered is a complete exchange exactly when all its calls have
  // names and distinct non-empty IDs.
  lemma ExchangeComplete(ms: seq<Message>, start: int, results: seq<Message>, rest: seq<Message>)
    requires 0 <= start < |ms| && HasToolCalls(ms[start]) && ms[start + 1..] == results + rest
    requires AnswersEach(results, AgentCalls(ms[start].toolCalls))
    requires rest == [] || !rest[0].role.Tool?
    ensures CompleteExchange(ms[start].toolCalls, ms[start + 1..ExchangeEnd(ms, start)]) <==> Answerable(ms[start].toolCalls)
    ensures Answerable(ms[start].toolCalls) ==> ExchangeEnd(ms, start) == start + 1 + |results|
  {
    var calls, end := ms[start].toolCalls, ExchangeEnd(ms, start);
    ToolRunStops(results, rest);
    if Answerable(calls) {
      AnswerableIds(calls, results);
      assert ms[start + 1..end] == results;
    }
    if CompleteExchange(calls, ms[start + 1..end]) {
      CompleteNeedsNames(calls, ms[start + 1..end]);
    }
  }

  lemma UnobstructedExchange(ms: seq<Message>, start: int, opts: Options)
    requires 0 <= start < |ms| && HasToolCalls(ms[start])
    requires FirstObstacle(ms, start, ExchangeEnd(ms, start), opts).NoReason?
    requires !AnyPending(ms[start].toolCalls, opts.pendingToolCallIds)
    ensures BlockAt(ms, start, opts).compactable <==>
            CompleteExchange(ms[start].toolCalls, ms[start + 1..ExchangeEnd(ms, start)])
  {
  }

  // Without other obstacles the parser's block for the response is compactable in just that case.
  lemma ExchangeCompactable(ms: seq<Message>, start: int, results: seq<Message>, rest: seq<Message>, opts: Options)
    requires 0 <= start < |ms| && HasToolCalls(ms[start]) && ms[start + 1..] == results + rest
    requires AnswersEach(results, AgentCalls(ms[start].toolCalls))
    requires rest == [] || !rest[0].role.Tool?
    requires FirstObstacle(ms, start, ExchangeEnd(ms, start), opts).NoReason?
    requires !AnyPending(ms[start].toolCalls, opts.pendingToolCallIds)
    ensures BlockAt(ms, start, opts).compactable <==> Answerable(ms[start].toolCalls)
  {
    UnobstructedExchange(ms, start, opts);
    ExchangeComplete(ms, start, results, rest);
  }

  lemma ExchangeAtEnd(ms: seq<Message>, n: int, opts: Options)
    requires 0 <= n < |ms| && HasToolCalls(ms[n]) && AnswersEach(ms[n + 1..], AgentCalls(ms[n].toolCalls))
    ensures CompleteExchange(ms[n].toolCalls, ms[n + 1..ExchangeEnd(ms, n)]) <==> Answerable(ms[n].toolCalls)
    ensures Answerable(ms[n].toolCalls) ==> BlocksFrom(ms, n, opts) == [ExchangeBlock(ms, n, opts)]
  {
    assert ms[n + 1..] == ms[n + 1..] + [];
    ExchangeComplete(ms, n, ms[n + 1..], []);
  }

  // From the model's response to the exchange: the whole life of a response with answerable calls
  // adds one complete exchange to the transcript.
  lemma ResponseLeavesOneExchange(
      rules: Rules, before: ToolState, response: Message, legs: seq<Leg>, st2: ToolState, calls2: seq<ToolCall>, last: Leg, opts: Options)
    requires HasToolCalls(response)
    requires Reaches(rules, before.(messages := before.messages + [response]), AgentCalls(response.toolCalls), legs, st2, calls2)
    requires LegRuns(rules, st2, calls2, last) && OutcomeOf(rules, st2, calls2, last).Continued?
    ensures var ms, n := AfterLeg(rules, st2, calls2, last).messages, |before.messages|;
            && before.messages + [response] <= ms
            && (CompleteExchange(response.toolCalls, ms[n + 1..ExchangeEnd(ms, n)]) <==> Answerable(response.toolCalls))
            && (Answerable(response.toolCalls) ==> BlocksFrom(ms, n, opts) == [ExchangeBlock(ms, n, opts)])
  {
    var st := before.(messages := before.messages + [response]);
    var ms, n := AfterLeg(rules, st2, calls2, last).messages, |before.messages|;
    AnsweredInOrder(rules, st, AgentCalls(response.toolCalls), legs, st2, calls2, last);
    assert ms[n] == st.messages[n];
    ExchangeAtEnd(ms, n, opts);
  }
}
