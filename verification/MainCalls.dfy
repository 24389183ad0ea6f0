/**
 The main model request (callMainWithContextCompaction in agent/context_compaction_engine.go):
 compaction before it when the input is near its limit, and after it when the provider says that the
 input is too long.
 */
module MainCalls {
  import opened Transcript
  import opened CheckpointStore
  import opened CompactionEngine
  import opened Ledgers
  import opened LedgerCompaction
  import opened CompactionRuns

  // What the provider makes of a request; inputTokens is not positive when it reports no usage.
  datatype Reply = Replied(inputTokens: int) | TooLong | OtherError

  // What the compaction of the call meets, and the provider's replies to the request and its retry.
  datatype Surroundings = Surroundings(first: Reply, retry: Reply, env: Environment)

  // The decision of the compaction the call makes, if it makes one.
  function CompactsOn(st: LoopState, settings: Settings, around: Surroundings): Option<Decision> {
    var automatic := CompactionDecision(st, settings);
    if automatic.shouldCompact then Some(automatic)
    else if around.first.TooLong? && settings.compaction.enabled then Some(ForcedDecision(automatic, st, settings, false))
    else None
  }

  // Whether the call compacts after a first request that was too long.
  predicate Retries(st: LoopState, settings: Settings, around: Surroundings) {
    !CompactionDecision(st, settings).shouldCompact && around.first.TooLong? && settings.compaction.enabled
  }

  // The reply that ends the call, none if the compaction before a retry fails.
  function LastReply(st: LoopState, settings: Settings, stored: Option<ContextCheckpoint>,
        around: Surroundings): Option<Reply>
    requires 0 <= st.fixedMessageCount
  {
    if !Retries(st, settings, around) then Some(around.first)
    else if Compact(st, settings, stored, CompactsOn(st, settings, around).value, around.env).Compacted? then Some(around.retry)
    else None
  }

  // The call as steps of the run: at most one compaction, then the success if there is one.
  function CallSteps(st: LoopState, settings: Settings, stored: Option<ContextCheckpoint>,
        around: Surroundings): (steps: seq<RunStep>)
    requires 0 <= st.fixedMessageCount
    ensures |steps| <= 2
  {
    var decision, reply := CompactsOn(st, settings, around), LastReply(st, settings, stored, around);
    (if decision.Some? then [CompactNow(decision.value, stored, around.env)] else []) +
    (if reply.Some? && reply.value.Replied? then [RequestSucceeded(reply.value.inputTokens)] else [])
  }

  method RecordReply(e: Engine, reply: Reply) returns (ok: bool)
    modifies e
    ensures ok <==> reply.Replied?
    ensures e.View() == if ok then Succeeded(old(e.View()), reply.inputTokens) else old(e.View())
  {
    ok := reply.Replied?;
    if ok {
      e.MainSucceeded(reply.inputTokens);
    }
  }

  lemma OneStep(st: LoopState, settings: Settings, step: RunStep)
    requires 0 <= st.fixedMessageCount
    ensures StateAfter(st, settings, [step]) == Step(st, settings, step)
  {
    assert [step][..0] == [];
  }

  lemma TwoSteps(st: LoopState, settings: Settings, s1: RunStep, s2: RunStep)
    requires 0 <= st.fixedMessageCount && 0 <= Step(st, settings, s1).fixedMessageCount
    ensures StateAfter(st, settings, [s1, s2]) == Step(Step(st, settings, s1), settings, s2)
  {
    OneStep(st, settings, s1);
    assert [s1, s2][..1] == [s1];
  }

  // One compaction, whether it succeeds or fails, is one step of the run.
  method CompactOnce(e: Engine, decision: Decision, env: Environment) returns (failed: bool)
    requires 0 <= e.fixedMessageCount
    modifies e, e.store
    ensures e.View() == Step(old(e.View()), e.settings, CompactNow(decision, old(e.store.checkpoint), env))
    ensures failed <==> !Compact(old(e.View()), e.settings, old(e.store.checkpoint), decision, env).Compacted?
  {
    var failure, _ := e.CompactContext(decision, env);
    failed := failure.Some?;
  }

  // The call; it asks for a reply once, and once more only after a compaction that the reply made
  // necessary.
  method CallMain(e: Engine, around: Surroundings) returns (ok: bool, requests: nat)
    requires 0 <= e.fixedMessageCount
    modifies e, e.store
    ensures var st, stored := old(e.View()), old(e.store.checkpoint);
      var reply := LastReply(st, e.settings, stored, around);
      && e.View() == StateAfter(st, e.settings, CallSteps(st, e.settings, stored, around))
      && (ok <==> reply.Some? && reply.value.Replied?)
      && (requests == if Retries(st, e.settings, around) && reply.Some? then 2 else 1)
  {
    ghost var st, stored := e.View(), e.store.checkpoint;
    var decision := e.Decide();
    var attempted := decision.shouldCompact;
    if attempted {
      var _ := CompactOnce(e, decision, around.env);
    }
    ghost var before := e.View();
    requests := 1;
    ok := RecordReply(e, around.first);
    CallStepsMean(st, e.settings, stored, around);
    if ok || attempted || !around.first.TooLong? || !e.settings.compaction.enabled {
      return;
    }
    var total := EstimateMessagesTokens(e.messages);
    var passive := decision.(
      shouldCompact := true,
      reason := ContextLengthError,
      estimatedInput := if decision.estimatedInput <= 0 then total + e.settings.toolTokens else decision.estimatedInput,
      outputReserve := if decision.outputReserve <= 0 then 4096 else decision.outputReserve);
    assert passive == ForcedDecision(decision, st, e.settings, false);
    var failed := CompactOnce(e, passive, around.env);
    if failed {
      return;
    }
    requests := 2;
    ok := RecordReply(e, around.retry);
  }

  function Compacting(st: LoopState, settings: Settings, stored: Option<ContextCheckpoint>,
        around: Surroundings): LoopState
    requires 0 <= st.fixedMessageCount
  {
    var decision := CompactsOn(st, settings, around);
    if decision.Some? then Step(st, settings, CompactNow(decision.value, stored, around.env)) else st
  }

  lemma CompactKeepsFixed(st: LoopState, settings: Settings, stored: Option<ContextCheckpoint>, around: Surroundings)
    requires 0 <= st.fixedMessageCount
    ensures Compacting(st, settings, stored, around).fixedMessageCount == st.fixedMessageCount
  {
    var decision := CompactsOn(st, settings, around);
    if decision.Some? {
      StepKeepsFixed(st, settings, decision.value, stored, around.env);
    }
  }

  lemma StepKeepsFixed(st: LoopState, settings: Settings, decision: Decision, stored: Option<ContextCheckpoint>,
        env: Environment)
    requires 0 <= st.fixedMessageCount
    ensures Step(st, settings, CompactNow(decision, stored, env)).fixedMessageCount == st.fixedMessageCount
  {
    if Compact(st, settings, stored, decision, env).Compacted? {
      CompactedOutcome(st, settings, stored, decision, env);
    }
  }

  lemma CallStepsMean(st: LoopState, settings: Settings, stored: Option<ContextCheckpoint>, around: Surroundings)
    requires 0 <= st.fixedMessageCount
    ensures var reply := LastReply(st, settings, stored, around);
            var compacted := Compacting(st, settings, stored, around);
            StateAfter(st, settings, CallSteps(st, settings, stored, around)) ==
              if reply.Some? && reply.value.Replied? then Succeeded(compacted, reply.value.inputTokens) else compacted
  {
    var decision, reply := CompactsOn(st, settings, around), LastReply(st, settings, stored, around);
    CompactKeepsFixed(st, settings, stored, around);
    if decision.Some? {
      var s1 := CompactNow(decision.value, stored, around.env);
      OneStep(st, settings, s1);
      if reply.Some? && reply.value.Replied? {
        TwoSteps(st, settings, s1, RequestSucceeded(reply.value.inputTokens));
        assert CallSteps(st, settings, stored, around) == [s1, RequestSucceeded(reply.value.inputTokens)];
      } else {
        assert CallSteps(st, settings, stored, around) == [s1];
      }
    } else if reply.Some? && reply.value.Replied? {
      OneStep(st, settings, RequestSucceeded(reply.value.inputTokens));
      assert CallSteps(st, settings, stored, around) == [RequestSucceeded(reply.value.inputTokens)];
    } else {
      assert CallSteps(st, settings, stored, around) == [];
    }
  }

  // What a call comes to: it compacts first if the decision says so, and otherwise once if the provider
  // finds the request too long and compaction is on; it succeeds with the reply to the request, or with
  // the reply to the retry if that compaction succeeded.
  lemma CallMeans(st: LoopState, settings: Settings, stored: Option<ContextCheckpoint>, around: Surroundings)
    requires 0 <= st.fixedMessageCount
    ensures var steps, first := CallSteps(st, settings, stored, around), CompactionDecision(st, settings);
            var forced := ForcedDecision(first, st, settings, false);
            if first.shouldCompact then
              steps == [CompactNow(first, stored, around.env)]
                       + if around.first.Replied? then [RequestSucceeded(around.first.inputTokens)] else []
            else match around.first
              case Replied(tokens) => steps == [RequestSucceeded(tokens)]
              case OtherError => steps == []
              case TooLong =>
                if !settings.compaction.enabled then steps == []
                else
                  steps == [CompactNow(forced, stored, around.env)]
                           + if Compact(st, settings, stored, forced, around.env).Compacted? && around.retry.Replied?
                             then [RequestSucceeded(around.retry.inputTokens)] else []
  {
  }

  predicate InCall(step: RunStep) {
    step.CompactNow? || step.RequestSucceeded?
  }

  lemma ProtectedAfterStep(l: Ledger, st: LoopState, settings: Settings, step: RunStep)
    requires 0 <= st.fixedMessageCount && InCall(step)
    ensures LedgerStep(l, st, settings, step).protected == if step.RequestSucceeded? then {} else l.protected
  {
  }

  lemma {:induction false} ProtectedAfter(l: Ledger, st: LoopState, settings: Settings, steps: seq<RunStep>)
    requires 0 <= st.fixedMessageCount && forall k :: 0 <= k < |steps| ==> InCall(steps[k])
    requires forall k :: 0 <= k < |steps| && steps[k].RequestSucceeded? ==> k == |steps| - 1
    ensures LedgerAfter(l, st, settings, steps).protected ==
            if steps != [] && steps[|steps| - 1].RequestSucceeded? then {} else l.protected
  {
    if steps != [] {
      var n := |steps| - 1;
      ProtectedAfter(l, st, settings, steps[..n]);
      ProtectedAfterStep(LedgerAfter(l, st, settings, steps[..n]), StateAfter(st, settings, steps[..n]), settings, steps[n]);
    }
  }

  lemma ProtectedAfterCall(l: Ledger, st: LoopState, settings: Settings, stored: Option<ContextCheckpoint>,
        around: Surroundings)
    requires 0 <= st.fixedMessageCount
    ensures var steps, reply := CallSteps(st, settings, stored, around), LastReply(st, settings, stored, around);
            LedgerAfter(l, st, settings, steps).protected ==
            if reply.Some? && reply.value.Replied? then {} else l.protected
  {
    ProtectedAfter(l, st, settings, CallSteps(st, settings, stored, around));
  }

  // A call keeps the ledger of the run: everything held by message index still names the same
  // messages. Its protections end when it succeeds, and only then.
  lemma CallKeepsLedger(l: Ledger, st: LoopState, settings: Settings, stored: Option<ContextCheckpoint>,
        around: Surroundings)
    requires Valid(l) && Describes(l, st)
    ensures var steps, reply := CallSteps(st, settings, stored, around), LastReply(st, settings, stored, around);
            var after := LedgerAfter(l, st, settings, steps);
            && Valid(after) && Describes(after, StateAfter(st, settings, steps)) && Extends(l, after)
            && after.protected == if reply.Some? && reply.value.Replied? then {} else l.protected
  {
    var steps := CallSteps(st, settings, stored, around);
    RunKeepsLedger(l, st, settings, steps);
    ProtectedAfterCall(l, st, settings, stored, around);
  }
}
