/**
 What a compaction frees: the token estimate of the transcript after it, and when that estimate calls
 for another compaction.
 */
module CompactionBudget {
  import opened Text
  import opened Transcript
  import opened Blocks
  import opened Selection
  import opened Checkpoints
  import opened CompactionConfig
  import opened CheckpointStore
  import opened CompactionEngine
  import opened LedgerCompaction

  // The input size a decision works with.
  function EffectiveInput(decision: Decision, st: LoopState, settings: Settings): int {
    if decision.estimatedInput <= 0 then MainRequestTokens(st, settings) else decision.estimatedInput
  }

  function TargetOf(st: LoopState, settings: Settings, decision: Decision): int {
    ReleaseTarget(decision, MainRequestTokens(st, settings),
                  TranscriptBlocks(st.messages, OptionsFor(st, ImageIndexes(st.messages))))
  }

  lemma FinalIsSelection(st: LoopState, settings: Settings, decision: Decision, env: Environment)
    requires 0 <= st.fixedMessageCount && FinalSelection(st, settings, decision, env).Some?
    ensures var first := FirstSelection(st, settings, decision);
            && first.Some? && 0 <= first.value.start <= first.value.end <= |st.messages|
            && IsSelection(st.messages,
                           OptionsFor(st, PreparedIndexes(st.messages, first.value.start, first.value.end, env.readable)),
                           TargetOf(st, settings, decision),
                           FinalSelection(st, settings, decision, env).value)
  {
  }

  lemma ReachedMeans(blocks: seq<Block>, target: int, sel: Selected)
    requires SelectPrefix(blocks, target) == Some(sel)
    ensures sel.reachedTarget <==> sel.tokens >= target
  {
  }

  // A compaction changes the estimate of the next main request by what the selection weighed and by
  // what the checkpoint weighs.
  lemma CompactionTokens(st: LoopState, settings: Settings, stored: Option<ContextCheckpoint>, decision: Decision,
        env: Environment)
    requires 0 <= st.fixedMessageCount && Compact(st, settings, stored, decision, env).Compacted?
    ensures FinalSelection(st, settings, decision, env).Some?
    ensures var outcome := Compact(st, settings, stored, decision, env);
            MainRequestTokens(outcome.state, settings) ==
              MainRequestTokens(st, settings) - FinalSelection(st, settings, decision, env).value.tokens
              + EstimateMessageTokens(outcome.checkpoint.message)
  {
    CompactedOutcome(st, settings, stored, decision, env);
    FinalIsSelection(st, settings, decision, env);
    var first := FirstSelection(st, settings, decision).value;
    var sel := FinalSelection(st, settings, decision, env).value;
    TokenConservation(
      st.messages, OptionsFor(st, PreparedIndexes(st.messages, first.start, first.end, env.readable)),
      TargetOf(st, settings, decision), sel, Compact(st, settings, stored, decision, env).checkpoint.message);
  }

  // The compaction freed what it was to free, and the checkpoint keeps to its output cap.
  predicate WithinCaps(st: LoopState, settings: Settings, stored: Option<ContextCheckpoint>, decision: Decision,
        env: Environment)
    requires 0 <= st.fixedMessageCount
  {
    && Compact(st, settings, stored, decision, env).Compacted?
    && FinalSelection(st, settings, decision, env).Some?
    && FinalSelection(st, settings, decision, env).value.reachedTarget
    && EstimateMessageTokens(Compact(st, settings, stored, decision, env).checkpoint.message)
       <= CheckpointMaxOutputTokens(decision.outputReserve)
  }

  // What the selection is to free: the input the decision was made on, less the size aimed for, and
  // room for a checkpoint as long as its output cap.
  function Wanted(decision: Decision, st: LoopState, settings: Settings): int {
    EffectiveInput(decision, st, settings) - DesiredInput(decision.inputLimit) + CheckpointMaxOutputTokens(decision.outputReserve)
  }

  // How far the estimate of the transcript is above the input the decision was made on. It is 0 when
  // the decision was made on the estimate, and unknown when it was made on the provider's count.
  function Excess(decision: Decision, st: LoopState, settings: Settings): int {
    MainRequestTokens(st, settings) - EffectiveInput(decision, st, settings)
  }

  // What the selection freed more than it was to free, and what the checkpoint left of its cap.
  function Spare(st: LoopState, settings: Settings, stored: Option<ContextCheckpoint>, decision: Decision,
        env: Environment): int
    requires 0 <= st.fixedMessageCount && Compact(st, settings, stored, decision, env).Compacted?
    requires FinalSelection(st, settings, decision, env).Some?
  {
    (FinalSelection(st, settings, decision, env).value.tokens - Wanted(decision, st, settings))
    + (CheckpointMaxOutputTokens(decision.outputReserve)
       - EstimateMessageTokens(Compact(st, settings, stored, decision, env).checkpoint.message))
  }

  lemma SpareNotNegative(st: LoopState, settings: Settings, stored: Option<ContextCheckpoint>, decision: Decision,
        env: Environment)
    requires 0 <= st.fixedMessageCount && WithinCaps(st, settings, stored, decision, env) && !decision.compactFullPrefix
    ensures Spare(st, settings, stored, decision, env) >= 0
  {
    FinalIsSelection(st, settings, decision, env);
    var first := FirstSelection(st, settings, decision).value;
    ReachedMeans(
      TranscriptBlocks(st.messages, OptionsFor(st, PreparedIndexes(st.messages, first.start, first.end, env.readable))),
      TargetOf(st, settings, decision), FinalSelection(st, settings, decision, env).value);
  }

  // The size of the next request after any compaction: the size aimed for, plus the excess of the
  // estimate over the input the decision was made on, less what was spare.
  lemma SizeAfter(st: LoopState, settings: Settings, stored: Option<ContextCheckpoint>, decision: Decision,
        env: Environment)
    requires 0 <= st.fixedMessageCount
    ensures var outcome := Compact(st, settings, stored, decision, env);
            outcome.Compacted? ==>
              && FinalSelection(st, settings, decision, env).Some?
              && MainRequestTokens(outcome.state, settings) ==
                   DesiredInput(decision.inputLimit) + Excess(decision, st, settings) - Spare(st, settings, stored, decision, env)
  {
    if Compact(st, settings, stored, decision, env).Compacted? {
      CompactionTokens(st, settings, stored, decision, env);
    }
  }

  // If the selection reached the target and the checkpoint keeps to its output cap, the next request is
  // at most 60% of the input limit plus the excess of the estimate: at most 60% whenever the decision
  // was made on no less than the estimate.
  lemma TargetBringsInputDown(st: LoopState, settings: Settings, stored: Option<ContextCheckpoint>,
        decision: Decision, env: Environment)
    requires 0 <= st.fixedMessageCount
    ensures WithinCaps(st, settings, stored, decision, env) && !decision.compactFullPrefix ==>
      var after := MainRequestTokens(Compact(st, settings, stored, decision, env).state, settings);
      && after <= DesiredInput(decision.inputLimit) + Excess(decision, st, settings)
      && (MainRequestTokens(st, settings) <= EffectiveInput(decision, st, settings) ==> after <= DesiredInput(decision.inputLimit))
  {
    if WithinCaps(st, settings, stored, decision, env) && !decision.compactFullPrefix {
      SizeAfter(st, settings, stored, decision, env);
      SpareNotNegative(st, settings, stored, decision, env);
    }
  }

  // The exact condition under which the state after a compaction calls for another one at once.
  lemma CompactsAgainExactlyWhen(st: LoopState, settings: Settings, stored: Option<ContextCheckpoint>,
        decision: Decision, env: Environment)
    requires 0 <= st.fixedMessageCount
    ensures var outcome, sel := Compact(st, settings, stored, decision, env), FinalSelection(st, settings, decision, env);
            var limit := ContextInputLimits(settings.contextWindow, settings.compaction, settings.requestMaxTokens).inputLimit;
            outcome.Compacted? ==>
              && sel.Some?
              && (CompactionDecision(outcome.state, settings).shouldCompact <==>
                    && settings.compaction.enabled && limit > 0
                    && MainRequestTokens(st, settings) - sel.value.tokens + EstimateMessageTokens(outcome.checkpoint.message) > limit)
  {
    if Compact(st, settings, stored, decision, env).Compacted? {
      CompactionTokens(st, settings, stored, decision, env);
      CompactedOutcome(st, settings, stored, decision, env);
    }
  }

  // The input limit of a decision made with these settings.
  function InputLimit(settings: Settings): int {
    ContextInputLimits(settings.contextWindow, settings.compaction, settings.requestMaxTokens).inputLimit
  }

  // Whatever the decision was made on, a compaction calls for another one at once exactly when the
  // excess of the estimate is more than the 40% between the size aimed for and the limit and what was
  // spare.
  lemma CompactsAgainOnExcess(st: LoopState, settings: Settings, stored: Option<ContextCheckpoint>,
        decision: Decision, env: Environment)
    requires 0 <= st.fixedMessageCount && decision.inputLimit == InputLimit(settings)
    ensures var outcome := Compact(st, settings, stored, decision, env);
            outcome.Compacted? ==>
              && FinalSelection(st, settings, decision, env).Some?
              && (CompactionDecision(outcome.state, settings).shouldCompact <==>
                    && settings.compaction.enabled && decision.inputLimit > 0
                    && Excess(decision, st, settings) >
                         decision.inputLimit - DesiredInput(decision.inputLimit) + Spare(st, settings, stored, decision, env))
  {
    if Compact(st, settings, stored, decision, env).Compacted? {
      SizeAfter(st, settings, stored, decision, env);
      CompactsAgainExactlyWhen(st, settings, stored, decision, env);
    }
  }

  // So, for a decision of any reason, when the target was reached within the caps: no other compaction
  // follows if the excess, which is known before, is within those 40%; and if nothing was spare, that
  // condition is also needed.
  lemma NoCompactionLoop(st: LoopState, settings: Settings, stored: Option<ContextCheckpoint>, decision: Decision,
        env: Environment)
    requires 0 <= st.fixedMessageCount && decision.inputLimit == InputLimit(settings)
    ensures var outcome := Compact(st, settings, stored, decision, env);
            var room := decision.inputLimit - DesiredInput(decision.inputLimit);
            WithinCaps(st, settings, stored, decision, env) && !decision.compactFullPrefix ==>
              && (Excess(decision, st, settings) <= room ==> !CompactionDecision(outcome.state, settings).shouldCompact)
              && (Spare(st, settings, stored, decision, env) == 0 && settings.compaction.enabled && decision.inputLimit > 0 ==>
                    (CompactionDecision(outcome.state, settings).shouldCompact <==> Excess(decision, st, settings) > room))
              && (Excess(decision, st, settings) <= 0 ==>
                    && MainRequestTokens(outcome.state, settings) <= DesiredInput(decision.inputLimit)
                    && !CompactionDecision(outcome.state, settings).shouldCompact)
  {
    if WithinCaps(st, settings, stored, decision, env) && !decision.compactFullPrefix {
      SizeAfter(st, settings, stored, decision, env);
      SpareNotNegative(st, settings, stored, decision, env);
      CompactsAgainOnExcess(st, settings, stored, decision, env);
      DesiredBelowLimit(decision.inputLimit);
    }
  }

  function WithSummary(env: Environment, text: string, jsonBytes: nat): Environment {
    env.(summary := Some((text, jsonBytes)))
  }

  // A compaction with this summary, if its checkpoint is within the cap, does not call for another one.
  ghost predicate SettlesWith(st: LoopState, settings: Settings, stored: Option<ContextCheckpoint>, decision: Decision,
        env: Environment, text: string, jsonBytes: nat)
    requires 0 <= st.fixedMessageCount
  {
    var outcome := Compact(st, settings, stored, decision, WithSummary(env, text, jsonBytes));
    outcome.Compacted? && EstimateMessageTokens(outcome.checkpoint.message) <= CheckpointMaxOutputTokens(decision.outputReserve)
    ==> !CompactionDecision(outcome.state, settings).shouldCompact
  }

  ghost predicate AlwaysSettles(st: LoopState, settings: Settings, stored: Option<ContextCheckpoint>, decision: Decision,
        env: Environment)
    requires 0 <= st.fixedMessageCount
  {
    forall text, jsonBytes :: SettlesWith(st, settings, stored, decision, env, text, jsonBytes)
  }

  // Known before the summary is asked for: the excess is within the 40% between the size aimed for and
  // the limit and what the selection frees more than was wanted.
  predicate ExcessFits(st: LoopState, settings: Settings, decision: Decision, env: Environment)
    requires FinalSelection(st, settings, decision, env).Some?
  {
    Excess(decision, st, settings) <=
      decision.inputLimit - DesiredInput(decision.inputLimit)
      + FinalSelection(st, settings, decision, env).value.tokens - Wanted(decision, st, settings)
  }

  lemma SummaryKeepsSelection(st: LoopState, settings: Settings, decision: Decision, env: Environment, text: string,
        jsonBytes: nat)
    ensures FinalSelection(st, settings, decision, WithSummary(env, text, jsonBytes)) ==
            FinalSelection(st, settings, decision, env)
  {
  }

  lemma FittingExcessSettles(st: LoopState, settings: Settings, stored: Option<ContextCheckpoint>, decision: Decision,
        env: Environment, text: string, jsonBytes: nat)
    requires 0 <= st.fixedMessageCount && decision.inputLimit == InputLimit(settings)
    requires FinalSelection(st, settings, decision, env).Some? && ExcessFits(st, settings, decision, env)
    ensures SettlesWith(st, settings, stored, decision, env, text, jsonBytes)
  {
    var with := WithSummary(env, text, jsonBytes);
    SummaryKeepsSelection(st, settings, decision, env, text, jsonBytes);
    CompactsAgainOnExcess(st, settings, stored, decision, with);
  }

  // A summary whose checkpoint just fills the cap.
  lemma FullSummaryCompacts(st: LoopState, settings: Settings, stored: Option<ContextCheckpoint>, decision: Decision,
        env: Environment)
    requires 0 <= st.fixedMessageCount && Compact(st, settings, stored, decision, env).Compacted?
    requires CheckpointMaxOutputTokens(decision.outputReserve) > 0
    ensures env.summary.Some?
    ensures var cap := CheckpointMaxOutputTokens(decision.outputReserve);
            var outcome := Compact(st, settings, stored, decision, WithSummary(env, env.summary.value.0, 3 * cap));
            outcome.Compacted? && EstimateMessageTokens(outcome.checkpoint.message) == cap
  {
    CompactedOutcome(st, settings, stored, decision, env);
    var cap := CheckpointMaxOutputTokens(decision.outputReserve);
    var with := WithSummary(env, env.summary.value.0, 3 * cap);
    SummaryKeepsSelection(st, settings, decision, env, env.summary.value.0, 3 * cap);
    CompactionSucceedsExactlyWhen(st, settings, stored, decision, env);
    CompactionSucceedsExactlyWhen(st, settings, stored, decision, with);
    CompactedOutcome(st, settings, stored, decision, with);
  }

  // For a compaction that can succeed at all: no summary within the cap leads to another compaction if
  // and only if the excess fits.
  lemma SettlesExactlyWhen(st: LoopState, settings: Settings, stored: Option<ContextCheckpoint>, decision: Decision,
        env: Environment)
    requires 0 <= st.fixedMessageCount && decision.inputLimit == InputLimit(settings)
    requires Compact(st, settings, stored, decision, env).Compacted?
    ensures FinalSelection(st, settings, decision, env).Some?
    ensures AlwaysSettles(st, settings, stored, decision, env) <==>
              || ExcessFits(st, settings, decision, env)
              || !settings.compaction.enabled || decision.inputLimit <= 0
              || CheckpointMaxOutputTokens(decision.outputReserve) <= 0
  {
    CompactedOutcome(st, settings, stored, decision, env);
    if ExcessFits(st, settings, decision, env) {
      forall text, jsonBytes ensures SettlesWith(st, settings, stored, decision, env, text, jsonBytes) {
        FittingExcessSettles(st, settings, stored, decision, env, text, jsonBytes);
      }
    } else if CheckpointMaxOutputTokens(decision.outputReserve) > 0 && settings.compaction.enabled && decision.inputLimit > 0 {
      var text, bytes := env.summary.value.0, 3 * CheckpointMaxOutputTokens(decision.outputReserve);
      FullSummaryCompacts(st, settings, stored, decision, env);
      SummaryKeepsSelection(st, settings, decision, env, text, bytes);
      CompactsAgainOnExcess(st, settings, stored, decision, WithSummary(env, text, bytes));
      assert !SettlesWith(st, settings, stored, decision, env, text, bytes);
    } else {
      forall text, jsonBytes: nat ensures SettlesWith(st, settings, stored, decision, env, text, jsonBytes) {
        CompactsAgainOnExcess(st, settings, stored, decision, WithSummary(env, text, jsonBytes));
      }
    }
  }

  // The automatic decision is made on the estimate, and so without excess, unless the provider has
  // reported a count.
  lemma EstimateHasNoExcess(st: LoopState, settings: Settings)
    ensures var decision := CompactionDecision(st, settings);
            && (decision.shouldCompact ==> decision.inputLimit == InputLimit(settings) && !decision.compactFullPrefix)
            && (!st.hasLastMainInputTokens ==> Excess(decision, st, settings) == 0)
            && (st.hasLastMainInputTokens && decision.estimatedInput > 0 ==>
                  Excess(decision, st, settings) ==
                    MainRequestTokens(st, settings) - st.lastMainInputTokens - SumTokens(SinceLastMain(st)))
  {
  }

  // ----- A compaction that calls for another one -----

  const SYSTEM_MESSAGE := Message(System, "s", [], [], "", 3)
  const SHORT_MESSAGE := Message(User, "a", [], [], "", 30000)
  const LONG_MESSAGE := Message(User, "b", [], [], "", 180000)

  // Three messages, of which the provider counted far fewer tokens than the estimate says.
  const LOW_COUNT := LoopState([SYSTEM_MESSAGE, SHORT_MESSAGE, LONG_MESSAGE], 1, None, 0, map[], {}, None, 12723, 3, true)

  const WINDOW_20000 := Settings("m", "r", 0, 20000, 0, ResolvedConfig(true, 0.80))

  function Summarising(rewrite: Message -> Message): Environment {
    Environment(false, {}, rewrite, Some(("summary", 30)), 1, false)
  }

  lemma LowCountDecision()
    ensures CompactionDecision(LOW_COUNT, WINDOW_20000) == Decision(true, false, InputThreshold, 12723, 15904, 4096)
    ensures DesiredInput(15904) == 9542 && CheckpointMaxOutputTokens(4096) == 4096
  {
    var limits := ContextInputLimits(20000, ResolvedConfig(true, 0.80), 0);
    assert 15904.0 * 0.80 == 12723.2 && 15904.0 * 0.60 == 9542.4;
    assert limits == Limits(15904, 12723, 4096);
  }

  lemma LowCountBlocks(prepared: set<int>)
    ensures TranscriptBlocks(LOW_COUNT.messages, OptionsFor(LOW_COUNT, prepared)) ==
            [Block(1, 2, 10000, false, true, NoReason), Block(2, 3, 60000, false, true, NoReason)]
  {
    var ms, opts := LOW_COUNT.messages, OptionsFor(LOW_COUNT, prepared);
    assert BlockAt(ms, 1, opts) == Block(1, 2, 10000, false, true, NoReason);
    assert BlockAt(ms, 2, opts) == Block(2, 3, 60000, false, true, NoReason);
    assert BlocksFrom(ms, 2, opts) == [BlockAt(ms, 2, opts)] + BlocksFrom(ms, 3, opts);
    assert BlocksFrom(ms, 1, opts) == [BlockAt(ms, 1, opts)] + BlocksFrom(ms, 2, opts);
  }

  const LOW_COUNT_SELECTION := Selected(1, 2, 1, 10000, [], true)

  // Any target up to the first message's weight selects just that message.
  lemma LowCountSelects(prepared: set<int>, target: int)
    requires 0 < target <= 10000
    ensures SelectPrefix(TranscriptBlocks(LOW_COUNT.messages, OptionsFor(LOW_COUNT, prepared)), target) == Some(LOW_COUNT_SELECTION)
  {
    LowCountBlocks(prepared);
    var blocks := [Block(1, 2, 10000, false, true, NoReason), Block(2, 3, 60000, false, true, NoReason)];
    assert TokensOf(blocks, 0) == 0 && TokensOf(blocks, 1) == 10000 && KeptOf(blocks, 1) == [] + [] == [];
    assert PrefixLength(blocks, target, 0) == PrefixLength(blocks, target, 1) == 1;
  }

  lemma LowCountTokens()
    ensures MainRequestTokens(LOW_COUNT, WINDOW_20000) == 70001
  {
    var ms := LOW_COUNT.messages;
    assert ms[..2][..1][..0] == [] && ms[..2][..1] == [SYSTEM_MESSAGE] && ms[..2] == [SYSTEM_MESSAGE, SHORT_MESSAGE];
    assert SumTokens(ms[..1]) == 1;
    assert SumTokens(ms[..2]) == 10001;
  }

  lemma LowCountCompacts(rewrite: Message -> Message)
    ensures var decision, env := CompactionDecision(LOW_COUNT, WINDOW_20000), Summarising(rewrite);
            && FinalSelection(LOW_COUNT, WINDOW_20000, decision, env) == Some(LOW_COUNT_SELECTION)
            && Compact(LOW_COUNT, WINDOW_20000, None, decision, env).Compacted?
            && Compact(LOW_COUNT, WINDOW_20000, None, decision, env).checkpoint.message == CheckpointMessage("summary", 30)
  {
    var decision, env := CompactionDecision(LOW_COUNT, WINDOW_20000), Summarising(rewrite);
    LowCountDecision();
    LowCountSelects(ImageIndexes(LOW_COUNT.messages), 7277);
    LowCountSelects(PreparedIndexes(LOW_COUNT.messages, 1, 2, {}), 7277);
    var bare := BareOptions(1);
    assert BlocksFrom(LOW_COUNT.messages, 2, bare) == [BlockAt(LOW_COUNT.messages, 2, bare)] + BlocksFrom(LOW_COUNT.messages, 3, bare);
    assert TrimLeft("summary") == "summary" && TrimRight("summary") == "summary";
    CompactionSucceedsExactlyWhen(LOW_COUNT, WINDOW_20000, None, decision, env);
    CompactedOutcome(LOW_COUNT, WINDOW_20000, None, decision, env);
  }

  // On the trigger of a run whose provider reports its counts, the bound fails: the compaction reaches
  // its target with a checkpoint within its cap, and still leaves more than 60% of the limit and calls
  // for another compaction, by the estimate.
  lemma LowCountCompactsAgain(rewrite: Message -> Message)
    ensures var decision, env := CompactionDecision(LOW_COUNT, WINDOW_20000), Summarising(rewrite);
            var outcome := Compact(LOW_COUNT, WINDOW_20000, None, decision, env);
            && decision.reason.InputThreshold? && WithinCaps(LOW_COUNT, WINDOW_20000, None, decision, env)
            && MainRequestTokens(outcome.state, WINDOW_20000) > DesiredInput(decision.inputLimit)
            && CompactionDecision(outcome.state, WINDOW_20000).reason.EstimatedOverLimit?
            && CompactionDecision(outcome.state, WINDOW_20000).shouldCompact
  {
    var decision, env := CompactionDecision(LOW_COUNT, WINDOW_20000), Summarising(rewrite);
    LowCountDecision();
    LowCountCompacts(rewrite);
    LowCountTokens();
    CompactionTokens(LOW_COUNT, WINDOW_20000, None, decision, env);
    CompactsAgainExactlyWhen(LOW_COUNT, WINDOW_20000, None, decision, env);
    CompactedOutcome(LOW_COUNT, WINDOW_20000, None, decision, env);
  }
}
