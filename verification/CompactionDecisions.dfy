/**
 When the engine compacts and how much it wants to free, in terms of the window, the configured ratio and
 the sizes of requests (agent/context_compaction_engine.go, agent/context_compaction_config.go).
 */
module CompactionDecisions {
  import opened Transcript
  import opened Blocks
  import opened Selection
  import opened CompactionConfig
  import opened CheckpointStore
  import opened CompactionEngine
  import opened CompactionBudget
  import opened Ledgers
  import opened CompactionRuns
  import opened RunStart
  import opened ExchangeRuns

  // The input a request may have, with the output's reserve taken off the window.
  function RoomFor(settings: Settings): int {
    settings.contextWindow - ReserveFor(settings.contextWindow, settings.requestMaxTokens)
  }

  predicate WindowKnown(settings: Settings) {
    settings.contextWindow > 0 && RoomFor(settings) > 0
  }

  predicate RatioValid(settings: Settings) {
    0.0 < settings.compaction.triggerRatio < 1.0
  }

  lemma LimitIsRoom(settings: Settings)
    ensures WindowKnown(settings) <==> InputLimit(settings) > 0
    ensures WindowKnown(settings) ==> InputLimit(settings) == RoomFor(settings)
  {
    LimitIsRest(settings.contextWindow, settings.compaction, settings.requestMaxTokens);
  }

  // A size is over the configured ratio of the room, in whole tokens.
  predicate Reaches(size: int, settings: Settings) {
    size >= 1 && size as real + 1.0 > RoomFor(settings) as real * settings.compaction.triggerRatio
  }

  lemma ReachesTrigger(size: int, share: real, trigger: int)
    requires 1 <= trigger && IsShare(trigger, share)
    ensures size >= trigger <==> size >= 1 && size as real + 1.0 > share
  {
  }

  lemma DecisionOnCount(st: LoopState, settings: Settings)
    requires st.hasLastMainInputTokens
    ensures var limits := ContextInputLimits(settings.contextWindow, settings.compaction, settings.requestMaxTokens);
            CompactionDecision(st, settings).shouldCompact <==>
              && settings.compaction.enabled && limits.inputLimit > 0
              && st.lastMainInputTokens + SumTokens(SinceLastMain(st)) >= limits.trigger
  {
  }

  // With a provider's count the engine compacts exactly when the count and what was added since reach
  // the configured ratio of the window less the reserve ...
  lemma CompactsOnCount(st: LoopState, settings: Settings)
    requires RatioValid(settings) && st.hasLastMainInputTokens
    ensures CompactionDecision(st, settings).shouldCompact <==>
            && settings.compaction.enabled && WindowKnown(settings)
            && Reaches(st.lastMainInputTokens + SumTokens(SinceLastMain(st)), settings)
    ensures CompactionDecision(st, settings).reason ==
            if CompactionDecision(st, settings).shouldCompact then InputThreshold else NotNeeded
  {
    DecisionOnCount(st, settings);
    TriggerReached(st.lastMainInputTokens + SumTokens(SinceLastMain(st)), settings);
  }

  lemma ShareReached(size: int, limit: int, ratio: real)
    requires limit > 0 && 0.0 < ratio < 1.0
    ensures size >= TriggerOf(limit, ratio) <==> size >= 1 && size as real + 1.0 > limit as real * ratio
  {
    TriggerIsShare(limit, ratio);
    ReachesTrigger(size, limit as real * ratio, TriggerOf(limit, ratio));
  }

  lemma TriggerReached(size: int, settings: Settings)
    requires RatioValid(settings)
    ensures var limits := ContextInputLimits(settings.contextWindow, settings.compaction, settings.requestMaxTokens);
            limits.inputLimit > 0 && size >= limits.trigger <==> WindowKnown(settings) && Reaches(size, settings)
  {
    LimitIsRest(settings.contextWindow, settings.compaction, settings.requestMaxTokens);
    if WindowKnown(settings) {
      ShareReached(size, RoomFor(settings), settings.compaction.triggerRatio);
    }
  }

  // ... and without one exactly when the messages and the tools are estimated at more than all of it.
  lemma CompactsOnEstimate(st: LoopState, settings: Settings)
    requires !st.hasLastMainInputTokens
    ensures CompactionDecision(st, settings).shouldCompact <==>
            && settings.compaction.enabled && WindowKnown(settings)
            && SumTokens(st.messages) + settings.toolTokens > RoomFor(settings)
    ensures CompactionDecision(st, settings).reason ==
            if CompactionDecision(st, settings).shouldCompact then EstimatedOverLimit else NotNeeded
  {
    LimitIsRoom(settings);
  }

  // ----- Over a run -----

  predicate Between(step: RunStep) {
    !step.CompactNow? && !step.RequestSucceeded?
  }

  // None of the steps is a compaction or a successful request.
  predicate AllBetween(steps: seq<RunStep>) {
    steps == [] || (AllBetween(steps[..|steps| - 1]) && Between(steps[|steps| - 1]))
  }

  ghost predicate CountedSince(st: LoopState, tokens: int, added: seq<Message>) {
    && st.hasLastMainInputTokens == (tokens > 0) && st.lastMainInputTokens == (if tokens > 0 then tokens else 0)
    && 0 <= st.lastMainMessageCount <= |st.messages| && st.messages[st.lastMainMessageCount..] == added
  }

  lemma AppendCounted(st: LoopState, tokens: int, added: seq<Message>, more: seq<Message>)
    requires CountedSince(st, tokens, added)
    ensures CountedSince(st.(messages := st.messages + more), tokens, added + more)
  {
    var n := st.lastMainMessageCount;
    assert (st.messages + more)[n..] == st.messages[n..] + more;
  }

  lemma OtherCounted(st: LoopState, after: LoopState, tokens: int, added: seq<Message>)
    requires CountedSince(st, tokens, added)
    requires after == st.(checkpoint := after.checkpoint, protectedIndexes := after.protectedIndexes)
    ensures CountedSince(after, tokens, added)
  {
  }

  lemma BetweenKeeps(l: Ledger, st: LoopState, settings: Settings, step: RunStep, tokens: int, added: seq<Message>)
    requires Valid(l) && Describes(l, st) && Between(step) && CountedSince(st, tokens, added)
    ensures CountedSince(Step(st, settings, step), tokens, AddedBy(added, step))
  {
    match step
    case AppendMessages(more) => AppendCounted(st, tokens, added, more);
    case ProtectLast => OtherCounted(st, ProtectedLast(st), tokens, added);
    case PauseAndResume(external) =>
      PauseIs(l, st, external);
      OtherCounted(st, PausedAndResumed(st, external), tokens, added);
  }

  lemma {:induction false} CountedThrough(l: Ledger, st: LoopState, settings: Settings, steps: seq<RunStep>, tokens: int)
    requires Valid(l) && Describes(l, st) && CountedSince(st, tokens, [])
    requires AllBetween(steps)
    ensures CountedSince(StateAfter(st, settings, steps), tokens, Added(steps))
  {
    if steps != [] {
      var n := |steps| - 1;
      CountedThrough(l, st, settings, steps[..n], tokens);
      RunKeepsLedger(l, st, settings, steps[..n]);
      BetweenKeeps(LedgerAfter(l, st, settings, steps[..n]), StateAfter(st, settings, steps[..n]), settings, steps[n], tokens,
                   Added(steps[..n]));
    }
  }

  // The engine compacts exactly when the provider's count and the messages added reach the ratio, or,
  // without a count, when all of the transcript and the tools are estimated over the room.
  predicate DecidedOn(st: LoopState, settings: Settings, tokens: int, added: seq<Message>) {
    CompactionDecision(st, settings).shouldCompact <==>
      && settings.compaction.enabled && WindowKnown(settings)
      && if tokens > 0 then Reaches(tokens + SumTokens(added), settings)
         else SumTokens(st.messages) + settings.toolTokens > RoomFor(settings)
  }

  // After a main request the next decision is made on the provider's count and exactly the messages
  // appended since, over any number of pauses; if the provider gave no count, on the estimate of all.
  lemma DecisionAfterRequest(l: Ledger, st: LoopState, settings: Settings, tokens: int, steps: seq<RunStep>)
    requires Valid(l) && Describes(l, st) && RatioValid(settings) && AllBetween(steps)
    ensures DecidedOn(StateAfter(Step(st, settings, RequestSucceeded(tokens)), settings, steps), settings, tokens, Added(steps))
  {
    AddedSinceRequest(l, st, settings, tokens, steps);
    DecisionSince(StateAfter(Step(st, settings, RequestSucceeded(tokens)), settings, steps), settings, tokens, Added(steps));
  }

  lemma AddedSinceRequest(l: Ledger, st: LoopState, settings: Settings, tokens: int, steps: seq<RunStep>)
    requires Valid(l) && Describes(l, st) && AllBetween(steps)
    ensures CountedSince(StateAfter(Step(st, settings, RequestSucceeded(tokens)), settings, steps), tokens, Added(steps))
  {
    StepKeepsLedger(l, st, settings, RequestSucceeded(tokens));
    CountedFrom(st, tokens);
    CountedThrough(LedgerStep(l, st, settings, RequestSucceeded(tokens)), Succeeded(st, tokens), settings, steps, tokens);
  }

  lemma CountedFrom(st: LoopState, tokens: int)
    ensures CountedSince(Succeeded(st, tokens), tokens, [])
  {
  }

  lemma DecisionSince(st: LoopState, settings: Settings, tokens: int, added: seq<Message>)
    requires RatioValid(settings) && CountedSince(st, tokens, added)
    ensures DecidedOn(st, settings, tokens, added)
  {
    SinceIsAdded(st, tokens, added);
    if tokens > 0 {
      CompactsOnCount(st, settings);
    } else {
      CompactsOnEstimate(st, settings);
    }
  }

  lemma SinceIsAdded(st: LoopState, tokens: int, added: seq<Message>)
    requires CountedSince(st, tokens, added)
    ensures SinceLastMain(st) == added
  {
  }

  // The first decision of a run is made on the estimate of all it starts with.
  lemma FirstDecision(input: RunInput, settings: Settings)
    ensures DecidedOn(StartState(input), settings, 0, [])
    ensures !StartState(input).hasLastMainInputTokens
  {
    CompactsOnEstimate(StartState(input), settings);
  }

  // ----- Forced compactions -----

  function AtLeastOne(n: int): int {
    if n < 1 then 1 else n
  }

  // A compaction after a request that was too long wants to bring the input, counted as for the
  // automatic decision, down to 60% of the room, and leave room for the checkpoint. Without a known
  // window it wants to free all of the request.
  lemma TargetAfterTooLong(st: LoopState, settings: Settings)
    requires settings.compaction.enabled
    ensures var forced := ForcedDecision(CompactionDecision(st, settings), st, settings, false);
            && forced.shouldCompact && !forced.compactFullPrefix && forced.reason.ContextLengthError?
            && TargetOf(st, settings, forced) == AtLeastOne(
                 if WindowKnown(settings) then
                   (if st.hasLastMainInputTokens && st.lastMainInputTokens + SumTokens(SinceLastMain(st)) > 0
                    then st.lastMainInputTokens + SumTokens(SinceLastMain(st))
                    else SumTokens(st.messages) + settings.toolTokens)
                   - DesiredInput(RoomFor(settings)) + CheckpointMaxOutputTokens(forced.outputReserve)
                 else
                   SumTokens(st.messages) + settings.toolTokens - DesiredInput(forced.inputLimit)
                   + CheckpointMaxOutputTokens(forced.outputReserve))
            && forced.outputReserve > 0 && forced.estimatedInput == EffectiveInput(CompactionDecision(st, settings), st, settings)
            && (ReserveFor(settings.contextWindow, settings.requestMaxTokens) > 0 && settings.contextWindow > 0 ==>
                  forced.outputReserve == ReserveFor(settings.contextWindow, settings.requestMaxTokens))
            && (settings.contextWindow <= 0 ==> forced.outputReserve == 4096 && forced.inputLimit == 0)
  {
    LimitIsRest(settings.contextWindow, settings.compaction, settings.requestMaxTokens);
    LimitIsRoom(settings);
  }

  // A manual compaction selects the longest safe prefix of the transcript, and fails to select only
  // when nothing but metadata is in it.
  lemma ManualSelectsAll(st: LoopState, settings: Settings)
    requires |TranscriptBlocks(st.messages, OptionsFor(st, ImageIndexes(st.messages)))| >= 2
    ensures var forced := ForcedDecision(CompactionDecision(st, settings), st, settings, true);
            var blocks := TranscriptBlocks(st.messages, OptionsFor(st, ImageIndexes(st.messages)));
            var longest, sel := MaximalPrefix(blocks, 0), FirstSelection(st, settings, forced);
            && forced.shouldCompact && forced.reason.Manual?
            && forced.estimatedInput == EffectiveInput(CompactionDecision(st, settings), st, settings)
            && (sel.Some? <==> CountOf(blocks, longest) > 0)
            && (sel.Some? ==> sel.value.blockCount == CountOf(blocks, longest) && sel.value.tokens == TokensOf(blocks, longest))
  {
    var forced := ForcedDecision(CompactionDecision(st, settings), st, settings, true);
    var ms, opts := st.messages, OptionsFor(st, ImageIndexes(st.messages));
    var blocks := TranscriptBlocks(ms, opts);
    ParsedChain(ms, FirstIndex(ms, opts), opts);
    LeadingIsMaximal(ms, FirstIndex(ms, opts), opts, blocks, 0);
    ManualTargetSelectsAll(ms, opts, ReleaseTarget(forced, MainRequestTokens(st, settings), blocks));
  }
}
