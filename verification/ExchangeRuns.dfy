/**
 Tool exchanges over whole runs: a run that begins with answered calls and only adds answered responses
 has an answered transcript whenever it compacts, so that no compaction is refused for its exchanges
 (agent/context_compaction_checkpoint.go).
 */
module ExchangeRuns {
  import opened Text
  import opened Transcript
  import opened Blocks
  import opened Selection
  import opened Checkpoints
  import opened CompactionConfig
  import opened CheckpointStore
  import opened CompactionEngine
  import opened Ledgers
  import opened LedgerCompaction
  import opened CompactionRuns
  import opened Reparsing
  import opened RunStart
  import opened AnsweredMessages

  // ----- Compaction -----

  // The transcript behind the fixed messages.
  function Behind(st: LoopState): seq<Message> {
    if 0 <= st.fixedMessageCount <= |st.messages| then st.messages[st.fixedMessageCount..] else []
  }

  lemma PlainSlice(ms: seq<Message>, i: int, n: int)
    requires 0 <= i <= n <= |ms| && forall j :: i <= j < n ==> !HasToolCalls(ms[j]) && !ms[j].role.Tool?
    ensures Answered(ms[i..n])
  {
    PlainAnswered(ms[i..n]);
  }

  lemma SameRest(ms: seq<Message>, i: int, compacted: seq<Message>, n: int)
    requires 0 <= i <= |ms| && 0 <= n <= |compacted| && |ms| - i == |compacted| - n
    requires forall j :: i <= j < |ms| ==> ms[j] == compacted[j + (n - i)]
    ensures compacted[n..] == ms[i..]
  {
  }

  lemma AnsweredPieces(ms: seq<Message>, i: int, n: int)
    requires 0 <= i <= n <= |ms| && Answered(ms[i..n]) && Answered(ms[n..])
    ensures Answered(ms[i..])
  {
    AnsweredConcat(ms[i..n], ms[n..]);
    assert ms[i..] == ms[i..n] + ms[n..];
  }

  lemma CompactedAnswered(ms: seq<Message>, sel: Selected, compacted: seq<Message>)
    requires CompactedFrom(ms, sel, compacted) && Answered(ms[sel.end..])
    ensures Answered(compacted[sel.start..])
  {
    var n := sel.start + 1 + |sel.kept|;
    PlainSlice(compacted, sel.start, n);
    SameRest(ms, sel.end, compacted, n);
    AnsweredPieces(compacted, sel.start, n);
  }

  lemma SelectionCut(st: LoopState, settings: Settings, decision: Decision, env: Environment) returns (prepared: set<int>)
    requires 0 <= st.fixedMessageCount && FinalSelection(st, settings, decision, env).Some?
    ensures var sel := FinalSelection(st, settings, decision, env).value;
            var target := ReleaseTarget(decision, MainRequestTokens(st, settings), TranscriptBlocks(st.messages, EngineOptions(st)));
            && prepared <= ImageIndexes(st.messages) && WellFormed(sel, |st.messages|)
            && IsSelection(st.messages, OptionsFor(st, prepared), target, sel)
  {
    SelectionsFit(st, settings, decision, env);
    var first := FirstSelection(st, settings, decision).value;
    prepared := PreparedIndexes(st.messages, first.start, first.end, env.readable);
  }

  lemma AnsweredBehindSelection(st: LoopState, prepared: set<int>, target: int, sel: Selected)
    requires prepared <= ImageIndexes(st.messages) && IsSelection(st.messages, OptionsFor(st, prepared), target, sel)
    requires 0 <= st.fixedMessageCount <= |st.messages| && Answered(Behind(st))
    ensures 0 <= sel.end <= |st.messages| && Answered(st.messages[sel.end..])
  {
    var ms, opts := st.messages, EngineOptions(st);
    var k := SelectionEndsAtBlock(st, prepared, target, sel);
    BlockStart(ms, sel.end, opts, TranscriptBlocks(ms, opts), k);
    AnsweredFromBlock(ms, st.fixedMessageCount, opts, k);
  }

  // With an answered transcript a compaction succeeds whenever there is something to select and a
  // summary with text, and the store takes it: it is never refused for the exchanges.
  lemma AnsweredCompacts(st: LoopState, settings: Settings, stored: Option<ContextCheckpoint>, decision: Decision,
        env: Environment)
    requires 0 <= st.fixedMessageCount <= |st.messages| && Answered(Behind(st))
    ensures Compact(st, settings, stored, decision, env).Compacted? <==>
              && FinalSelection(st, settings, decision, env).Some? && !env.prepareFails
              && env.summary.Some? && TrimSpace(env.summary.value.0) != ""
              && !env.cancelled && RevisionOf(stored) == RevisionOf(st.checkpoint) && Continuable(st.checkpoint)
  {
    CompactionSucceedsExactlyWhen(st, settings, stored, decision, env);
    if FinalSelection(st, settings, decision, env).Some? {
      var sel := FinalSelection(st, settings, decision, env).value;
      var target := ReleaseTarget(decision, MainRequestTokens(st, settings), TranscriptBlocks(st.messages, EngineOptions(st)));
      var prepared := SelectionCut(st, settings, decision, env);
      AnsweredBehindSelection(st, prepared, target, sel);
      AnsweredParses(st.messages, sel.end, BareOptions(st.fixedMessageCount));
    }
  }

  // ... and what it leaves is answered again.
  lemma CompactionKeepsAnswered(st: LoopState, settings: Settings, stored: Option<ContextCheckpoint>,
        decision: Decision, env: Environment)
    requires 0 <= st.fixedMessageCount <= |st.messages| && Answered(Behind(st))
    requires Compact(st, settings, stored, decision, env).Compacted?
    ensures var after := Compact(st, settings, stored, decision, env).state;
            after.fixedMessageCount == st.fixedMessageCount <= |after.messages| && Answered(Behind(after))
  {
    CompactedOutcome(st, settings, stored, decision, env);
    var sel := FinalSelection(st, settings, decision, env).value;
    var target := ReleaseTarget(decision, MainRequestTokens(st, settings), TranscriptBlocks(st.messages, EngineOptions(st)));
    var prepared := SelectionCut(st, settings, decision, env);
    AnsweredBehindSelection(st, prepared, target, sel);
    CheckpointIsMessage(st, settings, stored, decision, env);
    var c := Compact(st, settings, stored, decision, env).checkpoint;
    CompactedShape(st.messages, OptionsFor(st, prepared), target, sel, c.message);
    var k := SelectionShape(st.messages, OptionsFor(st, prepared), target, sel);
    CompactedAnswered(st.messages, sel, Replaced(st.messages, sel, c.message));
  }

  // ----- Runs -----

  // What was appended since the last compaction was tried.
  function Added(steps: seq<RunStep>): seq<Message> {
    if steps == [] then []
    else
      AddedBy(Added(steps[..|steps| - 1]), steps[|steps| - 1])
  }

  function AddedBy(before: seq<Message>, step: RunStep): seq<Message> {
    match step
    case AppendMessages(added) => before + added
    case CompactNow(_, _, _) => []
    case _ => before
  }

  // Whenever the run compacts, the calls it has added are answered. Between two compactions a response
  // may be paused with some of its calls unanswered.
  ghost predicate AnswersFirst(steps: seq<RunStep>) {
    forall n :: 0 <= n < |steps| && steps[n].CompactNow? ==> Answered(Added(steps[..n]))
  }

  lemma AnswersFirstPrefix(steps: seq<RunStep>, n: nat)
    requires AnswersFirst(steps) && n <= |steps|
    ensures AnswersFirst(steps[..n])
  {
    forall m | 0 <= m < n && steps[..n][m].CompactNow? ensures Answered(Added(steps[..n][..m])) {
      assert steps[..n][..m] == steps[..m];
    }
  }

  // The transcript is an answered one and what was added since.
  ghost predicate AnsweredUpTo(st: LoopState, added: seq<Message>) {
    && 0 <= st.fixedMessageCount <= |st.messages|
    && exists base :: Answered(base) && Behind(st) == base + added
  }

  lemma AnsweredNow(st: LoopState, added: seq<Message>)
    requires AnsweredUpTo(st, added) && Answered(added)
    ensures Answered(Behind(st))
  {
    var base :| Answered(base) && Behind(st) == base + added;
    AnsweredConcat(base, added);
  }

  lemma NothingAdded(st: LoopState)
    requires 0 <= st.fixedMessageCount <= |st.messages| && Answered(Behind(st))
    ensures AnsweredUpTo(st, [])
  {
    assert Behind(st) == Behind(st) + [];
  }

  lemma AppendUpTo(st: LoopState, before: seq<Message>, added: seq<Message>)
    requires AnsweredUpTo(st, before)
    ensures AnsweredUpTo(st.(messages := st.messages + added), before + added)
  {
    var base :| Answered(base) && Behind(st) == base + before;
    var after := st.(messages := st.messages + added);
    assert Behind(after) == Behind(st) + added == base + (before + added);
  }

  lemma CompactionStep(st: LoopState, settings: Settings, step: RunStep)
    requires 0 <= st.fixedMessageCount && step.CompactNow?
    ensures var outcome := Compact(st, settings, step.stored, step.decision, step.env);
            Step(st, settings, step) == if outcome.Compacted? then outcome.state else st
  {
  }

  lemma CompactUpTo(st: LoopState, settings: Settings, stored: Option<ContextCheckpoint>, decision: Decision,
        env: Environment)
    requires 0 <= st.fixedMessageCount <= |st.messages| && Answered(Behind(st))
    ensures var outcome := Compact(st, settings, stored, decision, env);
            AnsweredUpTo(if outcome.Compacted? then outcome.state else st, [])
  {
    if Compact(st, settings, stored, decision, env).Compacted? {
      CompactionKeepsAnswered(st, settings, stored, decision, env);
      NothingAdded(Compact(st, settings, stored, decision, env).state);
    } else {
      NothingAdded(st);
    }
  }

  lemma OtherUpTo(st: LoopState, after: LoopState, added: seq<Message>)
    requires AnsweredUpTo(st, added)
    requires after.messages == st.messages && after.fixedMessageCount == st.fixedMessageCount
    ensures AnsweredUpTo(after, added)
  {
    assert Behind(after) == Behind(st);
  }

  lemma CompactStepUpTo(st: LoopState, settings: Settings, step: RunStep, added: seq<Message>)
    requires step.CompactNow? && AnsweredUpTo(st, added) && Answered(added)
    ensures AnsweredUpTo(Step(st, settings, step), [])
  {
    AnsweredNow(st, added);
    CompactUpTo(st, settings, step.stored, step.decision, step.env);
    CompactionStep(st, settings, step);
  }

  lemma PauseUpTo(l: Ledger, st: LoopState, external: Option<Option<ContextCheckpoint>>, added: seq<Message>)
    requires Valid(l) && Describes(l, st) && AnsweredUpTo(st, added)
    ensures AnsweredUpTo(PausedAndResumed(st, external), added)
  {
    PauseIs(l, st, external);
    OtherUpTo(st, PausedAndResumed(st, external), added);
  }

  lemma StepUpTo(l: Ledger, st: LoopState, settings: Settings, step: RunStep, added: seq<Message>)
    requires Valid(l) && Describes(l, st) && AnsweredUpTo(st, added)
    requires step.CompactNow? ==> Answered(added)
    ensures AnsweredUpTo(Step(st, settings, step), AddedBy(added, step))
  {
    match step
    case AppendMessages(more) => AppendUpTo(st, added, more);
    case CompactNow(_, _, _) => CompactStepUpTo(st, settings, step, added);
    case PauseAndResume(external) => PauseUpTo(l, st, external, added);
    case ProtectLast => OtherUpTo(st, ProtectedLast(st), added);
    case RequestSucceeded(tokens) => OtherUpTo(st, Succeeded(st, tokens), added);
  }

  lemma {:induction false} RunUpTo(l: Ledger, st: LoopState, settings: Settings, steps: seq<RunStep>)
    requires Valid(l) && Describes(l, st) && AnsweredUpTo(st, []) && AnswersFirst(steps)
    ensures AnsweredUpTo(StateAfter(st, settings, steps), Added(steps))
  {
    if steps != [] {
      var n := |steps| - 1;
      AnswersFirstPrefix(steps, n);
      RunUpTo(l, st, settings, steps[..n]);
      RunKeepsLedger(l, st, settings, steps[..n]);
      StepUpTo(LedgerAfter(l, st, settings, steps[..n]), StateAfter(st, settings, steps[..n]), settings, steps[n],
               Added(steps[..n]));
    }
  }

  // At any time of a run at which its calls are answered, the engine's parse of the transcript has no
  // invalid exchange behind the fixed messages, and a compaction is refused for no exchange.
  lemma RunsParse(l: Ledger, st: LoopState, settings: Settings, steps: seq<RunStep>, n: nat, opts: Options)
    requires Valid(l) && Describes(l, st) && st.fixedMessageCount <= |st.messages| && Answered(Behind(st))
    requires AnswersFirst(steps) && n <= |steps| && Answered(Added(steps[..n]))
    ensures var now := StateAfter(st, settings, steps[..n]);
            && 0 <= now.fixedMessageCount <= |now.messages|
            && NoInvalidTool(BlocksFrom(now.messages, now.fixedMessageCount, opts))
  {
    var now := StateAfter(st, settings, steps[..n]);
    NothingAdded(st);
    AnswersFirstPrefix(steps, n);
    RunUpTo(l, st, settings, steps[..n]);
    AnsweredNow(now, Added(steps[..n]));
    AnsweredParses(now.messages, now.fixedMessageCount, opts);
  }

  // So every compaction of such a run succeeds exactly when there is something to select, a summary
  // with text, and a store that takes it.
  lemma RunsCompact(l: Ledger, st: LoopState, settings: Settings, steps: seq<RunStep>, n: nat)
    requires Valid(l) && Describes(l, st) && st.fixedMessageCount <= |st.messages| && Answered(Behind(st))
    requires AnswersFirst(steps) && n < |steps| && steps[n].CompactNow?
    ensures var now, decision, env := StateAfter(st, settings, steps[..n]), steps[n].decision, steps[n].env;
            Compact(now, settings, steps[n].stored, decision, env).Compacted? <==>
              && FinalSelection(now, settings, decision, env).Some? && !env.prepareFails
              && env.summary.Some? && TrimSpace(env.summary.value.0) != "" && !env.cancelled
              && RevisionOf(steps[n].stored) == RevisionOf(now.checkpoint) && Continuable(now.checkpoint)
  {
    var now := StateAfter(st, settings, steps[..n]);
    NothingAdded(st);
    AnswersFirstPrefix(steps, n);
    RunUpTo(l, st, settings, steps[..n]);
    AnsweredNow(now, Added(steps[..n]));
    AnsweredCompacts(now, settings, steps[n].stored, steps[n].decision, steps[n].env);
  }

  // ----- Where such runs come from -----

  // The messages of the given history that go into the transcript.
  function Kept(input: RunInput, n: nat): seq<Message>
    requires n <= |input.history|
  {
    if n == 0 then []
    else Kept(input, n - 1) + if KeepsHistory(input.history[n - 1]) then [input.history[n - 1]] else []
  }

  lemma {:induction false} HistoryIsKept(input: RunInput, n: nat)
    requires n <= |input.history|
    ensures WithHistory(input, n).messages == Beginning(input).messages + Kept(input, n)
  {
    if n > 0 {
      HistoryIsKept(input, n - 1);
    }
  }

  predicate AllUsers(ms: seq<Message>) {
    forall j :: 0 <= j < |ms| ==> ms[j].role.User?
  }

  lemma BeginningIsUsers(input: RunInput)
    requires LoadAccepted(input.loaded)
    ensures Beginning(input).messages != [] && AllUsers(Beginning(input).messages[1..])
  {
  }

  lemma CurrentIsUsers(input: RunInput) returns (current: seq<Message>)
    ensures WithCurrent(input).messages == WithMeta(input).messages + current
    ensures forall j :: 0 <= j < |current| ==> current[j].role.User?
  {
    current := WithCurrent(input).messages[|WithMeta(input).messages|..];
  }

  lemma EndIsUsers(input: RunInput) returns (end: seq<Message>)
    ensures WithCurrent(input).messages == WithHistory(input, |input.history|).messages + end && AllUsers(end)
  {
    var current := CurrentIsUsers(input);
    var meta := [UserMessage(input.metadata)] + NonBlank(input.notes, |input.notes|);
    end := meta + current;
    assert WithMeta(input).messages == WithHistory(input, |input.history|).messages + meta;
  }

  lemma Tail<T>(a: seq<T>, b: seq<T>)
    requires a != []
    ensures (a + b)[1..] == a[1..] + b
  {
  }

  lemma UsersAnswered(ms: seq<Message>)
    requires AllUsers(ms)
    ensures Answered(ms)
  {
    PlainAnswered(ms);
  }

  lemma AnsweredBetweenUsers(begun: seq<Message>, kept: seq<Message>, end: seq<Message>)
    requires begun != [] && AllUsers(begun[1..]) && Answered(kept) && AllUsers(end)
    ensures Answered((begun + kept + end)[1..])
  {
    UsersAnswered(begun[1..]);
    UsersAnswered(end);
    Tail(begun, kept);
    Tail(begun + kept, end);
    AnsweredConcat(begun[1..], kept);
    AnsweredConcat(begun[1..] + kept, end);
  }

  // A run starts with an answered transcript if the history it is given is answered.
  lemma StartAnswered(input: RunInput)
    requires LoadAccepted(input.loaded) && Answered(Kept(input, |input.history|))
    ensures 1 <= |StartState(input).messages| && Answered(Behind(StartState(input)))
  {
    BeginningIsUsers(input);
    HistoryIsKept(input, |input.history|);
    var end := EndIsUsers(input);
    AnsweredBetweenUsers(Beginning(input).messages, Kept(input, |input.history|), end);
  }

  // From the start of a run: with an answered history, and answered calls before every compaction, no
  // compaction of the run is refused for an exchange.
  lemma StartedRunsCompact(input: RunInput, settings: Settings, steps: seq<RunStep>, n: nat)
    requires ValidInput(input) && LoadAccepted(input.loaded) && Answered(Kept(input, |input.history|))
    requires AnswersFirst(steps) && n < |steps| && steps[n].CompactNow?
    ensures var now := StateAfter(StartState(input), settings, steps[..n]);
            var decision, env := steps[n].decision, steps[n].env;
            && 0 <= now.fixedMessageCount <= |now.messages|
            && NoInvalidTool(BlocksFrom(now.messages, now.fixedMessageCount, EngineOptions(now)))
            && (Compact(now, settings, steps[n].stored, decision, env).Compacted? <==>
                  && FinalSelection(now, settings, decision, env).Some? && !env.prepareFails
                  && env.summary.Some? && TrimSpace(env.summary.value.0) != "" && !env.cancelled
                  && RevisionOf(steps[n].stored) == RevisionOf(now.checkpoint) && Continuable(now.checkpoint))
  {
    StartDescribed(input);
    StartAnswered(input);
    var l, st := StartLedger(input), StartState(input);
    RunsCompact(l, st, settings, steps, n);
    RunsParse(l, st, settings, steps, n, EngineOptions(StateAfter(st, settings, steps[..n])));
  }
}
