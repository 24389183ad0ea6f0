/**
 The checkpoint of a run over its compactions (agent/context_compaction_engine.go): what each one writes
 into it, and how its revision, its count and its times go on through pauses.
 */
module CheckpointHistory {
  import opened Text
  import opened Transcript
  import opened Blocks
  import opened Checkpoints
  import opened CheckpointStore
  import opened CompactionEngine
  import opened Ledgers
  import opened LedgerCompaction
  import opened ResumeStates
  import opened CompactionRuns
  import opened RunStart

  // A save succeeds exactly when the run is not cancelled, the checkpoint is usable, and its revision
  // follows the stored one, on which it is based; it is a conflict exactly when only that last part fails.
  lemma SaveExactlyWhen(stored: Option<ContextCheckpoint>, cancelled: bool, expected: int, c: ContextCheckpoint)
    ensures var usable := c.version > 0 && c.compactionCount >= 0 && LoadAccepted(Some(c)) && expected >= 0 && c.revision == expected + 1;
            var current := if stored.Some? then stored.value.revision else 0;
            && (SaveResult(stored, cancelled, expected, c).Done? <==> !cancelled && usable && current == expected)
            && (SaveResult(stored, cancelled, expected, c).Conflict? <==> !cancelled && usable && current != expected)
            && (SaveResult(stored, cancelled, expected, c).Cancelled? <==> cancelled)
  {
  }

  // The number of the checkpoint's compactions, and its revision and creation time, for no checkpoint too.
  function CountOf(c: Option<ContextCheckpoint>): int {
    if c.Some? then c.value.compactionCount else 0
  }

  function CreatedAt(c: Option<ContextCheckpoint>): int {
    if c.Some? then c.value.createdAt else 0
  }

  // What a compaction writes: its summary is the text of the message right behind the fixed ones; the
  // checkpoint counts one compaction and one revision more, and keeps the time of the first.
  predicate Written(before: LoopState, settings: Settings, env: Environment, after: LoopState) {
    && after.checkpoint.Some? && env.summary.Some?
    && var c := after.checkpoint.value;
       && c.revision == RevisionOf(before.checkpoint) + 1 && c.compactionCount == CountOf(before.checkpoint) + 1
       && c.createdAt == (if CreatedAt(before.checkpoint) != 0 then CreatedAt(before.checkpoint) else env.now)
       && c.updatedAt == env.now && c.sourceModel == settings.model && c.sourceRunId == settings.runId && c.version == 1
       && 0 <= after.fixedMessageCount < |after.messages| && after.messages[after.fixedMessageCount] == c.message
       && c.message.role.User? && c.message.content == env.summary.value.0 && c.message.parts == [] && c.message.toolCalls == []
  }

  lemma CompactionWrites(st: LoopState, settings: Settings, stored: Option<ContextCheckpoint>, decision: Decision,
        env: Environment)
    requires 0 <= st.fixedMessageCount && Compact(st, settings, stored, decision, env).Compacted?
    ensures Written(st, settings, env, Compact(st, settings, stored, decision, env).state)
  {
    CompactedOutcome(st, settings, stored, decision, env);
    var sel := FinalSelection(st, settings, decision, env).value;
    FinalStart(st, settings, decision, env);
    PutInAt(st.messages, sel, Compact(st, settings, stored, decision, env).checkpoint.message, 0);
  }

  lemma FinalStart(st: LoopState, settings: Settings, decision: Decision, env: Environment)
    requires 0 <= st.fixedMessageCount && FinalSelection(st, settings, decision, env).Some?
    ensures FinalSelection(st, settings, decision, env).value.start == st.fixedMessageCount
  {
    SelectionsFit(st, settings, decision, env);
    var first, sel := FirstSelection(st, settings, decision).value, FinalSelection(st, settings, decision, env).value;
    var opts := OptionsFor(st, PreparedIndexes(st.messages, first.start, first.end, env.readable));
    var target := ReleaseTarget(decision, MainRequestTokens(st, settings),
                                TranscriptBlocks(st.messages, OptionsFor(st, ImageIndexes(st.messages))));
    var k := SelectionShape(st.messages, opts, target, sel);
  }

  // Why a compaction fails: the first of its steps that does.
  lemma FailsExactlyWhen(st: LoopState, settings: Settings, stored: Option<ContextCheckpoint>, decision: Decision,
        env: Environment)
    requires 0 <= st.fixedMessageCount
    ensures var outcome := Compact(st, settings, stored, decision, env);
            var first, final := FirstSelection(st, settings, decision), FinalSelection(st, settings, decision, env);
            && (outcome == Failed(NoSafePrefix) <==> first.None?)
            && (outcome == Failed(PrepareFailed) <==> first.Some? && env.prepareFails)
            && (outcome == Failed(ImageSelection) <==> first.Some? && !env.prepareFails && final.None?)
            && (outcome == Failed(SummaryFailed) <==> first.Some? && !env.prepareFails && final.Some? && env.summary.None?)
            && (outcome.Failed? && outcome.failure.SaveFailed? ==>
                  && first.Some? && !env.prepareFails && final.Some? && env.summary.Some?
                  && (outcome.failure.result.Conflict? ==> RevisionOf(stored) != RevisionOf(st.checkpoint))
                  && (outcome.failure.result.Cancelled? <==> env.cancelled))
  {
    SelectionsFit(st, settings, decision, env);
  }

  // ----- Over a run -----

  function Succeeds(st: LoopState, settings: Settings, step: RunStep): bool
    requires 0 <= st.fixedMessageCount
  {
    step.CompactNow? && Compact(st, settings, step.stored, step.decision, step.env).Compacted?
  }

  // How many compactions of the run succeed.
  function Successes(st: LoopState, settings: Settings, steps: seq<RunStep>): nat
    requires 0 <= st.fixedMessageCount
  {
    if steps == [] then 0
    else
      var init := steps[..|steps| - 1];
      Successes(st, settings, init) + if Succeeds(StateAfter(st, settings, init), settings, steps[|steps| - 1]) then 1 else 0
  }

  // The checkpoint after n compactions: it is the old one if there were none.
  ghost predicate Counted(before: Option<ContextCheckpoint>, after: Option<ContextCheckpoint>, n: nat) {
    && RevisionOf(after) == RevisionOf(before) + n && CountOf(after) == CountOf(before) + n
    && (CreatedAt(before) != 0 ==> CreatedAt(after) == CreatedAt(before))
    && (n == 0 ==> after == before) && (n > 0 ==> after.Some?)
  }

  lemma StepCounts(l: Ledger, st: LoopState, settings: Settings, step: RunStep)
    requires Valid(l) && Describes(l, st) && FaithfulStore(st, step)
    ensures Counted(st.checkpoint, Step(st, settings, step).checkpoint, if Succeeds(st, settings, step) then 1 else 0)
  {
    match step
    case CompactNow(decision, stored, env) =>
      CompactStepIs(l, st, settings, step);
      CompactionCounts(st, settings, stored, decision, env);
    case PauseAndResume(external) => PauseCounts(l, st, external);
    case _ =>
  }

  lemma CompactionCounts(st: LoopState, settings: Settings, stored: Option<ContextCheckpoint>, decision: Decision,
        env: Environment)
    requires 0 <= st.fixedMessageCount
    ensures var outcome := Compact(st, settings, stored, decision, env);
            if outcome.Compacted? then Counted(st.checkpoint, outcome.state.checkpoint, 1)
            else Counted(st.checkpoint, st.checkpoint, 0)
  {
    if Compact(st, settings, stored, decision, env).Compacted? {
      CompactionWrites(st, settings, stored, decision, env);
      WrittenCounts(st, settings, env, Compact(st, settings, stored, decision, env).state);
    }
    NoneCounts(st.checkpoint);
  }

  lemma WrittenCounts(before: LoopState, settings: Settings, env: Environment, after: LoopState)
    requires Written(before, settings, env, after)
    ensures Counted(before.checkpoint, after.checkpoint, 1)
  {
  }

  lemma NoneCounts(c: Option<ContextCheckpoint>)
    ensures Counted(c, c, 0)
  {
  }

  lemma PauseCounts(l: Ledger, st: LoopState, external: Option<Option<ContextCheckpoint>>)
    requires Valid(l) && Describes(l, st) && FaithfulStore(st, PauseAndResume(external))
    ensures PausedAndResumed(st, external).checkpoint == st.checkpoint
  {
    PauseRoundTrip(l, st, external);
  }

  lemma CountedThrough(a: Option<ContextCheckpoint>, b: Option<ContextCheckpoint>, c: Option<ContextCheckpoint>, m: nat, n: nat)
    requires Counted(a, b, m) && Counted(b, c, n)
    ensures Counted(a, c, m + n)
  {
  }

  // Over any run on faithful stores the revision and the count of the checkpoint go up by exactly the
  // compactions that succeeded, through all pauses, and its creation time never changes.
  lemma {:induction false} RunCounts(l: Ledger, st: LoopState, settings: Settings, steps: seq<RunStep>)
    requires Valid(l) && Describes(l, st) && FaithfulStores(st, settings, steps)
    ensures Counted(st.checkpoint, StateAfter(st, settings, steps).checkpoint, Successes(st, settings, steps))
  {
    if steps != [] {
      var n := |steps| - 1;
      var before := StateAfter(st, settings, steps[..n]);
      FaithfulPrefix(st, settings, steps, n);
      RunCounts(l, st, settings, steps[..n]);
      RunKeepsLedger(l, st, settings, steps[..n]);
      StepCounts(LedgerAfter(l, st, settings, steps[..n]), before, settings, steps[n]);
      CountedThrough(st.checkpoint, before.checkpoint, Step(before, settings, steps[n]).checkpoint,
                     Successes(st, settings, steps[..n]), if Succeeds(before, settings, steps[n]) then 1 else 0);
    }
  }

  // ----- Records of paused runs -----

  // A record of the current version is accepted exactly when its indexes lie in its transcript and its
  // metadata and context are plain messages behind the fixed ones; it is restored as it is. An older one
  // is accepted without its metadata.
  lemma RecordAcceptedExactlyWhen(rs: ResumeState)
    ensures UnmarshalResumeState(rs).Some? <==>
            && 0 <= rs.version <= 2
            && (rs.version == 2 ==>
                  && 0 <= rs.fixedMessageCount <= |rs.messages|
                  && (forall i :: i in rs.messageBoundaries ==> 0 <= i < |rs.messages|)
                  && (forall i :: i in rs.protectedIndexes ==> 0 <= i < |rs.messages|)
                  && (rs.metaMessageIndex.None? ==> rs.contextMessageCount == 0)
                  && (rs.metaMessageIndex.Some? ==> PlainRange(rs, rs.metaMessageIndex.value)))
    ensures UnmarshalResumeState(rs).Some? ==>
            UnmarshalResumeState(rs) == Some(if rs.version == 2 then rs else rs.(metaMessageIndex := None, contextMessageCount := 0))
    ensures UnmarshalResumeState(rs).Some? ==>
            var resumed := Resume(UnmarshalResumeState(rs).value, None);
            && resumed.Some?
            && resumed.value.fixedMessageCount ==
                 if rs.fixedMessageCount > 0 || rs.messages == [] || !rs.messages[0].role.System? then rs.fixedMessageCount else 1
  {
  }

  predicate PlainRange(rs: ResumeState, meta: int) {
    && 1 <= meta && rs.fixedMessageCount <= meta && 0 <= rs.contextMessageCount && meta + rs.contextMessageCount < |rs.messages|
    && forall i :: meta <= i <= meta + rs.contextMessageCount ==>
         && rs.messages[i].role.User? && rs.messages[i].content != "" && rs.messages[i].parts == []
         && rs.messages[i].toolCalls == [] && rs.messages[i].toolCallId == ""
  }
}
