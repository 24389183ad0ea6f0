/**
 What is saved of the loop's transcript at an approval pause, and what is accepted and restored at
 the resume (agent/engine_runstate.go, requestToolApproval in agent/engine_loop.go, resume in
 agent/engine_resume.go).
 */
module ResumeStates {
  import opened Transcript
  import opened CheckpointStore
  import opened CompactionEngine
  import opened Ledgers

  datatype ResumeState = ResumeState(
    version: int,
    messages: seq<Message>,
    metaMessageIndex: Option<int>,
    contextMessageCount: int,
    fixedMessageCount: int,
    messageBoundaries: map<int, string>,
    checkpoint: Option<ContextCheckpoint>,
    protectedIndexes: set<int>,
    lastMainInputTokens: int,
    lastMainMessageCount: int,
    hasLastMainInputTokens: bool)

  function Snapshot(st: LoopState): ResumeState {
    ResumeState(2, st.messages, st.metaMessageIndex, st.contextMessageCount, st.fixedMessageCount,
                st.messageBoundaries, st.checkpoint, st.protectedIndexes,
                st.lastMainInputTokens, st.lastMainMessageCount, st.hasLastMainInputTokens)
  }

  predicate ValidMetaIndex(ms: seq<Message>, fixed: int, index: Option<int>) {
    index.Some? ==>
      && fixed <= index.value < |ms| && 1 <= index.value
      && IsPlainUserMessage(ms[index.value])
  }

  predicate ValidContext(ms: seq<Message>, meta: Option<int>, count: int) {
    count != 0 ==>
      && 0 < count && meta.Some? && meta.value + count < |ms|
      && forall i :: meta.value + 1 <= i <= meta.value + count ==> 0 <= i && IsPlainUserMessage(ms[i])
  }

  // The resume state accepted from its stored form, or none when a check fails.
  function UnmarshalResumeState(rs: ResumeState): Option<ResumeState> {
    if rs.version < 0 || rs.version > 2 then None
    else if rs.version < 2 then Some(rs.(metaMessageIndex := None, contextMessageCount := 0))
    else if rs.fixedMessageCount < 0 || rs.fixedMessageCount > |rs.messages| then None
    else if !ValidMetaIndex(rs.messages, rs.fixedMessageCount, rs.metaMessageIndex) then None
    else if !ValidContext(rs.messages, rs.metaMessageIndex, rs.contextMessageCount) then None
    else if !forall i :: i in rs.messageBoundaries ==> 0 <= i < |rs.messages| then None
    else if !forall i :: i in rs.protectedIndexes ==> 0 <= i < |rs.messages| then None
    else Some(rs)
  }

  function RestoredFixedCount(rs: ResumeState): int {
    if rs.fixedMessageCount <= 0 && rs.messages != [] && rs.messages[0].role.System? then 1 else rs.fixedMessageCount
  }

  // The loop state a run continues with. external is what the caller's checkpoint store holds, none
  // when the run keeps its own; the run continues only on the checkpoint it was paused with.
  function Resume(rs: ResumeState, external: Option<Option<ContextCheckpoint>>): Option<LoopState> {
    if external.Some? && !ResumeAccepted(external.value, rs.checkpoint) then None
    else
      Some(LoopState(
        rs.messages, RestoredFixedCount(rs), rs.metaMessageIndex, rs.contextMessageCount, rs.messageBoundaries,
        rs.protectedIndexes,
        if external.Some? && external.value.Some? then external.value else rs.checkpoint,
        rs.lastMainInputTokens, rs.lastMainMessageCount, rs.hasLastMainInputTokens))
  }

  // ----- Round trip -----

  lemma MetaIndexAccepted(l: Ledger, st: LoopState)
    requires Valid(l) && Describes(l, st)
    ensures ValidMetaIndex(st.messages, st.fixedMessageCount, st.metaMessageIndex)
    ensures ValidContext(st.messages, st.metaMessageIndex, st.contextMessageCount)
  {
    if l.meta.Some? {
      var meta := Position(l, l.meta.value);
      forall i | meta <= i <= meta + l.context ensures l.fixed <= i < |st.messages| && IsPlainUserMessage(st.messages[i]) {
        assert InMetaRange(l, l.meta.value + (i - meta));
        MetaMessagePlain(l, st.messages, i - meta);
      }
    }
  }

  // Every loop state of a run passes the checks of a resume, and the resume restores it: the same
  // transcript, metadata index, boundaries and protected messages, and the checkpoint that the caller's
  // store has under the revision of the one at the pause.
  lemma PauseRoundTrip(l: Ledger, st: LoopState, external: Option<Option<ContextCheckpoint>>)
    requires Valid(l) && Describes(l, st)
    ensures UnmarshalResumeState(Snapshot(st)) == Some(Snapshot(st))
    ensures Resume(Snapshot(st), external) ==
            if external.None? then Some(st)
            else if ResumeAccepted(external.value, st.checkpoint) then Some(st.(checkpoint := external.value))
            else None
  {
    MetaIndexAccepted(l, st);
    assert forall i :: i in st.messageBoundaries ==> 0 <= i < |st.messages|;
    assert forall i :: i in st.protectedIndexes ==> 0 <= i < |st.messages|;
  }
}
