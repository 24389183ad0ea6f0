/**
 The parse that follows a compaction: the engine parses the compacted transcript with the options its
 own renumbered state gives it (agent/context_compaction_engine.go), and finds the blocks it left.
 */
module Reparsing {
  import opened Transcript
  import opened Blocks
  import opened Selection
  import opened Checkpoints
  import opened CheckpointStore
  import opened CompactionEngine
  import opened Ledgers
  import opened LedgerCompaction

  // The options of the engine's first parse.
  function EngineOptions(st: LoopState): Options {
    OptionsFor(st, ImageIndexes(st.messages))
  }

  function Shift(sel: Selected): int {
    1 - Removed(sel)
  }

  // ----- What the options say of a message behind the selection -----

  lemma MetaBehind(meta: int, context: int, sel: Selected, n: int, j: int)
    requires WellFormed(sel, n) && 0 <= context && sel.start <= meta && sel.end <= j
    requires KeepsRange(sel.kept, meta, Clamp(sel.end - meta, context + 1))
    ensures meta <= j <= meta + context <==> RenumberMeta(meta, sel) <= j + Shift(sel) <= RenumberMeta(meta, sel) + context
  {
    if meta < sel.end {
      assert sel.kept[0] == meta;
      IndexOfKept(sel.kept, 0);
    }
  }

  lemma ProtectedBehind(indexes: set<int>, sel: Selected, n: int, j: int)
    requires WellFormed(sel, n) && sel.end <= j
    ensures j in indexes <==> j + Shift(sel) in ReplacedProtected(indexes, sel)
  {
    assert MovesIndexes(indexes, sel, ReplacedProtected(indexes, sel));
    assert Carried(sel, j + Shift(sel)) && OldIndex(sel, j + Shift(sel)) == j;
  }

  lemma ImageBehind(ms: seq<Message>, sel: Selected, checkpoint: Message, j: int)
    requires WellFormed(sel, |ms|) && sel.end <= j
    ensures j in ImageIndexes(ms) <==> j + Shift(sel) in ImageIndexes(Replaced(ms, sel, checkpoint))
  {
    ReplacedLength(ms, sel, checkpoint);
    if j < |ms| {
      RestAt(ms, sel, checkpoint, j);
    }
  }

  // The state has its metadata where the ledger says.
  predicate MetaInPlace(l: Ledger, st: LoopState) {
    && st.contextMessageCount == l.context
    && st.metaMessageIndex == if l.meta.None? then None else Some(Position(l, l.meta.value))
  }

  lemma SameMetaBehind(l: Ledger, st: LoopState, sel: Selected, c: ContextCheckpoint, j: int)
    requires Takes(l, sel) && WellFormed(sel, |st.messages|) && MetaInPlace(l, st) && sel.end <= j
    ensures IsMeta(EngineOptions(st), j) <==> IsMeta(EngineOptions(CompactedState(st, sel, c)), j + Shift(sel))
  {
    if l.meta.Some? {
      MetaContiguous(l, 0);
      MetaBehind(Position(l, l.meta.value), l.context, sel, |st.messages|, j);
    }
  }

  lemma SameOptionsAt(l: Ledger, st: LoopState, sel: Selected, c: ContextCheckpoint, j: int)
    requires Takes(l, sel) && WellFormed(sel, |st.messages|) && MetaInPlace(l, st) && sel.end <= j
    ensures SameAt(EngineOptions(st), EngineOptions(CompactedState(st, sel, c)), j, Shift(sel))
  {
    ProtectedBehind(st.protectedIndexes, sel, |st.messages|, j);
    ImageBehind(st.messages, sel, c.message, j);
    SameMetaBehind(l, st, sel, c, j);
  }

  // The options before and after a compaction say the same of every message behind the selection.
  lemma SameOptions(l: Ledger, st: LoopState, sel: Selected, c: ContextCheckpoint)
    requires Ordered(l) && Describes(l, st) && Takes(l, sel) && WellFormed(sel, |st.messages|)
    ensures SameFrom(EngineOptions(st), EngineOptions(CompactedState(st, sel, c)), sel.end, Shift(sel))
  {
    var o1, o2 := EngineOptions(st), EngineOptions(CompactedState(st, sel, c));
    forall j | sel.end <= j ensures SameAt(o1, o2, j, Shift(sel)) {
      SameOptionsAt(l, st, sel, c, j);
    }
  }

  // ----- The next parse -----

  // The end of a selection is the start of one of the engine's blocks, whatever images were prepared
  // when it was made.
  lemma SelectionEndsAtBlock(st: LoopState, prepared: set<int>, target: int, sel: Selected) returns (k: nat)
    requires prepared <= ImageIndexes(st.messages) && IsSelection(st.messages, OptionsFor(st, prepared), target, sel)
    ensures var blocks := TranscriptBlocks(st.messages, EngineOptions(st));
            && k < |blocks| && 0 <= sel.end <= |st.messages|
            && blocks[k..] == BlocksFrom(st.messages, sel.end, EngineOptions(st))
  {
    var ms, opts := st.messages, OptionsFor(st, prepared);
    var i := FirstIndex(ms, opts);
    k := SelectionShape(ms, opts, target, sel);
    FewerPreparedBlocks(ms, i, EngineOptions(st), prepared);
    ParsedSuffix(ms, i, EngineOptions(st), k);
    ParsedSuffix(ms, i, opts, k);
    assert TranscriptBlocks(ms, opts)[k..][0] == TranscriptBlocks(ms, opts)[k];
    assert BlocksFrom(ms, sel.end, opts)[0] == BlockAt(ms, sel.end, opts);
  }

  lemma CompactedParse(ms: seq<Message>, sel: Selected, compacted: seq<Message>, o1: Options, o2: Options)
    requires CompactedFrom(ms, sel, compacted) && SameFrom(o1, o2, sel.end, Shift(sel))
    requires o2.fixedMessageCount == sel.start
    ensures TranscriptBlocks(compacted, o2) ==
            SingleBlocks(compacted, sel.start, 1 + |sel.kept|, o2) + ShiftBlocks(BlocksFrom(ms, sel.end, o1), Shift(sel))
  {
    ReparseFrom(ms, sel, compacted, o1, o2);
  }

  // After a compaction the engine's next parse, with the options of its own renumbered state, finds the
  // checkpoint, one block for each kept message, and then exactly the blocks it had behind the
  // selection: with the same reasons, and just as compactable, as before.
  lemma EngineReparses(l: Ledger, st: LoopState, settings: Settings, stored: Option<ContextCheckpoint>,
        decision: Decision, env: Environment)
    returns (k: nat)
    requires Valid(l) && Describes(l, st)
    ensures var outcome, sel := Compact(st, settings, stored, decision, env), FinalSelection(st, settings, decision, env);
            var blocks := TranscriptBlocks(st.messages, EngineOptions(st));
            outcome.Compacted? ==>
              && sel.Some? && k < |blocks| && blocks[k].start == sel.value.end
              && 0 <= sel.value.start && sel.value.start + 1 + |sel.value.kept| <= |outcome.state.messages|
              && TranscriptBlocks(outcome.state.messages, EngineOptions(outcome.state)) ==
                   SingleBlocks(outcome.state.messages, sel.value.start, 1 + |sel.value.kept|, EngineOptions(outcome.state))
                   + ShiftBlocks(blocks[k..], Shift(sel.value))
  {
    k := 0;
    if Compact(st, settings, stored, decision, env).Compacted? {
      k := EngineReparse(l, st, settings, stored, decision, env);
    }
  }

  lemma EngineReparse(l: Ledger, st: LoopState, settings: Settings, stored: Option<ContextCheckpoint>,
        decision: Decision, env: Environment)
    returns (k: nat)
    requires Valid(l) && Describes(l, st) && Compact(st, settings, stored, decision, env).Compacted?
    ensures FinalSelection(st, settings, decision, env).Some?
    ensures var outcome, sel := Compact(st, settings, stored, decision, env), FinalSelection(st, settings, decision, env).value;
            var blocks := TranscriptBlocks(st.messages, EngineOptions(st));
            && k < |blocks| && blocks[k].start == sel.end
            && 0 <= sel.start && sel.start + 1 + |sel.kept| <= |outcome.state.messages|
            && TranscriptBlocks(outcome.state.messages, EngineOptions(outcome.state)) ==
                 SingleBlocks(outcome.state.messages, sel.start, 1 + |sel.kept|, EngineOptions(outcome.state))
                 + ShiftBlocks(blocks[k..], Shift(sel))
  {
    CompactedOutcome(st, settings, stored, decision, env);
    FinalSelectionTakes(l, st, settings, decision, env);
    SelectionsFit(st, settings, decision, env);
    var first, sel := FirstSelection(st, settings, decision).value, FinalSelection(st, settings, decision, env).value;
    var prepared := PreparedIndexes(st.messages, first.start, first.end, env.readable);
    var target := ReleaseTarget(decision, MainRequestTokens(st, settings), TranscriptBlocks(st.messages, EngineOptions(st)));
    CheckpointIsMessage(st, settings, stored, decision, env);
    k := SelectionEndsAtBlock(st, prepared, target, sel);
    var c := Compact(st, settings, stored, decision, env).checkpoint;
    ReplacedLength(st.messages, sel, c.message);
    CompactedShape(st.messages, OptionsFor(st, prepared), target, sel, c.message);
    SameOptions(l, st, sel, c);
    var after := CompactedState(st, sel, c);
    CompactedParse(st.messages, sel, after.messages, EngineOptions(st), EngineOptions(after));
    BlockStart(st.messages, sel.end, EngineOptions(st), TranscriptBlocks(st.messages, EngineOptions(st)), k);
  }

  lemma BlockStart(ms: seq<Message>, i: int, opts: Options, blocks: seq<Block>, k: nat)
    requires 0 <= i <= |ms| && k < |blocks| && blocks[k..] == BlocksFrom(ms, i, opts)
    ensures blocks[k].start == i
  {
    assert blocks[k] == blocks[k..][0];
  }

  lemma CheckpointIsMessage(st: LoopState, settings: Settings, stored: Option<ContextCheckpoint>, decision: Decision,
        env: Environment)
    requires 0 <= st.fixedMessageCount && Compact(st, settings, stored, decision, env).Compacted?
    ensures IsCheckpointMessage(Compact(st, settings, stored, decision, env).checkpoint.message)
  {
    CompactionSucceedsExactlyWhen(st, settings, stored, decision, env);
    CompactedOutcome(st, settings, stored, decision, env);
  }
}
