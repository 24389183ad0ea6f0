/**
 Compaction moves the cut of the ledger forward and does nothing else to it: the renumbered
 transcript, metadata index, boundaries and protected messages are again those the ledger describes.
 */
module LedgerCompaction {
  import opened Text
  import opened Transcript
  import opened Blocks
  import opened Selection
  import opened Checkpoints
  import opened CheckpointStore
  import opened CompactionEngine
  import opened Ledgers

  // ----- The selection, seen from the ledger -----

  ghost predicate Takes(l: Ledger, sel: Selected) {
    && Ordered(l)
    && sel.start == l.fixed < sel.end < Length(l)
    && WellFormed(sel, Length(l))
    && (l.meta.None? ==> sel.kept == [])
    && (l.meta.Some? ==>
          KeepsRange(sel.kept, Position(l, l.meta.value),
                     Clamp(sel.end - Position(l, l.meta.value), l.context + 1)))
  }

  function NewCut(l: Ledger, end: int): int {
    if end <= Base(l) then l.cut else l.cut + end - Base(l)
  }

  function AfterCompaction(l: Ledger, sel: Selected, checkpoint: ContextCheckpoint): Ledger {
    l.(cut := NewCut(l, sel.end), checkpoint := Some(checkpoint), held := Some(checkpoint),
       initialCovered := if l.held == l.checkpoint then l.initialCovered else TrimSpace(checkpoint.coveredThrough))
  }

  lemma CutMoves(l: Ledger, sel: Selected, c: ContextCheckpoint)
    requires Takes(l, sel)
    ensures var after := AfterCompaction(l, sel, c);
            && Ordered(after) && l.cut <= after.cut
            && |sel.kept| <= KeptCount(after)
            && (sel.end >= Base(l) ==> |sel.kept| == KeptCount(after))
            && Length(after) == Length(l) - Removed(sel) + 1
  {
  }

  // What is at position p after the compaction was at OldIndex(sel, p) before it, and is the same
  // message of the history.
  lemma PlaceAfter(l: Ledger, sel: Selected, c: ContextCheckpoint, p: int)
    requires Takes(l, sel) && p != l.fixed
    ensures var q := OldIndex(sel, p);
            && (0 <= p < Length(AfterCompaction(l, sel, c)) <==> 0 <= q < Length(l))
            && !IsCheckpointAt(l, q)
            && (0 <= q < Length(l) ==> Place(AfterCompaction(l, sel, c), p) == Place(l, q))
            && (!Carried(sel, p) ==> InMetaRange(l, Place(l, q)))
  {
    CutMoves(l, sel, c);
    if sel.start < p <= sel.start + |sel.kept| {
      assert sel.kept[p - sel.start - 1] == Position(l, l.meta.value) + (p - sel.start - 1);
    }
  }

  // ----- Messages -----

  lemma ReplacedAt(ms: seq<Message>, sel: Selected, message: Message, p: int)
    requires WellFormed(sel, |ms|) && 0 <= p < |Replaced(ms, sel, message)| && p != sel.start
    ensures 0 <= OldIndex(sel, p) < |ms| && Replaced(ms, sel, message)[p] == ms[OldIndex(sel, p)]
  {
  }

  lemma MessagesAfter(l: Ledger, ms: seq<Message>, sel: Selected, c: ContextCheckpoint)
    requires Takes(l, sel) && SameMessages(l, ms)
    ensures Ordered(AfterCompaction(l, sel, c))
    ensures SameMessages(AfterCompaction(l, sel, c), Replaced(ms, sel, c.message))
  {
    var after, compacted := AfterCompaction(l, sel, c), Replaced(ms, sel, c.message);
    CutMoves(l, sel, c);
    forall p | 0 <= p < |compacted| ensures compacted[p] == MessageAt(after, p) {
      if p != l.fixed {
        ReplacedAt(ms, sel, c.message, p);
        PlaceAfter(l, sel, c, p);
      }
    }
  }

  // ----- Protected messages -----

  lemma ProtectedAfter(l: Ledger, indexes: set<int>, sel: Selected, c: ContextCheckpoint)
    requires Takes(l, sel) && SameProtected(l, indexes)
    requires forall p :: sel.start <= p < sel.end ==> p !in indexes
    ensures SameProtected(AfterCompaction(l, sel, c), ReplacedProtected(indexes, sel))
  {
    var after, out := AfterCompaction(l, sel, c), ReplacedProtected(indexes, sel);
    CutMoves(l, sel, c);
    forall p
      ensures p in out <==> 0 <= p < Length(after) && !IsCheckpointAt(after, p) && Place(after, p) in l.protected
    {
      if p != l.fixed {
        PlaceAfter(l, sel, c, p);
        if sel.start < p <= sel.start + |sel.kept| {
          assert sel.start <= sel.kept[p - sel.start - 1] < sel.end;
        }
      }
    }
  }

  lemma AliveAfter(l: Ledger, indexes: set<int>, sel: Selected, c: ContextCheckpoint, h: int)
    requires Takes(l, sel) && SameProtected(l, indexes) && Alive(l, h) && h in l.protected
    requires forall p :: sel.start <= p < sel.end ==> p !in indexes
    ensures Alive(AfterCompaction(l, sel, c), h)
  {
    PlacePosition(l, h);
    assert Position(l, h) in indexes;
  }

  // ----- Boundaries -----

  lemma BoundaryAfter(l: Ledger, boundaries: map<int, string>, sel: Selected, c: ContextCheckpoint, p: int)
    requires Takes(l, sel) && Valid(l) && SameBoundaries(l, boundaries) && p != l.fixed
    ensures var after, moved := AfterCompaction(l, sel, c), MovedBoundaries(boundaries, sel);
            && Ordered(after)
            && (p in moved <==> 0 <= p < Length(after) && BoundaryAt(after, p) != "")
            && (p in moved ==> moved[p] == BoundaryAt(after, p))
  {
    CutMoves(l, sel, c);
    PlaceAfter(l, sel, c, p);
    assert MovesBoundaries(boundaries, sel, MovedBoundaries(boundaries, sel));
    var q := OldIndex(sel, p);
    assert q in boundaries <==> 0 <= q < Length(l) && BoundaryAt(l, q) != "";
  }

  lemma BoundariesAfter(l: Ledger, boundaries: map<int, string>, sel: Selected, c: ContextCheckpoint)
    requires Takes(l, sel) && Valid(l) && SameBoundaries(l, boundaries)
    ensures Ordered(AfterCompaction(l, sel, c))
    ensures SameBoundaries(AfterCompaction(l, sel, c), ReplacedBoundaries(boundaries, sel, c.coveredThrough))
  {
    var after, moved := AfterCompaction(l, sel, c), MovedBoundaries(boundaries, sel);
    var out := ReplacedBoundaries(boundaries, sel, c.coveredThrough);
    CutMoves(l, sel, c);
    assert MovesBoundaries(boundaries, sel, moved);
    assert l.fixed !in moved;
    forall p
      ensures p in out <==> 0 <= p < Length(after) && BoundaryAt(after, p) != ""
      ensures p in out ==> out[p] == BoundaryAt(after, p)
    {
      if p != l.fixed {
        BoundaryAfter(l, boundaries, sel, c, p);
        assert p in out <==> p in moved;
      }
    }
  }

  lemma {:induction false} LastBoundarySplit(boundaries: map<int, string>, lo: int, mid: int, hi: int)
    requires lo <= mid <= hi
    ensures LastBoundary(boundaries, lo, hi) ==
            if LastBoundary(boundaries, mid, hi) != "" then LastBoundary(boundaries, mid, hi)
            else LastBoundary(boundaries, lo, mid)
    decreases hi - mid
  {
    if mid < hi {
      LastBoundarySplit(boundaries, lo, mid, hi - 1);
    }
  }

  function LastBoundaryBefore(l: Ledger, end: int): string {
    var last := LastBoundary(l.boundaries, l.cut, NewCut(l, end));
    if last != "" then last
    else if l.checkpoint.Some? then TrimSpace(l.checkpoint.value.coveredThrough)
    else ""
  }

  // One more message: the checkpoint, a kept message, or one after the cut.
  lemma LastBoundaryStep(l: Ledger, end: int)
    requires Valid(l) && l.fixed < end <= Length(l)
    ensures LastBoundaryBefore(l, end) ==
            if BoundaryAt(l, end - 1) != "" then BoundaryAt(l, end - 1)
            else if end - 1 == l.fixed then ""
            else LastBoundaryBefore(l, end - 1)
  {
    var p := end - 1;
    if p >= Base(l) {
      assert Place(l, p) == NewCut(l, end) - 1;
      assert LastBoundary(l.boundaries, l.cut, l.cut) == "";
    } else if !IsCheckpointAt(l, p) {
      assert InMetaRange(l, Place(l, p));
    }
  }

  lemma LastBoundaryConcrete(l: Ledger, boundaries: map<int, string>, end: int)
    requires Valid(l) && SameBoundaries(l, boundaries) && l.fixed < end <= Length(l)
    ensures LastBoundary(boundaries, l.fixed, end) ==
            if BoundaryAt(l, end - 1) != "" then BoundaryAt(l, end - 1)
            else LastBoundary(boundaries, l.fixed, end - 1)
  {
    BoundaryTrimmed(l, end - 1);
    assert end - 1 in boundaries <==> BoundaryAt(l, end - 1) != "";
  }

  // The last boundary before an index is the same in the numbering of the transcript and of the
  // ledger.
  ghost predicate SameLastBoundary(l: Ledger, boundaries: map<int, string>, end: int)
    requires Ordered(l) && l.fixed < end <= Length(l)
  {
    LastBoundary(boundaries, l.fixed, end) == LastBoundaryBefore(l, end)
  }

  // If the two agree one index earlier, they agree here.
  ghost predicate AgreesNext(l: Ledger, boundaries: map<int, string>, end: int)
    requires Ordered(l) && l.fixed < end <= Length(l)
  {
    (end - 1 > l.fixed ==> SameLastBoundary(l, boundaries, end - 1)) ==> SameLastBoundary(l, boundaries, end)
  }

  lemma LastBoundaryInduction(l: Ledger, boundaries: map<int, string>, end: int)
    requires Valid(l) && SameBoundaries(l, boundaries) && l.fixed < end <= Length(l)
    ensures AgreesNext(l, boundaries, end)
  {
    LastBoundaryConcrete(l, boundaries, end);
    var here := BoundaryAt(l, end - 1);
    var before := LastBoundary(boundaries, l.fixed, end - 1);
    assert LastBoundary(boundaries, l.fixed, end) == if here != "" then here else before;
    assert end - 1 == l.fixed ==> before == "";
    LastBoundaryStep(l, end);
  }

  lemma {:induction false} AgreesThrough(l: Ledger, boundaries: map<int, string>, end: int)
    requires Ordered(l) && l.fixed < end <= Length(l)
    requires forall e :: l.fixed < e <= end ==> AgreesNext(l, boundaries, e)
    ensures SameLastBoundary(l, boundaries, end)
    decreases end
  {
    if end - 1 > l.fixed {
      AgreesThrough(l, boundaries, end - 1);
    }
    assert AgreesNext(l, boundaries, end);
  }

  // The last boundary of a stretch of the transcript that starts at the fixed messages.
  lemma LastBoundaryOf(l: Ledger, boundaries: map<int, string>, end: int)
    requires Valid(l) && SameBoundaries(l, boundaries) && l.fixed < end <= Length(l)
    ensures SameLastBoundary(l, boundaries, end)
  {
    forall e | l.fixed < e <= end ensures AgreesNext(l, boundaries, e) {
      LastBoundaryInduction(l, boundaries, e);
    }
    AgreesThrough(l, boundaries, end);
  }

  lemma BoundaryTrimmed(l: Ledger, p: int)
    requires Valid(l)
    ensures TrimSpace(BoundaryAt(l, p)) == BoundaryAt(l, p)
  {
    if IsCheckpointAt(l, p) {
      TrimSpaceIdempotent(l.checkpoint.value.coveredThrough);
    }
  }

  // CoveredThrough never skips a boundary and never moves back.
  lemma CoveredAfter(l: Ledger, st: LoopState, settings: Settings, sel: Selected, message: Message, now: int)
    requires Valid(l) && Describes(l, st) && Takes(l, sel)
    ensures var c := NextCheckpoint(st, settings, message, sel, now);
            TrimSpace(c.coveredThrough) == Covered(AfterCompaction(l, sel, c))
  {
    LastBoundaryOf(l, st.messageBoundaries, sel.end);
    LastBoundaryTrimmed(st.messageBoundaries, sel.start, sel.end);
    CutMoves(l, sel, NextCheckpoint(st, settings, message, sel, now));
    LastBoundarySplit(l.boundaries, l.fixed, l.cut, NewCut(l, sel.end));
    if st.checkpoint.Some? {
      TrimSpaceIdempotent(st.checkpoint.value.coveredThrough);
    }
  }

  // ----- What the parser selects -----

  lemma MetaPlainInMessages(l: Ledger, ms: seq<Message>, opts: Options)
    requires Ordered(l) && SameMessages(l, ms) && opts.contextMessageCount == l.context
    requires forall h :: InMetaRange(l, h) ==> IsPlainUserMessage(l.history[h])
    requires opts.metaMessageIndex == if l.meta.None? then None else Some(Position(l, l.meta.value))
    ensures MetaIsPlain(ms, opts)
  {
    forall i | 0 <= i < |ms| && IsMeta(opts, i) ensures !HasToolCalls(ms[i]) && !ms[i].role.Tool? {
      var j := i - Position(l, l.meta.value);
      assert InMetaRange(l, l.meta.value + j);
      MetaMessagePlain(l, ms, j);
    }
  }

  lemma MetaPlainInState(l: Ledger, st: LoopState, prepared: set<int>)
    requires Valid(l) && Describes(l, st)
    ensures MetaIsPlain(st.messages, OptionsFor(st, prepared))
  {
    MetaPlainInMessages(l, st.messages, OptionsFor(st, prepared));
  }

  // What a selection keeps: the metadata and context messages it reaches, in their order.
  lemma SelectionKeeps(ms: seq<Message>, opts: Options, target: int, sel: Selected)
    requires IsSelection(ms, opts, target, sel) && MetaIsPlain(ms, opts)
    requires opts.metaMessageIndex.Some? ==> 0 <= opts.contextMessageCount && opts.fixedMessageCount <= opts.metaMessageIndex.value
    ensures opts.metaMessageIndex.None? ==> sel.kept == []
    ensures opts.metaMessageIndex.Some? ==>
              KeepsRange(sel.kept, opts.metaMessageIndex.value, Clamp(sel.end - opts.metaMessageIndex.value, opts.contextMessageCount + 1))
  {
    var blocks := TranscriptBlocks(ms, opts);
    var k := SelectionShape(ms, opts, target, sel);
    ParsedMeta(ms, FirstIndex(ms, opts), opts);
    ParsedChain(ms, FirstIndex(ms, opts), opts);
    if opts.metaMessageIndex.Some? {
      KeptRange(opts, blocks, k);
    } else {
      NothingKept(opts, blocks, k);
    }
  }

  lemma SelectionTakes(l: Ledger, st: LoopState, prepared: set<int>, target: int, sel: Selected)
    requires Valid(l) && Describes(l, st)
    requires SelectPrefix(TranscriptBlocks(st.messages, OptionsFor(st, prepared)), target) == Some(sel)
    ensures Takes(l, sel)
  {
    MetaPlainInState(l, st, prepared);
    ParsedTakes(l, st.messages, OptionsFor(st, prepared), target, sel);
  }

  // The same from the parse alone: the options have the fixed messages and the metadata of the ledger.
  lemma ParsedTakes(l: Ledger, ms: seq<Message>, opts: Options, target: int, sel: Selected)
    requires Ordered(l) && |ms| == Length(l) && IsSelection(ms, opts, target, sel) && MetaIsPlain(ms, opts)
    requires opts.fixedMessageCount == l.fixed && opts.contextMessageCount == l.context
    requires opts.metaMessageIndex == if l.meta.None? then None else Some(Position(l, l.meta.value))
    ensures Takes(l, sel)
  {
    var k := SelectionShape(ms, opts, target, sel);
    if l.meta.Some? {
      MetaContiguous(l, 0);
    }
    SelectionKeeps(ms, opts, target, sel);
  }

  lemma SelectionUnprotected(ms: seq<Message>, opts: Options, target: int, sel: Selected)
    requires 0 <= opts.fixedMessageCount && SelectPrefix(TranscriptBlocks(ms, opts), target) == Some(sel)
    ensures forall p :: sel.start <= p < sel.end ==> p !in opts.protectedIndexes
  {
    var i := FirstIndex(ms, opts);
    var k := SelectionShape(ms, opts, target, sel);
    ParsedChain(ms, i, opts);
    SelectedUnprotected(ms, i, opts, TranscriptBlocks(ms, opts), k);
  }

  // ----- One compaction -----

  lemma FinalSelectionTakes(l: Ledger, st: LoopState, settings: Settings, decision: Decision, env: Environment)
    requires Valid(l) && Describes(l, st)
    requires FinalSelection(st, settings, decision, env).Some?
    ensures var sel := FinalSelection(st, settings, decision, env).value;
            Takes(l, sel) && forall p :: sel.start <= p < sel.end ==> p !in st.protectedIndexes
  {
    var first := FirstSelection(st, settings, decision).value;
    var prepared := PreparedIndexes(st.messages, first.start, first.end, env.readable);
    var blocks := TranscriptBlocks(st.messages, OptionsFor(st, ImageIndexes(st.messages)));
    var target := ReleaseTarget(decision, MainRequestTokens(st, settings), blocks);
    SelectionTakes(l, st, prepared, target, FinalSelection(st, settings, decision, env).value);
    SelectionUnprotected(st.messages, OptionsFor(st, prepared), target, FinalSelection(st, settings, decision, env).value);
  }

  // What a successful compaction produces.
  lemma CompactedOutcome(st: LoopState, settings: Settings, stored: Option<ContextCheckpoint>, decision: Decision,
        env: Environment)
    requires 0 <= st.fixedMessageCount && Compact(st, settings, stored, decision, env).Compacted?
    ensures FinalSelection(st, settings, decision, env).Some? && env.summary.Some?
    ensures var sel := FinalSelection(st, settings, decision, env).value;
            var outcome := Compact(st, settings, stored, decision, env);
            && WellFormed(sel, |st.messages|)
            && outcome.state == CompactedState(st, sel, outcome.checkpoint)
            && outcome.checkpoint ==
                 NextCheckpoint(st, settings, CheckpointMessage(env.summary.value.0, env.summary.value.1), sel, env.now)
  {
    SelectionsFit(st, settings, decision, env);
  }

  // The checkpoint the state has, if any, is one that a store accepts the next revision of.
  predicate Continuable(checkpoint: Option<ContextCheckpoint>) {
    checkpoint.Some? ==> checkpoint.value.revision >= 0 && checkpoint.value.compactionCount + 1 >= 0
  }

  lemma FinishSucceeds(st: LoopState, settings: Settings, stored: Option<ContextCheckpoint>, first: Selected,
        sel: Selected, env: Environment)
    requires WellFormed(first, |st.messages|) && WellFormed(sel, |st.messages|)
    requires sel.start == first.start && sel.end <= first.end && env.summary.Some?
    ensures var message := CheckpointMessage(env.summary.value.0, env.summary.value.1);
            Finish(st, settings, stored, first, sel, env).Compacted? <==>
            && Replaceable(st.messages, st.fixedMessageCount, sel, message)
            && NoInvalidTool(TranscriptBlocks(Replaced(st.messages, sel, message), BareOptions(st.fixedMessageCount)))
            && SaveResult(stored, env.cancelled, RevisionOf(st.checkpoint), NextCheckpoint(st, settings, message, sel, env.now)).Done?
  {
  }

  lemma SaveSucceeds(st: LoopState, settings: Settings, stored: Option<ContextCheckpoint>, message: Message,
        sel: Selected, env: Environment)
    requires 0 <= sel.start < sel.end && IsCheckpointMessage(message)
    ensures SaveResult(stored, env.cancelled, RevisionOf(st.checkpoint), NextCheckpoint(st, settings, message, sel, env.now)).Done?
            <==> !env.cancelled && RevisionOf(stored) == RevisionOf(st.checkpoint) && Continuable(st.checkpoint)
  {
  }

  lemma FinishSucceedsExactlyWhen(
    st: LoopState, settings: Settings, stored: Option<ContextCheckpoint>, opts: Options, target: int, first: Selected, sel: Selected, env: Environment)
    requires WellFormed(first, |st.messages|) && IsSelection(st.messages, opts, target, sel) && WellFormed(sel, |st.messages|)
    requires sel.start == first.start && sel.end <= first.end && opts.fixedMessageCount == st.fixedMessageCount
    ensures Finish(st, settings, stored, first, sel, env).Compacted? <==>
            && env.summary.Some? && TrimSpace(env.summary.value.0) != ""
            && NoInvalidTool(BlocksFrom(st.messages, sel.end, BareOptions(st.fixedMessageCount)))
            && !env.cancelled && RevisionOf(stored) == RevisionOf(st.checkpoint) && Continuable(st.checkpoint)
  {
    var k := SelectionShape(st.messages, opts, target, sel);
    if env.summary.Some? {
      FinishSucceeds(st, settings, stored, first, sel, env);
      if TrimSpace(env.summary.value.0) != "" {
        var message := CheckpointMessage(env.summary.value.0, env.summary.value.1);
        ReplacementAccepted(st.messages, opts, target, sel, message);
        SaveSucceeds(st, settings, stored, message, sel, env);
      }
    }
  }

  // A compaction succeeds exactly when there is something to select, a summary with text is produced,
  // no exchange behind the selection is invalid, and the store still has the checkpoint of the state.
  lemma CompactionSucceedsExactlyWhen(
    st: LoopState, settings: Settings, stored: Option<ContextCheckpoint>, decision: Decision, env: Environment)
    requires 0 <= st.fixedMessageCount
    ensures var sel := FinalSelection(st, settings, decision, env);
            Compact(st, settings, stored, decision, env).Compacted? <==>
              && sel.Some? && !env.prepareFails
              && env.summary.Some? && TrimSpace(env.summary.value.0) != ""
              && 0 <= sel.value.end <= |st.messages|
              && NoInvalidTool(BlocksFrom(st.messages, sel.value.end, BareOptions(st.fixedMessageCount)))
              && !env.cancelled && RevisionOf(stored) == RevisionOf(st.checkpoint) && Continuable(st.checkpoint)
  {
    SelectionsFit(st, settings, decision, env);
    var sel := FinalSelection(st, settings, decision, env);
    if sel.Some? {
      var first := FirstSelection(st, settings, decision).value;
      var opts := OptionsFor(st, PreparedIndexes(st.messages, first.start, first.end, env.readable));
      var target := ReleaseTarget(decision, MainRequestTokens(st, settings),
                                  TranscriptBlocks(st.messages, OptionsFor(st, ImageIndexes(st.messages))));
      FinishSucceedsExactlyWhen(st, settings, stored, opts, target, first, sel.value, env);
    }
  }

  // A compaction that succeeds only moves the ledger's cut forward and stores its checkpoint.
  lemma CompactionMovesCut(
    l: Ledger, st: LoopState, settings: Settings, stored: Option<ContextCheckpoint>, decision: Decision, env: Environment)
    requires Valid(l) && Describes(l, st)
    requires Compact(st, settings, stored, decision, env).Compacted?
    ensures FinalSelection(st, settings, decision, env).Some?
    ensures var sel := FinalSelection(st, settings, decision, env).value;
            var outcome := Compact(st, settings, stored, decision, env);
            var after := AfterCompaction(l, sel, outcome.checkpoint);
            && Takes(l, sel) && l.cut <= after.cut
            && Valid(after) && Describes(after, outcome.state)
  {
    CompactedOutcome(st, settings, stored, decision, env);
    FinalSelectionTakes(l, st, settings, decision, env);
    var sel := FinalSelection(st, settings, decision, env).value;
    var c := Compact(st, settings, stored, decision, env).checkpoint;
    CoveredAfter(l, st, settings, sel, CheckpointMessage(env.summary.value.0, env.summary.value.1), env.now);
    CutMoves(l, sel, c);
    CompactedStateDescribed(l, st, sel, c);
  }

  lemma CompactedStateDescribed(l: Ledger, st: LoopState, sel: Selected, c: ContextCheckpoint)
    requires Valid(l) && Describes(l, st) && Takes(l, sel)
    requires forall p :: sel.start <= p < sel.end ==> p !in st.protectedIndexes
    requires TrimSpace(c.coveredThrough) == Covered(AfterCompaction(l, sel, c))
    ensures Valid(AfterCompaction(l, sel, c))
    ensures Describes(AfterCompaction(l, sel, c), CompactedState(st, sel, c))
  {
    CutMoves(l, sel, c);
    MessagesAfter(l, st.messages, sel, c);
    BoundariesAfter(l, st.messageBoundaries, sel, c);
    ProtectedAfter(l, st.protectedIndexes, sel, c);
    MetaAfter(l, sel, c);
    ValidAfter(l, st.protectedIndexes, sel, c);
  }

  lemma MetaAfter(l: Ledger, sel: Selected, c: ContextCheckpoint)
    requires Takes(l, sel) && Ordered(AfterCompaction(l, sel, c))
    ensures l.meta.Some? ==>
      RenumberMeta(Position(l, l.meta.value), sel) == Position(AfterCompaction(l, sel, c), l.meta.value)
  {
    if l.meta.Some? && Position(l, l.meta.value) < sel.end {
      var position := Position(l, l.meta.value);
      assert sel.kept[0] == position;
      IndexOfKept(sel.kept, 0);
    }
  }

  lemma ValidAfter(l: Ledger, indexes: set<int>, sel: Selected, c: ContextCheckpoint)
    requires Valid(l) && Takes(l, sel) && SameProtected(l, indexes)
    requires forall p :: sel.start <= p < sel.end ==> p !in indexes
    requires Ordered(AfterCompaction(l, sel, c))
    requires TrimSpace(c.coveredThrough) == Covered(AfterCompaction(l, sel, c))
    ensures Valid(AfterCompaction(l, sel, c))
  {
    var after := AfterCompaction(l, sel, c);
    forall h | h in l.protected ensures Alive(after, h) {
      AliveAfter(l, indexes, sel, c, h);
    }
    assert forall h :: InMetaRange(after, h) ==> InMetaRange(l, h);
  }
}
