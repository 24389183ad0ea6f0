/**
 What a run's transcript is, however often it was compacted: a ledger keeps every message the run
 ever had and one number, the cut, up to which they have been summarised. The loop state's
 transcript and everything it numbers by message index are a function of that ledger.
 */
module Ledgers {
  import opened Text
  import opened Transcript
  import opened Blocks
  import opened Selection
  import opened Checkpoints
  import opened CheckpointStore
  import opened CompactionEngine

  datatype Ledger = Ledger(
    history: seq<Message>,          // every message ever in the transcript, checkpoints apart
    boundaries: map<int, string>,   // the history boundary of a message, by its place in the history
    protected: set<int>,            // the protected messages, by their place in the history
    fixed: int,
    meta: Option<int>,              // the runtime metadata message
    context: int,                   // the number of context messages right after it
    cut: int,                       // messages from fixed to cut are summarised, or kept
    checkpoint: Option<ContextCheckpoint>,  // the one whose message is in the transcript
    initialCovered: string,         // what is covered before any message with a boundary is summarised
    held: Option<ContextCheckpoint>)  // the one the run goes on from; a resume may have read another

  function Clamp(x: int, hi: int): int {
    if x < 0 then 0 else if x > hi then hi else x
  }

  predicate InMetaRange(l: Ledger, h: int) {
    l.meta.Some? && l.meta.value <= h <= l.meta.value + l.context
  }

  // The metadata and context messages that were kept by a compaction.
  function KeptCount(l: Ledger): int {
    if l.meta.None? then 0 else Clamp(l.cut - l.meta.value, l.context + 1)
  }

  // The position of the first message after the cut.
  function Base(l: Ledger): int {
    l.fixed + (if l.checkpoint.Some? then 1 else 0) + KeptCount(l)
  }

  function Length(l: Ledger): int {
    Base(l) + |l.history| - l.cut
  }

  predicate IsCheckpointAt(l: Ledger, p: int) {
    l.checkpoint.Some? && p == l.fixed
  }

  // The place in the history of the message at position p.
  function Place(l: Ledger, p: int): int {
    if p < l.fixed then p
    else if p < Base(l) && l.meta.Some? then l.meta.value + p - l.fixed - 1
    else l.cut + p - Base(l)
  }

  // Whether the message at place h of the history is still in the transcript, and where.
  predicate Alive(l: Ledger, h: int) {
    0 <= h < |l.history| && (h < l.fixed || h >= l.cut || InMetaRange(l, h))
  }

  function Position(l: Ledger, h: int): int {
    if h < l.fixed then h
    else if h >= l.cut then Base(l) + h - l.cut
    else if l.meta.Some? then l.fixed + 1 + h - l.meta.value
    else 0
  }

  // What the run's checkpoint covers: the boundary of the latest summarised message that has one.
  function Covered(l: Ledger): string {
    var last := LastBoundary(l.boundaries, l.fixed, l.cut);
    if last != "" then last else l.initialCovered
  }

  predicate Ordered(l: Ledger) {
    && 1 <= l.fixed <= l.cut < |l.history|
    && (l.meta.None? ==> l.context == 0)
    && (l.meta.Some? ==> l.fixed <= l.meta.value && 0 <= l.context && l.meta.value + l.context < |l.history|)
    && (l.checkpoint.None? ==> l.cut == l.fixed)
  }

  ghost predicate Valid(l: Ledger) {
    && Ordered(l)
    && (forall h :: InMetaRange(l, h) ==> IsPlainUserMessage(l.history[h]) && h !in l.boundaries)
    && (forall h :: h in l.boundaries ==>
          l.fixed <= h < |l.history| && l.boundaries[h] != "" && TrimSpace(l.boundaries[h]) == l.boundaries[h])
    && (forall h :: h in l.protected ==> Alive(l, h))
    && (l.checkpoint.Some? ==> TrimSpace(l.checkpoint.value.coveredThrough) == Covered(l))
    && TrimSpace(l.initialCovered) == l.initialCovered
    && (l.checkpoint.None? ==> l.initialCovered == "")
    && l.held.Some? == l.checkpoint.Some?
  }

  // ----- Places and positions -----

  // The living messages and the positions of the transcript, without the checkpoint's, correspond.
  lemma PlacePosition(l: Ledger, h: int)
    requires Ordered(l) && Alive(l, h)
    ensures 0 <= Position(l, h) < Length(l)
    ensures !IsCheckpointAt(l, Position(l, h)) && Place(l, Position(l, h)) == h
  {
  }

  lemma PositionPlace(l: Ledger, p: int)
    requires Ordered(l) && 0 <= p < Length(l) && !IsCheckpointAt(l, p)
    ensures Alive(l, Place(l, p)) && Position(l, Place(l, p)) == p
  {
  }

  // The transcript keeps the history's order.
  lemma PositionsOrdered(l: Ledger, g: int, h: int)
    requires Ordered(l) && Alive(l, g) && Alive(l, h) && g < h
    ensures Position(l, g) < Position(l, h)
  {
  }

  // Metadata and context are at consecutive positions.
  lemma MetaContiguous(l: Ledger, j: int)
    requires Ordered(l) && l.meta.Some? && 0 <= j <= l.context
    ensures Alive(l, l.meta.value + j)
    ensures Position(l, l.meta.value + j) == Position(l, l.meta.value) + j
    ensures l.fixed <= Position(l, l.meta.value)
  {
  }

  // ----- Loop states -----

  function MessageAt(l: Ledger, p: int): Message
    requires Ordered(l) && 0 <= p < Length(l)
  {
    if IsCheckpointAt(l, p) then l.checkpoint.value.message
    else
      PositionPlace(l, p);
      l.history[Place(l, p)]
  }

  function BoundaryAt(l: Ledger, p: int): string
    requires Ordered(l)
  {
    if IsCheckpointAt(l, p) then TrimSpace(l.checkpoint.value.coveredThrough)
    else if Place(l, p) in l.boundaries then l.boundaries[Place(l, p)]
    else ""
  }

  ghost predicate SameMessages(l: Ledger, ms: seq<Message>)
    requires Ordered(l)
  {
    |ms| == Length(l) && forall p :: 0 <= p < |ms| ==> ms[p] == MessageAt(l, p)
  }

  ghost predicate SameBoundaries(l: Ledger, boundaries: map<int, string>)
    requires Ordered(l)
  {
    && (forall p :: p in boundaries <==> 0 <= p < Length(l) && BoundaryAt(l, p) != "")
    && forall p :: p in boundaries ==> boundaries[p] == BoundaryAt(l, p)
  }

  ghost predicate SameProtected(l: Ledger, indexes: set<int>) {
    forall p :: p in indexes <==> 0 <= p < Length(l) && !IsCheckpointAt(l, p) && Place(l, p) in l.protected
  }

  // The loop state is the one the ledger describes.
  ghost predicate Describes(l: Ledger, st: LoopState) {
    && Ordered(l)
    && SameMessages(l, st.messages)
    && st.fixedMessageCount == l.fixed
    && st.metaMessageIndex == (if l.meta.None? then None else Some(Position(l, l.meta.value)))
    && st.contextMessageCount == l.context
    && SameBoundaries(l, st.messageBoundaries)
    && SameProtected(l, st.protectedIndexes)
    && st.checkpoint == l.held
    && 0 <= st.lastMainMessageCount <= |st.messages|
  }

  // ----- What a selection takes from the ledger -----

  // The kept part of a selection is the run's metadata and context inside it.
  predicate KeepsRange(kept: seq<int>, meta: int, n: int) {
    |kept| == n && forall j :: 0 <= j < |kept| ==> kept[j] == meta + j
  }

  ghost predicate MetaIsPlain(ms: seq<Message>, opts: Options) {
    forall i :: 0 <= i < |ms| && IsMeta(opts, i) ==> !HasToolCalls(ms[i]) && !ms[i].role.Tool?
  }

  // A block that is a metadata message, or holds none.
  predicate MetaBlock(opts: Options, b: Block) {
    if b.meta then b.end == b.start + 1 && IsMeta(opts, b.start)
    else b.start < b.end && forall i :: b.start <= i < b.end ==> !IsMeta(opts, i)
  }

  lemma BlockMeta(ms: seq<Message>, i: int, opts: Options)
    requires 0 <= i < |ms| && MetaIsPlain(ms, opts)
    ensures MetaBlock(opts, BlockAt(ms, i, opts))
  {
    var b := BlockAt(ms, i, opts);
    if HasToolCalls(ms[i]) {
      forall j | b.start <= j < b.end ensures !IsMeta(opts, j) {
        assert j > i ==> ms[i + 1..][j - i - 1].role.Tool?;
      }
    }
  }

  ghost predicate MetaBlocks(opts: Options, blocks: seq<Block>) {
    && (forall k :: 0 <= k < |blocks| ==> MetaBlock(opts, blocks[k]))
    && forall k :: 0 < k < |blocks| ==> blocks[k].start == blocks[k - 1].end
  }

  lemma ParsedMeta(ms: seq<Message>, i: int, opts: Options)
    requires 0 <= i <= |ms| && MetaIsPlain(ms, opts)
    ensures MetaBlocks(opts, BlocksFrom(ms, i, opts))
  {
    var blocks := BlocksFrom(ms, i, opts);
    ParsedChain(ms, i, opts);
    forall k | 0 <= k < |blocks| ensures MetaBlock(opts, blocks[k]) {
      BlockMeta(ms, blocks[k].start, opts);
    }
  }

  lemma {:induction false} KeptRange(opts: Options, blocks: seq<Block>, k: nat)
    requires MetaBlocks(opts, blocks) && k <= |blocks| && blocks != []
    requires opts.metaMessageIndex.Some? && 0 <= opts.contextMessageCount
    requires blocks[0].start <= opts.metaMessageIndex.value
    ensures blocks[0].start <= EndOf(blocks, k)
    ensures var meta := opts.metaMessageIndex.value;
            KeepsRange(KeptOf(blocks, k), meta, Clamp(EndOf(blocks, k) - meta, opts.contextMessageCount + 1))
  {
    if k > 0 {
      KeptRange(opts, blocks, k - 1);
      var b := blocks[k - 1];
      assert MetaBlock(opts, b);
      if !b.meta {
        assert !IsMeta(opts, b.start) && !IsMeta(opts, b.end - 1);
        assert b.start <= opts.metaMessageIndex.value < b.end ==> IsMeta(opts, opts.metaMessageIndex.value);
      }
    }
  }

  lemma {:induction false} NothingKept(opts: Options, blocks: seq<Block>, k: nat)
    requires MetaBlocks(opts, blocks) && k <= |blocks| && opts.metaMessageIndex.None?
    ensures KeptOf(blocks, k) == []
  {
    if k > 0 {
      NothingKept(opts, blocks, k - 1);
      assert MetaBlock(opts, blocks[k - 1]);
    }
  }

  // No selected message is protected.
  lemma {:induction false} SelectedUnprotected(ms: seq<Message>, i: int, opts: Options, blocks: seq<Block>, k: nat)
    requires Chain(ms, opts, i, blocks) && SafePrefix(blocks, k) && 0 <= i < |ms|
    ensures EndOf(blocks, k) <= |ms|
    ensures forall p :: i <= p < EndOf(blocks, k) ==> p !in opts.protectedIndexes
  {
    if k == 0 {
      assert blocks[0].start == i;
    } else {
      assert SafePrefix(blocks, k - 1);
      SelectedUnprotected(ms, i, opts, blocks, k - 1);
      assert SafeBlock(blocks, k - 1);
      CompactableUnprotected(ms, blocks[k - 1].start, opts);
    }
  }

  lemma CompactableUnprotected(ms: seq<Message>, i: int, opts: Options)
    requires 0 <= i < |ms| && BlockAt(ms, i, opts).compactable
    ensures forall p :: i <= p < BlockAt(ms, i, opts).end ==> p !in opts.protectedIndexes
  {
    var b := BlockAt(ms, i, opts);
    if HasToolCalls(ms[i]) {
      forall p | i <= p < b.end ensures p !in opts.protectedIndexes {
        assert !Obstacle(ms, p, opts);
      }
    }
  }

  // The metadata and context messages are plain where the transcript has them.
  lemma MetaMessagePlain(l: Ledger, ms: seq<Message>, j: int)
    requires Ordered(l) && SameMessages(l, ms) && l.meta.Some? && 0 <= j <= l.context
    requires IsPlainUserMessage(l.history[l.meta.value + j])
    ensures var i := Position(l, l.meta.value) + j; l.fixed <= i < |ms| && IsPlainUserMessage(ms[i])
  {
    var i := Position(l, l.meta.value) + j;
    MetaContiguous(l, j);
    PlacePosition(l, l.meta.value + j);
    assert ms[i] == MessageAt(l, i);
  }
}
