/**
 Images in a compaction (agent/context_compaction_engine.go, agent/context_compaction_blocks.go): what is
 summarised away was prepared, and an image that can be prepared stands in no way.
 */
module ImageRules {
  import opened Transcript
  import opened Blocks
  import opened Selection
  import opened Checkpoints
  import opened CheckpointStore
  import opened CompactionEngine
  import opened LedgerCompaction
  import opened Reparsing

  // ----- Only what was prepared is selected -----

  // Every image in [i, end) is prepared.
  ghost predicate ImagesPrepared(ms: seq<Message>, i: int, end: int, prepared: set<int>) {
    forall p :: i <= p < end && 0 <= p < |ms| && HasImagePart(ms[p]) ==> p in prepared
  }

  lemma CompactableImages(ms: seq<Message>, i: int, opts: Options)
    requires 0 <= i < |ms| && BlockAt(ms, i, opts).compactable
    ensures ImagesPrepared(ms, i, BlockAt(ms, i, opts).end, opts.preparedImageIndexes)
  {
    if HasToolCalls(ms[i]) {
      ExchangeCompactableMeans(ms, i, opts);
    } else {
      SingleCompactable(ms, i, opts);
    }
  }

  lemma {:induction false} PrefixImages(ms: seq<Message>, opts: Options, blocks: seq<Block>, k: nat)
    requires SafePrefix(blocks, k) && forall j :: 0 < j <= |blocks| ==> Linked(ms, opts, blocks, j)
    ensures ImagesPrepared(ms, blocks[0].start, EndOf(blocks, k), opts.preparedImageIndexes)
  {
    if k > 0 {
      PrefixImages(ms, opts, blocks, k - 1);
      assert SafeBlock(blocks, k - 1) && Linked(ms, opts, blocks, k);
      CompactableImages(ms, blocks[k - 1].start, opts);
    }
  }

  lemma ParsedLinks(ms: seq<Message>, opts: Options)
    ensures forall j :: 0 < j <= |TranscriptBlocks(ms, opts)| ==> Linked(ms, opts, TranscriptBlocks(ms, opts), j)
  {
    var i, blocks := FirstIndex(ms, opts), TranscriptBlocks(ms, opts);
    ParsedChain(ms, i, opts);
    forall j | 0 < j <= |blocks| ensures Linked(ms, opts, blocks, j) {
      ChainAt(ms, i, opts, blocks, j);
    }
  }

  lemma SelectionImages(ms: seq<Message>, opts: Options, target: int, sel: Selected)
    requires IsSelection(ms, opts, target, sel)
    ensures ImagesPrepared(ms, sel.start, sel.end, opts.preparedImageIndexes)
  {
    var k := SelectionShape(ms, opts, target, sel);
    ParsedLinks(ms, opts);
    PrefixImages(ms, opts, TranscriptBlocks(ms, opts), k);
  }

  // Every image that a compaction takes out of the transcript was readable, and so went into the
  // summary.
  lemma CompactedImagesWereReadable(st: LoopState, settings: Settings, stored: Option<ContextCheckpoint>,
        decision: Decision, env: Environment)
    requires 0 <= st.fixedMessageCount && Compact(st, settings, stored, decision, env).Compacted?
    ensures FinalSelection(st, settings, decision, env).Some?
    ensures var sel := FinalSelection(st, settings, decision, env).value;
            && 0 <= sel.start < sel.end <= |st.messages|
            && forall p :: sel.start <= p < sel.end && HasImagePart(st.messages[p]) ==> p in env.readable
  {
    CompactedOutcome(st, settings, stored, decision, env);
    SelectedReadable(st, settings, decision, env);
  }

  lemma SelectedReadable(st: LoopState, settings: Settings, decision: Decision, env: Environment)
    requires 0 <= st.fixedMessageCount && FinalSelection(st, settings, decision, env).Some?
    ensures var sel := FinalSelection(st, settings, decision, env).value;
            ImagesPrepared(st.messages, sel.start, sel.end, env.readable)
  {
    SelectionsFit(st, settings, decision, env);
    var first, sel := FirstSelection(st, settings, decision).value, FinalSelection(st, settings, decision, env).value;
    var prepared := PreparedIndexes(st.messages, first.start, first.end, env.readable);
    var target := ReleaseTarget(decision, MainRequestTokens(st, settings), TranscriptBlocks(st.messages, EngineOptions(st)));
    SelectionImages(st.messages, OptionsFor(st, prepared), target, sel);
  }

  // ----- Images that can be read stand in no way -----

  lemma {:induction false} StillSafe(ms: seq<Message>, opts: Options, fewer: set<int>, blocks: seq<Block>, weaker: seq<Block>,
        k: nat)
    requires SafePrefix(blocks, k) && Weaker(blocks, weaker)
    requires forall j :: 0 < j <= |blocks| ==> Linked(ms, opts, blocks, j)
    requires forall j :: 0 < j <= |blocks| ==> Linked(ms, opts.(preparedImageIndexes := fewer), weaker, j)
    requires ImagesPrepared(ms, blocks[0].start, EndOf(blocks, k), fewer)
    ensures SafePrefix(weaker, k) && blocks[0].start <= EndOf(blocks, k)
  {
    if k > 0 {
      var b := blocks[k - 1];
      assert SafeBlock(blocks, k - 1) && Linked(ms, opts, blocks, k) && Linked(ms, opts.(preparedImageIndexes := fewer), weaker, k);
      StillSafe(ms, opts, fewer, blocks, weaker, k - 1);
      StillCompactable(ms, b.start, opts, fewer);
      assert SafeBlock(weaker, k - 1);
    }
  }

  lemma StillCompactable(ms: seq<Message>, i: int, opts: Options, fewer: set<int>)
    requires 0 <= i < |ms| && BlockAt(ms, i, opts).compactable
    requires ImagesPrepared(ms, i, BlockAt(ms, i, opts).end, fewer)
    ensures BlockAt(ms, i, opts.(preparedImageIndexes := fewer)).compactable
  {
    var w := opts.(preparedImageIndexes := fewer);
    if HasToolCalls(ms[i]) {
      ExchangeCompactableMeans(ms, i, opts);
      ExchangeCompactableMeans(ms, i, w);
    } else {
      SingleCompactable(ms, i, opts);
      SingleCompactable(ms, i, w);
    }
  }

  lemma SameLength(ms: seq<Message>, opts: Options, fewer: set<int>, target: int, sel: Selected)
    requires IsSelection(ms, opts, target, sel) && fewer <= opts.preparedImageIndexes
    requires ImagesPrepared(ms, sel.start, sel.end, fewer)
    ensures SelectPrefix(TranscriptBlocks(ms, opts.(preparedImageIndexes := fewer)), target) == Some(sel)
  {
    var w := opts.(preparedImageIndexes := fewer);
    var blocks, weaker := TranscriptBlocks(ms, opts), TranscriptBlocks(ms, w);
    var k := SelectionShape(ms, opts, target, sel);
    FewerPreparedBlocks(ms, FirstIndex(ms, opts), opts, fewer);
    ParsedLinks(ms, opts);
    ParsedLinks(ms, w);
    var n := PrefixLength(blocks, target, 0);
    PrefixLengthShortest(blocks, target, 0);
    SelectedLength(blocks, target, sel);
    StillSafe(ms, opts, fewer, blocks, weaker, n);
    StillShortest(blocks, weaker, target, n);
    SelectionIsShortest(weaker, target, n);
    SameSums(blocks, weaker, n);
  }

  lemma SelectedLength(blocks: seq<Block>, target: int, sel: Selected)
    requires SelectPrefix(blocks, target) == Some(sel)
    ensures |blocks| >= 2 && target > 0
    ensures var n := PrefixLength(blocks, target, 0);
            sel == SelectedAt(blocks, n, target) && n > 0 && CountOf(blocks, n) > 0 && sel.end == EndOf(blocks, n)
  {
  }

  lemma StillShortest(blocks: seq<Block>, weaker: seq<Block>, target: int, n: nat)
    requires Weaker(blocks, weaker) && Shortest(blocks, target, n) && SafePrefix(weaker, n)
    ensures Shortest(weaker, target, n)
  {
    forall j: nat | j <= n ensures TokensOf(weaker, j) == TokensOf(blocks, j) {
      SameSums(blocks, weaker, j);
    }
    if SafePrefix(weaker, n + 1) {
      forall i | 0 <= i < n + 1 ensures SafeBlock(blocks, i) {
        assert SafeBlock(weaker, i);
      }
    }
  }

  // If every image of the first selection is readable, the second selection is the first: no image is
  // kept out of a compaction for any other reason.
  lemma ReadableImagesAreSelected(st: LoopState, settings: Settings, decision: Decision, env: Environment)
    requires 0 <= st.fixedMessageCount && FirstSelection(st, settings, decision).Some?
    requires var first := FirstSelection(st, settings, decision).value;
             forall p :: first.start <= p < first.end && 0 <= p < |st.messages| && HasImagePart(st.messages[p]) ==> p in env.readable
    ensures FinalSelection(st, settings, decision, env) == FirstSelection(st, settings, decision)
  {
    SelectionsFit(st, settings, decision, env);
    var first := FirstSelection(st, settings, decision).value;
    var prepared := PreparedIndexes(st.messages, first.start, first.end, env.readable);
    var target := ReleaseTarget(decision, MainRequestTokens(st, settings), TranscriptBlocks(st.messages, EngineOptions(st)));
    SameLength(st.messages, EngineOptions(st), prepared, target, first);
  }

  // ----- The first selection does not see images -----

  // The transcript with all parts of its messages left out.
  function WithoutParts(ms: seq<Message>): (plain: seq<Message>)
    ensures |plain| == |ms|
  {
    seq(|ms|, i requires 0 <= i < |ms| => ms[i].(parts := []))
  }

  lemma {:induction false} PlainTokens(a: seq<Message>, b: seq<Message>)
    requires |a| == |b| && forall i :: 0 <= i < |a| ==> b[i] == a[i].(parts := [])
    ensures SumTokens(b) == SumTokens(a)
  {
    if a != [] {
      PlainTokens(a[..|a| - 1], b[..|b| - 1]);
    }
  }

  lemma PlainToolRun(a: seq<Message>, b: seq<Message>)
    requires |a| == |b| && forall i :: 0 <= i < |a| ==> b[i] == a[i].(parts := [])
    ensures ToolRun(b) == ToolRun(a)
  {
    ToolRunIs(b, ToolRun(a));
  }

  lemma PlainExchange(ms: seq<Message>, i: int, opts: Options)
    requires 0 <= i < |ms| && HasToolCalls(ms[i]) && ImageIndexes(ms) <= opts.preparedImageIndexes
    ensures BlockAt(WithoutParts(ms), i, opts) == BlockAt(ms, i, opts)
  {
    var plain, end := WithoutParts(ms), ExchangeEnd(ms, i);
    PlainSlices(ms, i, end);
    PlainObstacles(ms, i, end, opts);
    SameExchange(ms, plain, i, end, opts);
  }

  // An exchange depends on its calls, its results' IDs, its weight and its first obstacle.
  lemma SameExchange(m1: seq<Message>, m2: seq<Message>, i: int, end: int, opts: Options)
    requires 0 <= i < |m1| == |m2| && end == ExchangeEnd(m1, i) && ToolRun(m2[i + 1..]) == ToolRun(m1[i + 1..])
    requires m2[i].toolCalls == m1[i].toolCalls && SumTokens(m2[i..end]) == SumTokens(m1[i..end])
    requires ResultIds(m2[i + 1..end]) == ResultIds(m1[i + 1..end])
    requires FirstObstacle(m2, i, end, opts) == FirstObstacle(m1, i, end, opts)
    ensures ExchangeBlock(m2, i, opts) == ExchangeBlock(m1, i, opts)
  {
    assert ExchangeEnd(m2, i) == end;
    assert ExchangeReason(m2, i, end, opts) == ExchangeReason(m1, i, end, opts);
  }

  lemma PlainSlices(ms: seq<Message>, i: int, end: int)
    requires 0 <= i < end <= |ms|
    ensures var plain := WithoutParts(ms);
            && ToolRun(plain[i + 1..]) == ToolRun(ms[i + 1..])
            && SumTokens(plain[i..end]) == SumTokens(ms[i..end])
            && ResultIds(plain[i + 1..end]) == ResultIds(ms[i + 1..end])
  {
    var plain := WithoutParts(ms);
    PlainToolRun(ms[i + 1..], plain[i + 1..]);
    PlainTokens(ms[i..end], plain[i..end]);
  }

  lemma {:induction false} PlainObstacles(ms: seq<Message>, i: int, end: int, opts: Options)
    requires 0 <= i <= end <= |ms| && ImageIndexes(ms) <= opts.preparedImageIndexes
    ensures FirstObstacle(WithoutParts(ms), i, end, opts) == FirstObstacle(ms, i, end, opts)
    decreases end - i
  {
    if i < end {
      assert HasImagePart(ms[i]) ==> i in ImageIndexes(ms);
      PlainObstacles(ms, i + 1, end, opts);
    }
  }

  lemma PlainBlock(ms: seq<Message>, i: int, opts: Options)
    requires 0 <= i < |ms| && ImageIndexes(ms) <= opts.preparedImageIndexes
    ensures SameBlockAt(ms, WithoutParts(ms), i, 0, opts, opts)
  {
    if HasToolCalls(ms[i]) {
      PlainExchange(ms, i, opts);
    } else {
      assert HasImagePart(ms[i]) ==> i in ImageIndexes(ms);
    }
  }

  // With every image taken to be readable the parse is that of a transcript without any.
  lemma ParseWithoutParts(ms: seq<Message>, opts: Options)
    requires ImageIndexes(ms) <= opts.preparedImageIndexes
    ensures TranscriptBlocks(WithoutParts(ms), opts) == TranscriptBlocks(ms, opts)
  {
    var plain, i := WithoutParts(ms), FirstIndex(ms, opts);
    forall j | i <= j < |ms| ensures SameBlockAt(ms, plain, j, 0, opts, opts) {
      PlainBlock(ms, j, opts);
    }
    SameBlocks(ms, plain, i, 0, opts, opts);
    var blocks := BlocksFrom(ms, i, opts);
    assert ShiftBlocks(blocks, 0) == blocks;
  }

  lemma {:induction false} UnusedPrepared(ms: seq<Message>, i: int, opts: Options, prepared: set<int>)
    requires 0 <= i <= |ms| && forall p :: 0 <= p < |ms| ==> !HasImagePart(ms[p])
    ensures BlocksFrom(ms, i, opts.(preparedImageIndexes := prepared)) == BlocksFrom(ms, i, opts)
    decreases |ms| - i
  {
    if i < |ms| {
      UnusedAt(ms, i, opts, prepared);
      UnusedPrepared(ms, BlockAt(ms, i, opts).end, opts, prepared);
    }
  }

  lemma UnusedAt(ms: seq<Message>, i: int, opts: Options, prepared: set<int>)
    requires 0 <= i < |ms| && forall p :: 0 <= p < |ms| ==> !HasImagePart(ms[p])
    ensures BlockAt(ms, i, opts.(preparedImageIndexes := prepared)) == BlockAt(ms, i, opts)
  {
    UnusedObstacles(ms, i, BlockAt(ms, i, opts).end, opts, prepared);
  }

  lemma {:induction false} UnusedObstacles(ms: seq<Message>, i: int, end: int, opts: Options, prepared: set<int>)
    requires 0 <= i <= end <= |ms| && forall p :: 0 <= p < |ms| ==> !HasImagePart(ms[p])
    ensures FirstObstacle(ms, i, end, opts.(preparedImageIndexes := prepared)) == FirstObstacle(ms, i, end, opts)
    decreases end - i
  {
    if i < end {
      UnusedObstacles(ms, i + 1, end, opts, prepared);
    }
  }

  lemma PlainParse(ms: seq<Message>, opts: Options, prepared: set<int>)
    requires ImageIndexes(ms) <= opts.preparedImageIndexes
    ensures TranscriptBlocks(WithoutParts(ms), opts.(preparedImageIndexes := prepared)) == TranscriptBlocks(ms, opts)
  {
    ParseWithoutParts(ms, opts);
    UnusedPrepared(WithoutParts(ms), FirstIndex(ms, opts), opts, prepared);
  }

  // The first selection is the one of a transcript without images.
  lemma FirstSelectionSeesNoImages(st: LoopState, settings: Settings, decision: Decision)
    ensures FirstSelection(st.(messages := WithoutParts(st.messages)), settings, decision) ==
            FirstSelection(st, settings, decision)
  {
    var ms, plain := st.messages, WithoutParts(st.messages);
    PlainParse(ms, OptionsFor(st, ImageIndexes(ms)), ImageIndexes(plain));
    PlainTokens(ms, plain);
  }
}
