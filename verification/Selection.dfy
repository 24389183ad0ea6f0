/**
 Choosing the prefix to compact (selectTranscriptPrefix in agent/context_compaction_blocks.go): the
 shortest run of compactable blocks that frees the target, never the last block.
 */
module Selection {
  import opened Transcript
  import opened Blocks

  datatype Selected = Selected(
    start: int,
    end: int,
    blockCount: nat,
    tokens: nat,
    kept: seq<int>,
    reachedTarget: bool)

  // ----- Sums over the first k blocks -----

  function TokensOf(blocks: seq<Block>, k: nat): nat
    requires k <= |blocks|
  {
    if k == 0 then 0 else TokensOf(blocks, k - 1) + blocks[k - 1].tokens
  }

  function KeptOf(blocks: seq<Block>, k: nat): seq<int>
    requires k <= |blocks|
  {
    if k == 0 then []
    else KeptOf(blocks, k - 1) + if blocks[k - 1].meta then [blocks[k - 1].start] else []
  }

  function CountOf(blocks: seq<Block>, k: nat): nat
    requires k <= |blocks|
  {
    if k == 0 then 0 else CountOf(blocks, k - 1) + if blocks[k - 1].meta then 0 else 1
  }

  function EndOf(blocks: seq<Block>, k: nat): int
    requires k <= |blocks| && blocks != []
  {
    if k == 0 then blocks[0].start else blocks[k - 1].end
  }

  function SelectedAt(blocks: seq<Block>, k: nat, target: int): Selected
    requires k <= |blocks| && blocks != []
  {
    Selected(blocks[0].start, if k == 0 then 0 else EndOf(blocks, k), CountOf(blocks, k),
             TokensOf(blocks, k), KeptOf(blocks, k), TokensOf(blocks, k) >= target)
  }

  // ----- The specification -----

  predicate SafeBlock(blocks: seq<Block>, k: nat)
    requires k < |blocks|
  {
    blocks[k].compactable && blocks[k].start == EndOf(blocks, k) && blocks[k].start < blocks[k].end
  }

  // The first k blocks, without the last one, can be compacted.
  predicate SafePrefix(blocks: seq<Block>, k: nat) {
    k < |blocks| && forall i :: 0 <= i < k ==> SafeBlock(blocks, i)
  }

  // k is the length of the shortest safe prefix that frees the target, or of the longest one.
  ghost predicate Shortest(blocks: seq<Block>, target: int, k: nat) {
    && SafePrefix(blocks, k)
    && (forall j: nat :: j < k ==> TokensOf(blocks, j) < target)
    && (TokensOf(blocks, k) >= target || !SafePrefix(blocks, k + 1))
  }

  // The search from block k on.
  function PrefixLength(blocks: seq<Block>, target: int, k: nat): (n: nat)
    requires k < |blocks|
    ensures k <= n < |blocks|
    decreases |blocks| - k
  {
    if TokensOf(blocks, k) >= target || k == |blocks| - 1 || !SafeBlock(blocks, k) then k
    else PrefixLength(blocks, target, k + 1)
  }

  function SelectPrefix(blocks: seq<Block>, target: int): (selected: Option<Selected>)
    ensures target <= 0 || |blocks| < 2 ==> selected.None?
  {
    if |blocks| < 2 || target <= 0 then None
    else
      var selected := SelectedAt(blocks, PrefixLength(blocks, target, 0), target);
      if selected.blockCount == 0 then None else Some(selected)
  }

  method SelectTranscriptPrefix(blocks: seq<Block>, target: int) returns (selection: Option<Selected>)
    ensures selection == SelectPrefix(blocks, target)
  {
    if |blocks| < 2 || target <= 0 {
      return None;
    }
    var selected := Selected(blocks[0].start, 0, 0, 0, [], false);
    var previousEnd := blocks[0].start;
    var i := 0;
    while i < |blocks| - 1
      invariant 0 <= i < |blocks|
      invariant selected == SelectedAt(blocks, i, target)
      invariant previousEnd == EndOf(blocks, i)
      invariant TokensOf(blocks, i) < target
      invariant PrefixLength(blocks, target, 0) == PrefixLength(blocks, target, i)
    {
      var block := blocks[i];
      if !block.compactable || block.start != previousEnd || block.end <= block.start {
        break;
      }
      selected := selected.(end := block.end);
      if block.meta {
        selected := selected.(kept := selected.kept + [block.start]);
      } else {
        selected := selected.(blockCount := selected.blockCount + 1);
      }
      selected := selected.(tokens := selected.tokens + block.tokens);
      previousEnd := block.end;
      if selected.tokens >= target {
        selected := selected.(reachedTarget := true);
        i := i + 1;
        assert selected == SelectedAt(blocks, i, target);
        break;
      }
      i := i + 1;
    }
    selection := if selected.blockCount == 0 then None else Some(selected);
  }

  // ----- What is selected -----

  lemma {:induction false} TokensMonotone(blocks: seq<Block>, j: nat, k: nat)
    requires j <= k <= |blocks|
    ensures TokensOf(blocks, j) <= TokensOf(blocks, k)
    decreases k - j
  {
    if j < k {
      TokensMonotone(blocks, j, k - 1);
    }
  }

  lemma {:induction false} PrefixLengthShortest(blocks: seq<Block>, target: int, k: nat)
    requires SafePrefix(blocks, k)
    requires forall j: nat :: j < k ==> TokensOf(blocks, j) < target
    ensures Shortest(blocks, target, PrefixLength(blocks, target, k))
    decreases |blocks| - k
  {
    if TokensOf(blocks, k) < target && k < |blocks| - 1 && SafeBlock(blocks, k) {
      PrefixLengthShortest(blocks, target, k + 1);
    }
  }

  // At most one length is shortest.
  lemma ShortestUnique(blocks: seq<Block>, target: int, j: nat, k: nat)
    requires Shortest(blocks, target, j) && Shortest(blocks, target, k) && j <= k
    ensures j == k
  {
    assert j + 1 <= k ==> SafePrefix(blocks, j + 1);
  }

  // The selection is exactly the shortest safe prefix that frees the target (or the longest safe
  // prefix), and there is none when that prefix holds nothing but metadata.
  lemma SelectionIsShortest(blocks: seq<Block>, target: int, k: nat)
    requires |blocks| >= 2 && target > 0
    ensures Shortest(blocks, target, k) <==> k == PrefixLength(blocks, target, 0)
    ensures Shortest(blocks, target, k) ==>
      SelectPrefix(blocks, target) ==
        if CountOf(blocks, k) == 0 then None else Some(SelectedAt(blocks, k, target))
  {
    var n := PrefixLength(blocks, target, 0);
    PrefixLengthShortest(blocks, target, 0);
    if Shortest(blocks, target, k) {
      if k <= n {
        ShortestUnique(blocks, target, k, n);
      } else {
        ShortestUnique(blocks, target, n, k);
      }
    }
  }

  // ----- Fewer prepared images -----

  // The same blocks, of which the second value may have fewer compactable ones.
  predicate Weaker(blocks: seq<Block>, weaker: seq<Block>) {
    && |weaker| == |blocks|
    && forall k :: 0 <= k < |blocks| ==>
         && weaker[k].start == blocks[k].start && weaker[k].end == blocks[k].end
         && weaker[k].tokens == blocks[k].tokens && weaker[k].meta == blocks[k].meta
         && (weaker[k].compactable ==> blocks[k].compactable)
  }

  lemma {:induction false} SameSums(blocks: seq<Block>, weaker: seq<Block>, k: nat)
    requires Weaker(blocks, weaker) && k <= |blocks|
    ensures TokensOf(weaker, k) == TokensOf(blocks, k)
    ensures KeptOf(weaker, k) == KeptOf(blocks, k)
    ensures CountOf(weaker, k) == CountOf(blocks, k)
  {
    if k > 0 {
      SameSums(blocks, weaker, k - 1);
    }
  }

  lemma {:induction false} ShorterPrefix(blocks: seq<Block>, weaker: seq<Block>, target: int, k: nat)
    requires Weaker(blocks, weaker) && k < |blocks|
    ensures PrefixLength(weaker, target, k) <= PrefixLength(blocks, target, k)
    decreases |blocks| - k
  {
    SameSums(blocks, weaker, k);
    if TokensOf(weaker, k) < target && k < |weaker| - 1 && SafeBlock(weaker, k) {
      ShorterPrefix(blocks, weaker, target, k + 1);
    }
  }

  lemma FewerPrepared(ms: seq<Message>, i: int, opts: Options, fewer: set<int>)
    requires 0 <= i < |ms| && fewer <= opts.preparedImageIndexes
    ensures var b, w := BlockAt(ms, i, opts), BlockAt(ms, i, opts.(preparedImageIndexes := fewer));
            && w.start == b.start && w.end == b.end && w.tokens == b.tokens && w.meta == b.meta
            && (w.compactable ==> b.compactable)
  {
    var weak := opts.(preparedImageIndexes := fewer);
    if HasToolCalls(ms[i]) && BlockAt(ms, i, weak).compactable {
      var end := ExchangeEnd(ms, i);
      forall j | i <= j < end ensures !Obstacle(ms, j, opts) {
        assert !Obstacle(ms, j, weak);
      }
    }
  }

  lemma {:induction false} FewerPreparedBlocks(ms: seq<Message>, i: int, opts: Options, fewer: set<int>)
    requires 0 <= i <= |ms| && fewer <= opts.preparedImageIndexes
    ensures Weaker(BlocksFrom(ms, i, opts), BlocksFrom(ms, i, opts.(preparedImageIndexes := fewer)))
    decreases |ms| - i
  {
    if i < |ms| {
      FewerPrepared(ms, i, opts, fewer);
      FewerPreparedBlocks(ms, BlockAt(ms, i, opts).end, opts, fewer);
    }
  }

  lemma {:induction false} KeptPrefix(blocks: seq<Block>, j: nat, k: nat)
    requires j <= k <= |blocks|
    ensures KeptOf(blocks, j) <= KeptOf(blocks, k) && CountOf(blocks, j) <= CountOf(blocks, k)
    decreases k - j
  {
    if j < k {
      KeptPrefix(blocks, j, k - 1);
    }
  }

  lemma {:induction false} EndsMonotone(ms: seq<Message>, i: int, opts: Options, blocks: seq<Block>, j: nat, k: nat)
    requires Chain(ms, opts, i, blocks) && j <= k <= |blocks| && blocks != []
    ensures EndOf(blocks, j) <= EndOf(blocks, k)
    decreases k - j
  {
    if j < k {
      EndsMonotone(ms, i, opts, blocks, j, k - 1);
    }
  }

  // When fewer images can be prepared than were assumed, the second selection starts where the first
  // did and never reaches further, so what was prepared for the first covers the second.
  lemma ReselectionIsPrefix(ms: seq<Message>, opts: Options, fewer: set<int>, target: int)
    requires fewer <= opts.preparedImageIndexes
    requires SelectPrefix(TranscriptBlocks(ms, opts.(preparedImageIndexes := fewer)), target).Some?
    ensures SelectPrefix(TranscriptBlocks(ms, opts), target).Some?
    ensures var first := SelectPrefix(TranscriptBlocks(ms, opts), target).value;
            var second := SelectPrefix(TranscriptBlocks(ms, opts.(preparedImageIndexes := fewer)), target).value;
            && second.start == first.start && second.end <= first.end && second.kept <= first.kept
            && second.tokens <= first.tokens
  {
    var i := FirstIndex(ms, opts);
    var blocks, weaker := TranscriptBlocks(ms, opts), TranscriptBlocks(ms, opts.(preparedImageIndexes := fewer));
    FewerPreparedBlocks(ms, i, opts, fewer);
    ShorterPrefix(blocks, weaker, target, 0);
    var j, k := PrefixLength(weaker, target, 0), PrefixLength(blocks, target, 0);
    SameSums(blocks, weaker, j);
    KeptPrefix(blocks, j, k);
    TokensMonotone(blocks, j, k);
    ParsedChain(ms, i, opts);
    EndsMonotone(ms, i, opts, blocks, j, k);
  }

  // ----- The manual target -----

  // The length of the longest safe prefix.
  function MaximalPrefix(blocks: seq<Block>, k: nat): (n: nat)
    requires k < |blocks|
    ensures k <= n < |blocks|
    decreases |blocks| - k
  {
    if k == |blocks| - 1 || !SafeBlock(blocks, k) then k else MaximalPrefix(blocks, k + 1)
  }

  lemma {:induction false} MaximalPrefixSafe(blocks: seq<Block>, k: nat)
    requires SafePrefix(blocks, k)
    ensures SafePrefix(blocks, MaximalPrefix(blocks, k))
    ensures forall n: nat :: SafePrefix(blocks, n) ==> n <= MaximalPrefix(blocks, k)
    decreases |blocks| - k
  {
    if k < |blocks| - 1 && SafeBlock(blocks, k) {
      MaximalPrefixSafe(blocks, k + 1);
    } else {
      assert forall n: nat :: SafePrefix(blocks, n) && k < n ==> SafeBlock(blocks, k);
    }
  }

  // Of parsed blocks, only metadata blocks weigh nothing.
  lemma BlockWeight(ms: seq<Message>, i: int, opts: Options)
    requires 0 <= i < |ms|
    ensures BlockAt(ms, i, opts).tokens == 0 <==> BlockAt(ms, i, opts).meta
  {
    var b := BlockAt(ms, i, opts);
    if HasToolCalls(ms[i]) {
      var exchange := ms[i..b.end];
      assert SumTokens(exchange) >= EstimateMessageTokens(exchange[|exchange| - 1]);
    }
  }

  predicate OnlyMetaWeightless(blocks: seq<Block>) {
    forall k :: 0 <= k < |blocks| ==> (blocks[k].tokens == 0 <==> blocks[k].meta)
  }

  lemma ParsedWeights(ms: seq<Message>, i: int, opts: Options)
    requires 0 <= i <= |ms|
    ensures OnlyMetaWeightless(BlocksFrom(ms, i, opts))
  {
    var blocks := BlocksFrom(ms, i, opts);
    ParsedChain(ms, i, opts);
    forall k | 0 <= k < |blocks| ensures blocks[k].tokens == 0 <==> blocks[k].meta {
      BlockWeight(ms, blocks[k].start, opts);
    }
  }

  lemma {:induction false} EqualTokensEqualCount(blocks: seq<Block>, j: nat, k: nat)
    requires OnlyMetaWeightless(blocks) && j <= k <= |blocks|
    ensures TokensOf(blocks, j) == TokensOf(blocks, k) <==> CountOf(blocks, j) == CountOf(blocks, k)
    ensures CountOf(blocks, j) <= CountOf(blocks, k)
    decreases k - j
  {
    if j < k {
      TokensMonotone(blocks, j, k - 1);
      EqualTokensEqualCount(blocks, j, k - 1);
    }
  }

  lemma {:induction false} PrefixToSum(blocks: seq<Block>, target: int, k: nat)
    requires SafePrefix(blocks, k) && TokensOf(blocks, MaximalPrefix(blocks, k)) == target
    ensures PrefixLength(blocks, target, k) <= MaximalPrefix(blocks, k)
    ensures TokensOf(blocks, PrefixLength(blocks, target, k)) == target
    decreases |blocks| - k
  {
    if TokensOf(blocks, k) >= target {
      TokensMonotone(blocks, k, MaximalPrefix(blocks, k));
    } else if k < |blocks| - 1 && SafeBlock(blocks, k) {
      PrefixToSum(blocks, target, k + 1);
    }
  }

  // The target of a manual compaction, the weight of the longest safe prefix, selects every block of
  // that prefix that is not metadata; nothing is selected only when there is no such block.
  lemma ManualTargetSelectsAll(ms: seq<Message>, opts: Options, target: int)
    requires |TranscriptBlocks(ms, opts)| >= 2
    requires var blocks := TranscriptBlocks(ms, opts); var full := TokensOf(blocks, MaximalPrefix(blocks, 0));
             target == if full > 0 then full else 1
    ensures var blocks := TranscriptBlocks(ms, opts); var longest := MaximalPrefix(blocks, 0);
            && (SelectPrefix(blocks, target).Some? <==> CountOf(blocks, longest) > 0)
            && (SelectPrefix(blocks, target).Some? ==>
                 && SelectPrefix(blocks, target).value.blockCount == CountOf(blocks, longest)
                 && SelectPrefix(blocks, target).value.tokens == TokensOf(blocks, longest)
                 && SelectPrefix(blocks, target).value.reachedTarget)
  {
    var i := FirstIndex(ms, opts);
    var blocks := TranscriptBlocks(ms, opts);
    var longest, n := MaximalPrefix(blocks, 0), PrefixLength(blocks, target, 0);
    ParsedWeights(ms, i, opts);
    EqualTokensEqualCount(blocks, 0, longest);
    if TokensOf(blocks, longest) > 0 {
      PrefixToSum(blocks, target, 0);
      EqualTokensEqualCount(blocks, n, longest);
    } else {
      PrefixLengthShortest(blocks, target, 0);
      MaximalPrefixSafe(blocks, 0);
      EqualTokensEqualCount(blocks, n, longest);
    }
  }
}
