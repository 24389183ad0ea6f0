/**
 Replacing a selected prefix by one checkpoint message (agent/context_compaction_checkpoint.go and
 the list of messages sent to the summariser in agent/context_compaction_engine.go).
 */
module Checkpoints {
  import opened Text
  import opened Transcript
  import opened Blocks
  import opened Selection

  // ----- The four parts of a transcript under a selection -----

  predicate Increasing(s: seq<int>) {
    forall i, j :: 0 <= i < j < |s| ==> s[i] < s[j]
  }

  predicate WellFormed(sel: Selected, n: int) {
    && 0 <= sel.start < sel.end <= n
    && Increasing(sel.kept)
    && forall k :: 0 <= k < |sel.kept| ==> sel.start <= sel.kept[k] < sel.end
  }

  predicate Survives(sel: Selected, i: int) {
    i < sel.start || i in sel.kept || sel.end <= i
  }

  function IndexOf(s: seq<int>, x: int): (k: nat)
    requires x in s
    ensures k < |s| && s[k] == x
  {
    if s[0] == x then 0 else 1 + IndexOf(s[1..], x)
  }

  // How many messages the compaction takes out, not counting the checkpoint put in.
  function Removed(sel: Selected): int {
    sel.end - sel.start - |sel.kept|
  }

  // The position in the compacted transcript of a message that stays.
  function Renumber(sel: Selected, i: int): int
    requires Survives(sel, i)
  {
    if i < sel.start then i
    else if i >= sel.end then i - Removed(sel) + 1
    else sel.start + 1 + IndexOf(sel.kept, i)
  }

  function Pick(ms: seq<Message>, indexes: seq<int>): (picked: seq<Message>)
    requires forall k :: 0 <= k < |indexes| ==> 0 <= indexes[k] < |ms|
    ensures |picked| == |indexes|
  {
    seq(|indexes|, k requires 0 <= k < |indexes| => ms[indexes[k]])
  }

  function Replaced(ms: seq<Message>, sel: Selected, checkpoint: Message): seq<Message>
    requires WellFormed(sel, |ms|)
  {
    ms[..sel.start] + [checkpoint] + Pick(ms, sel.kept) + ms[sel.end..]
  }

  // The messages from index lo on, numbered from offset, that are not kept.
  function Summarised(ms: seq<Message>, lo: nat, kept: seq<int>, offset: int): seq<Message>
    requires lo <= |ms|
    decreases |ms| - lo
  {
    if lo == |ms| then []
    else (if lo + offset in kept then [] else [ms[lo]]) + Summarised(ms, lo + 1, kept, offset)
  }

  // ----- Every old message has one place -----

  lemma ReplacedLength(ms: seq<Message>, sel: Selected, checkpoint: Message)
    requires WellFormed(sel, |ms|)
    ensures |Replaced(ms, sel, checkpoint)| == |ms| - Removed(sel) + 1
    ensures Replaced(ms, sel, checkpoint)[sel.start] == checkpoint
  {
  }

  // A message that stays is found at its compacted index, which is never the checkpoint's.
  lemma SurvivorKeepsMessage(ms: seq<Message>, sel: Selected, checkpoint: Message, i: int)
    requires WellFormed(sel, |ms|) && 0 <= i < |ms| && Survives(sel, i)
    ensures var compacted, p := Replaced(ms, sel, checkpoint), Renumber(sel, i);
            0 <= p < |compacted| && p != sel.start && compacted[p] == ms[i]
  {
  }

  lemma IncreasingOrder(s: seq<int>, j: nat, k: nat)
    requires Increasing(s) && j < |s| && k < |s|
    ensures (j < k <==> s[j] < s[k]) && (j == k <==> s[j] == s[k])
  {
  }

  lemma RenumberIncreasing(sel: Selected, n: int, i: int, j: int)
    requires WellFormed(sel, n) && 0 <= i < j < n && Survives(sel, i) && Survives(sel, j)
    ensures Renumber(sel, i) < Renumber(sel, j)
  {
    if sel.start <= i && j < sel.end {
      IncreasingOrder(sel.kept, IndexOf(sel.kept, i), IndexOf(sel.kept, j));
    }
  }

  // The old index of what is at position p of the compacted transcript.
  function OldIndex(sel: Selected, p: int): int
    requires p != sel.start
  {
    if p < sel.start then p
    else if p <= sel.start + |sel.kept| then sel.kept[p - sel.start - 1]
    else p + Removed(sel) - 1
  }

  lemma IndexOfKept(s: seq<int>, k: nat)
    requires Increasing(s) && k < |s|
    ensures IndexOf(s, s[k]) == k
  {
    IncreasingOrder(s, IndexOf(s, s[k]), k);
  }

  // Every position but the checkpoint's holds exactly one surviving old message.
  lemma RenumberOntoRest(ms: seq<Message>, sel: Selected, checkpoint: Message, p: int)
    requires WellFormed(sel, |ms|) && 0 <= p < |Replaced(ms, sel, checkpoint)| && p != sel.start
    ensures var i := OldIndex(sel, p);
            0 <= i < |ms| && Survives(sel, i) && Renumber(sel, i) == p
  {
    if sel.start < p <= sel.start + |sel.kept| {
      IndexOfKept(sel.kept, p - sel.start - 1);
    }
  }

  // ----- The messages sent to the summariser -----

  // No kept message is at an index in [lo, hi), numbered from offset.
  predicate NoneKept(kept: seq<int>, offset: int, lo: int, hi: int) {
    forall k :: 0 <= k < |kept| ==> kept[k] - offset < lo || hi <= kept[k] - offset
  }

  lemma NotKept(ms: seq<Message>, lo: nat, kept: seq<int>, offset: int)
    requires lo < |ms| && NoneKept(kept, offset, lo, lo + 1)
    ensures Summarised(ms, lo, kept, offset) == [ms[lo]] + Summarised(ms, lo + 1, kept, offset)
  {
    assert lo + offset !in kept;
  }

  lemma {:induction false} NothingKeptBetween(ms: seq<Message>, lo: nat, hi: nat, kept: seq<int>, offset: int)
    requires lo <= hi <= |ms| && NoneKept(kept, offset, lo, hi)
    ensures Summarised(ms, lo, kept, offset) == ms[lo..hi] + Summarised(ms, hi, kept, offset)
    decreases hi - lo
  {
    if lo < hi {
      NothingKeptBetween(ms, lo + 1, hi, kept, offset);
      NotKept(ms, lo, kept, offset);
      assert ms[lo..hi] == [ms[lo]] + ms[lo + 1..hi];
    }
  }

  lemma NoneKeptUntilNext(kept: seq<int>, offset: int, k: nat, bound: int)
    requires Increasing(kept) && k < |kept|
    requires k + 1 < |kept| ==> bound <= kept[k + 1] - offset
    ensures NoneKept(kept, offset, kept[k] - offset + 1, bound)
  {
    forall j | 0 <= j < |kept| ensures kept[j] - offset < kept[k] - offset + 1 || bound <= kept[j] - offset {
      IncreasingOrder(kept, j, k);
      if k + 1 < |kept| {
        IncreasingOrder(kept, j, k + 1);
      }
    }
  }

  lemma KeptSkipped(ms: seq<Message>, lo: nat, kept: seq<int>, offset: int)
    requires lo < |ms| && lo + offset in kept
    ensures Summarised(ms, lo, kept, offset) == Summarised(ms, lo + 1, kept, offset)
  {
    assert [] + Summarised(ms, lo + 1, kept, offset) == Summarised(ms, lo + 1, kept, offset);
  }

  // One deletion, working backwards: everything from the k-th kept message on is already filtered.
  lemma DropKept(ms: seq<Message>, kept: seq<int>, offset: int, k: nat, bound: nat)
    requires Increasing(kept) && k < |kept|
    requires 0 <= kept[k] - offset < bound <= |ms|
    requires bound == if k + 1 < |kept| then kept[k + 1] - offset else |ms|
    ensures Summarised(ms, kept[k] - offset, kept, offset) ==
            ms[kept[k] - offset + 1..bound] + Summarised(ms, bound, kept, offset)
  {
    NoneKeptUntilNext(kept, offset, k, bound);
    KeptSkipped(ms, kept[k] - offset, kept, offset);
    NothingKeptBetween(ms, kept[k] - offset + 1, bound, kept, offset);
  }

  // Deletes the kept messages, the last one first, from the list taken from the selection.
  lemma WithoutOne(ms: seq<Message>, bound: int, index: int, rest: seq<Message>)
    requires 0 <= index < bound <= |ms|
    ensures var list := ms[..bound] + rest; list[..index] + list[index + 1..] == ms[..index] + (ms[index + 1..bound] + rest)
  {
  }

  method RemoveKept(prepared: seq<Message>, sel: Selected) returns (list: seq<Message>)
    requires WellFormed(sel, sel.start + |prepared|) && sel.end == sel.start + |prepared|
    ensures list == Summarised(prepared, 0, sel.kept, sel.start)
  {
    list := prepared;
    var i := |sel.kept|;
    ghost var bound := |prepared|;
    while i > 0
      invariant 0 <= i <= |sel.kept|
      invariant bound == if i < |sel.kept| then sel.kept[i] - sel.start else |prepared|
      invariant list == prepared[..bound] + Summarised(prepared, bound, sel.kept, sel.start)
    {
      i := i - 1;
      var index := sel.kept[i] - sel.start;
      assert i + 1 < |sel.kept| ==> sel.kept[i] < sel.kept[i + 1];
      DropKept(prepared, sel.kept, sel.start, i, bound);
      WithoutOne(prepared, bound, index, Summarised(prepared, bound, sel.kept, sel.start));
      list := list[..index] + list[index + 1..];
      bound := index;
    }
    FirstKept(prepared, sel, bound);
  }

  lemma FirstKept(prepared: seq<Message>, sel: Selected, bound: nat)
    requires WellFormed(sel, sel.start + |prepared|) && sel.end == sel.start + |prepared|
    requires bound == if 0 < |sel.kept| then sel.kept[0] - sel.start else |prepared|
    ensures Summarised(prepared, 0, sel.kept, sel.start) ==
            prepared[..bound] + Summarised(prepared, bound, sel.kept, sel.start)
  {
    NothingKeptBetween(prepared, 0, bound, sel.kept, sel.start);
  }

  // ----- The replacement -----

  // The message built from a summary: a plain user message.
  function CheckpointMessage(content: string, jsonBytes: nat): Message {
    Message(User, content, [], [], "", jsonBytes)
  }

  predicate IsCheckpointMessage(m: Message) {
    m.role.User? && TrimSpace(m.content) != "" && m.toolCallId == "" && m.toolCalls == []
  }

  function BareOptions(fixedMessageCount: int): Options {
    Options(None, 0, fixedMessageCount, {}, {}, {})
  }

  predicate NoInvalidTool(blocks: seq<Block>) {
    forall k :: 0 <= k < |blocks| ==> !blocks[k].reason.InvalidTool?
  }

  method ValidateCompleteToolExchanges(ms: seq<Message>, fixedMessageCount: int) returns (ok: bool)
    ensures ok <==> NoInvalidTool(TranscriptBlocks(ms, BareOptions(fixedMessageCount)))
  {
    var blocks := BuildTranscriptBlocks(ms, BareOptions(fixedMessageCount));
    for k := 0 to |blocks|
      invariant NoInvalidTool(blocks[..k])
    {
      if blocks[k].reason.InvalidTool? {
        return false;
      }
    }
    return true;
  }

  predicate Replaceable(ms: seq<Message>, fixedMessageCount: int, sel: Selected, checkpoint: Message) {
    && 0 <= fixedMessageCount <= |ms|
    && fixedMessageCount <= sel.start && 0 <= sel.start && sel.end <= |ms| && sel.start < sel.end
    && IsCheckpointMessage(checkpoint)
  }

  // A replacement is made only of messages behind the fixed ones, and only by a user's message with text
  // that is no part of an exchange.
  lemma ReplaceableExactlyWhen(ms: seq<Message>, fixedMessageCount: int, sel: Selected, checkpoint: Message)
    ensures Replaceable(ms, fixedMessageCount, sel, checkpoint) <==>
            && 0 <= fixedMessageCount <= sel.start < sel.end <= |ms|
            && checkpoint.role == User && !AllSpace(checkpoint.content) && checkpoint.toolCallId == "" && checkpoint.toolCalls == []
  {
    BlankMeans(checkpoint.content);
  }

  method ReplaceMessagesWithCheckpoint(
    ms: seq<Message>, fixedMessageCount: int, sel: Selected, checkpoint: Message)
    returns (result: Option<seq<Message>>)
    requires Replaceable(ms, fixedMessageCount, sel, checkpoint) ==> WellFormed(sel, |ms|)
    ensures result ==
      if Replaceable(ms, fixedMessageCount, sel, checkpoint)
         && NoInvalidTool(TranscriptBlocks(Replaced(ms, sel, checkpoint), BareOptions(fixedMessageCount)))
      then Some(Replaced(ms, sel, checkpoint)) else None
  {
    if fixedMessageCount < 0 || fixedMessageCount > |ms| {
      return None;
    }
    if sel.start < fixedMessageCount || sel.start < 0 || sel.end > |ms| || sel.end <= sel.start {
      return None;
    }
    if !IsCheckpointMessage(checkpoint) {
      return None;
    }
    var out := ms[..sel.start] + [checkpoint];
    for k := 0 to |sel.kept|
      invariant out == ms[..sel.start] + [checkpoint] + Pick(ms, sel.kept)[..k]
    {
      out := out + [ms[sel.kept[k]]];
    }
    out := out + ms[sel.end..];
    assert out == Replaced(ms, sel, checkpoint);
    var ok := ValidateCompleteToolExchanges(out, fixedMessageCount);
    return if ok then Some(out) else None;
  }

  // ----- What a parsed selection looks like -----

  ghost predicate IsSelection(ms: seq<Message>, opts: Options, target: int, sel: Selected) {
    && 0 <= opts.fixedMessageCount
    && SelectPrefix(TranscriptBlocks(ms, opts), target) == Some(sel)
  }

  // What a block that is kept when it is selected looks like.
  predicate KeepableBlock(ms: seq<Message>, opts: Options, b: Block) {
    && 0 <= b.start < b.end <= |ms|
    && (b.meta ==> IsMeta(opts, b.start) && !HasToolCalls(ms[b.start]))
    && (b.meta && b.compactable ==> !ms[b.start].role.Tool?)
  }

  predicate KeepableBlocks(ms: seq<Message>, opts: Options, blocks: seq<Block>) {
    && (forall k :: 0 <= k < |blocks| ==> KeepableBlock(ms, opts, blocks[k]))
    && forall k :: 0 < k < |blocks| ==> blocks[k].start == blocks[k - 1].end
  }

  lemma ParsedKeepable(ms: seq<Message>, i: int, opts: Options)
    requires 0 <= i <= |ms|
    ensures KeepableBlocks(ms, opts, BlocksFrom(ms, i, opts))
  {
    var blocks := BlocksFrom(ms, i, opts);
    ParsedChain(ms, i, opts);
    forall k | 0 <= k < |blocks| ensures KeepableBlock(ms, opts, blocks[k]) {
      assert blocks[k] == BlockAt(ms, blocks[k].start, opts);
    }
  }

  predicate Keepable(ms: seq<Message>, opts: Options, kept: seq<int>, lo: int, hi: int) {
    forall j :: 0 <= j < |kept| ==>
      && lo <= kept[j] < hi && 0 <= kept[j] < |ms|
      && IsMeta(opts, kept[j]) && !HasToolCalls(ms[kept[j]]) && !ms[kept[j]].role.Tool?
  }

  lemma OneMoreKept(ms: seq<Message>, opts: Options, kept: seq<int>, b: Block, lo: int)
    requires Keepable(ms, opts, kept, lo, b.start) && Increasing(kept) && lo <= b.start
    requires KeepableBlock(ms, opts, b) && b.compactable
    ensures var more := kept + if b.meta then [b.start] else [];
            Keepable(ms, opts, more, lo, b.end) && Increasing(more)
  {
  }

  lemma {:induction false} KeptBounds(ms: seq<Message>, opts: Options, blocks: seq<Block>, k: nat)
    requires KeepableBlocks(ms, opts, blocks) && k <= |blocks| && blocks != []
    requires forall j :: 0 <= j < k ==> blocks[j].compactable
    ensures blocks[0].start <= EndOf(blocks, k) <= |ms| && Increasing(KeptOf(blocks, k))
    ensures Keepable(ms, opts, KeptOf(blocks, k), blocks[0].start, EndOf(blocks, k))
  {
    if k == 0 {
      assert KeepableBlock(ms, opts, blocks[0]);
    } else {
      KeptBounds(ms, opts, blocks, k - 1);
      var b := blocks[k - 1];
      assert KeepableBlock(ms, opts, b) && EndOf(blocks, k - 1) == b.start;
      OneMoreKept(ms, opts, KeptOf(blocks, k - 1), b, blocks[0].start);
    }
  }

  lemma SafePrefixShape(ms: seq<Message>, opts: Options, blocks: seq<Block>, k: nat, target: int)
    requires KeepableBlocks(ms, opts, blocks) && SafePrefix(blocks, k) && 0 < k
    requires 0 <= blocks[0].start
    ensures var sel := SelectedAt(blocks, k, target);
            && WellFormed(sel, |ms|) && sel.end == blocks[k].start < |ms|
            && Keepable(ms, opts, sel.kept, sel.start, sel.end)
  {
    forall j | 0 <= j < k ensures blocks[j].compactable {
      assert SafeBlock(blocks, j);
    }
    KeptBounds(ms, opts, blocks, k);
    KeptBounds(ms, opts, blocks, k - 1);
    assert SafeBlock(blocks, k - 1);
    assert KeepableBlock(ms, opts, blocks[k]);
  }

  // A parsed selection starts right after the fixed messages, leaves at least one message, and keeps
  // only runtime metadata and context messages.
  lemma SelectionShape(ms: seq<Message>, opts: Options, target: int, sel: Selected) returns (k: nat)
    requires IsSelection(ms, opts, target, sel)
    ensures WellFormed(sel, |ms|) && sel.start == opts.fixedMessageCount && sel.end < |ms|
    ensures k < |TranscriptBlocks(ms, opts)| && sel == SelectedAt(TranscriptBlocks(ms, opts), k, target)
    ensures SafePrefix(TranscriptBlocks(ms, opts), k)
    ensures TranscriptBlocks(ms, opts)[k..] == BlocksFrom(ms, sel.end, opts)
    ensures Keepable(ms, opts, sel.kept, sel.start, sel.end)
  {
    var i := FirstIndex(ms, opts);
    var blocks := TranscriptBlocks(ms, opts);
    k := PrefixLength(blocks, target, 0);
    PrefixLengthShortest(blocks, target, 0);
    ParsedKeepable(ms, i, opts);
    ParsedSuffix(ms, i, opts, 0);
    ParsedSuffix(ms, i, opts, k);
    SafePrefixShape(ms, opts, blocks, k, target);
  }

  // ----- Tokens -----

  predicate InRange(indexes: seq<int>, n: int) {
    forall k :: 0 <= k < |indexes| ==> 0 <= indexes[k] < n
  }

  lemma PickOneMore(ms: seq<Message>, indexes: seq<int>, i: int)
    requires InRange(indexes, |ms|) && 0 <= i < |ms|
    ensures SumTokens(Pick(ms, indexes + [i])) == SumTokens(Pick(ms, indexes)) + EstimateMessageTokens(ms[i])
  {
    assert Pick(ms, indexes + [i])[..|indexes|] == Pick(ms, indexes);
  }

  lemma SplitTokens(ms: seq<Message>, a: int, b: int, c: int)
    requires 0 <= a <= b <= c <= |ms|
    ensures SumTokens(ms[a..c]) == SumTokens(ms[a..b]) + SumTokens(ms[b..c])
  {
    assert ms[a..c] == ms[a..b] + ms[b..c];
    SumTokensConcat(ms[a..b], ms[b..c]);
  }

  lemma BlockTokens(ms: seq<Message>, i: int, opts: Options)
    requires 0 <= i < |ms|
    ensures var b := BlockAt(ms, i, opts);
            SumTokens(ms[i..b.end]) == if b.meta then EstimateMessageTokens(ms[i]) else b.tokens
  {
    if !HasToolCalls(ms[i]) {
      assert ms[i..i + 1] == [ms[i]];
      SumOfOne(ms[i]);
    }
  }

  lemma OneMore(blocks: seq<Block>, k: nat)
    requires 0 < k <= |blocks|
    ensures KeptOf(blocks, k) == KeptOf(blocks, k - 1) + if blocks[k - 1].meta then [blocks[k - 1].start] else []
    ensures TokensOf(blocks, k) == TokensOf(blocks, k - 1) + blocks[k - 1].tokens
  {
  }

  lemma ChainAt(ms: seq<Message>, i: int, opts: Options, blocks: seq<Block>, k: nat)
    requires Chain(ms, opts, i, blocks) && 0 < k <= |blocks|
    ensures var b := blocks[k - 1];
            0 <= b.start < |ms| && EndOf(blocks, k - 1) == b.start && b == BlockAt(ms, b.start, opts) && EndOf(blocks, k) == b.end
            && (k == 1 ==> b.start == i)
  {
    assert blocks[0].start == i;
  }

  // The messages in [i, end) weigh these tokens and what the kept ones among them weigh.
  ghost predicate Weighs(ms: seq<Message>, i: int, end: int, tokens: nat, kept: seq<int>) {
    && 0 <= i <= end <= |ms| && InRange(kept, |ms|)
    && SumTokens(ms[i..end]) == tokens + SumTokens(Pick(ms, kept))
  }

  // Block k - 1 is parsed where the blocks before it end.
  ghost predicate Linked(ms: seq<Message>, opts: Options, blocks: seq<Block>, k: nat) {
    && 0 < k <= |blocks| && 0 <= blocks[k - 1].start < |ms| && EndOf(blocks, k - 1) == blocks[k - 1].start
    && blocks[k - 1] == BlockAt(ms, blocks[k - 1].start, opts)
  }

  // The weight of k blocks and of the messages kept from them is that of the messages they span.
  lemma KeptTokens(ms: seq<Message>, i: int, opts: Options, blocks: seq<Block>, k: nat)
    requires Chain(ms, opts, i, blocks) && k <= |blocks| && blocks != [] && 0 <= i < |ms|
    ensures Weighs(ms, i, EndOf(blocks, k), TokensOf(blocks, k), KeptOf(blocks, k))
  {
    forall j | 0 < j <= |blocks| ensures Linked(ms, opts, blocks, j) {
      ChainAt(ms, i, opts, blocks, j);
    }
    ChainAt(ms, i, opts, blocks, 1);
    LinkedTokens(ms, i, opts, blocks, k);
  }

  lemma {:induction false} LinkedTokens(ms: seq<Message>, i: int, opts: Options, blocks: seq<Block>, k: nat)
    requires forall j :: 0 < j <= |blocks| ==> Linked(ms, opts, blocks, j)
    requires k <= |blocks| && blocks != [] && 0 <= i < |ms| && blocks[0].start == i
    ensures Weighs(ms, i, EndOf(blocks, k), TokensOf(blocks, k), KeptOf(blocks, k))
  {
    if k == 0 {
      assert ms[i..i] == [];
    } else {
      LinkedTokens(ms, i, opts, blocks, k - 1);
      assert Linked(ms, opts, blocks, k);
      KeptStep(ms, i, opts, blocks, k);
    }
  }

  lemma KeptStep(ms: seq<Message>, i: int, opts: Options, blocks: seq<Block>, k: nat)
    requires Linked(ms, opts, blocks, k)
    requires Weighs(ms, i, EndOf(blocks, k - 1), TokensOf(blocks, k - 1), KeptOf(blocks, k - 1))
    ensures Weighs(ms, i, EndOf(blocks, k), TokensOf(blocks, k), KeptOf(blocks, k))
  {
    OneMore(blocks, k);
    OneMoreBlock(ms, i, opts, blocks[k - 1], KeptOf(blocks, k - 1), TokensOf(blocks, k - 1), KeptOf(blocks, k),
                 TokensOf(blocks, k));
  }

  lemma OneMoreBlock(ms: seq<Message>, i: int, opts: Options, b: Block, kept: seq<int>, tokens: nat, more: seq<int>,
        total: nat)
    requires 0 <= b.start < |ms| && b == BlockAt(ms, b.start, opts) && Weighs(ms, i, b.start, tokens, kept)
    requires more == (kept + if b.meta then [b.start] else []) && total == tokens + b.tokens
    ensures Weighs(ms, i, b.end, total, more)
  {
    SplitTokens(ms, i, b.start, b.end);
    BlockTokens(ms, b.start, opts);
    PickOneMore(ms, kept, b.start);
    assert kept + [] == kept;
  }

  lemma SumOfOne(m: Message)
    ensures SumTokens([m]) == EstimateMessageTokens(m)
  {
    assert [m][..0] == [];
  }

  // Compaction changes the estimate of the transcript by exactly the selection's tokens, which leave,
  // and the checkpoint's, which come.
  lemma TokenConservation(ms: seq<Message>, opts: Options, target: int, sel: Selected, checkpoint: Message)
    requires IsSelection(ms, opts, target, sel) && WellFormed(sel, |ms|)
    ensures SumTokens(Replaced(ms, sel, checkpoint)) ==
            SumTokens(ms) - sel.tokens + EstimateMessageTokens(checkpoint)
  {
    var k := SelectionShape(ms, opts, target, sel);
    ParsedChain(ms, FirstIndex(ms, opts), opts);
    KeptTokens(ms, FirstIndex(ms, opts), opts, TranscriptBlocks(ms, opts), k);
    SplitTokens(ms, 0, sel.start, |ms|);
    SplitTokens(ms, sel.start, sel.end, |ms|);
    assert ms[0..|ms|] == ms && ms[0..sel.start] == ms[..sel.start] && ms[sel.end..|ms|] == ms[sel.end..];
    ReplacedTokens(ms[..sel.start], checkpoint, Pick(ms, sel.kept), ms[sel.end..]);
  }

  lemma ReplacedTokens(before: seq<Message>, checkpoint: Message, kept: seq<Message>, rest: seq<Message>)
    ensures SumTokens(before + [checkpoint] + kept + rest) ==
            SumTokens(before) + EstimateMessageTokens(checkpoint) + SumTokens(kept) + SumTokens(rest)
  {
    SumTokensConcat(before + [checkpoint] + kept, rest);
    SumTokensConcat(before + [checkpoint], kept);
    SumTokensConcat(before, [checkpoint]);
    SumOfOne(checkpoint);
  }

  // ----- Parsing the compacted transcript again -----

  function SingleBlocks(ms: seq<Message>, i: int, n: nat, opts: Options): (blocks: seq<Block>)
    requires 0 <= i && i + n <= |ms|
    ensures |blocks| == n
  {
    seq(n, k requires 0 <= k < n => SingleBlock(ms, i + k, opts))
  }

  lemma Prepend(b: Block, bs: seq<Block>, rest: seq<Block>)
    ensures [b] + (bs + rest) == ([b] + bs) + rest
  {
  }

  lemma SinglesCons(ms: seq<Message>, i: int, n: nat, opts: Options)
    requires 0 < n && 0 <= i && i + n <= |ms|
    ensures SingleBlocks(ms, i, n, opts) == [SingleBlock(ms, i, opts)] + SingleBlocks(ms, i + 1, n - 1, opts)
  {
  }

  ghost predicate SinglesFirst(ms: seq<Message>, i: int, n: nat, opts: Options) {
    && 0 <= i && i + n <= |ms|
    && BlocksFrom(ms, i, opts) == SingleBlocks(ms, i, n, opts) + BlocksFrom(ms, i + n, opts)
  }

  lemma SinglesStep(ms: seq<Message>, i: int, n: nat, opts: Options)
    requires 0 < n && 0 <= i < |ms| && !HasToolCalls(ms[i]) && SinglesFirst(ms, i + 1, n - 1, opts)
    ensures SinglesFirst(ms, i, n, opts)
  {
    SinglesCons(ms, i, n, opts);
    ParseSingle(ms, i, opts);
    Prepend(SingleBlock(ms, i, opts), SingleBlocks(ms, i + 1, n - 1, opts), BlocksFrom(ms, i + n, opts));
  }

  lemma {:induction false} ParseSingles(ms: seq<Message>, i: int, n: nat, opts: Options)
    requires 0 <= i && i + n <= |ms|
    requires forall j :: i <= j < i + n ==> !HasToolCalls(ms[j])
    ensures SinglesFirst(ms, i, n, opts)
    decreases n
  {
    if n > 0 {
      ParseSingles(ms, i + 1, n - 1, opts);
      SinglesStep(ms, i, n, opts);
    } else {
      assert SingleBlocks(ms, i, 0, opts) == [];
    }
  }

  lemma ParseSingle(ms: seq<Message>, i: int, opts: Options)
    requires 0 <= i < |ms| && !HasToolCalls(ms[i])
    ensures BlocksFrom(ms, i, opts) == [SingleBlock(ms, i, opts)] + BlocksFrom(ms, i + 1, opts)
  {
  }

  // The checkpoint and the kept messages are no part of any exchange, and the rest is as before.
  ghost predicate CompactedFrom(ms: seq<Message>, sel: Selected, compacted: seq<Message>) {
    && 0 <= sel.start < sel.end <= |ms|
    && |compacted| == |ms| + 1 - Removed(sel)
    && sel.start + 1 + |sel.kept| <= |compacted|
    && (forall j :: sel.start <= j < sel.start + 1 + |sel.kept| ==>
          !HasToolCalls(compacted[j]) && !compacted[j].role.Tool?)
    && forall j :: sel.end <= j < |ms| ==> ms[j] == compacted[j + (1 - Removed(sel))]
  }

  lemma CompactedShape(ms: seq<Message>, opts: Options, target: int, sel: Selected, checkpoint: Message)
    requires IsSelection(ms, opts, target, sel) && WellFormed(sel, |ms|) && IsCheckpointMessage(checkpoint)
    ensures CompactedFrom(ms, sel, Replaced(ms, sel, checkpoint))
  {
    var k := SelectionShape(ms, opts, target, sel);
    var compacted := Replaced(ms, sel, checkpoint);
    ReplacedLength(ms, sel, checkpoint);
    forall j | sel.start <= j < sel.start + 1 + |sel.kept|
      ensures !HasToolCalls(compacted[j]) && !compacted[j].role.Tool?
    {
      PutInAt(ms, sel, checkpoint, j - sel.start);
    }
    forall j | sel.end <= j < |ms| ensures ms[j] == compacted[j + (1 - Removed(sel))] {
      RestAt(ms, sel, checkpoint, j);
    }
  }

  // What is put in: the checkpoint, and the kept messages behind it.
  lemma PutInAt(ms: seq<Message>, sel: Selected, checkpoint: Message, n: nat)
    requires WellFormed(sel, |ms|) && n <= |sel.kept|
    ensures |Replaced(ms, sel, checkpoint)| > sel.start + n
    ensures Replaced(ms, sel, checkpoint)[sel.start + n] == if n == 0 then checkpoint else ms[sel.kept[n - 1]]
  {
  }

  lemma RestAt(ms: seq<Message>, sel: Selected, checkpoint: Message, j: int)
    requires WellFormed(sel, |ms|) && sel.end <= j < |ms|
    ensures 0 <= j + (1 - Removed(sel)) < |Replaced(ms, sel, checkpoint)|
    ensures Replaced(ms, sel, checkpoint)[j + (1 - Removed(sel))] == ms[j]
  {
  }

  // The parse of a compacted transcript, for any option values that agree on what stays behind.
  lemma ReparseFrom(ms: seq<Message>, sel: Selected, compacted: seq<Message>, o1: Options, o2: Options)
    requires CompactedFrom(ms, sel, compacted)
    requires SameFrom(o1, o2, sel.end, 1 - Removed(sel))
    ensures BlocksFrom(compacted, sel.start, o2) ==
              SingleBlocks(compacted, sel.start, 1 + |sel.kept|, o2)
              + ShiftBlocks(BlocksFrom(ms, sel.end, o1), 1 - Removed(sel))
  {
    var n, d := 1 + |sel.kept|, 1 - Removed(sel);
    assert sel.start + n == sel.end + d;
    ParseSingles(compacted, sel.start, n, o2);
    BlocksShift(ms, compacted, sel.end, d, o1, o2);
    assert BlocksFrom(compacted, sel.start, o2) == SingleBlocks(compacted, sel.start, n, o2) + BlocksFrom(compacted, sel.end + d, o2);
  }

  // After compaction the transcript parses into the checkpoint, one block for each kept message, and
  // then exactly the blocks that were not selected, moved: no exchange is split, joined or cut short.
  lemma ReparseCompacted(
    ms: seq<Message>, opts: Options, target: int, sel: Selected, checkpoint: Message, newOpts: Options)
    returns (k: nat)
    requires IsSelection(ms, opts, target, sel) && WellFormed(sel, |ms|) && IsCheckpointMessage(checkpoint)
    requires newOpts.fixedMessageCount == opts.fixedMessageCount
    requires SameFrom(opts, newOpts, sel.end, 1 - Removed(sel))
    ensures k < |TranscriptBlocks(ms, opts)| && sel == SelectedAt(TranscriptBlocks(ms, opts), k, target)
    ensures var compacted := Replaced(ms, sel, checkpoint);
            TranscriptBlocks(compacted, newOpts) ==
              SingleBlocks(compacted, sel.start, 1 + |sel.kept|, newOpts)
              + ShiftBlocks(TranscriptBlocks(ms, opts)[k..], 1 - Removed(sel))
  {
    k := SelectionShape(ms, opts, target, sel);
    CompactedShape(ms, opts, target, sel, checkpoint);
    ReparseFrom(ms, sel, Replaced(ms, sel, checkpoint), opts, newOpts);
  }

  // ----- When the replacement is accepted -----

  lemma ShiftNoInvalid(blocks: seq<Block>, d: int)
    ensures NoInvalidTool(ShiftBlocks(blocks, d)) <==> NoInvalidTool(blocks)
  {
    var shifted := ShiftBlocks(blocks, d);
    assert forall k :: 0 <= k < |blocks| ==> shifted[k].reason == blocks[k].reason;
  }

  lemma NoInvalidConcat(a: seq<Block>, b: seq<Block>)
    ensures NoInvalidTool(a + b) <==> NoInvalidTool(a) && NoInvalidTool(b)
  {
    var c := a + b;
    assert forall k :: 0 <= k < |a| ==> c[k] == a[k];
    assert forall k :: 0 <= k < |b| ==> c[|a| + k] == b[k];
  }

  lemma CompactedValid(ms: seq<Message>, sel: Selected, compacted: seq<Message>, opts: Options)
    requires CompactedFrom(ms, sel, compacted) && SameFrom(opts, opts, sel.end, 1 - Removed(sel))
    ensures NoInvalidTool(BlocksFrom(compacted, sel.start, opts)) <==> NoInvalidTool(BlocksFrom(ms, sel.end, opts))
  {
    var n, rest := 1 + |sel.kept|, BlocksFrom(ms, sel.end, opts);
    ReparseFrom(ms, sel, compacted, opts, opts);
    SinglesNotInvalid(compacted, sel.start, n, opts);
    ShiftNoInvalid(rest, 1 - Removed(sel));
    NoInvalidConcat(SingleBlocks(compacted, sel.start, n, opts), ShiftBlocks(rest, 1 - Removed(sel)));
  }

  lemma BareSame(fixedMessageCount: int, i: int, d: int)
    ensures var bare := BareOptions(fixedMessageCount); SameFrom(bare, bare, i, d)
  {
  }

  lemma BareParse(ms: seq<Message>, sel: Selected, compacted: seq<Message>)
    requires CompactedFrom(ms, sel, compacted)
    ensures TranscriptBlocks(compacted, BareOptions(sel.start)) == BlocksFrom(compacted, sel.start, BareOptions(sel.start))
  {
  }

  // The final check of a replacement passes exactly when the messages that stay after the selection
  // had no invalid exchange to begin with: the compaction itself never makes one.
  lemma ReplacementAccepted(
    ms: seq<Message>, opts: Options, target: int, sel: Selected, checkpoint: Message)
    requires IsSelection(ms, opts, target, sel) && WellFormed(sel, |ms|) && IsCheckpointMessage(checkpoint)
    ensures NoInvalidTool(TranscriptBlocks(Replaced(ms, sel, checkpoint), BareOptions(opts.fixedMessageCount)))
            <==> NoInvalidTool(BlocksFrom(ms, sel.end, BareOptions(opts.fixedMessageCount)))
  {
    var k := SelectionShape(ms, opts, target, sel);
    CompactedShape(ms, opts, target, sel, checkpoint);
    BareSame(sel.start, sel.end, 1 - Removed(sel));
    BareParse(ms, sel, Replaced(ms, sel, checkpoint));
    CompactedValid(ms, sel, Replaced(ms, sel, checkpoint), BareOptions(opts.fixedMessageCount));
  }

  lemma SinglesNotInvalid(ms: seq<Message>, i: int, n: nat, opts: Options)
    requires 0 <= i && i + n <= |ms|
    requires forall j :: i <= j < i + n ==> !ms[j].role.Tool?
    ensures NoInvalidTool(SingleBlocks(ms, i, n, opts))
  {
    var blocks := SingleBlocks(ms, i, n, opts);
    forall k | 0 <= k < |blocks| ensures !blocks[k].reason.InvalidTool? {
      assert blocks[k] == SingleBlock(ms, i + k, opts) && !ms[i + k].role.Tool?;
    }
  }

  // What the final check really says of one block: an image anywhere in an exchange hides that the
  // exchange is incomplete.
  lemma InvalidToolMeans(ms: seq<Message>, i: int, fixedMessageCount: int)
    requires 0 <= i < |ms|
    ensures BlockAt(ms, i, BareOptions(fixedMessageCount)).reason.InvalidTool? <==>
            if HasToolCalls(ms[i]) then
              && !CompleteExchange(ms[i].toolCalls, ms[i + 1..ExchangeEnd(ms, i)])
              && forall j :: i <= j < ExchangeEnd(ms, i) ==> !HasImagePart(ms[j])
            else ms[i].role.Tool?
  {
    var bare := BareOptions(fixedMessageCount);
    if HasToolCalls(ms[i]) {
      forall j | i <= j < ExchangeEnd(ms, i) ensures Obstacle(ms, j, bare) <==> HasImagePart(ms[j]) {
      }
    }
  }

  // A transcript with an unanswered call that passes the check, because its assistant message holds
  // an image.
  lemma ImageHidesIncompleteExchange()
    ensures exists ms: seq<Message> ::
      && |ms| == 1 && HasToolCalls(ms[0]) && !CompleteExchange(ms[0].toolCalls, ms[1..])
      && NoInvalidTool(TranscriptBlocks(ms, BareOptions(0)))
  {
    var m := Message(Assistant, "", [ImagePart], [LlmCall("a", "t", "")], "", 0);
    var ms := [m];
    var bare := BareOptions(0);
    InvalidToolMeans(ms, 0, 0);
    assert ImagePart in m.parts;
    assert HasImagePart(ms[0]);
    assert |CallIds(m.toolCalls)| == 1 && CallIds(m.toolCalls)[0] in Elements(CallIds(m.toolCalls));
    assert |ResultIds(ms[1..])| == 0;
    assert BlocksFrom(ms, 0, bare) == [BlockAt(ms, 0, bare)] + BlocksFrom(ms, 1, bare);
    assert TranscriptBlocks(ms, bare) == [BlockAt(ms, 0, bare)];
  }
}
