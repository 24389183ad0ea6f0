/**
 Parsing a transcript into blocks (agent/context_compaction_blocks.go). A block is one message, or
 an assistant message with tool calls together with the run of tool messages after it.
 */
module Blocks {
  import opened Text
  import opened Transcript

  datatype Options = Options(
    metaMessageIndex: Option<int>,
    contextMessageCount: int,
    fixedMessageCount: int,
    pendingToolCallIds: set<string>,
    protectedIndexes: set<int>,
    preparedImageIndexes: set<int>)

  datatype Reason = NoReason | InvalidTool | PendingTool | Protected | UnpreparedImage

  datatype Block = Block(start: int, end: int, tokens: nat, meta: bool, compactable: bool, reason: Reason)

  predicate IsMeta(opts: Options, i: int) {
    opts.metaMessageIndex.Some? &&
    opts.metaMessageIndex.value <= i <= opts.metaMessageIndex.value + opts.contextMessageCount
  }

  // ----- Tool exchanges -----

  predicate NoDuplicates<T(==)>(s: seq<T>) {
    forall i, j :: 0 <= i < j < |s| ==> s[i] != s[j]
  }

  function Elements<T>(s: seq<T>): set<T> {
    set x | x in s
  }

  function CallIds(calls: seq<LlmCall>): (ids: seq<string>)
    ensures |ids| == |calls|
  {
    seq(|calls|, i requires 0 <= i < |calls| => TrimSpace(calls[i].id))
  }

  function ResultIds(results: seq<Message>): (ids: seq<string>)
    ensures |ids| == |results|
  {
    seq(|results|, i requires 0 <= i < |results| => TrimSpace(results[i].toolCallId))
  }

  // What the chat protocol asks of an exchange: the calls have distinct non-empty IDs, and the
  // tool messages answer each of them exactly once.
  predicate CompleteExchange(calls: seq<LlmCall>, results: seq<Message>) {
    && "" !in CallIds(calls)
    && NoDuplicates(CallIds(calls))
    && NoDuplicates(ResultIds(results))
    && Elements(ResultIds(results)) == Elements(CallIds(calls))
  }

  // A call with a non-empty ID is among the calls a paused run still has to make.
  predicate AnyPending(calls: seq<LlmCall>, pending: set<string>) {
    (Elements(CallIds(calls)) - {""}) * pending != {}
  }

  // The number of leading tool messages.
  function ToolRun(ms: seq<Message>): (n: nat)
    ensures n <= |ms|
    ensures forall i :: 0 <= i < n ==> ms[i].role.Tool?
    ensures n < |ms| ==> !ms[n].role.Tool?
  {
    if ms != [] && ms[0].role.Tool? then 1 + ToolRun(ms[1..]) else 0
  }

  lemma ToolRunIs(ms: seq<Message>, n: nat)
    requires n <= |ms| && forall i :: 0 <= i < n ==> ms[i].role.Tool?
    requires n < |ms| ==> !ms[n].role.Tool?
    ensures ToolRun(ms) == n
  {
  }

  predicate Obstacle(ms: seq<Message>, i: int, opts: Options)
    requires 0 <= i < |ms|
  {
    i in opts.protectedIndexes || (HasImagePart(ms[i]) && i !in opts.preparedImageIndexes)
  }

  // Why the first message in [i, end) that cannot be compacted cannot be, if there is one.
  function FirstObstacle(ms: seq<Message>, i: int, end: int, opts: Options): (reason: Reason)
    requires 0 <= i <= end <= |ms|
    ensures reason.NoReason? <==> forall j :: i <= j < end ==> !Obstacle(ms, j, opts)
    ensures !reason.InvalidTool? && !reason.PendingTool?
    decreases end - i
  {
    if i == end then NoReason
    else if Obstacle(ms, i, opts) then
      if i in opts.protectedIndexes then Protected else UnpreparedImage
    else FirstObstacle(ms, i + 1, end, opts)
  }

  function ExchangeEnd(ms: seq<Message>, start: int): (end: int)
    requires 0 <= start < |ms|
    ensures start < end <= |ms|
    ensures end < |ms| ==> !ms[end].role.Tool?
  {
    start + 1 + ToolRun(ms[start + 1..])
  }

  function ExchangeReason(ms: seq<Message>, start: int, end: int, opts: Options): Reason
    requires 0 <= start < end <= |ms|
  {
    var obstacle := FirstObstacle(ms, start, end, opts);
    if !obstacle.NoReason? then obstacle
    else if AnyPending(ms[start].toolCalls, opts.pendingToolCallIds) then PendingTool
    else if !CompleteExchange(ms[start].toolCalls, ms[start + 1..end]) then InvalidTool
    else NoReason
  }

  function ExchangeBlock(ms: seq<Message>, start: int, opts: Options): Block
    requires 0 <= start < |ms|
  {
    var end := ExchangeEnd(ms, start);
    var reason := ExchangeReason(ms, start, end, opts);
    Block(start, end, SumTokens(ms[start..end]), false, reason.NoReason?, reason)
  }

  function SingleReason(ms: seq<Message>, i: int, opts: Options): Reason
    requires 0 <= i < |ms|
  {
    if ms[i].role.Tool? then InvalidTool
    else if i in opts.protectedIndexes then Protected
    else if HasImagePart(ms[i]) && i !in opts.preparedImageIndexes then UnpreparedImage
    else NoReason
  }

  function SingleBlock(ms: seq<Message>, i: int, opts: Options): Block
    requires 0 <= i < |ms|
  {
    var reason := SingleReason(ms, i, opts);
    Block(i, i + 1, if IsMeta(opts, i) then 0 else EstimateMessageTokens(ms[i]),
          IsMeta(opts, i), reason.NoReason?, reason)
  }

  function BlockAt(ms: seq<Message>, i: int, opts: Options): (block: Block)
    requires 0 <= i < |ms|
    ensures block.start == i < block.end <= |ms|
    ensures block.compactable <==> block.reason.NoReason?
  {
    if HasToolCalls(ms[i]) then ExchangeBlock(ms, i, opts) else SingleBlock(ms, i, opts)
  }

  function BlocksFrom(ms: seq<Message>, i: int, opts: Options): seq<Block>
    requires 0 <= i <= |ms|
    decreases |ms| - i
  {
    if i == |ms| then []
    else
      var block := BlockAt(ms, i, opts);
      [block] + BlocksFrom(ms, block.end, opts)
  }

  function FirstIndex(ms: seq<Message>, opts: Options): int {
    if opts.fixedMessageCount < 0 then 0
    else if opts.fixedMessageCount > |ms| then |ms|
    else opts.fixedMessageCount
  }

  function TranscriptBlocks(ms: seq<Message>, opts: Options): seq<Block> {
    BlocksFrom(ms, FirstIndex(ms, opts), opts)
  }

  // ----- What the reasons come to -----

  // A message without tool calls can be compacted exactly when it is no stray result, not protected,
  // and holds no image that is not prepared.
  lemma SingleCompactable(ms: seq<Message>, i: int, opts: Options)
    requires 0 <= i < |ms| && !(ms[i].role.Assistant? && ms[i].toolCalls != [])
    ensures BlockAt(ms, i, opts).compactable <==>
            && !ms[i].role.Tool? && i !in opts.protectedIndexes
            && (HasImagePart(ms[i]) ==> i in opts.preparedImageIndexes)
    ensures BlockAt(ms, i, opts).reason.InvalidTool? <==> ms[i].role.Tool?
    ensures BlockAt(ms, i, opts).reason.Protected? <==> !ms[i].role.Tool? && i in opts.protectedIndexes
    ensures BlockAt(ms, i, opts).end == i + 1
  {
  }

  // j is the first message of [i, end) that stands in the way.
  predicate FirstInWay(ms: seq<Message>, i: int, end: int, opts: Options, j: int) {
    && 0 <= i <= j < end <= |ms|
    && (j in opts.protectedIndexes || (HasImagePart(ms[j]) && j !in opts.preparedImageIndexes))
    && forall k :: i <= k < j ==> k !in opts.protectedIndexes && (HasImagePart(ms[k]) ==> k in opts.preparedImageIndexes)
  }

  lemma {:induction false} ObstacleIs(ms: seq<Message>, i: int, end: int, opts: Options, j: int)
    requires FirstInWay(ms, i, end, opts, j)
    ensures FirstObstacle(ms, i, end, opts) == if j in opts.protectedIndexes then Protected else UnpreparedImage
    decreases end - i
  {
    if i < j {
      ObstacleIs(ms, i + 1, end, opts, j);
    }
  }

  lemma {:induction false} MultisetOf<T>(s: seq<T>, x: T)
    requires NoDuplicates(s)
    ensures multiset(s)[x] == if x in Elements(s) then 1 else 0
  {
    if s != [] {
      var init := s[..|s| - 1];
      assert s == init + [s[|s| - 1]];
      MultisetOf(init, x);
    }
  }

  lemma TwiceCounts<T>(s: seq<T>, i: int, j: int)
    requires 0 <= i < j < |s|
    ensures s[i] == s[j] ==> multiset(s)[s[i]] >= 2
  {
    assert s == s[..i] + [s[i]] + s[i + 1..j] + [s[j]] + s[j + 1..];
  }

  lemma OnceEach<T>(s: seq<T>)
    requires forall x :: x in s ==> multiset(s)[x] == 1
    ensures NoDuplicates(s)
  {
    forall i, j | 0 <= i < j < |s| ensures s[i] != s[j] {
      TwiceCounts(s, i, j);
    }
  }

  // An exchange is complete exactly when its calls have distinct IDs, none blank, and the results
  // answer each of them once, in whatever order.
  lemma CompleteMeans(calls: seq<LlmCall>, results: seq<Message>)
    ensures CompleteExchange(calls, results) <==>
            && (forall i :: 0 <= i < |calls| ==> TrimSpace(calls[i].id) != "")
            && (forall i, j :: 0 <= i < j < |calls| ==> TrimSpace(calls[i].id) != TrimSpace(calls[j].id))
            && multiset(ResultIds(results)) == multiset(CallIds(calls))
  {
    var ids, answered := CallIds(calls), ResultIds(results);
    assert "" in ids <==> exists i :: 0 <= i < |calls| && TrimSpace(calls[i].id) == "" by {
      if i :| 0 <= i < |calls| && TrimSpace(calls[i].id) == "" {
        assert ids[i] == "";
      }
    }
    assert NoDuplicates(ids) <==> forall i, j :: 0 <= i < j < |calls| ==> TrimSpace(calls[i].id) != TrimSpace(calls[j].id) by {
      assert forall i :: 0 <= i < |calls| ==> ids[i] == TrimSpace(calls[i].id);
    }
    if NoDuplicates(ids) {
      SameOnce(answered, ids);
    }
  }

  lemma SameOnce<T>(a: seq<T>, b: seq<T>)
    requires NoDuplicates(b)
    ensures NoDuplicates(a) && Elements(a) == Elements(b) <==> multiset(a) == multiset(b)
  {
    if NoDuplicates(a) && Elements(a) == Elements(b) {
      forall x ensures multiset(a)[x] == multiset(b)[x] {
        MultisetOf(a, x);
        MultisetOf(b, x);
      }
    }
    if multiset(a) == multiset(b) {
      forall x | x in a ensures multiset(a)[x] == 1 {
        assert x in multiset(b);
        MultisetOf(b, x);
      }
      OnceEach(a);
      assert forall x :: x in a <==> x in multiset(a);
      assert forall x :: x in b <==> x in multiset(b);
    }
  }

  // An exchange can be compacted exactly when none of its messages is protected or holds an image that
  // is not prepared, none of its calls is pending, and it is complete.
  lemma ExchangeCompactableMeans(ms: seq<Message>, start: int, opts: Options)
    requires 0 <= start < |ms| && HasToolCalls(ms[start])
    ensures var end := BlockAt(ms, start, opts).end;
            && (forall j :: start < j < end ==> ms[j].role.Tool?) && (end < |ms| ==> !ms[end].role.Tool?)
            && (BlockAt(ms, start, opts).compactable <==>
                  && (forall j :: start <= j < end ==> j !in opts.protectedIndexes && (HasImagePart(ms[j]) ==> j in opts.preparedImageIndexes))
                  && (forall i :: 0 <= i < |ms[start].toolCalls| && TrimSpace(ms[start].toolCalls[i].id) != "" ==>
                        TrimSpace(ms[start].toolCalls[i].id) !in opts.pendingToolCallIds)
                  && CompleteExchange(ms[start].toolCalls, ms[start + 1..end]))
  {
    var calls, end := ms[start].toolCalls, ExchangeEnd(ms, start);
    forall j | start < j < end ensures ms[j].role.Tool? {
      assert ms[j] == ms[start + 1..][j - start - 1];
    }
    assert forall j :: start <= j < end ==>
      (!Obstacle(ms, j, opts) <==> j !in opts.protectedIndexes && (HasImagePart(ms[j]) ==> j in opts.preparedImageIndexes));
    PendingMeans(calls, opts.pendingToolCallIds);
  }

  lemma PendingMeans(calls: seq<LlmCall>, pending: set<string>)
    ensures !AnyPending(calls, pending) <==>
            forall i :: 0 <= i < |calls| && TrimSpace(calls[i].id) != "" ==> TrimSpace(calls[i].id) !in pending
  {
    var ids := CallIds(calls);
    if i :| 0 <= i < |calls| && TrimSpace(calls[i].id) != "" && TrimSpace(calls[i].id) in pending {
      assert ids[i] in (Elements(ids) - {""}) * pending;
    }
    if AnyPending(calls, pending) {
      var id :| id in (Elements(ids) - {""}) * pending;
      var i :| 0 <= i < |ids| && ids[i] == id;
    }
  }

  // ----- The parser -----

  lemma ElementsSnoc<T>(s: seq<T>, x: T)
    ensures Elements(s + [x]) == Elements(s) + {x}
    ensures NoDuplicates(s + [x]) <==> NoDuplicates(s) && x !in Elements(s)
  {
    var t := s + [x];
    assert t[|s|] == x && forall i :: 0 <= i < |s| ==> t[i] == s[i];
    if NoDuplicates(t) {
      assert forall i :: 0 <= i < |s| ==> t[i] != t[|s|];
    }
  }

  // The call IDs seen so far.
  ghost predicate Collected(ids: seq<string>, pendingIds: set<string>, callIds: set<string>, valid: bool, pending: bool)
  {
    && callIds == Elements(ids) - {""}
    && (valid <==> "" !in Elements(ids) && NoDuplicates(ids))
    && (pending <==> callIds * pendingIds != {})
  }

  lemma CollectStep(ids: seq<string>, id: string, pendingIds: set<string>, callIds: set<string>, valid: bool,
        pending: bool)
    requires Collected(ids, pendingIds, callIds, valid, pending)
    ensures id == "" || id in callIds ==> Collected(ids + [id], pendingIds, callIds, false, pending)
    ensures id != "" && id !in callIds ==>
      Collected(ids + [id], pendingIds, callIds + {id}, valid, pending || id in pendingIds)
  {
    ElementsSnoc(ids, id);
    if id in callIds || id == "" {
      assert Elements(ids + [id]) - {""} == callIds;
    } else {
      assert Elements(ids + [id]) - {""} == callIds + {id};
      assert (callIds + {id}) * pendingIds == callIds * pendingIds + (if id in pendingIds then {id} else {});
    }
  }

  lemma CallIdsNext(calls: seq<LlmCall>, i: nat)
    requires i < |calls|
    ensures CallIds(calls)[..i + 1] == CallIds(calls)[..i] + [TrimSpace(calls[i].id)]
  {
  }

  method CollectCallIds(calls: seq<LlmCall>, pendingIds: set<string>)
    returns (callIds: set<string>, valid: bool, pending: bool)
    ensures callIds == Elements(CallIds(calls)) - {""}
    ensures valid <==> "" !in Elements(CallIds(calls)) && NoDuplicates(CallIds(calls))
    ensures pending <==> AnyPending(calls, pendingIds)
  {
    callIds, valid, pending := {}, true, false;
    ghost var ids: seq<string> := [];
    for i := 0 to |calls|
      invariant ids == CallIds(calls)[..i] && Collected(ids, pendingIds, callIds, valid, pending)
    {
      var id := TrimSpace(calls[i].id);
      CallIdsNext(calls, i);
      CollectStep(ids, id, pendingIds, callIds, valid, pending);
      ids := ids + [id];
      if id == "" {
        valid := false;
        continue;
      }
      if id in callIds {
        valid := false;
        continue;
      }
      callIds := callIds + {id};
      if id in pendingIds {
        pending := true;
      }
    }
    assert ids == CallIds(calls);
  }

  // One more tool message of an exchange.
  lemma ResultStep(ms: seq<Message>, start: int, end: int)
    requires 0 <= start <= end < |ms| && ms[end].role.Tool?
    ensures ToolRun(ms[end..]) == 1 + ToolRun(ms[end + 1..])
    ensures ResultIds(ms[start..end + 1]) == ResultIds(ms[start..end]) + [TrimSpace(ms[end].toolCallId)]
  {
    assert ms[end..][1..] == ms[end + 1..];
    assert ms[start..end + 1] == ms[start..end] + [ms[end]];
  }

  // The answers seen so far, all valid or not, and the calls they answer.
  ghost predicate Matched(ids: seq<string>, callIds: set<string>, valid: bool, resultIds: set<string>) {
    && (valid <==> Elements(ids) <= callIds && NoDuplicates(ids))
    && resultIds == Elements(ids) * callIds
  }

  lemma MatchStep(ids: seq<string>, id: string, callIds: set<string>, valid: bool, resultIds: set<string>)
    requires Matched(ids, callIds, valid, resultIds)
    ensures id in callIds && id !in resultIds ==> Matched(ids + [id], callIds, valid, resultIds + {id})
    ensures id !in callIds || id in resultIds ==> Matched(ids + [id], callIds, false, resultIds)
  {
    ElementsSnoc(ids, id);
  }

  method MatchResults(ms: seq<Message>, start: int, callIds: set<string>)
    returns (end: int, valid: bool, resultIds: set<string>)
    requires 0 <= start < |ms| && "" !in callIds
    ensures end == ExchangeEnd(ms, start)
    ensures Matched(ResultIds(ms[start + 1..end]), callIds, valid, resultIds)
  {
    end, valid, resultIds := start + 1, true, {};
    ghost var ids := ResultIds(ms[start + 1..end]);
    while end < |ms| && ms[end].role.Tool?
      invariant start < end <= |ms|
      invariant ToolRun(ms[start + 1..]) == end - (start + 1) + ToolRun(ms[end..])
      invariant ids == ResultIds(ms[start + 1..end])
      invariant Matched(ids, callIds, valid, resultIds)
    {
      var id := TrimSpace(ms[end].toolCallId);
      ResultStep(ms, start + 1, end);
      valid, resultIds := MatchOne(id, callIds, valid, resultIds, ids);
      ids := ids + [id];
      end := end + 1;
    }
  }

  // One more result: it must answer a call that none before it has.
  method MatchOne(id: string, callIds: set<string>, validBefore: bool, answered: set<string>, ghost ids: seq<string>)
    returns (valid: bool, resultIds: set<string>)
    requires "" !in callIds && Matched(ids, callIds, validBefore, answered)
    ensures Matched(ids + [id], callIds, valid, resultIds)
  {
    MatchStep(ids, id, callIds, validBefore, answered);
    valid, resultIds := validBefore, answered;
    if id !in callIds || id == "" {
      valid := false;
    } else if id in resultIds {
      valid := false;
    } else {
      resultIds := resultIds + {id};
    }
  }

  lemma EqualSizeSubset<T>(a: set<T>, b: set<T>)
    requires a <= b
    ensures |a| == |b| <==> a == b
  {
    assert b == a + (b - a);
  }

  method MarkObstacle(ms: seq<Message>, block: Block, opts: Options) returns (marked: Block)
    requires 0 <= block.start <= block.end <= |ms|
    ensures var obstacle := FirstObstacle(ms, block.start, block.end, opts);
      marked == if obstacle.NoReason? then block else block.(compactable := false, reason := obstacle)
  {
    var i := block.start;
    while i < block.end
      invariant block.start <= i <= block.end
      invariant FirstObstacle(ms, block.start, block.end, opts) == FirstObstacle(ms, i, block.end, opts)
    {
      if i in opts.protectedIndexes {
        return block.(compactable := false, reason := Protected);
      }
      if HasImagePart(ms[i]) && i !in opts.preparedImageIndexes {
        return block.(compactable := false, reason := UnpreparedImage);
      }
      i := i + 1;
    }
    return block;
  }

  method BuildToolExchangeBlock(ms: seq<Message>, start: int, opts: Options)
    returns (block: Block, next: int)
    requires 0 <= start < |ms|
    ensures block == ExchangeBlock(ms, start, opts) && next == block.end
  {
    var calls := ms[start].toolCalls;
    var callIds, validCalls, pending := CollectCallIds(calls, opts.pendingToolCallIds);
    var end, validResults, resultIds := MatchResults(ms, start, callIds);
    EqualSizeSubset(resultIds, callIds);
    var valid := validCalls && validResults && |resultIds| == |callIds|;
    assert valid <==> CompleteExchange(calls, ms[start + 1..end]);
    var tokens := EstimateMessagesTokens(ms[start..end]);
    block := Block(start, end, tokens, false, valid, if valid then NoReason else InvalidTool);
    if pending {
      block := block.(compactable := false, reason := PendingTool);
    }
    block := MarkObstacle(ms, block, opts);
    next := end;
  }

  method BuildSingleBlock(ms: seq<Message>, i: int, opts: Options) returns (block: Block)
    requires 0 <= i < |ms|
    ensures block == SingleBlock(ms, i, opts)
  {
    block := Block(i, i + 1, EstimateMessageTokens(ms[i]), false, true, NoReason);
    if IsMeta(opts, i) {
      block := block.(meta := true, tokens := 0);
    }
    if ms[i].role.Tool? {
      block := block.(compactable := false, reason := InvalidTool);
    } else if i in opts.protectedIndexes {
      block := block.(compactable := false, reason := Protected);
    } else if HasImagePart(ms[i]) && i !in opts.preparedImageIndexes {
      block := block.(compactable := false, reason := UnpreparedImage);
    }
  }

  method BuildBlock(ms: seq<Message>, i: int, opts: Options) returns (block: Block)
    requires 0 <= i < |ms|
    ensures block == BlockAt(ms, i, opts)
  {
    if HasToolCalls(ms[i]) {
      var next;
      block, next := BuildToolExchangeBlock(ms, i, opts);
    } else {
      block := BuildSingleBlock(ms, i, opts);
    }
  }

  lemma ParseStep(ms: seq<Message>, i: int, opts: Options, blocks: seq<Block>)
    requires 0 <= i < |ms|
    ensures var block := BlockAt(ms, i, opts);
            blocks + BlocksFrom(ms, i, opts) == blocks + [block] + BlocksFrom(ms, block.end, opts)
  {
  }

  method BuildTranscriptBlocks(ms: seq<Message>, opts: Options) returns (blocks: seq<Block>)
    ensures blocks == TranscriptBlocks(ms, opts)
  {
    var start := opts.fixedMessageCount;
    if start < 0 {
      start := 0;
    }
    if start >= |ms| {
      return [];
    }
    blocks := [];
    var i := start;
    while i < |ms|
      invariant start <= i <= |ms|
      invariant BlocksFrom(ms, start, opts) == blocks + BlocksFrom(ms, i, opts)
      decreases |ms| - i
    {
      var block := BuildBlock(ms, i, opts);
      ParseStep(ms, i, opts, blocks);
      blocks, i := blocks + [block], block.end;
    }
  }

  // ----- What the blocks are -----

  // The block boundaries of a parse started at i.
  predicate Tiles(blocks: seq<Block>, i: int, n: int) {
    if blocks == [] then i == n
    else blocks[0].start == i < blocks[0].end <= n && Tiles(blocks[1..], blocks[0].end, n)
  }

  // The blocks cut [i, |ms|) into consecutive non-empty pieces.
  lemma {:induction false} BlocksTile(ms: seq<Message>, i: int, opts: Options)
    requires 0 <= i <= |ms|
    ensures Tiles(BlocksFrom(ms, i, opts), i, |ms|)
    decreases |ms| - i
  {
    if i < |ms| {
      BlocksTile(ms, BlockAt(ms, i, opts).end, opts);
    }
  }

  // The blocks follow each other from i on, each one what the parser makes of its first message.
  predicate Chain(ms: seq<Message>, opts: Options, i: int, blocks: seq<Block>) {
    && (blocks != [] ==> blocks[0].start == i)
    && (forall k :: 0 < k < |blocks| ==> blocks[k].start == blocks[k - 1].end)
    && forall k :: 0 <= k < |blocks| ==> 0 <= blocks[k].start < |ms| && blocks[k] == BlockAt(ms, blocks[k].start, opts)
  }

  lemma {:induction false} ParsedChain(ms: seq<Message>, i: int, opts: Options)
    requires 0 <= i <= |ms|
    ensures Chain(ms, opts, i, BlocksFrom(ms, i, opts))
    decreases |ms| - i
  {
    if i < |ms| {
      var first := BlockAt(ms, i, opts);
      ParsedChain(ms, first.end, opts);
    }
  }

  // From block k on, the blocks are those of a parse started there.
  lemma {:induction false} ParsedSuffix(ms: seq<Message>, i: int, opts: Options, k: nat)
    requires 0 <= i <= |ms| && k < |BlocksFrom(ms, i, opts)|
    ensures var b := BlocksFrom(ms, i, opts)[k];
            && 0 <= b.start < |ms|
            && BlocksFrom(ms, i, opts)[k..] == BlocksFrom(ms, b.start, opts)
    decreases k
  {
    if k > 0 {
      var first := BlockAt(ms, i, opts);
      ParsedSuffix(ms, first.end, opts, k - 1);
      assert BlocksFrom(ms, i, opts)[k..] == BlocksFrom(ms, first.end, opts)[k - 1..];
    }
  }

  lemma {:induction false} LastBlockEnds(ms: seq<Message>, i: int, opts: Options)
    requires 0 <= i < |ms|
    ensures var bs := BlocksFrom(ms, i, opts); bs != [] && bs[|bs| - 1].end == |ms|
    decreases |ms| - i
  {
    var first := BlockAt(ms, i, opts);
    if first.end < |ms| {
      LastBlockEnds(ms, first.end, opts);
    }
  }

  // ----- Parsing depends only on the suffix -----

  function ShiftBlock(b: Block, d: int): Block {
    b.(start := b.start + d, end := b.end + d)
  }

  function ShiftBlocks(bs: seq<Block>, d: int): (shifted: seq<Block>)
    ensures |shifted| == |bs|
  {
    seq(|bs|, k requires 0 <= k < |bs| => ShiftBlock(bs[k], d))
  }

  // The two option values say the same about an index in the first transcript and the index d further
  // in the second ...
  ghost predicate SameAt(o1: Options, o2: Options, j: int, d: int) {
    && (j in o1.protectedIndexes <==> j + d in o2.protectedIndexes)
    && (j in o1.preparedImageIndexes <==> j + d in o2.preparedImageIndexes)
    && (IsMeta(o1, j) <==> IsMeta(o2, j + d))
  }

  // ... and about every index from i on.
  ghost predicate SameFrom(o1: Options, o2: Options, i: int, d: int) {
    && o1.pendingToolCallIds == o2.pendingToolCallIds
    && forall j :: i <= j ==> SameAt(o1, o2, j, d)
  }

  lemma {:induction false} FirstObstacleShift(m1: seq<Message>, m2: seq<Message>, i: int, end: int, d: int,
        o1: Options, o2: Options)
    requires 0 <= i <= end <= |m1| && 0 <= i + d && |m1| + d == |m2|
    requires forall j :: i <= j < |m1| ==> m1[j] == m2[j + d]
    requires SameFrom(o1, o2, i, d)
    ensures FirstObstacle(m1, i, end, o1) == FirstObstacle(m2, i + d, end + d, o2)
    decreases end - i
  {
    if i < end {
      assert m1[i] == m2[i + d] && SameAt(o1, o2, i, d);
      FirstObstacleShift(m1, m2, i + 1, end, d, o1, o2);
    }
  }

  lemma SameSlice(m1: seq<Message>, m2: seq<Message>, i: int, end: int, d: int)
    requires 0 <= i < end <= |m1| && 0 <= i + d && |m1| + d == |m2|
    requires forall j :: i <= j < |m1| ==> m1[j] == m2[j + d]
    ensures m1[i + 1..] == m2[i + d + 1..]
    ensures m1[i + 1..end] == m2[i + d + 1..end + d] && m1[i..end] == m2[i + d..end + d]
  {
  }

  lemma ExchangeBlockShift(m1: seq<Message>, m2: seq<Message>, i: int, d: int, o1: Options, o2: Options)
    requires 0 <= i < |m1| && 0 <= i + d && |m1| + d == |m2|
    requires forall j :: i <= j < |m1| ==> m1[j] == m2[j + d]
    requires SameFrom(o1, o2, i, d)
    ensures ExchangeBlock(m2, i + d, o2) == ShiftBlock(ExchangeBlock(m1, i, o1), d)
  {
    var end := ExchangeEnd(m1, i);
    SameSlice(m1, m2, i, end, d);
    assert m2[i + d] == m1[i] && ExchangeEnd(m2, i + d) == end + d;
    FirstObstacleShift(m1, m2, i, end, d, o1, o2);
  }

  lemma BlockAtShift(m1: seq<Message>, m2: seq<Message>, i: int, d: int, o1: Options, o2: Options)
    requires 0 <= i < |m1| && 0 <= i + d && |m1| + d == |m2|
    requires forall j :: i <= j < |m1| ==> m1[j] == m2[j + d]
    requires SameFrom(o1, o2, i, d)
    ensures BlockAt(m2, i + d, o2) == ShiftBlock(BlockAt(m1, i, o1), d)
  {
    assert m1[i] == m2[i + d] && SameAt(o1, o2, i, d);
    if HasToolCalls(m1[i]) {
      ExchangeBlockShift(m1, m2, i, d, o1, o2);
    }
  }

  // Blocks that are the first one and the rest, both before and after the shift.
  lemma ShiftCons(block: Block, rest: seq<Block>, all: seq<Block>, shifted: Block, restShifted: seq<Block>,
        allShifted: seq<Block>, d: int)
    requires shifted == ShiftBlock(block, d) && restShifted == ShiftBlocks(rest, d)
    requires all == [block] + rest && allShifted == [shifted] + restShifted
    ensures allShifted == ShiftBlocks(all, d)
  {
  }

  lemma FirstBlock(ms: seq<Message>, i: int, opts: Options, block: Block)
    requires 0 <= i < |ms| && block == BlockAt(ms, i, opts)
    ensures i < block.end <= |ms|
    ensures BlocksFrom(ms, i, opts) == [block] + BlocksFrom(ms, block.end, opts)
  {
  }

  ghost predicate SameBlockAt(m1: seq<Message>, m2: seq<Message>, j: int, d: int, o1: Options, o2: Options) {
    0 <= j < |m1| && 0 <= j + d < |m2| && BlockAt(m2, j + d, o2) == ShiftBlock(BlockAt(m1, j, o1), d)
  }

  ghost predicate Shifted(m1: seq<Message>, m2: seq<Message>, i: int, d: int, o1: Options, o2: Options) {
    && 0 <= i <= |m1| && 0 <= i + d <= |m2|
    && BlocksFrom(m2, i + d, o2) == ShiftBlocks(BlocksFrom(m1, i, o1), d)
  }

  lemma ShiftedStep(m1: seq<Message>, m2: seq<Message>, i: int, d: int, o1: Options, o2: Options)
    requires SameBlockAt(m1, m2, i, d, o1, o2) && Shifted(m1, m2, BlockAt(m1, i, o1).end, d, o1, o2)
    ensures Shifted(m1, m2, i, d, o1, o2)
  {
    var block, shifted := BlockAt(m1, i, o1), BlockAt(m2, i + d, o2);
    FirstBlock(m1, i, o1, block);
    FirstBlock(m2, i + d, o2, shifted);
    ShiftCons(block, BlocksFrom(m1, block.end, o1), BlocksFrom(m1, i, o1),
              shifted, BlocksFrom(m2, shifted.end, o2), BlocksFrom(m2, i + d, o2), d);
  }

  lemma {:induction false} SameBlocks(m1: seq<Message>, m2: seq<Message>, i: int, d: int, o1: Options, o2: Options)
    requires 0 <= i <= |m1| && 0 <= i + d && |m1| + d == |m2|
    requires forall j :: i <= j < |m1| ==> SameBlockAt(m1, m2, j, d, o1, o2)
    ensures Shifted(m1, m2, i, d, o1, o2)
    decreases |m1| - i
  {
    if i < |m1| {
      assert SameBlockAt(m1, m2, i, d, o1, o2);
      SameBlocks(m1, m2, BlockAt(m1, i, o1).end, d, o1, o2);
      ShiftedStep(m1, m2, i, d, o1, o2);
    }
  }

  // Two transcripts with the same messages from i on (d further in the second) have the same blocks
  // from there, moved by d.
  lemma BlocksShift(m1: seq<Message>, m2: seq<Message>, i: int, d: int, o1: Options, o2: Options)
    requires 0 <= i <= |m1| && 0 <= i + d && |m1| + d == |m2|
    requires forall j :: i <= j < |m1| ==> m1[j] == m2[j + d]
    requires SameFrom(o1, o2, i, d)
    ensures BlocksFrom(m2, i + d, o2) == ShiftBlocks(BlocksFrom(m1, i, o1), d)
  {
    forall j | i <= j < |m1| ensures SameBlockAt(m1, m2, j, d, o1, o2) {
      BlockAtShift(m1, m2, j, d, o1, o2);
    }
    SameBlocks(m1, m2, i, d, o1, o2);
  }
}
