/**
 The engine's compaction (agent/context_compaction_engine.go): when to compact, how much, and what
 happens to everything the loop numbers by message index.
 */
module CompactionEngine {
  import opened Text
  import opened Transcript
  import opened Blocks
  import opened Selection
  import opened Checkpoints
  import opened CompactionConfig
  import opened CheckpointStore

  // ----- State -----

  datatype LoopState = LoopState(
    messages: seq<Message>,
    fixedMessageCount: int,
    metaMessageIndex: Option<int>,
    contextMessageCount: int,
    messageBoundaries: map<int, string>,
    protectedIndexes: set<int>,
    checkpoint: Option<ContextCheckpoint>,
    lastMainInputTokens: int,
    lastMainMessageCount: int,
    hasLastMainInputTokens: bool)

  // What a run is configured with. toolTokens is the estimate of the tools sent with a main request.
  datatype Settings = Settings(
    model: string,
    runId: string,
    toolTokens: nat,
    contextWindow: int,
    requestMaxTokens: int,
    compaction: ResolvedConfig)

  datatype DecisionReason = NotNeeded | InputThreshold | EstimatedOverLimit | Manual | ContextLengthError

  datatype Decision = Decision(
    shouldCompact: bool,
    compactFullPrefix: bool,
    reason: DecisionReason,
    estimatedInput: int,
    inputLimit: int,
    outputReserve: int)

  const NO_DECISION := Decision(false, false, NotNeeded, 0, 0, 0)

  // What a compaction meets outside the engine: whether preparing images fails, which messages have
  // all their images readable and what such a message becomes, the text of the validated summary if
  // one was produced, the clock, and whether the run was cancelled before the save.
  datatype Environment = Environment(
    prepareFails: bool,
    readable: set<int>,
    rewrite: Message -> Message,
    summary: Option<(string, nat)>,
    now: int,
    cancelled: bool)

  // ----- When to compact -----

  function MainRequestTokens(st: LoopState, settings: Settings): nat {
    SumTokens(st.messages) + settings.toolTokens
  }

  function SinceLastMain(st: LoopState): seq<Message> {
    if 0 <= st.lastMainMessageCount < |st.messages| then st.messages[st.lastMainMessageCount..] else []
  }

  function CompactionDecision(st: LoopState, settings: Settings): Decision {
    if !settings.compaction.enabled then NO_DECISION
    else
      var limits := ContextInputLimits(settings.contextWindow, settings.compaction, settings.requestMaxTokens);
      if limits.inputLimit <= 0 then NO_DECISION.(inputLimit := limits.inputLimit, outputReserve := limits.outputReserve)
      else if st.hasLastMainInputTokens then
        var estimate := st.lastMainInputTokens + SumTokens(SinceLastMain(st));
        Decision(estimate >= limits.trigger, false, if estimate >= limits.trigger then InputThreshold else NotNeeded,
                 estimate, limits.inputLimit, limits.outputReserve)
      else
        var estimate := MainRequestTokens(st, settings);
        Decision(estimate > limits.inputLimit, false, if estimate > limits.inputLimit then EstimatedOverLimit else NotNeeded,
                 estimate, limits.inputLimit, limits.outputReserve)
  }

  // The decision of a manual compaction, and of one after the provider refused the request as too
  // long, both made from the automatic one.
  function ForcedDecision(automatic: Decision, st: LoopState, settings: Settings, manual: bool): Decision {
    automatic.(
      shouldCompact := true,
      compactFullPrefix := automatic.compactFullPrefix || manual,
      reason := if manual then Manual else ContextLengthError,
      estimatedInput := if automatic.estimatedInput <= 0 then MainRequestTokens(st, settings) else automatic.estimatedInput,
      outputReserve := if automatic.outputReserve <= 0 then 4096 else automatic.outputReserve)
  }

  // ----- How much to release -----

  // The leading compactable blocks, without the last block.
  function Leading(blocks: seq<Block>, k: nat): (n: nat)
    requires k < |blocks|
    ensures k <= n < |blocks|
    decreases |blocks| - k
  {
    if k == |blocks| - 1 || !blocks[k].compactable then k else Leading(blocks, k + 1)
  }

  function FullPrefixTokens(blocks: seq<Block>): nat {
    if blocks == [] then 0 else TokensOf(blocks, Leading(blocks, 0))
  }

  function ReleaseTarget(decision: Decision, mainTokens: nat, blocks: seq<Block>): (target: int)
    ensures target > 0
  {
    var wanted :=
      if decision.compactFullPrefix then FullPrefixTokens(blocks)
      else
        (if decision.estimatedInput <= 0 then mainTokens else decision.estimatedInput)
        - DesiredInput(decision.inputLimit) + CheckpointMaxOutputTokens(decision.outputReserve);
    if wanted > 0 then wanted else 1
  }

  method ContextCompactionReleaseTarget(decision: Decision, st: LoopState, settings: Settings, blocks: seq<Block>)
    returns (target: int)
    ensures target == ReleaseTarget(decision, MainRequestTokens(st, settings), blocks)
  {
    if decision.compactFullPrefix {
      target := 0;
      var index := 0;
      while index < |blocks| - 1
        invariant 0 <= index && (blocks != [] ==> index < |blocks|)
        invariant blocks == [] ==> target == 0
        invariant blocks != [] ==>
          target == TokensOf(blocks, index) && Leading(blocks, 0) == Leading(blocks, index)
      {
        if !blocks[index].compactable {
          break;
        }
        target := target + blocks[index].tokens;
        index := index + 1;
      }
      return if target > 0 then target else 1;
    }
    var estimatedInput := decision.estimatedInput;
    if estimatedInput <= 0 {
      var total := EstimateMessagesTokens(st.messages);
      estimatedInput := total + settings.toolTokens;
    }
    target := estimatedInput - DesiredInput(decision.inputLimit) + CheckpointMaxOutputTokens(decision.outputReserve);
    if target > 0 {
      return target;
    }
    return 1;
  }

  // For parsed blocks the manual target is the weight of the longest safe prefix.
  lemma {:induction false} LeadingIsMaximal(ms: seq<Message>, i: int, opts: Options, blocks: seq<Block>, k: nat)
    requires Chain(ms, opts, i, blocks) && k < |blocks|
    ensures Leading(blocks, k) == MaximalPrefix(blocks, k)
    decreases |blocks| - k
  {
    assert blocks[k] == BlockAt(ms, blocks[k].start, opts);
    if k < |blocks| - 1 {
      LeadingIsMaximal(ms, i, opts, blocks, k + 1);
    }
  }

  // ----- Images -----

  function ImageIndexes(ms: seq<Message>): set<int> {
    set i | 0 <= i < |ms| && HasImagePart(ms[i])
  }

  method ImageMessageIndexes(ms: seq<Message>) returns (indexes: set<int>)
    ensures indexes == ImageIndexes(ms)
  {
    indexes := {};
    for i := 0 to |ms|
      invariant indexes == set j | 0 <= j < i && HasImagePart(ms[j])
    {
      if HasImagePart(ms[i]) {
        indexes := indexes + {i};
      }
    }
  }

  // The image messages of ms[start..end) whose images can all be read.
  function PreparedIndexes(ms: seq<Message>, start: int, end: int, readable: set<int>): set<int>
    requires 0 <= start <= end <= |ms|
  {
    set i | start <= i < end && HasImagePart(ms[i]) && i in readable
  }

  function PreparedMessages(ms: seq<Message>, start: int, end: int, env: Environment): (prepared: seq<Message>)
    requires 0 <= start <= end <= |ms|
    ensures |prepared| == end - start
  {
    seq(end - start, j requires 0 <= j < end - start =>
      if HasImagePart(ms[start + j]) && start + j in env.readable then env.rewrite(ms[start + j]) else ms[start + j])
  }

  method PrepareCompactionImages(ms: seq<Message>, start: int, end: int, env: Environment)
    returns (prepared: seq<Message>, indexes: set<int>)
    requires 0 <= start <= end <= |ms|
    ensures prepared == PreparedMessages(ms, start, end, env)
    ensures indexes == PreparedIndexes(ms, start, end, env.readable)
  {
    prepared := ms[start..end];
    indexes := {};
    ghost var target := PreparedMessages(ms, start, end, env);
    for j := 0 to end - start
      invariant |prepared| == end - start
      invariant forall k :: 0 <= k < j ==> prepared[k] == target[k]
      invariant forall k :: j <= k < end - start ==> prepared[k] == ms[start + k]
      invariant indexes == set i | start <= i < start + j && HasImagePart(ms[i]) && i in env.readable
    {
      if HasImagePart(prepared[j]) && start + j in env.readable {
        prepared := prepared[j := env.rewrite(prepared[j])];
        indexes := indexes + {start + j};
      }
    }
  }

  // ----- Renumbering -----

  // The last non-blank boundary of the messages in [lo, hi).
  function LastBoundary(boundaries: map<int, string>, lo: int, hi: int): string
    decreases hi - lo
  {
    if hi <= lo then ""
    else if hi - 1 in boundaries && TrimSpace(boundaries[hi - 1]) != "" then TrimSpace(boundaries[hi - 1])
    else LastBoundary(boundaries, lo, hi - 1)
  }

  lemma {:induction false} LastBoundaryTrimmed(boundaries: map<int, string>, lo: int, hi: int)
    ensures TrimSpace(LastBoundary(boundaries, lo, hi)) == LastBoundary(boundaries, lo, hi)
    decreases hi - lo
  {
    if lo < hi {
      LastBoundaryTrimmed(boundaries, lo, hi - 1);
      if hi - 1 in boundaries {
        TrimSpaceIdempotent(boundaries[hi - 1]);
      }
    }
  }

  method CoveredThroughForSelection(sel: Selected, boundaries: map<int, string>) returns (coveredThrough: string)
    ensures coveredThrough == LastBoundary(boundaries, sel.start, sel.end)
  {
    coveredThrough := "";
    if sel.end <= sel.start || boundaries == map[] {
      NoBoundaries(boundaries, sel.start, sel.end);
      return;
    }
    var index := sel.start;
    while index < sel.end
      invariant sel.start <= index <= sel.end
      invariant coveredThrough == LastBoundary(boundaries, sel.start, index)
    {
      var boundary := if index in boundaries then TrimSpace(boundaries[index]) else "";
      if boundary != "" {
        coveredThrough := boundary;
      }
      index := index + 1;
    }
  }

  lemma {:induction false} NoBoundaries(boundaries: map<int, string>, lo: int, hi: int)
    requires hi <= lo || boundaries == map[]
    ensures LastBoundary(boundaries, lo, hi) == ""
    decreases hi - lo
  {
    if lo < hi {
      NoBoundaries(boundaries, lo, hi - 1);
    }
  }

  function RenumberMeta(index: int, sel: Selected): int {
    if index in sel.kept then sel.start + 1 + IndexOf(sel.kept, index)
    else if index >= sel.end then index - (sel.end - sel.start - 1 - |sel.kept|)
    else index
  }

  // A position of the compacted transcript that holds a message from outside the selection.
  predicate Carried(sel: Selected, p: int) {
    p < sel.start || p > sel.start + |sel.kept|
  }

  // The new index of a message outside the selection.
  function Moved(sel: Selected, i: int): int {
    if i < sel.start then i else i - Removed(sel) + 1
  }

  predicate Outside(sel: Selected, i: int) {
    i < sel.start || i >= sel.end
  }

  // Protected messages outside the selection stay protected.
  ghost predicate MovesIndexes(indexes: set<int>, sel: Selected, out: set<int>) {
    forall p :: p in out <==> Carried(sel, p) && OldIndex(sel, p) in indexes
  }

  // Boundaries outside the selection stay with their messages, and those inside it go.
  ghost predicate MovesBoundaries(boundaries: map<int, string>, sel: Selected, out: map<int, string>) {
    && (forall p :: p in out <==> Carried(sel, p) && OldIndex(sel, p) in boundaries)
    && forall p :: p in out ==> out[p] == boundaries[OldIndex(sel, p)]
  }

  function ReplacedProtected(indexes: set<int>, sel: Selected): (out: set<int>)
    requires sel.start < sel.end
    ensures MovesIndexes(indexes, sel, out)
  {
    var out := set i | i in indexes && Outside(sel, i) :: Moved(sel, i);
    assert forall p :: Carried(sel, p) && OldIndex(sel, p) in indexes ==> Moved(sel, OldIndex(sel, p)) == p;
    out
  }

  function MovedBoundaries(boundaries: map<int, string>, sel: Selected): (out: map<int, string>)
    requires sel.start < sel.end
    ensures MovesBoundaries(boundaries, sel, out)
  {
    var keys := ReplacedProtected(boundaries.Keys, sel);
    map p | p in keys :: boundaries[OldIndex(sel, p)]
  }

  // The checkpoint takes over the boundary of what it covers.
  function ReplacedBoundaries(boundaries: map<int, string>, sel: Selected, coveredThrough: string): map<int, string>
    requires sel.start < sel.end
  {
    var moved := MovedBoundaries(boundaries, sel);
    if TrimSpace(coveredThrough) != "" then moved[sel.start := TrimSpace(coveredThrough)] else moved
  }

  lemma NotEmpty(s: set<int>)
    ensures s == {} || exists i: int :: i in s
  {
    if forall i: int :: i !in s {
      assert s == {};
    }
  }

  lemma MovesIndexesUnique(indexes: set<int>, sel: Selected, a: set<int>, b: set<int>)
    requires MovesIndexes(indexes, sel, a) && MovesIndexes(indexes, sel, b)
    ensures a == b
  {
    assert forall p :: p in a <==> p in b;
  }

  lemma MoveIndex(done: set<int>, index: int, sel: Selected, out: set<int>)
    requires sel.start < sel.end && MovesIndexes(done, sel, out)
    ensures Outside(sel, index) ==> MovesIndexes(done + {index}, sel, out + {Moved(sel, index)})
    ensures !Outside(sel, index) ==> MovesIndexes(done + {index}, sel, out)
  {
    assert forall p :: Carried(sel, p) ==> Outside(sel, OldIndex(sel, p)) && Moved(sel, OldIndex(sel, p)) == p;
    assert Outside(sel, index) ==> Carried(sel, Moved(sel, index)) && OldIndex(sel, Moved(sel, index)) == index;
  }

  method ReplaceProtectedMessageIndexes(indexes: set<int>, sel: Selected) returns (out: set<int>)
    requires sel.start < sel.end
    ensures out == ReplacedProtected(indexes, sel)
  {
    out := {};
    var removed := Removed(sel);
    var todo := indexes;
    while todo != {}
      invariant todo <= indexes
      invariant MovesIndexes(indexes - todo, sel, out)
    {
      NotEmpty(todo);
      var index: int :| index in todo;
      MoveIndex(indexes - todo, index, sel, out);
      if index < sel.start {
        out := out + {index};
      } else if index >= sel.end {
        out := out + {index - removed + 1};
      }
      assert indexes - (todo - {index}) == (indexes - todo) + {index};
      todo := todo - {index};
    }
    assert indexes - todo == indexes;
    MovesIndexesUnique(indexes, sel, out, ReplacedProtected(indexes, sel));
  }

  ghost function Restrict(boundaries: map<int, string>, keys: set<int>): map<int, string> {
    map i | i in boundaries && i in keys :: boundaries[i]
  }

  lemma MovedBack(sel: Selected, p: int, index: int)
    requires sel.start < sel.end
    ensures Carried(sel, p) ==> Outside(sel, OldIndex(sel, p))
    ensures Outside(sel, index) ==> (p == Moved(sel, index) <==> Carried(sel, p) && OldIndex(sel, p) == index)
  {
  }

  lemma MoveBoundary(boundaries: map<int, string>, done: set<int>, index: int, sel: Selected, out: map<int, string>)
    requires sel.start < sel.end && index in boundaries && MovesBoundaries(Restrict(boundaries, done), sel, out)
    ensures Outside(sel, index) ==>
      MovesBoundaries(Restrict(boundaries, done + {index}), sel, out[Moved(sel, index) := boundaries[index]])
    ensures !Outside(sel, index) ==> MovesBoundaries(Restrict(boundaries, done + {index}), sel, out)
  {
    var longer := if Outside(sel, index) then out[Moved(sel, index) := boundaries[index]] else out;
    forall p
      ensures p in longer <==> Carried(sel, p) && OldIndex(sel, p) in Restrict(boundaries, done + {index})
      ensures p in longer ==> longer[p] == Restrict(boundaries, done + {index})[OldIndex(sel, p)]
    {
      assert p in out <==> Carried(sel, p) && OldIndex(sel, p) in Restrict(boundaries, done);
      MovedBack(sel, p, index);
    }
  }

  lemma MovesBoundariesUnique(boundaries: map<int, string>, sel: Selected, out: map<int, string>)
    requires sel.start < sel.end && MovesBoundaries(boundaries, sel, out)
    ensures out == MovedBoundaries(boundaries, sel)
  {
    var moved := MovedBoundaries(boundaries, sel);
    assert forall p :: p in out <==> p in moved;
  }

  // The boundaries of the indexes done so far have been moved.
  ghost predicate MovedFor(boundaries: map<int, string>, done: set<int>, sel: Selected, out: map<int, string>) {
    MovesBoundaries(Restrict(boundaries, done), sel, out)
  }

  lemma MovedForAll(boundaries: map<int, string>, sel: Selected, out: map<int, string>)
    requires sel.start < sel.end && MovedFor(boundaries, boundaries.Keys, sel, out)
    ensures out == MovedBoundaries(boundaries, sel)
  {
    assert Restrict(boundaries, boundaries.Keys) == boundaries;
    MovesBoundariesUnique(boundaries, sel, out);
  }

  method MoveOneBoundary(boundaries: map<int, string>, index: int, sel: Selected, soFar: map<int, string>,
        ghost done: set<int>)
    returns (out: map<int, string>)
    requires sel.start < sel.end && index in boundaries && MovedFor(boundaries, done, sel, soFar)
    ensures MovedFor(boundaries, done + {index}, sel, out)
  {
    MoveBoundary(boundaries, done, index, sel, soFar);
    out := soFar;
    if index < sel.start {
      out := out[index := boundaries[index]];
    } else if index >= sel.end {
      out := out[index - Removed(sel) + 1 := boundaries[index]];
    }
  }

  method MoveBoundaries(boundaries: map<int, string>, sel: Selected) returns (out: map<int, string>)
    requires sel.start < sel.end
    ensures out == MovedBoundaries(boundaries, sel)
  {
    out := map[];
    var todo := boundaries.Keys;
    ghost var done: set<int> := {};
    while todo != {}
      invariant done + todo == boundaries.Keys && MovedFor(boundaries, done, sel, out)
      decreases todo
    {
      NotEmpty(todo);
      var index: int :| index in todo;
      out := MoveOneBoundary(boundaries, index, sel, out, done);
      todo, done := todo - {index}, done + {index};
    }
    assert done == boundaries.Keys;
    MovedForAll(boundaries, sel, out);
  }

  method ReplaceMessageBoundaries(boundaries: map<int, string>, sel: Selected, coveredThrough: string)
    returns (out: map<int, string>)
    requires sel.start < sel.end
    ensures out == ReplacedBoundaries(boundaries, sel, coveredThrough)
  {
    out := MoveBoundaries(boundaries, sel);
    var boundary := TrimSpace(coveredThrough);
    if boundary != "" {
      out := out[sel.start := boundary];
    }
  }

  // ----- One compaction -----

  datatype Failure = NoSafePrefix | PrepareFailed | ImageSelection | SummaryFailed | ReplaceFailed | SaveFailed(result: StoreResult)

  // What a compaction comes to: nothing but an error, or a new loop state, the checkpoint saved, and
  // the messages that were sent to the summariser.
  datatype Outcome = Failed(failure: Failure) | Compacted(state: LoopState, checkpoint: ContextCheckpoint, payload: seq<Message>)

  function OptionsFor(st: LoopState, prepared: set<int>): Options {
    Options(st.metaMessageIndex, st.contextMessageCount, st.fixedMessageCount, {}, st.protectedIndexes, prepared)
  }

  function NextCheckpoint(st: LoopState, settings: Settings, message: Message, sel: Selected,
        now: int): ContextCheckpoint
  {
    var covered := LastBoundary(st.messageBoundaries, sel.start, sel.end);
    match st.checkpoint
    case None => ContextCheckpoint(1, 1, message, covered, settings.model, settings.runId, 1, now, now)
    case Some(c) =>
      ContextCheckpoint(1, c.revision + 1, message, if covered == "" then c.coveredThrough else covered,
                        settings.model, settings.runId, c.compactionCount + 1,
                        if c.createdAt != 0 then c.createdAt else now, now)
  }

  function CompactedState(st: LoopState, sel: Selected, checkpoint: ContextCheckpoint): LoopState
    requires WellFormed(sel, |st.messages|)
  {
    var compacted := Replaced(st.messages, sel, checkpoint.message);
    LoopState(
      compacted,
      st.fixedMessageCount,
      if st.metaMessageIndex.None? then None else Some(RenumberMeta(st.metaMessageIndex.value, sel)),
      st.contextMessageCount,
      ReplacedBoundaries(st.messageBoundaries, sel, checkpoint.coveredThrough),
      ReplacedProtected(st.protectedIndexes, sel),
      Some(checkpoint),
      0, |compacted|, false)
  }

  // The selection made with every image assumed readable, and the one made with those that are.
  function FirstSelection(st: LoopState, settings: Settings, decision: Decision): Option<Selected> {
    var blocks := TranscriptBlocks(st.messages, OptionsFor(st, ImageIndexes(st.messages)));
    SelectPrefix(blocks, ReleaseTarget(decision, MainRequestTokens(st, settings), blocks))
  }

  function FinalSelection(st: LoopState, settings: Settings, decision: Decision, env: Environment): Option<Selected> {
    var first := FirstSelection(st, settings, decision);
    var blocks := TranscriptBlocks(st.messages, OptionsFor(st, ImageIndexes(st.messages)));
    var target := ReleaseTarget(decision, MainRequestTokens(st, settings), blocks);
    if first.None? || !(0 <= first.value.start <= first.value.end <= |st.messages|) then None
    else
      var prepared := PreparedIndexes(st.messages, first.value.start, first.value.end, env.readable);
      SelectPrefix(TranscriptBlocks(st.messages, OptionsFor(st, prepared)), target)
  }

  function Finish(
    st: LoopState, settings: Settings, stored: Option<ContextCheckpoint>, first: Selected, sel: Selected, env: Environment): Outcome
    requires WellFormed(first, |st.messages|) && WellFormed(sel, |st.messages|)
    requires sel.start == first.start && sel.end <= first.end
  {
    var payload := Summarised(PreparedMessages(st.messages, first.start, first.end, env)[..sel.end - first.start], 0, sel.kept, sel.start);
    if env.summary.None? then Failed(SummaryFailed)
    else
      var message := CheckpointMessage(env.summary.value.0, env.summary.value.1);
      if !Replaceable(st.messages, st.fixedMessageCount, sel, message)
         || !NoInvalidTool(TranscriptBlocks(Replaced(st.messages, sel, message), BareOptions(st.fixedMessageCount)))
      then Failed(ReplaceFailed)
      else
        var checkpoint := NextCheckpoint(st, settings, message, sel, env.now);
        var saved := SaveResult(stored, env.cancelled, RevisionOf(st.checkpoint), checkpoint);
        if !saved.Done? then Failed(SaveFailed(saved))
        else Compacted(CompactedState(st, sel, checkpoint), checkpoint, payload)
  }

  // A compaction of st while the store holds stored.
  function Compact(
    st: LoopState, settings: Settings, stored: Option<ContextCheckpoint>, decision: Decision, env: Environment): Outcome
    requires 0 <= st.fixedMessageCount
  {
    var first := FirstSelection(st, settings, decision);
    if first.None? then Failed(NoSafePrefix)
    else if env.prepareFails then Failed(PrepareFailed)
    else
      var sel := FinalSelection(st, settings, decision, env);
      if sel.None? then Failed(ImageSelection)
      else
        SelectionsFit(st, settings, decision, env);
        Finish(st, settings, stored, first.value, sel.value, env)
  }

  // Both selections are well formed, and the second lies within the first, so nothing that was not
  // prepared is ever sent.
  lemma SelectionsFit(st: LoopState, settings: Settings, decision: Decision, env: Environment)
    requires 0 <= st.fixedMessageCount
    ensures FirstSelection(st, settings, decision).Some? ==>
              WellFormed(FirstSelection(st, settings, decision).value, |st.messages|)
    ensures FinalSelection(st, settings, decision, env).Some? ==>
              && FirstSelection(st, settings, decision).Some?
              && WellFormed(FinalSelection(st, settings, decision, env).value, |st.messages|)
              && FinalSelection(st, settings, decision, env).value.start == FirstSelection(st, settings, decision).value.start
              && FinalSelection(st, settings, decision, env).value.end <= FirstSelection(st, settings, decision).value.end
  {
    var ms := st.messages;
    var opts := OptionsFor(st, ImageIndexes(ms));
    var target := ReleaseTarget(decision, MainRequestTokens(st, settings), TranscriptBlocks(ms, opts));
    var first := FirstSelection(st, settings, decision);
    if first.Some? {
      var k := SelectionShape(ms, opts, target, first.value);
      var prepared := PreparedIndexes(ms, first.value.start, first.value.end, env.readable);
      assert prepared <= ImageIndexes(ms);
      var sel := FinalSelection(st, settings, decision, env);
      if sel.Some? {
        var j := SelectionShape(ms, OptionsFor(st, prepared), target, sel.value);
        ReselectionIsPrefix(ms, opts, prepared, target);
      }
    }
  }

  method RenumberMetaIndex(index: int, sel: Selected) returns (renumbered: int)
    ensures renumbered == RenumberMeta(index, sel)
  {
    renumbered := index;
    if index in sel.kept {
      renumbered := sel.start + 1 + IndexOf(sel.kept, index);
    } else if index >= sel.end {
      renumbered := index - (sel.end - sel.start - 1 - |sel.kept|);
    }
  }

  // ----- The engine -----

  // What a compaction leaves behind: on an error the loop state and the store it found, otherwise the
  // new state, with its checkpoint in the store.
  predicate Realised(
    outcome: Outcome, before: LoopState, storedBefore: Option<ContextCheckpoint>,
    after: LoopState, storedAfter: Option<ContextCheckpoint>, failure: Option<Failure>, payload: seq<Message>)
  {
    match outcome
    case Failed(f) => failure == Some(f) && after == before && storedAfter == storedBefore
    case Compacted(st, saved, sent) => failure == None && after == st && storedAfter == Some(saved) && payload == sent
  }

  class Engine {
    const settings: Settings
    const store: RunLocalCheckpointStore
    var messages: seq<Message>
    var fixedMessageCount: int
    var metaMessageIndex: Option<int>
    var contextMessageCount: int
    var messageBoundaries: map<int, string>
    var protectedMessageIndexes: set<int>
    var checkpoint: Option<ContextCheckpoint>
    var lastMainInputTokens: int
    var lastMainMessageCount: int
    var hasLastMainInputTokens: bool

    constructor (settings: Settings, store: RunLocalCheckpointStore, st: LoopState)
      ensures this.settings == settings && this.store == store && View() == st
    {
      this.settings, this.store := settings, store;
      messages, fixedMessageCount := st.messages, st.fixedMessageCount;
      metaMessageIndex, contextMessageCount := st.metaMessageIndex, st.contextMessageCount;
      messageBoundaries, protectedMessageIndexes := st.messageBoundaries, st.protectedIndexes;
      checkpoint := st.checkpoint;
      lastMainInputTokens, lastMainMessageCount := st.lastMainInputTokens, st.lastMainMessageCount;
      hasLastMainInputTokens := st.hasLastMainInputTokens;
    }

    function View(): LoopState
      reads this
    {
      LoopState(messages, fixedMessageCount, metaMessageIndex, contextMessageCount, messageBoundaries,
                protectedMessageIndexes, checkpoint, lastMainInputTokens, lastMainMessageCount, hasLastMainInputTokens)
    }

    // Appends messages to the transcript, as every part of the loop does.
    method Append(added: seq<Message>)
      modifies this
      ensures View() == old(View()).(messages := old(messages) + added)
    {
      messages := messages + added;
    }

    method ProtectLastMessage()
      modifies this
      ensures View() == if old(messages) == [] then old(View())
        else old(View()).(protectedIndexes := old(protectedMessageIndexes) + {|old(messages)| - 1})
    {
      if messages == [] {
        return;
      }
      protectedMessageIndexes := protectedMessageIndexes + {|messages| - 1};
    }

    // A main request succeeded; inputTokens is the provider's usage, not positive when it has none.
    method MainSucceeded(inputTokens: int)
      modifies this
      ensures View() == old(View()).(
        lastMainMessageCount := |old(messages)|,
        lastMainInputTokens := if inputTokens > 0 then inputTokens else 0,
        hasLastMainInputTokens := inputTokens > 0,
        protectedIndexes := {})
    {
      lastMainMessageCount := |messages|;
      if inputTokens > 0 {
        lastMainInputTokens, hasLastMainInputTokens := inputTokens, true;
      } else {
        lastMainInputTokens, hasLastMainInputTokens := 0, false;
      }
      protectedMessageIndexes := {};
    }

    method Decide() returns (decision: Decision)
      ensures decision == CompactionDecision(View(), settings)
    {
      decision := NO_DECISION;
      if !settings.compaction.enabled {
        return;
      }
      var limits := ContextInputLimits(settings.contextWindow, settings.compaction, settings.requestMaxTokens);
      decision := decision.(inputLimit := limits.inputLimit, outputReserve := limits.outputReserve);
      if decision.inputLimit <= 0 {
        return;
      }
      if hasLastMainInputTokens {
        decision := decision.(estimatedInput := lastMainInputTokens);
        if lastMainMessageCount >= 0 && lastMainMessageCount < |messages| {
          var added := EstimateMessagesTokens(messages[lastMainMessageCount..]);
          decision := decision.(estimatedInput := decision.estimatedInput + added);
        }
        if decision.estimatedInput >= limits.trigger {
          decision := decision.(shouldCompact := true, reason := InputThreshold);
        }
        return;
      }
      var total := EstimateMessagesTokens(messages);
      decision := decision.(estimatedInput := total + settings.toolTokens);
      if decision.estimatedInput > decision.inputLimit {
        decision := decision.(shouldCompact := true, reason := EstimatedOverLimit);
      }
    }

    method MakeSelections(decision: Decision, env: Environment)
      returns (failure: Option<Failure>, first: Selected, sel: Selected, prepared: seq<Message>)
      requires 0 <= fixedMessageCount
      ensures failure == Some(NoSafePrefix) <==> FirstSelection(View(), settings, decision).None?
      ensures failure == Some(PrepareFailed) <==> FirstSelection(View(), settings, decision).Some? && env.prepareFails
      ensures failure == Some(ImageSelection) <==>
        FirstSelection(View(), settings, decision).Some? && !env.prepareFails
        && FinalSelection(View(), settings, decision, env).None?
      ensures failure.None? ==>
        && FirstSelection(View(), settings, decision) == Some(first)
        && FinalSelection(View(), settings, decision, env) == Some(sel)
        && WellFormed(first, |messages|) && WellFormed(sel, |messages|)
        && sel.start == first.start && sel.end <= first.end
        && prepared == PreparedMessages(messages, first.start, first.end, env)
      ensures failure.Some? ==> failure.value in {NoSafePrefix, PrepareFailed, ImageSelection}
    {
      SelectionsFit(View(), settings, decision, env);
      first := Selected(0, 0, 0, 0, [], false);
      sel, prepared := first, [];
      var allImages := ImageMessageIndexes(messages);
      var blocks := BuildTranscriptBlocks(messages, OptionsFor(View(), allImages));
      var target := ContextCompactionReleaseTarget(decision, View(), settings, blocks);
      var selected := SelectTranscriptPrefix(blocks, target);
      if selected.None? {
        return Some(NoSafePrefix), first, sel, prepared;
      }
      first := selected.value;
      if env.prepareFails {
        return Some(PrepareFailed), first, sel, prepared;
      }
      var indexes;
      prepared, indexes := PrepareCompactionImages(messages, first.start, first.end, env);
      blocks := BuildTranscriptBlocks(messages, OptionsFor(View(), indexes));
      selected := SelectTranscriptPrefix(blocks, target);
      if selected.None? || selected.value.start != first.start || selected.value.end > first.end {
        return Some(ImageSelection), first, sel, prepared;
      }
      return None, first, selected.value, prepared;
    }

    // The checkpoint record of a compaction.
    method BuildCheckpoint(sel: Selected, message: Message, now: int) returns (next: ContextCheckpoint)
      ensures next == NextCheckpoint(View(), settings, message, sel, now)
    {
      var expectedRevision, createdAt, compactionCount := 0, now, 1;
      var coveredThrough := CoveredThroughForSelection(sel, messageBoundaries);
      if checkpoint.Some? {
        expectedRevision := checkpoint.value.revision;
        if checkpoint.value.createdAt != 0 {
          createdAt := checkpoint.value.createdAt;
        }
        compactionCount := checkpoint.value.compactionCount + 1;
        if coveredThrough == "" {
          coveredThrough := checkpoint.value.coveredThrough;
        }
      }
      next := ContextCheckpoint(1, expectedRevision + 1, message, coveredThrough, settings.model, settings.runId,
                                compactionCount, createdAt, now);
    }

    method RenumberAll(sel: Selected, coveredThrough: string)
      requires WellFormed(sel, |messages|)
      modifies this`metaMessageIndex, this`messageBoundaries, this`protectedMessageIndexes
      ensures metaMessageIndex ==
        if old(metaMessageIndex).None? then None else Some(RenumberMeta(old(metaMessageIndex).value, sel))
      ensures messageBoundaries == ReplacedBoundaries(old(messageBoundaries), sel, coveredThrough)
      ensures protectedMessageIndexes == ReplacedProtected(old(protectedMessageIndexes), sel)
    {
      if metaMessageIndex.Some? {
        var index := RenumberMetaIndex(metaMessageIndex.value, sel);
        metaMessageIndex := Some(index);
      }
      messageBoundaries := ReplaceMessageBoundaries(messageBoundaries, sel, coveredThrough);
      protectedMessageIndexes := ReplaceProtectedMessageIndexes(protectedMessageIndexes, sel);
    }

    // Puts a compacted transcript in place and renumbers everything that is held by message index.
    method Adopt(newMessages: seq<Message>, sel: Selected, next: ContextCheckpoint)
      requires WellFormed(sel, |messages|) && newMessages == Replaced(messages, sel, next.message)
      modifies this
      ensures View() == CompactedState(old(View()), sel, next)
    {
      RenumberAll(sel, next.coveredThrough);
      messages := newMessages;
      checkpoint := Some(next);
      lastMainInputTokens, lastMainMessageCount, hasLastMainInputTokens := 0, |messages|, false;
    }

    // Everything after the selection: summarise, replace, save, renumber.
    method FinishCompaction(first: Selected, sel: Selected, prepared: seq<Message>, env: Environment)
      returns (failure: Option<Failure>, payload: seq<Message>)
      requires WellFormed(first, |messages|) && WellFormed(sel, |messages|)
      requires sel.start == first.start && sel.end <= first.end
      requires prepared == PreparedMessages(messages, first.start, first.end, env)
      modifies this, store
      ensures Realised(Finish(old(View()), settings, old(store.checkpoint), first, sel, env),
                       old(View()), old(store.checkpoint), View(), store.checkpoint, failure, payload)
    {
      payload := RemoveKept(prepared[..sel.end - first.start], sel);
      if env.summary.None? {
        return Some(SummaryFailed), payload;
      }
      var message := CheckpointMessage(env.summary.value.0, env.summary.value.1);
      var newMessages := ReplaceMessagesWithCheckpoint(messages, fixedMessageCount, sel, message);
      if newMessages.None? {
        return Some(ReplaceFailed), payload;
      }
      var next := BuildCheckpoint(sel, message, env.now);
      var saved := store.Save(env.cancelled, next.revision - 1, next);
      if !saved.Done? {
        return Some(SaveFailed(saved)), payload;
      }
      Adopt(newMessages.value, sel, next);
      return None, payload;
    }

    // Compacts the transcript, or leaves the loop state and the store as they are.
    method CompactContext(decision: Decision, env: Environment)
      returns (failure: Option<Failure>, payload: seq<Message>)
      requires 0 <= fixedMessageCount
      modifies this, store
      ensures Realised(Compact(old(View()), settings, old(store.checkpoint), decision, env),
                       old(View()), old(store.checkpoint), View(), store.checkpoint, failure, payload)
    {
      var first, sel, prepared;
      failure, first, sel, prepared := MakeSelections(decision, env);
      if failure.Some? {
        return failure, [];
      }
      failure, payload := FinishCompaction(first, sel, prepared, env);
    }
  }
}
