/**
 Whole runs: any sequence of appended messages, protections, successful requests, compactions that
 succeed or fail, and approval pauses.
 */
module CompactionRuns {
  import opened Transcript
  import opened Selection
  import opened Checkpoints
  import opened CheckpointStore
  import opened CompactionEngine
  import opened Ledgers
  import opened LedgerCompaction
  import opened ResumeStates

  datatype RunStep =
    | AppendMessages(added: seq<Message>)
    | ProtectLast
    | RequestSucceeded(inputTokens: int)
    | CompactNow(decision: Decision, stored: Option<ContextCheckpoint>, env: Environment)
    | PauseAndResume(external: Option<Option<ContextCheckpoint>>)

  // The store, if the caller has one, hands back the checkpoint seen at the pause.
  predicate FaithfulStore(st: LoopState, step: RunStep) {
    step.PauseAndResume? && step.external.Some? && ResumeAccepted(step.external.value, st.checkpoint)
    ==> step.external.value == st.checkpoint
  }

  function Succeeded(st: LoopState, tokens: int): LoopState {
    st.(lastMainMessageCount := |st.messages|, lastMainInputTokens := if tokens > 0 then tokens else 0,
        hasLastMainInputTokens := tokens > 0, protectedIndexes := {})
  }

  function ProtectedLast(st: LoopState): LoopState {
    if st.messages == [] then st else st.(protectedIndexes := st.protectedIndexes + {|st.messages| - 1})
  }

  // A run that cannot be resumed stays paused.
  function PausedAndResumed(st: LoopState, external: Option<Option<ContextCheckpoint>>): LoopState {
    var rs := UnmarshalResumeState(Snapshot(st));
    if rs.None? then st
    else
      var resumed := Resume(rs.value, external);
      if resumed.None? then st else resumed.value
  }

  function Step(st: LoopState, settings: Settings, step: RunStep): (after: LoopState)
    requires 0 <= st.fixedMessageCount
    ensures 0 <= after.fixedMessageCount
  {
    match step
    case AppendMessages(added) => st.(messages := st.messages + added)
    case ProtectLast => ProtectedLast(st)
    case RequestSucceeded(tokens) => Succeeded(st, tokens)
    case CompactNow(decision, stored, env) =>
      var outcome := Compact(st, settings, stored, decision, env);
      if outcome.Compacted? then outcome.state else st
    case PauseAndResume(external) => PausedAndResumed(st, external)
  }

  function ProtectedLedger(l: Ledger): Ledger {
    l.(protected := l.protected + {|l.history| - 1})
  }

  // What the step does to the ledger.
  function LedgerStep(l: Ledger, st: LoopState, settings: Settings, step: RunStep): Ledger
    requires 0 <= st.fixedMessageCount
  {
    match step
    case AppendMessages(added) => l.(history := l.history + added)
    case ProtectLast => ProtectedLedger(l)
    case RequestSucceeded(_) => l.(protected := {})
    case CompactNow(decision, stored, env) =>
      var outcome := Compact(st, settings, stored, decision, env);
      var sel := FinalSelection(st, settings, decision, env);
      if outcome.Compacted? && sel.Some? then AfterCompaction(l, sel.value, outcome.checkpoint) else l
    case PauseAndResume(external) => l.(held := PausedAndResumed(st, external).checkpoint)
  }

  // The second ledger is a later one of the same run.
  predicate Extends(first: Ledger, later: Ledger) {
    && first.history <= later.history && first.cut <= later.cut
    && later.fixed == first.fixed && later.meta == first.meta && later.context == first.context
    && later.boundaries == first.boundaries
    && (first.checkpoint.Some? ==> later.checkpoint.Some?)
  }

  // Positions depend neither on the messages at the end nor on which are protected.
  lemma SamePositions(l: Ledger, after: Ledger)
    requires after == l.(protected := after.protected, history := after.history)
    ensures forall h :: Position(after, h) == Position(l, h)
    ensures Length(after) - |after.history| == Length(l) - |l.history|
  {
  }

  lemma AppendKeepsMessages(l: Ledger, longer: Ledger, ms: seq<Message>, added: seq<Message>)
    requires Ordered(l) && Ordered(longer) && SameMessages(l, ms)
    requires longer == l.(history := l.history + added)
    ensures SameMessages(longer, ms + added)
  {
    var all := ms + added;
    forall p | 0 <= p < |all| ensures all[p] == MessageAt(longer, p) {
      if p < |ms| {
        assert all[p] == MessageAt(l, p);
        if !IsCheckpointAt(l, p) {
          PositionPlace(l, p);
        }
      }
    }
  }

  lemma AppendKeepsValid(l: Ledger, longer: Ledger, added: seq<Message>)
    requires Valid(l) && longer == l.(history := l.history + added)
    ensures Valid(longer)
  {
    assert forall h :: InMetaRange(longer, h) ==> InMetaRange(l, h);
    assert forall h :: Alive(l, h) ==> Alive(longer, h);
  }

  lemma AppendStep(l: Ledger, st: LoopState, added: seq<Message>)
    requires Valid(l) && Describes(l, st)
    ensures Valid(l.(history := l.history + added))
    ensures Describes(l.(history := l.history + added), st.(messages := st.messages + added))
  {
    var longer := l.(history := l.history + added);
    AppendKeepsValid(l, longer, added);
    AppendKeepsMessages(l, longer, st.messages, added);
    AppendKeepsBoundaries(l, longer, st.messageBoundaries);
    AppendKeepsProtected(l, longer, st.protectedIndexes);
    SamePositions(l, longer);
  }

  lemma AppendKeepsBoundaries(l: Ledger, longer: Ledger, boundaries: map<int, string>)
    requires Valid(l) && Ordered(longer) && SameBoundaries(l, boundaries)
    requires l.history <= longer.history && longer == l.(history := longer.history)
    ensures SameBoundaries(longer, boundaries)
  {
    forall p
      ensures p in boundaries <==> 0 <= p < Length(longer) && BoundaryAt(longer, p) != ""
      ensures p in boundaries ==> boundaries[p] == BoundaryAt(longer, p)
    {
      assert BoundaryAt(longer, p) == BoundaryAt(l, p);
      assert Place(l, p) in l.boundaries ==> l.fixed <= Place(l, p) < |l.history|;
      assert p in boundaries <==> 0 <= p < Length(l) && BoundaryAt(l, p) != "";
    }
  }

  lemma AppendKeepsProtected(l: Ledger, longer: Ledger, indexes: set<int>)
    requires Ordered(l) && Ordered(longer) && SameProtected(l, indexes) && forall h :: h in l.protected ==> Alive(l, h)
    requires l.history <= longer.history && longer == l.(history := longer.history)
    ensures SameProtected(longer, indexes)
  {
    forall p
      ensures p in indexes <==> 0 <= p < Length(longer) && !IsCheckpointAt(longer, p) && Place(longer, p) in l.protected
    {
      assert Place(l, p) in l.protected ==> Alive(l, Place(l, p));
      assert p in indexes <==> 0 <= p < Length(l) && !IsCheckpointAt(l, p) && Place(l, p) in l.protected;
    }
  }

  // Nothing but the protected messages depends on which messages are protected.
  lemma SameMessageAt(l: Ledger, after: Ledger, p: int)
    requires Ordered(l) && Ordered(after) && 0 <= p < Length(l) && after == l.(protected := after.protected)
    ensures MessageAt(after, p) == MessageAt(l, p)
  {
  }

  lemma SameExceptProtected(l: Ledger, after: Ledger, ms: seq<Message>)
    requires Ordered(l) && SameMessages(l, ms) && after == l.(protected := after.protected)
    ensures Ordered(after) && SameMessages(after, ms)
  {
    forall p | 0 <= p < |ms| ensures ms[p] == MessageAt(after, p) {
      SameMessageAt(l, after, p);
    }
  }

  lemma SameBoundariesExceptProtected(l: Ledger, after: Ledger, boundaries: map<int, string>)
    requires Ordered(l) && SameBoundaries(l, boundaries) && after == l.(protected := after.protected)
    ensures SameBoundaries(after, boundaries)
  {
    assert forall p :: BoundaryAt(after, p) == BoundaryAt(l, p);
  }

  lemma ProtectValid(l: Ledger, after: Ledger)
    requires Valid(l) && after == l.(protected := after.protected)
    requires after.protected <= l.protected + {|l.history| - 1}
    ensures Valid(after)
  {
    assert Alive(after, |l.history| - 1);
    assert forall h :: Alive(after, h) <==> Alive(l, h);
    assert forall h :: InMetaRange(after, h) ==> InMetaRange(l, h);
  }

  // The last message is always one of the history, never the checkpoint.
  lemma ProtectLastIndex(l: Ledger, indexes: set<int>)
    requires Ordered(l) && SameProtected(l, indexes)
    ensures SameProtected(l.(protected := l.protected + {|l.history| - 1}), indexes + {Length(l) - 1})
  {
    var last := |l.history| - 1;
    var after := l.(protected := l.protected + {last});
    PlacePosition(l, last);
    assert Position(l, last) == Length(l) - 1;
    forall p
      ensures p in indexes + {Length(l) - 1} <==>
              0 <= p < Length(after) && !IsCheckpointAt(after, p) && Place(after, p) in after.protected
    {
      if 0 <= p < Length(l) && !IsCheckpointAt(l, p) {
        PositionPlace(l, p);
      }
    }
  }

  // The description depends on what is protected only in the protected indexes.
  lemma DescribesProtected(l: Ledger, after: Ledger, st: LoopState, indexes: set<int>)
    requires Ordered(l) && Describes(l, st) && after == l.(protected := after.protected)
    requires Ordered(after) && SameProtected(after, indexes)
    ensures Describes(after, st.(protectedIndexes := indexes))
  {
    SameExceptProtected(l, after, st.messages);
    SameBoundariesExceptProtected(l, after, st.messageBoundaries);
    if l.meta.Some? {
      assert Position(after, l.meta.value) == Position(l, l.meta.value);
    }
  }

  lemma ProtectedLastIs(l: Ledger, st: LoopState)
    requires Ordered(l) && SameMessages(l, st.messages)
    ensures ProtectedLast(st) == st.(protectedIndexes := st.protectedIndexes + {Length(l) - 1})
  {
    assert |st.messages| == Length(l) > 0;
  }

  lemma ProtectStep(l: Ledger, st: LoopState)
    requires Valid(l) && Describes(l, st)
    ensures Valid(ProtectedLedger(l)) && Describes(ProtectedLedger(l), ProtectedLast(st)) && Extends(l, ProtectedLedger(l))
  {
    ProtectValid(l, ProtectedLedger(l));
    ProtectLastIndex(l, st.protectedIndexes);
    DescribesProtected(l, ProtectedLedger(l), st, st.protectedIndexes + {Length(l) - 1});
    ProtectedLastIs(l, st);
  }

  lemma ClearStep(l: Ledger, st: LoopState, tokens: int)
    requires Valid(l) && Describes(l, st)
    ensures Valid(l.(protected := {})) && Describes(l.(protected := {}), Succeeded(st, tokens))
  {
    ProtectValid(l, l.(protected := {}));
    DescribesProtected(l, l.(protected := {}), st, {});
  }

  // What a step must keep: a ledger that describes the new state, and is a later one of the same run.
  ghost predicate Keeps(l: Ledger, st: LoopState, settings: Settings, step: RunStep)
    requires 0 <= st.fixedMessageCount
  {
    && Valid(LedgerStep(l, st, settings, step))
    && Describes(LedgerStep(l, st, settings, step), Step(st, settings, step))
    && Extends(l, LedgerStep(l, st, settings, step))
  }

  lemma AppendKeeps(l: Ledger, st: LoopState, settings: Settings, step: RunStep)
    requires Valid(l) && Describes(l, st) && step.AppendMessages?
    ensures Keeps(l, st, settings, step)
  {
    AppendStep(l, st, step.added);
  }

  lemma ProtectKeeps(l: Ledger, st: LoopState, settings: Settings, step: RunStep)
    requires Valid(l) && Describes(l, st) && step.ProtectLast?
    ensures Keeps(l, st, settings, step)
  {
    ProtectStep(l, st);
  }

  lemma ClearKeeps(l: Ledger, st: LoopState, settings: Settings, step: RunStep)
    requires Valid(l) && Describes(l, st) && step.RequestSucceeded?
    ensures Keeps(l, st, settings, step)
  {
    ClearStep(l, st, step.inputTokens);
  }

  // Which checkpoint is held has no part in the transcript and its numbering.
  lemma HeldValid(l: Ledger, after: Ledger)
    requires Valid(l) && after == l.(held := after.held) && after.held.Some? == l.held.Some?
    ensures Valid(after) && Extends(l, after)
  {
    assert forall h :: Alive(after, h) <==> Alive(l, h);
    assert forall h :: InMetaRange(after, h) <==> InMetaRange(l, h);
  }

  lemma HeldMessages(l: Ledger, after: Ledger, ms: seq<Message>)
    requires Ordered(l) && Ordered(after) && after == l.(held := after.held) && SameMessages(l, ms)
    ensures SameMessages(after, ms)
  {
    forall p | 0 <= p < |ms| ensures ms[p] == MessageAt(after, p) {
      assert MessageAt(after, p) == MessageAt(l, p);
    }
  }

  lemma HeldDescribes(l: Ledger, after: Ledger, st: LoopState)
    requires Ordered(l) && Ordered(after) && Describes(l, st) && after == l.(held := after.held)
    ensures Describes(after, st.(checkpoint := after.held))
  {
    HeldMessages(l, after, st.messages);
    assert forall p :: BoundaryAt(after, p) == BoundaryAt(l, p);
    assert forall p :: IsCheckpointAt(after, p) <==> IsCheckpointAt(l, p);
    assert forall p :: Place(after, p) == Place(l, p);
    if l.meta.Some? {
      assert Position(after, l.meta.value) == Position(l, l.meta.value);
    }
  }

  lemma PauseIs(l: Ledger, st: LoopState, external: Option<Option<ContextCheckpoint>>)
    requires Valid(l) && Describes(l, st)
    ensures var c := PausedAndResumed(st, external).checkpoint;
            PausedAndResumed(st, external) == st.(checkpoint := c) && c.Some? == st.checkpoint.Some?
  {
    PauseRoundTrip(l, st, external);
  }

  lemma PauseKeeps(l: Ledger, st: LoopState, settings: Settings, step: RunStep)
    requires Valid(l) && Describes(l, st) && step.PauseAndResume?
    ensures Keeps(l, st, settings, step)
  {
    var after := LedgerStep(l, st, settings, step);
    PauseIs(l, st, step.external);
    HeldValid(l, after);
    HeldDescribes(l, after, st);
  }

  lemma CompactStepIs(l: Ledger, st: LoopState, settings: Settings, step: RunStep)
    requires 0 <= st.fixedMessageCount && step.CompactNow?
    ensures var outcome := Compact(st, settings, step.stored, step.decision, step.env);
            var sel := FinalSelection(st, settings, step.decision, step.env);
            if outcome.Compacted? then
              && Step(st, settings, step) == outcome.state
              && (sel.Some? ==> LedgerStep(l, st, settings, step) == AfterCompaction(l, sel.value, outcome.checkpoint))
            else
              Step(st, settings, step) == st && LedgerStep(l, st, settings, step) == l
  {
  }

  lemma CompactStep(l: Ledger, st: LoopState, settings: Settings, step: RunStep)
    requires Valid(l) && Describes(l, st) && step.CompactNow?
    ensures Keeps(l, st, settings, step)
  {
    CompactStepIs(l, st, settings, step);
    if Compact(st, settings, step.stored, step.decision, step.env).Compacted? {
      CompactionMovesCut(l, st, settings, step.stored, step.decision, step.env);
    }
  }

  // Every step of a run leaves a state that the run's ledger describes.
  lemma StepKeepsLedger(l: Ledger, st: LoopState, settings: Settings, step: RunStep)
    requires Valid(l) && Describes(l, st)
    ensures Keeps(l, st, settings, step)
  {
    match step
    case AppendMessages(_) => AppendKeeps(l, st, settings, step);
    case ProtectLast => ProtectKeeps(l, st, settings, step);
    case RequestSucceeded(_) => ClearKeeps(l, st, settings, step);
    case CompactNow(_, _, _) => CompactStep(l, st, settings, step);
    case PauseAndResume(_) => PauseKeeps(l, st, settings, step);
  }

  // ----- Runs -----

  function StateAfter(st: LoopState, settings: Settings, steps: seq<RunStep>): (after: LoopState)
    requires 0 <= st.fixedMessageCount
    ensures 0 <= after.fixedMessageCount
  {
    if steps == [] then st
    else Step(StateAfter(st, settings, steps[..|steps| - 1]), settings, steps[|steps| - 1])
  }

  function LedgerAfter(l: Ledger, st: LoopState, settings: Settings, steps: seq<RunStep>): Ledger
    requires 0 <= st.fixedMessageCount
  {
    if steps == [] then l
    else
      var init := steps[..|steps| - 1];
      LedgerStep(LedgerAfter(l, st, settings, init), StateAfter(st, settings, init), settings, steps[|steps| - 1])
  }

  // The transcript of a run, and all its numbering, is at every time a function of the run's ledger,
  // and the ledger only grows.
  lemma {:induction false} RunKeepsLedger(l: Ledger, st: LoopState, settings: Settings, steps: seq<RunStep>)
    requires Valid(l) && Describes(l, st)
    ensures Valid(LedgerAfter(l, st, settings, steps))
    ensures Describes(LedgerAfter(l, st, settings, steps), StateAfter(st, settings, steps))
    ensures Extends(l, LedgerAfter(l, st, settings, steps))
  {
    if steps != [] {
      var n := |steps| - 1;
      var init := steps[..n];
      RunKeepsLedger(l, st, settings, init);
      StepKeepsLedger(LedgerAfter(l, st, settings, init), StateAfter(st, settings, init), settings, steps[n]);
    }
  }

  // ----- The checkpoint the run goes on from -----

  ghost predicate FaithfulStores(st: LoopState, settings: Settings, steps: seq<RunStep>)
    requires 0 <= st.fixedMessageCount
  {
    forall n :: 0 <= n < |steps| ==> FaithfulStore(StateAfter(st, settings, steps[..n]), steps[n])
  }

  lemma FaithfulPrefix(st: LoopState, settings: Settings, steps: seq<RunStep>, n: nat)
    requires 0 <= st.fixedMessageCount && FaithfulStores(st, settings, steps) && n <= |steps|
    ensures FaithfulStores(st, settings, steps[..n])
  {
    forall k | 0 <= k < n ensures FaithfulStore(StateAfter(st, settings, steps[..n][..k]), steps[..n][k]) {
      assert steps[..n][..k] == steps[..k];
    }
  }

  // The checkpoint the run holds is the one whose message is in the transcript.
  predicate HoldsShown(l: Ledger) {
    l.held == l.checkpoint
  }

  // A compaction always puts its own checkpoint in the transcript; a resume keeps the run on the one
  // that is there exactly when the store had it.
  lemma StepHoldsShown(l: Ledger, st: LoopState, settings: Settings, step: RunStep)
    requires Valid(l) && Describes(l, st)
    ensures HoldsShown(l) ==>
      (HoldsShown(LedgerStep(l, st, settings, step)) <==> FaithfulStore(st, step))
      && LedgerStep(l, st, settings, step).initialCovered == l.initialCovered
    ensures step.CompactNow? && Compact(st, settings, step.stored, step.decision, step.env).Compacted? ==>
      HoldsShown(LedgerStep(l, st, settings, step))
  {
    match step
    case AppendMessages(_) =>
    case ProtectLast =>
    case RequestSucceeded(_) =>
    case PauseAndResume(external) => PauseRoundTrip(l, st, external);
    case CompactNow(decision, stored, env) =>
      if Compact(st, settings, stored, decision, env).Compacted? {
        CompactedOutcome(st, settings, stored, decision, env);
      }
  }

  // With faithful stores the run holds the checkpoint of its transcript all the time.
  lemma {:induction false} RunHoldsShown(l: Ledger, st: LoopState, settings: Settings, steps: seq<RunStep>)
    requires Valid(l) && Describes(l, st) && HoldsShown(l) && FaithfulStores(st, settings, steps)
    ensures HoldsShown(LedgerAfter(l, st, settings, steps))
    ensures LedgerAfter(l, st, settings, steps).initialCovered == l.initialCovered
  {
    if steps != [] {
      var n := |steps| - 1;
      FaithfulPrefix(st, settings, steps, n);
      RunHoldsShown(l, st, settings, steps[..n]);
      RunKeepsLedger(l, st, settings, steps[..n]);
      StepHoldsShown(LedgerAfter(l, st, settings, steps[..n]), StateAfter(st, settings, steps[..n]), settings, steps[n]);
    }
  }

  // ----- Fixed messages, checkpoint, metadata -----

  lemma FixedMessages(l: Ledger, st: LoopState)
    requires Valid(l) && Describes(l, st)
    ensures st.fixedMessageCount <= |st.messages| && st.messages[..st.fixedMessageCount] == l.history[..l.fixed]
    ensures st.checkpoint.Some? ==>
      && l.checkpoint.Some? && st.fixedMessageCount < |st.messages|
      && st.messages[st.fixedMessageCount] == l.checkpoint.value.message
  {
    forall p | 0 <= p < l.fixed ensures st.messages[p] == l.history[p] {
      assert st.messages[p] == MessageAt(l, p);
    }
    if l.checkpoint.Some? {
      assert st.messages[l.fixed] == MessageAt(l, l.fixed);
    }
  }

  // The metadata message and the context messages after it, where the loop state says they are.
  function MetaAndContext(st: LoopState): Option<seq<Message>> {
    if st.metaMessageIndex.None? then None
    else
      var i, n := st.metaMessageIndex.value, st.contextMessageCount + 1;
      if 0 <= i && 0 <= n && i + n <= |st.messages| then Some(st.messages[i..i + n]) else None
  }

  lemma MetaMessage(l: Ledger, ms: seq<Message>, j: int)
    requires Ordered(l) && SameMessages(l, ms) && l.meta.Some? && 0 <= j <= l.context
    ensures var i := Position(l, l.meta.value) + j; 0 <= i < |ms| && ms[i] == l.history[l.meta.value + j]
  {
    MetaContiguous(l, j);
    PlacePosition(l, l.meta.value + j);
    assert ms[Position(l, l.meta.value) + j] == MessageAt(l, Position(l, l.meta.value) + j);
  }

  lemma MetaSlice(l: Ledger, ms: seq<Message>)
    requires Ordered(l) && SameMessages(l, ms) && l.meta.Some?
    ensures var i := Position(l, l.meta.value);
            && 0 <= i && i + l.context < |ms|
            && ms[i..i + l.context + 1] == l.history[l.meta.value..l.meta.value + l.context + 1]
  {
    var i := Position(l, l.meta.value);
    MetaMessage(l, ms, 0);
    MetaMessage(l, ms, l.context);
    var here, there := ms[i..i + l.context + 1], l.history[l.meta.value..l.meta.value + l.context + 1];
    forall j | 0 <= j < |here| ensures here[j] == there[j] {
      MetaMessage(l, ms, j);
    }
  }

  function MetaHistory(l: Ledger): Option<seq<Message>>
    requires Ordered(l)
  {
    if l.meta.Some? then Some(l.history[l.meta.value..l.meta.value + l.context + 1]) else None
  }

  lemma MetaMessages(l: Ledger, st: LoopState)
    requires Ordered(l) && SameMessages(l, st.messages)
    requires st.metaMessageIndex == if l.meta.None? then None else Some(Position(l, l.meta.value))
    requires st.contextMessageCount == l.context
    ensures MetaAndContext(st) == MetaHistory(l)
  {
    if l.meta.Some? {
      MetaSlice(l, st.messages);
    }
  }

  // Through a whole run the metadata index names the run's own metadata message, the same context
  // messages follow it, and a checkpoint's message is right after the fixed messages, which never
  // change. It is the message of the checkpoint the run holds unless a resume read another one.
  lemma MetadataSurvives(l: Ledger, st: LoopState, settings: Settings, steps: seq<RunStep>)
    requires Valid(l) && Describes(l, st)
    ensures var later, end := LedgerAfter(l, st, settings, steps), StateAfter(st, settings, steps);
            && end.fixedMessageCount == st.fixedMessageCount
            && st.fixedMessageCount <= |st.messages| && st.fixedMessageCount <= |end.messages|
            && end.messages[..st.fixedMessageCount] == st.messages[..st.fixedMessageCount]
            && (end.checkpoint.Some? ==>
                  && later.checkpoint.Some? && st.fixedMessageCount < |end.messages|
                  && end.messages[st.fixedMessageCount] == later.checkpoint.value.message)
            && (HoldsShown(l) && FaithfulStores(st, settings, steps) ==> later.checkpoint == end.checkpoint)
            && MetaAndContext(end) == MetaAndContext(st)
            && (st.metaMessageIndex.Some? ==> MetaAndContext(st).Some?)
  {
    var later, end := LedgerAfter(l, st, settings, steps), StateAfter(st, settings, steps);
    RunKeepsLedger(l, st, settings, steps);
    SameFixed(l, st, later, end);
    MetaMessages(l, st);
    MetaMessages(later, end);
    SameMeta(l, later);
    if HoldsShown(l) && FaithfulStores(st, settings, steps) {
      RunHoldsShown(l, st, settings, steps);
    }
  }

  lemma SameFixed(l: Ledger, st: LoopState, later: Ledger, end: LoopState)
    requires Valid(l) && Describes(l, st) && Valid(later) && Describes(later, end) && Extends(l, later)
    ensures end.fixedMessageCount == st.fixedMessageCount
    ensures st.fixedMessageCount <= |st.messages| && st.fixedMessageCount <= |end.messages|
    ensures end.messages[..st.fixedMessageCount] == st.messages[..st.fixedMessageCount]
    ensures end.checkpoint.Some? ==>
      && later.checkpoint.Some? && st.fixedMessageCount < |end.messages|
      && end.messages[st.fixedMessageCount] == later.checkpoint.value.message
  {
    FixedMessages(l, st);
    FixedMessages(later, end);
    SamePrefix(l.history, later.history, 0, l.fixed);
  }

  lemma SamePrefix(a: seq<Message>, b: seq<Message>, i: int, j: int)
    requires a <= b && 0 <= i <= j <= |a|
    ensures b[i..j] == a[i..j] && b[..j] == a[..j]
  {
  }

  lemma SameMeta(l: Ledger, later: Ledger)
    requires Ordered(l) && Ordered(later) && Extends(l, later)
    ensures MetaHistory(later) == MetaHistory(l)
  {
    if l.meta.Some? {
      SamePrefix(l.history, later.history, l.meta.value, l.meta.value + l.context + 1);
    }
  }
}
