/** What holds of a whole run, read off its ledger. */
module RunProperties {
  import opened Text
  import opened Transcript
  import opened Selection
  import opened Checkpoints
  import opened CheckpointStore
  import opened CompactionEngine
  import opened Ledgers
  import opened LedgerCompaction
  import opened CompactionRuns

  // ----- The ledger only grows -----

  lemma {:induction false} LedgerGrows(l: Ledger, st: LoopState, settings: Settings, steps: seq<RunStep>, m: nat)
    requires Valid(l) && Describes(l, st) && m <= |steps|
    ensures Extends(LedgerAfter(l, st, settings, steps[..m]), LedgerAfter(l, st, settings, steps))
    decreases |steps|
  {
    if m == |steps| {
      assert steps[..m] == steps;
    } else {
      var init := steps[..|steps| - 1];
      LedgerGrows(l, st, settings, init, m);
      assert init[..m] == steps[..m];
      LastStepExtends(l, st, settings, steps);
    }
  }

  lemma LastStepExtends(l: Ledger, st: LoopState, settings: Settings, steps: seq<RunStep>)
    requires Valid(l) && Describes(l, st) && steps != []
    ensures Extends(LedgerAfter(l, st, settings, steps[..|steps| - 1]), LedgerAfter(l, st, settings, steps))
  {
    var n := |steps| - 1;
    var init := steps[..n];
    RunKeepsLedger(l, st, settings, init);
    StepKeepsLedger(LedgerAfter(l, st, settings, init), StateAfter(st, settings, init), settings, steps[n]);
  }

  // ----- The order of the messages -----

  // A message still in the transcript after a run was there before, if it is as old as that, and is
  // found where the ledger says.
  lemma Survivor(l: Ledger, st: LoopState, settings: Settings, steps: seq<RunStep>, h: int)
    requires Valid(l) && Describes(l, st) && Alive(LedgerAfter(l, st, settings, steps), h)
    ensures var later, end := LedgerAfter(l, st, settings, steps), StateAfter(st, settings, steps);
            && 0 <= Position(later, h) < |end.messages| && end.messages[Position(later, h)] == later.history[h]
            && (h < |l.history| ==>
                  && Alive(l, h) && 0 <= Position(l, h) < |st.messages|
                  && st.messages[Position(l, h)] == later.history[h])
  {
    var later, end := LedgerAfter(l, st, settings, steps), StateAfter(st, settings, steps);
    RunKeepsLedger(l, st, settings, steps);
    PlacePosition(later, h);
    assert end.messages[Position(later, h)] == MessageAt(later, Position(later, h));
    if h < |l.history| {
      PlacePosition(l, h);
      assert st.messages[Position(l, h)] == MessageAt(l, Position(l, h));
    }
  }

  // No run puts two messages out of order: those that are still in the transcript stand as they stood.
  lemma OrderSurvives(l: Ledger, st: LoopState, settings: Settings, steps: seq<RunStep>, g: int, h: int)
    requires Valid(l) && Describes(l, st) && g < h
    ensures var later, end := LedgerAfter(l, st, settings, steps), StateAfter(st, settings, steps);
            Alive(later, g) && Alive(later, h) ==>
              && 0 <= Position(later, g) < Position(later, h) < |end.messages|
              && end.messages[Position(later, g)] == later.history[g] && end.messages[Position(later, h)] == later.history[h]
              && (h < |l.history| ==>
                    && 0 <= Position(l, g) < Position(l, h) < |st.messages|
                    && st.messages[Position(l, g)] == later.history[g] && st.messages[Position(l, h)] == later.history[h])
  {
    var later := LedgerAfter(l, st, settings, steps);
    if Alive(later, g) && Alive(later, h) {
      Survivor(l, st, settings, steps, g);
      Survivor(l, st, settings, steps, h);
      RunKeepsLedger(l, st, settings, steps);
      PositionsOrdered(later, g, h);
      if h < |l.history| {
        PositionsOrdered(l, g, h);
      }
    }
  }

  // ----- What the checkpoint covers -----

  // The latest place in [lo, hi) with a boundary, lo - 1 if there is none.
  function LatestBoundary(boundaries: map<int, string>, lo: int, hi: int): int
    decreases hi - lo
  {
    if hi <= lo then lo - 1
    else if hi - 1 in boundaries && TrimSpace(boundaries[hi - 1]) != "" then hi - 1
    else LatestBoundary(boundaries, lo, hi - 1)
  }

  lemma {:induction false} LatestBoundaryMeans(boundaries: map<int, string>, lo: int, hi: int)
    requires forall h :: h in boundaries ==> TrimSpace(boundaries[h]) == boundaries[h] != ""
    ensures var latest := LatestBoundary(boundaries, lo, hi);
            && (latest >= lo ==> latest < hi && latest in boundaries && LastBoundary(boundaries, lo, hi) == boundaries[latest])
            && (latest < lo ==> LastBoundary(boundaries, lo, hi) == "")
            && forall h :: h in boundaries && latest < h && lo <= h ==> hi <= h
    decreases hi - lo
  {
    if lo < hi {
      LatestBoundaryMeans(boundaries, lo, hi - 1);
    }
  }

  lemma {:induction false} LatestBoundaryMonotone(boundaries: map<int, string>, lo: int, mid: int, hi: int)
    requires lo <= mid <= hi
    ensures LatestBoundary(boundaries, lo, mid) <= LatestBoundary(boundaries, lo, hi)
    decreases hi - mid
  {
    LatestBoundaryBelow(boundaries, lo, hi);
    if mid < hi {
      LatestBoundaryMonotone(boundaries, lo, mid, hi - 1);
      LatestBoundaryBelow(boundaries, lo, hi - 1);
    }
  }

  lemma {:induction false} LatestBoundaryBelow(boundaries: map<int, string>, lo: int, hi: int)
    requires lo <= hi
    ensures lo - 1 <= LatestBoundary(boundaries, lo, hi) < hi
    decreases hi - lo
  {
    if lo < hi {
      LatestBoundaryBelow(boundaries, lo, hi - 1);
    }
  }

  // The run's messages with a boundary, from the fixed messages on, are either covered by the
  // checkpoint or still in the transcript with their boundary: the CoveredThrough of the checkpoint in
  // the transcript is the boundary of the latest covered one, or what was covered before if there is
  // none. The run holds that checkpoint unless a resume read another one.
  ghost predicate CoversExactly(l: Ledger, st: LoopState) {
    var latest := LatestBoundary(l.boundaries, l.fixed, l.cut);
    && (st.checkpoint.Some? ==>
          && l.checkpoint.Some? && (HoldsShown(l) ==> st.checkpoint == l.checkpoint)
          && TrimSpace(l.checkpoint.value.coveredThrough) ==
            if latest in l.boundaries then l.boundaries[latest] else l.initialCovered)
    && (forall h :: h in l.boundaries && h > latest ==>
          && Position(l, h) in st.messageBoundaries
          && st.messageBoundaries[Position(l, h)] == l.boundaries[h])
    && forall p :: p in st.messageBoundaries && !(st.checkpoint.Some? && p == st.fixedMessageCount) ==>
         Place(l, p) in l.boundaries && Place(l, p) > latest
  }

  lemma BoundariesInPlace(l: Ledger, st: LoopState)
    requires Valid(l) && Describes(l, st)
    ensures CoversExactly(l, st)
  {
    var latest := LatestBoundary(l.boundaries, l.fixed, l.cut);
    LatestBoundaryMeans(l.boundaries, l.fixed, l.cut);
    LatestBoundaryBelow(l.boundaries, l.fixed, l.cut);
    forall h | h in l.boundaries && h > latest
      ensures Position(l, h) in st.messageBoundaries
      ensures st.messageBoundaries[Position(l, h)] == l.boundaries[h]
    {
      BoundaryAfterCut(l, st.messageBoundaries, h);
    }
    forall p | p in st.messageBoundaries && !(st.checkpoint.Some? && p == st.fixedMessageCount)
      ensures Place(l, p) in l.boundaries && Place(l, p) > latest
    {
      BoundaryPlace(l, st.messageBoundaries, p);
    }
  }

  lemma BoundaryAfterCut(l: Ledger, boundaries: map<int, string>, h: int)
    requires Valid(l) && SameBoundaries(l, boundaries) && h in l.boundaries && h >= l.cut
    ensures Position(l, h) in boundaries && boundaries[Position(l, h)] == l.boundaries[h]
  {
    PlacePosition(l, h);
    assert BoundaryAt(l, Position(l, h)) == l.boundaries[h];
  }

  lemma BoundaryPlace(l: Ledger, boundaries: map<int, string>, p: int)
    requires Valid(l) && SameBoundaries(l, boundaries) && p in boundaries && !IsCheckpointAt(l, p)
    ensures Place(l, p) in l.boundaries && Place(l, p) >= l.cut
  {
    assert 0 <= p < Length(l) && BoundaryAt(l, p) != "";
    PositionPlace(l, p);
  }

  // Over a whole run CoveredThrough never skips a boundary and, from any time m to the end, never
  // moves back.
  lemma CoveredThroughAdvances(l: Ledger, st: LoopState, settings: Settings, steps: seq<RunStep>, m: nat)
    requires Valid(l) && Describes(l, st) && m <= |steps|
    ensures var mid, end := LedgerAfter(l, st, settings, steps[..m]), LedgerAfter(l, st, settings, steps);
            && mid.boundaries == end.boundaries == l.boundaries && mid.fixed == end.fixed == l.fixed
            && CoversExactly(mid, StateAfter(st, settings, steps[..m]))
            && CoversExactly(end, StateAfter(st, settings, steps))
            && LatestBoundary(l.boundaries, l.fixed, mid.cut) <= LatestBoundary(l.boundaries, l.fixed, end.cut)
            && (HoldsShown(l) && FaithfulStores(st, settings, steps) ==>
                  HoldsShown(mid) && HoldsShown(end) && mid.initialCovered == end.initialCovered == l.initialCovered)
  {
    var mid, end := LedgerAfter(l, st, settings, steps[..m]), LedgerAfter(l, st, settings, steps);
    RunKeepsLedger(l, st, settings, steps[..m]);
    RunKeepsLedger(l, st, settings, steps);
    LedgerGrows(l, st, settings, steps, m);
    BoundariesInPlace(mid, StateAfter(st, settings, steps[..m]));
    BoundariesInPlace(end, StateAfter(st, settings, steps));
    LatestBoundaryMonotone(l.boundaries, l.fixed, mid.cut, end.cut);
    if HoldsShown(l) && FaithfulStores(st, settings, steps) {
      FaithfulPrefix(st, settings, steps, m);
      RunHoldsShown(l, st, settings, steps[..m]);
      RunHoldsShown(l, st, settings, steps);
    }
  }

  // ----- Protected messages -----

  // No protected message is selected, and the protected indexes name the same messages before and after.
  ghost predicate SameProtectedMessages(st: LoopState, sel: Selected, after: LoopState) {
    && sel.start < sel.end
    && (forall p :: p in st.protectedIndexes ==> Outside(sel, p) && Moved(sel, p) in after.protectedIndexes)
    && forall q :: q in after.protectedIndexes ==>
         && q != sel.start && OldIndex(sel, q) in st.protectedIndexes
         && 0 <= q < |after.messages| && 0 <= OldIndex(sel, q) < |st.messages|
         && after.messages[q] == st.messages[OldIndex(sel, q)]
  }

  // A compaction keeps every protected message, and the protected indexes go on naming the same
  // messages and no others.
  lemma ProtectedNamesSurvive(
    l: Ledger, st: LoopState, settings: Settings, stored: Option<ContextCheckpoint>, decision: Decision, env: Environment)
    requires Valid(l) && Describes(l, st)
    ensures Compact(st, settings, stored, decision, env).Compacted? ==>
      && FinalSelection(st, settings, decision, env).Some?
      && SameProtectedMessages(st, FinalSelection(st, settings, decision, env).value, Compact(st, settings, stored, decision, env).state)
  {
    if Compact(st, settings, stored, decision, env).Compacted? {
      CompactionMovesCut(l, st, settings, stored, decision, env);
      CompactedOutcome(st, settings, stored, decision, env);
      FinalSelectionTakes(l, st, settings, decision, env);
      var outcome, sel := Compact(st, settings, stored, decision, env), FinalSelection(st, settings, decision, env).value;
      ProtectedMoves(l, st, sel, outcome.checkpoint, outcome.state);
    }
  }

  lemma ProtectedMoves(l: Ledger, st: LoopState, sel: Selected, c: ContextCheckpoint, after: LoopState)
    requires SameProtected(l, st.protectedIndexes) && Takes(l, sel) && WellFormed(sel, |st.messages|)
    requires |st.messages| == Length(l)
    requires after == CompactedState(st, sel, c)
    requires forall p :: sel.start <= p < sel.end ==> p !in st.protectedIndexes
    ensures SameProtectedMessages(st, sel, after)
  {
    assert MovesIndexes(st.protectedIndexes, sel, after.protectedIndexes);
    forall p | p in st.protectedIndexes ensures Outside(sel, p) && Moved(sel, p) in after.protectedIndexes {
      assert Outside(sel, p);
      assert Carried(sel, Moved(sel, p)) && OldIndex(sel, Moved(sel, p)) == p;
    }
    forall q | q in after.protectedIndexes
      ensures q != sel.start && OldIndex(sel, q) in st.protectedIndexes
      ensures 0 <= q < |after.messages| && 0 <= OldIndex(sel, q) < |st.messages|
      ensures after.messages[q] == st.messages[OldIndex(sel, q)]
    {
      assert Carried(sel, q) && OldIndex(sel, q) in st.protectedIndexes;
      assert 0 <= OldIndex(sel, q) < Length(l);
      ReplacedLength(st.messages, sel, c.message);
      ReplacedAt(st.messages, sel, c.message, q);
    }
  }

  // ----- What is summarised -----

  // A message as it is sent to the summariser.
  function Sent(env: Environment, m: Message, position: int): Message {
    if HasImagePart(m) && position in env.readable then env.rewrite(m) else m
  }

  // The messages at places [lo, hi) of the history, metadata and context apart, as sent.
  function SentPlaces(l: Ledger, env: Environment, lo: int, hi: int): seq<Message>
    requires Ordered(l) && l.cut <= lo <= hi <= |l.history|
    decreases hi - lo
  {
    if lo == hi then []
    else
      (if InMetaRange(l, lo) then [] else [Sent(env, l.history[lo], Position(l, lo))])
      + SentPlaces(l, env, lo + 1, hi)
  }

  function SentCheckpoint(l: Ledger, env: Environment): seq<Message> {
    if l.checkpoint.Some? then [Sent(env, l.checkpoint.value.message, l.fixed)] else []
  }

  lemma InRangeKept(l: Ledger, sel: Selected, p: int)
    requires Takes(l, sel) && sel.start <= p < sel.end
    ensures p in sel.kept <==> !IsCheckpointAt(l, p) && InMetaRange(l, Place(l, p))
  {
    if l.meta.Some? {
      var meta := Position(l, l.meta.value);
      if meta <= p <= meta + l.context {
        assert sel.kept[p - meta] == p;
      }
    }
  }

  lemma {:induction false} SummarisedPlaces(l: Ledger, sel: Selected, env: Environment, prepared: seq<Message>, lo: nat)
    requires Takes(l, sel) && lo <= |prepared| == sel.end - sel.start && Base(l) <= sel.start + lo
    requires forall j :: 0 <= j < |prepared| ==>
      0 <= sel.start + j < Length(l) && prepared[j] == Sent(env, MessageAt(l, sel.start + j), sel.start + j)
    ensures l.cut <= Place(l, sel.start + lo) <= NewCut(l, sel.end) <= |l.history|
    ensures Summarised(prepared, lo, sel.kept, sel.start) ==
            SentPlaces(l, env, Place(l, sel.start + lo), NewCut(l, sel.end))
    decreases |prepared| - lo
  {
    if lo < |prepared| {
      SummarisedPlaces(l, sel, env, prepared, lo + 1);
      InRangeKept(l, sel, sel.start + lo);
      PositionPlace(l, sel.start + lo);
    }
  }

  // The messages of an earlier compaction that are still kept are passed over.
  lemma {:induction false} KeptPassedOver(l: Ledger, sel: Selected, prepared: seq<Message>, lo: nat, hi: nat)
    requires Takes(l, sel) && lo <= hi <= |prepared| == sel.end - sel.start && sel.start + hi <= Base(l)
    requires 0 < lo && l.checkpoint.Some?
    ensures Summarised(prepared, lo, sel.kept, sel.start) == Summarised(prepared, hi, sel.kept, sel.start)
    decreases hi - lo
  {
    if lo < hi {
      InRangeKept(l, sel, sel.start + lo);
      KeptPassedOver(l, sel, prepared, lo + 1, hi);
    }
  }

  ghost predicate PreparedFor(l: Ledger, sel: Selected, env: Environment, prepared: seq<Message>)
    requires Ordered(l)
  {
    && |prepared| == sel.end - sel.start
    && forall j :: 0 <= j < |prepared| ==>
         0 <= sel.start + j < Length(l) && prepared[j] == Sent(env, MessageAt(l, sel.start + j), sel.start + j)
  }

  lemma SummarisedSelection(l: Ledger, sel: Selected, env: Environment, prepared: seq<Message>)
    requires Takes(l, sel) && PreparedFor(l, sel, env, prepared)
    ensures l.cut <= NewCut(l, sel.end) <= |l.history|
    ensures Summarised(prepared, 0, sel.kept, sel.start) ==
            SentCheckpoint(l, env) + SentPlaces(l, env, l.cut, NewCut(l, sel.end))
  {
    var kept := Base(l) - sel.start;
    if l.checkpoint.Some? {
      InRangeKept(l, sel, sel.start);
      assert Summarised(prepared, 0, sel.kept, sel.start) == [prepared[0]] + Summarised(prepared, 1, sel.kept, sel.start);
      KeptPassedOver(l, sel, prepared, 1, if kept <= |prepared| then kept else |prepared|);
    }
    if kept <= |prepared| {
      SummarisedPlaces(l, sel, env, prepared, kept);
    }
  }

  // A compaction sends the summariser the old checkpoint, if there is one, and then exactly the
  // messages that the cut moves over, in order, without the metadata and context messages. The cut
  // never moves back, so over a run no message is summarised twice or passed over.
  lemma PayloadIsNextStretch(
    l: Ledger, st: LoopState, settings: Settings, stored: Option<ContextCheckpoint>, decision: Decision, env: Environment)
    requires Valid(l) && Describes(l, st)
    ensures var outcome, sel := Compact(st, settings, stored, decision, env), FinalSelection(st, settings, decision, env);
            outcome.Compacted? ==>
              && sel.Some? && l.cut <= NewCut(l, sel.value.end) <= |l.history|
              && outcome.payload == SentCheckpoint(l, env) + SentPlaces(l, env, l.cut, NewCut(l, sel.value.end))
  {
    if Compact(st, settings, stored, decision, env).Compacted? {
      PayloadOfCompaction(l, st, settings, stored, decision, env);
    }
  }

  lemma PayloadOfCompaction(
    l: Ledger, st: LoopState, settings: Settings, stored: Option<ContextCheckpoint>, decision: Decision, env: Environment)
    requires Valid(l) && Describes(l, st)
    requires Compact(st, settings, stored, decision, env).Compacted?
    ensures FinalSelection(st, settings, decision, env).Some?
    ensures var outcome, sel := Compact(st, settings, stored, decision, env), FinalSelection(st, settings, decision, env).value;
            && l.cut <= NewCut(l, sel.end) <= |l.history|
            && outcome.payload == SentCheckpoint(l, env) + SentPlaces(l, env, l.cut, NewCut(l, sel.end))
  {
    FinalSelectionOf(st, settings, stored, decision, env);
    FinalSelectionTakes(l, st, settings, decision, env);
    var first, sel := FirstSelection(st, settings, decision).value, FinalSelection(st, settings, decision, env).value;
    var prepared := PreparedMessages(st.messages, first.start, first.end, env)[..sel.end - first.start];
    PreparedSent(l, st.messages, first, sel, env);
    SummarisedSelection(l, sel, env, prepared);
  }

  lemma FinishedPayload(
      st: LoopState, settings: Settings, stored: Option<ContextCheckpoint>, first: Selected, sel: Selected, env: Environment)
    requires WellFormed(first, |st.messages|) && WellFormed(sel, |st.messages|)
    requires sel.start == first.start && sel.end <= first.end
    requires Finish(st, settings, stored, first, sel, env).Compacted?
    ensures Finish(st, settings, stored, first, sel, env).payload ==
            Summarised(PreparedMessages(st.messages, first.start, first.end, env)[..sel.end - first.start], 0, sel.kept, sel.start)
  {
  }

  lemma FinalSelectionOf(st: LoopState, settings: Settings, stored: Option<ContextCheckpoint>, decision: Decision,
        env: Environment)
    requires 0 <= st.fixedMessageCount && Compact(st, settings, stored, decision, env).Compacted?
    ensures FirstSelection(st, settings, decision).Some? && FinalSelection(st, settings, decision, env).Some?
    ensures var first, sel := FirstSelection(st, settings, decision).value, FinalSelection(st, settings, decision, env).value;
            && WellFormed(first, |st.messages|) && WellFormed(sel, |st.messages|)
            && sel.start == first.start && sel.end <= first.end
            && Compact(st, settings, stored, decision, env).payload ==
                 Summarised(PreparedMessages(st.messages, first.start, first.end, env)[..sel.end - first.start], 0, sel.kept, sel.start)
  {
    SelectionsFit(st, settings, decision, env);
    FinishedPayload(st, settings, stored, FirstSelection(st, settings, decision).value,
                    FinalSelection(st, settings, decision, env).value, env);
  }

  lemma PreparedSent(l: Ledger, ms: seq<Message>, first: Selected, sel: Selected, env: Environment)
    requires Takes(l, sel) && SameMessages(l, ms)
    requires WellFormed(first, |ms|) && WellFormed(sel, |ms|) && sel.start == first.start && sel.end <= first.end
    ensures PreparedFor(l, sel, env, PreparedMessages(ms, first.start, first.end, env)[..sel.end - first.start])
  {
    var prepared := PreparedMessages(ms, first.start, first.end, env);
    forall j | 0 <= j < sel.end - sel.start
      ensures prepared[j] == Sent(env, MessageAt(l, sel.start + j), sel.start + j)
    {
      assert ms[sel.start + j] == MessageAt(l, sel.start + j);
    }
  }
}
