/** The transcript a run starts with (the part of Run in agent/engine.go that builds it). */
module RunStart {
  import opened Text
  import opened Transcript
  import opened CheckpointStore
  import opened CompactionEngine
  import opened Ledgers

  // Text with the length of its message's JSON encoding.
  datatype Note = Note(text: string, jsonBytes: nat)

  // What Run is given. metadata is the injected runtime metadata, which is never empty.
  datatype RunInput = RunInput(
    systemPrompt: Message,
    loaded: Option<ContextCheckpoint>,
    history: seq<Message>,
    historyBoundaries: seq<string>,
    metadata: Note,
    notes: seq<Note>,
    current: Option<Message>,
    currentBoundary: string,
    task: Note,
    skipTaskMessage: bool,
    compactionOnly: bool)

  function UserMessage(note: Note): Message {
    Message(User, note.text, [], [], "", note.jsonBytes)
  }

  // ----- The transcript and the boundaries a run starts with -----

  // Messages and their boundaries, by index.
  datatype Marked = Marked(messages: seq<Message>, boundaries: map<int, string>)

  // One more message, with its boundary if that is not empty.
  function Mark(m: Marked, message: Message, boundary: string): Marked {
    Marked(m.messages + [message], if boundary != "" then m.boundaries[|m.messages| := boundary] else m.boundaries)
  }

  function Beginning(input: RunInput): Marked {
    var system := Marked([input.systemPrompt], map[]);
    if input.loaded.Some? then
      Mark(system, input.loaded.value.message, TrimSpace(input.loaded.value.coveredThrough))
    else system
  }

  predicate KeepsHistory(m: Message) {
    !m.role.System? && (TrimSpace(m.content) != "" || m.parts != [])
  }

  function WithHistory(input: RunInput, n: nat): Marked
    requires n <= |input.history|
  {
    if n == 0 then Beginning(input)
    else
      var before := WithHistory(input, n - 1);
      var m := input.history[n - 1];
      if m.role.System? || (TrimSpace(m.content) == "" && m.parts == []) then before
      else Mark(before, m,
                if n - 1 < |input.historyBoundaries| then TrimSpace(input.historyBoundaries[n - 1]) else "")
  }

  function NonBlank(notes: seq<Note>, n: nat): (messages: seq<Message>)
    requires n <= |notes|
    ensures forall j :: 0 <= j < |messages| ==> IsPlainUserMessage(messages[j])
  {
    if n == 0 then []
    else NonBlank(notes, n - 1) + if TrimSpace(notes[n - 1].text) == "" then [] else [UserMessage(notes[n - 1])]
  }

  function WithMeta(input: RunInput): Marked {
    var before := WithHistory(input, |input.history|);
    Marked(before.messages + [UserMessage(input.metadata)] + NonBlank(input.notes, |input.notes|), before.boundaries)
  }

  function WithCurrent(input: RunInput): Marked {
    var before := WithMeta(input);
    match input.current
    case Some(m) =>
      if TrimSpace(m.content) != "" || m.parts != [] then Mark(before, m.(role := User), TrimSpace(input.currentBoundary))
      else before
    case None =>
      if !input.skipTaskMessage && TrimSpace(input.task.text) != "" then
        Mark(before, UserMessage(input.task), TrimSpace(input.currentBoundary))
      else before
  }

  function MetaIndex(input: RunInput): int {
    |WithHistory(input, |input.history|).messages|
  }

  function StartState(input: RunInput): LoopState {
    var all := WithCurrent(input);
    LoopState(all.messages, 1, Some(MetaIndex(input)), |NonBlank(input.notes, |input.notes|)|, all.boundaries,
              if input.compactionOnly then {|all.messages| - 1} else {}, input.loaded, 0, 0, false)
  }

  // ----- The ledger of a run that starts -----

  function Offset(loaded: Option<ContextCheckpoint>): int {
    if loaded.Some? then 1 else 0
  }

  // The index in the transcript of the message at place h of the history, the system prompt apart.
  function Behind(h: int, offset: int): int {
    h + offset
  }

  // The ledger of a transcript that was not compacted yet: its history is the transcript without a
  // loaded checkpoint.
  function LedgerOf(all: Marked, meta: int, context: int, loaded: Option<ContextCheckpoint>, protectLast: bool): Ledger
    requires |all.messages| > 1 + Offset(loaded)
  {
    var offset := Offset(loaded);
    var history := all.messages[..1] + all.messages[1 + offset..];
    Ledger(history,
           map h | 1 <= h < |history| && Behind(h, offset) in all.boundaries :: all.boundaries[Behind(h, offset)],
           if protectLast then {|history| - 1} else {}, 1, Some(meta - offset), context, 1, loaded,
           if loaded.Some? then TrimSpace(loaded.value.coveredThrough) else "", loaded)
  }

  function StartLedger(input: RunInput): Ledger
    requires |WithCurrent(input).messages| > 1 + Offset(input.loaded)
  {
    LedgerOf(WithCurrent(input), MetaIndex(input), |NonBlank(input.notes, |input.notes|)|, input.loaded, input.compactionOnly)
  }

  // ----- Building the transcript -----

  predicate ValidInput(input: RunInput) {
    input.systemPrompt.role.System? && input.metadata.text != ""
  }

  predicate LoadAccepted(loaded: Option<ContextCheckpoint>) {
    loaded.Some? ==> loaded.value.message.role.User? && TrimSpace(loaded.value.message.content) != ""
  }

  method BeginTranscript(input: RunInput) returns (accepted: bool, messages: seq<Message>, boundaries: map<int, string>)
    ensures accepted <==> LoadAccepted(input.loaded)
    ensures accepted ==> Marked(messages, boundaries) == Beginning(input)
  {
    messages, boundaries := [input.systemPrompt], map[];
    var fixedMessageCount := |messages|;
    if input.loaded.Some? {
      var checkpoint := input.loaded.value;
      if !checkpoint.message.role.User? || TrimSpace(checkpoint.message.content) == "" {
        return false, messages, boundaries;
      }
      messages := messages[..fixedMessageCount] + [checkpoint.message] + messages[fixedMessageCount..];
      var boundary := TrimSpace(checkpoint.coveredThrough);
      if boundary != "" {
        boundaries := boundaries[fixedMessageCount := boundary];
      }
    }
    return true, messages, boundaries;
  }

  method AppendHistory(input: RunInput, messages: seq<Message>, boundaries: map<int, string>)
    returns (longer: seq<Message>, marked: map<int, string>)
    requires Marked(messages, boundaries) == WithHistory(input, 0)
    ensures Marked(longer, marked) == WithHistory(input, |input.history|)
  {
    longer, marked := messages, boundaries;
    for i := 0 to |input.history|
      invariant Marked(longer, marked) == WithHistory(input, i)
    {
      var m := input.history[i];
      if m.role.System? {
        continue;
      }
      if TrimSpace(m.content) == "" && m.parts == [] {
        continue;
      }
      var index := |longer|;
      longer := longer + [m];
      if i < |input.historyBoundaries| {
        var boundary := TrimSpace(input.historyBoundaries[i]);
        if boundary != "" {
          marked := marked[index := boundary];
        }
      }
    }
  }

  method AppendNotes(notes: seq<Note>, messages: seq<Message>) returns (longer: seq<Message>, count: nat)
    ensures longer == messages + NonBlank(notes, |notes|) && count == |NonBlank(notes, |notes|)|
  {
    longer, count := messages, 0;
    for i := 0 to |notes|
      invariant longer == messages + NonBlank(notes, i) && count == |NonBlank(notes, i)|
    {
      if TrimSpace(notes[i].text) == "" {
        continue;
      }
      longer := longer + [UserMessage(notes[i])];
      count := count + 1;
    }
  }

  method AppendCurrent(input: RunInput, messages: seq<Message>, boundaries: map<int, string>)
    returns (longer: seq<Message>, marked: map<int, string>)
    requires Marked(messages, boundaries) == WithMeta(input)
    ensures Marked(longer, marked) == WithCurrent(input)
  {
    longer, marked := messages, boundaries;
    var added := UserMessage(input.task);
    var wanted := !input.skipTaskMessage && TrimSpace(input.task.text) != "";
    if input.current.Some? {
      added := input.current.value.(role := User);
      wanted := TrimSpace(added.content) != "" || added.parts != [];
    }
    if wanted {
      longer := messages + [added];
      var boundary := TrimSpace(input.currentBoundary);
      if boundary != "" {
        marked := boundaries[|messages| := boundary];
      }
    }
  }

  method BuildState(input: RunInput) returns (st: Option<LoopState>)
    ensures st == if LoadAccepted(input.loaded) then Some(StartState(input)) else None
  {
    var accepted, messages, boundaries := BeginTranscript(input);
    if !accepted {
      return None;
    }
    messages, boundaries := AppendHistory(input, messages, boundaries);
    var meta := |messages|;
    messages := messages + [UserMessage(input.metadata)];
    var contextMessageCount;
    messages, contextMessageCount := AppendNotes(input.notes, messages);
    assert Marked(messages, boundaries) == WithMeta(input);
    messages, boundaries := AppendCurrent(input, messages, boundaries);
    var protected := {};
    if input.compactionOnly && messages != [] {
      protected := {|messages| - 1};
    }
    NeverEmpty(input);
    return Some(LoopState(messages, 1, Some(meta), contextMessageCount, boundaries, protected, input.loaded, 0, 0, false));
  }

  lemma NeverEmpty(input: RunInput)
    ensures WithCurrent(input).messages != []
  {
  }

  // Builds the loop state a run starts with, none when the loaded checkpoint is unusable. It is a
  // state that a ledger describes, so everything proved of runs holds from here on.
  method BuildInitialState(input: RunInput) returns (st: Option<LoopState>)
    requires ValidInput(input)
    ensures st == if LoadAccepted(input.loaded) then Some(StartState(input)) else None
    ensures |WithCurrent(input).messages| > 1 + Offset(input.loaded)
    ensures Valid(StartLedger(input)) && Describes(StartLedger(input), StartState(input))
  {
    StartDescribed(input);
    st := BuildState(input);
  }

  // ----- The start of every run is described by its ledger -----

  ghost predicate ProperMarks(m: Marked) {
    forall p :: p in m.boundaries ==>
      1 <= p < |m.messages| && m.boundaries[p] != "" && TrimSpace(m.boundaries[p]) == m.boundaries[p]
  }

  lemma MarkProper(m: Marked, message: Message, boundary: string)
    requires ProperMarks(m) && m.messages != [] && TrimSpace(boundary) == boundary
    ensures ProperMarks(Mark(m, message, boundary))
  {
  }

  // Every stage keeps what it found, and a loaded checkpoint's mark stays its own.
  ghost predicate Grown(loaded: Option<ContextCheckpoint>, m: Marked) {
    && ProperMarks(m)
    && |m.messages| >= 1 + Offset(loaded)
    && (loaded.Some? ==>
          && m.messages[1] == loaded.value.message
          && (1 in m.boundaries <==> TrimSpace(loaded.value.coveredThrough) != "")
          && (1 in m.boundaries ==> m.boundaries[1] == TrimSpace(loaded.value.coveredThrough)))
  }

  lemma BeginningGrown(input: RunInput)
    ensures Grown(input.loaded, Beginning(input))
  {
    if input.loaded.Some? {
      TrimSpaceIdempotent(input.loaded.value.coveredThrough);
      MarkProper(Marked([input.systemPrompt], map[]), input.loaded.value.message, TrimSpace(input.loaded.value.coveredThrough));
    }
  }

  lemma MarkGrown(input: RunInput, m: Marked, message: Message, boundary: string)
    requires Grown(input.loaded, m) && TrimSpace(boundary) == boundary
    ensures Grown(input.loaded, Mark(m, message, boundary))
  {
    MarkProper(m, message, boundary);
  }

  lemma {:induction false} HistoryGrown(input: RunInput, n: nat)
    requires n <= |input.history|
    ensures Grown(input.loaded, WithHistory(input, n))
  {
    if n == 0 {
      BeginningGrown(input);
    } else {
      HistoryGrown(input, n - 1);
      var boundary := if n - 1 < |input.historyBoundaries| then TrimSpace(input.historyBoundaries[n - 1]) else "";
      if n - 1 < |input.historyBoundaries| {
        TrimSpaceIdempotent(input.historyBoundaries[n - 1]);
      }
      MarkGrown(input, WithHistory(input, n - 1), input.history[n - 1], boundary);
    }
  }

  lemma CurrentGrown(input: RunInput)
    ensures Grown(input.loaded, WithCurrent(input))
    ensures WithMeta(input).messages <= WithCurrent(input).messages
    ensures forall p :: p in WithCurrent(input).boundaries ==>
      p < MetaIndex(input) || p >= |WithMeta(input).messages|
  {
    HistoryGrown(input, |input.history|);
    assert Grown(input.loaded, WithMeta(input));
    TrimSpaceIdempotent(input.currentBoundary);
    MarkGrown(input, WithMeta(input), UserMessage(input.task), TrimSpace(input.currentBoundary));
    if input.current.Some? {
      MarkGrown(input, WithMeta(input), input.current.value.(role := User), TrimSpace(input.currentBoundary));
    }
  }

  lemma StartOrdered(input: RunInput)
    ensures |WithCurrent(input).messages| > 1 + Offset(input.loaded)
    ensures Ordered(StartLedger(input)) && Base(StartLedger(input)) == 1 + Offset(input.loaded)
    ensures Length(StartLedger(input)) == |WithCurrent(input).messages|
    ensures Position(StartLedger(input), StartLedger(input).meta.value) == MetaIndex(input)
  {
    CurrentGrown(input);
    HistoryGrown(input, |input.history|);
  }

  // A ledger whose metadata has not been passed by the cut.
  ghost predicate Uncut(l: Ledger, all: Marked, loaded: Option<ContextCheckpoint>) {
    && Ordered(l) && l.cut == 1 && l.checkpoint == loaded
    && Base(l) == 1 + Offset(loaded) && Length(l) == |all.messages|
    && Grown(loaded, all)
  }

  lemma UncutPlace(l: Ledger, all: Marked, loaded: Option<ContextCheckpoint>, p: int)
    requires Uncut(l, all, loaded)
    ensures !IsCheckpointAt(l, p) ==> Place(l, p) == if p < 1 then p else p - Offset(loaded)
  {
  }

  lemma StartMessages(all: Marked, meta: int, context: int, loaded: Option<ContextCheckpoint>, protectLast: bool)
    requires |all.messages| > 1 + Offset(loaded) && Uncut(LedgerOf(all, meta, context, loaded, protectLast), all, loaded)
    ensures SameMessages(LedgerOf(all, meta, context, loaded, protectLast), all.messages)
  {
    var l := LedgerOf(all, meta, context, loaded, protectLast);
    forall p | 0 <= p < |all.messages| ensures all.messages[p] == MessageAt(l, p) {
      UncutPlace(l, all, loaded, p);
    }
  }

  lemma StartBoundaryAt(all: Marked, meta: int, context: int, loaded: Option<ContextCheckpoint>, protectLast: bool,
        p: int)
    requires |all.messages| > 1 + Offset(loaded) && Uncut(LedgerOf(all, meta, context, loaded, protectLast), all, loaded)
    ensures BoundaryAt(LedgerOf(all, meta, context, loaded, protectLast), p) ==
            if p in all.boundaries then all.boundaries[p] else ""
  {
    var l := LedgerOf(all, meta, context, loaded, protectLast);
    UncutPlace(l, all, loaded, p);
    var h := p - Offset(loaded);
    assert h in l.boundaries <==> 1 <= h < |l.history| && Behind(h, Offset(loaded)) in all.boundaries;
    if p < 1 {
      assert p !in l.boundaries;
    }
  }

  lemma StartBoundaries(all: Marked, meta: int, context: int, loaded: Option<ContextCheckpoint>, protectLast: bool)
    requires |all.messages| > 1 + Offset(loaded) && Uncut(LedgerOf(all, meta, context, loaded, protectLast), all, loaded)
    ensures SameBoundaries(LedgerOf(all, meta, context, loaded, protectLast), all.boundaries)
  {
    var l := LedgerOf(all, meta, context, loaded, protectLast);
    forall p
      ensures p in all.boundaries <==> 0 <= p < Length(l) && BoundaryAt(l, p) != ""
      ensures p in all.boundaries ==> all.boundaries[p] == BoundaryAt(l, p)
    {
      StartBoundaryAt(all, meta, context, loaded, protectLast, p);
    }
  }

  lemma StartProtected(all: Marked, meta: int, context: int, loaded: Option<ContextCheckpoint>, protectLast: bool)
    requires |all.messages| > 1 + Offset(loaded) && Uncut(LedgerOf(all, meta, context, loaded, protectLast), all, loaded)
    ensures SameProtected(LedgerOf(all, meta, context, loaded, protectLast), if protectLast then {|all.messages| - 1} else {})
  {
    var l := LedgerOf(all, meta, context, loaded, protectLast);
    forall p
      ensures p in (if protectLast then {|all.messages| - 1} else {}) <==>
              0 <= p < Length(l) && !IsCheckpointAt(l, p) && Place(l, p) in l.protected
    {
      UncutPlace(l, all, loaded, p);
    }
  }

  lemma MetaRangePlain(input: RunInput, q: int)
    requires ValidInput(input) && MetaIndex(input) <= q <= MetaIndex(input) + |NonBlank(input.notes, |input.notes|)|
    ensures q < |WithMeta(input).messages| && IsPlainUserMessage(WithMeta(input).messages[q])
  {
    var notes := NonBlank(input.notes, |input.notes|);
    assert q > MetaIndex(input) ==> WithMeta(input).messages[q] == notes[q - MetaIndex(input) - 1];
  }

  lemma HistoryAt(all: Marked, meta: int, context: int, loaded: Option<ContextCheckpoint>, protectLast: bool, h: int)
    requires |all.messages| > 1 + Offset(loaded)
    ensures var l := LedgerOf(all, meta, context, loaded, protectLast);
            && (1 <= h < |l.history| ==> l.history[h] == all.messages[h + Offset(loaded)])
            && (h in l.boundaries ==> h + Offset(loaded) in all.boundaries)
  {
    var l := LedgerOf(all, meta, context, loaded, protectLast);
    assert h in l.boundaries ==> Behind(h, Offset(loaded)) in all.boundaries;
  }

  // The metadata and context messages are plain, and none has a boundary.
  lemma StartRange(input: RunInput, h: int)
    requires ValidInput(input)
    requires |WithCurrent(input).messages| > 1 + Offset(input.loaded) && Ordered(StartLedger(input))
    requires InMetaRange(StartLedger(input), h)
    ensures IsPlainUserMessage(StartLedger(input).history[h]) && h !in StartLedger(input).boundaries
  {
    var q := h + Offset(input.loaded);
    HistoryAt(WithCurrent(input), MetaIndex(input), |NonBlank(input.notes, |input.notes|)|, input.loaded, input.compactionOnly, h);
    MetaRangePlain(input, q);
    CurrentGrown(input);
    assert WithCurrent(input).messages[q] == WithMeta(input).messages[q];
  }

  lemma StartValid(input: RunInput)
    requires ValidInput(input)
    requires |WithCurrent(input).messages| > 1 + Offset(input.loaded) && Ordered(StartLedger(input))
    requires Grown(input.loaded, WithCurrent(input))
    ensures Valid(StartLedger(input))
  {
    var l := StartLedger(input);
    forall h | InMetaRange(l, h) ensures IsPlainUserMessage(l.history[h]) && h !in l.boundaries {
      StartRange(input, h);
    }
    if input.loaded.Some? {
      TrimSpaceIdempotent(input.loaded.value.coveredThrough);
    }
    assert LastBoundary(l.boundaries, 1, 1) == "";
  }

  lemma StartDescribed(input: RunInput)
    requires ValidInput(input)
    ensures |WithCurrent(input).messages| > 1 + Offset(input.loaded)
    ensures Valid(StartLedger(input)) && Describes(StartLedger(input), StartState(input))
  {
    CurrentGrown(input);
    StartOrdered(input);
    StartValid(input);
    StartParts(input);
  }

  lemma StartParts(input: RunInput)
    requires |WithCurrent(input).messages| > 1 + Offset(input.loaded)
    requires Uncut(StartLedger(input), WithCurrent(input), input.loaded)
    ensures SameMessages(StartLedger(input), StartState(input).messages)
    ensures SameBoundaries(StartLedger(input), StartState(input).messageBoundaries)
    ensures SameProtected(StartLedger(input), StartState(input).protectedIndexes)
  {
    var all, meta, context := WithCurrent(input), MetaIndex(input), |NonBlank(input.notes, |input.notes|)|;
    StartMessages(all, meta, context, input.loaded, input.compactionOnly);
    StartBoundaries(all, meta, context, input.loaded, input.compactionOnly);
    StartProtected(all, meta, context, input.loaded, input.compactionOnly);
  }
}
