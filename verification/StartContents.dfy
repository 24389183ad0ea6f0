/**
 What a run starts with, message by message (the part of Run in agent/engine.go that builds the
 transcript): where each message of the input stands, and which boundary it carries.
 */
module StartContents {
  import opened Text
  import opened Transcript
  import opened CheckpointStore
  import opened CompactionEngine
  import opened RunStart

  // The message stands at the index and carries the boundary, or none if that is empty.
  predicate Stands(m: Marked, p: int, message: Message, boundary: string) {
    && 0 <= p < |m.messages| && m.messages[p] == message
    && (p in m.boundaries <==> boundary != "")
    && (p in m.boundaries ==> m.boundaries[p] == boundary)
  }

  predicate InRange(m: Marked) {
    forall p :: p in m.boundaries ==> 0 <= p < |m.messages|
  }

  lemma MarkStands(m: Marked, message: Message, boundary: string)
    requires InRange(m)
    ensures InRange(Mark(m, message, boundary)) && Stands(Mark(m, message, boundary), |m.messages|, message, boundary)
  {
  }

  lemma StillStands(m: Marked, p: int, message: Message, boundary: string, next: Message, nextBoundary: string)
    requires Stands(m, p, message, boundary)
    ensures Stands(Mark(m, next, nextBoundary), p, message, boundary)
  {
  }

  // ----- The history -----

  // The number of history messages before the k-th that go into the transcript.
  function KeptBefore(input: RunInput, k: nat): nat
    requires k <= |input.history|
  {
    if k == 0 then 0 else KeptBefore(input, k - 1) + if KeepsHistory(input.history[k - 1]) then 1 else 0
  }

  // Behind the system prompt and the checkpoint, if there is one.
  function HistoryPlace(input: RunInput, k: nat): nat
    requires k <= |input.history|
  {
    (if input.loaded.Some? then 2 else 1) + KeptBefore(input, k)
  }

  function GivenBoundary(input: RunInput, k: nat): string {
    if k < |input.historyBoundaries| then TrimSpace(input.historyBoundaries[k]) else ""
  }

  lemma {:induction false} HistoryLength(input: RunInput, n: nat)
    requires n <= |input.history|
    ensures |WithHistory(input, n).messages| == HistoryPlace(input, n) && InRange(WithHistory(input, n))
  {
    if n > 0 {
      HistoryLength(input, n - 1);
    }
  }

  lemma {:induction false} HistoryStands(input: RunInput, n: nat, k: nat)
    requires k < n <= |input.history| && KeepsHistory(input.history[k])
    ensures Stands(WithHistory(input, n), HistoryPlace(input, k), input.history[k], GivenBoundary(input, k))
  {
    HistoryLength(input, n - 1);
    if k == n - 1 {
      MarkStands(WithHistory(input, n - 1), input.history[k], GivenBoundary(input, k));
    } else {
      HistoryStands(input, n - 1, k);
      StillStands(WithHistory(input, n - 1), HistoryPlace(input, k), input.history[k], GivenBoundary(input, k),
                  input.history[n - 1], GivenBoundary(input, n - 1));
    }
  }

  // A boundary among the first n messages is the checkpoint's or that of a message given with one.
  ghost predicate Owned(input: RunInput, n: nat, p: int)
    requires n <= |input.history|
  {
    (p == 1 && input.loaded.Some?)
    || exists k: nat :: k < n && KeepsHistory(input.history[k]) && p == HistoryPlace(input, k)
  }

  lemma {:induction false} HistoryOwned(input: RunInput, n: nat, p: int)
    requires n <= |input.history| && p in WithHistory(input, n).boundaries
    ensures Owned(input, n, p)
  {
    if n > 0 {
      HistoryLength(input, n - 1);
      if p in WithHistory(input, n - 1).boundaries {
        HistoryOwned(input, n - 1, p);
        OwnedMore(input, n - 1, p);
      } else {
        assert KeepsHistory(input.history[n - 1]) && p == HistoryPlace(input, n - 1);
      }
    }
  }

  lemma OwnedMore(input: RunInput, n: nat, p: int)
    requires n < |input.history| && Owned(input, n, p)
    ensures Owned(input, n + 1, p)
  {
    if !(p == 1 && input.loaded.Some?) {
      var k: nat :| k < n && KeepsHistory(input.history[k]) && p == HistoryPlace(input, k);
      assert k < n + 1;
    }
  }

  // ----- The current message -----

  // The message the run is started for, if there is one.
  function CurrentMessage(input: RunInput): Option<Message> {
    match input.current
    case Some(m) => if TrimSpace(m.content) == "" && m.parts == [] then None else Some(m.(role := User))
    case None =>
      if input.skipTaskMessage || TrimSpace(input.task.text) == "" then None
      else Some(Message(User, input.task.text, [], [], "", input.task.jsonBytes))
  }

  lemma CurrentIs(input: RunInput)
    ensures WithCurrent(input) ==
            if CurrentMessage(input).None? then WithMeta(input)
            else Mark(WithMeta(input), CurrentMessage(input).value, TrimSpace(input.currentBoundary))
  {
  }

  lemma MetaExtends(input: RunInput)
    ensures WithHistory(input, |input.history|).messages <= WithMeta(input).messages <= WithCurrent(input).messages
    ensures WithMeta(input).boundaries == WithHistory(input, |input.history|).boundaries
  {
    CurrentIs(input);
  }

  // Every history message that is kept stands behind the kept ones before it, with its own boundary.
  lemma HistoryInTranscript(input: RunInput, k: nat)
    requires k < |input.history| && !input.history[k].role.System?
    requires TrimSpace(input.history[k].content) != "" || input.history[k].parts != []
    ensures var all := Marked(StartState(input).messages, StartState(input).messageBoundaries);
            Stands(all, HistoryPlace(input, k), input.history[k], GivenBoundary(input, k))
  {
    var before := WithHistory(input, |input.history|);
    HistoryStands(input, |input.history|, k);
    HistoryLength(input, |input.history|);
    MetaExtends(input);
    CurrentIs(input);
  }

  // The message the run is started for stands last, as the user's, with the boundary given for it.
  lemma CurrentInTranscript(input: RunInput)
    ensures var all := Marked(StartState(input).messages, StartState(input).messageBoundaries);
            CurrentMessage(input).Some? ==>
              Stands(all, |all.messages| - 1, CurrentMessage(input).value, TrimSpace(input.currentBoundary))
  {
    HistoryLength(input, |input.history|);
    MetaExtends(input);
    CurrentIs(input);
  }

  // No other index carries a boundary but the checkpoint's, which carries what it covers through.
  lemma BoundariesInTranscript(input: RunInput, p: int)
    ensures var st := StartState(input);
            p in st.messageBoundaries ==>
              || Owned(input, |input.history|, p)
              || (CurrentMessage(input).Some? && p == |st.messages| - 1)
    ensures var st := StartState(input);
            input.loaded.Some? ==>
              Stands(Marked(st.messages, st.messageBoundaries), 1, input.loaded.value.message,
                     TrimSpace(input.loaded.value.coveredThrough))
  {
    var before := WithHistory(input, |input.history|);
    CurrentIs(input);
    MetaExtends(input);
    if p in before.boundaries {
      HistoryOwned(input, |input.history|, p);
    }
    if input.loaded.Some? {
      CheckpointStands(input, |input.history|);
      HistoryLength(input, |input.history|);
    }
  }

  lemma {:induction false} CheckpointStands(input: RunInput, n: nat)
    requires n <= |input.history| && input.loaded.Some?
    ensures Stands(WithHistory(input, n), 1, input.loaded.value.message, TrimSpace(input.loaded.value.coveredThrough))
  {
    if n > 0 {
      CheckpointStands(input, n - 1);
      StillStands(WithHistory(input, n - 1), 1, input.loaded.value.message, TrimSpace(input.loaded.value.coveredThrough),
                  input.history[n - 1], GivenBoundary(input, n - 1));
    }
  }

  // ----- Metadata and context -----

  // The number of notes before the k-th that are not blank.
  function NotesBefore(notes: seq<Note>, k: nat): nat
    requires k <= |notes|
  {
    if k == 0 then 0 else NotesBefore(notes, k - 1) + if TrimSpace(notes[k - 1].text) != "" then 1 else 0
  }

  lemma {:induction false} NotesStand(notes: seq<Note>, n: nat, k: nat)
    requires n <= |notes|
    ensures |NonBlank(notes, n)| == NotesBefore(notes, n)
    ensures k < n && TrimSpace(notes[k].text) != "" ==>
      && NotesBefore(notes, k) < |NonBlank(notes, n)|
      && NonBlank(notes, n)[NotesBefore(notes, k)] == Message(User, notes[k].text, [], [], "", notes[k].jsonBytes)
  {
    if n > 0 {
      NotesStand(notes, n - 1, k);
    }
  }

  // The system prompt is first; behind the history stands the metadata, where its index says; then come
  // as many context messages as are counted, and the message the run is started for.
  lemma MetadataInTranscript(input: RunInput)
    ensures var st, meta := StartState(input), HistoryPlace(input, |input.history|);
            && st.metaMessageIndex == Some(meta) && st.contextMessageCount == NotesBefore(input.notes, |input.notes|)
            && |st.messages| == meta + 1 + st.contextMessageCount + |CurrentGiven(input)|
            && st.messages[0] == input.systemPrompt && st.fixedMessageCount == 1
            && st.messages[meta] == Message(User, input.metadata.text, [], [], "", input.metadata.jsonBytes)
  {
    var before := WithHistory(input, |input.history|).messages;
    HistoryLength(input, |input.history|);
    NotesStand(input.notes, |input.notes|, 0);
    SystemFirst(input, |input.history|);
    StartShape(input);
    NotesBehind(before, UserMessage(input.metadata), NonBlank(input.notes, |input.notes|), CurrentGiven(input),
                StartState(input).messages);
  }

  // Every note that is not blank is a context message, in order.
  lemma NotesInTranscript(input: RunInput, k: nat)
    requires k < |input.notes| && TrimSpace(input.notes[k].text) != ""
    ensures var st, p := StartState(input), HistoryPlace(input, |input.history|) + 1 + NotesBefore(input.notes, k);
            p < |st.messages| && st.messages[p] == Message(User, input.notes[k].text, [], [], "", input.notes[k].jsonBytes)
  {
    var before := WithHistory(input, |input.history|).messages;
    HistoryLength(input, |input.history|);
    NotesStand(input.notes, |input.notes|, k);
    StartShape(input);
    NotesBehind(before, UserMessage(input.metadata), NonBlank(input.notes, |input.notes|), CurrentGiven(input),
                StartState(input).messages);
  }

  function CurrentGiven(input: RunInput): seq<Message> {
    if CurrentMessage(input).Some? then [CurrentMessage(input).value] else []
  }

  lemma StartShape(input: RunInput)
    ensures StartState(input).messages ==
            WithHistory(input, |input.history|).messages + [UserMessage(input.metadata)] + NonBlank(input.notes, |input.notes|)
            + CurrentGiven(input)
  {
    CurrentIs(input);
  }

  lemma NotesBehind(before: seq<Message>, meta: Message, notes: seq<Message>, current: seq<Message>, all: seq<Message>)
    requires all == before + [meta] + notes + current
    ensures |all| == |before| + 1 + |notes| + |current| && all[|before|] == meta
    ensures before != [] ==> all[0] == before[0]
    ensures forall j :: 0 <= j < |notes| ==> all[|before| + 1 + j] == notes[j]
  {
  }

  lemma {:induction false} SystemFirst(input: RunInput, n: nat)
    requires n <= |input.history|
    ensures WithHistory(input, n).messages != [] && WithHistory(input, n).messages[0] == input.systemPrompt
  {
    if n > 0 {
      SystemFirst(input, n - 1);
    }
  }
}
