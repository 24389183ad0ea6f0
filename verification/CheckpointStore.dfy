/**
 The checkpoint store of a run (agent/context_checkpoint_store.go): a save names the revision it is
 based on and is refused when another save came first.
 */
module CheckpointStore {
  import opened Text
  import opened Transcript

  // Times are ticks of a clock; 0 is Go's zero time.
  datatype ContextCheckpoint = ContextCheckpoint(
    version: int,
    revision: int,
    message: Message,
    coveredThrough: string,
    sourceModel: string,
    sourceRunId: string,
    compactionCount: int,
    createdAt: int,
    updatedAt: int)

  datatype StoreResult = Done | Cancelled | Invalid | Conflict

  predicate ValidCheckpoint(checkpoint: ContextCheckpoint, expectedRevision: int) {
    && checkpoint.version > 0
    && expectedRevision >= 0 && checkpoint.revision == expectedRevision + 1
    && checkpoint.message.role.User? && TrimSpace(checkpoint.message.content) != ""
    && checkpoint.compactionCount >= 0
  }

  function RevisionOf(stored: Option<ContextCheckpoint>): int {
    if stored.Some? then stored.value.revision else 0
  }

  function SaveResult(
    stored: Option<ContextCheckpoint>, cancelled: bool, expectedRevision: int, checkpoint: ContextCheckpoint): StoreResult
  {
    if cancelled then Cancelled
    else if !ValidCheckpoint(checkpoint, expectedRevision) then Invalid
    else if RevisionOf(stored) != expectedRevision then Conflict
    else Done
  }

  class RunLocalCheckpointStore {
    var checkpoint: Option<ContextCheckpoint>

    constructor (initial: Option<ContextCheckpoint>)
      ensures checkpoint == initial
    {
      checkpoint := initial;
    }

    method Load() returns (loaded: Option<ContextCheckpoint>)
      ensures loaded == checkpoint
    {
      loaded := checkpoint;
    }

    method Save(cancelled: bool, expectedRevision: int, saved: ContextCheckpoint) returns (result: StoreResult)
      modifies this
      ensures result == SaveResult(old(checkpoint), cancelled, expectedRevision, saved)
      ensures checkpoint == if result.Done? then Some(saved) else old(checkpoint)
    {
      if cancelled {
        return Cancelled;
      }
      if !ValidCheckpoint(saved, expectedRevision) {
        return Invalid;
      }
      var currentRevision := 0;
      if checkpoint.Some? {
        currentRevision := checkpoint.value.revision;
      }
      if currentRevision != expectedRevision {
        return Conflict;
      }
      checkpoint := Some(saved);
      return Done;
    }

    method Delete(cancelled: bool, expectedRevision: int) returns (result: StoreResult)
      modifies this
      ensures result == if cancelled then Cancelled
                        else if RevisionOf(old(checkpoint)) != expectedRevision then Conflict
                        else Done
      ensures checkpoint == if result.Done? then None else old(checkpoint)
    {
      if cancelled {
        return Cancelled;
      }
      var currentRevision := if checkpoint.Some? then checkpoint.value.revision else 0;
      if currentRevision != expectedRevision {
        return Conflict;
      }
      checkpoint := None;
      return Done;
    }
  }

  // ----- Several writers sharing one store -----

  // A successful save: the checkpoint its writer held and the one it stored.
  datatype Saved = Saved(base: Option<ContextCheckpoint>, next: ContextCheckpoint)

  datatype SharedStore = SharedStore(
    stored: Option<ContextCheckpoint>,
    held: map<nat, Option<ContextCheckpoint>>,
    log: seq<Saved>)

  // LoadBy: a run starts and reads the store. SaveBy: a run compacts; it names the revision it holds.
  // ResumeBy: a paused run continues under another writer, if the store still has the revision of the
  // checkpoint it held at the pause.
  datatype StoreStep =
    | LoadBy(writer: nat)
    | SaveBy(writer: nat, next: ContextCheckpoint, cancelled: bool)
    | ResumeBy(writer: nat, paused: nat)

  predicate ResumeAccepted(stored: Option<ContextCheckpoint>, atPause: Option<ContextCheckpoint>) {
    stored.Some? == atPause.Some? && RevisionOf(stored) == RevisionOf(atPause)
  }

  function Next(s: SharedStore, step: StoreStep): SharedStore {
    match step
    case LoadBy(w) => s.(held := s.held[w := s.stored])
    case SaveBy(w, next, cancelled) =>
      if w in s.held && SaveResult(s.stored, cancelled, RevisionOf(s.held[w]), next).Done? then
        SharedStore(Some(next), s.held[w := Some(next)], s.log + [Saved(s.held[w], next)])
      else s
    case ResumeBy(w, paused) =>
      if paused in s.held && ResumeAccepted(s.stored, s.held[paused]) then s.(held := s.held[w := s.stored])
      else s
  }

  // The store and its writers after a history of steps.
  function History(initial: Option<ContextCheckpoint>, steps: seq<StoreStep>): SharedStore {
    if steps == [] then SharedStore(initial, map[], [])
    else Next(History(initial, steps[..|steps| - 1]), steps[|steps| - 1])
  }

  // What was stored after k saves.
  function StoredAfter(initial: Option<ContextCheckpoint>, log: seq<Saved>, k: nat): Option<ContextCheckpoint>
    requires k <= |log|
  {
    if k == 0 then initial else Some(log[k - 1].next)
  }

  // Saves carry consecutive revisions, each made by a writer that held exactly what it replaced.
  ghost predicate Linear(initial: Option<ContextCheckpoint>, log: seq<Saved>) {
    forall k :: 0 <= k < |log| ==>
      && log[k].base == StoredAfter(initial, log, k)
      && log[k].next.revision == RevisionOf(initial) + k + 1
  }

  ghost predicate Invariant(initial: Option<ContextCheckpoint>, s: SharedStore) {
    && (initial.Some? ==> initial.value.revision >= 1)
    && Linear(initial, s.log)
    && s.stored == StoredAfter(initial, s.log, |s.log|)
    && forall w :: w in s.held ==> Seen(initial, s.log, s.held[w])
  }

  // A checkpoint that was stored at some time.
  ghost predicate Seen(initial: Option<ContextCheckpoint>, log: seq<Saved>, c: Option<ContextCheckpoint>) {
    exists k :: 0 <= k <= |log| && StoredAfter(initial, log, k) == c
  }

  // The k-th stored checkpoint has the k-th revision.
  predicate Numbered(initial: Option<ContextCheckpoint>, log: seq<Saved>, k: nat) {
    k <= |log| && RevisionOf(StoredAfter(initial, log, k)) == RevisionOf(initial) + k
  }

  lemma RevisionAfter(initial: Option<ContextCheckpoint>, log: seq<Saved>, k: nat)
    requires Linear(initial, log) && k <= |log|
    ensures Numbered(initial, log, k)
  {
  }

  // The revision names the checkpoint.
  lemma RevisionIdentifies(initial: Option<ContextCheckpoint>, s: SharedStore, c: Option<ContextCheckpoint>)
    requires Invariant(initial, s) && Seen(initial, s.log, c)
    ensures RevisionOf(c) == RevisionOf(s.stored) <==> c == s.stored
  {
    forall k: nat | k <= |s.log| ensures Numbered(initial, s.log, k) {
      RevisionAfter(initial, s.log, k);
    }
    RevisionInLog(initial, s.log, c);
  }

  lemma RevisionInLog(initial: Option<ContextCheckpoint>, log: seq<Saved>, c: Option<ContextCheckpoint>)
    requires Seen(initial, log, c) && forall k: nat :: k <= |log| ==> Numbered(initial, log, k)
    ensures var stored := StoredAfter(initial, log, |log|); RevisionOf(c) == RevisionOf(stored) <==> c == stored
  {
    var k :| 0 <= k <= |log| && StoredAfter(initial, log, k) == c;
    assert Numbered(initial, log, k) && Numbered(initial, log, |log|);
  }

  lemma StillSeen(initial: Option<ContextCheckpoint>, log: seq<Saved>, saved: Saved, c: Option<ContextCheckpoint>)
    requires Seen(initial, log, c)
    ensures Seen(initial, log + [saved], c)
  {
    var k :| 0 <= k <= |log| && StoredAfter(initial, log, k) == c;
    assert StoredAfter(initial, log + [saved], k) == c;
  }

  lemma LinearExtended(initial: Option<ContextCheckpoint>, log: seq<Saved>, saved: Saved)
    requires Linear(initial, log)
    requires saved.base == StoredAfter(initial, log, |log|)
    requires saved.next.revision == RevisionOf(initial) + |log| + 1
    ensures Linear(initial, log + [saved])
  {
    var longer := log + [saved];
    forall k | 0 <= k < |longer|
      ensures longer[k].base == StoredAfter(initial, longer, k)
      ensures longer[k].next.revision == RevisionOf(initial) + k + 1
    {
      assert k < |log| ==> longer[k] == log[k];
      assert StoredAfter(initial, longer, k) == StoredAfter(initial, log, k);
    }
  }

  lemma SaveKeepsInvariant(initial: Option<ContextCheckpoint>, s: SharedStore, w: nat, next: ContextCheckpoint)
    requires Invariant(initial, s) && w in s.held
    requires SaveResult(s.stored, false, RevisionOf(s.held[w]), next).Done?
    ensures Invariant(initial, SharedStore(Some(next), s.held[w := Some(next)], s.log + [Saved(s.held[w], next)]))
  {
    var saved := Saved(s.held[w], next);
    RevisionIdentifies(initial, s, s.held[w]);
    assert RevisionOf(s.stored) == RevisionOf(initial) + |s.log|;
    LinearExtended(initial, s.log, saved);
    assert StoredAfter(initial, s.log + [saved], |s.log| + 1) == Some(next);
    var held := s.held[w := Some(next)];
    forall v | v in held ensures Seen(initial, s.log + [saved], held[v]) {
      if v != w {
        StillSeen(initial, s.log, saved, s.held[v]);
      }
    }
  }

  lemma NextKeepsInvariant(initial: Option<ContextCheckpoint>, s: SharedStore, step: StoreStep)
    requires Invariant(initial, s)
    ensures Invariant(initial, Next(s, step))
  {
    assert StoredAfter(initial, s.log, |s.log|) == s.stored;
    match step
    case LoadBy(w) =>
    case ResumeBy(w, paused) =>
    case SaveBy(w, next, cancelled) =>
      if w in s.held && SaveResult(s.stored, cancelled, RevisionOf(s.held[w]), next).Done? {
        SaveKeepsInvariant(initial, s, w, next);
      }
  }

  // No update is lost: in every history of any number of writers, starting from any stored checkpoint,
  // the successful saves carry consecutive revisions and each replaces exactly what its writer held.
  lemma {:induction false} NoLostUpdate(initial: Option<ContextCheckpoint>, steps: seq<StoreStep>)
    requires initial.Some? ==> initial.value.revision >= 1
    ensures var end := History(initial, steps);
            Linear(initial, end.log) && end.stored == StoredAfter(initial, end.log, |end.log|)
            && Invariant(initial, end)
  {
    if steps == [] {
    } else {
      NoLostUpdate(initial, steps[..|steps| - 1]);
      NextKeepsInvariant(initial, History(initial, steps[..|steps| - 1]), steps[|steps| - 1]);
    }
  }

  // A paused run is resumed only when the store holds the very checkpoint it held at the pause.
  lemma ResumeSeesPausedCheckpoint(initial: Option<ContextCheckpoint>, steps: seq<StoreStep>, paused: nat)
    requires initial.Some? ==> initial.value.revision >= 1
    requires paused in History(initial, steps).held
    ensures var s := History(initial, steps);
            ResumeAccepted(s.stored, s.held[paused]) <==> s.stored == s.held[paused]
  {
    NoLostUpdate(initial, steps);
    var s := History(initial, steps);
    RevisionIdentifies(initial, s, s.held[paused]);
  }

  // A run that is alone with its store never meets a conflict.
  lemma {:induction false} SoleWriterNeverConflicts(initial: Option<ContextCheckpoint>, w: nat,
        steps: seq<StoreStep>, next: ContextCheckpoint)
    requires forall k :: 0 <= k < |steps| ==> steps[k].writer == w && (steps[k].ResumeBy? ==> steps[k].paused == w)
    requires w in History(initial, steps).held
    ensures var s := History(initial, steps);
            && s.held[w] == s.stored
            && !SaveResult(s.stored, false, RevisionOf(s.held[w]), next).Conflict?
  {
    if steps != [] {
      var before := History(initial, steps[..|steps| - 1]);
      assert steps[|steps| - 1].writer == w;
      if w in before.held {
        SoleWriterNeverConflicts(initial, w, steps[..|steps| - 1], next);
      }
    }
  }
}
