/**
 A run whose checkpoint store is shared with other runs: they save and delete between its steps
 (agent/context_checkpoint_store.go, resume in agent/engine_resume.go, the expiry of checkpoints in
 internal/contextcheckpoint/history.go). When does a resume find the checkpoint of the pause?
 */
module SharedRuns {
  import opened Text
  import opened Transcript
  import opened CheckpointStore
  import opened CompactionEngine
  import opened Ledgers
  import opened ResumeStates
  import opened CompactionRuns

  // Between the run's own steps, others save whatever the store accepts, or delete.
  datatype Happening =
    | Own(step: RunStep)
    | OthersSave(cancelled: bool, expectedRevision: int, next: ContextCheckpoint)
    | OthersDelete(cancelled: bool, expectedRevision: int)

  // log has what was stored since the last deletion, what is stored last; current says that the run
  // has read or written the store since then.
  datatype Shared = Shared(
    st: LoopState,
    stored: Option<ContextCheckpoint>,
    ghost log: seq<Option<ContextCheckpoint>>,
    ghost current: bool)

  ghost function Store(s: Shared, next: ContextCheckpoint): Shared {
    s.(stored := Some(next), log := s.log + [Some(next)])
  }

  // The run's own step works on what is stored.
  predicate Fits(s: Shared, step: RunStep) {
    && (step.CompactNow? ==> step.stored == s.stored)
    && (step.PauseAndResume? ==> step.external == Some(s.stored))
  }

  ghost function OwnStep(s: Shared, settings: Settings, step: RunStep): (after: Shared)
    requires 0 <= s.st.fixedMessageCount
    ensures after.st == Step(s.st, settings, step)
  {
    var moved := s.(st := Step(s.st, settings, step));
    match step
    case CompactNow(decision, stored, env) =>
      var outcome := Compact(s.st, settings, stored, decision, env);
      if outcome.Compacted? then Store(moved, outcome.checkpoint).(current := true) else moved
    case PauseAndResume(_) =>
      if ResumeAccepted(s.stored, s.st.checkpoint) then moved.(current := true) else moved
    case _ => moved
  }

  ghost function Next(s: Shared, settings: Settings, h: Happening): (after: Shared)
    requires 0 <= s.st.fixedMessageCount
    ensures after.st == if h.Own? then Step(s.st, settings, h.step) else s.st
  {
    match h
    case Own(step) => OwnStep(s, settings, step)
    case OthersSave(cancelled, expected, next) =>
      if SaveResult(s.stored, cancelled, expected, next).Done? then Store(s, next) else s
    case OthersDelete(cancelled, expected) =>
      if !cancelled && s.stored.Some? && RevisionOf(s.stored) == expected then
        s.(stored := None, log := [None], current := s.st.checkpoint.None?)
      else s
  }

  ghost function After(s: Shared, settings: Settings, hs: seq<Happening>): (after: Shared)
    requires 0 <= s.st.fixedMessageCount
    ensures 0 <= after.st.fixedMessageCount
  {
    if hs == [] then s
    else Next(After(s, settings, hs[..|hs| - 1]), settings, hs[|hs| - 1])
  }

  function OwnSteps(hs: seq<Happening>): seq<RunStep> {
    if hs == [] then []
    else
      var last := hs[|hs| - 1];
      OwnSteps(hs[..|hs| - 1]) + if last.Own? then [last.step] else []
  }

  ghost predicate AllFit(s: Shared, settings: Settings, hs: seq<Happening>)
    requires 0 <= s.st.fixedMessageCount
  {
    forall n :: 0 <= n < |hs| && hs[n].Own? ==> Fits(After(s, settings, hs[..n]), hs[n].step)
  }

  // Every resume comes at a time when the run has read or written the store since the last deletion.
  ghost predicate ResumesCurrent(s: Shared, settings: Settings, hs: seq<Happening>)
    requires 0 <= s.st.fixedMessageCount
  {
    forall n :: 0 <= n < |hs| && hs[n].Own? && hs[n].step.PauseAndResume? ==> After(s, settings, hs[..n]).current
  }

  // ----- The store between two deletions -----

  // Revisions count up from the first stored value.
  ghost predicate Counts(log: seq<Option<ContextCheckpoint>>) {
    && log != []
    && (log[0].Some? ==> log[0].value.revision >= 1)
    && forall k :: 0 < k < |log| ==> log[k].Some? && log[k].value.revision == RevisionOf(log[0]) + k
  }

  ghost predicate Inv(s: Shared) {
    && Counts(s.log) && s.stored == s.log[|s.log| - 1]
    && (s.current ==> s.st.checkpoint in s.log)
  }

  lemma RevisionNames(log: seq<Option<ContextCheckpoint>>, c: Option<ContextCheckpoint>)
    requires Counts(log) && c in log
    ensures ResumeAccepted(log[|log| - 1], c) <==> log[|log| - 1] == c
  {
    var k :| 0 <= k < |log| && log[k] == c;
    assert 0 < k ==> log[k].value.revision == RevisionOf(log[0]) + k;
  }

  lemma CountsOn(log: seq<Option<ContextCheckpoint>>, next: ContextCheckpoint)
    requires Counts(log) && next.revision == RevisionOf(log[|log| - 1]) + 1
    ensures Counts(log + [Some(next)])
  {
    var longer := log + [Some(next)];
    assert forall k :: 0 <= k < |log| ==> longer[k] == log[k];
  }

  lemma StoreKeeps(s: Shared, st: LoopState, next: ContextCheckpoint, mine: bool)
    requires Inv(s) && next.revision == RevisionOf(s.stored) + 1
    requires if mine then st.checkpoint == Some(next) else st == s.st
    ensures Inv(Store(s.(st := st), next).(current := mine || s.current))
  {
    CountsOn(s.log, next);
    assert mine ==> (s.log + [Some(next)])[|s.log|] == st.checkpoint;
  }

  lemma OwnKeeps(s: Shared, settings: Settings, step: RunStep)
    requires Inv(s) && 0 <= s.st.fixedMessageCount && Fits(s, step)
    requires step.PauseAndResume? ==>
      Step(s.st, settings, step).checkpoint == if ResumeAccepted(s.stored, s.st.checkpoint) then s.stored else s.st.checkpoint
    ensures Inv(OwnStep(s, settings, step))
  {
    if step.CompactNow? {
      var outcome := Compact(s.st, settings, step.stored, step.decision, step.env);
      if outcome.Compacted? {
        SavedRevision(s.st, settings, step.stored, step.decision, step.env);
        StoreKeeps(s, outcome.state, outcome.checkpoint, true);
      }
    }
  }

  // A compaction stores its checkpoint under the revision that follows the stored one.
  lemma SavedRevision(st: LoopState, settings: Settings, stored: Option<ContextCheckpoint>, decision: Decision,
        env: Environment)
    requires 0 <= st.fixedMessageCount && Compact(st, settings, stored, decision, env).Compacted?
    ensures var outcome := Compact(st, settings, stored, decision, env);
            outcome.checkpoint.revision == RevisionOf(stored) + 1 && outcome.state.checkpoint == Some(outcome.checkpoint)
  {
    SelectionsFit(st, settings, decision, env);
  }

  lemma NextKeeps(l: Ledger, s: Shared, settings: Settings, h: Happening)
    requires Valid(l) && Describes(l, s.st) && Inv(s) && (h.Own? ==> Fits(s, h.step))
    ensures Inv(Next(s, settings, h))
  {
    match h
    case Own(step) =>
      if step.PauseAndResume? {
        ResumedCheckpoint(l, s.st, settings, step);
      }
      OwnKeeps(s, settings, step);
    case _ => OthersKeep(s, settings, h);
  }

  lemma ResumedCheckpoint(l: Ledger, st: LoopState, settings: Settings, step: RunStep)
    requires Valid(l) && Describes(l, st) && step.PauseAndResume? && step.external.Some?
    ensures Step(st, settings, step).checkpoint ==
            if ResumeAccepted(step.external.value, st.checkpoint) then step.external.value else st.checkpoint
  {
    PauseRoundTrip(l, st, step.external);
  }

  lemma OthersKeep(s: Shared, settings: Settings, h: Happening)
    requires 0 <= s.st.fixedMessageCount && Inv(s) && !h.Own?
    ensures Inv(Next(s, settings, h))
  {
    if h.OthersSave? && SaveResult(s.stored, h.cancelled, h.expectedRevision, h.next).Done? {
      StoreKeeps(s, s.st, h.next, false);
    }
  }

  lemma {:induction false} OwnStepsAfter(s: Shared, settings: Settings, hs: seq<Happening>)
    requires 0 <= s.st.fixedMessageCount
    ensures After(s, settings, hs).st == StateAfter(s.st, settings, OwnSteps(hs))
  {
    if hs != [] {
      var init := hs[..|hs| - 1];
      OwnStepsAfter(s, settings, init);
      if hs[|hs| - 1].Own? {
        assert OwnSteps(hs)[..|OwnSteps(hs)| - 1] == OwnSteps(init);
      } else {
        assert OwnSteps(hs) == OwnSteps(init);
      }
    }
  }

  lemma FitsPrefix(s: Shared, settings: Settings, hs: seq<Happening>, m: nat)
    requires 0 <= s.st.fixedMessageCount && m <= |hs|
    ensures AllFit(s, settings, hs) ==> AllFit(s, settings, hs[..m])
    ensures ResumesCurrent(s, settings, hs) ==> ResumesCurrent(s, settings, hs[..m])
  {
    forall n | 0 <= n < m ensures hs[..m][..n] == hs[..n] && hs[..m][n] == hs[n] {
    }
  }

  lemma {:induction false} SharedKeeps(l: Ledger, s: Shared, settings: Settings, hs: seq<Happening>)
    requires Valid(l) && Describes(l, s.st) && Inv(s) && AllFit(s, settings, hs)
    ensures Inv(After(s, settings, hs))
  {
    if hs != [] {
      var n := |hs| - 1;
      FitsPrefix(s, settings, hs, n);
      SharedKeeps(l, s, settings, hs[..n]);
      OwnStepsAfter(s, settings, hs[..n]);
      RunKeepsLedger(l, s.st, settings, OwnSteps(hs[..n]));
      assert hs[n].Own? ==> Fits(After(s, settings, hs[..n]), hs[n].step);
      NextKeeps(LedgerAfter(l, s.st, settings, OwnSteps(hs[..n])), After(s, settings, hs[..n]), settings, hs[n]);
    }
  }

  // ----- The resumes of a run -----

  // The run's own n-th happening, if it is a resume, finds the checkpoint of the pause or none.
  ghost predicate FaithfulAt(s: Shared, settings: Settings, hs: seq<Happening>, n: nat)
    requires 0 <= s.st.fixedMessageCount && n < |hs|
  {
    hs[n].Own? ==> FaithfulStore(After(s, settings, hs[..n]).st, hs[n].step)
  }

  lemma CurrentIsFaithful(l: Ledger, s: Shared, settings: Settings, hs: seq<Happening>, n: nat)
    requires Valid(l) && Describes(l, s.st) && Inv(s) && AllFit(s, settings, hs) && ResumesCurrent(s, settings, hs)
    requires n < |hs|
    ensures FaithfulAt(s, settings, hs, n)
  {
    FitsPrefix(s, settings, hs, n);
    SharedKeeps(l, s, settings, hs[..n]);
    if hs[n].Own? {
      CurrentFinds(After(s, settings, hs[..n]), hs[n].step);
    }
  }

  lemma CurrentFinds(s: Shared, step: RunStep)
    requires Inv(s) && Fits(s, step) && (step.PauseAndResume? ==> s.current)
    ensures FaithfulStore(s.st, step)
  {
    if step.PauseAndResume? {
      RevisionNames(s.log, s.st.checkpoint);
    }
  }

  lemma FaithfulSnoc(st: LoopState, settings: Settings, steps: seq<RunStep>, step: RunStep)
    requires 0 <= st.fixedMessageCount && FaithfulStores(st, settings, steps)
    requires FaithfulStore(StateAfter(st, settings, steps), step)
    ensures FaithfulStores(st, settings, steps + [step])
  {
    var longer := steps + [step];
    forall n | 0 <= n < |longer| ensures FaithfulStore(StateAfter(st, settings, longer[..n]), longer[n]) {
      assert n < |steps| ==> longer[..n] == steps[..n] && longer[n] == steps[n];
      assert n == |steps| ==> longer[..n] == steps;
    }
  }

  lemma {:induction false} FaithfulThrough(s: Shared, settings: Settings, hs: seq<Happening>)
    requires 0 <= s.st.fixedMessageCount && forall n :: 0 <= n < |hs| ==> FaithfulAt(s, settings, hs, n)
    ensures FaithfulStores(s.st, settings, OwnSteps(hs))
  {
    if hs != [] {
      var m := |hs| - 1;
      forall n | 0 <= n < m ensures FaithfulAt(s, settings, hs[..m], n) {
        FaithfulBefore(s, settings, hs, m, n);
      }
      FaithfulThrough(s, settings, hs[..m]);
      assert FaithfulAt(s, settings, hs, m);
      FaithfulLast(s, settings, hs);
    }
  }

  lemma FaithfulBefore(s: Shared, settings: Settings, hs: seq<Happening>, m: nat, n: nat)
    requires 0 <= s.st.fixedMessageCount && n < m <= |hs| && FaithfulAt(s, settings, hs, n)
    ensures FaithfulAt(s, settings, hs[..m], n)
  {
    assert hs[..m][..n] == hs[..n];
  }

  lemma FaithfulLast(s: Shared, settings: Settings, hs: seq<Happening>)
    requires 0 <= s.st.fixedMessageCount && hs != []
    requires FaithfulAt(s, settings, hs, |hs| - 1) && FaithfulStores(s.st, settings, OwnSteps(hs[..|hs| - 1]))
    ensures FaithfulStores(s.st, settings, OwnSteps(hs))
  {
    var m := |hs| - 1;
    OwnStepsAfter(s, settings, hs[..m]);
    if hs[m].Own? {
      FaithfulSnoc(s.st, settings, OwnSteps(hs[..m]), hs[m].step);
    } else {
      assert OwnSteps(hs) == OwnSteps(hs[..m]);
    }
  }

  // However others use the store in between, a run that has read or written it since the last deletion
  // resumes with exactly the checkpoint of its pause or not at all.
  lemma ResumesAreFaithful(l: Ledger, s: Shared, settings: Settings, hs: seq<Happening>)
    requires Valid(l) && Describes(l, s.st) && Inv(s) && AllFit(s, settings, hs) && ResumesCurrent(s, settings, hs)
    ensures FaithfulStores(s.st, settings, OwnSteps(hs))
  {
    forall n | 0 <= n < |hs| ensures FaithfulAt(s, settings, hs, n) {
      CurrentIsFaithful(l, s, settings, hs, n);
    }
    FaithfulThrough(s, settings, hs);
  }

  lemma {:induction false} CurrentWithoutDeletion(s: Shared, settings: Settings, hs: seq<Happening>)
    requires 0 <= s.st.fixedMessageCount && s.current && forall n :: 0 <= n < |hs| ==> !hs[n].OthersDelete?
    ensures After(s, settings, hs).current
  {
    if hs != [] {
      CurrentWithoutDeletion(s, settings, hs[..|hs| - 1]);
    }
  }

  // So without deletions the checkpoint a run holds is, through all its pauses, the one whose message
  // its transcript has.
  lemma WithoutDeletion(l: Ledger, s: Shared, settings: Settings, hs: seq<Happening>)
    requires Valid(l) && Describes(l, s.st) && HoldsShown(l) && Inv(s) && s.current && AllFit(s, settings, hs)
    requires forall n :: 0 <= n < |hs| ==> !hs[n].OthersDelete?
    ensures FaithfulStores(s.st, settings, OwnSteps(hs))
    ensures var later, end := LedgerAfter(l, s.st, settings, OwnSteps(hs)), After(s, settings, hs).st;
            HoldsShown(later) && later.checkpoint == end.checkpoint
  {
    forall n | 0 <= n < |hs| && hs[n].Own? && hs[n].step.PauseAndResume? ensures After(s, settings, hs[..n]).current {
      CurrentWithoutDeletion(s, settings, hs[..n]);
    }
    ResumesAreFaithful(l, s, settings, hs);
    RunHoldsShown(l, s.st, settings, OwnSteps(hs));
    RunKeepsLedger(l, s.st, settings, OwnSteps(hs));
    OwnStepsAfter(s, settings, hs);
  }

  // ----- Deletion restarts the revisions -----

  function Checkpoint(text: string, revision: int): ContextCheckpoint {
    ContextCheckpoint(1, revision, Message(User, text, [], [], "", 1), "", "m", "r", 1, 1, 1)
  }

  // Others delete the checkpoint of a revision and save their own until they have come to it again.
  function OthersReplace(text: string, revision: int, saves: nat): seq<Happening> {
    if saves == 0 then [OthersDelete(false, revision)]
    else OthersReplace(text, revision, saves - 1) + [OthersSave(false, saves - 1, Checkpoint(text, saves))]
  }

  lemma {:induction false} OthersReplaced(st: LoopState, settings: Settings, text: string, saves: nat)
    requires 0 <= st.fixedMessageCount && st.checkpoint.Some? && TrimSpace(text) != ""
    ensures var s := After(Shared(st, st.checkpoint, [st.checkpoint], true), settings,
                           OthersReplace(text, st.checkpoint.value.revision, saves));
            && s.st == st && !s.current
            && s.stored == if saves == 0 then None else Some(Checkpoint(text, saves))
  {
    var start, hs := Shared(st, st.checkpoint, [st.checkpoint], true), OthersReplace(text, st.checkpoint.value.revision, saves);
    assert After(start, settings, []) == start;
    if saves == 0 {
      assert hs[..0] == [];
    } else {
      OthersReplaced(st, settings, text, saves - 1);
      assert hs[..|hs| - 1] == OthersReplace(text, st.checkpoint.value.revision, saves - 1);
    }
  }

  lemma ResumeReads(l: Ledger, st: LoopState, settings: Settings, c: ContextCheckpoint)
    requires Valid(l) && Describes(l, st) && ResumeAccepted(Some(c), st.checkpoint)
    ensures var resume := PauseAndResume(Some(Some(c)));
            Step(st, settings, resume) == st.(checkpoint := Some(c)) && LedgerStep(l, st, settings, resume) == l.(held := Some(c))
  {
    PauseRoundTrip(l, st, Some(Some(c)));
  }

  lemma UnfaithfulResume(st: LoopState, settings: Settings, c: ContextCheckpoint)
    requires 0 <= st.fixedMessageCount && ResumeAccepted(Some(c), st.checkpoint) && st.checkpoint != Some(c)
    ensures !FaithfulStores(st, settings, [PauseAndResume(Some(Some(c)))])
  {
    var steps := [PauseAndResume(Some(Some(c)))];
    assert steps[..0] == [] && !FaithfulStore(StateAfter(st, settings, steps[..0]), steps[0]);
  }

  // Whatever the revision of a pause: after a deletion and as many saves by others the resume takes
  // their checkpoint for the one of the pause, and from then on the run holds a checkpoint that is not
  // the one in its transcript.
  lemma DeletionRestartsRevisions(l: Ledger, st: LoopState, settings: Settings, text: string)
    requires Valid(l) && Describes(l, st) && HoldsShown(l) && TrimSpace(text) != ""
    requires st.checkpoint.Some? && st.checkpoint.value.revision >= 1
    requires st.checkpoint.value != Checkpoint(text, st.checkpoint.value.revision)
    ensures var r := st.checkpoint.value.revision;
            var s := After(Shared(st, st.checkpoint, [st.checkpoint], true), settings, OthersReplace(text, r, r));
            var resume := PauseAndResume(Some(s.stored));
            && s.st == st && s.stored == Some(Checkpoint(text, r))
            && Step(st, settings, resume) == st.(checkpoint := s.stored)
            && !HoldsShown(LedgerStep(l, st, settings, resume))
            && !FaithfulStores(st, settings, [resume])
  {
    var r := st.checkpoint.value.revision;
    OthersReplaced(st, settings, text, r);
    ResumeReads(l, st, settings, Checkpoint(text, r));
    UnfaithfulResume(st, settings, Checkpoint(text, r));
  }
}
