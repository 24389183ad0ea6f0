/**
 The life of one tool-call response across approval pauses (runLoop in agent/engine_loop.go, resume
 in agent/engine_resume.go, the step snapshots of agent/engine_runstate.go): the counts that limit
 repeated calls, progress, and the exchange the transcript ends up with.
 */
module ToolRuns {
  import opened Text
  import opened Transcript
  import opened Blocks
  import opened ToolBatches

  // What is saved of a response that waits for an approval.
  datatype Pending = Pending(identity: string, call: ToolCall, remaining: seq<ToolCall>)

  // The part of the loop state the tool-call phases read and write.
  datatype ToolState = ToolState(
    messages: seq<Message>, steps: seq<Step>, counts: map<string, nat>, pending: Option<Pending>, approved: string)

  datatype Outcome = Continued | Stopped | Paused(saved: Pending)

  // One passage through the phases: the guard's answers, the completions in their order, and the
  // identity drawn for the approval if one is asked for.
  datatype Leg = Leg(guard: seq<GuardAnswer>, log: seq<Completion>, newIdentity: string)

  function Identity(st: ToolState): string {
    if st.pending.Some? then st.pending.value.identity else ""
  }

  function Check(rules: Rules, st: ToolState, calls: seq<ToolCall>, leg: Leg): Checked
    requires |leg.guard| == |calls|
  {
    CheckCalls(Checked([], st.counts, st.approved, false, false), rules, calls, leg.guard, Identity(st))
  }

  function BatchOf(st: ToolState, c: Checked): Batch {
    Batch(c.items, st.steps, c.counts, false)
  }

  predicate InOrder(log: seq<Completion>) {
    forall k :: 0 <= k < |log| ==> log[k].index == k
  }

  // The completions a batch can record: all of its calls, in any order when it runs in parallel, and
  // otherwise in the order of the calls up to the one that ends the run, if any does.
  ghost predicate Finishes(b: Batch, log: seq<Completion>, parallel: bool) {
    && Orderly(log, |b.items|)
    && if parallel then RecordsAll(log, |b.items|)
       else InOrder(log) && (|log| == |b.items| || CompleteAll(b, log).earlyStop)
  }

  ghost predicate LegRuns(rules: Rules, st: ToolState, calls: seq<ToolCall>, leg: Leg) {
    && |leg.guard| == |calls|
    && var c := Check(rules, st, calls, leg);
       && !c.aborted && |c.items| <= |calls| && (c.asked ==> |c.items| < |calls|)
       && Finishes(BatchOf(st, c), leg.log, RunsInParallel(c.items, c.asked, st.pending.Some?))
       && |leg.log| <= |c.items|
  }

  ghost function AfterLeg(rules: Rules, st: ToolState, calls: seq<ToolCall>, leg: Leg): ToolState
    requires LegRuns(rules, st, calls, leg)
  {
    var done := CompleteAll(BatchOf(st, Check(rules, st, calls, leg)), leg.log);
    ToolState(st.messages + Results(rules, done.items[..|leg.log|]), done.steps, done.counts, None, "")
  }

  // Ending the run takes precedence over asking for the approval.
  ghost function OutcomeOf(rules: Rules, st: ToolState, calls: seq<ToolCall>, leg: Leg): Outcome
    requires LegRuns(rules, st, calls, leg)
  {
    var c := Check(rules, st, calls, leg);
    if CompleteAll(BatchOf(st, c), leg.log).earlyStop then Stopped
    else if c.asked then Paused(Pending(leg.newIdentity, calls[|c.items|], calls[|c.items| + 1..]))
    else Continued
  }

  // ----- Saving and restoring the steps -----

  datatype StepSnapshot = StepSnapshot(action: string, observation: string, error: string)

  function SnapshotOf(step: Step): StepSnapshot {
    StepSnapshot(step.action, step.observation, if step.error.Some? then step.error.value else "")
  }

  function StepFrom(s: StepSnapshot): Step {
    Step(s.action, s.observation, if s.error != "" then Some(s.error) else None)
  }

  // The steps a resumed run has, for those of the paused one.
  function Restored(steps: seq<Step>): (restored: seq<Step>)
    ensures |restored| == |steps|
  {
    seq(|steps|, i requires 0 <= i < |steps| => StepFrom(SnapshotOf(steps[i])))
  }

  method RestoreSteps(steps: seq<Step>) returns (restored: seq<Step>)
    ensures restored == Restored(steps)
  {
    var snapshots: seq<StepSnapshot> := [];
    for i := 0 to |steps|
      invariant |snapshots| == i && forall k :: 0 <= k < i ==> snapshots[k] == SnapshotOf(steps[k])
    {
      snapshots := snapshots + [SnapshotOf(steps[i])];
    }
    restored := [];
    for i := 0 to |snapshots|
      invariant |restored| == i && forall k :: 0 <= k < i ==> restored[k] == StepFrom(SnapshotOf(steps[k]))
    {
      restored := restored + [StepFrom(snapshots[i])];
    }
  }

  // The state a paused run resumes with.
  function Resumed(st: ToolState, saved: Pending): ToolState {
    ToolState(st.messages, Restored(st.steps), Rebuilt(Restored(st.steps)), Some(saved), saved.identity)
  }

  function PendingCalls(saved: Pending): seq<ToolCall> {
    [saved.call] + saved.remaining
  }

  predicate TellsErrors(steps: seq<Step>) {
    forall i :: 0 <= i < |steps| ==> steps[i].error != Some("")
  }

  // Failures that lose their error text on the way are taken for successes.
  function Misread(steps: seq<Step>, key: string): nat {
    if steps == [] then 0
    else
      var last := steps[|steps| - 1];
      Misread(steps[..|steps| - 1], key) + if last.error == Some("") && NormalizedToolName(last.action) == key then 1 else 0
  }

  lemma {:induction false} RestoredSuccesses(steps: seq<Step>, key: string)
    ensures Successes(Restored(steps), key) == Successes(steps, key) + Misread(steps, key)
  {
    if steps != [] {
      RestoredSuccesses(steps[..|steps| - 1], key);
      assert Restored(steps)[..|steps| - 1] == Restored(steps[..|steps| - 1]);
    }
  }

  lemma {:induction false} MisreadNone(steps: seq<Step>, key: string)
    ensures Misread(steps, key) == 0 <==>
            forall i :: 0 <= i < |steps| && steps[i].error == Some("") ==> NormalizedToolName(steps[i].action) != key
  {
    if steps != [] {
      var n := |steps| - 1;
      MisreadNone(steps[..n], key);
      assert forall i :: 0 <= i < n ==> steps[..n][i] == steps[i];
    }
  }

  lemma RestoredCount(steps: seq<Step>, key: string)
    requires key != ""
    ensures Count(Rebuilt(Restored(steps)), key) == Successes(steps, key) + Misread(steps, key)
  {
    RebuiltCounts(Restored(steps));
    RestoredSuccesses(steps, key);
  }

  // Every failed step of a named tool has an error text.
  predicate NamedToolsTell(steps: seq<Step>) {
    forall i :: 0 <= i < |steps| ==> (steps[i].error == Some("") ==> NormalizedToolName(steps[i].action) == "")
  }

  ghost predicate NoneMisread(steps: seq<Step>) {
    forall key :: key != "" ==> Misread(steps, key) == 0
  }

  ghost predicate CountsSurvive(steps: seq<Step>) {
    forall key :: key != "" ==> Count(Rebuilt(Restored(steps)), key) == Successes(steps, key)
  }

  lemma NamedToolsTellMeans(steps: seq<Step>)
    ensures NamedToolsTell(steps) <==> NoneMisread(steps)
  {
    if NamedToolsTell(steps) {
      forall key | key != "" ensures Misread(steps, key) == 0 {
        MisreadNone(steps, key);
      }
    } else {
      var i :| 0 <= i < |steps| && steps[i].error == Some("") && NormalizedToolName(steps[i].action) != "";
      MisreadNone(steps, NormalizedToolName(steps[i].action));
    }
  }

  // A resumed run counts the successes of the paused one exactly when no failed step of a named tool
  // has an empty error text.
  lemma ResumeCountsSuccesses(steps: seq<Step>)
    ensures CountsSurvive(steps) <==> NamedToolsTell(steps)
  {
    NamedToolsTellMeans(steps);
    forall key | key != ""
      ensures Count(Rebuilt(Restored(steps)), key) == Successes(steps, key) + Misread(steps, key)
    {
      RestoredCount(steps, key);
    }
  }

  // ----- The counts at the head of the loop -----

  // The counts are those of the recorded successes, and none exceeds the limit.
  ghost predicate Tracked(st: ToolState, limit: nat) {
    && (forall key :: key != "" ==> Count(st.counts, key) == Successes(st.steps, key))
    && WithinLimit(st.counts, limit)
  }

  ghost predicate CheckInv(c: Checked, steps: seq<Step>, rules: Rules, calls: seq<ToolCall>) {
    && |c.items| <= |calls| && (c.asked || c.aborted ==> |c.items| < |calls|)
    && CountsAgree(c.counts, steps, c.items) && WithinLimit(c.counts, rules.limit)
    && NoneProcessed(c.items) && SkipsFail(c.items)
    && (forall i :: 0 <= i < |c.items| ==> c.items[i].call == calls[i])
    && (c.asked ==> !AtLimit(c.counts, rules.limit, Key(calls[|c.items|])))
  }

  lemma BumpAgrees(counts: map<string, nat>, steps: seq<Step>, items: seq<Item>, item: Item)
    requires CountsAgree(counts, steps, items) && !item.skip && !item.processed
    ensures CountsAgree(Bump(counts, Key(item.call)), steps, items + [item])
  {
    forall key | key != ""
      ensures Count(Bump(counts, Key(item.call)), key) == Successes(steps, key) + Reserved(items + [item], key)
    {
      ReservedSnoc(items, item, key);
      assert Count(counts, key) == Successes(steps, key) + Reserved(items, key);
    }
  }

  lemma SkipAgrees(counts: map<string, nat>, steps: seq<Step>, items: seq<Item>, item: Item)
    requires CountsAgree(counts, steps, items) && item.skip
    ensures CountsAgree(counts, steps, items + [item])
  {
    forall key | key != "" ensures Count(counts, key) == Successes(steps, key) + Reserved(items + [item], key) {
      ReservedSnoc(items, item, key);
    }
  }

  lemma BumpWithinLimit(counts: map<string, nat>, limit: nat, key: string)
    requires WithinLimit(counts, limit) && !AtLimit(counts, limit, key)
    ensures WithinLimit(Bump(counts, key), limit)
  {
    forall k | limit > 0 && k != "" ensures Count(Bump(counts, key), k) <= limit {
      assert Count(counts, k) <= limit;
    }
  }

  lemma CheckNextKeeps(c: Checked, steps: seq<Step>, rules: Rules, calls: seq<ToolCall>, answer: GuardAnswer,
        identity: string)
    requires CheckInv(c, steps, rules, calls) && |c.items| < |calls| && !c.asked && !c.aborted
    ensures CheckInv(CheckNext(c, rules, calls[|c.items|], answer, identity), steps, rules, calls)
  {
    var call := calls[|c.items|];
    var verdict := Judge(call, c.counts, rules.limit, answer, identity, c.approved);
    var item := NewItem(rules, call, verdict);
    if verdict.Skip? {
      SkipAgrees(c.counts, steps, c.items, item);
    } else if verdict.Run? {
      BumpAgrees(c.counts, steps, c.items, item);
      BumpWithinLimit(c.counts, rules.limit, Key(call));
    }
  }

  lemma {:induction false} CheckKeeps(c: Checked, steps: seq<Step>, rules: Rules, calls: seq<ToolCall>,
        answers: seq<GuardAnswer>, identity: string)
    requires CheckInv(c, steps, rules, calls) && |answers| == |calls|
    ensures CheckInv(CheckCalls(c, rules, calls, answers, identity), steps, rules, calls)
    ensures var done := CheckCalls(c, rules, calls, answers, identity);
            done.asked || done.aborted || |done.items| == |calls|
    decreases |calls| - |c.items|
  {
    var i := |c.items|;
    if i < |calls| && !c.asked && !c.aborted {
      CheckNextKeeps(c, steps, rules, calls, answers[i], IdentityOf(identity, i));
      var next := CheckNext(c, rules, calls[i], answers[i], IdentityOf(identity, i));
      if !next.asked && !next.aborted {
        CheckKeeps(next, steps, rules, calls, answers, identity);
      }
    }
  }

  lemma CheckTracked(rules: Rules, st: ToolState, calls: seq<ToolCall>, leg: Leg)
    requires Tracked(st, rules.limit) && |leg.guard| == |calls|
    ensures var c := Check(rules, st, calls, leg);
            CheckInv(c, st.steps, rules, calls) && (c.asked || c.aborted || |c.items| == |calls|)
  {
    assert CountsAgree(st.counts, st.steps, []);
    CheckKeeps(Checked([], st.counts, st.approved, false, false), st.steps, rules, calls, leg.guard, Identity(st));
  }

  lemma {:induction false} NothingReserved(items: seq<Item>, key: string)
    requires forall i :: 0 <= i < |items| ==> items[i].processed
    ensures Reserved(items, key) == 0
  {
    if items != [] {
      NothingReserved(items[..|items| - 1], key);
    }
  }

  lemma {:induction false} CountsOnlyDrop(b: Batch, log: seq<Completion>, key: string)
    requires Orderly(log, |b.items|)
    ensures Count(CompleteAll(b, log).counts, key) <= Count(b.counts, key)
  {
    if log != [] {
      CountsOnlyDrop(b, log[..|log| - 1], key);
    }
  }

  lemma InOrderRecords(log: seq<Completion>, n: nat)
    requires Orderly(log, n) && InOrder(log) && |log| == n
    ensures RecordsAll(log, n)
  {
    forall i: nat | i < n ensures Recorded(log, i) {
      assert log[i].index == i;
    }
  }

  lemma AllProcessed(b: Batch, log: seq<Completion>)
    requires RecordsAll(log, |b.items|)
    ensures forall i :: 0 <= i < |b.items| ==> CompleteAll(b, log).items[i].processed
  {
    ItemsAfter(b, log);
    forall i: nat | i < |b.items| ensures CompleteAll(b, log).items[i].processed {
      assert Recorded(log, i);
    }
  }

  // Unless the run ends, every checked call is recorded exactly once.
  lemma LegRecordsAll(rules: Rules, st: ToolState, calls: seq<ToolCall>, leg: Leg)
    requires LegRuns(rules, st, calls, leg) && !OutcomeOf(rules, st, calls, leg).Stopped?
    ensures RecordsAll(leg.log, |Check(rules, st, calls, leg).items|)
  {
    var c := Check(rules, st, calls, leg);
    if !RunsInParallel(c.items, c.asked, st.pending.Some?) {
      InOrderRecords(leg.log, |c.items|);
    }
  }

  // A passage through the phases keeps the counts equal to the recorded successes and within the
  // limit, whatever fails, is denied or is cancelled.
  lemma LegKeepsTracked(rules: Rules, st: ToolState, calls: seq<ToolCall>, leg: Leg)
    requires LegRuns(rules, st, calls, leg) && Tracked(st, rules.limit)
    requires !OutcomeOf(rules, st, calls, leg).Stopped?
    ensures Tracked(AfterLeg(rules, st, calls, leg), rules.limit)
  {
    var c := Check(rules, st, calls, leg);
    var done := CompleteAll(BatchOf(st, c), leg.log);
    CheckTracked(rules, st, calls, leg);
    CompleteAllKeepsCounts(BatchOf(st, c), leg.log, rules.limit);
    LegRecordsAll(rules, st, calls, leg);
    AllProcessed(BatchOf(st, c), leg.log);
    forall key | key != "" ensures Count(done.counts, key) == Successes(done.steps, key) {
      NothingReserved(done.items, key);
    }
  }

  // At a pause the tool that waits for the approval is below the limit.
  lemma PausedBelowLimit(rules: Rules, st: ToolState, calls: seq<ToolCall>, leg: Leg)
    requires LegRuns(rules, st, calls, leg) && Tracked(st, rules.limit)
    requires OutcomeOf(rules, st, calls, leg).Paused?
    ensures var saved := OutcomeOf(rules, st, calls, leg).saved;
            !AtLimit(AfterLeg(rules, st, calls, leg).counts, rules.limit, Key(saved.call))
  {
    var c := Check(rules, st, calls, leg);
    CheckTracked(rules, st, calls, leg);
    CountsOnlyDrop(BatchOf(st, c), leg.log, Key(calls[|c.items|]));
  }

  lemma TrackedResumed(st: ToolState, saved: Pending, limit: nat)
    requires Tracked(st, limit) && TellsErrors(st.steps)
    ensures Tracked(Resumed(st, saved), limit)
    ensures forall key :: key != "" ==> Count(Resumed(st, saved).counts, key) == Count(st.counts, key)
  {
    RebuiltCounts(Restored(st.steps));
    forall key | key != "" ensures Count(Resumed(st, saved).counts, key) == Count(st.counts, key) {
      RestoredCount(st.steps, key);
      MisreadNone(st.steps, key);
    }
  }
}
