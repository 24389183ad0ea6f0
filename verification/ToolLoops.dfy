/**
 The tool-call phases of the engine's loop (runLoop in agent/engine_loop.go) as it runs them: the
 check, the sequential or concurrent execution with cancellation at any point, and the results.
 */
module ToolLoops {
  import opened Text
  import opened Transcript
  import opened ToolBatches
  import opened ToolRuns
  import opened ToolExchanges

  // What the tools answer if they are let finish, the error text of a cancellation, and the calls
  // whose output the guard cannot evaluate, which aborts the run.
  datatype Answers = Answers(outcomes: seq<Fate>, cancelReason: string, postGuardFails: set<nat>)

  // A completion is the cancellation or the call's own, of which the guard could evaluate the output; a
  // call that is skipped has no output.
  predicate Possible(answers: Answers, items: seq<Item>, c: Completion) {
    && c.index < |items| && c.index < |answers.outcomes|
    && (c.fate == CancelledAs(answers.cancelReason) || (c.fate == answers.outcomes[c.index] && !Refused(answers, items, c.index)))
  }

  ghost predicate AllPossible(answers: Answers, items: seq<Item>, log: seq<Completion>) {
    forall k :: 0 <= k < |log| ==> Possible(answers, items, log[k])
  }

  // The call has an output that the guard cannot evaluate.
  predicate Refused(answers: Answers, items: seq<Item>, i: nat) {
    i < |items| && !items[i].skip && i in answers.postGuardFails
  }

  // The calls that have not come back yet.
  ghost predicate InFlight(items: seq<Item>, s: set<nat>) {
    && (forall i: nat :: i in s <==> i < |items| && !items[i].processed)
    && forall i :: i in s ==> !items[i].skip
  }

  lemma OneBack(items: seq<Item>, s: set<nat>, k: nat, item: Item)
    requires InFlight(items, s) && k in s && item.processed
    ensures k < |items| && !items[k].processed
    ensures InFlight(items[k := item], s - {k}) && |s - {k}| < |s|
  {
  }

  // The calls processed are the calls recorded.
  ghost predicate ProcessedRecorded(items: seq<Item>, log: seq<Completion>) {
    forall i :: 0 <= i < |items| ==> (items[i].processed <==> Recorded(log, i))
  }

  lemma OneMoreRecorded(items: seq<Item>, log: seq<Completion>, c: Completion, item: Item)
    requires ProcessedRecorded(items, log) && c.index < |items| && item.processed
    ensures ProcessedRecorded(items[c.index := item], log + [c])
  {
    forall i: nat | i < |items| ensures Recorded(log + [c], i) <==> Recorded(log, i) || i == c.index {
      RecordedSnoc(log, c, i);
    }
  }

  lemma RecordedSnoc(log: seq<Completion>, c: Completion, i: nat)
    ensures Recorded(log + [c], i) <==> Recorded(log, i) || i == c.index
  {
    var longer := log + [c];
    assert longer[|log|] == c;
    if Recorded(log, i) {
      var k :| 0 <= k < |log| && log[k].index == i;
      assert longer[k].index == i;
    }
  }

  lemma NotEmpty(s: set<nat>)
    ensures s == {} || exists i: nat :: i in s
  {
    if forall i: nat :: i !in s {
      assert forall i :: i !in s;
      assert s == {};
    }
  }

  lemma ExtendLog(b: Batch, log: seq<Completion>, c: Completion)
    requires Orderly(log, |b.items|) && c.index < |b.items| && !Recorded(log, c.index)
    ensures Orderly(log + [c], |b.items|)
    ensures CompleteAll(b, log + [c]) == Complete(CompleteAll(b, log), c)
  {
    var longer := log + [c];
    assert longer[..|log|] == log;
    assert forall k :: 0 <= k < |log| ==> longer[k] == log[k] && log[k].index != c.index;
  }

  predicate SameSkips(items: seq<Item>, later: seq<Item>) {
    |items| == |later| && forall i :: 0 <= i < |items| ==> items[i].skip == later[i].skip
  }

  // The batch is what its record of completions makes of its start.
  ghost predicate Follows(start: Batch, log: seq<Completion>, b: Batch, answers: Answers) {
    && Orderly(log, |start.items|) && b == CompleteAll(start, log)
    && |b.items| == |start.items| <= |answers.outcomes|
    && ProcessedRecorded(b.items, log)
    && SameSkips(start.items, b.items)
    && AllPossible(answers, start.items, log)
  }

  lemma FollowsNext(start: Batch, log: seq<Completion>, b: Batch, answers: Answers, c: Completion)
    requires Follows(start, log, b, answers) && Possible(answers, start.items, c)
    requires c.index < |b.items| && !b.items[c.index].processed
    ensures Follows(start, log + [c], Complete(b, c), answers)
  {
    ExtendLog(start, log, c);
    OneMoreRecorded(b.items, log, c, Finished(b.items[c.index], c.fate));
  }

  class BatchRun {
    const answers: Answers
    var items: seq<Item>
    var steps: seq<Step>
    var counts: map<string, nat>
    var earlyStop: bool
    ghost const start: Batch
    ghost var log: seq<Completion>

    constructor (answers: Answers, items: seq<Item>, steps: seq<Step>, counts: map<string, nat>)
      requires NoneProcessed(items) && |answers.outcomes| >= |items|
      ensures UnderWay() && log == [] && start == Batch(items, steps, counts, false)
      ensures this.answers == answers && this.items == items && !earlyStop
    {
      this.answers := answers;
      this.items, this.steps, this.counts, this.earlyStop := items, steps, counts, false;
      start := Batch(items, steps, counts, false);
      log := [];
    }

    ghost predicate UnderWay()
      reads this
    {
      Follows(start, log, Batch(items, steps, counts, earlyStop), answers)
    }

    // A call that came back could not be recorded.
    ghost predicate HasRefused()
      reads this
    {
      exists i: nat :: Refused(answers, items, i) && !items[i].processed
    }

    lemma RefusedMeans()
      requires UnderWay() && HasRefused()
      ensures exists i: nat :: Refused(answers, start.items, i) && !Recorded(log, i)
    {
      var i: nat :| Refused(answers, items, i) && !items[i].processed;
      assert Refused(answers, start.items, i) && !Recorded(log, i);
    }

    lemma AllRecorded()
      requires UnderWay() && forall i :: 0 <= i < |items| ==> items[i].processed
      ensures RecordsAll(log, |start.items|)
    {
    }

    // Records the completion of one call.
    method CompleteItem(i: nat, fate: Fate)
      requires UnderWay() && i < |items| && !items[i].processed
      requires fate == CancelledAs(answers.cancelReason) || (fate == answers.outcomes[i] && !Refused(answers, items, i))
      modifies this
      ensures UnderWay() && log == old(log) + [Completion(i, fate)]
      ensures items == old(items)[i := Finished(old(items)[i], fate)]
    {
      ghost var c := Completion(i, fate);
      ghost var before := Batch(items, steps, counts, earlyStop);
      ghost var after := Complete(before, c);
      assert Follows(start, log + [c], after, answers) by {
        FollowsNext(start, log, before, answers, c);
      }
      var item := Finished(items[i], fate);
      items := items[i := item];
      if !item.skip && item.error.Some? {
        counts := Drop(counts, Key(item.call));
      }
      steps := steps + [StepOf(item)];
      if item.error.None? && (item.terminates || item.traits.stopAfterSuccess) {
        earlyStop := true;
      }
      log := log + [c];
      assert Batch(items, steps, counts, earlyStop) == after;
    }

    // A call came back: the guard looks at its output before it is recorded.
    method AcceptItem(i: nat) returns (aborted: bool)
      requires UnderWay() && i < |items| && !items[i].processed && !items[i].skip
      modifies this
      ensures UnderWay() && (aborted <==> i in answers.postGuardFails)
      ensures aborted ==> log == old(log) && items == old(items) && HasRefused()
      ensures !aborted ==> log == old(log) + [Completion(i, answers.outcomes[i])]
      ensures !aborted ==> items == old(items)[i := Finished(old(items)[i], answers.outcomes[i])]
    {
      if i in answers.postGuardFails {
        assert Refused(answers, items, i);
        return true;
      }
      CompleteItem(i, answers.outcomes[i]);
      return false;
    }

    method CancelItem(i: nat)
      requires UnderWay() && i < |items| && !items[i].processed
      modifies this
      ensures UnderWay() && log == old(log) + [Completion(i, CancelledAs(answers.cancelReason))]
      ensures items == old(items)[i := Finished(old(items)[i], CancelledAs(answers.cancelReason))]
    {
      CompleteItem(i, CancelledAs(answers.cancelReason));
    }

    // Starts a call, unless it is skipped or the batch is cancelled already.
    method StartItem(i: nat, cancelled: bool) returns (started: bool)
      requires UnderWay() && i < |items| && !items[i].processed
      modifies this
      ensures UnderWay() && (started <==> !items[i].processed) && (started ==> !items[i].skip)
      ensures |items| == |old(items)| && forall j :: 0 <= j < |items| && j != i ==> items[j] == old(items)[j]
    {
      started := false;
      if items[i].skip {
        CompleteItem(i, answers.outcomes[i]);
      } else if cancelled {
        CancelItem(i);
      } else {
        started := true;
      }
    }

    // Starts every call that may run, unless the batch is cancelled first.
    method StartAll() returns (flying: set<nat>)
      requires UnderWay() && NoneProcessed(items)
      modifies this
      ensures UnderWay() && InFlight(items, flying)
    {
      flying := {};
      var cancelled := false;
      var i := 0;
      while i < |items|
        invariant 0 <= i <= |items| && UnderWay()
        invariant forall j: nat :: j in flying <==> j < i && !items[j].processed
        invariant forall j :: j in flying ==> !items[j].skip
        invariant forall j :: i <= j < |items| ==> !items[j].processed
      {
        var now: bool := *;
        cancelled := cancelled || now;
        var started := StartItem(i, cancelled);
        if started {
          flying := flying + {i};
        }
        i := i + 1;
      }
    }

    // Takes one of the calls that have come back.
    method AcceptAny(flying: set<nat>) returns (aborted: bool, left: set<nat>)
      requires UnderWay() && InFlight(items, flying) && flying != {}
      modifies this
      ensures UnderWay() && if aborted then HasRefused() else InFlight(items, left) && |left| < |flying|
    {
      NotEmpty(flying);
      var k: nat :| k in flying;
      left := flying - {k};
      OneBack(items, flying, k, Finished(items[k], answers.outcomes[k]));
      aborted := AcceptItem(k);
    }

    // After a cancellation: takes what has come back already, in any order.
    method Drain(flying: set<nat>) returns (aborted: bool)
      requires UnderWay() && InFlight(items, flying)
      modifies this
      ensures UnderWay() && (aborted ==> HasRefused())
    {
      var left, more := flying, true;
      while left != {} && more
        invariant UnderWay() && InFlight(items, left)
        decreases |left|, more
      {
        more := *;
        if more {
          aborted, left := AcceptAny(left);
          if aborted {
            return;
          }
        }
      }
      return false;
    }

    method CancelRest()
      requires UnderWay()
      modifies this
      ensures UnderWay() && forall i :: 0 <= i < |items| ==> items[i].processed
    {
      var i := 0;
      while i < |items|
        invariant 0 <= i <= |items| && UnderWay()
        invariant forall j :: 0 <= j < i ==> items[j].processed
      {
        if !items[i].processed {
          CancelItem(i);
        }
        i := i + 1;
      }
    }

    // Runs all calls at once. Whatever the order of completion and whenever the batch is cancelled,
    // every call is recorded exactly once.
    method RunParallel() returns (aborted: bool)
      requires UnderWay() && NoneProcessed(items)
      modifies this
      ensures UnderWay() && if aborted then HasRefused() else RecordsAll(log, |start.items|)
    {
      var left := StartAll();
      while left != {}
        invariant UnderWay() && InFlight(items, left)
        decreases |left|
      {
        if * {
          aborted, left := AcceptAny(left);
          if aborted {
            return;
          }
        } else {
          aborted := Drain(left);
          if aborted {
            return;
          }
          CancelRest();
          left := {};
        }
      }
      AllRecorded();
      return false;
    }

    // One call of a sequential batch, which may be cancelled before it starts or while it runs.
    method RunOne(i: nat, cancelledBefore: bool) returns (aborted: bool, cancelled: bool)
      requires UnderWay() && i < |items| && !items[i].processed
      modifies this
      ensures UnderWay() && (aborted ==> log == old(log) && HasRefused())
      ensures !aborted ==> |log| == |old(log)| + 1 && old(log) <= log && log[|old(log)|].index == i
      ensures !aborted ==> |items| == |old(items)| && forall j :: 0 <= j < |items| && j != i ==> items[j] == old(items)[j]
    {
      var now: bool := *;
      aborted, cancelled := false, cancelledBefore || now;
      if items[i].skip {
        CompleteItem(i, answers.outcomes[i]);
      } else if cancelled {
        CancelItem(i);
      } else {
        aborted, cancelled := AwaitItem(i);
      }
    }

    // The call that was started comes back, or the batch is cancelled first.
    method AwaitItem(i: nat) returns (aborted: bool, cancelled: bool)
      requires UnderWay() && i < |items| && !items[i].processed && !items[i].skip
      modifies this
      ensures UnderWay() && (aborted ==> log == old(log) && HasRefused())
      ensures !aborted ==> |log| == |old(log)| + 1 && old(log) <= log && log[|old(log)|].index == i
      ensures !aborted ==> |items| == |old(items)| && forall j :: 0 <= j < |items| && j != i ==> items[j] == old(items)[j]
    {
      cancelled := *;
      aborted := false;
      var returned: bool := *;
      if returned || !cancelled {
        aborted := AcceptItem(i);
      } else {
        CancelItem(i);
      }
    }

    // Runs the calls one after the other, up to the one that ends the run, if any does.
    method RunSequential() returns (aborted: bool, done: nat)
      requires UnderWay() && log == [] && NoneProcessed(items) && !earlyStop
      modifies this
      ensures UnderWay() && |log| == done <= |items| && InOrder(log)
      ensures if aborted then HasRefused() else earlyStop || done == |items|
    {
      var cancelled := false;
      done := 0;
      while done < |items| && !earlyStop
        invariant UnderWay() && done <= |items|
        invariant |log| == done && InOrder(log)
        invariant forall j :: done <= j < |items| ==> !items[j].processed
        decreases |items| - done
      {
        aborted, cancelled := RunOne(done, cancelled);
        if aborted {
          return;
        }
        done := done + 1;
      }
      return false, done;
    }
  }

  // ----- The phases -----

  lemma {:induction false} RunnableCount(items: seq<Item>, i: nat)
    requires i < |items|
    ensures Runnable(items[..i + 1]) == Runnable(items[..i]) + if items[i].skip then 0 else 1
  {
    assert items[..i + 1][..i] == items[..i];
  }

  method DecideParallel(items: seq<Item>, asked: bool, resumed: bool) returns (parallel: bool)
    ensures parallel <==> RunsInParallel(items, asked, resumed)
  {
    parallel := !asked && !resumed;
    var runnable := 0;
    if parallel {
      var i := 0;
      while i < |items|
        invariant 0 <= i <= |items|
        invariant runnable == Runnable(items[..i])
        invariant forall j :: 0 <= j < i ==> Harmless(items[j])
      {
        RunnableCount(items, i);
        if !items[i].skip {
          if items[i].terminates {
            assert !Harmless(items[i]);
            return false;
          }
          runnable := runnable + 1;
          if !items[i].traits.parallelSafe {
            assert !Harmless(items[i]);
            return false;
          }
          if items[i].traits.stopAfterSuccess {
            assert !Harmless(items[i]);
            return false;
          }
        }
        i := i + 1;
      }
      assert items[..|items|] == items;
    }
    parallel := parallel && runnable > 1;
  }

  lemma CheckStep(c: Checked, rules: Rules, calls: seq<ToolCall>, answers: seq<GuardAnswer>, identity: string)
    requires |c.items| < |calls| == |answers| && !c.asked && !c.aborted
    ensures var i := |c.items|;
            var next := CheckNext(c, rules, calls[i], answers[i], IdentityOf(identity, i));
            && |next.items| == (if next.asked || next.aborted then i else i + 1)
            && CheckCalls(c, rules, calls, answers, identity) == CheckCalls(next, rules, calls, answers, identity)
  {
  }

  datatype PhaseResult = Done(outcome: Outcome) | Failed

  // A batch that gives up has recorded some of its calls, and a call that came back was refused.
  ghost predicate GivesUp(b: Batch, log: seq<Completion>, parallel: bool, answers: Answers) {
    && Orderly(log, |b.items|) && (!parallel ==> InOrder(log))
    && exists i: nat :: Refused(answers, b.items, i) && !Recorded(log, i)
  }

  // A passage that ends in an error: the guard could not evaluate a call of the check, before which
  // nothing ran, or the output of a call.
  ghost predicate Abandoned(rules: Rules, st: ToolState, calls: seq<ToolCall>, leg: Leg, answers: Answers) {
    && |leg.guard| == |calls|
    && var c := Check(rules, st, calls, leg);
       if c.aborted then leg.log == []
       else GivesUp(BatchOf(st, c), leg.log, RunsInParallel(c.items, c.asked, st.pending.Some?), answers)
  }

  // What it leaves: no results, but the steps and the counts of the calls recorded.
  ghost function AfterAbandoned(rules: Rules, st: ToolState, calls: seq<ToolCall>, leg: Leg,
        answers: Answers): ToolState
    requires Abandoned(rules, st, calls, leg, answers)
  {
    var c := Check(rules, st, calls, leg);
    var after := CompleteAll(BatchOf(st, c), leg.log);
    ToolState(st.messages, after.steps, after.counts, st.pending, c.approved)
  }

  class ToolLoop {
    const rules: Rules
    var messages: seq<Message>
    var steps: seq<Step>
    var toolRunCounts: map<string, nat>
    var pendingTool: Option<Pending>
    var approvedActionIdentity: string

    function State(): ToolState
      reads this
    {
      ToolState(messages, steps, toolRunCounts, pendingTool, approvedActionIdentity)
    }

    constructor (rules: Rules, st: ToolState)
      ensures this.rules == rules && State() == st
    {
      this.rules := rules;
      messages, steps, toolRunCounts := st.messages, st.steps, st.counts;
      pendingTool, approvedActionIdentity := st.pending, st.approved;
    }

    // The decision on one call when its count has not reached the limit.
    method GuardDecide(answer: GuardAnswer, identity: string) returns (verdict: Verdict)
      modifies this`approvedActionIdentity
      ensures verdict ==
        match answer
        case NotFound(message) => Skip(message, "blocked by guard")
        case Deny(message) => Skip(message, "blocked by guard")
        case Allow => Run
        case GuardFails => Abort
        case RequireApproval => if identity != "" && identity == old(approvedActionIdentity) then Run else Ask
      ensures approvedActionIdentity ==
        if answer.RequireApproval? && verdict.Run? then "" else old(approvedActionIdentity)
    {
      match answer {
        case NotFound(message) => verdict := Skip(message, "blocked by guard");
        case Deny(message) => verdict := Skip(message, "blocked by guard");
        case Allow => verdict := Run;
        case GuardFails => verdict := Abort;
        case RequireApproval =>
          if identity != "" && identity == approvedActionIdentity {
            approvedActionIdentity := "";
            verdict := Run;
          } else {
            verdict := Ask;
          }
      }
    }

    method CheckOne(items: seq<Item>, call: ToolCall, answer: GuardAnswer, identity: string)
      returns (more: seq<Item>, asked: bool, aborted: bool)
      modifies this`toolRunCounts, this`approvedActionIdentity
      ensures Checked(more, toolRunCounts, approvedActionIdentity, asked, aborted) ==
              CheckNext(Checked(items, old(toolRunCounts), old(approvedActionIdentity), false, false), rules, call, answer, identity)
    {
      var verdict;
      if rules.limit > 0 && Key(call) != "" && Count(toolRunCounts, Key(call)) >= rules.limit {
        verdict := Skip("ERR_TOOL_REPEAT_LIMIT", "tool repeat limit reached");
      } else {
        verdict := GuardDecide(answer, identity);
      }
      more := items;
      if verdict.Skip? || verdict.Run? {
        more := items + [NewItem(rules, call, verdict)];
      }
      if verdict.Run? && Key(call) != "" {
        toolRunCounts := toolRunCounts[Key(call) := Count(toolRunCounts, Key(call)) + 1];
      }
      return more, verdict.Ask?, verdict.Abort?;
    }

    // Phase 1: the check of the calls in order, up to the first that needs an approval.
    method CheckAll(calls: seq<ToolCall>, guard: seq<GuardAnswer>)
      returns (items: seq<Item>, asked: bool, aborted: bool)
      requires |guard| == |calls|
      modifies this`toolRunCounts, this`approvedActionIdentity
      ensures Checked(items, toolRunCounts, approvedActionIdentity, asked, aborted) ==
              CheckCalls(Checked([], old(toolRunCounts), old(approvedActionIdentity), false, false),
                         rules, calls, guard, Identity(old(State())))
    {
      ghost var begin := Checked([], toolRunCounts, approvedActionIdentity, false, false);
      var first := if pendingTool.Some? then pendingTool.value.identity else "";
      items, asked, aborted := [], false, false;
      var i := 0;
      while i < |calls| && !asked && !aborted
        invariant |items| <= |calls| && 0 <= i <= |calls|
        invariant !asked && !aborted ==> i == |items|
        invariant CheckCalls(begin, rules, calls, guard, first) ==
                  CheckCalls(Checked(items, toolRunCounts, approvedActionIdentity, asked, aborted), rules, calls, guard, first)
        decreases |calls| - i
      {
        CheckStep(Checked(items, toolRunCounts, approvedActionIdentity, false, false), rules, calls, guard, first);
        items, asked, aborted := CheckOne(items, calls[i], guard[i], if i == 0 then first else "");
        i := i + 1;
      }
    }

    // Phase 3: the results, in the order of the calls.
    method AppendResults(items: seq<Item>)
      modifies this`messages
      ensures messages == old(messages) + Results(rules, items)
    {
      for i := 0 to |items|
        invariant messages == old(messages) + Results(rules, items[..i])
      {
        assert Results(rules, items[..i + 1]) ==
               Results(rules, items[..i]) + [ResultMessage(rules, items[i].call, items[i].observation)];
        messages := messages + [ResultMessage(rules, items[i].call, items[i].observation)];
      }
      assert items[..|items|] == items;
    }

    // Phase 2: the execution.
    method Execute(checked: seq<Item>, asked: bool, answers: Answers)
      returns (failed: bool, items: seq<Item>, earlyStop: bool, ghost log: seq<Completion>)
      requires NoneProcessed(checked) && |answers.outcomes| >= |checked|
      modifies this`steps, this`toolRunCounts
      ensures var b, parallel := Batch(checked, old(steps), old(toolRunCounts), false), RunsInParallel(checked, asked, pendingTool.Some?);
        && AllPossible(answers, checked, log)
        && (if failed then GivesUp(b, log, parallel, answers) else Finishes(b, log, parallel) && |log| <= |checked|)
        && var after := CompleteAll(b, log);
           && steps == after.steps && toolRunCounts == after.counts
           && (!failed ==> items == after.items[..|log|] && earlyStop == after.earlyStop)
    {
      var parallel := DecideParallel(checked, asked, pendingTool.Some?);
      var run := new BatchRun(answers, checked, steps, toolRunCounts);
      if parallel {
        failed := run.RunParallel();
        items := run.items;
        if !failed {
          RecordsAllLength(run.log, |checked|);
        }
      } else {
        var done;
        failed, done := run.RunSequential();
        items := run.items[..done];
      }
      if failed {
        run.RefusedMeans();
      }
      steps, toolRunCounts, earlyStop, log := run.steps, run.counts, run.earlyStop, run.log;
    }

    // Phases 1 and 2; asked is the call that needs an approval, if there is one.
    method CheckAndExecute(calls: seq<ToolCall>, guard: seq<GuardAnswer>, answers: Answers, newIdentity: string)
      returns (failed: bool, items: seq<Item>, asked: Option<nat>, earlyStop: bool, ghost leg: Leg)
      requires |guard| == |calls| <= |answers.outcomes|
      modifies this`steps, this`toolRunCounts, this`approvedActionIdentity
      ensures leg.guard == guard && leg.newIdentity == newIdentity
      ensures var st := old(State());
        var c := Check(rules, st, calls, leg);
        && AllPossible(answers, c.items, leg.log)
        && if failed then
             Abandoned(rules, st, calls, leg, answers) && State() == AfterAbandoned(rules, st, calls, leg, answers)
           else
             && LegRuns(rules, st, calls, leg)
             && asked == (if c.asked then Some(|c.items|) else None)
             && var after := CompleteAll(BatchOf(st, c), leg.log);
                && items == after.items[..|leg.log|] && earlyStop == after.earlyStop
                && steps == after.steps && toolRunCounts == after.counts
    {
      ghost var st := State();
      leg := Leg(guard, [], newIdentity);
      ghost var c := Check(rules, st, calls, leg);
      var checked, asks, aborted := CheckAll(calls, guard);
      items, asked, earlyStop := [], None, false;
      if aborted {
        return true, items, asked, earlyStop, leg;
      }
      CheckedFresh(Checked([], st.counts, st.approved, false, false), rules, calls, guard, Identity(st));
      assert c == Checked(checked, toolRunCounts, approvedActionIdentity, asks, false);
      ghost var log;
      failed, items, earlyStop, log := Execute(checked, asks, answers);
      leg := Leg(guard, log, newIdentity);
      if asks {
        asked := Some(|checked|);
      }
    }

    // The three phases of one passage. newIdentity is what is drawn for an approval.
    method RunToolCalls(calls: seq<ToolCall>, guard: seq<GuardAnswer>, answers: Answers, newIdentity: string)
      returns (result: PhaseResult, ghost leg: Leg)
      requires |guard| == |calls| <= |answers.outcomes|
      modifies this
      ensures leg.guard == guard && leg.newIdentity == newIdentity
      ensures AllPossible(answers, Check(rules, old(State()), calls, leg).items, leg.log)
      ensures result.Failed? ==>
        && Abandoned(rules, old(State()), calls, leg, answers)
        && State() == AfterAbandoned(rules, old(State()), calls, leg, answers)
      ensures result.Done? ==>
        && LegRuns(rules, old(State()), calls, leg)
        && State() == AfterLeg(rules, old(State()), calls, leg)
        && result.outcome == OutcomeOf(rules, old(State()), calls, leg)
    {
      var failed, items, asked, earlyStop;
      failed, items, asked, earlyStop, leg := CheckAndExecute(calls, guard, answers, newIdentity);
      if failed {
        return Failed, leg;
      }
      AppendResults(items);
      pendingTool, approvedActionIdentity := None, "";
      if earlyStop {
        result := Done(Stopped);
      } else if asked.Some? {
        var n := asked.value;
        result := Done(Paused(Pending(newIdentity, calls[n], calls[n + 1..])));
      } else {
        result := Done(Continued);
      }
    }
  }

  lemma {:induction false} CheckedFresh(c: Checked, rules: Rules, calls: seq<ToolCall>, answers: seq<GuardAnswer>,
        identity: string)
    requires |c.items| <= |calls| == |answers| && NoneProcessed(c.items)
    requires c.asked || c.aborted ==> |c.items| < |calls|
    ensures var done := CheckCalls(c, rules, calls, answers, identity);
            NoneProcessed(done.items) && |done.items| <= |calls| && (done.asked ==> |done.items| < |calls|)
    decreases |calls| - |c.items|
  {
    var i := |c.items|;
    if i < |calls| && !c.asked && !c.aborted {
      var next := CheckNext(c, rules, calls[i], answers[i], IdentityOf(identity, i));
      if !next.asked && !next.aborted {
        CheckedFresh(next, rules, calls, answers, identity);
      }
    }
  }
}
