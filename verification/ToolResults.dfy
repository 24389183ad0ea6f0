/**
 What the calls of a response leave behind, in terms of the tools' answers and the guard's
 (runLoop in agent/engine_loop.go): the recorded steps, and what the result messages tell of them over
 all approval pauses.
 */
module ToolResults {
  import opened Text
  import opened Transcript
  import opened ToolBatches
  import opened ToolRuns
  import opened ResponseLives
  import opened ToolExchanges

  // ----- What the check makes of a call -----

  const LIMIT_ERROR := "tool repeat limit reached"
  const GUARD_ERROR := "blocked by guard"

  // The checked call is the call, with what the registry says of its tool. It is skipped for the limit, or
  // because the guard denies it, and then tells the guard's text; otherwise it will run, which a call that
  // needs an approval does only if it passes with one.
  predicate CheckedAs(rules: Rules, call: ToolCall, answer: GuardAnswer, passes: bool, item: Item) {
    && item.call == call && !item.processed
    && item.traits == rules.traits(call.name) && item.terminates == rules.terminates(call)
    && (item.skip ==> item.error == Some(LIMIT_ERROR) || item.error == Some(GUARD_ERROR))
    && (item.error == Some(LIMIT_ERROR) ==> item.skip && rules.limit > 0 && NormalizedToolName(call.name) != "")
    && (item.error == Some(GUARD_ERROR) ==>
          item.skip && (answer == NotFound(item.observation) || answer == Deny(item.observation)))
    && (!item.skip ==> item.error.None? && (answer.Allow? || (answer.RequireApproval? && passes)))
  }

  // The first call of a resumed response passes with the approval it was resumed with, while it is unused.
  predicate Passes(identity: string, approved: string, i: nat) {
    i == 0 && identity != "" && identity == approved
  }

  lemma CheckNextAs(c: Checked, rules: Rules, call: ToolCall, answer: GuardAnswer, identity: string)
    requires !c.asked && !c.aborted
    ensures var next, passes := CheckNext(c, rules, call, answer, identity), identity != "" && identity == c.approved;
            var limited := rules.limit > 0 && Key(call) != "" && Count(c.counts, Key(call)) >= rules.limit;
            && (next.aborted <==> !limited && answer.GuardFails?)
            && (next.asked <==> !limited && answer.RequireApproval? && !passes)
            && next.approved == (if !limited && answer.RequireApproval? && passes then "" else c.approved)
            && if next.asked || next.aborted then next.items == c.items
               else
                 && |next.items| == |c.items| + 1 && c.items <= next.items
                 && CheckedAs(rules, call, answer, passes, next.items[|c.items|])
                 && (next.items[|c.items|].error == Some(LIMIT_ERROR) <==> limited)
  {
  }

  // The approval is unused until the first call has passed with it.
  predicate StillUnused(c: Checked, identity: string, approved: string) {
    if c.items == [] then c.approved == approved else c.approved == approved || c.approved == ""
  }

  // Every item is checked as its call, and the passage stops at the first call that needs an approval it
  // has not, or that the guard could not evaluate.
  ghost predicate AllCheckedAs(rules: Rules, calls: seq<ToolCall>, answers: seq<GuardAnswer>, identity: string,
        approved: string, c: Checked)
  {
    && |c.items| <= |calls| == |answers|
    && (forall i :: 0 <= i < |c.items| ==>
          CheckedAs(rules, calls[i], answers[i], Passes(identity, approved, i), c.items[i]))
    && (c.asked || c.aborted ==> |c.items| < |calls|)
    && (c.asked ==> answers[|c.items|].RequireApproval? && !Passes(identity, approved, |c.items|))
    && (c.aborted ==> answers[|c.items|].GuardFails?)
  }

  lemma {:induction false} CallsCheckedAs(c: Checked, rules: Rules, calls: seq<ToolCall>, answers: seq<GuardAnswer>,
        identity: string, approved: string)
    requires !c.asked && !c.aborted && AllCheckedAs(rules, calls, answers, identity, approved, c)
    requires StillUnused(c, identity, approved)
    ensures var done := CheckCalls(c, rules, calls, answers, identity);
            && AllCheckedAs(rules, calls, answers, identity, approved, done)
            && (done.asked || done.aborted || |done.items| == |calls|)
    decreases |calls| - |c.items|
  {
    var i := |c.items|;
    if i < |calls| {
      CheckNextAs(c, rules, calls[i], answers[i], IdentityOf(identity, i));
      var next := CheckNext(c, rules, calls[i], answers[i], IdentityOf(identity, i));
      if !next.asked && !next.aborted {
        CallsCheckedAs(next, rules, calls, answers, identity, approved);
      }
    }
  }

  // The check of a passage: each call before the one it stops at is skipped for the limit or the guard, or
  // let through; a call that needs an approval is let through only as the first of a resumed response, and
  // only with the unused approval it was resumed with.
  lemma LegChecked(rules: Rules, st: ToolState, calls: seq<ToolCall>, leg: Leg)
    requires |leg.guard| == |calls|
    ensures AllCheckedAs(rules, calls, leg.guard, Identity(st), st.approved, Check(rules, st, calls, leg))
    ensures var c := Check(rules, st, calls, leg); c.asked || c.aborted || |c.items| == |calls|
  {
    CallsCheckedAs(Checked([], st.counts, st.approved, false, false), rules, calls, leg.guard, Identity(st), st.approved);
  }

  // The approval is used up exactly by the first call's passing with it.
  lemma {:induction false} LaterCallsUseNone(c: Checked, rules: Rules, calls: seq<ToolCall>, answers: seq<GuardAnswer>,
        identity: string)
    requires 0 < |c.items| <= |calls| == |answers|
    ensures CheckCalls(c, rules, calls, answers, identity).approved == c.approved
    decreases |calls| - |c.items|
  {
    var i := |c.items|;
    if i < |calls| && !c.asked && !c.aborted {
      var next := CheckNext(c, rules, calls[i], answers[i], IdentityOf(identity, i));
      if !next.asked && !next.aborted {
        LaterCallsUseNone(next, rules, calls, answers, identity);
      }
    }
  }

  lemma ApprovalUsedUp(rules: Rules, st: ToolState, calls: seq<ToolCall>, leg: Leg)
    requires |leg.guard| == |calls|
    ensures Check(rules, st, calls, leg).approved ==
            if calls != [] && leg.guard[0].RequireApproval? && Passes(Identity(st), st.approved, 0)
               && !AtLimit(st.counts, rules.limit, Key(calls[0]))
            then "" else st.approved
  {
    var start := Checked([], st.counts, st.approved, false, false);
    if calls != [] {
      var next := CheckNext(start, rules, calls[0], leg.guard[0], Identity(st));
      CheckNextAs(start, rules, calls[0], leg.guard[0], Identity(st));
      if !next.asked && !next.aborted {
        LaterCallsUseNone(next, rules, calls, leg.guard, Identity(st));
      }
    }
  }

  // ----- What is recorded of a call -----

  // A skipped call is recorded as it was checked, a cancelled one with the reason, and one that came
  // back with what its tool answered.
  predicate RecordedAs(item: Item, fate: Fate, step: Step) {
    && step.action == item.call.name
    && if item.skip then step.observation == item.observation && step.error == item.error
       else match fate
         case Returned(observation, error) => step.observation == observation && step.error == error
         case CancelledAs(reason) => step.observation == UnknownOutcome() && step.error == Some(reason)
  }

  // The steps a passage adds are those of its completions, in their order.
  lemma LegSteps(rules: Rules, st: ToolState, calls: seq<ToolCall>, leg: Leg, k: nat)
    requires LegRuns(rules, st, calls, leg) && k < |leg.log|
    ensures var after, c := AfterLeg(rules, st, calls, leg), Check(rules, st, calls, leg);
            && |after.steps| == |st.steps| + |leg.log| && st.steps <= after.steps
            && leg.log[k].index < |c.items|
            && RecordedAs(c.items[leg.log[k].index], leg.log[k].fate, after.steps[|st.steps| + k])
  {
    StepsAfter(BatchOf(st, Check(rules, st, calls, leg)), leg.log);
  }

  // ----- When a passage ends the run -----

  lemma {:induction false} StopsBecause(b: Batch, log: seq<Completion>)
    requires Orderly(log, |b.items|)
    ensures CompleteAll(b, log).earlyStop <==> b.earlyStop || SomeEnds(b.items, log)
  {
    if log != [] {
      var n := |log| - 1;
      StopsBecause(b, log[..n]);
      UntouchedLast(b, log);
      StopStep(CompleteAll(b, log[..n]), log[n]);
      SomeEndsLast(b.items, log);
    }
  }

  lemma StopStep(b: Batch, c: Completion)
    requires c.index < |b.items|
    ensures Complete(b, c).earlyStop <==> b.earlyStop || EndsRun(b.items[c.index], c.fate)
  {
  }

  ghost predicate SomeEnds(items: seq<Item>, log: seq<Completion>) {
    exists k :: 0 <= k < |log| && log[k].index < |items| && EndsRun(items[log[k].index], log[k].fate)
  }

  lemma SomeEndsLast(items: seq<Item>, log: seq<Completion>)
    requires log != [] && log[|log| - 1].index < |items|
    ensures var last := log[|log| - 1];
            SomeEnds(items, log) <==> SomeEnds(items, log[..|log| - 1]) || EndsRun(items[last.index], last.fate)
  {
    assert forall k :: 0 <= k < |log| - 1 ==> log[..|log| - 1][k] == log[k];
  }

  lemma UntouchedLast(b: Batch, log: seq<Completion>)
    requires Orderly(log, |b.items|) && log != []
    ensures var n := |log| - 1;
            && Orderly(log[..n], |b.items|)
            && CompleteAll(b, log[..n]).items[log[n].index] == b.items[log[n].index]
  {
    var n := |log| - 1;
    ItemsAfter(b, log[..n]);
    assert !Recorded(log[..n], log[n].index);
  }

  // The call succeeded, and its command or its tool ends the run.
  predicate EndsRun(item: Item, fate: Fate) {
    && (item.skip ==> item.error.None?) && (!item.skip ==> fate.Returned? && fate.error.None?)
    && (item.terminates || item.traits.stopAfterSuccess)
  }

  // A passage ends the run exactly when one of the calls it recorded was let through, succeeded, and its
  // command or its tool ends the run.
  lemma StopsExactlyWhen(rules: Rules, st: ToolState, calls: seq<ToolCall>, leg: Leg)
    requires LegRuns(rules, st, calls, leg)
    ensures OutcomeOf(rules, st, calls, leg).Stopped? <==>
            exists k :: 0 <= k < |leg.log| && leg.log[k].index < |calls|
              && !Check(rules, st, calls, leg).items[leg.log[k].index].skip
              && leg.log[k].fate.Returned? && leg.log[k].fate.error.None?
              && (rules.terminates(calls[leg.log[k].index]) || rules.traits(calls[leg.log[k].index].name).stopAfterSuccess)
  {
    var c := Check(rules, st, calls, leg);
    LegChecked(rules, st, calls, leg);
    StopsBecause(BatchOf(st, c), leg.log);
    forall k | 0 <= k < |leg.log|
      ensures EndsRun(c.items[leg.log[k].index], leg.log[k].fate) <==>
              && !c.items[leg.log[k].index].skip && leg.log[k].fate.Returned? && leg.log[k].fate.error.None?
              && (rules.terminates(calls[leg.log[k].index]) || rules.traits(calls[leg.log[k].index].name).stopAfterSuccess)
    {
      var i := leg.log[k].index;
      assert CheckedAs(rules, calls[i], leg.guard[i], Passes(Identity(st), st.approved, i), c.items[i]);
    }
  }

  // ----- What the results tell, over all pauses -----

  predicate Distinct(order: seq<nat>) {
    forall i, j :: 0 <= i < j < |order| ==> order[i] != order[j]
  }

  // One result and one step for each of the calls, and result i tells the observation of step order[i],
  // which is the call's.
  ghost predicate Observed(st: ToolState, st2: ToolState, calls: seq<ToolCall>, order: seq<nat>) {
    && st.messages <= st2.messages && |st2.messages| == |st.messages| + |calls|
    && |st2.steps| == |st.steps| + |calls|
    && (forall j :: 0 <= j < |st.steps| ==>
          st2.steps[j].action == st.steps[j].action && st2.steps[j].observation == st.steps[j].observation)
    && |order| == |calls| && Distinct(order)
    && forall i :: 0 <= i < |calls| ==> ToldBy(st, st2, calls[i], i, order[i])
  }

  function PlaceOf(log: seq<Completion>, i: nat): (k: nat)
    requires Recorded(log, i)
    ensures k < |log| && log[k].index == i
  {
    if log[0].index == i then 0
    else
      assert Recorded(log[1..], i) by {
        var k :| 0 <= k < |log| && log[k].index == i;
        assert log[1..][k - 1].index == i;
      }
      1 + PlaceOf(log[1..], i)
  }

  // The calls recorded by a passage are its first ones.
  lemma LegRecordsFirst(rules: Rules, st: ToolState, calls: seq<ToolCall>, leg: Leg)
    requires LegRuns(rules, st, calls, leg)
    ensures forall k :: 0 <= k < |leg.log| ==> leg.log[k].index < |leg.log|
    ensures forall i: nat :: i < |leg.log| ==> Recorded(leg.log, i)
  {
    var c := Check(rules, st, calls, leg);
    if RunsInParallel(c.items, c.asked, st.pending.Some?) {
      RecordsAllLength(leg.log, |c.items|);
    } else {
      forall i: nat | i < |leg.log| ensures Recorded(leg.log, i) {
        assert leg.log[i].index == i;
      }
    }
  }

  function Places(log: seq<Completion>, base: nat): (order: seq<nat>)
    requires forall i: nat :: i < |log| ==> Recorded(log, i)
    ensures |order| == |log|
  {
    seq(|log|, i requires 0 <= i < |log| => base + PlaceOf(log, i))
  }

  lemma PlacesDistinct(log: seq<Completion>, base: nat)
    requires forall i: nat :: i < |log| ==> Recorded(log, i)
    ensures Distinct(Places(log, base))
    ensures forall i :: 0 <= i < |log| ==> base <= Places(log, base)[i] < base + |log|
  {
  }

  lemma LegGrows(rules: Rules, st: ToolState, calls: seq<ToolCall>, leg: Leg)
    requires LegRuns(rules, st, calls, leg)
    ensures var after := AfterLeg(rules, st, calls, leg);
            && st.messages <= after.messages && |after.messages| == |st.messages| + |leg.log|
            && st.steps <= after.steps && |after.steps| == |st.steps| + |leg.log|
            && |leg.log| <= |calls|
  {
    StepsAfter(BatchOf(st, Check(rules, st, calls, leg)), leg.log);
  }

  predicate TellsCall(st: ToolState, after: ToolState, calls: seq<ToolCall>, i: nat, k: nat) {
    i < |calls| && ToldBy(st, after, calls[i], i, k)
  }

  lemma LegTold(rules: Rules, st: ToolState, calls: seq<ToolCall>, leg: Leg, i: nat, k: nat)
    requires LegRuns(rules, st, calls, leg) && k < |leg.log| && leg.log[k].index == i < |leg.log|
    ensures TellsCall(st, AfterLeg(rules, st, calls, leg), calls, i, |st.steps| + k)
  {
    ResultsMatchSteps(rules, st, calls, leg, k);
  }

  lemma LegObserved(rules: Rules, st: ToolState, calls: seq<ToolCall>, leg: Leg) returns (order: seq<nat>)
    requires LegRuns(rules, st, calls, leg)
    ensures |leg.log| <= |calls| && Observed(st, AfterLeg(rules, st, calls, leg), calls[..|leg.log|], order)
  {
    LegRecordsFirst(rules, st, calls, leg);
    LegGrows(rules, st, calls, leg);
    forall k: nat | k < |leg.log|
      ensures TellsCall(st, AfterLeg(rules, st, calls, leg), calls, leg.log[k].index, |st.steps| + k)
    {
      LegTold(rules, st, calls, leg, leg.log[k].index, k);
    }
    order := ObservedInLog(st, AfterLeg(rules, st, calls, leg), calls, leg.log);
  }

  lemma TellsPlace(st: ToolState, st2: ToolState, calls: seq<ToolCall>, log: seq<Completion>, i: nat)
    requires i < |log| && forall j: nat :: j < |log| ==> Recorded(log, j)
    requires forall k: nat :: k < |log| ==> TellsCall(st, st2, calls, log[k].index, |st.steps| + k)
    ensures TellsCall(st, st2, calls, i, Places(log, |st.steps|)[i])
  {
    assert Recorded(log, i);
    var k := PlaceOf(log, i);
    assert TellsCall(st, st2, calls, log[k].index, |st.steps| + k);
  }

  // From the record alone: the step of a call is at the place of its completion.
  lemma ObservedInLog(st: ToolState, st2: ToolState, calls: seq<ToolCall>, log: seq<Completion>) returns (order: seq<nat>)
    requires |log| <= |calls| && st.messages <= st2.messages && |st2.messages| == |st.messages| + |log|
    requires st.steps <= st2.steps && |st2.steps| == |st.steps| + |log|
    requires forall i: nat :: i < |log| ==> Recorded(log, i)
    requires forall k: nat :: k < |log| ==> TellsCall(st, st2, calls, log[k].index, |st.steps| + k)
    ensures Observed(st, st2, calls[..|log|], order)
  {
    order := Places(log, |st.steps|);
    PlacesDistinct(log, |st.steps|);
    forall i: nat | i < |log| ensures TellsCall(st, st2, calls, i, order[i]) {
      TellsPlace(st, st2, calls, log, i);
    }
    ObservedFrom(st, st2, calls, |log|, order);
  }

  lemma ObservedFrom(st: ToolState, st2: ToolState, calls: seq<ToolCall>, n: nat, order: seq<nat>)
    requires n <= |calls| && st.messages <= st2.messages && |st2.messages| == |st.messages| + n
    requires st.steps <= st2.steps && |st2.steps| == |st.steps| + n
    requires |order| == n && Distinct(order)
    requires forall i: nat :: i < n ==> TellsCall(st, st2, calls, i, order[i])
    ensures Observed(st, st2, calls[..n], order)
  {
    forall i: nat | i < n ensures ToldBy(st, st2, calls[..n][i], i, order[i]) {
      assert TellsCall(st, st2, calls, i, order[i]);
    }
  }

  lemma ObservedJoin(s0: ToolState, s1: ToolState, c: seq<ToolCall>, o1: seq<nat>, r1: ToolState, s2: ToolState,
        d: seq<ToolCall>, o2: seq<nat>)
    requires Observed(s0, s1, c, o1) && Observed(r1, s2, d, o2)
    requires r1.messages == s1.messages && SameObservations(s1.steps, r1.steps)
    ensures Observed(s0, s2, c + d, o1 + o2)
  {
    var order, all := o1 + o2, c + d;
    forall i: nat | i < |all| ensures ToldBy(s0, s2, all[i], i, order[i]) {
      if i < |c| {
        assert ToldBy(s0, s1, c[i], i, o1[i]);
        assert s2.messages[|s0.messages| + i] == s1.messages[|s0.messages| + i];
      } else {
        assert ToldBy(r1, s2, d[i - |c|], i - |c|, o2[i - |c|]);
      }
    }
    forall i, j | 0 <= i < j < |order| ensures order[i] != order[j] {
      assert i < |c| ==> ToldBy(s0, s1, c[i], i, o1[i]);
      assert j >= |c| ==> ToldBy(r1, s2, d[j - |c|], j - |c|, o2[j - |c|]);
    }
  }

  // The same when the calls are given together, the first k of them made before the pause.
  lemma ObservedThrough(s0: ToolState, s1: ToolState, o1: seq<nat>, r1: ToolState, s2: ToolState, o2: seq<nat>,
        calls: seq<ToolCall>, k: nat)
    requires k <= |calls| && Observed(s0, s1, calls[..k], o1) && Observed(r1, s2, calls[k..], o2)
    requires r1.messages == s1.messages && SameObservations(s1.steps, r1.steps)
    ensures Observed(s0, s2, calls, o1 + o2)
  {
    ObservedJoin(s0, s1, calls[..k], o1, r1, s2, calls[k..], o2);
    assert calls == calls[..k] + calls[k..];
  }

  predicate SameObservations(a: seq<Step>, b: seq<Step>) {
    |a| == |b| && forall j :: 0 <= j < |a| ==> b[j].action == a[j].action && b[j].observation == a[j].observation
  }

  // A pause keeps every step as it is, but that an error without text becomes a success.
  lemma RestoredKeeps(steps: seq<Step>)
    ensures SameObservations(steps, Restored(steps))
    ensures forall j :: 0 <= j < |steps| ==>
      Restored(steps)[j].error == if steps[j].error == Some("") then None else steps[j].error
    ensures Restored(steps) == steps <==> TellsErrors(steps)
  {
  }

  lemma NothingObserved(st: ToolState)
    ensures Observed(st, st, [], [])
  {
  }

  // calls2 are the last of the calls, and the others have been made.
  ghost predicate MadeSo(st: ToolState, calls: seq<ToolCall>, st2: ToolState, calls2: seq<ToolCall>, order: seq<nat>) {
    && |calls2| <= |calls| && calls2 == calls[|calls| - |calls2|..]
    && Observed(st, st2, calls[..|calls| - |calls2|], order)
  }

  lemma MadeThrough(s0: ToolState, calls: seq<ToolCall>, s1: ToolState, rest: seq<ToolCall>, o1: seq<nat>, r1: ToolState,
        s2: ToolState, calls2: seq<ToolCall>, o2: seq<nat>)
    requires MadeSo(s0, calls, s1, rest, o1) && MadeSo(r1, rest, s2, calls2, o2)
    requires r1.messages == s1.messages && SameObservations(s1.steps, r1.steps)
    ensures MadeSo(s0, calls, s2, calls2, o1 + o2)
  {
    SplitMade(calls, rest, calls2);
    ObservedThrough(s0, s1, o1, r1, s2, o2, calls[..|calls| - |calls2|], |calls| - |rest|);
  }

  // Up to each pause ...
  lemma {:induction false} ObservedSoFar(rules: Rules, st: ToolState, calls: seq<ToolCall>, legs: seq<Leg>,
        st2: ToolState, calls2: seq<ToolCall>) returns (order: seq<nat>)
    requires Reaches(rules, st, calls, legs, st2, calls2)
    ensures MadeSo(st, calls, st2, calls2, order)
    decreases |legs|
  {
    if legs == [] {
      order := [];
      NothingObserved(st);
    } else {
      var after, saved := AfterLeg(rules, st, calls, legs[0]), OutcomeOf(rules, st, calls, legs[0]).saved;
      var resumed, rest := Resumed(after, saved), PendingCalls(saved);
      var o1 := PausedLegObserved(rules, st, calls, legs[0]);
      var o2 := ObservedSoFar(rules, resumed, rest, legs[1..], st2, calls2);
      RestoredKeeps(after.steps);
      MadeThrough(st, calls, after, rest, o1, resumed, st2, calls2, o2);
      order := o1 + o2;
    }
  }

  lemma SplitMade(calls: seq<ToolCall>, rest: seq<ToolCall>, calls2: seq<ToolCall>)
    requires |calls2| <= |rest| <= |calls| && rest == calls[|calls| - |rest|..] && calls2 == rest[|rest| - |calls2|..]
    ensures var made := calls[..|calls| - |calls2|];
            && made[..|calls| - |rest|] == calls[..|calls| - |rest|]
            && made[|calls| - |rest|..] == rest[..|rest| - |calls2|]
            && calls2 == calls[|calls| - |calls2|..]
  {
  }

  lemma PausedLegObserved(rules: Rules, st: ToolState, calls: seq<ToolCall>, leg: Leg) returns (order: seq<nat>)
    requires LegRuns(rules, st, calls, leg) && OutcomeOf(rules, st, calls, leg).Paused?
    ensures MadeSo(st, calls, AfterLeg(rules, st, calls, leg), PendingCalls(OutcomeOf(rules, st, calls, leg).saved), order)
  {
    LegAnswers(rules, st, calls, leg);
    order := LegObserved(rules, st, calls, leg);
    var n := |leg.log|;
    assert [calls[n]] + calls[n + 1..] == calls[n..];
  }

  // ... and when the response is through, every result tells, at its call's place, what was recorded for
  // its call, and no step is told twice.
  lemma ResultsTellSteps(rules: Rules, st: ToolState, calls: seq<ToolCall>, legs: seq<Leg>, st2: ToolState,
        calls2: seq<ToolCall>, last: Leg) returns (order: seq<nat>)
    requires Reaches(rules, st, calls, legs, st2, calls2)
    requires LegRuns(rules, st2, calls2, last) && OutcomeOf(rules, st2, calls2, last).Continued?
    ensures Observed(st, AfterLeg(rules, st2, calls2, last), calls, order)
  {
    var o1 := ObservedSoFar(rules, st, calls, legs, st2, calls2);
    var o2 := LastLegObserved(rules, st2, calls2, last);
    var after := AfterLeg(rules, st2, calls2, last);
    MadeThrough(st, calls, st2, calls2, o1, st2, after, [], o2);
    order := o1 + o2;
    MadeAll(st, calls, after, order);
  }

  lemma MadeAll(st: ToolState, calls: seq<ToolCall>, st2: ToolState, order: seq<nat>)
    ensures MadeSo(st, calls, st2, [], order) <==> Observed(st, st2, calls, order)
  {
    assert calls[|calls|..] == [] && calls[..|calls|] == calls;
  }

  lemma LastLegObserved(rules: Rules, st: ToolState, calls: seq<ToolCall>, leg: Leg) returns (order: seq<nat>)
    requires LegRuns(rules, st, calls, leg) && OutcomeOf(rules, st, calls, leg).Continued?
    ensures MadeSo(st, calls, AfterLeg(rules, st, calls, leg), [], order)
  {
    LegAnswers(rules, st, calls, leg);
    order := LegObserved(rules, st, calls, leg);
    assert calls[..|calls|] == calls;
    MadeAll(st, calls, AfterLeg(rules, st, calls, leg), order);
  }
}
