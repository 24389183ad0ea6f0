/**
 A tool-call response over all of its approval pauses (runLoop in agent/engine_loop.go, resume in
 agent/engine_resume.go): the approved call goes ahead, no call is asked about for ever, the counts
 stay right, and the transcript ends up with one complete exchange.
 */
module ResponseLives {
  import opened Text
  import opened Transcript
  import opened Blocks
  import opened ToolBatches
  import opened ToolRuns

  // Every failure among the completions has an error text.
  predicate TellsFailures(log: seq<Completion>) {
    forall k :: 0 <= k < |log| ==>
      match log[k].fate
      case Returned(_, error) => error != Some("")
      case CancelledAs(reason) => reason != ""
  }

  // The pauses of a response: from the head of the loop with st and calls to a later head with
  // st2 and calls2, each passage in between ending in a pause that was approved and resumed.
  ghost predicate Reaches(rules: Rules, st: ToolState, calls: seq<ToolCall>, legs: seq<Leg>, st2: ToolState,
        calls2: seq<ToolCall>)
    decreases |legs|
  {
    if legs == [] then st2 == st && calls2 == calls
    else
      && LegRuns(rules, st, calls, legs[0])
      && OutcomeOf(rules, st, calls, legs[0]).Paused?
      && legs[0].newIdentity != ""
      && var saved := OutcomeOf(rules, st, calls, legs[0]).saved;
         Reaches(rules, Resumed(AfterLeg(rules, st, calls, legs[0]), saved), PendingCalls(saved), legs[1..], st2, calls2)
  }

  // ----- The approved call -----

  // The head of the loop right after a resume.
  ghost predicate ResumedHead(st: ToolState, calls: seq<ToolCall>, limit: nat) {
    && st.pending.Some? && st.approved == st.pending.value.identity != ""
    && calls == PendingCalls(st.pending.value)
    && !AtLimit(st.counts, limit, Key(calls[0]))
  }

  lemma PauseLeadsToResumedHead(rules: Rules, st: ToolState, calls: seq<ToolCall>, leg: Leg)
    requires LegRuns(rules, st, calls, leg) && OutcomeOf(rules, st, calls, leg).Paused? && leg.newIdentity != ""
    requires Tracked(st, rules.limit) && TellsErrors(AfterLeg(rules, st, calls, leg).steps)
    ensures var saved := OutcomeOf(rules, st, calls, leg).saved;
            ResumedHead(Resumed(AfterLeg(rules, st, calls, leg), saved), PendingCalls(saved), rules.limit)
  {
    var saved := OutcomeOf(rules, st, calls, leg).saved;
    PausedBelowLimit(rules, st, calls, leg);
    LegKeepsTracked(rules, st, calls, leg);
    TrackedResumed(AfterLeg(rules, st, calls, leg), saved, rules.limit);
  }

  // The repeat limit does not reject the call that was approved, and it is not asked about again.
  lemma ApprovedCallGoesAhead(rules: Rules, st: ToolState, calls: seq<ToolCall>, answer: GuardAnswer)
    requires ResumedHead(st, calls, rules.limit)
    ensures var verdict := Judge(calls[0], st.counts, rules.limit, answer, Identity(st), st.approved);
            && !verdict.Ask?
            && (verdict.Run? <==> answer.Allow? || answer.RequireApproval?)
            && (verdict.Abort? <==> answer.GuardFails?)
  {
  }

  lemma {:induction false} CheckOnlyGrows(c: Checked, rules: Rules, calls: seq<ToolCall>, answers: seq<GuardAnswer>,
        identity: string)
    requires |c.items| <= |calls| == |answers|
    ensures c.items <= CheckCalls(c, rules, calls, answers, identity).items
    decreases |calls| - |c.items|
  {
    var i := |c.items|;
    if i < |calls| && !c.asked && !c.aborted {
      var next := CheckNext(c, rules, calls[i], answers[i], IdentityOf(identity, i));
      if !next.asked && !next.aborted {
        CheckOnlyGrows(next, rules, calls, answers, identity);
      }
    }
  }

  // So each pause after the first leaves fewer calls to make.
  lemma ResumedLegProgress(rules: Rules, st: ToolState, calls: seq<ToolCall>, leg: Leg)
    requires ResumedHead(st, calls, rules.limit)
    requires LegRuns(rules, st, calls, leg) && OutcomeOf(rules, st, calls, leg).Paused?
    ensures |PendingCalls(OutcomeOf(rules, st, calls, leg).saved)| < |calls|
  {
    ApprovedCallGoesAhead(rules, st, calls, leg.guard[0]);
    var start := Checked([], st.counts, st.approved, false, false);
    var next := CheckNext(start, rules, calls[0], leg.guard[0], IdentityOf(Identity(st), 0));
    if !next.aborted {
      CheckOnlyGrows(next, rules, calls, leg.guard, Identity(st));
    }
  }

  // ----- Error texts -----

  lemma BashKey()
    ensures NormalizedToolName("bash") == "bash"
  {
    assert TrimLeft("bash") == "bash" && TrimRight("bash") == "bash";
    assert ToLower("bash") == "bash";
  }

  // Without an error text a failure is counted as a success after the resume, and the limit then
  // rejects the very call that was approved.
  lemma EmptyErrorRejectsApprovedCall()
    ensures var call := ToolCall("c1", "bash", "");
            var st := ToolState([], [Step("bash", "", Some(""))], map[], None, "");
            var saved := Pending("tool_1", call, []);
            && Tracked(st, 1) && !AtLimit(st.counts, 1, Key(call))
            && Judge(call, Resumed(st, saved).counts, 1, RequireApproval, saved.identity, saved.identity).Skip?
  {
    var steps := [Step("bash", "", Some(""))];
    BashKey();
    assert steps[..0] == [];
    assert forall key :: Successes(steps, key) == Successes([], key);
    RestoredCount(steps, "bash");
    assert Misread(steps, "bash") == 1;
  }

  // On a resume the limit rejects the approved call, whatever the guard answers, if and only if the
  // successes of its tool and its failures without an error text come to the limit.
  lemma LimitRejectsExactlyWhen(rules: Rules, st: ToolState, saved: Pending, answer: GuardAnswer)
    ensures var resumed, key := Resumed(st, saved), Key(saved.call);
            AtLimit(resumed.counts, rules.limit, key) <==>
              rules.limit > 0 && key != "" && Successes(st.steps, key) + Misread(st.steps, key) >= rules.limit
    ensures var resumed, key := Resumed(st, saved), Key(saved.call);
            answer == RequireApproval && saved.identity != "" ==>
              (Judge(saved.call, resumed.counts, rules.limit, answer, Identity(resumed), resumed.approved).Skip? <==>
                rules.limit > 0 && key != "" && Successes(st.steps, key) + Misread(st.steps, key) >= rules.limit)
  {
    if Key(saved.call) != "" {
      RestoredCount(st.steps, Key(saved.call));
    }
  }

  predicate ItemsTell(items: seq<Item>) {
    forall i :: 0 <= i < |items| ==> items[i].error != Some("")
  }

  lemma {:induction false} CheckedItemsTell(c: Checked, rules: Rules, calls: seq<ToolCall>,
        answers: seq<GuardAnswer>, identity: string)
    requires |c.items| <= |calls| == |answers| && ItemsTell(c.items)
    ensures ItemsTell(CheckCalls(c, rules, calls, answers, identity).items)
    decreases |calls| - |c.items|
  {
    var i := |c.items|;
    if i < |calls| && !c.asked && !c.aborted {
      var next := CheckNext(c, rules, calls[i], answers[i], IdentityOf(identity, i));
      if !next.asked && !next.aborted {
        CheckedItemsTell(next, rules, calls, answers, identity);
      }
    }
  }

  lemma LegKeepsTelling(rules: Rules, st: ToolState, calls: seq<ToolCall>, leg: Leg)
    requires LegRuns(rules, st, calls, leg) && TellsErrors(st.steps) && TellsFailures(leg.log)
    ensures TellsErrors(AfterLeg(rules, st, calls, leg).steps)
  {
    var b := BatchOf(st, Check(rules, st, calls, leg));
    var after := CompleteAll(b, leg.log).steps;
    CheckedItemsTell(Checked([], st.counts, st.approved, false, false), rules, calls, leg.guard, Identity(st));
    StepsAfter(b, leg.log);
    forall i | 0 <= i < |after| ensures after[i].error != Some("") {
      if i < |st.steps| {
        assert after[i] == st.steps[i];
      } else {
        var k := i - |st.steps|;
        assert after[|st.steps| + k] == StepOf(Finished(b.items[leg.log[k].index], leg.log[k].fate));
      }
    }
  }

  lemma RestoredTells(steps: seq<Step>)
    ensures TellsErrors(Restored(steps))
    ensures TellsErrors(steps) ==> Restored(steps) == steps
  {
    forall i | 0 <= i < |steps| ensures Restored(steps)[i].error != Some("") {
      assert Restored(steps)[i] == StepFrom(SnapshotOf(steps[i]));
    }
    if TellsErrors(steps) {
      forall i | 0 <= i < |steps| ensures Restored(steps)[i] == steps[i] {
        assert steps[i].error != Some("");
      }
    }
  }

  // ----- Counts and progress over all pauses -----

  ghost predicate AllTell(legs: seq<Leg>) {
    forall k :: 0 <= k < |legs| ==> TellsFailures(legs[k].log)
  }

  // At every head of the loop the counts are those of the recorded successes and within the limit;
  // at the head after a resume the approved call is below the limit.
  lemma {:induction false} HeadsTracked(rules: Rules, st: ToolState, calls: seq<ToolCall>, legs: seq<Leg>,
        st2: ToolState, calls2: seq<ToolCall>)
    requires Reaches(rules, st, calls, legs, st2, calls2)
    requires Tracked(st, rules.limit) && TellsErrors(st.steps) && AllTell(legs)
    ensures Tracked(st2, rules.limit) && TellsErrors(st2.steps)
    ensures legs != [] ==> ResumedHead(st2, calls2, rules.limit)
    decreases |legs|
  {
    if legs != [] {
      var after, saved := AfterLeg(rules, st, calls, legs[0]), OutcomeOf(rules, st, calls, legs[0]).saved;
      assert TellsFailures(legs[0].log);
      LegKeepsTelling(rules, st, calls, legs[0]);
      LegKeepsTracked(rules, st, calls, legs[0]);
      TrackedResumed(after, saved, rules.limit);
      RestoredTells(after.steps);
      PauseLeadsToResumedHead(rules, st, calls, legs[0]);
      HeadsTracked(rules, Resumed(after, saved), PendingCalls(saved), legs[1..], st2, calls2);
    }
  }

  lemma {:induction false} ResumedPausesBounded(rules: Rules, st: ToolState, calls: seq<ToolCall>, legs: seq<Leg>,
        st2: ToolState, calls2: seq<ToolCall>)
    requires Reaches(rules, st, calls, legs, st2, calls2) && ResumedHead(st, calls, rules.limit)
    requires Tracked(st, rules.limit) && TellsErrors(st.steps) && AllTell(legs)
    ensures |legs| + |calls2| <= |calls|
    decreases |legs|
  {
    if legs != [] {
      var after, saved := AfterLeg(rules, st, calls, legs[0]), OutcomeOf(rules, st, calls, legs[0]).saved;
      ResumedLegProgress(rules, st, calls, legs[0]);
      NextHead(rules, st, calls, legs[0]);
      ResumedPausesBounded(rules, Resumed(after, saved), PendingCalls(saved), legs[1..], st2, calls2);
    }
  }

  lemma NextHead(rules: Rules, st: ToolState, calls: seq<ToolCall>, leg: Leg)
    requires LegRuns(rules, st, calls, leg) && OutcomeOf(rules, st, calls, leg).Paused? && leg.newIdentity != ""
    requires Tracked(st, rules.limit) && TellsErrors(st.steps) && TellsFailures(leg.log)
    ensures var saved := OutcomeOf(rules, st, calls, leg).saved;
            var next := Resumed(AfterLeg(rules, st, calls, leg), saved);
            Tracked(next, rules.limit) && TellsErrors(next.steps) && ResumedHead(next, PendingCalls(saved), rules.limit)
  {
    HeadsTracked(rules, st, calls, [leg], Resumed(AfterLeg(rules, st, calls, leg), OutcomeOf(rules, st, calls, leg).saved),
                 PendingCalls(OutcomeOf(rules, st, calls, leg).saved));
  }

  // A response is paused at most once for each of its calls.
  lemma PausesBounded(rules: Rules, st: ToolState, calls: seq<ToolCall>, legs: seq<Leg>, st2: ToolState,
        calls2: seq<ToolCall>)
    requires Reaches(rules, st, calls, legs, st2, calls2) && calls != []
    requires Tracked(st, rules.limit) && TellsErrors(st.steps) && AllTell(legs)
    ensures |legs| <= |calls|
  {
    if legs != [] {
      var after, saved := AfterLeg(rules, st, calls, legs[0]), OutcomeOf(rules, st, calls, legs[0]).saved;
      NextHead(rules, st, calls, legs[0]);
      ResumedPausesBounded(rules, Resumed(after, saved), PendingCalls(saved), legs[1..], st2, calls2);
      HeadsTracked(rules, Resumed(after, saved), PendingCalls(saved), legs[1..], st2, calls2);
      HeadHasCalls(rules, Resumed(after, saved), PendingCalls(saved), legs[1..], st2, calls2);
    }
  }

  lemma {:induction false} HeadHasCalls(rules: Rules, st: ToolState, calls: seq<ToolCall>, legs: seq<Leg>,
        st2: ToolState, calls2: seq<ToolCall>)
    requires Reaches(rules, st, calls, legs, st2, calls2) && calls != []
    ensures calls2 != []
    decreases |legs|
  {
    if legs != [] {
      var after, saved := AfterLeg(rules, st, calls, legs[0]), OutcomeOf(rules, st, calls, legs[0]).saved;
      HeadHasCalls(rules, Resumed(after, saved), PendingCalls(saved), legs[1..], st2, calls2);
    }
  }

  // ----- One response after the other -----

  // A response of the model and its life: the pauses up to the head with st and calls left, and the
  // last passage, after which the loop goes on.
  datatype Response = Response(message: Message, calls: seq<ToolCall>, legs: seq<Leg>, st: ToolState, left: seq<ToolCall>, last: Leg)

  function Received(st: ToolState, message: Message): ToolState {
    st.(messages := st.messages + [message])
  }

  ghost predicate Responds(rules: Rules, st: ToolState, responses: seq<Response>, end: ToolState)
    decreases |responses|
  {
    if responses == [] then end == st
    else
      var r := responses[0];
      && Reaches(rules, Received(st, r.message), r.calls, r.legs, r.st, r.left)
      && LegRuns(rules, r.st, r.left, r.last) && OutcomeOf(rules, r.st, r.left, r.last).Continued?
      && Responds(rules, AfterLeg(rules, r.st, r.left, r.last), responses[1..], end)
  }

  predicate RespondsTelling(responses: seq<Response>) {
    forall k :: 0 <= k < |responses| ==>
      TellsFailures(responses[k].last.log) &&
      forall j :: 0 <= j < |responses[k].legs| ==> TellsFailures(responses[k].legs[j].log)
  }

  // Over a run of any number of responses, each with any number of pauses, the counts at every head of
  // the loop are the recorded successes and never exceed the limit.
  lemma {:induction false} RunTracked(rules: Rules, st: ToolState, responses: seq<Response>, end: ToolState)
    requires Responds(rules, st, responses, end)
    requires Tracked(st, rules.limit) && TellsErrors(st.steps) && RespondsTelling(responses)
    ensures Tracked(end, rules.limit) && TellsErrors(end.steps)
    decreases |responses|
  {
    if responses != [] {
      var r := responses[0];
      assert AllTell(r.legs) && TellsFailures(r.last.log);
      HeadsTracked(rules, Received(st, r.message), r.calls, r.legs, r.st, r.left);
      LegKeepsTracked(rules, r.st, r.left, r.last);
      LegKeepsTelling(rules, r.st, r.left, r.last);
      RunTracked(rules, AfterLeg(rules, r.st, r.left, r.last), responses[1..], end);
    }
  }
}
