/**
 One batch of tool calls (the tool-call phases of runLoop in agent/engine_loop.go): what a batch is,
 call by call, and what it leaves behind.
 */
module ToolBatches {
  import opened Text
  import opened Transcript

  datatype ToolCall = ToolCall(id: string, name: string, params: string)

  // A recorded step; error is none for a success.
  datatype Step = Step(action: string, observation: string, error: Option<string>)

  // What the registry knows of a tool.
  datatype Traits = Traits(parallelSafe: bool, stopAfterSuccess: bool)

  // The guard's answer for a call; NotFound when no such tool exists.
  datatype GuardAnswer =
    | NotFound(message: string)
    | Allow
    | Deny(message: string)
    | RequireApproval
    | GuardFails

  // What became of a call that was started, or of one the batch was cancelled before.
  datatype Fate = Returned(observation: string, error: Option<string>) | CancelledAs(reason: string)

  datatype Item = Item(
    call: ToolCall,
    skip: bool,
    terminates: bool,
    traits: Traits,
    processed: bool,
    observation: string,
    error: Option<string>)

  // What stays the same during a batch: the limit on successful calls of one tool (none if 0), the
  // registry, which calls end the run, and the length of a result message's JSON encoding.
  datatype Rules = Rules(
    limit: nat, traits: string -> Traits, terminates: ToolCall -> bool, resultBytes: (string, string) -> nat)

  function NormalizedToolName(name: string): string {
    ToLower(TrimSpace(name))
  }

  function Key(call: ToolCall): string {
    NormalizedToolName(call.name)
  }

  // All spellings of a tool's name with white space around them count as one, and so do capitals.
  lemma SpellingsCountAsOne(name: string)
    ensures NormalizedToolName(TrimSpace(name)) == NormalizedToolName(name)
    ensures NormalizedToolName(name) == "" <==> AllSpace(name)
    ensures forall i :: 0 <= i < |NormalizedToolName(name)| ==> !('A' <= NormalizedToolName(name)[i] <= 'Z')
  {
    TrimSpaceIdempotent(name);
    BlankMeans(name);
  }

  // ----- Repeat counts -----

  function Count(counts: map<string, nat>, key: string): nat {
    if key in counts then counts[key] else 0
  }

  predicate Succeeds(step: Step, key: string) {
    step.error.None? && NormalizedToolName(step.action) == key
  }

  // The successful steps of a tool.
  function Successes(steps: seq<Step>, key: string): nat {
    if steps == [] then 0
    else Successes(steps[..|steps| - 1], key) + if Succeeds(steps[|steps| - 1], key) then 1 else 0
  }

  predicate Counts(item: Item, key: string) {
    !item.processed && !item.skip && Key(item.call) == key
  }

  // The calls of a tool that are let through and not finished yet.
  function Reserved(items: seq<Item>, key: string): nat {
    if items == [] then 0
    else Reserved(items[..|items| - 1], key) + if Counts(items[|items| - 1], key) then 1 else 0
  }

  ghost predicate CountsAgree(counts: map<string, nat>, steps: seq<Step>, items: seq<Item>) {
    forall key :: key != "" ==> Count(counts, key) == Successes(steps, key) + Reserved(items, key)
  }

  ghost predicate WithinLimit(counts: map<string, nat>, limit: nat) {
    limit > 0 ==> forall key :: key != "" ==> Count(counts, key) <= limit
  }

  function Bump(counts: map<string, nat>, key: string): map<string, nat> {
    if key == "" then counts else counts[key := Count(counts, key) + 1]
  }

  function Drop(counts: map<string, nat>, key: string): map<string, nat> {
    if key != "" && Count(counts, key) > 0 then counts[key := Count(counts, key) - 1] else counts
  }

  // The counts a run starts or resumes with.
  method RebuildToolTracking(steps: seq<Step>) returns (counts: map<string, nat>)
    ensures forall key :: key != "" ==> Count(counts, key) == Successes(steps, key)
    ensures counts == Rebuilt(steps)
  {
    counts := map[];
    for i := 0 to |steps|
      invariant counts == Rebuilt(steps[..i])
    {
      assert steps[..i + 1][..i] == steps[..i];
      if steps[i].error.Some? {
        continue;
      }
      var name := NormalizedToolName(steps[i].action);
      if name != "" {
        counts := counts[name := Count(counts, name) + 1];
      }
    }
    assert steps[..|steps|] == steps;
    RebuiltCounts(steps);
  }

  function Rebuilt(steps: seq<Step>): map<string, nat> {
    if steps == [] then map[]
    else
      var before, last := Rebuilt(steps[..|steps| - 1]), steps[|steps| - 1];
      if last.error.Some? then before else Bump(before, NormalizedToolName(last.action))
  }

  lemma {:induction false} RebuiltCounts(steps: seq<Step>)
    ensures forall key :: key != "" ==> Count(Rebuilt(steps), key) == Successes(steps, key)
  {
    if steps != [] {
      RebuiltCounts(steps[..|steps| - 1]);
    }
  }

  // ----- Phase 1: the check before any call runs -----

  datatype Verdict = Run | Skip(observation: string, error: string) | Ask | Abort

  predicate AtLimit(counts: map<string, nat>, limit: nat, key: string) {
    limit > 0 && key != "" && Count(counts, key) >= limit
  }

  // The verdict on one call. identity is the approval the call was resumed with, empty for any other
  // call; approved is the approval still unused.
  function Judge(call: ToolCall, counts: map<string, nat>, limit: nat, answer: GuardAnswer, identity: string,
        approved: string): Verdict
  {
    if AtLimit(counts, limit, Key(call)) then Skip("ERR_TOOL_REPEAT_LIMIT", "tool repeat limit reached")
    else
      match answer
      case NotFound(message) => Skip(message, "blocked by guard")
      case Deny(message) => Skip(message, "blocked by guard")
      case Allow => Run
      case GuardFails => Abort
      case RequireApproval => if identity != "" && identity == approved then Run else Ask
  }

  // Whether the verdict used up the unused approval.
  predicate UsesApproval(call: ToolCall, counts: map<string, nat>, limit: nat, answer: GuardAnswer, identity: string,
        approved: string)
  {
    !AtLimit(counts, limit, Key(call)) && answer.RequireApproval? && identity != "" && identity == approved
  }

  function NewItem(rules: Rules, call: ToolCall, verdict: Verdict): Item {
    Item(call, verdict.Skip?, rules.terminates(call), rules.traits(call.name), false,
         if verdict.Skip? then verdict.observation else "",
         if verdict.Skip? then Some(verdict.error) else None)
  }

  // The calls checked so far; stopped is where and why the check ended early.
  datatype Checked = Checked(items: seq<Item>, counts: map<string, nat>, approved: string, asked: bool, aborted: bool)

  function IdentityOf(identity: string, i: nat): string {
    if i == 0 then identity else ""
  }

  function CheckNext(c: Checked, rules: Rules, call: ToolCall, answer: GuardAnswer, identity: string): Checked {
    var verdict := Judge(call, c.counts, rules.limit, answer, identity, c.approved);
    match verdict
    case Abort => c.(aborted := true)
    case Ask => c.(asked := true)
    case Skip(_, _) => c.(items := c.items + [NewItem(rules, call, verdict)])
    case Run =>
      Checked(c.items + [NewItem(rules, call, verdict)], Bump(c.counts, Key(call)),
              if UsesApproval(call, c.counts, rules.limit, answer, identity, c.approved) then "" else c.approved,
              false, false)
  }

  function CheckCalls(c: Checked, rules: Rules, calls: seq<ToolCall>, answers: seq<GuardAnswer>,
        identity: string): Checked
    requires |answers| == |calls|
    requires |c.items| <= |calls|
    decreases |calls| - |c.items|
  {
    var i := |c.items|;
    if i == |calls| || c.asked || c.aborted then c
    else
      var next := CheckNext(c, rules, calls[i], answers[i], IdentityOf(identity, i));
      if next.asked || next.aborted then next else CheckCalls(next, rules, calls, answers, identity)
  }

  // ----- Phase 2: completions -----

  // A batch under way: its items, the recorded steps, the counts, and whether it ends the run.
  datatype Batch = Batch(items: seq<Item>, steps: seq<Step>, counts: map<string, nat>, earlyStop: bool)

  datatype Completion = Completion(index: nat, fate: Fate)

  function UnknownOutcome(): string {
    "Error: its outcome is unknown."
  }

  function Finished(item: Item, fate: Fate): Item {
    if item.skip then item.(processed := true)
    else
      match fate
      case Returned(observation, error) => item.(processed := true, observation := observation, error := error)
      case CancelledAs(reason) => item.(processed := true, observation := UnknownOutcome(), error := Some(reason))
  }

  function StepOf(item: Item): Step {
    Step(item.call.name, item.observation, item.error)
  }

  predicate Stops(item: Item) {
    item.error.None? && (item.terminates || item.traits.stopAfterSuccess)
  }

  // Recording the completion of one item.
  function Complete(b: Batch, c: Completion): Batch
    requires c.index < |b.items|
  {
    var item := Finished(b.items[c.index], c.fate);
    Batch(b.items[c.index := item],
          b.steps + [StepOf(item)],
          if !item.skip && item.error.Some? then Drop(b.counts, Key(item.call)) else b.counts,
          b.earlyStop || Stops(item))
  }

  // A record of completions: each call at most once.
  predicate Orderly(log: seq<Completion>, n: nat) {
    && (forall k :: 0 <= k < |log| ==> log[k].index < n)
    && forall j, k :: 0 <= j < k < |log| ==> log[j].index != log[k].index
  }

  function CompleteAll(b: Batch, log: seq<Completion>): (after: Batch)
    requires Orderly(log, |b.items|)
    ensures |after.items| == |b.items|
  {
    if log == [] then b else Complete(CompleteAll(b, log[..|log| - 1]), log[|log| - 1])
  }

  // ----- Counts -----

  lemma {:induction false} ReservedUpdate(items: seq<Item>, i: nat, item: Item, key: string)
    requires i < |items|
    ensures Reserved(items[i := item], key) + (if Counts(items[i], key) then 1 else 0)
            == Reserved(items, key) + (if Counts(item, key) then 1 else 0)
  {
    var n := |items| - 1;
    if i < n {
      ReservedUpdate(items[..n], i, item, key);
      assert items[i := item][..n] == items[..n][i := item];
    } else {
      assert items[i := item][..n] == items[..n];
    }
  }

  lemma SuccessesSnoc(steps: seq<Step>, step: Step, key: string)
    ensures Successes(steps + [step], key) == Successes(steps, key) + if Succeeds(step, key) then 1 else 0
  {
    assert (steps + [step])[..|steps|] == steps;
  }

  lemma ReservedSnoc(items: seq<Item>, item: Item, key: string)
    ensures Reserved(items + [item], key) == Reserved(items, key) + if Counts(item, key) then 1 else 0
  {
    assert (items + [item])[..|items|] == items;
  }

  // A skipped item carries an error from the check on.
  predicate SkipsFail(items: seq<Item>) {
    forall i :: 0 <= i < |items| ==> (items[i].skip ==> items[i].error.Some?)
  }

  lemma DropCount(counts: map<string, nat>, dropped: string, key: string)
    requires key != ""
    ensures Count(Drop(counts, dropped), key) ==
            if key == dropped && Count(counts, key) > 0 then Count(counts, key) - 1 else Count(counts, key)
  {
  }

  lemma FinishedIs(item: Item, fate: Fate)
    ensures var done := Finished(item, fate);
            && done.processed && done.skip == item.skip && done.call == item.call
            && (item.skip ==> done.error == item.error)
            && StepOf(done) == Step(item.call.name, done.observation, done.error)
  {
  }

  lemma CompleteIs(b: Batch, c: Completion)
    requires c.index < |b.items|
    ensures var item, after := Finished(b.items[c.index], c.fate), Complete(b, c);
            && after.items == b.items[c.index := item] && after.steps == b.steps + [StepOf(item)]
            && after.counts == (if !item.skip && item.error.Some? then Drop(b.counts, Key(item.call)) else b.counts)
  {
  }

  lemma CompleteKeepsCount(b: Batch, c: Completion, key: string)
    requires c.index < |b.items| && !b.items[c.index].processed && key != ""
    requires Count(b.counts, key) == Successes(b.steps, key) + Reserved(b.items, key)
    requires b.items[c.index].skip ==> b.items[c.index].error.Some?
    ensures var after := Complete(b, c); Count(after.counts, key) == Successes(after.steps, key) + Reserved(after.items, key)
  {
    var item := Finished(b.items[c.index], c.fate);
    CompleteIs(b, c);
    FinishedIs(b.items[c.index], c.fate);
    DropCount(b.counts, Key(item.call), key);
    SuccessesSnoc(b.steps, StepOf(item), key);
    ReservedUpdate(b.items, c.index, item, key);
  }

  // Completing a call keeps the counts in step with what is recorded, whatever became of it.
  lemma CompleteKeepsCounts(b: Batch, c: Completion)
    requires c.index < |b.items| && !b.items[c.index].processed
    requires CountsAgree(b.counts, b.steps, b.items) && SkipsFail(b.items)
    ensures CountsAgree(Complete(b, c).counts, Complete(b, c).steps, Complete(b, c).items)
    ensures SkipsFail(Complete(b, c).items)
  {
    var after := Complete(b, c);
    forall key | key != ""
      ensures Count(after.counts, key) == Successes(after.steps, key) + Reserved(after.items, key)
    {
      CompleteKeepsCount(b, c, key);
    }
  }

  lemma CompleteKeepsLimit(b: Batch, c: Completion, limit: nat)
    requires c.index < |b.items| && WithinLimit(b.counts, limit)
    ensures WithinLimit(Complete(b, c).counts, limit)
  {
    forall key | limit > 0 && key != "" ensures Count(Complete(b, c).counts, key) <= limit {
      assert Count(b.counts, key) <= limit;
    }
  }

  // ----- What a record of completions comes to -----

  ghost predicate Recorded(log: seq<Completion>, i: nat) {
    exists k :: 0 <= k < |log| && log[k].index == i
  }

  predicate NoneProcessed(items: seq<Item>) {
    forall i :: 0 <= i < |items| ==> !items[i].processed
  }

  // Completions touch their own items only: the result of a call depends on its own fate, not on
  // the order or the fates of the others.
  lemma {:induction false} ItemsAfter(b: Batch, log: seq<Completion>)
    requires Orderly(log, |b.items|)
    ensures forall k :: 0 <= k < |log| ==>
      CompleteAll(b, log).items[log[k].index] == Finished(b.items[log[k].index], log[k].fate)
    ensures forall i: nat :: i < |b.items| && !Recorded(log, i) ==> CompleteAll(b, log).items[i] == b.items[i]
  {
    if log != [] {
      var n := |log| - 1;
      var before := CompleteAll(b, log[..n]);
      ItemsAfter(b, log[..n]);
      assert !Recorded(log[..n], log[n].index);
      forall i: nat | i < |b.items| && !Recorded(log, i) ensures CompleteAll(b, log).items[i] == b.items[i] {
        assert log[n].index != i;
        assert forall k :: 0 <= k < n ==> log[..n][k] == log[k];
        assert !Recorded(log[..n], i);
      }
      forall k | 0 <= k < |log|
        ensures CompleteAll(b, log).items[log[k].index] == Finished(b.items[log[k].index], log[k].fate)
      {
        assert k < n ==> log[..n][k] == log[k] && log[k].index != log[n].index;
      }
    }
  }

  // The recorded steps are those of the completed calls, one for each completion, in its order.
  lemma {:induction false} StepsAfter(b: Batch, log: seq<Completion>)
    requires Orderly(log, |b.items|)
    ensures var after := CompleteAll(b, log);
            && |after.steps| == |b.steps| + |log|
            && b.steps <= after.steps
            && forall k :: 0 <= k < |log| ==>
                 after.steps[|b.steps| + k] == StepOf(Finished(b.items[log[k].index], log[k].fate))
  {
    if log != [] {
      var n := |log| - 1;
      StepsAfter(b, log[..n]);
      ItemsAfter(b, log[..n]);
      assert !Recorded(log[..n], log[n].index);
    }
  }

  lemma {:induction false} CompleteAllKeepsCounts(b: Batch, log: seq<Completion>, limit: nat)
    requires Orderly(log, |b.items|) && NoneProcessed(b.items)
    requires CountsAgree(b.counts, b.steps, b.items) && SkipsFail(b.items) && WithinLimit(b.counts, limit)
    ensures var after := CompleteAll(b, log);
            CountsAgree(after.counts, after.steps, after.items) && SkipsFail(after.items) && WithinLimit(after.counts, limit)
  {
    if log != [] {
      var n := |log| - 1;
      var before := CompleteAll(b, log[..n]);
      CompleteAllKeepsCounts(b, log[..n], limit);
      ItemsAfter(b, log[..n]);
      assert !Recorded(log[..n], log[n].index);
      CompleteKeepsCounts(before, log[n]);
      CompleteKeepsLimit(before, log[n], limit);
    }
  }

  // ----- Completion order -----

  ghost predicate RecordsAll(log: seq<Completion>, n: nat) {
    Orderly(log, n) && forall i: nat :: i < n ==> Recorded(log, i)
  }

  // The two records have the same calls end in the same way.
  ghost predicate SameFates(log1: seq<Completion>, log2: seq<Completion>) {
    forall j, k :: 0 <= j < |log1| && 0 <= k < |log2| && log1[j].index == log2[k].index ==> log1[j].fate == log2[k].fate
  }

  // When every call has ended, the items do not depend on the order in which they ended.
  lemma OrderDoesNotMatter(b: Batch, log1: seq<Completion>, log2: seq<Completion>)
    requires RecordsAll(log1, |b.items|) && RecordsAll(log2, |b.items|) && SameFates(log1, log2)
    ensures CompleteAll(b, log1).items == CompleteAll(b, log2).items
  {
    ItemsAfter(b, log1);
    ItemsAfter(b, log2);
    forall i: nat | i < |b.items| ensures CompleteAll(b, log1).items[i] == CompleteAll(b, log2).items[i] {
      assert Recorded(log1, i) && Recorded(log2, i);
      var j :| 0 <= j < |log1| && log1[j].index == i;
      var k :| 0 <= k < |log2| && log2[k].index == i;
    }
  }

  // ----- Parallel batches -----

  predicate Harmless(item: Item) {
    item.skip || (!item.terminates && item.traits.parallelSafe && !item.traits.stopAfterSuccess)
  }

  function Runnable(items: seq<Item>): nat {
    if items == [] then 0
    else Runnable(items[..|items| - 1]) + if items[|items| - 1].skip then 0 else 1
  }

  // Calls run concurrently when nothing is awaiting approval, there are several, and none of them is
  // unsafe or can end the run.
  predicate RunsInParallel(items: seq<Item>, asked: bool, resumed: bool) {
    !asked && !resumed && (forall i :: 0 <= i < |items| ==> Harmless(items[i])) && Runnable(items) > 1
  }

  lemma {:induction false} RunnableMeans(items: seq<Item>)
    ensures Runnable(items) >= 1 <==> exists i :: 0 <= i < |items| && !items[i].skip
    ensures Runnable(items) > 1 <==> exists i, j :: 0 <= i < j < |items| && !items[i].skip && !items[j].skip
  {
    if items != [] {
      var n := |items| - 1;
      RunnableMeans(items[..n]);
      if Runnable(items) > 1 && items[n].skip {
        var i, j :| 0 <= i < j < n && !items[..n][i].skip && !items[..n][j].skip;
        assert !items[i].skip && !items[j].skip;
      } else if Runnable(items) > 1 {
        var i :| 0 <= i < n && !items[..n][i].skip;
        assert !items[i].skip && !items[n].skip;
      }
      if i, j :| 0 <= i < j < |items| && !items[i].skip && !items[j].skip {
        assert !items[..n][i].skip && (j < n ==> !items[..n][j].skip);
      }
      if i :| 0 <= i < |items| && !items[i].skip {
        assert i < n ==> !items[..n][i].skip;
      }
    }
  }

  // Calls run at once exactly when none waits for an approval, at least two of them run, and each that
  // runs is safe beside others and does not end the run.
  lemma ParallelMeans(items: seq<Item>, asked: bool, resumed: bool)
    ensures RunsInParallel(items, asked, resumed) <==>
            && !asked && !resumed
            && (exists i, j :: 0 <= i < j < |items| && !items[i].skip && !items[j].skip)
            && (forall i :: 0 <= i < |items| && !items[i].skip ==>
                  items[i].traits.parallelSafe && !items[i].traits.stopAfterSuccess && !items[i].terminates)
  {
    RunnableMeans(items);
    assert forall i :: 0 <= i < |items| ==>
      (Harmless(items[i]) <==> items[i].skip || (items[i].traits.parallelSafe && !items[i].traits.stopAfterSuccess && !items[i].terminates));
  }

  lemma {:induction false} ParallelNeverStops(b: Batch, log: seq<Completion>)
    requires Orderly(log, |b.items|) && NoneProcessed(b.items) && SkipsFail(b.items) && !b.earlyStop
    requires forall i :: 0 <= i < |b.items| ==> Harmless(b.items[i])
    ensures !CompleteAll(b, log).earlyStop
  {
    if log != [] {
      var n := |log| - 1;
      ParallelNeverStops(b, log[..n]);
      ItemsAfter(b, log[..n]);
      assert !Recorded(log[..n], log[n].index);
      assert Harmless(b.items[log[n].index]);
    }
  }

  // ----- Phase 3: the results, in the order of the calls -----

  function ResultMessage(rules: Rules, call: ToolCall, observation: string): Message {
    var bytes := rules.resultBytes(call.id, observation);
    if TrimSpace(call.id) != "" then Message(Tool, observation, [], [], call.id, bytes)
    else Message(User, "Tool Result (" + call.name + "):\n" + observation, [], [], "", bytes)
  }

  function Results(rules: Rules, items: seq<Item>): (messages: seq<Message>)
    ensures |messages| == |items|
  {
    seq(|items|, i requires 0 <= i < |items| => ResultMessage(rules, items[i].call, items[i].observation))
  }
}
