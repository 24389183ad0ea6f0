/**
 Which action a resumed run goes on with: over every interleaving it is the action whose hash the approved
 record holds (resume in agent/engine_resume.go, guard/approvals_file.go).
 */
module ApprovedActions {
  import opened Text
  import opened Transcript
  import opened Approvals
  import opened ApprovalRaces

  // The action waiting to be resumed is the one that was hashed for the request.
  predicate HashFits(rec: ApprovalRecord, hash: Action -> string) {
    && rec.resumeState.Some? && TrimSpace(rec.actionHash) != ""
    && hash(rec.resumeState.value) == TrimSpace(rec.actionHash)
  }

  // What is asked for does not change once it is asked.
  predicate SameRequest(a: ApprovalRecord, b: ApprovalRecord) {
    a.id == b.id && a.actionHash == b.actionHash && a.resumeState == b.resumeState && a.expiresAt == b.expiresAt
  }

  predicate CheckedOn(records: Records, r: Resumer, hash: Action -> string) {
    r.Checking? ==>
      && r.record.id in records && TrimSpace(r.record.id) == r.record.id != ""
      && SameRequest(r.record, records[r.record.id]) && HashFits(r.record, hash)
  }

  predicate RunsOn(records: Records, r: Resumer, hash: Action -> string) {
    r.Running? ==>
      && r.id in records && records[r.id].status.Approved? && HashFits(records[r.id], hash)
      && r.identity == records[r.id].resumeState.value.identity
      && (r.approved == "" || r.approved == r.identity)
  }

  ghost predicate ActionInv(w: World, hash: Action -> string) {
    && (forall id :: id in w.records ==> w.records[id].id == id)
    && forall k :: 0 <= k < |w.resumers| ==> CheckedOn(w.records, w.resumers[k], hash) && RunsOn(w.records, w.resumers[k], hash)
  }

  // A resume goes ahead exactly on an approved record in time whose action has the hash that was asked for.
  lemma ReadyExactlyWhen(records: Records, id: string, now: int, hash: Action -> string)
    ensures var key := TrimSpace(id);
            CheckResume(records, id, now, hash).Ready? <==>
              && key != "" && key in records && now <= records[key].expiresAt && records[key].status.Approved?
              && HashFits(records[key], hash)
    ensures CheckResume(records, id, now, hash).Ready? ==>
            CheckResume(records, id, now, hash).record == records[TrimSpace(id)]
  {
  }

  // The records only gain, and keep the requests and the approvals of those they had.
  ghost predicate Grows(before: Records, after: Records) {
    forall id :: id in before ==>
      id in after && SameRequest(before[id], after[id]) && (before[id].status.Approved? ==> after[id].status.Approved?)
  }

  lemma ResumerStays(before: Records, after: Records, r: Resumer, hash: Action -> string)
    requires Grows(before, after) && CheckedOn(before, r, hash) && RunsOn(before, r, hash)
    ensures CheckedOn(after, r, hash) && RunsOn(after, r, hash)
  {
  }

  lemma RecordsGrow(w: World, w2: World, hash: Action -> string)
    requires ActionInv(w, hash) && Grows(w.records, w2.records) && w2.resumers == w.resumers
    requires forall id :: id in w2.records ==> w2.records[id].id == id
    ensures ActionInv(w2, hash)
  {
    forall k | 0 <= k < |w2.resumers| ensures CheckedOn(w2.records, w2.resumers[k], hash) && RunsOn(w2.records, w2.resumers[k], hash) {
      ResumerStays(w.records, w2.records, w.resumers[k], hash);
    }
  }

  lemma CreateGrows(w: World, rec: ApprovalRecord, random: string)
    requires NewRecord(rec, w.clock, random).id !in w.records && forall id :: id in w.records ==> w.records[id].id == id
    ensures var w2 := CreateIn(w, rec, random);
            Grows(w.records, w2.records) && w2.resumers == w.resumers && forall id :: id in w2.records ==> w2.records[id].id == id
  {
  }

  lemma ResolveGrows(w: World, id: string, status: Status, actor: string, comment: string)
    requires forall id :: id in w.records ==> w.records[id].id == id
    ensures var w2 := ResolveIn(w, id, status, actor, comment);
            Grows(w.records, w2.records) && w2.resumers == w.resumers && forall id :: id in w2.records ==> w2.records[id].id == id
  {
  }

  lemma LookKeepsActions(w: World, id: string, hash: Action -> string)
    requires ActionInv(w, hash)
    ensures ActionInv(LookIn(w, id, hash), hash)
  {
    ReadyExactlyWhen(w.records, id, w.clock, hash);
    TrimSpaceIdempotent(id);
    var w2 := LookIn(w, id, hash);
    forall j | 0 <= j < |w2.resumers| ensures CheckedOn(w2.records, w2.resumers[j], hash) && RunsOn(w2.records, w2.resumers[j], hash) {
      if j < |w.resumers| {
        assert w2.resumers[j] == w.resumers[j];
      }
    }
  }

  lemma ConsumeKeepsActions(w: World, k: nat, hash: Action -> string)
    requires ActionInv(w, hash) && k < |w.resumers| && w.resumers[k].Checking? && w.resumers[k].record.resumeState.Some?
    ensures ActionInv(ConsumeIn(w, k), hash)
  {
    var w2, rec := ConsumeIn(w, k), w.resumers[k].record;
    assert CheckedOn(w.records, w.resumers[k], hash);
    assert Grows(w.records, w2.records);
    forall j | 0 <= j < |w2.resumers| ensures CheckedOn(w2.records, w2.resumers[j], hash) && RunsOn(w2.records, w2.resumers[j], hash) {
      if j != k {
        ResumerStays(w.records, w2.records, w.resumers[j], hash);
      }
    }
  }

  lemma StepKeepsActions(w: World, step: Step, w2: World, hash: Action -> string)
    requires ActionInv(w, hash) && Next(w, step, w2, hash)
    ensures ActionInv(w2, hash)
  {
    match step
    case Tick(to) => RecordsGrow(w, w2, hash);
    case Create(rec, random) =>
      CreateGrows(w, rec, random);
      RecordsGrow(w, w2, hash);
    case Resolve(id, status, actor, comment) =>
      ResolveGrows(w, id, status, actor, comment);
      RecordsGrow(w, w2, hash);
    case Look(id) => LookKeepsActions(w, id, hash);
    case Consume(k) => ConsumeKeepsActions(w, k, hash);
    case AskGuard(k, identity) =>
      if identity != "" && identity == w.resumers[k].approved {
        UsedKeeps(w, w2, k, hash);
      }
    case EndBatch(k) => UsedKeeps(w, w2, k, hash);
  }

  lemma UsedKeeps(w: World, w2: World, k: nat, hash: Action -> string)
    requires ActionInv(w, hash) && k < |w.resumers| && w.resumers[k].Running?
    requires w2.records == w.records && w2.resumers == w.resumers[k := w.resumers[k].(approved := "")]
    ensures ActionInv(w2, hash)
  {
    forall j | 0 <= j < |w2.resumers| ensures CheckedOn(w2.records, w2.resumers[j], hash) && RunsOn(w2.records, w2.resumers[j], hash) {
      assert CheckedOn(w.records, w.resumers[j], hash) && RunsOn(w.records, w.resumers[j], hash);
    }
  }

  // However the participants interleave, every resumed run goes on with the action that was hashed for an
  // approved record, and passes the guard with that action's identity or not at all.
  lemma {:induction false} OnlyApprovedActionsRun(worlds: seq<World>, steps: seq<Step>, hash: Action -> string)
    requires RunOf(worlds, steps, hash)
    ensures ActionInv(worlds[|steps|], hash)
    ensures forall k :: 0 <= k < |worlds[|steps|].resumers| ==> RunsOn(worlds[|steps|].records, worlds[|steps|].resumers[k], hash)
    decreases |steps|
  {
    if steps != [] {
      var n := |steps| - 1;
      OnlyApprovedActionsRun(worlds[..n + 1], steps[..n], hash);
      StepKeepsActions(worlds[n], steps[n], worlds[n + 1], hash);
    }
  }
}
