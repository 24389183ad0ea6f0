/**
 Resumers, resolvers and the clock racing on the approval store (guard/approvals_file.go, resume in
 agent/engine_resume.go, guardDecide in agent/engine_loop.go). Every locked store operation and every
 decision of the guard is one step; the steps of any number of participants interleave freely.
 */
module ApprovalRaces {
  import opened Text
  import opened Transcript
  import opened Approvals

  // A caller of resume: it has made its checks on the record it read; it runs with the approval it
  // consumed, approved being the identity it may still pass the guard with; or it has failed.
  datatype Resumer = Checking(record: ApprovalRecord) | Running(id: string, identity: string, approved: string) | GaveUp

  datatype Event =
    | LeftPending(id: string, status: Status)
    | Consumed(id: string, at: int, expiresAt: int)
    | PassedGuard(id: string)

  datatype World = World(records: Records, clock: int, resumers: seq<Resumer>, log: seq<Event>)

  datatype Step =
    | Tick(to: int)
    | Create(rec: ApprovalRecord, random: string)
    | Resolve(id: string, status: Status, actor: string, comment: string)
    | Look(id: string)
    | Consume(resumer: nat)
    | AskGuard(resumer: nat, identity: string)
    | EndBatch(resumer: nat)

  function CreateIn(w: World, rec: ApprovalRecord, random: string): World {
    var r := NewRecord(rec, w.clock, random);
    w.(records := w.records[r.id := r])
  }

  function ResolveIn(w: World, id: string, status: Status, actor: string, comment: string): World {
    if !Resolvable(w.records, id, status) then w
    else
      var key := TrimSpace(id);
      w.(records := w.records[key := Resolved(w.records[key], status, actor, comment, w.clock)],
         log := w.log + [LeftPending(key, status)])
  }

  function LookIn(w: World, id: string, hash: Action -> string): World {
    match CheckResume(w.records, id, w.clock, hash)
    case Ready(rec) => w.(resumers := w.resumers + [Checking(rec)])
    case _ => w
  }

  // The record read may be out of date by now; the store decides on its own.
  function ConsumeIn(w: World, k: nat): World
    requires k < |w.resumers| && w.resumers[k].Checking? && w.resumers[k].record.resumeState.Some?
  {
    var rec := w.resumers[k].record;
    var identity := rec.resumeState.value.identity;
    if !Consumable(w.records, rec.id, w.clock) then w.(resumers := w.resumers[k := GaveUp])
    else
      var key := TrimSpace(rec.id);
      World(w.records[key := w.records[key].(consumedAt := Some(w.clock))], w.clock,
            w.resumers[k := Running(key, identity, identity)],
            w.log + [Consumed(key, w.clock, w.records[key].expiresAt)])
  }

  // The guard requires an approval for a call of the run: identity is the approval's for the call
  // that was pending, and empty for every other call.
  function AskGuardIn(w: World, k: nat, identity: string): World
    requires k < |w.resumers| && w.resumers[k].Running?
  {
    var r := w.resumers[k];
    if identity != "" && identity == r.approved then
      w.(resumers := w.resumers[k := r.(approved := "")], log := w.log + [PassedGuard(r.id)])
    else w
  }

  function EndBatchIn(w: World, k: nat): World
    requires k < |w.resumers| && w.resumers[k].Running?
  {
    w.(resumers := w.resumers[k := w.resumers[k].(approved := "")])
  }

  // New records are unconsumed and get an ID no record has.
  ghost predicate Next(w: World, step: Step, w2: World, hash: Action -> string) {
    match step
    case Tick(to) => to >= w.clock && w2 == w.(clock := to)
    case Create(rec, random) =>
      && w.clock > 0 && rec.consumedAt.None?
      && NewRecord(rec, w.clock, random).id !in w.records
      && w2 == CreateIn(w, rec, random)
    case Resolve(id, status, actor, comment) => w2 == ResolveIn(w, id, status, actor, comment)
    case Look(id) => w2 == LookIn(w, id, hash)
    case Consume(k) =>
      k < |w.resumers| && w.resumers[k].Checking? && w.resumers[k].record.resumeState.Some? && w2 == ConsumeIn(w, k)
    case AskGuard(k, identity) => k < |w.resumers| && w.resumers[k].Running? && w2 == AskGuardIn(w, k, identity)
    case EndBatch(k) => k < |w.resumers| && w.resumers[k].Running? && w2 == EndBatchIn(w, k)
  }

  // ----- What the log may look like -----

  predicate SameMatter(a: Event, b: Event) {
    a.id == b.id && match a { case LeftPending(_, _) => b.LeftPending? case Consumed(_, _, _) => b.Consumed? case PassedGuard(_) => b.PassedGuard? }
  }

  // No record leaves pending twice, is consumed twice, or lets a call pass the guard twice.
  ghost predicate AtMostOnce(log: seq<Event>) {
    forall i, j :: 0 <= i < j < |log| ==> !SameMatter(log[i], log[j])
  }

  ghost predicate WasConsumed(log: seq<Event>, id: string) {
    exists i :: 0 <= i < |log| && log[i].Consumed? && log[i].id == id
  }

  // What an event needs to have happened before it: a pass needs the consumption, and a consumption
  // the approval, and to be in time.
  ghost predicate Justified(before: seq<Event>, e: Event) {
    match e
    case LeftPending(_, status) => !status.Pending?
    case Consumed(id, at, expiresAt) => LeftPending(id, Approved) in before && at <= expiresAt
    case PassedGuard(id) => WasConsumed(before, id)
  }

  ghost predicate AllJustified(log: seq<Event>) {
    forall i :: 0 <= i < |log| ==> Justified(log[..i], log[i])
  }

  // ----- The invariant -----

  ghost predicate EventMatches(records: Records, resumers: seq<Resumer>, e: Event) {
    && e.id in records
    && match e
       case LeftPending(id, status) => records[id].status == status && !status.Pending?
       case Consumed(id, _, _) => records[id].consumedAt.Some?
       case PassedGuard(id) => records[id].consumedAt.Some? && forall k :: 0 <= k < |resumers| ==> SpentIfOn(resumers[k], id)
  }

  predicate SpentIfOn(r: Resumer, id: string) {
    r.Running? && r.id == id ==> r.approved == ""
  }

  ghost predicate RecordMatches(id: string, rec: ApprovalRecord, log: seq<Event>) {
    && rec.expiresAt != 0
    && (!rec.status.Pending? ==> LeftPending(id, rec.status) in log)
    && (rec.consumedAt.Some? ==> rec.status.Approved? && WasConsumed(log, id))
  }

  predicate RunsOnConsumed(r: Resumer, records: Records) {
    r.Running? ==> r.id in records && records[r.id].consumedAt.Some?
  }

  predicate SameApproval(a: Resumer, b: Resumer) {
    a.Running? && b.Running? && a.id == b.id
  }

  ghost predicate Inv(w: World) {
    && (forall i :: 0 <= i < |w.log| ==> EventMatches(w.records, w.resumers, w.log[i]))
    && (forall id :: id in w.records ==> RecordMatches(id, w.records[id], w.log))
    && (forall k :: 0 <= k < |w.resumers| ==> RunsOnConsumed(w.resumers[k], w.records))
    && (forall j, k :: 0 <= j < k < |w.resumers| ==> !SameApproval(w.resumers[j], w.resumers[k]))
    && AtMostOnce(w.log) && AllJustified(w.log)
  }

  // ----- Every step keeps it -----

  lemma LogOnlyGrows(before: seq<Event>, e: Event, f: Event)
    ensures Justified(before, f) ==> Justified(before + [e], f)
    ensures forall id :: WasConsumed(before, id) ==> WasConsumed(before + [e], id)
  {
    var longer := before + [e];
    forall id | WasConsumed(before, id) ensures WasConsumed(longer, id) {
      var i :| 0 <= i < |before| && before[i].Consumed? && before[i].id == id;
      assert longer[i] == before[i];
    }
  }

  lemma LogWith(log: seq<Event>, e: Event)
    requires AtMostOnce(log) && AllJustified(log)
    requires Justified(log, e) && forall i :: 0 <= i < |log| ==> !SameMatter(log[i], e)
    ensures AtMostOnce(log + [e]) && AllJustified(log + [e])
  {
    var longer := log + [e];
    forall i | 0 <= i < |longer| ensures Justified(longer[..i], longer[i]) {
      assert longer[..i] == log[..i];
      assert i == |log| ==> log[..i] == log;
    }
  }

  lemma RecordKept(id: string, rec: ApprovalRecord, log: seq<Event>, e: Event)
    requires RecordMatches(id, rec, log)
    ensures RecordMatches(id, rec, log + [e])
  {
    LogOnlyGrows(log, e, e);
  }

  lemma CreateKeeps(w: World, rec: ApprovalRecord, random: string)
    requires Inv(w) && w.clock > 0 && rec.consumedAt.None? && NewRecord(rec, w.clock, random).id !in w.records
    ensures Inv(CreateIn(w, rec, random))
  {
    var w2 := CreateIn(w, rec, random);
    forall i | 0 <= i < |w.log| ensures EventMatches(w2.records, w2.resumers, w2.log[i]) {
      assert EventMatches(w.records, w.resumers, w.log[i]);
    }
    forall k | 0 <= k < |w.resumers| ensures RunsOnConsumed(w2.resumers[k], w2.records) {
      assert RunsOnConsumed(w.resumers[k], w.records);
    }
  }

  lemma ResolveKeeps(w: World, id: string, status: Status, actor: string, comment: string)
    requires Inv(w) && Resolvable(w.records, id, status)
    ensures Inv(ResolveIn(w, id, status, actor, comment))
  {
    var w2, key, e := ResolveIn(w, id, status, actor, comment), TrimSpace(id), LeftPending(TrimSpace(id), status);
    assert RecordMatches(key, w.records[key], w.log);
    forall i | 0 <= i < |w.log| ensures EventMatches(w2.records, w2.resumers, w.log[i]) && !SameMatter(w.log[i], e) {
      assert EventMatches(w.records, w.resumers, w.log[i]);
    }
    LogWith(w.log, e);
    assert w2.log[|w.log|] == e;
    forall other | other in w2.records ensures RecordMatches(other, w2.records[other], w2.log) {
      if other != key {
        RecordKept(other, w.records[other], w.log, e);
      }
    }
    forall k | 0 <= k < |w.resumers| ensures RunsOnConsumed(w2.resumers[k], w2.records) {
      assert RunsOnConsumed(w.resumers[k], w.records);
    }
  }

  lemma ConsumeKeeps(w: World, k: nat)
    requires Inv(w) && k < |w.resumers| && w.resumers[k].Checking? && w.resumers[k].record.resumeState.Some?
    requires Consumable(w.records, w.resumers[k].record.id, w.clock)
    ensures Inv(ConsumeIn(w, k))
  {
    var w2, key := ConsumeIn(w, k), TrimSpace(w.resumers[k].record.id);
    var rec := w.records[key];
    var e := Consumed(key, w.clock, rec.expiresAt);
    assert RecordMatches(key, rec, w.log);
    forall i | 0 <= i < |w.log| ensures EventMatches(w2.records, w2.resumers, w.log[i]) && !SameMatter(w.log[i], e) {
      ConsumeKeepsEvent(w, k, w.log[i]);
    }
    LogWith(w.log, e);
    assert w2.log[|w.log|] == e;
    forall other | other in w2.records ensures RecordMatches(other, w2.records[other], w2.log) {
      RecordKept(other, w.records[other], w.log, e);
    }
    forall j | 0 <= j < |w.resumers| && j != k
      ensures RunsOnConsumed(w2.resumers[j], w2.records) && !SameApproval(w2.resumers[j], w2.resumers[k])
    {
      assert RunsOnConsumed(w.resumers[j], w.records);
    }
  }

  lemma ConsumeKeepsEvent(w: World, k: nat, f: Event)
    requires k < |w.resumers| && w.resumers[k].Checking? && w.resumers[k].record.resumeState.Some?
    requires Consumable(w.records, w.resumers[k].record.id, w.clock)
    requires EventMatches(w.records, w.resumers, f)
    ensures var w2, key := ConsumeIn(w, k), TrimSpace(w.resumers[k].record.id);
            EventMatches(w2.records, w2.resumers, f) && !(f.id == key && !f.LeftPending?)
  {
    var w2, key := ConsumeIn(w, k), TrimSpace(w.resumers[k].record.id);
    if f.PassedGuard? {
      forall j | 0 <= j < |w2.resumers| ensures SpentIfOn(w2.resumers[j], f.id) {
        assert SpentIfOn(w.resumers[j], f.id);
      }
    }
  }

  // A resumer that stops running, or runs on without its approval.
  lemma ResumerKeeps(w: World, k: nat, r: Resumer)
    requires Inv(w) && k < |w.resumers|
    requires r == GaveUp || (w.resumers[k].Running? && r == w.resumers[k].(approved := ""))
    ensures Inv(w.(resumers := w.resumers[k := r]))
  {
    var w2 := w.(resumers := w.resumers[k := r]);
    forall i | 0 <= i < |w.log| ensures EventMatches(w2.records, w2.resumers, w2.log[i]) {
      assert EventMatches(w.records, w.resumers, w.log[i]);
      if w.log[i].PassedGuard? {
        forall j | 0 <= j < |w2.resumers| ensures SpentIfOn(w2.resumers[j], w.log[i].id) {
          assert SpentIfOn(w.resumers[j], w.log[i].id);
        }
      }
    }
    forall j | 0 <= j < |w.resumers| ensures RunsOnConsumed(w2.resumers[j], w2.records) {
      assert RunsOnConsumed(w.resumers[j], w.records);
    }
    forall i, j | 0 <= i < j < |w.resumers| ensures !SameApproval(w2.resumers[i], w2.resumers[j]) {
      assert !SameApproval(w.resumers[i], w.resumers[j]);
    }
  }

  lemma PassKeeps(w: World, k: nat, identity: string)
    requires Inv(w) && k < |w.resumers| && w.resumers[k].Running?
    requires identity != "" && identity == w.resumers[k].approved
    ensures Inv(AskGuardIn(w, k, identity))
  {
    var r := w.resumers[k];
    var w1, w2, e := EndBatchIn(w, k), AskGuardIn(w, k, identity), PassedGuard(r.id);
    ResumerKeeps(w, k, r.(approved := ""));
    assert RunsOnConsumed(r, w.records);
    assert RecordMatches(r.id, w.records[r.id], w.log);
    forall i | 0 <= i < |w.log| ensures !SameMatter(w.log[i], e) {
      assert EventMatches(w.records, w.resumers, w.log[i]);
      assert w.log[i].PassedGuard? && w.log[i].id == r.id ==> SpentIfOn(w.resumers[k], r.id);
    }
    LogWith(w.log, e);
    forall id | id in w2.records ensures RecordMatches(id, w2.records[id], w2.log) {
      RecordKept(id, w.records[id], w.log, e);
    }
    PassMatches(w, k);
  }

  lemma PassMatches(w: World, k: nat)
    requires k < |w.resumers| && w.resumers[k].Running? && RunsOnConsumed(w.resumers[k], w.records)
    requires forall i, j :: 0 <= i < j < |w.resumers| ==> !SameApproval(w.resumers[i], w.resumers[j])
    ensures EventMatches(w.records, EndBatchIn(w, k).resumers, PassedGuard(w.resumers[k].id))
  {
    var resumers := EndBatchIn(w, k).resumers;
    forall j | 0 <= j < |resumers| ensures SpentIfOn(resumers[j], w.resumers[k].id) {
      assert j < k ==> !SameApproval(w.resumers[j], w.resumers[k]);
      assert k < j ==> !SameApproval(w.resumers[k], w.resumers[j]);
    }
  }

  lemma LookKeeps(w: World, r: Resumer)
    requires Inv(w) && r.Checking?
    ensures Inv(w.(resumers := w.resumers + [r]))
  {
    var w2 := w.(resumers := w.resumers + [r]);
    forall i | 0 <= i < |w.log| ensures EventMatches(w2.records, w2.resumers, w2.log[i]) {
      assert EventMatches(w.records, w.resumers, w.log[i]);
    }
    forall i, j | 0 <= i < j < |w2.resumers| ensures !SameApproval(w2.resumers[i], w2.resumers[j]) {
      assert j < |w.resumers| ==> !SameApproval(w.resumers[i], w.resumers[j]);
    }
  }

  lemma StepKeeps(w: World, step: Step, w2: World, hash: Action -> string)
    requires Inv(w) && Next(w, step, w2, hash)
    ensures Inv(w2) && w.log <= w2.log
  {
    match step
    case Tick(to) =>
    case Create(rec, random) => CreateKeeps(w, rec, random);
    case Resolve(id, status, actor, comment) =>
      if Resolvable(w.records, id, status) {
        ResolveKeeps(w, id, status, actor, comment);
      }
    case Look(id) =>
      if CheckResume(w.records, id, w.clock, hash).Ready? {
        LookKeeps(w, Checking(CheckResume(w.records, id, w.clock, hash).record));
      }
    case Consume(k) =>
      if Consumable(w.records, w.resumers[k].record.id, w.clock) {
        ConsumeKeeps(w, k);
      } else {
        ResumerKeeps(w, k, GaveUp);
      }
    case AskGuard(k, identity) =>
      if identity != "" && identity == w.resumers[k].approved {
        PassKeeps(w, k, identity);
      }
    case EndBatch(k) => ResumerKeeps(w, k, w.resumers[k].(approved := ""));
  }

  // ----- Every run -----

  ghost predicate RunOf(worlds: seq<World>, steps: seq<Step>, hash: Action -> string) {
    && |worlds| == |steps| + 1
    && worlds[0].records == map[] && worlds[0].resumers == [] && worlds[0].log == []
    && forall i :: 0 <= i < |steps| ==> Next(worlds[i], steps[i], worlds[i + 1], hash)
  }

  // However the participants interleave: a record leaves pending at most once, is consumed at most
  // once, only after it was approved and only in time, and its call passes the guard at most once,
  // only after the consumption.
  lemma {:induction false} ApprovalUsedAtMostOnce(worlds: seq<World>, steps: seq<Step>, hash: Action -> string)
    requires RunOf(worlds, steps, hash)
    ensures var last := worlds[|steps|];
            Inv(last) && AtMostOnce(last.log) && AllJustified(last.log)
    decreases |steps|
  {
    if steps != [] {
      var n := |steps| - 1;
      ApprovalUsedAtMostOnce(worlds[..n + 1], steps[..n], hash);
      StepKeeps(worlds[n], steps[n], worlds[n + 1], hash);
    }
  }

  // Of two resumers at most one runs on an approval, and the one whose record was consumed in the
  // meantime gives up.
  lemma LoserGivesUp(w: World, j: nat, k: nat)
    requires Inv(w) && j < |w.resumers| && k < |w.resumers| && w.resumers[j].Running? && w.resumers[k].Checking?
    requires w.resumers[k].record.resumeState.Some? && TrimSpace(w.resumers[k].record.id) == w.resumers[j].id
    ensures ConsumeIn(w, k) == w.(resumers := w.resumers[k := GaveUp])
  {
    assert RunsOnConsumed(w.resumers[j], w.records);
  }
}
