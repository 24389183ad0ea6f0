/**
 The approval store (guard/approvals_file.go). Each operation runs under the store's lock and is one
 step; times are numbers, 0 is the zero time.
 */
module Approvals {
  import opened Text
  import opened Transcript

  datatype Status = Pending | Approved | Denied | Expired | Unknown(text: string)

  // The call a paused run waits to make.
  datatype Action = Action(identity: string, toolName: string, toolParams: string)

  datatype ApprovalRecord = ApprovalRecord(
    id: string,
    createdAt: int,
    expiresAt: int,
    resolvedAt: Option<int>,
    consumedAt: Option<int>,
    status: Status,
    actor: string,
    comment: string,
    actionHash: string,
    resumeState: Option<Action>)

  datatype StoreError = MissingId | InvalidStatus | NotFound | NotPending | AlreadyConsumed | NotApproved | TooLate

  type Records = map<string, ApprovalRecord>

  const TTL := 300

  function NewRecord(rec: ApprovalRecord, now: int, random: string): ApprovalRecord {
    rec.(createdAt := if rec.createdAt == 0 then now else rec.createdAt,
         expiresAt := if rec.expiresAt == 0 then now + TTL else rec.expiresAt,
         status := Pending,
         id := if TrimSpace(rec.id) == "" then "apr_" + random else TrimSpace(rec.id))
  }

  // A new record is pending, under its trimmed ID or a drawn one, and made and running out when it says or
  // else now and after the time to live.
  lemma NewRecordIs(rec: ApprovalRecord, now: int, random: string)
    ensures var r := NewRecord(rec, now, random);
            && r.status.Pending? && r.id == (if TrimSpace(rec.id) != "" then TrimSpace(rec.id) else "apr_" + random)
            && r.createdAt == (if rec.createdAt != 0 then rec.createdAt else now)
            && r.expiresAt == (if rec.expiresAt != 0 then rec.expiresAt else now + TTL)
            && r.(status := rec.status, id := rec.id, createdAt := rec.createdAt, expiresAt := rec.expiresAt) == rec
  {
  }

  predicate Resolvable(records: Records, id: string, status: Status) {
    && TrimSpace(id) != "" && (status.Approved? || status.Denied? || status.Expired?)
    && TrimSpace(id) in records && records[TrimSpace(id)].status.Pending?
  }

  function Resolved(rec: ApprovalRecord, status: Status, actor: string, comment: string, now: int): ApprovalRecord {
    rec.(status := status, actor := TrimSpace(actor), comment := TrimSpace(comment), resolvedAt := Some(now))
  }

  predicate After(now: int, time: int) {
    now > time
  }

  predicate Consumable(records: Records, id: string, now: int) {
    && TrimSpace(id) != "" && TrimSpace(id) in records
    && var rec := records[TrimSpace(id)];
       rec.consumedAt.None? && rec.status.Approved? && !(rec.expiresAt != 0 && After(now, rec.expiresAt))
  }

  class FileApprovalStore {
    var records: Records

    constructor ()
      ensures records == map[]
    {
      records := map[];
    }

    method Create(rec: ApprovalRecord, now: int, random: string) returns (id: string)
      modifies this
      ensures id == NewRecord(rec, now, random).id
      ensures records == old(records)[id := NewRecord(rec, now, random)]
    {
      var r := rec;
      if r.createdAt == 0 {
        r := r.(createdAt := now);
      }
      if r.expiresAt == 0 {
        r := r.(expiresAt := now + TTL);
      }
      r := r.(status := Pending);
      id := TrimSpace(r.id);
      if id == "" {
        id := "apr_" + random;
      }
      r := r.(id := id);
      records := records[id := r];
    }

    method Get(id: string) returns (rec: Option<ApprovalRecord>)
      ensures rec == if TrimSpace(id) != "" && TrimSpace(id) in records then Some(records[TrimSpace(id)]) else None
    {
      var key := TrimSpace(id);
      if key == "" || key !in records {
        return None;
      }
      return Some(records[key]);
    }

    // Only a pending record can be resolved, and nothing but that record changes.
    method Resolve(id: string, status: Status, actor: string, comment: string, now: int)
      returns (error: Option<StoreError>)
      modifies this
      ensures error.None? <==> Resolvable(old(records), id, status)
      ensures error.None? ==>
        records == old(records)[TrimSpace(id) := Resolved(old(records)[TrimSpace(id)], status, actor, comment, now)]
      ensures error.Some? ==> records == old(records)
      ensures error == Some(NotPending) ==> TrimSpace(id) in records && !records[TrimSpace(id)].status.Pending?
      ensures error == Some(NotFound) ==> TrimSpace(id) !in records
    {
      var key := TrimSpace(id);
      if key == "" {
        return Some(MissingId);
      }
      if !status.Approved? && !status.Denied? && !status.Expired? {
        return Some(InvalidStatus);
      }
      if key !in records {
        return Some(NotFound);
      }
      var rec := records[key];
      if !rec.status.Pending? {
        return Some(NotPending);
      }
      rec := rec.(status := status, actor := TrimSpace(actor), comment := TrimSpace(comment), resolvedAt := Some(now));
      records := records[key := rec];
      return None;
    }

    // Only an approved record that is neither consumed nor expired can be consumed.
    method ConsumeApproved(id: string, now: int) returns (error: Option<StoreError>, consumed: Option<ApprovalRecord>)
      modifies this
      ensures error.None? <==> Consumable(old(records), id, now)
      ensures error.None? ==>
        && consumed == Some(old(records)[TrimSpace(id)].(consumedAt := Some(now)))
        && records == old(records)[TrimSpace(id) := consumed.value]
      ensures error.Some? ==> consumed.None? && records == old(records)
      ensures error == Some(AlreadyConsumed) ==> TrimSpace(id) in records && records[TrimSpace(id)].consumedAt.Some?
      ensures error == Some(NotApproved) ==> TrimSpace(id) in records && !records[TrimSpace(id)].status.Approved?
    {
      var key := TrimSpace(id);
      if key == "" {
        return Some(MissingId), None;
      }
      if key !in records {
        return Some(NotFound), None;
      }
      var rec := records[key];
      if rec.consumedAt.Some? {
        return Some(AlreadyConsumed), None;
      }
      if !rec.status.Approved? {
        return Some(NotApproved), None;
      }
      if rec.expiresAt != 0 && After(now, rec.expiresAt) {
        return Some(TooLate), None;
      }
      rec := rec.(consumedAt := Some(now));
      records := records[key := rec];
      return None, Some(rec);
    }
  }

  // Every record can be resolved once, to approved, denied or expired; every spelling of its ID with white
  // space around it is its ID.
  lemma ResolvesOnce(records: Records, id: string, status: Status, actor: string, comment: string, now: int, again: Status)
    ensures Resolvable(records, id, status) <==>
            && status in {Approved, Denied, Expired} && TrimSpace(id) != ""
            && TrimSpace(id) in records && records[TrimSpace(id)].status == Pending
    ensures Resolvable(records, id, status) ==>
            var key := TrimSpace(id);
            !Resolvable(records[key := Resolved(records[key], status, actor, comment, now)], id, again)
    ensures Resolvable(records, TrimSpace(id), status) == Resolvable(records, id, status)
    ensures Consumable(records, TrimSpace(id), now) == Consumable(records, id, now)
    ensures Consumable(records, id, now) ==> TrimSpace(id) != "" && TrimSpace(id) in records
  {
    TrimSpaceIdempotent(id);
  }

  // ----- The checks a resume makes before it consumes the approval -----

  datatype ResumeCheck = Refused | StillPending | Ready(record: ApprovalRecord)

  function CheckResume(records: Records, rawId: string, now: int, hash: Action -> string): ResumeCheck {
    var id := TrimSpace(rawId);
    if id == "" || id !in records then Refused
    else
      var rec := records[id];
      if After(now, rec.expiresAt) then Refused
      else if !rec.status.Approved? then StillPending
      else if rec.resumeState.None? then Refused
      else if TrimSpace(rec.actionHash) == "" then Refused
      else if TrimSpace(rec.actionHash) != hash(rec.resumeState.value) then Refused
      else Ready(rec)
  }

  // What a paused run asks for.
  function RequestRecord(action: Action, hash: Action -> string, now: int): ApprovalRecord {
    ApprovalRecord("", now, now + TTL, None, None, Pending, "", "", hash(action), Some(action))
  }

  // An approval that a paused run asked for lets it resume exactly when it was approved and not more
  // than the time to live has passed.
  lemma RequestCanBeResumed(
      action: Action, hash: Action -> string, asked: int, random: string, records: Records, status: Status, actor: string,
      comment: string, resolved: int, now: int)
    requires asked > 0 && hash(action) != "" && TrimSpace(hash(action)) == hash(action)
    requires TrimSpace("apr_" + random) == "apr_" + random
    ensures var rec := NewRecord(RequestRecord(action, hash, asked), asked, random);
            var held := records[rec.id := Resolved(rec, status, actor, comment, resolved)];
            && (CheckResume(held, rec.id, now, hash).Ready? <==> status.Approved? && now <= asked + TTL)
            && (CheckResume(held, rec.id, now, hash).StillPending? <==> !status.Approved? && now <= asked + TTL)
            && (Consumable(held, rec.id, now) <==> status.Approved? && now <= asked + TTL)
            && rec.createdAt == asked && rec.expiresAt == asked + TTL && rec.status.Pending?
            && held[rec.id] == rec.(status := status, actor := held[rec.id].actor, comment := held[rec.id].comment, resolvedAt := Some(resolved))
            && held[rec.id].actor == TrimSpace(actor) && held[rec.id].comment == TrimSpace(comment)
  {
    assert TrimSpace("") == "";
    var rec := NewRecord(RequestRecord(action, hash, asked), asked, random);
    assert rec.id == "apr_" + random && rec.id != "";
  }
}
