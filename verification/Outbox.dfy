/**
 The delivery outbox (contacts/outbox_state_machine.go, the outbox of contacts/file_store.go,
 sendWithBusOutbox in contacts/service.go). Times are numbers, 0 is the zero time.
 */
module Outbox {
  import opened Text
  import opened Transcript

  datatype DeliveryStatus = Pending | Sent | Failed | Unsupported(text: string)

  datatype Details = Details(contactId: string, peerId: string, itemId: string, contentType: string, payload: string, file: Option<string>)

  datatype OutboxRecord = OutboxRecord(
    channel: string,
    idempotencyKey: string,
    details: Details,
    status: DeliveryStatus,
    attempts: int,
    accepted: bool,
    deduped: bool,
    lastError: string,
    createdAt: int,
    updatedAt: int,
    lastAttemptAt: Option<int>,
    sentAt: Option<int>)

  // ----- Keys -----

  const CHANNELS: set<string> := {
    "telegram", "slack", "line", "lark", "discord", "mixin", "wechat", "whatsapp", "bluesky", "x", "agentlink"}

  function NormalizeChannel(channel: string): Option<string> {
    var value := ToLower(TrimSpace(channel));
    if value in CHANNELS then Some(value) else None
  }

  // The key in its two parts; channels contain no colon, so the text they are joined to by one
  // determines them.
  datatype Key = Key(channel: string, id: string)

  function RecordKey(channel: string, idempotencyKey: string): Option<Key> {
    var c, id := NormalizeChannel(channel), TrimSpace(idempotencyKey);
    if c.None? || id == "" then None else Some(Key(c.value, id))
  }

  function KeyOf(r: OutboxRecord): Option<Key> {
    RecordKey(r.channel, r.idempotencyKey)
  }

  // ----- The transitions -----

  datatype Transition = StartAttempt | MarkSent(accepted: bool, deduped: bool) | MarkFailed(errorText: string)

  function NextStartAttempt(current: Option<OutboxRecord>, base: OutboxRecord, now: int): Option<OutboxRecord> {
    if current.Some? && !current.value.status.Pending? && !current.value.status.Failed? then None
    else
      Some(base.(status := Pending,
                 attempts := if current.Some? then current.value.attempts + 1 else 1,
                 createdAt := if current.Some? then current.value.createdAt else now,
                 updatedAt := now, lastAttemptAt := Some(now), sentAt := None, lastError := "",
                 accepted := false, deduped := false))
  }

  function NextMarkSent(current: Option<OutboxRecord>, accepted: bool, deduped: bool, now: int): Option<OutboxRecord> {
    if current.None? || !current.value.status.Pending? then None
    else
      Some(current.value.(status := Sent, accepted := accepted, deduped := deduped, lastError := "",
                          updatedAt := now, sentAt := Some(now)))
  }

  function NextMarkFailed(current: Option<OutboxRecord>, errorText: string, now: int): Option<OutboxRecord> {
    var text := TrimSpace(errorText);
    if current.None? || !current.value.status.Pending? || text == "" then None
    else
      Some(current.value.(status := Failed, lastError := text, accepted := false, deduped := false,
                          updatedAt := now, sentAt := None))
  }

  function NextOutboxRecord(current: Option<OutboxRecord>, base: OutboxRecord, transition: Transition,
        now: int): Option<OutboxRecord>
  {
    if KeyOf(base).None? then None
    else if current.Some? && (current.value.channel != base.channel || current.value.idempotencyKey != base.idempotencyKey) then None
    else
      match transition
      case StartAttempt => NextStartAttempt(current, base, now)
      case MarkSent(accepted, deduped) => NextMarkSent(current, accepted, deduped, now)
      case MarkFailed(errorText) => NextMarkFailed(current, errorText, now)
  }

  // ----- The store's validation -----

  function TrimDetails(d: Details): Details {
    Details(TrimSpace(d.contactId), TrimSpace(d.peerId), TrimSpace(d.itemId), TrimSpace(d.contentType), TrimSpace(d.payload), d.file)
  }

  predicate TimesValid(r: OutboxRecord) {
    && r.createdAt != 0 && r.updatedAt != 0 && r.createdAt <= r.updatedAt
    && r.lastAttemptAt != Some(0) && r.sentAt != Some(0)
  }

  predicate StatusValid(r: OutboxRecord) {
    && !r.status.Unsupported?
    && (r.status.Sent? <==> r.sentAt.Some?)
    && (r.status.Failed? <==> TrimSpace(r.lastError) != "")
  }

  // The record as it is stored, or none when it is not valid.
  function Normalize(r: OutboxRecord): Option<OutboxRecord> {
    if KeyOf(r).None? || r.attempts <= 0 || !TimesValid(r) || !StatusValid(r) then None
    else
      Some(r.(channel := KeyOf(r).value.channel, idempotencyKey := KeyOf(r).value.id,
              details := TrimDetails(r.details), lastError := TrimSpace(r.lastError)))
  }

  method NormalizeOutboxRecord(r: OutboxRecord) returns (normalized: Option<OutboxRecord>)
    ensures normalized == Normalize(r)
  {
    var channel := NormalizeChannel(r.channel);
    if channel.None? {
      return None;
    }
    var key := TrimSpace(r.idempotencyKey);
    if key == "" || r.status.Unsupported? || r.attempts <= 0 {
      return None;
    }
    if r.createdAt == 0 || r.updatedAt == 0 || r.updatedAt < r.createdAt {
      return None;
    }
    var n := r.(channel := channel.value, idempotencyKey := key, details := TrimDetails(r.details), lastError := TrimSpace(r.lastError));
    if (r.lastAttemptAt.Some? && r.lastAttemptAt.value == 0) || (r.sentAt.Some? && r.sentAt.value == 0) {
      return None;
    }
    if (n.status.Sent? && n.sentAt.None?) || (!n.status.Sent? && n.sentAt.Some?) {
      return None;
    }
    if (n.status.Failed? && n.lastError == "") || (!n.status.Failed? && n.lastError != "") {
      return None;
    }
    return Some(n);
  }

  // ----- The store -----

  // Every stored record is normalised, so its fields are its key.
  function StoredKey(r: OutboxRecord): Key {
    Key(r.channel, r.idempotencyKey)
  }

  function Place(records: seq<OutboxRecord>, key: Key): (i: nat)
    ensures i <= |records|
    ensures forall j :: 0 <= j < i ==> StoredKey(records[j]) != key
    ensures i < |records| ==> StoredKey(records[i]) == key
  {
    if records == [] || StoredKey(records[0]) == key then 0 else 1 + Place(records[1..], key)
  }

  function Lookup(records: seq<OutboxRecord>, key: Key): (found: Option<OutboxRecord>)
    ensures found.Some? ==> StoredKey(found.value) == key
  {
    var i := Place(records, key);
    if i < |records| then Some(records[i]) else None
  }

  function KeepCreation(stored: OutboxRecord, n: OutboxRecord): OutboxRecord {
    n.(createdAt := if stored.createdAt == 0 then n.createdAt else stored.createdAt)
  }

  // The first record with the key replaced, its creation time kept.
  function Replaced(records: seq<OutboxRecord>, n: OutboxRecord): seq<OutboxRecord> {
    var i := Place(records, StoredKey(n));
    if i < |records| then records[i := KeepCreation(records[i], n)] else records + [n]
  }

  function PutIn(records: seq<OutboxRecord>, r: OutboxRecord): Option<seq<OutboxRecord>> {
    var n := Normalize(r);
    if n.None? then None else Some(Replaced(records, n.value))
  }

  // ----- A send -----

  datatype Request = Request(channel: string, idempotencyKey: string, details: Details, now: int)

  // What the sender reports.
  datatype Answer = Delivered(accepted: bool, deduped: bool) | PartlyDelivered(text: string, deduped: bool) | Queued(deduped: bool) | Refused(text: string)

  // Where the process dies, if it does: before each write to the store, and around the delivery.
  datatype Crash = NoCrash | BeforePending | AfterPending | AfterSend

  datatype Outcome = Outcome(accepted: bool, deduped: bool, partial: bool, queued: bool, error: string, sentAt: int, attempted: bool)

  datatype Ended = Died | Error | Reported(outcome: Outcome)

  datatype SendResult = SendResult(records: seq<OutboxRecord>, called: bool, end: Ended)

  function BaseRecord(q: Request): OutboxRecord {
    OutboxRecord(q.channel, q.idempotencyKey, q.details, Unsupported(""), 0, false, false, "", 0, 0, None, None)
  }

  function TransitionFor(answer: Answer): Transition {
    match answer
    case Delivered(accepted, deduped) => MarkSent(accepted, deduped)
    case PartlyDelivered(_, deduped) => MarkSent(true, deduped)
    case Queued(deduped) => MarkSent(true, deduped)
    case Refused(text) => MarkFailed(text)
  }

  function OutcomeFor(answer: Answer, now: int): Outcome {
    match answer
    case Delivered(accepted, deduped) => Outcome(accepted, deduped, false, false, "", now, true)
    case PartlyDelivered(text, deduped) => Outcome(true, deduped, true, false, text, now, true)
    case Queued(deduped) => Outcome(true, deduped, false, true, "", now, true)
    case Refused(text) => Outcome(false, false, false, false, text, now, true)
  }

  function AfterDelivery(records: seq<OutboxRecord>, pending: OutboxRecord, q: Request, answer: Answer): SendResult {
    var next := NextOutboxRecord(Some(pending), BaseRecord(q), TransitionFor(answer), q.now);
    if next.None? then SendResult(records, true, Error)
    else
      match PutIn(records, next.value)
      case None => SendResult(records, true, Error)
      case Some(written) => SendResult(written, true, Reported(OutcomeFor(answer, q.now)))
  }

  function Attempt(records: seq<OutboxRecord>, existing: Option<OutboxRecord>, q: Request, answer: Answer,
        crash: Crash): SendResult
  {
    var pending := NextOutboxRecord(existing, BaseRecord(q), StartAttempt, q.now);
    if pending.None? then SendResult(records, false, Error)
    else if crash.BeforePending? then SendResult(records, false, Died)
    else
      match PutIn(records, pending.value)
      case None => SendResult(records, false, Error)
      case Some(written) =>
        if crash.AfterPending? then SendResult(written, false, Died)
        else if crash.AfterSend? then SendResult(written, true, Died)
        else AfterDelivery(written, pending.value, q, answer)
  }

  // A delivery that was recorded as sent is reported again, without another one.
  function Repeated(existing: OutboxRecord, q: Request): Outcome {
    Outcome(existing.accepted, true, false, false, "", if existing.sentAt.Some? then existing.sentAt.value else q.now, false)
  }

  function Send(records: seq<OutboxRecord>, q: Request, answer: Answer, crash: Crash): SendResult {
    var key := RecordKey(q.channel, q.idempotencyKey);
    if key.None? then SendResult(records, false, Error)
    else
      var existing := Lookup(records, key.value);
      if existing.Some? && existing.value.status.Sent? then SendResult(records, false, Reported(Repeated(existing.value, q)))
      else Attempt(records, existing, q, answer, crash)
  }

  lemma PlaceUnique(records: seq<OutboxRecord>, key: Key, i: nat)
    requires i <= |records| && forall j :: 0 <= j < i ==> StoredKey(records[j]) != key
    requires i < |records| ==> StoredKey(records[i]) == key
    ensures Place(records, key) == i
  {
  }

  class OutboxStore {
    var records: seq<OutboxRecord>

    constructor ()
      ensures records == []
    {
      records := [];
    }

    method Get(key: Key) returns (found: Option<OutboxRecord>)
      ensures found == Lookup(records, key)
    {
      var i := 0;
      while i < |records|
        invariant 0 <= i <= |records|
        invariant forall j :: 0 <= j < i ==> StoredKey(records[j]) != key
      {
        if StoredKey(records[i]) == key {
          PlaceUnique(records, key, i);
          return Some(records[i]);
        }
        i := i + 1;
      }
      return None;
    }

    method ReplaceOrAppend(normalized: OutboxRecord)
      modifies this
      ensures records == Replaced(old(records), normalized)
    {
      var n, key := normalized, StoredKey(normalized);
      var i := 0;
      while i < |records|
        invariant 0 <= i <= |records| && records == old(records) && n == normalized
        invariant forall j :: 0 <= j < i ==> StoredKey(records[j]) != key
      {
        if StoredKey(records[i]) == key {
          PlaceUnique(records, key, i);
          if records[i].createdAt == 0 {
            records := records[i := records[i].(createdAt := n.createdAt)];
          }
          n := n.(createdAt := records[i].createdAt);
          records := records[i := n];
          return;
        }
        i := i + 1;
      }
      PlaceUnique(records, key, i);
      records := records + [n];
    }

    method Put(r: OutboxRecord) returns (ok: bool)
      modifies this
      ensures ok <==> PutIn(old(records), r).Some?
      ensures records == if ok then PutIn(old(records), r).value else old(records)
    {
      var normalized := NormalizeOutboxRecord(r);
      if normalized.None? {
        return false;
      }
      ReplaceOrAppend(normalized.value);
      return true;
    }
  }

  class BusSender {
    const store: OutboxStore
    // Counts the calls of the sender.
    var calls: nat

    constructor (store: OutboxStore)
      ensures this.store == store && calls == 0
    {
      this.store, calls := store, 0;
    }

    method SendWithBusOutbox(q: Request, answer: Answer, crash: Crash) returns (end: Ended)
      modifies this, store
      ensures var r := Send(old(store.records), q, answer, crash);
        && store.records == r.records && end == r.end
        && calls == old(calls) + if r.called then 1 else 0
    {
      var key := RecordKey(q.channel, q.idempotencyKey);
      if key.None? {
        return Error;
      }
      var existing := store.Get(key.value);
      if existing.Some? && existing.value.status.Sent? {
        var sentAt := q.now;
        if existing.value.sentAt.Some? {
          sentAt := existing.value.sentAt.value;
        }
        return Reported(Outcome(existing.value.accepted, true, false, false, "", sentAt, false));
      }
      end := TryDelivery(existing, q, answer, crash);
    }

    method TryDelivery(existing: Option<OutboxRecord>, q: Request, answer: Answer, crash: Crash) returns (end: Ended)
      modifies this, store
      ensures var r := Attempt(old(store.records), existing, q, answer, crash);
        && store.records == r.records && end == r.end
        && calls == old(calls) + if r.called then 1 else 0
    {
      var pending := NextOutboxRecord(existing, BaseRecord(q), StartAttempt, q.now);
      if pending.None? {
        return Error;
      }
      if crash.BeforePending? {
        return Died;
      }
      var written := store.Put(pending.value);
      if !written {
        return Error;
      }
      if crash.AfterPending? {
        return Died;
      }
      calls := calls + 1;
      if crash.AfterSend? {
        return Died;
      }
      end := RecordDelivery(pending.value, q, answer);
    }

    // Writes what became of the delivery.
    method RecordDelivery(pending: OutboxRecord, q: Request, answer: Answer) returns (end: Ended)
      modifies store
      ensures var r := AfterDelivery(old(store.records), pending, q, answer); store.records == r.records && end == r.end
    {
      var next := NextOutboxRecord(Some(pending), BaseRecord(q), TransitionFor(answer), q.now);
      if next.None? {
        return Error;
      }
      var written := store.Put(next.value);
      if !written {
        return Error;
      }
      return Reported(OutcomeFor(answer, q.now));
    }
  }
}
