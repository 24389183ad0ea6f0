/**
 Every run of deliveries through the outbox, with crashes at any point (sendWithBusOutbox in
 contacts/service.go over contacts/outbox_state_machine.go and contacts/file_store.go). Sends of the
 same key do not overlap, and the clock does not go back.
 */
module OutboxRuns {
  import opened Text
  import opened Transcript
  import opened Outbox

  datatype Delivery = Delivery(request: Request, answer: Answer, crash: Crash)

  // log has the key of each call of the sender.
  datatype World = World(records: seq<OutboxRecord>, log: seq<Key>, clock: int)

  function KeyFor(q: Request): Option<Key> {
    RecordKey(q.channel, q.idempotencyKey)
  }

  function Next(w: World, d: Delivery): World {
    var r := Send(w.records, d.request, d.answer, d.crash);
    World(r.records, if r.called && KeyFor(d.request).Some? then w.log + [KeyFor(d.request).value] else w.log, d.request.now)
  }

  function Calls(log: seq<Key>, key: Key): nat {
    if log == [] then 0 else Calls(log[..|log| - 1], key) + if log[|log| - 1] == key then 1 else 0
  }

  // ----- The store -----

  lemma LookupReplaced(records: seq<OutboxRecord>, n: OutboxRecord, key: Key)
    ensures var stored := Lookup(records, StoredKey(n));
            Lookup(Replaced(records, n), key) ==
              if key != StoredKey(n) then Lookup(records, key)
              else if stored.Some? then Some(KeepCreation(stored.value, n)) else Some(n)
  {
    var after, i, p := Replaced(records, n), Place(records, StoredKey(n)), Place(records, key);
    if key == StoredKey(n) {
      PlaceUnique(after, key, i);
    } else if p < |records| {
      PlaceUnique(after, key, p);
    } else {
      PlaceUnique(after, key, |after|);
    }
  }

  // ----- Validity -----

  // A stored record passes the validation again.
  predicate Sound(r: OutboxRecord) {
    r.attempts > 0 && TimesValid(r) && StatusValid(r)
  }

  lemma NormalizedSound(r: OutboxRecord)
    requires Normalize(r).Some?
    ensures Sound(Normalize(r).value) && StoredKey(Normalize(r).value) == KeyOf(r).value
  {
    TrimSpaceIdempotent(r.lastError);
  }

  lemma NormalizeAccepts(r: OutboxRecord)
    ensures Normalize(r).Some? <==> KeyOf(r).Some? && Sound(r)
  {
  }

  lemma BaseKey(q: Request)
    ensures KeyOf(BaseRecord(q)) == KeyFor(q)
  {
  }

  // The record an attempt starts with, for the record stored for its key.
  lemma PendingValid(existing: Option<OutboxRecord>, q: Request)
    requires KeyFor(q).Some? && q.now > 0
    requires existing.Some? ==> Sound(existing.value) && existing.value.createdAt <= q.now
    ensures var next := NextOutboxRecord(existing, BaseRecord(q), StartAttempt, q.now);
      && (next.Some? <==> existing.Some? ==>
            && !existing.value.status.Sent?
            && existing.value.channel == q.channel && existing.value.idempotencyKey == q.idempotencyKey)
      && (next.Some? ==>
            && next.value.status.Pending? && Sound(next.value) && KeyOf(next.value) == KeyFor(q)
            && next.value.channel == q.channel && next.value.idempotencyKey == q.idempotencyKey
            && next.value.updatedAt == q.now
            && next.value.attempts == (if existing.Some? then existing.value.attempts + 1 else 1)
            && next.value.createdAt == (if existing.Some? then existing.value.createdAt else q.now))
  {
    BaseKey(q);
  }

  predicate TellsWhy(answer: Answer) {
    answer.Refused? ==> TrimSpace(answer.text) != ""
  }

  // The record of what became of it; a failure needs an error text.
  lemma DoneValid(pending: OutboxRecord, q: Request, answer: Answer)
    requires KeyFor(q).Some? && q.now > 0
    requires pending.channel == q.channel && pending.idempotencyKey == q.idempotencyKey
    requires pending.status.Pending? && Sound(pending) && pending.updatedAt == q.now
    ensures var next := NextOutboxRecord(Some(pending), BaseRecord(q), TransitionFor(answer), q.now);
      && (next.Some? <==> TellsWhy(answer))
      && (next.Some? ==>
            && Sound(next.value) && KeyOf(next.value) == KeyFor(q) && !next.value.status.Pending?
            && (next.value.status.Sent? <==> !answer.Refused?)
            && next.value.updatedAt == q.now
            && next.value.attempts == pending.attempts && next.value.createdAt == pending.createdAt)
  {
    BaseKey(q);
    if answer.Refused? {
      TrimSpaceIdempotent(answer.text);
    }
  }

  // Writing a record that the validation accepts.
  lemma PutValid(records: seq<OutboxRecord>, r: OutboxRecord, key: Key)
    requires KeyOf(r) == Some(key) && Sound(r)
    requires Lookup(records, key).Some? ==> Lookup(records, key).value.createdAt == r.createdAt
    ensures PutIn(records, r).Some?
    ensures forall k :: k != key ==> Lookup(PutIn(records, r).value, k) == Lookup(records, k)
    ensures Lookup(PutIn(records, r).value, key) == Normalize(r) && Sound(Normalize(r).value)
  {
    NormalizeAccepts(r);
    NormalizedSound(r);
    var n := Normalize(r).value;
    forall k ensures Lookup(Replaced(records, n), k) ==
      if k != key then Lookup(records, k)
      else if Lookup(records, key).Some? then Some(KeepCreation(Lookup(records, key).value, n)) else Some(n)
    {
      LookupReplaced(records, n, k);
    }
  }

  // ----- The invariant of a key -----

  ghost predicate KeyInv(w: World, key: Key) {
    match Lookup(w.records, key)
    case None => Calls(w.log, key) == 0
    case Some(r) => Calls(w.log, key) <= r.attempts && Sound(r) && r.updatedAt <= w.clock
  }

  lemma CallsSnoc(log: seq<Key>, k: Key, key: Key)
    ensures Calls(log + [k], key) == Calls(log, key) + if k == key then 1 else 0
  {
    assert (log + [k])[..|log|] == log;
  }

  predicate Unsent(existing: Option<OutboxRecord>) {
    existing.Some? ==> !existing.value.status.Sent?
  }

  // The record stored for a key when an attempt for it starts.
  predicate Attemptable(existing: Option<OutboxRecord>, now: int) {
    Unsent(existing) && (existing.Some? ==> Sound(existing.value) && existing.value.updatedAt <= now)
  }

  // What one send may do to the record of its key.
  ghost predicate Evolves(before: Option<OutboxRecord>, after: Option<OutboxRecord>, called: bool) {
    && (before.Some? ==> after.Some? && after.value.createdAt == before.value.createdAt && before.value.attempts <= after.value.attempts)
    && (before.Some? && before.value.status.Sent? ==> after == before && !called)
    && (called ==> after.Some? && after.value.attempts == (if before.Some? then before.value.attempts else 0) + 1)
  }

  // The record stored for the key is that of the attempt, started or done.
  ghost predicate OfAttempt(pending: OutboxRecord, stored: Option<OutboxRecord>) {
    && stored.Some? && Sound(stored.value) && stored.value.createdAt == pending.createdAt
    && stored.value.attempts == pending.attempts && stored.value.updatedAt == pending.updatedAt
  }

  lemma AfterDeliveryKeeps(records: seq<OutboxRecord>, pending: OutboxRecord, q: Request, answer: Answer, key: Key)
    requires KeyFor(q) == Some(key) && q.now > 0 && OfAttempt(pending, Lookup(records, key))
    requires pending.channel == q.channel && pending.idempotencyKey == q.idempotencyKey
    requires pending.status.Pending? && Sound(pending) && pending.updatedAt == q.now
    ensures var r := AfterDelivery(records, pending, q, answer);
      && r.called && (forall k :: k != key ==> Lookup(r.records, k) == Lookup(records, k))
      && OfAttempt(pending, Lookup(r.records, key))
  {
    DoneValid(pending, q, answer);
    var done := NextOutboxRecord(Some(pending), BaseRecord(q), TransitionFor(answer), q.now);
    if done.Some? {
      PutValid(records, done.value, key);
    }
  }

  lemma AttemptKeeps(records: seq<OutboxRecord>, q: Request, answer: Answer, crash: Crash, key: Key)
    requires KeyFor(q) == Some(key) && q.now > 0
    requires Attemptable(Lookup(records, key), q.now)
    ensures var r, existing := Attempt(records, Lookup(records, key), q, answer, crash), Lookup(records, key);
      && (forall k :: k != key ==> Lookup(r.records, k) == Lookup(records, k))
      && Evolves(existing, Lookup(r.records, key), r.called)
      && (Lookup(r.records, key).Some? && Lookup(r.records, key) != existing ==>
            Sound(Lookup(r.records, key).value) && Lookup(r.records, key).value.updatedAt == q.now)
  {
    var existing := Lookup(records, key);
    PendingValid(existing, q);
    var next := NextOutboxRecord(existing, BaseRecord(q), StartAttempt, q.now);
    if next.Some? && !crash.BeforePending? {
      PutValid(records, next.value, key);
      var written := PutIn(records, next.value).value;
      assert OfAttempt(next.value, Lookup(written, key));
      AfterDeliveryKeeps(written, next.value, q, answer, key);
    }
  }

  // An attempt that comes to its end leaves the record sent exactly when the sender did not refuse,
  // and failed otherwise.
  lemma DeliveryStored(records: seq<OutboxRecord>, q: Request, answer: Answer, key: Key)
    requires KeyFor(q) == Some(key) && q.now > 0
    requires Attemptable(Lookup(records, key), q.now)
    ensures var r := Attempt(records, Lookup(records, key), q, answer, NoCrash);
      r.end.Reported? ==>
        && r.called && Lookup(r.records, key).Some?
        && (Lookup(r.records, key).value.status.Sent? <==> !answer.Refused?)
        && (Lookup(r.records, key).value.status.Failed? <==> answer.Refused?)
  {
    if Attempt(records, Lookup(records, key), q, answer, NoCrash).end.Reported? {
      ReportedStored(records, q, answer, key);
    }
  }

  // A key exists exactly for a known channel and an ID that is not blank, and all spellings of a channel
  // and an ID that differ in case or in the white space around them have the same.
  lemma KeyExactlyWhen(channel: string, id: string)
    ensures RecordKey(channel, id).Some? <==> ToLower(TrimSpace(channel)) in CHANNELS && TrimSpace(id) != ""
    ensures RecordKey(channel, id).Some? ==> RecordKey(channel, id).value == Key(ToLower(TrimSpace(channel)), TrimSpace(id))
    ensures RecordKey(TrimSpace(channel), TrimSpace(id)) == RecordKey(channel, id)
  {
    TrimSpaceIdempotent(channel);
    TrimSpaceIdempotent(id);
  }

  // A record is stored exactly when it has a key, was attempted, its times are set and in order, and its
  // status agrees with its time of sending and its error; it is stored trimmed, and otherwise as it is.
  lemma StoredExactlyWhen(r: OutboxRecord)
    ensures Normalize(r).Some? <==>
            && KeyOf(r).Some? && r.attempts >= 1
            && r.createdAt != 0 && r.updatedAt != 0 && r.createdAt <= r.updatedAt
            && (r.lastAttemptAt.Some? ==> r.lastAttemptAt.value != 0) && (r.sentAt.Some? ==> r.sentAt.value != 0)
            && (match r.status
                case Unsupported(_) => false
                case Pending => r.sentAt.None? && TrimSpace(r.lastError) == ""
                case Sent => r.sentAt.Some? && TrimSpace(r.lastError) == ""
                case Failed => r.sentAt.None? && TrimSpace(r.lastError) != "")
    ensures Normalize(r).Some? ==>
            && KeyOf(r) == Some(Key(Normalize(r).value.channel, Normalize(r).value.idempotencyKey))
            && SameDetails(Normalize(r).value.details, r.details) && Normalize(r).value.lastError == TrimSpace(r.lastError)
            && r == Normalize(r).value.(channel := r.channel, idempotencyKey := r.idempotencyKey, details := r.details, lastError := r.lastError)
  {
  }

  // An attempt starts on no record, or on one that is pending or failed; only a pending one is marked,
  // and as failed only with a text. A mark changes nothing but the status, its time and what it tells.
  lemma TransitionsExactlyWhen(current: Option<OutboxRecord>, base: OutboxRecord, transition: Transition, now: int)
    ensures var next := NextOutboxRecord(current, base, transition, now);
      && (next.Some? <==>
            && KeyOf(base).Some?
            && (current.Some? ==> current.value.channel == base.channel && current.value.idempotencyKey == base.idempotencyKey)
            && match transition
               case StartAttempt => current.Some? ==> current.value.status.Pending? || current.value.status.Failed?
               case MarkSent(_, _) => current.Some? && current.value.status.Pending?
               case MarkFailed(text) => current.Some? && current.value.status.Pending? && TrimSpace(text) != "")
      && (next.Some? && !transition.StartAttempt? ==>
            && next.value == current.value.(status := next.value.status, accepted := next.value.accepted, deduped := next.value.deduped,
                                            lastError := next.value.lastError, updatedAt := now, sentAt := next.value.sentAt)
            && next.value.status == (if transition.MarkSent? then Sent else Failed)
            && next.value.sentAt == (if transition.MarkSent? then Some(now) else None)
            && next.value.lastError == (if transition.MarkSent? then "" else TrimSpace(transition.errorText))
            && next.value.accepted == (transition.MarkSent? && transition.accepted)
            && next.value.deduped == (transition.MarkSent? && transition.deduped))
  {
  }

  // A record put under a key that has one keeps the creation time of that one.
  lemma PutKeepsCreation(records: seq<OutboxRecord>, r: OutboxRecord, key: Key)
    requires Normalize(r).Some? && KeyOf(r) == Some(key)
    ensures PutIn(records, r).Some? && Lookup(PutIn(records, r).value, key).Some?
    ensures var stored := Lookup(PutIn(records, r).value, key).value;
      && stored == Normalize(r).value.(createdAt := stored.createdAt)
      && stored.createdAt == (if Lookup(records, key).Some? && Lookup(records, key).value.createdAt != 0
                              then Lookup(records, key).value.createdAt else r.createdAt)
  {
    LookupReplaced(records, Normalize(r).value, key);
  }

  // The record of an attempt under way: what a crash leaves behind.
  predicate StartedRight(stored: OutboxRecord, existing: Option<OutboxRecord>, q: Request) {
    && stored.status.Pending? && !stored.accepted && !stored.deduped && stored.lastError == "" && stored.sentAt.None?
    && stored.lastAttemptAt == Some(q.now) && stored.updatedAt == q.now && SameDetails(stored.details, q.details)
    && stored.attempts == (if existing.Some? then existing.value.attempts else 0) + 1
  }

  // The sender is called exactly when the attempt can start and nothing crashes before; if it crashes
  // after that, or before the answer is stored, the record is that of the attempt under way.
  lemma CalledExactlyWhen(records: seq<OutboxRecord>, q: Request, answer: Answer, crash: Crash, key: Key)
    requires KeyFor(q) == Some(key) && q.now > 0
    requires Attemptable(Lookup(records, key), q.now)
    ensures var existing := Lookup(records, key);
      var r := Attempt(records, existing, q, answer, crash);
      && (r.called <==> (existing.Some? ==> !Misspelt(q, key)) && (crash.NoCrash? || crash.AfterSend?))
      && ((existing.Some? ==> !Misspelt(q, key)) && (crash.AfterPending? || crash.AfterSend?) ==>
            Lookup(r.records, key).Some? && StartedRight(Lookup(r.records, key).value, existing, q) && r.end.Died?)
      && (crash.BeforePending? ==> r.records == records)
  {
    var existing := Lookup(records, key);
    PendingValid(existing, q);
    var next := NextOutboxRecord(existing, BaseRecord(q), StartAttempt, q.now);
    if next.Some? {
      PutValid(records, next.value, key);
      StartedStored(existing, q, next.value);
      AttemptCalls(records, existing, q, answer, crash, next.value, PutIn(records, next.value).value);
    }
  }

  lemma StartedStored(existing: Option<OutboxRecord>, q: Request, next: OutboxRecord)
    requires NextOutboxRecord(existing, BaseRecord(q), StartAttempt, q.now) == Some(next) && Normalize(next).Some?
    requires existing.Some? ==> existing.value.attempts >= 0
    ensures StartedRight(Normalize(next).value, existing, q)
  {
    assert TrimSpace("") == "";
  }

  lemma AttemptCalls(records: seq<OutboxRecord>, existing: Option<OutboxRecord>, q: Request, answer: Answer,
        crash: Crash, next: OutboxRecord, written: seq<OutboxRecord>)
    requires NextOutboxRecord(existing, BaseRecord(q), StartAttempt, q.now) == Some(next)
    requires PutIn(records, next) == Some(written)
    ensures var r := Attempt(records, existing, q, answer, crash);
      && (r.called <==> crash.NoCrash? || crash.AfterSend?)
      && (crash.BeforePending? ==> r.records == records)
      && (crash.AfterPending? || crash.AfterSend? ==> r.records == written && r.end.Died?)
  {
  }

  // Nothing is sent without a key.
  lemma NoKeyNoCall(records: seq<OutboxRecord>, q: Request, answer: Answer, crash: Crash)
    requires KeyFor(q).None?
    ensures Send(records, q, answer, crash) == SendResult(records, false, Error)
  {
  }

  // What a sender's answer says of the delivery.
  predicate Accepts(answer: Answer) {
    match answer
    case Delivered(accepted, _) => accepted
    case PartlyDelivered(_, _) => true
    case Queued(_) => true
    case Refused(_) => false
  }

  predicate SameDetails(stored: Details, given: Details) {
    && stored.contactId == TrimSpace(given.contactId) && stored.peerId == TrimSpace(given.peerId)
    && stored.itemId == TrimSpace(given.itemId) && stored.contentType == TrimSpace(given.contentType)
    && stored.payload == TrimSpace(given.payload) && stored.file == given.file
  }

  // The outcome reports the answer, and the stored record agrees with it.
  predicate ToldRight(o: Outcome, stored: OutboxRecord, q: Request, answer: Answer) {
    && o.attempted && o.sentAt == q.now
    && (o.accepted <==> Accepts(answer)) && (o.partial <==> answer.PartlyDelivered?) && (o.queued <==> answer.Queued?)
    && o.error == (if answer.PartlyDelivered? || answer.Refused? then answer.text else "")
    && o.deduped == (!answer.Refused? && answer.deduped)
    && stored.accepted == o.accepted && stored.deduped == o.deduped
    && stored.lastError == (if answer.Refused? then TrimSpace(o.error) else "")
    && stored.sentAt == (if answer.Refused? then None else Some(o.sentAt)) && stored.lastAttemptAt == Some(q.now)
    && stored.updatedAt == q.now && SameDetails(stored.details, q.details)
  }

  // An attempt that comes to its end reports what the sender answered, and stores the same.
  lemma OutcomeToldRight(records: seq<OutboxRecord>, q: Request, answer: Answer, key: Key)
    requires KeyFor(q) == Some(key) && q.now > 0
    requires Attemptable(Lookup(records, key), q.now)
    ensures var r := Attempt(records, Lookup(records, key), q, answer, NoCrash);
      r.end.Reported? ==> Lookup(r.records, key).Some? && ToldRight(r.end.outcome, Lookup(r.records, key).value, q, answer)
  {
    if Attempt(records, Lookup(records, key), q, answer, NoCrash).end.Reported? {
      var existing := Lookup(records, key);
      PendingValid(existing, q);
      var pending := NextOutboxRecord(existing, BaseRecord(q), StartAttempt, q.now).value;
      PutValid(records, pending, key);
      DoneValid(pending, q, answer);
      var written := PutIn(records, pending).value;
      var done := NextOutboxRecord(Some(pending), BaseRecord(q), TransitionFor(answer), q.now).value;
      PutValid(written, done, key);
      AttemptReports(records, existing, q, answer, pending, written, done);
      DoneToldRight(pending, q, answer, done);
    }
  }

  lemma AttemptReports(records: seq<OutboxRecord>, existing: Option<OutboxRecord>, q: Request, answer: Answer,
        pending: OutboxRecord, written: seq<OutboxRecord>, done: OutboxRecord)
    requires NextOutboxRecord(existing, BaseRecord(q), StartAttempt, q.now) == Some(pending) && PutIn(records, pending) == Some(written)
    requires NextOutboxRecord(Some(pending), BaseRecord(q), TransitionFor(answer), q.now) == Some(done) && PutIn(written, done).Some?
    ensures Attempt(records, existing, q, answer, NoCrash) ==
            SendResult(PutIn(written, done).value, true, Reported(OutcomeFor(answer, q.now)))
  {
  }

  lemma DoneToldRight(pending: OutboxRecord, q: Request, answer: Answer, done: OutboxRecord)
    requires KeyFor(q).Some? && pending.details == q.details && pending.lastAttemptAt == Some(q.now)
    requires NextOutboxRecord(Some(pending), BaseRecord(q), TransitionFor(answer), q.now) == Some(done)
    requires Normalize(done).Some?
    ensures ToldRight(OutcomeFor(answer, q.now), Normalize(done).value, q, answer)
  {
    if answer.Refused? {
      TrimSpaceIdempotent(answer.text);
    }
    assert TrimSpace("") == "";
  }

  // A delivery that is stored as sent is reported again as it was, as a duplicate, without an attempt.
  lemma RepeatToldRight(records: seq<OutboxRecord>, q: Request, answer: Answer, crash: Crash, key: Key)
    requires KeyFor(q) == Some(key) && Lookup(records, key).Some? && Lookup(records, key).value.status.Sent?
    ensures var r, stored := Send(records, q, answer, crash), Lookup(records, key).value;
      && r.records == records && !r.called && r.end.Reported?
      && r.end.outcome.accepted == stored.accepted && r.end.outcome.deduped && !r.end.outcome.attempted
      && !r.end.outcome.partial && !r.end.outcome.queued && r.end.outcome.error == ""
      && (stored.sentAt.Some? ==> r.end.outcome.sentAt == stored.sentAt.value)
  {
  }

  lemma ReportedStored(records: seq<OutboxRecord>, q: Request, answer: Answer, key: Key)
    requires KeyFor(q) == Some(key) && q.now > 0
    requires Attemptable(Lookup(records, key), q.now)
    requires Attempt(records, Lookup(records, key), q, answer, NoCrash).end.Reported?
    ensures var r := Attempt(records, Lookup(records, key), q, answer, NoCrash);
      && r.called && Lookup(r.records, key).Some?
      && (Lookup(r.records, key).value.status.Sent? <==> !answer.Refused?)
      && (Lookup(r.records, key).value.status.Failed? <==> answer.Refused?)
  {
    PendingValid(Lookup(records, key), q);
    var pending := NextOutboxRecord(Lookup(records, key), BaseRecord(q), StartAttempt, q.now).value;
    PutValid(records, pending, key);
    DoneValid(pending, q, answer);
    PutValid(PutIn(records, pending).value, NextOutboxRecord(Some(pending), BaseRecord(q), TransitionFor(answer), q.now).value, key);
  }

  // A send keeps the invariant of every key, whatever the sender answers and wherever it crashes.
  lemma SendKeeps(w: World, d: Delivery, key: Key)
    requires KeyInv(w, key) && d.request.now > 0 && w.clock <= d.request.now
    requires KeyFor(d.request).Some? ==> KeyInv(w, KeyFor(d.request).value)
    ensures KeyInv(Next(w, d), key)
    ensures KeyFor(d.request) == Some(key) ==>
      Evolves(Lookup(w.records, key), Lookup(Next(w, d).records, key), Send(w.records, d.request, d.answer, d.crash).called)
    ensures KeyFor(d.request) != Some(key) ==>
      Lookup(Next(w, d).records, key) == Lookup(w.records, key) && Calls(Next(w, d).log, key) == Calls(w.log, key)
  {
    var q := d.request;
    if KeyFor(q).Some? {
      var k := KeyFor(q).value;
      CallsSnoc(w.log, k, key);
      var existing := Lookup(w.records, k);
      if Unsent(existing) {
        AttemptKeeps(w.records, q, d.answer, d.crash, k);
      }
    }
  }

  // ----- Every run -----

  predicate Timely(clock: int, ds: seq<Delivery>) {
    && (forall i :: 0 <= i < |ds| ==> ds[i].request.now > 0 && clock <= ds[i].request.now)
    && forall i, j :: 0 <= i < j < |ds| ==> ds[i].request.now <= ds[j].request.now
  }

  function After(w: World, ds: seq<Delivery>): World {
    if ds == [] then w else Next(After(w, ds[..|ds| - 1]), ds[|ds| - 1])
  }

  ghost predicate Inv(w: World) {
    forall key :: KeyInv(w, key)
  }

  lemma {:induction false} ClockAfter(w: World, ds: seq<Delivery>)
    ensures After(w, ds).clock == if ds == [] then w.clock else ds[|ds| - 1].request.now
  {
  }

  lemma {:induction false} RunKeeps(w: World, ds: seq<Delivery>)
    requires Inv(w) && Timely(w.clock, ds)
    ensures Inv(After(w, ds))
  {
    if ds != [] {
      var n := |ds| - 1;
      RunKeeps(w, ds[..n]);
      ClockAfter(w, ds[..n]);
      forall key ensures KeyInv(After(w, ds), key) {
        SendKeeps(After(w, ds[..n]), ds[n], key);
      }
    }
  }

  // From an empty outbox, over every run: the sender is called at most as often as the record of the
  // key counts attempts, and every stored record passes the validation.
  lemma CallsWithinAttempts(ds: seq<Delivery>, key: Key)
    requires Timely(0, ds)
    ensures var w := After(World([], [], 0), ds);
            match Lookup(w.records, key)
            case None => Calls(w.log, key) == 0
            case Some(r) => Calls(w.log, key) <= r.attempts && Sound(r)
  {
    var empty := World([], [], 0);
    assert forall k :: KeyInv(empty, k);
    RunKeeps(empty, ds);
    assert KeyInv(After(empty, ds), key);
  }

  lemma StepOnKey(w: World, d: Delivery, key: Key)
    requires Inv(w) && d.request.now > 0 && w.clock <= d.request.now && Lookup(w.records, key).Some?
    ensures var before, after := Lookup(w.records, key).value, Lookup(Next(w, d).records, key);
      && after.Some? && after.value.createdAt == before.createdAt
      && (before.status.Sent? ==> after.value == before && Calls(Next(w, d).log, key) == Calls(w.log, key))
  {
    assert KeyInv(w, key);
    if KeyFor(d.request).Some? {
      assert KeyInv(w, KeyFor(d.request).value);
    }
    SendKeeps(w, d, key);
  }

  // Once a record is stored its creation time never changes; and once it is stored as sent the
  // sender is never called again for its key.
  lemma {:induction false} SentStaysSent(w: World, ds: seq<Delivery>, key: Key)
    requires Inv(w) && Timely(w.clock, ds) && Lookup(w.records, key).Some?
    ensures var before, after := Lookup(w.records, key).value, Lookup(After(w, ds).records, key);
      && after.Some? && after.value.createdAt == before.createdAt
      && (before.status.Sent? ==> after.value == before && Calls(After(w, ds).log, key) == Calls(w.log, key))
  {
    if ds != [] {
      var n := |ds| - 1;
      SentStaysSent(w, ds[..n], key);
      RunKeeps(w, ds[..n]);
      ClockAfter(w, ds[..n]);
      StepOnKey(After(w, ds[..n]), ds[n], key);
    }
  }

  // ----- When a send errs -----

  // The record for the key is stored under the trimmed key and the normalised channel; an attempt for
  // another spelling of them is taken for another delivery.
  predicate Misspelt(q: Request, key: Key) {
    q.channel != key.channel || q.idempotencyKey != key.id
  }

  // A send ends in an error exactly when its key is invalid, when it repeats an unfinished delivery
  // under another spelling of the key, or when it fails without an error text.
  lemma SendErrs(w: World, d: Delivery)
    requires Inv(w) && d.request.now > 0 && w.clock <= d.request.now
    ensures var q, key := d.request, KeyFor(d.request);
      Send(w.records, q, d.answer, d.crash).end.Error? <==>
        || key.None?
        || (var existing := Lookup(w.records, key.value);
            if existing.None? then d.crash.NoCrash? && !TellsWhy(d.answer)
            else !existing.value.status.Sent? && (Misspelt(q, key.value) || (d.crash.NoCrash? && !TellsWhy(d.answer))))
  {
    var q, key := d.request, KeyFor(d.request);
    if key.Some? {
      assert KeyInv(w, key.value);
      var existing := Lookup(w.records, key.value);
      if Unsent(existing) {
        AttemptErrs(w.records, q, d.answer, d.crash, key.value);
      }
    }
  }

  lemma AttemptErrs(records: seq<OutboxRecord>, q: Request, answer: Answer, crash: Crash, key: Key)
    requires KeyFor(q) == Some(key) && q.now > 0
    requires Attemptable(Lookup(records, key), q.now)
    ensures Attempt(records, Lookup(records, key), q, answer, crash).end.Error? <==>
            (Lookup(records, key).Some? && Misspelt(q, key)) || (crash.NoCrash? && !TellsWhy(answer))
  {
    var existing := Lookup(records, key);
    PendingValid(existing, q);
    var next := NextOutboxRecord(existing, BaseRecord(q), StartAttempt, q.now);
    if next.Some? {
      PutValid(records, next.value, key);
      AttemptEnds(records, existing, q, answer, crash, next.value, PutIn(records, next.value).value);
      AfterDeliveryErrs(PutIn(records, next.value).value, next.value, q, answer, key);
    }
  }

  lemma AttemptEnds(records: seq<OutboxRecord>, existing: Option<OutboxRecord>, q: Request, answer: Answer,
        crash: Crash, next: OutboxRecord, written: seq<OutboxRecord>)
    requires NextOutboxRecord(existing, BaseRecord(q), StartAttempt, q.now) == Some(next)
    requires PutIn(records, next) == Some(written)
    ensures Attempt(records, existing, q, answer, crash).end.Error? <==>
            crash.NoCrash? && AfterDelivery(written, next, q, answer).end.Error?
  {
  }

  lemma AfterDeliveryErrs(records: seq<OutboxRecord>, pending: OutboxRecord, q: Request, answer: Answer, key: Key)
    requires KeyFor(q) == Some(key) && q.now > 0 && OfAttempt(pending, Lookup(records, key))
    requires pending.channel == q.channel && pending.idempotencyKey == q.idempotencyKey
    requires pending.status.Pending? && Sound(pending) && pending.updatedAt == q.now
    ensures AfterDelivery(records, pending, q, answer).end.Error? <==> !TellsWhy(answer)
  {
    DoneValid(pending, q, answer);
    var done := NextOutboxRecord(Some(pending), BaseRecord(q), TransitionFor(answer), q.now);
    if done.Some? {
      PutValid(records, done.value, key);
    }
  }
}
