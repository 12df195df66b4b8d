/** What the callback maps say about one callback, and that each stretch touches only the callback it is about. */
module CallbackSlices {
  import opened Common
  import opened CallbackStates

  /** How callers use keys: a key serves one operation of one callback, and a callback is scheduled under one key. */
  datatype Role = ForSchedule(id: Id) | ForCancel(id: Id)

  datatype Discipline = Discipline(role: string -> Role, keyOf: Id -> string) {
    ghost predicate Valid() {
      forall id :: role(keyOf(id)) == ForSchedule(id)
    }

    function ScheduleKey(id: Id): Key {
      Caller(keyOf(id))
    }

    /** The callback a key is about. */
    function Owner(key: Key): Id {
      match key
      case Caller(text) => role(text).id
      case Cleanup(callback, _, _) => callback
    }

    predicate MaySchedule(request: Request) {
      request.key == ScheduleKey(request.callbackId)
    }

    predicate MayCancel(id: Id, key: Key) {
      key.Caller? && role(key.text) == ForCancel(id)
    }
  }

  predicate Incarnated(status: Status) {
    Active(status) || status.Dispatched?
  }

  /** The record of x: filed under its own id and decided under its schedule key, pending exactly when a cancellation
      key is held for it, and carrying an incarnation from scheduling until teardown. */
  ghost predicate RecordSlice(d: Discipline, s: Service, x: Id) {
    && (x in s.records ==>
          s.records[x].request.callbackId == x && d.MaySchedule(s.records[x].request) && d.ScheduleKey(x) in s.results)
    && (x in s.pendingCancellations <==> x in s.records && s.records[x].status.CancellationPending?)
    && (x in s.pendingCancellations ==>
          && s.pendingCancellations[x] !in s.results
          && d.Owner(s.pendingCancellations[x]) == x && s.pendingCancellations[x] != d.ScheduleKey(x))
    && (x in s.records && Incarnated(s.records[x].status) ==> x in s.incarnations)
    && (x in s.incarnations ==> x in s.records && s.incarnations[x] <= s.sequence)
  }

  /** A key of x is known exactly when it has a result or a tombstone, never both. */
  ghost predicate KeySlice(d: Discipline, s: Service, x: Id) {
    forall k :: d.Owner(k) == x ==>
      && (k in s.fingerprints <==> k in s.results || k in s.failed)
      && (k in s.results ==>
            && k !in s.failed && k.Caller? && x in s.records && s.results[k].request.callbackId == x
            && s.fingerprints[k] == if k == d.ScheduleKey(x) then OfSchedule(s.results[k].request) else OfCancel(x))
      && (k in s.failed ==> s.failed[k] == x && s.fingerprints[k] == OfCancel(x) && k != d.ScheduleKey(x))
  }

  /** At most one schedule of x has an unknown outcome, and none while x has a record. */
  ghost predicate PendingSlice(d: Discipline, s: Service, x: Id) {
    forall k :: k in s.pendingSchedules && d.Owner(k) == x ==>
      && k == d.ScheduleKey(x) && k !in s.fingerprints && x !in s.records
      && s.pendingSchedules[k].request.callbackId == x && s.pendingSchedules[k].request.key == k
      && s.pendingSchedules[k].incarnation <= s.sequence
  }

  /** A remembered cleanup key of a pending schedule is one minted for its callback. */
  ghost predicate CleanupSlice(d: Discipline, s: Service, x: Id) {
    var key := d.ScheduleKey(x);
    key in s.scheduleCancellations ==> s.scheduleCancellations[key].Cleanup? && s.scheduleCancellations[key].callback == x
  }

  ghost predicate Slice(d: Discipline, s: Service, x: Id) {
    RecordSlice(d, s, x) && KeySlice(d, s, x) && PendingSlice(d, s, x) && CleanupSlice(d, s, x)
  }

  predicate SameButStatus(a: Record, b: Record) {
    a.request == b.request && a.reference == b.reference && a.reasons == b.reasons
  }

  /** What an operation of x that is waiting for an adapter relies on. */
  ghost predicate FlightHolds(d: Discipline, s: Service, x: Id, f: Flight) {
    match f
    case Scheduling(pending) =>
      && pending.request.callbackId == x && d.MaySchedule(pending.request)
      && pending.request.key in s.pendingSchedules && s.pendingSchedules[pending.request.key] == pending
    case Canceling(existing, key) =>
      && d.MayCancel(x, key) && key !in s.fingerprints
      && x in s.records && s.records[x].status.CancellationPending? && SameButStatus(s.records[x], existing)
      && x in s.pendingCancellations && s.pendingCancellations[x] == key
    case Dialing(record) => x in s.records && s.records[x] == record && record.status.Scheduled?
    case RemovingSchedule(pending, cleanup) =>
      && pending.request.callbackId == x && d.MaySchedule(pending.request)
      && pending.request.key in s.pendingSchedules && s.pendingSchedules[pending.request.key] == pending
      && cleanup.Cleanup? && cleanup.callback == x
    case RemovingRecord(record, cleanup) =>
      && x in s.records && SameButStatus(s.records[x], record)
      && if record.status.Dispatched? then s.records[x] == record
         else s.records[x].status.CancellationPending? && x in s.pendingCancellations && s.pendingCancellations[x] == cleanup
  }

  // ---- Locality: an operation on one callback leaves every other callback's entries alone. ----

  ghost predicate SameIds(s: Service, t: Service, x: Id) {
    forall y :: y != x ==>
      && (y in s.records <==> y in t.records) && (y in s.records ==> s.records[y] == t.records[y])
      && (y in s.pendingCancellations <==> y in t.pendingCancellations)
      && (y in s.pendingCancellations ==> s.pendingCancellations[y] == t.pendingCancellations[y])
      && (y in s.incarnations <==> y in t.incarnations) && (y in s.incarnations ==> s.incarnations[y] == t.incarnations[y])
  }

  ghost predicate SameKeys(d: Discipline, s: Service, t: Service, x: Id) {
    forall k :: d.Owner(k) != x ==>
      && (k in s.fingerprints <==> k in t.fingerprints) && (k in s.fingerprints ==> s.fingerprints[k] == t.fingerprints[k])
      && (k in s.results <==> k in t.results) && (k in s.results ==> s.results[k] == t.results[k])
      && (k in s.failed <==> k in t.failed) && (k in s.failed ==> s.failed[k] == t.failed[k])
      && (k in s.pendingSchedules <==> k in t.pendingSchedules)
      && (k in s.pendingSchedules ==> s.pendingSchedules[k] == t.pendingSchedules[k])
      && (k in s.scheduleCancellations <==> k in t.scheduleCancellations)
      && (k in s.scheduleCancellations ==> s.scheduleCancellations[k] == t.scheduleCancellations[k])
  }

  ghost predicate SameAttempts(s: Service, t: Service, x: Id) {
    forall y, n :: y != x ==>
      && ((y, n) in s.attempts <==> (y, n) in t.attempts)
      && ((y, n) in s.attempts ==> s.attempts[(y, n)] == t.attempts[(y, n)])
  }

  ghost predicate TouchesOnly(d: Discipline, s: Service, t: Service, x: Id) {
    SameIds(s, t, x) && SameKeys(d, s, t, x) && SameAttempts(s, t, x) && s.sequence <= t.sequence
  }

  lemma SliceElsewhere(d: Discipline, s: Service, t: Service, x: Id, y: Id)
    requires d.Valid() && TouchesOnly(d, s, t, x) && y != x && Slice(d, s, y)
    ensures Slice(d, t, y)
  {
    assert d.Owner(d.ScheduleKey(y)) == y;
  }

  lemma FlightElsewhere(d: Discipline, s: Service, t: Service, x: Id, y: Id, f: Flight)
    requires d.Valid() && TouchesOnly(d, s, t, x) && y != x && FlightHolds(d, s, y, f)
    ensures FlightHolds(d, t, y, f)
  {
    assert d.Owner(d.ScheduleKey(y)) == y;
  }

  // ---- Each stretch keeps the slice of the callback it is about, and touches no other. ----

  /** What a stretch about x must establish: the slice of x, no other change, and a flight that may be relied on. */
  ghost predicate Good(d: Discipline, s: Service, t: Service, x: Id, reply: Reply) {
    && Slice(d, t, x) && TouchesOnly(d, s, t, x)
    && (reply.Calling? ==> FlightHolds(d, t, x, reply.flight))
    && (reply.Refused? ==> reply.error != Inconsistent && reply.error != MissingEntry)
  }

  lemma UnchangedIsGood(d: Discipline, s: Service, x: Id, reply: Reply)
    requires Slice(d, s, x)
    requires reply.Calling? ==> FlightHolds(d, s, x, reply.flight)
    requires reply.Refused? ==> reply.error != Inconsistent && reply.error != MissingEntry
    ensures Good(d, s, s, x, reply)
  {
  }

  /** A schedule key with no fingerprint means there is no record either. */
  lemma FreshKeyMeansNoRecord(d: Discipline, s: Service, x: Id)
    requires d.Valid() && Slice(d, s, x) && d.ScheduleKey(x) !in s.fingerprints
    ensures x !in s.records
  {
    assert d.Owner(d.ScheduleKey(x)) == x;
  }

  lemma BlockedReplyIsGood(d: Discipline, s: Service, request: Request, reasons: seq<Reason>, now: Time)
    requires d.Valid() && d.MaySchedule(request) && Slice(d, s, request.callbackId)
    requires request.key !in s.fingerprints && request.key !in s.pendingSchedules
    ensures Good(d, s, BlockedReply(s, request, reasons, now).0, request.callbackId, BlockedReply(s, request, reasons, now).1)
  {
    assert d.Owner(request.key) == request.callbackId;
    FreshKeyMeansNoRecord(d, s, request.callbackId);
  }

  lemma AdmittedIsGood(d: Discipline, s: Service, request: Request)
    requires d.Valid() && d.MaySchedule(request) && Slice(d, s, request.callbackId)
    requires request.key !in s.fingerprints && request.key !in s.pendingSchedules
    ensures Good(d, s, Admitted(s, request).0, request.callbackId, Admitted(s, request).1)
  {
    assert d.Owner(request.key) == request.callbackId;
    FreshKeyMeansNoRecord(d, s, request.callbackId);
  }

  /** No operation key is ever known without its result or its tombstone. */
  lemma CheckIsConsistent(d: Discipline, s: Service, key: Key, fingerprint: Fingerprint)
    requires Slice(d, s, d.Owner(key))
    ensures CheckOperation(s, key, fingerprint) != Failure(Inconsistent)
    ensures CheckOperation(s, key, fingerprint) != Failure(MissingEntry)
    ensures CheckOperation(s, key, fingerprint) == Success(None) ==> key !in s.fingerprints
  {
  }

  lemma ConsideredIsGood(d: Discipline, s: Service, request: Request, now: Time, reasons: seq<Reason>, config: Config)
    requires d.Valid() && d.MaySchedule(request) && Slice(d, s, request.callbackId)
    requires request.key !in s.fingerprints && request.key !in s.pendingSchedules
    ensures var r := Considered(s, request, now, reasons, config);
            Good(d, s, r.0, request.callbackId, r.1)
  {
    var r := Considered(s, request, now, reasons, config);
    if TimeInvalid(request, now, config) {
      BlockedReplyIsGood(d, s, request, [CallbackTimeInvalid], now);
    } else if r.1.Refused? {
      UnchangedIsGood(d, s, request.callbackId, r.1);
    } else if r.1.Calling? {
      AdmittedIsGood(d, s, request);
    } else {
      BlockedReplyIsGood(d, s, request, reasons, now);
    }
  }

  lemma BeginScheduleIsGood(d: Discipline, s: Service, request: Request, now: Time, reasons: seq<Reason>, config: Config)
    requires d.Valid() && d.MaySchedule(request) && Slice(d, s, request.callbackId)
    ensures var r := BeginSchedule(s, request, now, reasons, config);
            Good(d, s, r.0, request.callbackId, r.1)
  {
    var r := BeginSchedule(s, request, now, reasons, config);
    var check := CheckOperation(s, request.key, OfSchedule(request));
    assert d.Owner(request.key) == request.callbackId;
    CheckIsConsistent(d, s, request.key, OfSchedule(request));
    if check == Success(None) && request.key !in s.pendingSchedules {
      ConsideredIsGood(d, s, request, now, reasons, config);
    } else {
      if r.1.Calling? { PendingIsItsOwn(d, s, request); }
      UnchangedIsGood(d, s, request.callbackId, r.1);
    }
  }

  lemma PendingIsItsOwn(d: Discipline, s: Service, request: Request)
    requires d.Valid() && d.MaySchedule(request) && Slice(d, s, request.callbackId)
    ensures request.key in s.pendingSchedules && s.pendingSchedules[request.key].request == request ==>
              FlightHolds(d, s, request.callbackId, Scheduling(s.pendingSchedules[request.key]))
  {
    assert d.Owner(request.key) == request.callbackId;
  }

  lemma ScheduleFailedIsGood(d: Discipline, s: Service, x: Id, pending: Pending)
    requires d.Valid() && Slice(d, s, x) && FlightHolds(d, s, x, Scheduling(pending))
    ensures Good(d, s, s.(pendingSchedules := s.pendingSchedules - {pending.request.key}), x, Nothing)
  {
    assert d.Owner(d.ScheduleKey(x)) == x;
  }

  lemma ScheduleDoneTouches(d: Discipline, s: Service, x: Id, pending: Pending, reference: string, now: Time)
    requires d.Valid() && pending.request.callbackId == x && d.MaySchedule(pending.request)
    ensures TouchesOnly(d, s, EndSchedule(s, pending, Done(reference), now), x)
  {
    assert d.Owner(d.ScheduleKey(x)) == x;
  }

  lemma ScheduleDoneSlice(d: Discipline, s: Service, x: Id, pending: Pending, reference: string, now: Time)
    requires d.Valid() && Slice(d, s, x) && FlightHolds(d, s, x, Scheduling(pending))
    ensures Slice(d, EndSchedule(s, pending, Done(reference), now), x)
  {
    assert d.Owner(d.ScheduleKey(x)) == x;
  }

  lemma ScheduleDoneIsGood(d: Discipline, s: Service, x: Id, pending: Pending, reference: string, now: Time)
    requires d.Valid() && Slice(d, s, x) && FlightHolds(d, s, x, Scheduling(pending))
    ensures Good(d, s, EndSchedule(s, pending, Done(reference), now), x, Nothing)
  {
    ScheduleDoneTouches(d, s, x, pending, reference, now);
    ScheduleDoneSlice(d, s, x, pending, reference, now);
  }

  lemma EndScheduleIsGood(d: Discipline, s: Service, x: Id, pending: Pending, outcome: Outcome, now: Time)
    requires d.Valid() && Slice(d, s, x) && FlightHolds(d, s, x, Scheduling(pending))
    ensures Good(d, s, EndSchedule(s, pending, outcome, now), x, Nothing)
  {
    if outcome.Done? {
      ScheduleDoneIsGood(d, s, x, pending, outcome.reference, now);
    } else {
      ScheduleFailedIsGood(d, s, x, pending);
    }
  }

  lemma CancelStartedIsGood(d: Discipline, s: Service, x: Id, key: Key, now: Time)
    requires d.Valid() && d.MayCancel(x, key) && Slice(d, s, x) && key !in s.fingerprints
    requires x in s.records && (s.records[x].status.Scheduled? || s.records[x].status.CancellationRequired?)
    ensures var t := s.(records := s.records[x := WithStatus(s.records[x], CancellationPending, now)],
                        pendingCancellations := s.pendingCancellations[x := key]);
            Good(d, s, t, x, Calling(Canceling(s.records[x], key)))
  {
    assert d.Owner(key) == x && key != d.ScheduleKey(x);
  }

  lemma BeginCancelIsGood(d: Discipline, s: Service, x: Id, key: Key, now: Time)
    requires d.Valid() && d.MayCancel(x, key) && Slice(d, s, x)
    ensures var r := BeginCancel(s, x, key, now);
            Good(d, s, r.0, x, r.1)
  {
    assert d.Owner(key) == x;
    var r := BeginCancel(s, x, key, now);
    CheckIsConsistent(d, s, key, OfCancel(x));
    if r.1.Calling? && !s.records[x].status.CancellationPending? {
      CancelStartedIsGood(d, s, x, key, now);
    } else {
      UnchangedIsGood(d, s, x, r.1);
    }
  }

  lemma CancelDoneIsGood(d: Discipline, s: Service, x: Id, existing: Record, key: Key, reference: string, now: Time)
    requires d.Valid() && Slice(d, s, x) && FlightHolds(d, s, x, Canceling(existing, key))
    ensures Good(d, s, EndCancel(s, x, existing, key, Done(reference), now), x, Nothing)
  {
    assert d.Owner(key) == x && key != d.ScheduleKey(x);
  }

  lemma EndCancelIsGood(d: Discipline, s: Service, x: Id, existing: Record, key: Key, outcome: Outcome, now: Time)
    requires d.Valid() && Slice(d, s, x) && FlightHolds(d, s, x, Canceling(existing, key))
    ensures Good(d, s, EndCancel(s, x, existing, key, outcome, now), x, Nothing)
  {
    if outcome.Done? {
      CancelDoneIsGood(d, s, x, existing, key, outcome.reference, now);
    } else {
      CancellationFailedIsGood(d, s, x, existing, key, now);
    }
  }

  lemma StatusChangeIsGood(d: Discipline, s: Service, x: Id, updated: Record, reply: Reply)
    requires Slice(d, s, x) && x in s.records && s.records[x].status.Scheduled?
    requires updated.request == s.records[x].request && (updated.status.Blocked? || updated.status.Dispatched?)
    requires !reply.Calling? && !reply.Refused?
    ensures Good(d, s, s.(records := s.records[x := updated]), x, reply)
  {
  }

  lemma BeginDispatchIsGood(d: Discipline, s: Service, x: Id, now: Time, reasons: seq<Reason>)
    requires d.Valid() && Slice(d, s, x)
    ensures var r := BeginDispatch(s, x, now, reasons);
            Good(d, s, r.0, x, r.1)
  {
    var r := BeginDispatch(s, x, now, reasons);
    if r.1.Answered? {
      StatusChangeIsGood(d, s, x, r.1.record, r.1);
    } else {
      UnchangedIsGood(d, s, x, r.1);
    }
  }

  lemma EndDispatchIsGood(d: Discipline, s: Service, x: Id, record: Record, reference: string, now: Time)
    requires d.Valid() && Slice(d, s, x) && FlightHolds(d, s, x, Dialing(record))
    ensures Good(d, s, EndDispatch(s, x, record, reference, now), x, Nothing)
  {
    StatusChangeIsGood(d, s, x, WithStatus(record, Dispatched, now).(reference := Some(reference)), Nothing);
  }

  lemma MintedIsGood(d: Discipline, s: Service, x: Id, incarnation: nat, reply: Reply)
    requires Slice(d, s, x) && !reply.Refused? && (reply.Calling? ==> FlightHolds(d, s, x, reply.flight))
    ensures Good(d, s, Minted(s, x, incarnation), x, reply)
  {
  }

  lemma BeginRemoveScheduleIsGood(d: Discipline, s: Service, x: Id)
    requires d.Valid() && Slice(d, s, x)
    ensures var r := BeginRemoveSchedule(s, d.ScheduleKey(x));
            Good(d, s, r.0, x, r.1)
  {
    var key := d.ScheduleKey(x);
    assert d.Owner(key) == x;
    if key in s.pendingSchedules && key !in s.scheduleCancellations {
      CleanupMintedIsGood(d, s, x);
    } else {
      UnchangedIsGood(d, s, x, BeginRemoveSchedule(s, key).1);
    }
  }

  lemma CleanupMintedIsGood(d: Discipline, s: Service, x: Id)
    requires d.Valid() && Slice(d, s, x) && d.ScheduleKey(x) in s.pendingSchedules
    ensures var key := d.ScheduleKey(x);
            var pending := s.pendingSchedules[key];
            var cleanup := MintedKey(s, x, pending.incarnation);
            var t := Minted(s, x, pending.incarnation).(scheduleCancellations := s.scheduleCancellations[key := cleanup]);
            Good(d, s, t, x, Calling(RemovingSchedule(pending, cleanup)))
  {
    var key := d.ScheduleKey(x);
    assert d.Owner(key) == x;
    var pending := s.pendingSchedules[key];
    var cleanup := MintedKey(s, x, pending.incarnation);
    var t := s.(scheduleCancellations := s.scheduleCancellations[key := cleanup]);
    RememberedIsGood(d, s, x, cleanup);
    MintedIsGood(d, t, x, pending.incarnation, Calling(RemovingSchedule(pending, cleanup)));
    TouchesOnlyTwice(d, s, t, Minted(t, x, pending.incarnation), x);
  }

  lemma RememberedIsGood(d: Discipline, s: Service, x: Id, cleanup: Key)
    requires d.Valid() && Slice(d, s, x) && cleanup.Cleanup? && cleanup.callback == x
    ensures Good(d, s, s.(scheduleCancellations := s.scheduleCancellations[d.ScheduleKey(x) := cleanup]), x, Nothing)
  {
    assert d.Owner(d.ScheduleKey(x)) == x;
  }

  lemma TouchesOnlyTwice(d: Discipline, s: Service, t: Service, u: Service, x: Id)
    requires TouchesOnly(d, s, t, x) && TouchesOnly(d, t, u, x)
    ensures TouchesOnly(d, s, u, x)
  {
    SameIdsTwice(s, t, u, x);
    SameKeysTwice(d, s, t, u, x);
    SameAttemptsTwice(s, t, u, x);
  }

  lemma SameIdsTwice(s: Service, t: Service, u: Service, x: Id)
    requires SameIds(s, t, x) && SameIds(t, u, x)
    ensures SameIds(s, u, x)
  {
  }

  lemma SameKeysTwice(d: Discipline, s: Service, t: Service, u: Service, x: Id)
    requires SameKeys(d, s, t, x) && SameKeys(d, t, u, x)
    ensures SameKeys(d, s, u, x)
  {
  }

  lemma SameAttemptsTwice(s: Service, t: Service, u: Service, x: Id)
    requires SameAttempts(s, t, x) && SameAttempts(t, u, x)
    ensures SameAttempts(s, u, x)
  {
  }

  lemma EndRemoveScheduleTouches(d: Discipline, s: Service, x: Id, pending: Pending, cleanup: Key, outcome: Outcome)
    requires d.Valid() && pending.request.callbackId == x && d.MaySchedule(pending.request)
    requires cleanup.Cleanup? && cleanup.callback == x
    ensures TouchesOnly(d, s, EndRemoveSchedule(s, pending, cleanup, outcome), x)
  {
    EndRemoveScheduleKeys(d, s, x, pending, cleanup, outcome);
    assert SameIds(s, EndRemoveSchedule(s, pending, cleanup, outcome), x);
  }

  lemma EndRemoveScheduleKeys(d: Discipline, s: Service, x: Id, pending: Pending, cleanup: Key, outcome: Outcome)
    requires d.Valid() && pending.request.callbackId == x && d.MaySchedule(pending.request)
    requires cleanup.Cleanup? && cleanup.callback == x
    ensures SameKeys(d, s, EndRemoveSchedule(s, pending, cleanup, outcome), x)
  {
    assert d.Owner(d.ScheduleKey(x)) == x;
  }

  lemma EndRemoveScheduleSlice(d: Discipline, s: Service, x: Id, pending: Pending, cleanup: Key, outcome: Outcome)
    requires d.Valid() && Slice(d, s, x) && FlightHolds(d, s, x, RemovingSchedule(pending, cleanup))
    ensures Slice(d, EndRemoveSchedule(s, pending, cleanup, outcome), x)
  {
    assert d.Owner(d.ScheduleKey(x)) == x;
  }

  lemma EndRemoveScheduleIsGood(d: Discipline, s: Service, x: Id, pending: Pending, cleanup: Key, outcome: Outcome)
    requires d.Valid() && Slice(d, s, x) && FlightHolds(d, s, x, RemovingSchedule(pending, cleanup))
    ensures Good(d, s, EndRemoveSchedule(s, pending, cleanup, outcome), x, Nothing)
  {
    EndRemoveScheduleTouches(d, s, x, pending, cleanup, outcome);
    EndRemoveScheduleSlice(d, s, x, pending, cleanup, outcome);
  }

  /** Results are filed under keys of the callback they are about. */
  ghost predicate ResultsOwned(d: Discipline, s: Service) {
    forall k :: k in s.results ==> s.results[k].request.callbackId == d.Owner(k)
  }

  /** After forgetting x, nothing but its tombstones is left. */
  lemma ForgottenIsGood(d: Discipline, s: Service, x: Id)
    requires d.Valid() && Slice(d, s, x) && ResultsOwned(d, s) && x in s.records
    ensures Good(d, s, Forgotten(s, x), x, Nothing)
  {
    assert d.Owner(d.ScheduleKey(x)) == x;
  }

  lemma RemovalStartedIsGood(d: Discipline, s: Service, x: Id, cleanup: Key, now: Time)
    requires d.Valid() && Slice(d, s, x) && cleanup.Cleanup? && cleanup.callback == x
    requires x in s.records && (s.records[x].status.Scheduled? || s.records[x].status.CancellationRequired?)
    ensures var t := s.(records := s.records[x := WithStatus(s.records[x], CancellationPending, now)],
                        pendingCancellations := s.pendingCancellations[x := cleanup]);
            Good(d, s, t, x, Calling(RemovingRecord(s.records[x], cleanup)))
  {
  }

  lemma BeginRemoveRecordIsGood(d: Discipline, s: Service, x: Id, now: Time, ephemeral: bool)
    requires d.Valid() && Slice(d, s, x) && ResultsOwned(d, s)
    ensures var r := BeginRemoveRecord(s, x, now, ephemeral);
            Good(d, s, r.0, x, r.1)
  {
    var r := BeginRemoveRecord(s, x, now, ephemeral);
    if x !in s.records {
      UnchangedIsGood(d, s, x, r.1);
    } else if s.records[x].status.Canceled? || s.records[x].status.Blocked?
              || (s.records[x].status.Dispatched? && !ephemeral)
    {
      ForgottenIsGood(d, s, x);
    } else if s.records[x].status.CancellationPending? {
      UnchangedIsGood(d, s, x, r.1);
    } else {
      assert Incarnated(s.records[x].status);
      var cleanup := MintedKey(s, x, s.incarnations[x]);
      var u := Minted(s, x, s.incarnations[x]);
      MintedIsGood(d, s, x, s.incarnations[x], Nothing);
      if s.records[x].status.Dispatched? {
        MintedIsGood(d, s, x, s.incarnations[x], r.1);
      } else {
        RemovalStartedIsGood(d, u, x, cleanup, now);
        TouchesOnlyTwice(d, s, u, r.0, x);
      }
    }
  }

  lemma EndRemoveRecordIsGood(d: Discipline, s: Service, x: Id, record: Record, cleanup: Key, outcome: Outcome, now: Time)
    requires d.Valid() && Slice(d, s, x) && ResultsOwned(d, s) && FlightHolds(d, s, x, RemovingRecord(record, cleanup))
    ensures Good(d, s, EndRemoveRecord(s, x, record, cleanup, outcome, now), x, Nothing)
  {
    if outcome.Done? {
      ForgottenIsGood(d, s, x);
    } else if record.status.Dispatched? {
      UnchangedIsGood(d, s, x, Nothing);
    } else {
      CancellationFailedIsGood(d, s, x, record, cleanup, now);
    }
  }

  lemma CancellationFailedIsGood(d: Discipline, s: Service, x: Id, existing: Record, key: Key, now: Time)
    requires d.Valid() && Slice(d, s, x) && x in s.pendingCancellations && s.pendingCancellations[x] == key
    requires existing.request == s.records[x].request
    ensures Good(d, s, CancellationFailed(s, existing, x, key, now), x, Nothing)
  {
    assert d.Owner(d.ScheduleKey(x)) == x;
  }
}
