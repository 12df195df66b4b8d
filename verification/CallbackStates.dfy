/** The callback service's maps as one value, and what each stretch between two awaits does to them. Every operation is
    a first stretch up to the adapter call and a second one for the adapter's answer. */
module CallbackStates {
  import opened Common

  type Id = string
  type Time = int

  /** A caller's idempotency key, or one minted for teardown as `cleanup:<callback>:<incarnation>:<attempt>`. */
  datatype Key = Caller(text: string) | Cleanup(callback: Id, incarnation: nat, attempt: nat)

  datatype Request = Request(callbackId: Id, leadId: int, runAt: Time, details: int, key: Key)

  datatype Fingerprint = OfSchedule(request: Request) | OfCancel(callbackId: Id)

  datatype Status = Scheduled | CancellationPending | CancellationRequired | Canceled | Dispatched | Blocked

  datatype Reason = CallbackTimeInvalid | PolicyChanged | Policy(code: int)

  datatype Record = Record(request: Request, status: Status, reference: Option<string>, reasons: seq<Reason>, updatedAt: Time)

  datatype Pending = Pending(request: Request, incarnation: nat)

  datatype Error = KeyReused | KeyFailed | Inconsistent | CapacityReached | AlreadyScheduled | OutcomePending
                 | EmptyKey | NotFound | NotCancelable | MissingEntry

  datatype Service = Service(
    records: map<Id, Record>,
    fingerprints: map<Key, Fingerprint>,
    results: map<Key, Record>,
    pendingSchedules: map<Key, Pending>,
    pendingCancellations: map<Id, Key>,
    scheduleCancellations: map<Key, Key>,
    failed: map<Key, Id>,
    incarnations: map<Id, nat>,
    attempts: map<(Id, nat), nat>,
    sequence: nat)

  /** The adapter call an operation is waiting for. */
  datatype Flight =
    | Scheduling(pending: Pending)
    | Canceling(existing: Record, key: Key)
    | Dialing(record: Record)
    | RemovingSchedule(pending: Pending, cleanup: Key)
    | RemovingRecord(record: Record, cleanup: Key)

  /** How a first stretch ends: with an answer or an error, or waiting for an adapter. */
  datatype Reply = Answered(record: Record) | Refused(error: Error) | Calling(flight: Flight) | Nothing

  /** An adapter's answer. Any other exception, and a cancelled task, skip the second stretch. */
  datatype Outcome = Done(reference: string) | Rejected

  /** The service's bounds, and whether its scheduler only keeps operations in memory and can be cleared of them. */
  datatype Config = Config(maxCallbacks: nat, maxFuture: int, ephemeral: bool)

  type ValidConfig = c: Config | c.maxCallbacks >= 1 && c.maxFuture > 0 witness Config(1, 1, true)

  predicate Active(status: Status) {
    status.Scheduled? || status.CancellationPending? || status.CancellationRequired?
  }

  function ActiveIds(s: Service): set<Id> {
    (set id | id in s.records && Active(s.records[id].status))
    + set key | key in s.pendingSchedules :: s.pendingSchedules[key].request.callbackId
  }

  predicate Blank(text: string) {
    forall i :: 0 <= i < |text| ==> text[i] in {' ', '\t', '\n', '\r'}
  }

  /** Nothing for a key never decided; what was decided under the same input; or why the key cannot be used. */
  function CheckOperation(s: Service, key: Key, fingerprint: Fingerprint): Result<Option<Record>, Error> {
    if key !in s.fingerprints then Success(None)
    else if s.fingerprints[key] != fingerprint then Failure(KeyReused)
    else if key in s.failed then Failure(KeyFailed)
    else if key in s.results then Success(Some(s.results[key]))
    else Failure(Inconsistent)
  }

  function Stored(s: Service, key: Key, fingerprint: Fingerprint, record: Record): Service {
    s.(fingerprints := s.fingerprints[key := fingerprint],
       results := s.results[key := record],
       records := s.records[record.request.callbackId := record])
  }

  function BlockedRecord(request: Request, reasons: seq<Reason>, now: Time): Record {
    Record(request, Blocked, None, reasons, now)
  }

  function Tombstoned(s: Service, key: Key, id: Id): Service {
    s.(fingerprints := s.fingerprints[key := OfCancel(id)], failed := s.failed[key := id])
  }

  function WithStatus(r: Record, status: Status, now: Time): Record {
    r.(status := status, updatedAt := now)
  }

  /** A cancellation that the scheduler will never accept under this key. */
  function CancellationFailed(s: Service, existing: Record, id: Id, key: Key, now: Time): Service {
    Tombstoned(s.(records := s.records[id := WithStatus(existing, CancellationRequired, now)],
                  pendingCancellations := s.pendingCancellations - {id}), key, id)
  }

  function NextAttempt(s: Service, id: Id, incarnation: nat): nat {
    1 + if (id, incarnation) in s.attempts then s.attempts[(id, incarnation)] else 0
  }

  function Minted(s: Service, id: Id, incarnation: nat): Service {
    s.(attempts := s.attempts[(id, incarnation) := NextAttempt(s, id, incarnation)])
  }

  function MintedKey(s: Service, id: Id, incarnation: nat): Key {
    Cleanup(id, incarnation, NextAttempt(s, id, incarnation))
  }

  predicate TimeInvalid(request: Request, now: Time, config: Config) {
    request.runAt <= now || request.runAt > now + config.maxFuture
  }

  // ---- schedule ----

  function BeginSchedule(s: Service, request: Request, now: Time, reasons: seq<Reason>, config: Config): (Service, Reply) {
    match CheckOperation(s, request.key, OfSchedule(request))
    case Failure(error) => (s, Refused(error))
    case Success(Some(record)) => (s, Answered(record))
    case Success(None) =>
      if request.key in s.pendingSchedules then
        if s.pendingSchedules[request.key].request != request then (s, Refused(KeyReused))
        else (s, Calling(Scheduling(s.pendingSchedules[request.key])))
      else Considered(s, request, now, reasons, config)
  }

  /** A schedule under a key never seen before. */
  function Considered(s: Service, request: Request, now: Time, reasons: seq<Reason>, config: Config): (Service, Reply) {
    if TimeInvalid(request, now, config) then BlockedReply(s, request, [CallbackTimeInvalid], now)
    else
      match Refusal(s, request.callbackId, config)
      case Some(error) => (s, Refused(error))
      case None => if reasons != [] then BlockedReply(s, request, reasons, now) else Admitted(s, request)
  }

  function BlockedReply(s: Service, request: Request, reasons: seq<Reason>, now: Time): (Service, Reply) {
    var record := BlockedRecord(request, reasons, now);
    (Stored(s, request.key, OfSchedule(request), record), Answered(record))
  }

  /** Why no further schedule of this callback can be taken on. */
  function Refusal(s: Service, id: Id, config: Config): Option<Error> {
    var active := ActiveIds(s);
    if id !in active && |active| >= config.maxCallbacks then Some(CapacityReached)
    else if id in s.records && Active(s.records[id].status) then Some(AlreadyScheduled)
    else if id in active then Some(OutcomePending)
    else None
  }

  function Admitted(s: Service, request: Request): (Service, Reply) {
    var pending := Pending(request, s.sequence + 1);
    (s.(sequence := s.sequence + 1, pendingSchedules := s.pendingSchedules[request.key := pending]),
     Calling(Scheduling(pending)))
  }

  function EndSchedule(s: Service, pending: Pending, outcome: Outcome, now: Time): Service {
    var request := pending.request;
    var popped := s.(pendingSchedules := s.pendingSchedules - {request.key});
    match outcome
    case Rejected => popped
    case Done(reference) =>
      Stored(popped.(incarnations := s.incarnations[request.callbackId := pending.incarnation]),
             request.key, OfSchedule(request), Record(request, Scheduled, Some(reference), [], now))
  }

  // ---- cancel ----

  function BeginCancel(s: Service, id: Id, key: Key, now: Time): (Service, Reply) {
    if key.Caller? && Blank(key.text) then (s, Refused(EmptyKey))
    else
      match CheckOperation(s, key, OfCancel(id))
      case Failure(error) => (s, Refused(error))
      case Success(Some(record)) => (s, Answered(record))
      case Success(None) =>
        if id !in s.records then (s, Refused(NotFound))
        else
          var existing := s.records[id];
          if existing.status.CancellationPending? then
            if id in s.pendingCancellations && s.pendingCancellations[id] == key then (s, Calling(Canceling(existing, key)))
            else (s, Refused(OutcomePending))
          else if existing.status.Scheduled? || existing.status.CancellationRequired? then
            (s.(records := s.records[id := WithStatus(existing, CancellationPending, now)],
                pendingCancellations := s.pendingCancellations[id := key]),
             Calling(Canceling(existing, key)))
          else (s, Refused(NotCancelable))
  }

  function EndCancel(s: Service, id: Id, existing: Record, key: Key, outcome: Outcome, now: Time): Service {
    match outcome
    case Rejected => CancellationFailed(s, existing, id, key, now)
    case Done(reference) =>
      Stored(s.(pendingCancellations := s.pendingCancellations - {id}), key, OfCancel(id),
             WithStatus(existing, Canceled, now).(reference := Some(reference)))
  }

  // ---- dispatch ----

  function BeginDispatch(s: Service, id: Id, now: Time, reasons: seq<Reason>): (Service, Reply) {
    if id !in s.records || !s.records[id].status.Scheduled? || s.records[id].request.runAt > now then (s, Nothing)
    else
      var record := s.records[id];
      if reasons == [] then (s, Calling(Dialing(record)))
      else
        var updated := WithStatus(record, Blocked, now).(reasons := [PolicyChanged] + reasons);
        (s.(records := s.records[id := updated]), Answered(updated))
  }

  /** Nothing changes when the record was removed while the dial was in flight. */
  function EndDispatch(s: Service, id: Id, record: Record, reference: string, now: Time): Service {
    if id !in s.records then s
    else s.(records := s.records[id := WithStatus(record, Dispatched, now).(reference := Some(reference))])
  }

  // ---- teardown ----

  function BeginRemoveSchedule(s: Service, key: Key): (Service, Reply) {
    if key !in s.pendingSchedules then (s, Nothing)
    else
      var pending := s.pendingSchedules[key];
      var id := pending.request.callbackId;
      if key in s.scheduleCancellations then (s, Calling(RemovingSchedule(pending, s.scheduleCancellations[key])))
      else
        var cleanup := MintedKey(s, id, pending.incarnation);
        (Minted(s, id, pending.incarnation).(scheduleCancellations := s.scheduleCancellations[key := cleanup]),
         Calling(RemovingSchedule(pending, cleanup)))
  }

  function EndRemoveSchedule(s: Service, pending: Pending, cleanup: Key, outcome: Outcome): Service {
    var key, id := pending.request.key, pending.request.callbackId;
    var popped := s.(scheduleCancellations := s.scheduleCancellations - {key});
    match outcome
    case Rejected => Tombstoned(popped, cleanup, id)
    case Done(_) =>
      popped.(pendingSchedules := s.pendingSchedules - {key}, attempts := s.attempts - {(id, pending.incarnation)})
  }

  /** Every operation decided about a callback. */
  function OperationKeys(s: Service, id: Id): set<Key> {
    set key | key in s.results && s.results[key].request.callbackId == id
  }

  function Forgotten(s: Service, id: Id): Service {
    s.(pendingCancellations := s.pendingCancellations - {id},
       fingerprints := s.fingerprints - OperationKeys(s, id),
       results := s.results - OperationKeys(s, id),
       incarnations := s.incarnations - {id},
       attempts := if id in s.incarnations then s.attempts - {(id, s.incarnations[id])} else s.attempts,
       records := s.records - {id})
  }

  /** The two lookups that have no default: the pending cancellation's key and the callback's incarnation. */
  function BeginRemoveRecord(s: Service, id: Id, now: Time, ephemeral: bool): (Service, Reply) {
    if id !in s.records then (s, Nothing)
    else
      var record := s.records[id];
      if record.status.Canceled? || record.status.Blocked? || (record.status.Dispatched? && !ephemeral) then
        (Forgotten(s, id), Nothing)
      else if record.status.CancellationPending? then
        if id !in s.pendingCancellations then (s, Refused(MissingEntry))
        else (s, Calling(RemovingRecord(record, s.pendingCancellations[id])))
      else if id !in s.incarnations then (s, Refused(MissingEntry))
      else CleanupStarted(s, id, now)
  }

  /** A cleanup cancellation under a new key. A dispatched record keeps its status. */
  function CleanupStarted(s: Service, id: Id, now: Time): (Service, Reply)
    requires id in s.records && id in s.incarnations
  {
    var record := s.records[id];
    var cleanup := MintedKey(s, id, s.incarnations[id]);
    var minted := Minted(s, id, s.incarnations[id]);
    (if record.status.Dispatched? then minted
     else minted.(records := s.records[id := WithStatus(record, CancellationPending, now)],
                  pendingCancellations := s.pendingCancellations[id := cleanup]),
     Calling(RemovingRecord(record, cleanup)))
  }

  /** A rejected cancellation leaves a tombstone, except for a callback that was already dispatched. */
  function EndRemoveRecord(s: Service, id: Id, record: Record, cleanup: Key, outcome: Outcome, now: Time): Service {
    match outcome
    case Done(_) => Forgotten(s, id)
    case Rejected => if record.status.Dispatched? then s else CancellationFailed(s, record, id, cleanup, now)
  }

  predicate Live(s: Service, id: Id) {
    id in s.records || exists key :: key in s.pendingSchedules && s.pendingSchedules[key].request.callbackId == id
  }

  function Reclaimable(s: Service, prefix: Id): set<Key> {
    set key | key in s.failed && prefix <= s.failed[key] && !Live(s, s.failed[key])
  }

  function ReleaseFailed(s: Service, prefix: Id): Service {
    var keys := Reclaimable(s, prefix);
    s.(failed := s.failed - keys, fingerprints := s.fingerprints - keys, results := s.results - keys)
  }
}
