/** Every interleaving of schedules, cancels, dials and teardowns, one atomic stretch at a time. At most one operation of
    a callback is past its lock, which is what the lock table guarantees. */
module CallbackMachine {
  import opened Common
  import opened CallbackStates
  import opened CallbackSlices

  /** The maps, the adapter call each callback's operation is waiting for, and every cleanup key ever minted. */
  datatype World = World(service: Service, flights: map<Id, Flight>, minted: set<Key>)

  const EMPTY: Service := Service(map[], map[], map[], map[], map[], map[], map[], map[], map[], 0)

  datatype Action =
    | Schedule(request: Request, now: Time, reasons: seq<Reason>)
    | Cancel(id: Id, key: Key, now: Time)
    | Dispatch(id: Id, now: Time, reasons: seq<Reason>)
    | RemoveSchedule(id: Id)
    | RemoveRecord(id: Id, now: Time)
    | Answer(id: Id, outcome: Outcome, now: Time)
    | Lose(id: Id)

  function Target(a: Action): Id {
    if a.Schedule? then a.request.callbackId else a.id
  }

  /** A first stretch needs the callback's lock. A rejected dial, like any other error or cancellation, skips the
      second stretch: Lose covers it. */
  predicate Enabled(d: Discipline, w: World, a: Action) {
    match a
    case Schedule(request, _, _) => request.callbackId !in w.flights && d.MaySchedule(request)
    case Cancel(id, key, _) => id !in w.flights && d.MayCancel(id, key)
    case Dispatch(id, _, _) => id !in w.flights
    case RemoveSchedule(id) => id !in w.flights
    case RemoveRecord(id, _) => id !in w.flights
    case Answer(id, outcome, _) => id in w.flights && (w.flights[id].Dialing? ==> outcome.Done?)
    case Lose(id) => id in w.flights
  }

  /** What a first stretch does. */
  function Begun(d: Discipline, s: Service, a: Action, config: Config): (Service, Reply)
    requires !a.Answer? && !a.Lose?
  {
    match a
    case Schedule(request, now, reasons) => BeginSchedule(s, request, now, reasons, config)
    case Cancel(id, key, now) => BeginCancel(s, id, key, now)
    case Dispatch(id, now, reasons) => BeginDispatch(s, id, now, reasons)
    case RemoveSchedule(id) => BeginRemoveSchedule(s, d.ScheduleKey(id))
    case RemoveRecord(id, now) => BeginRemoveRecord(s, id, now, config.ephemeral)
  }

  /** What a second stretch does. */
  function Ended(s: Service, id: Id, flight: Flight, outcome: Outcome, now: Time): Service
    requires flight.Dialing? ==> outcome.Done?
  {
    match flight
    case Scheduling(pending) => EndSchedule(s, pending, outcome, now)
    case Canceling(existing, key) => EndCancel(s, id, existing, key, outcome, now)
    case Dialing(record) => EndDispatch(s, id, record, outcome.reference, now)
    case RemovingSchedule(pending, cleanup) => EndRemoveSchedule(s, pending, cleanup, outcome)
    case RemovingRecord(record, cleanup) => EndRemoveRecord(s, id, record, cleanup, outcome, now)
  }

  /** The cleanup key a step mints, if any. */
  function Mints(d: Discipline, s: Service, a: Action, config: Config): Option<Key> {
    match a
    case RemoveSchedule(id) =>
      var key := d.ScheduleKey(id);
      if key in s.pendingSchedules && key !in s.scheduleCancellations then
        Some(MintedKey(s, s.pendingSchedules[key].request.callbackId, s.pendingSchedules[key].incarnation))
      else None
    case RemoveRecord(id, _) =>
      if id in s.records && id in s.incarnations
         && Incarnated(s.records[id].status) && !s.records[id].status.CancellationPending?
         && (s.records[id].status.Dispatched? ==> config.ephemeral)
      then Some(MintedKey(s, id, s.incarnations[id]))
      else None
    case _ => None
  }

  function Step(d: Discipline, w: World, a: Action, config: Config): World
    requires a.Answer? ==> a.id in w.flights && (w.flights[a.id].Dialing? ==> a.outcome.Done?)
  {
    match a
    case Answer(id, outcome, now) =>
      w.(service := Ended(w.service, id, w.flights[id], outcome, now), flights := w.flights - {id})
    case Lose(id) => w.(flights := w.flights - {id})
    case _ =>
      var (s, reply) := Begun(d, w.service, a, config);
      var minted := Mints(d, w.service, a, config);
      World(s, if reply.Calling? then w.flights[Target(a) := reply.flight] else w.flights,
            if minted.Some? then w.minted + {minted.value} else w.minted)
  }

  // ---- What every step keeps. ----

  ghost predicate Slices(d: Discipline, s: Service) {
    forall x :: Slice(d, s, x)
  }

  ghost predicate Flights(d: Discipline, s: Service, flights: map<Id, Flight>) {
    forall x :: x in flights ==> FlightHolds(d, s, x, flights[x])
  }

  /** Incarnation n of x is still in use. */
  predicate Current(d: Discipline, s: Service, x: Id, n: nat) {
    || (x in s.incarnations && s.incarnations[x] == n)
    || (d.ScheduleKey(x) in s.pendingSchedules && s.pendingSchedules[d.ScheduleKey(x)].incarnation == n)
  }

  /** Cleanup keys of an incarnation in use are numbered up to its attempt count. */
  ghost predicate Numbered(d: Discipline, s: Service, key: Key) {
    && key.Cleanup? && key.incarnation <= s.sequence
    && (Current(d, s, key.callback, key.incarnation) ==>
          (key.callback, key.incarnation) in s.attempts && key.attempt <= s.attempts[(key.callback, key.incarnation)])
  }

  ghost predicate Mint(d: Discipline, w: World) {
    forall key :: key in w.minted ==> Numbered(d, w.service, key)
  }

  ghost predicate Inv(d: Discipline, w: World, config: Config) {
    && Slices(d, w.service) && Flights(d, w.service, w.flights) && Mint(d, w)
    && |ActiveIds(w.service)| <= config.maxCallbacks
  }

  lemma SlicesOwnResults(d: Discipline, s: Service)
    requires Slices(d, s)
    ensures ResultsOwned(d, s)
  {
    forall k | k in s.results ensures s.results[k].request.callbackId == d.Owner(k) {
      assert Slice(d, s, d.Owner(k));
    }
  }

  lemma BegunIsGood(d: Discipline, s: Service, a: Action, config: Config)
    requires d.Valid() && Slices(d, s) && !a.Answer? && !a.Lose?
    requires a.Schedule? ==> d.MaySchedule(a.request)
    requires a.Cancel? ==> d.MayCancel(a.id, a.key)
    ensures var r := Begun(d, s, a, config);
            Good(d, s, r.0, Target(a), r.1)
  {
    assert Slice(d, s, Target(a));
    SlicesOwnResults(d, s);
    match a
    case Schedule(request, now, reasons) => BeginScheduleIsGood(d, s, request, now, reasons, config);
    case Cancel(id, key, now) => BeginCancelIsGood(d, s, id, key, now);
    case Dispatch(id, now, reasons) => BeginDispatchIsGood(d, s, id, now, reasons);
    case RemoveSchedule(id) => BeginRemoveScheduleIsGood(d, s, id);
    case RemoveRecord(id, now) => BeginRemoveRecordIsGood(d, s, id, now, config.ephemeral);
  }

  lemma EndedIsGood(d: Discipline, s: Service, id: Id, flight: Flight, outcome: Outcome, now: Time)
    requires d.Valid() && Slices(d, s) && FlightHolds(d, s, id, flight) && (flight.Dialing? ==> outcome.Done?)
    ensures Good(d, s, Ended(s, id, flight, outcome, now), id, Nothing)
  {
    assert Slice(d, s, id);
    SlicesOwnResults(d, s);
    match flight
    case Scheduling(pending) => EndScheduleIsGood(d, s, id, pending, outcome, now);
    case Canceling(existing, key) => EndCancelIsGood(d, s, id, existing, key, outcome, now);
    case Dialing(record) => EndDispatchIsGood(d, s, id, record, outcome.reference, now);
    case RemovingSchedule(pending, cleanup) => EndRemoveScheduleIsGood(d, s, id, pending, cleanup, outcome);
    case RemovingRecord(record, cleanup) => EndRemoveRecordIsGood(d, s, id, record, cleanup, outcome, now);
  }

  /** Every step is good for its own callback. */
  lemma StepIsGood(d: Discipline, w: World, a: Action, config: Config) returns (reply: Reply)
    requires d.Valid() && Slices(d, w.service) && Flights(d, w.service, w.flights) && Enabled(d, w, a)
    ensures Good(d, w.service, Step(d, w, a, config).service, Target(a), reply)
    ensures Step(d, w, a, config).flights ==
            if reply.Calling? then w.flights[Target(a) := reply.flight] else w.flights - {Target(a)}
  {
    match a
    case Answer(id, outcome, now) =>
      EndedIsGood(d, w.service, id, w.flights[id], outcome, now);
      reply := Nothing;
    case Lose(id) =>
      reply := Nothing;
      assert Slice(d, w.service, id);
      UnchangedIsGood(d, w.service, id, reply);
    case _ =>
      BegunIsGood(d, w.service, a, config);
      reply := Begun(d, w.service, a, config).1;
      assert w.flights - {Target(a)} == w.flights;
  }

  lemma GoodKeepsSlices(d: Discipline, s: Service, t: Service, x: Id, reply: Reply)
    requires d.Valid() && Slices(d, s) && Good(d, s, t, x, reply)
    ensures Slices(d, t)
  {
    forall y ensures Slice(d, t, y) {
      assert Slice(d, s, y);
      if y != x { SliceElsewhere(d, s, t, x, y); }
    }
  }

  lemma GoodKeepsFlights(d: Discipline, s: Service, t: Service, x: Id, reply: Reply, flights: map<Id, Flight>)
    requires d.Valid() && Flights(d, s, flights) && Good(d, s, t, x, reply)
    ensures Flights(d, t, if reply.Calling? then flights[x := reply.flight] else flights - {x})
  {
    forall y | y in flights && y != x ensures FlightHolds(d, t, y, flights[y]) {
      FlightElsewhere(d, s, t, x, y, flights[y]);
    }
  }

  // ---- Capacity. ----

  predicate IsActive(d: Discipline, s: Service, x: Id) {
    (x in s.records && Active(s.records[x].status)) || d.ScheduleKey(x) in s.pendingSchedules
  }

  lemma ActiveIdsAre(d: Discipline, s: Service, x: Id)
    requires d.Valid() && Slices(d, s)
    ensures x in ActiveIds(s) <==> IsActive(d, s, x)
  {
    forall key | key in s.pendingSchedules ensures key == d.ScheduleKey(s.pendingSchedules[key].request.callbackId) {
      assert Slice(d, s, d.Owner(key));
    }
    if d.ScheduleKey(x) in s.pendingSchedules {
      assert d.Owner(d.ScheduleKey(x)) == x && Slice(d, s, x);
    }
  }

  lemma ConsideredActivates(d: Discipline, s: Service, request: Request, now: Time, reasons: seq<Reason>, config: Config)
    requires d.MaySchedule(request)
    ensures IsActive(d, Considered(s, request, now, reasons, config).0, request.callbackId) ==>
              IsActive(d, s, request.callbackId) || |ActiveIds(s)| < config.maxCallbacks
  {
    RefusalBounds(s, request.callbackId, config);
  }

  lemma RefusalBounds(s: Service, id: Id, config: Config)
    ensures Refusal(s, id, config).None? ==> |ActiveIds(s)| < config.maxCallbacks
  {
  }

  lemma RemovalActivates(d: Discipline, s: Service, id: Id, now: Time, ephemeral: bool)
    ensures IsActive(d, BeginRemoveRecord(s, id, now, ephemeral).0, id) ==> IsActive(d, s, id)
  {
    if id in s.records && id in s.incarnations && s.records[id].status.Dispatched? {
      assert CleanupStarted(s, id, now).0.records == s.records;
    }
  }

  /** Only an admitted schedule makes a callback active, and only below the bound. */
  lemma BegunActivates(d: Discipline, s: Service, a: Action, config: Config)
    requires d.Valid() && Slices(d, s) && !a.Answer? && !a.Lose?
    requires a.Schedule? ==> d.MaySchedule(a.request)
    ensures IsActive(d, Begun(d, s, a, config).0, Target(a)) ==>
              IsActive(d, s, Target(a)) || |ActiveIds(s)| < config.maxCallbacks
  {
    match a
    case Schedule(request, now, reasons) => ConsideredActivates(d, s, request, now, reasons, config);
    case Cancel(id, key, now) => assert IsActive(d, BeginCancel(s, id, key, now).0, id) ==> IsActive(d, s, id);
    case Dispatch(id, now, reasons) => assert IsActive(d, BeginDispatch(s, id, now, reasons).0, id) ==> IsActive(d, s, id);
    case RemoveSchedule(id) =>
    case RemoveRecord(id, now) => RemovalActivates(d, s, id, now, config.ephemeral);
  }

  lemma EndedActivates(d: Discipline, s: Service, id: Id, flight: Flight, outcome: Outcome, now: Time)
    requires d.Valid() && Slices(d, s) && FlightHolds(d, s, id, flight) && (flight.Dialing? ==> outcome.Done?)
    ensures IsActive(d, Ended(s, id, flight, outcome, now), id) ==> IsActive(d, s, id)
  {
    assert Slice(d, s, id);
  }

  lemma CapacityKept(d: Discipline, s: Service, t: Service, x: Id, reply: Reply, max: nat)
    requires d.Valid() && Slices(d, s) && Good(d, s, t, x, reply)
    requires |ActiveIds(s)| <= max
    requires IsActive(d, t, x) ==> IsActive(d, s, x) || |ActiveIds(s)| < max
    ensures |ActiveIds(t)| <= max
  {
    GoodKeepsSlices(d, s, t, x, reply);
    var bound := if IsActive(d, t, x) then ActiveIds(s) + {x} else ActiveIds(s);
    ActiveIdsAre(d, s, x);
    forall y | y in ActiveIds(t) ensures y in bound {
      ActiveIdsAre(d, t, y);
      ActiveIdsAre(d, s, y);
      assert d.Owner(d.ScheduleKey(y)) == y;
    }
    Subset(ActiveIds(t), bound);
  }

  lemma {:induction false} Subset<T>(a: set<T>, b: set<T>)
    requires a <= b
    ensures |a| <= |b|
  {
    if a != {} {
      var x :| x in a;
      Subset(a - {x}, b - {x});
    }
  }

  // ---- Cleanup keys. ----

  lemma BeginScheduleFrame(s: Service, request: Request, now: Time, reasons: seq<Reason>, config: Config)
    ensures ScheduleFrame(s, BeginSchedule(s, request, now, reasons, config).0, request)
  {
    assert ScheduleFrame(s, s, request);
    ConsideredFrame(s, request, now, reasons, config);
  }

  lemma ConsideredFrame(s: Service, request: Request, now: Time, reasons: seq<Reason>, config: Config)
    ensures ScheduleFrame(s, Considered(s, request, now, reasons, config).0, request)
  {
    assert ScheduleFrame(s, s, request);
    assert ScheduleFrame(s, Admitted(s, request).0, request);
    assert ScheduleFrame(s, BlockedReply(s, request, [CallbackTimeInvalid], now).0, request);
    assert ScheduleFrame(s, BlockedReply(s, request, reasons, now).0, request);
  }

  predicate ScheduleFrame(s: Service, t: Service, request: Request) {
    && t.incarnations == s.incarnations && t.attempts == s.attempts && t.sequence >= s.sequence && t.failed == s.failed
    && t.scheduleCancellations == s.scheduleCancellations
    && (t.records == s.records || (request.callbackId in t.records && t.records[request.callbackId].status.Blocked?))
    && (t.pendingSchedules == s.pendingSchedules
        || t.pendingSchedules == s.pendingSchedules[request.key := Pending(request, s.sequence + 1)])
  }

  lemma ScheduleNumbers(d: Discipline, s: Service, request: Request, now: Time, reasons: seq<Reason>, config: Config,
                        key: Key)
    requires d.Valid() && Numbered(d, s, key) && key.callback == request.callbackId
    requires d.MaySchedule(request)
    ensures Numbered(d, BeginSchedule(s, request, now, reasons, config).0, key)
  {
    BeginScheduleFrame(s, request, now, reasons, config);
    var t := BeginSchedule(s, request, now, reasons, config).0;
    FrameNumbers(d, s, t, request, key);
  }

  lemma FrameNumbers(d: Discipline, s: Service, t: Service, request: Request, key: Key)
    requires Numbered(d, s, key) && d.MaySchedule(request)
    requires ScheduleFrame(s, t, request)
    ensures Numbered(d, t, key)
  {
  }

  lemma CancelNumbers(d: Discipline, s: Service, id: Id, cancelKey: Key, now: Time, key: Key)
    requires Numbered(d, s, key)
    ensures Numbered(d, BeginCancel(s, id, cancelKey, now).0, key)
  {
  }

  /** Minting for an incarnation in use numbers every earlier key of it, and the new one. */
  lemma MintingNumbers(d: Discipline, s: Service, id: Id, incarnation: nat, key: Key)
    requires Current(d, s, id, incarnation) && Numbered(d, s, key)
    ensures Numbered(d, Minted(s, id, incarnation), key)
    ensures MintedKey(s, id, incarnation) != key
  {
  }

  lemma RemoveScheduleNumbers(d: Discipline, s: Service, id: Id, config: Config, key: Key)
    requires d.Valid() && Slice(d, s, id) && Numbered(d, s, key) && key.callback == id
    ensures Numbered(d, BeginRemoveSchedule(s, d.ScheduleKey(id)).0, key)
    ensures Mints(d, s, RemoveSchedule(id), config) != Some(key)
  {
    var scheduleKey := d.ScheduleKey(id);
    assert d.Owner(scheduleKey) == id;
    if scheduleKey in s.pendingSchedules && scheduleKey !in s.scheduleCancellations {
      var incarnation := s.pendingSchedules[scheduleKey].incarnation;
      MintingNumbers(d, s, id, incarnation, key);
      SameNumbers(d, Minted(s, id, incarnation), BeginRemoveSchedule(s, scheduleKey).0, key);
    }
  }

  lemma SameNumbers(d: Discipline, s: Service, t: Service, key: Key)
    requires Numbered(d, s, key)
    requires t.incarnations == s.incarnations && t.attempts == s.attempts && t.sequence == s.sequence
    requires t.pendingSchedules == s.pendingSchedules
    ensures Numbered(d, t, key)
  {
  }

  lemma CleanupNumbers(d: Discipline, s: Service, id: Id, now: Time, key: Key)
    requires Numbered(d, s, key) && id in s.records && id in s.incarnations
    ensures Numbered(d, CleanupStarted(s, id, now).0, key)
    ensures MintedKey(s, id, s.incarnations[id]) != key
  {
    var minted := Minted(s, id, s.incarnations[id]);
    MintingNumbers(d, s, id, s.incarnations[id], key);
    SameNumbers(d, minted, CleanupStarted(s, id, now).0, key);
  }

  lemma ForgottenNumbers(d: Discipline, s: Service, id: Id, key: Key)
    requires d.Valid() && Slice(d, s, id) && id in s.records && Numbered(d, s, key)
    ensures Numbered(d, Forgotten(s, id), key)
  {
    assert d.Owner(d.ScheduleKey(id)) == id;
  }

  lemma RemoveRecordNumbers(d: Discipline, s: Service, id: Id, now: Time, config: Config, key: Key)
    requires d.Valid() && Slice(d, s, id) && Numbered(d, s, key) && key.callback == id
    ensures Numbered(d, BeginRemoveRecord(s, id, now, config.ephemeral).0, key)
    ensures Mints(d, s, RemoveRecord(id, now), config) != Some(key)
  {
    if id in s.records {
      ForgottenNumbers(d, s, id, key);
      if id in s.incarnations { CleanupNumbers(d, s, id, now, key); }
    }
  }

  /** A first stretch keeps the numbering of its callback's keys, and mints only above it. */
  lemma BegunNumbers(d: Discipline, s: Service, a: Action, config: Config, key: Key)
    requires d.Valid() && Slices(d, s) && !a.Answer? && !a.Lose? && Numbered(d, s, key) && key.callback == Target(a)
    requires a.Schedule? ==> d.MaySchedule(a.request)
    ensures Numbered(d, Begun(d, s, a, config).0, key)
    ensures Mints(d, s, a, config) != Some(key)
  {
    assert Slice(d, s, Target(a));
    match a
    case Schedule(request, now, reasons) => ScheduleNumbers(d, s, request, now, reasons, config, key);
    case Cancel(id, cancelKey, now) => CancelNumbers(d, s, id, cancelKey, now, key);
    case Dispatch(id, now, reasons) =>
    case RemoveSchedule(id) => RemoveScheduleNumbers(d, s, id, config, key);
    case RemoveRecord(id, now) => RemoveRecordNumbers(d, s, id, now, config, key);
  }

  lemma MintIsNumbered(d: Discipline, s: Service, a: Action, config: Config)
    requires d.Valid() && Slices(d, s) && !a.Answer? && !a.Lose? && Mints(d, s, a, config).Some?
    ensures Numbered(d, Begun(d, s, a, config).0, Mints(d, s, a, config).value)
    ensures Mints(d, s, a, config).value.callback == Target(a)
  {
    assert Slice(d, s, Target(a));
    assert d.Owner(d.ScheduleKey(Target(a))) == Target(a);
  }

  lemma EndedNumbers(d: Discipline, s: Service, id: Id, flight: Flight, outcome: Outcome, now: Time, key: Key)
    requires d.Valid() && Slices(d, s) && FlightHolds(d, s, id, flight) && (flight.Dialing? ==> outcome.Done?)
    requires Numbered(d, s, key) && key.callback == id
    ensures Numbered(d, Ended(s, id, flight, outcome, now), key)
  {
    assert Slice(d, s, id);
    assert d.Owner(d.ScheduleKey(id)) == id;
  }

  lemma NumberedElsewhere(d: Discipline, s: Service, t: Service, x: Id, key: Key)
    requires d.Valid() && TouchesOnly(d, s, t, x) && Numbered(d, s, key) && key.callback != x
    ensures Numbered(d, t, key)
  {
    assert d.Owner(d.ScheduleKey(key.callback)) == key.callback;
  }

  /** A key minted by a step was never minted before. */
  lemma MintsAreNew(d: Discipline, w: World, a: Action, config: Config)
    requires d.Valid() && Inv(d, w, config) && Enabled(d, w, a)
    ensures Mints(d, w.service, a, config).Some? ==> Mints(d, w.service, a, config).value !in w.minted
  {
    var minted := Mints(d, w.service, a, config);
    if minted.Some? {
      MintIsNumbered(d, w.service, a, config);
      if minted.value in w.minted { BegunNumbers(d, w.service, a, config, minted.value); }
    }
  }

  lemma StepNumbers(d: Discipline, w: World, a: Action, config: Config, key: Key)
    requires d.Valid() && Inv(d, w, config) && Enabled(d, w, a) && key in Step(d, w, a, config).minted
    ensures Numbered(d, Step(d, w, a, config).service, key)
  {
    var reply := StepIsGood(d, w, a, config);
    if key !in w.minted {
      MintIsNumbered(d, w.service, a, config);
    } else if key.callback != Target(a) {
      NumberedElsewhere(d, w.service, Step(d, w, a, config).service, Target(a), key);
    } else if a.Answer? {
      EndedNumbers(d, w.service, a.id, w.flights[a.id], a.outcome, a.now, key);
    } else if !a.Lose? {
      BegunNumbers(d, w.service, a, config, key);
    }
  }

  lemma StepKeeps(d: Discipline, w: World, a: Action, config: Config)
    requires d.Valid() && Inv(d, w, config) && Enabled(d, w, a)
    ensures Inv(d, Step(d, w, a, config), config)
  {
    var next := Step(d, w, a, config);
    var x := Target(a);
    var reply := StepIsGood(d, w, a, config);
    GoodKeepsSlices(d, w.service, next.service, x, reply);
    GoodKeepsFlights(d, w.service, next.service, x, reply, w.flights);
    if a.Answer? {
      EndedActivates(d, w.service, a.id, w.flights[a.id], a.outcome, a.now);
    } else if !a.Lose? {
      BegunActivates(d, w.service, a, config);
    }
    CapacityKept(d, w.service, next.service, x, reply, config.maxCallbacks);
    forall key | key in next.minted ensures Numbered(d, next.service, key) {
      StepNumbers(d, w, a, config, key);
    }
  }

  // ---- Teardown's last step: no callback's lock is held, so it may meet any operation in flight. ----

  /** Releasing changes only tombstones of callbacks that are not live. */
  lemma ReleaseKeepsSlices(d: Discipline, s: Service, prefix: Id)
    requires d.Valid() && Slices(d, s)
    ensures Slices(d, ReleaseFailed(s, prefix))
  {
    forall x ensures Slice(d, ReleaseFailed(s, prefix), x) {
      assert Slice(d, s, x) && d.Owner(d.ScheduleKey(x)) == x;
    }
  }

  lemma ReleaseKeeps(d: Discipline, w: World, prefix: Id, config: Config)
    requires d.Valid() && Inv(d, w, config)
    ensures Inv(d, w.(service := ReleaseFailed(w.service, prefix)), config)
  {
    var t := ReleaseFailed(w.service, prefix);
    ReleaseKeepsSlices(d, w.service, prefix);
    assert ActiveIds(t) == ActiveIds(w.service);
    forall x | x in w.flights ensures FlightHolds(d, t, x, w.flights[x]) {
      assert FlightHolds(d, w.service, x, w.flights[x]);
    }
    forall key | key in w.minted ensures Numbered(d, t, key) {
      assert Numbered(d, w.service, key);
    }
  }
}
