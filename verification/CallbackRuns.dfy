/** What holds over whole runs of the callback service, whatever the interleaving. */
module CallbackRuns {
  import opened Common
  import opened CallbackStates
  import opened CallbackSlices
  import opened CallbackMachine

  /** One atomic move: a stretch of some callback's operation, or the release of a prefix's tombstones. */
  datatype Move = Stretch(action: Action) | Release(prefix: Id)

  predicate MayMove(d: Discipline, w: World, m: Move) {
    m.Stretch? ==> Enabled(d, w, m.action)
  }

  function Moved(d: Discipline, w: World, m: Move, config: Config): World
    requires MayMove(d, w, m)
  {
    match m
    case Stretch(a) => Step(d, w, a, config)
    case Release(prefix) => w.(service := ReleaseFailed(w.service, prefix))
  }

  ghost predicate Legal(d: Discipline, w: World, moves: seq<Move>, config: Config)
    decreases |moves|
  {
    moves != [] ==> MayMove(d, w, moves[0]) && Legal(d, Moved(d, w, moves[0], config), moves[1..], config)
  }

  function Run(d: Discipline, w: World, moves: seq<Move>, config: Config): World
    requires Legal(d, w, moves, config)
    decreases |moves|
  {
    if moves == [] then w else Run(d, Moved(d, w, moves[0], config), moves[1..], config)
  }

  lemma MoveKeeps(d: Discipline, w: World, m: Move, config: Config)
    requires d.Valid() && Inv(d, w, config) && MayMove(d, w, m)
    ensures Inv(d, Moved(d, w, m, config), config)
  {
    match m
    case Stretch(a) => StepKeeps(d, w, a, config);
    case Release(prefix) => ReleaseKeeps(d, w, prefix, config);
  }

  lemma {:induction false} EveryRunKeeps(d: Discipline, w: World, moves: seq<Move>, config: Config)
    requires d.Valid() && Inv(d, w, config) && Legal(d, w, moves, config)
    ensures Inv(d, Run(d, w, moves, config), config)
    decreases |moves|
  {
    if moves != [] {
      MoveKeeps(d, w, moves[0], config);
      EveryRunKeeps(d, Moved(d, w, moves[0], config), moves[1..], config);
    }
  }

  predicate Initial(w: World) {
    w == World(EMPTY, map[], {})
  }

  lemma InitialHolds(d: Discipline, w: World, config: Config)
    requires Initial(w)
    ensures Inv(d, w, config)
  {
    assert ActiveIds(w.service) == {};
    assert forall x :: Slice(d, w.service, x);
  }

  /** A record is cancellation-pending exactly when a cancellation key is held for its callback. */
  ghost predicate CancellationsAgree(s: Service) {
    forall x :: x in s.pendingCancellations <==> x in s.records && s.records[x].status.CancellationPending?
  }

  /** Each callback has at most one pending schedule, and none beside an active record. */
  ghost predicate SchedulesAgree(s: Service) {
    && (forall k :: k in s.pendingSchedules ==>
          var x := s.pendingSchedules[k].request.callbackId;
          x in s.records ==> !Active(s.records[x].status))
    && (forall k, l :: k in s.pendingSchedules && l in s.pendingSchedules && k != l ==>
          s.pendingSchedules[k].request.callbackId != s.pendingSchedules[l].request.callbackId)
  }

  ghost predicate IncarnationsAgree(s: Service) {
    forall x :: x in s.records && Incarnated(s.records[x].status) ==> x in s.incarnations
  }

  ghost predicate KeysAgree(s: Service) {
    s.fingerprints.Keys == s.results.Keys + s.failed.Keys
  }

  /** The agreement of the maps, in terms of the maps alone. */
  ghost predicate MapsAgree(s: Service, maxCallbacks: nat) {
    && CancellationsAgree(s) && SchedulesAgree(s) && IncarnationsAgree(s) && KeysAgree(s)
    && |ActiveIds(s)| <= maxCallbacks
  }

  lemma SlicesAgree(d: Discipline, s: Service, maxCallbacks: nat)
    requires d.Valid() && Slices(d, s) && |ActiveIds(s)| <= maxCallbacks
    ensures MapsAgree(s, maxCallbacks)
  {
    forall x ensures x in s.pendingCancellations <==> x in s.records && s.records[x].status.CancellationPending? {
      assert Slice(d, s, x);
    }
    forall x | x in s.records && Incarnated(s.records[x].status) ensures x in s.incarnations {
      assert Slice(d, s, x);
    }
    forall k | k in s.pendingSchedules
      ensures k == d.ScheduleKey(s.pendingSchedules[k].request.callbackId)
      ensures s.pendingSchedules[k].request.callbackId !in s.records
    {
      assert Slice(d, s, d.Owner(k));
    }
    forall k ensures k in s.fingerprints <==> k in s.results || k in s.failed {
      assert Slice(d, s, d.Owner(k));
    }
  }

  /** At every point of every run the maps agree. */
  lemma MapsAlwaysAgree(d: Discipline, start: World, moves: seq<Move>, config: Config)
    requires d.Valid() && Initial(start) && Legal(d, start, moves, config)
    ensures MapsAgree(Run(d, start, moves, config).service, config.maxCallbacks)
  {
    InitialHolds(d, start, config);
    EveryRunKeeps(d, start, moves, config);
    SlicesAgree(d, Run(d, start, moves, config).service, config.maxCallbacks);
  }

  /** No operation ever meets inconsistent idempotency state or misses a key it looks up without a default, and a dial
      that succeeds always finds the record it was made for. */
  lemma NoLookupFails(d: Discipline, start: World, moves: seq<Move>, config: Config, a: Action)
    requires d.Valid() && Initial(start) && Legal(d, start, moves, config) && Enabled(d, Run(d, start, moves, config), a)
    ensures var w := Run(d, start, moves, config);
            && (!a.Answer? && !a.Lose? ==>
                  var reply := Begun(d, w.service, a, config).1;
                  reply != Refused(Inconsistent) && reply != Refused(MissingEntry))
            && (a.Answer? && w.flights[a.id].Dialing? ==>
                  a.id in w.service.records && w.service.records[a.id] == w.flights[a.id].record)
  {
    InitialHolds(d, start, config);
    EveryRunKeeps(d, start, moves, config);
    var w := Run(d, start, moves, config);
    if a.Answer? {
      assert FlightHolds(d, w.service, a.id, w.flights[a.id]);
    } else if !a.Lose? {
      BegunIsGood(d, w.service, a, config);
    }
  }

  /** Operations on different callbacks never touch each other's entries, so one lock per callback is enough. */
  lemma CallbacksAreIndependent(d: Discipline, w: World, a: Action, config: Config, y: Id)
    requires d.Valid() && Inv(d, w, config) && Enabled(d, w, a) && y != Target(a)
    ensures var next := Step(d, w, a, config);
            && TouchesOnly(d, w.service, next.service, Target(a))
            && (y in next.flights <==> y in w.flights) && (y in w.flights ==> next.flights[y] == w.flights[y])
  {
    var reply := StepIsGood(d, w, a, config);
  }

  /** Every cleanup key minted in a run is new, so one that failed for good is never minted again. */
  lemma CleanupKeysNeverRepeat(d: Discipline, start: World, moves: seq<Move>, config: Config, a: Action)
    requires d.Valid() && Initial(start) && Legal(d, start, moves, config) && Enabled(d, Run(d, start, moves, config), a)
    ensures var w := Run(d, start, moves, config);
            Mints(d, w.service, a, config).Some? ==> Mints(d, w.service, a, config).value !in w.minted
  {
    InitialHolds(d, start, config);
    EveryRunKeeps(d, start, moves, config);
    MintsAreNew(d, Run(d, start, moves, config), a, config);
  }

  // ---- A cancel that has begun stops the dial. ----

  /** Incarnation n of x can never be scheduled (again): it is past, and not what x is scheduled under. */
  ghost predicate Doomed(d: Discipline, s: Service, x: Id, n: nat) {
    && n <= s.sequence
    && (d.ScheduleKey(x) in s.pendingSchedules ==> s.pendingSchedules[d.ScheduleKey(x)].incarnation != n)
    && (x in s.records && x in s.incarnations && s.incarnations[x] == n ==> !s.records[x].status.Scheduled?)
  }

  lemma ScheduleDooms(d: Discipline, s: Service, request: Request, now: Time, reasons: seq<Reason>, config: Config, n: nat)
    requires d.Valid() && d.MaySchedule(request) && Doomed(d, s, request.callbackId, n)
    ensures Doomed(d, BeginSchedule(s, request, now, reasons, config).0, request.callbackId, n)
  {
    BeginScheduleFrame(s, request, now, reasons, config);
    FrameDooms(d, s, BeginSchedule(s, request, now, reasons, config).0, request, n);
  }

  lemma FrameDooms(d: Discipline, s: Service, t: Service, request: Request, n: nat)
    requires d.MaySchedule(request) && ScheduleFrame(s, t, request) && Doomed(d, s, request.callbackId, n)
    ensures Doomed(d, t, request.callbackId, n)
  {
  }

  lemma BegunDooms(d: Discipline, s: Service, a: Action, config: Config, n: nat)
    requires d.Valid() && Slice(d, s, Target(a)) && !a.Answer? && !a.Lose? && Doomed(d, s, Target(a), n)
    requires a.Schedule? ==> d.MaySchedule(a.request)
    ensures Doomed(d, Begun(d, s, a, config).0, Target(a), n)
  {
    match a
    case Schedule(request, now, reasons) => ScheduleDooms(d, s, request, now, reasons, config, n);
    case Cancel(id, key, now) =>
    case Dispatch(id, now, reasons) =>
    case RemoveSchedule(id) =>
    case RemoveRecord(id, now) => RemovalDooms(d, s, id, now, config.ephemeral, n);
  }

  lemma RemovalDooms(d: Discipline, s: Service, x: Id, now: Time, ephemeral: bool, n: nat)
    requires Slice(d, s, x) && Doomed(d, s, x, n)
    ensures Doomed(d, BeginRemoveRecord(s, x, now, ephemeral).0, x, n)
  {
    assert Doomed(d, Forgotten(s, x), x, n);
    if x in s.records && x in s.incarnations {
      assert Doomed(d, CleanupStarted(s, x, now).0, x, n);
    }
  }

  lemma EndedDooms(d: Discipline, s: Service, id: Id, flight: Flight, outcome: Outcome, now: Time, n: nat)
    requires d.Valid() && Slice(d, s, id) && FlightHolds(d, s, id, flight) && (flight.Dialing? ==> outcome.Done?)
    requires Doomed(d, s, id, n)
    ensures Doomed(d, Ended(s, id, flight, outcome, now), id, n)
  {
  }

  lemma DoomedElsewhere(d: Discipline, s: Service, t: Service, x: Id, y: Id, n: nat)
    requires d.Valid() && TouchesOnly(d, s, t, x) && y != x && Doomed(d, s, y, n)
    ensures Doomed(d, t, y, n)
  {
    assert d.Owner(d.ScheduleKey(y)) == y;
  }

  lemma MoveDooms(d: Discipline, w: World, m: Move, config: Config, x: Id, n: nat)
    requires d.Valid() && Inv(d, w, config) && MayMove(d, w, m) && Doomed(d, w.service, x, n)
    ensures Doomed(d, Moved(d, w, m, config).service, x, n)
  {
    if m.Stretch? {
      var a := m.action;
      assert Slice(d, w.service, Target(a));
      if Target(a) != x {
        CallbacksAreIndependent(d, w, a, config, x);
        DoomedElsewhere(d, w.service, Step(d, w, a, config).service, Target(a), x, n);
      } else if a.Answer? {
        EndedDooms(d, w.service, x, w.flights[x], a.outcome, a.now, n);
      } else if !a.Lose? {
        BegunDooms(d, w.service, a, config, n);
      }
    }
  }

  lemma {:induction false} RunDooms(d: Discipline, w: World, moves: seq<Move>, config: Config, x: Id, n: nat)
    requires d.Valid() && Inv(d, w, config) && Legal(d, w, moves, config) && Doomed(d, w.service, x, n)
    ensures Doomed(d, Run(d, w, moves, config).service, x, n)
    decreases |moves|
  {
    if moves != [] {
      MoveKeeps(d, w, moves[0], config);
      MoveDooms(d, w, moves[0], config, x, n);
      RunDooms(d, Moved(d, w, moves[0], config), moves[1..], config, x, n);
    }
  }

  /** Once a cancel has reached the scheduler call, no later dispatch dials that incarnation of the callback, however
      the cancel ends; and every dial of a callback carries its schedule's key. */
  lemma NoDialAfterCancel(d: Discipline, w: World, cancel: Action, moves: seq<Move>, config: Config, dispatch: Action)
    requires d.Valid() && Inv(d, w, config) && cancel.Cancel? && Enabled(d, w, cancel)
    requires Begun(d, w.service, cancel, config).1.Calling?
    requires Legal(d, Step(d, w, cancel, config), moves, config)
    requires dispatch.Dispatch? && dispatch.id == cancel.id
    ensures cancel.id in w.service.incarnations
    ensures var later := Run(d, Step(d, w, cancel, config), moves, config).service;
            Begun(d, later, dispatch, config).1.Calling? ==>
              && cancel.id in later.incarnations && later.incarnations[cancel.id] != w.service.incarnations[cancel.id]
              && Begun(d, later, dispatch, config).1.flight.record.request.key == d.ScheduleKey(cancel.id)
  {
    var x, next := cancel.id, Step(d, w, cancel, config);
    assert Slice(d, w.service, x);
    StepKeeps(d, w, cancel, config);
    CancelDooms(d, w.service, x, cancel.key, cancel.now);
    RunDooms(d, next, moves, config, x, w.service.incarnations[x]);
    EveryRunKeeps(d, next, moves, config);
    DialNeedsIncarnation(d, Run(d, next, moves, config).service, x, dispatch.now, dispatch.reasons);
  }

  lemma CancelDooms(d: Discipline, s: Service, x: Id, key: Key, now: Time)
    requires d.Valid() && Slice(d, s, x) && BeginCancel(s, x, key, now).1.Calling?
    ensures x in s.incarnations && Doomed(d, BeginCancel(s, x, key, now).0, x, s.incarnations[x])
  {
    assert d.Owner(d.ScheduleKey(x)) == x;
    assert Incarnated(s.records[x].status);
  }

  lemma DialNeedsIncarnation(d: Discipline, s: Service, x: Id, now: Time, reasons: seq<Reason>)
    requires Slices(d, s)
    ensures BeginDispatch(s, x, now, reasons).1.Calling? ==>
              && x in s.incarnations && x in s.records && s.records[x].status.Scheduled?
              && BeginDispatch(s, x, now, reasons).1.flight == Dialing(s.records[x])
              && s.records[x].request.key == d.ScheduleKey(x)
  {
    assert Slice(d, s, x);
    assert x in s.records && s.records[x].status.Scheduled? ==> Incarnated(s.records[x].status);
  }

  // ---- Tombstones. ----

  lemma RemovalKeepsTombstones(s: Service, id: Id, now: Time, ephemeral: bool)
    ensures BeginRemoveRecord(s, id, now, ephemeral).0.failed == s.failed
  {
    assert Forgotten(s, id).failed == s.failed;
    if id in s.records && id in s.incarnations {
      assert CleanupStarted(s, id, now).0.failed == s.failed;
    }
  }

  lemma BegunKeepsTombstone(d: Discipline, s: Service, a: Action, config: Config, key: Key)
    requires !a.Answer? && !a.Lose? && key in s.failed
    ensures key in Begun(d, s, a, config).0.failed
  {
    match a
    case Schedule(request, now, reasons) => BeginScheduleFrame(s, request, now, reasons, config);
    case Cancel(id, k, now) => assert BeginCancel(s, id, k, now).0.failed == s.failed;
    case Dispatch(id, now, reasons) => assert BeginDispatch(s, id, now, reasons).0.failed == s.failed;
    case RemoveSchedule(id) => assert BeginRemoveSchedule(s, d.ScheduleKey(id)).0.failed == s.failed;
    case RemoveRecord(id, now) => RemovalKeepsTombstones(s, id, now, config.ephemeral);
  }

  lemma EndedKeepsTombstone(s: Service, id: Id, flight: Flight, outcome: Outcome, now: Time, key: Key)
    requires key in s.failed && (flight.Dialing? ==> outcome.Done?)
    ensures key in Ended(s, id, flight, outcome, now).failed
  {
  }

  lemma StretchKeepsTombstone(d: Discipline, w: World, a: Action, config: Config, key: Key)
    requires Enabled(d, w, a) && key in w.service.failed
    ensures key in Step(d, w, a, config).service.failed
  {
    if a.Answer? {
      EndedKeepsTombstone(w.service, a.id, w.flights[a.id], a.outcome, a.now, key);
    } else if !a.Lose? {
      BegunKeepsTombstone(d, w.service, a, config, key);
    }
  }

  /** A tombstone is dropped only by a release, and only once its callback has neither a record nor a pending schedule;
      while it stands, its key is refused and nothing changes. */
  lemma TombstonesOutliveCallbacks(d: Discipline, w: World, m: Move, config: Config, key: Key, now: Time)
    requires d.Valid() && Inv(d, w, config) && MayMove(d, w, m) && key in w.service.failed
    ensures d.Owner(key) == w.service.failed[key]
    ensures var x := d.Owner(key);
            key !in Moved(d, w, m, config).service.failed <==>
              m.Release? && m.prefix <= x && x !in w.service.records && d.ScheduleKey(x) !in w.service.pendingSchedules
    ensures BeginCancel(w.service, d.Owner(key), key, now).0 == w.service
    ensures BeginCancel(w.service, d.Owner(key), key, now).1.Refused?
  {
    assert Slice(d, w.service, d.Owner(key));
    if m.Stretch? {
      StretchKeepsTombstone(d, w, m.action, config, key);
    } else {
      LiveIff(d, w.service, d.Owner(key));
    }
  }

  lemma LiveIff(d: Discipline, s: Service, x: Id)
    requires d.Valid() && Slices(d, s)
    ensures Live(s, x) <==> x in s.records || d.ScheduleKey(x) in s.pendingSchedules
  {
    assert d.Owner(d.ScheduleKey(x)) == x;
    assert Slice(d, s, x);
    forall k | k in s.pendingSchedules && s.pendingSchedules[k].request.callbackId == x ensures k == d.ScheduleKey(x) {
      assert Slice(d, s, d.Owner(k));
    }
  }

  // ---- Without the discipline. ----

  /** A schedule replaces the record of an active callback exactly when its key was never decided, is not pending, and
      its time is invalid: then a blocked record is stored over the live one. No other path reaches it. */
  lemma InvalidTimeOverwritesIff(s: Service, request: Request, now: Time, reasons: seq<Reason>, config: Config)
    requires request.callbackId in s.records && Active(s.records[request.callbackId].status)
    ensures BeginSchedule(s, request, now, reasons, config).0.records != s.records <==>
              request.key !in s.fingerprints && request.key !in s.pendingSchedules && TimeInvalid(request, now, config)
  {
    var id := request.callbackId;
    var r := BeginSchedule(s, request, now, reasons, config);
    assert Refusal(s, id, config).Some?;
    if request.key !in s.fingerprints && request.key !in s.pendingSchedules && TimeInvalid(request, now, config) {
      assert r.0.records[id].status.Blocked?;
    }
  }

  /** That path is also the only way a schedule, under whatever key, can make the maps disagree, and it does exactly when
      the callback's cancellation is pending: the cancellation key outlives the pending record. */
  lemma ScheduleKeepsAgreementIff(s: Service, request: Request, now: Time, reasons: seq<Reason>, config: Config)
    requires MapsAgree(s, config.maxCallbacks)
    ensures MapsAgree(BeginSchedule(s, request, now, reasons, config).0, config.maxCallbacks) <==>
            !(request.key !in s.fingerprints && request.key !in s.pendingSchedules && TimeInvalid(request, now, config)
              && request.callbackId in s.pendingCancellations)
  {
    var id, max := request.callbackId, config.maxCallbacks;
    if request.key !in s.fingerprints && request.key !in s.pendingSchedules {
      if TimeInvalid(request, now, config) {
        BlockedAgreesIff(s, request, [CallbackTimeInvalid], now, max);
      } else if Refusal(s, id, config).None? {
        AdmittedAgrees(s, request, config);
        RefusalMeansInactive(s, id, config);
        BlockedAgreesIff(s, request, reasons, now, max);
      }
    }
  }

  lemma RefusalMeansInactive(s: Service, id: Id, config: Config)
    requires MapsAgree(s, config.maxCallbacks) && Refusal(s, id, config).None?
    ensures id !in s.pendingCancellations && id !in ActiveIds(s) && |ActiveIds(s)| < config.maxCallbacks
  {
  }

  lemma BlockedActivatesNone(s: Service, request: Request, reasons: seq<Reason>, now: Time)
    ensures |ActiveIds(BlockedReply(s, request, reasons, now).0)| <= |ActiveIds(s)|
  {
    Subset(ActiveIds(BlockedReply(s, request, reasons, now).0), ActiveIds(s));
  }

  lemma StoredKeys(s: Service, key: Key, fingerprint: Fingerprint, record: Record)
    ensures KeysAgree(s) ==> KeysAgree(Stored(s, key, fingerprint, record))
  {
  }

  lemma BlockedKeepsRest(s: Service, request: Request, reasons: seq<Reason>, now: Time)
    ensures var t := BlockedReply(s, request, reasons, now).0;
            (SchedulesAgree(s) ==> SchedulesAgree(t)) && (IncarnationsAgree(s) ==> IncarnationsAgree(t))
  {
  }

  lemma BlockedCancellations(s: Service, request: Request, reasons: seq<Reason>, now: Time)
    requires CancellationsAgree(s)
    ensures CancellationsAgree(BlockedReply(s, request, reasons, now).0) <==> request.callbackId !in s.pendingCancellations
  {
    var t := BlockedReply(s, request, reasons, now).0;
    assert t.pendingCancellations == s.pendingCancellations && t.records[request.callbackId].status.Blocked?;
    if request.callbackId in s.pendingCancellations {
      assert request.callbackId in t.pendingCancellations;
    }
  }

  /** Storing a blocked record keeps the agreement unless the callback's cancellation is pending. */
  lemma BlockedAgreesIff(s: Service, request: Request, reasons: seq<Reason>, now: Time, max: nat)
    requires MapsAgree(s, max)
    ensures MapsAgree(BlockedReply(s, request, reasons, now).0, max) <==> request.callbackId !in s.pendingCancellations
  {
    BlockedActivatesNone(s, request, reasons, now);
    StoredKeys(s, request.key, OfSchedule(request), BlockedRecord(request, reasons, now));
    BlockedKeepsRest(s, request, reasons, now);
    BlockedCancellations(s, request, reasons, now);
  }

  lemma AdmittedSchedules(s: Service, request: Request)
    requires SchedulesAgree(s) && request.callbackId !in ActiveIds(s)
    ensures SchedulesAgree(Admitted(s, request).0)
  {
    forall k | k in s.pendingSchedules ensures s.pendingSchedules[k].request.callbackId != request.callbackId {
      assert s.pendingSchedules[k].request.callbackId in ActiveIds(s);
    }
  }

  lemma AdmittedAgrees(s: Service, request: Request, config: Config)
    requires MapsAgree(s, config.maxCallbacks) && Refusal(s, request.callbackId, config).None?
    ensures MapsAgree(Admitted(s, request).0, config.maxCallbacks)
  {
    RefusalMeansInactive(s, request.callbackId, config);
    AdmittedSchedules(s, request);
    AdmittedActivatesOne(s, request);
  }

  lemma AdmittedActivatesOne(s: Service, request: Request)
    ensures |ActiveIds(Admitted(s, request).0)| <= |ActiveIds(s)| + 1
  {
    Subset(ActiveIds(Admitted(s, request).0), ActiveIds(s) + {request.callbackId});
  }

  /** What starting and finishing a cancel leaves for its key. */
  lemma CancelAnswers(s: Service, x: Id, key: Key, reference: string, now: Time)
    requires x in s.records && s.records[x].status.Scheduled? && s.records[x].request.callbackId == x
    requires key !in s.fingerprints && !(key.Caller? && Blank(key.text)) && s.failed.Keys <= s.fingerprints.Keys
    ensures var started := BeginCancel(s, x, key, now);
            && started.1 == Calling(Canceling(s.records[x], key))
            && started.0 == s.(records := s.records[x := WithStatus(s.records[x], CancellationPending, now)],
                               pendingCancellations := s.pendingCancellations[x := key])
  {
  }

  /** Two cancels of different callbacks at once, both successful: the first one's answer can be replayed exactly when
      they used different keys. One key for both answers only for the second. */
  lemma FirstCancelReplaysIff(s: Service, x: Id, y: Id, k: Key, l: Key, a: string, b: string, now: Time)
    requires x in s.records && y in s.records && x != y && s.failed.Keys <= s.fingerprints.Keys
    requires k !in s.fingerprints && !(k.Caller? && Blank(k.text)) && l !in s.fingerprints && !(l.Caller? && Blank(l.text))
    requires s.records[x].status.Scheduled? && s.records[y].status.Scheduled?
    requires s.records[x].request.callbackId == x && s.records[y].request.callbackId == y
    ensures var first := BeginCancel(s, x, k, now);
            var second := BeginCancel(first.0, y, l, now);
            && first.1 == Calling(Canceling(s.records[x], k)) && second.1 == Calling(Canceling(s.records[y], l))
            && var ended := EndCancel(second.0, x, s.records[x], k, Done(a), now);
               var t := EndCancel(ended, y, s.records[y], l, Done(b), now);
               var canceled := WithStatus(s.records[x], Canceled, now).(reference := Some(a));
               CheckOperation(t, k, OfCancel(x)) == Success(Some(canceled)) <==> k != l
  {
    CancelAnswers(s, x, k, a, now);
    var first := BeginCancel(s, x, k, now).0;
    CancelAnswers(first, y, l, b, now);
    var second := BeginCancel(first, y, l, now).0;
    var ended := EndCancel(second, x, s.records[x], k, Done(a), now);
    assert ended.results[k].status.Canceled? && ended.fingerprints[k] == OfCancel(x) && ended.failed == s.failed;
  }

  // ---- With it, answers are replayed. ----

  /** The decided key answers as it did. */
  ghost predicate SameAnswer(s: Service, t: Service, key: Key) {
    && key in s.results && key in t.results && t.results[key] == s.results[key]
    && key in s.fingerprints && key in t.fingerprints && t.fingerprints[key] == s.fingerprints[key]
    && (key in s.failed <==> key in t.failed)
  }

  /** The answer is kept exactly while the callback's record is. */
  ghost predicate AnswerKeptIff(d: Discipline, s: Service, t: Service, key: Key) {
    SameAnswer(s, t, key) <==> d.Owner(key) in t.records
  }

  lemma BegunScheduleAnswers(d: Discipline, s: Service, request: Request, now: Time, reasons: seq<Reason>,
                             config: Config, key: Key)
    requires d.Valid() && d.MaySchedule(request) && Slice(d, s, request.callbackId)
    requires key in s.results && d.Owner(key) == request.callbackId
    ensures AnswerKeptIff(d, s, BeginSchedule(s, request, now, reasons, config).0, key)
  {
    assert d.Owner(request.key) == request.callbackId;
    if request.key !in s.fingerprints { FreshKeyMeansNoRecord(d, s, request.callbackId); }
  }

  lemma BegunAnswers(d: Discipline, s: Service, a: Action, config: Config, key: Key)
    requires d.Valid() && Slice(d, s, Target(a)) && ResultsOwned(d, s) && !a.Answer? && !a.Lose?
    requires a.Schedule? ==> d.MaySchedule(a.request)
    requires key in s.results && d.Owner(key) == Target(a)
    ensures AnswerKeptIff(d, s, Begun(d, s, a, config).0, key)
  {
    match a
    case Schedule(request, now, reasons) => BegunScheduleAnswers(d, s, request, now, reasons, config, key);
    case Cancel(id, cancelKey, now) => BegunCancelAnswers(d, s, id, cancelKey, now, key);
    case Dispatch(id, now, reasons) => BegunDispatchAnswers(d, s, id, now, reasons, key);
    case RemoveSchedule(id) => BegunRemoveScheduleAnswers(d, s, d.ScheduleKey(id), key);
    case RemoveRecord(id, now) => BegunRemovalAnswers(d, s, id, now, config.ephemeral, key);
  }

  lemma BegunCancelAnswers(d: Discipline, s: Service, id: Id, cancelKey: Key, now: Time, key: Key)
    requires Slice(d, s, id) && key in s.results && d.Owner(key) == id
    ensures AnswerKeptIff(d, s, BeginCancel(s, id, cancelKey, now).0, key)
  {
  }

  lemma BegunDispatchAnswers(d: Discipline, s: Service, id: Id, now: Time, reasons: seq<Reason>, key: Key)
    requires Slice(d, s, id) && key in s.results && d.Owner(key) == id
    ensures AnswerKeptIff(d, s, BeginDispatch(s, id, now, reasons).0, key)
  {
    assert id in s.records;
    if BeginDispatch(s, id, now, reasons).0 != s {
      var updated := WithStatus(s.records[id], Blocked, now).(reasons := [PolicyChanged] + reasons);
      assert BeginDispatch(s, id, now, reasons).0 == s.(records := s.records[id := updated]);
    }
  }

  lemma BegunRemoveScheduleAnswers(d: Discipline, s: Service, scheduleKey: Key, key: Key)
    requires Slice(d, s, d.Owner(key)) && key in s.results
    ensures AnswerKeptIff(d, s, BeginRemoveSchedule(s, scheduleKey).0, key)
  {
  }

  lemma BegunRemovalAnswers(d: Discipline, s: Service, id: Id, now: Time, ephemeral: bool, key: Key)
    requires Slice(d, s, id) && ResultsOwned(d, s) && key in s.results && d.Owner(key) == id
    ensures AnswerKeptIff(d, s, BeginRemoveRecord(s, id, now, ephemeral).0, key)
  {
    assert AnswerKeptIff(d, s, Forgotten(s, id), key);
    if id in s.incarnations {
      assert AnswerKeptIff(d, s, CleanupStarted(s, id, now).0, key);
    }
  }

  lemma EndedAnswers(d: Discipline, s: Service, id: Id, flight: Flight, outcome: Outcome, now: Time, key: Key)
    requires d.Valid() && Slice(d, s, id) && ResultsOwned(d, s) && FlightHolds(d, s, id, flight)
    requires flight.Dialing? ==> outcome.Done?
    requires key in s.results && d.Owner(key) == id
    ensures AnswerKeptIff(d, s, Ended(s, id, flight, outcome, now), key)
  {
    assert d.Owner(d.ScheduleKey(id)) == id;
  }

  lemma ElsewhereAnswers(d: Discipline, s: Service, t: Service, x: Id, key: Key)
    requires Slice(d, s, d.Owner(key)) && TouchesOnly(d, s, t, x) && key in s.results && d.Owner(key) != x
    ensures AnswerKeptIff(d, s, t, key)
  {
  }

  lemma ReleaseAnswers(d: Discipline, s: Service, prefix: Id, key: Key)
    requires Slice(d, s, d.Owner(key)) && key in s.results
    ensures AnswerKeptIff(d, s, ReleaseFailed(s, prefix), key)
  {
  }

  /** Every move keeps the answer of a decided key exactly when it keeps the record of the key's callback. */
  lemma MoveAnswers(d: Discipline, w: World, m: Move, config: Config, key: Key)
    requires d.Valid() && Inv(d, w, config) && MayMove(d, w, m) && key in w.service.results
    ensures AnswerKeptIff(d, w.service, Moved(d, w, m, config).service, key)
  {
    assert Slice(d, w.service, d.Owner(key));
    SlicesOwnResults(d, w.service);
    match m
    case Release(prefix) => ReleaseAnswers(d, w.service, prefix, key);
    case Stretch(a) =>
      if d.Owner(key) != Target(a) {
        var reply := StepIsGood(d, w, a, config);
        ElsewhereAnswers(d, w.service, Step(d, w, a, config).service, Target(a), key);
      } else if a.Answer? {
        EndedAnswers(d, w.service, a.id, w.flights[a.id], a.outcome, a.now, key);
      } else if !a.Lose? {
        BegunAnswers(d, w.service, a, config, key);
      }
  }

  /** The callback has a record at every point of the run. */
  ghost predicate RecordThroughout(d: Discipline, w: World, moves: seq<Move>, config: Config, id: Id)
    requires Legal(d, w, moves, config)
    decreases |moves|
  {
    id in w.service.records
    && (moves != [] ==> RecordThroughout(d, Moved(d, w, moves[0], config), moves[1..], config, id))
  }

  /** Over every run, as long as its callback has a record, a decided key is answered the same again, whatever input
      comes with it: the stored record for the same input, the same refusal for any other. */
  lemma {:induction false} AnswersAreReplayed(d: Discipline, w: World, moves: seq<Move>, config: Config, key: Key,
                                              fingerprint: Fingerprint)
    requires d.Valid() && Inv(d, w, config) && Legal(d, w, moves, config) && key in w.service.results
    requires RecordThroughout(d, w, moves, config, d.Owner(key))
    ensures key in Run(d, w, moves, config).service.results
    ensures CheckOperation(Run(d, w, moves, config).service, key, fingerprint) == CheckOperation(w.service, key, fingerprint)
    decreases |moves|
  {
    if moves != [] {
      var next := Moved(d, w, moves[0], config);
      MoveKeeps(d, w, moves[0], config);
      MoveAnswers(d, w, moves[0], config, key);
      assert SameAnswer(w.service, next.service, key);
      AnswersAreReplayed(d, next, moves[1..], config, key, fingerprint);
    }
  }
}
