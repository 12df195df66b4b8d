/** The life of one callback, as a small automaton, and that the service's maps move exactly as it does: who is asked to
    schedule, cancel or dial, what each answer leaves, and that nothing but an accepted cancellation drops a live one. */
module Lifecycle {
  import opened Common
  import opened CallbackStates
  import opened CallbackSlices
  import opened CallbackMachine
  import opened CallbackRuns

  /** A callback nobody knows, one whose schedule has no known outcome, or one with a record. */
  datatype Phase =
    | Absent
    | Arranging(pending: Pending)
    | Filed(request: Request, status: Status, reference: Option<string>, reasons: seq<Reason>, incarnation: Option<nat>)

  function IncarnationOf(s: Service, x: Id): Option<nat> {
    if x in s.incarnations then Some(s.incarnations[x]) else None
  }

  function PhaseOf(d: Discipline, s: Service, x: Id): Phase {
    if x in s.records then
      var r := s.records[x];
      Filed(r.request, r.status, r.reference, r.reasons, IncarnationOf(s, x))
    else if d.ScheduleKey(x) in s.pendingSchedules then Arranging(s.pendingSchedules[d.ScheduleKey(x)])
    else Absent
  }

  /** The service is full for a callback it does not know. */
  predicate Full(s: Service, config: Config) {
    |ActiveIds(s)| >= config.maxCallbacks
  }

  predicate Cancelable(p: Phase) {
    p.Filed? && (p.status.Scheduled? || p.status.CancellationRequired?)
  }

  predicate Usable(s: Service, key: Key) {
    key !in s.fingerprints && !(key.Caller? && Blank(key.text))
  }

  predicate Due(p: Phase, now: Time) {
    p.Filed? && p.status.Scheduled? && p.request.runAt <= now
  }

  /** A record that teardown may drop without asking the scheduler. */
  predicate Droppable(p: Phase, config: Config) {
    p.Filed? && (p.status.Canceled? || p.status.Blocked? || (p.status.Dispatched? && !config.ephemeral))
  }

  predicate InTime(request: Request, now: Time, config: Config) {
    now < request.runAt && request.runAt - now <= config.maxFuture
  }

  // ---- The automaton. ----

  /** The phase of the callback an operation is about, after its first stretch. */
  function Begins(p: Phase, s: Service, a: Action, config: Config): Phase
    requires !a.Answer? && !a.Lose?
  {
    match a
    case Schedule(request, now, reasons) =>
      if !p.Absent? then p
      else if !InTime(request, now, config) then Filed(request, Blocked, None, [CallbackTimeInvalid], None)
      else if Full(s, config) then p
      else if reasons != [] then Filed(request, Blocked, None, reasons, None)
      else Arranging(Pending(request, s.sequence + 1))
    case Cancel(_, key, _) =>
      if Cancelable(p) && Usable(s, key) then p.(status := CancellationPending) else p
    case Dispatch(_, now, reasons) =>
      if Due(p, now) && reasons != [] then p.(status := Blocked, reasons := [PolicyChanged] + reasons) else p
    case RemoveSchedule(_) => p
    case RemoveRecord(_, _) =>
      if Droppable(p, config) then Absent else if Cancelable(p) then p.(status := CancellationPending) else p
  }

  /** The phase after the adapter's answer. */
  function Ends(p: Phase, flight: Flight, outcome: Outcome): Phase {
    match flight
    case Scheduling(pending) =>
      if outcome.Rejected? then Absent
      else Filed(pending.request, Scheduled, Some(outcome.reference), [], Some(pending.incarnation))
    case Canceling(_, _) =>
      if !p.Filed? then p
      else if outcome.Rejected? then p.(status := CancellationRequired)
      else p.(status := Canceled, reference := Some(outcome.reference))
    case Dialing(_) =>
      if !p.Filed? || outcome.Rejected? then p else p.(status := Dispatched, reference := Some(outcome.reference))
    case RemovingSchedule(_, _) => if outcome.Rejected? then p else Absent
    case RemovingRecord(_, _) =>
      if outcome.Done? then Absent
      else if p.Filed? && p.status.CancellationPending? then p.(status := CancellationRequired)
      else p
  }

  /** When a first stretch asks an adapter. */
  predicate Asks(p: Phase, s: Service, a: Action, config: Config)
    requires !a.Answer? && !a.Lose?
  {
    match a
    case Schedule(request, now, reasons) =>
      if p.Arranging? then p.pending.request == request
      else p.Absent? && InTime(request, now, config) && !Full(s, config) && reasons == []
    case Cancel(id, key, _) =>
      && Usable(s, key)
      && (Cancelable(p) || (p.Filed? && p.status.CancellationPending? && id in s.pendingCancellations
                            && s.pendingCancellations[id] == key))
    case Dispatch(_, now, reasons) => Due(p, now) && reasons == []
    case RemoveSchedule(_) => p.Arranging?
    case RemoveRecord(_, _) => p.Filed? && !Droppable(p, config)
  }

  // ---- The maps move with it. ----

  /** What is known of a callback with no record: nothing was decided under its schedule key, and it is active exactly
      when its schedule has no known outcome. */
  lemma UnknownCallback(d: Discipline, s: Service, x: Id)
    requires d.Valid() && Slices(d, s) && x !in s.records
    ensures d.ScheduleKey(x) !in s.fingerprints && x !in s.incarnations
    ensures x in ActiveIds(s) <==> d.ScheduleKey(x) in s.pendingSchedules
  {
    assert Slice(d, s, x) && d.Owner(d.ScheduleKey(x)) == x;
    ActiveIdsAre(d, s, x);
  }

  lemma DecidedCallback(d: Discipline, s: Service, x: Id)
    requires d.Valid() && Slice(d, s, x) && x in s.records
    ensures d.ScheduleKey(x) in s.fingerprints && d.ScheduleKey(x) !in s.pendingSchedules
  {
    assert d.Owner(d.ScheduleKey(x)) == x;
  }

  /** A callback with no record that is not being arranged: only time, room and policy decide. */
  lemma ScheduleUnknown(d: Discipline, s: Service, request: Request, now: Time, reasons: seq<Reason>, config: Config)
    requires d.Valid() && d.MaySchedule(request) && Slices(d, s)
    requires request.callbackId !in s.records && request.key !in s.pendingSchedules
    ensures var r := BeginSchedule(s, request, now, reasons, config);
            r == if TimeInvalid(request, now, config) then BlockedReply(s, request, [CallbackTimeInvalid], now)
                 else if Full(s, config) then (s, Refused(CapacityReached))
                 else if reasons != [] then BlockedReply(s, request, reasons, now)
                 else Admitted(s, request)
  {
    UnknownCallback(d, s, request.callbackId);
  }

  lemma ScheduleMoves(d: Discipline, s: Service, request: Request, now: Time, reasons: seq<Reason>, config: Config)
    requires d.Valid() && d.MaySchedule(request) && Slices(d, s)
    ensures var x, a := request.callbackId, Schedule(request, now, reasons);
            var r := BeginSchedule(s, request, now, reasons, config);
            && PhaseOf(d, r.0, x) == Begins(PhaseOf(d, s, x), s, a, config)
            && (r.1.Calling? <==> Asks(PhaseOf(d, s, x), s, a, config))
  {
    var x := request.callbackId;
    if x in s.records {
      ScheduleKnownMoves(d, s, request, now, reasons, config);
    } else if request.key in s.pendingSchedules {
      UnknownCallback(d, s, x);
      SchedulePendingMoves(d, s, request, now, reasons, config);
    } else {
      ScheduleUnknownMoves(d, s, request, now, reasons, config);
    }
  }

  lemma ScheduleUnknownMoves(d: Discipline, s: Service, request: Request, now: Time, reasons: seq<Reason>, config: Config)
    requires d.Valid() && d.MaySchedule(request) && Slices(d, s)
    requires request.callbackId !in s.records && request.key !in s.pendingSchedules
    ensures var x, a := request.callbackId, Schedule(request, now, reasons);
            var r := BeginSchedule(s, request, now, reasons, config);
            && PhaseOf(d, r.0, x) == Begins(Absent, s, a, config)
            && (r.1.Calling? <==> Asks(Absent, s, a, config))
  {
    ScheduleUnknown(d, s, request, now, reasons, config);
    UnknownCallback(d, s, request.callbackId);
    if TimeInvalid(request, now, config) {
      BlockedMoves(d, s, request, [CallbackTimeInvalid], now);
    } else if !Full(s, config) && reasons != [] {
      BlockedMoves(d, s, request, reasons, now);
    } else if !Full(s, config) {
      AdmittedMoves(d, s, request);
    }
  }

  lemma BlockedMoves(d: Discipline, s: Service, request: Request, reasons: seq<Reason>, now: Time)
    requires request.callbackId !in s.incarnations
    ensures var r := BlockedReply(s, request, reasons, now);
            PhaseOf(d, r.0, request.callbackId) == Filed(request, Blocked, None, reasons, None) && r.1.Answered?
  {
  }

  lemma AdmittedMoves(d: Discipline, s: Service, request: Request)
    requires d.MaySchedule(request) && request.callbackId !in s.records
    ensures var r := Admitted(s, request);
            PhaseOf(d, r.0, request.callbackId) == Arranging(Pending(request, s.sequence + 1)) && r.1.Calling?
  {
  }

  lemma ScheduleKnownMoves(d: Discipline, s: Service, request: Request, now: Time, reasons: seq<Reason>, config: Config)
    requires d.Valid() && d.MaySchedule(request) && Slices(d, s) && request.callbackId in s.records
    ensures var x, a := request.callbackId, Schedule(request, now, reasons);
            var r := BeginSchedule(s, request, now, reasons, config);
            PhaseOf(d, r.0, x) == PhaseOf(d, s, x) && PhaseOf(d, s, x).Filed? && !r.1.Calling?
  {
    var x := request.callbackId;
    assert Slice(d, s, x);
    DecidedCallback(d, s, x);
    assert BeginSchedule(s, request, now, reasons, config).0 == s;
  }

  lemma SchedulePendingMoves(d: Discipline, s: Service, request: Request, now: Time, reasons: seq<Reason>, config: Config)
    requires d.Valid() && d.MaySchedule(request) && request.key in s.pendingSchedules
    requires request.callbackId !in s.records && request.key !in s.fingerprints
    ensures var x, a := request.callbackId, Schedule(request, now, reasons);
            var r := BeginSchedule(s, request, now, reasons, config);
            && PhaseOf(d, r.0, x) == Begins(PhaseOf(d, s, x), s, a, config)
            && (r.1.Calling? <==> Asks(PhaseOf(d, s, x), s, a, config))
  {
  }

  lemma CancelMoves(d: Discipline, s: Service, x: Id, key: Key, now: Time, config: Config)
    requires d.Valid() && Slice(d, s, x)
    ensures var a, r := Cancel(x, key, now), BeginCancel(s, x, key, now);
            && PhaseOf(d, r.0, x) == Begins(PhaseOf(d, s, x), s, a, config)
            && (r.1.Calling? <==> Asks(PhaseOf(d, s, x), s, a, config))
  {
  }

  lemma DispatchMoves(d: Discipline, s: Service, x: Id, now: Time, reasons: seq<Reason>, config: Config)
    ensures var a, r := Dispatch(x, now, reasons), BeginDispatch(s, x, now, reasons);
            && PhaseOf(d, r.0, x) == Begins(PhaseOf(d, s, x), s, a, config)
            && (r.1.Calling? <==> Asks(PhaseOf(d, s, x), s, a, config))
  {
  }

  lemma RemoveScheduleMoves(d: Discipline, s: Service, x: Id, config: Config)
    requires d.Valid() && Slice(d, s, x)
    ensures var a, r := RemoveSchedule(x), BeginRemoveSchedule(s, d.ScheduleKey(x));
            && PhaseOf(d, r.0, x) == Begins(PhaseOf(d, s, x), s, a, config)
            && (r.1.Calling? <==> Asks(PhaseOf(d, s, x), s, a, config))
  {
    assert d.Owner(d.ScheduleKey(x)) == x;
  }

  lemma RemoveRecordMoves(d: Discipline, s: Service, x: Id, now: Time, config: Config)
    requires d.Valid() && Slice(d, s, x)
    ensures var a, r := RemoveRecord(x, now), BeginRemoveRecord(s, x, now, config.ephemeral);
            && PhaseOf(d, r.0, x) == Begins(PhaseOf(d, s, x), s, a, config)
            && (r.1.Calling? <==> Asks(PhaseOf(d, s, x), s, a, config))
  {
    assert d.Owner(d.ScheduleKey(x)) == x;
    if x in s.records {
      DecidedCallback(d, s, x);
      ForgottenIsAbsent(d, s, x);
      if x in s.incarnations { CleanupPends(d, s, x, now); }
    }
  }

  lemma ForgottenIsAbsent(d: Discipline, s: Service, x: Id)
    requires d.ScheduleKey(x) !in s.pendingSchedules
    ensures PhaseOf(d, Forgotten(s, x), x) == Absent
  {
  }

  lemma CleanupPends(d: Discipline, s: Service, x: Id, now: Time)
    requires x in s.records && x in s.incarnations
    ensures var p := PhaseOf(d, s, x);
            PhaseOf(d, CleanupStarted(s, x, now).0, x) ==
            if p.status.Dispatched? then p else p.(status := CancellationPending)
  {
  }

  /** Every first stretch moves its callback as the automaton says, and asks an adapter exactly when it says. */
  lemma FirstStretchMoves(d: Discipline, s: Service, a: Action, config: Config)
    requires d.Valid() && Slices(d, s) && !a.Answer? && !a.Lose? && (a.Schedule? ==> d.MaySchedule(a.request))
    ensures var r := Begun(d, s, a, config);
            && PhaseOf(d, r.0, Target(a)) == Begins(PhaseOf(d, s, Target(a)), s, a, config)
            && (r.1.Calling? <==> Asks(PhaseOf(d, s, Target(a)), s, a, config))
  {
    assert Slice(d, s, Target(a));
    match a
    case Schedule(request, now, reasons) => ScheduleMoves(d, s, request, now, reasons, config);
    case Cancel(id, key, now) => CancelMoves(d, s, id, key, now, config);
    case Dispatch(id, now, reasons) => DispatchMoves(d, s, id, now, reasons, config);
    case RemoveSchedule(id) => RemoveScheduleMoves(d, s, id, config);
    case RemoveRecord(id, now) => RemoveRecordMoves(d, s, id, now, config);
  }

  lemma ScheduleEnds(d: Discipline, s: Service, x: Id, pending: Pending, outcome: Outcome, now: Time)
    requires d.Valid() && Slice(d, s, x) && FlightHolds(d, s, x, Scheduling(pending))
    ensures PhaseOf(d, EndSchedule(s, pending, outcome, now), x) == Ends(PhaseOf(d, s, x), Scheduling(pending), outcome)
  {
    assert d.Owner(d.ScheduleKey(x)) == x;
  }

  lemma CancelEnds(d: Discipline, s: Service, x: Id, existing: Record, key: Key, outcome: Outcome, now: Time)
    requires d.Valid() && Slice(d, s, x) && FlightHolds(d, s, x, Canceling(existing, key))
    ensures PhaseOf(d, EndCancel(s, x, existing, key, outcome, now), x) ==
            Ends(PhaseOf(d, s, x), Canceling(existing, key), outcome)
  {
  }

  lemma DialEnds(d: Discipline, s: Service, x: Id, record: Record, reference: string, now: Time)
    requires FlightHolds(d, s, x, Dialing(record))
    ensures PhaseOf(d, EndDispatch(s, x, record, reference, now), x) ==
            Ends(PhaseOf(d, s, x), Dialing(record), Done(reference))
  {
  }

  lemma RemoveScheduleEnds(d: Discipline, s: Service, x: Id, pending: Pending, cleanup: Key, outcome: Outcome)
    requires d.Valid() && Slice(d, s, x) && FlightHolds(d, s, x, RemovingSchedule(pending, cleanup))
    ensures PhaseOf(d, EndRemoveSchedule(s, pending, cleanup, outcome), x) ==
            Ends(PhaseOf(d, s, x), RemovingSchedule(pending, cleanup), outcome)
  {
    assert d.Owner(d.ScheduleKey(x)) == x;
  }

  lemma RemoveRecordEnds(d: Discipline, s: Service, x: Id, record: Record, cleanup: Key, outcome: Outcome, now: Time)
    requires d.Valid() && Slice(d, s, x) && FlightHolds(d, s, x, RemovingRecord(record, cleanup))
    ensures PhaseOf(d, EndRemoveRecord(s, x, record, cleanup, outcome, now), x) ==
            Ends(PhaseOf(d, s, x), RemovingRecord(record, cleanup), outcome)
  {
    DecidedCallback(d, s, x);
    ForgottenIsAbsent(d, s, x);
  }

  /** Every answer moves its callback as the automaton says. */
  lemma SecondStretchMoves(d: Discipline, s: Service, x: Id, flight: Flight, outcome: Outcome, now: Time)
    requires d.Valid() && Slice(d, s, x) && FlightHolds(d, s, x, flight) && (flight.Dialing? ==> outcome.Done?)
    ensures PhaseOf(d, Ended(s, x, flight, outcome, now), x) == Ends(PhaseOf(d, s, x), flight, outcome)
  {
    match flight
    case Scheduling(pending) => ScheduleEnds(d, s, x, pending, outcome, now);
    case Canceling(existing, key) => CancelEnds(d, s, x, existing, key, outcome, now);
    case Dialing(record) => DialEnds(d, s, x, record, outcome.reference, now);
    case RemovingSchedule(pending, cleanup) => RemoveScheduleEnds(d, s, x, pending, cleanup, outcome);
    case RemovingRecord(record, cleanup) => RemoveRecordEnds(d, s, x, record, cleanup, outcome, now);
  }

  lemma PhaseElsewhere(d: Discipline, s: Service, t: Service, x: Id, y: Id)
    requires d.Valid() && TouchesOnly(d, s, t, x) && y != x
    ensures PhaseOf(d, t, y) == PhaseOf(d, s, y)
  {
    assert d.Owner(d.ScheduleKey(y)) == y;
  }

  /** The phase a move leads a callback to. */
  function Moves(d: Discipline, w: World, m: Move, x: Id, config: Config): Phase
    requires MayMove(d, w, m)
  {
    var p := PhaseOf(d, w.service, x);
    if m.Release? || Target(m.action) != x || m.action.Lose? then p
    else if m.action.Answer? then Ends(p, w.flights[x], m.action.outcome)
    else Begins(p, w.service, m.action, config)
  }

  /** Every move of every interleaving moves every callback exactly as the automaton does. */
  lemma EveryMoveFollows(d: Discipline, w: World, m: Move, x: Id, config: Config)
    requires d.Valid() && Inv(d, w, config) && MayMove(d, w, m)
    ensures PhaseOf(d, Moved(d, w, m, config).service, x) == Moves(d, w, m, x, config)
  {
    assert Slice(d, w.service, x);
    if m.Stretch? {
      var a := m.action;
      if Target(a) != x {
        var reply := StepIsGood(d, w, a, config);
        PhaseElsewhere(d, w.service, Step(d, w, a, config).service, Target(a), x);
      } else if a.Answer? {
        SecondStretchMoves(d, w.service, x, w.flights[x], a.outcome, a.now);
      } else if !a.Lose? {
        FirstStretchMoves(d, w.service, a, config);
      }
    }
  }

  /** A callback that may still ring, or that the scheduler may still hold. */
  predicate Held(p: Phase, config: Config) {
    p.Arranging? || (p.Filed? && !Droppable(p, config))
  }

  /** It is only let go when the scheduler accepts its cancellation, or refuses its schedule. */
  lemma HeldUntilAccepted(d: Discipline, w: World, m: Move, x: Id, config: Config)
    requires d.Valid() && Inv(d, w, config) && MayMove(d, w, m)
    requires Held(PhaseOf(d, w.service, x), config) && PhaseOf(d, Moved(d, w, m, config).service, x) == Absent
    ensures m.Stretch? && m.action.Answer? && m.action.id == x
    ensures var flight := w.flights[x];
            if m.action.outcome.Done? then flight.RemovingSchedule? || flight.RemovingRecord? else flight.Scheduling?
  {
    EveryMoveFollows(d, w, m, x, config);
    if m.Stretch? && m.action.Answer? && m.action.id == x {
      assert FlightHolds(d, w.service, x, w.flights[x]);
    }
  }

  // ---- What the answers are worth. ----

  /** An accepted schedule is filed under the adapter's reference and the incarnation it was given, and its key answers
      with it from then on. */
  lemma AcceptedScheduleIsFiled(d: Discipline, w: World, x: Id, reference: string, now: Time, config: Config)
    requires d.Valid() && Inv(d, w, config) && x in w.flights && w.flights[x].Scheduling?
    ensures var pending := w.flights[x].pending;
            var t := Step(d, w, Answer(x, Done(reference), now), config).service;
            var record := Record(pending.request, Scheduled, Some(reference), [], now);
            && PhaseOf(d, t, x) == Filed(pending.request, Scheduled, Some(reference), [], Some(pending.incarnation))
            && CheckOperation(t, pending.request.key, OfSchedule(pending.request)) == Success(Some(record))
  {
    var flight := w.flights[x];
    assert Slice(d, w.service, x) && FlightHolds(d, w.service, x, flight);
    EveryMoveFollows(d, w, Stretch(Answer(x, Done(reference), now)), x, config);
    assert d.Owner(flight.pending.request.key) == x;
  }

  /** An accepted cancel is filed as canceled under the adapter's reference, and its key answers with it from then on. */
  lemma AcceptedCancelIsFiled(d: Discipline, w: World, x: Id, reference: string, now: Time, config: Config)
    requires d.Valid() && Inv(d, w, config) && x in w.flights && w.flights[x].Canceling?
    ensures var existing, t := w.flights[x].existing, Step(d, w, Answer(x, Done(reference), now), config).service;
            var canceled := WithStatus(existing, Canceled, now).(reference := Some(reference));
            && PhaseOf(d, t, x) == PhaseOf(d, w.service, x).(status := Canceled, reference := Some(reference))
            && CheckOperation(t, w.flights[x].key, OfCancel(x)) == Success(Some(canceled))
  {
    var flight := w.flights[x];
    assert Slice(d, w.service, x) && FlightHolds(d, w.service, x, flight);
    EveryMoveFollows(d, w, Stretch(Answer(x, Done(reference), now)), x, config);
    assert d.Owner(flight.key) == x;
  }

  lemma DialedIsDoomed(d: Discipline, s: Service, x: Id, record: Record, reference: string, now: Time)
    requires d.Valid() && Slice(d, s, x) && FlightHolds(d, s, x, Dialing(record))
    ensures x in s.incarnations && Doomed(d, EndDispatch(s, x, record, reference, now), x, s.incarnations[x])
  {
    assert d.Owner(d.ScheduleKey(x)) == x && Incarnated(s.records[x].status);
  }

  /** A dial that succeeded leaves the callback dispatched under the adapter's reference, and in no later state of any
      run does a dispatch dial that incarnation again. */
  lemma DialedOnce(d: Discipline, w: World, x: Id, reference: string, now: Time, moves: seq<Move>, config: Config,
                   dispatch: Action)
    requires d.Valid() && Inv(d, w, config) && x in w.flights && w.flights[x].Dialing?
    requires Legal(d, Step(d, w, Answer(x, Done(reference), now), config), moves, config)
    requires dispatch.Dispatch? && dispatch.id == x
    ensures x in w.service.incarnations
    ensures var t := Step(d, w, Answer(x, Done(reference), now), config).service;
            PhaseOf(d, t, x) == PhaseOf(d, w.service, x).(status := Dispatched, reference := Some(reference))
    ensures var later := Run(d, Step(d, w, Answer(x, Done(reference), now), config), moves, config).service;
            Begun(d, later, dispatch, config).1.Calling? ==>
              x in later.incarnations && later.incarnations[x] != w.service.incarnations[x]
  {
    var answer := Answer(x, Done(reference), now);
    var next := Step(d, w, answer, config);
    assert Slice(d, w.service, x) && FlightHolds(d, w.service, x, w.flights[x]);
    EveryMoveFollows(d, w, Stretch(answer), x, config);
    DialedIsDoomed(d, w.service, x, w.flights[x].record, reference, now);
    StepKeeps(d, w, answer, config);
    RunDooms(d, next, moves, config, x, w.service.incarnations[x]);
    EveryRunKeeps(d, next, moves, config);
    DialNeedsIncarnation(d, Run(d, next, moves, config).service, x, dispatch.now, dispatch.reasons);
  }

  // ---- Keys of cancellations. ----

  /** A cancellation the scheduler refuses for good leaves its key as a tombstone of the callback, except for a callback
      that was already dispatched. */
  lemma RejectedIsTombstoned(d: Discipline, w: World, x: Id, now: Time, config: Config)
    requires d.Valid() && Inv(d, w, config) && x in w.flights
    ensures var t := Step(d, w, Answer(x, Rejected, now), config);
            match w.flights[x]
            case Canceling(_, key) => key in t.service.failed && t.service.failed[key] == x
            case RemovingSchedule(_, key) => key in t.service.failed && t.service.failed[key] == x
            case RemovingRecord(record, key) =>
              !record.status.Dispatched? ==> key in t.service.failed && t.service.failed[key] == x
            case _ => true
    requires !w.flights[x].Dialing?
  {
    assert FlightHolds(d, w.service, x, w.flights[x]);
  }

  /** The cleanup key of a schedule with no known outcome is remembered until the scheduler answers it. */
  lemma CleanupKeyIsKept(d: Discipline, w: World, m: Move, x: Id, config: Config)
    requires d.Valid() && Inv(d, w, config) && MayMove(d, w, m) && d.ScheduleKey(x) in w.service.scheduleCancellations
    requires !(m.Stretch? && m.action.Answer? && m.action.id == x && w.flights[x].RemovingSchedule?)
    ensures var key, next := d.ScheduleKey(x), Moved(d, w, m, config).service;
            key in next.scheduleCancellations && next.scheduleCancellations[key] == w.service.scheduleCancellations[key]
  {
    assert d.Owner(d.ScheduleKey(x)) == x;
    if m.Stretch? && Target(m.action) != x {
      var reply := StepIsGood(d, w, m.action, config);
    } else if m.Stretch? && m.action.Answer? {
      EndedKeepsCleanup(w.service, x, w.flights[x], m.action.outcome, m.action.now);
    } else if m.Stretch? && !m.action.Lose? {
      BegunKeepsCleanup(d, w.service, m.action, config, d.ScheduleKey(x));
    }
  }

  lemma BegunKeepsCleanup(d: Discipline, s: Service, a: Action, config: Config, key: Key)
    requires !a.Answer? && !a.Lose? && key in s.scheduleCancellations
    ensures var t := Begun(d, s, a, config).0;
            key in t.scheduleCancellations && t.scheduleCancellations[key] == s.scheduleCancellations[key]
  {
    match a
    case Schedule(request, now, reasons) => BeginScheduleFrame(s, request, now, reasons, config);
    case Cancel(id, k, now) => assert BeginCancel(s, id, k, now).0.scheduleCancellations == s.scheduleCancellations;
    case Dispatch(id, now, reasons) =>
      assert BeginDispatch(s, id, now, reasons).0.scheduleCancellations == s.scheduleCancellations;
    case RemoveSchedule(id) =>
    case RemoveRecord(id, now) => RemovalKeepsCleanup(s, id, now, config.ephemeral);
  }

  lemma EndedKeepsCleanup(s: Service, x: Id, flight: Flight, outcome: Outcome, now: Time)
    requires !flight.RemovingSchedule? && (flight.Dialing? ==> outcome.Done?)
    ensures Ended(s, x, flight, outcome, now).scheduleCancellations == s.scheduleCancellations
  {
  }

  lemma RemovalKeepsCleanup(s: Service, id: Id, now: Time, ephemeral: bool)
    ensures BeginRemoveRecord(s, id, now, ephemeral).0.scheduleCancellations == s.scheduleCancellations
  {
    assert Forgotten(s, id).scheduleCancellations == s.scheduleCancellations;
    if id in s.records && id in s.incarnations {
      assert CleanupStarted(s, id, now).0.scheduleCancellations == s.scheduleCancellations;
    }
  }

  /** A cleanup cancellation that was lost is retried under its own key: the remembered one for a pending schedule, the
      held one for a record whose cancellation is pending. */
  lemma LostCleanupKeepsItsKey(d: Discipline, s: Service, x: Id, now: Time, ephemeral: bool)
    requires d.Valid() && Slice(d, s, x)
    ensures var key := d.ScheduleKey(x);
            key in s.pendingSchedules && key in s.scheduleCancellations ==>
              BeginRemoveSchedule(s, key) ==
              (s, Calling(RemovingSchedule(s.pendingSchedules[key], s.scheduleCancellations[key])))
    ensures x in s.pendingCancellations ==>
              BeginRemoveRecord(s, x, now, ephemeral) ==
              (s, Calling(RemovingRecord(s.records[x], s.pendingCancellations[x])))
  {
  }

  /** A cleanup key the scheduler refused for good is not remembered: the next removal mints another. */
  lemma RejectedCleanupIsNotReused(d: Discipline, w: World, x: Id, now: Time, config: Config)
    requires d.Valid() && Inv(d, w, config) && x in w.flights && w.flights[x].RemovingSchedule?
    ensures var pending, t := w.flights[x].pending, Step(d, w, Answer(x, Rejected, now), config).service;
            && d.ScheduleKey(x) in t.pendingSchedules && d.ScheduleKey(x) !in t.scheduleCancellations
            && BeginRemoveSchedule(t, d.ScheduleKey(x)).1 ==
               Calling(RemovingSchedule(pending, MintedKey(t, x, pending.incarnation)))
  {
    assert FlightHolds(d, w.service, x, w.flights[x]) && d.Owner(d.ScheduleKey(x)) == x;
  }

  /** The cleanup key that is already held for the callback a removal is about. */
  function HeldKey(d: Discipline, s: Service, a: Action): Option<Key> {
    match a
    case RemoveSchedule(id) =>
      var key := d.ScheduleKey(id);
      if key in s.scheduleCancellations then Some(s.scheduleCancellations[key]) else None
    case RemoveRecord(id, _) => if id in s.pendingCancellations then Some(s.pendingCancellations[id]) else None
    case _ => None
  }

  /** A removal asks with the key it holds, and otherwise with one that was never minted before; nothing is minted that is
      not asked with. */
  lemma CleanupKeysAreMinted(d: Discipline, w: World, a: Action, config: Config)
    requires d.Valid() && Inv(d, w, config) && Enabled(d, w, a) && (a.RemoveSchedule? || a.RemoveRecord?)
    ensures var s := w.service;
            var reply, held, minted := Begun(d, s, a, config).1, HeldKey(d, s, a), Mints(d, s, a, config);
            && (reply.Calling? ==>
                  && (reply.flight.RemovingSchedule? || reply.flight.RemovingRecord?)
                  && Some(reply.flight.cleanup) == if held.Some? then held else minted)
            && (minted.Some? <==> reply.Calling? && held.None?)
            && (minted.Some? ==> minted.value !in w.minted)
  {
    MintsAreNew(d, w, a, config);
    assert Slice(d, w.service, a.id) && d.Owner(d.ScheduleKey(a.id)) == a.id;
    if a.RemoveSchedule? {
      ScheduleRemovalMints(d, w.service, a.id, config);
    } else {
      RecordRemovalMints(d, w.service, a.id, a.now, config);
    }
  }

  lemma ScheduleRemovalMints(d: Discipline, s: Service, x: Id, config: Config)
    requires d.Valid() && Slice(d, s, x) && d.Owner(d.ScheduleKey(x)) == x
    ensures var a := RemoveSchedule(x);
            var reply, held, minted := Begun(d, s, a, config).1, HeldKey(d, s, a), Mints(d, s, a, config);
            && (reply.Calling? ==>
                  reply.flight.RemovingSchedule? && Some(reply.flight.cleanup) == if held.Some? then held else minted)
            && (minted.Some? <==> reply.Calling? && held.None?)
  {
  }

  lemma RecordRemovalMints(d: Discipline, s: Service, x: Id, now: Time, config: Config)
    requires d.Valid() && Slice(d, s, x)
    ensures var a := RemoveRecord(x, now);
            var reply, held, minted := Begun(d, s, a, config).1, HeldKey(d, s, a), Mints(d, s, a, config);
            && (reply.Calling? ==>
                  reply.flight.RemovingRecord? && Some(reply.flight.cleanup) == if held.Some? then held else minted)
            && (minted.Some? <==> reply.Calling? && held.None?)
  {
  }

  // ---- When a record changed. ----

  /** The clock an operation reads, where it reads one. */
  function ClockOf(a: Action): Option<Time> {
    match a
    case Schedule(_, now, _) => Some(now)
    case Cancel(_, _, now) => Some(now)
    case Dispatch(_, now, _) => Some(now)
    case RemoveRecord(_, now) => Some(now)
    case Answer(_, _, now) => Some(now)
    case _ => None
  }

  /** A record is changed only by an operation on its callback, and is stamped with that operation's time. */
  ghost predicate Stamped(s: Service, t: Service, x: Id, clock: Option<Time>) {
    x in t.records && (x in s.records ==> s.records[x] != t.records[x]) ==> clock == Some(t.records[x].updatedAt)
  }

  lemma ChangesAreStamped(d: Discipline, w: World, a: Action, x: Id, config: Config)
    requires d.Valid() && Inv(d, w, config) && Enabled(d, w, a)
    ensures Stamped(w.service, Step(d, w, a, config).service, x, if Target(a) == x then ClockOf(a) else None)
  {
    if Target(a) != x {
      var reply := StepIsGood(d, w, a, config);
    } else if a.Answer? {
      assert FlightHolds(d, w.service, x, w.flights[x]);
      EndedIsStamped(d, w.service, x, w.flights[x], a.outcome, a.now);
    } else if !a.Lose? {
      BegunIsStamped(d, w.service, a, config);
    }
  }

  lemma BegunIsStamped(d: Discipline, s: Service, a: Action, config: Config)
    requires !a.Answer? && !a.Lose?
    ensures Stamped(s, Begun(d, s, a, config).0, Target(a), ClockOf(a))
  {
    match a
    case Schedule(request, now, reasons) => ScheduleIsStamped(s, request, now, reasons, config);
    case Cancel(id, key, now) =>
    case Dispatch(id, now, reasons) =>
    case RemoveSchedule(id) => assert BeginRemoveSchedule(s, d.ScheduleKey(id)).0.records == s.records;
    case RemoveRecord(id, now) => RemovalIsStamped(s, id, now, config.ephemeral);
  }

  lemma ScheduleIsStamped(s: Service, request: Request, now: Time, reasons: seq<Reason>, config: Config)
    ensures Stamped(s, BeginSchedule(s, request, now, reasons, config).0, request.callbackId, Some(now))
  {
    BlockedIsStamped(s, request, reasons, now);
    BlockedIsStamped(s, request, [CallbackTimeInvalid], now);
    assert Admitted(s, request).0.records == s.records;
  }

  lemma BlockedIsStamped(s: Service, request: Request, reasons: seq<Reason>, now: Time)
    ensures Stamped(s, BlockedReply(s, request, reasons, now).0, request.callbackId, Some(now))
  {
  }

  lemma RemovalIsStamped(s: Service, id: Id, now: Time, ephemeral: bool)
    ensures Stamped(s, BeginRemoveRecord(s, id, now, ephemeral).0, id, Some(now))
  {
  }

  lemma EndedIsStamped(d: Discipline, s: Service, x: Id, flight: Flight, outcome: Outcome, now: Time)
    requires FlightHolds(d, s, x, flight) && (flight.Dialing? ==> outcome.Done?)
    ensures Stamped(s, Ended(s, x, flight, outcome, now), x, Some(now))
  {
  }

  // ---- What removal leaves. ----

  /** Of a callback whose incarnation was n nothing is left but the tombstones of its failed cancellations. */
  ghost predicate Gone(d: Discipline, s: Service, x: Id, n: nat) {
    && PhaseOf(d, s, x) == Absent
    && x !in s.pendingCancellations && x !in s.incarnations && (x, n) !in s.attempts
    && forall k :: d.Owner(k) == x ==> k !in s.results && (k in s.fingerprints <==> k in s.failed)
  }

  /** A removal the scheduler accepts forgets the callback, its decided keys and its attempt counter. */
  lemma AcceptedRemovalForgets(d: Discipline, w: World, x: Id, reference: string, now: Time, config: Config)
    requires d.Valid() && Inv(d, w, config) && x in w.flights
    requires w.flights[x].RemovingSchedule? || w.flights[x].RemovingRecord?
    ensures var flight, t := w.flights[x], Step(d, w, Answer(x, Done(reference), now), config).service;
            if flight.RemovingSchedule? then
              Gone(d, t, x, flight.pending.incarnation) && d.ScheduleKey(x) !in t.scheduleCancellations
            else x in w.service.incarnations && Gone(d, t, x, w.service.incarnations[x])
  {
    var s, flight := w.service, w.flights[x];
    assert Slice(d, s, x) && FlightHolds(d, s, x, flight);
    if flight.RemovingSchedule? {
      RemovedScheduleIsGone(d, s, x, flight.pending, flight.cleanup, Done(reference));
    } else {
      ForgottenIsGone(d, s, x);
    }
  }

  lemma RemovedScheduleIsGone(d: Discipline, s: Service, x: Id, pending: Pending, cleanup: Key, outcome: Outcome)
    requires d.Valid() && Slice(d, s, x) && FlightHolds(d, s, x, RemovingSchedule(pending, cleanup)) && outcome.Done?
    ensures Gone(d, EndRemoveSchedule(s, pending, cleanup, outcome), x, pending.incarnation)
    ensures d.ScheduleKey(x) !in EndRemoveSchedule(s, pending, cleanup, outcome).scheduleCancellations
  {
    assert d.Owner(d.ScheduleKey(x)) == x;
  }

  lemma ForgottenIsGone(d: Discipline, s: Service, x: Id)
    requires d.Valid() && Slice(d, s, x) && x in s.records && x in s.incarnations
    ensures Gone(d, Forgotten(s, x), x, s.incarnations[x])
  {
    assert d.Owner(d.ScheduleKey(x)) == x;
    DecidedCallback(d, s, x);
    ForgottenIsAbsent(d, s, x);
  }

  // ---- Decided keys. ----

  /** A decided schedule key answers its own request with what was stored and refuses any other, changing nothing. */
  lemma DecidedScheduleKey(d: Discipline, s: Service, request: Request, now: Time, reasons: seq<Reason>, config: Config)
    requires d.Valid() && d.MaySchedule(request) && Slice(d, s, request.callbackId) && request.key in s.fingerprints
    ensures request.key in s.results
    ensures BeginSchedule(s, request, now, reasons, config) ==
            (s, if s.results[request.key].request == request then Answered(s.results[request.key]) else Refused(KeyReused))
  {
    assert d.Owner(request.key) == request.callbackId;
  }

  /** A decided cancel key answers its callback with what was stored, or is refused if its cancellation failed for good. */
  lemma DecidedCancelKey(d: Discipline, s: Service, x: Id, key: Key, now: Time)
    requires d.Valid() && d.MayCancel(x, key) && Slice(d, s, x) && key in s.fingerprints && !Blank(key.text)
    ensures BeginCancel(s, x, key, now) ==
            (s, if key in s.failed then Refused(KeyFailed) else Answered(s.results[key]))
  {
    assert d.Owner(key) == x && key != d.ScheduleKey(x);
  }
}
