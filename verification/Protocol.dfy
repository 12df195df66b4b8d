/** Any number of engines taking turns on one lead, interleaved step by step around one durable log. */
module Protocol {
  import opened Common
  import opened Conversation
  import opened SessionReplay
  import opened EventLog
  import opened Journal

  /** One session as one engine holds it. Only one turn runs at a time on each. */
  datatype Worker = Worker(engine: nat, session: Uuid)

  datatype Stage =
    | Idle
    | Prepared(rq: Request, version: nat)
    | Ran(rq: Request, version: nat, result: TurnResult)
    | Beaten(rq: Request)

  datatype Slot = Slot(live: Checkpoint, rollback: Checkpoint, stage: Stage)

  datatype System = System(lead: Uuid, maxEvents: nat, log: seq<Entry>, slots: map<Worker, Slot>)

  /** The atomic steps: everything between two accesses to the store. */
  datatype Action =
    | Open(w: Worker, config: ValidConfig)
    | Recover(w: Worker, digestKey: Digest)
    | Synchronize(w: Worker)
    | Close(w: Worker)
    | BeginTurn(w: Worker, operationId: Uuid, fingerprint: Digest, expected: Option<nat>)
    | RunTurn(w: Worker, input: TurnInput)
    | TurnRaises(w: Worker)
    | AppendTurn(w: Worker, occurredAt: int, acknowledged: bool)
    | AppendFails(w: Worker)
    | FinishBeaten(w: Worker)
    | ReloadFails(w: Worker)
    | ForeignAppend(occurredAt: int)

  predicate NotBefore(log: seq<Entry>, occurredAt: int) {
    log != [] ==> log[|log| - 1].occurredAt <= occurredAt
  }

  /** What may happen next: the stage each step continues, plus fresh identifiers and a clock that does not
      run backwards. */
  ghost predicate Enabled(s: System, a: Action) {
    match a
    case Open(w, _) => w !in s.slots
    case Recover(w, _) => w !in s.slots
    case Synchronize(w) => w in s.slots && s.slots[w].stage.Idle?
    case Close(w) => w in s.slots && s.slots[w].stage.Idle?
    case BeginTurn(w, _, _, _) => w in s.slots && s.slots[w].stage.Idle?
    case RunTurn(w, input) => w in s.slots && s.slots[w].stage.Prepared? && FreshInput(input, s.log)
    case TurnRaises(w) => w in s.slots && s.slots[w].stage.Prepared?
    case AppendTurn(w, t, _) => w in s.slots && s.slots[w].stage.Ran? && NotBefore(s.log, t)
    case AppendFails(w) => w in s.slots && s.slots[w].stage.Ran?
    case FinishBeaten(w) => w in s.slots && s.slots[w].stage.Beaten?
    case ReloadFails(w) => w in s.slots && s.slots[w].stage.Beaten?
    case ForeignAppend(t) => NotBefore(s.log, t)
  }

  function RolledBack(slot: Slot, stage: Stage): Slot {
    Slot(slot.rollback, slot.rollback, stage)
  }

  /** The replay of a session from the log as it stands, when it loads under this digest key. */
  function DurableState(s: System, session: Uuid, digestKey: Digest): Option<Checkpoint> {
    var loaded := Load(s.lead, s.log, s.maxEvents);
    if loaded.Failure? then None
    else
      var replay := Replay(s.lead, Session(loaded.value, session));
      if replay.Success? && replay.value.config.digestKeyId == digestKey then Some(replay.value) else None
  }

  /** A slot after preparing a turn: ready, moved to what the journal already holds, or refused. */
  function AfterBegin(slot: Slot, rq: Request, expected: Option<nat>, log: seq<Entry>, maxEvents: nat): Slot {
    match Prepare(rq, expected, slot.live, slot.live.config.digestKeyId, log, maxEvents)
    case Ready(version) => Slot(slot.live, slot.live, Prepared(rq, version))
    case Existing(_, cp) => Slot(cp, cp, Idle)
    case Refused(_) => slot
  }

  function AfterRun(slot: Slot, input: TurnInput): Slot
    requires slot.stage.Prepared?
  {
    match ProcessTurn(slot.live, input)
    case Failure(_) => RolledBack(slot, Idle)
    case Success(o) => Slot(o.state, slot.rollback, Ran(slot.stage.rq, slot.stage.version, o.result))
  }

  function AfterReconcile(slot: Slot, log: seq<Entry>, maxEvents: nat): Slot
    requires slot.stage.Beaten?
  {
    var end := Reconcile(slot.stage.rq, slot.rollback, slot.rollback.config.digestKeyId, log, maxEvents);
    Slot(end.live, end.live, Idle)
  }

  /** Take one step. A step that is refused leaves the system as it was. An append may take effect although
      its writer sees an error (`acknowledged` false). */
  function Step(s: System, a: Action): System
    requires Enabled(s, a)
  {
    match a
    case Open(w, config) =>
      var cp := Initial(s.lead, config);
      s.(slots := s.slots[w := Slot(cp, cp, Idle)])
    case Recover(w, key) =>
      var d := DurableState(s, w.session, key);
      if d.Some? then s.(slots := s.slots[w := Slot(d.value, d.value, Idle)]) else s
    case Synchronize(w) =>
      var d := DurableState(s, w.session, s.slots[w].live.config.digestKeyId);
      if d.Some? then s.(slots := s.slots[w := Slot(d.value, d.value, Idle)]) else s
    case Close(w) => s.(slots := s.slots - {w})
    case BeginTurn(w, op, fp, expected) =>
      var rq := Request(s.lead, w.session, op, fp);
      s.(slots := s.slots[w := AfterBegin(s.slots[w], rq, expected, s.log, s.maxEvents)])
    case RunTurn(w, input) => s.(slots := s.slots[w := AfterRun(s.slots[w], input)])
    case TurnRaises(w) => s.(slots := s.slots[w := RolledBack(s.slots[w], Idle)])
    case AppendTurn(w, t, acknowledged) =>
      var slot := s.slots[w];
      var rq := slot.stage.rq;
      var event := EventFromState(rq.sessionId, rq.operationId, rq.fingerprint, slot.live, slot.stage.result);
      if slot.live.leadId != rq.leadId || event.Failure? then s.(slots := s.slots[w := RolledBack(slot, Idle)])
      else if |s.log| != slot.stage.version then s.(slots := s.slots[w := RolledBack(slot, Beaten(rq))])
      else
        s.(log := s.log + [Entry(|s.log| + 1, t, Accepted(event.value))],
           slots := s.slots[w := if acknowledged then Slot(slot.live, slot.live, Idle) else RolledBack(slot, Idle)])
    case AppendFails(w) => s.(slots := s.slots[w := RolledBack(s.slots[w], Idle)])
    case FinishBeaten(w) =>
      s.(slots := s.slots[w := AfterReconcile(s.slots[w], s.log, s.maxEvents)])
    case ReloadFails(w) => s.(slots := s.slots[w := RolledBack(s.slots[w], Idle)])
    case ForeignAppend(t) => s.(log := s.log + [Entry(|s.log| + 1, t, Foreign)])
  }

  /** `cp` is the session's replay of some durable prefix of the log, or a state not started while that prefix
      has no turn of it. */
  ghost predicate Durable(lead: Uuid, log: seq<Entry>, session: Uuid, cp: Checkpoint) {
    exists k :: 0 <= k <= |log| && DurableAt(lead, log, session, cp, k)
  }

  ghost predicate DurableAt(lead: Uuid, log: seq<Entry>, session: Uuid, cp: Checkpoint, k: nat)
    requires k <= |log|
  {
    StateAfter(lead, SessionEvents(log[..k], session), cp)
  }

  /** The turn was prepared at this version, which still is a prefix of the log. */
  ghost predicate PreparedAt(lead: Uuid, maxEvents: nat, log: seq<Entry>, w: Worker, slot: Slot, rq: Request, v: nat) {
    && rq.leadId == lead && rq.sessionId == w.session
    && v <= |log| && v < maxEvents
    && DurableAt(lead, log, w.session, slot.rollback, v)
    && !KnownOperation(log[..v], rq.operationId)
  }

  ghost predicate SlotOk(lead: Uuid, maxEvents: nat, log: seq<Entry>, w: Worker, slot: Slot) {
    match slot.stage
    case Idle => Durable(lead, log, w.session, slot.live)
    case Prepared(rq, v) => slot.live == slot.rollback && PreparedAt(lead, maxEvents, log, w, slot, rq, v)
    case Ran(rq, v, result) =>
      && PreparedAt(lead, maxEvents, log, w, slot, rq, v)
      && exists input :: FreshInput(input, log[..v])
                         && ProcessTurn(slot.rollback, input) == Success(Outcome(slot.live, result))
    case Beaten(rq) =>
      slot.live == slot.rollback && Durable(lead, log, w.session, slot.live)
      && rq.leadId == lead && rq.sessionId == w.session
  }

  /** No turn is stored past the capacity. */
  ghost predicate WithinCapacity(log: seq<Entry>, maxEvents: nat) {
    forall i :: 0 <= i < |log| && log[i].payload.Accepted? ==> i < maxEvents
  }

  ghost predicate Inv(s: System) {
    && Produced(s.lead, s.log)
    && WithinCapacity(s.log, s.maxEvents)
    && SlotsOk(s.lead, s.maxEvents, s.log, s.slots)
  }

  // ----- every step keeps it -----

  lemma SlotOkGrows(lead: Uuid, maxEvents: nat, log: seq<Entry>, e: Entry, w: Worker, slot: Slot)
    requires SlotOk(lead, maxEvents, log, w, slot)
    ensures SlotOk(lead, maxEvents, log + [e], w, slot)
  {
    forall k | 0 <= k <= |log| ensures (log + [e])[..k] == log[..k] {}
    if slot.stage.Idle? || slot.stage.Beaten? {
      var k :| 0 <= k <= |log| && DurableAt(lead, log, w.session, slot.live, k);
      assert DurableAt(lead, log + [e], w.session, slot.live, k);
    }
  }

  lemma DurableNow(lead: Uuid, log: seq<Entry>, session: Uuid, cp: Checkpoint)
    requires StateAfter(lead, SessionEvents(log, session), cp)
    ensures DurableAt(lead, log, session, cp, |log|)
    ensures Durable(lead, log, session, cp)
  {
    assert log[..|log|] == log;
    var k := |log|;
    assert DurableAt(lead, log, session, cp, k);
  }

  lemma {:induction false} UnfoundIsUnknown(turns: seq<JournaledTurn>, rq: Request)
    requires FindOperation(turns, rq) == Success(None)
    ensures forall t :: t in turns ==> t.event.operationId != rq.operationId
  {
    if turns != [] {
      UnfoundIsUnknown(turns[1..], rq);
      assert forall t :: t in turns <==> t == turns[0] || t in turns[1..];
    }
  }

  lemma {:induction false} TurnsHoldEvents(log: seq<Entry>, i: nat)
    requires i < |log| && log[i].payload.Accepted?
    ensures JournaledTurn(log[i].version, log[i].occurredAt, log[i].payload.event) in Turns(log)
  {
    if i < |log| - 1 { TurnsHoldEvents(log[..|log| - 1], i); }
  }

  /** A turn is only prepared on a live state that is the session's state in the whole log. */
  lemma ReadyMatches(lead: Uuid, log: seq<Entry>, session: Uuid, live: Checkpoint)
    requires Durable(lead, log, session, live)
    requires if SessionEvents(log, session) == [] then live.turnCount == 0
             else Replay(lead, SessionEvents(log, session)) == Success(live)
    ensures DurableAt(lead, log, session, live, |log|)
  {
    var k :| 0 <= k <= |log| && DurableAt(lead, log, session, live, k);
    StateAfterIsValid(lead, SessionEvents(log[..k], session), live);
    DurableNow(lead, log, session, live);
  }

  lemma UnfoundIsUnknownInLog(log: seq<Entry>, rq: Request)
    requires FindOperation(Turns(log), rq) == Success(None)
    ensures !KnownOperation(log, rq.operationId)
  {
    UnfoundIsUnknown(Turns(log), rq);
    forall i | 0 <= i < |log| && log[i].payload.Accepted? ensures log[i].payload.event.operationId != rq.operationId {
      TurnsHoldEvents(log, i);
    }
  }

  lemma BeginKeeps(lead: Uuid, maxEvents: nat, log: seq<Entry>, w: Worker, slot: Slot, rq: Request, expected: Option<nat>)
    requires Durable(lead, log, w.session, slot.live) && slot.stage.Idle?
    requires rq.leadId == lead && rq.sessionId == w.session
    ensures SlotOk(lead, maxEvents, log, w, AfterBegin(slot, rq, expected, log, maxEvents))
  {
    var p := Prepare(rq, expected, slot.live, slot.live.config.digestKeyId, log, maxEvents);
    if p.Ready? {
      ReadyFacts(rq, expected, slot.live, slot.live.config.digestKeyId, log, maxEvents);
      ReadyMatches(lead, log, w.session, slot.live);
      UnfoundIsUnknownInLog(log, rq);
      assert log[..|log|] == log;
    } else if p.Existing? {
      ExistingFacts(rq, expected, slot.live, slot.live.config.digestKeyId, log, maxEvents);
      DurableNow(lead, log, w.session, p.checkpoint);
    }
  }

  lemma RunKeeps(lead: Uuid, maxEvents: nat, log: seq<Entry>, w: Worker, slot: Slot, input: TurnInput)
    requires SlotOk(lead, maxEvents, log, w, slot) && slot.stage.Prepared? && FreshInput(input, log)
    ensures SlotOk(lead, maxEvents, log, w, AfterRun(slot, input))
  {
    var v := slot.stage.version;
    FreshForPrefix(input, log, v);
    if ProcessTurn(slot.live, input).Failure? {
      assert DurableAt(lead, log, w.session, slot.rollback, v);
    }
  }

  lemma ReconcileKeeps(lead: Uuid, maxEvents: nat, log: seq<Entry>, w: Worker, slot: Slot)
    requires SlotOk(lead, maxEvents, log, w, slot) && slot.stage.Beaten?
    ensures SlotOk(lead, maxEvents, log, w, AfterReconcile(slot, log, maxEvents))
  {
    var key := slot.rollback.config.digestKeyId;
    ReconcileReplays(slot.stage.rq, slot.rollback, key, log, maxEvents);
    var end := Reconcile(slot.stage.rq, slot.rollback, key, log, maxEvents);
    if Replay(lead, SessionEvents(log, w.session)) == Success(end.live) {
      DurableNow(lead, log, w.session, end.live);
    }
  }

  /** A successful append: the log it extends is the one the turn was prepared and run against, so the entry is
      a produced one, and the live state is the replay of the new log. */
  lemma AppendKeeps(s: System, w: Worker, t: int)
    requires Inv(s) && w in s.slots && s.slots[w].stage.Ran? && NotBefore(s.log, t)
    requires |s.log| == s.slots[w].stage.version
    ensures var slot := s.slots[w];
            var rq := slot.stage.rq;
            var event := EventFromState(w.session, rq.operationId, rq.fingerprint, slot.live, slot.stage.result);
            && slot.live.leadId == s.lead && event.Success?
            && var log' := s.log + [Entry(|s.log| + 1, t, Accepted(event.value))];
               Produced(s.lead, log') && Replay(s.lead, SessionEvents(log', w.session)) == Success(slot.live)
  {
    var slot := s.slots[w];
    var rq, v := slot.stage.rq, slot.stage.version;
    assert s.log[..v] == s.log && SlotOk(s.lead, s.maxEvents, s.log, w, slot);
    var input :| FreshInput(input, s.log[..v])
                 && ProcessTurn(slot.rollback, input) == Success(Outcome(slot.live, slot.stage.result));
    TurnExtends(s.lead, s.log, slot.rollback, input, slot.live, slot.stage.result, w.session, rq.operationId,
                rq.fingerprint, t);
  }

  /** The event of one turn, run from the state the log gives its session, extends the log as an engine may. */
  lemma TurnExtends(lead: Uuid, log: seq<Entry>, cp: Checkpoint, input: TurnInput, live: Checkpoint, result: TurnResult,
                    session: Uuid, operationId: Uuid, fingerprint: Digest, t: int)
    requires Produced(lead, log) && NotBefore(log, t) && !KnownOperation(log, operationId) && FreshInput(input, log)
    requires StateAfter(lead, SessionEvents(log, session), cp)
    requires ProcessTurn(cp, input) == Success(Outcome(live, result))
    ensures var event := EventFromState(session, operationId, fingerprint, live, result);
            && live.leadId == lead && event.Success?
            && var log' := log + [Entry(|log| + 1, t, Accepted(event.value))];
               Produced(lead, log') && Replay(lead, SessionEvents(log', session)) == Success(live)
  {
    var events := SessionEvents(log, session);
    StateAfterIsValid(lead, events, cp);
    TurnKeepsValid(cp, input);
    ReplayFollowsTurn(lead, events, cp, input, session, operationId, fingerprint);
    var ev := EventFromState(session, operationId, fingerprint, live, result).value;
    var e := Entry(|log| + 1, t, Accepted(ev));
    assert ProducedBy(lead, log, ev, cp, input);
    assert ProducedEntry(lead, log, e);
    assert (log + [e])[..|log|] == log;
    SessionEventsAppend(log, e, session);
  }

  lemma FreshForPrefix(input: TurnInput, log: seq<Entry>, v: nat)
    requires FreshInput(input, log) && v <= |log|
    ensures FreshInput(input, log[..v])
  {
    forall id | KnownFactId(log[..v], id) ensures KnownFactId(log, id) {
      var i, f :| 0 <= i < v && log[..v][i].payload.Accepted? && f in log[..v][i].payload.event.result.facts
                  && f.factId == id;
      assert log[i].payload.Accepted? && f in log[i].payload.event.result.facts;
    }
    forall id | KnownRevisionId(log[..v], id) ensures KnownRevisionId(log, id) {
      var i, r :| 0 <= i < v && log[..v][i].payload.Accepted? && r in log[..v][i].payload.event.result.revisions
                  && r.revisionId == id;
      assert log[i].payload.Accepted? && r in log[i].payload.event.result.revisions;
    }
  }

  lemma DurableStateIsDurable(s: System, session: Uuid, digestKey: Digest)
    ensures var d := DurableState(s, session, digestKey);
            d.Some? ==> Durable(s.lead, s.log, session, d.value)
  {
    var d := DurableState(s, session, digestKey);
    if d.Some? {
      DurableStateReplays(s, session, digestKey);
      ReplayIsDurable(s.lead, s.log, session, d.value);
    }
  }

  lemma DurableStateReplays(s: System, session: Uuid, digestKey: Digest)
    requires DurableState(s, session, digestKey).Some?
    ensures Replay(s.lead, SessionEvents(s.log, session)) == Success(DurableState(s, session, digestKey).value)
  {
    assert Load(s.lead, s.log, s.maxEvents).value == Turns(s.log);
  }

  lemma ReplayIsDurable(lead: Uuid, log: seq<Entry>, session: Uuid, cp: Checkpoint)
    requires Replay(lead, SessionEvents(log, session)) == Success(cp)
    ensures Durable(lead, log, session, cp)
  {
    DurableNow(lead, log, session, cp);
  }

  /** The event an append would store. */
  function ProposedEvent(w: Worker, slot: Slot): Result<TurnEvent, EventError>
    requires slot.stage.Ran?
  {
    EventFromState(w.session, slot.stage.rq.operationId, slot.stage.rq.fingerprint, slot.live, slot.stage.result)
  }

  lemma WinningStep(s: System, w: Worker, t: int, acknowledged: bool)
    requires Enabled(s, AppendTurn(w, t, acknowledged)) && |s.log| == s.slots[w].stage.version
    requires s.slots[w].stage.rq.sessionId == w.session && s.slots[w].live.leadId == s.slots[w].stage.rq.leadId
    requires ProposedEvent(w, s.slots[w]).Success?
    ensures var s' := Step(s, AppendTurn(w, t, acknowledged));
            && s'.log == s.log + [Entry(|s.log| + 1, t, Accepted(ProposedEvent(w, s.slots[w]).value))]
            && s'.slots[w] == if acknowledged then Slot(s.slots[w].live, s.slots[w].live, Idle)
                              else RolledBack(s.slots[w], Idle)
  {
  }

  /** The append that succeeds leaves its writer at the new log, or rolled back to the version it extended. */
  lemma AppendWins(s: System, w: Worker, t: int, acknowledged: bool)
    requires Inv(s) && Enabled(s, AppendTurn(w, t, acknowledged)) && |s.log| == s.slots[w].stage.version
    ensures var s' := Step(s, AppendTurn(w, t, acknowledged));
            && s'.slots[w].stage.Idle? && Durable(s.lead, s'.log, w.session, s'.slots[w].live)
            && (exists e :: s'.log == s.log + [e] && Produced(s.lead, s'.log) && |s.log| < s.maxEvents)
  {
    var slot := s.slots[w];
    assert SlotOk(s.lead, s.maxEvents, s.log, w, slot);
    AppendKeeps(s, w, t);
    WinningStep(s, w, t, acknowledged);
    var e := Entry(|s.log| + 1, t, Accepted(ProposedEvent(w, slot).value));
    if acknowledged {
      DurableNow(s.lead, s.log + [e], w.session, slot.live);
    } else {
      DurableStays(s.lead, s.log, e, w.session, slot.rollback);
    }
  }

  lemma DurableStays(lead: Uuid, log: seq<Entry>, e: Entry, session: Uuid, cp: Checkpoint)
    requires DurableAt(lead, log, session, cp, |log|)
    ensures Durable(lead, log + [e], session, cp)
  {
    assert log[..|log|] == log == (log + [e])[..|log|];
    assert DurableAt(lead, log + [e], session, cp, |log|);
  }

  lemma AppendTurnKeeps(s: System, w: Worker, t: int, acknowledged: bool)
    requires Inv(s) && Enabled(s, AppendTurn(w, t, acknowledged))
    ensures var s' := Step(s, AppendTurn(w, t, acknowledged));
            && SlotOk(s.lead, s.maxEvents, s'.log, w, s'.slots[w])
            && (s'.log == s.log || (exists e :: s'.log == s.log + [e] && Produced(s.lead, s'.log) && |s.log| < s.maxEvents))
  {
    if |s.log| == s.slots[w].stage.version {
      AppendWins(s, w, t, acknowledged);
    } else {
      assert SlotOk(s.lead, s.maxEvents, s.log, w, s.slots[w]);
      assert Durable(s.lead, s.log, w.session, s.slots[w].rollback);
    }
  }

  /** The slot a step acts on is fine after it. */
  lemma ActorKeeps(s: System, a: Action)
    requires Inv(s) && Enabled(s, a) && !a.ForeignAppend?
    ensures var s' := Step(s, a);
            && (a.w in s'.slots ==> SlotOk(s.lead, s.maxEvents, s'.log, a.w, s'.slots[a.w]))
            && (s'.log == s.log || (exists e :: s'.log == s.log + [e] && Produced(s.lead, s'.log) && |s.log| < s.maxEvents))
  {
    match a
    case Open(w, config) =>
      assert SessionEvents(s.log[..0], w.session) == [];
      assert DurableAt(s.lead, s.log, w.session, Initial(s.lead, config), 0);
    case Recover(w, key) =>
      DurableStateIsDurable(s, w.session, key);
    case Synchronize(w) =>
      DurableStateIsDurable(s, w.session, s.slots[w].live.config.digestKeyId);
    case Close(w) =>
    case BeginTurn(w, op, fp, expected) =>
      BeginKeeps(s.lead, s.maxEvents, s.log, w, s.slots[w], Request(s.lead, w.session, op, fp), expected);
    case RunTurn(w, input) => RunKeeps(s.lead, s.maxEvents, s.log, w, s.slots[w], input);
    case TurnRaises(w) => assert DurableAt(s.lead, s.log, w.session, s.slots[w].rollback, s.slots[w].stage.version);
    case AppendTurn(w, t, acknowledged) => AppendTurnKeeps(s, w, t, acknowledged);
    case AppendFails(w) => assert DurableAt(s.lead, s.log, w.session, s.slots[w].rollback, s.slots[w].stage.version);
    case FinishBeaten(w) => ReconcileKeeps(s.lead, s.maxEvents, s.log, w, s.slots[w]);
    case ReloadFails(w) =>
  }

  lemma ForeignProduced(lead: Uuid, log: seq<Entry>, e: Entry)
    requires Produced(lead, log) && NotBefore(log, e.occurredAt) && e == Entry(|log| + 1, e.occurredAt, Foreign)
    ensures Produced(lead, log + [e])
  {
    assert (log + [e])[..|log|] == log;
    assert ProducedEntry(lead, log, e);
  }

  /** Another subsystem's event changes no session. */
  lemma ForeignKeeps(s: System, t: int)
    requires Inv(s) && NotBefore(s.log, t)
    ensures Inv(Step(s, ForeignAppend(t)))
  {
    var e := Entry(|s.log| + 1, t, Foreign);
    ForeignProduced(s.lead, s.log, e);
    OthersKeep(s.lead, s.maxEvents, s.log, s.log + [e], s.slots);
  }

  ghost predicate SlotsOk(lead: Uuid, maxEvents: nat, log: seq<Entry>, slots: map<Worker, Slot>) {
    forall w :: w in slots ==> SlotOk(lead, maxEvents, log, w, slots[w])
  }

  /** The slots no step acts on stay fine when the log stays or grows by an entry. */
  lemma OthersKeep(lead: Uuid, maxEvents: nat, log: seq<Entry>, grown: seq<Entry>, slots: map<Worker, Slot>)
    requires SlotsOk(lead, maxEvents, log, slots) && (grown == log || exists e :: grown == log + [e])
    ensures SlotsOk(lead, maxEvents, grown, slots)
  {
    if grown != log {
      var e :| grown == log + [e];
      forall w | w in slots ensures SlotOk(lead, maxEvents, grown, w, slots[w]) {
        SlotOkGrows(lead, maxEvents, log, e, w, slots[w]);
      }
    }
  }

  /** A step acts on the slot of its worker only. */
  lemma StepIsLocal(s: System, a: Action)
    requires Enabled(s, a) && !a.ForeignAppend?
    ensures forall w :: w != a.w ==>
              (w in Step(s, a).slots <==> w in s.slots) && (w in s.slots ==> Step(s, a).slots[w] == s.slots[w])
    ensures Step(s, a).lead == s.lead && Step(s, a).maxEvents == s.maxEvents
  {
  }

  /** The step of a worker keeps every slot fine. */
  lemma WorkerKeeps(s: System, a: Action)
    requires Inv(s) && Enabled(s, a) && !a.ForeignAppend?
    ensures SlotsOk(s.lead, s.maxEvents, Step(s, a).log, Step(s, a).slots)
  {
    ActorKeeps(s, a);
    StepIsLocal(s, a);
    OthersKeep(s.lead, s.maxEvents, s.log, Step(s, a).log, s.slots);
  }

  /** A step leaves the log alone or appends one produced entry below the capacity. */
  lemma LogKeeps(s: System, a: Action)
    requires Inv(s) && Enabled(s, a) && !a.ForeignAppend?
    ensures Produced(s.lead, Step(s, a).log) && s.log <= Step(s, a).log
    ensures WithinCapacity(Step(s, a).log, s.maxEvents)
  {
    ActorKeeps(s, a);
  }

  lemma StepKeeps(s: System, a: Action)
    requires Inv(s) && Enabled(s, a)
    ensures Inv(Step(s, a)) && s.log <= Step(s, a).log
  {
    if a.ForeignAppend? {
      ForeignKeeps(s, a.occurredAt);
    } else {
      WorkerKeeps(s, a);
      LogKeeps(s, a);
      StepIsLocal(s, a);
    }
  }

  // ----- whole runs -----

  ghost predicate IsRun(states: seq<System>, actions: seq<Action>) {
    && |states| == |actions| + 1
    && states[0].log == [] && states[0].slots == map[]
    && forall i :: 0 <= i < |actions| ==> Enabled(states[i], actions[i]) && states[i + 1] == Step(states[i], actions[i])
  }

  /** In every interleaving of any number of engines, at every moment: the log is one engines can have
      produced, no turn is stored past the capacity, and each session is live, prepared, run or beaten exactly
      as its stage says. */
  lemma {:induction false} EveryRunKeeps(states: seq<System>, actions: seq<Action>, n: nat)
    requires IsRun(states, actions) && n < |states|
    ensures Inv(states[n])
    decreases n
  {
    if n > 0 {
      EveryRunKeeps(states, actions, n - 1);
      StepKeeps(states[n - 1], actions[n - 1]);
    }
  }

  /** Whatever raced with it and however its turn ended, a session at rest exports the replay of a durable
      prefix of its journal, or has not started: no turn stays live without being durable. Every session of
      every reachable log replays. */
  lemma RestIsDurable(states: seq<System>, actions: seq<Action>, n: nat, w: Worker)
    requires IsRun(states, actions) && n < |states|
    requires w in states[n].slots && states[n].slots[w].stage.Idle?
    ensures Durable(states[n].lead, states[n].log, w.session, states[n].slots[w].live)
    ensures forall session :: SessionEvents(states[n].log, session) != [] ==>
              Replay(states[n].lead, SessionEvents(states[n].log, session)).Success?
  {
    EveryRunKeeps(states, actions, n);
    forall session | SessionEvents(states[n].log, session) != []
      ensures Replay(states[n].lead, SessionEvents(states[n].log, session)).Success?
    {
      ProducedReplays(states[n].lead, states[n].log, session);
    }
  }

  /** An append that wins and is acknowledged. */
  lemma WinningAppend(s: System, w: Worker, t: int)
    requires Inv(s) && Enabled(s, AppendTurn(w, t, true)) && |s.log| == s.slots[w].stage.version
    ensures var s' := Step(s, AppendTurn(w, t, true));
            && |s'.log| == |s.log| + 1 && s'.slots[w].stage.Idle? && s'.slots[w].live == s.slots[w].live
            && s'.log[|s.log|].payload.Accepted?
            && s'.log[|s.log|].payload.event.operationId == s.slots[w].stage.rq.operationId
            && s'.log[|s.log|].payload.event.result == s.slots[w].stage.result
            && Replay(s.lead, SessionEvents(s'.log, w.session)) == Success(s'.slots[w].live)
  {
    assert SlotOk(s.lead, s.maxEvents, s.log, w, s.slots[w]);
    AppendKeeps(s, w, t);
    WinningStep(s, w, t, true);
  }

  /** An append that loses. */
  lemma LosingAppend(s: System, w: Worker, t: int)
    requires Inv(s) && Enabled(s, AppendTurn(w, t, true)) && |s.log| != s.slots[w].stage.version
    ensures var s' := Step(s, AppendTurn(w, t, true));
            s'.log == s.log && Durable(s.lead, s.log, w.session, s'.slots[w].live)
  {
    assert SlotOk(s.lead, s.maxEvents, s.log, w, s.slots[w]);
    assert Durable(s.lead, s.log, w.session, s.slots[w].rollback);
  }

  /** A turn whose append is acknowledged leaves its session equal to the replay of the whole log, with that
      turn as the log's last entry; one whose append loses the race leaves the session at a durable prefix. */
  lemma AppendOutcome(states: seq<System>, actions: seq<Action>, n: nat, w: Worker, t: int)
    requires IsRun(states, actions) && n < |actions| && actions[n] == AppendTurn(w, t, true)
    ensures var s, s' := states[n], states[n + 1];
            if |s.log| == s.slots[w].stage.version then
              && |s'.log| == |s.log| + 1 && s'.slots[w].stage.Idle?
              && s'.log[|s.log|].payload.Accepted?
              && s'.log[|s.log|].payload.event.operationId == s.slots[w].stage.rq.operationId
              && s'.log[|s.log|].payload.event.result == s.slots[w].stage.result
              && Replay(s.lead, SessionEvents(s'.log, w.session)) == Success(s'.slots[w].live)
              && s'.slots[w].live == s.slots[w].live
            else
              s'.log == s.log && Durable(s.lead, s.log, w.session, s'.slots[w].live)
  {
    EveryRunKeeps(states, actions, n);
    if |states[n].log| == states[n].slots[w].stage.version {
      WinningAppend(states[n], w, t);
    } else {
      LosingAppend(states[n], w, t);
    }
  }

  /** The journal's commit of a slot's turn, nobody appending between its read and its insert. */
  function CommitOf(s: System, slot: Slot, t: int, reload: Reload): CommitEnd
    requires slot.stage.Ran?
  {
    Commit(slot.stage.rq, slot.stage.version, slot.rollback, slot.live, slot.stage.result, t,
           slot.rollback.config.digestKeyId, s.log, [], reload, s.maxEvents)
  }

  lemma CommitUnbeaten(s: System, w: Worker, t: int, reload: Reload)
    requires Enabled(s, AppendTurn(w, t, true)) && Step(s, AppendTurn(w, t, true)).slots[w].stage.Idle?
    ensures var c, s1 := CommitOf(s, s.slots[w], t, reload), Step(s, AppendTurn(w, t, true));
            c.live == s1.slots[w].live && c.log == s1.log
  {
  }

  lemma CommitBeaten(s: System, w: Worker, t: int, reload: Reload)
    requires Enabled(s, AppendTurn(w, t, true)) && !Step(s, AppendTurn(w, t, true)).slots[w].stage.Idle?
    ensures var c, s1 := CommitOf(s, s.slots[w], t, reload), Step(s, AppendTurn(w, t, true));
            && s1 == s.(slots := s.slots[w := RolledBack(s.slots[w], Beaten(s.slots[w].stage.rq))])
            && c.log == s.log + reload.late
            && c.live == if reload.Unsettled? then s.slots[w].rollback
                         else AfterReconcile(s1.slots[w], s.log + reload.late, s.maxEvents).live
  {
    assert s.log + [] == s.log;
  }

  /** The journal's commit is these steps: an append, and after a lost race the others' appends and a reload, which
      reads the log or fails. */
  lemma CommitIsAppendThenFinish(s: System, w: Worker, t: int, reload: Reload)
    requires Enabled(s, AppendTurn(w, t, true))
    ensures var c, s1 := CommitOf(s, s.slots[w], t, reload), Step(s, AppendTurn(w, t, true));
            if s1.slots[w].stage.Idle? then
              c.live == s1.slots[w].live && c.log == s1.log
            else
              var s2 := s1.(log := s1.log + reload.late);
              var finish := if reload.Settled? then FinishBeaten(w) else ReloadFails(w);
              c.live == Step(s2, finish).slots[w].live && c.log == s2.log
  {
    if Step(s, AppendTurn(w, t, true)).slots[w].stage.Idle? {
      CommitUnbeaten(s, w, t, reload);
    } else {
      CommitBeaten(s, w, t, reload);
    }
  }

  // ----- retries -----

  /** The operation of an entry was new to the log before it. */
  lemma {:induction false} OperationOnce(lead: Uuid, log: seq<Entry>, i: nat, j: nat)
    requires Produced(lead, log) && i < j < |log| && log[i].payload.Accepted? && log[j].payload.Accepted?
    ensures log[i].payload.event.operationId != log[j].payload.event.operationId
  {
    var init, last := log[..|log| - 1], log[|log| - 1];
    if j < |init| {
      OperationOnce(lead, init, i, j);
    } else {
      var cp, input :| ProducedBy(lead, init, last.payload.event, cp, input);
      assert init[i] == log[i];
      assert KnownOperation(init, log[i].payload.event.operationId);
    }
  }

  /** In every run no operation is ever appended twice, whoever retries it. */
  lemma NoOperationAppendsTwice(states: seq<System>, actions: seq<Action>, n: nat, i: nat, j: nat)
    requires IsRun(states, actions) && n < |states|
    requires i < |states[n].log| && j < |states[n].log|
    requires states[n].log[i].payload.Accepted? && states[n].log[j].payload.Accepted?
    requires states[n].log[i].payload.event.operationId == states[n].log[j].payload.event.operationId
    ensures i == j
  {
    EveryRunKeeps(states, actions, n);
    if i < j { OperationOnce(states[n].lead, states[n].log, i, j); }
    if j < i { OperationOnce(states[n].lead, states[n].log, j, i); }
  }

  /** Looking an operation up finds the one turn that has it, or that it was used for another input. */
  lemma {:induction false} FindsTheTurn(turns: seq<JournaledTurn>, rq: Request, t: JournaledTurn)
    requires UniqueOperations(turns) && t in turns && t.event.operationId == rq.operationId
    ensures FindOperation(turns, rq) ==
            if t.event.sessionId != rq.sessionId || t.event.fingerprint != rq.fingerprint then Failure(OperationConflict)
            else Success(Some(t))
    decreases |turns|
  {
    if turns[0].event.operationId == rq.operationId {
      var k :| 0 <= k < |turns| && turns[k] == t;
    } else {
      assert turns == [turns[0]] + turns[1..] && t in turns[1..];
      FindsTheTurn(turns[1..], rq, t);
    }
  }

  /** What a retry of the journaled turn t is answered: t itself with its session's replay, unless the journal has
      outgrown the loading limit, the retry is not of the same input, or the engine has another digest key. */
  ghost predicate RetryAnswered(lead: Uuid, log: seq<Entry>, maxEvents: nat, rq: Request, t: JournaledTurn,
                                digestKey: Digest, p: Preparation)
  {
    if |log| > maxEvents then p == Refused(LoadFailed(CapacityExceeded))
    else if t.event.sessionId != rq.sessionId || t.event.fingerprint != rq.fingerprint then p == Refused(OperationConflict)
    else
      var durable := Replay(lead, SessionEvents(log, rq.sessionId));
      && durable.Success?
      && p == if durable.value.config.digestKeyId != digestKey then Refused(DifferentDigest) else Existing(t, durable.value)
  }

  lemma RetryFindsTurn(lead: Uuid, log: seq<Entry>, maxEvents: nat, rq: Request, t: JournaledTurn, expected: Option<nat>,
                       live: Checkpoint, digestKey: Digest)
    requires Produced(lead, log) && rq.leadId == lead && t in Turns(log) && t.event.operationId == rq.operationId
    ensures RetryAnswered(lead, log, maxEvents, rq, t, digestKey, Prepare(rq, expected, live, digestKey, log, maxEvents))
  {
    ProducedLoads(lead, log, maxEvents);
    ProducedParses(lead, log);
    FindsTheTurn(Turns(log), rq, t);
    ProducedReplays(lead, log, rq.sessionId);
    TurnHasSession(Turns(log), t);
  }

  /** A turn beaten by its own retry elsewhere is reported as done: the reload finds the journaled turn. */
  lemma BeatenRetryReturnsTheTurn(lead: Uuid, log: seq<Entry>, maxEvents: nat, rq: Request, t: JournaledTurn,
                                  rollback: Checkpoint, digestKey: Digest)
    requires Produced(lead, log) && rq.leadId == lead && t in Turns(log) && |log| <= maxEvents
    requires t.event.operationId == rq.operationId
    requires t.event.sessionId == rq.sessionId && t.event.fingerprint == rq.fingerprint
    ensures var durable := Replay(lead, SessionEvents(log, rq.sessionId));
            && durable.Success?
            && Reconcile(rq, rollback, digestKey, log, maxEvents) ==
               if durable.value.config.digestKeyId != digestKey then Reconciliation(rollback, Failure(DifferentDigest))
               else Reconciliation(durable.value, Success(t))
  {
    ProducedLoads(lead, log, maxEvents);
    ProducedParses(lead, log);
    FindsTheTurn(Turns(log), rq, t);
    ProducedReplays(lead, log, rq.sessionId);
    TurnHasSession(Turns(log), t);
  }

  lemma {:induction false} TurnHasSession(turns: seq<JournaledTurn>, t: JournaledTurn)
    requires t in turns
    ensures Session(turns, t.event.sessionId) != []
    decreases |turns|
  {
    var init, last := turns[..|turns| - 1], turns[|turns| - 1];
    if t != last {
      assert t in init;
      TurnHasSession(init, t);
    }
  }

  lemma UnreadyStaysIdle(slot: Slot, rq: Request, expected: Option<nat>, log: seq<Entry>, maxEvents: nat)
    requires slot.stage.Idle?
    ensures var p := Prepare(rq, expected, slot.live, slot.live.config.digestKeyId, log, maxEvents);
            var after := AfterBegin(slot, rq, expected, log, maxEvents);
            !p.Ready? ==> after.stage.Idle? && after.live == if p.Existing? then p.checkpoint else slot.live
  {
  }

  /** The answer to a retry, and the slot it leaves. */
  ghost predicate RetryEnds(s: System, w: Worker, rq: Request, expected: Option<nat>, e: Entry)
    requires w in s.slots && e.payload.Accepted?
  {
    var live := s.slots[w].live;
    var p := Prepare(rq, expected, live, live.config.digestKeyId, s.log, s.maxEvents);
    var after := AfterBegin(s.slots[w], rq, expected, s.log, s.maxEvents);
    && RetryAnswered(s.lead, s.log, s.maxEvents, rq, JournaledTurn(e.version, e.occurredAt, e.payload.event),
                     live.config.digestKeyId, p)
    && after.stage.Idle? && after.live == if p.Existing? then p.checkpoint else live
  }

  lemma RetryEndsIdle(s: System, w: Worker, rq: Request, expected: Option<nat>, i: nat)
    requires Produced(s.lead, s.log) && w in s.slots && s.slots[w].stage.Idle? && rq.leadId == s.lead
    requires i < |s.log| && s.log[i].payload.Accepted? && s.log[i].payload.event.operationId == rq.operationId
    ensures RetryEnds(s, w, rq, expected, s.log[i])
  {
    var e, live := s.log[i], s.slots[w].live;
    var t := JournaledTurn(e.version, e.occurredAt, e.payload.event);
    TurnsHoldEvents(s.log, i);
    RetryFindsTurn(s.lead, s.log, s.maxEvents, rq, t, expected, live, live.config.digestKeyId);
    UnreadyStaysIdle(s.slots[w], rq, expected, s.log, s.maxEvents);
  }

  /** In every run a retry of an operation already journaled is never made ready, so it never runs or appends again: it
      is answered with the journaled turn, and leaves its session at that journal's replay, or is refused. */
  lemma RetriesReturnTheTurn(states: seq<System>, actions: seq<Action>, n: nat, w: Worker, rq: Request,
                             expected: Option<nat>, i: nat)
    requires IsRun(states, actions) && n < |states| && w in states[n].slots && states[n].slots[w].stage.Idle?
    requires rq.leadId == states[n].lead && i < |states[n].log| && states[n].log[i].payload.Accepted?
    requires states[n].log[i].payload.event.operationId == rq.operationId
    ensures RetryEnds(states[n], w, rq, expected, states[n].log[i])
  {
    EveryRunKeeps(states, actions, n);
    RetryEndsIdle(states[n], w, rq, expected, i);
  }
}
