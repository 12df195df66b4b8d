/** The conversation journal: prepare a turn against durable history, run it live, commit it by an
    optimistic append, and reconcile when another writer got there first. */
module Journal {
  import opened Common
  import opened Conversation
  import opened SessionReplay
  import opened EventLog
  import opened Engine

  datatype Request = Request(leadId: Uuid, sessionId: Uuid, operationId: Uuid, fingerprint: Digest)

  datatype JournalError =
    | SessionUnknown | LoadFailed(load: LoadError) | OperationConflict | ReplayFailed(replay: ReplayError)
    | DifferentDigest | LiveStateMismatch | UnpersistedTurns | EventCapacityReached | VersionMismatch
    | LeadChanged | EventRejected(event: EventError) | TurnFailed(turn: TurnError) | Superseded

  /** The journaled turn of an operation, or the proof that its identifier was used for other input. */
  function FindOperation(turns: seq<JournaledTurn>, rq: Request): Result<Option<JournaledTurn>, JournalError> {
    if turns == [] then Success(None)
    else if turns[0].event.operationId != rq.operationId then FindOperation(turns[1..], rq)
    else if turns[0].event.sessionId != rq.sessionId || turns[0].event.fingerprint != rq.fingerprint then
      Failure(OperationConflict)
    else Success(Some(turns[0]))
  }

  datatype Preparation =
    | Ready(version: nat)
    | Existing(turn: JournaledTurn, checkpoint: Checkpoint)
    | Refused(error: JournalError)

  /** What preparing a turn decides from the live checkpoint and the log. */
  function Prepare(rq: Request, expected: Option<nat>, live: Checkpoint, digestKey: Digest, log: seq<Entry>,
                   maxEvents: nat): Preparation
  {
    var loaded := Load(rq.leadId, log, maxEvents);
    if loaded.Failure? then Refused(LoadFailed(loaded.error))
    else
      var events := Session(loaded.value, rq.sessionId);
      var durable := Replay(rq.leadId, events);
      match FindOperation(loaded.value, rq)
      case Failure(e) => Refused(e)
      case Success(Some(turn)) =>
        if durable.Failure? then Refused(ReplayFailed(durable.error))
        else if durable.value.config.digestKeyId != digestKey then Refused(DifferentDigest)
        else Existing(turn, durable.value)
      case Success(None) =>
        if events != [] && durable.Failure? then Refused(ReplayFailed(durable.error))
        else if events != [] && live != durable.value then Refused(LiveStateMismatch)
        else if events == [] && live.turnCount != 0 then Refused(UnpersistedTurns)
        else if |log| >= maxEvents then Refused(EventCapacityReached)
        else if expected.Some? && expected.value != |log| then Refused(VersionMismatch)
        else Ready(|log|)
  }

  /** What a readied preparation proves about the log it was made against. */
  lemma ReadyFacts(rq: Request, expected: Option<nat>, live: Checkpoint, digestKey: Digest, log: seq<Entry>,
                   maxEvents: nat)
    requires Prepare(rq, expected, live, digestKey, log, maxEvents).Ready?
    ensures Prepare(rq, expected, live, digestKey, log, maxEvents).version == |log| < maxEvents
    ensures FindOperation(Turns(log), rq) == Success(None)
    ensures if SessionEvents(log, rq.sessionId) == [] then live.turnCount == 0
            else Replay(rq.leadId, SessionEvents(log, rq.sessionId)) == Success(live)
  {
  }

  /** An operation found in the journal: the checkpoint returned is the session's replay. */
  lemma ExistingFacts(rq: Request, expected: Option<nat>, live: Checkpoint, digestKey: Digest, log: seq<Entry>,
                      maxEvents: nat)
    requires Prepare(rq, expected, live, digestKey, log, maxEvents).Existing?
    ensures var p := Prepare(rq, expected, live, digestKey, log, maxEvents);
            && FindOperation(Turns(log), rq) == Success(Some(p.turn))
            && Replay(rq.leadId, SessionEvents(log, rq.sessionId)) == Success(p.checkpoint)
            && p.checkpoint.config.digestKeyId == digestKey
  {
    var loaded := Load(rq.leadId, log, maxEvents);
    assert loaded.Success? && loaded.value == Turns(log);
    var found := FindOperation(loaded.value, rq);
    assert found.Success? && found.value.Some?;
  }

  datatype Reconciliation = Reconciliation(live: Checkpoint, end: Result<JournaledTurn, JournalError>)

  /** What losing the append race leads to, once the live state is rolled back and the log reloaded. */
  function Reconcile(rq: Request, rollback: Checkpoint, digestKey: Digest, log: seq<Entry>, maxEvents: nat):
    Reconciliation
  {
    var loaded := Load(rq.leadId, log, maxEvents);
    if loaded.Failure? then Reconciliation(rollback, Failure(LoadFailed(loaded.error)))
    else
      var durable := Replay(rq.leadId, Session(loaded.value, rq.sessionId));
      var found := FindOperation(loaded.value, rq);
      if found.Failure? then Reconciliation(rollback, Failure(found.error))
      else if durable.Failure? then
        Reconciliation(rollback, Failure(if found.value.None? && durable.error.JournalNotFound? then Superseded
                                         else ReplayFailed(durable.error)))
      else if durable.value.config.digestKeyId != digestKey then
        Reconciliation(rollback, Failure(DifferentDigest))
      else if found.value.Some? then Reconciliation(durable.value, Success(found.value.value))
      else Reconciliation(durable.value, Failure(Superseded))
  }

  /** How a commit ends: what the caller is told, the live state of the session and the log. */
  datatype CommitEnd = CommitEnd(end: Result<JournaledTurn, JournalError>, live: Checkpoint, log: seq<Entry>)

  /** How the reload after a lost race goes, others having appended `late` by then: it reads the log at one instant, or
      finds it changing under every attempt. */
  datatype Reload = Settled(late: seq<Entry>) | Unsettled(late: seq<Entry>)

  /** Commit a turn that ran to `live` from `rollback`: others append `raced` before the insert, and a lost race is
      followed by a reload. */
  function Commit(rq: Request, version: nat, rollback: Checkpoint, live: Checkpoint, result: TurnResult, occurredAt: int,
                  digestKey: Digest, log: seq<Entry>, raced: seq<Entry>, reload: Reload, maxEvents: nat): CommitEnd
  {
    var event := EventFromState(rq.sessionId, rq.operationId, rq.fingerprint, live, result);
    if live.leadId != rq.leadId then CommitEnd(Failure(LeadChanged), rollback, log)
    else if event.Failure? then CommitEnd(Failure(EventRejected(event.error)), rollback, log)
    else if |log| == version && raced == [] then
      CommitEnd(Success(JournaledTurn(version + 1, occurredAt, event.value)), live,
                log + [Entry(version + 1, occurredAt, Accepted(event.value))])
    else
      var grown := log + raced + reload.late;
      if reload.Unsettled? then CommitEnd(Failure(LoadFailed(ChangedWhileLoading)), rollback, grown)
      else
        var reconciled := Reconcile(rq, rollback, digestKey, grown, maxEvents);
        CommitEnd(reconciled.end, reconciled.live, grown)
  }

  /** The event repository of one lead. */
  class EventStore {
    var log: seq<Entry>

    constructor ()
      ensures log == []
    {
      log := [];
    }

    /** The optimistic append: read the current version, compare it with the expected one, then insert under
        a condition (or a unique constraint) on the version read. Writers may append `raced` between the
        read and the insert. It succeeds only on a log that stands at the expected version from the read to the
        insert, so it is an atomic compare-and-append. */
    method Append(expected: nat, occurredAt: int, payload: Payload, raced: seq<Entry>) returns (r: Option<Entry>)
      modifies this
      ensures r.Some? <==> |old(log)| == expected && raced == []
      ensures r.Some? ==> r.value == Entry(expected + 1, occurredAt, payload)
      ensures log == old(log) + raced + if r.Some? then [r.value] else []
    {
      var current := |log|;
      log := log + raced;
      if expected != current { return None; }
      var entry := Entry(current + 1, occurredAt, payload);
      if |log| != current { return None; }
      log := log + [entry];
      r := Some(entry);
    }
  }

  class ConversationJournal {
    const store: EventStore
    const maxEvents: nat

    constructor (store: EventStore, maxEvents: nat)
      requires 1 <= maxEvents <= 9_999
      ensures this.store == store && this.maxEvents == maxEvents
    {
      this.store, this.maxEvents := store, maxEvents;
    }

    /** Check a turn against durable history and keep a copy to roll back to. An operation already journaled
        moves the live session to what the journal says; nothing else changes the live session. Loading either reads
        the log at one instant (`settled`) or finds it changing under every attempt. */
    method PrepareTurn(engine: ConversationEngine, rq: Request, expected: Option<nat>, settled: bool)
      returns (p: Preparation, rollback: Option<ConversationState>)
      requires engine.Valid()
      modifies engine
      ensures engine.Valid()
      ensures rq.sessionId !in old(engine.states) ==> p == Refused(SessionUnknown)
      ensures rq.sessionId in old(engine.states) ==>
                var live := old(engine.Exported())[rq.sessionId];
                && p == (if settled then Prepare(rq.(leadId := live.leadId), expected, live, engine.config.digestKeyId,
                                                 store.log, maxEvents)
                         else Refused(LoadFailed(ChangedWhileLoading)))
                && rollback.Some? && fresh(rollback.value) && rollback.value !in engine.states.Values
                && rollback.value.Snapshot() == live
      ensures engine.Exported() ==
              if p.Existing? then old(engine.Exported())[rq.sessionId := p.checkpoint] else old(engine.Exported())
    {
      rollback := engine.TakeCheckpoint(rq.sessionId);
      if rollback.None? { return Refused(SessionUnknown), None; }
      var live := rollback.value.Snapshot();
      if !settled { return Refused(LoadFailed(ChangedWhileLoading)), rollback; }
      p := Prepare(rq.(leadId := live.leadId), expected, live, engine.config.digestKeyId, store.log, maxEvents);
      if p.Existing? {
        var replaced := engine.ReplaceCheckpoint(rq.sessionId, p.checkpoint);
      }
    }

    /** Commit a turn that ran. `raced` is what other writers append before the insert, `reload` how a reload after a
        lost race would go. The turn ends durable and live, or not durable and not live. */
    method CommitTurn(engine: ConversationEngine, rq: Request, version: nat, rollback: ConversationState,
                      result: TurnResult, occurredAt: int, raced: seq<Entry>, reload: Reload)
      returns (r: Result<JournaledTurn, JournalError>)
      requires engine.Valid() && rq.sessionId in engine.states && rollback !in engine.states.Values
      modifies engine, store
      ensures engine.Valid()
      ensures var c := Commit(rq, version, old(rollback.Snapshot()), old(engine.Exported())[rq.sessionId], result, occurredAt,
                              engine.config.digestKeyId, old(store.log), raced, reload, maxEvents);
              r == c.end && store.log == c.log && engine.Exported() == old(engine.Exported())[rq.sessionId := c.live]
    {
      ghost var before := engine.Exported();
      var live := engine.states[rq.sessionId].Snapshot();
      if live.leadId != rq.leadId {
        engine.Restore(rq.sessionId, rollback);
        return Failure(LeadChanged);
      }
      var event := EventFromState(rq.sessionId, rq.operationId, rq.fingerprint, live, result);
      if event.Failure? {
        engine.Restore(rq.sessionId, rollback);
        return Failure(EventRejected(event.error));
      }
      var persisted := store.Append(version, occurredAt, Accepted(event.value), raced);
      assert engine.Exported() == before;
      if persisted.Some? {
        assert before[rq.sessionId := live] == before;
        return Success(JournaledTurn(persisted.value.version, persisted.value.occurredAt, event.value));
      }
      assert store.log == old(store.log) + raced;
      r := LoseRace(engine, rq, rollback, reload);
    }

    /** The append lost: roll the session back, let the other writers finish, reload and reconcile. */
    method LoseRace(engine: ConversationEngine, rq: Request, rollback: ConversationState, reload: Reload)
      returns (r: Result<JournaledTurn, JournalError>)
      requires engine.Valid() && rq.sessionId in engine.states && rollback !in engine.states.Values
      modifies engine, store
      ensures engine.Valid() && store.log == old(store.log) + reload.late
      ensures var rolledBack := old(rollback.Snapshot());
              var end := if reload.Unsettled? then Reconciliation(rolledBack, Failure(LoadFailed(ChangedWhileLoading)))
                         else Reconcile(rq, rolledBack, engine.config.digestKeyId, store.log, maxEvents);
              r == end.end && engine.Exported() == old(engine.Exported())[rq.sessionId := end.live]
    {
      engine.Restore(rq.sessionId, rollback);
      store.log := store.log + reload.late;
      if reload.Unsettled? { return Failure(LoadFailed(ChangedWhileLoading)); }
      r := ReconcileTurn(engine, rq);
    }

    /** After a lost race, with the session rolled back: report the operation as done if the journal already
        holds it, otherwise bring the session up to the journal and report the conflict. */
    method ReconcileTurn(engine: ConversationEngine, rq: Request) returns (r: Result<JournaledTurn, JournalError>)
      requires engine.Valid() && rq.sessionId in engine.states
      modifies engine
      ensures engine.Valid()
      ensures var end := Reconcile(rq, old(engine.Exported())[rq.sessionId], engine.config.digestKeyId, store.log,
                                   maxEvents);
              r == end.end && engine.Exported() == old(engine.Exported())[rq.sessionId := end.live]
    {
      var loaded := Load(rq.leadId, store.log, maxEvents);
      if loaded.Failure? { return Failure(LoadFailed(loaded.error)); }
      var found := FindOperation(loaded.value, rq);
      if found.Failure? { return Failure(found.error); }
      var durable := ReplaySessionEvents(rq.leadId, Session(loaded.value, rq.sessionId));
      if durable.Failure? {
        return Failure(if found.value.None? && durable.error.JournalNotFound? then Superseded
                       else ReplayFailed(durable.error));
      }
      var replaced := engine.ReplaceCheckpoint(rq.sessionId, durable.value);
      if replaced.Failure? { return Failure(DifferentDigest); }
      r := if found.value.Some? then Success(found.value.value) else Failure(Superseded);
    }
  }

  /** Reconciling either leaves the rolled back state or moves to the replay of the whole log it loaded. */
  lemma ReconcileReplays(rq: Request, rollback: Checkpoint, digestKey: Digest, log: seq<Entry>, maxEvents: nat)
    ensures var end := Reconcile(rq, rollback, digestKey, log, maxEvents);
            || (end.live == rollback && end.end.Failure?)
            || (Replay(rq.leadId, SessionEvents(log, rq.sessionId)) == Success(end.live)
                && end.live.config.digestKeyId == digestKey)
  {
    var loaded := Load(rq.leadId, log, maxEvents);
    if loaded.Success? {
      assert Session(loaded.value, rq.sessionId) == SessionEvents(log, rq.sessionId);
    }
  }
}
