/** What the journal does for a turn that nothing stands in the way of, and for a session that fell behind. */
module Progress {
  import opened Common
  import opened Conversation
  import opened SessionReplay
  import opened EventLog
  import opened Journal
  import opened Protocol

  lemma {:induction false} UnknownIsUnfound(turns: seq<JournaledTurn>, rq: Request)
    requires forall t :: t in turns ==> t.event.operationId != rq.operationId
    ensures FindOperation(turns, rq) == Success(None)
    decreases |turns|
  {
    if turns != [] {
      assert turns[0] in turns;
      UnknownIsUnfound(turns[1..], rq);
    }
  }

  lemma UnknownOperation(log: seq<Entry>, rq: Request)
    requires !KnownOperation(log, rq.operationId)
    ensures FindOperation(Turns(log), rq) == Success(None)
  {
    TurnsComeFromLog(log);
    forall t | t in Turns(log) ensures t.event.operationId != rq.operationId {
      var i :| 0 <= i < |log| && log[i].payload.Accepted?
               && t == JournaledTurn(log[i].version, log[i].occurredAt, log[i].payload.event);
      assert KnownOperation(log, t.event.operationId);
    }
    UnknownIsUnfound(Turns(log), rq);
  }

  /** The live state is the one the whole log gives the session. */
  ghost predicate UpToDate(lead: Uuid, log: seq<Entry>, session: Uuid, live: Checkpoint) {
    if SessionEvents(log, session) == [] then live.turnCount == 0
    else Replay(lead, SessionEvents(log, session)) == Success(live)
  }

  /** A new operation is made ready, at the log's version, exactly when there is room, the caller expects this version
      or none, and the live state is up to date. Nothing else refuses it. */
  lemma ReadyIff(lead: Uuid, log: seq<Entry>, maxEvents: nat, rq: Request, expected: Option<nat>, live: Checkpoint,
                 digestKey: Digest)
    requires Produced(lead, log) && rq.leadId == lead && !KnownOperation(log, rq.operationId)
    ensures Prepare(rq, expected, live, digestKey, log, maxEvents) == Ready(|log|) <==>
            && |log| < maxEvents && (expected.None? || expected.value == |log|)
            && UpToDate(lead, log, rq.sessionId, live)
  {
    ProducedLoads(lead, log, maxEvents);
    UnknownOperation(log, rq);
    ProducedReplays(lead, log, rq.sessionId);
  }

  /** What a session is brought to by recovering or synchronizing it: its replay, unless the log is too long to load,
      holds nothing of the session, or was written under another digest key. */
  lemma DurableStateIs(s: System, session: Uuid, digestKey: Digest)
    requires Produced(s.lead, s.log)
    ensures var replay := Replay(s.lead, SessionEvents(s.log, session));
            if |s.log| > s.maxEvents || SessionEvents(s.log, session) == [] then DurableState(s, session, digestKey).None?
            else
              && replay.Success?
              && DurableState(s, session, digestKey) ==
                 if replay.value.config.digestKeyId == digestKey then Some(replay.value) else None
  {
    ProducedLoads(s.lead, s.log, s.maxEvents);
    ProducedReplays(s.lead, s.log, session);
  }

  /** A beaten turn whose operation nobody journaled ends superseded, with its session brought up to the whole log. */
  lemma BeatenIsBroughtUpToDate(lead: Uuid, log: seq<Entry>, maxEvents: nat, rq: Request, rollback: Checkpoint,
                                digestKey: Digest)
    requires Produced(lead, log) && rq.leadId == lead && |log| <= maxEvents && !KnownOperation(log, rq.operationId)
    ensures var replay := Replay(lead, SessionEvents(log, rq.sessionId));
            var end := Reconcile(rq, rollback, digestKey, log, maxEvents);
            if SessionEvents(log, rq.sessionId) == [] then end == Reconciliation(rollback, Failure(Superseded))
            else
              && replay.Success?
              && end == if replay.value.config.digestKeyId == digestKey
                        then Reconciliation(replay.value, Failure(Superseded))
                        else Reconciliation(rollback, Failure(DifferentDigest))
  {
    ProducedLoads(lead, log, maxEvents);
    UnknownOperation(log, rq);
    ProducedReplays(lead, log, rq.sessionId);
  }

  // ----- a turn from rest to rest -----

  lemma BeginsReady(s: System, w: Worker, rq: Request, expected: Option<nat>)
    requires Produced(s.lead, s.log) && w in s.slots && s.slots[w].stage.Idle?
    requires rq.leadId == s.lead && rq.sessionId == w.session && !KnownOperation(s.log, rq.operationId)
    requires |s.log| < s.maxEvents && (expected.None? || expected.value == |s.log|)
    requires UpToDate(s.lead, s.log, w.session, s.slots[w].live)
    ensures AfterBegin(s.slots[w], rq, expected, s.log, s.maxEvents) ==
            Slot(s.slots[w].live, s.slots[w].live, Prepared(rq, |s.log|))
  {
    ReadyIff(s.lead, s.log, s.maxEvents, rq, expected, s.slots[w].live, s.slots[w].live.config.digestKeyId);
  }

  lemma RunsToResult(slot: Slot, input: TurnInput)
    requires slot.stage.Prepared? && ProcessTurn(slot.live, input).Success?
    ensures var o := ProcessTurn(slot.live, input).value;
            AfterRun(slot, input) == Slot(o.state, slot.rollback, Ran(slot.stage.rq, slot.stage.version, o.result))
  {
  }

  /** Preparing, running and storing a turn, each step enabled when it is taken, lead from s to end. */
  ghost predicate TurnLeads(s: System, w: Worker, rq: Request, expected: Option<nat>, input: TurnInput, t: int, end: System) {
    var begin, run := BeginTurn(w, rq.operationId, rq.fingerprint, expected), RunTurn(w, input);
    var store := AppendTurn(w, t, true);
    && Enabled(s, begin)
    && Enabled(Step(s, begin), run)
    && Enabled(Step(Step(s, begin), run), store)
    && Step(Step(Step(s, begin), run), store) == end
  }

  /** The system once the turn has been run but not yet stored. */
  function AfterRunOf(s: System, w: Worker, rq: Request, o: Outcome): System
    requires w in s.slots
  {
    s.(slots := s.slots[w := Slot(o.state, s.slots[w].live, Ran(rq, |s.log|, o.result))])
  }

  lemma BeginStep(s: System, w: Worker, rq: Request, expected: Option<nat>)
    requires Produced(s.lead, s.log) && w in s.slots && s.slots[w].stage.Idle?
    requires rq.leadId == s.lead && rq.sessionId == w.session && !KnownOperation(s.log, rq.operationId)
    requires |s.log| < s.maxEvents && (expected.None? || expected.value == |s.log|)
    requires UpToDate(s.lead, s.log, w.session, s.slots[w].live)
    ensures var begin, live := BeginTurn(w, rq.operationId, rq.fingerprint, expected), s.slots[w].live;
            Enabled(s, begin) && Step(s, begin) == s.(slots := s.slots[w := Slot(live, live, Prepared(rq, |s.log|))])
  {
    BeginsReady(s, w, rq, expected);
  }

  lemma RunStep(s: System, w: Worker, rq: Request, live: Checkpoint, input: TurnInput)
    requires w in s.slots && live == s.slots[w].live && FreshInput(input, s.log) && ProcessTurn(live, input).Success?
    ensures var ready := s.(slots := s.slots[w := Slot(live, live, Prepared(rq, |s.log|))]);
            Enabled(ready, RunTurn(w, input))
            && Step(ready, RunTurn(w, input)) == AfterRunOf(s, w, rq, ProcessTurn(live, input).value)
  {
    var slot := Slot(live, live, Prepared(rq, |s.log|));
    RunsToResult(slot, input);
    assert s.slots[w := slot][w := AfterRun(slot, input)] == s.slots[w := AfterRun(slot, input)];
  }

  /** The system once the turn is stored. */
  function AfterTurn(s: System, w: Worker, t: int, ev: TurnEvent, live: Checkpoint): System {
    s.(log := s.log + [Entry(|s.log| + 1, t, Accepted(ev))], slots := s.slots[w := Slot(live, live, Idle)])
  }

  lemma StoresResult(s: System, w: Worker, rq: Request, o: Outcome, t: int, ev: TurnEvent)
    requires w in s.slots && rq.leadId == o.state.leadId && rq.sessionId == w.session && NotBefore(s.log, t)
    requires EventFromState(w.session, rq.operationId, rq.fingerprint, o.state, o.result) == Success(ev)
    ensures var ran := AfterRunOf(s, w, rq, o);
            Enabled(ran, AppendTurn(w, t, true)) && Step(ran, AppendTurn(w, t, true)) == AfterTurn(s, w, t, ev, o.state)
  {
    var ran := AfterRunOf(s, w, rq, o);
    WinningStep(ran, w, t, true);
    assert ran.slots[w := Slot(o.state, o.state, Idle)] == s.slots[w := Slot(o.state, o.state, Idle)];
  }

  /** The event of a turn run from the live state, and why storing it keeps the session up to date. */
  lemma TurnStores(lead: Uuid, log: seq<Entry>, w: Worker, rq: Request, live: Checkpoint, input: TurnInput, t: int)
    returns (ev: TurnEvent)
    requires Produced(lead, log) && Durable(lead, log, w.session, live) && UpToDate(lead, log, w.session, live)
    requires FreshInput(input, log) && NotBefore(log, t) && !KnownOperation(log, rq.operationId)
    requires ProcessTurn(live, input).Success?
    ensures var o := ProcessTurn(live, input).value;
            && o.state.leadId == lead
            && EventFromState(w.session, rq.operationId, rq.fingerprint, o.state, o.result) == Success(ev)
            && UpToDate(lead, log + [Entry(|log| + 1, t, Accepted(ev))], w.session, o.state)
  {
    var o := ProcessTurn(live, input).value;
    ReadyMatches(lead, log, w.session, live);
    assert log[..|log|] == log;
    TurnExtends(lead, log, live, input, o.state, o.result, w.session, rq.operationId, rq.fingerprint, t);
    ev := EventFromState(w.session, rq.operationId, rq.fingerprint, o.state, o.result).value;
    SessionEventsAppend(log, Entry(|log| + 1, t, Accepted(ev)), w.session);
  }

  /** From rest, up to date and with room, a new turn that the engine accepts is prepared, run and stored when nobody
      else appends meanwhile: the log is longer by exactly that turn, and the session rests at the state it led to. */
  lemma ATurnCommits(s: System, w: Worker, rq: Request, expected: Option<nat>, input: TurnInput, t: int)
    returns (end: System, ev: TurnEvent)
    requires Inv(s) && w in s.slots && s.slots[w].stage.Idle?
    requires rq.leadId == s.lead && rq.sessionId == w.session && !KnownOperation(s.log, rq.operationId)
    requires |s.log| < s.maxEvents && (expected.None? || expected.value == |s.log|)
    requires UpToDate(s.lead, s.log, w.session, s.slots[w].live)
    requires FreshInput(input, s.log) && NotBefore(s.log, t) && ProcessTurn(s.slots[w].live, input).Success?
    ensures var o := ProcessTurn(s.slots[w].live, input).value;
            && TurnLeads(s, w, rq, expected, input, t, end)
            && ev.operationId == rq.operationId && ev.sessionId == w.session && ev.result == o.result
            && end == AfterTurn(s, w, t, ev, o.state)
            && UpToDate(end.lead, end.log, w.session, o.state)
  {
    assert SlotOk(s.lead, s.maxEvents, s.log, w, s.slots[w]);
    ev := TurnStores(s.lead, s.log, w, rq, s.slots[w].live, input, t);
    var o := ProcessTurn(s.slots[w].live, input).value;
    end := AfterTurn(s, w, t, ev, o.state);
    BeginStep(s, w, rq, expected);
    RunStep(s, w, rq, s.slots[w].live, input);
    StoresResult(s, w, rq, o, t, ev);
  }

  // ----- a turn that fails -----

  /** The step ends the worker's turn in failure: the engine refuses or raises, the store or the reload fails, or the
      writer is not told that its append took effect. */
  predicate Fails(s: System, a: Action, w: Worker) {
    && !a.ForeignAppend? && a.w == w && w in s.slots
    && match a
       case RunTurn(_, input) => ProcessTurn(s.slots[w].live, input).Failure?
       case AppendTurn(_, _, acknowledged) =>
         !acknowledged && s.slots[w].stage.Ran? && s.slots[w].stage.version == |s.log|
       case TurnRaises(_) => true
       case AppendFails(_) => true
       case ReloadFails(_) => true
       case _ => false
  }

  ghost predicate Busy(s: System, w: Worker) {
    w in s.slots && !s.slots[w].stage.Idle?
  }

  lemma StepKeepsRollback(s: System, a: Action, w: Worker)
    requires Enabled(s, a) && Busy(s, w) && Busy(Step(s, a), w)
    ensures Step(s, a).slots[w].rollback == s.slots[w].rollback
  {
    if !a.ForeignAppend? && a.w == w && a.AppendTurn? {
      assert Step(s, a).slots[w].rollback == s.slots[w].rollback;
    }
  }

  lemma {:induction false} RollbackStays(states: seq<System>, actions: seq<Action>, i: nat, j: nat, w: Worker)
    requires IsRun(states, actions) && i <= j < |states| && forall k :: i <= k <= j ==> Busy(states[k], w)
    ensures Busy(states[i], w) && Busy(states[j], w)
    ensures states[j].slots[w].rollback == states[i].slots[w].rollback
    decreases j - i
  {
    assert Busy(states[j], w);
    if i < j {
      RollbackStays(states, actions, i, j - 1, w);
      StepKeepsRollback(states[j - 1], actions[j - 1], w);
    }
  }

  lemma FailureRollsBack(s: System, a: Action, w: Worker)
    requires Enabled(s, a) && Fails(s, a, w)
    ensures w in Step(s, a).slots && Step(s, a).slots[w] == RestingAt(s.slots[w].rollback)
  {
  }

  /** A turn that ends in failure is undone: however long it was under way and whatever others did meanwhile, the session
      rests at exactly the state it was in before the turn began. */
  lemma FailedTurnIsUndone(states: seq<System>, actions: seq<Action>, i: nat, j: nat, w: Worker)
    requires IsRun(states, actions) && i < j < |actions| && actions[i].BeginTurn? && actions[i].w == w
    requires forall k :: i < k <= j ==> Busy(states[k], w)
    requires Fails(states[j], actions[j], w)
    ensures w in states[i].slots && w in states[j + 1].slots
    ensures states[j + 1].slots[w] == RestingAt(states[i].slots[w].live)
  {
    RollbackStays(states, actions, i + 1, j, w);
    FailureRollsBack(states[j], actions[j], w);
    BegunFromLive(states[i], actions[i]);
  }

  lemma BegunFromLive(s: System, a: Action)
    requires Enabled(s, a) && a.BeginTurn? && Busy(Step(s, a), a.w)
    ensures a.w in s.slots && Step(s, a).slots[a.w].rollback == s.slots[a.w].live
  {
  }

  // ----- sessions that fell behind -----

  /** The session's replay, when the log can be loaded and holds turns of it written under this digest key. */
  function CaughtUp(s: System, session: Uuid, digestKey: Digest): Option<Checkpoint> {
    var replay := Replay(s.lead, SessionEvents(s.log, session));
    if |s.log| <= s.maxEvents && SessionEvents(s.log, session) != [] && replay.Success?
       && replay.value.config.digestKeyId == digestKey
    then Some(replay.value)
    else None
  }

  lemma DurableIsCaughtUp(s: System, session: Uuid, digestKey: Digest)
    requires Produced(s.lead, s.log)
    ensures DurableState(s, session, digestKey) == CaughtUp(s, session, digestKey)
  {
    DurableStateIs(s, session, digestKey);
  }

  function RestingAt(cp: Checkpoint): Slot {
    Slot(cp, cp, Idle)
  }

  lemma StepsToDurable(s: System, w: Worker, digestKey: Digest)
    ensures w in s.slots && s.slots[w].stage.Idle? ==>
              var d := DurableState(s, w.session, s.slots[w].live.config.digestKeyId);
              Step(s, Synchronize(w)).slots == if d.Some? then s.slots[w := RestingAt(d.value)] else s.slots
    ensures w !in s.slots ==>
              var d := DurableState(s, w.session, digestKey);
              Step(s, Recover(w, digestKey)).slots == if d.Some? then s.slots[w := RestingAt(d.value)] else s.slots
  {
  }

  /** Synchronizing a session at rest brings it up to the whole log, or leaves it as it was. */
  lemma SynchronizeCatchesUp(s: System, w: Worker)
    requires Produced(s.lead, s.log) && w in s.slots && s.slots[w].stage.Idle?
    ensures var caught := CaughtUp(s, w.session, s.slots[w].live.config.digestKeyId);
            Step(s, Synchronize(w)).slots == if caught.Some? then s.slots[w := RestingAt(caught.value)] else s.slots
  {
    DurableIsCaughtUp(s, w.session, s.slots[w].live.config.digestKeyId);
    StepsToDurable(s, w, s.slots[w].live.config.digestKeyId);
  }

  /** Recovering a session nobody holds opens it at the whole log, or not at all. */
  lemma RecoverCatchesUp(s: System, w: Worker, digestKey: Digest)
    requires Produced(s.lead, s.log) && w !in s.slots
    ensures var caught := CaughtUp(s, w.session, digestKey);
            Step(s, Recover(w, digestKey)).slots == if caught.Some? then s.slots[w := RestingAt(caught.value)] else s.slots
  {
    DurableIsCaughtUp(s, w.session, digestKey);
    StepsToDurable(s, w, digestKey);
  }
}
