/** The knowledge source of a lead: when it may be refused, what it holds, and that a journal engines wrote is never called
    corrupt. */
module KnowledgeReader {
  import opened Common
  import opened Conversation
  import opened SessionReplay
  import opened EventLog
  import opened KnowledgeSource
  import opened Supersession

  /** The sessions with a turn. */
  function SessionIds(turns: seq<JournaledTurn>): set<Uuid> {
    set t | t in turns :: t.event.sessionId
  }

  lemma {:induction false} SessionIdsHaveEvents(turns: seq<JournaledTurn>, s: Uuid)
    ensures s in SessionIds(turns) <==> Session(turns, s) != []
  {
    if turns != [] {
      var init, last := turns[..|turns| - 1], turns[|turns| - 1];
      SessionIdsHaveEvents(init, s);
      assert forall t :: t in turns <==> t in init || t == last;
    }
  }

  lemma {:induction false} IncreasingCounts(ids: seq<Uuid>, members: set<Uuid>)
    requires Increasing(ids) && forall x :: x in ids <==> x in members
    ensures |ids| == |members|
  {
    if ids == [] {
      assert forall x :: x in members ==> x in ids;
      assert members == {};
    } else {
      var rest := ids[1..];
      assert forall x :: x in ids <==> x == ids[0] || x in rest;
      IncreasingCounts(rest, members - {ids[0]});
    }
  }

  /** The capacities a caller may ask for. */
  predicate Askable(maxSessions: nat, maxFacts: nat, maxRevisions: nat) {
    1 <= maxSessions <= 1_000 && 1 <= maxFacts <= 10_000 && 1 <= maxRevisions <= 10_000
  }

  /** The journal is there, and no larger than was asked for. */
  predicate Fits(log: seq<Entry>, limit: nat, maxSessions: nat, maxFacts: nat, maxRevisions: nat) {
    && Turns(log) != [] && |log| <= limit
    && |SessionIds(Turns(log))| <= maxSessions
    && |FactsOf(Turns(log))| <= maxFacts && |RevisionsOf(Turns(log))| <= maxRevisions
  }

  /** What each refusal says about the request and the journal. */
  ghost predicate Justified(e: KnowledgeError, leadId: Uuid, log: seq<Entry>, limit: nat, maxSessions: nat, maxFacts: nat,
                            maxRevisions: nat)
  {
    match e
    case CapacitiesNotPositive => maxSessions < 1 || maxFacts < 1 || maxRevisions < 1
    case CapacitiesUnsafe => maxSessions > 1_000 || maxFacts > 10_000 || maxRevisions > 10_000
    case JournalUnreadable(load) => Load(leadId, log, limit) == Failure(load)
    case JournalMissing => Turns(log) == []
    case SessionCapacityReached => |SessionIds(Turns(log))| > maxSessions
    case SessionUnreadable(replay) =>
      exists s :: s in SessionIds(Turns(log)) && SessionFails(leadId, Turns(log), s, replay)
    case FactCapacityReached => |FactsOf(Turns(log))| > maxFacts
    case RevisionCapacityReached => |RevisionsOf(Turns(log))| > maxRevisions
    case CorruptKnowledge(_) => !Sound(Turns(log))
  }

  ghost predicate Holds(source: Snapshot, leadId: Uuid, log: seq<Entry>) {
    && source.leadId == leadId && source.version == |log|
    && Increasing(source.sessionIds) && (forall s :: s in source.sessionIds <==> SessionEvents(log, s) != [])
    && source.facts == FactsOf(Turns(log)) && source.revisions == RevisionsOf(Turns(log))
  }

  /** A journal engines wrote is refused only for what was asked, its length, its absence or its size. */
  lemma ProducedRefusals(e: KnowledgeError, leadId: Uuid, log: seq<Entry>, limit: nat, maxSessions: nat, maxFacts: nat,
                         maxRevisions: nat)
    requires Produced(leadId, log) && Justified(e, leadId, log, limit, maxSessions, maxFacts, maxRevisions)
    ensures !(Askable(maxSessions, maxFacts, maxRevisions) && Fits(log, limit, maxSessions, maxFacts, maxRevisions))
  {
    match e
    case JournalUnreadable(_) => ProducedLoads(leadId, log, limit);
    case SessionUnreadable(replay) =>
      var s :| s in SessionIds(Turns(log)) && SessionFails(leadId, Turns(log), s, replay);
      SessionIdsHaveEvents(Turns(log), s);
      ProducedReplays(leadId, log, s);
    case CorruptKnowledge(_) => ProducedMirrors(leadId, log);
    case _ =>
  }

  ghost predicate SessionReplays(leadId: Uuid, turns: seq<JournaledTurn>, s: Uuid) {
    Replay(leadId, Session(turns, s)).Success?
  }

  ghost predicate SessionFails(leadId: Uuid, turns: seq<JournaledTurn>, s: Uuid, error: ReplayError) {
    Replay(leadId, Session(turns, s)) == Failure(error)
  }

  lemma SomeSession(turns: seq<JournaledTurn>)
    ensures SessionIds(turns) == {} <==> turns == []
  {
    if turns != [] { assert turns[0].event.sessionId in SessionIds(turns); }
  }

  /** Why a session does not replay, if it does not. */
  function ReplayFailure(leadId: Uuid, events: seq<TurnEvent>): Option<ReplayError> {
    var replay := Replay(leadId, events);
    if replay.Failure? then Some(replay.error) else None
  }

  /** The first failure among the items in order. */
  method FirstFailure<T, E>(items: seq<T>, failureOf: T -> Option<E>) returns (failure: Option<E>)
    ensures failure.Some? ==> exists i :: 0 <= i < |items| && failureOf(items[i]) == failure
    ensures failure.None? ==> forall i :: 0 <= i < |items| ==> failureOf(items[i]).None?
  {
    for i := 0 to |items|
      invariant forall j :: 0 <= j < i ==> failureOf(items[j]).None?
    {
      failure := failureOf(items[i]);
      if failure.Some? { return; }
    }
    failure := None;
  }

  /** Replay every session: which one does not, if any. */
  method ReplayAll(leadId: Uuid, turns: seq<JournaledTurn>, grouped: map<Uuid, seq<TurnEvent>>, ids: seq<Uuid>)
    returns (failure: Option<ReplayError>)
    requires forall s :: s in ids ==> s in grouped && grouped[s] == Session(turns, s)
    ensures failure.Some? ==> exists s :: s in ids && SessionFails(leadId, turns, s, failure.value)
    ensures failure.None? ==> forall s :: s in ids ==> SessionReplays(leadId, turns, s)
  {
    var failureOf := s => if s in grouped then ReplayFailure(leadId, grouped[s]) else None;
    failure := FirstFailure(ids, failureOf);
    if failure.Some? {
      var i :| 0 <= i < |ids| && failureOf(ids[i]) == failure;
      assert SessionFails(leadId, turns, ids[i], failure.value);
    } else {
      forall s | s in ids ensures SessionReplays(leadId, turns, s) {
        var i :| 0 <= i < |ids| && ids[i] == s;
        assert failureOf(ids[i]).None?;
      }
    }
  }

  /** Read the knowledge source: every session must replay, then every fact and revision is read. A refusal is always
      justified by the request or the journal; a journal that engines wrote is read exactly when it is there and no
      larger than was asked for, and is never called corrupt. */
  method Read(leadId: Uuid, log: seq<Entry>, limit: nat, maxSessions: nat, maxFacts: nat, maxRevisions: nat)
    returns (r: Result<Snapshot, KnowledgeError>)
    ensures r.Success? ==>
              && Holds(r.value, leadId, log) && Sound(Turns(log))
              && Askable(maxSessions, maxFacts, maxRevisions) && Fits(log, limit, maxSessions, maxFacts, maxRevisions)
              && forall s :: s in SessionIds(Turns(log)) ==> SessionReplays(leadId, Turns(log), s)
    ensures r.Failure? ==> Justified(r.error, leadId, log, limit, maxSessions, maxFacts, maxRevisions)
    ensures Produced(leadId, log) ==>
              (r.Success? <==> Askable(maxSessions, maxFacts, maxRevisions)
                               && Fits(log, limit, maxSessions, maxFacts, maxRevisions))
  {
    r := ReadLoaded(leadId, log, limit, maxSessions, maxFacts, maxRevisions);
    if r.Failure? && Produced(leadId, log) {
      ProducedRefusals(r.error, leadId, log, limit, maxSessions, maxFacts, maxRevisions);
    }
  }

  method ReadLoaded(leadId: Uuid, log: seq<Entry>, limit: nat, maxSessions: nat, maxFacts: nat, maxRevisions: nat)
    returns (r: Result<Snapshot, KnowledgeError>)
    ensures r.Success? ==>
              && Holds(r.value, leadId, log) && Sound(Turns(log))
              && Askable(maxSessions, maxFacts, maxRevisions) && Fits(log, limit, maxSessions, maxFacts, maxRevisions)
              && forall s :: s in SessionIds(Turns(log)) ==> SessionReplays(leadId, Turns(log), s)
    ensures r.Failure? ==> Justified(r.error, leadId, log, limit, maxSessions, maxFacts, maxRevisions)
  {
    if maxSessions < 1 || maxFacts < 1 || maxRevisions < 1 { return Failure(CapacitiesNotPositive); }
    if maxSessions > 1_000 || maxFacts > 10_000 || maxRevisions > 10_000 { return Failure(CapacitiesUnsafe); }
    var loaded := Load(leadId, log, limit);
    if loaded.Failure? { return Failure(JournalUnreadable(loaded.error)); }
    var turns := loaded.value;
    var grouped, ids := GroupBySession(turns);
    forall s ensures s in ids <==> s in SessionIds(turns) { SessionIdsHaveEvents(turns, s); }
    IncreasingCounts(ids, SessionIds(turns));
    SomeSession(turns);
    if ids == [] { return Failure(JournalMissing); }
    if |ids| > maxSessions { return Failure(SessionCapacityReached); }
    var failure := ReplayAll(leadId, turns, grouped, ids);
    if failure.Some? { return Failure(SessionUnreadable(failure.value)); }
    var read := ReadTurns(turns, maxFacts, maxRevisions);
    if read.Failure? { return Failure(read.error); }
    r := Success(Snapshot(leadId, |log|, ids, read.value.0, read.value.1));
  }
}
