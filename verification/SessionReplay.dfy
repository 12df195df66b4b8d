/** Journal events, and rebuilding a session's state from them. */
module SessionReplay {
  import opened Common
  import opened Language
  import opened Conversation

  datatype TurnEvent = TurnEvent(sessionId: Uuid, operationId: Uuid, fingerprint: Digest, turnDigest: Digest,
                                 config: ValidConfig, abuseRedirected: bool, stopped: bool, goalChangeCount: nat,
                                 declared: Language, pending: Option<Language>, pendingCount: nat,
                                 result: TurnResult)

  /** The event validator. */
  predicate Consistent(ev: TurnEvent) {
    && (ev.stopped <==> ev.result.disposition.Stop?)
    && (ev.stopped <==> ev.result.phase.Closed?)
    && forall r :: r in ev.result.revisions ==> exists f :: f in ev.result.facts && f.factId == r.replacementFactId
  }

  datatype EventError = MissingDigest | InconsistentEvent

  function EventFromState(sessionId: Uuid, operationId: Uuid, fingerprint: Digest, cp: Checkpoint, result: TurnResult):
    Result<TurnEvent, EventError>
  {
    if cp.recentDigests == [] then Failure(MissingDigest)
    else
      var ev := TurnEvent(sessionId, operationId, fingerprint, cp.recentDigests[|cp.recentDigests| - 1], cp.config,
                          cp.abuseRedirected, cp.stopped, cp.goalChangeCount,
                          cp.lang.declared, cp.lang.pending, cp.lang.pendingCount, result);
      if Consistent(ev) then Success(ev) else Failure(InconsistentEvent)
  }

  datatype Corruption =
    | ConfigurationChanges | TurnSequenceInconsistent | ChangesLeadIdentity
    | ContinuesAfterClosure | GoalChangeCountDecreases | AbuseStateRegresses

  datatype ReplayError = JournalNotFound | Corrupt(reason: Corruption) | InvalidCheckpoint

  /** Everything the result carries belongs to the lead. */
  predicate BelongsTo(r: TurnResult, leadId: Uuid) {
    && r.classification.leadId == leadId
    && (forall f :: f in r.facts ==> f.leadId == leadId)
    && (forall v :: v in r.revisions ==> v.leadId == leadId)
    && (forall e :: e in r.evidence ==> e.leadId == leadId)
  }

  function ValidateEvent(ev: TurnEvent, leadId: Uuid, expectedTurn: nat, first: TurnEvent, previous: Option<TurnEvent>):
    Option<Corruption>
  {
    if ev.config != first.config then Some(ConfigurationChanges)
    else if ev.result.turnCount != expectedTurn then Some(TurnSequenceInconsistent)
    else if !BelongsTo(ev.result, leadId) then Some(ChangesLeadIdentity)
    else if previous.Some? && previous.value.stopped then Some(ContinuesAfterClosure)
    else if previous.Some? && ev.goalChangeCount < previous.value.goalChangeCount then Some(GoalChangeCountDecreases)
    else if previous.Some? && previous.value.abuseRedirected && !ev.abuseRedirected then Some(AbuseStateRegresses)
    else None
  }

  // ----- what replay rebuilds, stated over the whole event list -----

  /** The first corruption replay would meet. */
  function FirstCorruption(leadId: Uuid, events: seq<TurnEvent>): Option<Corruption> {
    if events == [] then None
    else
      var init := events[..|events| - 1];
      var earlier := FirstCorruption(leadId, init);
      if earlier.Some? then earlier
      else ValidateEvent(events[|events| - 1], leadId, |events|, events[0],
                         if init == [] then None else Some(init[|init| - 1]))
  }

  function AllFacts(events: seq<TurnEvent>): seq<Fact> {
    if events == [] then [] else AllFacts(events[..|events| - 1]) + events[|events| - 1].result.facts
  }

  function AllEvidence(events: seq<TurnEvent>): seq<Evidence> {
    if events == [] then [] else AllEvidence(events[..|events| - 1]) + events[|events| - 1].result.evidence
  }

  function AllClassifications(events: seq<TurnEvent>): seq<Classification> {
    if events == [] then [] else AllClassifications(events[..|events| - 1]) + [events[|events| - 1].result.classification]
  }

  function AllDigests(events: seq<TurnEvent>): seq<Digest> {
    if events == [] then [] else AllDigests(events[..|events| - 1]) + [events[|events| - 1].turnDigest]
  }

  /** The state a session's events describe: every fact assigned in order, each deque the tail of its stream,
      the scalars those of the last event. */
  function Rebuilt(leadId: Uuid, events: seq<TurnEvent>): Checkpoint
    requires events != []
  {
    var first, last := events[0], events[|events| - 1];
    Checkpoint(leadId, first.config, last.result.phase, last.result.turnCount, last.abuseRedirected, last.stopped,
               LastN(AllDigests(events), first.config.DigestCapacity()),
               UpsertAll([], AllFacts(events)),
               LastN(AllEvidence(events), first.config.maxEvidence),
               LastN(AllClassifications(events), first.config.maxClassifications),
               last.goalChangeCount,
               LanguageState(last.result.language, last.declared, last.pending, last.pendingCount))
  }

  function Replay(leadId: Uuid, events: seq<TurnEvent>): (r: Result<Checkpoint, ReplayError>)
    ensures r.Success? ==> ValidCheckpoint(r.value) && events != []
  {
    if events == [] then Failure(JournalNotFound)
    else
      var corruption := FirstCorruption(leadId, events);
      if corruption.Some? then Failure(Corrupt(corruption.value))
      else if !ValidCheckpoint(Rebuilt(leadId, events)) then Failure(InvalidCheckpoint)
      else Success(Rebuilt(leadId, events))
  }

  lemma {:induction false} UpsertAllAppend(facts: seq<Fact>, a: seq<Fact>, b: seq<Fact>)
    ensures UpsertAll(UpsertAll(facts, a), b) == UpsertAll(facts, a + b)
  {
    if b == [] {
      assert a + b == a;
    } else {
      UpsertAllAppend(facts, a, b[..|b| - 1]);
      assert (a + b)[..|a + b| - 1] == a + b[..|b| - 1];
    }
  }

  /** Replay as the journal runs it: one pass filling a dictionary and three bounded deques, stopping at the
      first corrupt event. */
  method ReplaySessionEvents(leadId: Uuid, events: seq<TurnEvent>) returns (r: Result<Checkpoint, ReplayError>)
    ensures r == Replay(leadId, events)
  {
    if events == [] { return Failure(JournalNotFound); }
    var first := events[0];
    var facts: seq<Fact> := [];
    var evidence: seq<Evidence> := [];
    var classifications: seq<Classification> := [];
    var digests: seq<Digest> := [];
    var previous: Option<TurnEvent> := None;
    for i := 0 to |events|
      invariant FirstCorruption(leadId, events[..i]).None?
      invariant previous == if i == 0 then None else Some(events[i - 1])
      invariant facts == UpsertAll([], AllFacts(events[..i]))
      invariant evidence == LastN(AllEvidence(events[..i]), first.config.maxEvidence)
      invariant classifications == LastN(AllClassifications(events[..i]), first.config.maxClassifications)
      invariant digests == LastN(AllDigests(events[..i]), first.config.DigestCapacity())
    {
      var event := events[i];
      assert events[..i + 1][..i] == events[..i];
      var corruption := ValidateEvent(event, leadId, i + 1, first, previous);
      if corruption.Some? {
        CorruptionIsFirst(leadId, events, i + 1);
        return Failure(Corrupt(corruption.value));
      }
      UpsertAllAppend([], AllFacts(events[..i]), event.result.facts);
      facts := UpsertAll(facts, event.result.facts);
      LastNOfLastN(AllEvidence(events[..i]), event.result.evidence, first.config.maxEvidence);
      evidence := LastN(evidence + event.result.evidence, first.config.maxEvidence);
      LastNOfLastN(AllClassifications(events[..i]), [event.result.classification], first.config.maxClassifications);
      classifications := LastN(classifications + [event.result.classification], first.config.maxClassifications);
      LastNOfLastN(AllDigests(events[..i]), [event.turnDigest], first.config.DigestCapacity());
      digests := LastN(digests + [event.turnDigest], first.config.DigestCapacity());
      previous := Some(event);
    }
    assert events[..|events|] == events;
    var last := previous.value;
    var cp := Checkpoint(leadId, first.config, last.result.phase, last.result.turnCount, last.abuseRedirected,
                         last.stopped, digests, facts, evidence, classifications, last.goalChangeCount,
                         LanguageState(last.result.language, last.declared, last.pending, last.pendingCount));
    assert cp == Rebuilt(leadId, events);
    r := if ValidCheckpoint(cp) then Success(cp) else Failure(InvalidCheckpoint);
  }

  lemma {:induction false} CorruptionIsFirst(leadId: Uuid, events: seq<TurnEvent>, k: nat)
    requires k <= |events| && FirstCorruption(leadId, events[..k]).Some?
    ensures FirstCorruption(leadId, events) == FirstCorruption(leadId, events[..k])
    decreases |events| - k
  {
    if k < |events| {
      assert events[..k + 1][..k] == events[..k];
      CorruptionIsFirst(leadId, events, k + 1);
    } else {
      assert events[..k] == events;
    }
  }

  // ----- simulation -----

  /** `cp` is the state of a session with exactly these durable events, or of one not started. */
  ghost predicate StateAfter(leadId: Uuid, events: seq<TurnEvent>, cp: Checkpoint) {
    if events == [] then cp == Initial(leadId, cp.config) else Replay(leadId, events) == Success(cp)
  }

  lemma StateAfterIsValid(leadId: Uuid, events: seq<TurnEvent>, cp: Checkpoint)
    requires StateAfter(leadId, events, cp)
    ensures ValidCheckpoint(cp) && cp.leadId == leadId && (cp.turnCount == 0 <==> events == [])
    ensures events != [] ==> cp.config == events[0].config && cp.turnCount == |events|
  {
  }

  /** The event written for a turn is always accepted by its own validator. */
  lemma EventOfTurn(cp: Checkpoint, input: TurnInput, sessionId: Uuid, operationId: Uuid, fingerprint: Digest)
    requires ValidCheckpoint(cp) && ProcessTurn(cp, input).Success?
    ensures var o := ProcessTurn(cp, input).value;
            var ev := EventFromState(sessionId, operationId, fingerprint, o.state, o.result);
            ev.Success? && ev.value.turnDigest == input.digest
  {
    TurnKeepsValid(cp, input);
  }

  /** Live/replay simulation. Appending the event written for a turn to the session's durable events makes
      replay return exactly the state the live engine is in after that turn: whatever was said, and including
      fact order, the three bounded deques, phase, goal changes, language and pending language. */
  lemma ReplayFollowsTurn(leadId: Uuid, events: seq<TurnEvent>, cp: Checkpoint, input: TurnInput,
                          sessionId: Uuid, operationId: Uuid, fingerprint: Digest)
    requires StateAfter(leadId, events, cp)
    requires ProcessTurn(cp, input).Success?
    ensures var o := ProcessTurn(cp, input).value;
            var ev := EventFromState(sessionId, operationId, fingerprint, o.state, o.result);
            ev.Success? && Replay(leadId, events + [ev.value]) == Success(o.state)
  {
    StateAfterIsValid(leadId, events, cp);
    EventOfTurn(cp, input, sessionId, operationId, fingerprint);
    TurnKeepsValid(cp, input);
    var o := ProcessTurn(cp, input).value;
    var ev := EventFromState(sessionId, operationId, fingerprint, o.state, o.result).value;
    ValidEventFollows(leadId, events, cp, ev);
    RebuiltGrows(leadId, events, cp, ev);
    assert Rebuilt(leadId, events + [ev]) == o.state;
  }

  /** What the state of a session says of its last event. */
  lemma StateHasLast(leadId: Uuid, events: seq<TurnEvent>, cp: Checkpoint)
    requires StateAfter(leadId, events, cp) && events != []
    ensures FirstCorruption(leadId, events).None?
    ensures var last := events[|events| - 1];
            && last.stopped == cp.stopped && last.goalChangeCount == cp.goalChangeCount
            && last.abuseRedirected == cp.abuseRedirected
  {
  }

  /** An event that continues the state a journal ends in adds no corruption to it. */
  lemma ValidEventFollows(leadId: Uuid, events: seq<TurnEvent>, cp: Checkpoint, ev: TurnEvent)
    requires StateAfter(leadId, events, cp)
    requires ev.config == cp.config && ev.result.turnCount == cp.turnCount + 1 && BelongsTo(ev.result, leadId)
    requires !cp.stopped && ev.goalChangeCount >= cp.goalChangeCount && (cp.abuseRedirected ==> ev.abuseRedirected)
    ensures FirstCorruption(leadId, events + [ev]).None?
  {
    StateAfterIsValid(leadId, events, cp);
    if events != [] { StateHasLast(leadId, events, cp); }
    CorruptionExtends(leadId, events, ev);
  }

  lemma CorruptionExtends(leadId: Uuid, events: seq<TurnEvent>, ev: TurnEvent)
    requires FirstCorruption(leadId, events).None?
    ensures FirstCorruption(leadId, events + [ev]) ==
            ValidateEvent(ev, leadId, |events| + 1, (events + [ev])[0],
                          if events == [] then None else Some(events[|events| - 1]))
  {
    assert (events + [ev])[..|events|] == events;
  }

  /** Rebuilding with one more event is rebuilding without it and then applying its reported growth. */
  lemma RebuiltGrows(leadId: Uuid, events: seq<TurnEvent>, cp: Checkpoint, ev: TurnEvent)
    requires StateAfter(leadId, events, cp) && ev.config == cp.config
    ensures var r := Rebuilt(leadId, events + [ev]);
            && r.config == cp.config
            && r.recentDigests == LastN(cp.recentDigests + [ev.turnDigest], cp.config.DigestCapacity())
            && r.facts == UpsertAll(cp.facts, ev.result.facts)
            && r.evidence == LastN(cp.evidence + ev.result.evidence, cp.config.maxEvidence)
            && r.classifications ==
                 LastN(cp.classifications + [ev.result.classification], cp.config.maxClassifications)
  {
    assert (events + [ev])[..|events|] == events;
    UpsertAllAppend([], AllFacts(events), ev.result.facts);
    LastNOfLastN(AllEvidence(events), ev.result.evidence, cp.config.maxEvidence);
    LastNOfLastN(AllDigests(events), [ev.turnDigest], cp.config.DigestCapacity());
    LastNOfLastN(AllClassifications(events), [ev.result.classification], cp.config.maxClassifications);
  }

  // ----- what replay refuses -----

  /** An event may follow another in a session. */
  predicate MayFollow(previous: TurnEvent, ev: TurnEvent) {
    && !previous.stopped && previous.goalChangeCount <= ev.goalChangeCount
    && (previous.abuseRedirected ==> ev.abuseRedirected)
  }

  /** The leads that anything in a result belongs to. */
  function Owners(r: TurnResult): set<Uuid> {
    {r.classification.leadId} + (set f | f in r.facts :: f.leadId) + (set v | v in r.revisions :: v.leadId)
    + set e | e in r.evidence :: e.leadId
  }

  lemma OwnedIff(r: TurnResult, leadId: Uuid)
    ensures BelongsTo(r, leadId) <==> Owners(r) == {leadId}
  {
    assert forall f :: f in r.facts ==> f.leadId in Owners(r);
    assert forall v :: v in r.revisions ==> v.leadId in Owners(r);
    assert forall e :: e in r.evidence ==> e.leadId in Owners(r);
    assert r.classification.leadId in Owners(r);
  }

  /** A state and a result make an event exactly when a digest was taken, stopping, STOP and the closed phase agree, and
      every revision introduces a reported fact. */
  lemma EventMadeIff(sessionId: Uuid, operationId: Uuid, fingerprint: Digest, cp: Checkpoint, result: TurnResult)
    ensures EventFromState(sessionId, operationId, fingerprint, cp, result).Success? <==>
            && cp.recentDigests != []
            && cp.stopped == result.disposition.Stop? == result.phase.Closed?
            && (set r | r in result.revisions :: r.replacementFactId) <= (set f | f in result.facts :: f.factId)
  {
    var replaced, reported := set r | r in result.revisions :: r.replacementFactId, set f | f in result.facts :: f.factId;
    if replaced <= reported {
      forall r | r in result.revisions ensures exists f :: f in result.facts && f.factId == r.replacementFactId {
        assert r.replacementFactId in replaced;
      }
    }
  }

  /** The events of one session as they may be: one configuration, turns counted from 1, everything the lead's own, and
      nothing after a stop, no goal change or abuse redirect taken back. */
  predicate Orderly(leadId: Uuid, events: seq<TurnEvent>) {
    && (forall i :: 0 <= i < |events| ==>
          events[i].config == events[0].config && events[i].result.turnCount == i + 1 && Owners(events[i].result) == {leadId})
    && (forall i :: 0 < i < |events| ==> MayFollow(events[i - 1], events[i]))
  }

  /** Replay reports corruption exactly of events that are not orderly. */
  lemma {:induction false} CorruptIff(leadId: Uuid, events: seq<TurnEvent>)
    ensures FirstCorruption(leadId, events).None? <==> Orderly(leadId, events)
  {
    if events != [] {
      var init, last := events[..|events| - 1], events[|events| - 1];
      CorruptIff(leadId, init);
      assert events == init + [last];
      CorruptionGrows(leadId, init, last);
      OrderlyAppend(leadId, init, last);
    }
  }

  /** A later event may come next: it belongs, its turn is the next, and it may follow the latest. */
  predicate MayComeNext(leadId: Uuid, events: seq<TurnEvent>, ev: TurnEvent) {
    && ev.config == (events + [ev])[0].config
    && ev.result.turnCount == |events| + 1 && Owners(ev.result) == {leadId}
    && (events != [] ==> MayFollow(events[|events| - 1], ev))
  }

  lemma CorruptionGrows(leadId: Uuid, events: seq<TurnEvent>, ev: TurnEvent)
    ensures FirstCorruption(leadId, events + [ev]).None? <==>
            FirstCorruption(leadId, events).None? && MayComeNext(leadId, events, ev)
  {
    assert (events + [ev])[..|events|] == events;
    OwnedIff(ev.result, leadId);
    if FirstCorruption(leadId, events).None? { CorruptionExtends(leadId, events, ev); }
  }

  lemma OrderlyAppend(leadId: Uuid, events: seq<TurnEvent>, ev: TurnEvent)
    ensures Orderly(leadId, events + [ev]) <==>
            Orderly(leadId, events) && MayComeNext(leadId, events, ev)
  {
    var all := events + [ev];
    assert forall i :: 0 <= i < |events| ==> all[i] == events[i];
    assert all[|events|] == ev;
    if Orderly(leadId, all) {
      forall i | 0 < i < |events| ensures MayFollow(events[i - 1], events[i]) {
        assert MayFollow(all[i - 1], all[i]);
      }
      if events != [] { assert MayFollow(all[|events| - 1], all[|events|]); }
    }
  }
}
