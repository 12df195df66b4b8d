/** What a turn does, in terms of what was said and the state it found: when it stops, redirects, asks for review or goes
    on, and what it records. */
module TurnLaws {
  import opened Common
  import opened Language
  import opened Conversation
  import opened SessionReplay
  import opened EventLog
  import opened TurnShape
  import opened Recording

  /** Said something that ends the turn before any business is read. */
  predicate Guarded(signals: seq<SafetySignal>) {
    OptOut in signals || Abuse in signals || InternalInfo in signals || PromptInjection in signals
  }

  predicate Stops(cp: Checkpoint, signals: seq<SafetySignal>) {
    OptOut in signals || (Abuse in signals && cp.abuseRedirected)
  }

  /** Nothing of the business is touched. */
  predicate Untouched(cp: Checkpoint, o: Outcome) {
    && o.result.facts == [] && o.result.revisions == [] && o.result.evidence == []
    && o.state.facts == cp.facts && o.state.evidence == cp.evidence && o.state.goalChangeCount == cp.goalChangeCount
  }

  /** Who stops, and who is only redirected. An opt-out always closes the conversation, abuse closes it the second time,
      and nothing else ever does; a guarded turn records nothing. */
  lemma GuardedTurn(cp: Checkpoint, input: TurnInput)
    requires ProcessTurn(cp, input).Success?
    ensures var o := ProcessTurn(cp, input).value;
            && (o.state.stopped <==> Stops(cp, input.signals))
            && (o.result.disposition.Stop? <==> Stops(cp, input.signals))
            && (o.state.stopped ==> o.state.phase.Closed? && o.result.phase.Closed?)
            && (Guarded(input.signals) && !o.state.stopped ==> o.result.disposition.Redirect? && o.state.phase == cp.phase)
            && (Guarded(input.signals) ==> Untouched(cp, o) && o.result.signals == input.signals)
            && (o.state.abuseRedirected <==> cp.abuseRedirected || (Abuse in input.signals && OptOut !in input.signals))
            && (Guarded(input.signals) ==>
                  o.result.classification == Classify(cp.leadId, cp.evidence, OptOut in input.signals))
  {
  }

  /** A turn in which nothing unsafe was said goes on, or asks for review exactly when the goal changes have reached the
      bound, and says so in its signals. */
  lemma BusinessTurn(cp: Checkpoint, input: TurnInput)
    requires ProcessTurn(cp, input).Success? && !Guarded(input.signals)
    ensures var o := ProcessTurn(cp, input).value;
            var review := o.state.goalChangeCount >= cp.config.maxGoalChanges;
            && o.result.disposition == (if review then Review else Continue)
            && o.result.signals == (if review then input.signals + [ExcessiveGoalChanges] else input.signals)
            && !o.state.stopped && !o.state.phase.Closed?
            && o.result.classification == Classify(cp.leadId, o.state.evidence, false)
  {
  }

  /** What a classification says of the evidence it is made from. */
  lemma {:induction false} EvidenceIds(evidence: seq<Evidence>, positive: bool)
    ensures forall id :: id in IdsWhere(evidence, positive) <==>
              exists e :: e in evidence && e.evidenceId == id && if positive then e.weight > 0.0 else e.weight < 0.0
  {
    if evidence != [] {
      var init, last := evidence[..|evidence| - 1], evidence[|evidence| - 1];
      EvidenceIds(init, positive);
      assert forall e :: e in evidence <==> e in init || e == last;
    }
  }

  lemma {:induction false} EvidenceAdded(known: set<string>, leadId: Uuid, readings: seq<EvidenceReading>, e: Evidence)
    ensures e in NewEvidence(known, leadId, readings) <==>
            exists r :: r in readings && r.dimension !in known && e == Evidence(r.evidenceId, leadId, r.dimension, r.weight)
  {
    if readings != [] {
      var init, last := readings[..|readings| - 1], readings[|readings| - 1];
      EvidenceAdded(known, leadId, init, e);
      assert forall r :: r in readings <==> r in init || r == last;
    }
  }

  /** Evidence is recorded exactly for the readings of a business turn that repeats no recent one, on dimensions not yet
      in evidence; the oldest evidence makes room. */
  lemma EvidenceIsRecordedIff(cp: Checkpoint, input: TurnInput, e: Evidence)
    requires ProcessTurn(cp, input).Success? && |cp.evidence| <= cp.config.maxEvidence
    ensures var o := ProcessTurn(cp, input).value;
            && (e in o.result.evidence <==>
                  && !Guarded(input.signals) && input.digest !in cp.recentDigests
                  && exists r :: r in input.evidence && r.dimension !in Dimensions(cp.evidence)
                                 && e == Evidence(r.evidenceId, cp.leadId, r.dimension, r.weight))
            && o.state.evidence == LastN(cp.evidence + o.result.evidence, cp.config.maxEvidence)
  {
    EvidenceAdded(Dimensions(cp.evidence), cp.leadId, input.evidence, e);
    if Guarded(input.signals) { assert cp.evidence + [] == cp.evidence; }
  }

  // ----- what is recorded -----

  /** The dictionary after a turn, when all of its candidates were considered. */
  ghost predicate RecordsAll(cp: Checkpoint, candidates: seq<Candidate>, o: Outcome) {
    var n := |candidates|;
    && o.result.facts == RecordedFacts(cp.facts, cp.leadId, candidates, cp.config.maxFacts, n)
    && o.result.revisions == RecordedRevisions(cp.facts, cp.leadId, candidates, cp.config.maxFacts, n)
    && Holds(cp.facts, cp.leadId, candidates, cp.config.maxFacts, n, o.state.facts)
  }

  /** A business turn that repeats no recent turn records exactly the candidates that are news and have room, each with a
      revision of the fact it replaces if there is one; every other turn records nothing. */
  lemma TurnRecords(cp: Checkpoint, input: TurnInput)
    requires ValidCheckpoint(cp) && ProcessTurn(cp, input).Success?
    requires DistinctKeys(input.candidates) && DistinctIds(input.candidates)
    ensures var o := ProcessTurn(cp, input).value;
            if Guarded(input.signals) || input.digest in cp.recentDigests then Untouched(cp, o)
            else RecordsAll(cp, input.candidates, o)
  {
    if Guarded(input.signals) {
      GuardedTurn(cp, input);
    } else if input.digest in cp.recentDigests {
      assert cp.evidence + [] == cp.evidence;
    } else {
      TakeAll(cp.facts, cp.goalChangeCount, cp.leadId, input.candidates, cp.config.maxFacts, |input.candidates|);
      assert input.candidates[..|input.candidates|] == input.candidates;
    }
  }

  /** Whether one candidate's fact is reported. */
  lemma CandidateIsRecordedIff(cp: Checkpoint, input: TurnInput, i: nat)
    requires ValidCheckpoint(cp) && ProcessTurn(cp, input).Success?
    requires DistinctKeys(input.candidates) && DistinctIds(input.candidates) && i < |input.candidates|
    ensures FactOf(input.candidates[i], cp.leadId) in ProcessTurn(cp, input).value.result.facts <==>
            && !Guarded(input.signals) && input.digest !in cp.recentDigests
            && Recorded(cp.facts, input.candidates, cp.config.maxFacts, i)
  {
    TurnRecords(cp, input);
    RecordedFactsAre(cp.facts, cp.leadId, input.candidates, cp.config.maxFacts, |input.candidates|, i);
  }

  lemma {:induction false} ValueOfKnown(known: seq<Fact>, leadId: Uuid, candidates: seq<Candidate>, maxFacts: int, n: nat,
                                        i: nat)
    requires i < n <= |candidates| && DistinctKeys(candidates) && FindFact(known, candidates[i].key).Some?
    ensures var v := Value(known, leadId, candidates, maxFacts, n, candidates[i].key);
            v.Some? && v.value.key == candidates[i].key && v.value.value == candidates[i].value
  {
    if i < n - 1 {
      ValueOfKnown(known, leadId, candidates, maxFacts, n - 1, i);
    } else {
      ValueBefore(known, leadId, candidates, maxFacts, n - 1, candidates[i].key);
    }
  }

  /** In a business turn that repeats no recent one, a candidate whose key was known ends as that key's value. */
  lemma KnownKeyTakesValue(cp: Checkpoint, input: TurnInput, i: nat)
    requires ValidCheckpoint(cp) && ProcessTurn(cp, input).Success?
    requires DistinctKeys(input.candidates) && DistinctIds(input.candidates) && i < |input.candidates|
    requires !Guarded(input.signals) && input.digest !in cp.recentDigests
    requires FindFact(cp.facts, input.candidates[i].key).Some?
    ensures var f := FindFact(ProcessTurn(cp, input).value.state.facts, input.candidates[i].key);
            f.Some? && f.value.value == input.candidates[i].value
  {
    TurnRecords(cp, input);
    ValueOfKnown(cp.facts, cp.leadId, input.candidates, cp.config.maxFacts, |input.candidates|, i);
  }

  // ----- over logs -----

  /** Among a session's events only the last can have stopped it, and an event with an opt-out did. */
  ghost predicate OnlyLastStops(events: seq<TurnEvent>) {
    && (forall i :: 0 <= i < |events| - 1 ==> !events[i].stopped)
    && (forall i :: 0 <= i < |events| && OptOut in events[i].result.signals ==> events[i].stopped)
  }

  lemma EventStops(cp: Checkpoint, input: TurnInput, sessionId: Uuid, operationId: Uuid, fingerprint: Digest, ev: TurnEvent)
    requires ProcessTurn(cp, input).Success?
    requires var o := ProcessTurn(cp, input).value;
             EventFromState(sessionId, operationId, fingerprint, o.state, o.result) == Success(ev)
    ensures !cp.stopped && (ev.stopped <==> Stops(cp, input.signals)) && (OptOut in ev.result.signals ==> ev.stopped)
  {
    GuardedTurn(cp, input);
    if !Guarded(input.signals) { BusinessTurn(cp, input); }
  }

  lemma StopsAppend(events: seq<TurnEvent>, ev: TurnEvent)
    requires OnlyLastStops(events) && (events != [] ==> !events[|events| - 1].stopped)
    requires OptOut in ev.result.signals ==> ev.stopped
    ensures OnlyLastStops(events + [ev])
  {
  }

  lemma TurnStopsLast(leadId: Uuid, log: seq<Entry>, ev: TurnEvent, cp: Checkpoint, input: TurnInput)
    requires ProducedBy(leadId, log, ev, cp, input) && OnlyLastStops(SessionEvents(log, ev.sessionId))
    ensures OnlyLastStops(SessionEvents(log, ev.sessionId) + [ev])
  {
    var events := SessionEvents(log, ev.sessionId);
    EventStops(cp, input, ev.sessionId, ev.operationId, ev.fingerprint, ev);
    if events != [] { StateHasLast(leadId, events, cp); }
    StopsAppend(events, ev);
  }

  lemma {:induction false} SessionsStopOnce(leadId: Uuid, log: seq<Entry>, session: Uuid)
    requires Produced(leadId, log)
    ensures OnlyLastStops(SessionEvents(log, session))
  {
    if log != [] {
      var init, e := log[..|log| - 1], log[|log| - 1];
      SplitLast(log);
      SessionsStopOnce(leadId, init, session);
      SessionEventsAppend(init, e, session);
      if e.payload.Accepted? && e.payload.event.sessionId == session {
        var cp, input :| ProducedBy(leadId, init, e.payload.event, cp, input);
        TurnStopsLast(leadId, init, e.payload.event, cp, input);
      } else {
        assert SessionEvents(log, session) == SessionEvents(init, session);
      }
    } else {
      assert Turns(log) == [] && Session([], session) == [];
    }
  }

  /** In every log engines can write, nothing follows an opt-out in its session. */
  lemma NothingFollowsOptOut(leadId: Uuid, log: seq<Entry>, session: Uuid, i: nat)
    requires Produced(leadId, log) && i < |SessionEvents(log, session)|
    requires OptOut in SessionEvents(log, session)[i].result.signals || SessionEvents(log, session)[i].stopped
    ensures i == |SessionEvents(log, session)| - 1
    ensures SessionEvents(log, session)[i].stopped
  {
    SessionsStopOnce(leadId, log, session);
  }

  // ----- every turn -----

  /** A turn is refused exactly when the turns are used up or the conversation is closed. */
  lemma RefusedIff(cp: Checkpoint, input: TurnInput)
    ensures ProcessTurn(cp, input).Failure? <==> cp.turnCount >= cp.config.maxTurns || cp.stopped
  {
  }

  /** Whatever was said: the turn is counted, its digest remembered among the latest, repetition judged by those before it,
      and the language resolved from what was declared and heard; the result reports each. */
  lemma EveryTurn(cp: Checkpoint, input: TurnInput)
    requires ProcessTurn(cp, input).Success?
    ensures var o := ProcessTurn(cp, input).value;
            var resolved := Resolve(cp.lang, input.declared, input.reading, input.detectSwitch);
            && o.state.turnCount == cp.turnCount + 1 == o.result.turnCount
            && o.state.recentDigests == LastN(cp.recentDigests + [input.digest], cp.config.DigestCapacity())
            && (o.result.repeated <==> input.digest in cp.recentDigests)
            && o.state.lang == resolved.state && o.result.language == resolved.state.language
            && o.result.languageSwitched == resolved.switched
            && o.state.leadId == cp.leadId && o.state.config == cp.config
  {
  }

  /** The states of a session through its turns, from its creation. */
  ghost predicate Conversed(states: seq<Checkpoint>, inputs: seq<TurnInput>) {
    && |states| == |inputs| + 1 && states[0] == Initial(states[0].leadId, states[0].config)
    && forall i :: 0 <= i < |inputs| ==>
         ProcessTurn(states[i], inputs[i]).Success? && states[i + 1] == ProcessTurn(states[i], inputs[i]).value.state
  }

  /** What the turns declared and how they were read. */
  function Heardings(inputs: seq<TurnInput>): seq<Turn> {
    if inputs == [] then []
    else
      var last := inputs[|inputs| - 1];
      Heardings(inputs[..|inputs| - 1]) + [Turn(last.declared, last.reading)]
  }

  /** A conversation's language state is the run of its turns, so every law of such runs holds of conversations. */
  lemma {:induction false} ConversationRunsLanguage(states: seq<Checkpoint>, inputs: seq<TurnInput>, n: nat)
    requires Conversed(states, inputs) && n <= |inputs| && forall i :: 0 <= i < |inputs| ==> inputs[i].detectSwitch
    ensures states[n].lang == Run(Heardings(inputs[..n]), DEFAULT_SWITCH_AFTER)
  {
    if n > 0 {
      ConversationRunsLanguage(states, inputs, n - 1);
      EveryTurn(states[n - 1], inputs[n - 1]);
      assert inputs[..n][..n - 1] == inputs[..n - 1];
      RunExtends(Heardings(inputs[..n - 1]), Turn(inputs[n - 1].declared, inputs[n - 1].reading), DEFAULT_SWITCH_AFTER);
    }
  }

  /** With detection off nothing that is said moves the language. */
  lemma UndetectedTurnsAreSilent(cp: Checkpoint, input: TurnInput)
    requires ProcessTurn(cp, input).Success? && !input.detectSwitch
    ensures ProcessTurn(cp, input).value.state.lang.language ==
            if cp.lang.declared == Unknown || input.declared != cp.lang.declared then input.declared else cp.lang.language
  {
  }

  /** What a classification means: how warm the lead is, the phase that follows, and the evidence on either side. */
  lemma ClassifiedIff(leadId: Uuid, evidence: seq<Evidence>, forceCold: bool)
    ensures var c, raw := Classify(leadId, evidence, forceCold), TotalWeight(evidence);
            && (forceCold ==> c.temperature.Cold? && c.score == 0.0)
            && 0.0 <= c.score <= 1.0 && (!forceCold && 0.0 <= 0.35 + raw <= 1.0 ==> c.score == 0.35 + raw)
            && 0.25 <= c.confidence <= 0.95
            && (c.confidence == 0.25 <==> evidence == []) && (c.confidence == 0.95 <==> |Dimensions(evidence)| >= 4)
            && (evidence != [] && |Dimensions(evidence)| <= 4 ==>
                  c.confidence == 0.35 + |Dimensions(evidence)| as real * 0.15)
            && (c.temperature.Hot? <==> !forceCold && evidence != [] && 0.35 + raw >= 0.75 && |Dimensions(evidence)| >= 2)
            && (c.temperature.ReviewNeeded? <==> !forceCold && evidence == [])
            && (c.temperature.Warm? <==>
                  !forceCold && evidence != [] && 0.35 + raw >= 0.45 && !(0.35 + raw >= 0.75 && |Dimensions(evidence)| >= 2))
            && (PhaseFor(c).NextStep? <==> c.temperature.Hot?) && (PhaseFor(c).Qualification? <==> c.temperature.Warm?)
            && (forall id :: id in c.evidenceIds <==>
                  exists e :: e in evidence && e.evidenceId == id && e.weight > 0.0)
            && (forall id :: id in c.counterEvidenceIds <==>
                  exists e :: e in evidence && e.evidenceId == id && e.weight < 0.0)
  {
    EvidenceIds(evidence, true);
    EvidenceIds(evidence, false);
    SomeDimension(evidence);
  }

  lemma SomeDimension(evidence: seq<Evidence>)
    ensures |Dimensions(evidence)| > 0 <==> evidence != []
  {
    if evidence != [] {
      assert evidence[0].dimension in Dimensions(evidence);
    } else {
      assert Dimensions(evidence) == {};
    }
  }
}
