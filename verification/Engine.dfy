/** The live conversation engine: mutable per-session states updated in place by each turn. */
module Engine {
  import opened Common
  import opened Language
  import opened Conversation

  class ConversationState {
    const leadId: Uuid
    const config: ValidConfig
    var phase: Phase
    var turnCount: nat
    var abuseRedirected: bool
    var stopped: bool
    var recentDigests: seq<Digest>
    var factsByKey: seq<Fact>
    var evidence: seq<Evidence>
    var classifications: seq<Classification>
    var goalChangeCount: nat
    var language: Language
    var declaredLanguage: Language
    var pendingLanguage: Option<Language>
    var pendingLanguageCount: nat

    function LanguageFields(): LanguageState
      reads this
    {
      LanguageState(language, declaredLanguage, pendingLanguage, pendingLanguageCount)
    }

    /** The state as an immutable checkpoint: what exporting it yields. */
    function Snapshot(): Checkpoint
      reads this
    {
      Checkpoint(leadId, config, phase, turnCount, abuseRedirected, stopped, recentDigests, factsByKey, evidence,
                 classifications, goalChangeCount, LanguageFields())
    }

    constructor (leadId: Uuid, config: ValidConfig)
      ensures Snapshot() == Initial(leadId, config)
    {
      this.leadId, this.config := leadId, config;
      phase, turnCount, abuseRedirected, stopped := Discovery, 0, false, false;
      recentDigests, factsByKey, evidence, classifications := [], [], [], [];
      goalChangeCount := 0;
      language, declaredLanguage, pendingLanguage, pendingLanguageCount := Unknown, Unknown, None, 0;
    }

    /** A deep copy. */
    constructor Copy(other: ConversationState)
      ensures Snapshot() == other.Snapshot()
    {
      leadId, config := other.leadId, other.config;
      phase, turnCount, abuseRedirected, stopped :=
        other.phase, other.turnCount, other.abuseRedirected, other.stopped;
      recentDigests, factsByKey, evidence, classifications :=
        other.recentDigests, other.factsByKey, other.evidence, other.classifications;
      goalChangeCount := other.goalChangeCount;
      language, declaredLanguage, pendingLanguage, pendingLanguageCount :=
        other.language, other.declaredLanguage, other.pendingLanguage, other.pendingLanguageCount;
    }

    /** Rebuild a state from a validated checkpoint: deques refilled under their bounds, facts re-keyed. */
    constructor FromCheckpoint(cp: Checkpoint)
      requires ValidCheckpoint(cp)
      ensures Snapshot() == cp
    {
      leadId, config := cp.leadId, cp.config;
      phase, turnCount, abuseRedirected, stopped := cp.phase, cp.turnCount, cp.abuseRedirected, cp.stopped;
      goalChangeCount := cp.goalChangeCount;
      language, declaredLanguage, pendingLanguage, pendingLanguageCount :=
        cp.lang.language, cp.lang.declared, cp.lang.pending, cp.lang.pendingCount;
      recentDigests := LastN(cp.recentDigests, cp.config.DigestCapacity());
      evidence := LastN(cp.evidence, cp.config.maxEvidence);
      classifications := LastN(cp.classifications, cp.config.maxClassifications);
      factsByKey := UpsertAll([], cp.facts);
      new;
      RekeyingIsIdentity(cp.facts);
    }
  }

  lemma {:induction false} UpsertAbsent(facts: seq<Fact>, fact: Fact)
    requires forall f :: f in facts ==> f.key != fact.key
    ensures Upsert(facts, fact) == facts + [fact]
  {
    if facts != [] {
      assert facts[0] in facts;
      UpsertAbsent(facts[1..], fact);
      assert facts == [facts[0]] + facts[1..];
    }
  }

  /** Re-keying facts whose keys are unique gives back the same dictionary in the same order. */
  lemma {:induction false} RekeyingIsIdentity(facts: seq<Fact>)
    requires UniqueKeys(facts)
    ensures UpsertAll([], facts) == facts
  {
    if facts != [] {
      var init := facts[..|facts| - 1];
      RekeyingIsIdentity(init);
      UpsertAbsent(init, facts[|facts| - 1]);
    }
  }

  datatype EngineError = NotFound | AlreadyExists | DifferentDigestKey

  class ConversationEngine {
    const config: ValidConfig
    const detectSwitch: bool
    var states: map<Uuid, ConversationState>

    /** No two sessions share a state object. */
    ghost predicate Valid()
      reads this
    {
      forall s, t :: s in states && t in states && s != t ==> states[s] != states[t]
    }

    /** Every session's exported checkpoint. */
    ghost function Exported(): (r: map<Uuid, Checkpoint>)
      reads this, states.Values
    {
      map s | s in states :: states[s].Snapshot()
    }

    constructor (config: ValidConfig, detectSwitch: bool)
      ensures Valid() && Exported() == map[]
    {
      this.config, this.detectSwitch := config, detectSwitch;
      states := map[];
    }

    method CreateSession(sessionId: Uuid, leadId: Uuid) returns (r: Result<(), EngineError>)
      requires Valid()
      modifies this
      ensures Valid()
      ensures r.Failure? <==> sessionId in old(states)
      ensures Exported() == if r.Failure? then old(Exported()) else old(Exported())[sessionId := Initial(leadId, config)]
    {
      if sessionId in states { return Failure(AlreadyExists); }
      var state := new ConversationState(leadId, config);
      states := states[sessionId := state];
      r := Success(());
    }

    /** A deep copy of a live state, unaffected by later turns. */
    method TakeCheckpoint(sessionId: Uuid) returns (r: Option<ConversationState>)
      requires Valid()
      ensures r.Some? <==> sessionId in states
      ensures r.Some? ==> fresh(r.value) && r.value.Snapshot() == states[sessionId].Snapshot()
    {
      if sessionId !in states { return None; }
      var copy := new ConversationState.Copy(states[sessionId]);
      r := Some(copy);
    }

    method Restore(sessionId: Uuid, state: ConversationState)
      requires Valid()
      requires state !in states.Values
      modifies this
      ensures Valid()
      ensures states == old(states)[sessionId := state]
      ensures Exported() == old(Exported())[sessionId := state.Snapshot()]
    {
      states := states[sessionId := state];
    }

    method ExportCheckpoint(sessionId: Uuid) returns (r: Option<Checkpoint>)
      ensures r == if sessionId in Exported() then Some(Exported()[sessionId]) else None
    {
      r := if sessionId in states then Some(states[sessionId].Snapshot()) else None;
    }

    /** Load a checkpoint into a session that is not open yet. */
    method RestoreCheckpoint(sessionId: Uuid, cp: Checkpoint) returns (r: Result<(), EngineError>)
      requires Valid() && ValidCheckpoint(cp)
      modifies this
      ensures Valid()
      ensures r.Success? <==> sessionId !in old(states) && cp.config.digestKeyId == config.digestKeyId
      ensures Exported() == if r.Success? then old(Exported())[sessionId := cp] else old(Exported())
    {
      if sessionId in states { return Failure(AlreadyExists); }
      if cp.config.digestKeyId != config.digestKeyId { return Failure(DifferentDigestKey); }
      var state := new ConversationState.FromCheckpoint(cp);
      states := states[sessionId := state];
      r := Success(());
    }

    /** Replace the state of an open session by a checkpoint. */
    method ReplaceCheckpoint(sessionId: Uuid, cp: Checkpoint) returns (r: Result<(), EngineError>)
      requires Valid() && ValidCheckpoint(cp)
      modifies this
      ensures Valid()
      ensures r.Success? <==> sessionId in old(states) && cp.config.digestKeyId == config.digestKeyId
      ensures Exported() == if r.Success? then old(Exported())[sessionId := cp] else old(Exported())
      ensures forall o :: o in states.Values ==> o in old(states.Values) || fresh(o)
    {
      if sessionId !in states { return Failure(NotFound); }
      if cp.config.digestKeyId != config.digestKeyId { return Failure(DifferentDigestKey); }
      var state := new ConversationState.FromCheckpoint(cp);
      states := states[sessionId := state];
      r := Success(());
    }

    method CloseSession(sessionId: Uuid)
      requires Valid()
      modifies this
      ensures Valid()
      ensures Exported() == old(Exported()) - {sessionId}
    {
      states := states - {sessionId};
    }

    /** Decide the language of a turn and record the hysteresis. */
    method ResolveLanguage(state: ConversationState, declared: Language, reading: Reading) returns (switched: bool)
      modifies state
      ensures var r := Resolve(old(state.LanguageFields()), declared, reading, detectSwitch);
              switched == r.switched && state.Snapshot() == old(state.Snapshot()).(lang := r.state)
    {
      if state.declaredLanguage == Unknown {
        state.declaredLanguage, state.language := declared, declared;
      } else if declared != state.declaredLanguage {
        switched := declared != state.language;
        state.declaredLanguage, state.language := declared, declared;
        state.pendingLanguage, state.pendingLanguageCount := None, 0;
        return;
      }
      if !detectSwitch { return false; }
      var d := Decide(state.language, reading, state.pendingLanguage, state.pendingLanguageCount);
      state.language, state.pendingLanguage, state.pendingLanguageCount := d.language, d.pending, d.pendingCount;
      switched := d.switched;
    }

    /** Append one classification of the current evidence. */
    method ClassifyState(state: ConversationState, forceCold: bool) returns (c: Classification)
      modifies state`classifications
      ensures c == Classify(state.leadId, state.evidence, forceCold)
      ensures state.Snapshot() == old(state.Snapshot()).(
                classifications := LastN(old(state.classifications) + [c], state.config.maxClassifications))
    {
      c := Classify(state.leadId, state.evidence, forceCold);
      state.classifications := LastN(state.classifications + [c], state.config.maxClassifications);
    }

    /** The facts and revisions the candidates yield against the live facts. */
    method ExtractBusinessSignals(state: ConversationState, candidates: seq<Candidate>) returns (ex: Extraction)
      ensures ex == Extract(state.factsByKey, state.leadId, candidates)
    {
      var facts: seq<Fact>, revisions: seq<Revision> := [], [];
      for i := 0 to |candidates|
        invariant Extraction(facts, revisions) == Extract(state.factsByKey, state.leadId, candidates[..i])
      {
        assert candidates[..i + 1][..i] == candidates[..i];
        var c := candidates[i];
        var existing := FindFact(state.factsByKey, c.key);
        if existing.Some? && existing.value.value == c.value { continue; }
        var fact := Fact(c.factId, state.leadId, c.key, c.value);
        facts := facts + [fact];
        if existing.Some? {
          revisions := revisions
            + [Revision(c.revisionId, state.leadId, c.key, Some(existing.value.factId), fact.factId, false)];
        }
      }
      assert candidates[..|candidates|] == candidates;
      ex := Extraction(facts, revisions);
    }

    /** Record the extracted facts in place, within capacity. */
    method AcceptFacts(state: ConversationState, ex: Extraction)
      returns (accepted: seq<Fact>, revisions: seq<Revision>)
      modifies state`factsByKey, state`goalChangeCount
      ensures Intake(state.factsByKey, state.goalChangeCount, accepted, revisions) ==
              Accept(Intake(old(state.factsByKey), old(state.goalChangeCount), [], []), state.config.maxFacts,
                     ex.revisions, ex.facts)
    {
      ghost var start := Intake(state.factsByKey, state.goalChangeCount, [], []);
      accepted, revisions := [], [];
      for i := 0 to |ex.facts|
        invariant Intake(state.factsByKey, state.goalChangeCount, accepted, revisions) ==
                  Accept(start, state.config.maxFacts, ex.revisions, ex.facts[..i])
      {
        assert ex.facts[..i + 1][..i] == ex.facts[..i];
        var fact := ex.facts[i];
        var existing := FindFact(state.factsByKey, fact.key);
        if |state.factsByKey| >= state.config.maxFacts && existing.None? { continue; }
        if existing.Some? && existing.value.value != fact.value {
          state.goalChangeCount := state.goalChangeCount + 1;
        }
        state.factsByKey := Upsert(state.factsByKey, fact);
        accepted := accepted + [fact];
        var revision := RevisionFor(ex.revisions, fact.factId);
        if revision.Some? { revisions := revisions + [revision.value]; }
      }
      assert ex.facts[..|ex.facts|] == ex.facts;
    }

    /** Advance one session by one turn. A refused turn changes nothing, and no other session is touched. */
    method ProcessTurn(sessionId: Uuid, input: TurnInput) returns (r: Result<TurnResult, TurnError>)
      requires Valid()
      requires input.detectSwitch == detectSwitch
      modifies states.Values
      ensures Valid()
      ensures sessionId !in states ==> r == Failure(SessionNotFound) && Exported() == old(Exported())
      ensures sessionId in states ==>
                match Conversation.ProcessTurn(old(Exported())[sessionId], input)
                case Failure(e) => r == Failure(e) && Exported() == old(Exported())
                case Success(o) => r == Success(o.result) && Exported() == old(Exported())[sessionId := o.state]
    {
      if sessionId !in states { return Failure(SessionNotFound); }
      var state := states[sessionId];
      if state.turnCount >= state.config.maxTurns { return Failure(TurnCapacityReached); }
      if state.stopped { return Failure(ConversationClosed); }
      ghost var before := Exported();
      var result := Advance(state, input);
      assert forall s :: s in states && s != sessionId ==> states[s].Snapshot() == before[s];
      assert Exported() == before[sessionId := state.Snapshot()];
      r := Success(result);
    }

    /** The turn itself, once it is not refused. */
    method Advance(state: ConversationState, input: TurnInput) returns (result: TurnResult)
      requires input.detectSwitch == detectSwitch
      requires state.turnCount < state.config.maxTurns && !state.stopped
      modifies state
      ensures Conversation.ProcessTurn(old(state.Snapshot()), input) == Success(Outcome(state.Snapshot(), result))
    {
      var switched, repeated := BeginTurn(state, input);
      if OptOut in input.signals {
        state.stopped, state.phase := true, Closed;
        result := Report(state, input, switched, repeated, true, Stop);
      } else if Abuse in input.signals {
        if state.abuseRedirected {
          state.stopped, state.phase := true, Closed;
          result := Report(state, input, switched, repeated, false, Stop);
        } else {
          state.abuseRedirected := true;
          result := Report(state, input, switched, repeated, false, Redirect);
        }
      } else if InternalInfo in input.signals || PromptInjection in input.signals {
        result := Report(state, input, switched, repeated, false, Redirect);
      } else {
        result := AdvanceBusiness(state, input, switched, repeated);
      }
    }

    /** Resolve the language, then count the turn and remember its digest. */
    method BeginTurn(state: ConversationState, input: TurnInput) returns (switched: bool, repeated: bool)
      requires input.detectSwitch == detectSwitch
      modifies state
      ensures state.Snapshot() == Begin(old(state.Snapshot()), input)
      ensures switched ==
              Resolve(old(state.LanguageFields()), input.declared, input.reading, input.detectSwitch).switched
      ensures repeated == (input.digest in old(state.recentDigests))
    {
      switched := ResolveLanguage(state, input.declared, input.reading);
      repeated := input.digest in state.recentDigests;
      state.turnCount := state.turnCount + 1;
      state.recentDigests := LastN(state.recentDigests + [input.digest], state.config.DigestCapacity());
    }

    /** Classify and report a turn that records no fact. */
    method Report(state: ConversationState, input: TurnInput, switched: bool, repeated: bool, forceCold: bool,
                  disposition: Disposition)
      returns (result: TurnResult)
      modifies state
      ensures Conversation.Conclude(old(state.Snapshot()), input, switched, repeated, forceCold, disposition) ==
              Outcome(state.Snapshot(), result)
    {
      var c := ClassifyState(state, forceCold);
      result := TurnResult(input.reply, state.language, switched, disposition, state.phase, input.signals,
                           [], [], [], c, repeated, state.turnCount);
    }

    /** Extract, accept, gather evidence, classify and report a turn in which nothing unsafe was said. */
    method AdvanceBusiness(state: ConversationState, input: TurnInput, switched: bool, repeated: bool)
      returns (result: TurnResult)
      modifies state
      ensures ProcessBusiness(old(state.Snapshot()), input, switched, repeated) == Outcome(state.Snapshot(), result)
    {
      ghost var before := state.Snapshot();
      var ex := Extraction([], []);
      if !repeated { ex := ExtractBusinessSignals(state, input.candidates); }
      var accepted, revisions := AcceptFacts(state, ex);
      var added := NewEvidence(Dimensions(state.evidence), state.leadId, if repeated then [] else input.evidence);
      state.evidence := LastN(state.evidence + added, state.config.maxEvidence);
      var signals, disposition := input.signals, Continue;
      if state.goalChangeCount >= state.config.maxGoalChanges {
        signals, disposition := signals + [ExcessiveGoalChanges], Review;
      }
      ghost var gathered := state.Snapshot();
      assert gathered == before.(facts := state.factsByKey, goalChangeCount := state.goalChangeCount,
                                 evidence := state.evidence);
      var c := ClassifyState(state, false);
      state.phase := PhaseFor(c);
      assert state.Snapshot() == gathered.(phase := PhaseFor(c), classifications := state.classifications);
      result := TurnResult(input.reply, state.language, switched, disposition, state.phase, signals,
                           accepted, revisions, added, c, repeated, state.turnCount);
    }
  }
}
