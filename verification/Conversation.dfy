/** The state of one conversation and the effect of one buyer turn on it, as values. */
module Conversation {
  import opened Common
  import opened Language

  /** Identifiers and digests are only ever compared. */
  type Uuid = int

  type Digest = int

  datatype Phase = Discovery | Qualification | NextStep | Closed

  datatype Disposition = Continue | Redirect | Stop | Review

  datatype SafetySignal = OptOut | Abuse | InternalInfo | PromptInjection | ExcessiveGoalChanges

  datatype Temperature = Hot | Warm | Cold | ReviewNeeded

  datatype Fact = Fact(factId: Uuid, leadId: Uuid, key: string, value: string)

  datatype Revision = Revision(revisionId: Uuid, leadId: Uuid, key: string, previousFactId: Option<Uuid>,
                               replacementFactId: Uuid, confirmedByCustomer: bool)

  datatype Evidence = Evidence(evidenceId: Uuid, leadId: Uuid, dimension: string, weight: real)

  datatype Classification = Classification(leadId: Uuid, temperature: Temperature, score: real, confidence: real,
                                           evidenceIds: seq<Uuid>, counterEvidenceIds: seq<Uuid>)

  datatype Config = Config(maxTurns: int, maxFacts: int, maxEvidence: int, maxClassifications: int,
                           maxGoalChanges: int, digestKeyId: Digest)
  {
    predicate Positive() {
      maxTurns >= 1 && maxFacts >= 1 && maxEvidence >= 1 && maxClassifications >= 1 && maxGoalChanges >= 1
    }

    function DigestCapacity(): int {
      if maxTurns < 20 then maxTurns else 20
    }
  }

  type ValidConfig = c: Config | c.Positive() witness Config(1, 1, 1, 1, 1, 0)

  /** What a conversation exports and restores. `facts` lists a dictionary in insertion order. */
  datatype Checkpoint = Checkpoint(leadId: Uuid, config: ValidConfig, phase: Phase, turnCount: nat,
                                   abuseRedirected: bool, stopped: bool, recentDigests: seq<Digest>,
                                   facts: seq<Fact>, evidence: seq<Evidence>, classifications: seq<Classification>,
                                   goalChangeCount: nat, lang: LanguageState)

  function Initial(leadId: Uuid, config: ValidConfig): Checkpoint {
    Checkpoint(leadId, config, Discovery, 0, false, false, [], [], [], [], 0, UNSEEDED)
  }

  predicate UniqueKeys(facts: seq<Fact>) {
    forall i, j :: 0 <= i < j < |facts| ==> facts[i].key != facts[j].key
  }

  /** The checkpoint validator. */
  predicate ValidCheckpoint(cp: Checkpoint) {
    && cp.turnCount <= cp.config.maxTurns
    && |cp.recentDigests| <= cp.config.DigestCapacity()
    && |cp.facts| <= cp.config.maxFacts
    && |cp.evidence| <= cp.config.maxEvidence
    && |cp.classifications| <= cp.config.maxClassifications
    && UniqueKeys(cp.facts)
    && (forall f :: f in cp.facts ==> f.leadId == cp.leadId)
    && (forall e :: e in cp.evidence ==> e.leadId == cp.leadId)
    && (forall c :: c in cp.classifications ==> c.leadId == cp.leadId)
    && (cp.stopped <==> cp.phase.Closed?)
    && cp.lang.Agrees()
  }

  // ----- the fact dictionary -----

  function FindFact(facts: seq<Fact>, key: string): (r: Option<Fact>)
    ensures r.Some? ==> r.value in facts && r.value.key == key
    ensures r.None? <==> forall f :: f in facts ==> f.key != key
  {
    if facts == [] then None
    else if facts[0].key == key then Some(facts[0])
    else
      var r := FindFact(facts[1..], key);
      assert forall f :: f in facts <==> f == facts[0] || f in facts[1..];
      r
  }

  /** Dictionary assignment: a known key keeps its place, a new key goes last. */
  function Upsert(facts: seq<Fact>, fact: Fact): (r: seq<Fact>)
    ensures |r| == if FindFact(facts, fact.key).Some? then |facts| else |facts| + 1
  {
    if facts == [] then [fact]
    else if facts[0].key == fact.key then [fact] + facts[1..]
    else [facts[0]] + Upsert(facts[1..], fact)
  }

  lemma {:induction false} UpsertMembers(facts: seq<Fact>, fact: Fact)
    requires UniqueKeys(facts)
    ensures forall f :: f in Upsert(facts, fact) <==> f == fact || (f in facts && f.key != fact.key)
  {
    if facts != [] {
      var r := Upsert(facts, fact);
      assert facts == [facts[0]] + facts[1..];
      if facts[0].key == fact.key {
        assert forall f :: f in facts[1..] ==> f.key != fact.key;
      } else {
        UpsertMembers(facts[1..], fact);
      }
    }
  }

  lemma {:induction false} UpsertLookup(facts: seq<Fact>, fact: Fact)
    ensures FindFact(Upsert(facts, fact), fact.key) == Some(fact)
    ensures forall k :: k != fact.key ==> FindFact(Upsert(facts, fact), k) == FindFact(facts, k)
  {
    if facts != [] {
      var r := Upsert(facts, fact);
      if facts[0].key == fact.key {
        assert r[1..] == facts[1..];
      } else {
        UpsertLookup(facts[1..], fact);
        assert r[1..] == Upsert(facts[1..], fact);
      }
    }
  }

  /** Assignment keeps the dictionary a dictionary and changes what is stored under one key only. */
  lemma {:induction false} UpsertUnique(facts: seq<Fact>, fact: Fact)
    requires UniqueKeys(facts)
    ensures UniqueKeys(Upsert(facts, fact))
    ensures forall f :: f in Upsert(facts, fact) <==> f == fact || (f in facts && f.key != fact.key)
    ensures FindFact(Upsert(facts, fact), fact.key) == Some(fact)
    ensures forall k :: k != fact.key ==> FindFact(Upsert(facts, fact), k) == FindFact(facts, k)
  {
    UpsertMembers(facts, fact);
    UpsertLookup(facts, fact);
    if facts != [] && facts[0].key != fact.key {
      var r := Upsert(facts, fact);
      UpsertUnique(facts[1..], fact);
      forall j | 1 <= j < |r| ensures r[0].key != r[j].key {
        assert r[j] == Upsert(facts[1..], fact)[j - 1];
        assert r[j] in Upsert(facts[1..], fact);
      }
      assert r[1..] == Upsert(facts[1..], fact);
      forall i, j | 1 <= i < j < |r| ensures r[i].key != r[j].key {
        assert r[1..][i - 1] == r[i] && r[1..][j - 1] == r[j];
      }
    }
  }

  /** Where a value goes: a known key keeps its place, a new key goes last, and nothing else moves. */
  lemma {:induction false} UpsertPlaces(facts: seq<Fact>, fact: Fact)
    requires UniqueKeys(facts)
    ensures FindFact(facts, fact.key).None? ==> Upsert(facts, fact) == facts + [fact]
    ensures FindFact(facts, fact.key).Some? ==>
              && |Upsert(facts, fact)| == |facts|
              && forall i :: 0 <= i < |facts| ==>
                   Upsert(facts, fact)[i] == if facts[i].key == fact.key then fact else facts[i]
  {
    if facts != [] && facts[0].key != fact.key {
      UpsertPlaces(facts[1..], fact);
      assert facts == [facts[0]] + facts[1..];
    }
  }

  function UpsertAll(facts: seq<Fact>, added: seq<Fact>): seq<Fact> {
    if added == [] then facts
    else Upsert(UpsertAll(facts, added[..|added| - 1]), added[|added| - 1])
  }

  // ----- extraction and acceptance -----

  /** A value the extractors read for one key, with the fresh identifiers it will use if recorded. */
  datatype Candidate = Candidate(key: string, value: string, factId: Uuid, revisionId: Uuid)

  datatype EvidenceReading = EvidenceReading(evidenceId: Uuid, dimension: string, weight: real)

  /** Candidates come from a dictionary: one per key. */
  predicate DistinctKeys(candidates: seq<Candidate>) {
    forall i, j :: 0 <= i < j < |candidates| ==> candidates[i].key != candidates[j].key
  }

  datatype Extraction = Extraction(facts: seq<Fact>, revisions: seq<Revision>)

  function ExtractOne(known: seq<Fact>, leadId: Uuid, c: Candidate, sofar: Extraction): Extraction {
    var existing := FindFact(known, c.key);
    if existing.Some? && existing.value.value == c.value then sofar
    else
      var fact := Fact(c.factId, leadId, c.key, c.value);
      Extraction(sofar.facts + [fact],
                 if existing.None? then sofar.revisions
                 else sofar.revisions
                      + [Revision(c.revisionId, leadId, c.key, Some(existing.value.factId), fact.factId, false)])
  }

  /** The facts and revisions the candidates give against the known facts. */
  function Extract(known: seq<Fact>, leadId: Uuid, candidates: seq<Candidate>): Extraction {
    if candidates == [] then Extraction([], [])
    else ExtractOne(known, leadId, candidates[|candidates| - 1],
                    Extract(known, leadId, candidates[..|candidates| - 1]))
  }

  /** The last revision of the list naming a replacement, as a dictionary built from it would hold. */
  function RevisionFor(revisions: seq<Revision>, factId: Uuid): Option<Revision> {
    if revisions == [] then None
    else if revisions[|revisions| - 1].replacementFactId == factId then Some(revisions[|revisions| - 1])
    else RevisionFor(revisions[..|revisions| - 1], factId)
  }

  /** What acceptance has recorded so far. */
  datatype Intake = Intake(facts: seq<Fact>, goalChanges: nat, accepted: seq<Fact>, revisions: seq<Revision>)

  function AcceptOne(s: Intake, maxFacts: int, proposed: seq<Revision>, fact: Fact): Intake {
    var existing := FindFact(s.facts, fact.key);
    if |s.facts| >= maxFacts && existing.None? then s
    else
      var revision := RevisionFor(proposed, fact.factId);
      Intake(Upsert(s.facts, fact),
             if existing.Some? && existing.value.value != fact.value then s.goalChanges + 1 else s.goalChanges,
             s.accepted + [fact],
             if revision.Some? then s.revisions + [revision.value] else s.revisions)
  }

  function Accept(s: Intake, maxFacts: int, proposed: seq<Revision>, facts: seq<Fact>): Intake {
    if facts == [] then s
    else AcceptOne(Accept(s, maxFacts, proposed, facts[..|facts| - 1]), maxFacts, proposed, facts[|facts| - 1])
  }

  function Dimensions(evidence: seq<Evidence>): set<string> {
    set e | e in evidence :: e.dimension
  }

  /** The readings on a dimension not yet in evidence. */
  function NewEvidence(known: set<string>, leadId: Uuid, readings: seq<EvidenceReading>): (r: seq<Evidence>)
    ensures forall e :: e in r ==> e.leadId == leadId && e.dimension !in known
  {
    if readings == [] then []
    else
      var r := readings[|readings| - 1];
      var init := NewEvidence(known, leadId, readings[..|readings| - 1]);
      if r.dimension in known then init else init + [Evidence(r.evidenceId, leadId, r.dimension, r.weight)]
  }

  // ----- classification -----

  function TotalWeight(evidence: seq<Evidence>): real {
    if evidence == [] then 0.0
    else TotalWeight(evidence[..|evidence| - 1]) + evidence[|evidence| - 1].weight
  }

  function IdsWhere(evidence: seq<Evidence>, positive: bool): seq<Uuid> {
    if evidence == [] then []
    else
      var e := evidence[|evidence| - 1];
      var init := IdsWhere(evidence[..|evidence| - 1], positive);
      if (if positive then e.weight > 0.0 else e.weight < 0.0) then init + [e.evidenceId] else init
  }

  function Clamp(x: real): real {
    if x < 0.0 then 0.0 else if x > 1.0 then 1.0 else x
  }

  function Classify(leadId: Uuid, evidence: seq<Evidence>, forceCold: bool): Classification {
    var raw := TotalWeight(evidence);
    var score := if forceCold then 0.0 else Clamp(0.35 + raw);
    var dimensions := |Dimensions(evidence)|;
    var temperature :=
      if forceCold || raw <= -0.4 then Cold
      else if evidence == [] then ReviewNeeded
      else if score >= 0.75 && dimensions >= 2 then Hot
      else if score >= 0.45 then Warm
      else Cold;
    var spread := 0.35 + dimensions as real * 0.15;
    Classification(leadId, temperature, score,
                   if evidence == [] then 0.25 else if spread > 0.95 then 0.95 else spread,
                   IdsWhere(evidence, true), IdsWhere(evidence, false))
  }

  function PhaseFor(c: Classification): (p: Phase)
    ensures !p.Closed?
  {
    match c.temperature
    case Hot => NextStep
    case Warm => Qualification
    case _ => Discovery
  }

  // ----- one turn -----

  datatype TurnInput = TurnInput(declared: Language, reading: Reading, detectSwitch: bool, digest: Digest,
                                 signals: seq<SafetySignal>, candidates: seq<Candidate>,
                                 evidence: seq<EvidenceReading>, reply: string)

  datatype TurnResult = TurnResult(reply: string, language: Language, languageSwitched: bool,
                                   disposition: Disposition, phase: Phase, signals: seq<SafetySignal>,
                                   facts: seq<Fact>, revisions: seq<Revision>, evidence: seq<Evidence>,
                                   classification: Classification, repeated: bool, turnCount: nat)

  datatype TurnError = SessionNotFound | TurnCapacityReached | ConversationClosed

  datatype Outcome = Outcome(state: Checkpoint, result: TurnResult)

  /** Append one classification of the current evidence and report. */
  function Conclude(cp: Checkpoint, input: TurnInput, switched: bool, repeated: bool, forceCold: bool,
                    disposition: Disposition): Outcome
  {
    var c := Classify(cp.leadId, cp.evidence, forceCold);
    var state := cp.(classifications := LastN(cp.classifications + [c], cp.config.maxClassifications));
    Outcome(state, TurnResult(input.reply, cp.lang.language, switched, disposition, cp.phase, input.signals,
                              [], [], [], c, repeated, cp.turnCount))
  }

  /** The turn that may record facts: nothing unsafe was said. */
  function ProcessBusiness(cp: Checkpoint, input: TurnInput, switched: bool, repeated: bool): Outcome {
    var ex := if repeated then Extraction([], []) else Extract(cp.facts, cp.leadId, input.candidates);
    var intake := Accept(Intake(cp.facts, cp.goalChangeCount, [], []), cp.config.maxFacts, ex.revisions, ex.facts);
    var added := NewEvidence(Dimensions(cp.evidence), cp.leadId, if repeated then [] else input.evidence);
    var evidence := LastN(cp.evidence + added, cp.config.maxEvidence);
    var c := Classify(cp.leadId, evidence, false);
    var state := cp.(facts := intake.facts, goalChangeCount := intake.goalChanges, evidence := evidence,
                     classifications := LastN(cp.classifications + [c], cp.config.maxClassifications),
                     phase := PhaseFor(c));
    var review := intake.goalChanges >= cp.config.maxGoalChanges;
    Outcome(state, TurnResult(input.reply, cp.lang.language, switched,
                              if review then Review else Continue, state.phase,
                              if review then input.signals + [ExcessiveGoalChanges] else input.signals,
                              intake.accepted, intake.revisions, added, c, repeated, cp.turnCount))
  }

  /** What a turn has done before it looks at what was said. */
  function Begin(cp: Checkpoint, input: TurnInput): Checkpoint {
    cp.(lang := Resolve(cp.lang, input.declared, input.reading, input.detectSwitch).state,
        turnCount := cp.turnCount + 1,
        recentDigests := LastN(cp.recentDigests + [input.digest], cp.config.DigestCapacity()))
  }

  /** The state effects of one turn. */
  function ProcessTurn(cp: Checkpoint, input: TurnInput): Result<Outcome, TurnError> {
    if cp.turnCount >= cp.config.maxTurns then Failure(TurnCapacityReached)
    else if cp.stopped then Failure(ConversationClosed)
    else
      var resolved := Resolve(cp.lang, input.declared, input.reading, input.detectSwitch);
      var repeated := input.digest in cp.recentDigests;
      var begun := Begin(cp, input);
      if OptOut in input.signals then
        Success(Conclude(begun.(stopped := true, phase := Closed), input, resolved.switched, repeated, true, Stop))
      else if Abuse in input.signals then
        if begun.abuseRedirected then
          Success(Conclude(begun.(stopped := true, phase := Closed), input, resolved.switched, repeated, false, Stop))
        else
          Success(Conclude(begun.(abuseRedirected := true), input, resolved.switched, repeated, false, Redirect))
      else if InternalInfo in input.signals || PromptInjection in input.signals then
        Success(Conclude(begun, input, resolved.switched, repeated, false, Redirect))
      else
        Success(ProcessBusiness(begun, input, resolved.switched, repeated))
  }

  // ----- what every turn keeps -----

  lemma {:induction false} ExtractionBelongs(known: seq<Fact>, leadId: Uuid, candidates: seq<Candidate>)
    ensures var ex := Extract(known, leadId, candidates);
            && (forall f :: f in ex.facts ==> f.leadId == leadId)
            && (forall r :: r in ex.revisions ==> r.leadId == leadId)
            && (forall r :: r in ex.revisions ==> exists f :: f in ex.facts && f.factId == r.replacementFactId)
  {
    if candidates != [] {
      var init := candidates[..|candidates| - 1];
      ExtractionBelongs(known, leadId, init);
      var sofar, ex := Extract(known, leadId, init), Extract(known, leadId, candidates);
      assert forall f :: f in sofar.facts ==> f in ex.facts;
      if ex.facts != sofar.facts {
        assert ex.facts[|ex.facts| - 1] in ex.facts;
      }
    }
  }

  lemma {:induction false} RevisionForBelongs(revisions: seq<Revision>, factId: Uuid)
    ensures var r := RevisionFor(revisions, factId);
            r.Some? ==> r.value in revisions && r.value.replacementFactId == factId
  {
    if revisions != [] { RevisionForBelongs(revisions[..|revisions| - 1], factId); }
  }

  /** What an intake may be after accepting some of `facts` into `s`. */
  ghost predicate AcceptedInto(s: Intake, maxFacts: int, proposed: seq<Revision>, facts: seq<Fact>, leadId: Uuid, a: Intake) {
    && UniqueKeys(a.facts) && |a.facts| <= maxFacts
    && (forall f :: f in a.facts ==> f.leadId == leadId)
    && (forall f :: f in a.accepted ==> f in facts)
    && a.facts == UpsertAll(s.facts, a.accepted)
    && a.goalChanges >= s.goalChanges
    && (forall r :: r in a.revisions ==> r in proposed && Replaces(r, a.accepted))
  }

  ghost predicate Replaces(r: Revision, accepted: seq<Fact>) {
    exists f :: f in accepted && f.factId == r.replacementFactId
  }

  lemma ReplacesStays(r: Revision, accepted: seq<Fact>, fact: Fact)
    ensures Replaces(r, accepted) || fact.factId == r.replacementFactId ==> Replaces(r, accepted + [fact])
  {
    if Replaces(r, accepted) {
      var f :| f in accepted && f.factId == r.replacementFactId;
      assert f in accepted + [fact];
    }
    assert fact in accepted + [fact];
  }

  lemma AcceptOneKeeps(s: Intake, maxFacts: int, proposed: seq<Revision>, facts: seq<Fact>, leadId: Uuid,
                       b: Intake, fact: Fact)
    requires AcceptedInto(s, maxFacts, proposed, facts, leadId, b) && fact.leadId == leadId
    ensures AcceptedInto(s, maxFacts, proposed, facts + [fact], leadId, AcceptOne(b, maxFacts, proposed, fact))
  {
    var a := AcceptOne(b, maxFacts, proposed, fact);
    if a != b {
      UpsertUnique(b.facts, fact);
      RevisionForBelongs(proposed, fact.factId);
      assert a.accepted[..|a.accepted| - 1] == b.accepted;
      forall r | r in a.revisions ensures r in proposed && Replaces(r, a.accepted) {
        ReplacesStays(r, b.accepted, fact);
      }
    }
  }

  /** Acceptance keeps the dictionary a dictionary within capacity, is the plain assignment of the
      accepted facts in order, and only reports revisions of facts it accepted. */
  lemma {:induction false} AcceptKeeps(s: Intake, maxFacts: int, proposed: seq<Revision>, facts: seq<Fact>, leadId: Uuid)
    requires UniqueKeys(s.facts) && |s.facts| <= maxFacts && s.accepted == [] && s.revisions == []
    requires forall f :: f in s.facts || f in facts ==> f.leadId == leadId
    ensures AcceptedInto(s, maxFacts, proposed, facts, leadId, Accept(s, maxFacts, proposed, facts))
  {
    if facts != [] {
      var init, fact := facts[..|facts| - 1], facts[|facts| - 1];
      assert init + [fact] == facts;
      AcceptKeeps(s, maxFacts, proposed, init, leadId);
      AcceptOneKeeps(s, maxFacts, proposed, init, leadId, Accept(s, maxFacts, proposed, init), fact);
    }
  }

  /** The report of a turn agrees with the state it leaves. */
  ghost predicate Reports(o: Outcome, leadId: Uuid) {
    && o.result.turnCount == o.state.turnCount
    && o.result.phase == o.state.phase
    && o.result.language == o.state.lang.language
    && (o.result.disposition.Stop? <==> o.state.stopped)
    && o.result.classification.leadId == leadId
    && (forall f :: f in o.result.facts ==> f.leadId == leadId)
    && (forall e :: e in o.result.evidence ==> e.leadId == leadId)
    && (forall r :: r in o.result.revisions ==>
          r.leadId == leadId && exists f :: f in o.result.facts && f.factId == r.replacementFactId)
  }

  /** The collections a turn changes are exactly the old ones followed by what the turn reports. */
  ghost predicate Grows(before: Checkpoint, o: Outcome) {
    && o.state.facts == UpsertAll(before.facts, o.result.facts)
    && o.state.evidence == LastN(before.evidence + o.result.evidence, before.config.maxEvidence)
    && o.state.classifications ==
         LastN(before.classifications + [o.result.classification], before.config.maxClassifications)
  }

  lemma ConcludeKeeps(cp: Checkpoint, input: TurnInput, switched: bool, repeated: bool, forceCold: bool, d: Disposition)
    requires ValidCheckpoint(cp) && (d.Stop? <==> cp.stopped)
    ensures var o := Conclude(cp, input, switched, repeated, forceCold, d);
            && ValidCheckpoint(o.state) && Reports(o, cp.leadId) && Grows(cp, o)
            && o.state == cp.(classifications := o.state.classifications)
  {
    assert cp.evidence + [] == cp.evidence;
  }

  lemma BusinessKeeps(cp: Checkpoint, input: TurnInput, switched: bool, repeated: bool)
    requires ValidCheckpoint(cp) && !cp.stopped
    ensures var o := ProcessBusiness(cp, input, switched, repeated);
            && ValidCheckpoint(o.state) && Reports(o, cp.leadId) && Grows(cp, o)
            && o.state.goalChangeCount >= cp.goalChangeCount
            && o.state == cp.(facts := o.state.facts, goalChangeCount := o.state.goalChangeCount, phase := o.state.phase,
                              evidence := o.state.evidence, classifications := o.state.classifications)
  {
    var ex := if repeated then Extraction([], []) else Extract(cp.facts, cp.leadId, input.candidates);
    ExtractionBelongs(cp.facts, cp.leadId, if repeated then [] else input.candidates);
    AcceptKeeps(Intake(cp.facts, cp.goalChangeCount, [], []), cp.config.maxFacts, ex.revisions, ex.facts, cp.leadId);
  }

  /** A turn never breaks the checkpoint validator, so exporting after it cannot fail. It takes exactly one
      turn, closes the conversation exactly when it reports STOP, never lowers the goal-change count or
      forgets an abuse redirect, and grows every collection by exactly what it reports. */
  lemma TurnKeepsValid(cp: Checkpoint, input: TurnInput)
    requires ValidCheckpoint(cp)
    requires ProcessTurn(cp, input).Success?
    ensures var o := ProcessTurn(cp, input).value;
            && ValidCheckpoint(o.state) && Reports(o, cp.leadId) && Grows(cp, o)
            && !cp.stopped && cp.turnCount < cp.config.maxTurns
            && o.state.leadId == cp.leadId && o.state.config == cp.config
            && o.state.turnCount == cp.turnCount + 1
            && o.state.recentDigests == Begin(cp, input).recentDigests
            && o.state.lang == Begin(cp, input).lang
            && o.state.goalChangeCount >= cp.goalChangeCount
            && (cp.abuseRedirected ==> o.state.abuseRedirected)
  {
    ResolveAgrees(cp.lang, input.declared, input.reading, input.detectSwitch);
    var begun := Begin(cp, input);
    var switched := Resolve(cp.lang, input.declared, input.reading, input.detectSwitch).switched;
    var repeated := input.digest in cp.recentDigests;
    assert ValidCheckpoint(begun);
    if OptOut in input.signals {
      ConcludeKeeps(begun.(stopped := true, phase := Closed), input, switched, repeated, true, Stop);
    } else if Abuse in input.signals {
      if begun.abuseRedirected {
        ConcludeKeeps(begun.(stopped := true, phase := Closed), input, switched, repeated, false, Stop);
      } else {
        ConcludeKeeps(begun.(abuseRedirected := true), input, switched, repeated, false, Redirect);
      }
    } else if InternalInfo in input.signals || PromptInjection in input.signals {
      ConcludeKeeps(begun, input, switched, repeated, false, Redirect);
    } else {
      BusinessKeeps(begun, input, switched, repeated);
    }
  }
}
