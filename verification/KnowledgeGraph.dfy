/** Projecting a lead's journal into claims with validity intervals, and what those intervals mean. */
module KnowledgeGraph {
  import opened Common
  import opened Language
  import opened Conversation
  import opened SessionReplay
  import opened EventLog
  import opened TurnShape
  import opened KnowledgeSource
  import opened Supersession
  import opened Chains

  datatype Status = Current | Superseded | Conflicting

  datatype Claim = Claim(fact: Fact, status: Status, session: Uuid, language: Language, validFromVersion: nat,
                         validFrom: int, validToVersion: Option<nat>, validTo: Option<int>,
                         supersededBy: Option<Uuid>, confirmed: bool, confirmedBy: Option<Uuid>,
                         confirmedAt: Option<int>)
  {
    /** The claim is in force at this version of the log. */
    predicate ActiveAt(v: nat) {
      validFromVersion <= v && (validToVersion.None? || v < validToVersion.value)
    }

    /** The claim validator. */
    predicate Valid() {
      && (status.Superseded? <==> validToVersion.Some? && validTo.Some? && supersededBy.Some?)
      && (!status.Superseded? ==> validToVersion.None? && validTo.None? && supersededBy.None?)
      && (validToVersion.Some? ==> validFromVersion < validToVersion.value)
      && (validTo.Some? ==> validFrom <= validTo.value)
      && (confirmed <==> confirmedBy.Some? && confirmedAt.Some?)
      && (confirmedAt.Some? ==> validFrom <= confirmedAt.value)
    }
  }

  datatype Node = LeadNode(lead: Uuid) | SessionNode(session: Uuid) | FactNode(fact: Uuid)

  datatype Relation = HasSession(lead: Uuid, session: Uuid) | ObservedFact(session: Uuid, fact: Uuid)
                    | SupersededBy(fact: Uuid, replacement: Uuid)

  datatype Graph = Graph(leadId: Uuid, version: nat, sessionIds: seq<Uuid>, claims: seq<Claim>, relations: seq<Relation>)

  /** The dictionary of revisions by the fact they supersede. */
  function ByPrevious(revisions: seq<SourceRevision>): map<Uuid, SourceRevision> {
    if revisions == [] then map[]
    else
      var r := revisions[|revisions| - 1];
      var m := ByPrevious(revisions[..|revisions| - 1]);
      if r.revision.previousFactId.Some? then m[r.revision.previousFactId.value := r] else m
  }

  /** The dictionary of customer-confirmed revisions by the fact they introduce. */
  function Confirmations(revisions: seq<SourceRevision>): map<Uuid, SourceRevision> {
    if revisions == [] then map[]
    else
      var r := revisions[|revisions| - 1];
      var m := Confirmations(revisions[..|revisions| - 1]);
      if r.revision.confirmedByCustomer then m[r.revision.replacementFactId := r] else m
  }

  function Lookup(m: map<Uuid, SourceRevision>, id: Uuid): Option<SourceRevision> {
    if id in m then Some(m[id]) else None
  }

  function ClaimOf(item: SourceFact, revision: Option<SourceRevision>, conflicting: bool,
                   confirmation: Option<SourceRevision>): Claim
  {
    var confirmedBy := if confirmation.Some? then Some(confirmation.value.revision.revisionId) else None;
    var confirmedAt := if confirmation.Some? then Some(confirmation.value.occurredAt) else None;
    if revision.Some? then
      Claim(item.fact, Superseded, item.session, item.language, item.version, item.occurredAt,
            Some(revision.value.version), Some(revision.value.occurredAt),
            Some(revision.value.revision.replacementFactId), confirmation.Some?, confirmedBy, confirmedAt)
    else
      Claim(item.fact, if conflicting then Conflicting else Current, item.session, item.language, item.version,
            item.occurredAt, None, None, None, confirmation.Some?, confirmedBy, confirmedAt)
  }

  /** Another standing fact under the same key has another value. */
  ghost predicate Conflicts(source: Snapshot, item: SourceFact) {
    var superseded := ByPrevious(source.revisions);
    && item.fact.factId !in superseded
    && exists other :: other in source.facts && other.fact.factId !in superseded
                       && other.fact.key == item.fact.key && other.fact.value != item.fact.value
  }

  ghost function ClaimFor(source: Snapshot, item: SourceFact): Claim {
    ClaimOf(item, Lookup(ByPrevious(source.revisions), item.fact.factId), Conflicts(source, item),
            Lookup(Confirmations(source.revisions), item.fact.factId))
  }

  ghost function ClaimsOf(source: Snapshot): (r: seq<Claim>)
    ensures |r| == |source.facts| && forall i :: 0 <= i < |r| ==> r[i] == ClaimFor(source, source.facts[i])
  {
    seq(|source.facts|, i requires 0 <= i < |source.facts| => ClaimFor(source, source.facts[i]))
  }

  function ClaimRelations(c: Claim): seq<Relation> {
    [ObservedFact(c.session, c.fact.factId)] +
    if c.supersededBy.Some? then [SupersededBy(c.fact.factId, c.supersededBy.value)] else []
  }

  function RelationsOf(leadId: Uuid, sessions: seq<Uuid>, claims: seq<Claim>): seq<Relation> {
    if claims != [] then
      RelationsOf(leadId, sessions, claims[..|claims| - 1]) + ClaimRelations(claims[|claims| - 1])
    else if sessions != [] then
      RelationsOf(leadId, sessions[..|sessions| - 1], []) + [HasSession(leadId, sessions[|sessions| - 1])]
    else []
  }

  // ----- the projection -----

  /** Group the standing facts by key, then collect the members of every group with two different values. */
  method ConflictingIds(source: Snapshot, superseded: map<Uuid, SourceRevision>) returns (ids: set<Uuid>)
    requires superseded == ByPrevious(source.revisions) && OneFactPerId(source.facts)
    ensures forall item :: item in source.facts ==> (item.fact.factId in ids <==> Conflicts(source, item))
  {
    var activeByKey: map<string, seq<SourceFact>> := map[];
    for i := 0 to |source.facts|
      invariant forall k :: k in activeByKey ==>
                  forall f :: f in activeByKey[k] ==> f in source.facts && f.fact.factId !in superseded && f.fact.key == k
      invariant forall j :: 0 <= j < i && source.facts[j].fact.factId !in superseded ==>
                  source.facts[j].fact.key in activeByKey && source.facts[j] in activeByKey[source.facts[j].fact.key]
    {
      var item := source.facts[i];
      if item.fact.factId !in superseded {
        var key := item.fact.key;
        activeByKey := activeByKey[key := (if key in activeByKey then activeByKey[key] else []) + [item]];
      }
    }
    ids := set k, f | k in activeByKey && f in activeByKey[k] && HasTwoValues(activeByKey[k]) :: f.fact.factId;
    forall item | item in source.facts ensures item.fact.factId in ids <==> Conflicts(source, item) {
      if Conflicts(source, item) {
        var other :| other in source.facts && other.fact.factId !in superseded
                     && other.fact.key == item.fact.key && other.fact.value != item.fact.value;
        assert item in activeByKey[item.fact.key] && other in activeByKey[item.fact.key];
      }
    }
  }

  predicate HasTwoValues(facts: seq<SourceFact>) {
    exists i, j :: 0 <= i < |facts| && 0 <= j < |facts| && facts[i].fact.value != facts[j].fact.value
  }

  method Relate(leadId: Uuid, sessions: seq<Uuid>, claims: seq<Claim>) returns (relations: seq<Relation>)
    ensures relations == RelationsOf(leadId, sessions, claims)
  {
    relations := [];
    for i := 0 to |sessions|
      invariant relations == RelationsOf(leadId, sessions[..i], [])
    {
      assert sessions[..i + 1][..i] == sessions[..i];
      relations := relations + [HasSession(leadId, sessions[i])];
    }
    assert sessions[..|sessions|] == sessions;
    for i := 0 to |claims|
      invariant relations == RelationsOf(leadId, sessions, claims[..i])
    {
      assert claims[..i + 1][..i] == claims[..i];
      relations := relations + [ObservedFact(claims[i].session, claims[i].fact.factId)];
      if claims[i].supersededBy.Some? {
        relations := relations + [SupersededBy(claims[i].fact.factId, claims[i].supersededBy.value)];
      }
    }
    assert claims[..|claims|] == claims;
  }

  datatype GraphError = RelationCapacityReached | FactsChangedDuringProjection

  /** Build the graph; it is refused when it is too large or the log moved on while it was built. */
  method Project(source: Snapshot, maxRelations: nat, versionNow: nat) returns (r: Result<Graph, GraphError>)
    requires OneFactPerId(source.facts)
    ensures var claims := ClaimsOf(source);
            var relations := RelationsOf(source.leadId, source.sessionIds, claims);
            r == if |relations| > maxRelations then Failure(RelationCapacityReached)
                 else if versionNow != source.version then Failure(FactsChangedDuringProjection)
                 else Success(Graph(source.leadId, source.version, source.sessionIds, claims, relations))
  {
    var superseded := ByPrevious(source.revisions);
    var conflicting := ConflictingIds(source, superseded);
    var confirmations := Confirmations(source.revisions);
    var claims := [];
    for i := 0 to |source.facts|
      invariant |claims| == i && forall j :: 0 <= j < i ==> claims[j] == ClaimFor(source, source.facts[j])
    {
      var item := source.facts[i];
      assert item in source.facts;
      claims := claims + [ClaimOf(item, Lookup(superseded, item.fact.factId), item.fact.factId in conflicting,
                                  Lookup(confirmations, item.fact.factId))];
    }
    assert claims == ClaimsOf(source);
    var relations := Relate(source.leadId, source.sessionIds, claims);
    if |relations| > maxRelations { return Failure(RelationCapacityReached); }
    if versionNow != source.version { return Failure(FactsChangedDuringProjection); }
    r := Success(Graph(source.leadId, source.version, source.sessionIds, claims, relations));
  }

  lemma {:induction false} ByPreviousIsSupersession(revisions: seq<SourceRevision>)
    requires SupersedesOnce(revisions)
    ensures forall id :: id in ByPrevious(revisions) <==> SupersededIn(revisions, id)
    ensures forall r :: r in revisions && r.revision.previousFactId.Some? ==>
              Lookup(ByPrevious(revisions), r.revision.previousFactId.value) == Some(r)
  {
    if revisions != [] {
      var init, last := revisions[..|revisions| - 1], revisions[|revisions| - 1];
      assert forall r :: r in revisions <==> r in init || r == last;
      ByPreviousIsSupersession(init);
      forall id ensures SupersededIn(revisions, id) <==>
                        SupersededIn(init, id) || last.revision.previousFactId == Some(id)
      {
        if SupersededIn(init, id) {
          var r :| r in init && r.revision.previousFactId == Some(id);
          assert r in revisions;
        }
      }
    }
  }

  // ----- as of a version -----

  /** What was recorded up to a version is what the log holds up to that version. */
  lemma {:induction false} RecordedByVersion(leadId: Uuid, log: seq<Entry>, v: nat)
    requires Produced(leadId, log) && v <= |log|
    ensures forall f :: f in FactsOf(Turns(log[..v])) <==> f in FactsOf(Turns(log)) && f.version <= v
    ensures forall r :: r in RevisionsOf(Turns(log[..v])) <==> r in RevisionsOf(Turns(log)) && r.version <= v
    decreases |log|
  {
    if v == |log| {
      assert log[..v] == log;
      RecordedBounded(leadId, log);
    } else {
      var init, e := log[..|log| - 1], log[|log| - 1];
      assert log == init + [e] && init[..v] == log[..v];
      RecordedByVersion(leadId, init, v);
      NewestRecorded(leadId, init, e);
    }
  }

  /** One event more records under its own version. */
  lemma NewestRecorded(leadId: Uuid, log: seq<Entry>, e: Entry)
    requires Produced(leadId, log + [e])
    ensures forall f :: f in FactsOf(Turns(log)) ==> f in FactsOf(Turns(log + [e]))
    ensures forall f :: f in FactsOf(Turns(log + [e])) ==> f in FactsOf(Turns(log)) || f.version == |log| + 1
    ensures forall r :: r in RevisionsOf(Turns(log)) ==> r in RevisionsOf(Turns(log + [e]))
    ensures forall r :: r in RevisionsOf(Turns(log + [e])) ==> r in RevisionsOf(Turns(log)) || r.version == |log| + 1
  {
    SplitEntry(leadId, log, e);
    SessionEventsAppend(log, e, 0);
    if e.payload.Accepted? {
      NewestTurnRecorded(Turns(log), JournaledTurn(e.version, e.occurredAt, e.payload.event));
    } else {
      assert Turns(log + [e]) == Turns(log);
    }
  }

  lemma SplitEntry(leadId: Uuid, log: seq<Entry>, e: Entry)
    requires Produced(leadId, log + [e])
    ensures Produced(leadId, log) && e.version == |log| + 1
  {
    assert (log + [e])[..|log|] == log;
  }

  lemma NewestTurnRecorded(turns: seq<JournaledTurn>, t: JournaledTurn)
    ensures FactsOf(turns + [t]) == FactsOf(turns) + FactsAt(t, t.event.result.facts)
    ensures RevisionsOf(turns + [t]) == RevisionsOf(turns) + RevisionsAt(t, t.event.result.revisions)
  {
    assert (turns + [t])[..|turns|] == turns;
  }

  lemma {:induction false} RecordedBounded(leadId: Uuid, log: seq<Entry>)
    requires Produced(leadId, log)
    ensures forall f :: f in FactsOf(Turns(log)) ==> f.version <= |log|
    ensures forall r :: r in RevisionsOf(Turns(log)) ==> r.version <= |log|
  {
    if log != [] {
      var init, e := log[..|log| - 1], log[|log| - 1];
      assert log == init + [e];
      SplitEntry(leadId, init, e);
      RecordedBounded(leadId, init);
      NewestRecorded(leadId, init, e);
    }
  }

  lemma ClaimIsActiveIff(source: Snapshot, item: SourceFact, v: nat)
    requires SupersedesOnce(source.revisions)
    ensures ClaimFor(source, item).ActiveAt(v) <==>
            item.version <= v &&
            !exists r :: r in source.revisions && r.version <= v && r.revision.previousFactId == Some(item.fact.factId)
  {
    ByPreviousIsSupersession(source.revisions);
    var c := ClaimFor(source, item);
    if c.validToVersion.Some? {
      var r :| r in source.revisions && r.revision.previousFactId == Some(item.fact.factId);
      assert Lookup(ByPrevious(source.revisions), item.fact.factId) == Some(r);
    } else {
      assert !SupersededIn(source.revisions, item.fact.factId);
    }
  }

  ghost predicate SnapshotOf(leadId: Uuid, log: seq<Entry>, source: Snapshot) {
    && source.leadId == leadId && source.version == |log|
    && source.facts == FactsOf(Turns(log)) && source.revisions == RevisionsOf(Turns(log))
    && Increasing(source.sessionIds)
    && forall s :: s in source.sessionIds <==> SessionEvents(log, s) != []
  }

  ghost predicate ClaimedActive(claims: seq<Claim>, session: Uuid, f: Fact, v: nat) {
    exists i :: 0 <= i < |claims| && claims[i].session == session && claims[i].fact == f && claims[i].ActiveAt(v)
  }

  /** As-of theorem. For every log engines can produce, sessions interleaved, and every version of it: the claims
      whose validity interval contains that version are, session by session, exactly the facts of the state
      replayed from that much of the log. */
  lemma AsOf(leadId: Uuid, log: seq<Entry>, source: Snapshot, v: nat, session: Uuid, f: Fact)
    requires Produced(leadId, log) && SnapshotOf(leadId, log, source) && v <= |log|
    ensures ClaimedActive(ClaimsOf(source), session, f, v) <==> f in StateFacts(log[..v], session)
  {
    var past := log[..v];
    ProducedMirrors(leadId, log);
    SoundLinks(Turns(log));
    ProducedPrefix(leadId, log, v);
    ProducedMirrors(leadId, past);
    RecordedByVersion(leadId, log, v);
    ActiveIffStanding(source, FactsOf(Turns(past)), RevisionsOf(Turns(past)), v, session, f);
  }

  /** The claims active at v are the facts standing among the facts and revisions recorded by v. */
  lemma ActiveIffStanding(source: Snapshot, facts: seq<SourceFact>, revisions: seq<SourceRevision>, v: nat,
                          session: Uuid, f: Fact)
    requires SupersedesOnce(source.revisions)
    requires forall s :: s in facts <==> s in source.facts && s.version <= v
    requires forall r :: r in revisions <==> r in source.revisions && r.version <= v
    ensures ClaimedActive(ClaimsOf(source), session, f, v) <==> Standing(facts, revisions, session, f)
  {
    forall item | item in source.facts && item.fact == f
      ensures ClaimFor(source, item).ActiveAt(v) <==> item in facts && !SupersededIn(revisions, f.factId)
    {
      ClaimIsActiveIff(source, item, v);
    }
    if Standing(facts, revisions, session, f) {
      var s :| s in facts && s.session == session && s.fact == f;
      var i :| 0 <= i < |source.facts| && source.facts[i] == s;
      assert ClaimsOf(source)[i].ActiveAt(v);
    }
  }

  /** The same, against the replayed checkpoint itself. */
  lemma AsOfCheckpoint(leadId: Uuid, log: seq<Entry>, source: Snapshot, v: nat, session: Uuid, cp: Checkpoint, f: Fact)
    requires Produced(leadId, log) && SnapshotOf(leadId, log, source) && v <= |log|
    requires StateAfter(leadId, SessionEvents(log[..v], session), cp)
    ensures ClaimedActive(ClaimsOf(source), session, f, v) <==> f in cp.facts
  {
    AsOf(leadId, log, source, v, session, f);
    StateAfterFacts(leadId, log[..v], session, cp);
  }

  /** Another session's standing fact under the item's key has another value. */
  ghost predicate Rival(log: seq<Entry>, item: SourceFact, session: Uuid, f: Fact) {
    session != item.session && f in StateFacts(log, session) && f.key == item.fact.key && f.value != item.fact.value
  }

  ghost predicate IndexesSupersessions(revisions: seq<SourceRevision>) {
    forall id :: id in ByPrevious(revisions) <==> SupersededIn(revisions, id)
  }

  lemma ConflictHasRival(log: seq<Entry>, source: Snapshot, item: SourceFact) returns (session: Uuid, f: Fact)
    requires StandingIsState(log, source.facts, source.revisions) && IndexesSupersessions(source.revisions)
    requires item in source.facts && Conflicts(source, item)
    ensures Rival(log, item, session, f)
  {
    var superseded := ByPrevious(source.revisions);
    var other :| other in source.facts && other.fact.factId !in superseded
                 && other.fact.key == item.fact.key && other.fact.value != item.fact.value;
    session, f := other.session, other.fact;
    assert Standing(source.facts, source.revisions, other.session, other.fact);
    assert Standing(source.facts, source.revisions, item.session, item.fact);
    assert f in StateFacts(log, session) && item.fact in StateFacts(log, item.session);
    StateFactsUnique(log, item.session);
  }

  lemma RivalConflicts(log: seq<Entry>, source: Snapshot, item: SourceFact, session: Uuid, f: Fact)
    requires StandingIsState(log, source.facts, source.revisions) && IndexesSupersessions(source.revisions)
    requires item.fact.factId !in ByPrevious(source.revisions) && Rival(log, item, session, f)
    ensures Conflicts(source, item)
  {
    var s := StandingRecord(log, source.facts, source.revisions, session, f);
    assert s.fact.factId !in ByPrevious(source.revisions);
  }

  /** A claim is reported as conflicting exactly when it stands and another session's standing fact under the
      same key has another value; within a session nothing conflicts. */
  lemma ConflictsAcrossSessions(leadId: Uuid, log: seq<Entry>, source: Snapshot, item: SourceFact)
    requires Produced(leadId, log) && SnapshotOf(leadId, log, source) && item in source.facts
    ensures ClaimFor(source, item).status.Conflicting? <==>
            item.fact in StateFacts(log, item.session) && exists session, f :: Rival(log, item, session, f)
  {
    ProducedMirrors(leadId, log);
    SoundLinks(Turns(log));
    ByPreviousIsSupersession(source.revisions);
    StandsIffState(log, source, item);
    if Conflicts(source, item) {
      var session, f := ConflictHasRival(log, source, item);
    } else if item.fact.factId !in ByPrevious(source.revisions) {
      forall session, f ensures !Rival(log, item, session, f) {
        if Rival(log, item, session, f) { RivalConflicts(log, source, item, session, f); }
      }
    }
  }

  lemma StandsIffState(log: seq<Entry>, source: Snapshot, item: SourceFact)
    requires StandingIsState(log, source.facts, source.revisions) && IndexesSupersessions(source.revisions)
    requires item in source.facts
    ensures item.fact.factId !in ByPrevious(source.revisions) <==> item.fact in StateFacts(log, item.session)
  {
    assert Standing(source.facts, source.revisions, item.session, item.fact) <==>
           !SupersededIn(source.revisions, item.fact.factId);
  }

  // ----- the graph validator -----

  predicate Distinct<T(==)>(s: seq<T>) {
    forall i, j :: 0 <= i < j < |s| ==> s[i] != s[j]
  }

  /** The graph validator. */
  ghost predicate ValidGraph(g: Graph) {
    && Distinct(g.sessionIds)
    && (forall i, j :: 0 <= i < j < |g.claims| ==> g.claims[i].fact.factId != g.claims[j].fact.factId)
    && (forall c :: c in g.claims ==> ClaimFits(g, c))
    && Distinct(g.relations)
    && (forall r :: r in g.relations <==> ExpectedRelation(g, r))
  }

  ghost predicate ClaimFits(g: Graph, c: Claim) {
    && c.Valid() && c.fact.leadId == g.leadId && c.session in g.sessionIds
    && (c.supersededBy.Some? ==> exists d :: d in g.claims && d.fact.factId == c.supersededBy.value)
  }

  ghost predicate ExpectedRelation(g: Graph, r: Relation) {
    || (r.HasSession? && r.lead == g.leadId && r.session in g.sessionIds)
    || exists c :: c in g.claims && r in ClaimRelations(c)
  }

  lemma {:induction false} RelationsMembers(leadId: Uuid, sessions: seq<Uuid>, claims: seq<Claim>)
    ensures forall r :: r in RelationsOf(leadId, sessions, claims) <==>
              || (r.HasSession? && r.lead == leadId && r.session in sessions)
              || exists c :: c in claims && r in ClaimRelations(c)
    decreases |claims|, |sessions|
  {
    if claims != [] {
      var init, last := claims[..|claims| - 1], claims[|claims| - 1];
      RelationsMembers(leadId, sessions, init);
      assert forall c :: c in claims <==> c in init || c == last;
    } else if sessions != [] {
      RelationsMembers(leadId, sessions[..|sessions| - 1], []);
      assert forall s :: s in sessions <==> s in sessions[..|sessions| - 1] || s == sessions[|sessions| - 1];
    }
  }

  lemma {:induction false} RelationsDistinct(leadId: Uuid, sessions: seq<Uuid>, claims: seq<Claim>)
    requires Distinct(sessions)
    requires forall i, j :: 0 <= i < j < |claims| ==> claims[i].fact.factId != claims[j].fact.factId
    ensures Distinct(RelationsOf(leadId, sessions, claims))
    decreases |claims|, |sessions|
  {
    if claims != [] {
      var init, last := claims[..|claims| - 1], claims[|claims| - 1];
      RelationsDistinct(leadId, sessions, init);
      RelationsMembers(leadId, sessions, init);
      forall c | c in init ensures c.fact.factId != last.fact.factId {
        var i :| 0 <= i < |init| && init[i] == c;
        assert claims[i].fact.factId != last.fact.factId;
      }
      DistinctConcat(RelationsOf(leadId, sessions, init), ClaimRelations(last));
    } else if sessions != [] {
      RelationsDistinct(leadId, sessions[..|sessions| - 1], []);
      RelationsMembers(leadId, sessions[..|sessions| - 1], []);
      DistinctConcat(RelationsOf(leadId, sessions[..|sessions| - 1], []), [HasSession(leadId, sessions[|sessions| - 1])]);
    }
  }

  lemma DistinctConcat<T>(a: seq<T>, b: seq<T>)
    requires Distinct(a) && Distinct(b) && forall x :: x in b ==> x !in a
    ensures Distinct(a + b)
  {
    forall i, j | 0 <= i < |a| && 0 <= j < |b| ensures a[i] != b[j] {
      assert a[i] in a && b[j] in b;
    }
  }

  /** Facts are recorded once each, for sessions of the log and for its lead; no revision is confirmed. */
  ghost predicate Recorded(leadId: Uuid, log: seq<Entry>, facts: seq<SourceFact>, revisions: seq<SourceRevision>) {
    && (forall i, j :: 0 <= i < j < |facts| ==> facts[i].fact.factId != facts[j].fact.factId)
    && (forall f :: f in facts ==> f.fact.leadId == leadId && SessionEvents(log, f.session) != [])
    && (forall r :: r in revisions ==> !r.revision.confirmedByCustomer)
  }

  lemma RecordedStep(leadId: Uuid, log: seq<Entry>, e: Entry)
    requires Produced(leadId, log) && ProducedEntry(leadId, log, e)
    requires Recorded(leadId, log, FactsOf(Turns(log)), RevisionsOf(Turns(log)))
    ensures Recorded(leadId, log + [e], FactsOf(Turns(log + [e])), RevisionsOf(Turns(log + [e])))
  {
    forall s | SessionEvents(log, s) != [] ensures SessionEvents(log + [e], s) != [] {
      SessionEventsAppend(log, e, s);
    }
    if e.payload.Accepted? {
      var ev := e.payload.event;
      var t := JournaledTurn(e.version, e.occurredAt, ev);
      SessionEventsAppend(log, e, ev.sessionId);
      ProducedMirrors(leadId, log);
      var cp, input :| ProducedBy(leadId, log, ev, cp, input);
      AddsRecords(leadId, log, e, cp, input);
      RecordsAppend(leadId, log + [e], Turns(log), t);
    } else {
      SessionEventsAppend(log, e, 0);
      assert Turns(log + [e]) == Turns(log);
    }
  }

  lemma RecordsAppend(leadId: Uuid, log: seq<Entry>, turns: seq<JournaledTurn>, t: JournaledTurn)
    requires Recorded(leadId, log, FactsOf(turns), RevisionsOf(turns)) && SessionEvents(log, t.event.sessionId) != []
    requires forall i, j :: 0 <= i < j < |t.event.result.facts| ==>
               t.event.result.facts[i].factId != t.event.result.facts[j].factId
    requires forall f :: f in t.event.result.facts ==> f.leadId == leadId && !HasFactId(FactsOf(turns), f.factId)
    requires forall r :: r in t.event.result.revisions ==> !r.confirmedByCustomer
    ensures Recorded(leadId, log, FactsOf(turns + [t]), RevisionsOf(turns + [t]))
  {
    assert (turns + [t])[..|turns|] == turns;
    var known, all := FactsOf(turns), FactsOf(turns + [t]);
    forall i, j | 0 <= i < j < |all| ensures all[i].fact.factId != all[j].fact.factId {
      if i < |known| <= j { assert all[i] in known; }
    }
  }

  lemma {:induction false} RecordedOnce(leadId: Uuid, log: seq<Entry>)
    requires Produced(leadId, log)
    ensures Recorded(leadId, log, FactsOf(Turns(log)), RevisionsOf(Turns(log)))
  {
    if log != [] {
      SplitLast(log);
      RecordedOnce(leadId, log[..|log| - 1]);
      RecordedStep(leadId, log[..|log| - 1], log[|log| - 1]);
    }
  }

  lemma AddsRecords(leadId: Uuid, log: seq<Entry>, e: Entry, cp: Checkpoint, input: TurnInput)
    requires e.payload.Accepted? && ProducedEntry(leadId, log, e) && ProducedBy(leadId, log, e.payload.event, cp, input)
    requires Mirrors(log, FactsOf(Turns(log)), RevisionsOf(Turns(log)))
    ensures var added := e.payload.event.result.facts;
            && (forall i, j :: 0 <= i < j < |added| ==> added[i].factId != added[j].factId)
            && (forall f :: f in added ==> f.leadId == leadId && !HasFactId(FactsOf(Turns(log)), f.factId))
    ensures forall r :: r in e.payload.event.result.revisions ==> !r.confirmedByCustomer
  {
    var ev := e.payload.event;
    var t := JournaledTurn(e.version, e.occurredAt, ev);
    var known := StateFacts(log, ev.sessionId);
    var candidates := ProducedAdds(leadId, log, e);
    FactsFresh(log, t, known, candidates, leadId);
    forall f | f in ev.result.facts ensures f.leadId == leadId && !HasFactId(FactsOf(Turns(log)), f.factId) {
      assert IsCandidate(leadId, candidates, f);
      forall s | s in FactsOf(Turns(log)) ensures s.fact.factId != f.factId {
        assert KnownFactId(log, s.fact.factId);
      }
    }
    forall i, j | 0 <= i < j < |ev.result.facts| ensures ev.result.facts[i].factId != ev.result.facts[j].factId {
      assert ev.result.facts[i] in ev.result.facts && ev.result.facts[j] in ev.result.facts;
    }
    forall r | r in ev.result.revisions ensures !r.confirmedByCustomer {
      var c, previous := RevisionTarget(log, t, known, candidates, leadId, r);
    }
  }

  lemma {:induction false} NoConfirmations(revisions: seq<SourceRevision>)
    requires forall r :: r in revisions ==> !r.revision.confirmedByCustomer
    ensures Confirmations(revisions) == map[]
  {
    if revisions != [] {
      assert revisions[|revisions| - 1] in revisions;
      NoConfirmations(revisions[..|revisions| - 1]);
    }
  }

  /** The graph of every log engines can produce passes the graph validator: claims have increasing intervals,
      supersession targets exist, and the relations are exactly those of its nodes, none twice. */
  lemma ProducedGraphIsValid(leadId: Uuid, log: seq<Entry>, source: Snapshot)
    requires Produced(leadId, log) && SnapshotOf(leadId, log, source)
    ensures var claims := ClaimsOf(source);
            ValidGraph(Graph(leadId, |log|, source.sessionIds, claims, RelationsOf(leadId, source.sessionIds, claims)))
  {
    ProducedMirrors(leadId, log);
    SoundLinks(Turns(log));
    RecordedOnce(leadId, log);
    NoConfirmations(source.revisions);
    GraphIsValid(source);
  }

  lemma GraphIsValid(source: Snapshot)
    requires Increasing(source.sessionIds)
    requires forall i, j :: 0 <= i < j < |source.facts| ==> source.facts[i].fact.factId != source.facts[j].fact.factId
    requires forall f :: f in source.facts ==> f.fact.leadId == source.leadId && f.session in source.sessionIds
    requires SupersedesOnce(source.revisions) && forall r :: r in source.revisions ==> Linked(source.facts, r)
    requires Confirmations(source.revisions) == map[]
    ensures var claims := ClaimsOf(source);
            ValidGraph(Graph(source.leadId, source.version, source.sessionIds, claims,
                             RelationsOf(source.leadId, source.sessionIds, claims)))
  {
    var claims := ClaimsOf(source);
    var g := Graph(source.leadId, source.version, source.sessionIds, claims,
                   RelationsOf(source.leadId, source.sessionIds, claims));
    RelationsDistinct(source.leadId, source.sessionIds, claims);
    RelationsMembers(source.leadId, source.sessionIds, claims);
    forall r ensures r in g.relations <==> ExpectedRelation(g, r) {}
    forall i | 0 <= i < |claims| ensures ClaimFits(g, claims[i]) {
      ClaimFitsAt(source, g, i);
    }
  }

  lemma ClaimFitsAt(source: Snapshot, g: Graph, i: nat)
    requires forall f :: f in source.facts ==> f.fact.leadId == source.leadId && f.session in source.sessionIds
    requires OneFactPerId(source.facts)
    requires SupersedesOnce(source.revisions) && forall r :: r in source.revisions ==> Linked(source.facts, r)
    requires Confirmations(source.revisions) == map[]
    requires g.leadId == source.leadId && g.sessionIds == source.sessionIds && g.claims == ClaimsOf(source)
    requires i < |g.claims|
    ensures ClaimFits(g, g.claims[i])
  {
    assert source.facts[i] in source.facts;
    var next := ClaimIsValid(source, source.facts[i]);
    var j :| 0 <= j < |source.facts| && source.facts[j] == next;
    assert g.claims[j] in g.claims && g.claims[j].fact == next.fact;
  }

  /** A claim's interval is increasing, and what superseded it is itself recorded. */
  lemma ClaimIsValid(source: Snapshot, item: SourceFact) returns (next: SourceFact)
    requires OneFactPerId(source.facts) && SupersedesOnce(source.revisions) && item in source.facts
    requires forall r :: r in source.revisions ==> Linked(source.facts, r)
    requires Confirmations(source.revisions) == map[]
    ensures var c := ClaimFor(source, item);
            c.Valid() && next in source.facts && (c.supersededBy.Some? ==> next.fact.factId == c.supersededBy.value)
  {
    ByPreviousIsSupersession(source.revisions);
    next := item;
    if SupersededIn(source.revisions, item.fact.factId) {
      var r :| r in source.revisions && r.revision.previousFactId == Some(item.fact.factId);
      assert Lookup(ByPrevious(source.revisions), item.fact.factId) == Some(r);
      assert Linked(source.facts, r);
      var previous;
      previous, next :| Links(source.facts, r, previous, next);
      assert previous == item;
    }
  }
}
