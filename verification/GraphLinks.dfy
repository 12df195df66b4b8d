/** What the projected graph says of supersession: its claims and relations are the links of the chains. */
module GraphLinks {
  import opened Common
  import opened Conversation
  import opened SessionReplay
  import opened EventLog
  import opened KnowledgeSource
  import opened Supersession
  import opened Chains
  import opened KnowledgeGraph

  /** Enough of a source for its claims to follow its links. */
  ghost predicate Linkable(source: Snapshot) {
    && OneFactPerId(source.facts) && SupersedesOnce(source.revisions)
    && forall r :: r in source.revisions ==> Linked(source.facts, r)
  }

  /** The revision that supersedes a fact, if any, names the fact's successor, and the claim is built from it. */
  lemma SupersededClaim(source: Snapshot, item: SourceFact, r: SourceRevision) returns (next: SourceFact)
    requires Linkable(source) && item in source.facts
    requires r in source.revisions && r.revision.previousFactId == Some(item.fact.factId)
    ensures Links(source.facts, r, item, next)
    ensures var c := ClaimFor(source, item);
            && c.status.Superseded? && c.supersededBy == Some(next.fact.factId)
            && c.validToVersion == Some(next.version) && c.validTo == Some(next.occurredAt)
  {
    ByPreviousIsSupersession(source.revisions);
    assert Lookup(ByPrevious(source.revisions), item.fact.factId) == Some(r);
    assert Linked(source.facts, r);
    var previous;
    previous, next :| Links(source.facts, r, previous, next);
    assert previous == item;
  }

  lemma StandingClaim(source: Snapshot, item: SourceFact)
    requires Linkable(source) && !SupersededIn(source.revisions, item.fact.factId)
    ensures var c := ClaimFor(source, item);
            !c.status.Superseded? && c.supersededBy.None? && c.validToVersion.None? && c.validTo.None?
  {
    ByPreviousIsSupersession(source.revisions);
  }

  /** A claim names another fact as its replacement exactly when that fact follows it in their chain, and is then valid up
      to that fact's version and time. */
  lemma ClaimFollowsLink(source: Snapshot, item: SourceFact, next: SourceFact)
    requires Linkable(source) && item in source.facts && next in source.facts
    ensures var c := ClaimFor(source, item);
            && (c.supersededBy == Some(next.fact.factId) <==> Follows(source.facts, source.revisions, item, next))
            && (Follows(source.facts, source.revisions, item, next) ==>
                  c.status.Superseded? && c.validToVersion == Some(next.version) && c.validTo == Some(next.occurredAt))
  {
    if Follows(source.facts, source.revisions, item, next) {
      var r :| r in source.revisions && Links(source.facts, r, item, next);
      var successor := SupersededClaim(source, item, r);
      assert successor == next;
    } else if SupersededIn(source.revisions, item.fact.factId) {
      var r :| r in source.revisions && r.revision.previousFactId == Some(item.fact.factId);
      var successor := SupersededClaim(source, item, r);
      assert Follows(source.facts, source.revisions, item, successor);
    } else {
      StandingClaim(source, item);
    }
  }

  /** A claim is confirmed exactly when the customer confirmed a revision that introduces its fact, and it names such a
      revision and its time. */
  lemma {:induction false} ConfirmationsAre(revisions: seq<SourceRevision>, id: Uuid)
    ensures id in Confirmations(revisions) <==>
            exists r :: r in revisions && r.revision.confirmedByCustomer && r.revision.replacementFactId == id
    ensures id in Confirmations(revisions) ==>
              var r := Confirmations(revisions)[id];
              r in revisions && r.revision.confirmedByCustomer && r.revision.replacementFactId == id
  {
    if revisions != [] {
      var init, last := revisions[..|revisions| - 1], revisions[|revisions| - 1];
      ConfirmationsAre(init, id);
      assert forall r :: r in revisions <==> r in init || r == last;
    }
  }

  lemma ClaimIsConfirmedIff(source: Snapshot, item: SourceFact)
    ensures var c := ClaimFor(source, item);
            && (c.confirmed <==>
                  exists r :: r in source.revisions && Confirms(r, item))
            && (c.confirmed ==>
                  exists r :: r in source.revisions && Confirms(r, item)
                              && c.confirmedBy == Some(r.revision.revisionId) && c.confirmedAt == Some(r.occurredAt))
            && (!c.confirmed ==> c.confirmedBy.None? && c.confirmedAt.None?)
  {
    ConfirmationsAre(source.revisions, item.fact.factId);
    if item.fact.factId in Confirmations(source.revisions) {
      var r := Confirmations(source.revisions)[item.fact.factId];
      assert r in source.revisions && Confirms(r, item);
    }
  }

  predicate Confirms(r: SourceRevision, item: SourceFact) {
    r.revision.confirmedByCustomer && r.revision.replacementFactId == item.fact.factId
  }

  lemma ProducedIsLinkable(leadId: Uuid, log: seq<Entry>, source: Snapshot)
    requires Produced(leadId, log) && SnapshotOf(leadId, log, source)
    ensures Linkable(source)
  {
    ProducedMirrors(leadId, log);
    SoundLinks(Turns(log));
  }

  /** For every log engines can write, a claim is superseded by exactly the fact that follows it in its chain, from that
      fact's version and time on, and not superseded exactly when no fact follows. */
  lemma ClaimsFollowChains(leadId: Uuid, log: seq<Entry>, source: Snapshot, item: SourceFact, next: SourceFact)
    requires Produced(leadId, log) && SnapshotOf(leadId, log, source) && item in source.facts && next in source.facts
    ensures var c := ClaimFor(source, item);
            && (c.supersededBy == Some(next.fact.factId) <==> Follows(source.facts, source.revisions, item, next))
            && (Follows(source.facts, source.revisions, item, next) ==>
                  c.status.Superseded? && c.validToVersion == Some(next.version) && c.validTo == Some(next.occurredAt))
            && (c.supersededBy.None? <==> item.fact in StateFacts(log, item.session))
            && (c.supersededBy.None? <==> c.validToVersion.None?)
  {
    ProducedIsLinkable(leadId, log, source);
    ClaimFollowsLink(source, item, next);
    NotSupersededIsState(leadId, log, source, item);
  }

  lemma NotSupersededIsState(leadId: Uuid, log: seq<Entry>, source: Snapshot, item: SourceFact)
    requires Produced(leadId, log) && SnapshotOf(leadId, log, source) && item in source.facts
    ensures var c := ClaimFor(source, item);
            && (c.supersededBy.None? <==> item.fact in StateFacts(log, item.session))
            && (c.supersededBy.None? <==> c.validToVersion.None?)
  {
    ProducedMirrors(leadId, log);
    ProducedIsLinkable(leadId, log, source);
    assert Standing(source.facts, source.revisions, item.session, item.fact) <==>
           !SupersededIn(source.revisions, item.fact.factId);
    if SupersededIn(source.revisions, item.fact.factId) {
      var r :| r in source.revisions && r.revision.previousFactId == Some(item.fact.factId);
      var successor := SupersededClaim(source, item, r);
    } else {
      StandingClaim(source, item);
    }
  }

  // ----- relations -----

  /** Some fact with the first identifier is followed, in its chain, by one with the second. */
  ghost predicate LinkedIds(source: Snapshot, fact: Uuid, replacement: Uuid) {
    exists p, q :: Follows(source.facts, source.revisions, p, q) && p.fact.factId == fact && q.fact.factId == replacement
  }

  ghost predicate Observed(source: Snapshot, session: Uuid, fact: Uuid) {
    exists f :: f in source.facts && f.session == session && f.fact.factId == fact
  }

  ghost predicate ClaimRelates(claims: seq<Claim>, r: Relation) {
    exists c :: c in claims && r in ClaimRelations(c)
  }

  lemma ObservedRelations(source: Snapshot, session: Uuid, fact: Uuid)
    ensures ClaimRelates(ClaimsOf(source), ObservedFact(session, fact)) <==> Observed(source, session, fact)
  {
    var claims := ClaimsOf(source);
    if ClaimRelates(claims, ObservedFact(session, fact)) {
      var c :| c in claims && ObservedFact(session, fact) in ClaimRelations(c);
      var i :| 0 <= i < |claims| && claims[i] == c;
      assert source.facts[i] in source.facts;
    }
    if Observed(source, session, fact) {
      var f :| f in source.facts && f.session == session && f.fact.factId == fact;
      var i :| 0 <= i < |source.facts| && source.facts[i] == f;
      assert ClaimRelations(claims[i])[0] == ObservedFact(session, fact);
      assert claims[i] in claims;
    }
  }

  lemma SupersededRelation(c: Claim, fact: Uuid, replacement: Uuid)
    ensures SupersededBy(fact, replacement) in ClaimRelations(c) <==>
            c.fact.factId == fact && c.supersededBy == Some(replacement)
  {
    if c.supersededBy.Some? { assert ClaimRelations(c)[1] == SupersededBy(c.fact.factId, c.supersededBy.value); }
  }

  lemma RelationIsLink(source: Snapshot, fact: Uuid, replacement: Uuid)
    requires Linkable(source) && ClaimRelates(ClaimsOf(source), SupersededBy(fact, replacement))
    ensures LinkedIds(source, fact, replacement)
  {
    var claims := ClaimsOf(source);
    var c :| c in claims && SupersededBy(fact, replacement) in ClaimRelations(c);
    SupersededRelation(c, fact, replacement);
    var i :| 0 <= i < |claims| && claims[i] == c;
    var item := source.facts[i];
    assert item in source.facts;
    if !SupersededIn(source.revisions, item.fact.factId) { StandingClaim(source, item); }
    var r :| r in source.revisions && r.revision.previousFactId == Some(item.fact.factId);
    var next := SupersededClaim(source, item, r);
    assert Follows(source.facts, source.revisions, item, next);
  }

  lemma LinkIsRelation(source: Snapshot, p: SourceFact, q: SourceFact)
    requires Linkable(source) && Follows(source.facts, source.revisions, p, q)
    ensures ClaimRelates(ClaimsOf(source), SupersededBy(p.fact.factId, q.fact.factId))
  {
    var claims := ClaimsOf(source);
    ClaimFollowsLink(source, p, q);
    var i :| 0 <= i < |source.facts| && source.facts[i] == p;
    SupersededRelation(claims[i], p.fact.factId, q.fact.factId);
    assert claims[i] in claims;
  }

  lemma SupersededRelations(source: Snapshot, fact: Uuid, replacement: Uuid)
    requires Linkable(source)
    ensures ClaimRelates(ClaimsOf(source), SupersededBy(fact, replacement)) <==> LinkedIds(source, fact, replacement)
  {
    if ClaimRelates(ClaimsOf(source), SupersededBy(fact, replacement)) { RelationIsLink(source, fact, replacement); }
    if LinkedIds(source, fact, replacement) {
      var p, q :| Follows(source.facts, source.revisions, p, q) && p.fact.factId == fact && q.fact.factId == replacement;
      LinkIsRelation(source, p, q);
    }
  }

  /** What a relation of the graph states about the log. */
  ghost predicate Holds(leadId: Uuid, log: seq<Entry>, source: Snapshot, r: Relation) {
    match r
    case HasSession(lead, session) => lead == leadId && SessionEvents(log, session) != []
    case ObservedFact(session, fact) => Observed(source, session, fact)
    case SupersededBy(fact, replacement) => LinkedIds(source, fact, replacement)
  }

  /** For every log engines can write, the relations are exactly: the lead has each session with a turn, each session
      observed each fact recorded for it, and each fact is superseded by the one that follows it in its chain. */
  lemma RelationsAreLinks(leadId: Uuid, log: seq<Entry>, source: Snapshot, r: Relation)
    requires Produced(leadId, log) && SnapshotOf(leadId, log, source)
    ensures r in RelationsOf(leadId, source.sessionIds, ClaimsOf(source)) <==> Holds(leadId, log, source, r)
  {
    ProducedIsLinkable(leadId, log, source);
    RelationsMembers(leadId, source.sessionIds, ClaimsOf(source));
    assert r in RelationsOf(leadId, source.sessionIds, ClaimsOf(source)) <==>
           (r.HasSession? && r.lead == leadId && r.session in source.sessionIds) || ClaimRelates(ClaimsOf(source), r);
    match r
    case HasSession(lead, session) => NoClaimHasSession(ClaimsOf(source), lead, session);
    case ObservedFact(session, fact) => ObservedRelations(source, session, fact);
    case SupersededBy(fact, replacement) => SupersededRelations(source, fact, replacement);
  }

  lemma NoClaimHasSession(claims: seq<Claim>, lead: Uuid, session: Uuid)
    ensures !ClaimRelates(claims, HasSession(lead, session))
  {
  }

  // ----- where a claim comes from -----

  /** The fact was reported by the turn of this entry, at its version and time and in its session and language. */
  ghost predicate Reports(e: Entry, item: SourceFact) {
    && e.payload.Accepted? && item.fact in e.payload.event.result.facts
    && item.version == e.version && item.occurredAt == e.occurredAt
    && item.session == e.payload.event.sessionId && item.language == e.payload.event.result.language
  }

  lemma {:induction false} FactComesFromTurn(log: seq<Entry>, item: SourceFact) returns (i: nat)
    requires item in FactsOf(Turns(log))
    ensures i < |log| && Reports(log[i], item)
    decreases |log|
  {
    var init, e := log[..|log| - 1], log[|log| - 1];
    SplitLast(log);
    SessionEventsAppend(init, e, 0);
    assert Turns(init) + [] == Turns(init);
    if item in FactsOf(Turns(init)) {
      i := FactComesFromTurn(init, item);
    } else if e.payload.Accepted? {
      i := |log| - 1;
      var t := JournaledTurn(e.version, e.occurredAt, e.payload.event);
      assert (Turns(init) + [t])[..|Turns(init)|] == Turns(init);
      var added := FactsAt(t, t.event.result.facts);
      var k :| 0 <= k < |added| && added[k] == item;
    }
  }

  /** Every claim states the fact of a turn, from that turn's version and time on, in its session and language, and none is
      confirmed by the customer. */
  lemma ClaimComesFromTurn(leadId: Uuid, log: seq<Entry>, source: Snapshot, item: SourceFact) returns (i: nat)
    requires Produced(leadId, log) && SnapshotOf(leadId, log, source) && item in source.facts
    ensures i < |log| && log[i].version == i + 1 && Reports(log[i], item)
    ensures var c := ClaimFor(source, item);
            && c.fact == item.fact && c.session == log[i].payload.event.sessionId
            && c.language == log[i].payload.event.result.language
            && c.validFromVersion == i + 1 && c.validFrom == log[i].occurredAt && !c.confirmed
  {
    i := FactComesFromTurn(log, item);
    ProducedVersions(leadId, log);
    RecordedOnce(leadId, log);
    NoConfirmations(source.revisions);
  }
}
