/** The journal's supersession records mirror the live fact dictionaries, for every log engines can produce. */
module Supersession {
  import opened Common
  import opened Conversation
  import opened SessionReplay
  import opened EventLog
  import opened TurnShape
  import opened KnowledgeSource

  /** The facts a session's state holds after this log, in dictionary order. */
  function StateFacts(log: seq<Entry>, session: Uuid): seq<Fact> {
    UpsertAll([], AllFacts(SessionEvents(log, session)))
  }

  lemma StateAfterFacts(leadId: Uuid, log: seq<Entry>, session: Uuid, cp: Checkpoint)
    requires StateAfter(leadId, SessionEvents(log, session), cp)
    ensures cp.facts == StateFacts(log, session)
  {
  }

  /** The fact is recorded for the session and no revision has superseded it. */
  ghost predicate Standing(facts: seq<SourceFact>, revisions: seq<SourceRevision>, session: Uuid, f: Fact) {
    !SupersededIn(revisions, f.factId) && exists s :: s in facts && s.session == session && s.fact == f
  }

  ghost predicate OneFactPerId(facts: seq<SourceFact>) {
    forall a, b :: a in facts && b in facts && a.fact.factId == b.fact.factId ==> a == b
  }

  /** Every superseded identifier is a recorded fact's. */
  ghost predicate SupersedesKnown(facts: seq<SourceFact>, revisions: seq<SourceRevision>) {
    forall r :: r in revisions ==> r.revision.previousFactId.Some? && HasFactId(facts, r.revision.previousFactId.value)
  }

  ghost predicate Dated(log: seq<Entry>, facts: seq<SourceFact>) {
    forall f :: f in facts ==>
      f.version <= |log| && (log != [] ==> f.occurredAt <= log[|log| - 1].occurredAt) && KnownFactId(log, f.fact.factId)
  }

  ghost predicate RevisionsKnown(log: seq<Entry>, revisions: seq<SourceRevision>) {
    forall r :: r in revisions ==> KnownRevisionId(log, r.revision.revisionId)
  }

  ghost predicate StandingIsState(log: seq<Entry>, facts: seq<SourceFact>, revisions: seq<SourceRevision>) {
    forall session, f :: f in StateFacts(log, session) <==> Standing(facts, revisions, session, f)
  }

  /** The records and the states agree. */
  ghost predicate Mirrors(log: seq<Entry>, facts: seq<SourceFact>, revisions: seq<SourceRevision>) {
    && OneFactPerId(facts) && SupersedesKnown(facts, revisions)
    && Dated(log, facts) && RevisionsKnown(log, revisions)
    && StandingIsState(log, facts, revisions)
  }

  // ----- one more turn -----

  /** What a produced turn adds, in terms of the state it ran on. */
  ghost predicate Adds(log: seq<Entry>, t: JournaledTurn, known: seq<Fact>, candidates: seq<Candidate>, leadId: Uuid) {
    && UniqueKeys(known)
    && Shape(known, leadId, candidates, t.event.result.facts, t.event.result.revisions)
    && DistinctIds(candidates)
    && (forall c :: c in candidates ==> !KnownFactId(log, c.factId) && !KnownRevisionId(log, c.revisionId))
    && t.version == |log| + 1
    && (log != [] ==> log[|log| - 1].occurredAt <= t.occurredAt)
  }

  lemma FactsFresh(log: seq<Entry>, t: JournaledTurn, known: seq<Fact>, candidates: seq<Candidate>, leadId: Uuid)
    requires Adds(log, t, known, candidates, leadId)
    ensures forall f :: f in t.event.result.facts ==> !KnownFactId(log, f.factId)
    ensures forall f, g :: f in t.event.result.facts && g in t.event.result.facts && f.factId == g.factId ==> f == g
  {
    var added := t.event.result.facts;
    forall f | f in added ensures !KnownFactId(log, f.factId) {
      assert IsCandidate(leadId, candidates, f);
    }
    forall f, g | f in added && g in added && f.factId == g.factId ensures f == g {
      assert IsCandidate(leadId, candidates, f) && IsCandidate(leadId, candidates, g);
      var c :| c in candidates && f == FactOf(c, leadId);
      var d :| d in candidates && g == FactOf(d, leadId);
    }
  }

  /** The fact a reported revision supersedes is the standing one under its key. */
  lemma RevisionTarget(log: seq<Entry>, t: JournaledTurn, known: seq<Fact>, candidates: seq<Candidate>, leadId: Uuid,
                       r: Revision) returns (c: Candidate, previous: Fact)
    requires Adds(log, t, known, candidates, leadId) && r in t.event.result.revisions
    ensures c in candidates && FactOf(c, leadId) in t.event.result.facts && previous in known
    ensures previous.key == c.key && r == RevisionOf(c, leadId, previous)
  {
    assert Supersedes(known, leadId, candidates, t.event.result.facts, r);
    c :| c in candidates && FactOf(c, leadId) in t.event.result.facts && FindFact(known, c.key).Some?
         && r == RevisionOf(c, leadId, FindFact(known, c.key).value);
    previous := FindFact(known, c.key).value;
  }

  lemma StandingRecord(log: seq<Entry>, facts: seq<SourceFact>, revisions: seq<SourceRevision>, session: Uuid, f: Fact)
    returns (s: SourceFact)
    requires StandingIsState(log, facts, revisions) && f in StateFacts(log, session)
    ensures s in facts && s.session == session && s.fact == f && !SupersededIn(revisions, f.factId)
  {
    assert Standing(facts, revisions, session, f);
    s :| s in facts && s.session == session && s.fact == f;
  }

  lemma TurnIsSound(leadId: Uuid, log: seq<Entry>, facts: seq<SourceFact>, revisions: seq<SourceRevision>,
                    t: JournaledTurn, candidates: seq<Candidate>)
    requires Mirrors(log, facts, revisions)
    requires Adds(log, t, StateFacts(log, t.event.sessionId), candidates, leadId)
    ensures SoundTurn(facts, revisions, t)
  {
    var known := StateFacts(log, t.event.sessionId);
    var added, revised := t.event.result.facts, t.event.result.revisions;
    FactsFresh(log, t, known, candidates, leadId);
    forall j | 0 <= j < |added| ensures !HasFactId(facts + FactsAt(t, added[..j]), added[j].factId) {
      assert added[j] in added;
      forall s | s in facts + FactsAt(t, added[..j]) ensures s.fact.factId != added[j].factId {
        if s in facts {
          assert KnownFactId(log, s.fact.factId);
        } else {
          var i :| 0 <= i < j && FactsAt(t, added[..j])[i] == s;
          assert added[i] in added && added[i] != added[j];
        }
      }
    }
    forall j | 0 <= j < |revised|
      ensures SoundRevision(facts + FactsAt(t, added), revisions + RevisionsAt(t, revised[..j]), t, revised[j])
    {
      RevisionIsSound(leadId, log, facts, revisions, t, candidates, j);
    }
  }

  lemma RevisionIsSound(leadId: Uuid, log: seq<Entry>, facts: seq<SourceFact>, revisions: seq<SourceRevision>,
                        t: JournaledTurn, candidates: seq<Candidate>, j: nat)
    requires Mirrors(log, facts, revisions)
    requires Adds(log, t, StateFacts(log, t.event.sessionId), candidates, leadId)
    requires j < |t.event.result.revisions|
    ensures SoundRevision(facts + FactsAt(t, t.event.result.facts),
                          revisions + RevisionsAt(t, t.event.result.revisions[..j]), t, t.event.result.revisions[j])
  {
    var known := StateFacts(log, t.event.sessionId);
    var revised := t.event.result.revisions;
    var r := revised[j];
    var all, earlier := facts + FactsAt(t, t.event.result.facts), revisions + RevisionsAt(t, revised[..j]);
    var c, previous := RevisionTarget(log, t, known, candidates, leadId, r);
    var s := StandingRecord(log, facts, revisions, t.event.sessionId, previous);
    assert s in all;
    assert FitsSource(t, r, s);
    assert FactOf(c, leadId).factId == r.replacementFactId;
    forall q | q in earlier
      ensures q.revision.revisionId != r.revisionId && q.revision.previousFactId != r.previousFactId
    {
      if q in revisions {
        assert KnownRevisionId(log, q.revision.revisionId);
        assert q.revision.previousFactId == r.previousFactId ==> SupersededIn(revisions, previous.factId);
      } else {
        var i :| 0 <= i < j && RevisionsAt(t, revised[..j])[i] == q;
        assert revised[i] in revised && revised[i].key != r.key;
        var d, other := RevisionTarget(log, t, known, candidates, leadId, revised[i]);
        var s' := StandingRecord(log, facts, revisions, t.event.sessionId, other);
      }
    }
  }

  /** Recording the turn keeps the mirror. */
  lemma RecordsGrow(leadId: Uuid, log: seq<Entry>, facts: seq<SourceFact>, revisions: seq<SourceRevision>, e: Entry,
                    t: JournaledTurn, candidates: seq<Candidate>)
    requires Mirrors(log, facts, revisions)
    requires Adds(log, t, StateFacts(log, t.event.sessionId), candidates, leadId)
    requires e.payload == Accepted(t.event) && e.version == t.version && e.occurredAt == t.occurredAt
    ensures OneFactPerId(facts + FactsAt(t, t.event.result.facts))
    ensures SupersedesKnown(facts + FactsAt(t, t.event.result.facts), revisions + RevisionsAt(t, t.event.result.revisions))
    ensures Dated(log + [e], facts + FactsAt(t, t.event.result.facts))
    ensures RevisionsKnown(log + [e], revisions + RevisionsAt(t, t.event.result.revisions))
  {
    var added, revised := t.event.result.facts, t.event.result.revisions;
    var all, log' := facts + FactsAt(t, added), log + [e];
    FactsFresh(log, t, StateFacts(log, t.event.sessionId), candidates, leadId);
    forall s | s in all ensures s in facts || (s.fact in added && s == FactAt(t, s.fact)) {}
    forall a, b | a in all && b in all && a.fact.factId == b.fact.factId ensures a == b {}
    KnownGrows(log, e);
    forall f | f in added ensures KnownFactId(log', f.factId) {
      assert log'[|log|].payload.Accepted? && f in log'[|log|].payload.event.result.facts;
    }
    forall r | r in revised ensures KnownRevisionId(log', r.revisionId) {
      assert log'[|log|].payload.Accepted? && r in log'[|log|].payload.event.result.revisions;
    }
    forall q | q in revisions + RevisionsAt(t, revised)
      ensures q.revision.previousFactId.Some? && HasFactId(all, q.revision.previousFactId.value)
    {
      if q in revisions {
        var s :| s in facts && s.fact.factId == q.revision.previousFactId.value;
        assert s in all;
      } else {
        assert q.revision in revised;
        var c, previous := RevisionTarget(log, t, StateFacts(log, t.event.sessionId), candidates, leadId, q.revision);
        var s := StandingRecord(log, facts, revisions, t.event.sessionId, previous);
        assert s in all;
      }
    }
  }

  lemma KnownGrows(log: seq<Entry>, e: Entry)
    ensures forall id :: KnownFactId(log, id) ==> KnownFactId(log + [e], id)
    ensures forall id :: KnownRevisionId(log, id) ==> KnownRevisionId(log + [e], id)
  {
    forall id | KnownFactId(log, id) ensures KnownFactId(log + [e], id) {
      var i, f :| 0 <= i < |log| && log[i].payload.Accepted? && f in log[i].payload.event.result.facts && f.factId == id;
      assert (log + [e])[i] == log[i];
    }
    forall id | KnownRevisionId(log, id) ensures KnownRevisionId(log + [e], id) {
      var i, r :| 0 <= i < |log| && log[i].payload.Accepted? && r in log[i].payload.event.result.revisions
                  && r.revisionId == id;
      assert (log + [e])[i] == log[i];
    }
  }

  /** After the turn a fact of its session stands exactly when it was just recorded, or stood and was not given
      a new value. */
  lemma StandingAfter(leadId: Uuid, log: seq<Entry>, facts: seq<SourceFact>, revisions: seq<SourceRevision>,
                      t: JournaledTurn, candidates: seq<Candidate>, f: Fact)
    requires Mirrors(log, facts, revisions)
    requires Adds(log, t, StateFacts(log, t.event.sessionId), candidates, leadId)
    ensures var added := t.event.result.facts;
            var standing := Standing(facts + FactsAt(t, added), revisions + RevisionsAt(t, t.event.result.revisions),
                                     t.event.sessionId, f);
            standing <==>
              f in added || (f in StateFacts(log, t.event.sessionId) && forall g :: g in added ==> g.key != f.key)
  {
    var session, added := t.event.sessionId, t.event.result.facts;
    var all, allRevisions := facts + FactsAt(t, added), revisions + RevisionsAt(t, t.event.result.revisions);
    if f in added {
      var i :| 0 <= i < |added| && added[i] == f;
      assert all[|facts| + i] == FactAt(t, f);
      assert FactAt(t, f) in all;
      NotSuperseded(leadId, log, facts, revisions, t, candidates, f);
    } else if f in StateFacts(log, session) {
      var s := StandingRecord(log, facts, revisions, session, f);
      assert s in all;
      if g :| g in added && g.key == f.key {
        ReplacedIsSuperseded(leadId, log, revisions, t, candidates, f, g);
      } else {
        NotSuperseded(leadId, log, facts, revisions, t, candidates, f);
      }
    } else {
      UnknownStaysFallen(facts, revisions, t, session, f);
    }
  }

  /** A known fact under a key that was given a value is superseded. */
  lemma ReplacedIsSuperseded(leadId: Uuid, log: seq<Entry>, revisions: seq<SourceRevision>, t: JournaledTurn,
                             candidates: seq<Candidate>, f: Fact, g: Fact)
    requires Adds(log, t, StateFacts(log, t.event.sessionId), candidates, leadId)
    requires f in StateFacts(log, t.event.sessionId) && g in t.event.result.facts && g.key == f.key
    ensures SupersededIn(revisions + RevisionsAt(t, t.event.result.revisions), f.factId)
  {
    var known, revised := StateFacts(log, t.event.sessionId), t.event.result.revisions;
    var all := revisions + RevisionsAt(t, revised);
    FindFactIsMember(known, f);
    assert IsRevised(revised, g.key);
    var r :| r in revised && r.key == g.key;
    var c, previous := RevisionTarget(log, t, known, candidates, leadId, r);
    FindFactIsMember(known, previous);
    var i :| 0 <= i < |revised| && revised[i] == r;
    assert all[|revisions| + i] == RevisionAt(t, r);
    assert all[|revisions| + i] in all;
  }

  /** A fact that did not stand and was not recorded does not stand after the turn. */
  lemma UnknownStaysFallen(facts: seq<SourceFact>, revisions: seq<SourceRevision>, t: JournaledTurn, session: Uuid, f: Fact)
    requires !Standing(facts, revisions, session, f) && f !in t.event.result.facts
    ensures !Standing(facts + FactsAt(t, t.event.result.facts), revisions + RevisionsAt(t, t.event.result.revisions),
                      session, f)
  {
    var all, allRevisions := facts + FactsAt(t, t.event.result.facts), revisions + RevisionsAt(t, t.event.result.revisions);
    forall s | s in all && s.session == session && s.fact == f ensures SupersededIn(allRevisions, f.factId) {
      assert s in facts;
      var r :| r in revisions && r.revision.previousFactId == Some(f.factId);
      assert r in allRevisions;
    }
  }

  /** A just recorded fact, or a standing one given no new value, is superseded by nothing. */
  lemma NotSuperseded(leadId: Uuid, log: seq<Entry>, facts: seq<SourceFact>, revisions: seq<SourceRevision>,
                      t: JournaledTurn, candidates: seq<Candidate>, f: Fact)
    requires Mirrors(log, facts, revisions)
    requires Adds(log, t, StateFacts(log, t.event.sessionId), candidates, leadId)
    requires f in t.event.result.facts
             || (f in StateFacts(log, t.event.sessionId) && forall g :: g in t.event.result.facts ==> g.key != f.key)
    ensures !SupersededIn(revisions + RevisionsAt(t, t.event.result.revisions), f.factId)
  {
    var known := StateFacts(log, t.event.sessionId);
    FactsFresh(log, t, known, candidates, leadId);
    if f in known {
      var s := StandingRecord(log, facts, revisions, t.event.sessionId, f);
    } else {
      forall q | q in revisions ensures q.revision.previousFactId != Some(f.factId) {
        var s :| s in facts && s.fact.factId == q.revision.previousFactId.value;
        assert KnownFactId(log, s.fact.factId);
      }
    }
    assert !SupersededIn(revisions, f.factId);
    forall q | q in RevisionsAt(t, t.event.result.revisions) ensures q.revision.previousFactId != Some(f.factId) {
      assert q.revision in t.event.result.revisions;
      var c, previous := RevisionTarget(log, t, known, candidates, leadId, q.revision);
      var s := StandingRecord(log, facts, revisions, t.event.sessionId, previous);
      assert KnownFactId(log, s.fact.factId);
      if f in known {
        var s' := StandingRecord(log, facts, revisions, t.event.sessionId, f);
        assert f in t.event.result.facts || previous != f;
      }
    }
  }

  /** Other sessions' facts stand as before. */
  lemma StandingElsewhere(leadId: Uuid, log: seq<Entry>, facts: seq<SourceFact>, revisions: seq<SourceRevision>,
                          t: JournaledTurn, candidates: seq<Candidate>, session: Uuid, f: Fact)
    requires Mirrors(log, facts, revisions)
    requires Adds(log, t, StateFacts(log, t.event.sessionId), candidates, leadId)
    requires session != t.event.sessionId
    ensures Standing(facts + FactsAt(t, t.event.result.facts), revisions + RevisionsAt(t, t.event.result.revisions),
                     session, f) <==>
            Standing(facts, revisions, session, f)
  {
    var all, allRevisions := facts + FactsAt(t, t.event.result.facts), revisions + RevisionsAt(t, t.event.result.revisions);
    forall s | s in all && s.session == session ensures s in facts {}
    assert forall s :: s in facts ==> s in all;
    assert forall r :: r in revisions ==> r in allRevisions;
    if Standing(facts, revisions, session, f) {
      var s :| s in facts && s.session == session && s.fact == f;
      forall q | q in allRevisions ensures q.revision.previousFactId != Some(f.factId) {
        if q in revisions {
          assert q.revision.previousFactId == Some(f.factId) ==> SupersededIn(revisions, f.factId);
        } else {
          assert q.revision in t.event.result.revisions;
          var c, previous :=
            RevisionTarget(log, t, StateFacts(log, t.event.sessionId), candidates, leadId, q.revision);
          var s' := StandingRecord(log, facts, revisions, t.event.sessionId, previous);
        }
      }
    }
  }

  // ----- whole logs -----

  lemma ProducedAdds(leadId: Uuid, log: seq<Entry>, e: Entry) returns (candidates: seq<Candidate>)
    requires ProducedEntry(leadId, log, e) && e.payload.Accepted?
    ensures var t := JournaledTurn(e.version, e.occurredAt, e.payload.event);
            Adds(log, t, StateFacts(log, e.payload.event.sessionId), candidates, leadId)
  {
    var ev := e.payload.event;
    var cp, input :| ProducedBy(leadId, log, ev, cp, input);
    StateAfterIsValid(leadId, SessionEvents(log, ev.sessionId), cp);
    StateAfterFacts(leadId, log, ev.sessionId, cp);
    TurnHasShape(cp, input);
    candidates := input.candidates;
  }

  lemma StateFactsAppend(log: seq<Entry>, e: Entry, session: Uuid)
    ensures StateFacts(log + [e], session) ==
            if e.payload.Accepted? && e.payload.event.sessionId == session
            then UpsertAll(StateFacts(log, session), e.payload.event.result.facts)
            else StateFacts(log, session)
  {
    SessionEventsAppend(log, e, session);
    if e.payload.Accepted? && e.payload.event.sessionId == session {
      var events := SessionEvents(log, session);
      assert (events + [e.payload.event])[..|events|] == events;
      UpsertAllAppend([], AllFacts(events), e.payload.event.result.facts);
    } else {
      assert SessionEvents(log + [e], session) == SessionEvents(log, session);
    }
  }

  /** For every log engines can produce, the knowledge reader's checks all pass, and the standing facts are,
      session by session, exactly the facts of the replayed states. */
  lemma {:induction false} ProducedMirrors(leadId: Uuid, log: seq<Entry>)
    requires Produced(leadId, log)
    ensures Sound(Turns(log)) && Mirrors(log, FactsOf(Turns(log)), RevisionsOf(Turns(log)))
  {
    if log == [] {
      forall session ensures StateFacts(log, session) == [] {
        assert SessionEvents(log, session) == [];
      }
      forall session, f ensures !Standing([], [], session, f) {}
    } else {
      var init, e := log[..|log| - 1], log[|log| - 1];
      assert log == init + [e];
      ProducedMirrors(leadId, init);
      var turns := Turns(init);
      var facts, revisions := FactsOf(turns), RevisionsOf(turns);
      SessionEventsAppend(init, e, 0);
      if e.payload.Accepted? {
        var t := JournaledTurn(e.version, e.occurredAt, e.payload.event);
        assert Turns(log)[..|turns|] == turns;
        var candidates := ProducedAdds(leadId, init, e);
        TurnIsSound(leadId, init, facts, revisions, t, candidates);
        RecordsGrow(leadId, init, facts, revisions, e, t, candidates);
        TurnMirrors(leadId, init, facts, revisions, e, t, candidates);
      } else {
        assert Turns(log) == turns;
        KnownGrows(init, e);
        ForeignMirrors(init, facts, revisions, e);
      }
    }
  }

  lemma ForeignMirrors(log: seq<Entry>, facts: seq<SourceFact>, revisions: seq<SourceRevision>, e: Entry)
    requires Mirrors(log, facts, revisions) && !e.payload.Accepted?
    requires log != [] ==> log[|log| - 1].occurredAt <= e.occurredAt
    ensures Mirrors(log + [e], facts, revisions)
  {
    KnownGrows(log, e);
    forall session, f ensures f in StateFacts(log + [e], session) <==> Standing(facts, revisions, session, f) {
      StateFactsAppend(log, e, session);
    }
    forall f | f in facts ensures f.occurredAt <= e.occurredAt {
      assert KnownFactId(log, f.fact.factId);
    }
  }

  lemma TurnMirrors(leadId: Uuid, log: seq<Entry>, facts: seq<SourceFact>, revisions: seq<SourceRevision>, e: Entry,
                    t: JournaledTurn, candidates: seq<Candidate>)
    requires Mirrors(log, facts, revisions)
    requires Adds(log, t, StateFacts(log, t.event.sessionId), candidates, leadId)
    requires e.payload == Accepted(t.event)
    ensures StandingIsState(log + [e], facts + FactsAt(t, t.event.result.facts),
                            revisions + RevisionsAt(t, t.event.result.revisions))
  {
    forall session, f
      ensures f in StateFacts(log + [e], session) <==>
              Standing(facts + FactsAt(t, t.event.result.facts), revisions + RevisionsAt(t, t.event.result.revisions),
                       session, f)
    {
      StateFactsAppend(log, e, session);
      if session == t.event.sessionId {
        StandingAfter(leadId, log, facts, revisions, t, candidates, f);
        UpsertAllMembers(StateFacts(log, session), t.event.result.facts);
      } else {
        StandingElsewhere(leadId, log, facts, revisions, t, candidates, session, f);
      }
    }
  }

  // ----- consequences -----

  function SessionRevisions(revisions: seq<SourceRevision>, session: Uuid): seq<SourceRevision> {
    if revisions == [] then []
    else
      var last := revisions[|revisions| - 1];
      SessionRevisions(revisions[..|revisions| - 1], session) + if last.session == session then [last] else []
  }

  lemma {:induction false} SessionRevisionsAppend(a: seq<SourceRevision>, b: seq<SourceRevision>, session: Uuid)
    ensures SessionRevisions(a + b, session) == SessionRevisions(a, session) + SessionRevisions(b, session)
  {
    if b == [] {
      assert a + b == a;
    } else {
      assert (a + b)[..|a + b| - 1] == a + b[..|b| - 1];
      SessionRevisionsAppend(a, b[..|b| - 1], session);
    }
  }

  lemma {:induction false} SessionRevisionsOfTurn(revisions: seq<SourceRevision>, owner: Uuid, session: Uuid)
    requires forall r :: r in revisions ==> r.session == owner
    ensures SessionRevisions(revisions, session) == if owner == session then revisions else []
  {
    if revisions != [] {
      assert revisions[|revisions| - 1] in revisions;
      SessionRevisionsOfTurn(revisions[..|revisions| - 1], owner, session);
    }
  }

  /** The goal-change count a session's events record. */
  function GoalCount(events: seq<TurnEvent>): nat {
    if events == [] then 0 else events[|events| - 1].goalChangeCount
  }

  /** A turn adds as many goal changes as revisions. */
  lemma ProducedGoals(leadId: Uuid, log: seq<Entry>, e: Entry)
    requires ProducedEntry(leadId, log, e) && e.payload.Accepted?
    ensures var ev := e.payload.event;
            ev.goalChangeCount == GoalCount(SessionEvents(log, ev.sessionId)) + |ev.result.revisions|
  {
    var ev := e.payload.event;
    var cp, input :| ProducedBy(leadId, log, ev, cp, input);
    StateAfterIsValid(leadId, SessionEvents(log, ev.sessionId), cp);
    TurnHasShape(cp, input);
  }

  lemma SessionRevisionsOfLog(log: seq<Entry>, e: Entry, session: Uuid)
    ensures |SessionRevisions(RevisionsOf(Turns(log + [e])), session)| ==
            |SessionRevisions(RevisionsOf(Turns(log)), session)| +
            if e.payload.Accepted? && e.payload.event.sessionId == session then |e.payload.event.result.revisions| else 0
  {
    SessionEventsAppend(log, e, session);
    if e.payload.Accepted? {
      var ev := e.payload.event;
      var t := JournaledTurn(e.version, e.occurredAt, ev);
      assert Turns(log + [e])[..|Turns(log)|] == Turns(log);
      SessionRevisionsAppend(RevisionsOf(Turns(log)), RevisionsAt(t, ev.result.revisions), session);
      SessionRevisionsOfTurn(RevisionsAt(t, ev.result.revisions), ev.sessionId, session);
    } else {
      assert Turns(log + [e]) == Turns(log);
    }
  }

  /** A session's goal-change count is the number of revisions its journal records. */
  lemma {:induction false} GoalChangesAreRevisions(leadId: Uuid, log: seq<Entry>, session: Uuid)
    requires Produced(leadId, log)
    ensures GoalCount(SessionEvents(log, session)) == |SessionRevisions(RevisionsOf(Turns(log)), session)|
    ensures forall cp :: StateAfter(leadId, SessionEvents(log, session), cp) ==>
              cp.goalChangeCount == GoalCount(SessionEvents(log, session))
  {
    if log != [] {
      var init, e := log[..|log| - 1], log[|log| - 1];
      assert log == init + [e];
      GoalChangesAreRevisions(leadId, init, session);
      SessionEventsAppend(init, e, session);
      SessionRevisionsOfLog(init, e, session);
      if e.payload.Accepted? && e.payload.event.sessionId == session {
        ProducedGoals(leadId, init, e);
      } else {
        assert SessionEvents(log, session) == SessionEvents(init, session);
      }
    }
  }
}
