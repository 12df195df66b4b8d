/** Each session and key forms one linear chain of facts: one that replaces nothing, each later one replacing exactly the
    one before it, and one that is not superseded. */
module Chains {
  import opened Common
  import opened Conversation
  import opened SessionReplay
  import opened EventLog
  import opened TurnShape
  import opened KnowledgeSource
  import opened Supersession

  ghost predicate SupersedesOnce(revisions: seq<SourceRevision>) {
    forall a, b :: a in revisions && b in revisions && a.revision.previousFactId == b.revision.previousFactId ==> a == b
  }

  /** A revision links an earlier fact to the fact recorded with it, in one session and under one key. */
  ghost predicate Links(facts: seq<SourceFact>, r: SourceRevision, previous: SourceFact, next: SourceFact) {
    && previous in facts && next in facts
    && r.revision.previousFactId == Some(previous.fact.factId) && r.revision.replacementFactId == next.fact.factId
    && previous.session == next.session == r.session
    && previous.fact.key == next.fact.key == r.revision.key
    && previous.version < next.version == r.version
    && previous.occurredAt <= next.occurredAt == r.occurredAt
  }

  ghost predicate Linked(facts: seq<SourceFact>, r: SourceRevision) {
    exists previous, next :: Links(facts, r, previous, next)
  }

  lemma {:induction false} SoundLinks(turns: seq<JournaledTurn>)
    requires Sound(turns)
    ensures SupersedesOnce(RevisionsOf(turns))
    ensures forall r :: r in RevisionsOf(turns) ==> Linked(FactsOf(turns), r)
  {
    if turns != [] {
      var init, t := turns[..|turns| - 1], turns[|turns| - 1];
      SoundLinks(init);
      var facts, revisions := FactsOf(init), RevisionsOf(init);
      var added, revised := t.event.result.facts, t.event.result.revisions;
      var all := FactsOf(turns);
      forall r | r in revisions ensures Linked(all, r) {
        var p, q :| Links(facts, r, p, q);
        assert Links(all, r, p, q);
      }
      forall j | 0 <= j < |revised| ensures Linked(all, RevisionAt(t, revised[j])) {
        var r := revised[j];
        assert SoundRevision(all, revisions + RevisionsAt(t, revised[..j]), t, r);
        var p :| p in all && FitsSource(t, r, p);
        var f :| f in added && f.factId == r.replacementFactId && f.key == r.key;
        var i :| 0 <= i < |added| && added[i] == f;
        assert all[|facts| + i] == FactAt(t, f);
        assert Links(all, RevisionAt(t, r), p, FactAt(t, f));
      }
      forall i, j | 0 <= i < j < |RevisionsOf(turns)|
        ensures RevisionsOf(turns)[i].revision.previousFactId != RevisionsOf(turns)[j].revision.previousFactId
                || RevisionsOf(turns)[i] == RevisionsOf(turns)[j]
      {
        if j >= |revisions| {
          var k := j - |revisions|;
          var earlier := revisions + RevisionsAt(t, revised[..k]);
          assert SoundRevision(all, earlier, t, revised[k]);
          assert earlier[i] == RevisionsOf(turns)[i] && earlier[i] in earlier;
          assert RevisionsOf(turns)[j] == RevisionAt(t, revised[k]);
        } else {
          assert RevisionsOf(turns)[i] in revisions && RevisionsOf(turns)[j] in revisions;
        }
      }
    }
  }

  /** From any recorded fact, following supersessions reaches the one standing fact of its session and key. */
  lemma {:induction false} ChainEnds(leadId: Uuid, log: seq<Entry>, start: SourceFact) returns (end: SourceFact)
    requires Produced(leadId, log) && start in FactsOf(Turns(log))
    ensures end in FactsOf(Turns(log)) && end.session == start.session && end.fact.key == start.fact.key
    ensures start.version <= end.version
    ensures Standing(FactsOf(Turns(log)), RevisionsOf(Turns(log)), end.session, end.fact)
    decreases |log| - start.version
  {
    var facts, revisions := FactsOf(Turns(log)), RevisionsOf(Turns(log));
    ProducedMirrors(leadId, log);
    SoundLinks(Turns(log));
    if SupersededIn(revisions, start.fact.factId) {
      var r :| r in revisions && r.revision.previousFactId == Some(start.fact.factId);
      assert Linked(facts, r);
      var previous, next :| Links(facts, r, previous, next);
      end := ChainEnds(leadId, log, next);
    } else {
      end := start;
    }
  }

  lemma StateFactsUnique(log: seq<Entry>, session: Uuid)
    ensures UniqueKeys(StateFacts(log, session))
  {
    AssignedUnique([], AllFacts(SessionEvents(log, session)));
  }

  lemma {:induction false} AssignedUnique(known: seq<Fact>, facts: seq<Fact>)
    requires UniqueKeys(known)
    ensures UniqueKeys(UpsertAll(known, facts))
  {
    if facts != [] {
      AssignedUnique(known, facts[..|facts| - 1]);
      UpsertUnique(UpsertAll(known, facts[..|facts| - 1]), facts[|facts| - 1]);
    }
  }

  // ----- what a fact replaces -----

  ghost predicate ReplacesOnce(revisions: seq<SourceRevision>) {
    forall a, b :: a in revisions && b in revisions && a.revision.replacementFactId == b.revision.replacementFactId ==> a == b
  }

  ghost predicate Replaced(revisions: seq<SourceRevision>, id: Uuid) {
    exists r :: r in revisions && r.revision.replacementFactId == id
  }

  ghost predicate ReplacesKnown(facts: seq<SourceFact>, revisions: seq<SourceRevision>) {
    forall r :: r in revisions ==> HasFactId(facts, r.revision.replacementFactId)
  }

  /** A recorded fact that replaces none. */
  ghost predicate Root(facts: seq<SourceFact>, revisions: seq<SourceRevision>, s: SourceFact) {
    s in facts && !Replaced(revisions, s.fact.factId)
  }

  predicate SameChain(a: SourceFact, b: SourceFact) {
    a.session == b.session && a.fact.key == b.fact.key
  }

  ghost predicate HasRoot(facts: seq<SourceFact>, revisions: seq<SourceRevision>, a: SourceFact) {
    exists root :: Root(facts, revisions, root) && SameChain(root, a)
  }

  /** Each session and key with facts has exactly one fact that replaces none. */
  ghost predicate OneRoot(facts: seq<SourceFact>, revisions: seq<SourceRevision>) {
    && (forall a :: a in facts ==> HasRoot(facts, revisions, a))
    && (forall a, b :: Root(facts, revisions, a) && Root(facts, revisions, b) && SameChain(a, b) ==> a == b)
  }

  /** The reported revision replaces by the turn's one fact under its key. */
  lemma RevisionReplacement(log: seq<Entry>, t: JournaledTurn, known: seq<Fact>, candidates: seq<Candidate>, leadId: Uuid,
                            r: Revision) returns (f: Fact)
    requires Adds(log, t, known, candidates, leadId) && r in t.event.result.revisions
    ensures f in t.event.result.facts && f.key == r.key && f.factId == r.replacementFactId && FindFact(known, f.key).Some?
  {
    var c, previous := RevisionTarget(log, t, known, candidates, leadId, r);
    f := FactOf(c, leadId);
  }

  /** In one turn, a fact is the replacement of a revision exactly when its key was known, and of one revision only. */
  lemma TurnReplaces(log: seq<Entry>, t: JournaledTurn, known: seq<Fact>, candidates: seq<Candidate>, leadId: Uuid)
    requires Adds(log, t, known, candidates, leadId)
    ensures ReplacesOnce(RevisionsAt(t, t.event.result.revisions))
    ensures forall f :: f in t.event.result.facts ==>
              (Replaced(RevisionsAt(t, t.event.result.revisions), f.factId) <==> FindFact(known, f.key).Some?)
  {
    var added, revised := t.event.result.facts, t.event.result.revisions;
    var all := RevisionsAt(t, revised);
    FactsFresh(log, t, known, candidates, leadId);
    forall a, b | a in all && b in all && a.revision.replacementFactId == b.revision.replacementFactId ensures a == b {
      var f := RevisionReplacement(log, t, known, candidates, leadId, a.revision);
      var g := RevisionReplacement(log, t, known, candidates, leadId, b.revision);
      assert a.revision.key == b.revision.key;
    }
    forall f | f in added ensures Replaced(all, f.factId) <==> FindFact(known, f.key).Some? {
      if Replaced(all, f.factId) {
        var r :| r in all && r.revision.replacementFactId == f.factId;
        var g := RevisionReplacement(log, t, known, candidates, leadId, r.revision);
      }
      if FindFact(known, f.key).Some? {
        assert IsRevised(revised, f.key);
        var r :| r in revised && r.key == f.key;
        var i :| 0 <= i < |revised| && revised[i] == r;
        assert all[i] == RevisionAt(t, r);
        var g := RevisionReplacement(log, t, known, candidates, leadId, r);
        SameKeySameFact(added, f, g);
        assert RevisionAt(t, r) in all;
      }
    }
  }

  lemma SameKeySameFact(facts: seq<Fact>, f: Fact, g: Fact)
    requires UniqueKeys(facts) && f in facts && g in facts && f.key == g.key
    ensures f == g
  {
  }

  lemma ReplacedAppend(a: seq<SourceRevision>, b: seq<SourceRevision>, id: Uuid)
    ensures Replaced(a + b, id) <==> Replaced(a, id) || Replaced(b, id)
  {
    assert forall r :: r in a + b <==> r in a || r in b;
    if Replaced(a, id) {
      var r :| r in a && r.revision.replacementFactId == id;
      assert r in a + b;
    }
    if Replaced(b, id) {
      var r :| r in b && r.revision.replacementFactId == id;
      assert r in a + b;
    }
  }

  /** What a produced turn changes about replacements: nothing for earlier facts, and for its own facts exactly whether
      their key was known. */
  lemma ReplacementsGrow(log: seq<Entry>, facts: seq<SourceFact>, revisions: seq<SourceRevision>, t: JournaledTurn,
                         candidates: seq<Candidate>, leadId: Uuid)
    requires Mirrors(log, facts, revisions) && ReplacesOnce(revisions) && ReplacesKnown(facts, revisions)
    requires Adds(log, t, StateFacts(log, t.event.sessionId), candidates, leadId)
    ensures ReplacesOnce(revisions + RevisionsAt(t, t.event.result.revisions))
    ensures ReplacesKnown(facts + FactsAt(t, t.event.result.facts), revisions + RevisionsAt(t, t.event.result.revisions))
    ensures forall s :: s in facts ==>
              (Replaced(revisions + RevisionsAt(t, t.event.result.revisions), s.fact.factId) <==>
               Replaced(revisions, s.fact.factId))
    ensures forall f :: f in t.event.result.facts ==>
              (Replaced(revisions + RevisionsAt(t, t.event.result.revisions), f.factId) <==>
               FindFact(StateFacts(log, t.event.sessionId), f.key).Some?)
  {
    var known, added := StateFacts(log, t.event.sessionId), t.event.result.facts;
    var grown := RevisionsAt(t, t.event.result.revisions);
    FactsFresh(log, t, known, candidates, leadId);
    TurnReplaces(log, t, known, candidates, leadId);
    forall r | r in grown
      ensures !KnownFactId(log, r.revision.replacementFactId)
      ensures HasFactId(facts + FactsAt(t, added), r.revision.replacementFactId)
    {
      var f := RevisionReplacement(log, t, known, candidates, leadId, r.revision);
      var i :| 0 <= i < |added| && added[i] == f;
      assert (facts + FactsAt(t, added))[|facts| + i] == FactAt(t, f);
    }
    forall r | r in revisions
      ensures KnownFactId(log, r.revision.replacementFactId)
      ensures HasFactId(facts + FactsAt(t, added), r.revision.replacementFactId)
    {
      var s :| s in facts && s.fact.factId == r.revision.replacementFactId;
      assert s in facts + FactsAt(t, added);
    }
    forall id ensures Replaced(revisions + grown, id) <==> Replaced(revisions, id) || Replaced(grown, id) {
      ReplacedAppend(revisions, grown, id);
    }
  }

  /** The revisions after a turn replace an earlier fact exactly when they did before it, and one of the turn's facts
      exactly when its key was known, that is recorded, in the turn's session. */
  ghost predicate Grows(facts: seq<SourceFact>, revisions: seq<SourceRevision>, grown: seq<SourceRevision>,
                        t: JournaledTurn, known: seq<Fact>)
  {
    && (forall s :: s in facts && s.session == t.event.sessionId ==> FindFact(known, s.fact.key).Some?)
    && (forall f :: f in t.event.result.facts && FindFact(known, f.key).Some? ==> Continues(facts, FactAt(t, f)))
    && (forall s :: s in facts ==> (Replaced(grown, s.fact.factId) <==> Replaced(revisions, s.fact.factId)))
    && (forall f :: f in t.event.result.facts ==> (Replaced(grown, f.factId) <==> FindFact(known, f.key).Some?))
  }

  ghost predicate Continues(facts: seq<SourceFact>, a: SourceFact) {
    exists s :: s in facts && SameChain(s, a)
  }

  /** A turn's facts start chains exactly under keys its session did not have. */
  lemma NewFactHasRoot(facts: seq<SourceFact>, all: seq<SourceFact>, revisions: seq<SourceRevision>,
                       grown: seq<SourceRevision>, t: JournaledTurn, known: seq<Fact>, f: Fact)
    requires OneRoot(facts, revisions) && Grows(facts, revisions, grown, t, known)
    requires f in t.event.result.facts && FactAt(t, f) in all && forall s :: s in facts ==> s in all
    ensures HasRoot(all, grown, FactAt(t, f))
  {
    var s := FactAt(t, f);
    if FindFact(known, f.key).Some? {
      assert Continues(facts, s);
      var a :| a in facts && SameChain(a, s);
      RootStays(facts, all, revisions, grown, a);
      var root :| Root(all, grown, root) && SameChain(root, a);
      assert SameChain(root, s);
    } else {
      assert Root(all, grown, s) && SameChain(s, s);
    }
  }

  lemma RootsDiffer(facts: seq<SourceFact>, revisions: seq<SourceRevision>, grown: seq<SourceRevision>, t: JournaledTurn,
                    known: seq<Fact>, a: SourceFact, b: SourceFact)
    requires OneRoot(facts, revisions) && Grows(facts, revisions, grown, t, known) && UniqueKeys(t.event.result.facts)
    requires a in facts || (a.fact in t.event.result.facts && a == FactAt(t, a.fact))
    requires b in facts || (b.fact in t.event.result.facts && b == FactAt(t, b.fact))
    requires !Replaced(grown, a.fact.factId) && !Replaced(grown, b.fact.factId) && SameChain(a, b)
    ensures a == b
  {
    if a in facts && b in facts {
      assert Root(facts, revisions, a) && Root(facts, revisions, b);
    } else if a !in facts && b !in facts {
      SameKeySameFact(t.event.result.facts, a.fact, b.fact);
    }
  }

  lemma RootsGrow(facts: seq<SourceFact>, revisions: seq<SourceRevision>, grown: seq<SourceRevision>, t: JournaledTurn,
                  known: seq<Fact>)
    requires OneRoot(facts, revisions) && Grows(facts, revisions, grown, t, known) && UniqueKeys(t.event.result.facts)
    ensures OneRoot(facts + FactsAt(t, t.event.result.facts), grown)
  {
    var all := facts + FactsAt(t, t.event.result.facts);
    forall s | s in all ensures s in facts || (s.fact in t.event.result.facts && s == FactAt(t, s.fact)) {}
    forall s | s in all ensures HasRoot(all, grown, s) {
      if s in facts {
        RootStays(facts, all, revisions, grown, s);
      } else {
        NewFactHasRoot(facts, all, revisions, grown, t, known, s.fact);
      }
    }
    forall a, b | Root(all, grown, a) && Root(all, grown, b) && SameChain(a, b) ensures a == b {
      RootsDiffer(facts, revisions, grown, t, known, a, b);
    }
  }

  lemma RootStays(facts: seq<SourceFact>, all: seq<SourceFact>, revisions: seq<SourceRevision>, grown: seq<SourceRevision>,
                  a: SourceFact)
    requires HasRoot(facts, revisions, a) && forall s :: s in facts ==> s in all
    requires forall s :: s in facts ==> (Replaced(grown, s.fact.factId) <==> Replaced(revisions, s.fact.factId))
    ensures HasRoot(all, grown, a)
  {
    var root :| Root(facts, revisions, root) && SameChain(root, a);
    assert Root(all, grown, root);
  }

  /** The keys recorded for a session are those of its state, both ways. */
  lemma KeysOfState(leadId: Uuid, log: seq<Entry>, session: Uuid, key: string)
    requires Produced(leadId, log)
    ensures FindFact(StateFacts(log, session), key).Some? <==>
            exists s :: s in FactsOf(Turns(log)) && s.session == session && s.fact.key == key
  {
    var facts, revisions := FactsOf(Turns(log)), RevisionsOf(Turns(log));
    ProducedMirrors(leadId, log);
    if FindFact(StateFacts(log, session), key).Some? {
      var s := StandingRecord(log, facts, revisions, session, FindFact(StateFacts(log, session), key).value);
    }
    if s :| s in facts && s.session == session && s.fact.key == key {
      var end := ChainEnds(leadId, log, s);
      assert Standing(facts, revisions, session, end.fact);
    }
  }

  ghost predicate Chained(facts: seq<SourceFact>, revisions: seq<SourceRevision>) {
    ReplacesOnce(revisions) && ReplacesKnown(facts, revisions) && OneRoot(facts, revisions)
  }

  lemma ChainsGrow(leadId: Uuid, log: seq<Entry>, e: Entry)
    requires Produced(leadId, log) && ProducedEntry(leadId, log, e) && e.payload.Accepted?
    requires Chained(FactsOf(Turns(log)), RevisionsOf(Turns(log)))
    ensures Chained(FactsOf(Turns(log + [e])), RevisionsOf(Turns(log + [e])))
  {
    var t := JournaledTurn(e.version, e.occurredAt, e.payload.event);
    var facts, revisions, session := FactsOf(Turns(log)), RevisionsOf(Turns(log)), t.event.sessionId;
    var known := StateFacts(log, session);
    var grown := revisions + RevisionsAt(t, t.event.result.revisions);
    SessionEventsAppend(log, e, session);
    assert (Turns(log) + [t])[..|Turns(log)|] == Turns(log);
    ProducedMirrors(leadId, log);
    var candidates := ProducedAdds(leadId, log, e);
    ReplacementsGrow(log, facts, revisions, t, candidates, leadId);
    forall s | s in facts && s.session == session ensures FindFact(known, s.fact.key).Some? {
      KeysOfState(leadId, log, session, s.fact.key);
    }
    forall f | f in t.event.result.facts && FindFact(known, f.key).Some?
      ensures Continues(facts, FactAt(t, f))
    {
      KeysOfState(leadId, log, session, f.key);
      var s :| s in facts && s.session == session && s.fact.key == f.key;
      assert SameChain(s, FactAt(t, f));
    }
    RootsGrow(facts, revisions, grown, t, known);
  }

  /** In every log engines can write, no two revisions have one replacement and every chain has exactly one root. */
  lemma {:induction false} ProducedChained(leadId: Uuid, log: seq<Entry>)
    requires Produced(leadId, log)
    ensures Chained(FactsOf(Turns(log)), RevisionsOf(Turns(log)))
  {
    if log != [] {
      var init, e := log[..|log| - 1], log[|log| - 1];
      SplitLast(log);
      ProducedChained(leadId, init);
      if e.payload.Accepted? {
        ChainsGrow(leadId, init, e);
      } else {
        SessionEventsAppend(init, e, 0);
        assert Turns(init) + [] == Turns(init);
      }
    }
  }

  // ----- the chain -----

  ghost predicate Follows(facts: seq<SourceFact>, revisions: seq<SourceRevision>, previous: SourceFact, next: SourceFact) {
    exists r :: r in revisions && Links(facts, r, previous, next)
  }

  /** From a fact that is nobody's replacement, each one superseded by the next, to one that is not superseded. */
  ghost predicate IsChain(facts: seq<SourceFact>, revisions: seq<SourceRevision>, chain: seq<SourceFact>) {
    && chain != [] && Root(facts, revisions, chain[0])
    && (forall i :: 0 < i < |chain| ==> Follows(facts, revisions, chain[i - 1], chain[i]))
    && !SupersededIn(revisions, chain[|chain| - 1].fact.factId)
  }

  /** What makes the recorded revisions chains. */
  ghost predicate Linear(facts: seq<SourceFact>, revisions: seq<SourceRevision>) {
    && OneFactPerId(facts) && SupersedesOnce(revisions) && Chained(facts, revisions)
    && (forall r :: r in revisions ==> Linked(facts, r))
  }

  /** The chain from a fact on, up to the version bound. */
  lemma {:induction false} ChainFrom(facts: seq<SourceFact>, revisions: seq<SourceRevision>, start: SourceFact, bound: nat)
    returns (chain: seq<SourceFact>)
    requires Linear(facts, revisions) && start in facts && forall s :: s in facts ==> s.version <= bound
    ensures chain != [] && chain[0] == start && !SupersededIn(revisions, chain[|chain| - 1].fact.factId)
    ensures forall i :: 0 < i < |chain| ==> Follows(facts, revisions, chain[i - 1], chain[i])
    ensures forall s :: s in chain ==> s in facts && SameChain(s, start)
    decreases bound - start.version
  {
    chain := [start];
    if SupersededIn(revisions, start.fact.factId) {
      var r :| r in revisions && r.revision.previousFactId == Some(start.fact.factId);
      assert Linked(facts, r);
      var previous, next :| Links(facts, r, previous, next);
      assert previous == start && Follows(facts, revisions, start, next);
      var rest := ChainFrom(facts, revisions, next, bound);
      chain := [start] + rest;
      forall i | 0 < i < |chain| ensures Follows(facts, revisions, chain[i - 1], chain[i]) {
        if i > 1 { assert chain[i] == rest[i - 1] && chain[i - 1] == rest[i - 2]; }
      }
    }
  }

  /** A chain holds every fact of its session and key: going back from any of them reaches the chain's start. */
  lemma {:induction false} ChainHolds(facts: seq<SourceFact>, revisions: seq<SourceRevision>, chain: seq<SourceFact>,
                                      x: SourceFact)
    requires Linear(facts, revisions) && IsChain(facts, revisions, chain) && x in facts && SameChain(x, chain[0])
    ensures x in chain
    decreases x.version
  {
    if Replaced(revisions, x.fact.factId) {
      var r :| r in revisions && r.revision.replacementFactId == x.fact.factId;
      assert Linked(facts, r);
      var previous, next :| Links(facts, r, previous, next);
      assert next == x;
      ChainHolds(facts, revisions, chain, previous);
      var i :| 0 <= i < |chain| && chain[i] == previous;
      assert SupersededIn(revisions, previous.fact.factId);
      assert Follows(facts, revisions, chain[i], chain[i + 1]);
      var q :| q in revisions && Links(facts, q, chain[i], chain[i + 1]);
      assert q == r && chain[i + 1] == x;
    } else {
      assert Root(facts, revisions, x);
    }
  }

  /** The facts of one session and key are exactly the members of one chain. */
  ghost predicate OneChain(facts: seq<SourceFact>, revisions: seq<SourceRevision>, a: SourceFact) {
    exists chain :: IsChain(facts, revisions, chain) && forall s :: s in chain <==> s in facts && SameChain(s, a)
  }

  lemma LinearOneChain(facts: seq<SourceFact>, revisions: seq<SourceRevision>, a: SourceFact, bound: nat)
    requires Linear(facts, revisions) && a in facts && forall s :: s in facts ==> s.version <= bound
    ensures OneChain(facts, revisions, a)
  {
    assert HasRoot(facts, revisions, a);
    var root :| Root(facts, revisions, root) && SameChain(root, a);
    var chain := ChainFrom(facts, revisions, root, bound);
    assert IsChain(facts, revisions, chain);
    forall s | s in facts && SameChain(s, a) ensures s in chain {
      ChainHolds(facts, revisions, chain, s);
    }
  }

  /** Supersession is linear in every log engines can write: no fact is superseded twice, no fact replaces two, every
      revision links two facts of one session and key with increasing versions, and the facts of each session and key
      are exactly one chain, from the one that replaces nothing to the one that stands, which is the one in the
      session's state. */
  lemma ChainsAreLinear(leadId: Uuid, log: seq<Entry>, a: SourceFact)
    requires Produced(leadId, log) && a in FactsOf(Turns(log))
    ensures var facts, revisions := FactsOf(Turns(log)), RevisionsOf(Turns(log));
            && SupersedesOnce(revisions) && ReplacesOnce(revisions)
            && (forall r :: r in revisions ==> Linked(facts, r))
            && OneRoot(facts, revisions)
            && OneChain(facts, revisions, a)
            && (exists f :: Standing(facts, revisions, a.session, f) && f.key == a.fact.key)
            && (forall f, g ::
                  Standing(facts, revisions, a.session, f) && Standing(facts, revisions, a.session, g) && f.key == g.key
                  ==> f == g)
            && (forall f :: Standing(facts, revisions, a.session, f) <==> f in StateFacts(log, a.session))
  {
    var facts, revisions := FactsOf(Turns(log)), RevisionsOf(Turns(log));
    ProducedMirrors(leadId, log);
    SoundLinks(Turns(log));
    ProducedChained(leadId, log);
    LinearOneChain(facts, revisions, a, |log|);
    var end := ChainEnds(leadId, log, a);
    StateFactsUnique(log, a.session);
    assert Standing(facts, revisions, a.session, end.fact) && end.fact.key == a.fact.key;
  }
}
