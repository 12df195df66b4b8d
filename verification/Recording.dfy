/** Exactly which of a turn's candidates are recorded, and what the dictionary holds afterwards. */
module Recording {
  import opened Common
  import opened Conversation
  import opened TurnShape

  /** The candidate says something the dictionary does not hold already. */
  predicate News(known: seq<Fact>, c: Candidate) {
    var existing := FindFact(known, c.key);
    existing.None? || existing.value.value != c.value
  }

  /** How many of the first n candidates have a key the dictionary does not know. */
  function NewKeys(known: seq<Fact>, candidates: seq<Candidate>, n: nat): nat
    requires n <= |candidates|
  {
    if n == 0 then 0
    else NewKeys(known, candidates, n - 1) + if FindFact(known, candidates[n - 1].key).None? then 1 else 0
  }

  /** The i-th candidate is recorded: it is news, and its key is known or there is still room when its turn comes. */
  predicate Recorded(known: seq<Fact>, candidates: seq<Candidate>, maxFacts: int, i: nat)
    requires i < |candidates|
  {
    && News(known, candidates[i])
    && (FindFact(known, candidates[i].key).Some? || |known| + NewKeys(known, candidates, i) < maxFacts)
  }

  /** The facts of the recorded ones among the first n candidates, in order. */
  function RecordedFacts(known: seq<Fact>, leadId: Uuid, candidates: seq<Candidate>, maxFacts: int, n: nat): seq<Fact>
    requires n <= |candidates|
  {
    if n == 0 then []
    else
      RecordedFacts(known, leadId, candidates, maxFacts, n - 1)
      + if Recorded(known, candidates, maxFacts, n - 1) then [FactOf(candidates[n - 1], leadId)] else []
  }

  /** The revisions of the recorded ones that replace a known fact, in order. */
  function RecordedRevisions(known: seq<Fact>, leadId: Uuid, candidates: seq<Candidate>, maxFacts: int, n: nat):
    seq<Revision>
    requires n <= |candidates|
  {
    if n == 0 then []
    else
      var expected := ExpectedRevision(known, leadId, candidates[n - 1]);
      RecordedRevisions(known, leadId, candidates, maxFacts, n - 1)
      + if Recorded(known, candidates, maxFacts, n - 1) && expected.Some? then [expected.value] else []
  }

  lemma {:induction false} RecordedFactsAre(known: seq<Fact>, leadId: Uuid, candidates: seq<Candidate>, maxFacts: int,
                                            n: nat, i: nat)
    requires n <= |candidates| && i < n && DistinctIds(candidates)
    ensures FactOf(candidates[i], leadId) in RecordedFacts(known, leadId, candidates, maxFacts, n) <==>
            Recorded(known, candidates, maxFacts, i)
  {
    if i < n - 1 {
      RecordedFactsAre(known, leadId, candidates, maxFacts, n - 1, i);
    } else {
      EarlierIds(known, leadId, candidates, maxFacts, n - 1);
    }
  }

  lemma {:induction false} EarlierIds(known: seq<Fact>, leadId: Uuid, candidates: seq<Candidate>, maxFacts: int, n: nat)
    requires n <= |candidates|
    ensures forall f :: f in RecordedFacts(known, leadId, candidates, maxFacts, n) ==>
              exists j :: 0 <= j < n && f == FactOf(candidates[j], leadId)
  {
    if n > 0 { EarlierIds(known, leadId, candidates, maxFacts, n - 1); }
  }

  // ----- extraction finds the news -----

  /** Looking up what extraction proposes for a candidate gives the revision it should have, if it is news. */
  lemma {:induction false} ExtractedRevision(known: seq<Fact>, leadId: Uuid, candidates: seq<Candidate>, i: nat)
    requires DistinctKeys(candidates) && DistinctIds(candidates) && i < |candidates| && News(known, candidates[i])
    ensures RevisionFor(Extract(known, leadId, candidates).revisions, candidates[i].factId) ==
            ExpectedRevision(known, leadId, candidates[i])
  {
    var n := |candidates| - 1;
    var init, c := candidates[..n], candidates[n];
    var sofar, ex := Extract(known, leadId, init).revisions, Extract(known, leadId, candidates).revisions;
    ExtractShape(known, leadId, init);
    if i < n {
      ExtractedRevision(known, leadId, init, i);
      if ex != sofar { assert ex[..|ex| - 1] == sofar; }
    } else {
      RevisionForAbsent(sofar, c.factId);
    }
  }

  /** What the dictionary holds under a key once the first n candidates have been through: the value of the one that was
      recorded under it, or what it held before. */
  function Value(known: seq<Fact>, leadId: Uuid, candidates: seq<Candidate>, maxFacts: int, n: nat, key: string):
    Option<Fact>
    requires n <= |candidates|
  {
    if n == 0 then FindFact(known, key)
    else if candidates[n - 1].key == key && Recorded(known, candidates, maxFacts, n - 1) then
      Some(FactOf(candidates[n - 1], leadId))
    else Value(known, leadId, candidates, maxFacts, n - 1, key)
  }

  lemma {:induction false} ValueBefore(known: seq<Fact>, leadId: Uuid, candidates: seq<Candidate>, maxFacts: int, n: nat,
                                       key: string)
    requires n <= |candidates| && forall j :: 0 <= j < n ==> candidates[j].key != key
    ensures Value(known, leadId, candidates, maxFacts, n, key) == FindFact(known, key)
  {
    if n > 0 { ValueBefore(known, leadId, candidates, maxFacts, n - 1, key); }
  }

  ghost predicate Holds(known: seq<Fact>, leadId: Uuid, candidates: seq<Candidate>, maxFacts: int, n: nat, facts: seq<Fact>)
    requires n <= |candidates|
  {
    forall k :: FindFact(facts, k) == Value(known, leadId, candidates, maxFacts, n, k)
  }

  /** The dictionary grows by a new key each time, until it is full. */
  predicate Sized(known: seq<Fact>, candidates: seq<Candidate>, maxFacts: int, n: nat, size: nat)
    requires n <= |candidates|
  {
    var wanted := |known| + NewKeys(known, candidates, n);
    size == if wanted <= maxFacts then wanted else maxFacts
  }

  ghost predicate Reported(known: seq<Fact>, goals: nat, leadId: Uuid, candidates: seq<Candidate>, maxFacts: int, n: nat,
                           a: Intake)
    requires n <= |candidates|
  {
    && a.accepted == RecordedFacts(known, leadId, candidates, maxFacts, n)
    && a.revisions == RecordedRevisions(known, leadId, candidates, maxFacts, n)
    && a.goalChanges == goals + |a.revisions|
  }

  /** What acceptance has once the first n candidates have been through. */
  ghost predicate Took(known: seq<Fact>, goals: nat, leadId: Uuid, candidates: seq<Candidate>, maxFacts: int, n: nat,
                       a: Intake)
    requires n <= |candidates|
  {
    && Reported(known, goals, leadId, candidates, maxFacts, n, a)
    && UniqueKeys(a.facts) && Sized(known, candidates, maxFacts, n, |a.facts|)
    && Holds(known, leadId, candidates, maxFacts, n, a.facts)
  }

  /** Acceptance of news decides as `Recorded` says. */
  lemma Decided(known: seq<Fact>, goals: nat, leadId: Uuid, candidates: seq<Candidate>, maxFacts: int, n: nat, b: Intake)
    requires DistinctKeys(candidates) && n < |candidates| && Took(known, goals, leadId, candidates, maxFacts, n, b)
    ensures FindFact(b.facts, candidates[n].key) == FindFact(known, candidates[n].key)
    ensures News(known, candidates[n]) ==>
              (Recorded(known, candidates, maxFacts, n) <==>
               |b.facts| < maxFacts || FindFact(b.facts, candidates[n].key).Some?)
  {
    ValueBefore(known, leadId, candidates, maxFacts, n, candidates[n].key);
  }

  lemma TakeReports(known: seq<Fact>, goals: nat, leadId: Uuid, candidates: seq<Candidate>, maxFacts: int,
                    proposed: seq<Revision>, n: nat, b: Intake)
    requires DistinctKeys(candidates) && n < |candidates| && Took(known, goals, leadId, candidates, maxFacts, n, b)
    requires News(known, candidates[n])
    requires RevisionFor(proposed, candidates[n].factId) == ExpectedRevision(known, leadId, candidates[n])
    ensures Reported(known, goals, leadId, candidates, maxFacts, n + 1,
                     AcceptOne(b, maxFacts, proposed, FactOf(candidates[n], leadId)))
  {
    Decided(known, goals, leadId, candidates, maxFacts, n, b);
    assert b.accepted + [] == b.accepted && b.revisions + [] == b.revisions;
  }

  lemma TakeHolds(known: seq<Fact>, goals: nat, leadId: Uuid, candidates: seq<Candidate>, maxFacts: int,
                  proposed: seq<Revision>, n: nat, b: Intake)
    requires DistinctKeys(candidates) && n < |candidates| && Took(known, goals, leadId, candidates, maxFacts, n, b)
    requires News(known, candidates[n])
    ensures var a := AcceptOne(b, maxFacts, proposed, FactOf(candidates[n], leadId));
            UniqueKeys(a.facts) && Holds(known, leadId, candidates, maxFacts, n + 1, a.facts)
  {
    Decided(known, goals, leadId, candidates, maxFacts, n, b);
    UpsertUnique(b.facts, FactOf(candidates[n], leadId));
  }

  lemma TakeSizes(known: seq<Fact>, goals: nat, leadId: Uuid, candidates: seq<Candidate>, maxFacts: int,
                  proposed: seq<Revision>, n: nat, b: Intake)
    requires DistinctKeys(candidates) && n < |candidates| && Took(known, goals, leadId, candidates, maxFacts, n, b)
    requires News(known, candidates[n])
    ensures Sized(known, candidates, maxFacts, n + 1, |AcceptOne(b, maxFacts, proposed, FactOf(candidates[n], leadId)).facts|)
  {
    Decided(known, goals, leadId, candidates, maxFacts, n, b);
  }

  lemma SkipOne(known: seq<Fact>, goals: nat, leadId: Uuid, candidates: seq<Candidate>, maxFacts: int, n: nat, b: Intake)
    requires n < |candidates| && Took(known, goals, leadId, candidates, maxFacts, n, b) && !News(known, candidates[n])
    ensures Took(known, goals, leadId, candidates, maxFacts, n + 1, b)
  {
    assert b.accepted + [] == b.accepted && b.revisions + [] == b.revisions;
  }

  lemma {:induction false} TakeAll(known: seq<Fact>, goals: nat, leadId: Uuid, candidates: seq<Candidate>, maxFacts: int,
                                   n: nat)
    requires UniqueKeys(known) && |known| <= maxFacts && DistinctKeys(candidates) && DistinctIds(candidates)
    requires n <= |candidates|
    ensures Took(known, goals, leadId, candidates, maxFacts, n,
                 Accept(Intake(known, goals, [], []), maxFacts, Extract(known, leadId, candidates).revisions,
                        Extract(known, leadId, candidates[..n]).facts))
  {
    if n > 0 {
      var proposed := Extract(known, leadId, candidates).revisions;
      var sofar := Extract(known, leadId, candidates[..n - 1]).facts;
      var b := Accept(Intake(known, goals, [], []), maxFacts, proposed, sofar);
      TakeAll(known, goals, leadId, candidates, maxFacts, n - 1);
      assert candidates[..n][..n - 1] == candidates[..n - 1];
      if News(known, candidates[n - 1]) {
        ExtractedRevision(known, leadId, candidates, n - 1);
        TakeReports(known, goals, leadId, candidates, maxFacts, proposed, n - 1, b);
        TakeHolds(known, goals, leadId, candidates, maxFacts, proposed, n - 1, b);
        TakeSizes(known, goals, leadId, candidates, maxFacts, proposed, n - 1, b);
        var f := FactOf(candidates[n - 1], leadId);
        assert Extract(known, leadId, candidates[..n]).facts == sofar + [f];
        assert (sofar + [f])[..|sofar|] == sofar;
      } else {
        SkipOne(known, goals, leadId, candidates, maxFacts, n - 1, b);
      }
    }
  }
}
