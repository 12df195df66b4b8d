/** How the facts and revisions a turn reports relate to the facts it found: the link between the live
    dictionary and the journal's supersession records. */
module TurnShape {
  import opened Common
  import opened Language
  import opened Conversation

  function FactOf(c: Candidate, leadId: Uuid): Fact {
    Fact(c.factId, leadId, c.key, c.value)
  }

  /** The revision a candidate gives when its key already has another value. */
  function RevisionOf(c: Candidate, leadId: Uuid, previous: Fact): Revision {
    Revision(c.revisionId, leadId, c.key, Some(previous.factId), c.factId, false)
  }

  predicate DistinctIds(candidates: seq<Candidate>) {
    forall i, j :: 0 <= i < j < |candidates| ==>
      candidates[i].factId != candidates[j].factId && candidates[i].revisionId != candidates[j].revisionId
  }

  ghost predicate IsCandidate(leadId: Uuid, candidates: seq<Candidate>, f: Fact) {
    exists c :: c in candidates && f == FactOf(c, leadId)
  }

  /** The revision supersedes the fact that was known under its key by one of these facts. */
  ghost predicate Supersedes(known: seq<Fact>, leadId: Uuid, candidates: seq<Candidate>, facts: seq<Fact>, r: Revision) {
    exists c :: c in candidates && FactOf(c, leadId) in facts && FindFact(known, c.key).Some?
                && r == RevisionOf(c, leadId, FindFact(known, c.key).value)
  }

  ghost predicate IsRevised(revisions: seq<Revision>, key: string) {
    exists r :: r in revisions && r.key == key
  }

  /** The facts come from distinct candidates, each fact that replaces a known one is reported with exactly one
      revision naming the one it replaces, and no other revision is reported. */
  ghost predicate Shape(known: seq<Fact>, leadId: Uuid, candidates: seq<Candidate>, facts: seq<Fact>,
                        revisions: seq<Revision>)
  {
    && UniqueKeys(facts)
    && (forall f :: f in facts ==> IsCandidate(leadId, candidates, f))
    && (forall i, j :: 0 <= i < j < |revisions| ==> revisions[i].key != revisions[j].key)
    && (forall r :: r in revisions ==> Supersedes(known, leadId, candidates, facts, r))
    && (forall f :: f in facts && FindFact(known, f.key).Some? ==> IsRevised(revisions, f.key))
  }

  /** Extraction before acceptance: distinct keys, and looking a fact's revision up finds the expected one. */
  ghost predicate Extracted(known: seq<Fact>, leadId: Uuid, candidates: seq<Candidate>, ex: Extraction) {
    && UniqueKeys(ex.facts)
    && (forall f :: f in ex.facts ==> Proposed(known, leadId, candidates, ex.revisions, f))
    && (forall r :: r in ex.revisions ==> exists c :: c in candidates && r.replacementFactId == c.factId)
  }

  ghost predicate Proposed(known: seq<Fact>, leadId: Uuid, candidates: seq<Candidate>, revisions: seq<Revision>, f: Fact) {
    exists c :: c in candidates && FactFits(known, leadId, c, f)
                && RevisionFor(revisions, c.factId) == ExpectedRevision(known, leadId, c)
  }

  ghost predicate FactFits(known: seq<Fact>, leadId: Uuid, c: Candidate, f: Fact) {
    f == FactOf(c, leadId) && (FindFact(known, c.key).Some? ==> FindFact(known, c.key).value.value != c.value)
  }

  function ExpectedRevision(known: seq<Fact>, leadId: Uuid, c: Candidate): Option<Revision> {
    var existing := FindFact(known, c.key);
    if existing.None? then None else Some(RevisionOf(c, leadId, existing.value))
  }

  lemma {:induction false} RevisionForAbsent(revisions: seq<Revision>, id: Uuid)
    requires forall r :: r in revisions ==> r.replacementFactId != id
    ensures RevisionFor(revisions, id).None?
  {
    if revisions != [] { RevisionForAbsent(revisions[..|revisions| - 1], id); }
  }

  lemma {:induction false} ExtractShape(known: seq<Fact>, leadId: Uuid, candidates: seq<Candidate>)
    requires DistinctKeys(candidates) && DistinctIds(candidates)
    ensures Extracted(known, leadId, candidates, Extract(known, leadId, candidates))
  {
    if candidates != [] {
      var n := |candidates| - 1;
      var init, c := candidates[..n], candidates[n];
      ExtractShape(known, leadId, init);
      assert forall d :: d in candidates <==> d in init || d == c;
      assert forall d :: d in init ==> d.key != c.key && d.factId != c.factId;
      var sofar, ex := Extract(known, leadId, init), Extract(known, leadId, candidates);
      if ex != sofar {
        assert ex.facts == sofar.facts + [FactOf(c, leadId)];
        forall f | f in sofar.facts
          ensures f.key != c.key && Proposed(known, leadId, candidates, ex.revisions, f)
        {
          var d :| d in init && FactFits(known, leadId, d, f)
                   && RevisionFor(sofar.revisions, d.factId) == ExpectedRevision(known, leadId, d);
          assert RevisionFor(ex.revisions, d.factId) == RevisionFor(sofar.revisions, d.factId) by {
            if ex.revisions != sofar.revisions { assert ex.revisions[..|ex.revisions| - 1] == sofar.revisions; }
          }
        }
        RevisionForAbsent(sofar.revisions, c.factId);
        assert FactFits(known, leadId, c, FactOf(c, leadId));
        assert RevisionFor(ex.revisions, c.factId) == ExpectedRevision(known, leadId, c);
      } else {
        forall f | f in ex.facts ensures Proposed(known, leadId, candidates, ex.revisions, f) {
          var d :| d in init && FactFits(known, leadId, d, f)
                   && RevisionFor(sofar.revisions, d.factId) == ExpectedRevision(known, leadId, d);
        }
      }
    }
  }

  /** Acceptance so far has the shape and leaves every key outside `keys` alone. */
  ghost predicate Accepting(known: seq<Fact>, goals: nat, leadId: Uuid, candidates: seq<Candidate>, keys: set<string>,
                            a: Intake)
  {
    && UniqueKeys(a.facts)
    && Shape(known, leadId, candidates, a.accepted, a.revisions)
    && a.goalChanges == goals + |a.revisions|
    && (forall f :: f in a.accepted ==> f.key in keys)
    && (forall r :: r in a.revisions ==> r.key in keys)
    && (forall k :: k !in keys ==> FindFact(a.facts, k) == FindFact(known, k))
  }

  function KeysOf(facts: seq<Fact>): set<string> {
    set f | f in facts :: f.key
  }

  lemma KeysOfPrefix(facts: seq<Fact>, n: nat)
    requires UniqueKeys(facts) && n < |facts|
    ensures facts[n].key !in KeysOf(facts[..n])
    ensures KeysOf(facts[..n + 1]) == KeysOf(facts[..n]) + {facts[n].key}
  {
    assert facts[..n + 1] == facts[..n] + [facts[n]];
    assert forall f :: f in facts[..n + 1] <==> f in facts[..n] || f == facts[n];
  }

  lemma {:induction false} AcceptShape(known: seq<Fact>, goals: nat, leadId: Uuid, candidates: seq<Candidate>,
                                       maxFacts: int, ex: Extraction, n: nat)
    requires UniqueKeys(known) && Extracted(known, leadId, candidates, ex) && n <= |ex.facts|
    ensures Accepting(known, goals, leadId, candidates, KeysOf(ex.facts[..n]),
                      Accept(Intake(known, goals, [], []), maxFacts, ex.revisions, ex.facts[..n]))
  {
    if n > 0 {
      AcceptShape(known, goals, leadId, candidates, maxFacts, ex, n - 1);
      var f := ex.facts[n - 1];
      assert ex.facts[..n][..n - 1] == ex.facts[..n - 1];
      KeysOfPrefix(ex.facts, n - 1);
      assert Proposed(known, leadId, candidates, ex.revisions, f);
      var c :| c in candidates && FactFits(known, leadId, c, f)
               && RevisionFor(ex.revisions, c.factId) == ExpectedRevision(known, leadId, c);
      AcceptOneShape(known, goals, leadId, candidates, maxFacts, ex.revisions,
                     Accept(Intake(known, goals, [], []), maxFacts, ex.revisions, ex.facts[..n - 1]), c,
                     KeysOf(ex.facts[..n - 1]));
    }
  }

  lemma ShapeGrows(known: seq<Fact>, leadId: Uuid, candidates: seq<Candidate>, facts: seq<Fact>,
                   revisions: seq<Revision>, c: Candidate)
    requires c in candidates && Shape(known, leadId, candidates, facts, revisions)
    requires forall f :: f in facts ==> f.key != c.key
    requires forall r :: r in revisions ==> r.key != c.key
    ensures var e := ExpectedRevision(known, leadId, c);
            Shape(known, leadId, candidates, facts + [FactOf(c, leadId)],
                  if e.Some? then revisions + [e.value] else revisions)
  {
    var e := ExpectedRevision(known, leadId, c);
    var facts' := facts + [FactOf(c, leadId)];
    var revisions' := if e.Some? then revisions + [e.value] else revisions;
    assert FactOf(c, leadId) in facts';
    assert IsCandidate(leadId, candidates, FactOf(c, leadId));
    forall r | r in revisions' ensures Supersedes(known, leadId, candidates, facts', r) {
      if r in revisions {
        var d :| d in candidates && FactOf(d, leadId) in facts && FindFact(known, d.key).Some?
                 && r == RevisionOf(d, leadId, FindFact(known, d.key).value);
        assert FactOf(d, leadId) in facts';
      }
    }
    forall f | f in facts' && FindFact(known, f.key).Some? ensures IsRevised(revisions', f.key) {
      if f in facts {
        var r :| r in revisions && r.key == f.key;
        assert r in revisions';
      } else {
        assert e.value in revisions';
      }
    }
  }

  /** One more extracted fact keeps the shape. */
  lemma AcceptOneShape(known: seq<Fact>, goals: nat, leadId: Uuid, candidates: seq<Candidate>, maxFacts: int,
                       proposed: seq<Revision>, b: Intake, c: Candidate, keys: set<string>)
    requires c in candidates && Accepting(known, goals, leadId, candidates, keys, b) && c.key !in keys
    requires FactFits(known, leadId, c, FactOf(c, leadId))
    requires RevisionFor(proposed, c.factId) == ExpectedRevision(known, leadId, c)
    ensures Accepting(known, goals, leadId, candidates, keys + {c.key},
                      AcceptOne(b, maxFacts, proposed, FactOf(c, leadId)))
  {
    var f := FactOf(c, leadId);
    var a := AcceptOne(b, maxFacts, proposed, f);
    if |b.facts| < maxFacts || FindFact(b.facts, f.key).Some? {
      UpsertUnique(b.facts, f);
      ShapeGrows(known, leadId, candidates, b.accepted, b.revisions, c);
      var e := ExpectedRevision(known, leadId, c);
      assert a.accepted == b.accepted + [f];
      assert a.revisions == if e.Some? then b.revisions + [e.value] else b.revisions;
    } else {
      assert a == b;
    }
  }

  /** What any turn reports, from any state: every kept fact that replaces a known one is reported as a
      revision of exactly that one, and the goal-change count rises by the number of revisions. */
  lemma TurnHasShape(cp: Checkpoint, input: TurnInput)
    requires ValidCheckpoint(cp) && ProcessTurn(cp, input).Success?
    requires DistinctKeys(input.candidates) && DistinctIds(input.candidates)
    ensures var o := ProcessTurn(cp, input).value;
            && Shape(cp.facts, cp.leadId, input.candidates, o.result.facts, o.result.revisions)
            && o.state.goalChangeCount == cp.goalChangeCount + |o.result.revisions|
  {
    TurnKinds(cp, input);
    var o := ProcessTurn(cp, input).value;
    if o.result.facts == [] && o.result.revisions == [] && o.state.goalChangeCount == cp.goalChangeCount {
      assert Shape(cp.facts, cp.leadId, input.candidates, [], []);
    } else {
      BusinessHasShape(Begin(cp, input), input, input.digest in cp.recentDigests);
    }
  }

  /** A turn either records nothing or is a business turn. */
  lemma TurnKinds(cp: Checkpoint, input: TurnInput)
    requires ProcessTurn(cp, input).Success?
    ensures var o := ProcessTurn(cp, input).value;
            || (o.result.facts == [] && o.result.revisions == [] && o.state.goalChangeCount == cp.goalChangeCount)
            || o == ProcessBusiness(Begin(cp, input), input,
                      Resolve(cp.lang, input.declared, input.reading, input.detectSwitch).switched,
                      input.digest in cp.recentDigests)
  {
    if OptOut in input.signals {
    } else if Abuse in input.signals {
    } else if InternalInfo in input.signals || PromptInjection in input.signals {
    }
  }

  lemma BusinessHasShape(cp: Checkpoint, input: TurnInput, repeated: bool)
    requires UniqueKeys(cp.facts) && DistinctKeys(input.candidates) && DistinctIds(input.candidates)
    ensures var ex := if repeated then Extraction([], []) else Extract(cp.facts, cp.leadId, input.candidates);
            var a := Accept(Intake(cp.facts, cp.goalChangeCount, [], []), cp.config.maxFacts, ex.revisions, ex.facts);
            && Shape(cp.facts, cp.leadId, input.candidates, a.accepted, a.revisions)
            && a.goalChanges == cp.goalChangeCount + |a.revisions|
  {
    ExtractShape(cp.facts, cp.leadId, input.candidates);
    var ex := Extract(cp.facts, cp.leadId, input.candidates);
    AcceptShape(cp.facts, cp.goalChangeCount, cp.leadId, input.candidates, cp.config.maxFacts, ex, |ex.facts|);
    assert ex.facts[..|ex.facts|] == ex.facts;
  }

  /** Assigning facts with distinct keys keeps every known fact whose key is not among them. */
  lemma {:induction false} UpsertAllMembers(known: seq<Fact>, facts: seq<Fact>)
    requires UniqueKeys(known) && UniqueKeys(facts)
    ensures UniqueKeys(UpsertAll(known, facts))
    ensures forall f :: f in UpsertAll(known, facts) <==>
              f in facts || (f in known && forall g :: g in facts ==> g.key != f.key)
  {
    if facts != [] {
      var init, last := facts[..|facts| - 1], facts[|facts| - 1];
      UpsertAllMembers(known, init);
      UpsertUnique(UpsertAll(known, init), last);
      assert forall g :: g in facts <==> g in init || g == last;
      assert forall g :: g in init ==> g.key != last.key;
    }
  }

  lemma {:induction false} FindFactIsMember(facts: seq<Fact>, f: Fact)
    requires UniqueKeys(facts) && f in facts
    ensures FindFact(facts, f.key) == Some(f)
  {
    if facts[0] != f {
      assert facts == [facts[0]] + facts[1..];
      assert f in facts[1..];
      var j :| 0 <= j < |facts| && facts[j] == f;
      assert facts[0].key != facts[j].key;
      FindFactIsMember(facts[1..], f);
    }
  }
}
