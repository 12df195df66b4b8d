/** Reading every fact and supersession a lead's journal records, with the checks that refuse a journal
    whose supersessions do not fit its facts. */
module KnowledgeSource {
  import opened Common
  import opened Language
  import opened Conversation
  import opened SessionReplay
  import opened EventLog

  datatype SourceFact = SourceFact(fact: Fact, version: nat, session: Uuid, language: Language, occurredAt: int)

  datatype SourceRevision = SourceRevision(revision: Revision, version: nat, session: Uuid, occurredAt: int)

  datatype Snapshot = Snapshot(leadId: Uuid, version: nat, sessionIds: seq<Uuid>, facts: seq<SourceFact>,
                               revisions: seq<SourceRevision>)

  datatype KnowledgeCorruption =
    | DuplicateFact | DuplicateRevision | ReplacementInconsistent | SourceInconsistent
    | TimestampPrecedes | SupersededTwice

  datatype KnowledgeError =
    | CapacitiesNotPositive | CapacitiesUnsafe | JournalUnreadable(load: LoadError) | JournalMissing
    | SessionCapacityReached | SessionUnreadable(replay: ReplayError) | FactCapacityReached
    | RevisionCapacityReached | CorruptKnowledge(reason: KnowledgeCorruption)

  function FactAt(t: JournaledTurn, f: Fact): SourceFact {
    SourceFact(f, t.version, t.event.sessionId, t.event.result.language, t.occurredAt)
  }

  function RevisionAt(t: JournaledTurn, r: Revision): SourceRevision {
    SourceRevision(r, t.version, t.event.sessionId, t.occurredAt)
  }

  function FactsAt(t: JournaledTurn, facts: seq<Fact>): (r: seq<SourceFact>)
    ensures |r| == |facts| && forall i :: 0 <= i < |r| ==> r[i] == FactAt(t, facts[i])
  {
    seq(|facts|, i requires 0 <= i < |facts| => FactAt(t, facts[i]))
  }

  function RevisionsAt(t: JournaledTurn, revisions: seq<Revision>): (r: seq<SourceRevision>)
    ensures |r| == |revisions| && forall i :: 0 <= i < |r| ==> r[i] == RevisionAt(t, revisions[i])
  {
    seq(|revisions|, i requires 0 <= i < |revisions| => RevisionAt(t, revisions[i]))
  }

  function FactsOf(turns: seq<JournaledTurn>): seq<SourceFact> {
    if turns == [] then []
    else var t := turns[|turns| - 1]; FactsOf(turns[..|turns| - 1]) + FactsAt(t, t.event.result.facts)
  }

  function RevisionsOf(turns: seq<JournaledTurn>): seq<SourceRevision> {
    if turns == [] then []
    else var t := turns[|turns| - 1]; RevisionsOf(turns[..|turns| - 1]) + RevisionsAt(t, t.event.result.revisions)
  }

  // ----- what the reader accepts -----

  ghost predicate HasFactId(facts: seq<SourceFact>, id: Uuid) {
    exists f :: f in facts && f.fact.factId == id
  }

  ghost predicate HasRevisionId(revisions: seq<SourceRevision>, id: Uuid) {
    exists r :: r in revisions && r.revision.revisionId == id
  }

  ghost predicate SupersededIn(revisions: seq<SourceRevision>, id: Uuid) {
    exists r :: r in revisions && r.revision.previousFactId == Some(id)
  }

  /** The fact a revision says it supersedes: an earlier fact of the same session under the same key. */
  ghost predicate FitsSource(t: JournaledTurn, r: Revision, previous: SourceFact) {
    && r.previousFactId == Some(previous.fact.factId)
    && previous.fact.factId != r.replacementFactId
    && previous.fact.key == r.key
    && previous.session == t.event.sessionId
    && previous.version < t.version
    && previous.occurredAt <= t.occurredAt
  }

  ghost predicate SoundRevision(facts: seq<SourceFact>, earlier: seq<SourceRevision>, t: JournaledTurn, r: Revision) {
    && !HasRevisionId(earlier, r.revisionId)
    && (exists f :: f in t.event.result.facts && f.factId == r.replacementFactId && f.key == r.key)
    && (exists p :: p in facts && FitsSource(t, r, p))
    && !SupersededIn(earlier, r.previousFactId.value)
  }

  /** No fact read before the j-th of the turn has its identifier. */
  ghost predicate NewFact(t: JournaledTurn, facts: seq<SourceFact>, j: nat)
    requires j < |t.event.result.facts|
  {
    !HasFactId(facts + FactsAt(t, t.event.result.facts[..j]), t.event.result.facts[j].factId)
  }

  ghost predicate SoundTurn(facts: seq<SourceFact>, revisions: seq<SourceRevision>, t: JournaledTurn) {
    var added, revised := t.event.result.facts, t.event.result.revisions;
    && (forall j :: 0 <= j < |added| ==> NewFact(t, facts, j))
    && (forall j :: 0 <= j < |revised| ==>
          SoundRevision(facts + FactsAt(t, added), revisions + RevisionsAt(t, revised[..j]), t, revised[j]))
  }

  /** Every turn's facts are new and every revision supersedes, once, an earlier fact of its session and key. */
  ghost predicate Sound(turns: seq<JournaledTurn>) {
    turns != [] ==>
      var init := turns[..|turns| - 1];
      Sound(init) && SoundTurn(FactsOf(init), RevisionsOf(init), turns[|turns| - 1])
  }

  lemma {:induction false} SoundPrefix(turns: seq<JournaledTurn>, k: nat)
    requires Sound(turns) && k <= |turns|
    ensures Sound(turns[..k])
    decreases |turns|
  {
    if k < |turns| {
      SoundPrefix(turns[..|turns| - 1], k);
      assert turns[..|turns| - 1][..k] == turns[..k];
    } else {
      assert turns[..k] == turns;
    }
  }

  // ----- the reader -----

  /** The dictionary of facts by identifier, kept in step with the list. */
  ghost predicate Indexes(byId: map<Uuid, SourceFact>, facts: seq<SourceFact>) {
    && (forall f :: f in facts ==> f.fact.factId in byId && byId[f.fact.factId] == f)
    && (forall id :: id in byId ==> byId[id] in facts && byId[id].fact.factId == id)
  }

  lemma IndexFinds(byId: map<Uuid, SourceFact>, facts: seq<SourceFact>, id: Uuid)
    requires Indexes(byId, facts)
    ensures HasFactId(facts, id) <==> id in byId
  {
    if id in byId { assert byId[id] in facts; }
  }

  lemma IndexGrows(byId: map<Uuid, SourceFact>, facts: seq<SourceFact>, source: SourceFact)
    requires Indexes(byId, facts) && source.fact.factId !in byId
    ensures Indexes(byId[source.fact.factId := source], facts + [source])
  {
  }

  lemma FactsAtGrows(t: JournaledTurn, added: seq<Fact>, i: nat)
    requires i < |added|
    ensures FactsAt(t, added[..i + 1]) == FactsAt(t, added[..i]) + [FactAt(t, added[i])]
  {
  }

  lemma RevisionsAtGrows(t: JournaledTurn, revised: seq<Revision>, i: nat)
    requires i < |revised|
    ensures RevisionsAt(t, revised[..i + 1]) == RevisionsAt(t, revised[..i]) + [RevisionAt(t, revised[i])]
  {
  }

  lemma AppendOneMore<T>(a: seq<T>, b: seq<T>, x: T)
    ensures a + (b + [x]) == a + b + [x]
  {
  }

  /** Read one turn's facts into the list and the dictionary, refusing an identifier seen before. */
  method ReadFacts(t: JournaledTurn, facts0: seq<SourceFact>, byId0: map<Uuid, SourceFact>)
    returns (facts: seq<SourceFact>, byId: map<Uuid, SourceFact>, ok: bool)
    requires Indexes(byId0, facts0)
    ensures ok <==> forall j :: 0 <= j < |t.event.result.facts| ==> NewFact(t, facts0, j)
    ensures ok ==> facts == facts0 + FactsAt(t, t.event.result.facts) && Indexes(byId, facts)
  {
    var added := t.event.result.facts;
    facts, byId := facts0, byId0;
    for i := 0 to |added|
      invariant facts == facts0 + FactsAt(t, added[..i])
      invariant Indexes(byId, facts)
      invariant forall j :: 0 <= j < i ==> NewFact(t, facts0, j)
    {
      IndexFinds(byId, facts, added[i].factId);
      assert NewFact(t, facts0, i) <==> added[i].factId !in byId;
      if added[i].factId in byId { return facts, byId, false; }
      var source := FactAt(t, added[i]);
      FactsAtGrows(t, added, i);
      IndexGrows(byId, facts, source);
      AppendOneMore(facts0, FactsAt(t, added[..i]), source);
      facts, byId := facts + [source], byId[source.fact.factId := source];
    }
    assert added[..|added|] == added;
    ok := true;
  }

  /** The set of superseded facts and the set of revision identifiers, kept in step with the list. */
  ghost predicate Tracks(superseded: set<Uuid>, ids: set<Uuid>, revisions: seq<SourceRevision>) {
    && (forall id :: id in superseded <==> SupersededIn(revisions, id))
    && (forall id :: id in ids <==> HasRevisionId(revisions, id))
  }

  lemma TracksGrows(superseded: set<Uuid>, ids: set<Uuid>, revisions: seq<SourceRevision>, r: SourceRevision)
    requires Tracks(superseded, ids, revisions) && r.revision.previousFactId.Some?
    ensures Tracks(superseded + {r.revision.previousFactId.value}, ids + {r.revision.revisionId}, revisions + [r])
  {
    var grown := revisions + [r];
    assert r in grown;
    assert forall q :: q in grown <==> q in revisions || q == r;
    forall id | SupersededIn(revisions, id) ensures SupersededIn(grown, id) {
      var q :| q in revisions && q.revision.previousFactId == Some(id);
      assert q in grown;
    }
    forall id | HasRevisionId(revisions, id) ensures HasRevisionId(grown, id) {
      var q :| q in revisions && q.revision.revisionId == id;
      assert q in grown;
    }
  }

  /** The check of one revision, in the order the reader makes it. */
  method CheckRevision(t: JournaledTurn, r: Revision, facts: seq<SourceFact>, byId: map<Uuid, SourceFact>,
                       superseded: set<Uuid>, ids: set<Uuid>, earlier: seq<SourceRevision>)
    returns (problem: Option<KnowledgeCorruption>)
    requires Indexes(byId, facts) && Tracks(superseded, ids, earlier)
    requires forall f, g :: f in t.event.result.facts && g in t.event.result.facts && f.factId == g.factId ==> f == g
    ensures problem.None? <==> SoundRevision(facts, earlier, t, r)
  {
    if r.revisionId in ids { return Some(DuplicateRevision); }
    var turnFacts := map f | f in t.event.result.facts :: f.factId := f;
    if r.replacementFactId !in turnFacts || turnFacts[r.replacementFactId].key != r.key {
      return Some(ReplacementInconsistent);
    }
    if r.previousFactId.None? || r.previousFactId.value !in byId { return Some(SourceInconsistent); }
    var previousId := r.previousFactId.value;
    var previous := byId[previousId];
    assert previous.fact.factId == previousId;
    if previous.fact.factId == r.replacementFactId || previous.fact.key != r.key
       || previous.session != t.event.sessionId || previous.version >= t.version
    {
      return Some(SourceInconsistent);
    }
    if t.occurredAt < previous.occurredAt { return Some(TimestampPrecedes); }
    assert FitsSource(t, r, previous);
    problem := if previous.fact.factId in superseded then Some(SupersededTwice) else None;
  }

  method ReadRevisions(t: JournaledTurn, facts: seq<SourceFact>, byId: map<Uuid, SourceFact>,
                       revisions0: seq<SourceRevision>, superseded0: set<Uuid>, ids0: set<Uuid>)
    returns (revisions: seq<SourceRevision>, superseded: set<Uuid>, ids: set<Uuid>, problem: Option<KnowledgeCorruption>)
    requires Indexes(byId, facts) && Tracks(superseded0, ids0, revisions0)
    requires forall f, g :: f in t.event.result.facts && g in t.event.result.facts && f.factId == g.factId ==> f == g
    ensures problem.None? <==>
              forall j :: 0 <= j < |t.event.result.revisions| ==>
                SoundRevision(facts, revisions0 + RevisionsAt(t, t.event.result.revisions[..j]), t,
                              t.event.result.revisions[j])
    ensures problem.None? ==>
              revisions == revisions0 + RevisionsAt(t, t.event.result.revisions) && Tracks(superseded, ids, revisions)
  {
    var revised := t.event.result.revisions;
    revisions, superseded, ids := revisions0, superseded0, ids0;
    for i := 0 to |revised|
      invariant revisions == revisions0 + RevisionsAt(t, revised[..i])
      invariant Tracks(superseded, ids, revisions)
      invariant forall j :: 0 <= j < i ==>
                  SoundRevision(facts, revisions0 + RevisionsAt(t, revised[..j]), t, revised[j])
    {
      var r := revised[i];
      problem := CheckRevision(t, r, facts, byId, superseded, ids, revisions);
      if problem.Some? { return; }
      TracksGrows(superseded, ids, revisions, RevisionAt(t, r));
      RevisionsAtGrows(t, revised, i);
      AppendOneMore(revisions0, RevisionsAt(t, revised[..i]), RevisionAt(t, r));
      revisions := revisions + [RevisionAt(t, r)];
      superseded, ids := superseded + {r.previousFactId.value}, ids + {r.revisionId};
    }
    assert revised[..|revised|] == revised;
    problem := None;
  }

  lemma NewFactsDistinct(t: JournaledTurn, facts: seq<SourceFact>)
    requires forall j :: 0 <= j < |t.event.result.facts| ==> NewFact(t, facts, j)
    ensures forall f, g :: f in t.event.result.facts && g in t.event.result.facts && f.factId == g.factId ==> f == g
  {
    var added := t.event.result.facts;
    forall i, j | 0 <= i < j < |added| ensures added[i].factId != added[j].factId {
      assert NewFact(t, facts, j);
      var before := facts + FactsAt(t, added[..j]);
      assert before[|facts| + i] == FactAt(t, added[i]);
      assert before[|facts| + i] in before;
    }
  }

  /** Read one turn. It reports corruption exactly of a turn unsound after what was read before it. */
  method ReadTurn(t: JournaledTurn, facts0: seq<SourceFact>, revisions0: seq<SourceRevision>,
                  byId0: map<Uuid, SourceFact>, superseded0: set<Uuid>, ids0: set<Uuid>)
    returns (facts: seq<SourceFact>, revisions: seq<SourceRevision>, byId: map<Uuid, SourceFact>, superseded: set<Uuid>,
             ids: set<Uuid>, problem: Option<KnowledgeCorruption>)
    requires Indexes(byId0, facts0) && Tracks(superseded0, ids0, revisions0)
    ensures problem.None? <==> SoundTurn(facts0, revisions0, t)
    ensures problem.None? ==>
              && facts == facts0 + FactsAt(t, t.event.result.facts)
              && revisions == revisions0 + RevisionsAt(t, t.event.result.revisions)
              && Indexes(byId, facts) && Tracks(superseded, ids, revisions)
  {
    revisions, superseded, ids := revisions0, superseded0, ids0;
    var ok;
    facts, byId, ok := ReadFacts(t, facts0, byId0);
    if !ok { return facts, revisions, byId, superseded, ids, Some(DuplicateFact); }
    NewFactsDistinct(t, facts0);
    revisions, superseded, ids, problem := ReadRevisions(t, facts, byId, revisions0, superseded0, ids0);
  }

  /** Read all turns. It refuses for capacity, or reports corruption exactly of an unsound journal, or returns
      every fact and revision in order. */
  method ReadTurns(turns: seq<JournaledTurn>, maxFacts: nat, maxRevisions: nat)
    returns (r: Result<(seq<SourceFact>, seq<SourceRevision>), KnowledgeError>)
    ensures match r
            case Success((facts, revisions)) =>
              && Sound(turns) && facts == FactsOf(turns) && revisions == RevisionsOf(turns)
              && |facts| <= maxFacts && |revisions| <= maxRevisions
            case Failure(CorruptKnowledge(_)) => !Sound(turns)
            case Failure(e) => (e.FactCapacityReached? && |FactsOf(turns)| > maxFacts)
                               || (e.RevisionCapacityReached? && |RevisionsOf(turns)| > maxRevisions)
  {
    var facts: seq<SourceFact>, revisions: seq<SourceRevision> := [], [];
    var byId: map<Uuid, SourceFact> := map[];
    var superseded: set<Uuid>, ids: set<Uuid> := {}, {};
    for i := 0 to |turns|
      invariant facts == FactsOf(turns[..i]) && revisions == RevisionsOf(turns[..i])
      invariant Indexes(byId, facts) && Tracks(superseded, ids, revisions)
      invariant Sound(turns[..i]) && |facts| <= maxFacts && |revisions| <= maxRevisions
    {
      var t := turns[i];
      assert turns[..i + 1][..i] == turns[..i];
      if |facts| + |t.event.result.facts| > maxFacts {
        CountsGrow(turns, i + 1);
        return Failure(FactCapacityReached);
      }
      if |revisions| + |t.event.result.revisions| > maxRevisions {
        CountsGrow(turns, i + 1);
        return Failure(RevisionCapacityReached);
      }
      var problem;
      facts, revisions, byId, superseded, ids, problem := ReadTurn(t, facts, revisions, byId, superseded, ids);
      if problem.Some? {
        UnsoundStays(turns, i + 1);
        return Failure(CorruptKnowledge(problem.value));
      }
    }
    assert turns[..|turns|] == turns;
    r := Success((facts, revisions));
  }

  lemma UnsoundStays(turns: seq<JournaledTurn>, k: nat)
    requires k <= |turns| && !Sound(turns[..k])
    ensures !Sound(turns)
  {
    if Sound(turns) { SoundPrefix(turns, k); }
  }

  lemma {:induction false} CountsGrow(turns: seq<JournaledTurn>, k: nat)
    requires k <= |turns|
    ensures |FactsOf(turns[..k])| <= |FactsOf(turns)| && |RevisionsOf(turns[..k])| <= |RevisionsOf(turns)|
    decreases |turns| - k
  {
    if k < |turns| {
      assert turns[..k + 1][..k] == turns[..k];
      CountsGrow(turns, k + 1);
    } else {
      assert turns[..k] == turns;
    }
  }

  // ----- sessions -----

  predicate Increasing(ids: seq<Uuid>) {
    forall i, j :: 0 <= i < j < |ids| ==> ids[i] < ids[j]
  }

  /** An identifier added to an increasing list, in its place. */
  function Insert(ids: seq<Uuid>, id: Uuid): seq<Uuid> {
    if ids == [] || id < ids[0] then [id] + ids
    else if id == ids[0] then ids
    else [ids[0]] + Insert(ids[1..], id)
  }

  lemma {:induction false} InsertKeeps(ids: seq<Uuid>, id: Uuid)
    requires Increasing(ids)
    ensures Increasing(Insert(ids, id)) && forall x :: x in Insert(ids, id) <==> x == id || x in ids
  {
    if ids != [] && id > ids[0] {
      var rest := Insert(ids[1..], id);
      InsertKeeps(ids[1..], id);
      assert ids == [ids[0]] + ids[1..];
      PrependKeeps(ids[0], rest);
    }
  }

  lemma PrependKeeps(first: Uuid, rest: seq<Uuid>)
    requires Increasing(rest) && forall x :: x in rest ==> first < x
    ensures Increasing([first] + rest)
  {
    var all := [first] + rest;
    forall i, j | 0 <= i < j < |all| ensures all[i] < all[j] {
      assert all[j] in rest;
    }
  }

  /** Each session with a turn, and only those, under its events in order. */
  ghost predicate Grouped(grouped: map<Uuid, seq<TurnEvent>>, turns: seq<JournaledTurn>) {
    forall s :: if s in grouped then grouped[s] == Session(turns, s) != [] else Session(turns, s) == []
  }

  function AddTurn(grouped: map<Uuid, seq<TurnEvent>>, e: TurnEvent): map<Uuid, seq<TurnEvent>> {
    grouped[e.sessionId := (if e.sessionId in grouped then grouped[e.sessionId] else []) + [e]]
  }

  lemma GroupedGrows(grouped: map<Uuid, seq<TurnEvent>>, turns: seq<JournaledTurn>, i: nat)
    requires i < |turns| && Grouped(grouped, turns[..i])
    ensures Grouped(AddTurn(grouped, turns[i].event), turns[..i + 1])
  {
    var e := turns[i].event;
    assert turns[..i + 1][..i] == turns[..i];
    forall s ensures Session(turns[..i + 1], s) == Session(turns[..i], s) + if s == e.sessionId then [e] else [] {}
  }

  /** Group the turns by session in one pass, with the session identifiers in order. */
  method GroupBySession(turns: seq<JournaledTurn>) returns (grouped: map<Uuid, seq<TurnEvent>>, ids: seq<Uuid>)
    ensures Increasing(ids) && forall s :: s in ids <==> s in grouped
    ensures forall s :: s in grouped <==> Session(turns, s) != []
    ensures forall s :: s in grouped ==> grouped[s] == Session(turns, s)
  {
    grouped, ids := map[], [];
    for i := 0 to |turns|
      invariant Increasing(ids) && forall s :: s in ids <==> s in grouped
      invariant Grouped(grouped, turns[..i])
    {
      GroupedGrows(grouped, turns, i);
      grouped := AddTurn(grouped, turns[i].event);
      InsertKeeps(ids, turns[i].event.sessionId);
      ids := Insert(ids, turns[i].event.sessionId);
    }
    assert turns[..|turns|] == turns;
  }
}
