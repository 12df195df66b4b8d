/** What the two lanes share: observations written by the fast lane, a conclusion written by the slow one. */
module Briefings {
  import opened Common

  const MAX_OBSERVATIONS: nat := 200
  const MAX_VALUE_CHARS: nat := 300

  datatype Topic = BusinessType | RequestedFeatures | BudgetStated | Timeline

  datatype Observation = Observation(topic: Topic, value: string, version: nat)

  datatype SitePlan = SitePlan(competitors: seq<string>, differentiator: string, pages: seq<string>)

  datatype Deliberation = Deliberation(plan: SitePlan, derivedFrom: nat, modelId: string)

  datatype BriefingError = EmptyValue | AheadOfFacts

  /** The briefing as a value. */
  datatype Board = Board(observations: seq<Observation>, version: nat, deliberation: Option<Deliberation>) {

    /** The stored conclusion, when nothing has been observed since the version it was drawn from. */
    function Current(): Option<Deliberation> {
      if deliberation.Some? && deliberation.value.derivedFrom >= version then deliberation else None
    }

    function KnownTopics(): set<Topic> {
      set o | o in observations :: o.topic
    }

    /** Observations are few, numbered in order, and no number or conclusion is ahead of the version counter. */
    ghost predicate Valid() {
      && |observations| <= MAX_OBSERVATIONS
      && Numbered(observations, version)
      && (deliberation.Some? ==> deliberation.value.derivedFrom <= version)
    }
  }

  function Clipped(said: string): string {
    if |said| > MAX_VALUE_CHARS then said[..MAX_VALUE_CHARS] else said
  }

  /** The board after observing `said`, a value already stripped of surrounding blanks. The counter moves first,
      so it moves even when the value turns out to be empty and the observation is refused. */
  function Observed(b: Board, topic: Topic, said: string): Board {
    var next := b.(version := b.version + 1);
    if said == "" then next
    else next.(observations := LastN(b.observations + [Observation(topic, Clipped(said), next.version)], MAX_OBSERVATIONS))
  }

  /** Whether the board already holds a conclusion drawn from a later version. */
  predicate Overtaken(b: Board, derivedFrom: nat) {
    b.deliberation.Some? && derivedFrom < b.deliberation.value.derivedFrom
  }

  /** The board after a conclusion: refused when ahead of the facts, dropped when already overtaken. */
  function Concluded(b: Board, d: Deliberation): (r: Board)
    ensures r.observations == b.observations && r.version == b.version
  {
    if d.derivedFrom > b.version then b
    else if Overtaken(b, d.derivedFrom) then b
    else b.(deliberation := Some(d))
  }

  /** Observations are numbered in order, none beyond the counter, none empty. */
  ghost predicate Numbered(observations: seq<Observation>, version: nat) {
    && (forall o :: o in observations ==> o.version <= version && 0 < |o.value| <= MAX_VALUE_CHARS)
    && (forall i, j :: 0 <= i < j < |observations| ==> observations[i].version < observations[j].version)
  }

  lemma AppendNumbered(observations: seq<Observation>, version: nat, o: Observation)
    requires Numbered(observations, version) && o.version == version + 1 && 0 < |o.value| <= MAX_VALUE_CHARS
    ensures Numbered(observations + [o], version + 1)
  {
    var all := observations + [o];
    forall i, j | 0 <= i < j < |all| ensures all[i].version < all[j].version {
      assert all[i] in observations;
    }
  }

  lemma TrimNumbered(observations: seq<Observation>, version: nat, n: nat)
    requires Numbered(observations, version)
    ensures Numbered(LastN(observations, n), version)
  {
  }

  lemma ObservedKeeps(b: Board, topic: Topic, said: string)
    requires b.Valid()
    ensures Observed(b, topic, said).Valid()
    ensures Observed(b, topic, said).version > b.version
  {
    if said != "" {
      var o := Observation(topic, Clipped(said), b.version + 1);
      AppendNumbered(b.observations, b.version, o);
      TrimNumbered(b.observations + [o], b.version + 1, MAX_OBSERVATIONS);
    }
  }

  /** What is observed becomes the newest observation, under the new version: all of it, or as much as there is room for. */
  lemma ObservedIsNewest(b: Board, topic: Topic, said: string)
    requires said != ""
    ensures var all := Observed(b, topic, said).observations;
            && all != [] && all[|all| - 1].topic == topic && all[|all| - 1].version == Observed(b, topic, said).version
            && all[|all| - 1].value <= said
            && |all[|all| - 1].value| == (if |said| <= MAX_VALUE_CHARS then |said| else MAX_VALUE_CHARS)
            && all[..|all| - 1] == LastN(b.observations, MAX_OBSERVATIONS - 1)
  {
  }

  /** A conclusion is stored exactly when it is neither ahead of the facts nor older than the one already held, and the
      board stays valid whatever is offered. */
  lemma StoredIff(b: Board, d: Deliberation)
    requires b.Valid()
    ensures Concluded(b, d).Valid()
    ensures Concluded(b, d).deliberation == Some(d) <==>
            || b.deliberation == Some(d)
            || (d.derivedFrom <= b.version && (b.deliberation.Some? ==> b.deliberation.value.derivedFrom <= d.derivedFrom))
    ensures Concluded(b, d).deliberation == Some(d) || Concluded(b, d) == b
  {
  }

  class Briefing {
    var observations: seq<Observation>
    var version: nat
    var deliberation: Option<Deliberation>

    function Snapshot(): Board
      reads this
    {
      Board(observations, version, deliberation)
    }

    constructor ()
      ensures Snapshot() == Board([], 0, None)
      ensures Snapshot().Valid()
    {
      observations, version, deliberation := [], 0, None;
    }

    /** Record something the buyer established. The fast lane's only write; never touches the conclusion. */
    method Observe(topic: Topic, said: string) returns (r: Result<Observation, BriefingError>)
      requires Snapshot().Valid()
      modifies this
      ensures Snapshot() == Observed(old(Snapshot()), topic, said) && Snapshot().Valid()
      ensures r.Failure? <==> said == ""
      ensures r.Failure? ==> r.error == EmptyValue && Snapshot() == old(Snapshot()).(version := old(version) + 1)
      ensures r.Success? ==> observations == LastN(old(observations) + [r.value], MAX_OBSERVATIONS)
      ensures r.Success? ==> observations != [] && observations[|observations| - 1] == r.value
      ensures r.Success? ==> r.value.topic == topic && r.value.version == version && r.value.value <= said
      ensures r.Success? && |said| <= MAX_VALUE_CHARS ==> r.value.value == said
      ensures deliberation == old(deliberation)
    {
      ObservedKeeps(Snapshot(), topic, said);
      version := version + 1;
      if said == "" { return Failure(EmptyValue); }
      var observation := Observation(topic, Clipped(said), version);
      Remember(observation);
      return Success(observation);
    }

    method Remember(observation: Observation)
      modifies this`observations
      ensures observations == LastN(old(observations) + [observation], MAX_OBSERVATIONS)
      ensures observations != [] && observations[|observations| - 1] == observation
    {
      observations := observations + [observation];
      if |observations| > MAX_OBSERVATIONS {
        observations := observations[|observations| - MAX_OBSERVATIONS..];
      }
    }

    /** Store a conclusion unless a newer one is already there. The slow lane's only write. */
    method Conclude(d: Deliberation) returns (r: Result<bool, BriefingError>)
      requires Snapshot().Valid()
      modifies this
      ensures Snapshot() == Concluded(old(Snapshot()), d) && Snapshot().Valid()
      ensures r.Failure? <==> d.derivedFrom > version
      ensures r.Success? ==> (r.value <==> !Overtaken(old(Snapshot()), d.derivedFrom))
      ensures deliberation == if r == Success(true) then Some(d) else old(deliberation)
      ensures observations == old(observations) && version == old(version)
    {
      if d.derivedFrom > version { return Failure(AheadOfFacts); }
      if deliberation.Some? && d.derivedFrom < deliberation.value.derivedFrom { return Success(false); }
      deliberation := Some(d);
      return Success(true);
    }

    /** The conclusion only if it still describes the buyer being talked to. */
    method CurrentDeliberation() returns (r: Option<Deliberation>)
      ensures r == Snapshot().Current()
    {
      if deliberation.None? || deliberation.value.derivedFrom < version { return None; }
      return deliberation;
    }
  }
}
