/** The slow lane: deliberations started, stopped between tokens, answered or cancelled, while the fast lane goes on
    observing and taking turns. */
module Deliberations {
  import opened Common
  import opened Briefings
  import opened Lanes

  /** How the awaited generation ends. The answer's strings are already stripped of surrounding blanks. */
  datatype Outcome = Answered(raw: Option<SitePlan>) | Preempted | Failed

  function NonEmpty(strings: seq<string>): (r: seq<string>)
    ensures forall s :: s in r <==> s in strings && s != ""
  {
    if strings == [] then [] else (if strings[0] == "" then [] else [strings[0]]) + NonEmpty(strings[1..])
  }

  predicate WholePlan(plan: SitePlan) {
    plan.competitors != [] && plan.differentiator != "" && plan.pages != []
  }

  /** A plan, or nothing: one empty field makes the whole answer worthless. */
  function ToPlan(raw: Option<SitePlan>): (plan: Option<SitePlan>)
    ensures plan.Some? ==> WholePlan(plan.value)
  {
    if raw.None? then None
    else
      var plan := SitePlan(NonEmpty(raw.value.competitors), raw.value.differentiator, NonEmpty(raw.value.pages));
      if WholePlan(plan) then Some(plan) else None
  }

  /** An answer is a plan exactly when it has a competitor, a differentiator and a page to name. */
  lemma ToPlanIff(raw: Option<SitePlan>)
    ensures ToPlan(raw).Some? <==>
            && raw.Some? && raw.value.differentiator != ""
            && (exists s :: s in raw.value.competitors && s != "") && (exists s :: s in raw.value.pages && s != "")
  {
    if raw.Some? {
      SomeNonEmpty(raw.value.competitors);
      SomeNonEmpty(raw.value.pages);
    }
  }

  lemma SomeNonEmpty(strings: seq<string>)
    ensures NonEmpty(strings) != [] <==> exists s :: s in strings && s != ""
  {
    var kept := NonEmpty(strings);
    if kept != [] { assert kept[0] in kept; }
  }

  function PlanOf(outcome: Outcome): Option<SitePlan> {
    if outcome.Answered? then ToPlan(outcome.raw) else None
  }

  /** What Deliberate holds across its await: the version and facts it read before generating. */
  datatype Asked = Asked(derivedFrom: nat, facts: seq<Observation>)

  class Deliberator {
    const scheduler: LaneScheduler
    const modelId: string
    const minTopics: nat
    var running: bool

    constructor (scheduler: LaneScheduler, modelId: string, minTopics: nat)
      requires minTopics >= 1
      ensures !running && this.scheduler == scheduler && this.modelId == modelId && this.minTopics == minTopics
    {
      this.scheduler, this.modelId, this.minTopics, running := scheduler, modelId, minTopics, false;
    }

    method ShouldDeliberate(briefing: Briefing) returns (yes: bool)
      ensures yes <==>
              && !running && scheduler.turnDepth == 0
              && minTopics <= |briefing.Snapshot().KnownTopics()| && briefing.Snapshot().Current().None?
    {
      if running || scheduler.turnDepth > 0 { return false; }
      if |set o | o in briefing.observations :: o.topic| < minTopics { return false; }
      var current := briefing.CurrentDeliberation();
      return current.None?;
    }

    /** Up to the model call: read the picture first, then claim the lane. */
    method Begin(briefing: Briefing) returns (asked: Option<Asked>)
      modifies this, scheduler
      ensures asked == if old(running) || briefing.observations == [] then None
                       else Some(Asked(briefing.version, briefing.observations))
      ensures running <==> old(running) || asked.Some?
      ensures scheduler.Stats() == if asked.Some? then old(scheduler.Stats()).(started := old(scheduler.started) + 1)
                                   else old(scheduler.Stats())
    {
      if running { return None; }
      var derivedFrom, facts := briefing.version, briefing.observations;
      if facts == [] { return None; }
      running := true;
      scheduler.DeliberationStarted();
      return Some(Asked(derivedFrom, facts));
    }

    /** From the model's answer on. Only a whole plan reaches the briefing. */
    method Complete(briefing: Briefing, asked: Asked, outcome: Outcome)
      returns (r: Result<Option<Deliberation>, BriefingError>)
      requires briefing.Snapshot().Valid()
      modifies this, scheduler, briefing
      ensures !running
      ensures var plan := PlanOf(outcome);
              var was := old(briefing.Snapshot());
              if plan.None? then
                && briefing.Snapshot() == was && r == Success(None)
                && scheduler.Stats() == Finished(old(scheduler.Stats()), true)
              else
                var d := Deliberation(plan.value, asked.derivedFrom, modelId);
                && briefing.Snapshot() == Concluded(was, d)
                && (r.Failure? <==> asked.derivedFrom > was.version)
                && (r.Success? ==>
                      && scheduler.Stats() == Finished(old(scheduler.Stats()), false)
                      && r.value == if Overtaken(was, asked.derivedFrom) then None else Some(d))
    {
      running := false;
      var plan := PlanOf(outcome);
      if plan.None? {
        scheduler.DeliberationFinished(true);
        return Success(None);
      }
      var d := Deliberation(plan.value, asked.derivedFrom, modelId);
      var stored := briefing.Conclude(d);
      if stored.Failure? { return Failure(stored.error); }
      scheduler.DeliberationFinished(false);
      return Success(if stored.value then Some(d) else None);
    }
  }

  // ---- Any number of deliberations, interleaved with observations and turns. ----

  /** Awaited, cancelled while its worker thread generates on, or ended with a plan or without. */
  datatype Status = Awaiting | Orphaned | Ended(plan: Option<SitePlan>)

  /** One generation. `cleared`: the worker looked, may go on, and has not yet produced the token.
      `stopped`: it looked and must not. */
  datatype Flight = Flight(owner: int, asked: Asked, status: Status, cleared: bool, stopped: bool, tokens: nat)

  datatype World = World(board: Board, lanes: Counters, flights: seq<Flight>, running: set<int>, cancelled: nat)

  predicate Initial(w: World) {
    w == World(Board([], 0, None), Counters(0, 0, 0, 0, 0, 0), [], {}, 0)
  }

  datatype Action =
    | Observe(topic: Topic, said: string)
    | BeginTurn
    | EndTurn
    | Start(owner: int)
    | Look(f: nat, expired: bool)
    | Token(f: nat)
    | Finish(f: nat, outcome: Outcome, modelId: string)
    | Cancel(f: nat)

  predicate Enabled(w: World, a: Action) {
    match a
    case Observe(_, _) => true
    case BeginTurn => true
    case EndTurn => w.lanes.depth > 0
    case Start(owner) => owner !in w.running && w.board.observations != []
    case Look(f, _) => f < |w.flights| && !w.flights[f].status.Ended? && !w.flights[f].cleared && !w.flights[f].stopped
    case Token(f) => f < |w.flights| && !w.flights[f].status.Ended? && w.flights[f].cleared
    case Finish(f, outcome, _) =>
      && f < |w.flights| && w.flights[f].status.Awaiting?
      && (outcome.Answered? ==> !w.flights[f].stopped && !w.flights[f].cleared)
      && (outcome.Preempted? ==> w.flights[f].stopped)
    case Cancel(f) => f < |w.flights| && w.flights[f].status.Awaiting?
  }

  function Step(w: World, a: Action): World
    requires Enabled(w, a)
  {
    match a
    case Observe(topic, said) => w.(board := Observed(w.board, topic, said))
    case BeginTurn => w.(lanes := Entered(w.lanes))
    case EndTurn => w.(lanes := Left(w.lanes))
    case Start(owner) =>
      w.(lanes := w.lanes.(started := w.lanes.started + 1),
         flights := w.flights + [Flight(owner, Asked(w.board.version, w.board.observations), Awaiting, false, false, 0)],
         running := w.running + {owner})
    case Look(f, expired) =>
      var go := w.lanes.depth == 0 && !expired;
      w.(lanes := Looked(w.lanes), flights := w.flights[f := w.flights[f].(cleared := go, stopped := !go)])
    case Token(f) =>
      w.(flights := w.flights[f := w.flights[f].(cleared := false, tokens := w.flights[f].tokens + 1)])
    case Finish(f, outcome, modelId) =>
      var flight, plan := w.flights[f], PlanOf(outcome);
      w.(board := if plan.None? then w.board
                  else Concluded(w.board, Deliberation(plan.value, flight.asked.derivedFrom, modelId)),
         lanes := Finished(w.lanes, plan.None?),
         flights := w.flights[f := flight.(status := Ended(plan))],
         running := w.running - {flight.owner})
    case Cancel(f) =>
      w.(flights := w.flights[f := w.flights[f].(status := Orphaned)],
         running := w.running - {w.flights[f].owner},
         cancelled := w.cancelled + 1)
  }

  ghost predicate Legal(w: World, actions: seq<Action>)
    decreases |actions|
  {
    actions != [] ==> Enabled(w, actions[0]) && Legal(Step(w, actions[0]), actions[1..])
  }

  function Run(w: World, actions: seq<Action>): World
    requires Legal(w, actions)
    decreases |actions|
  {
    if actions == [] then w else Run(Step(w, actions[0]), actions[1..])
  }

  // ---- What every step keeps. ----

  function AwaitedCount(flights: seq<Flight>): nat {
    if flights == [] then 0
    else AwaitedCount(flights[..|flights| - 1]) + if flights[|flights| - 1].status.Awaiting? then 1 else 0
  }

  lemma {:induction false} AwaitedCountUpdates(flights: seq<Flight>, f: nat, flight: Flight)
    requires f < |flights|
    ensures AwaitedCount(flights[f := flight]) ==
            AwaitedCount(flights) + (if flight.status.Awaiting? then 1 else 0)
            - (if flights[f].status.Awaiting? then 1 else 0)
  {
    var init := flights[..|flights| - 1];
    if f < |init| {
      AwaitedCountUpdates(init, f, flight);
      assert flights[f := flight][..|init|] == init[f := flight];
    } else {
      assert flights[f := flight][..|init|] == init;
    }
  }

  /** A flight asked at the present version asked about exactly the present observations. */
  ghost predicate Grounded(b: Board, asked: Asked) {
    && asked.derivedFrom <= b.version
    && (asked.derivedFrom == b.version ==> asked.facts == b.observations)
  }

  /** The flight is one that concluded d: never told to stop, and its plan is whole. */
  predicate Concluder(flight: Flight, d: Deliberation) {
    flight.status == Ended(Some(d.plan)) && flight.asked.derivedFrom == d.derivedFrom && !flight.stopped && WholePlan(d.plan)
  }

  ghost predicate BoardInv(w: World) {
    && w.board.Valid()
    && (forall f :: 0 <= f < |w.flights| ==> Grounded(w.board, w.flights[f].asked))
    && (w.board.deliberation.Some? ==>
          exists f :: 0 <= f < |w.flights| && Concluder(w.flights[f], w.board.deliberation.value))
  }

  ghost predicate RunningInv(w: World) {
    OwnersRun(w.flights, w.running)
  }

  ghost predicate AwaitedBy(flights: seq<Flight>, owner: int) {
    exists f :: 0 <= f < |flights| && flights[f].owner == owner && flights[f].status.Awaiting?
  }

  /** The deliberators marked running are exactly those that await a generation, and none awaits two. */
  ghost predicate OwnersRun(flights: seq<Flight>, running: set<int>) {
    && (forall o :: o in running <==> AwaitedBy(flights, o))
    && (forall f, g :: 0 <= f < |flights| && 0 <= g < |flights| && f != g
                       && flights[f].status.Awaiting? && flights[g].status.Awaiting? ==>
          flights[f].owner != flights[g].owner)
  }

  ghost predicate CountInv(w: World) {
    && w.lanes.started == |w.flights|
    && w.lanes.started == w.lanes.completed + w.lanes.preempted + w.cancelled + AwaitedCount(w.flights)
  }

  lemma BoardKept(w: World, a: Action)
    requires BoardInv(w) && Enabled(w, a)
    ensures BoardInv(Step(w, a))
    ensures Step(w, a).board.version >= w.board.version
    ensures w.board.deliberation.Some? ==>
              && Step(w, a).board.deliberation.Some?
              && Step(w, a).board.deliberation.value.derivedFrom >= w.board.deliberation.value.derivedFrom
  {
    var next := Step(w, a);
    if a.Observe? { ObservedKeeps(w.board, a.topic, a.said); }
    if next.board.deliberation.Some? {
      if next.board.deliberation == w.board.deliberation {
        var f :| 0 <= f < |w.flights| && Concluder(w.flights[f], w.board.deliberation.value);
        assert Concluder(next.flights[f], next.board.deliberation.value);
      } else {
        assert a.Finish? && Concluder(next.flights[a.f], next.board.deliberation.value);
      }
    }
  }

  lemma AwaitedByIff(flights: seq<Flight>, f: nat, flight: Flight, owner: int)
    requires f < |flights| && flight.owner == flights[f].owner
    requires forall g :: 0 <= g < |flights| && g != f && flights[g].status.Awaiting? ==>
               !(flights[f].status.Awaiting? && flights[g].owner == flights[f].owner)
    ensures flight.status.Awaiting? == flights[f].status.Awaiting? ==>
              (AwaitedBy(flights[f := flight], owner) <==> AwaitedBy(flights, owner))
    ensures flights[f].status.Awaiting? && !flight.status.Awaiting? ==>
              (AwaitedBy(flights[f := flight], owner) <==> AwaitedBy(flights, owner) && owner != flight.owner)
  {
    var next := flights[f := flight];
    if AwaitedBy(flights, owner) {
      var g :| 0 <= g < |flights| && flights[g].owner == owner && flights[g].status.Awaiting?;
      assert next[g].owner == owner;
    }
    if AwaitedBy(next, owner) {
      var g :| 0 <= g < |next| && next[g].owner == owner && next[g].status.Awaiting?;
      assert flights[g].owner == owner;
    }
  }

  lemma UpdateRuns(flights: seq<Flight>, running: set<int>, f: nat, flight: Flight)
    requires OwnersRun(flights, running) && f < |flights| && flight.owner == flights[f].owner
    requires flight.status.Awaiting? ==> flights[f].status.Awaiting?
    ensures OwnersRun(flights[f := flight],
                      if flights[f].status.Awaiting? && !flight.status.Awaiting? then running - {flight.owner} else running)
  {
    var next := if flights[f].status.Awaiting? && !flight.status.Awaiting? then running - {flight.owner} else running;
    forall o ensures o in next <==> AwaitedBy(flights[f := flight], o) {
      AwaitedByIff(flights, f, flight, o);
    }
  }

  lemma StartRuns(flights: seq<Flight>, running: set<int>, flight: Flight)
    requires OwnersRun(flights, running) && flight.owner !in running && flight.status.Awaiting?
    ensures OwnersRun(flights + [flight], running + {flight.owner})
  {
    var next := flights + [flight];
    forall o ensures o in running + {flight.owner} <==> AwaitedBy(next, o) {
      if AwaitedBy(flights, o) {
        var g :| 0 <= g < |flights| && flights[g].owner == o && flights[g].status.Awaiting?;
        assert next[g].owner == o;
      }
      assert next[|flights|].owner == flight.owner;
    }
    forall f | 0 <= f < |flights| && flights[f].status.Awaiting? ensures flights[f].owner != flight.owner {
      assert AwaitedBy(flights, flights[f].owner);
    }
  }

  lemma RunningKept(w: World, a: Action)
    requires RunningInv(w) && Enabled(w, a)
    ensures RunningInv(Step(w, a))
  {
    var next := Step(w, a);
    if a.Start? {
      StartRuns(w.flights, w.running, next.flights[|w.flights|]);
    } else if a.Look? || a.Token? || a.Finish? || a.Cancel? {
      UpdateRuns(w.flights, w.running, a.f, next.flights[a.f]);
    }
  }

  lemma CountKept(w: World, a: Action)
    requires CountInv(w) && Enabled(w, a)
    ensures CountInv(Step(w, a))
  {
    if a.Start? {
      StartCounts(w, a);
    } else if a.Look? || a.Token? || a.Finish? || a.Cancel? {
      UpdateCounts(w, a);
    }
  }

  lemma StartCounts(w: World, a: Action)
    requires CountInv(w) && Enabled(w, a) && a.Start?
    ensures CountInv(Step(w, a))
  {
    assert Step(w, a).flights[..|w.flights|] == w.flights;
  }

  lemma UpdateCounts(w: World, a: Action)
    requires CountInv(w) && Enabled(w, a) && (a.Look? || a.Token? || a.Finish? || a.Cancel?)
    ensures CountInv(Step(w, a))
  {
    AwaitedCountUpdates(w.flights, a.f, Step(w, a).flights[a.f]);
  }

  ghost predicate Inv(w: World) {
    BoardInv(w) && RunningInv(w) && CountInv(w)
  }

  lemma StepKeeps(w: World, a: Action)
    requires Inv(w) && Enabled(w, a)
    ensures Inv(Step(w, a))
  {
    BoardKept(w, a);
    RunningKept(w, a);
    CountKept(w, a);
  }

  lemma {:induction false} EveryRunKeeps(w: World, actions: seq<Action>)
    requires Inv(w) && Legal(w, actions)
    ensures Inv(Run(w, actions))
    decreases |actions|
  {
    if actions != [] {
      StepKeeps(w, actions[0]);
      EveryRunKeeps(Step(w, actions[0]), actions[1..]);
    }
  }

  lemma ReachableBoard(start: World, actions: seq<Action>) returns (w: World)
    requires Initial(start) && Legal(start, actions)
    ensures w == Run(start, actions) && BoardInv(w)
  {
    assert Inv(start);
    EveryRunKeeps(start, actions);
    w := Run(start, actions);
  }

  lemma ReachableCounts(start: World, actions: seq<Action>) returns (w: World)
    requires Initial(start) && Legal(start, actions)
    ensures w == Run(start, actions) && CountInv(w)
  {
    assert Inv(start);
    EveryRunKeeps(start, actions);
    w := Run(start, actions);
  }

  lemma ReachableRunning(start: World, actions: seq<Action>) returns (w: World)
    requires Initial(start) && Legal(start, actions)
    ensures w == Run(start, actions) && RunningInv(w)
  {
    assert Inv(start);
    EveryRunKeeps(start, actions);
    w := Run(start, actions);
  }

  // ---- The guarantees, over every run. ----

  ghost predicate GroundedPlan(w: World) {
    var current := w.board.Current();
    current.Some? ==>
      exists f :: 0 <= f < |w.flights| && Concluder(w.flights[f], current.value)
                  && w.flights[f].asked.facts == w.board.observations
  }

  /** A plan returned as current was concluded by a generation that was never told to stop, asked about exactly the
      observations now on the board - however many were trimmed in between - and is whole. */
  lemma CurrentPlanIsGrounded(start: World, actions: seq<Action>)
    requires Initial(start) && Legal(start, actions)
    ensures GroundedPlan(Run(start, actions))
  {
    var w := ReachableBoard(start, actions);
    var current := w.board.Current();
    if current.Some? {
      var f :| 0 <= f < |w.flights| && Concluder(w.flights[f], current.value);
      assert Grounded(w.board, w.flights[f].asked);
    }
  }

  /** The stored conclusion's version never goes back and never passes the version counter. */
  lemma {:induction false} ConclusionsOnlyAdvance(w: World, actions: seq<Action>)
    requires Inv(w) && Legal(w, actions)
    ensures var end := Run(w, actions);
            && end.board.version >= w.board.version
            && (w.board.deliberation.Some? ==>
                  && end.board.deliberation.Some?
                  && w.board.deliberation.value.derivedFrom <= end.board.deliberation.value.derivedFrom <= end.board.version)
    decreases |actions|
  {
    EveryRunKeeps(w, actions);
    if actions != [] {
      StepKeeps(w, actions[0]);
      BoardKept(w, actions[0]);
      ConclusionsOnlyAdvance(Step(w, actions[0]), actions[1..]);
    }
  }

  /** A turn is in flight at every point of the run. */
  ghost predicate TurnThroughout(w: World, actions: seq<Action>)
    requires Legal(w, actions)
    decreases |actions|
  {
    w.lanes.depth > 0 && (actions != [] ==> TurnThroughout(Step(w, actions[0]), actions[1..]))
  }

  /** The tokens a generation may still produce under a turn: the one it was already cleared for. */
  function Allowance(flights: seq<Flight>, f: nat): nat {
    if f < |flights| && flights[f].cleared then 1 else 0
  }

  function TokensOf(flights: seq<Flight>, f: nat): nat {
    if f < |flights| then flights[f].tokens else 0
  }

  /** While a turn is in flight a generation produces at most one further token, and only if it had looked before
      the turn began; one that starts during the turn produces none. */
  lemma {:induction false} AtMostOneTokenPerTurn(w: World, actions: seq<Action>, f: nat)
    requires Legal(w, actions) && TurnThroughout(w, actions)
    ensures var end := Run(w, actions);
            TokensOf(end.flights, f) + Allowance(end.flights, f) <= TokensOf(w.flights, f) + Allowance(w.flights, f)
    decreases |actions|
  {
    if actions != [] {
      AtMostOneTokenPerTurn(Step(w, actions[0]), actions[1..], f);
    }
  }

  /** Every generation started is awaited, completed, preempted or cancelled. Cancellation has no counter of its own,
      so the reported statistics add up exactly when no generation was ever cancelled. */
  lemma GenerationsAreConserved(start: World, actions: seq<Action>)
    requires Initial(start) && Legal(start, actions)
    ensures Conserved(Run(start, actions))
  {
    var w := ReachableCounts(start, actions);
    CountsConserve(w);
  }

  lemma CountsConserve(w: World)
    requires CountInv(w)
    ensures Conserved(w)
  {
  }

  ghost predicate Conserved(w: World) {
    var c := w.lanes;
    && c.started == c.completed + c.preempted + AwaitedCount(w.flights) + w.cancelled
    && (c.started == c.completed + c.preempted + AwaitedCount(w.flights) <==> w.cancelled == 0)
  }

  /** One deliberator never awaits two generations, and is marked running exactly while it awaits one. */
  lemma OneAtATime(start: World, actions: seq<Action>, f: nat, g: nat)
    requires Initial(start) && Legal(start, actions)
    requires f < |Run(start, actions).flights| && g < |Run(start, actions).flights|
    requires Run(start, actions).flights[f].status.Awaiting? && Run(start, actions).flights[g].status.Awaiting?
    ensures Run(start, actions).flights[f].owner == Run(start, actions).flights[g].owner ==> f == g
    ensures Run(start, actions).flights[f].owner in Run(start, actions).running
  {
    var w := ReachableRunning(start, actions);
  }

  /** A conclusion never claims to be ahead of the facts, so completing a generation cannot fail. */
  lemma ConclusionIsNeverAhead(start: World, actions: seq<Action>, f: nat)
    requires Initial(start) && Legal(start, actions) && f < |Run(start, actions).flights|
    ensures Run(start, actions).flights[f].asked.derivedFrom <= Run(start, actions).board.version
  {
    var w := ReachableBoard(start, actions);
  }

  /** A generation that ends with a whole plan while nothing was observed since it asked makes that plan current. */
  lemma WholePlanBecomesCurrent(w: World, f: nat, outcome: Outcome, modelId: string)
    requires BoardInv(w) && Enabled(w, Finish(f, outcome, modelId)) && PlanOf(outcome).Some?
    requires w.flights[f].asked.derivedFrom == w.board.version
    ensures Step(w, Finish(f, outcome, modelId)).board.Current() ==
            Some(Deliberation(PlanOf(outcome).value, w.board.version, modelId))
  {
  }

  /** What was asked stays asked, and only an observation moves the board's version. */
  lemma {:induction false} AskedStays(w: World, actions: seq<Action>, f: nat)
    requires Legal(w, actions) && f < |w.flights|
    ensures f < |Run(w, actions).flights| && Run(w, actions).flights[f].asked == w.flights[f].asked
    ensures (forall a :: a in actions ==> !a.Observe?) ==>
              Run(w, actions).board.version == w.board.version && Run(w, actions).board.observations == w.board.observations
    decreases |actions|
  {
    if actions != [] {
      AskedStays(Step(w, actions[0]), actions[1..], f);
      assert actions[0] in actions && forall a :: a in actions[1..] ==> a in actions;
    }
  }

  /** The plan is the raw answer with its empty entries dropped. */
  ghost predicate DrawnFrom(plan: SitePlan, raw: SitePlan) {
    && plan.differentiator == raw.differentiator
    && (forall s :: s in plan.competitors <==> s in raw.competitors && s != "")
    && (forall s :: s in plan.pages <==> s in raw.pages && s != "")
  }

  ghost predicate Usable(raw: SitePlan) {
    && raw.differentiator != ""
    && (exists s :: s in raw.competitors && s != "") && (exists s :: s in raw.pages && s != "")
  }

  /** Thinking pays off: whatever else happens between the question and the answer, if nothing is observed meanwhile an
      answer with something in every field becomes the current plan, drawn from the facts on the board. */
  lemma QuietAnswerBecomesCurrent(asking: World, owner: int, between: seq<Action>, raw: SitePlan, modelId: string)
    returns (w: World, finish: Action)
    requires Reached(asking) && Enabled(asking, Start(owner)) && Usable(raw)
    requires Legal(Step(asking, Start(owner)), between) && forall a :: a in between ==> !a.Observe?
    ensures w == Run(Step(asking, Start(owner)), between)
    ensures finish == Finish(|asking.flights|, Answered(Some(raw)), modelId)
    ensures Enabled(w, finish) ==>
              var d := Step(w, finish).board.Current();
              d.Some? && DrawnFrom(d.value.plan, raw) && d.value.derivedFrom == asking.board.version
  {
    ReachedHolds(asking);
    w := StillAsksNow(asking, owner, between);
    finish := Finish(|asking.flights|, Answered(Some(raw)), modelId);
    if Enabled(w, finish) { AnswerBecomesCurrent(w, finish.f, raw, modelId); }
  }

  /** Some run leads here from the start. */
  ghost predicate Reached(w: World) {
    exists start, actions :: Initial(start) && Legal(start, actions) && w == Run(start, actions)
  }

  lemma ReachedHolds(w: World)
    requires Reached(w)
    ensures Inv(w)
  {
    var start, actions :| Initial(start) && Legal(start, actions) && w == Run(start, actions);
    assert Inv(start);
    EveryRunKeeps(start, actions);
  }

  /** What a generation asked about is what is on the board for as long as nothing is observed. */
  lemma StillAsksNow(asking: World, owner: int, between: seq<Action>) returns (w: World)
    requires Inv(asking) && Enabled(asking, Start(owner))
    requires Legal(Step(asking, Start(owner)), between) && forall a :: a in between ==> !a.Observe?
    ensures w == Run(Step(asking, Start(owner)), between) && BoardInv(w) && |asking.flights| < |w.flights|
    ensures w.flights[|asking.flights|].asked.derivedFrom == w.board.version == asking.board.version
  {
    var next := Step(asking, Start(owner));
    StepKeeps(asking, Start(owner));
    EveryRunKeeps(next, between);
    AskedStays(next, between, |asking.flights|);
    w := Run(next, between);
  }

  lemma AnswerBecomesCurrent(w: World, f: nat, raw: SitePlan, modelId: string)
    requires BoardInv(w) && Enabled(w, Finish(f, Answered(Some(raw)), modelId)) && Usable(raw)
    requires w.flights[f].asked.derivedFrom == w.board.version
    ensures var d := Step(w, Finish(f, Answered(Some(raw)), modelId)).board.Current();
            d.Some? && DrawnFrom(d.value.plan, raw) && d.value.derivedFrom == w.board.version
  {
    ToPlanIff(Some(raw));
    assert DrawnFrom(ToPlan(Some(raw)).value, raw);
    WholePlanBecomesCurrent(w, f, Answered(Some(raw)), modelId);
  }

  /** No turn is in flight at any point of the run and no look in it is out of time. */
  ghost predicate Undisturbed(w: World, actions: seq<Action>)
    requires Legal(w, actions)
    decreases |actions|
  {
    && w.lanes.depth == 0
    && (actions != [] ==> !(actions[0].Look? && actions[0].expired) && Undisturbed(Step(w, actions[0]), actions[1..]))
  }

  /** A generation is only told to stop for a turn or for time: undisturbed, it goes on. */
  lemma {:induction false} UndisturbedGoesOn(w: World, actions: seq<Action>, f: nat)
    requires Legal(w, actions) && Undisturbed(w, actions) && f < |w.flights| && !w.flights[f].stopped
    ensures f < |Run(w, actions).flights| && !Run(w, actions).flights[f].stopped
    decreases |actions|
  {
    if actions != [] { UndisturbedGoesOn(Step(w, actions[0]), actions[1..], f); }
  }

  // ---- What the scheduler counts. ----

  function Counted(actions: seq<Action>, kind: Action -> bool): nat {
    if actions == [] then 0 else (if kind(actions[0]) then 1 else 0) + Counted(actions[1..], kind)
  }

  /** A turn is in flight exactly while more sections were entered than left, so a section inside a turn does not end it. */
  lemma {:induction false} DepthCounts(w: World, actions: seq<Action>)
    requires Legal(w, actions)
    ensures Run(w, actions).lanes.depth + Counted(actions, (a: Action) => a.EndTurn?) ==
            w.lanes.depth + Counted(actions, (a: Action) => a.BeginTurn?)
    decreases |actions|
  {
    if actions != [] { DepthCounts(Step(w, actions[0]), actions[1..]); }
  }

  /** A generation's tokens are the times it was let produce one. */
  lemma {:induction false} TokensAreCounted(w: World, actions: seq<Action>, f: nat)
    requires Legal(w, actions)
    ensures TokensOf(Run(w, actions).flights, f) ==
            TokensOf(w.flights, f) + Counted(actions, (a: Action) => a.Token? && a.f == f)
    decreases |actions|
  {
    if actions != [] { TokensAreCounted(Step(w, actions[0]), actions[1..], f); }
  }

  /** How often, along a run, the lanes were at this depth or not when an action of the kind came. */
  function CountedAt(w: World, actions: seq<Action>, kind: (bool, Action) -> bool): nat
    requires Legal(w, actions)
    decreases |actions|
  {
    if actions == [] then 0
    else (if kind(w.lanes.depth > 0, actions[0]) then 1 else 0) + CountedAt(Step(w, actions[0]), actions[1..], kind)
  }

  /** The scheduler counts a turn for each outermost section, and a stop for each look during a turn. */
  lemma {:induction false} TurnsAndStopsAreCounted(w: World, actions: seq<Action>)
    requires Legal(w, actions)
    ensures Run(w, actions).lanes.turns ==
            w.lanes.turns + CountedAt(w, actions, (busy: bool, a: Action) => !busy && a.BeginTurn?)
    ensures Run(w, actions).lanes.stops ==
            w.lanes.stops + CountedAt(w, actions, (busy: bool, a: Action) => busy && a.Look?)
    decreases |actions|
  {
    if actions != [] { TurnsAndStopsAreCounted(Step(w, actions[0]), actions[1..]); }
  }

  /** How many generations ended with a plan, or without one. */
  function EndedCount(flights: seq<Flight>, withPlan: bool): nat {
    if flights == [] then 0
    else
      var last := flights[|flights| - 1].status;
      EndedCount(flights[..|flights| - 1], withPlan) + if last.Ended? && last.plan.Some? == withPlan then 1 else 0
  }

  function EndedAs(flight: Flight, withPlan: bool): nat {
    if flight.status.Ended? && flight.status.plan.Some? == withPlan then 1 else 0
  }

  lemma {:induction false} EndedCountUpdates(flights: seq<Flight>, f: nat, flight: Flight, withPlan: bool)
    requires f < |flights|
    ensures EndedCount(flights[f := flight], withPlan) ==
            EndedCount(flights, withPlan) + EndedAs(flight, withPlan) - EndedAs(flights[f], withPlan)
  {
    var init := flights[..|flights| - 1];
    if f < |init| {
      EndedCountUpdates(init, f, flight, withPlan);
      assert flights[f := flight][..|init|] == init[f := flight];
    } else {
      assert flights[f := flight][..|init|] == init;
    }
  }

  ghost predicate EndsCounted(w: World) {
    w.lanes.completed == EndedCount(w.flights, true) && w.lanes.preempted == EndedCount(w.flights, false)
  }

  lemma EndsKept(w: World, a: Action)
    requires EndsCounted(w) && Enabled(w, a)
    ensures EndsCounted(Step(w, a))
  {
    if a.Start? {
      assert Step(w, a).flights[..|w.flights|] == w.flights;
    } else if a.Look? || a.Token? || a.Finish? || a.Cancel? {
      UpdateEnds(w, a);
    }
  }

  lemma UpdateEnds(w: World, a: Action)
    requires EndsCounted(w) && Enabled(w, a) && (a.Look? || a.Token? || a.Finish? || a.Cancel?)
    ensures EndsCounted(Step(w, a))
  {
    var flight := Step(w, a).flights[a.f];
    EndedCountUpdates(w.flights, a.f, flight, true);
    EndedCountUpdates(w.flights, a.f, flight, false);
  }

  lemma {:induction false} EndsStayCounted(w: World, actions: seq<Action>)
    requires EndsCounted(w) && Legal(w, actions)
    ensures EndsCounted(Run(w, actions))
    decreases |actions|
  {
    if actions != [] {
      EndsKept(w, actions[0]);
      EndsStayCounted(Step(w, actions[0]), actions[1..]);
    }
  }

  /** What the statistics mean, over every run: completed are the generations that ended with a whole plan, preempted
      those that ended without one, whatever the reason. */
  lemma EndingsAreCounted(start: World, actions: seq<Action>)
    requires Initial(start) && Legal(start, actions)
    ensures EndsCounted(Run(start, actions))
  {
    EndsStayCounted(start, actions);
  }
}
