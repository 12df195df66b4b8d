/** Who may use the processor: a turn depth raised by the fast lane, looked at by the slow one between tokens. */
module Lanes {

  /** The scheduler's counters as a value. */
  datatype Counters = Counters(depth: nat, turns: nat, stops: nat, started: nat, completed: nat, preempted: nat)

  function Entered(c: Counters): Counters {
    c.(depth := c.depth + 1, turns := if c.depth == 0 then c.turns + 1 else c.turns)
  }

  function Left(c: Counters): Counters
    requires c.depth > 0
  {
    c.(depth := c.depth - 1)
  }

  /** After the slow lane looked: only a look that must yield is counted. */
  function Looked(c: Counters): Counters {
    if c.depth > 0 then c.(stops := c.stops + 1) else c
  }

  function Finished(c: Counters, preempted: bool): Counters {
    if preempted then c.(preempted := c.preempted + 1) else c.(completed := c.completed + 1)
  }

  class LaneScheduler {
    var turnDepth: nat
    var turns: nat
    var stops: nat
    var started: nat
    var completed: nat
    var preempted: nat

    function Stats(): Counters
      reads this
    {
      Counters(turnDepth, turns, stops, started, completed, preempted)
    }

    constructor ()
      ensures Stats() == Counters(0, 0, 0, 0, 0, 0)
    {
      turnDepth, turns, stops, started, completed, preempted := 0, 0, 0, 0, 0, 0;
    }

    /** A turn, or a guarded section inside one, begins. It never waits. */
    method EnterTurn()
      modifies this
      ensures Stats() == Entered(old(Stats()))
      ensures turnDepth == old(turnDepth) + 1 && turns == old(turns) + if old(turnDepth) == 0 then 1 else 0
    {
      turnDepth := turnDepth + 1;
      if turnDepth == 1 { turns := turns + 1; }
    }

    method LeaveTurn()
      requires turnDepth > 0
      modifies this
      ensures Stats() == Left(old(Stats()))
      ensures turnDepth == old(turnDepth) - 1 && turns == old(turns)
    {
      turnDepth := turnDepth - 1;
    }

    /** Whether the slow lane must stop now. */
    method ShouldYield() returns (yes: bool)
      modifies this
      ensures yes <==> turnDepth > 0
      ensures Stats() == Looked(old(Stats()))
      ensures stops == old(stops) + if yes then 1 else 0
    {
      if turnDepth > 0 {
        stops := stops + 1;
        return true;
      }
      return false;
    }

    method DeliberationStarted()
      modifies this
      ensures Stats() == old(Stats()).(started := old(started) + 1)
    {
      started := started + 1;
    }

    method DeliberationFinished(wasPreempted: bool)
      modifies this
      ensures Stats() == Finished(old(Stats()), wasPreempted)
      ensures preempted == old(preempted) + (if wasPreempted then 1 else 0)
      ensures completed == old(completed) + (if wasPreempted then 0 else 1)
    {
      if wasPreempted { preempted := preempted + 1; } else { completed := completed + 1; }
    }
  }

  /** A stop condition joining the scheduler with a wall-clock cap. */
  class YieldBudget {
    const scheduler: LaneScheduler
    const maxSeconds: real
    const startedAt: real
    var preemptedByTurn: bool
    var exhausted: bool

    constructor (scheduler: LaneScheduler, maxSeconds: real, now: real)
      requires maxSeconds > 0.0
      ensures this.scheduler == scheduler && this.maxSeconds == maxSeconds && startedAt == now
      ensures !preemptedByTurn && !exhausted
    {
      this.scheduler, this.maxSeconds, startedAt := scheduler, maxSeconds, now;
      preemptedByTurn, exhausted := false, false;
    }

    /** A turn in flight always stops the slow lane, and is blamed before the clock is even read. */
    method ShouldStop(now: real) returns (stop: bool)
      modifies this, scheduler
      ensures scheduler.Stats() == Looked(old(scheduler.Stats()))
      ensures stop <==> scheduler.turnDepth > 0 || now - startedAt >= maxSeconds
      ensures preemptedByTurn <==> old(preemptedByTurn) || scheduler.turnDepth > 0
      ensures exhausted <==> old(exhausted) || (scheduler.turnDepth == 0 && now - startedAt >= maxSeconds)
    {
      var mustYield := scheduler.ShouldYield();
      if mustYield {
        preemptedByTurn := true;
        return true;
      }
      if now - startedAt >= maxSeconds {
        exhausted := true;
        return true;
      }
      return false;
    }
  }
}
