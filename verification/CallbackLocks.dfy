/** One lock per callback id, created on demand and dropped when nobody refers to it. */
module CallbackLocks {
  import opened Common

  type Key = string
  type LockId = nat

  /** The lock table as a value: the stored lock of each key, how many tasks refer to it, and how many lock objects
      were ever created (each creation is a new object). */
  datatype Table = Table(locks: map<Key, LockId>, holders: map<Key, nat>, created: nat)

  function Obtain(t: Table, key: Key): Table {
    Table(if key in t.locks then t.locks else t.locks[key := t.created],
          t.holders[key := 1 + if key in t.holders then t.holders[key] else 0],
          if key in t.locks then t.created else t.created + 1)
  }

  function Dropped(t: Table, key: Key): Table
    requires key in t.holders
  {
    if t.holders[key] > 1 then t.(holders := t.holders[key := t.holders[key] - 1])
    else t.(holders := t.holders - {key}, locks := t.locks - {key})
  }

  class LockTable {
    var locks: map<Key, LockId>
    var holders: map<Key, nat>
    var created: nat

    function Snapshot(): Table
      reads this
    {
      Table(locks, holders, created)
    }

    constructor ()
      ensures Snapshot() == Table(map[], map[], 0)
    {
      locks, holders, created := map[], map[], 0;
    }

    /** Find or create the lock and count the caller, before waiting for it. */
    method Enter(key: Key) returns (lock: LockId)
      modifies this
      ensures Snapshot() == Obtain(old(Snapshot()), key)
      ensures key in locks && lock == locks[key]
    {
      if key in locks {
        lock := locks[key];
      } else {
        lock := created;
        created := created + 1;
        locks := locks[key := lock];
      }
      holders := holders[key := (if key in holders then holders[key] else 0) + 1];
    }

    /** Uncount the caller on the way out, however it leaves, and forget a lock nobody refers to. */
    method Exit(key: Key)
      requires key in holders && holders[key] > 0
      modifies this
      ensures Snapshot() == Dropped(old(Snapshot()), key)
    {
      var remaining := holders[key] - 1;
      if remaining > 0 {
        holders := holders[key := remaining];
      } else {
        holders := holders - {key};
        locks := locks - {key};
      }
    }
  }

  /** A task inside acquire: it waits for, or holds, the lock object it was given. */
  datatype Task = Task(key: Key, lock: LockId, holding: bool)

  datatype World = World(table: Table, tasks: map<int, Task>)

  predicate Initial(w: World) {
    w == World(Table(map[], map[], 0), map[])
  }

  datatype Action = Arrive(t: int, key: Key) | Acquire(t: int) | Leave(t: int)

  /** A lock object is free when no task holds it, whatever key that task asked for. */
  ghost predicate Free(w: World, lock: LockId) {
    forall u :: u in w.tasks && w.tasks[u].holding ==> w.tasks[u].lock != lock
  }

  /** Leave covers both ways out: a holder finishing, and a cancelled wait. */
  ghost predicate Enabled(w: World, a: Action) {
    match a
    case Arrive(t, _) => t !in w.tasks
    case Acquire(t) => t in w.tasks && !w.tasks[t].holding && Free(w, w.tasks[t].lock)
    case Leave(t) => t in w.tasks && w.tasks[t].key in w.table.holders && w.tasks[t].key in w.table.locks
  }

  function Step(w: World, a: Action): World
    requires Enabled(w, a)
  {
    match a
    case Arrive(t, key) =>
      var table := Obtain(w.table, key);
      World(table, w.tasks[t := Task(key, table.locks[key], false)])
    case Acquire(t) => w.(tasks := w.tasks[t := w.tasks[t].(holding := true)])
    case Leave(t) => World(Dropped(w.table, w.tasks[t].key), w.tasks - {t})
  }

  function Inside(w: World, key: Key): set<int> {
    set t | t in w.tasks && w.tasks[t].key == key
  }

  /** Stored locks are counted, were created once, and are not shared between keys. */
  ghost predicate TableInv(t: Table) {
    && t.locks.Keys == t.holders.Keys
    && (forall k :: k in t.locks ==> t.locks[k] < t.created)
    && (forall k, l :: k in t.locks && l in t.locks && k != l ==> t.locks[k] != t.locks[l])
  }

  /** A key's count is the number of tasks inside for it. */
  ghost predicate CountInv(w: World) {
    forall k :: k in w.table.holders ==> w.table.holders[k] == |Inside(w, k)| > 0
  }

  /** Everyone inside for a key refers to the one stored lock. */
  ghost predicate TaskInv(w: World) {
    forall t :: t in w.tasks ==> w.tasks[t].key in w.table.locks && w.tasks[t].lock == w.table.locks[w.tasks[t].key]
  }

  /** No lock object is held twice. */
  ghost predicate HoldInv(w: World) {
    forall t, u :: t in w.tasks && u in w.tasks && t != u && w.tasks[t].holding && w.tasks[u].holding ==>
      w.tasks[t].lock != w.tasks[u].lock
  }

  ghost predicate Inv(w: World) {
    TableInv(w.table) && CountInv(w) && TaskInv(w) && HoldInv(w)
  }

  lemma InsideIffStored(w: World, key: Key)
    requires Inv(w)
    ensures key in w.table.locks <==> Inside(w, key) != {}
  {
    if key !in w.table.locks {
      assert forall t :: t in w.tasks ==> w.tasks[t].key != key;
      assert Inside(w, key) == {};
    }
  }

  lemma ArriveInside(w: World, t: int, key: Key, k: Key)
    requires t !in w.tasks
    ensures Inside(Step(w, Arrive(t, key)), k) == if k == key then Inside(w, k) + {t} else Inside(w, k)
  {
  }

  lemma ArriveCounts(w: World, t: int, key: Key)
    requires Inv(w) && t !in w.tasks
    ensures CountInv(Step(w, Arrive(t, key)))
  {
    var next := Step(w, Arrive(t, key));
    InsideIffStored(w, key);
    forall k | k in next.table.holders ensures next.table.holders[k] == |Inside(next, k)| > 0 {
      ArriveInside(w, t, key, k);
    }
  }

  lemma ObtainKeeps(t: Table, key: Key)
    requires TableInv(t)
    ensures TableInv(Obtain(t, key)) && key in Obtain(t, key).locks
    ensures forall k :: k in t.locks ==> k in Obtain(t, key).locks && Obtain(t, key).locks[k] == t.locks[k]
  {
  }

  lemma ArriveKeeps(w: World, t: int, key: Key)
    requires Inv(w) && t !in w.tasks
    ensures Inv(Step(w, Arrive(t, key)))
  {
    ObtainKeeps(w.table, key);
    ArriveCounts(w, t, key);
  }

  lemma AcquireKeeps(w: World, t: int)
    requires Inv(w) && Enabled(w, Acquire(t))
    ensures Inv(Step(w, Acquire(t)))
  {
    var next := Step(w, Acquire(t));
    forall k | k in next.table.holders ensures next.table.holders[k] == |Inside(next, k)| > 0 {
      assert Inside(next, k) == Inside(w, k);
    }
  }

  lemma LeaveCounts(w: World, t: int)
    requires Inv(w) && t in w.tasks
    ensures Enabled(w, Leave(t)) && CountInv(Step(w, Leave(t)))
    ensures w.tasks[t].key in Step(w, Leave(t)).table.locks <==> Inside(w, w.tasks[t].key) != {t}
  {
    var next, key := Step(w, Leave(t)), w.tasks[t].key;
    assert Inside(next, key) == Inside(w, key) - {t};
    forall k | k in next.table.holders ensures next.table.holders[k] == |Inside(next, k)| > 0 {
      if k != key { assert Inside(next, k) == Inside(w, k); }
    }
    assert Inside(w, key) == Inside(next, key) + {t};
  }

  lemma LeaveKeeps(w: World, t: int)
    requires Inv(w) && t in w.tasks
    ensures Enabled(w, Leave(t)) && Inv(Step(w, Leave(t)))
  {
    LeaveCounts(w, t);
    var next, key := Step(w, Leave(t)), w.tasks[t].key;
    forall u | u in next.tasks ensures next.tasks[u].key in next.table.locks {
      if next.tasks[u].key == key { assert u in Inside(w, key); }
    }
  }

  ghost predicate Legal(w: World, actions: seq<Action>)
    decreases |actions|
  {
    actions != [] ==> Enabled(w, actions[0]) && Legal(Step(w, actions[0]), actions[1..])
  }

  function Run(w: World, actions: seq<Action>): World
    requires Legal(w, actions)
    decreases |actions|
  {
    if actions == [] then w else Run(Step(w, actions[0]), actions[1..])
  }

  lemma {:induction false} EveryRunKeeps(w: World, actions: seq<Action>)
    requires Inv(w) && Legal(w, actions)
    ensures Inv(Run(w, actions))
    decreases |actions|
  {
    if actions != [] {
      match actions[0] {
        case Arrive(t, key) => ArriveKeeps(w, t, key);
        case Acquire(t) => AcquireKeeps(w, t);
        case Leave(t) => LeaveKeeps(w, t);
      }
      EveryRunKeeps(Step(w, actions[0]), actions[1..]);
    }
  }

  /** At most one task is inside any one callback's section, over every run. */
  lemma MutualExclusion(start: World, actions: seq<Action>, t: int, u: int)
    requires Initial(start) && Legal(start, actions)
    ensures var w := Run(start, actions);
            t in w.tasks && u in w.tasks && w.tasks[t].holding && w.tasks[u].holding && w.tasks[t].key == w.tasks[u].key
            ==> t == u
  {
    EveryRunKeeps(start, actions);
  }

  /** Only the same callback is serialised: a waiting task may go on exactly when no task holds its own key. */
  lemma OnlyTheSameKeyBlocks(start: World, actions: seq<Action>, t: int)
    requires Initial(start) && Legal(start, actions)
    ensures var w := Run(start, actions);
            t in w.tasks && !w.tasks[t].holding ==>
              (Enabled(w, Acquire(t)) <==>
               forall u :: u in w.tasks && w.tasks[u].holding ==> w.tasks[u].key != w.tasks[t].key)
  {
    EveryRunKeeps(start, actions);
  }

  /** The table holds exactly the keys somebody is inside for, so it is empty when idle. */
  lemma NoLockOutlivesItsTasks(start: World, actions: seq<Action>, key: Key)
    requires Initial(start) && Legal(start, actions)
    ensures var w := Run(start, actions);
            key in w.table.locks <==> Inside(w, key) != {}
  {
    EveryRunKeeps(start, actions);
    InsideIffStored(Run(start, actions), key);
  }

  /** Leaving never fails: a task inside finds its key's stored lock, the one it was given, and a count of at least one,
      which is the number of tasks inside. */
  lemma LeavingNeverFails(start: World, actions: seq<Action>, t: int)
    requires Initial(start) && Legal(start, actions)
    ensures var w := Run(start, actions);
            t in w.tasks ==>
              var key := w.tasks[t].key;
              && key in w.table.locks && w.table.locks[key] == w.tasks[t].lock
              && key in w.table.holders && w.table.holders[key] == |Inside(w, key)| >= 1
  {
    EveryRunKeeps(start, actions);
  }
}
