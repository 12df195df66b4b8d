/** The dials a run of the callback service makes, and what the idempotent telephony adapter records of them. */
module Dialing {
  import opened Common
  import opened CallbackStates
  import opened CallbackSlices
  import opened CallbackMachine
  import opened CallbackRuns
  import Adapters

  /** A move of the callback service, or teardown clearing the adapter's operations under a prefix. */
  datatype Event = Move(move: CallbackRuns.Move) | ClearPhone(prefix: string)

  datatype Dial = Dial(id: Id, key: string)

  /** The service, the telephony adapter's store, and every dial requested so far. */
  datatype Line = Line(world: World, phone: Adapters.Store, dials: seq<Dial>)

  function DialKey(key: Key): string {
    "dispatch:" + if key.Caller? then key.text else "cleanup:" + key.callback
  }

  /** The dial a move makes, if any. */
  function DialOf(w: World, m: CallbackRuns.Move): Option<Record> {
    if m.Stretch? && m.action.Dispatch? then
      var reply := BeginDispatch(w.service, m.action.id, m.action.now, m.action.reasons).1;
      if reply.Calling? && reply.flight.Dialing? then Some(reply.flight.record) else None
    else None
  }

  predicate MayHappen(d: Discipline, l: Line, e: Event) {
    e.Move? ==> MayMove(d, l.world, e.move)
  }

  function Happened(d: Discipline, l: Line, e: Event, config: Config, maxActions: nat): Line
    requires MayHappen(d, l, e)
  {
    match e
    case ClearPhone(prefix) => l.(phone := Adapters.Cleared(l.phone, prefix))
    case Move(m) =>
      var next, dial := Moved(d, l.world, m, config), DialOf(l.world, m);
      if dial.None? then l.(world := next)
      else
        var key := DialKey(dial.value.request.key);
        Line(next,
             Adapters.Record(l.phone, key, Adapters.Input("dial", dial.value.request.leadId), maxActions).0,
             l.dials + [Dial(m.action.id, key)])
  }

  ghost predicate Legal(d: Discipline, l: Line, events: seq<Event>, config: Config, maxActions: nat)
    decreases |events|
  {
    events != [] ==>
      MayHappen(d, l, events[0])
      && Legal(d, Happened(d, l, events[0], config, maxActions), events[1..], config, maxActions)
  }

  function Run(d: Discipline, l: Line, events: seq<Event>, config: Config, maxActions: nat): Line
    requires Legal(d, l, events, config, maxActions)
    decreases |events|
  {
    if events == [] then l else Run(d, Happened(d, l, events[0], config, maxActions), events[1..], config, maxActions)
  }

  ghost predicate ScheduleDial(d: Discipline, dial: Dial) {
    dial.key == DialKey(d.ScheduleKey(dial.id))
  }

  /** Every dial is its callback's, and the adapter only knows keys that were dialed. */
  ghost predicate PhoneInv(d: Discipline, phone: Adapters.Store, dials: seq<Dial>) {
    && phone.Valid()
    && (forall i :: 0 <= i < |dials| ==> ScheduleDial(d, dials[i]))
    && (forall key :: key in phone.results ==> Dialed(dials, key))
  }

  predicate Dialed(dials: seq<Dial>, key: string) {
    exists i :: 0 <= i < |dials| && dials[i].key == key
  }

  ghost predicate LineInv(d: Discipline, l: Line, config: Config) {
    Inv(d, l.world, config) && PhoneInv(d, l.phone, l.dials)
  }

  lemma DialedStays(dials: seq<Dial>, dial: Dial, key: string)
    ensures Dialed(dials, key) || key == dial.key ==> Dialed(dials + [dial], key)
  {
    var all := dials + [dial];
    assert all[|dials|] == dial;
    if Dialed(dials, key) {
      var i :| 0 <= i < |dials| && dials[i].key == key;
      assert all[i].key == key;
    }
  }

  lemma DialKeeps(d: Discipline, phone: Adapters.Store, dials: seq<Dial>, dial: Dial, input: Adapters.Input, maxActions: nat)
    requires PhoneInv(d, phone, dials) && ScheduleDial(d, dial)
    ensures PhoneInv(d, Adapters.Record(phone, dial.key, input, maxActions).0, dials + [dial])
  {
    Adapters.CallKeeps(phone, dial.key, input, maxActions);
    var next := Adapters.Record(phone, dial.key, input, maxActions).0;
    forall key | key in next.results ensures Dialed(dials + [dial], key) {
      assert key in phone.results || key == dial.key;
      DialedStays(dials, dial, key);
    }
  }

  lemma EventKeeps(d: Discipline, l: Line, e: Event, config: Config, maxActions: nat)
    requires d.Valid() && LineInv(d, l, config) && MayHappen(d, l, e)
    ensures LineInv(d, Happened(d, l, e, config, maxActions), config)
  {
    match e {
      case ClearPhone(prefix) => Adapters.ClearKeeps(l.phone, prefix);
      case Move(m) =>
        MoveKeeps(d, l.world, m, config);
        var dial := DialOf(l.world, m);
        if dial.Some? {
          DialNeedsIncarnation(d, l.world.service, m.action.id, m.action.now, m.action.reasons);
          var key := DialKey(dial.value.request.key);
          var input := Adapters.Input("dial", dial.value.request.leadId);
          DialKeeps(d, l.phone, l.dials, Dial(m.action.id, key), input, maxActions);
        }
    }
  }

  lemma {:induction false} EveryRunKeeps(d: Discipline, l: Line, events: seq<Event>, config: Config, maxActions: nat)
    requires d.Valid() && LineInv(d, l, config) && Legal(d, l, events, config, maxActions)
    ensures LineInv(d, Run(d, l, events, config, maxActions), config)
    decreases |events|
  {
    if events != [] {
      EventKeeps(d, l, events[0], config, maxActions);
      EveryRunKeeps(d, Happened(d, l, events[0], config, maxActions), events[1..], config, maxActions);
    }
  }

  /** However often dispatch retries, every dial of a callback carries the one key of its schedule, different callbacks'
      keys differ, and the adapter holds at most one recorded dial per key. */
  lemma AtMostOneDialPerSchedule(d: Discipline, start: Line, events: seq<Event>, config: Config, maxActions: nat,
                                 i: nat, j: nat)
    requires d.Valid() && Initial(start.world)
    requires start.phone.Valid() && start.phone.results == map[] && start.dials == []
    requires Legal(d, start, events, config, maxActions)
    ensures var end := Run(d, start, events, config, maxActions);
            && (i < |end.dials| && j < |end.dials| ==>
                  (end.dials[i].id == end.dials[j].id <==> end.dials[i].key == end.dials[j].key))
            && (i < j < |end.phone.actions| ==> end.phone.actions[i].key != end.phone.actions[j].key)
            && (i < |end.phone.actions| ==> Dialed(end.dials, end.phone.actions[i].key))
  {
    InitialHolds(d, start.world, config);
    EveryRunKeeps(d, start, events, config, maxActions);
    var end := Run(d, start, events, config, maxActions);
    if i < |end.dials| && j < |end.dials| { KeysTellCallbacksApart(d, end.dials[i], end.dials[j]); }
    if i < |end.phone.actions| {
      assert end.phone.actions[i].key in Adapters.KeysOf(end.phone.actions);
      if i < j < |end.phone.actions| { Adapters.DistinctKeys(end.phone.actions, i, j); }
    }
  }

  lemma KeysTellCallbacksApart(d: Discipline, a: Dial, b: Dial)
    requires d.Valid() && ScheduleDial(d, a) && ScheduleDial(d, b)
    ensures a.id == b.id <==> a.key == b.key
  {
    if a.key == b.key {
      assert a.key[9..] == d.keyOf(a.id) && b.key[9..] == d.keyOf(b.id);
      assert d.role(d.keyOf(a.id)) == ForSchedule(a.id) && d.role(d.keyOf(b.id)) == ForSchedule(b.id);
    }
  }
}
