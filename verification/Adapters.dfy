/** The idempotent store behind the scheduler and telephony adapters: one recorded action per key until it is cleared. */
module Adapters {
  import opened Common

  datatype AdapterError = EmptyKey | IdempotencyConflict | CapacityReached | Scripted(code: int)

  /** The canonical form of an operation's input. */
  datatype Input = Input(operation: string, payload: int)

  datatype ActionResult = ActionResult(key: string, reference: (string, nat))

  datatype Recorded = Recorded(operation: string, key: string)

  datatype Store = Store(actions: seq<Recorded>, results: map<string, ActionResult>, inputs: map<string, Input>,
                         failures: seq<Option<AdapterError>>) {

    /** Exactly one action, result and input per key. */
    ghost predicate Valid() {
      results.Keys == inputs.Keys == KeysOf(actions) && Distinct(actions)
    }
  }

  function KeysOf(actions: seq<Recorded>): set<string> {
    set a | a in actions :: a.key
  }

  /** No two actions share a key. */
  predicate Distinct(actions: seq<Recorded>) {
    actions == [] || (Distinct(actions[..|actions| - 1]) && actions[|actions| - 1].key !in KeysOf(actions[..|actions| - 1]))
  }

  predicate Blank(text: string) {
    forall i :: 0 <= i < |text| ==> text[i] in {' ', '\t', '\n', '\r'}
  }

  /** One call: a replay when the key is known, else the next scripted failure, a full history, or a new action. */
  function Record(s: Store, key: string, input: Input, maxActions: nat): (Store, Result<ActionResult, AdapterError>) {
    if Blank(key) then (s, Failure(EmptyKey))
    else if key in s.results then
      (s, if key in s.inputs && s.inputs[key] == input then Success(s.results[key]) else Failure(IdempotencyConflict))
    else if s.failures != [] && s.failures[0].Some? then (s.(failures := s.failures[1..]), Failure(s.failures[0].value))
    else
      var next := if s.failures != [] then s.(failures := s.failures[1..]) else s;
      if |s.actions| >= maxActions then (next, Failure(CapacityReached))
      else
        var result := ActionResult(key, (input.operation, |s.actions| + 1));
        (next.(actions := s.actions + [Recorded(input.operation, key)],
               results := s.results[key := result],
               inputs := s.inputs[key := input]), Success(result))
  }

  function Without(actions: seq<Recorded>, prefix: string): (r: seq<Recorded>)
    ensures forall a :: a in r <==> a in actions && !(prefix <= a.key)
  {
    if actions == [] then []
    else Without(actions[..|actions| - 1], prefix)
         + if prefix <= actions[|actions| - 1].key then [] else [actions[|actions| - 1]]
  }

  function Cleared(s: Store, prefix: string): Store {
    s.(actions := Without(s.actions, prefix),
       results := map key | key in s.results && !(prefix <= key) :: s.results[key],
       inputs := map key | key in s.inputs && !(prefix <= key && key in s.results) :: s.inputs[key])
  }

  /** The history without the actions of a prefix. */
  method KeepOthers(actions: seq<Recorded>, prefix: string) returns (kept: seq<Recorded>)
    ensures kept == Without(actions, prefix)
  {
    kept := [];
    for i := 0 to |actions|
      invariant kept == Without(actions[..i], prefix)
    {
      assert actions[..i + 1][..i] == actions[..i];
      if !(prefix <= actions[i].key) { kept := kept + [actions[i]]; }
    }
    assert actions[..|actions|] == actions;
  }

  class IdempotentActions {
    const maxActions: nat
    var actions: seq<Recorded>
    var results: map<string, ActionResult>
    var inputs: map<string, Input>
    var failures: seq<Option<AdapterError>>

    function Snapshot(): Store
      reads this
    {
      Store(actions, results, inputs, failures)
    }

    constructor (maxActions: nat, failures: seq<Option<AdapterError>>)
      ensures this.maxActions == maxActions && Snapshot() == Store([], map[], map[], failures) && Snapshot().Valid()
    {
      this.maxActions, this.failures := maxActions, failures;
      actions, results, inputs := [], map[], map[];
    }

    method RecordAction(key: string, input: Input) returns (r: Result<ActionResult, AdapterError>)
      modifies this
      ensures (Snapshot(), r) == Record(old(Snapshot()), key, input, maxActions)
    {
      if Blank(key) { return Failure(EmptyKey); }
      if key in results {
        if key !in inputs || inputs[key] != input { return Failure(IdempotencyConflict); }
        return Success(results[key]);
      }
      if failures != [] {
        var failure := failures[0];
        failures := failures[1..];
        if failure.Some? { return Failure(failure.value); }
      }
      if |actions| >= maxActions { return Failure(CapacityReached); }
      var result := ActionResult(key, (input.operation, |actions| + 1));
      actions := actions + [Recorded(input.operation, key)];
      results := results[key := result];
      inputs := inputs[key := input];
      return Success(result);
    }

    method ClearOperations(prefix: string)
      modifies this
      ensures Snapshot() == Cleared(old(Snapshot()), prefix)
    {
      var keys := set key | key in results && prefix <= key;
      var kept := KeepOthers(actions, prefix);
      inputs := map key | key in inputs && key !in keys :: inputs[key];
      results := map key | key in results && key !in keys :: results[key];
      actions := kept;
    }
  }

  datatype Op = Call(key: string, input: Input) | Clear(prefix: string)

  function Done(s: Store, op: Op, maxActions: nat): Store {
    match op
    case Call(key, input) => Record(s, key, input, maxActions).0
    case Clear(prefix) => Cleared(s, prefix)
  }

  function AllDone(s: Store, ops: seq<Op>, maxActions: nat): Store
    decreases |ops|
  {
    if ops == [] then s else AllDone(Done(s, ops[0], maxActions), ops[1..], maxActions)
  }

  lemma {:induction false} DistinctKeys(actions: seq<Recorded>, i: nat, j: nat)
    requires Distinct(actions) && i < j < |actions|
    ensures actions[i].key != actions[j].key
  {
    var init := actions[..|actions| - 1];
    if j < |init| {
      DistinctKeys(init, i, j);
    } else {
      assert init[i] in init;
    }
  }

  lemma AppendKeeps(actions: seq<Recorded>, action: Recorded)
    requires Distinct(actions) && action.key !in KeysOf(actions)
    ensures Distinct(actions + [action]) && KeysOf(actions + [action]) == KeysOf(actions) + {action.key}
  {
    assert (actions + [action])[..|actions|] == actions;
    assert forall a :: a in actions + [action] <==> a in actions || a == action;
  }

  lemma {:induction false} WithoutKeepsDistinct(actions: seq<Recorded>, prefix: string)
    requires Distinct(actions)
    ensures Distinct(Without(actions, prefix))
  {
    if actions != [] {
      var init, last := actions[..|actions| - 1], actions[|actions| - 1];
      WithoutKeepsDistinct(init, prefix);
      var kept := Without(init, prefix);
      if prefix <= last.key {
        assert Without(actions, prefix) == kept + [] == kept;
      } else {
        assert forall a :: a in kept ==> a in init;
        AppendKeeps(kept, last);
      }
    }
  }

  lemma ClearKeeps(s: Store, prefix: string)
    requires s.Valid()
    ensures Cleared(s, prefix).Valid()
  {
    WithoutKeepsDistinct(s.actions, prefix);
    var t := Cleared(s, prefix);
    assert t.results.Keys == t.inputs.Keys;
    forall key ensures key in t.results <==> key in KeysOf(t.actions) {
      if key in KeysOf(s.actions) {
        var a :| a in s.actions && a.key == key;
        assert a in t.actions || prefix <= key;
      }
    }
  }

  lemma CallKeeps(s: Store, key: string, input: Input, maxActions: nat)
    requires s.Valid()
    ensures Record(s, key, input, maxActions).0.Valid()
  {
    if key !in s.results { AppendKeeps(s.actions, Recorded(input.operation, key)); }
  }

  /** However often a key is used, at most one action is recorded for it until it is cleared, and exactly while it has a
      result. */
  lemma {:induction false} OneActionPerKey(s: Store, ops: seq<Op>, maxActions: nat)
    requires s.Valid()
    ensures AllDone(s, ops, maxActions).Valid()
    decreases |ops|
  {
    if ops != [] {
      match ops[0] {
        case Call(key, input) => CallKeeps(s, key, input, maxActions);
        case Clear(prefix) => ClearKeeps(s, prefix);
      }
      OneActionPerKey(Done(s, ops[0], maxActions), ops[1..], maxActions);
    }
  }

  /** After a success, the same call returns the same result and records nothing, until a clear covers the key. */
  lemma {:induction false} RetriesRepeat(s: Store, key: string, input: Input, ops: seq<Op>, maxActions: nat)
    requires Record(s, key, input, maxActions).1.Success?
    requires forall op :: op in ops && op.Clear? ==> !(op.prefix <= key)
    ensures var (first, result) := Record(s, key, input, maxActions);
            var later := AllDone(first, ops, maxActions);
            Record(later, key, input, maxActions) == (later, result)
    decreases |ops|
  {
    var (first, result) := Record(s, key, input, maxActions);
    KnownStaysKnown(first, key, ops, maxActions);
  }

  lemma {:induction false} KnownStaysKnown(s: Store, key: string, ops: seq<Op>, maxActions: nat)
    requires key in s.results && key in s.inputs
    requires forall op :: op in ops && op.Clear? ==> !(op.prefix <= key)
    ensures var t := AllDone(s, ops, maxActions);
            key in t.results && key in t.inputs && t.results[key] == s.results[key] && t.inputs[key] == s.inputs[key]
    decreases |ops|
  {
    if ops != [] {
      assert ops[0] in ops;
      KnownStaysKnown(Done(s, ops[0], maxActions), key, ops[1..], maxActions);
    }
  }

  /** A key that was used keeps its input: any other input under it is refused and changes nothing, until a clear covers
      the key. */
  lemma OtherInputIsRefused(s: Store, key: string, input: Input, other: Input, ops: seq<Op>, maxActions: nat)
    requires Record(s, key, input, maxActions).1.Success? && other != input
    requires forall op :: op in ops && op.Clear? ==> !(op.prefix <= key)
    ensures var later := AllDone(Record(s, key, input, maxActions).0, ops, maxActions);
            Record(later, key, other, maxActions) == (later, Failure(IdempotencyConflict))
  {
    KnownStaysKnown(Record(s, key, input, maxActions).0, key, ops, maxActions);
  }

  lemma {:induction false} WithoutIsShorter(actions: seq<Recorded>, prefix: string)
    ensures |Without(actions, prefix)| <= |actions|
  {
    if actions != [] { WithoutIsShorter(actions[..|actions| - 1], prefix); }
  }

  /** The history never outgrows its bound. */
  lemma {:induction false} HistoryIsBounded(s: Store, ops: seq<Op>, maxActions: nat)
    requires |s.actions| <= maxActions
    ensures |AllDone(s, ops, maxActions).actions| <= maxActions
    decreases |ops|
  {
    if ops != [] {
      if ops[0].Clear? { WithoutIsShorter(s.actions, ops[0].prefix); }
      HistoryIsBounded(Done(s, ops[0], maxActions), ops[1..], maxActions);
    }
  }

  /** A call is recorded exactly when its key is not blank and not in use, no failure is scripted for it, and there is
      room; a call that is not recorded leaves history and results alone. */
  lemma RecordedIff(s: Store, key: string, input: Input, maxActions: nat)
    ensures var r := Record(s, key, input, maxActions);
            && (r.0.actions == s.actions + [Recorded(input.operation, key)] <==>
                  && !Blank(key) && key !in s.results && |s.actions| < maxActions
                  && (s.failures == [] || s.failures[0].None?))
            && (r.0.actions == s.actions || r.0.actions == s.actions + [Recorded(input.operation, key)])
            && (r.0.actions == s.actions ==> r.0.results == s.results && r.0.inputs == s.inputs)
  {
  }

  /** Clearing forgets exactly the keys of the prefix: nothing of them is left, and everything else is as it was. */
  lemma ClearForgets(s: Store, prefix: string, key: string)
    requires s.Valid()
    ensures var t := Cleared(s, prefix);
            if prefix <= key then key !in t.results && key !in t.inputs && forall a :: a in t.actions ==> a.key != key
            else
              && (key in t.results <==> key in s.results) && (key in t.results ==> t.results[key] == s.results[key])
              && (key in t.inputs <==> key in s.inputs) && (key in t.inputs ==> t.inputs[key] == s.inputs[key])
              && forall a: Recorded :: a.key == key ==> (a in t.actions <==> a in s.actions)
  {
  }

  // ----- scripted failures and references -----

  /** A call that is neither blank nor a replay: it takes the next scripted outcome. */
  predicate Fresh(s: Store, op: Op) {
    op.Call? && !Blank(op.key) && op.key !in s.results
  }

  function FreshCalls(s: Store, ops: seq<Op>, maxActions: nat): nat
    decreases |ops|
  {
    if ops == [] then 0
    else (if Fresh(s, ops[0]) then 1 else 0) + FreshCalls(Done(s, ops[0], maxActions), ops[1..], maxActions)
  }

  /** Scripted outcomes are handed out once each and in order, one to each fresh call. */
  lemma {:induction false} ScriptRunsDown(s: Store, ops: seq<Op>, maxActions: nat)
    ensures var n := FreshCalls(s, ops, maxActions);
            AllDone(s, ops, maxActions).failures == if n <= |s.failures| then s.failures[n..] else []
    decreases |ops|
  {
    if ops != [] { ScriptRunsDown(Done(s, ops[0], maxActions), ops[1..], maxActions); }
  }

  /** Held results have different references, none numbered beyond the history. */
  ghost predicate Referenced(s: Store) {
    && (forall k :: k in s.results ==> 1 <= s.results[k].reference.1 <= |s.actions|)
    && (forall k, l :: k in s.results && l in s.results && k != l ==> s.results[k].reference != s.results[l].reference)
  }

  /** As long as nothing is cleared, no two held results have the same reference. */
  lemma {:induction false} ReferencesDiffer(s: Store, ops: seq<Op>, maxActions: nat)
    requires Referenced(s) && forall op :: op in ops ==> op.Call?
    ensures Referenced(AllDone(s, ops, maxActions))
    decreases |ops|
  {
    if ops != [] {
      assert ops[0] in ops && forall op :: op in ops[1..] ==> op in ops;
      ReferencesDiffer(Done(s, ops[0], maxActions), ops[1..], maxActions);
    }
  }

  /** A reference is given twice exactly when a held result of the same operation already has the next number. */
  lemma RepeatsReferenceIff(s: Store, key: string, input: Input, maxActions: nat)
    requires key !in s.results && Record(s, key, input, maxActions).1.Success?
    ensures (exists k :: k in s.results && s.results[k].reference == Record(s, key, input, maxActions).1.value.reference) <==>
            exists k :: k in s.results && s.results[k].reference == (input.operation, |s.actions| + 1)
  {
  }

  /** After a clear that happens, whatever the keys: the history is shorter and its numbers are used again. */
  lemma ClearedNumberIsReused(input: Input, a: string, b: string, c: string, maxActions: nat)
    requires !Blank(a) && !Blank(b) && !Blank(c) && c != b && !(a <= b) && maxActions >= 2
    ensures var ops := [Call(a, input), Call(b, input), Clear(a), Call(c, input)];
            SameReference(AllDone(Store([], map[], map[], []), ops, maxActions), b, c)
  {
    var empty, ops := Store([], map[], map[], []), [Call(a, input), Call(b, input), Clear(a), Call(c, input)];
    var one := Records(empty, a, input, maxActions);
    var two := Records(one, b, input, maxActions);
    ReusesNumber(two, input, a, b, c, maxActions);
    AllDoneFour(empty, ops, maxActions);
  }

  predicate SameReference(s: Store, b: string, c: string) {
    b in s.results && c in s.results && s.results[b].reference == s.results[c].reference
  }

  lemma ReusesNumber(two: Store, input: Input, a: string, b: string, c: string, maxActions: nat)
    requires !Blank(c) && c != b && !(a <= b) && maxActions >= 2 && two.failures == []
    requires two.actions == [Recorded(input.operation, a), Recorded(input.operation, b)]
    requires two.results.Keys == {a, b} && two.results[b].reference == (input.operation, 2)
    ensures SameReference(Done(Done(two, Clear(a), maxActions), Call(c, input), maxActions), b, c)
  {
    OnlyTheOther(two.actions, Recorded(input.operation, a), Recorded(input.operation, b));
    var three := Cleared(two, a);
    var four := Records(three, c, input, maxActions);
  }

  lemma Records(s: Store, key: string, input: Input, maxActions: nat) returns (t: Store)
    requires !Blank(key) && key !in s.results && s.failures == [] && |s.actions| < maxActions
    ensures t == Done(s, Call(key, input), maxActions)
    ensures t.actions == s.actions + [Recorded(input.operation, key)] && t.failures == []
    ensures t.results == s.results[key := ActionResult(key, (input.operation, |s.actions| + 1))]
  {
    t := Done(s, Call(key, input), maxActions);
  }

  lemma OnlyTheOther(actions: seq<Recorded>, a: Recorded, b: Recorded)
    requires actions == [a, b] && !(a.key <= b.key)
    ensures Without(actions, a.key) == [b]
  {
    assert actions[..1] == [a] && [a][..0] == [];
    assert a.key <= a.key;
    assert Without([a], a.key) == [];
  }

  lemma AllDoneStep(s: Store, ops: seq<Op>, maxActions: nat) returns (next: Store)
    requires ops != []
    ensures next == Done(s, ops[0], maxActions) && AllDone(s, ops, maxActions) == AllDone(next, ops[1..], maxActions)
  {
    next := Done(s, ops[0], maxActions);
  }

  lemma AllDoneFour(s: Store, ops: seq<Op>, maxActions: nat)
    requires |ops| == 4
    ensures AllDone(s, ops, maxActions) ==
            Done(Done(Done(Done(s, ops[0], maxActions), ops[1], maxActions), ops[2], maxActions), ops[3], maxActions)
  {
    var one := AllDoneStep(s, ops, maxActions);
    var two := AllDoneStep(one, ops[1..], maxActions);
    var three := AllDoneStep(two, ops[1..][1..], maxActions);
    var four := AllDoneStep(three, ops[1..][1..][1..], maxActions);
    assert ops[1..][1..][1..][1..] == [];
  }
}
