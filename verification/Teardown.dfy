/** Ending a session: the sweep over every callback of an id prefix, one lock at a time, while callbacks of other
    prefixes go on being scheduled, cancelled, dialed and torn down at every await. */
module Teardown {
  import opened Common
  import opened CallbackStates
  import opened CallbackSlices
  import opened CallbackMachine
  import opened CallbackRuns

  /** A move that is about no callback of the prefix. */
  predicate Outside(prefix: Id, m: Move) {
    match m
    case Stretch(a) => !(prefix <= Target(a))
    case Release(other) => !(prefix <= other) && !(other <= prefix)
  }

  /** What other tasks do during an await: any moves they may make outside the prefix. */
  function Meanwhile(d: Discipline, w: World, prefix: Id, moves: seq<Move>, config: Config): World
    decreases |moves|
  {
    if moves == [] then w
    else Meanwhile(d, if MayMove(d, w, moves[0]) && Outside(prefix, moves[0]) then Moved(d, w, moves[0], config) else w,
                   prefix, moves[1..], config)
  }

  /** The callbacks of the prefix look the same: their records, pending schedules and operations in flight. */
  ghost predicate SamePrefix(d: Discipline, w: World, v: World, prefix: Id) {
    && (forall x :: prefix <= x ==>
          && (x in w.flights <==> x in v.flights) && (x in w.flights ==> w.flights[x] == v.flights[x])
          && (x in w.service.records <==> x in v.service.records))
    && (forall k :: prefix <= d.Owner(k) ==> (k in w.service.pendingSchedules <==> k in v.service.pendingSchedules))
  }

  lemma OutsideKeepsPrefix(d: Discipline, w: World, prefix: Id, m: Move, config: Config)
    requires d.Valid() && Inv(d, w, config) && MayMove(d, w, m) && Outside(prefix, m)
    ensures SamePrefix(d, w, Moved(d, w, m, config), prefix)
  {
    if m.Stretch? {
      var reply := StepIsGood(d, w, m.action, config);
    }
  }

  lemma {:induction false} MeanwhileKeeps(d: Discipline, w: World, prefix: Id, moves: seq<Move>, config: Config)
    requires d.Valid() && Inv(d, w, config)
    ensures Inv(d, Meanwhile(d, w, prefix, moves, config), config)
    ensures SamePrefix(d, w, Meanwhile(d, w, prefix, moves, config), prefix)
    decreases |moves|
  {
    if moves != [] {
      if MayMove(d, w, moves[0]) && Outside(prefix, moves[0]) {
        MoveKeeps(d, w, moves[0], config);
        OutsideKeepsPrefix(d, w, prefix, moves[0], config);
        var next := Moved(d, w, moves[0], config);
        MeanwhileKeeps(d, next, prefix, moves[1..], config);
        SamePrefixTwice(d, w, next, Meanwhile(d, next, prefix, moves[1..], config), prefix);
      } else {
        MeanwhileKeeps(d, w, prefix, moves[1..], config);
      }
    }
  }

  lemma SamePrefixTwice(d: Discipline, u: World, v: World, w: World, prefix: Id)
    requires SamePrefix(d, u, v, prefix) && SamePrefix(d, v, w, prefix)
    ensures SamePrefix(d, u, w, prefix)
  {
  }

  // ---- The sweep. ----

  /** What happens around one adapter call of the sweep: moves while it waits for the lock, moves while the adapter
      works, and the adapter's answer - none for any failure other than a rejection. */
  datatype Await = Await(before: seq<Move>, during: seq<Move>, answer: Option<Outcome>, now: Time) {
    /** Nothing else happens. */
    predicate Alone() {
      before == [] && during == []
    }

    predicate Accepts() {
      answer.Some? && answer.value.Done?
    }
  }

  ghost predicate NoneInFlight(w: World, prefix: Id) {
    forall x :: prefix <= x ==> x !in w.flights
  }

  /** The sweep adds nothing under the prefix. */
  ghost predicate Shrunk(d: Discipline, w: World, v: World, prefix: Id) {
    && (forall x :: prefix <= x && x in v.service.records ==> x in w.service.records)
    && (forall k :: prefix <= d.Owner(k) && k in v.service.pendingSchedules ==> k in w.service.pendingSchedules)
  }

  /** Everything about callbacks and keys outside the prefix is the same, values included. */
  ghost predicate OutsideIds(s: Service, t: Service, prefix: Id) {
    forall y :: !(prefix <= y) ==>
      && (y in s.records <==> y in t.records) && (y in s.records ==> s.records[y] == t.records[y])
      && (y in s.pendingCancellations <==> y in t.pendingCancellations)
      && (y in s.pendingCancellations ==> s.pendingCancellations[y] == t.pendingCancellations[y])
      && (y in s.incarnations <==> y in t.incarnations) && (y in s.incarnations ==> s.incarnations[y] == t.incarnations[y])
  }

  ghost predicate OutsideKeys(d: Discipline, s: Service, t: Service, prefix: Id) {
    forall k :: !(prefix <= d.Owner(k)) ==>
      && (k in s.fingerprints <==> k in t.fingerprints) && (k in s.fingerprints ==> s.fingerprints[k] == t.fingerprints[k])
      && (k in s.results <==> k in t.results) && (k in s.results ==> s.results[k] == t.results[k])
      && (k in s.failed <==> k in t.failed) && (k in s.failed ==> s.failed[k] == t.failed[k])
      && (k in s.pendingSchedules <==> k in t.pendingSchedules)
      && (k in s.pendingSchedules ==> s.pendingSchedules[k] == t.pendingSchedules[k])
      && (k in s.scheduleCancellations <==> k in t.scheduleCancellations)
      && (k in s.scheduleCancellations ==> s.scheduleCancellations[k] == t.scheduleCancellations[k])
  }

  ghost predicate OutsideAttempts(s: Service, t: Service, prefix: Id) {
    forall y, n :: !(prefix <= y) ==>
      && ((y, n) in s.attempts <==> (y, n) in t.attempts)
      && ((y, n) in s.attempts ==> s.attempts[(y, n)] == t.attempts[(y, n)])
  }

  ghost predicate OutsideFlights(w: World, v: World, prefix: Id) {
    forall y :: !(prefix <= y) ==> (y in w.flights <==> y in v.flights) && (y in w.flights ==> w.flights[y] == v.flights[y])
  }

  ghost predicate OutsideSame(d: Discipline, w: World, v: World, prefix: Id) {
    && OutsideIds(w.service, v.service, prefix) && OutsideKeys(d, w.service, v.service, prefix)
    && OutsideAttempts(w.service, v.service, prefix) && OutsideFlights(w, v, prefix)
  }

  lemma OutsideTwice(d: Discipline, u: World, v: World, w: World, prefix: Id)
    ensures OutsideSame(d, u, v, prefix) && OutsideSame(d, v, w, prefix) ==> OutsideSame(d, u, w, prefix)
  {
  }

  lemma StretchIsFramed(d: Discipline, w: World, prefix: Id, a: Action, config: Config)
    requires d.Valid() && Inv(d, w, config) && Enabled(d, w, a) && prefix <= Target(a)
    ensures OutsideSame(d, w, Step(d, w, a, config), prefix)
  {
    var reply := StepIsGood(d, w, a, config);
    TouchesOnlyPrefix(d, w.service, Step(d, w, a, config).service, Target(a), prefix);
  }

  lemma TouchesOnlyPrefix(d: Discipline, s: Service, t: Service, x: Id, prefix: Id)
    requires TouchesOnly(d, s, t, x) && prefix <= x
    ensures OutsideIds(s, t, prefix) && OutsideKeys(d, s, t, prefix) && OutsideAttempts(s, t, prefix)
  {
  }

  lemma ReleaseIsFramed(d: Discipline, w: World, prefix: Id, config: Config)
    requires d.Valid() && Inv(d, w, config)
    ensures OutsideSame(d, w, Moved(d, w, Release(prefix), config), prefix)
  {
    forall k | k in Reclaimable(w.service, prefix) ensures prefix <= d.Owner(k) {
      assert Slice(d, w.service, d.Owner(k));
    }
  }

  /** The teardown's own moves leave every callback and key outside the prefix as it was, values included. */
  lemma TeardownIsFramed(d: Discipline, w: World, prefix: Id, m: Move, config: Config)
    requires d.Valid() && Inv(d, w, config) && MayMove(d, w, m)
    requires m.Release? ==> m.prefix == prefix
    requires m.Stretch? ==> prefix <= Target(m.action)
    ensures OutsideSame(d, w, Moved(d, w, m, config), prefix)
  {
    if m.Stretch? {
      StretchIsFramed(d, w, prefix, m.action, config);
    } else {
      ReleaseIsFramed(d, w, prefix, config);
    }
  }

  predicate IsRemoval(a: Action) {
    a.RemoveSchedule? || a.RemoveRecord?
  }

  predicate Settled(d: Discipline, s: Service, a: Action)
    requires IsRemoval(a)
  {
    if a.RemoveSchedule? then d.ScheduleKey(a.id) !in s.pendingSchedules else a.id !in s.records
  }

  lemma RemovingScheduleBegins(s: Service, key: Key)
    ensures var r := BeginRemoveSchedule(s, key);
            && r.0.records == s.records && r.0.pendingSchedules == s.pendingSchedules
            && (if r.1.Calling? then r.1.flight.RemovingSchedule? else key !in s.pendingSchedules)
  {
  }

  predicate RecordsShrunk(s: Service, t: Service) {
    t.pendingSchedules == s.pendingSchedules && forall x :: x in t.records ==> x in s.records
  }

  lemma ForgottenShrinks(s: Service, id: Id)
    ensures RecordsShrunk(s, Forgotten(s, id)) && id !in Forgotten(s, id).records
  {
  }

  predicate ReplyToRemoval(t: Service, id: Id, reply: Reply) {
    match reply
    case Calling(flight) => flight.RemovingRecord?
    case Refused(error) => error == MissingEntry
    case Answered(_) => false
    case Nothing => id !in t.records
  }

  lemma RemovingRecordReplies(s: Service, id: Id, now: Time, ephemeral: bool)
    ensures ReplyToRemoval(BeginRemoveRecord(s, id, now, ephemeral).0, id, BeginRemoveRecord(s, id, now, ephemeral).1)
  {
    ForgottenShrinks(s, id);
  }

  lemma RemovingRecordShrinks(s: Service, id: Id, now: Time, ephemeral: bool)
    ensures RecordsShrunk(s, BeginRemoveRecord(s, id, now, ephemeral).0)
  {
    var t := BeginRemoveRecord(s, id, now, ephemeral).0;
    ForgottenShrinks(s, id);
    if id in s.records && id in s.incarnations && t != s && t != Forgotten(s, id) {
      var minted := Minted(s, id, s.incarnations[id]);
      assert RecordsShrunk(s, minted);
      if t != minted {
        assert t.records == s.records[id := WithStatus(s.records[id], CancellationPending, now)];
      }
    }
  }

  lemma RemovalBegins(d: Discipline, w: World, prefix: Id, a: Action, config: Config)
    requires d.Valid() && Inv(d, w, config) && Enabled(d, w, a) && IsRemoval(a)
    ensures var v := Step(d, w, a, config);
            && Shrunk(d, w, v, prefix)
            && (a.id in v.flights ==> Removes(v.flights[a.id], a))
            && (a.id !in v.flights ==> Settled(d, v.service, a))
  {
    var r := Begun(d, w.service, a, config);
    BegunIsGood(d, w.service, a, config);
    match a
    case RemoveSchedule(id) => RemovingScheduleBegins(w.service, d.ScheduleKey(id));
    case RemoveRecord(id, now) =>
      RemovingRecordReplies(w.service, id, now, config.ephemeral);
      RemovingRecordShrinks(w.service, id, now, config.ephemeral);
  }

  predicate Removes(f: Flight, a: Action)
    requires IsRemoval(a)
  {
    if a.RemoveSchedule? then f.RemovingSchedule? else f.RemovingRecord?
  }

  lemma RemovalEnds(d: Discipline, w: World, prefix: Id, a: Action, answer: Action, config: Config)
    requires d.Valid() && Inv(d, w, config) && IsRemoval(a) && a.id in w.flights
    requires Removes(w.flights[a.id], a)
    requires (answer.Answer? || answer.Lose?) && answer.id == a.id
    ensures var v := Step(d, w, answer, config);
            && Shrunk(d, w, v, prefix)
            && (answer.Answer? && answer.outcome.Done? ==> Settled(d, v.service, a))
  {
    assert FlightHolds(d, w.service, a.id, w.flights[a.id]);
  }

  /** Tear down one pending schedule or one record under its lock. */
  method RemoveOne(d: Discipline, start: World, prefix: Id, a: Action, await: Await, config: Config)
    returns (w: World, done: bool)
    requires d.Valid() && Inv(d, start, config) && NoneInFlight(start, prefix)
    requires IsRemoval(a) && prefix <= a.id
    ensures Inv(d, w, config) && NoneInFlight(w, prefix) && Shrunk(d, start, w, prefix)
    ensures done ==> Settled(d, w.service, a)
    ensures await.Accepts() ==> done
    ensures await.Alone() ==> OutsideSame(d, start, w, prefix)
  {
    w := Meanwhile(d, start, prefix, await.before, config);
    MeanwhileKeeps(d, start, prefix, await.before, config);
    RemovalBegins(d, w, prefix, a, config);
    StepKeeps(d, w, a, config);
    StretchIsFramed(d, w, prefix, a, config);
    w := Step(d, w, a, config);
    ghost var begun := w;
    if a.id !in w.flights { return w, true; }
    MeanwhileKeeps(d, w, prefix, await.during, config);
    w := Meanwhile(d, w, prefix, await.during, config);
    var answer := match await.answer case Some(outcome) => Answer(a.id, outcome, await.now) case None => Lose(a.id);
    RemovalEnds(d, w, prefix, a, answer, config);
    StepKeeps(d, w, answer, config);
    StretchIsFramed(d, w, prefix, answer, config);
    w := Step(d, w, answer, config);
    OutsideTwice(d, start, begun, w, prefix);
    done := await.answer.Some? && await.answer.value.Done?;
  }

  /** The elements of a set in some order. */
  method Listed<T(==)>(items: set<T>) returns (r: seq<T>)
    ensures forall x :: x in items <==> x in r
  {
    r := [];
    var rest := items;
    while rest != {}
      invariant forall x :: x in items <==> x in rest || x in r
      decreases |rest|
    {
      var x :| x in rest;
      r, rest := r + [x], rest - {x};
    }
  }

  /** Nothing of the prefix is left in any map. */
  ghost predicate Gone(d: Discipline, s: Service, prefix: Id) {
    && (forall x :: prefix <= x ==> x !in s.records && x !in s.pendingCancellations && x !in s.incarnations)
    && (forall k :: prefix <= d.Owner(k) ==>
          k !in s.pendingSchedules && k !in s.results && k !in s.fingerprints && k !in s.failed)
  }

  ghost predicate NoPending(d: Discipline, s: Service, prefix: Id) {
    forall k :: k in s.pendingSchedules ==> !(prefix <= d.Owner(k))
  }

  ghost predicate NoRecords(s: Service, prefix: Id) {
    forall x :: x in s.records ==> !(prefix <= x)
  }

  /** Once neither records nor pending schedules of the prefix are left, releasing its tombstones leaves nothing. */
  lemma ReleaseFinishes(d: Discipline, s: Service, prefix: Id)
    requires d.Valid() && Slices(d, s) && NoPending(d, s, prefix) && NoRecords(s, prefix)
    ensures Gone(d, ReleaseFailed(s, prefix), prefix)
  {
    var t := ReleaseFailed(s, prefix);
    forall x | prefix <= x ensures x !in t.records && x !in t.pendingCancellations && x !in t.incarnations {
      assert Slice(d, s, x);
    }
    forall k | prefix <= d.Owner(k)
      ensures k !in t.pendingSchedules && k !in t.results && k !in t.fingerprints && k !in t.failed
    {
      var x := d.Owner(k);
      assert Slice(d, s, x);
      if k in s.failed { NotLive(d, s, prefix, x); }
    }
  }

  lemma NotLive(d: Discipline, s: Service, prefix: Id, x: Id)
    requires d.Valid() && Slices(d, s) && NoPending(d, s, prefix) && NoRecords(s, prefix) && prefix <= x
    ensures !Live(s, x)
  {
    forall key | key in s.pendingSchedules ensures s.pendingSchedules[key].request.callbackId != x {
      assert Slice(d, s, d.Owner(key));
    }
  }

  /** Pending schedules and records of the prefix that the sweep has listed and not reached. */
  ghost predicate PendingWithin(d: Discipline, s: Service, prefix: Id, todo: seq<Id>) {
    forall k :: k in s.pendingSchedules && prefix <= d.Owner(k) ==> d.Owner(k) in todo
  }

  ghost predicate RecordsWithin(s: Service, prefix: Id, todo: seq<Id>) {
    forall x :: x in s.records && prefix <= x ==> x in todo
  }

  /** One sweep over listed callbacks. It stops at the first cancellation that fails. */
  method RemoveSchedules(d: Discipline, start: World, prefix: Id, ids: seq<Id>, awaits: nat -> Await, config: Config)
    returns (w: World, done: bool)
    requires d.Valid() && Inv(d, start, config) && NoneInFlight(start, prefix)
    requires (forall x :: x in ids ==> prefix <= x) && PendingWithin(d, start.service, prefix, ids)
    ensures Inv(d, w, config) && NoneInFlight(w, prefix)
    ensures done ==> NoPending(d, w.service, prefix)
    ensures (forall i: nat :: awaits(i).Accepts()) ==> done
    ensures (forall i: nat :: awaits(i).Alone()) ==> OutsideSame(d, start, w, prefix)
  {
    w := start;
    for i := 0 to |ids|
      invariant Inv(d, w, config) && NoneInFlight(w, prefix)
      invariant PendingWithin(d, w.service, prefix, ids[i..])
      invariant (forall j: nat :: awaits(j).Alone()) ==> OutsideSame(d, start, w, prefix)
    {
      ghost var was := w;
      assert ids[i] in ids;
      w, done := RemoveOne(d, w, prefix, RemoveSchedule(ids[i]), awaits(i), config);
      OutsideTwice(d, start, was, w, prefix);
      if !done { return; }
      PendingAdvances(d, was, w, prefix, ids, i);
    }
    done := true;
  }

  lemma PendingAdvances(d: Discipline, was: World, w: World, prefix: Id, ids: seq<Id>, i: nat)
    requires d.Valid() && i < |ids| && Slices(d, w.service) && Shrunk(d, was, w, prefix)
    requires PendingWithin(d, was.service, prefix, ids[i..]) && d.ScheduleKey(ids[i]) !in w.service.pendingSchedules
    ensures PendingWithin(d, w.service, prefix, ids[i + 1..])
  {
    forall k | k in w.service.pendingSchedules && prefix <= d.Owner(k) ensures d.Owner(k) in ids[i + 1..] {
      assert Slice(d, w.service, d.Owner(k));
      assert ids[i..] == [ids[i]] + ids[i + 1..];
    }
  }

  method RemoveRecords(d: Discipline, start: World, prefix: Id, ids: seq<Id>, awaits: nat -> Await, config: Config)
    returns (w: World, done: bool)
    requires d.Valid() && Inv(d, start, config) && NoneInFlight(start, prefix)
    requires (forall x :: x in ids ==> prefix <= x) && RecordsWithin(start.service, prefix, ids)
    requires NoPending(d, start.service, prefix)
    ensures Inv(d, w, config) && NoneInFlight(w, prefix)
    ensures done ==> NoPending(d, w.service, prefix) && NoRecords(w.service, prefix)
    ensures (forall i: nat :: awaits(i).Accepts()) ==> done
    ensures (forall i: nat :: awaits(i).Alone()) ==> OutsideSame(d, start, w, prefix)
  {
    w := start;
    for i := 0 to |ids|
      invariant Inv(d, w, config) && NoneInFlight(w, prefix)
      invariant RecordsWithin(w.service, prefix, ids[i..]) && NoPending(d, w.service, prefix)
      invariant (forall j: nat :: awaits(j).Alone()) ==> OutsideSame(d, start, w, prefix)
    {
      ghost var was := w;
      assert ids[i] in ids;
      w, done := RemoveOne(d, w, prefix, RemoveRecord(ids[i], awaits(i).now), awaits(i), config);
      OutsideTwice(d, start, was, w, prefix);
      if !done { return; }
      RecordsAdvance(d, was, w, prefix, ids, i);
    }
    done := true;
  }

  lemma RecordsAdvance(d: Discipline, was: World, w: World, prefix: Id, ids: seq<Id>, i: nat)
    requires i < |ids| && Shrunk(d, was, w, prefix) && ids[i] !in w.service.records
    requires RecordsWithin(was.service, prefix, ids[i..]) && NoPending(d, was.service, prefix)
    ensures RecordsWithin(w.service, prefix, ids[i + 1..]) && NoPending(d, w.service, prefix)
  {
    assert ids[i..] == [ids[i]] + ids[i + 1..];
  }

  /** The whole teardown of a prefix. With no operation of the prefix in flight when it starts and none started by other
      tasks while it runs, finishing means that nothing of the prefix is left in any map. It finishes when every
      cancellation is accepted, and by itself changes nothing outside the prefix, finished or not; whatever happens, the
      maps of all callbacks stay in agreement. */
  method RemoveByPrefix(d: Discipline, start: World, prefix: Id, config: Config,
                        scheduleAwaits: nat -> Await, recordAwaits: nat -> Await)
    returns (w: World, finished: bool)
    requires d.Valid() && Inv(d, start, config) && NoneInFlight(start, prefix)
    ensures Inv(d, w, config) && NoneInFlight(w, prefix)
    ensures finished ==> Gone(d, w.service, prefix)
    ensures (forall i: nat :: scheduleAwaits(i).Accepts() && recordAwaits(i).Accepts()) ==> finished
    ensures (forall i: nat :: scheduleAwaits(i).Alone() && recordAwaits(i).Alone()) ==> OutsideSame(d, start, w, prefix)
  {
    w := start;
    var pending := w.service.pendingSchedules;
    var ids := Listed(set key | key in pending && prefix <= pending[key].request.callbackId
                        :: pending[key].request.callbackId);
    forall k | k in pending && prefix <= d.Owner(k) ensures d.Owner(k) in ids {
      assert Slice(d, w.service, d.Owner(k)) && pending[k].request.callbackId == d.Owner(k);
    }
    w, finished := RemoveSchedules(d, w, prefix, ids, scheduleAwaits, config);
    if !finished { return; }
    ghost var swept := w;
    ids := Listed(set x | x in w.service.records && prefix <= x);
    w, finished := RemoveRecords(d, w, prefix, ids, recordAwaits, config);
    OutsideTwice(d, start, swept, w, prefix);
    if !finished { return; }
    ReleaseFinishes(d, w.service, prefix);
    ReleaseKeeps(d, w, prefix, config);
    ReleaseIsFramed(d, w, prefix, config);
    OutsideTwice(d, start, w, Moved(d, w, Release(prefix), config), prefix);
    w := Moved(d, w, Release(prefix), config);
  }
}
