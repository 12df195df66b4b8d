/** The edit distance between two token lists: a two-row table that computes the least cost of any edit script. */
module EditDistance {

  /** One step of rewriting a reference into a hypothesis. Changing an item into itself is free. */
  datatype Edit<T(==)> = Delete(removed: T) | Insert(added: T) | Change(removed: T, added: T) {
    function Cost(): nat {
      if Change? && removed == added then 0 else 1
    }
  }

  type Script<T(==)> = seq<Edit<T>>

  function Cost<T(==)>(script: Script<T>): nat {
    if script == [] then 0 else Cost(script[..|script| - 1]) + script[|script| - 1].Cost()
  }

  /** The items a script consumes. */
  function From<T(==)>(script: Script<T>): seq<T> {
    if script == [] then []
    else
      var e := script[|script| - 1];
      From(script[..|script| - 1]) + if e.Insert? then [] else [e.removed]
  }

  /** The items a script produces. */
  function To<T(==)>(script: Script<T>): seq<T> {
    if script == [] then []
    else
      var e := script[|script| - 1];
      To(script[..|script| - 1]) + if e.Delete? then [] else [e.added]
  }

  predicate Rewrites<T(==)>(script: Script<T>, a: seq<T>, b: seq<T>) {
    From(script) == a && To(script) == b
  }

  /** d is the least cost of rewriting a into b. */
  ghost predicate IsDistance<T(!new)>(a: seq<T>, b: seq<T>, d: nat) {
    && (exists script: Script<T> :: Rewrites(script, a, b) && Cost(script) == d)
    && (forall script: Script<T> :: Rewrites(script, a, b) ==> d <= Cost(script))
  }

  function Min(x: nat, y: nat): nat { if x <= y then x else y }

  /** The recurrence the table is filled by: the distance between the first i items of a and the first j of b. */
  function Table<T(==)>(a: seq<T>, b: seq<T>, i: nat, j: nat): nat
    requires i <= |a| && j <= |b|
  {
    if i == 0 then j
    else if j == 0 then i
    else
      Min(Min(Table(a, b, i, j - 1) + 1, Table(a, b, i - 1, j) + 1),
          Table(a, b, i - 1, j - 1) + if a[i - 1] != b[j - 1] then 1 else 0)
  }

  function Distance<T(==)>(a: seq<T>, b: seq<T>): nat {
    Table(a, b, |a|, |b|)
  }

  lemma Extend<T(!new)>(script: Script<T>, e: Edit<T>)
    ensures Cost(script + [e]) == Cost(script) + e.Cost()
    ensures From(script + [e]) == From(script) + if e.Insert? then [] else [e.removed]
    ensures To(script + [e]) == To(script) + if e.Delete? then [] else [e.added]
  {
    assert (script + [e])[..|script|] == script;
  }

  lemma PrefixGrows<T>(s: seq<T>, n: nat)
    requires n <= |s|
    ensures n > 0 ==> s[..n] == s[..n - 1] + [s[n - 1]]
  {
  }

  /** One more edit rewrites prefixes one item longer. */
  lemma ExtendPrefixes<T(!new)>(script: Script<T>, e: Edit<T>, a: seq<T>, b: seq<T>, i: nat, j: nat)
    requires i <= |a| && j <= |b|
    requires (!e.Insert? ==> i > 0 && e.removed == a[i - 1]) && (!e.Delete? ==> j > 0 && e.added == b[j - 1])
    requires Rewrites(script, a[..if e.Insert? then i else i - 1], b[..if e.Delete? then j else j - 1])
    ensures Rewrites(script + [e], a[..i], b[..j]) && Cost(script + [e]) == Cost(script) + e.Cost()
  {
    Extend(script, e);
    PrefixGrows(a, i);
    PrefixGrows(b, j);
  }

  /** Some script attains the recurrence. */
  lemma {:induction false} Attained<T(!new)>(a: seq<T>, b: seq<T>, i: nat, j: nat) returns (script: Script<T>)
    requires i <= |a| && j <= |b|
    ensures Rewrites(script, a[..i], b[..j]) && Cost(script) == Table(a, b, i, j)
    decreases i + j
  {
    if i == 0 && j == 0 { return []; }
    var e: Edit<T>;
    if i == 0 || (j > 0 && Table(a, b, i, j) == Table(a, b, i, j - 1) + 1) {
      e := Insert(b[j - 1]);
      script := Attained(a, b, i, j - 1);
    } else if j == 0 || Table(a, b, i, j) == Table(a, b, i - 1, j) + 1 {
      e := Delete(a[i - 1]);
      script := Attained(a, b, i - 1, j);
    } else {
      e := Change(a[i - 1], b[j - 1]);
      script := Attained(a, b, i - 1, j - 1);
    }
    ExtendPrefixes(script, e, a, b, i, j);
    script := script + [e];
  }

  lemma FromShorter<T(!new)>(script: Script<T>, a: seq<T>, i: nat)
    requires i <= |a| && script != [] && From(script) == a[..i]
    ensures var e := script[|script| - 1];
            if e.Insert? then From(script[..|script| - 1]) == a[..i]
            else i > 0 && From(script[..|script| - 1]) == a[..i - 1] && e.removed == a[i - 1]
  {
    var e := script[|script| - 1];
    if !e.Insert? {
      var init := From(script[..|script| - 1]);
      assert a[..i] == init + [e.removed];
      assert (init + [e.removed])[..|init|] == init && |init| == i - 1;
      assert a[..i][..i - 1] == a[..i - 1];
    }
  }

  lemma ToShorter<T(!new)>(script: Script<T>, b: seq<T>, j: nat)
    requires j <= |b| && script != [] && To(script) == b[..j]
    ensures var e := script[|script| - 1];
            if e.Delete? then To(script[..|script| - 1]) == b[..j]
            else j > 0 && To(script[..|script| - 1]) == b[..j - 1] && e.added == b[j - 1]
  {
    var e := script[|script| - 1];
    if !e.Delete? {
      var init := To(script[..|script| - 1]);
      assert b[..j] == init + [e.added];
      assert (init + [e.added])[..|init|] == init && |init| == j - 1;
      assert b[..j][..j - 1] == b[..j - 1];
    }
  }

  /** A script without its last edit rewrites shorter prefixes, one step away in the table. */
  lemma LastEdit<T(!new)>(a: seq<T>, b: seq<T>, i: nat, j: nat, script: Script<T>) returns (i': nat, j': nat)
    requires i <= |a| && j <= |b| && Rewrites(script, a[..i], b[..j]) && script != []
    ensures i' <= i && j' <= j && Rewrites(script[..|script| - 1], a[..i'], b[..j'])
    ensures Table(a, b, i, j) <= Table(a, b, i', j') + script[|script| - 1].Cost()
  {
    var init, e := script[..|script| - 1], script[|script| - 1];
    i', j' := if e.Insert? then i else i - 1, if e.Delete? then j else j - 1;
    FromShorter(script, a, i);
    ToShorter(script, b, j);
  }

  /** No script is cheaper than the recurrence. */
  lemma {:induction false} LowerBound<T(!new)>(a: seq<T>, b: seq<T>, i: nat, j: nat, script: Script<T>)
    requires i <= |a| && j <= |b| && Rewrites(script, a[..i], b[..j])
    ensures Table(a, b, i, j) <= Cost(script)
    decreases |script|
  {
    if script != [] {
      var i', j' := LastEdit(a, b, i, j, script);
      LowerBound(a, b, i', j', script[..|script| - 1]);
    }
  }

  lemma DistanceIsLeast<T(!new)>(a: seq<T>, b: seq<T>)
    ensures IsDistance(a, b, Distance(a, b))
  {
    var best := Attained(a, b, |a|, |b|);
    assert a[..|a|] == a && b[..|b|] == b;
    forall script: Script<T> | Rewrites(script, a, b) ensures Distance(a, b) <= Cost(script) {
      LowerBound(a, b, |a|, |b|, script);
    }
  }

  /** The first n entries of row i of the table. */
  ghost predicate IsRow<T>(a: seq<T>, b: seq<T>, i: nat, row: seq<nat>, n: nat)
    requires i <= |a| && n <= |b| + 1
  {
    |row| == n && forall j {:trigger row[j]} :: 0 <= j < n ==> row[j] == Table(a, b, i, j)
  }

  lemma RowGrows<T(!new)>(a: seq<T>, b: seq<T>, i: nat, j: nat, row: seq<nat>, x: nat)
    requires i <= |a| && j <= |b| && IsRow(a, b, i, row, j) && x == Table(a, b, i, j)
    ensures IsRow(a, b, i, row + [x], j + 1)
  {
  }

  /** The two-row algorithm. What it returns is the least cost of any edit script. */
  method TwoRowDistance<T(==, !new)>(reference: seq<T>, hypothesis: seq<T>) returns (d: nat)
    ensures IsDistance(reference, hypothesis, d)
    ensures d == Distance(reference, hypothesis)
  {
    var previous: seq<nat> := seq(|hypothesis| + 1, j => j);
    for i := 0 to |reference|
      invariant IsRow(reference, hypothesis, i, previous, |hypothesis| + 1)
    {
      var current: seq<nat> := [i + 1];
      for j := 0 to |hypothesis|
        invariant IsRow(reference, hypothesis, i + 1, current, j + 1)
      {
        var substituted := previous[j] + if reference[i] != hypothesis[j] then 1 else 0;
        var cheapest := Min(Min(current[j] + 1, previous[j + 1] + 1), substituted);
        RowGrows(reference, hypothesis, i + 1, j + 1, current, cheapest);
        current := current + [cheapest];
      }
      previous := current;
    }
    d := previous[|hypothesis|];
    DistanceIsLeast(reference, hypothesis);
  }

  // ----- it is a metric -----

  function Inverse<T(==)>(script: Script<T>): Script<T> {
    if script == [] then []
    else
      Inverse(script[..|script| - 1]) + [match script[|script| - 1]
                                         case Delete(x) => Insert(x)
                                         case Insert(y) => Delete(y)
                                         case Change(x, y) => Change(y, x)]
  }

  lemma {:induction false} InverseRewrites<T(!new)>(script: Script<T>)
    ensures Rewrites(Inverse(script), To(script), From(script)) && Cost(Inverse(script)) == Cost(script)
  {
    if script != [] {
      var init := script[..|script| - 1];
      InverseRewrites(init);
      Extend(Inverse(init), Inverse(script)[|Inverse(script)| - 1]);
    }
  }

  /** Scripts from a to b and from b to c combine into one from a to c that costs no more than both. */
  lemma {:induction false} Compose<T(!new)>(first: Script<T>, second: Script<T>) returns (both: Script<T>)
    requires To(first) == From(second)
    ensures Rewrites(both, From(first), To(second)) && Cost(both) <= Cost(first) + Cost(second)
    decreases |first| + |second|
  {
    if first == [] && second == [] {
      both := [];
    } else if second != [] && second[|second| - 1].Insert? {
      var init := Compose(first, second[..|second| - 1]);
      Extend(init, second[|second| - 1]);
      both := init + [second[|second| - 1]];
    } else if first != [] && first[|first| - 1].Delete? {
      var init := Compose(first[..|first| - 1], second);
      Extend(init, first[|first| - 1]);
      both := init + [first[|first| - 1]];
    } else {
      var f, s := first[|first| - 1], second[|second| - 1];
      var first', second' := first[..|first| - 1], second[..|second| - 1];
      assert To(first') == To(first)[..|To(first)| - 1] == From(second)[..|From(second)| - 1] == From(second');
      var init := Compose(first', second');
      if f.Insert? && s.Delete? {
        both := init;
      } else {
        var e := if f.Insert? then Insert(s.added) else if s.Delete? then Delete(f.removed) else Change(f.removed, s.added);
        Extend(init, e);
        both := init + [e];
      }
    }
  }

  lemma {:induction false} FreeScriptCopies<T(!new)>(script: Script<T>)
    ensures Cost(script) == 0 ==> From(script) == To(script)
  {
    if script != [] { FreeScriptCopies(script[..|script| - 1]); }
  }

  lemma {:induction false} SameIsFree<T(!new)>(a: seq<T>, i: nat)
    requires i <= |a|
    ensures Table(a, a, i, i) == 0
  {
    if i > 0 { SameIsFree(a, i - 1); }
  }

  lemma {:induction false} TableAtLeast<T(!new)>(a: seq<T>, b: seq<T>, i: nat, j: nat)
    requires i <= |a| && j <= |b|
    ensures i - j <= Table(a, b, i, j) && j - i <= Table(a, b, i, j)
    decreases i + j
  {
    if i > 0 && j > 0 {
      TableAtLeast(a, b, i, j - 1);
      TableAtLeast(a, b, i - 1, j);
      TableAtLeast(a, b, i - 1, j - 1);
    }
  }

  lemma {:induction false} TableAtMost<T(!new)>(a: seq<T>, b: seq<T>, i: nat, j: nat)
    requires i <= |a| && j <= |b|
    ensures Table(a, b, i, j) <= if i < j then j else i
    decreases i + j
  {
    if i > 0 && j > 0 { TableAtMost(a, b, i - 1, j - 1); }
  }

  /** The least cost of edit scripts is a metric between lists, and lies between the length difference and the
      longer length. */
  lemma DistanceIsMetric<T(!new)>(a: seq<T>, b: seq<T>, c: seq<T>, ab: nat, ba: nat, bc: nat, ac: nat)
    requires IsDistance(a, b, ab) && IsDistance(b, a, ba) && IsDistance(b, c, bc) && IsDistance(a, c, ac)
    ensures ab == 0 <==> a == b
    ensures ab == ba
    ensures ac <= ab + bc
    ensures |a| - |b| <= ab && |b| - |a| <= ab && ab <= if |a| < |b| then |b| else |a|
  {
    var there: Script<T> :| Rewrites(there, a, b) && Cost(there) == ab;
    var back: Script<T> :| Rewrites(back, b, a) && Cost(back) == ba;
    var on: Script<T> :| Rewrites(on, b, c) && Cost(on) == bc;
    InverseRewrites(there);
    InverseRewrites(back);
    var both := Compose(there, on);
    DistanceIsLeast(a, b);
    TableAtLeast(a, b, |a|, |b|);
    TableAtMost(a, b, |a|, |b|);
    FreeScriptCopies(there);
    if a == b { SameIsFree(a, |a|); }
  }
}
