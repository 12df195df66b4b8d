/** Merging speech intervals, the two-pointer overlap of merged lists, and the scores built on them. Times are
    exact reals; an interval covers its start and not its end. */
module Intervals {
  import opened Common

  datatype Interval = Interval(start: real, end: real) {
    /** The constructor check. */
    predicate Valid() {
      0.0 <= start < end
    }

    predicate Covers(t: real) {
      start <= t < end
    }

    function Length(): real {
      end - start
    }
  }

  type Span = i: Interval | i.Valid() witness Interval(0.0, 1.0)

  /** Some interval of the list covers the point. */
  ghost predicate Covers(list: seq<Span>, t: real) {
    exists i :: 0 <= i < |list| && list[i].Covers(t)
  }

  ghost predicate SamePoints(a: seq<Span>, b: seq<Span>) {
    forall t :: Covers(a, t) <==> Covers(b, t)
  }

  predicate ByStart(list: seq<Span>) {
    forall i, j :: 0 <= i < j < |list| ==> list[i].start <= list[j].start
  }

  /** In order and with a gap between any two intervals. */
  predicate Separated(list: seq<Span>) {
    forall i, j :: 0 <= i < j < |list| ==> list[i].end < list[j].start
  }

  function RMax(x: real, y: real): real { if x >= y then x else y }

  function RMin(x: real, y: real): real { if x <= y then x else y }

  // ----- merging -----

  function InsertByStart(list: seq<Span>, x: Span): (r: seq<Span>)
    requires ByStart(list)
    ensures ByStart(r) && |r| == |list| + 1 && forall y :: y in r <==> y == x || y in list
  {
    if list == [] then [x]
    else if x.start < list[|list| - 1].start then
      var init, last := list[..|list| - 1], list[|list| - 1];
      assert list == init + [last];
      assert forall y :: y in init ==> y.start <= last.start;
      InsertByStart(init, x) + [last]
    else list + [x]
  }

  /** Stable sorting by start. */
  function SortedByStart(list: seq<Span>): (r: seq<Span>)
    ensures ByStart(r) && |r| == |list| && forall y :: y in r <==> y in list
  {
    if list == [] then []
    else
      assert list == list[..|list| - 1] + [list[|list| - 1]];
      InsertByStart(SortedByStart(list[..|list| - 1]), list[|list| - 1])
  }

  lemma SortingKeepsPoints(list: seq<Span>)
    ensures SamePoints(SortedByStart(list), list)
  {
    var sorted := SortedByStart(list);
    forall t ensures Covers(sorted, t) <==> Covers(list, t) {
      if Covers(sorted, t) {
        var i :| 0 <= i < |sorted| && sorted[i].Covers(t);
        assert sorted[i] in list;
        var j :| 0 <= j < |list| && list[j] == sorted[i];
      }
      if Covers(list, t) {
        var i :| 0 <= i < |list| && list[i].Covers(t);
        assert list[i] in sorted;
        var j :| 0 <= j < |sorted| && sorted[j] == list[i];
      }
    }
  }

  /** m is the list in merged form: in order, strictly separated, covering the same points. */
  ghost predicate IsMerge(list: seq<Span>, m: seq<Span>) {
    Separated(m) && SamePoints(m, list)
  }

  method Merge(intervals: seq<Span>) returns (merged: seq<Span>)
    ensures IsMerge(intervals, merged)
  {
    var sorted := SortedByStart(intervals);
    merged := [];
    for i := 0 to |sorted|
      invariant Separated(merged) && SamePoints(merged, sorted[..i])
      invariant merged != [] ==> forall j :: i <= j < |sorted| ==> merged[|merged| - 1].start <= sorted[j].start
    {
      var interval := sorted[i];
      SliceGrows(sorted, i);
      CoversConcat(sorted[..i], [interval]);
      if merged == [] || interval.start > merged[|merged| - 1].end {
        CoversConcat(merged, [interval]);
        merged := merged + [interval];
      } else {
        JoinLast(merged, interval);
        var previous := merged[|merged| - 1];
        merged := merged[|merged| - 1 := Interval(previous.start, RMax(previous.end, interval.end))];
      }
    }
    assert sorted[..|sorted|] == sorted;
    SortingKeepsPoints(intervals);
  }

  /** Widening the last interval by one that starts within or at the end of it adds exactly its points. */
  lemma JoinLast(merged: seq<Span>, interval: Span)
    requires merged != [] && Separated(merged)
    requires merged[|merged| - 1].start <= interval.start <= merged[|merged| - 1].end
    ensures var previous := merged[|merged| - 1];
            var joined := merged[|merged| - 1 := Interval(previous.start, RMax(previous.end, interval.end))];
            Separated(joined) && forall t :: Covers(joined, t) <==> Covers(merged, t) || interval.Covers(t)
  {
    var n := |merged| - 1;
    var previous := merged[n];
    var joined := merged[n := Interval(previous.start, RMax(previous.end, interval.end))];
    forall t ensures Covers(joined, t) <==> Covers(merged, t) || interval.Covers(t) {
      if Covers(joined, t) {
        var i :| 0 <= i <= n && joined[i].Covers(t);
        assert i < n ==> merged[i].Covers(t);
        assert i == n ==> previous.Covers(t) || interval.Covers(t);
      }
      if Covers(merged, t) {
        var i :| 0 <= i <= n && merged[i].Covers(t);
        assert joined[i].Covers(t);
      }
      if interval.Covers(t) { assert joined[n].Covers(t); }
    }
  }

  lemma CoversConcat(a: seq<Span>, b: seq<Span>)
    ensures forall t :: Covers(a + b, t) <==> Covers(a, t) || Covers(b, t)
    ensures forall t :: |b| == 1 ==> (Covers(b, t) <==> b[0].Covers(t))
  {
    forall t ensures Covers(a + b, t) <==> Covers(a, t) || Covers(b, t) {
      if i :| 0 <= i < |a| && a[i].Covers(t) { assert (a + b)[i].Covers(t); }
      if i :| 0 <= i < |b| && b[i].Covers(t) { assert (a + b)[|a| + i].Covers(t); }
    }
  }

  lemma SeparatedTail(list: seq<Span>)
    requires Separated(list) && list != []
    ensures Separated(list[1..])
    ensures forall t :: Covers(list[1..], t) <==> Covers(list, t) && !list[0].Covers(t)
    ensures forall t :: Covers(list[1..], t) ==> list[0].end < t
  {
    assert list == [list[0]] + list[1..];
    CoversConcat([list[0]], list[1..]);
    assert forall t :: Covers([list[0]], t) <==> list[0].Covers(t) by { CoversConcat([], [list[0]]); }
  }

  lemma SameHead(a: seq<Span>, b: seq<Span>)
    requires Separated(a) && Separated(b) && SamePoints(a, b) && a != [] && b != []
    ensures a[0].start <= b[0].start && a[0].end <= b[0].end
  {
    assert b[0].Covers(b[0].start) && Covers(b, b[0].start);
    var m :| 0 <= m < |a| && a[m].Covers(b[0].start);
    assert b[0].end <= a[0].start || b[0].Covers(a[0].start) || a[0].start < b[0].start;
    assert a[0].Covers(a[0].start) && Covers(a, a[0].start);
    var k :| 0 <= k < |b| && b[k].Covers(a[0].start);
    assert !Covers(b, b[0].end);
    assert !Covers(a, b[0].end);
    assert !a[0].Covers(b[0].end);
  }

  lemma CoversItsStart(a: seq<Span>)
    ensures a != [] ==> Covers(a, a[0].start)
  {
    if a != [] { assert a[0].Covers(a[0].start); }
  }

  /** The merged form is canonical: two merged lists covering the same points are the same list. So merging
      depends only on the points covered: it is idempotent and indifferent to order and duplicates. */
  lemma {:induction false} MergedFormIsUnique(a: seq<Span>, b: seq<Span>)
    requires Separated(a) && Separated(b) && SamePoints(a, b)
    ensures a == b
  {
    if a == [] || b == [] {
      CoversItsStart(a);
      CoversItsStart(b);
    } else {
      SameHead(a, b);
      SameHead(b, a);
      SeparatedTail(a);
      SeparatedTail(b);
      MergedFormIsUnique(a[1..], b[1..]);
      assert a == [a[0]] + a[1..] && b == [b[0]] + b[1..];
    }
  }

  // ----- overlap -----

  function Intersection(a: Span, b: Span): real {
    RMax(0.0, RMin(a.end, b.end) - RMax(a.start, b.start))
  }

  /** Total intersection of one interval with a list. */
  function RowSum(a: Span, list: seq<Span>): real {
    if list == [] then 0.0 else Intersection(a, list[0]) + RowSum(a, list[1..])
  }

  /** The sum of all pairwise intersections. */
  function PairSum(left: seq<Span>, right: seq<Span>): real {
    if left == [] then 0.0 else RowSum(left[0], right) + PairSum(left[1..], right)
  }

  function Duration(list: seq<Span>): real {
    if list == [] then 0.0 else list[0].Length() + Duration(list[1..])
  }

  lemma {:induction false} RowBeyond(a: Span, list: seq<Span>)
    requires forall i :: 0 <= i < |list| ==> a.end <= list[i].start
    ensures RowSum(a, list) == 0.0
  {
    if list != [] { RowBeyond(a, list[1..]); }
  }

  lemma {:induction false} PairSumColumn(left: seq<Span>, right: seq<Span>)
    requires right != []
    ensures PairSum(left, right) == RowSum(right[0], left) + PairSum(left, right[1..])
  {
    if left != [] { PairSumColumn(left[1..], right); }
  }

  lemma {:induction false} PairSumEmpty(left: seq<Span>)
    ensures PairSum(left, []) == 0.0
  {
    if left != [] { PairSumEmpty(left[1..]); }
  }

  lemma {:induction false} PairSumSymmetric(left: seq<Span>, right: seq<Span>)
    ensures PairSum(left, right) == PairSum(right, left)
  {
    if right == [] {
      PairSumEmpty(left);
    } else {
      PairSumColumn(left, right);
      PairSumSymmetric(left, right[1..]);
    }
  }

  /** The two-pointer sweep of two merged lists adds up every pairwise intersection. */
  method Overlap(left: seq<Span>, right: seq<Span>) returns (total: real)
    requires Separated(left) && Separated(right)
    ensures total == PairSum(left, right)
  {
    total := 0.0;
    var i, j := 0, 0;
    while i < |left| && j < |right|
      invariant 0 <= i <= |left| && 0 <= j <= |right|
      invariant total + PairSum(left[i..], right[j..]) == PairSum(left, right)
      decreases |left| - i + |right| - j
    {
      var l, r := left[i], right[j];
      assert left[i..][1..] == left[i + 1..] && right[j..][1..] == right[j + 1..];
      total := total + RMax(0.0, RMin(l.end, r.end) - RMax(l.start, r.start));
      if l.end <= r.end {
        RowBeyond(l, right[j + 1..]);
        i := i + 1;
      } else {
        PairSumColumn(left[i..], right[j..]);
        RowBeyond(r, left[i + 1..]);
        j := j + 1;
      }
    }
    if i == |left| { assert left[i..] == []; } else { PairSumEmpty(left[i..]); assert right[j..] == []; }
  }

  /** The part of an interval from a point on. */
  lemma {:induction false} RowClip(a: Span, b: Span, list: seq<Span>)
    requires b.end == a.end && a.start <= b.start
    requires forall i :: 0 <= i < |list| ==> b.start <= list[i].start
    ensures RowSum(a, list) == RowSum(b, list)
  {
    if list != [] { RowClip(a, b, list[1..]); }
  }

  /** An interval overlaps a separated list by at most its length, and by all of it exactly when the list covers
      every point of it. */
  lemma {:induction false} RowBound(a: Span, list: seq<Span>)
    requires Separated(list)
    ensures 0.0 <= RowSum(a, list) <= a.Length()
    ensures RowSum(a, list) == a.Length() ==> forall t :: a.Covers(t) ==> Covers(list, t)
    decreases |list|
  {
    if list == [] {
    } else {
      var b := list[0];
      SeparatedTail(list);
      if b.end <= a.start {
        RowBound(a, list[1..]);
      } else if a.end <= b.start {
        RowBeyond(a, list[1..]);
      } else if a.end <= b.end {
        RowBeyond(a, list[1..]);
        assert forall t :: b.Covers(t) ==> Covers(list, t);
      } else {
        var rest: Span := Interval(b.end, a.end);
        RowClip(a, rest, list[1..]);
        RowBound(rest, list[1..]);
        assert forall t :: b.Covers(t) ==> Covers(list, t);
      }
    }
  }

  lemma {:induction false} PairSumBound(left: seq<Span>, right: seq<Span>)
    requires Separated(right)
    ensures 0.0 <= PairSum(left, right) <= Duration(left)
    ensures PairSum(left, right) == Duration(left) ==> forall t :: Covers(left, t) ==> Covers(right, t)
  {
    if left != [] {
      RowBound(left[0], right);
      PairSumBound(left[1..], right);
      assert left == [left[0]] + left[1..];
      CoversConcat([left[0]], left[1..]);
    }
  }

  lemma {:induction false} SelfOverlap(list: seq<Span>)
    requires Separated(list)
    ensures PairSum(list, list) == Duration(list)
  {
    if list != [] {
      SeparatedTail(list);
      RowBeyond(list[0], list[1..]);
      PairSumColumn(list[1..], list);
      RowBeyond(list[0], list[1..]);
      SelfOverlap(list[1..]);
    }
  }

  // ----- scores -----

  datatype Score = Score(precision: real, recall: real, f1: real)

  function ScoreOf(overlap: real, predicted: real, reference: real): Score {
    if predicted == 0.0 && reference == 0.0 then Score(1.0, 1.0, 1.0)
    else
      var precision, recall := Share(overlap, predicted), Share(overlap, reference);
      Score(precision, recall, Harmonic(precision, recall))
  }

  function Share(x: real, y: real): real {
    if y != 0.0 then x / y else 0.0
  }

  function Harmonic(p: real, r: real): real {
    if p + r == 0.0 then 0.0 else 2.0 * p * r / (p + r)
  }

  /** Precision is the share of the prediction, recall the share of the reference, F1 their harmonic mean. */
  predicate Ratios(s: Score, overlap: real, predicted: real, reference: real) {
    && s.precision * predicted == overlap && s.recall * reference == overlap
    && s.f1 * (s.precision + s.recall) == 2.0 * s.precision * s.recall
  }

  /** The score of two lists by their merged forms. */
  ghost predicate ScoredBy(reference: seq<Span>, prediction: seq<Span>, r: seq<Span>, p: seq<Span>, s: Score) {
    && IsMerge(reference, r) && IsMerge(prediction, p)
    && s == ScoreOf(PairSum(r, p), Duration(p), Duration(r))
    && Ratios(s, PairSum(r, p), Duration(p), Duration(r))
  }

  lemma MergedScore(reference: seq<Span>, prediction: seq<Span>, r: seq<Span>, p: seq<Span>)
    requires IsMerge(reference, r) && IsMerge(prediction, p)
    ensures var s := ScoreOf(PairSum(r, p), Duration(p), Duration(r));
            && ScoredBy(reference, prediction, r, p, s) && InUnit(s)
            && (s.f1 == 1.0 <==> SamePoints(reference, prediction))
  {
    ScoresAreBounded(r, p);
    OverlapFacts(r, p);
    ScoreRatios(PairSum(r, p), Duration(p), Duration(r));
    assert SamePoints(reference, prediction) <==> SamePoints(r, p);
  }

  /** Merge both lists, sweep them, and score. */
  method VadScore(reference: seq<Span>, prediction: seq<Span>) returns (s: Score)
    ensures exists r, p :: ScoredBy(reference, prediction, r, p, s)
    ensures InUnit(s)
    ensures s.f1 == 1.0 <==> SamePoints(reference, prediction)
  {
    var r := Merge(reference);
    var p := Merge(prediction);
    var overlap := Overlap(r, p);
    s := ScoreOf(overlap, Duration(p), Duration(r));
    MergedScore(reference, prediction, r, p);
  }

  lemma {:induction false} DurationPositive(list: seq<Span>)
    ensures Duration(list) >= 0.0 && (Duration(list) == 0.0 <==> list == [])
  {
    if list != [] { DurationPositive(list[1..]); }
  }

  lemma RatioBounds(x: real, y: real)
    requires 0.0 <= x <= y && y > 0.0
    ensures 0.0 <= x / y <= 1.0 && (x / y == 1.0 <==> x == y)
  {
  }

  lemma Nonnegative(x: real, y: real)
    requires x >= 0.0 && y >= 0.0
    ensures x * y >= 0.0 && (x * y == 0.0 <==> x == 0.0 || y == 0.0)
  {
  }

  lemma HarmonicBounds(p: real, r: real)
    requires 0.0 <= p <= 1.0 && 0.0 <= r <= 1.0 && p + r != 0.0
    ensures 0.0 <= 2.0 * p * r / (p + r) <= 1.0
    ensures 2.0 * p * r / (p + r) == 1.0 <==> p == 1.0 && r == 1.0
  {
    var pr := p * r;
    Nonnegative(p, r);
    Nonnegative(p, 1.0 - r);
    Nonnegative(r, 1.0 - p);
    assert p * (1.0 - r) == p - pr && r * (1.0 - p) == r - pr;
    assert 2.0 * p * r == pr + pr;
    RatioBounds(pr + pr, p + r);
  }

  /** The scores lie in [0, 1], and F1 is 1 exactly when prediction and reference cover the same points. */
  lemma ScoresAreBounded(r: seq<Span>, p: seq<Span>)
    requires Separated(r) && Separated(p)
    ensures InUnit(ScoreOf(PairSum(r, p), Duration(p), Duration(r)))
    ensures ScoreOf(PairSum(r, p), Duration(p), Duration(r)).f1 == 1.0 <==> SamePoints(r, p)
  {
    OverlapFacts(r, p);
    DurationPositive(r);
    DurationPositive(p);
    ScoreBounds(PairSum(r, p), Duration(p), Duration(r));
  }

  predicate InUnit(s: Score) {
    0.0 <= s.precision <= 1.0 && 0.0 <= s.recall <= 1.0 && 0.0 <= s.f1 <= 1.0
  }

  /** Which ratio is which: precision is the share of the prediction, recall the share of the reference, and F1 their
      harmonic mean. With nothing predicted and nothing to predict all three are 1; with only one of them empty, 0. */
  lemma ScoreRatios(overlap: real, predicted: real, reference: real)
    requires 0.0 <= overlap <= predicted && overlap <= reference
    ensures var s := ScoreOf(overlap, predicted, reference);
            && Ratios(s, overlap, predicted, reference)
            && (predicted == 0.0 && reference == 0.0 ==> s == Score(1.0, 1.0, 1.0))
            && (predicted == 0.0 != reference ==> s == Score(0.0, 0.0, 0.0))
            && (reference == 0.0 != predicted ==> s == Score(0.0, 0.0, 0.0))
  {
    ShareFacts(overlap, predicted);
    ShareFacts(overlap, reference);
    HarmonicFacts(Share(overlap, predicted), Share(overlap, reference));
  }

  lemma ShareOf(x: real, y: real)
    requires y != 0.0
    ensures x / y * y == x
  {
  }

  lemma ShareFacts(x: real, y: real)
    requires 0.0 <= x <= y
    ensures 0.0 <= Share(x, y) <= 1.0 && Share(x, y) * y == x
    ensures Share(x, y) == 1.0 <==> x == y != 0.0
  {
    if y != 0.0 { RatioBounds(x, y); }
  }

  lemma HarmonicFacts(p: real, r: real)
    requires 0.0 <= p <= 1.0 && 0.0 <= r <= 1.0
    ensures 0.0 <= Harmonic(p, r) <= 1.0 && Harmonic(p, r) * (p + r) == 2.0 * p * r
    ensures Harmonic(p, r) == 1.0 <==> p == 1.0 && r == 1.0
  {
    if p + r != 0.0 {
      HarmonicBounds(p, r);
      ShareOf(2.0 * p * r, p + r);
    } else {
      assert p == 0.0 && r == 0.0;
    }
  }

  lemma ScoreBounds(overlap: real, predicted: real, reference: real)
    requires 0.0 <= overlap <= predicted && overlap <= reference
    ensures InUnit(ScoreOf(overlap, predicted, reference))
    ensures ScoreOf(overlap, predicted, reference).f1 == 1.0 <==> overlap == predicted == reference
  {
    ShareFacts(overlap, predicted);
    ShareFacts(overlap, reference);
    HarmonicFacts(Share(overlap, predicted), Share(overlap, reference));
  }

  /** The overlap is at most either duration, and reaches both exactly when the lists cover the same points. */
  lemma OverlapFacts(r: seq<Span>, p: seq<Span>)
    requires Separated(r) && Separated(p)
    ensures 0.0 <= PairSum(r, p) <= Duration(r) && PairSum(r, p) <= Duration(p)
    ensures PairSum(r, p) == Duration(r) == Duration(p) <==> SamePoints(r, p)
  {
    PairSumBound(r, p);
    PairSumSymmetric(r, p);
    PairSumBound(p, r);
    if SamePoints(r, p) {
      MergedFormIsUnique(r, p);
      SelfOverlap(r);
    }
  }
}
