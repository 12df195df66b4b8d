/** Turning per-frame speech flags into intervals, and why scoring the intervals is scoring the frames. */
module Frames {
  import opened Common
  import opened Intervals

  /** Time of the start of frame i. */
  function At(i: nat, fs: real): real {
    i as real * fs
  }

  lemma AtSteps(i: nat, j: nat, fs: real)
    requires fs > 0.0
    ensures At(i + 1, fs) == At(i, fs) + fs && At(i, fs) >= 0.0
    ensures i < j ==> At(i + 1, fs) <= At(j, fs)
  {
    if i < j {
      assert At(j, fs) - At(i + 1, fs) == (j - i - 1) as real * fs;
    }
  }

  function Frame(i: nat, fs: real): Span
    requires fs > 0.0
  {
    AtSteps(i, i, fs);
    Interval(At(i, fs), At(i, fs) + fs)
  }

  /** The flagged frames, each as an interval of its own. */
  function Units(flags: seq<bool>, fs: real): seq<Span>
    requires fs > 0.0
  {
    if flags == [] then []
    else
      var n := |flags| - 1;
      Units(flags[..n], fs) + if flags[n] then [Frame(n, fs)] else []
  }

  /** Overlapping anything with either list gives the same total. */
  ghost predicate SameMeasure(a: seq<Span>, b: seq<Span>) {
    forall x: Span :: RowSum(x, a) == RowSum(x, b)
  }

  lemma {:induction false} RowSumAppend(x: Span, list: seq<Span>, y: Span)
    ensures RowSum(x, list + [y]) == RowSum(x, list) + Intersection(x, y)
  {
    if list == [] {
      assert list + [y] == [y];
    } else {
      assert (list + [y])[1..] == list[1..] + [y];
      RowSumAppend(x, list[1..], y);
    }
  }

  lemma {:induction false} PairSumAppend(list: seq<Span>, y: Span, right: seq<Span>)
    ensures PairSum(list + [y], right) == PairSum(list, right) + RowSum(y, right)
  {
    if list == [] {
      assert list + [y] == [y];
    } else {
      assert (list + [y])[1..] == list[1..] + [y];
      PairSumAppend(list[1..], y, right);
    }
  }

  /** What the scan has established after n frames. */
  ghost predicate Scanned(flags: seq<bool>, n: nat, fs: real, intervals: seq<Span>, start: Option<nat>)
    requires fs > 0.0 && n <= |flags|
  {
    && (start.Some? ==> start.value < n && Interval(At(start.value, fs), At(n, fs)).Valid())
    && (start.Some? <==> n > 0 && flags[n - 1])
    && (start.Some? ==>
          var list: seq<Span> := intervals + [Interval(At(start.value, fs), At(n, fs))];
          Summarises(list, flags[..n], fs))
    && (start.None? ==>
          && Summarises(intervals, flags[..n], fs)
          && (intervals != [] ==> n > 0 && intervals[|intervals| - 1].end <= At(n - 1, fs)))
  }

  /** The list is separated and has the points and the measure of the flagged frames. */
  ghost predicate Summarises(list: seq<Span>, flags: seq<bool>, fs: real)
    requires fs > 0.0
  {
    Separated(list) && SamePoints(list, Units(flags, fs)) && SameMeasure(list, Units(flags, fs))
  }

  lemma UnitsStep(flags: seq<bool>, n: nat, fs: real)
    requires fs > 0.0 && n < |flags|
    ensures Units(flags[..n + 1], fs) ==
            if flags[n] then Units(flags[..n], fs) + [Frame(n, fs)] else Units(flags[..n], fs)
  {
    assert flags[..n + 1][..n] == flags[..n];
  }

  lemma SeparatedAppend(list: seq<Span>, x: Span)
    requires Separated(list) && (list != [] ==> list[|list| - 1].end < x.start)
    ensures Separated(list + [x])
  {
    assert forall i :: 0 <= i < |list| ==> list[i].end <= list[|list| - 1].end;
  }

  /** Lists with the same points and measure still have them with one more interval each. */
  lemma SameAppend(a: seq<Span>, b: seq<Span>, x: Span)
    requires SamePoints(a, b) && SameMeasure(a, b)
    ensures SamePoints(a + [x], b + [x]) && SameMeasure(a + [x], b + [x])
  {
    CoversConcat(a, [x]);
    CoversConcat(b, [x]);
    forall y: Span ensures RowSum(y, a + [x]) == RowSum(y, b + [x]) {
      RowSumAppend(y, a, x);
      RowSumAppend(y, b, x);
    }
  }

  /** Speech starts at frame n. */
  lemma Opens(list: seq<Span>, flags: seq<bool>, n: nat, fs: real)
    requires fs > 0.0 && n < |flags| && flags[n] && Summarises(list, flags[..n], fs)
    requires list != [] ==> list[|list| - 1].end < At(n, fs)
    ensures Summarises(list + [Frame(n, fs)], flags[..n + 1], fs)
  {
    UnitsStep(flags, n, fs);
    SeparatedAppend(list, Frame(n, fs));
    SameAppend(list, Units(flags[..n], fs), Frame(n, fs));
  }

  /** Speech that was open up to frame n goes on through it. */
  lemma Continues(list: seq<Span>, last: Span, wider: Span, flags: seq<bool>, n: nat, fs: real)
    requires fs > 0.0 && n < |flags| && flags[n] && Summarises(list + [last], flags[..n], fs)
    requires last.end == At(n, fs) && wider == Interval(last.start, At(n, fs) + fs)
    ensures Summarises(list + [wider], flags[..n + 1], fs)
  {
    var frame := Frame(n, fs);
    UnitsStep(flags, n, fs);
    CoversConcat(list, [last]);
    CoversConcat(list, [wider]);
    CoversConcat(Units(flags[..n], fs), [frame]);
    assert forall t :: wider.Covers(t) <==> last.Covers(t) || frame.Covers(t);
    forall x: Span ensures RowSum(x, list + [wider]) == RowSum(x, Units(flags[..n + 1], fs)) {
      RowSumAppend(x, list, last);
      RowSumAppend(x, list, wider);
      RowSumAppend(x, Units(flags[..n], fs), frame);
      assert Intersection(x, wider) == Intersection(x, last) + Intersection(x, frame);
    }
    forall i, j | 0 <= i < j < |list + [wider]| ensures (list + [wider])[i].end < (list + [wider])[j].start {
      assert (list + [last])[i].end < (list + [last])[j].start;
    }
  }

  /** The interval constructor: it fails unless the start is not negative and the duration positive. */
  method Construct(start: real, end: real) returns (r: Option<Span>)
    ensures r == if Interval(start, end).Valid() then Some(Interval(start, end)) else None
  {
    if start < 0.0 || end <= start { return None; }
    r := Some(Interval(start, end));
  }

  /** What the scan has established when frames have no positive length: no interval yet, and open since the first
      speech. */
  predicate Stalled(flags: seq<bool>, n: nat, intervals: seq<Span>, start: Option<nat>)
    requires n <= |flags|
  {
    intervals == [] && (start.Some? <==> true in flags[..n]) && (start.Some? ==> start.value < n)
  }

  ghost predicate ScanInv(flags: seq<bool>, n: nat, fs: real, intervals: seq<Span>, start: Option<nat>)
    requires n <= |flags|
  {
    if fs > 0.0 then Scanned(flags, n, fs, intervals, start) else Stalled(flags, n, intervals, start)
  }

  /** Without a positive length an interval ends no later than it starts. */
  lemma NoLength(i: nat, j: nat, fs: real)
    requires fs <= 0.0 && i < j
    ensures At(j, fs) <= At(i, fs)
  {
    assert At(j, fs) - At(i, fs) == (j - i) as real * fs;
  }

  lemma StalledSteps(flags: seq<bool>, n: nat, intervals: seq<Span>, start: Option<nat>)
    requires n < |flags| && Stalled(flags, n, intervals, start) && (start.None? || flags[n])
    ensures Stalled(flags, n + 1, intervals, if start.None? && flags[n] then Some(n) else start)
  {
    assert flags[..n + 1] == flags[..n] + [flags[n]];
  }

  lemma ScannedSteps(flags: seq<bool>, n: nat, fs: real, intervals: seq<Span>, start: Option<nat>)
    requires fs > 0.0 && n < |flags| && Scanned(flags, n, fs, intervals, start)
    ensures if flags[n] then Scanned(flags, n + 1, fs, intervals, if start.None? then Some(n) else start)
            else if start.None? then Scanned(flags, n + 1, fs, intervals, None)
            else Scanned(flags, n + 1, fs, intervals + [Interval(At(start.value, fs), At(n, fs))], None)
  {
    AtSteps(n, n, fs);
    UnitsStep(flags, n, fs);
    if n > 0 { AtSteps(n - 1, n, fs); }
    if flags[n] && start.None? {
      Opens(intervals, flags, n, fs);
    } else if flags[n] {
      Continues(intervals, Interval(At(start.value, fs), At(n, fs)), Interval(At(start.value, fs), At(n + 1, fs)),
                flags, n, fs);
    }
  }

  /** Look at one frame: speech opens an interval, silence closes it, if the interval can be constructed. */
  method ScanFrame(flags: seq<bool>, n: nat, fs: real, intervals0: seq<Span>, start0: Option<nat>)
    returns (intervals: seq<Span>, start: Option<nat>, ok: bool)
    requires n < |flags| && ScanInv(flags, n, fs, intervals0, start0)
    ensures ok ==> ScanInv(flags, n + 1, fs, intervals, start)
    ensures !ok ==> fs <= 0.0 && start0.Some?
  {
    intervals, start, ok := intervals0, start0, true;
    if fs > 0.0 { ScannedSteps(flags, n, fs, intervals, start); }
    if flags[n] && start.None? {
      if fs <= 0.0 { StalledSteps(flags, n, intervals, start); }
      start := Some(n);
    } else if !flags[n] && start.Some? {
      if fs <= 0.0 { NoLength(start.value, n, fs); }
      var interval := Construct(At(start.value, fs), At(n, fs));
      if interval.None? { return intervals, start, false; }
      intervals, start := intervals + [interval.value], None;
    } else if fs <= 0.0 {
      StalledSteps(flags, n, intervals, start);
    }
  }

  /** Contiguous speech frames merged into intervals. A frame length that is not positive makes the interval
      constructor fail as soon as speech ends. */
  method FramesToIntervals(flags: seq<bool>, frameMs: int) returns (r: Option<seq<Span>>)
    ensures r.None? <==> frameMs <= 0 && true in flags
    ensures r.Some? && frameMs > 0 ==> Summarises(r.value, flags, frameMs as real / 1000.0)
    ensures r.Some? && frameMs <= 0 ==> r.value == []
  {
    var fs := frameMs as real / 1000.0;
    var intervals: seq<Span> := [];
    var start: Option<nat> := None;
    for n := 0 to |flags|
      invariant ScanInv(flags, n, fs, intervals, start)
    {
      var ok;
      intervals, start, ok := ScanFrame(flags, n, fs, intervals, start);
      if !ok {
        assert true in flags[..n] && forall b :: b in flags[..n] ==> b in flags;
        return None;
      }
    }
    assert flags[..|flags|] == flags;
    if start.Some? {
      if fs <= 0.0 { NoLength(start.value, |flags|, fs); }
      var interval := Construct(At(start.value, fs), At(|flags|, fs));
      if interval.None? { return None; }
      intervals := intervals + [interval.value];
    }
    r := Some(intervals);
  }

  // ----- what the intervals say about the frames -----

  lemma {:induction false} UnitsPaint(flags: seq<bool>, i: nat, fs: real)
    requires fs > 0.0
    ensures Covers(Units(flags, fs), At(i, fs)) <==> i < |flags| && flags[i]
  {
    if flags != [] {
      var n := |flags| - 1;
      UnitsPaint(flags[..n], i, fs);
      AtSteps(n, i, fs);
      AtSteps(i, n, fs);
      CoversConcat(Units(flags[..n], fs), [Frame(n, fs)]);
      assert Units(flags[..n], fs) + [] == Units(flags[..n], fs);
    }
  }

  /** Painting the intervals back gives the flags, and merging them changes nothing. */
  lemma PaintingInverts(flags: seq<bool>, fs: real, list: seq<Span>, m: seq<Span>)
    requires fs > 0.0 && Summarises(list, flags, fs)
    ensures forall i: nat :: i < |flags| ==> (flags[i] <==> Covers(list, At(i, fs)))
    ensures IsMerge(list, m) ==> m == list
  {
    forall i: nat | i < |flags| ensures flags[i] <==> Covers(list, At(i, fs)) {
      UnitsPaint(flags, i, fs);
    }
    if IsMerge(list, m) { MergedFormIsUnique(m, list); }
  }

  function Count(flags: seq<bool>): nat {
    if flags == [] then 0 else Count(flags[..|flags| - 1]) + if flags[|flags| - 1] then 1 else 0
  }

  /** The frames both vectors flag: the true positives. */
  function Both(a: seq<bool>, b: seq<bool>): (r: seq<bool>)
    requires |a| == |b|
    ensures |r| == |a| && forall i :: 0 <= i < |a| ==> r[i] == (a[i] && b[i])
  {
    seq(|a|, i requires 0 <= i < |a| => a[i] && b[i])
  }

  lemma {:induction false} UnitRow(i: nat, flags: seq<bool>, fs: real)
    requires fs > 0.0
    ensures RowSum(Frame(i, fs), Units(flags, fs)) == if i < |flags| && flags[i] then fs else 0.0
  {
    if flags != [] {
      var n := |flags| - 1;
      UnitRow(i, flags[..n], fs);
      AtSteps(n, i, fs);
      AtSteps(i, n, fs);
      if flags[n] { RowSumAppend(Frame(i, fs), Units(flags[..n], fs), Frame(n, fs)); }
      else { assert Units(flags, fs) == Units(flags[..n], fs); }
    }
  }

  lemma {:induction false} UnitPairs(a: seq<bool>, b: seq<bool>, n: nat, fs: real)
    requires fs > 0.0 && |a| == |b| && n <= |a|
    ensures PairSum(Units(a[..n], fs), Units(b, fs)) == At(Count(Both(a, b)[..n]), fs)
  {
    if n > 0 {
      UnitPairs(a, b, n - 1, fs);
      UnitsStep(a, n - 1, fs);
      UnitRow(n - 1, b, fs);
      assert Both(a, b)[..n][..n - 1] == Both(a, b)[..n - 1];
      if a[n - 1] { PairSumAppend(Units(a[..n - 1], fs), Frame(n - 1, fs), Units(b, fs)); }
      AtSteps(Count(Both(a, b)[..n - 1]), 0, fs);
    }
  }

  lemma {:induction false} PairSumMeasure(left: seq<Span>, a: seq<Span>, b: seq<Span>)
    requires SameMeasure(a, b)
    ensures PairSum(left, a) == PairSum(left, b)
  {
    if left != [] { PairSumMeasure(left[1..], a, b); }
  }

  /** The overlap of two frame summaries is the time of the frames both flag. */
  lemma OverlapIsTruePositives(a: seq<bool>, b: seq<bool>, fs: real, left: seq<Span>, right: seq<Span>)
    requires fs > 0.0 && |a| == |b| && SameMeasure(left, Units(a, fs)) && SameMeasure(right, Units(b, fs))
    ensures PairSum(left, right) == At(Count(Both(a, b)), fs)
  {
    var ua, ub := Units(a, fs), Units(b, fs);
    PairSumMeasure(left, right, ub);
    PairSumSymmetric(left, ub);
    PairSumMeasure(ub, left, ua);
    PairSumSymmetric(ub, ua);
    assert a[..|a|] == a && Both(a, b)[..|a|] == Both(a, b);
    UnitPairs(a, b, |a|, fs);
  }

  lemma ScoreScales(overlap: nat, predicted: nat, reference: nat, fs: real)
    requires fs > 0.0
    ensures ScoreOf(At(overlap, fs), At(predicted, fs), At(reference, fs)) ==
            ScoreOf(overlap as real, predicted as real, reference as real)
  {
    RatioScales(overlap as real, predicted as real, fs);
    RatioScales(overlap as real, reference as real, fs);
  }

  lemma RatioScales(x: real, y: real, fs: real)
    requires fs > 0.0 && y >= 0.0
    ensures y * fs == 0.0 <==> y == 0.0
    ensures y != 0.0 ==> (x * fs) / (y * fs) == x / y
  {
    if y != 0.0 {
      var q := x / y;
      assert q * y == x;
      assert q * (y * fs) == x * fs;
    }
  }

  /** Scoring the intervals is scoring the frames: for flag vectors of one length the interval score is precision
      TP/(TP+FP), recall TP/(TP+FN) and their F1 over frame counts, with the empty cases as coded. */
  lemma IntervalScoreIsFrameScore(reference: seq<bool>, prediction: seq<bool>, fs: real, r: seq<Span>, p: seq<Span>)
    requires fs > 0.0 && |reference| == |prediction|
    requires Summarises(r, reference, fs) && Summarises(p, prediction, fs)
    ensures ScoreOf(PairSum(r, p), Duration(p), Duration(r)) ==
            ScoreOf(Count(Both(reference, prediction)) as real, Count(prediction) as real, Count(reference) as real)
  {
    OverlapIsTruePositives(reference, prediction, fs, r, p);
    OverlapIsTruePositives(reference, reference, fs, r, r);
    OverlapIsTruePositives(prediction, prediction, fs, p, p);
    assert Both(reference, reference) == reference && Both(prediction, prediction) == prediction;
    SelfOverlap(r);
    SelfOverlap(p);
    ScoreScales(Count(Both(reference, prediction)), Count(prediction), Count(reference), fs);
  }

  /** From flags to score: the intervals of two flag vectors of one length, merged and swept as the score does it, give
      the per-frame score, which lies in [0, 1] and has an F1 of 1 exactly for equal vectors. */
  lemma FrameScoreComposes(reference: seq<bool>, prediction: seq<bool>, fs: real, r: seq<Span>, p: seq<Span>,
                           mergedR: seq<Span>, mergedP: seq<Span>)
    requires fs > 0.0 && |reference| == |prediction|
    requires Summarises(r, reference, fs) && Summarises(p, prediction, fs)
    requires IsMerge(r, mergedR) && IsMerge(p, mergedP)
    ensures var s := ScoreOf(PairSum(mergedR, mergedP), Duration(mergedP), Duration(mergedR));
            && s == ScoreOf(Count(Both(reference, prediction)) as real, Count(prediction) as real, Count(reference) as real)
            && InUnit(s) && (s.f1 == 1.0 <==> reference == prediction)
  {
    PaintingInverts(reference, fs, r, mergedR);
    PaintingInverts(prediction, fs, p, mergedP);
    IntervalScoreIsFrameScore(reference, prediction, fs, r, p);
    ScoresAreBounded(r, p);
    if SamePoints(r, p) {
      assert forall i: nat :: i < |reference| ==> (reference[i] <==> prediction[i]);
      assert reference == prediction;
    }
    if reference == prediction {
      SameUnitsSamePoints(reference, fs, r, p);
    }
  }

  lemma SameUnitsSamePoints(flags: seq<bool>, fs: real, r: seq<Span>, p: seq<Span>)
    requires fs > 0.0 && Summarises(r, flags, fs) && Summarises(p, flags, fs)
    ensures SamePoints(r, p)
  {
  }

  lemma {:induction false} BothAtMost(reference: seq<bool>, prediction: seq<bool>)
    requires |reference| == |prediction|
    ensures Count(Both(reference, prediction)) <= Count(reference)
    ensures Count(Both(reference, prediction)) <= Count(prediction)
    decreases |reference|
  {
    if reference != [] {
      var n := |reference| - 1;
      BothAtMost(reference[..n], prediction[..n]);
      assert Both(reference, prediction)[..n] == Both(reference[..n], prediction[..n]);
    }
  }

  /** The score of two flag vectors by their frames. */
  predicate FrameScored(reference: seq<bool>, prediction: seq<bool>, s: Score)
    requires |reference| == |prediction|
  {
    var both, predicted, wanted := Count(Both(reference, prediction)), Count(prediction), Count(reference);
    && s == ScoreOf(both as real, predicted as real, wanted as real)
    && Ratios(s, both as real, predicted as real, wanted as real)
    && InUnit(s) && (s.f1 == 1.0 <==> reference == prediction)
  }

  lemma ScoredFrames(reference: seq<bool>, prediction: seq<bool>, fs: real, r: seq<Span>, p: seq<Span>, s: Score)
    requires fs > 0.0 && |reference| == |prediction|
    requires Summarises(r, reference, fs) && Summarises(p, prediction, fs)
    requires exists mergedR, mergedP :: ScoredBy(r, p, mergedR, mergedP, s)
    ensures FrameScored(reference, prediction, s)
  {
    var mergedR, mergedP :| ScoredBy(r, p, mergedR, mergedP, s);
    FrameScoreComposes(reference, prediction, fs, r, p, mergedR, mergedP);
    BothAtMost(reference, prediction);
    ScoreRatios(Count(Both(reference, prediction)) as real, Count(prediction) as real, Count(reference) as real);
  }

  /** The score of predicted frames against the true ones, as the speech benchmark computes it: both scanned into
      intervals, then the intervals scored. */
  method ScoreFrames(reference: seq<bool>, prediction: seq<bool>, frameMs: int) returns (s: Option<Score>)
    requires |reference| == |prediction|
    ensures s.None? <==> frameMs <= 0 && (true in reference || true in prediction)
    ensures s.Some? && frameMs > 0 ==> FrameScored(reference, prediction, s.value)
  {
    var r := FramesToIntervals(reference, frameMs);
    if r.None? { return None; }
    var p := FramesToIntervals(prediction, frameMs);
    if p.None? { return None; }
    var score := VadScore(r.value, p.value);
    if frameMs > 0 { ScoredFrames(reference, prediction, frameMs as real / 1000.0, r.value, p.value, score); }
    s := Some(score);
  }
}
