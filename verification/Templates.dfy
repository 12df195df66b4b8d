/** Intent templates: synonym groups that must co-occur inside a bounded window, matched by backtracking. */
module Templates {
  import opened Common
  import opened Tokens

  datatype Template = Template(groups: seq<set<string>>, maxGaps: Option<seq<nat>>, ordered: bool,
                               rejectFirstPerson: bool, rejectPreceding: set<string>, rejectWithin: set<string>,
                               adjacent: set<nat>, rejectTrailing: set<string>, window: nat)
  {
    /** Every template has a group, and a gap bound for each pair of consecutive groups if it has any. */
    predicate WellFormed() {
      groups != [] && (maxGaps.Some? ==> |maxGaps.value| >= |groups| - 1)
    }

    /** The tokens a window may be anchored on. */
    predicate Anchors(t: Token) {
      if ordered && groups != [] then t.In(groups[0]) else exists k :: 0 <= k < |groups| && t.In(groups[k])
    }
  }

  /** The vocabularies that tell a report of the buyer's own words. */
  datatype Voice = Voice(subjects: set<string>, possessives: set<string>, reporting: set<string>,
                         directives: set<string>, antecedents: set<string>)

  predicate Follows(tokens: seq<Token>, i: nat, words: set<string>) {
    i + 1 < |tokens| && tokens[i + 1].In(words)
  }

  predicate ReportsOwnWords(tokens: seq<Token>, start: nat, end: nat, voice: Voice)
    requires end <= |tokens|
  {
    exists i :: start <= i < end && QuotesAt(tokens, i, voice)
  }

  predicate QuotesAt(tokens: seq<Token>, i: nat, voice: Voice)
    requires i < |tokens|
  {
    || (tokens[i].In(voice.subjects) && Follows(tokens, i, voice.reporting))
    || (tokens[i].In(voice.possessives)
        && (Follows(tokens, i, voice.directives) || Follows(tokens, i, voice.antecedents)))
  }

  // ----- assigning groups to positions -----

  function Distance(i: nat, j: nat): nat { if i <= j then j - i else i - j }

  /** Position `index` may serve the next group after the positions chosen so far. */
  predicate Choosable(tokens: seq<Token>, start: nat, end: nat, t: Template, chosen: seq<nat>, index: nat)
    requires t.WellFormed() && end <= |tokens| && |chosen| < |t.groups|
  {
    var n := |chosen|;
    && start <= index < end && index !in chosen && tokens[index].In(t.groups[n])
    && (n > 0 ==>
          && (t.ordered ==> chosen[n - 1] < index)
          && (n in t.adjacent ==> index == chosen[n - 1] + 1)
          && (t.maxGaps.Some? ==> Distance(chosen[n - 1], index) <= t.maxGaps.value[n - 1]))
  }

  predicate TrailingAllowed(tokens: seq<Token>, t: Template, chosen: seq<nat>) {
    chosen == [] || !Follows(tokens, chosen[|chosen| - 1], t.rejectTrailing)
  }

  /** The backtracking search: extend the chosen positions group by group. */
  predicate AssignGroups(tokens: seq<Token>, start: nat, end: nat, t: Template, chosen: seq<nat>)
    requires t.WellFormed() && end <= |tokens| && |chosen| <= |t.groups|
    decreases |t.groups| - |chosen|
  {
    if |chosen| == |t.groups| then TrailingAllowed(tokens, t, chosen)
    else
      exists index :: start <= index < end && Choosable(tokens, start, end, t, chosen, index)
                      && AssignGroups(tokens, start, end, t, chosen + [index])
  }

  /** The declarative reading: one position per group, all in the window, distinct, in order if the template is
      ordered, adjacent and gap-bounded where it says so, with an allowed token after the last. */
  ghost predicate IsAssignment(tokens: seq<Token>, start: nat, end: nat, t: Template, at: seq<nat>)
    requires t.WellFormed() && end <= |tokens|
  {
    && |at| == |t.groups|
    && (forall k :: 0 <= k < |at| ==> start <= at[k] < end && tokens[at[k]].In(t.groups[k]))
    && (forall j, k :: 0 <= j < k < |at| ==> at[j] != at[k])
    && (forall k :: 0 < k < |at| ==> Linked(t, at[k - 1], at[k], k))
    && !Follows(tokens, at[|at| - 1], t.rejectTrailing)
  }

  predicate Linked(t: Template, previous: nat, next: nat, k: nat)
    requires t.WellFormed() && 0 < k < |t.groups|
  {
    && (t.ordered ==> previous < next)
    && (k in t.adjacent ==> next == previous + 1)
    && (t.maxGaps.Some? ==> next <= previous + t.maxGaps.value[k - 1] && previous <= next + t.maxGaps.value[k - 1])
  }

  /** What the search keeps about the positions chosen so far. */
  ghost predicate Partial(tokens: seq<Token>, start: nat, end: nat, t: Template, chosen: seq<nat>)
    requires t.WellFormed() && end <= |tokens|
  {
    && |chosen| <= |t.groups|
    && (forall k :: 0 <= k < |chosen| ==> start <= chosen[k] < end && tokens[chosen[k]].In(t.groups[k]))
    && (forall j, k :: 0 <= j < k < |chosen| ==> chosen[j] != chosen[k])
    && (forall k :: 0 < k < |chosen| ==> Linked(t, chosen[k - 1], chosen[k], k))
  }

  lemma PartialExtends(tokens: seq<Token>, start: nat, end: nat, t: Template, chosen: seq<nat>, index: nat)
    requires t.WellFormed() && end <= |tokens| && Partial(tokens, start, end, t, chosen) && |chosen| < |t.groups|
    requires Choosable(tokens, start, end, t, chosen, index)
    ensures Partial(tokens, start, end, t, chosen + [index])
  {
    var next := chosen + [index];
    forall k | 0 < k < |next| ensures Linked(t, next[k - 1], next[k], k) {
      assert k < |chosen| ==> Linked(t, chosen[k - 1], chosen[k], k);
    }
  }

  lemma {:induction false} SearchIsSound(tokens: seq<Token>, start: nat, end: nat, t: Template, chosen: seq<nat>)
    returns (at: seq<nat>)
    requires t.WellFormed() && end <= |tokens| && Partial(tokens, start, end, t, chosen)
    requires AssignGroups(tokens, start, end, t, chosen)
    ensures IsAssignment(tokens, start, end, t, at) && chosen <= at
    decreases |t.groups| - |chosen|
  {
    if |chosen| == |t.groups| {
      at := chosen;
    } else {
      var index :| start <= index < end && Choosable(tokens, start, end, t, chosen, index)
                   && AssignGroups(tokens, start, end, t, chosen + [index]);
      PartialExtends(tokens, start, end, t, chosen, index);
      at := SearchIsSound(tokens, start, end, t, chosen + [index]);
    }
  }

  lemma {:induction false} SearchIsComplete(tokens: seq<Token>, start: nat, end: nat, t: Template, at: seq<nat>, n: nat)
    requires t.WellFormed() && end <= |tokens| && IsAssignment(tokens, start, end, t, at) && n <= |at|
    ensures AssignGroups(tokens, start, end, t, at[..n])
    decreases |at| - n
  {
    if n < |at| {
      SearchIsComplete(tokens, start, end, t, at, n + 1);
      assert at[..n + 1] == at[..n] + [at[n]];
      assert n > 0 ==> Linked(t, at[n - 1], at[n], n);
      assert Choosable(tokens, start, end, t, at[..n], at[n]);
    } else {
      assert at[..n] == at;
    }
  }

  /** The backtracking search finds an assignment exactly when the declarative one exists. */
  lemma SearchIff(tokens: seq<Token>, start: nat, end: nat, t: Template)
    requires t.WellFormed() && end <= |tokens|
    ensures AssignGroups(tokens, start, end, t, []) <==> exists at :: IsAssignment(tokens, start, end, t, at)
  {
    if AssignGroups(tokens, start, end, t, []) {
      var at := SearchIsSound(tokens, start, end, t, []);
    }
    if at :| IsAssignment(tokens, start, end, t, at) {
      SearchIsComplete(tokens, start, end, t, at, 0);
    }
  }

  // ----- matching -----

  /** The end of the window anchored at start: its size, the end of the turn or the first barrier. */
  function WindowEnd(tokens: seq<Token>, start: nat, size: nat): (end: nat)
    requires start <= |tokens|
    ensures start <= end <= |tokens| && end - start <= size
    ensures forall i :: start <= i < end ==> tokens[i].Word?
    ensures end == |tokens| || end == start + size || tokens[end].Barrier?
    decreases size
  {
    if size == 0 || start == |tokens| || tokens[start].Barrier? then start else WindowEnd(tokens, start + 1, size - 1)
  }

  predicate Refused(tokens: seq<Token>, start: nat, end: nat, words: set<string>)
    requires end <= |tokens|
  {
    exists i :: start <= i < end && tokens[i].In(words)
  }

  /** The template matches in the window anchored at this position. */
  predicate MatchesAt(tokens: seq<Token>, t: Template, voice: Voice, start: nat)
    requires t.WellFormed() && start < |tokens|
  {
    MatchesWindow(tokens, t, voice, start, WindowEnd(tokens, start, t.window))
  }

  predicate MatchesWindow(tokens: seq<Token>, t: Template, voice: Voice, start: nat, end: nat)
    requires t.WellFormed() && start < |tokens| && start <= end <= |tokens|
  {
    && t.Anchors(tokens[start])
    && !(start > 0 && tokens[start - 1].In(t.rejectPreceding))
    && !Refused(tokens, start, end, t.rejectWithin)
    && !(t.rejectFirstPerson && ReportsOwnWords(tokens, start, end, voice))
    && AssignGroups(tokens, start, end, t, [])
  }

  predicate Meets(tokens: seq<Token>, group: set<string>) {
    exists i :: 0 <= i < |tokens| && tokens[i].In(group)
  }

  /** Matching as it is run: dismiss the turn by its length or its token set, else try every anchor. */
  method MatchesTemplate(tokens: seq<Token>, t: Template, voice: Voice) returns (matches: bool)
    requires t.WellFormed()
    ensures matches <==> exists start :: 0 <= start < |tokens| && MatchesAt(tokens, t, voice, start)
  {
    if |tokens| < |t.groups| || exists k :: 0 <= k < |t.groups| && !Meets(tokens, t.groups[k]) {
      forall start | 0 <= start < |tokens| ensures !MatchesAt(tokens, t, voice, start) {
        PrefilterIsLossless(tokens, t, voice, start);
      }
      return false;
    }
    for start := 0 to |tokens|
      invariant forall s :: 0 <= s < start ==> !MatchesAt(tokens, t, voice, s)
    {
      if MatchesAt(tokens, t, voice, start) { return true; }
    }
    return false;
  }

  ghost predicate Matches(tokens: seq<Token>, t: Template, voice: Voice)
    requires t.WellFormed()
  {
    exists start :: 0 <= start < |tokens| && MatchesAt(tokens, t, voice, start)
  }

  lemma {:induction false} DistinctFit(at: seq<nat>, lo: nat, hi: nat)
    requires lo <= hi && forall k :: 0 <= k < |at| ==> lo <= at[k] < hi
    requires forall j, k :: 0 <= j < k < |at| ==> at[j] != at[k]
    ensures |at| <= hi - lo
    decreases hi - lo
  {
    assert |at| > 0 ==> lo <= at[0] < hi;
    if lo < hi {
      if k :| 0 <= k < |at| && at[k] == hi - 1 {
        DistinctFit(at[..k] + at[k + 1..], lo, hi - 1);
      } else {
        DistinctFit(at, lo, hi - 1);
      }
    }
  }

  /** Dismissing a turn by its length or because some group has no token in it loses no match. */
  lemma PrefilterIsLossless(tokens: seq<Token>, t: Template, voice: Voice, start: nat)
    requires t.WellFormed() && start < |tokens|
    ensures MatchesAt(tokens, t, voice, start) ==>
              |t.groups| <= |tokens| && forall k :: 0 <= k < |t.groups| ==> Meets(tokens, t.groups[k])
  {
    if MatchesAt(tokens, t, voice, start) {
      var end := WindowEnd(tokens, start, t.window);
      var at := SearchIsSound(tokens, start, end, t, []);
      DistinctFit(at, start, end);
      forall k | 0 <= k < |t.groups| ensures Meets(tokens, t.groups[k]) {
        assert tokens[at[k]].In(t.groups[k]);
      }
    }
  }

  // ----- clauses -----

  /** A window of a clause is the same window of the turn, shifted. */
  lemma {:induction false} WindowShift(tokens: seq<Token>, b: Bounds, i: nat, size: nat)
    requires IsRun(tokens, b) && b.lo <= i <= b.hi
    ensures WindowEnd(tokens, i, size) <= b.hi
    ensures WindowEnd(Clause(tokens, b), i - b.lo, size) == WindowEnd(tokens, i, size) - b.lo
    decreases size
  {
    if size > 0 && i < b.hi { WindowShift(tokens, b, i + 1, size - 1); }
  }

  function Shifted(at: seq<nat>, offset: int): (r: seq<nat>)
    requires forall k :: 0 <= k < |at| ==> at[k] + offset >= 0
    ensures |r| == |at| && forall k :: 0 <= k < |at| ==> r[k] == at[k] + offset
  {
    seq(|at|, k requires 0 <= k < |at| => at[k] + offset)
  }

  /** The windows of two token lists read the same, up to the token after each position. */
  ghost predicate SameWindow(a: seq<Token>, i: nat, b: seq<Token>, j: nat, size: nat, trailing: set<string>) {
    && i + size <= |a| && j + size <= |b|
    && (forall p {:trigger a[p]} :: i <= p < i + size ==> a[p] == b[p + j - i])
    && (forall p {:trigger Follows(a, p, trailing)} :: i <= p < i + size ==>
          (Follows(a, p, trailing) <==> Follows(b, p + j - i, trailing)))
  }

  lemma LinkShifts(t: Template, p: nat, q: nat, r: nat, u: nat, k: nat)
    requires t.WellFormed() && 0 < k < |t.groups| && Linked(t, p, q, k) && q - p == u - r
    ensures Linked(t, r, u, k)
  {
  }

  lemma PositionShifts(a: seq<Token>, i: nat, b: seq<Token>, j: nat, size: nat, trailing: set<string>, p: nat)
    requires SameWindow(a, i, b, j, size, trailing) && i <= p < i + size
    ensures j <= p + j - i < j + size && b[p + j - i] == a[p]
    ensures Follows(a, p, trailing) <==> Follows(b, p + j - i, trailing)
  {
  }

  /** Positions moved from one window to another that reads the same. */
  ghost predicate Moved(at: seq<nat>, other: seq<nat>, i: nat, j: nat) {
    |other| == |at| && forall k :: 0 <= k < |at| ==> other[k] == at[k] + j - i
  }

  lemma MovedFit(a: seq<Token>, i: nat, b: seq<Token>, j: nat, size: nat, t: Template, at: seq<nat>, other: seq<nat>)
    requires t.WellFormed() && SameWindow(a, i, b, j, size, t.rejectTrailing) && Moved(at, other, i, j)
    requires IsAssignment(a, i, i + size, t, at)
    ensures forall k :: 0 <= k < |other| ==> j <= other[k] < j + size && b[other[k]].In(t.groups[k])
    ensures !Follows(b, other[|other| - 1], t.rejectTrailing)
  {
    forall k | 0 <= k < |at| ensures j <= other[k] < j + size && b[other[k]].In(t.groups[k]) {
      PositionShifts(a, i, b, j, size, t.rejectTrailing, at[k]);
    }
    PositionShifts(a, i, b, j, size, t.rejectTrailing, at[|at| - 1]);
  }

  lemma MovedLinked(t: Template, at: seq<nat>, other: seq<nat>, i: nat, j: nat)
    requires t.WellFormed() && |at| == |t.groups| && Moved(at, other, i, j)
    requires forall k :: 0 < k < |at| ==> Linked(t, at[k - 1], at[k], k)
    ensures forall k :: 0 < k < |other| ==> Linked(t, other[k - 1], other[k], k)
  {
    forall k | 0 < k < |other| ensures Linked(t, other[k - 1], other[k], k) {
      LinkShifts(t, at[k - 1], at[k], other[k - 1], other[k], k);
    }
  }

  lemma MovedDistinct(at: seq<nat>, other: seq<nat>, i: nat, j: nat)
    requires Moved(at, other, i, j) && forall k, m :: 0 <= k < m < |at| ==> at[k] != at[m]
    ensures forall k, m :: 0 <= k < m < |other| ==> other[k] != other[m]
  {
  }

  /** An assignment in one window is, shifted, an assignment in a window that reads the same. */
  lemma ShiftOne(a: seq<Token>, i: nat, b: seq<Token>, j: nat, size: nat, t: Template, at: seq<nat>)
    returns (other: seq<nat>)
    requires t.WellFormed() && SameWindow(a, i, b, j, size, t.rejectTrailing)
    requires IsAssignment(a, i, i + size, t, at)
    ensures IsAssignment(b, j, j + size, t, other)
  {
    other := Shifted(at, j - i);
    MovedFit(a, i, b, j, size, t, at, other);
    MovedLinked(t, at, other, i, j);
    MovedDistinct(at, other, i, j);
  }

  lemma ClauseReadsSame(tokens: seq<Token>, b: Bounds, start: nat, size: nat, trailing: set<string>)
    requires IsRun(tokens, b) && b.lo <= start && start + size <= b.hi
    ensures SameWindow(tokens, start, Clause(tokens, b), start - b.lo, size, trailing)
  {
    var c := Clause(tokens, b);
    forall p | start <= p < start + size
      ensures tokens[p] == c[p - b.lo] && (Follows(tokens, p, trailing) <==> Follows(c, p - b.lo, trailing))
    {
      assert p + 1 < b.hi ==> c[p + 1 - b.lo] == tokens[p + 1];
    }
  }

  lemma TurnReadsSame(tokens: seq<Token>, b: Bounds, start: nat, size: nat, trailing: set<string>)
    requires IsRun(tokens, b) && b.lo <= start && start + size <= b.hi
    ensures SameWindow(Clause(tokens, b), start - b.lo, tokens, start, size, trailing)
  {
    var c := Clause(tokens, b);
    forall q | start - b.lo <= q < start - b.lo + size
      ensures c[q] == tokens[q + b.lo] && (Follows(c, q, trailing) <==> Follows(tokens, q + b.lo, trailing))
    {
      assert q + b.lo + 1 < b.hi ==> c[q + 1] == tokens[q + b.lo + 1];
    }
  }

  lemma SearchTransfers(a: seq<Token>, i: nat, b: seq<Token>, j: nat, size: nat, t: Template)
    requires t.WellFormed() && SameWindow(a, i, b, j, size, t.rejectTrailing)
    ensures AssignGroups(a, i, i + size, t, []) ==> AssignGroups(b, j, j + size, t, [])
  {
    if AssignGroups(a, i, i + size, t, []) {
      var at := SearchIsSound(a, i, i + size, t, []);
      var other := ShiftOne(a, i, b, j, size, t, at);
      SearchIsComplete(b, j, j + size, t, other, 0);
    }
  }

  lemma ClauseSearches(tokens: seq<Token>, b: Bounds, t: Template, start: nat, size: nat, first: nat)
    requires IsRun(tokens, b) && t.WellFormed() && b.lo <= start && start + size <= b.hi && first == start - b.lo
    ensures AssignGroups(tokens, start, start + size, t, []) ==> AssignGroups(Clause(tokens, b), first, first + size, t, [])
  {
    ClauseReadsSame(tokens, b, start, size, t.rejectTrailing);
    SearchTransfers(tokens, start, Clause(tokens, b), first, size, t);
  }

  lemma TurnSearches(tokens: seq<Token>, b: Bounds, t: Template, start: nat, size: nat, first: nat)
    requires IsRun(tokens, b) && t.WellFormed() && b.lo <= start && start + size <= b.hi && first == start - b.lo
    ensures AssignGroups(Clause(tokens, b), first, first + size, t, []) ==> AssignGroups(tokens, start, start + size, t, [])
  {
    TurnReadsSame(tokens, b, start, size, t.rejectTrailing);
    SearchTransfers(Clause(tokens, b), first, tokens, start, size, t);
  }

  /** Inside one clause, assignments shift to the turn and back. */
  lemma AssignmentShift(tokens: seq<Token>, b: Bounds, t: Template, start: nat, size: nat, first: nat)
    requires IsRun(tokens, b) && t.WellFormed() && b.lo <= start && start + size <= b.hi && first == start - b.lo
    ensures AssignGroups(tokens, start, start + size, t, []) <==>
            AssignGroups(Clause(tokens, b), first, first + size, t, [])
  {
    ClauseSearches(tokens, b, t, start, size, first);
    TurnSearches(tokens, b, t, start, size, first);
  }

  lemma RefusedShift(tokens: seq<Token>, b: Bounds, start: nat, end: nat, words: set<string>)
    requires IsRun(tokens, b) && b.lo <= start <= end <= b.hi
    ensures Refused(tokens, start, end, words) <==> Refused(Clause(tokens, b), start - b.lo, end - b.lo, words)
  {
    var c := Clause(tokens, b);
    assert forall i :: b.lo <= i < b.hi ==> tokens[i] == c[i - b.lo];
    if i :| start - b.lo <= i < end - b.lo && c[i].In(words) { assert tokens[i + b.lo].In(words); }
  }

  lemma ReportShift(tokens: seq<Token>, b: Bounds, start: nat, end: nat, voice: Voice)
    requires IsRun(tokens, b) && b.lo <= start <= end <= b.hi
    ensures ReportsOwnWords(tokens, start, end, voice) <==>
            ReportsOwnWords(Clause(tokens, b), start - b.lo, end - b.lo, voice)
  {
    var c := Clause(tokens, b);
    forall i | b.lo <= i < b.hi ensures QuotesAt(tokens, i, voice) <==> QuotesAt(c, i - b.lo, voice) {
    }
    if ReportsOwnWords(c, start - b.lo, end - b.lo, voice) {
      var j :| start - b.lo <= j < end - b.lo && QuotesAt(c, j, voice);
      assert QuotesAt(tokens, j + b.lo, voice);
    }
  }

  /** What may stand before a position reads the same in the turn and in its clause. */
  lemma PrecedingShift(tokens: seq<Token>, b: Bounds, start: nat, words: set<string>)
    requires IsRun(tokens, b) && b.lo <= start < b.hi
    ensures Clause(tokens, b)[start - b.lo] == tokens[start]
    ensures start > 0 && tokens[start - 1].In(words) <==>
            start - b.lo > 0 && Clause(tokens, b)[start - b.lo - 1].In(words)
  {
    assert start > b.lo ==> tokens[start - 1] == Clause(tokens, b)[start - b.lo - 1];
  }

  /** A position matches in the turn exactly when it matches in its clause alone. */
  lemma MatchShift(tokens: seq<Token>, b: Bounds, t: Template, voice: Voice, start: nat)
    requires IsRun(tokens, b) && t.WellFormed() && b.lo <= start < b.hi
    ensures MatchesAt(tokens, t, voice, start) <==> MatchesAt(Clause(tokens, b), t, voice, start - b.lo)
  {
    WindowShift(tokens, b, start, t.window);
    WindowMatchShift(tokens, b, t, voice, start, WindowEnd(tokens, start, t.window));
  }

  lemma WindowMatchShift(tokens: seq<Token>, b: Bounds, t: Template, voice: Voice, start: nat, end: nat)
    requires IsRun(tokens, b) && t.WellFormed() && b.lo <= start < b.hi && start <= end <= b.hi
    ensures MatchesWindow(tokens, t, voice, start, end) <==>
            MatchesWindow(Clause(tokens, b), t, voice, start - b.lo, end - b.lo)
  {
    AssignmentShift(tokens, b, t, start, end - start, start - b.lo);
    ReportShift(tokens, b, start, end, voice);
    RefusedShift(tokens, b, start, end, t.rejectWithin);
    PrecedingShift(tokens, b, start, t.rejectPreceding);
  }

  /** Matching is clause-compositional: a turn matches exactly when one of its clauses matches alone, so nothing
      in one clause can complete, excuse or refuse a match in another. */
  lemma ClauseCompositional(tokens: seq<Token>, t: Template, voice: Voice)
    requires t.WellFormed()
    ensures Matches(tokens, t, voice) <==>
            exists b :: b in ClauseBounds(tokens) && Matches(Clause(tokens, b), t, voice)
  {
    if Matches(tokens, t, voice) {
      var b := ClauseOfMatch(tokens, t, voice);
    }
    if b :| b in ClauseBounds(tokens) && Matches(Clause(tokens, b), t, voice) {
      ClauseMatchIsMatch(tokens, t, voice, b);
    }
  }

  lemma ClauseMatchIsMatch(tokens: seq<Token>, t: Template, voice: Voice, b: Bounds)
    requires t.WellFormed() && b in ClauseBounds(tokens) && Matches(Clause(tokens, b), t, voice)
    ensures Matches(tokens, t, voice)
  {
    ClausesPartition(tokens);
    var start :| 0 <= start < |Clause(tokens, b)| && MatchesAt(Clause(tokens, b), t, voice, start);
    MatchShift(tokens, b, t, voice, start + b.lo);
  }

  lemma ClauseOfMatch(tokens: seq<Token>, t: Template, voice: Voice) returns (b: Bounds)
    requires t.WellFormed() && Matches(tokens, t, voice)
    ensures b in ClauseBounds(tokens) && Matches(Clause(tokens, b), t, voice)
  {
    ClausesPartition(tokens);
    var start :| 0 <= start < |tokens| && MatchesAt(tokens, t, voice, start);
    assert tokens[start].Word?;
    assert Contains(ClauseBounds(tokens), start);
    b :| b in ClauseBounds(tokens) && b.lo <= start < b.hi;
    MatchShift(tokens, b, t, voice, start);
    assert MatchesAt(Clause(tokens, b), t, voice, start - b.lo);
  }

  /** What a match is: somewhere in the turn an anchor, not preceded by a rejected word, and in its window no rejected word,
      no report of the buyer's own words where those are rejected, and an assignment of every group. */
  lemma MatchMeans(tokens: seq<Token>, t: Template, voice: Voice)
    requires t.WellFormed()
    ensures Matches(tokens, t, voice) <==>
            exists start, at :: 0 <= start < |tokens| && MatchesBy(tokens, t, voice, start, at)
  {
    if Matches(tokens, t, voice) {
      var start :| 0 <= start < |tokens| && MatchesAt(tokens, t, voice, start);
      var at := MatchNeeds(tokens, t, voice, start);
    }
    if start, at :| 0 <= start < |tokens| && MatchesBy(tokens, t, voice, start, at) {
      MatchSuffices(tokens, t, voice, start, at);
    }
  }

  lemma MatchNeeds(tokens: seq<Token>, t: Template, voice: Voice, start: nat) returns (at: seq<nat>)
    requires t.WellFormed() && start < |tokens| && MatchesAt(tokens, t, voice, start)
    ensures MatchesBy(tokens, t, voice, start, at)
  {
    forall i: nat | i < |tokens| { OwnWordsIff(tokens, voice, i); }
    at := SearchIsSound(tokens, start, WindowEnd(tokens, start, t.window), t, []);
  }

  lemma OwnWordsIff(tokens: seq<Token>, voice: Voice, i: nat)
    requires i < |tokens|
    ensures QuotesAt(tokens, i, voice) <==> i + 1 < |tokens| && OwnWords(tokens[i], tokens[i + 1], voice)
  {
    assert forall t: Token ::
        t.In(voice.directives + voice.antecedents) <==> t.In(voice.directives) || t.In(voice.antecedents);
  }

  lemma MatchSuffices(tokens: seq<Token>, t: Template, voice: Voice, start: nat, at: seq<nat>)
    requires t.WellFormed() && start < |tokens| && MatchesBy(tokens, t, voice, start, at)
    ensures MatchesAt(tokens, t, voice, start)
  {
    forall i: nat | i < |tokens| { OwnWordsIff(tokens, voice, i); }
    SearchIsComplete(tokens, start, WindowEnd(tokens, start, t.window), t, at, 0);
  }

  /** Two tokens in a row that tell of the buyer's own words: "I said", "my instructions", "my previous". */
  predicate OwnWords(first: Token, second: Token, voice: Voice) {
    || (first.In(voice.subjects) && second.In(voice.reporting))
    || (first.In(voice.possessives) && second.In(voice.directives + voice.antecedents))
  }

  ghost predicate MatchesBy(tokens: seq<Token>, t: Template, voice: Voice, start: nat, at: seq<nat>)
    requires t.WellFormed() && start < |tokens|
  {
    var end := WindowEnd(tokens, start, t.window);
    && (if t.ordered then tokens[start].In(t.groups[0]) else exists k :: 0 <= k < |t.groups| && tokens[start].In(t.groups[k]))
    && (start > 0 ==> !tokens[start - 1].In(t.rejectPreceding))
    && (forall i :: start <= i < end ==> !tokens[i].In(t.rejectWithin))
    && (t.rejectFirstPerson ==>
          forall i :: start <= i < end && i + 1 < |tokens| ==> !OwnWords(tokens[i], tokens[i + 1], voice))
    && IsAssignment(tokens, start, end, t, at)
  }
}
