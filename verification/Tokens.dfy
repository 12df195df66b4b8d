/** Token lists as the safety matcher reads them: words, clause barriers and joined text. */
module Tokens {

  /** A word of the turn, or the token that stands for a clause boundary. */
  datatype Token = Barrier | Word(text: string) {
    /** Vocabularies are sets of words; a boundary is in none of them. */
    predicate In(words: set<string>) {
      Word? && text in words
    }
  }

  /** The concatenated text of plain words. */
  function Join(words: seq<string>): string {
    if words == [] then "" else words[0] + Join(words[1..])
  }

  datatype Bounds = Bounds(lo: nat, hi: nat)

  /** A scan at position n: the bounds of the non-empty runs closed so far, and where the open run starts. */
  datatype Scan = Scan(closed: seq<Bounds>, start: nat)

  function Close(s: Scan, n: nat): Scan {
    Scan(if s.start < n then s.closed + [Bounds(s.start, n)] else s.closed, n + 1)
  }

  function ScanTo(tokens: seq<Token>, n: nat): Scan
    requires n <= |tokens|
  {
    if n == 0 then Scan([], 0)
    else if tokens[n - 1].Barrier? then Close(ScanTo(tokens, n - 1), n - 1)
    else ScanTo(tokens, n - 1)
  }

  /** Where the clauses of a token list lie. */
  function ClauseBounds(tokens: seq<Token>): seq<Bounds> {
    Close(ScanTo(tokens, |tokens|), |tokens|).closed
  }

  /** The clause at the bounds b. */
  function Clause(tokens: seq<Token>, b: Bounds): seq<Token> {
    if b.lo <= b.hi <= |tokens| then tokens[b.lo..b.hi] else []
  }

  /** The clauses read so far are the token runs at these bounds. */
  ghost predicate Slices(tokens: seq<Token>, bounds: seq<Bounds>, clauses: seq<seq<Token>>) {
    |clauses| == |bounds| && forall k {:trigger clauses[k]} :: 0 <= k < |bounds| ==> clauses[k] == Clause(tokens, bounds[k])
  }

  /** Split at the barriers; runs that are empty are dropped. */
  method SplitClauses(tokens: seq<Token>) returns (clauses: seq<seq<Token>>)
    ensures Slices(tokens, ClauseBounds(tokens), clauses)
  {
    clauses := [];
    var last: seq<Token> := [];
    for i := 0 to |tokens|
      invariant ScanTo(tokens, i).start <= i && last == tokens[ScanTo(tokens, i).start..i]
      invariant Slices(tokens, ScanTo(tokens, i).closed, clauses)
    {
      if tokens[i].Barrier? {
        if last != [] { clauses := clauses + [last]; }
        last := [];
      } else {
        last := last + [tokens[i]];
      }
    }
    if last != [] { clauses := clauses + [last]; }
  }

  /** tokens[b.lo..b.hi] is a maximal run without barriers. */
  ghost predicate IsRun(tokens: seq<Token>, b: Bounds) {
    && b.lo < b.hi <= |tokens|
    && (forall i :: b.lo <= i < b.hi ==> tokens[i].Word?)
    && (b.lo > 0 ==> tokens[b.lo - 1].Barrier?)
    && (b.hi < |tokens| ==> tokens[b.hi].Barrier?)
  }

  ghost predicate Contains(bounds: seq<Bounds>, i: int) {
    exists b :: b in bounds && b.lo <= i < b.hi
  }

  lemma {:induction false} ScanFacts(tokens: seq<Token>, n: nat)
    requires n <= |tokens|
    ensures var s := ScanTo(tokens, n);
            && s.start <= n && (s.start > 0 ==> tokens[s.start - 1].Barrier?)
            && (forall i :: s.start <= i < n ==> tokens[i].Word?)
            && (forall b :: b in s.closed ==> IsRun(tokens, b))
            && (forall i :: 0 <= i < s.start && tokens[i].Word? ==> Contains(s.closed, i))
  {
    if n > 0 {
      ScanFacts(tokens, n - 1);
      if tokens[n - 1].Barrier? { CloseContains(tokens, ScanTo(tokens, n - 1), n - 1); }
    }
  }

  lemma CloseContains(tokens: seq<Token>, s: Scan, n: nat)
    requires s.start <= n <= |tokens|
    requires forall i :: 0 <= i < s.start && tokens[i].Word? ==> Contains(s.closed, i)
    ensures forall i :: 0 <= i < n && tokens[i].Word? ==> Contains(Close(s, n).closed, i)
  {
    var closed := Close(s, n).closed;
    forall i | 0 <= i < n && tokens[i].Word? ensures Contains(closed, i) {
      if i < s.start {
        var b :| b in s.closed && b.lo <= i < b.hi;
        assert b in closed;
      } else {
        assert Bounds(s.start, n) in closed;
      }
    }
  }

  /** The clauses are exactly maximal runs without barriers, and every word lies in one. */
  lemma ClausesPartition(tokens: seq<Token>)
    ensures forall b :: b in ClauseBounds(tokens) ==> IsRun(tokens, b)
    ensures forall i :: 0 <= i < |tokens| && tokens[i].Word? ==> Contains(ClauseBounds(tokens), i)
  {
    ScanFacts(tokens, |tokens|);
    CloseContains(tokens, ScanTo(tokens, |tokens|), |tokens|);
  }
}
