/** The language of a conversation: one-turn hysteresis and what it guarantees over whole runs. */
module Language {
  import opened Common

  datatype Language = English | Hindi | Telugu | Mixed | Unknown

  datatype EvidenceKind = Requested | Script | Vocabulary | Transcriber | NoEvidence

  datatype Reading = Reading(language: Option<Language>, evidence: EvidenceKind) {
    predicate Informative() {
      language.Some? && Switchable(language.value)
    }
  }

  datatype Decision = Decision(language: Language, switched: bool, pending: Option<Language>, pendingCount: nat)

  /** Every language with a phrase table; UNKNOWN is the only code without one. */
  predicate Switchable(l: Language) {
    l != Unknown
  }

  const DEFAULT_SWITCH_AFTER: nat := 2

  function Decide(current: Language, reading: Reading, pending: Option<Language>, pendingCount: nat,
                  switchAfter: nat := DEFAULT_SWITCH_AFTER): Decision
  {
    if !reading.Informative() then
      Decision(current, false, pending, pendingCount)
    else if reading.language.value == current then
      Decision(current, false, None, 0)
    else if reading.evidence.Requested? then
      Decision(reading.language.value, true, None, 0)
    else
      var count := if pending == reading.language then pendingCount + 1 else 1;
      if count >= switchAfter then
        Decision(reading.language.value, true, None, 0)
      else
        Decision(current, false, reading.language, count)
  }

  /** The four language fields of a conversation's state. */
  datatype LanguageState = LanguageState(language: Language, declared: Language,
                                         pending: Option<Language>, pendingCount: nat)
  {
    /** The agreement the checkpoint validator demands of pending language and its count. */
    predicate Agrees() {
      pending.None? <==> pendingCount == 0
    }
  }

  const UNSEEDED := LanguageState(Unknown, Unknown, None, 0)

  datatype Resolution = Resolution(state: LanguageState, switched: bool)

  /** One turn of language resolution: seed, obey a re-declaration, or apply hysteresis. */
  function Resolve(ls: LanguageState, declared: Language, reading: Reading, detect: bool := true,
                   switchAfter: nat := DEFAULT_SWITCH_AFTER): Resolution
  {
    if ls.declared != Unknown && declared != ls.declared then
      Resolution(LanguageState(declared, declared, None, 0), declared != ls.language)
    else
      var seeded := if ls.declared == Unknown then ls.(declared := declared, language := declared) else ls;
      if !detect then
        Resolution(seeded, false)
      else
        var d := Decide(seeded.language, reading, seeded.pending, seeded.pendingCount, switchAfter);
        Resolution(LanguageState(d.language, seeded.declared, d.pending, d.pendingCount), d.switched)
  }

  lemma ResolveAgrees(ls: LanguageState, declared: Language, reading: Reading, detect: bool)
    requires ls.Agrees()
    ensures Resolve(ls, declared, reading, detect).state.Agrees()
  {
  }

  // ----- whole runs -----

  datatype Turn = Turn(declared: Language, reading: Reading)

  function Run(turns: seq<Turn>, switchAfter: nat): LanguageState {
    if turns == [] then UNSEEDED
    else
      var t := turns[|turns| - 1];
      Resolve(Run(turns[..|turns| - 1], switchAfter), t.declared, t.reading, true, switchAfter).state
  }

  /** The last turn changes a declaration that named a language: an instruction. Declaring a language after UNKNOWN
      is not one; it only seeds the session. */
  predicate Redeclares(turns: seq<Turn>) {
    && |turns| > 1
    && turns[|turns| - 2].declared != Unknown && turns[|turns| - 1].declared != turns[|turns| - 2].declared
  }

  /** The language a further turn starts from: what it declares while nothing but UNKNOWN was declared before it, else
      the language of the conversation. */
  function Base(turns: seq<Turn>, t: Turn, switchAfter: nat): Language {
    if turns == [] || turns[|turns| - 1].declared == Unknown then t.declared else Run(turns, switchAfter).language
  }

  /** The votes that still count: what was heard since the last turn that was a re-declaration, or that left the
      conversation in the language it was heard in. */
  function Votes(turns: seq<Turn>, switchAfter: nat): seq<Language> {
    if turns == [] || Redeclares(turns) then []
    else
      var init, reading := turns[..|turns| - 1], turns[|turns| - 1].reading;
      if !reading.Informative() then Votes(init, switchAfter)
      else if Run(turns, switchAfter).language == reading.language.value then []
      else Votes(init, switchAfter) + [reading.language.value]
  }

  /** What the buyer was heard speaking since the last re-declaration, silent turns left out. */
  function Heard(turns: seq<Turn>): seq<Language> {
    if turns == [] || Redeclares(turns) then []
    else
      var t := turns[|turns| - 1];
      Heard(turns[..|turns| - 1]) + if t.reading.Informative() then [t.reading.language.value] else []
  }

  /** The last k entries exist and are all l. */
  predicate EndsWith(heard: seq<Language>, k: nat, l: Language) {
    k <= |heard| && forall i :: |heard| - k <= i < |heard| ==> heard[i] == l
  }

  /** How long the trailing run of l is. */
  function Streak(heard: seq<Language>, l: Language): nat {
    if heard == [] || heard[|heard| - 1] != l then 0 else 1 + Streak(heard[..|heard| - 1], l)
  }

  lemma {:induction false} StreakIsEnding(heard: seq<Language>, k: nat, l: Language)
    ensures k <= Streak(heard, l) <==> EndsWith(heard, k, l)
  {
    if k > 0 && heard != [] && heard[|heard| - 1] == l {
      var init := heard[..|heard| - 1];
      StreakIsEnding(init, k - 1, l);
      if EndsWith(heard, k, l) {
        assert EndsWith(init, k - 1, l);
      }
      if EndsWith(init, k - 1, l) {
        forall i | |heard| - k <= i < |heard| ensures heard[i] == l {
          if i < |init| { assert init[i] == l; }
        }
      }
    }
  }

  // ----- every run, whatever is declared -----

  lemma RunExtends(turns: seq<Turn>, t: Turn, switchAfter: nat)
    ensures Run(turns + [t], switchAfter) ==
            Resolve(Run(turns, switchAfter), t.declared, t.reading, true, switchAfter).state
    ensures Run(turns + [t], switchAfter).declared == t.declared
    ensures Redeclares(turns + [t]) <==>
            turns != [] && turns[|turns| - 1].declared != Unknown && t.declared != turns[|turns| - 1].declared
  {
    assert (turns + [t])[..|turns|] == turns;
  }

  lemma RunDeclares(turns: seq<Turn>, switchAfter: nat)
    ensures Run(turns, switchAfter).declared == if turns == [] then Unknown else turns[|turns| - 1].declared
  {
  }

  lemma VotesExtend(turns: seq<Turn>, t: Turn, switchAfter: nat)
    ensures var all, v := turns + [t], t.reading.language;
            Votes(all, switchAfter) ==
            if Redeclares(all) then []
            else if !t.reading.Informative() then Votes(turns, switchAfter)
            else if Some(Run(all, switchAfter).language) == v then []
            else Votes(turns, switchAfter) + [v.value]
  {
    assert (turns + [t])[..|turns|] == turns;
  }

  /** The pending pair is exactly the trailing run of the votes. */
  ghost predicate PendingIsStreak(ls: LanguageState, votes: seq<Language>) {
    && ls.Agrees()
    && forall l :: Streak(votes, l) == if ls.pending == Some(l) then ls.pendingCount else 0
  }

  lemma StreakExtends(votes: seq<Language>, v: Language, l: Language)
    ensures Streak(votes + [v], l) == if v == l then 1 + Streak(votes, l) else 0
  {
    assert (votes + [v])[..|votes|] == votes;
  }

  /** One resolution that is not a re-declaration, given that the pending pair tracks the votes. */
  lemma ResolveTracksStreak(ls: LanguageState, votes: seq<Language>, t: Turn, switchAfter: nat)
    requires PendingIsStreak(ls, votes) && (ls.declared == Unknown || ls.declared == t.declared)
    ensures var after, v := Resolve(ls, t.declared, t.reading, true, switchAfter).state, t.reading.language;
            PendingIsStreak(after, if !t.reading.Informative() then votes
                                   else if Some(after.language) == v then [] else votes + [v.value])
  {
    if t.reading.Informative() {
      forall l ensures Streak(votes + [t.reading.language.value], l) ==
                       if t.reading.language.value == l then 1 + Streak(votes, l) else 0
      {
        StreakExtends(votes, t.reading.language.value, l);
      }
    }
  }

  /** After every run, whatever was declared in it, the pending language and its count are exactly the trailing run of
      the votes that still count, and agree with each other. */
  lemma {:induction false} RunTracksStreak(turns: seq<Turn>, switchAfter: nat)
    ensures PendingIsStreak(Run(turns, switchAfter), Votes(turns, switchAfter))
    decreases |turns|
  {
    if turns != [] {
      var init, t := turns[..|turns| - 1], turns[|turns| - 1];
      assert init + [t] == turns;
      RunTracksStreak(init, switchAfter);
      RunExtends(init, t, switchAfter);
      RunDeclares(init, switchAfter);
      VotesExtend(init, t, switchAfter);
      if !Redeclares(turns) {
        ResolveTracksStreak(Run(init, switchAfter), Votes(init, switchAfter), t, switchAfter);
      }
    }
  }

  lemma ResolveSwitchesIff(ls: LanguageState, votes: seq<Language>, t: Turn, switchAfter: nat, l: Language)
    requires PendingIsStreak(ls, votes) && (ls.declared == Unknown || ls.declared == t.declared)
    requires l != if ls.declared == Unknown then t.declared else ls.language
    ensures Resolve(ls, t.declared, t.reading, true, switchAfter).state.language == l <==>
            && t.reading.Informative() && t.reading.language == Some(l)
            && (t.reading.evidence.Requested? || switchAfter <= 1 + Streak(votes, l))
  {
  }

  /** Hysteresis over every run. On a turn that is not a re-declaration the conversation moves to another language than
      the turn starts from exactly when the turn was heard in it and either asked for it outright or is the last of
      `switchAfter` consecutive votes for it. */
  lemma SwitchIff(turns: seq<Turn>, t: Turn, switchAfter: nat, l: Language)
    requires !Redeclares(turns + [t]) && l != Base(turns, t, switchAfter)
    ensures Run(turns + [t], switchAfter).language == l <==>
            && t.reading.Informative() && t.reading.language == Some(l)
            && (t.reading.evidence.Requested? || EndsWith(Votes(turns, switchAfter) + [l], switchAfter, l))
  {
    RunTracksStreak(turns, switchAfter);
    RunExtends(turns, t, switchAfter);
    RunDeclares(turns, switchAfter);
    ResolveSwitchesIff(Run(turns, switchAfter), Votes(turns, switchAfter), t, switchAfter, l);
    StreakExtends(Votes(turns, switchAfter), l, l);
    StreakIsEnding(Votes(turns, switchAfter) + [l], switchAfter, l);
  }

  /** A turn reports a switch exactly when it ends in another language than the conversation had, for a re-declaration,
      or than the turn started from, for any other turn. */
  lemma SwitchReportedIff(turns: seq<Turn>, t: Turn, switchAfter: nat)
    ensures Resolve(Run(turns, switchAfter), t.declared, t.reading, true, switchAfter).switched <==>
            Run(turns + [t], switchAfter).language !=
            if Redeclares(turns + [t]) then Run(turns, switchAfter).language else Base(turns, t, switchAfter)
  {
    RunExtends(turns, t, switchAfter);
    RunDeclares(turns, switchAfter);
  }

  /** Another declaration is obeyed at once, and forgets every vote, whatever the buyer said - exactly when the
      declaration before it named a language. After UNKNOWN it can lose to a request made in the same turn. */
  lemma RedeclarationObeyed(turns: seq<Turn>, declared: Language, switchAfter: nat)
    requires turns != [] && declared != turns[|turns| - 1].declared
    ensures turns[|turns| - 1].declared != Unknown <==>
            forall reading ::
              Run(turns + [Turn(declared, reading)], switchAfter) == LanguageState(declared, declared, None, 0)
  {
    RunDeclares(turns, switchAfter);
    forall reading ensures Run(turns + [Turn(declared, reading)], switchAfter) ==
                           Resolve(Run(turns, switchAfter), declared, reading, true, switchAfter).state
    {
      RunExtends(turns, Turn(declared, reading), switchAfter);
    }
    if turns[|turns| - 1].declared == Unknown {
      var other := Reading(Some(if declared == English then Hindi else English), Requested);
      assert Run(turns + [Turn(declared, other)], switchAfter).language != declared;
    }
  }

  /** A turn that repeats its declaration and says nothing, or speaks the language of the conversation, keeps that
      language exactly when the declaration names a language, or nothing was decided yet, or the turn is by itself
      enough to switch. A caller that keeps declaring UNKNOWN re-seeds the session every turn and undoes the switch. */
  lemma AgreeingTurnKeepsLanguageIff(turns: seq<Turn>, t: Turn, switchAfter: nat)
    requires turns != [] && t.declared == turns[|turns| - 1].declared
    requires t.reading.Informative() ==> t.reading.language == Some(Run(turns, switchAfter).language)
    ensures Run(turns + [t], switchAfter).language == Run(turns, switchAfter).language <==>
            || t.declared != Unknown
            || Run(turns, switchAfter).language == Unknown
            || (t.reading.Informative() && (t.reading.evidence.Requested? || switchAfter <= 1))
  {
    var init, last := turns[..|turns| - 1], turns[|turns| - 1];
    assert init + [last] == turns;
    RunExtends(init, last, switchAfter);
    RunExtends(turns, t, switchAfter);
  }

  // ----- runs with one declaration -----

  predicate AllDeclare(turns: seq<Turn>, d: Language) {
    forall i :: 0 <= i < |turns| ==> turns[i].declared == d
  }

  /** What hysteresis promises of a turn: the conversation moves to l exactly when the turn was heard in l and either
      asked for it or completes `switchAfter` consecutive heard turns in l. Silent turns never matter. */
  ghost predicate SwitchesAsHeard(turns: seq<Turn>, t: Turn, switchAfter: nat, l: Language) {
    Run(turns + [t], switchAfter).language == l <==>
      && t.reading.Informative() && t.reading.language == Some(l)
      && (t.reading.evidence.Requested? || EndsWith(Heard(turns + [t]), switchAfter, l))
  }

  ghost predicate Hysteresis(d: Language, switchAfter: nat) {
    forall turns, t, l {:trigger SwitchesAsHeard(turns, t, switchAfter, l)} ::
      AllDeclare(turns + [t], d) && l != (if turns == [] then d else Run(turns, switchAfter).language)
      ==> SwitchesAsHeard(turns, t, switchAfter, l)
  }

  predicate Declared(turns: seq<Turn>) {
    forall i :: 0 <= i < |turns| ==> turns[i].declared != Unknown
  }

  /** For every language but the current one, the votes and all that was heard end in the same run of it. */
  ghost predicate SameEnding(votes: seq<Language>, heard: seq<Language>, current: Language) {
    forall l :: l != current ==> Streak(votes, l) == Streak(heard, l)
  }

  lemma HeardExtends(turns: seq<Turn>, t: Turn)
    ensures Heard(turns + [t]) ==
            if Redeclares(turns + [t]) then []
            else if t.reading.Informative() then Heard(turns) + [t.reading.language.value]
            else Heard(turns)
  {
    assert (turns + [t])[..|turns|] == turns && Heard(turns) + [] == Heard(turns);
  }

  /** While every declaration names a language, no vote is lost that could still matter. */
  lemma {:induction false} VotesEndAsHeard(turns: seq<Turn>, switchAfter: nat)
    requires Declared(turns)
    ensures SameEnding(Votes(turns, switchAfter), Heard(turns), Run(turns, switchAfter).language)
    decreases |turns|
  {
    if turns != [] {
      var init, t := turns[..|turns| - 1], turns[|turns| - 1];
      assert init + [t] == turns;
      VotesEndAsHeard(init, switchAfter);
      VotesExtend(init, t, switchAfter);
      HeardExtends(init, t);
      RunExtends(init, t, switchAfter);
      RunDeclares(init, switchAfter);
      assert init == [] ==> Votes(init, switchAfter) == [] && Heard(init) == [];
      if t.reading.Informative() {
        var v := t.reading.language.value;
        var votes := Votes(init, switchAfter);
        forall l ensures Streak(votes + [v], l) == if v == l then 1 + Streak(votes, l) else 0 {
          StreakExtends(votes, v, l);
        }
        forall l ensures Streak(Heard(init) + [v], l) == if v == l then 1 + Streak(Heard(init), l) else 0 {
          StreakExtends(Heard(init), v, l);
        }
      }
    }
  }

  /** Hysteresis as promised, over every run whose declarations name a language, re-declarations included. */
  lemma DeclaredSwitchIff(turns: seq<Turn>, t: Turn, switchAfter: nat, l: Language)
    requires Declared(turns + [t]) && !Redeclares(turns + [t])
    requires l != if turns == [] then t.declared else Run(turns, switchAfter).language
    ensures SwitchesAsHeard(turns, t, switchAfter, l)
  {
    assert forall i :: 0 <= i < |turns| ==> (turns + [t])[i] == turns[i];
    assert (turns + [t])[|turns|] == t;
    SwitchIff(turns, t, switchAfter, l);
    VotesEndAsHeard(turns, switchAfter);
    HeardExtends(turns, t);
    SameStreakSameEnding(Votes(turns, switchAfter), Heard(turns), switchAfter, l);
  }

  lemma SameStreakSameEnding(votes: seq<Language>, heard: seq<Language>, k: nat, l: Language)
    ensures Streak(votes, l) == Streak(heard, l) ==> (EndsWith(votes + [l], k, l) <==> EndsWith(heard + [l], k, l))
  {
    StreakExtends(votes, l, l);
    StreakExtends(heard, l, l);
    StreakIsEnding(votes + [l], k, l);
    StreakIsEnding(heard + [l], k, l);
  }

  /** For a caller that declares d throughout, hysteresis holds in every run exactly when d is a language. */
  lemma HysteresisIffDeclared(d: Language, switchAfter: nat)
    ensures Hysteresis(d, switchAfter) <==> d != Unknown
  {
    if d == Unknown {
      var asks, silent := Turn(Unknown, Reading(Some(Hindi), Requested)), Turn(Unknown, Reading(None, NoEvidence));
      RunExtends([], asks, switchAfter);
      RunExtends([asks], silent, switchAfter);
      assert [] + [asks] == [asks] && AllDeclare([asks] + [silent], d);
      assert !SwitchesAsHeard([asks], silent, switchAfter, Unknown);
    } else {
      forall turns, t, l | AllDeclare(turns + [t], d) && l != (if turns == [] then d else Run(turns, switchAfter).language)
        ensures SwitchesAsHeard(turns, t, switchAfter, l)
      {
        assert (turns + [t])[|turns|] == t;
        DeclaredSwitchIff(turns, t, switchAfter, l);
      }
    }
  }

  predicate Unrequested(turns: seq<Turn>) {
    forall i :: 0 <= i < |turns| ==> !turns[i].reading.evidence.Requested?
  }

  /** n, counted from 0 up to k and then from 0 again. */
  function Wrapped(n: nat, k: nat): (r: nat)
    requires k >= 1
  {
    if n == 0 then 0
    else var r := 1 + Wrapped(n - 1, k); if r >= k then 0 else r
  }

  lemma {:induction false} WrappedIsRemainder(n: nat, k: nat)
    requires k >= 1
    ensures Wrapped(n, k) == n % k
  {
    if n > 0 {
      WrappedIsRemainder(n - 1, k);
      RemainderSteps(n - 1, k);
    }
  }

  /** The votes count from 0 up to `switchAfter` and start over, while what was heard goes on. */
  ghost predicate Wraps(votes: seq<Language>, heard: seq<Language>, switchAfter: nat)
    requires switchAfter >= 1
  {
    forall l :: Streak(votes, l) == Wrapped(Streak(heard, l), switchAfter)
  }

  lemma VoteWraps(votes: seq<Language>, heard: seq<Language>, v: Language, switchAfter: nat)
    requires switchAfter >= 1 && Wraps(votes, heard, switchAfter)
    ensures Wrapped(Streak(heard + [v], v), switchAfter) == 0 <==> switchAfter <= 1 + Streak(votes, v)
    ensures Wraps(if switchAfter <= 1 + Streak(votes, v) then [] else votes + [v], heard + [v], switchAfter)
  {
    forall l ensures Streak(votes + [v], l) == if v == l then 1 + Streak(votes, l) else 0 {
      StreakExtends(votes, v, l);
    }
    forall l ensures Streak(heard + [v], l) == if v == l then 1 + Streak(heard, l) else 0 {
      StreakExtends(heard, v, l);
    }
  }

  lemma UndeclaredStep(ls: LanguageState, votes: seq<Language>, heard: seq<Language>, t: Turn, switchAfter: nat)
    requires switchAfter >= 1 && PendingIsStreak(ls, votes) && Wraps(votes, heard, switchAfter)
    requires ls.declared == Unknown && t.declared == Unknown && !t.reading.evidence.Requested?
    requires t.reading.Informative()
    ensures var v := t.reading.language.value;
            var after := Resolve(ls, Unknown, t.reading, true, switchAfter).state.language;
            && after == (if Wrapped(Streak(heard + [v], v), switchAfter) == 0 then v else Unknown)
            && Wraps(if after == v then [] else votes + [v], heard + [v], switchAfter)
  {
    VoteWraps(votes, heard, t.reading.language.value, switchAfter);
  }

  /** What hysteresis becomes for a caller that always declares UNKNOWN and a buyer who never asks outright: only every
      `switchAfter`-th consecutive turn heard in a language is answered in it, every other turn in none. */
  lemma {:induction false} UndeclaredRunWraps(turns: seq<Turn>, t: Turn, switchAfter: nat)
    requires switchAfter >= 1 && AllDeclare(turns + [t], Unknown) && Unrequested(turns + [t])
    ensures Run(turns + [t], switchAfter).language ==
            if t.reading.Informative() && Streak(Heard(turns + [t]), t.reading.language.value) % switchAfter == 0
            then t.reading.language.value else Unknown
    ensures Wraps(Votes(turns + [t], switchAfter), Heard(turns + [t]), switchAfter)
    decreases |turns|
  {
    assert (turns + [t])[|turns|] == t;
    assert forall i :: 0 <= i < |turns| ==> (turns + [t])[i] == turns[i];
    if turns != [] {
      assert turns[..|turns| - 1] + [turns[|turns| - 1]] == turns;
      UndeclaredRunWraps(turns[..|turns| - 1], turns[|turns| - 1], switchAfter);
    }
    RunTracksStreak(turns, switchAfter);
    RunExtends(turns, t, switchAfter);
    RunDeclares(turns, switchAfter);
    VotesExtend(turns, t, switchAfter);
    HeardExtends(turns, t);
    var votes, heard := Votes(turns, switchAfter), Heard(turns);
    assert turns == [] ==> Wraps(votes, heard, switchAfter);
    if t.reading.Informative() {
      UndeclaredStep(Run(turns, switchAfter), votes, heard, t, switchAfter);
      WrappedIsRemainder(Streak(Heard(turns + [t]), t.reading.language.value), switchAfter);
    }
  }

  lemma RemainderSteps(n: nat, k: nat)
    requires k >= 1
    ensures (1 + n) % k == if 1 + n % k >= k then 0 else 1 + n % k
  {
    var q, r := n / k, n % k;
    assert n == q * k + r;
    if 1 + r == k {
      assert 1 + n == (q + 1) * k + 0;
      Remainder(1 + n, q + 1, 0, k);
    } else {
      Remainder(1 + n, q, 1 + r, k);
    }
  }

  lemma Remainder(n: nat, q: nat, r: nat, k: nat)
    requires n == q * k + r && r < k
    ensures n % k == r
  {
    var p := n / k;
    assert n == p * k + n % k;
    if p < q { MultiplesApart(p, q, k); }
    if q < p { MultiplesApart(q, p, k); }
  }

  lemma MultiplesApart(p: nat, q: nat, k: nat)
    requires p < q
    ensures q * k >= p * k + k
  {
    assert q * k == p * k + k + (q - p - 1) * k;
  }

  /** The run that shows it: two Hindi turns switch the conversation, the next silent turn undoes it. */
  lemma UndeclaredSwitchIsForgotten()
    ensures var hindi := Turn(Unknown, Reading(Some(Hindi), Script));
            var silent := Turn(Unknown, Reading(None, NoEvidence));
            && Run([hindi, hindi], 2).language == Hindi
            && Run([hindi, hindi, silent], 2).language == Unknown
  {
    var hindi := Turn(Unknown, Reading(Some(Hindi), Script));
    var silent := Turn(Unknown, Reading(None, NoEvidence));
    assert [hindi, hindi, silent][..2] == [hindi, hindi];
    assert [hindi, hindi][..1] == [hindi];
    assert [hindi][..0] == [];
    assert Run([hindi], 2) == LanguageState(Unknown, Unknown, Some(Hindi), 1);
  }
}
