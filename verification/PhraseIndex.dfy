/** Literal phrase search, and the index by opening token that speeds it up. */
module PhraseIndex {
  import opened Tokens

  /** A memorised wording. Phrase lists are authored with at least one word per phrase. */
  datatype Phrase = Phrase(words: seq<string>, inflected: bool)

  /** Closed vocabularies: the inflections a last word may carry, the nouns a trailing scope re-reads, and the
      prepositions that open such a scope. */
  datatype Vocabulary = Vocabulary(suffixes: set<string>, artefacts: set<string>, scopes: set<string>)

  predicate Carries(token: Token, word: string, inflected: bool, v: Vocabulary) {
    token.Word? &&
    (token.text == word || (inflected && word <= token.text && token.text[|word|..] in v.suffixes))
  }

  /** Index just past a phrase beginning at start, or 0 when it is absent. Every word but the last must be its own
      token; a phrase may also arrive with its separators removed, as one token. */
  function PhraseSpan(tokens: seq<Token>, start: nat, p: Phrase, v: Vocabulary): nat
    requires start < |tokens| && p.words != []
  {
    var last := |p.words| - 1;
    if last > 0 && Carries(tokens[start], Join(p.words), p.inflected, v) then start + 1
    else if start + last >= |tokens| then 0
    else if exists k :: 0 <= k <= last && tokens[start + k] != Word(p.words[k])
                        && !(k == last && Carries(tokens[start + k], p.words[k], p.inflected, v)) then 0
    else start + last + 1
  }

  /** Whether a business scope trails the phrase and makes it a product question again. */
  predicate ScopeFollows(tokens: seq<Token>, end: nat, p: Phrase, v: Vocabulary)
    requires p.words != []
  {
    p.words[|p.words| - 1] in v.artefacts && end < |tokens| && tokens[end].In(v.scopes)
  }

  predicate PhraseAt(tokens: seq<Token>, start: nat, p: Phrase, v: Vocabulary)
    requires start < |tokens| && p.words != []
  {
    var end := PhraseSpan(tokens, start, p, v);
    end != 0 && !ScopeFollows(tokens, end, p, v)
  }

  ghost predicate Authored(phrases: seq<Phrase>) {
    forall p :: p in phrases ==> p.words != []
  }

  ghost predicate AnyPhraseAt(tokens: seq<Token>, start: nat, phrases: seq<Phrase>, v: Vocabulary)
    requires start < |tokens| && Authored(phrases)
  {
    exists p :: p in phrases && PhraseAt(tokens, start, p, v)
  }

  /** The reference search: every phrase tried at every position. */
  ghost predicate Present(tokens: seq<Token>, phrases: seq<Phrase>, v: Vocabulary)
    requires Authored(phrases)
  {
    exists start :: 0 <= start < |tokens| && AnyPhraseAt(tokens, start, phrases, v)
  }

  // ----- the index -----

  /** Every shape the first token of a phrase can take. */
  function Forms(p: Phrase, v: Vocabulary): set<string>
    requires p.words != []
  {
    var suffixes := if p.inflected then v.suffixes else {};
    if |p.words| == 1 then {p.words[0]} + set s | s in suffixes :: p.words[0] + s
    else {p.words[0], Join(p.words)} + set s | s in suffixes :: Join(p.words) + s
  }

  type Index = map<string, seq<Phrase>>

  /** Each form opens exactly the phrases that have it. */
  ghost predicate Indexes(index: Index, phrases: seq<Phrase>, v: Vocabulary)
    requires Authored(phrases)
  {
    && (forall p, form :: p in phrases && form in Forms(p, v) ==> form in index && p in index[form])
    && (forall form :: form in index ==>
          index[form] != [] && forall p :: p in index[form] ==> p in phrases && form in Forms(p, v))
  }

  method BuildIndex(phrases: seq<Phrase>, v: Vocabulary) returns (index: Index)
    requires Authored(phrases)
    ensures Indexes(index, phrases, v)
  {
    index := map[];
    for i := 0 to |phrases|
      invariant Indexes(index, phrases[..i], v)
    {
      var p := phrases[i];
      assert phrases[..i + 1] == phrases[..i] + [p];
      index := AddForms(index, phrases[..i], p, v);
    }
    assert phrases[..|phrases|] == phrases;
  }

  method AddForms(index0: Index, phrases: seq<Phrase>, p: Phrase, v: Vocabulary) returns (index: Index)
    requires p.words != [] && Authored(phrases) && Indexes(index0, phrases, v)
    ensures Indexes(index, phrases + [p], v)
  {
    var pending := Forms(p, v);
    index := index0;
    while pending != {}
      invariant pending <= Forms(p, v)
      invariant forall q, form :: q in phrases && form in Forms(q, v) ==> form in index && q in index[form]
      invariant forall form :: form in Forms(p, v) - pending ==> form in index && p in index[form]
      invariant forall form :: form in index ==>
                  index[form] != [] && forall q :: q in index[form] ==> q in phrases + [p] && form in Forms(q, v)
      decreases pending
    {
      var form :| form in pending;
      pending := pending - {form};
      index := index[form := (if form in index then index[form] else []) + [p]];
    }
  }

  /** A phrase that begins at a token has that token among its forms. */
  lemma OpenerIsAForm(tokens: seq<Token>, start: nat, p: Phrase, v: Vocabulary)
    requires start < |tokens| && p.words != []
    ensures PhraseSpan(tokens, start, p, v) != 0 ==> tokens[start].Word? && tokens[start].text in Forms(p, v)
  {
    var token, last := tokens[start], |p.words| - 1;
    if PhraseSpan(tokens, start, p, v) == 0 {
    } else if last > 0 && Carries(token, Join(p.words), p.inflected, v) {
      assert token.text == Join(p.words) + token.text[|Join(p.words)|..] || token.text == Join(p.words);
    } else {
      var first := p.words[0];
      assert token == Word(first) || (last == 0 && Carries(token, first, p.inflected, v));
      assert token == Word(first) || token.text == first + token.text[|first|..];
    }
  }

  /** What the index holds for a token. */
  function Candidates(token: Token, index: Index): seq<Phrase> {
    if token.Word? && token.text in index then index[token.text] else []
  }

  /** At one position, the phrases filed under the token find exactly what all the phrases find. */
  lemma CandidatesSuffice(tokens: seq<Token>, start: nat, index: Index, phrases: seq<Phrase>, v: Vocabulary)
    requires start < |tokens| && Authored(phrases) && Indexes(index, phrases, v)
    ensures Authored(Candidates(tokens[start], index))
    ensures AnyPhraseAt(tokens, start, phrases, v) <==> AnyPhraseAt(tokens, start, Candidates(tokens[start], index), v)
  {
    var candidates := Candidates(tokens[start], index);
    assert forall p :: p in candidates ==> p in phrases;
    forall p | p in phrases && PhraseAt(tokens, start, p, v) ensures p in candidates {
      OpenerIsAForm(tokens, start, p, v);
    }
  }

  method SearchAt(tokens: seq<Token>, start: nat, candidates: seq<Phrase>, v: Vocabulary) returns (found: bool)
    requires start < |tokens| && Authored(candidates)
    ensures found <==> AnyPhraseAt(tokens, start, candidates, v)
  {
    for k := 0 to |candidates|
      invariant forall j :: 0 <= j < k ==> !PhraseAt(tokens, start, candidates[j], v)
    {
      assert candidates[k] in candidates;
      if PhraseAt(tokens, start, candidates[k], v) { return true; }
    }
    found := false;
  }

  /** Search through the index: look up each token. */
  method TokensContainPhrase(tokens: seq<Token>, index: Index, phrases: seq<Phrase>, v: Vocabulary) returns (found: bool)
    requires Authored(phrases) && Indexes(index, phrases, v)
    ensures found <==> Present(tokens, phrases, v)
  {
    for start := 0 to |tokens|
      invariant forall s :: 0 <= s < start ==> !AnyPhraseAt(tokens, s, phrases, v)
    {
      CandidatesSuffice(tokens, start, index, phrases, v);
      found := SearchAt(tokens, start, Candidates(tokens[start], index), v);
      if found { return; }
    }
    found := false;
  }

  /** A turn none of whose words opens anything holds no phrase. */
  lemma PrefilterIsLossless(tokens: seq<Token>, index: Index, phrases: seq<Phrase>, v: Vocabulary)
    requires Authored(phrases) && Indexes(index, phrases, v)
    requires forall t :: t in tokens && t.Word? ==> t.text !in index
    ensures !Present(tokens, phrases, v)
  {
    forall start | 0 <= start < |tokens| ensures !AnyPhraseAt(tokens, start, phrases, v) {
      CandidatesSuffice(tokens, start, index, phrases, v);
      assert tokens[start] in tokens;
    }
  }

  /** The whole-list search over every reading of a turn, each behind the disjointness prefilter. It agrees with
      trying every phrase at every position of every reading. */
  method ContainsPhrase(variants: seq<seq<Token>>, index: Index, phrases: seq<Phrase>, v: Vocabulary)
    returns (found: bool)
    requires Authored(phrases) && Indexes(index, phrases, v)
    ensures found <==> exists i :: 0 <= i < |variants| && Present(variants[i], phrases, v)
  {
    for i := 0 to |variants|
      invariant forall j :: 0 <= j < i ==> !Present(variants[j], phrases, v)
    {
      var seen := set t | t in variants[i] && t.Word? :: t.text;
      if seen !! index.Keys {
        PrefilterIsLossless(variants[i], index, phrases, v);
      } else {
        found := TokensContainPhrase(variants[i], index, phrases, v);
        if found { return; }
      }
    }
    found := false;
  }

  function Texts(tokens: seq<Token>): seq<string> {
    if tokens == [] then [] else [if tokens[0].Word? then tokens[0].text else ""] + Texts(tokens[1..])
  }

  /** A phrase is only found as whole tokens: the tokens it spans are words that spell the phrase, with at most one
      listed inflection at the very end. */
  lemma SpanSpells(tokens: seq<Token>, start: nat, p: Phrase, v: Vocabulary)
    requires start < |tokens| && p.words != [] && PhraseSpan(tokens, start, p, v) != 0
    ensures var end := PhraseSpan(tokens, start, p, v);
            && start < end <= |tokens|
            && exists suffix :: (suffix == "" || (p.inflected && suffix in v.suffixes))
                                && Join(Texts(tokens[start..end])) == Join(p.words) + suffix
  {
    var end, last := PhraseSpan(tokens, start, p, v), |p.words| - 1;
    if last > 0 && Carries(tokens[start], Join(p.words), p.inflected, v) {
      assert tokens[start..end] == [tokens[start]];
      var text := tokens[start].text;
      assert Join(Texts([tokens[start]])) == text;
      if text == Join(p.words) { assert text == Join(p.words) + ""; }
      else { assert text == Join(p.words) + text[|Join(p.words)|..]; }
    } else {
      assert forall k :: 0 <= k < last ==> tokens[start + k] == Word(p.words[k]);
      var word, token := p.words[last], tokens[start + last];
      assert token == Word(word) || Carries(token, word, p.inflected, v);
      var suffix := if token == Word(word) then "" else token.text[|word|..];
      assert token.text == word + suffix;
      WordsSpell(tokens, start, p.words, suffix);
    }
  }

  /** The phrase stands at start as words of its own, the last possibly inflected. */
  predicate SpelledOut(tokens: seq<Token>, start: nat, p: Phrase, v: Vocabulary)
    requires p.words != []
  {
    var last := |p.words| - 1;
    && start + last < |tokens|
    && (forall k :: 0 <= k < last ==> tokens[start + k] == Word(p.words[k]))
    && Carries(tokens[start + last], p.words[last], p.inflected, v)
  }

  /** The phrase stands at start with its separators removed. */
  predicate JoinedUp(tokens: seq<Token>, start: nat, p: Phrase, v: Vocabulary)
    requires start < |tokens|
  {
    |p.words| > 1 && Carries(tokens[start], Join(p.words), p.inflected, v)
  }

  /** A phrase is found at a position exactly when it is spelled out there, plainly or inflected, or joined up; joined
      up it spans one token, spelled out its words. */
  lemma SpanIff(tokens: seq<Token>, start: nat, p: Phrase, v: Vocabulary)
    requires start < |tokens| && p.words != []
    ensures PhraseSpan(tokens, start, p, v) ==
            if JoinedUp(tokens, start, p, v) then start + 1
            else if SpelledOut(tokens, start, p, v) then start + |p.words|
            else 0
  {
    var last := |p.words| - 1;
    if start + last < |tokens| {
      assert tokens[start + last] == Word(p.words[last]) ==> Carries(tokens[start + last], p.words[last], p.inflected, v);
    }
  }

  lemma {:induction false} WordsSpell(tokens: seq<Token>, start: nat, words: seq<string>, suffix: string)
    requires words != [] && start + |words| <= |tokens|
    requires forall k :: 0 <= k < |words| - 1 ==> tokens[start + k] == Word(words[k])
    requires tokens[start + |words| - 1] == Word(words[|words| - 1] + suffix)
    ensures Join(Texts(tokens[start..start + |words|])) == Join(words) + suffix
    decreases |words|
  {
    var run := tokens[start..start + |words|];
    assert run[1..] == tokens[start + 1..start + |words|];
    if |words| == 1 {
      assert run == [tokens[start]];
      assert Texts(run) == [words[0] + suffix];
      assert Join([words[0] + suffix]) == words[0] + suffix;
      assert Join(words) == words[0];
    } else {
      assert run[0] == tokens[start + 0] == Word(words[0]);
      forall k | 0 <= k < |words| - 2 ensures tokens[start + 1 + k] == Word(words[1..][k]) {
        assert tokens[start + (k + 1)] == Word(words[k + 1]);
      }
      WordsSpell(tokens, start + 1, words[1..], suffix);
      assert Texts(run) == [words[0]] + Texts(run[1..]);
      assert Join(Texts(run)) == words[0] + Join(Texts(run[1..]));
      assert words[0] + (Join(words[1..]) + suffix) == Join(words) + suffix;
    }
  }

  /** A token carries a word when it is the word, or the word with one listed inflection where those are allowed. */
  lemma CarriesIff(token: Token, word: string, inflected: bool, v: Vocabulary)
    ensures Carries(token, word, inflected, v) <==>
            exists suffix :: token == Word(word + suffix) && (suffix == "" || (inflected && suffix in v.suffixes))
  {
    if Carries(token, word, inflected, v) {
      var suffix := if token.text == word then "" else token.text[|word|..];
      assert token.text == word + suffix;
    }
    if suffix :| token == Word(word + suffix) && (suffix == "" || (inflected && suffix in v.suffixes)) {
      assert (word + suffix)[|word|..] == suffix;
      if suffix == "" { assert word + suffix == word; }
    }
  }

  /** A phrase counts at a position exactly when it is spelled out or joined up there, unless its last word is an artefact
      of the business and a scope follows. */
  lemma PhraseCountsIff(tokens: seq<Token>, start: nat, p: Phrase, v: Vocabulary)
    requires start < |tokens| && p.words != []
    ensures PhraseAt(tokens, start, p, v) <==>
            var end := if JoinedUp(tokens, start, p, v) then start + 1 else start + |p.words|;
            && (JoinedUp(tokens, start, p, v) || SpelledOut(tokens, start, p, v))
            && !(p.words[|p.words| - 1] in v.artefacts && end < |tokens| && tokens[end].In(v.scopes))
  {
    SpanIff(tokens, start, p, v);
  }
}
