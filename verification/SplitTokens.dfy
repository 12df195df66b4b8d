/** Rejoining a safety word that was split across spaces. */
module SplitTokens {
  import opened Common
  import opened Tokens

  const FRAGMENT_LENGTH: nat := 2
  const MERGE_SPAN: nat := 3
  const MERGE_PART_LENGTH: nat := 4
  const MERGE_MINIMUM: nat := 4

  datatype Vocabulary = Vocabulary(stopwords: set<string>, safety: set<string>)

  /** The text of the tokens from i to j, nothing for a barrier. */
  function Text(tokens: seq<Token>, i: nat, j: nat): string
    requires i <= j <= |tokens|
    decreases j - i
  {
    if i == j then "" else (if tokens[i].Word? then tokens[i].text else "") + Text(tokens, i + 1, j)
  }

  predicate Mergeable(part: Token, v: Vocabulary) {
    part.Word? && |part.text| <= MERGE_PART_LENGTH && part.text !in v.stopwords
  }

  /** The `span` tokens from index rejoin into a known safety word. */
  predicate CanMerge(tokens: seq<Token>, index: nat, span: nat, v: Vocabulary) {
    && index + span <= |tokens|
    && (forall k :: index <= k < index + span ==> Mergeable(tokens[k], v))
    && (exists k :: index <= k < index + span && tokens[k].Word? && |tokens[k].text| <= FRAGMENT_LENGTH)
    && var word := Text(tokens, index, index + span); |word| >= MERGE_MINIMUM && word in v.safety
  }

  /** The widest merge at index, as the number of tokens it takes, or 0. */
  function MergeSpan(tokens: seq<Token>, index: nat, v: Vocabulary): (span: nat)
    requires index <= |tokens|
    ensures span == 0 || (2 <= span <= MERGE_SPAN && index + span <= |tokens|)
  {
    if CanMerge(tokens, index, 3, v) then 3 else if CanMerge(tokens, index, 2, v) then 2 else 0
  }

  /** MergeSpan is 0 exactly when no width works, and otherwise names the widest that does. */
  lemma MergeSpanIsWidest(tokens: seq<Token>, index: nat, v: Vocabulary)
    requires index <= |tokens|
    ensures var span := MergeSpan(tokens, index, v);
            && (span != 0 ==> CanMerge(tokens, index, span, v))
            && forall s :: 2 <= s <= MERGE_SPAN && CanMerge(tokens, index, s, v) ==> s <= span
  {
  }

  lemma MergedWord(tokens: seq<Token>, index: nat, v: Vocabulary)
    requires index <= |tokens| && MergeSpan(tokens, index, v) != 0
    ensures var span := MergeSpan(tokens, index, v);
            && (forall k :: index <= k < index + span ==> tokens[k].Word?)
            && Word(Text(tokens, index, index + span)).In(v.safety) && 4 <= |Text(tokens, index, index + span)|
            && forall k :: index <= k < index + span ==> |tokens[k].text| <= 4 && !tokens[k].In(v.stopwords)
  {
    assert forall k :: index <= k < |tokens| && Mergeable(tokens[k], v) ==> tokens[k].Word?;
  }

  /** One token more: a word adds to the last text, a barrier starts the next. */
  function AddToken(texts: seq<string>, t: Token): (r: seq<string>)
    requires texts != []
    ensures r != []
  {
    if t.Barrier? then texts + [""] else AddText(texts, t.text)
  }

  /** The texts with w added to the last. */
  function AddText(texts: seq<string>, w: string): (r: seq<string>)
    requires texts != []
    ensures r != []
  {
    texts[..|texts| - 1] + [texts[|texts| - 1] + w]
  }

  lemma AddTextTwice(texts: seq<string>, v: string, w: string)
    requires texts != []
    ensures AddText(AddText(texts, v), w) == AddText(texts, v + w)
    ensures AddText(texts, "") == texts
  {
    var last := texts[|texts| - 1];
    assert last + v + w == last + (v + w) && last + "" == last;
  }

  function TextsAfter(texts: seq<string>, tokens: seq<Token>): (r: seq<string>)
    requires texts != []
    ensures r != []
    decreases |tokens|
  {
    if tokens == [] then texts else TextsAfter(AddToken(texts, tokens[0]), tokens[1..])
  }

  /** The text of every run between barriers, in order. Merging must not change it. */
  function ClauseTexts(tokens: seq<Token>): seq<string> {
    TextsAfter([""], tokens)
  }

  /** Words add up, whether read one by one or as one token. */
  lemma {:induction false} WordsAddUp(texts: seq<string>, tokens: seq<Token>, i: nat, j: nat)
    requires texts != [] && i <= j <= |tokens| && forall k :: i <= k < j ==> tokens[k].Word?
    ensures TextsAfter(texts, tokens[i..]) == TextsAfter(AddText(texts, Text(tokens, i, j)), tokens[j..])
    decreases j - i
  {
    if i == j {
      AddTextTwice(texts, "", "");
    } else {
      assert tokens[i..][1..] == tokens[i + 1..];
      WordsAddUp(AddText(texts, tokens[i].text), tokens, i + 1, j);
      AddTextTwice(texts, tokens[i].text, Text(tokens, i + 1, j));
    }
  }

  /** A token short enough to be a fragment of a split word. */
  predicate Fragment(t: Token, v: Vocabulary) {
    (t.Barrier? || |t.text| <= FRAGMENT_LENGTH) && !t.In(v.stopwords)
  }

  /** Without a usable fragment no merge is reachable. */
  lemma NoFragmentNoMerge(tokens: seq<Token>, v: Vocabulary, index: nat)
    requires index <= |tokens| && forall k :: 0 <= k < |tokens| ==> !Fragment(tokens[k], v)
    ensures MergeSpan(tokens, index, v) == 0
  {
  }

  /** What the left-to-right repair makes of the tokens from index on. */
  function Repair(tokens: seq<Token>, index: nat, v: Vocabulary): seq<Token>
    requires index <= |tokens|
    decreases |tokens| - index
  {
    if index == |tokens| then []
    else
      var span := MergeSpan(tokens, index, v);
      if span == 0 then [tokens[index]] + Repair(tokens, index + 1, v)
      else [Word(Text(tokens, index, index + span))] + Repair(tokens, index + span, v)
  }

  predicate NoMergeFrom(tokens: seq<Token>, index: nat, v: Vocabulary)
    requires index <= |tokens|
  {
    forall i :: index <= i <= |tokens| ==> MergeSpan(tokens, i, v) == 0
  }

  /** Repair never lengthens the list, and keeps its length exactly when no merge is possible anywhere. */
  lemma {:induction false} RepairShortens(tokens: seq<Token>, index: nat, v: Vocabulary)
    requires index <= |tokens|
    ensures |Repair(tokens, index, v)| <= |tokens| - index
    ensures |Repair(tokens, index, v)| == |tokens| - index <==> NoMergeFrom(tokens, index, v)
    decreases |tokens| - index
  {
    if index < |tokens| {
      var span := MergeSpan(tokens, index, v);
      RepairShortens(tokens, index + if span == 0 then 1 else span, v);
    }
  }

  /** Repair keeps the text of every clause, so nothing is ever joined across a barrier. */
  lemma {:induction false} RepairKeepsText(tokens: seq<Token>, index: nat, v: Vocabulary, texts: seq<string>)
    requires index <= |tokens| && texts != []
    ensures TextsAfter(texts, Repair(tokens, index, v)) == TextsAfter(texts, tokens[index..])
    decreases |tokens| - index
  {
    if index < |tokens| {
      var next, word := RepairUnfolds(tokens, index, v);
      var rest := Repair(tokens, next, v);
      assert ([word] + rest)[1..] == rest;
      RepairKeepsText(tokens, next, v, AddToken(texts, word));
      StepKeepsText(tokens, index, next, word, texts);
    }
  }

  /** The tokens from index to next were kept, or rejoined into word. */
  predicate Rejoins(tokens: seq<Token>, index: nat, next: nat, word: Token) {
    && index < next <= |tokens|
    && if next == index + 1 then word == tokens[index]
       else word == Word(Text(tokens, index, next)) && forall k :: index <= k < next ==> tokens[k].Word?
  }

  /** One step of the repair. */
  lemma RepairUnfolds(tokens: seq<Token>, index: nat, v: Vocabulary) returns (next: nat, word: Token)
    requires index < |tokens|
    ensures Rejoins(tokens, index, next, word)
    ensures Repair(tokens, index, v) == [word] + Repair(tokens, next, v)
  {
    var span := MergeSpan(tokens, index, v);
    if span == 0 {
      next, word := index + 1, tokens[index];
    } else {
      next, word := index + span, Word(Text(tokens, index, index + span));
      MergedWord(tokens, index, v);
    }
  }

  lemma StepKeepsText(tokens: seq<Token>, index: nat, next: nat, word: Token, texts: seq<string>)
    requires Rejoins(tokens, index, next, word) && texts != []
    ensures TextsAfter(texts, tokens[index..]) == TextsAfter(AddToken(texts, word), tokens[next..])
  {
    if next == index + 1 {
      assert tokens[index..][1..] == tokens[next..];
    } else {
      WordsAddUp(texts, tokens, index, next);
    }
  }

  /** Every token of the result was there before or is a known safety word. */
  lemma {:induction false} RepairInvents(tokens: seq<Token>, index: nat, v: Vocabulary, t: Token)
    requires index <= |tokens| && t in Repair(tokens, index, v)
    ensures t in tokens || t.In(v.safety)
    decreases |tokens| - index
  {
    if index < |tokens| {
      var span := MergeSpan(tokens, index, v);
      var rest := Repair(tokens, index + if span == 0 then 1 else span, v);
      if span != 0 { MergedWord(tokens, index, v); }
      if t in rest { RepairInvents(tokens, index + if span == 0 then 1 else span, v, t); }
    }
  }

  lemma RepairFacts(tokens: seq<Token>, v: Vocabulary)
    ensures ClauseTexts(Repair(tokens, 0, v)) == ClauseTexts(tokens)
    ensures |Repair(tokens, 0, v)| <= |tokens|
    ensures |Repair(tokens, 0, v)| == |tokens| <==> NoMergeFrom(tokens, 0, v)
    ensures forall t :: t in Repair(tokens, 0, v) ==> t in tokens || t.In(v.safety)
  {
    RepairShortens(tokens, 0, v);
    RepairKeepsText(tokens, 0, v, [""]);
    assert tokens[0..] == tokens;
    forall t | t in Repair(tokens, 0, v) ensures t in tokens || t.In(v.safety) { RepairInvents(tokens, 0, v, t); }
  }

  /** The repair pass. It returns nothing exactly when no merge is possible anywhere, and otherwise a shorter token
      list with the same text in every clause, whose new tokens are all known safety words. */
  method MergeSplitTokens(tokens: seq<Token>, v: Vocabulary) returns (r: Option<seq<Token>>)
    ensures r == if NoMergeFrom(tokens, 0, v) then None else Some(Repair(tokens, 0, v))
    ensures r.Some? ==>
              && ClauseTexts(r.value) == ClauseTexts(tokens)
              && |r.value| < |tokens|
              && forall t :: t in r.value ==> t in tokens || t.In(v.safety)
  {
    if forall k :: 0 <= k < |tokens| ==> !Fragment(tokens[k], v) {
      forall i | 0 <= i <= |tokens| ensures MergeSpan(tokens, i, v) == 0 { NoFragmentNoMerge(tokens, v, i); }
      return None;
    }
    var merged: seq<Token> := [];
    var index, repaired := 0, false;
    while index < |tokens|
      invariant index <= |tokens|
      invariant merged + Repair(tokens, index, v) == Repair(tokens, 0, v)
      invariant if repaired then |merged| < index else |merged| == index
      decreases |tokens| - index
    {
      var span := MergeSpan(tokens, index, v);
      ghost var rest := Repair(tokens, index + if span == 0 then 1 else span, v);
      if span == 0 {
        AppendOne(merged, tokens[index], rest);
        merged, index := merged + [tokens[index]], index + 1;
      } else {
        AppendOne(merged, Word(Text(tokens, index, index + span)), rest);
        merged, index, repaired := merged + [Word(Text(tokens, index, index + span))], index + span, true;
      }
    }
    RepairFacts(tokens, v);
    assert merged + [] == merged;
    r := if repaired then Some(merged) else None;
  }
}
