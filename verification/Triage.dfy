/** The keyword risk score of a news text, and what is decided from it. */
module Triage {

  datatype Keyword = Keyword(word: string, weight: nat)

  const KEYWORDS: seq<Keyword> := [
    Keyword("fire", 5), Keyword("explosion", 5), Keyword("strike", 4), Keyword("riot", 4),
    Keyword("shutdown", 3), Keyword("flood", 3), Keyword("conflict", 4)
  ]

  /**
  `str.lower` on one character. The characters listed are the only ones whose lower case
  contains an ASCII letter, so the others are left as they are: no keyword can tell.
   */
  function LowerChar(c: char): string {
    if 'A' <= c <= 'Z' then [c - 'A' + 'a']
    else if c == '\U{212A}' then "k"                // Kelvin sign
    else if c == '\U{0130}' then "i\U{0307}"        // I with a dot above
    else [c]
  }

  function Lower(text: string): string {
    if text == "" then "" else LowerChar(text[0]) + Lower(text[1..])
  }

  predicate OccursAt(word: string, text: string, i: nat) {
    i + |word| <= |text| && text[i..i + |word|] == word
  }

  predicate Contains(text: string, word: string) {
    exists i: nat :: i <= |text| && OccursAt(word, text, i)
  }

  predicate Hit(text: string, k: nat)
    requires k < |KEYWORDS|
  {
    Contains(Lower(text), KEYWORDS[k].word)
  }

  /** `score` is the largest weight of a keyword that occurs in the text, and 0 if none does. */
  ghost predicate IsRisk(text: string, score: nat) {
    && (forall k :: 0 <= k < |KEYWORDS| && Hit(text, k) ==> KEYWORDS[k].weight <= score)
    && (score == 0 || exists k :: 0 <= k < |KEYWORDS| && Hit(text, k) && KEYWORDS[k].weight == score)
  }

  function RiskFrom(text: string, k: nat): nat
    requires k <= |KEYWORDS|
    decreases |KEYWORDS| - k
  {
    if k == |KEYWORDS| then 0
    else
      var rest := RiskFrom(text, k + 1);
      if Hit(text, k) && KEYWORDS[k].weight > rest then KEYWORDS[k].weight else rest
  }

  function Risk(text: string): nat {
    RiskFrom(text, 0)
  }

  /** The running maximum over the keywords is the risk, in any order of the keywords. */
  method CalculateIntelRisk(text: string) returns (score: nat)
    ensures IsRisk(text, score) && score == Risk(text)
  {
    if text == "" {
      return 0;
    }
    score := 0;
    for k := 0 to |KEYWORDS|
      invariant forall j :: 0 <= j < k && Hit(text, j) ==> KEYWORDS[j].weight <= score
      invariant score == 0 || exists j :: 0 <= j < k && Hit(text, j) && KEYWORDS[j].weight == score
    {
      if Contains(Lower(text), KEYWORDS[k].word) {
        score := if score >= KEYWORDS[k].weight then score else KEYWORDS[k].weight;
      }
    }
  }

  /** A text scores 0, 3, 4 or 5, and 0 only without any keyword. */
  lemma RiskValues(text: string)
    ensures IsRisk(text, Risk(text))
    ensures Risk(text) in {0, 3, 4, 5}
    ensures Risk(text) == 0 <==> forall k :: 0 <= k < |KEYWORDS| ==> !Hit(text, k)
  {
    assert forall k :: 0 <= k < |KEYWORDS| ==> KEYWORDS[k].weight in {3, 4, 5};
  }

  lemma {:induction false} LowerConcat(a: string, b: string)
    ensures Lower(a + b) == Lower(a) + Lower(b)
  {
    if a == "" {
      assert a + b == b;
    } else {
      assert (a + b)[1..] == a[1..] + b;
      LowerConcat(a[1..], b);
    }
  }

  lemma SliceBehind(a: string, b: string, i: nat, n: nat)
    requires i + n <= |b|
    ensures (a + b)[|a| + i..|a| + i + n] == b[i..i + n]
  {
  }

  lemma ContainsInside(a: string, text: string, b: string, word: string)
    requires Contains(text, word)
    ensures Contains(a + text + b, word)
  {
    var i: nat :| i <= |text| && OccursAt(word, text, i);
    SliceBehind(a, text + b, i, |word|);
    assert a + text + b == a + (text + b) && (text + b)[i..i + |word|] == text[i..i + |word|];
    assert OccursAt(word, a + text + b, |a| + i);
  }

  lemma HitInside(a: string, text: string, b: string, k: nat)
    requires k < |KEYWORDS| && Hit(text, k)
    ensures Hit(a + text + b, k)
  {
    LowerConcat(a + text, b);
    LowerConcat(a, text);
    ContainsInside(Lower(a), Lower(text), Lower(b), KEYWORDS[k].word);
  }

  /** Text around a text never lowers its risk. */
  lemma RiskIsMonotone(a: string, text: string, b: string)
    ensures Risk(text) <= Risk(a + text + b)
  {
    if Risk(text) > 0 {
      var k :| 0 <= k < |KEYWORDS| && Hit(text, k) && KEYWORDS[k].weight == Risk(text);
      HitInside(a, text, b, k);
    }
  }

  // ---- the score from the characters of the text ----

  /** `c` is the letter in either case, or the Kelvin sign for a k. */
  predicate Spells(c: char, letter: char) {
    || c == letter
    || ('a' <= letter <= 'z' && c == letter - 'a' + 'A')
    || (letter == 'k' && c == '\U{212A}')
  }

  predicate Spelled(text: string, word: string) {
    |text| == |word| && forall j :: 0 <= j < |word| ==> Spells(text[j], word[j])
  }

  predicate SpelledAt(text: string, word: string, i: nat) {
    i + |word| <= |text| && Spelled(text[i..i + |word|], word)
  }

  /** The text contains the word, in any case. */
  predicate Mentions(text: string, word: string) {
    exists i: nat :: i <= |text| && SpelledAt(text, word, i)
  }

  /** Small letters, and not an i at the end. */
  predicate PlainWord(word: string) {
    && (forall j :: 0 <= j < |word| ==> 'a' <= word[j] <= 'z')
    && (word != "" ==> word[|word| - 1] != 'i')
  }

  lemma {:induction false} PrefixIff(text: string, word: string)
    requires PlainWord(word)
    ensures word <= Lower(text) <==> SpelledAt(text, word, 0)
  {
    if word != "" && text != "" {
      var rest := word[1..];
      PrefixIff(text[1..], rest);
      assert word == [word[0]] + rest;
      assert Lower(text) == LowerChar(text[0]) + Lower(text[1..]);
      if text[0] == '\U{0130}' {
        assert Lower(text)[0] == 'i' && Lower(text)[1] == '\U{0307}';
        assert !Spells(text[0], word[0]);
      } else {
        assert Lower(text)[0] == LowerChar(text[0])[0] && Lower(text)[1..] == Lower(text[1..]);
        assert Spells(text[0], word[0]) <==> Lower(text)[0] == word[0];
        SpelledTail(text, word);
      }
    }
  }

  lemma SpelledCons(c: char, s: string, letter: char, rest: string)
    ensures Spelled([c] + s, [letter] + rest) <==> Spells(c, letter) && Spelled(s, rest)
  {
    var t, word := [c] + s, [letter] + rest;
    if Spelled(t, word) {
      forall j | 0 <= j < |rest|
        ensures Spells(s[j], rest[j])
      {
        assert Spells(t[j + 1], word[j + 1]);
      }
      assert Spells(t[0], word[0]);
    }
    if Spells(c, letter) && Spelled(s, rest) {
      forall j | 0 <= j < |word|
        ensures Spells(t[j], word[j])
      {
        assert j > 0 ==> Spells(s[j - 1], rest[j - 1]);
      }
    }
  }

  lemma SpelledTail(text: string, word: string)
    requires text != "" && word != ""
    ensures SpelledAt(text, word, 0) <==> Spells(text[0], word[0]) && SpelledAt(text[1..], word[1..], 0)
  {
    var n := |word| - 1;
    if n + 1 <= |text| {
      SpelledCons(text[0], text[1..][0..0 + n], word[0], word[1..]);
      assert text[0..0 + |word|] == [text[0]] + text[1..][0..0 + n];
      assert word == [word[0]] + word[1..];
    }
  }

  lemma ContainsCons(c: char, t: string, word: string)
    requires word != ""
    ensures Contains([c] + t, word) <==> word <= [c] + t || Contains(t, word)
  {
    var u := [c] + t;
    if word <= u {
      assert OccursAt(word, u, 0);
    }
    if i: nat :| i <= |t| && OccursAt(word, t, i) {
      SliceBehind([c], t, i, |word|);
      assert OccursAt(word, u, i + 1);
    }
    if i: nat :| i <= |u| && OccursAt(word, u, i) {
      if i > 0 {
        SliceBehind([c], t, i - 1, |word|);
        assert OccursAt(word, t, i - 1);
      }
    }
  }

  lemma NotInFront(c: char, t: string, word: string)
    requires word != "" && word[0] != c
    ensures Contains([c] + t, word) <==> Contains(t, word)
  {
    ContainsCons(c, t, word);
  }

  lemma SliceOfTail(s: string, i: nat, n: nat)
    requires s != "" && i + n < |s|
    ensures s[1..][i..i + n] == s[i + 1..i + 1 + n]
  {
  }

  /** No word starts inside the image of the dotted I. */
  lemma DottedStep(rest: string, word: string)
    requires PlainWord(word) && word != ""
    ensures var image := "i\U{0307}" + rest;
      Contains(image, word) <==> word <= image || Contains(rest, word)
  {
    var more := ['\U{0307}'] + rest;
    assert "i\U{0307}" + rest == ['i'] + more;
    ContainsCons('i', more, word);
    NotInFront('\U{0307}', rest, word);
  }

  lemma LowerStep(text: string, word: string)
    requires text != "" && PlainWord(word) && word != ""
    ensures Contains(Lower(text), word) <==> word <= Lower(text) || Contains(Lower(text[1..]), word)
  {
    var rest := Lower(text[1..]);
    if text[0] == '\U{0130}' {
      DottedStep(rest, word);
    } else {
      var c := LowerChar(text[0])[0];
      assert LowerChar(text[0]) == [c];
      ContainsCons(c, rest, word);
    }
  }

  lemma MentionsStep(text: string, word: string)
    requires text != "" && word != ""
    ensures Mentions(text, word) <==> SpelledAt(text, word, 0) || Mentions(text[1..], word)
  {
    if i: nat :| i <= |text| && SpelledAt(text, word, i) {
      if i > 0 {
        SliceOfTail(text, i - 1, |word|);
        assert SpelledAt(text[1..], word, i - 1);
      }
    }
    if i: nat :| i <= |text[1..]| && SpelledAt(text[1..], word, i) {
      SliceOfTail(text, i, |word|);
      assert SpelledAt(text, word, i + 1);
    }
  }

  /** Lower-casing and searching is reading the word in any case. */
  lemma {:induction false} ContainsIff(text: string, word: string)
    requires PlainWord(word) && word != ""
    ensures Contains(Lower(text), word) <==> Mentions(text, word)
  {
    if text == "" {
      assert !Mentions(text, word);
    } else {
      ContainsIff(text[1..], word);
      LowerStep(text, word);
      PrefixIff(text, word);
      MentionsStep(text, word);
    }
  }

  lemma RiskFromAll(text: string)
    ensures Risk(text) ==
      if Hit(text, 0) || Hit(text, 1) then 5
      else if Hit(text, 2) || Hit(text, 3) || Hit(text, 6) then 4
      else if Hit(text, 4) || Hit(text, 5) then 3
      else 0
  {
    RiskValues(text);
    assert KEYWORDS[0].weight == 5 && KEYWORDS[1].weight == 5 && KEYWORDS[2].weight == 4 && KEYWORDS[3].weight == 4
      && KEYWORDS[4].weight == 3 && KEYWORDS[5].weight == 3 && KEYWORDS[6].weight == 4;
  }

  /** 5 for fire or explosion, else 4 for strike, riot or conflict, else 3 for shutdown or flood, and 0 for none of them. */
  function LevelOf(mentions: string -> bool): nat {
    if mentions("fire") || mentions("explosion") then 5
    else if mentions("strike") || mentions("riot") || mentions("conflict") then 4
    else if mentions("shutdown") || mentions("flood") then 3
    else 0
  }

  lemma LevelOfSame(m: string -> bool, n: string -> bool)
    requires forall word :: PlainWord(word) && word != "" ==> m(word) == n(word)
    ensures LevelOf(m) == LevelOf(n)
  {
    assert PlainWord("fire") && PlainWord("explosion") && PlainWord("strike") && PlainWord("riot");
    assert PlainWord("conflict") && PlainWord("shutdown") && PlainWord("flood");
  }

  /** The score is decided by which keywords the text mentions, in any case. */
  lemma RiskLevels(text: string)
    ensures Risk(text) == LevelOf(word => Mentions(text, word))
  {
    var contains, mentions := (word: string) => Contains(Lower(text), word), (word: string) => Mentions(text, word);
    forall word: string | PlainWord(word) && word != ""
      ensures contains(word) == mentions(word)
    {
      ContainsIff(text, word);
    }
    LevelOfSame(contains, mentions);
    RiskFromAll(text);
  }

  // ---- two texts with a space in between ----

  lemma NoSpaceAt(t: string, word: string, i: nat, j: nat)
    requires PlainWord(word) && SpelledAt(t, word, i) && j < |word|
    ensures t[i + j] != ' '
  {
    assert Spells(t[i..i + |word|][j], word[j]);
  }

  /** No word goes across a space. */
  lemma NotAcross(t: string, word: string, i: nat, k: nat)
    requires PlainWord(word) && SpelledAt(t, word, i) && k < |t| && t[k] == ' '
    ensures k < i || i + |word| <= k
  {
    if i <= k < i + |word| {
      NoSpaceAt(t, word, i, k - i);
      assert false;
    }
  }

  lemma MentionsInEither(a: string, b: string, word: string)
    requires Mentions(a, word) || Mentions(b, word)
    ensures Mentions(a + " " + b, word)
  {
    var t := a + " " + b;
    if i: nat :| i <= |a| && SpelledAt(a, word, i) {
      assert t[i..i + |word|] == a[i..i + |word|];
      assert SpelledAt(t, word, i);
    } else {
      var i: nat :| i <= |b| && SpelledAt(b, word, i);
      SliceBehind(a + " ", b, i, |word|);
      assert SpelledAt(t, word, |a| + 1 + i);
    }
  }

  lemma MentionsInOne(a: string, b: string, word: string)
    requires PlainWord(word) && word != "" && Mentions(a + " " + b, word)
    ensures Mentions(a, word) || Mentions(b, word)
  {
    var t := a + " " + b;
    var i: nat :| i <= |t| && SpelledAt(t, word, i);
    NotAcross(t, word, i, |a|);
    if i < |a| {
      assert t[i..i + |word|] == a[i..i + |word|];
      assert SpelledAt(a, word, i);
    } else {
      SliceBehind(a + " ", b, i - |a| - 1, |word|);
      assert SpelledAt(b, word, i - |a| - 1);
    }
  }

  lemma MentionsApart(a: string, b: string, word: string)
    requires PlainWord(word) && word != ""
    ensures Mentions(a + " " + b, word) <==> Mentions(a, word) || Mentions(b, word)
  {
    if Mentions(a, word) || Mentions(b, word) {
      MentionsInEither(a, b, word);
    }
    if Mentions(a + " " + b, word) {
      MentionsInOne(a, b, word);
    }
  }

  // ---- what is decided from the score ----

  datatype Priority = High | Medium | Low

  predicate ShouldEscalate(score: nat) {
    score >= 3
  }

  function AssignPriority(score: nat): Priority {
    if score >= 4 then High else if score >= 2 then Medium else Low
  }

  /** Every text that is not noise is escalated, and none of them has low priority. */
  lemma TriageIsAllOrNothing(text: string)
    ensures ShouldEscalate(Risk(text)) <==> Risk(text) != 0
    ensures Risk(text) != 0 ==> AssignPriority(Risk(text)) == (if Risk(text) == 3 then Medium else High)
  {
    RiskValues(text);
  }

  /** High from 4 on, low below 2; escalated from 3 on. */
  lemma DecisionsAre(score: nat)
    ensures AssignPriority(score) == High <==> 4 <= score
    ensures AssignPriority(score) == Medium <==> score == 2 || score == 3
    ensures AssignPriority(score) == Low <==> score == 0 || score == 1
    ensures ShouldEscalate(score) <==> score !in {0, 1, 2}
  {
  }
}
