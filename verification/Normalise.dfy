/** Whitespace normalisation of a payload: `text.trim` followed by replacing each run of `\s` by a space. */
module Normalise {

  /** A UTF-16 code unit. */
  type CodeUnit = n: int | 0 <= n < 0x1_0000

  type Text = seq<CodeUnit>

  const SPACE: CodeUnit := 32

  /** What `trim` removes at the ends. */
  predicate Trimmable(c: CodeUnit) {
    c <= 32
  }

  /** What `\s` matches: tab, line feed, vertical tab, form feed, carriage return, space. */
  predicate IsSpace(c: CodeUnit) {
    9 <= c <= 13 || c == 32
  }

  function Leading(t: Text): (n: nat)
    ensures n <= |t|
  {
    if t == [] || !Trimmable(t[0]) then 0 else 1 + Leading(t[1..])
  }

  function Trailing(t: Text): (n: nat)
    ensures n <= |t|
  {
    if t == [] || !Trimmable(t[|t| - 1]) then 0 else 1 + Trailing(t[..|t| - 1])
  }

  function TrimLeft(t: Text): Text {
    if t == [] || !Trimmable(t[0]) then t else TrimLeft(t[1..])
  }

  function TrimRight(t: Text): Text {
    if t == [] || !Trimmable(t[|t| - 1]) then t else TrimRight(t[..|t| - 1])
  }

  function Trim(t: Text): Text {
    TrimRight(TrimLeft(t))
  }

  function SkipSpaces(t: Text): (r: Text)
    ensures |r| <= |t| && (t != [] && IsSpace(t[0]) ==> |r| < |t|)
    ensures r != [] ==> !IsSpace(r[0]) && r[|r| - 1] == t[|t| - 1]
  {
    if t == [] || !IsSpace(t[0]) then t else SkipSpaces(t[1..])
  }

  function Collapse(t: Text): Text
    decreases |t|
  {
    if t == [] then []
    else if IsSpace(t[0]) then [SPACE] + Collapse(SkipSpaces(t))
    else [t[0]] + Collapse(t[1..])
  }

  function Normalised(t: Text): Text {
    Collapse(Trim(t))
  }

  // ---- what it means: words joined by single spaces ----

  /** The longest prefix without whitespace. */
  function FirstWord(t: Text): (w: Text)
    ensures w <= t && IsWordOrEmpty(w) && (t != [] && !IsSpace(t[0]) ==> w != [])
    ensures |w| < |t| ==> IsSpace(t[|w|])
  {
    if t == [] || IsSpace(t[0]) then [] else [t[0]] + FirstWord(t[1..])
  }

  predicate IsWordOrEmpty(w: Text) {
    forall k :: 0 <= k < |w| ==> !IsSpace(w[k])
  }

  /** The maximal stretches without whitespace, in order. */
  function Words(t: Text): seq<Text>
    decreases |t|
  {
    if t == [] then []
    else if IsSpace(t[0]) then Words(t[1..])
    else [FirstWord(t)] + Words(t[|FirstWord(t)|..])
  }

  function Join(ws: seq<Text>): Text {
    if ws == [] then [] else if |ws| == 1 then ws[0] else ws[0] + [SPACE] + Join(ws[1..])
  }

  predicate AreWords(ws: seq<Text>) {
    forall k :: 0 <= k < |ws| ==> ws[k] != [] && IsWordOrEmpty(ws[k])
  }

  /** Neither end is whitespace. */
  predicate SolidEnds(t: Text) {
    t != [] ==> !IsSpace(t[0]) && !IsSpace(t[|t| - 1])
  }

  predicate Trimmed(t: Text) {
    t != [] ==> !Trimmable(t[0]) && !Trimmable(t[|t| - 1])
  }

  lemma {:induction false} CollapseWord(w: Text, rest: Text)
    requires IsWordOrEmpty(w)
    ensures Collapse(w + rest) == w + Collapse(rest)
  {
    if w == [] {
      assert w + rest == rest;
    } else {
      assert (w + rest)[1..] == w[1..] + rest;
      CollapseWord(w[1..], rest);
    }
  }

  lemma {:induction false} WordsSkip(t: Text)
    ensures Words(SkipSpaces(t)) == Words(t)
  {
    if t != [] && IsSpace(t[0]) {
      WordsSkip(t[1..]);
    }
  }

  lemma {:induction false} WordsAreWords(t: Text)
    ensures AreWords(Words(t))
    decreases |t|
  {
    if t != [] {
      if IsSpace(t[0]) {
        WordsAreWords(t[1..]);
      } else {
        WordsAreWords(t[|FirstWord(t)|..]);
      }
    }
  }

  lemma {:induction false} CollapseIsJoin(t: Text)
    requires SolidEnds(t)
    ensures Collapse(t) == Join(Words(t))
    decreases |t|
  {
    if t != [] {
      var w := FirstWord(t);
      var rest := t[|w|..];
      assert t == w + rest;
      CollapseWord(w, rest);
      if rest != [] {
        var next := SkipSpaces(rest);
        assert rest[|rest| - 1] == t[|t| - 1];
        if next == [] {
          AllSkipped(rest);
          assert false;
        }
        CollapseIsJoin(next);
        WordsSkip(rest);
        assert Words(t) == [w] + Words(next) && Words(next) != [];
        assert ([w] + Words(next))[1..] == Words(next);
      }
    }
  }

  lemma {:induction false} AllSkipped(t: Text)
    requires t != [] && SkipSpaces(t) == []
    ensures IsSpace(t[|t| - 1])
  {
    if |t| > 1 {
      AllSkipped(t[1..]);
    }
  }

  lemma {:induction false} TrimLeftIs(t: Text)
    ensures TrimLeft(t) == t[Leading(t)..]
    ensures TrimLeft(t) != [] ==> !Trimmable(TrimLeft(t)[0])
    ensures forall k :: 0 <= k < Leading(t) ==> Trimmable(t[k])
  {
    if t != [] && Trimmable(t[0]) {
      TrimLeftIs(t[1..]);
    }
  }

  lemma {:induction false} TrimRightIs(t: Text)
    ensures TrimRight(t) == t[..|t| - Trailing(t)]
    ensures TrimRight(t) != [] ==> !Trimmable(TrimRight(t)[|TrimRight(t)| - 1])
    ensures forall k :: |t| - Trailing(t) <= k < |t| ==> Trimmable(t[k])
  {
    if t != [] && Trimmable(t[|t| - 1]) {
      TrimRightIs(t[..|t| - 1]);
    }
  }

  lemma TrimGivesTrimmed(t: Text)
    ensures Trimmed(Trim(t)) && |Trim(t)| <= |t|
  {
    TrimLeftIs(t);
    TrimRightIs(TrimLeft(t));
  }

  /** A normalised text is the words of the trimmed text with one space between them. */
  lemma NormalisedIsJoin(t: Text)
    ensures Normalised(t) == Join(Words(Trim(t)))
  {
    TrimGivesTrimmed(t);
    CollapseIsJoin(Trim(t));
  }

  lemma WordThenRest(w: Text, rest: Text)
    requires w != [] && IsWordOrEmpty(w) && (rest != [] ==> IsSpace(rest[0]))
    ensures Words(w + rest) == [w] + Words(rest)
  {
    FirstWordIs(w, rest);
    assert (w + rest)[|w|..] == rest && (w + rest)[0] == w[0];
  }

  lemma {:induction false} WordsOfJoin(ws: seq<Text>)
    requires AreWords(ws)
    ensures Words(Join(ws)) == ws
  {
    if |ws| == 1 {
      WordThenRest(ws[0], []);
      assert ws[0] + [] == ws[0];
    } else if ws != [] {
      var rest := [SPACE] + Join(ws[1..]);
      WordThenRest(ws[0], rest);
      assert Join(ws) == ws[0] + rest;
      assert rest[1..] == Join(ws[1..]);
      WordsOfJoin(ws[1..]);
    }
  }

  lemma {:induction false} FirstWordIs(w: Text, rest: Text)
    requires IsWordOrEmpty(w) && (rest != [] ==> IsSpace(rest[0]))
    ensures FirstWord(w + rest) == w
  {
    if w == [] {
      assert w + rest == rest;
    } else {
      assert (w + rest)[1..] == w[1..] + rest;
      FirstWordIs(w[1..], rest);
    }
  }

  lemma {:induction false} JoinEnds(ws: seq<Text>)
    requires AreWords(ws) && ws != []
    ensures Join(ws) != [] && Join(ws)[0] == ws[0][0]
    ensures var last := ws[|ws| - 1]; Join(ws)[|Join(ws)| - 1] == last[|last| - 1]
  {
    if |ws| > 1 {
      JoinEnds(ws[1..]);
    }
  }

  /** Whitespace occurs only as single spaces between words. */
  predicate SingleSpaced(t: Text) {
    && SolidEnds(t)
    && (forall k :: 0 <= k < |t| && IsSpace(t[k]) ==> t[k] == SPACE)
    && (forall k :: 0 <= k < |t| - 1 ==> !(IsSpace(t[k]) && IsSpace(t[k + 1])))
  }

  lemma {:induction false} JoinIsSingleSpaced(ws: seq<Text>)
    requires AreWords(ws)
    ensures SingleSpaced(Join(ws))
  {
    if |ws| > 1 {
      JoinIsSingleSpaced(ws[1..]);
      JoinEnds(ws[1..]);
      var t, w, rest := Join(ws), ws[0], Join(ws[1..]);
      assert forall k :: 0 <= k < |t| ==> t[k] == if k < |w| then w[k] else if k == |w| then SPACE else rest[k - |w| - 1];
    }
  }

  lemma {:induction false} CollapseShortens(t: Text)
    ensures |Collapse(t)| <= |t|
    decreases |t|
  {
    if t != [] {
      CollapseShortens(if IsSpace(t[0]) then SkipSpaces(t) else t[1..]);
    }
  }

  lemma {:induction false} FirstAndLastWord(t: Text)
    requires t != [] && SolidEnds(t)
    ensures var ws := Words(t); ws != [] && ws[0] != [] && ws[0][0] == t[0]
    ensures var ws := Words(t); var last := ws[|ws| - 1]; last != [] && last[|last| - 1] == t[|t| - 1]
    decreases |t|
  {
    var w := FirstWord(t);
    var rest := t[|w|..];
    if rest != [] {
      var next := SkipSpaces(rest);
      WordsSkip(rest);
      if next == [] {
        AllSkipped(rest);
        assert false;
      }
      FirstAndLastWord(next);
      assert Words(t) == [w] + Words(next);
    } else {
      assert Words(t) == [w] + Words([]);
    }
  }

  /**
  Normalisation is idempotent, never lengthens, leaves single spaces only, keeps the words
  of the trimmed text, and makes an empty text only out of a blank one.
   */
  lemma NormalisationProperties(t: Text)
    ensures Normalised(Normalised(t)) == Normalised(t)
    ensures |Normalised(t)| <= |t|
    ensures SingleSpaced(Normalised(t))
    ensures Words(Normalised(t)) == Words(Trim(t))
    ensures Normalised(t) == [] <==> Trim(t) == []
  {
    var u := Trim(t);
    var ws := Words(u);
    NormalisedIsJoin(t);
    TrimGivesTrimmed(t);
    CollapseShortens(u);
    WordsAreWords(u);
    WordsOfJoin(ws);
    JoinIsSingleSpaced(ws);
    if u != [] {
      FirstAndLastWord(u);
      JoinEnds(ws);
    }
    NormalisedIsJoin(Join(ws));
  }

  // ---- the words of the original text ----

  function SolidCount(t: Text): nat {
    if t == [] then 0 else (if IsSpace(t[0]) then 0 else 1) + SolidCount(t[1..])
  }

  function Letters(ws: seq<Text>): nat {
    if ws == [] then 0 else |ws[0]| + Letters(ws[1..])
  }

  lemma {:induction false} SolidCountConcat(s: Text, t: Text)
    ensures SolidCount(s + t) == SolidCount(s) + SolidCount(t)
  {
    if s == [] {
      assert s + t == t;
    } else {
      assert (s + t)[1..] == s[1..] + t;
      SolidCountConcat(s[1..], t);
    }
  }

  lemma {:induction false} SolidWord(w: Text)
    requires IsWordOrEmpty(w)
    ensures SolidCount(w) == |w|
  {
    if w != [] {
      SolidWord(w[1..]);
    }
  }

  lemma {:induction false} LettersOfWords(t: Text)
    ensures Letters(Words(t)) == SolidCount(t)
    decreases |t|
  {
    if t != [] {
      if IsSpace(t[0]) {
        LettersOfWords(t[1..]);
      } else {
        var w := FirstWord(t);
        LettersOfWords(t[|w|..]);
        SolidWord(w);
        SolidCountConcat(w, t[|w|..]);
        assert t == w + t[|w|..];
      }
    }
  }

  predicate AllSpace(t: Text) {
    forall k :: 0 <= k < |t| ==> IsSpace(t[k])
  }

  lemma {:induction false} NoLettersIsSpace(t: Text)
    ensures SolidCount(t) == 0 <==> AllSpace(t)
  {
    if t != [] {
      NoLettersIsSpace(t[1..]);
      assert t == [t[0]] + t[1..];
    }
  }

  lemma {:induction false} SpaceInFront(s: Text, t: Text)
    requires AllSpace(s)
    ensures Words(s + t) == Words(t)
  {
    if s == [] {
      assert s + t == t;
    } else {
      assert (s + t)[1..] == s[1..] + t;
      SpaceInFront(s[1..], t);
    }
  }

  lemma {:induction false} SpaceBehind(t: Text, s: Text)
    requires AllSpace(s)
    ensures Words(t + s) == Words(t)
    decreases |t|
  {
    if t == [] {
      SpaceInFront(s, []);
      assert t + s == s + [];
    } else if IsSpace(t[0]) {
      assert (t + s)[1..] == t[1..] + s;
      SpaceBehind(t[1..], s);
    } else {
      var w := FirstWord(t);
      var rest := t[|w|..] + s;
      assert t + s == w + rest;
      FirstWordIs(w, rest);
      assert (w + rest)[|w|..] == rest;
      SpaceBehind(t[|w|..], s);
    }
  }

  /** What `trim` cuts off in front and behind. */
  function CutInFront(t: Text): Text {
    t[..Leading(t)]
  }

  function CutBehind(t: Text): Text {
    var u := TrimLeft(t);
    u[|u| - Trailing(u)..]
  }

  lemma TrimSplits(t: Text)
    ensures t == CutInFront(t) + (Trim(t) + CutBehind(t))
  {
    TrimLeftIs(t);
    var u := TrimLeft(t);
    TrimRightIs(u);
  }

  lemma WordsOfParts(a: Text, u: Text, b: Text)
    ensures Words(u) == Words(a + (u + b)) <==> AllSpace(a) && AllSpace(b)
  {
    SolidCountConcat(a, u + b);
    SolidCountConcat(u, b);
    LettersOfWords(a + (u + b));
    LettersOfWords(u);
    NoLettersIsSpace(a);
    NoLettersIsSpace(b);
    if AllSpace(a) && AllSpace(b) {
      SpaceInFront(a, u + b);
      SpaceBehind(u, b);
    }
  }

  /**
  `trim` removes more than `\s` matches: the words of the text survive normalisation exactly
  if nothing but whitespace was trimmed off.
   */
  lemma WordsSurviveIff(t: Text)
    ensures Words(Normalised(t)) == Words(t) <==> AllSpace(CutInFront(t)) && AllSpace(CutBehind(t))
  {
    NormalisationProperties(t);
    TrimSplits(t);
    WordsOfParts(CutInFront(t), Trim(t), CutBehind(t));
  }

  /** A control character alone is trimmed away although it is a word to the regular expression. */
  lemma WordsCanBeLost()
    ensures exists t: Text :: Words(Normalised(t)) != Words(t)
  {
    var t: Text := [1];
    assert TrimLeft(t) == [] && CutInFront(t) == t;
    WordsSurviveIff(t);
    assert !AllSpace(t);
  }

  // ---- the same, unit by unit ----

  /** `trim` cuts off exactly the units up to 32 at both ends. */
  lemma TrimIsExact(t: Text)
    ensures t == CutInFront(t) + (Trim(t) + CutBehind(t))
    ensures forall c :: c in CutInFront(t) || c in CutBehind(t) ==> c <= 32
    ensures Trim(t) != [] ==> Trim(t)[0] > 32 && Trim(t)[|Trim(t)| - 1] > 32
    ensures Trim(t) == [] <==> forall k :: 0 <= k < |t| ==> t[k] <= 32
  {
    var u := TrimLeft(t);
    TrimSplits(t);
    TrimLeftIs(t);
    TrimRightIs(u);
    TrimGivesTrimmed(t);
    if Trim(t) != [] {
      assert t[|CutInFront(t)|] == Trim(t)[0];
    }
  }

  /** The units that are not tab, line feed, vertical tab, form feed, carriage return or space, in order. */
  function Visible(t: Text): Text {
    if t == [] then [] else (if t[0] in {9, 10, 11, 12, 13, 32} then [] else [t[0]]) + Visible(t[1..])
  }

  lemma {:induction false} VisibleOfSkipped(t: Text)
    ensures Visible(SkipSpaces(t)) == Visible(t)
  {
    if t != [] && IsSpace(t[0]) {
      VisibleOfSkipped(t[1..]);
    }
  }

  lemma {:induction false} VisibleOfCollapsed(t: Text)
    ensures Visible(Collapse(t)) == Visible(t)
    ensures forall k :: 0 <= k < |Collapse(t)| ==> Collapse(t)[k] !in {9, 10, 11, 12, 13}
    decreases |t|
  {
    if t != [] {
      var rest := if IsSpace(t[0]) then SkipSpaces(t) else t[1..];
      VisibleOfSkipped(t);
      VisibleOfCollapsed(rest);
      assert Collapse(t)[1..] == Collapse(rest);
    }
  }

  /** Every visible unit between the ends survives, in order, and no other unit but single spaces does. */
  lemma VisibleSurvives(t: Text)
    ensures Visible(Normalised(t)) == Visible(Trim(t))
    ensures forall k :: 0 <= k < |Normalised(t)| ==> Normalised(t)[k] !in {9, 10, 11, 12, 13}
    ensures forall k :: 0 < k < |Normalised(t)| && Normalised(t)[k] == 32 ==> Normalised(t)[k - 1] != 32
  {
    VisibleOfCollapsed(Trim(t));
    NormalisationProperties(t);
  }
}
