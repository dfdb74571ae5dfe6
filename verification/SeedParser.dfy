/**
The parser for the SCRAPE_SEEDS variable, `url,selector,...;url,selector,...`, and the printer
it inverts.
 */
module SeedParser {

  datatype Seed = Seed(url: string, selectors: seq<string>)

  const DEFAULT_SEED := Seed("https://example.com", ["h1", "p"])

  // ---- the library functions it calls ----

  /** `unicode.IsSpace`, which `strings.TrimSpace` goes by. */
  predicate IsSpace(c: char) {
    || '\t' <= c <= '\r' || c == ' ' || c == '\U{0085}' || c == '\U{00A0}' || c == '\U{1680}'
    || '\U{2000}' <= c <= '\U{200A}' || c == '\U{2028}' || c == '\U{2029}' || c == '\U{202F}'
    || c == '\U{205F}' || c == '\U{3000}'
  }

  function TrimLeft(s: string): string {
    if s == "" || !IsSpace(s[0]) then s else TrimLeft(s[1..])
  }

  function TrimRight(s: string): string {
    if s == "" || !IsSpace(s[|s| - 1]) then s else TrimRight(s[..|s| - 1])
  }

  function TrimSpace(s: string): string {
    TrimRight(TrimLeft(s))
  }

  /** `strings.Split` by one character: never empty, and `[""]` for the empty string. */
  function Split(s: string, sep: char): (parts: seq<string>)
    ensures parts != []
  {
    if s == "" then [""]
    else
      var rest := Split(s[1..], sep);
      if s[0] == sep then [""] + rest else [[s[0]] + rest[0]] + rest[1..]
  }

  function Join(parts: seq<string>, sep: char): string {
    if parts == [] then "" else if |parts| == 1 then parts[0] else parts[0] + [sep] + Join(parts[1..], sep)
  }

  // ---- what the parser computes ----

  function TrimAll(tokens: seq<string>): seq<string> {
    seq(|tokens|, i requires 0 <= i < |tokens| => TrimSpace(tokens[i]))
  }

  /** The seed in one part between semicolons, if there is one. */
  function ParsePart(part: string): seq<Seed> {
    var tokens := Split(TrimSpace(part), ',');
    if TrimSpace(part) == "" || |tokens| < 2 then []
    else [Seed(TrimSpace(tokens[0]), TrimAll(tokens[1..]))]
  }

  function ParseParts(parts: seq<string>): seq<Seed> {
    if parts == [] then [] else ParsePart(parts[0]) + ParseParts(parts[1..])
  }

  function Parse(raw: string): seq<Seed> {
    if raw == "" then [DEFAULT_SEED] else ParseParts(Split(raw, ';'))
  }

  // ---- the program ----

  method TrimEach(s: array<string>) returns (out: array<string>)
    ensures fresh(out) && out[..] == TrimAll(s[..])
  {
    out := new string[s.Length](_ => "");
    for i := 0 to s.Length
      invariant fresh(out) && out.Length == s.Length
      invariant forall k :: 0 <= k < i ==> out[k] == TrimSpace(s[k])
    {
      out[i] := TrimSpace(s[i]);
    }
  }

  lemma {:induction false} ParsePartsSnoc(parts: seq<string>, part: string)
    ensures ParseParts(parts + [part]) == ParseParts(parts) + ParsePart(part)
  {
    if parts == [] {
      assert ParseParts([part]) == ParsePart(part) + ParseParts([part][1..]);
    } else {
      assert (parts + [part])[1..] == parts[1..] + [part];
      ParsePartsSnoc(parts[1..], part);
    }
  }

  method ParseSeeds(raw: string) returns (seeds: seq<Seed>)
    ensures seeds == Parse(raw)
  {
    if raw == "" {
      return [Seed("https://example.com", ["h1", "p"])];
    }
    seeds := [];
    var parts := Split(raw, ';');
    for i := 0 to |parts|
      invariant seeds == ParseParts(parts[..i])
    {
      ParsePartsSnoc(parts[..i], parts[i]);
      assert parts[..i] + [parts[i]] == parts[..i + 1];
      var part := TrimSpace(parts[i]);
      if part == "" {
        continue;
      }
      var tokens := Split(part, ',');
      if |tokens| < 2 {
        continue;
      }
      var rest := new string[|tokens| - 1](k requires 0 <= k < |tokens| - 1 => tokens[k + 1]);
      assert rest[..] == tokens[1..];
      var selectors := TrimEach(rest);
      seeds := seeds + [Seed(TrimSpace(tokens[0]), selectors[..])];
    }
    assert parts[..|parts|] == parts;
  }

  // ---- trimming ----

  predicate Trimmed(s: string) {
    s != "" ==> !IsSpace(s[0]) && !IsSpace(s[|s| - 1])
  }

  predicate AllSpace(s: string) {
    forall k :: 0 <= k < |s| ==> IsSpace(s[k])
  }

  predicate Without(s: string, c: char) {
    forall k :: 0 <= k < |s| ==> s[k] != c
  }

  lemma {:induction false} TrimLeftSplits(s: string) returns (a: string)
    ensures AllSpace(a) && s == a + TrimLeft(s)
    ensures TrimLeft(s) != "" ==> !IsSpace(TrimLeft(s)[0])
  {
    a := "";
    if s != "" && IsSpace(s[0]) {
      var b := TrimLeftSplits(s[1..]);
      a := [s[0]] + b;
    }
  }

  lemma {:induction false} TrimRightSplits(s: string) returns (b: string)
    ensures AllSpace(b) && s == TrimRight(s) + b
    ensures TrimRight(s) != "" ==> !IsSpace(TrimRight(s)[|TrimRight(s)| - 1])
  {
    b := "";
    if s != "" && IsSpace(s[|s| - 1]) {
      var n := |s| - 1;
      var c := TrimRightSplits(s[..n]);
      b := c + [s[n]];
      assert s == s[..n] + [s[n]] == TrimRight(s[..n]) + c + [s[n]];
      assert TrimRight(s[..n]) + c + [s[n]] == TrimRight(s) + b;
    }
  }

  /** What is trimmed off is whitespace, and what is left is trimmed. */
  lemma TrimSplits(s: string) returns (a: string, b: string)
    ensures AllSpace(a) && AllSpace(b) && s == a + TrimSpace(s) + b
    ensures Trimmed(TrimSpace(s))
  {
    a := TrimLeftSplits(s);
    b := TrimRightSplits(TrimLeft(s));
    assert s == a + TrimSpace(s) + b;
    if TrimSpace(s) != "" {
      assert TrimSpace(s)[0] == TrimLeft(s)[0];
    }
  }

  lemma {:induction false} TrimLeftPad(a: string, s: string)
    requires AllSpace(a)
    ensures TrimLeft(a + s) == TrimLeft(s)
  {
    if a == "" {
      assert a + s == s;
    } else {
      assert (a + s)[1..] == a[1..] + s;
      TrimLeftPad(a[1..], s);
    }
  }

  lemma {:induction false} TrimRightPad(s: string, b: string)
    requires AllSpace(b)
    ensures TrimRight(s + b) == TrimRight(s)
  {
    if b == "" {
      assert s + b == s;
    } else {
      assert (s + b)[..|s + b| - 1] == s + b[..|b| - 1];
      TrimRightPad(s, b[..|b| - 1]);
    }
  }

  lemma {:induction false} TrimLeftOfBlank(s: string)
    requires AllSpace(s)
    ensures TrimLeft(s) == ""
  {
    if s != "" {
      TrimLeftOfBlank(s[1..]);
    }
  }

  /** Whitespace around a string makes no difference to its trimmed form. */
  lemma TrimPadded(a: string, s: string, b: string)
    requires AllSpace(a) && AllSpace(b)
    ensures TrimSpace(a + s + b) == TrimSpace(s)
  {
    var c := TrimLeftSplits(s);
    var core := TrimLeft(s);
    assert a + s + b == (a + c) + (core + b);
    TrimLeftPad(a + c, core + b);
    if core == "" {
      assert core + b == b;
      TrimLeftOfBlank(b);
    } else {
      TrimRightPad(core, b);
    }
  }

  // ---- splitting ----

  lemma {:induction false} SplitWithout(s: string, sep: char)
    requires Without(s, sep)
    ensures Split(s, sep) == [s]
  {
    if s != "" {
      SplitWithout(s[1..], sep);
      assert [s[0]] + s[1..] == s;
    }
  }

  /** Put `c` in front of a split string: a new token, or a longer first token. */
  function SplitCons(c: char, sep: char, rest: seq<string>): seq<string>
    requires rest != []
  {
    if c == sep then [""] + rest else [[c] + rest[0]] + rest[1..]
  }

  /** Splitting a concatenation joined by the separator. */
  lemma {:induction false} SplitAtSep(a: string, sep: char, b: string)
    ensures Split(a + [sep] + b, sep) == Split(a, sep) + Split(b, sep)
  {
    if a == "" {
      assert a + [sep] + b == [sep] + b;
    } else {
      assert a + [sep] + b == [a[0]] + (a[1..] + [sep] + b) && a == [a[0]] + a[1..];
      SplitAtSep(a[1..], sep, b);
    }
  }

  lemma {:induction false} SplitOfJoin(parts: seq<string>, sep: char)
    requires parts != [] && forall k :: 0 <= k < |parts| ==> Without(parts[k], sep)
    ensures Split(Join(parts, sep), sep) == parts
  {
    SplitWithout(parts[0], sep);
    if |parts| > 1 {
      SplitAtSep(parts[0], sep, Join(parts[1..], sep));
      SplitOfJoin(parts[1..], sep);
      assert [parts[0]] + parts[1..] == parts;
    } else {
      assert parts == [parts[0]];
    }
  }

  lemma {:induction false} PartsWithout(s: string, sep: char)
    ensures forall k :: 0 <= k < |Split(s, sep)| ==> Without(Split(s, sep)[k], sep)
  {
    if s != "" {
      PartsWithout(s[1..], sep);
    }
  }

  /** A character that does not occur in the whole does not occur in a part. */
  lemma {:induction false} PartsKeepWithout(s: string, sep: char, c: char)
    requires Without(s, c)
    ensures forall k :: 0 <= k < |Split(s, sep)| ==> Without(Split(s, sep)[k], c)
  {
    if s != "" {
      PartsKeepWithout(s[1..], sep, c);
    }
  }

  /** Text without the separator in front of a string goes into its first token. */
  lemma {:induction false} SplitFront(a: string, s: string, sep: char)
    requires Without(a, sep)
    ensures var parts := Split(s, sep); Split(a + s, sep) == [a + parts[0]] + parts[1..]
  {
    var parts := Split(s, sep);
    if a == "" {
      assert a + s == s && a + parts[0] == parts[0];
    } else {
      SplitFront(a[1..], s, sep);
      assert a + s == [a[0]] + (a[1..] + s);
      assert [a[0]] + (a[1..] + parts[0]) == a + parts[0];
    }
  }

  /** The tokens with `b` appended to the last one. */
  function AppendToLast(parts: seq<string>, b: string): seq<string>
    requires parts != []
  {
    parts[..|parts| - 1] + [parts[|parts| - 1] + b]
  }

  lemma AppendsToLast(parts: seq<string>, front: seq<string>, last: string, b: string)
    requires parts == front + [last]
    ensures AppendToLast(parts, b) == front + [last + b]
  {
  }

  lemma AppendAfterCons(c: char, sep: char, parts: seq<string>, b: string)
    requires parts != []
    ensures SplitCons(c, sep, AppendToLast(parts, b)) == AppendToLast(SplitCons(c, sep, parts), b)
  {
    var front, last := parts[..|parts| - 1], parts[|parts| - 1];
    if c == sep {
      assert [""] + (front + [last + b]) == ([""] + front) + [last + b];
      AppendsToLast([""] + parts, [""] + front, last, b);
    } else if front == [] {
      assert [c] + (last + b) == [c] + last + b;
      assert SplitCons(c, sep, parts) == [[c] + last];
    } else {
      AppendsToLast([[c] + parts[0]] + parts[1..], [[c] + front[0]] + front[1..], last, b);
      assert (front + [last + b])[1..] == front[1..] + [last + b];
    }
  }

  /** Text without the separator behind a string goes into its last token. */
  lemma {:induction false} SplitBack(s: string, b: string, sep: char)
    requires Without(b, sep)
    ensures Split(s + b, sep) == AppendToLast(Split(s, sep), b)
  {
    if s == "" {
      assert s + b == b;
      SplitWithout(b, sep);
    } else {
      SplitBack(s[1..], b, sep);
      assert s + b == [s[0]] + (s[1..] + b) && s == [s[0]] + s[1..];
      AppendAfterCons(s[0], sep, Split(s[1..], sep), b);
    }
  }

  lemma TrimAllOfFront(a: string, s: string)
    requires AllSpace(a)
    ensures TrimAll(Split(a + s, ',')) == TrimAll(Split(s, ','))
  {
    var parts := Split(s, ',');
    SplitFront(a, s, ',');
    TrimPadded(a, parts[0], "");
    assert a + parts[0] + "" == a + parts[0];
  }

  lemma TrimAllAppended(front: seq<string>, last: string, b: string)
    requires AllSpace(b)
    ensures TrimAll(front + [last + b]) == TrimAll(front + [last])
  {
    TrimPadded("", last, b);
    assert "" + last + b == last + b;
  }

  lemma TrimAllOfBack(s: string, b: string)
    requires AllSpace(b)
    ensures TrimAll(Split(s + b, ',')) == TrimAll(Split(s, ','))
  {
    var parts := Split(s, ',');
    var n := |parts| - 1;
    SplitBack(s, b, ',');
    TrimAllAppended(parts[..n], parts[n], b);
    assert parts == parts[..n] + [parts[n]];
  }

  /** Padding a string pads its first and last token only, which trimming undoes. */
  lemma TrimAllOfPadded(a: string, s: string, b: string)
    requires AllSpace(a) && AllSpace(b)
    ensures TrimAll(Split(a + s + b, ',')) == TrimAll(Split(s, ','))
  {
    TrimAllOfFront(a, s);
    TrimAllOfBack(a + s, b);
  }

  // ---- printing ----

  /** Trimmed, and free of the two separators. */
  predicate PlainField(f: string) {
    Trimmed(f) && Without(f, ',') && Without(f, ';')
  }

  predicate PlainSeed(seed: Seed) {
    PlainField(seed.url) && seed.selectors != [] && forall k :: 0 <= k < |seed.selectors| ==> PlainField(seed.selectors[k])
  }

  predicate PlainSeeds(seeds: seq<Seed>) {
    forall k :: 0 <= k < |seeds| ==> PlainSeed(seeds[k])
  }

  function PrintSeed(seed: Seed): string {
    Join([seed.url] + seed.selectors, ',')
  }

  function PrintSeeds(seeds: seq<Seed>): seq<string> {
    if seeds == [] then [] else [PrintSeed(seeds[0])] + PrintSeeds(seeds[1..])
  }

  function Print(seeds: seq<Seed>): string {
    Join(PrintSeeds(seeds), ';')
  }

  /**
  `part` is a loose rendering of `seed`: its comma-separated tokens are the fields, each with
  any whitespace around it.
   */
  predicate RendersSeed(part: string, seed: Seed) {
    TrimAll(Split(part, ',')) == [seed.url] + seed.selectors && Without(part, ';')
  }

  /** The parts render the seeds in order, with any number of parts without a selector in between. */
  predicate RendersSeeds(parts: seq<string>, seeds: seq<Seed>) {
    if parts == [] then seeds == []
    else
      || (Without(parts[0], ',') && RendersSeeds(parts[1..], seeds))
      || (seeds != [] && RendersSeed(parts[0], seeds[0]) && RendersSeeds(parts[1..], seeds[1..]))
  }

  lemma ParseRendering(part: string, seed: Seed)
    requires RendersSeed(part, seed) && seed.selectors != []
    ensures ParsePart(part) == [seed]
  {
    var a, b := TrimSplits(part);
    var s := TrimSpace(part);
    TrimAllOfPadded(a, s, b);
    var tokens := Split(s, ',');
    assert |TrimAll(tokens)| == |tokens| >= 2;
    assert TrimAll(tokens)[0] == TrimSpace(tokens[0]);
    assert TrimAll(tokens)[1..] == TrimAll(tokens[1..]);
  }

  lemma TrimKeepsWithout(s: string, c: char)
    requires Without(s, c)
    ensures Without(TrimSpace(s), c)
  {
    var a, b := TrimSplits(s);
    assert forall k :: 0 <= k < |TrimSpace(s)| ==> TrimSpace(s)[k] == s[|a| + k];
  }

  /** A part without a comma, blank or not, gives no seed. */
  lemma BareGivesNothing(part: string)
    requires Without(part, ',')
    ensures ParsePart(part) == []
  {
    TrimKeepsWithout(part, ',');
    SplitWithout(TrimSpace(part), ',');
  }

  lemma {:induction false} ParseRenderings(parts: seq<string>, seeds: seq<Seed>)
    requires RendersSeeds(parts, seeds) && forall k :: 0 <= k < |seeds| ==> seeds[k].selectors != []
    ensures ParseParts(parts) == seeds
  {
    if parts != [] {
      if Without(parts[0], ',') && RendersSeeds(parts[1..], seeds) {
        BareGivesNothing(parts[0]);
        ParseRenderings(parts[1..], seeds);
      } else {
        ParseRendering(parts[0], seeds[0]);
        ParseRenderings(parts[1..], seeds[1..]);
        assert seeds == [seeds[0]] + seeds[1..];
      }
    }
  }

  /** Any loose rendering, with whitespace around fields and empty parts anywhere, parses to the seeds. */
  lemma LooseRoundTrip(parts: seq<string>, seeds: seq<Seed>)
    requires seeds != [] && RendersSeeds(parts, seeds) && forall k :: 0 <= k < |seeds| ==> seeds[k].selectors != []
    requires forall k :: 0 <= k < |parts| ==> Without(parts[k], ';')
    ensures Parse(Join(parts, ';')) == seeds
  {
    ParseRenderings(parts, seeds);
    SplitOfJoin(parts, ';');
  }

  lemma {:induction false} JoinWithout(parts: seq<string>, sep: char, c: char)
    requires sep != c && forall k :: 0 <= k < |parts| ==> Without(parts[k], c)
    ensures Without(Join(parts, sep), c)
  {
    if |parts| > 1 {
      JoinWithout(parts[1..], sep, c);
    }
  }

  lemma PrintedSeedRenders(seed: Seed)
    requires PlainSeed(seed)
    ensures RendersSeed(PrintSeed(seed), seed)
  {
    var fields := [seed.url] + seed.selectors;
    assert forall k :: 0 <= k < |fields| ==> PlainField(fields[k]);
    SplitOfJoin(fields, ',');
    JoinWithout(fields, ',', ';');
    forall k | 0 <= k < |fields|
      ensures TrimAll(fields)[k] == fields[k]
    {
    }
    assert TrimAll(fields) == fields;
  }

  lemma {:induction false} PrintedSeedsRender(seeds: seq<Seed>)
    requires PlainSeeds(seeds)
    ensures RendersSeeds(PrintSeeds(seeds), seeds)
    ensures forall k :: 0 <= k < |PrintSeeds(seeds)| ==> Without(PrintSeeds(seeds)[k], ';')
  {
    if seeds != [] {
      PrintedSeedRenders(seeds[0]);
      PrintedSeedsRender(seeds[1..]);
    }
  }

  /** Parsing what was printed gives the seeds back. */
  lemma RoundTrip(seeds: seq<Seed>)
    requires seeds != [] && PlainSeeds(seeds)
    ensures Parse(Print(seeds)) == seeds
  {
    PrintedSeedsRender(seeds);
    LooseRoundTrip(PrintSeeds(seeds), seeds);
  }

  /** A part of a hand-written list: one without selectors, or a seed with whitespace around its fields. */
  datatype Piece = Bare(text: string) | Padded(seed: Seed, before: seq<string>, after: seq<string>)

  function Fields(seed: Seed): seq<string> {
    [seed.url] + seed.selectors
  }

  predicate WellFormed(piece: Piece) {
    match piece
    case Bare(text) => Without(text, ',') && Without(text, ';')      // only whitespace, or a URL alone
    case Padded(seed, before, after) =>
      && PlainSeed(seed) && |before| == |after| == |Fields(seed)|
      && forall k :: 0 <= k < |before| ==> AllSpace(before[k]) && AllSpace(after[k])
  }

  function Pad(before: seq<string>, fields: seq<string>, after: seq<string>): seq<string>
    requires |before| == |after| == |fields|
  {
    seq(|fields|, k requires 0 <= k < |fields| => before[k] + fields[k] + after[k])
  }

  function Render(piece: Piece): string
    requires WellFormed(piece)
  {
    match piece
    case Bare(text) => text
    case Padded(seed, before, after) => Join(Pad(before, Fields(seed), after), ',')
  }

  function RenderAll(pieces: seq<Piece>): seq<string>
    requires forall k :: 0 <= k < |pieces| ==> WellFormed(pieces[k])
  {
    if pieces == [] then [] else [Render(pieces[0])] + RenderAll(pieces[1..])
  }

  function SeedsOf(pieces: seq<Piece>): seq<Seed> {
    if pieces == [] then []
    else (if pieces[0].Padded? then [pieces[0].seed] else []) + SeedsOf(pieces[1..])
  }

  lemma PadIsWithout(before: seq<string>, fields: seq<string>, after: seq<string>, c: char)
    requires |before| == |after| == |fields| && !IsSpace(c)
    requires forall k :: 0 <= k < |fields| ==> AllSpace(before[k]) && Without(fields[k], c) && AllSpace(after[k])
    ensures forall k :: 0 <= k < |fields| ==> Without(Pad(before, fields, after)[k], c)
  {
  }

  lemma PaddedSeedRenders(piece: Piece)
    requires WellFormed(piece) && piece.Padded?
    ensures RendersSeed(Render(piece), piece.seed)
  {
    var fields := Fields(piece.seed);
    var tokens := Pad(piece.before, fields, piece.after);
    assert forall k :: 0 <= k < |fields| ==> PlainField(fields[k]);
    PadIsWithout(piece.before, fields, piece.after, ',');
    PadIsWithout(piece.before, fields, piece.after, ';');
    SplitOfJoin(tokens, ',');
    JoinWithout(tokens, ',', ';');
    forall k | 0 <= k < |fields|
      ensures TrimAll(tokens)[k] == fields[k]
    {
      TrimPadded(piece.before[k], fields[k], piece.after[k]);
    }
    assert TrimAll(tokens) == fields;
  }

  lemma {:induction false} PiecesRender(pieces: seq<Piece>)
    requires forall k :: 0 <= k < |pieces| ==> WellFormed(pieces[k])
    ensures RendersSeeds(RenderAll(pieces), SeedsOf(pieces))
    ensures forall k :: 0 <= k < |RenderAll(pieces)| ==> Without(RenderAll(pieces)[k], ';')
    ensures forall k :: 0 <= k < |SeedsOf(pieces)| ==> SeedsOf(pieces)[k].selectors != []
  {
    if pieces != [] {
      PiecesRender(pieces[1..]);
      assert RenderAll(pieces)[1..] == RenderAll(pieces[1..]);
      if pieces[0].Padded? {
        PaddedSeedRenders(pieces[0]);
        assert SeedsOf(pieces)[1..] == SeedsOf(pieces[1..]);
      } else {
        assert SeedsOf(pieces) == SeedsOf(pieces[1..]);
      }
    }
  }

  /**
  A list written by hand, with any whitespace around every field, and parts that are blank or have no
  selector anywhere, parses to its seeds if and only if it is not the empty text, which stands for
  the default seed.
   */
  lemma PaddedRoundTrip(pieces: seq<Piece>)
    requires forall k :: 0 <= k < |pieces| ==> WellFormed(pieces[k])
    ensures Parse(Join(RenderAll(pieces), ';')) == SeedsOf(pieces) <==> Join(RenderAll(pieces), ';') != ""
    ensures Join(RenderAll(pieces), ';') == "" ==>
              Parse(Join(RenderAll(pieces), ';')) == [Seed("https://example.com", ["h1", "p"])]
  {
    var parts := RenderAll(pieces);
    PiecesRender(pieces);
    ParseRenderings(parts, SeedsOf(pieces));
    if parts != [] {
      SplitOfJoin(parts, ';');
    }
  }

  lemma {:induction false} ParsedPartsArePlain(parts: seq<string>)
    requires forall k :: 0 <= k < |parts| ==> Without(parts[k], ';')
    ensures PlainSeeds(ParseParts(parts))
  {
    if parts != [] {
      ParsedPartIsPlain(parts[0]);
      ParsedPartsArePlain(parts[1..]);
    }
  }

  lemma ParsedPartIsPlain(part: string)
    requires Without(part, ';')
    ensures PlainSeeds(ParsePart(part))
  {
    var s := TrimSpace(part);
    var tokens := Split(s, ',');
    TrimKeepsWithout(part, ';');
    PartsWithout(s, ',');
    PartsKeepWithout(s, ',', ';');
    forall k | 0 <= k < |tokens|
      ensures PlainField(TrimSpace(tokens[k]))
    {
      var a, b := TrimSplits(tokens[k]);
      TrimKeepsWithout(tokens[k], ',');
      TrimKeepsWithout(tokens[k], ';');
    }
  }

  /** For any input: the seeds are trimmed, and printing and parsing them again changes nothing. */
  lemma ParseIsStable(raw: string)
    ensures PlainSeeds(Parse(raw))
    ensures Parse(raw) != [] ==> Parse(Print(Parse(raw))) == Parse(raw)
  {
    if raw != "" {
      PartsWithout(raw, ';');
      ParsedPartsArePlain(Split(raw, ';'));
    }
    if Parse(raw) != [] {
      RoundTrip(Parse(raw));
    }
  }

  lemma {:induction false} ParsePartsConcat(xs: seq<string>, ys: seq<string>)
    ensures ParseParts(xs + ys) == ParseParts(xs) + ParseParts(ys)
  {
    if xs == [] {
      assert xs + ys == ys;
    } else {
      assert (xs + ys)[1..] == xs[1..] + ys;
      ParsePartsConcat(xs[1..], ys);
    }
  }

  /** Two lists of seeds can be joined by a semicolon exactly if neither is empty, where the default would step in. */
  lemma ParseOfConcatenation(a: string, b: string)
    ensures Parse(a + ";" + b) == Parse(a) + Parse(b) <==> a != "" && b != ""
  {
    SplitAtSep(a, ';', b);
    assert a + ";" + b == a + [';'] + b;
    ParsePartsConcat(Split(a, ';'), Split(b, ';'));
    if a == "" || b == "" {
      assert |Parse(a + ";" + b)| < |Parse(a) + Parse(b)|;
    }
  }
}
