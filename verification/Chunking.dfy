/**
Sliding-window chunking of a text, with the 32-bit arithmetic of the JVM.
A text is a sequence of UTF-16 code units; nothing here depends on what they are.
 */
module Chunking {

  const MAX_INT := 0x7FFF_FFFF

  /** `IllegalStep`: a range with step 0. `BadIndex`: a substring whose end overflowed. */
  datatype Outcome<T> = Chunks(parts: seq<seq<T>>) | IllegalStep | BadIndex

  function Add32(a: int, b: int): int {
    (a + b + 0x8000_0000) % 0x1_0000_0000 - 0x8000_0000
  }

  function Min(a: int, b: int): int {
    if a <= b then a else b
  }

  /** What the configuration lets through; an overlap as large as the chunk size is let through too. */
  predicate Admitted<T>(text: seq<T>, chunkSize: int, overlap: int) {
    |text| <= MAX_INT && 0 < chunkSize <= MAX_INT && 0 <= overlap <= MAX_INT
  }

  function ChunkText<T>(text: seq<T>, chunkSize: int, overlap: int): Outcome<T>
    requires Admitted(text, chunkSize, overlap)
  {
    if |text| <= chunkSize then Chunks([text])
    else if chunkSize == overlap then IllegalStep
    else if chunkSize < overlap then Chunks([])          // a range that counts down from 0 to above is empty
    else Windows(text, chunkSize, chunkSize - overlap, 0)
  }

  /** The windows at `start`, `start + step`, ... below the end of the text. */
  function Windows<T>(text: seq<T>, chunkSize: int, step: int, start: nat): Outcome<T>
    requires step > 0
    decreases |text| - start
  {
    if start >= |text| then Chunks([])
    else
      var end := Min(Add32(start, chunkSize), |text|);
      if end < start then BadIndex
      else match Windows(text, chunkSize, step, start + step)
        case Chunks(rest) => Chunks([text[start..end]] + rest)
        case failure => failure
  }

  /** Put the chunks together again, dropping what each shares with the one before. */
  function Rebuild<T>(parts: seq<seq<T>>, overlap: nat): seq<T> {
    if parts == [] then [] else parts[0] + RebuildRest(parts[1..], overlap)
  }

  function RebuildRest<T>(parts: seq<seq<T>>, overlap: nat): seq<T> {
    if parts == [] then [] else Fresh(parts[0], overlap) + RebuildRest(parts[1..], overlap)
  }

  function Fresh<T>(part: seq<T>, overlap: nat): seq<T> {
    if |part| <= overlap then [] else part[overlap..]
  }

  // ---- facts about multiples ----

  function Ceil(n: int, d: int): int
    requires d > 0
  {
    (n + d - 1) / d
  }

  lemma MulStep(k: int, d: int)
    ensures (k + 1) * d == k * d + d
  {
  }

  lemma MulMonotone(a: int, b: int, d: int)
    requires a <= b && d >= 0
    ensures a * d <= b * d
  {
    assert b * d - a * d == (b - a) * d;
  }

  lemma DivBounds(n: int, d: int)
    requires d > 0
    ensures n / d * d <= n < n / d * d + d
  {
  }

  /** `k` is the quotient of `n` by `d`. */
  lemma DivIs(n: int, d: int, k: int)
    requires d > 0 && k * d <= n < k * d + d
    ensures n / d == k
  {
    DivBounds(n, d);
    if n / d < k {
      MulStep(n / d, d);
      MulMonotone(n / d + 1, k, d);
    } else if n / d > k {
      MulStep(k, d);
      MulMonotone(k + 1, n / d, d);
    }
  }

  lemma DivStep(n: int, d: int)
    requires d > 0
    ensures (n + d) / d == n / d + 1
  {
    DivBounds(n, d);
    MulStep(n / d, d);
    DivIs(n + d, d, n / d + 1);
  }

  /** `k` is at most the quotient exactly if its multiple is at most the dividend. */
  lemma AtMostQuotient(n: int, d: int, k: int)
    requires d > 0
    ensures k <= n / d <==> k * d <= n
  {
    DivBounds(n, d);
    MulStep(n / d, d);
    if k <= n / d { MulMonotone(k, n / d, d); } else { MulMonotone(n / d + 1, k, d); }
  }

  // ---- the windows ----

  function Window<T>(text: seq<T>, chunkSize: nat, start: nat): seq<T>
    requires start <= |text|
  {
    text[start..Min(start + chunkSize, |text|)]
  }

  /** The windows without the limits of 32-bit numbers. */
  function Cut<T>(text: seq<T>, chunkSize: nat, step: nat, start: nat): seq<seq<T>>
    requires step > 0
    decreases |text| - start
  {
    if start >= |text| then [] else [Window(text, chunkSize, start)] + Cut(text, chunkSize, step, start + step)
  }

  /** The start of the last window from `start` on. */
  function LastStart(n: nat, step: nat, start: nat): nat
    requires step > 0
    decreases n - start
  {
    if start + step >= n then start else LastStart(n, step, start + step)
  }

  lemma {:induction false} LastStartAfter(n: nat, step: nat, start: nat)
    requires step > 0
    ensures LastStart(n, step, start) >= start
    decreases n - start
  {
    if start + step < n {
      LastStartAfter(n, step, start + step);
    }
  }

  /** Windowing succeeds exactly if the end of the last window does not overflow. */
  lemma {:induction false} WindowsAre<T>(text: seq<T>, chunkSize: nat, step: nat, start: nat)
    requires 0 < step && 0 < chunkSize <= MAX_INT && start < |text| <= MAX_INT
    ensures Windows(text, chunkSize, step, start)
         == if LastStart(|text|, step, start) + chunkSize <= MAX_INT then Chunks(Cut(text, chunkSize, step, start)) else BadIndex
    decreases |text| - start
  {
    LastStartAfter(|text|, step, start);
    EndOfWindow(|text|, chunkSize, start);
    if start + step < |text| {
      WindowsAre(text, chunkSize, step, start + step);
    } else {
      assert Windows(text, chunkSize, step, start + step) == Chunks([]);
    }
  }

  /** The computed end of a window is its end, or before its start when the sum overflows. */
  lemma EndOfWindow(n: nat, chunkSize: nat, start: nat)
    requires start <= n <= MAX_INT && 0 < chunkSize <= MAX_INT
    ensures var end := Min(Add32(start, chunkSize), n);
      if start + chunkSize <= MAX_INT then end == Min(start + chunkSize, n) else end < start
  {
    assert Add32(start, chunkSize) == if start + chunkSize <= MAX_INT then start + chunkSize else start + chunkSize - 0x1_0000_0000;
  }

  lemma {:induction false} LastStartIs(n: nat, step: nat, start: nat, k: nat)
    requires step > 0 && start < n && start == k * step
    ensures LastStart(n, step, start) == (n - 1) / step * step
    decreases n - start
  {
    MulStep(k, step);
    if start + step < n {
      LastStartIs(n, step, start + step, k + 1);
    } else {
      DivIs(n - 1, step, k);
    }
  }

  /** The text fits in one chunk, or the windows move on and the end of the last one does not overflow. */
  predicate Succeeds<T>(text: seq<T>, chunkSize: int, overlap: int)
    requires Admitted(text, chunkSize, overlap)
  {
    |text| <= chunkSize
    || (overlap < chunkSize && (|text| - 1) / (chunkSize - overlap) * (chunkSize - overlap) + chunkSize <= MAX_INT)
  }

  lemma ChunksAre<T>(text: seq<T>, chunkSize: int, overlap: int)
    requires Admitted(text, chunkSize, overlap) && overlap < chunkSize < |text|
    ensures ChunkText(text, chunkSize, overlap)
         == if Succeeds(text, chunkSize, overlap) then Chunks(Cut(text, chunkSize, chunkSize - overlap, 0)) else BadIndex
  {
    LastStartIs(|text|, chunkSize - overlap, 0, 0);
    WindowsAre(text, chunkSize, chunkSize - overlap, 0);
  }

  /** A text the chunker can ever be given without overflow: there is room for one more chunk. */
  lemma RoomForOneMoreSuffices<T>(text: seq<T>, chunkSize: int, overlap: int)
    requires Admitted(text, chunkSize, overlap) && overlap < chunkSize && |text| + chunkSize <= MAX_INT
    ensures Succeeds(text, chunkSize, overlap)
  {
    if |text| > chunkSize {
      DivBounds(|text| - 1, chunkSize - overlap);
    }
  }

  // ---- round trip ----

  /** Windows that lie within what was already covered add nothing. */
  lemma {:induction false} NothingFresh<T>(text: seq<T>, chunkSize: nat, step: nat, start: nat, overlap: nat)
    requires step > 0 && |text| <= start + overlap
    ensures RebuildRest(Cut(text, chunkSize, step, start), overlap) == []
    decreases |text| - start
  {
    if start < |text| {
      NothingFresh(text, chunkSize, step, start + step, overlap);
    }
  }

  /** A full window, and the rest of the text put together from the next window on. */
  lemma FullWindowThenRest<T>(text: seq<T>, chunkSize: nat, overlap: nat, start: nat, second: seq<T>, more: seq<T>)
    requires overlap < chunkSize && start + chunkSize < |text| && |second| >= overlap
    requires second + more == text[start + chunkSize - overlap..]
    ensures Window(text, chunkSize, start) + (Fresh(second, overlap) + more) == text[start..]
  {
    var next := start + chunkSize - overlap;
    assert Fresh(second, overlap) == second[overlap..];
    assert second[overlap..] + more == (second + more)[overlap..];
    assert text[next..][overlap..] == text[start + chunkSize..];
    assert text[start..] == text[start..start + chunkSize] + text[start + chunkSize..];
  }

  lemma RebuildOfCut<T>(text: seq<T>, chunkSize: nat, overlap: nat, start: nat)
    requires overlap < chunkSize && start < |text|
    ensures var step := chunkSize - overlap;
      Rebuild(Cut(text, chunkSize, step, start), overlap)
      == Window(text, chunkSize, start) + RebuildRest(Cut(text, chunkSize, step, start + step), overlap)
  {
    var step := chunkSize - overlap;
    assert Cut(text, chunkSize, step, start)[1..] == Cut(text, chunkSize, step, start + step);
  }

  lemma FirstOfCut<T>(text: seq<T>, chunkSize: nat, overlap: nat, start: nat)
    requires overlap < chunkSize && start + overlap < |text|
    ensures var rest := Cut(text, chunkSize, chunkSize - overlap, start);
      rest != [] && |rest[0]| >= overlap
      && Rebuild(rest, overlap) == rest[0] + RebuildRest(rest[1..], overlap)
  {
  }

  /** The last window that reaches new text. */
  lemma LastWindowRebuilds<T>(text: seq<T>, chunkSize: nat, overlap: nat, start: nat)
    requires overlap < chunkSize && start < |text| <= start + chunkSize
    ensures Rebuild(Cut(text, chunkSize, chunkSize - overlap, start), overlap) == text[start..]
  {
    RebuildOfCut(text, chunkSize, overlap, start);
    NothingFresh(text, chunkSize, chunkSize - overlap, start + chunkSize - overlap, overlap);
    assert Window(text, chunkSize, start) + [] == text[start..];
  }

  /** A window before it, if the rest is put together right. */
  lemma FullWindowRebuilds<T>(text: seq<T>, chunkSize: nat, overlap: nat, start: nat)
    requires overlap < chunkSize && start + chunkSize < |text|
    requires var next := start + chunkSize - overlap;
      Rebuild(Cut(text, chunkSize, chunkSize - overlap, next), overlap) == text[next..]
    ensures Rebuild(Cut(text, chunkSize, chunkSize - overlap, start), overlap) == text[start..]
  {
    var next := start + chunkSize - overlap;
    var rest := Cut(text, chunkSize, chunkSize - overlap, next);
    RebuildOfCut(text, chunkSize, overlap, start);
    FirstOfCut(text, chunkSize, overlap, next);
    FullWindowThenRest(text, chunkSize, overlap, start, rest[0], RebuildRest(rest[1..], overlap));
  }

  lemma {:induction false} CutRebuilds<T>(text: seq<T>, chunkSize: nat, overlap: nat, start: nat)
    requires overlap < chunkSize && start < |text|
    ensures Rebuild(Cut(text, chunkSize, chunkSize - overlap, start), overlap) == text[start..]
    decreases |text| - start
  {
    if |text| <= start + chunkSize {
      LastWindowRebuilds(text, chunkSize, overlap, start);
    } else {
      CutRebuilds(text, chunkSize, overlap, start + chunkSize - overlap);
      FullWindowRebuilds(text, chunkSize, overlap, start);
    }
  }

  /**
  Over everything the configuration admits: the chunks can be put together to the text exactly
  if the text fits in one chunk, or the overlap is below the chunk size and no end overflows.
   */
  lemma RoundTrip<T>(text: seq<T>, chunkSize: int, overlap: int)
    requires Admitted(text, chunkSize, overlap)
    ensures (var r := ChunkText(text, chunkSize, overlap); r.Chunks? && Rebuild(r.parts, overlap) == text)
       <==> Succeeds(text, chunkSize, overlap)
  {
    if |text| > chunkSize > overlap {
      ChunksAre(text, chunkSize, overlap);
      CutRebuilds(text, chunkSize, overlap, 0);
    }
  }

  /** A text as long as can be, cut into chunks one shorter: the end of the second one overflows. */
  lemma EndCanOverflow<T>(text: seq<T>)
    requires |text| == MAX_INT
    ensures Admitted(text, MAX_INT - 1, 0) && ChunkText(text, MAX_INT - 1, 0) == BadIndex
  {
    ChunksAre(text, MAX_INT - 1, 0);
    DivIs(MAX_INT - 1, MAX_INT - 1, 1);
  }

  // ---- how many, how long ----

  lemma {:induction false} CutCount<T>(text: seq<T>, chunkSize: nat, step: nat, start: nat)
    requires step > 0 && start <= |text|
    ensures |Cut(text, chunkSize, step, start)| == Ceil(|text| - start, step)
    decreases |text| - start
  {
    if start + step <= |text| {
      CutCount(text, chunkSize, step, start + step);
      if start < |text| {
        DivStep(|text| - start - step + step - 1, step);
      }
    } else if start < |text| {
      DivIs(|text| - start + step - 1, step, 1);
    } else {
      DivIs(step - 1, step, 0);
    }
  }

  lemma {:induction false} CutAt<T>(text: seq<T>, chunkSize: nat, step: nat, start: nat, k: nat)
    requires step > 0 && k < |Cut(text, chunkSize, step, start)|
    ensures 0 <= start + k * step < |text|
    ensures Cut(text, chunkSize, step, start)[k] == Window(text, chunkSize, start + k * step)
    decreases k
  {
    if k > 0 {
      CutAt(text, chunkSize, step, start + step, k - 1);
      MulStep(k - 1, step);
    }
  }

  function TotalLength<T>(parts: seq<seq<T>>): nat {
    if parts == [] then 0 else |parts[0]| + TotalLength(parts[1..])
  }

  lemma {:induction false} CutLength<T>(text: seq<T>, chunkSize: nat, overlap: nat, start: nat)
    requires overlap < chunkSize && start < |text|
    ensures var parts := Cut(text, chunkSize, chunkSize - overlap, start);
      parts != [] && TotalLength(parts) <= |text| - start + (|parts| - 1) * overlap
    decreases |text| - start
  {
    var parts := Cut(text, chunkSize, chunkSize - overlap, start);
    var next := start + chunkSize - overlap;
    assert parts[1..] == Cut(text, chunkSize, chunkSize - overlap, next);
    if next < |text| {
      CutLength(text, chunkSize, overlap, next);
      MulStep(|parts[1..]| - 1, overlap);
    }
  }

  /** The number of chunks, their sizes, and how much longer than the text they are together. */
  lemma ChunkArithmetic<T>(text: seq<T>, chunkSize: int, overlap: int)
    requires Admitted(text, chunkSize, overlap) && overlap < chunkSize && Succeeds(text, chunkSize, overlap)
    ensures ChunkText(text, chunkSize, overlap).Chunks?
    ensures var parts := ChunkText(text, chunkSize, overlap).parts;
      && |parts| == (if |text| <= chunkSize then 1 else Ceil(|text|, chunkSize - overlap))
      && (forall k :: 0 <= k < |parts| ==> |parts[k]| <= chunkSize && (text != [] ==> parts[k] != []))
      && TotalLength(parts) <= |text| + (|parts| - 1) * overlap
  {
    if |text| > chunkSize {
      ChunksAre(text, chunkSize, overlap);
      CutCount(text, chunkSize, chunkSize - overlap, 0);
      CutLength(text, chunkSize, overlap, 0);
      var parts := Cut(text, chunkSize, chunkSize - overlap, 0);
      forall k | 0 <= k < |parts|
        ensures 0 < |parts[k]| <= chunkSize
      {
        CutAt(text, chunkSize, chunkSize - overlap, 0, k);
      }
    } else {
      assert TotalLength([text]) == |text| + TotalLength<T>([text][1..]);
    }
  }

  // ---- what lies in which window ----

  /** `length` positions from `i` on lie in window `k`. */
  predicate Holds(n: nat, chunkSize: nat, step: nat, k: nat, i: nat, length: nat) {
    k * step < n && k * step <= i && i + length <= Min(k * step + chunkSize, n)
  }

  ghost predicate InSomeWindow(n: nat, chunkSize: nat, step: nat, i: nat, length: nat) {
    exists k: nat :: Holds(n, chunkSize, step, k, i, length)
  }

  /** Every stretch of `length` positions lies in some window. */
  ghost predicate Covered(n: nat, chunkSize: nat, step: nat, length: nat) {
    forall i: nat :: i + length <= n ==> InSomeWindow(n, chunkSize, step, i, length)
  }

  lemma ShortIsCovered(n: nat, chunkSize: nat, overlap: nat, length: nat)
    requires overlap < chunkSize < n && 1 <= length <= overlap + 1
    ensures Covered(n, chunkSize, chunkSize - overlap, length)
  {
    var step := chunkSize - overlap;
    forall i: nat | i + length <= n
      ensures InSomeWindow(n, chunkSize, step, i, length)
    {
      DivBounds(i, step);
      assert Holds(n, chunkSize, step, i / step, i, length);
    }
  }

  lemma LongIsNotCovered(n: nat, chunkSize: nat, overlap: nat, length: nat)
    requires overlap < chunkSize < n && overlap + 2 <= length <= n
    ensures !Covered(n, chunkSize, chunkSize - overlap, length)
  {
    var step := chunkSize - overlap;
    var i: nat := Min(step - 1, n - length);
    assert i + length <= n && i + length > chunkSize && i < step;
    forall k: nat
      ensures !Holds(n, chunkSize, step, k, i, length)
    {
      if k > 0 {
        MulMonotone(1, k, step);
      }
    }
    assert !InSomeWindow(n, chunkSize, step, i, length);
  }

  /** Chunk `k`, which starts at position `k * step`, contains the `length` positions from `i` on. */
  ghost predicate InChunk<T>(parts: seq<seq<T>>, text: seq<T>, step: nat, k: nat, i: nat, length: nat) {
    && k < |parts| && k * step <= i && i + length <= k * step + |parts[k]| <= |text|
    && parts[k][i - k * step..i - k * step + length] == text[i..i + length]
  }

  ghost predicate InSomeChunk<T>(parts: seq<seq<T>>, text: seq<T>, step: nat, i: nat, length: nat) {
    exists k: nat :: InChunk(parts, text, step, k, i, length)
  }

  lemma WindowContent<T>(text: seq<T>, chunkSize: nat, start: nat, i: nat, length: nat)
    requires start <= |text| && start <= i && i + length <= start + |Window(text, chunkSize, start)|
    ensures i + length <= |text|
    ensures Window(text, chunkSize, start)[i - start..i - start + length] == text[i..i + length]
  {
  }

  /** The multiple is below `n` exactly for the first ceil(n / d) numbers. */
  lemma BelowCeil(n: int, d: int, k: int)
    requires d > 0
    ensures k < Ceil(n, d) <==> k * d < n
  {
    AtMostQuotient(n + d - 1, d, k + 1);
    MulStep(k, d);
  }

  lemma ChunkIsWindow<T>(text: seq<T>, chunkSize: nat, step: nat, k: nat, i: nat, length: nat)
    requires 0 < step && i + length <= |text|
    ensures InChunk(Cut(text, chunkSize, step, 0), text, step, k, i, length) <==> Holds(|text|, chunkSize, step, k, i, length)
  {
    CutCount(text, chunkSize, step, 0);
    BelowCeil(|text|, step, k);
    if k < |Cut(text, chunkSize, step, 0)| {
      CutAt(text, chunkSize, step, 0, k);
      if Holds(|text|, chunkSize, step, k, i, length) {
        WindowContent(text, chunkSize, k * step, i, length);
      }
    }
  }

  /** Every stretch of `length` characters lies in some chunk. */
  ghost predicate StretchesInChunks<T>(parts: seq<seq<T>>, text: seq<T>, step: nat, length: nat) {
    forall i: nat :: i + length <= |text| ==> InSomeChunk(parts, text, step, i, length)
  }

  /** The overlap is tight: exactly the stretches of at most overlap + 1 characters always lie in one chunk. */
  lemma CoverageIsTight<T>(text: seq<T>, chunkSize: int, overlap: int, length: nat)
    requires Admitted(text, chunkSize, overlap) && overlap < chunkSize < |text| && Succeeds(text, chunkSize, overlap)
    requires 1 <= length <= |text|
    ensures ChunkText(text, chunkSize, overlap).Chunks?
    ensures StretchesInChunks(ChunkText(text, chunkSize, overlap).parts, text, chunkSize - overlap, length)
       <==> length <= overlap + 1
  {
    ChunksAre(text, chunkSize, overlap);
    var step := chunkSize - overlap;
    var parts := Cut(text, chunkSize, step, 0);
    forall i: nat | i + length <= |text|
      ensures InSomeChunk(parts, text, step, i, length) <==> InSomeWindow(|text|, chunkSize, step, i, length)
    {
      SameWindows(text, chunkSize, step, i, length);
    }
    if length <= overlap + 1 {
      ShortIsCovered(|text|, chunkSize, overlap, length);
    } else {
      LongIsNotCovered(|text|, chunkSize, overlap, length);
    }
  }

  lemma SameWindows<T>(text: seq<T>, chunkSize: nat, step: nat, i: nat, length: nat)
    requires 0 < step && i + length <= |text|
    ensures InSomeChunk(Cut(text, chunkSize, step, 0), text, step, i, length)
       <==> InSomeWindow(|text|, chunkSize, step, i, length)
  {
    forall k: nat
      ensures InChunk(Cut(text, chunkSize, step, 0), text, step, k, i, length)
         <==> Holds(|text|, chunkSize, step, k, i, length)
    {
      ChunkIsWindow(text, chunkSize, step, k, i, length);
    }
  }

  /** The first window that reaches beyond position `p`. */
  function FirstHolding(chunkSize: nat, step: nat, p: nat): nat
    requires 0 < step
  {
    if p < chunkSize then 0 else (p - chunkSize) / step + 1
  }

  /** Each character is in consecutive chunks, at least one and at most ceil(chunkSize / step). */
  lemma CharacterMultiplicity<T>(text: seq<T>, chunkSize: int, overlap: int, p: nat)
    requires Admitted(text, chunkSize, overlap) && overlap < chunkSize < |text| && Succeeds(text, chunkSize, overlap)
    requires p < |text|
    ensures ChunkText(text, chunkSize, overlap).Chunks?
    ensures var step, parts := chunkSize - overlap, ChunkText(text, chunkSize, overlap).parts;
      && (forall k: nat :: InChunk(parts, text, step, k, p, 1) <==> FirstHolding(chunkSize, step, p) <= k <= p / step)
      && 1 <= p / step - FirstHolding(chunkSize, step, p) + 1 <= Ceil(chunkSize, step)
  {
    ChunksAre(text, chunkSize, overlap);
    var step := chunkSize - overlap;
    forall k: nat
      ensures InChunk(Cut(text, chunkSize, step, 0), text, step, k, p, 1)
         <==> FirstHolding(chunkSize, step, p) <= k <= p / step
    {
      ChunkIsWindow(text, chunkSize, step, k, p, 1);
      HoldingWindow(|text|, chunkSize, step, k, p);
    }
    HoldingCount(chunkSize, step, p);
  }

  lemma HoldingWindow(n: nat, chunkSize: nat, step: nat, k: nat, p: nat)
    requires 0 < step <= chunkSize && p < n
    ensures Holds(n, chunkSize, step, k, p, 1) <==> FirstHolding(chunkSize, step, p) <= k <= p / step
  {
    AtMostQuotient(p, step, k);
    AtMostQuotient(p - chunkSize, step, k);
  }

  lemma HoldingCount(chunkSize: nat, step: nat, p: nat)
    requires 0 < step <= chunkSize
    ensures 1 <= p / step - FirstHolding(chunkSize, step, p) + 1 <= Ceil(chunkSize, step)
  {
    var m := Ceil(chunkSize, step);
    DivBounds(chunkSize + step - 1, step);
    MulStep(m - 1, step);
    // (m - 1) * step < chunkSize <= m * step
    if p < chunkSize {
      AtMostQuotient(p, step, 0);
      AtMostQuotient(p, step, m);
    } else {
      QuotientsApart(p, chunkSize, step, m);
    }
  }

  lemma QuotientsApart(p: nat, chunkSize: nat, step: nat, m: int)
    requires 0 < step <= chunkSize <= p && chunkSize <= m * step
    ensures 1 <= p / step - (p - chunkSize) / step <= m
  {
    var q := (p - chunkSize) / step;
    DivBounds(p - chunkSize, step);
    MulStep(q, step);
    AtMostQuotient(p, step, q + 1);
    assert (q + 1 + m) * step == q * step + step + m * step;
    AtMostQuotient(p, step, q + 1 + m);
  }
}
