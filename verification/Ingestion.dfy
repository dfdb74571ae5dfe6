/**
The ingestion stream: normalise and chunk each payload, group the chunks of all payloads
into batches, upsert batch by batch with failures isolated, and fold the outcome.
 */
module Ingestion {
  import opened Chunking
  import opened Normalise

  type Metadata = map<string, string>

  datatype Payload = Payload(rawContent: Text, metadata: Metadata)
  datatype Document = Document(content: Text, metadata: Metadata, chunkIndex: nat)

  datatype Config = Config(chunkSize: int, overlap: int, batchSize: int) {
    // exactly what the start-up validation requires of these three
    predicate Valid() {
      0 < chunkSize <= MAX_INT && 0 <= overlap <= MAX_INT && 0 < batchSize <= MAX_INT
    }
  }

  /** How the request stream ends. */
  datatype Ending = Complete | Broken

  datatype Response =
    | Done(success: bool, processedCount: int)
    | StreamFailed      // the request stream broke off
    | Defect            // the chunker threw

  // ---- payloads to documents ----

  predicate Blank(p: Payload) {
    Trim(p.rawContent) == []
  }

  /** A JVM string is no longer than the largest Int. */
  ghost predicate Loaded(payloads: seq<Payload>) {
    forall i :: 0 <= i < |payloads| ==> |payloads[i].rawContent| <= MAX_INT
  }

  function Chunked(p: Payload, cfg: Config): Outcome<CodeUnit>
    requires cfg.Valid() && |p.rawContent| <= MAX_INT
  {
    NormalisationProperties(p.rawContent);
    ChunkText(Normalised(p.rawContent), cfg.chunkSize, cfg.overlap)
  }

  /** Number the chunks of one payload from `from` on. */
  function ZipWithIndex(parts: seq<Text>, metadata: Metadata, from: nat): seq<Document> {
    if parts == [] then [] else [Document(parts[0], metadata, from)] + ZipWithIndex(parts[1..], metadata, from + 1)
  }

  /** The documents up to the first payload whose chunking throws, and whether one does. */
  datatype Emission = Emission(docs: seq<Document>, threw: bool)

  /** A payload followed by the emission of the rest: a blank one is left out, and one that throws ends everything. */
  function EmitCons(p: Payload, rest: Emission, cfg: Config): Emission
    requires cfg.Valid() && |p.rawContent| <= MAX_INT
  {
    if Blank(p) then rest
    else match Chunked(p, cfg)
      case Chunks(parts) => Emission(ZipWithIndex(parts, p.metadata, 0) + rest.docs, rest.threw)
      case _ => Emission([], true)
  }

  function Emit(payloads: seq<Payload>, cfg: Config): Emission
    requires cfg.Valid() && Loaded(payloads)
  {
    if payloads == [] then Emission([], false) else EmitCons(payloads[0], Emit(payloads[1..], cfg), cfg)
  }

  // ---- batches, upserts, fold ----

  function Grouped<T>(xs: seq<T>, n: int): seq<seq<T>>
    requires n > 0
    decreases |xs|
  {
    if xs == [] then [] else if |xs| <= n then [xs] else [xs[..n]] + Grouped(xs[n..], n)
  }

  /** The batch's size if its upsert worked, and 0 in its place if not; `works(b)` is the store's answer to batch b. */
  function Upserted<T>(batches: seq<seq<T>>, works: nat -> bool, from: nat): seq<nat> {
    if batches == [] then []
    else [if works(from) then |batches[0]| else 0] + Upserted(batches[1..], works, from + 1)
  }

  /** The sum of a 32-bit number and a batch's size. */
  function Plus(a: int, size: nat): int {
    if a + size > MAX_INT then a + size - 0x1_0000_0000 else a + size
  }

  /** The running fold over (processed, failed); `processed` is a 32-bit number. */
  function RunFold(sizes: seq<nat>, processed: int, failed: nat): (int, nat) {
    if sizes == [] then (processed, failed)
    else if sizes[0] > 0 then RunFold(sizes[1..], Plus(processed, sizes[0]), failed)
    else RunFold(sizes[1..], processed, failed + 1)
  }

  /**
  The batches handed to the store. When the stream fails, the documents of the last, incomplete
  batch may or may not still be handed on.
   */
  function Attempted(payloads: seq<Payload>, ending: Ending, flush: bool, cfg: Config): seq<seq<Document>>
    requires cfg.Valid() && Loaded(payloads)
  {
    var e := Emit(payloads, cfg);
    var batches := Grouped(e.docs, cfg.batchSize);
    if (e.threw || ending == Broken) && !flush && batches != [] && |batches[|batches| - 1]| < cfg.batchSize
    then batches[..|batches| - 1]
    else batches
  }

  function StreamScrapeData(payloads: seq<Payload>, ending: Ending, works: nat -> bool, cfg: Config): Response
    requires cfg.Valid() && Loaded(payloads)
  {
    var e := Emit(payloads, cfg);
    if e.threw then Defect
    else if ending == Broken then StreamFailed
    else
      var (processed, failed) := RunFold(Upserted(Grouped(e.docs, cfg.batchSize), works, 0), 0, 0);
      Done(failed == 0, processed)
  }

  // ---- the fold refines a simple count ----

  function Flatten<T>(xss: seq<seq<T>>): seq<T> {
    if xss == [] then [] else xss[0] + Flatten(xss[1..])
  }

  lemma {:induction false} GroupedProperties<T>(xs: seq<T>, n: int)
    requires n > 0
    ensures var bs := Grouped(xs, n);
      && Flatten(bs) == xs
      && (forall b :: 0 <= b < |bs| ==> 0 < |bs[b]| <= n && (b < |bs| - 1 ==> |bs[b]| == n))
    decreases |xs|
  {
    if |xs| > n {
      GroupedProperties(xs[n..], n);
      assert xs == xs[..n] + xs[n..];
    } else if xs != [] {
      assert Flatten([xs]) == xs + Flatten<T>([xs][1..]);
    }
  }

  /** The documents in the batches whose upsert worked, and how many batches did not work. */
  function Stored<T>(batches: seq<seq<T>>, works: nat -> bool, from: nat): seq<T> {
    if batches == [] then []
    else (if works(from) then batches[0] else []) + Stored(batches[1..], works, from + 1)
  }

  function Failures<T>(batches: seq<seq<T>>, works: nat -> bool, from: nat): nat {
    if batches == [] then 0 else (if works(from) then 0 else 1) + Failures(batches[1..], works, from + 1)
  }

  /** `a` is the 32-bit number that `n` comes round to. */
  ghost predicate ComesRound(n: int, a: int) {
    -0x8000_0000 <= a <= MAX_INT && exists k: nat :: n == a + k * 0x1_0000_0000
  }

  lemma PlusComesRound(n: nat, a: int, size: nat)
    requires ComesRound(n, a) && size <= MAX_INT
    ensures ComesRound(n + size, Plus(a, size))
  {
    var k: nat :| n == a + k * 0x1_0000_0000;
    assert n + size == Plus(a, size) + (if a + size > MAX_INT then k + 1 else k) * 0x1_0000_0000;
  }

  lemma SmallStays(n: nat, a: int)
    requires ComesRound(n, a) && n <= MAX_INT
    ensures n == a
  {
  }

  /** A processed size of 0 means failure without ambiguity because no batch is empty. */
  lemma {:induction false} FoldCounts<T>(batches: seq<seq<T>>, works: nat -> bool, from: nat, n: nat, processed: int, failed: nat)
    requires ComesRound(n, processed) && forall b :: 0 <= b < |batches| ==> 0 < |batches[b]| <= MAX_INT
    ensures var result := RunFold(Upserted(batches, works, from), processed, failed);
      && ComesRound(n + |Stored(batches, works, from)|, result.0)
      && result.1 == failed + Failures(batches, works, from)
  {
    if batches != [] {
      var size := if works(from) then |batches[0]| else 0;
      assert Upserted(batches, works, from)[1..] == Upserted(batches[1..], works, from + 1);
      PlusComesRound(n, processed, size);
      FoldCounts(batches[1..], works, from + 1, n + size,
                 if size > 0 then Plus(processed, size) else processed, if size > 0 then failed else failed + 1);
    }
  }

  lemma {:induction false} FailuresMean<T>(batches: seq<seq<T>>, works: nat -> bool, from: nat)
    ensures Failures(batches, works, from) == 0 <==> forall b: nat :: from <= b < from + |batches| ==> works(b)
    ensures Failures(batches, works, from) == 0 ==> Stored(batches, works, from) == Flatten(batches)
  {
    if batches != [] {
      FailuresMean(batches[1..], works, from + 1);
    }
  }

  /**
  The response to a stream that ends properly: it counts the documents of the batches that were
  stored, and reports success exactly if every upsert worked.
   */
  lemma ResponseIsRight(payloads: seq<Payload>, works: nat -> bool, cfg: Config)
    requires cfg.Valid() && Loaded(payloads) && !Emit(payloads, cfg).threw
    ensures var batches := Attempted(payloads, Complete, true, cfg);
      var r := StreamScrapeData(payloads, Complete, works, cfg);
      && Flatten(batches) == Emit(payloads, cfg).docs
      && (forall b :: 0 <= b < |batches| ==> 0 < |batches[b]| <= cfg.batchSize)
      && (forall b :: 0 <= b < |batches| - 1 ==> |batches[b]| == cfg.batchSize)
      && r.Done?
      && ComesRound(|Stored(batches, works, 0)|, r.processedCount)
      && (|Stored(batches, works, 0)| <= MAX_INT ==> r.processedCount == |Stored(batches, works, 0)|)
      && (r.success <==> forall b: nat :: b < |batches| ==> works(b))
      && (r.success ==> Stored(batches, works, 0) == Emit(payloads, cfg).docs)
  {
    var batches := Grouped(Emit(payloads, cfg).docs, cfg.batchSize);
    GroupedProperties(Emit(payloads, cfg).docs, cfg.batchSize);
    assert 0 == 0 + 0 * 0x1_0000_0000 && ComesRound(0, 0);
    FoldCounts(batches, works, 0, 0, 0, 0);
    if |Stored(batches, works, 0)| <= MAX_INT {
      SmallStays(|Stored(batches, works, 0)|, RunFold(Upserted(batches, works, 0), 0, 0).0);
    }
    FailuresMean(batches, works, 0);
    assert (forall b: nat :: 0 <= b < 0 + |batches| ==> works(b)) <==> (forall b: nat :: b < |batches| ==> works(b));
  }

  // ---- a stream that fails ----

  /** The emission of a longer stream: nothing more if the first part threw, else followed by the second part's. */
  function Then(first: Emission, second: Emission): Emission {
    if first.threw then first else Emission(first.docs + second.docs, second.threw)
  }

  lemma {:induction false} EmitPrefix(xs: seq<Payload>, ys: seq<Payload>, cfg: Config)
    requires cfg.Valid() && Loaded(xs) && Loaded(ys)
    ensures Loaded(xs + ys) && Emit(xs + ys, cfg) == Then(Emit(xs, cfg), Emit(ys, cfg))
  {
    assert Loaded(xs + ys);
    if xs == [] {
      assert xs + ys == ys;
    } else {
      assert (xs + ys)[1..] == xs[1..] + ys;
      EmitPrefix(xs[1..], ys, cfg);
    }
  }

  lemma {:induction false} FlattenInit<T>(xss: seq<seq<T>>)
    requires xss != []
    ensures Flatten(xss[..|xss| - 1]) <= Flatten(xss)
  {
    if |xss| > 1 {
      FlattenInit(xss[1..]);
      assert xss[..|xss| - 1][1..] == xss[1..][..|xss[1..]| - 1];
    }
  }

  /** Whatever was handed to the store before a failure is a prefix of what the whole input would have given. */
  lemma AttemptedIsPrefix(received: seq<Payload>, missing: seq<Payload>, ending: Ending, flush: bool, cfg: Config)
    requires cfg.Valid() && Loaded(received) && Loaded(missing)
    ensures Loaded(received + missing)
    ensures Flatten(Attempted(received, ending, flush, cfg)) <= Emit(received + missing, cfg).docs
  {
    EmitPrefix(received, missing, cfg);
    var docs := Emit(received, cfg).docs;
    GroupedProperties(docs, cfg.batchSize);
    var batches := Grouped(docs, cfg.batchSize);
    if batches != [] {
      FlattenInit(batches);
    }
  }

  // ---- when the call is answered at all ----

  /** A payload is left out exactly if it has no unit above 32. */
  lemma BlankIff(p: Payload)
    ensures Blank(p) <==> forall k :: 0 <= k < |p.rawContent| ==> p.rawContent[k] <= 32
  {
    TrimIsExact(p.rawContent);
  }

  /** Chunking this payload throws: the step is zero, or the end of the last window does not fit in 32 bits. */
  predicate Throws(p: Payload, cfg: Config)
    requires cfg.Valid()
  {
    var n, step := |Normalised(p.rawContent)|, cfg.chunkSize - cfg.overlap;
    !Blank(p) && n > cfg.chunkSize
    && (step == 0 || (step > 0 && (n - 1) / step * step + cfg.chunkSize > MAX_INT))
  }

  lemma ThrowsIff(p: Payload, cfg: Config)
    requires cfg.Valid() && |p.rawContent| <= MAX_INT
    ensures Throws(p, cfg) <==> !Blank(p) && !Chunked(p, cfg).Chunks?
  {
    NormalisationProperties(p.rawContent);
    var text := Normalised(p.rawContent);
    if |text| > cfg.chunkSize > cfg.overlap {
      ChunksAre(text, cfg.chunkSize, cfg.overlap);
    }
  }

  lemma {:induction false} EmissionThrowsIff(payloads: seq<Payload>, cfg: Config)
    requires cfg.Valid() && Loaded(payloads)
    ensures Emit(payloads, cfg).threw <==> exists i :: 0 <= i < |payloads| && Throws(payloads[i], cfg)
  {
    if payloads != [] {
      ThrowsIff(payloads[0], cfg);
      EmissionThrowsIff(payloads[1..], cfg);
      assert payloads == [payloads[0]] + payloads[1..];
    }
  }

  /**
  The call is answered if and only if the stream ended properly and no payload's chunking threw,
  whatever the store did. Otherwise it fails: with the chunker's exception if one was thrown before
  the stream broke off, and with the stream's own error if not.
   */
  lemma AnsweredIff(payloads: seq<Payload>, ending: Ending, works: nat -> bool, cfg: Config)
    requires cfg.Valid() && Loaded(payloads)
    ensures var r := StreamScrapeData(payloads, ending, works, cfg);
      var anyThrows := exists i :: 0 <= i < |payloads| && Throws(payloads[i], cfg);
      && (r.Done? <==> ending == Complete && !anyThrows)
      && (r == Defect <==> anyThrows)
      && (r == StreamFailed <==> ending == Broken && !anyThrows)
  {
    EmissionThrowsIff(payloads, cfg);
  }

  lemma {:induction false} FlattenLength<T>(xss: seq<seq<T>>, n: nat)
    requires forall b :: 0 <= b < |xss| ==> |xss[b]| == n
    ensures |Flatten(xss)| == |xss| * n
  {
    if xss != [] {
      FlattenLength(xss[1..], n);
      MulStep(|xss| - 1, n);
    }
  }

  lemma {:induction false} FlattenSplit<T>(xss: seq<seq<T>>)
    requires xss != []
    ensures Flatten(xss) == Flatten(xss[..|xss| - 1]) + xss[|xss| - 1]
  {
    var n := |xss| - 1;
    if n > 0 {
      FlattenSplit(xss[1..]);
      assert xss[1..][..n - 1] == xss[..n][1..];
    } else {
      assert Flatten(xss) == xss[0] + Flatten<T>(xss[1..]);
    }
  }

  /**
  Whatever way a stream fails, every full batch of the chunks received before was handed to the
  store: less than one batch of them is missing, and nothing if they fill whole batches.
   */
  lemma FullBatchesAreAttempted(payloads: seq<Payload>, ending: Ending, flush: bool, cfg: Config)
    requires cfg.Valid() && Loaded(payloads)
    ensures var docs, tried := Emit(payloads, cfg).docs, Flatten(Attempted(payloads, ending, flush, cfg));
      && tried <= docs
      && |docs| - |tried| < cfg.batchSize
      && (tried != docs ==> |tried| % cfg.batchSize == 0)
      && (ending == Complete && !Emit(payloads, cfg).threw ==> tried == docs)
  {
    var docs := Emit(payloads, cfg).docs;
    var batches := Grouped(docs, cfg.batchSize);
    GroupedProperties(docs, cfg.batchSize);
    if batches != [] {
      var front := batches[..|batches| - 1];
      FlattenSplit(batches);
      FlattenLength(front, cfg.batchSize);
      MultipleHasNoRest(|front|, cfg.batchSize);
    }
  }

  lemma MultipleHasNoRest(k: nat, d: nat)
    requires d > 0
    ensures k * d % d == 0
  {
    DivIs(k * d, d, k);
  }

  // ---- end to end ----

  /** A text and the metadata found with it. */
  datatype Recovered = Recovered(text: Text, metadata: set<Metadata>)

  /** What should be recoverable: each payload that is not blank, normalised, with its own metadata. */
  function Texts(payloads: seq<Payload>): seq<Recovered> {
    if payloads == [] then []
    else
      var p := payloads[0];
      (if Blank(p) then [] else [Recovered(Normalised(p.rawContent), {p.metadata})]) + Texts(payloads[1..])
  }

  /** How many documents at the front continue the chunk numbering. */
  function Continuation(docs: seq<Document>): (n: nat)
    ensures n <= |docs|
  {
    if docs == [] || docs[0].chunkIndex == 0 then 0 else 1 + Continuation(docs[1..])
  }

  function Contents(docs: seq<Document>): seq<Text> {
    seq(|docs|, i requires 0 <= i < |docs| => docs[i].content)
  }

  function MetadataOf(docs: seq<Document>): set<Metadata> {
    set i | 0 <= i < |docs| :: docs[i].metadata
  }

  /** Split the stored documents where the chunk index is 0 again, and rebuild each text. */
  function RebuildTexts(docs: seq<Document>, overlap: nat): seq<Recovered>
    decreases |docs|
  {
    if docs == [] then []
    else
      var n := 1 + Continuation(docs[1..]);
      [Recovered(Rebuild(Contents(docs[..n]), overlap), MetadataOf(docs[..n]))] + RebuildTexts(docs[n..], overlap)
  }

  /** Nothing, or the start of a text. */
  predicate StartsText(docs: seq<Document>) {
    docs == [] || docs[0].chunkIndex == 0
  }

  lemma {:induction false} ZipProperties(parts: seq<Text>, metadata: Metadata, from: nat)
    ensures var docs := ZipWithIndex(parts, metadata, from);
      && |docs| == |parts| && Contents(docs) == parts
      && MetadataOf(docs) == (if parts == [] then {} else {metadata})
      && forall i :: 0 <= i < |docs| ==> docs[i].chunkIndex == from + i
  {
    if parts != [] {
      ZipProperties(parts[1..], metadata, from + 1);
      var docs := ZipWithIndex(parts, metadata, from);
      assert forall i :: 0 <= i < |docs| ==> docs[i].content == parts[i];
      assert docs[0].metadata == metadata;
      assert forall i :: 0 < i < |docs| ==> docs[i].metadata in MetadataOf(docs[1..]);
    }
  }

  lemma {:induction false} ContinuationIs(docs: seq<Document>, rest: seq<Document>)
    requires StartsText(rest) && forall i :: 0 <= i < |docs| ==> docs[i].chunkIndex != 0
    ensures Continuation(docs + rest) == |docs|
  {
    if docs == [] {
      assert docs + rest == rest;
    } else {
      assert (docs + rest)[1..] == docs[1..] + rest;
      ContinuationIs(docs[1..], rest);
    }
  }

  lemma RebuildFirst(parts: seq<Text>, metadata: Metadata, rest: seq<Document>, overlap: nat)
    requires parts != [] && StartsText(rest)
    ensures RebuildTexts(ZipWithIndex(parts, metadata, 0) + rest, overlap)
         == [Recovered(Rebuild(parts, overlap), {metadata})] + RebuildTexts(rest, overlap)
  {
    var docs := ZipWithIndex(parts, metadata, 0);
    ZipProperties(parts, metadata, 0);
    assert (docs + rest)[1..] == docs[1..] + rest;
    ContinuationIs(docs[1..], rest);
    assert (docs + rest)[..|docs|] == docs && (docs + rest)[|docs|..] == rest;
  }

  lemma {:induction false} EmissionStartsText(payloads: seq<Payload>, cfg: Config)
    requires cfg.Valid() && Loaded(payloads)
    ensures StartsText(Emit(payloads, cfg).docs)
  {
    if payloads != [] {
      EmissionStartsText(payloads[1..], cfg);
      if !Blank(payloads[0]) && Chunked(payloads[0], cfg).Chunks? {
        ZipProperties(Chunked(payloads[0], cfg).parts, payloads[0].metadata, 0);
      }
    }
  }

  /** Blank, or within one chunk, or the overlap is below the chunk size. */
  predicate Chunkable(p: Payload, cfg: Config) {
    Blank(p) || |Normalised(p.rawContent)| <= cfg.chunkSize || cfg.overlap < cfg.chunkSize
  }

  ghost predicate AllChunkable(payloads: seq<Payload>, cfg: Config) {
    forall i :: 0 <= i < |payloads| ==> Chunkable(payloads[i], cfg)
  }

  /** If nothing threw, a text without chunks is one the overlap makes unchunkable. */
  lemma ChunkedOrDropped(p: Payload, cfg: Config)
    requires cfg.Valid() && |p.rawContent| <= MAX_INT && Chunked(p, cfg).Chunks?
    ensures var parts, text := Chunked(p, cfg).parts, Normalised(p.rawContent);
      if |text| <= cfg.chunkSize || cfg.overlap < cfg.chunkSize then parts != [] && Rebuild(parts, cfg.overlap) == text
      else parts == []
  {
    NormalisationProperties(p.rawContent);
    var text := Normalised(p.rawContent);
    RoundTrip(text, cfg.chunkSize, cfg.overlap);
    if |text| > cfg.chunkSize > cfg.overlap {
      ChunksAre(text, cfg.chunkSize, cfg.overlap);
    }
  }

  lemma {:induction false} EmissionRebuilds(payloads: seq<Payload>, cfg: Config)
    requires cfg.Valid() && Loaded(payloads) && !Emit(payloads, cfg).threw
    ensures var texts := RebuildTexts(Emit(payloads, cfg).docs, cfg.overlap);
      && (AllChunkable(payloads, cfg) ==> texts == Texts(payloads))
      && |texts| <= |Texts(payloads)|
      && (!AllChunkable(payloads, cfg) ==> |texts| < |Texts(payloads)|)
  {
    if payloads != [] {
      var p := payloads[0];
      EmissionRebuilds(payloads[1..], cfg);
      assert AllChunkable(payloads, cfg) <==> (AllChunkable(payloads[1..], cfg) && Chunkable(p, cfg));
      if !Blank(p) {
        ChunkedOrDropped(p, cfg);
        var parts, rest := Chunked(p, cfg).parts, Emit(payloads[1..], cfg).docs;
        EmissionStartsText(payloads[1..], cfg);
        if parts == [] {
          assert ZipWithIndex(parts, p.metadata, 0) + rest == rest;
        } else {
          RebuildFirst(parts, p.metadata, rest, cfg.overlap);
        }
      }
    }
  }

  /**
  End to end: when the response is success, the stored documents rebuild the normalised text of
  every payload that is not blank and carry its metadata, exactly if none of them was too long for an overlap that is
  not below the chunk size. Start-up lets such an overlap through, and then success is reported
  although whole texts are missing.
   */
  lemma SuccessMeansRecoverable(payloads: seq<Payload>, works: nat -> bool, cfg: Config)
    requires cfg.Valid() && Loaded(payloads)
    requires var r := StreamScrapeData(payloads, Complete, works, cfg); r.Done? && r.success
    ensures RebuildTexts(Stored(Attempted(payloads, Complete, true, cfg), works, 0), cfg.overlap) == Texts(payloads)
       <==> AllChunkable(payloads, cfg)
  {
    ResponseIsRight(payloads, works, cfg);
    EmissionRebuilds(payloads, cfg);
  }

  // ---- whatever order the store returns the documents in ----

  /** The documents with this metadata are the chunks, each under its index. */
  ghost predicate Retrieves(docs: seq<Document>, metadata: Metadata, parts: seq<Text>) {
    forall d: Document :: d.metadata == metadata ==>
      (d in docs <==> d.chunkIndex < |parts| && parts[d.chunkIndex] == d.content)
  }

  lemma RetrievesPrefix(docs: seq<Document>, metadata: Metadata, parts: seq<Text>, others: seq<Text>)
    requires Retrieves(docs, metadata, parts) && Retrieves(docs, metadata, others)
    ensures parts <= others
  {
    if parts != [] {
      var n := |parts| - 1;
      assert Document(parts[n], metadata, n) in docs;
    }
    forall i | 0 <= i < |parts|
      ensures i < |others| && parts[i] == others[i]
    {
      assert Document(parts[i], metadata, i) in docs;
    }
  }

  /** Nothing but the documents themselves is needed to find the chunks. */
  lemma RetrievesOnlyOne(docs: seq<Document>, metadata: Metadata, parts: seq<Text>, others: seq<Text>)
    requires Retrieves(docs, metadata, parts) && Retrieves(docs, metadata, others)
    ensures parts == others
  {
    RetrievesPrefix(docs, metadata, parts, others);
    RetrievesPrefix(docs, metadata, others, parts);
  }

  lemma {:induction false} NoneCarries(payloads: seq<Payload>, metadata: Metadata, cfg: Config)
    requires cfg.Valid() && Loaded(payloads)
    requires forall j :: 0 <= j < |payloads| && !Blank(payloads[j]) ==> payloads[j].metadata != metadata
    ensures forall d :: d in Emit(payloads, cfg).docs ==> d.metadata != metadata
  {
    if payloads != [] {
      var p := payloads[0];
      NoneCarries(payloads[1..], metadata, cfg);
      if !Blank(p) && Chunked(p, cfg).Chunks? {
        ZipHas(Chunked(p, cfg).parts, p.metadata, 0);
      }
    }
  }

  lemma {:induction false} ZipAt(parts: seq<Text>, metadata: Metadata, from: nat, i: nat)
    requires i < |parts|
    ensures |ZipWithIndex(parts, metadata, from)| == |parts|
    ensures ZipWithIndex(parts, metadata, from)[i] == Document(parts[i], metadata, from + i)
  {
    ZipProperties(parts, metadata, from);
    if i > 0 {
      ZipAt(parts[1..], metadata, from + 1, i - 1);
    }
  }

  lemma ZipHas(parts: seq<Text>, metadata: Metadata, from: nat)
    ensures forall d :: d in ZipWithIndex(parts, metadata, from) <==>
              d.metadata == metadata && from <= d.chunkIndex < from + |parts| && parts[d.chunkIndex - from] == d.content
  {
    var docs := ZipWithIndex(parts, metadata, from);
    ZipProperties(parts, metadata, from);
    forall i | 0 <= i < |parts|
      ensures docs[i] == Document(parts[i], metadata, from + i)
    {
      ZipAt(parts, metadata, from, i);
    }
    forall d: Document
      ensures d in docs <==>
              d.metadata == metadata && from <= d.chunkIndex < from + |parts| && parts[d.chunkIndex - from] == d.content
    {
      if d.metadata == metadata && from <= d.chunkIndex < from + |parts| && parts[d.chunkIndex - from] == d.content {
        assert docs[d.chunkIndex - from] == d;
      }
    }
  }

  lemma {:induction false} EmissionRetrieves(payloads: seq<Payload>, k: nat, cfg: Config)
    requires cfg.Valid() && Loaded(payloads) && !Emit(payloads, cfg).threw && k < |payloads| && !Blank(payloads[k])
    requires forall j :: 0 <= j < |payloads| && j != k && !Blank(payloads[j]) ==> payloads[j].metadata != payloads[k].metadata
    ensures Chunked(payloads[k], cfg).Chunks?
    ensures Retrieves(Emit(payloads, cfg).docs, payloads[k].metadata, Chunked(payloads[k], cfg).parts)
  {
    var p, m := payloads[0], payloads[k].metadata;
    if k > 0 {
      EmissionRetrieves(payloads[1..], k - 1, cfg);
    } else {
      NoneCarries(payloads[1..], m, cfg);
    }
    if !Blank(p) {
      ZipHas(Chunked(p, cfg).parts, p.metadata, 0);
    }
  }

  /**
  After a reported success, a text is recoverable from the stored documents in whatever order they
  come back: if no other payload has its metadata, the documents with that metadata, by their chunk
  index, rebuild it if and only if it could be chunked.
   */
  lemma RecoverableInAnyOrder(payloads: seq<Payload>, works: nat -> bool, cfg: Config, k: nat)
    requires cfg.Valid() && Loaded(payloads) && k < |payloads| && !Blank(payloads[k])
    requires var r := StreamScrapeData(payloads, Complete, works, cfg); r.Done? && r.success
    requires forall j :: 0 <= j < |payloads| && j != k && !Blank(payloads[j]) ==> payloads[j].metadata != payloads[k].metadata
    ensures var stored := Stored(Attempted(payloads, Complete, true, cfg), works, 0);
      (exists parts: seq<Text> :: Retrieves(stored, payloads[k].metadata, parts)
                       && Rebuild(parts, cfg.overlap) == Normalised(payloads[k].rawContent))
      <==> Chunkable(payloads[k], cfg)
  {
    var p := payloads[k];
    var stored := Stored(Attempted(payloads, Complete, true, cfg), works, 0);
    ResponseIsRight(payloads, works, cfg);
    EmissionRetrieves(payloads, k, cfg);
    NormalisationProperties(p.rawContent);
    ChunkedOrDropped(p, cfg);
    var parts := Chunked(p, cfg).parts;
    assert Retrieves(stored, p.metadata, parts);
    forall others: seq<Text> | Retrieves(stored, p.metadata, others)
      ensures others == parts
    {
      RetrievesOnlyOne(stored, p.metadata, parts, others);
    }
  }

  /** With an overlap above the chunk size, a text longer than a chunk is lost and success is reported. */
  lemma SuccessCanHideLoss(p: Payload, works: nat -> bool, cfg: Config)
    requires cfg.Valid() && |p.rawContent| <= MAX_INT
    requires cfg.chunkSize < cfg.overlap && |Normalised(p.rawContent)| > cfg.chunkSize
    ensures StreamScrapeData([p], Complete, works, cfg) == Done(true, 0) && Texts([p]) != []
  {
    NormalisationProperties(p.rawContent);
    assert Emit([p], cfg) == EmitCons(p, Emit([p][1..], cfg), cfg);
  }

  /** With an overlap equal to the chunk size, such a text makes the chunker throw. */
  lemma EqualOverlapThrows(p: Payload, ending: Ending, works: nat -> bool, cfg: Config)
    requires cfg.Valid() && |p.rawContent| <= MAX_INT
    requires cfg.chunkSize == cfg.overlap && |Normalised(p.rawContent)| > cfg.chunkSize
    ensures StreamScrapeData([p], ending, works, cfg) == Defect
  {
    NormalisationProperties(p.rawContent);
    assert Emit([p], cfg) == EmitCons(p, Emit([p][1..], cfg), cfg);
  }
}
