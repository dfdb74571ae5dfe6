/**
The stores behind the life of a news document: the deduplicating collection and the vector index
of its chunks. The two stores are maps; the hash that names documents and the language
model's answers are parameters.
 */
module IntelStore {
  import opened Basics
  import opened Triage

  // ---- documents ----

  /** A title may be missing from the article, be null, or be a string. */
  datatype Title = Missing | Null | Text(text: string)

  /** An empty `url` stands for every falsy one; `dated` tells whether the publication date is valid. */
  datatype Article = Article(url: string, title: Title, description: string, dated: bool)

  /** An article and the moment it was fetched. */
  datatype Fetched = Fetched(article: Article, at: nat)

  type Analysis = string

  datatype LlmAnalysis = LlmAnalysis(analysis: Analysis, ragChunks: seq<string>)

  datatype Doc = Doc(
    url: string, title: string, rawText: string, ingestedAt: nat,
    riskScore: nat, priority: Priority, escalate: bool,
    llmProcessed: bool, llm: Option<LlmAnalysis>
  )

  type Collection = map<string, Doc>

  function FullText(a: Article): string {
    (match a.title case Missing => "" case Null => "None" case Text(t) => t) + " " + a.description
  }

  /** It has a URL, is not noise, and passes validation. */
  predicate Ingestible(a: Article) {
    a.url != "" && Risk(FullText(a)) != 0 && a.title != Null && a.dated
  }

  function NewDoc(f: Fetched): Doc {
    var score := Risk(FullText(f.article));
    Doc(f.article.url, if f.article.title.Text? then f.article.title.text else "", FullText(f.article), f.at,
        score, AssignPriority(score), ShouldEscalate(score), false, None)
  }

  // ---- ingestion ----

  /** An insert whose id is taken fails with a duplicate key and changes nothing. */
  function IngestOne(db: Collection, f: Fetched, hash: string -> string): Collection {
    if Ingestible(f.article) && hash(f.article.url) !in db then db[hash(f.article.url) := NewDoc(f)] else db
  }

  function Ingest(db: Collection, xs: seq<Fetched>, hash: string -> string): Collection
    decreases |xs|
  {
    if xs == [] then db else Ingest(IngestOne(db, xs[0], hash), xs[1..], hash)
  }

  // ---- which articles are stored, from their own fields ----

  /** A missing title counts as empty. */
  function TitleText(a: Article): string {
    if a.title.Text? then a.title.text else ""
  }

  predicate ArticleMentions(a: Article, word: string) {
    Mentions(TitleText(a), word) || Mentions(a.description, word)
  }

  /** The risk by what title and description mention, in any case. */
  function Level(a: Article): nat {
    LevelOf(word => ArticleMentions(a, word))
  }

  lemma ArticleMentionsIff(a: Article, word: string)
    requires a.title != Null && PlainWord(word) && word != ""
    ensures Mentions(FullText(a), word) <==> ArticleMentions(a, word)
  {
    MentionsApart(TitleText(a), a.description, word);
  }

  lemma LevelIsRisk(a: Article)
    requires a.title != Null
    ensures Risk(FullText(a)) == Level(a)
  {
    var full, parts := (word: string) => Mentions(FullText(a), word), (word: string) => ArticleMentions(a, word);
    RiskLevels(FullText(a));
    forall word: string | PlainWord(word) && word != ""
      ensures full(word) == parts(word)
    {
      ArticleMentionsIff(a, word);
    }
    LevelOfSame(full, parts);
  }

  /**
  An article is stored if and only if it has a URL, a valid date and a title that is not null, its id
  is free, and its title or its description mentions a keyword, in any case. What is stored then has
  the article's own fields, the level of its strongest keyword and the decisions that follow from it.
   */
  lemma StoredIff(db: Collection, f: Fetched, hash: string -> string)
    ensures var a, id, after := f.article, hash(f.article.url), IngestOne(db, f, hash);
      && (after != db <==> a.url != "" && a.dated && a.title != Null && id !in db && Level(a) > 0)
      && (after != db ==>
            && after.Keys == db.Keys + {id} && id !in db
            && (forall other :: other in db ==> after[other] == db[other])
            && after[id] == Doc(a.url, TitleText(a), TitleText(a) + " " + a.description, f.at,
                                Level(a), if Level(a) == 3 then Medium else High, true, false, None))
  {
    var a, id := f.article, hash(f.article.url);
    if a.title != Null {
      LevelIsRisk(a);
      TriageIsAllOrNothing(FullText(a));
    }
    if id !in db && Ingestible(a) {
      assert id in IngestOne(db, f, hash);
    }
  }

  /** The ids an ingestion of `xs` can write. */
  function IdsOf(xs: seq<Fetched>, hash: string -> string): set<string> {
    set i | 0 <= i < |xs| && Ingestible(xs[i].article) :: hash(xs[i].article.url)
  }

  /** Running over one list after the other is running over both. */
  lemma {:induction false} IngestConcat(db: Collection, xs: seq<Fetched>, ys: seq<Fetched>, hash: string -> string)
    ensures Ingest(db, xs + ys, hash) == Ingest(Ingest(db, xs, hash), ys, hash)
    decreases |xs|
  {
    if xs == [] {
      assert xs + ys == ys;
    } else {
      assert (xs + ys)[1..] == xs[1..] + ys;
      IngestConcat(IngestOne(db, xs[0], hash), xs[1..], ys, hash);
    }
  }

  /** The first writer wins: what is stored is never changed; and exactly the new ids are added. */
  lemma {:induction false} IngestAdds(db: Collection, xs: seq<Fetched>, hash: string -> string)
    ensures var after := Ingest(db, xs, hash);
      && (forall id :: id in db ==> id in after && after[id] == db[id])
      && after.Keys == db.Keys + IdsOf(xs, hash)
    decreases |xs|
  {
    if xs != [] {
      IngestAdds(IngestOne(db, xs[0], hash), xs[1..], hash);
      IdsOfSplit(xs, hash);
    }
  }

  lemma IdsOfSplit(xs: seq<Fetched>, hash: string -> string)
    requires xs != []
    ensures IdsOf(xs, hash) == IdsOf(xs[1..], hash) + (if Ingestible(xs[0].article) then {hash(xs[0].article.url)} else {})
  {
    var rest := IdsOf(xs[1..], hash);
    forall id | id in IdsOf(xs, hash)
      ensures id in rest || (Ingestible(xs[0].article) && id == hash(xs[0].article.url))
    {
      var i :| 0 <= i < |xs| && Ingestible(xs[i].article) && id == hash(xs[i].article.url);
      if i > 0 {
        assert xs[1..][i - 1] == xs[i];
      }
    }
    forall id | id in rest
      ensures id in IdsOf(xs, hash)
    {
      var i :| 0 <= i < |xs[1..]| && Ingestible(xs[1..][i].article) && id == hash(xs[1..][i].article.url);
      assert xs[i + 1] == xs[1..][i];
    }
  }

  /** Each article of `ys` is one of `xs`, whenever it was fetched. */
  ghost predicate SeenBefore(ys: seq<Fetched>, xs: seq<Fetched>) {
    forall j :: 0 <= j < |ys| ==> exists i :: 0 <= i < |xs| && xs[i].article == ys[j].article
  }

  lemma {:induction false} KnownAddNothing(db: Collection, ys: seq<Fetched>, hash: string -> string)
    requires IdsOf(ys, hash) <= db.Keys
    ensures Ingest(db, ys, hash) == db
  {
    if ys != [] {
      IdsOfSplit(ys, hash);
      KnownAddNothing(db, ys[1..], hash);
    }
  }

  /** Fetching known articles again changes nothing, in whatever state they are by then. */
  lemma IngestIsIdempotent(db: Collection, xs: seq<Fetched>, later: Collection, ys: seq<Fetched>, hash: string -> string)
    requires SeenBefore(ys, xs) && Ingest(db, xs, hash).Keys <= later.Keys
    ensures Ingest(later, ys, hash) == later
  {
    IngestAdds(db, xs, hash);
    forall id | id in IdsOf(ys, hash)
      ensures id in later.Keys
    {
      var j :| 0 <= j < |ys| && Ingestible(ys[j].article) && id == hash(ys[j].article.url);
      var i :| 0 <= i < |xs| && xs[i].article == ys[j].article;
      assert id in IdsOf(xs, hash);
    }
    KnownAddNothing(later, ys, hash);
  }

  /** What a cycle counts as new. */
  function NewCount(db: Collection, xs: seq<Fetched>, hash: string -> string): nat
    decreases |xs|
  {
    if xs == [] then 0
    else
      var isNew := Ingestible(xs[0].article) && hash(xs[0].article.url) !in db;
      (if isNew then 1 else 0) + NewCount(IngestOne(db, xs[0], hash), xs[1..], hash)
  }

  /** The count of a cycle is the growth of the collection. */
  lemma {:induction false} NewCountIsGrowth(db: Collection, xs: seq<Fetched>, hash: string -> string)
    ensures |Ingest(db, xs, hash)| == |db| + NewCount(db, xs, hash)
    decreases |xs|
  {
    if xs != [] {
      NewCountIsGrowth(IngestOne(db, xs[0], hash), xs[1..], hash);
    }
  }

  // ---- the vector index ----

  datatype Entry = Entry(document: string, source: string, title: string)

  type Index = map<string, Entry>

  const DIGITS := "0123456789"

  function Decimal(n: nat): string {
    if n < 10 then [DIGITS[n]] else Decimal(n / 10) + [DIGITS[n % 10]]
  }

  function ChunkId(docId: string, i: nat): string {
    docId + "-" + Decimal(i)
  }

  predicate NoDash(s: string) {
    forall k :: 0 <= k < |s| ==> s[k] != '-'
  }

  /** What makes chunk ids distinct: a hexadecimal digest contains no dash. */
  ghost predicate DigestLike(hash: string -> string) {
    forall url :: NoDash(hash(url))
  }

  lemma {:induction false} DecimalNoDash(n: nat)
    ensures NoDash(Decimal(n)) && Decimal(n) != ""
  {
    if n >= 10 {
      DecimalNoDash(n / 10);
    }
  }

  lemma DigitInjective(m: nat, n: nat)
    requires m < 10 && n < 10 && DIGITS[m] == DIGITS[n]
    ensures m == n
  {
    assert forall k :: 0 <= k < 10 ==> DIGITS[k] == '0' + k as char;
  }

  lemma {:induction false} DecimalInjective(m: nat, n: nat)
    requires Decimal(m) == Decimal(n)
    ensures m == n
  {
    DecimalNoDash(m / 10);
    DecimalNoDash(n / 10);
    var x, y := Decimal(m), Decimal(n);
    assert x[|x| - 1] == DIGITS[m % 10] && y[|y| - 1] == DIGITS[n % 10];
    DigitInjective(m % 10, n % 10);
    if m >= 10 && n >= 10 {
      assert Decimal(m / 10) == x[..|x| - 1] && Decimal(n / 10) == y[..|y| - 1];
      DecimalInjective(m / 10, n / 10);
    }
  }

  /** Where the first dash is, which is where the document id ends. */
  lemma FirstDash(d: string, rest: string, e: string, other: string)
    requires NoDash(d) && NoDash(e) && d + "-" + rest == e + "-" + other
    ensures |d| <= |e|
  {
    var x := d + "-" + rest;
    assert x[|e|] == '-';
    assert forall k :: 0 <= k < |d| ==> x[k] == d[k];
  }

  lemma ChunkIdInjective(d: string, i: nat, e: string, j: nat)
    requires NoDash(d) && NoDash(e) && ChunkId(d, i) == ChunkId(e, j)
    ensures d == e && i == j
  {
    var x := ChunkId(d, i);
    FirstDash(d, Decimal(i), e, Decimal(j));
    FirstDash(e, Decimal(j), d, Decimal(i));
    assert d == x[..|d|] == e;
    assert Decimal(i) == x[|d| + 1..] == Decimal(j);
    DecimalInjective(i, j);
  }

  /** Chunks 0, 1, ... of the document are written over whatever was there. */
  function UpsertRagChunks(index: Index, docId: string, chunks: seq<string>, source: string, title: string): Index {
    if chunks == [] then index
    else
      var n := |chunks| - 1;
      UpsertRagChunks(index, docId, chunks[..n], source, title)[ChunkId(docId, n) := Entry(chunks[n], source, title)]
  }

  /** The index holds exactly these chunks under the document's first ids. */
  ghost predicate Holds(index: Index, docId: string, chunks: seq<string>) {
    forall i :: 0 <= i < |chunks| ==> ChunkId(docId, i) in index && index[ChunkId(docId, i)].document == chunks[i]
  }

  /** One of the ids that `n` chunks of the document are written under. */
  ghost predicate IsChunkId(key: string, docId: string, n: nat) {
    exists i :: 0 <= i < n && key == ChunkId(docId, i)
  }

  /** An upsert writes every chunk with its source and title under its own id. */
  lemma {:induction false} UpsertWrites(index: Index, docId: string, chunks: seq<string>, source: string, title: string, i: nat)
    requires NoDash(docId) && i < |chunks|
    ensures var after := UpsertRagChunks(index, docId, chunks, source, title);
      ChunkId(docId, i) in after && after[ChunkId(docId, i)] == Entry(chunks[i], source, title)
  {
    var n := |chunks| - 1;
    if i < n {
      UpsertWrites(index, docId, chunks[..n], source, title, i);
      if ChunkId(docId, i) == ChunkId(docId, n) {
        ChunkIdInjective(docId, i, docId, n);
      }
    }
  }

  /** It touches no other id. */
  lemma {:induction false} UpsertLeaves(index: Index, docId: string, chunks: seq<string>, source: string, title: string, key: string)
    requires !IsChunkId(key, docId, |chunks|)
    ensures var after := UpsertRagChunks(index, docId, chunks, source, title);
      (key in after <==> key in index) && (key in after ==> after[key] == index[key])
  {
    if chunks != [] {
      var n := |chunks| - 1;
      assert key != ChunkId(docId, n);
      UpsertLeaves(index, docId, chunks[..n], source, title, key);
    }
  }

  /** An upsert writes exactly the given chunks and changes nothing else. */
  lemma UpsertIsExact(index: Index, docId: string, chunks: seq<string>, source: string, title: string)
    requires NoDash(docId)
    ensures var after := UpsertRagChunks(index, docId, chunks, source, title);
      && (forall i :: 0 <= i < |chunks| ==>
            ChunkId(docId, i) in after && after[ChunkId(docId, i)] == Entry(chunks[i], source, title))
      && (forall key :: !IsChunkId(key, docId, |chunks|) ==>
            (key in after <==> key in index) && (key in after ==> after[key] == index[key]))
  {
    forall i | 0 <= i < |chunks|
      ensures var after := UpsertRagChunks(index, docId, chunks, source, title);
        ChunkId(docId, i) in after && after[ChunkId(docId, i)] == Entry(chunks[i], source, title)
    {
      UpsertWrites(index, docId, chunks, source, title, i);
    }
    forall key | !IsChunkId(key, docId, |chunks|)
      ensures var after := UpsertRagChunks(index, docId, chunks, source, title);
        (key in after <==> key in index) && (key in after ==> after[key] == index[key])
    {
      UpsertLeaves(index, docId, chunks, source, title, key);
    }
  }

  lemma UpsertHolds(index: Index, docId: string, chunks: seq<string>, source: string, title: string)
    requires NoDash(docId)
    ensures Holds(UpsertRagChunks(index, docId, chunks, source, title), docId, chunks)
  {
    UpsertIsExact(index, docId, chunks, source, title);
  }

  /** The chunks of another document are there after an upsert exactly if they were before. */
  lemma UpsertKeepsOthers(index: Index, docId: string, chunks: seq<string>, source: string, title: string,
                          other: string, held: seq<string>)
    requires NoDash(docId) && NoDash(other) && docId != other
    ensures Holds(UpsertRagChunks(index, docId, chunks, source, title), other, held) <==> Holds(index, other, held)
  {
    UpsertIsExact(index, docId, chunks, source, title);
    forall i | 0 <= i < |held|
      ensures !IsChunkId(ChunkId(other, i), docId, |chunks|)
    {
      if j :| 0 <= j < |chunks| && ChunkId(other, i) == ChunkId(docId, j) {
        ChunkIdInjective(other, i, docId, j);
      }
    }
  }

  /** The index has no chunk of the document but the first `n`. */
  ghost predicate HasOnly(index: Index, docId: string, n: nat) {
    forall i: nat :: i >= n ==> ChunkId(docId, i) !in index
  }

  /** Chunks with higher numbers from an earlier upsert stay: the index has only the new ones exactly if it had no such chunk. */
  lemma UpsertHasOnlyIff(index: Index, docId: string, chunks: seq<string>, source: string, title: string)
    requires NoDash(docId)
    ensures HasOnly(UpsertRagChunks(index, docId, chunks, source, title), docId, |chunks|) <==> HasOnly(index, docId, |chunks|)
  {
    UpsertIsExact(index, docId, chunks, source, title);
    forall i: nat | i >= |chunks|
      ensures !IsChunkId(ChunkId(docId, i), docId, |chunks|)
    {
      if j :| 0 <= j < |chunks| && ChunkId(docId, i) == ChunkId(docId, j) {
        ChunkIdInjective(docId, i, docId, j);
      }
    }
  }
}
