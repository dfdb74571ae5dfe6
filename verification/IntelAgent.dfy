/** The ingestion cycle and the analysis runner as the loops they are, over the two stores. */
module IntelAgent {
  import opened Basics
  import opened Triage
  import opened IntelStore
  import opened Lifecycle

  /** The list yields each element of the set exactly once. */
  ghost predicate Enumerates(xs: seq<string>, s: set<string>) {
    && (forall k :: 0 <= k < |xs| ==> xs[k] in s)
    && (forall id :: id in s ==> id in xs)
    && (forall i, j :: 0 <= i < j < |xs| ==> xs[i] != xs[j])
  }

  /** What a run makes of a document it visits. */
  function Outcome(d: Doc, a: Answer): Doc {
    if a.analysis.None? then d else Marked(d, LlmAnalysis(a.analysis.value, ChunksOf(a)))
  }

  /** A failed analysis changes nothing; a successful one records its result and files the document as processed, no more. */
  lemma OutcomeIs(d: Doc, a: Answer)
    ensures a.analysis.None? ==> Outcome(d, a) == d
    ensures a.analysis.Some? ==>
      Outcome(d, a) == Doc(d.url, d.title, d.rawText, d.ingestedAt, d.riskScore, d.priority, false, true,
                           Some(LlmAnalysis(a.analysis.value, if a.chunks.Some? then a.chunks.value else [])))
  {
  }

  /** What the cursor has still to yield after `k` documents. */
  function Remaining(cursor: seq<string>, k: nat): set<string>
    requires k <= |cursor|
  {
    set id | id in cursor[k..]
  }

  lemma IngestSnoc(db: Collection, xs: seq<Fetched>, f: Fetched, hash: string -> string)
    ensures Ingest(db, xs + [f], hash) == IngestOne(Ingest(db, xs, hash), f, hash)
  {
    IngestConcat(db, xs, [f], hash);
    assert [f][1..] == [];
  }

  /** The documents when the first `n` of the cursor have been visited. */
  function Analysed(before: Collection, cursor: seq<string>, answer: nat -> Answer, n: nat): Collection
    requires n <= |cursor|
  {
    if n == 0 then before else
    var db, id := Analysed(before, cursor, answer, n - 1), cursor[n - 1];
    if id in db then db[id := Outcome(db[id], answer(n - 1))] else db
  }

  /** The first `n` documents of the cursor have their outcome, and nothing else has changed. */
  ghost predicate AnalysedUpTo(before: Collection, cursor: seq<string>, answer: nat -> Answer, n: nat, after: Collection) {
    && n <= |cursor|
    && after.Keys == before.Keys
    && (forall k :: 0 <= k < n && cursor[k] in before && cursor[k] in after ==>
          after[cursor[k]] == Outcome(before[cursor[k]], answer(k)))
    && (forall id :: id in before && id in after && id !in cursor[..n] ==> after[id] == before[id])
  }

  lemma {:induction false} AnalysedKeys(before: Collection, cursor: seq<string>, answer: nat -> Answer, n: nat)
    requires n <= |cursor|
    ensures Analysed(before, cursor, answer, n).Keys == before.Keys
  {
    if n > 0 {
      AnalysedKeys(before, cursor, answer, n - 1);
    }
  }

  lemma {:induction false} AnalysedOther(before: Collection, cursor: seq<string>, answer: nat -> Answer, n: nat, id: string)
    requires n <= |cursor| && id in before && forall k :: 0 <= k < n ==> cursor[k] != id
    ensures id in Analysed(before, cursor, answer, n) && Analysed(before, cursor, answer, n)[id] == before[id]
  {
    if n > 0 {
      AnalysedOther(before, cursor, answer, n - 1, id);
    }
  }

  lemma {:induction false} AnalysedVisited(before: Collection, cursor: seq<string>, answer: nat -> Answer, n: nat, k: nat)
    requires k < n <= |cursor| && cursor[k] in before
    requires forall i, j :: 0 <= i < j < |cursor| ==> cursor[i] != cursor[j]
    ensures var after := Analysed(before, cursor, answer, n);
      cursor[k] in after && after[cursor[k]] == Outcome(before[cursor[k]], answer(k))
  {
    if k < n - 1 {
      AnalysedVisited(before, cursor, answer, n - 1, k);
    } else {
      AnalysedOther(before, cursor, answer, k, cursor[k]);
    }
  }

  lemma AnalysedIs(before: Collection, cursor: seq<string>, answer: nat -> Answer, n: nat)
    requires Enumerates(cursor, MatchingIds(before)) && n <= |cursor|
    ensures AnalysedUpTo(before, cursor, answer, n, Analysed(before, cursor, answer, n))
  {
    var after := Analysed(before, cursor, answer, n);
    AnalysedKeys(before, cursor, answer, n);
    forall k | 0 <= k < n && cursor[k] in before
      ensures cursor[k] in after && after[cursor[k]] == Outcome(before[cursor[k]], answer(k))
    {
      AnalysedVisited(before, cursor, answer, n, k);
    }
    forall id | id in before && id !in cursor[..n]
      ensures id in after && after[id] == before[id]
    {
      assert forall k :: 0 <= k < n ==> cursor[..n][k] == cursor[k];
      AnalysedOther(before, cursor, answer, n, id);
    }
  }

  /** How many of the first `n` analyses succeeded. */
  function Succeeded(answer: nat -> Answer, n: nat): nat {
    if n == 0 then 0 else Succeeded(answer, n - 1) + if answer(n - 1).analysis.Some? then 1 else 0
  }

  /** After a run the documents still waiting are those whose analysis failed and those not reached. */
  lemma StillWaiting(before: Collection, cursor: seq<string>, answer: nat -> Answer, n: nat, after: Collection, id: string)
    requires Enumerates(cursor, MatchingIds(before)) && AnalysedUpTo(before, cursor, answer, n, after)
    ensures id in MatchingIds(after) <==>
            exists k :: 0 <= k < |cursor| && cursor[k] == id && (n <= k || answer(k).analysis.None?)
  {
    if id in MatchingIds(after) {
      assert id in before;
      if id !in cursor[..n] {
        assert id in MatchingIds(before);
        var k :| 0 <= k < |cursor| && cursor[k] == id;
        assert forall j :: 0 <= j < n ==> cursor[..n][j] == cursor[j];
      }
    }
    if k :| 0 <= k < |cursor| && cursor[k] == id && (n <= k || answer(k).analysis.None?) {
      assert cursor[k] in MatchingIds(before);
      if n <= k {
        assert id !in cursor[..n];
      }
    }
  }

  /** A run that reaches every document and fails on none leaves nothing for the next one. */
  lemma CompleteRunLeavesNothing(before: Collection, cursor: seq<string>, answer: nat -> Answer, after: Collection)
    requires Enumerates(cursor, MatchingIds(before)) && AnalysedUpTo(before, cursor, answer, |cursor|, after)
    ensures MatchingIds(after) == {} <==> forall k: nat :: k < |cursor| ==> answer(k).analysis.Some?
  {
    forall id
      ensures id in MatchingIds(after) <==>
              exists k :: 0 <= k < |cursor| && cursor[k] == id && (|cursor| <= k || answer(k).analysis.None?)
    {
      StillWaiting(before, cursor, answer, |cursor|, after, id);
    }
    if k: nat :| k < |cursor| && answer(k).analysis.None? {
      assert cursor[k] in MatchingIds(after);
    }
  }

  // ---- what a run leaves in the index ----

  /** The k-th document's chunks go to the index: its analysis succeeded and the index takes them. */
  predicate Written(answer: nat -> Answer, accepted: nat -> bool, k: nat) {
    answer(k).analysis.Some? && accepted(k)
  }

  /** The index when the first `n` documents of the cursor have been visited. */
  function IndexAfter(before: Collection, cursor: seq<string>, answer: nat -> Answer, accepted: nat -> bool, n: nat, index: Index): Index
    requires n <= |cursor| && forall k :: 0 <= k < |cursor| ==> cursor[k] in before
  {
    if n == 0 then index
    else
      var earlier, id := IndexAfter(before, cursor, answer, accepted, n - 1, index), cursor[n - 1];
      if Written(answer, accepted, n - 1)
      then UpsertRagChunks(earlier, id, ChunksOf(answer(n - 1)), before[id].url, before[id].title)
      else earlier
  }

  /**
  Each chunk of a document that was written is under its id, with the document's URL as source and
  its title; and no other entry of the index has changed.
   */
  ghost predicate IndexedUpTo(before: Collection, cursor: seq<string>, answer: nat -> Answer, accepted: nat -> bool, n: nat,
                              index: Index, after: Index)
  {
    && n <= |cursor|
    && (forall k, i :: 0 <= k < n && Written(answer, accepted, k) && 0 <= i < |ChunksOf(answer(k))| ==>
          && cursor[k] in before && ChunkId(cursor[k], i) in after
          && after[ChunkId(cursor[k], i)] == Entry(ChunksOf(answer(k))[i], before[cursor[k]].url, before[cursor[k]].title))
    && (forall key :: NotWritten(cursor, answer, accepted, n, key) ==>
          (key in after <==> key in index) && (key in after && key in index ==> after[key] == index[key]))
  }

  /** None of the first `n` documents is written under this key. */
  ghost predicate NotWritten(cursor: seq<string>, answer: nat -> Answer, accepted: nat -> bool, n: nat, key: string)
    requires n <= |cursor|
  {
    forall k :: 0 <= k < n && Written(answer, accepted, k) ==> !IsChunkId(key, cursor[k], |ChunksOf(answer(k))|)
  }

  lemma {:induction false} EntryStays(before: Collection, cursor: seq<string>, answer: nat -> Answer, accepted: nat -> bool,
                                      n: nat, index: Index, k: nat, i: nat)
    requires k < n <= |cursor| && (forall j :: 0 <= j < |cursor| ==> cursor[j] in before && NoDash(cursor[j]))
    requires forall j, l :: 0 <= j < l < |cursor| ==> cursor[j] != cursor[l]
    requires Written(answer, accepted, k) && i < |ChunksOf(answer(k))|
    ensures var after := IndexAfter(before, cursor, answer, accepted, n, index);
      ChunkId(cursor[k], i) in after
      && after[ChunkId(cursor[k], i)] == Entry(ChunksOf(answer(k))[i], before[cursor[k]].url, before[cursor[k]].title)
  {
    var earlier, id := IndexAfter(before, cursor, answer, accepted, n - 1, index), cursor[n - 1];
    UpsertIsExact(earlier, id, ChunksOf(answer(n - 1)), before[id].url, before[id].title);
    if k < n - 1 {
      EntryStays(before, cursor, answer, accepted, n - 1, index, k, i);
      OtherDocument(cursor[k], i, id, |ChunksOf(answer(n - 1))|);
    }
  }

  lemma OtherDocument(id: string, i: nat, other: string, n: nat)
    requires NoDash(id) && NoDash(other) && id != other
    ensures !IsChunkId(ChunkId(id, i), other, n)
  {
    if j :| 0 <= j < n && ChunkId(id, i) == ChunkId(other, j) {
      ChunkIdInjective(id, i, other, j);
    }
  }

  lemma {:induction false} OthersStay(before: Collection, cursor: seq<string>, answer: nat -> Answer, accepted: nat -> bool,
                                      n: nat, index: Index, key: string)
    requires n <= |cursor| && forall j :: 0 <= j < |cursor| ==> cursor[j] in before
    requires NotWritten(cursor, answer, accepted, n, key)
    ensures var after := IndexAfter(before, cursor, answer, accepted, n, index);
      (key in after <==> key in index) && (key in after ==> after[key] == index[key])
  {
    if n > 0 {
      var earlier, id := IndexAfter(before, cursor, answer, accepted, n - 1, index), cursor[n - 1];
      OthersStay(before, cursor, answer, accepted, n - 1, index, key);
      if Written(answer, accepted, n - 1) {
        UpsertLeaves(earlier, id, ChunksOf(answer(n - 1)), before[id].url, before[id].title, key);
      }
    }
  }

  lemma IndexAfterIs(before: Collection, cursor: seq<string>, answer: nat -> Answer, accepted: nat -> bool, n: nat, index: Index)
    requires n <= |cursor| && (forall j :: 0 <= j < |cursor| ==> cursor[j] in before && NoDash(cursor[j]))
    requires forall j, l :: 0 <= j < l < |cursor| ==> cursor[j] != cursor[l]
    ensures IndexedUpTo(before, cursor, answer, accepted, n, index, IndexAfter(before, cursor, answer, accepted, n, index))
  {
    var after := IndexAfter(before, cursor, answer, accepted, n, index);
    forall k, i | 0 <= k < n && Written(answer, accepted, k) && 0 <= i < |ChunksOf(answer(k))|
      ensures ChunkId(cursor[k], i) in after
      ensures after[ChunkId(cursor[k], i)] == Entry(ChunksOf(answer(k))[i], before[cursor[k]].url, before[cursor[k]].title)
    {
      EntryStays(before, cursor, answer, accepted, n, index, k, i);
    }
    forall key | NotWritten(cursor, answer, accepted, n, key)
      ensures (key in after <==> key in index) && (key in after ==> after[key] == index[key])
    {
      OthersStay(before, cursor, answer, accepted, n, index, key);
    }
  }

  lemma OutcomeGrows(db: Collection, id: string, a: Answer)
    requires id in MatchingIds(db)
    ensures |ProcessedIds(db[id := Outcome(db[id], a)])| == |ProcessedIds(db)| + if a.analysis.Some? then 1 else 0
  {
    var next := db[id := Outcome(db[id], a)];
    assert id !in ProcessedIds(db);
    assert ProcessedIds(next) == ProcessedIds(db) + if a.analysis.Some? then {id} else {};
  }

  /** Each success makes one more document processed. */
  lemma {:induction false} ProcessedGrow(before: Collection, cursor: seq<string>, answer: nat -> Answer, n: nat)
    requires Enumerates(cursor, MatchingIds(before)) && n <= |cursor|
    ensures |ProcessedIds(Analysed(before, cursor, answer, n))| == |ProcessedIds(before)| + Succeeded(answer, n)
  {
    if n > 0 {
      var db, id := Analysed(before, cursor, answer, n - 1), cursor[n - 1];
      ProcessedGrow(before, cursor, answer, n - 1);
      assert id in MatchingIds(before);
      AnalysedOther(before, cursor, answer, n - 1, id);
      OutcomeGrows(db, id, answer(n - 1));
    }
  }

  /** What a run leaves: who is processed, how many more that are, and what the index holds. */
  lemma RunLeaves(before: Collection, cursor: seq<string>, answer: nat -> Answer, accepted: nat -> bool, n: nat, index: Index)
    requires Enumerates(cursor, MatchingIds(before)) && n <= |cursor|
    requires forall k :: 0 <= k < |cursor| ==> cursor[k] in before
    ensures AnalysedUpTo(before, cursor, answer, n, Analysed(before, cursor, answer, n))
    ensures |ProcessedIds(Analysed(before, cursor, answer, n))| == |ProcessedIds(before)| + Succeeded(answer, n)
    ensures (forall k :: 0 <= k < |cursor| ==> NoDash(cursor[k])) ==>
              IndexedUpTo(before, cursor, answer, accepted, n, index, IndexAfter(before, cursor, answer, accepted, n, index))
  {
    AnalysedIs(before, cursor, answer, n);
    ProcessedGrow(before, cursor, answer, n);
    if forall k :: 0 <= k < |cursor| ==> NoDash(cursor[k]) {
      IndexAfterIs(before, cursor, answer, accepted, n, index);
    }
  }

  /** What the runner does for one document, as events. */
  function EventsOf(id: string, url: string, title: string, a: Answer, accepted: bool): seq<Event> {
    [Pick(id, url, title, a)] + if a.analysis.None? then [] else [Upsert(accepted), Mark]
  }

  /** What it does for the first `n` documents of the cursor. */
  function EventsUpTo(before: Collection, cursor: seq<string>, answer: nat -> Answer, accepted: nat -> bool, n: nat): seq<Event>
    requires n <= |cursor| && forall k :: 0 <= k < |cursor| ==> cursor[k] in before
  {
    if n == 0 then []
    else
      var doc := before[cursor[n - 1]];
      EventsUpTo(before, cursor, answer, accepted, n - 1)
      + EventsOf(cursor[n - 1], doc.url, doc.title, answer(n - 1), accepted(n - 1))
  }

  lemma {:induction false} AcceptedNeverFails(before: Collection, cursor: seq<string>, answer: nat -> Answer, accepted: nat -> bool, n: nat)
    requires n <= |cursor| && forall k :: 0 <= k < |cursor| ==> cursor[k] in before
    requires forall k: nat :: k < n ==> accepted(k)
    ensures IndexNeverFailed(EventsUpTo(before, cursor, answer, accepted, n))
  {
    if n > 0 {
      AcceptedNeverFails(before, cursor, answer, accepted, n - 1);
    }
  }

  /** If no upsert was ever refused, every processed document's chunks are in the index after a run. */
  lemma AcceptedRunAgrees(earlier: seq<Event>, before: Collection, cursor: seq<string>, answer: nat -> Answer,
                          accepted: nat -> bool, n: nat, s: State, hash: string -> string, id: string)
    requires DigestLike(hash) && IndexNeverFailed(earlier) && forall k: nat :: k < n ==> accepted(k)
    requires n <= |cursor| && forall k :: 0 <= k < |cursor| ==> cursor[k] in before
    requires Runs(EMPTY, earlier + [StartRun] + EventsUpTo(before, cursor, answer, accepted, n) + [StopRun], s, hash)
    requires id in s.db && s.db[id].llmProcessed
    ensures s.db[id].llm.Some? && Holds(s.index, id, s.db[id].llm.value.ragChunks)
  {
    AcceptedNeverFails(before, cursor, answer, accepted, n);
    IndexAgreement(earlier + [StartRun] + EventsUpTo(before, cursor, answer, accepted, n) + [StopRun], s, hash, id);
  }

  class IntelAgent {
    const hash: string -> string
    var db: Collection
    var index: Index
    var runner: Runner
    ghost var history: seq<Event>

    ghost function Now(): State
      reads this
    {
      State(db, index, runner)
    }

    /** The stores are what the events so far have made of them. */
    ghost predicate Valid()
      reads this
    {
      Runs(EMPTY, history, Now(), hash)
    }

    constructor (hash: string -> string)
      ensures Valid() && this.hash == hash && Now() == EMPTY && history == []
    {
      this.hash := hash;
      db, index, runner, history := map[], map[], Resting, [];
    }

    /** Insert the article unless it is noise, invalid or known. */
    method IngestArticle(f: Fetched) returns (isNew: bool)
      requires Valid()
      modifies this`db, this`history
      ensures Valid() && history == old(history) + [Fetch(f)]
      ensures db == IngestOne(old(db), f, hash) && |db| == |old(db)| + (if isNew then 1 else 0)
    {
      RunsSnoc(EMPTY, history, Now(), Fetch(f), hash);
      history := history + [Fetch(f)];
      var a := f.article;
      if a.url == "" {
        return false;
      }
      var score := CalculateIntelRisk(FullText(a));
      if score == 0 {
        return false;
      }
      if a.title == Null || !a.dated {
        return false;      // fails validation
      }
      var doc := Doc(a.url, if a.title.Text? then a.title.text else "", FullText(a), f.at,
                     score, AssignPriority(score), ShouldEscalate(score), false, None);
      if hash(a.url) in db {
        return false;      // duplicate key
      }
      db := db[hash(a.url) := doc];
      isNew := true;
    }

    method RunIngestionCycle(articles: seq<Fetched>) returns (newCount: nat)
      requires Valid()
      modifies this`db, this`history
      ensures Valid() && db == Ingest(old(db), articles, hash)
      ensures |db| == |old(db)| + newCount
    {
      newCount := 0;
      for k := 0 to |articles|
        invariant Valid() && db == Ingest(old(db), articles[..k], hash)
        invariant |db| == |old(db)| + newCount
      {
        assert articles[..k + 1] == articles[..k] + [articles[k]];
        IngestSnoc(old(db), articles[..k], articles[k], hash);
        var isNew := IngestArticle(articles[k]);
        if isNew {
          newCount := newCount + 1;
        }
      }
      assert articles[..|articles|] == articles;
    }

    /** Write the chunks under the ids doc-0, doc-1, ...; a refusal is only logged. */
    method UpsertChunks(docId: string, chunks: seq<string>, source: string, title: string, accepted: bool)
      modifies this`index
      ensures index == if accepted then UpsertRagChunks(old(index), docId, chunks, source, title) else old(index)
    {
      if chunks == [] || !accepted {
        return;
      }
      for i := 0 to |chunks|
        invariant index == UpsertRagChunks(old(index), docId, chunks[..i], source, title)
      {
        assert chunks[..i + 1][..i] == chunks[..i];
        index := index[ChunkId(docId, i) := Entry(chunks[i], source, title)];
      }
      assert chunks[..|chunks|] == chunks;
    }

    /**
    Analyse one document that the cursor yielded with this URL and title, index its chunks and
    mark it. If it has expired since, there is nothing to mark, but its chunks are indexed.
     */
    method ProcessOne(id: string, url: string, title: string, a: Answer, accepted: bool) returns (ok: bool)
      requires Valid() && runner.Scanning? && id in runner.cursor
      modifies this
      ensures Valid() && history == old(history) + EventsOf(id, url, title, a, accepted)
      ensures ok == a.analysis.Some? && runner == Scanning(old(runner.cursor) - {id})
      ensures db == if id in old(db) then old(db)[id := Outcome(old(db[id]), a)] else old(db)
      ensures index == if ok && accepted then UpsertRagChunks(old(index), id, ChunksOf(a), url, title) else old(index)
    {
      var rest := runner.cursor - {id};
      ghost var pick := Pick(id, url, title, a);
      RunsSnoc(EMPTY, history, Now(), pick, hash);
      history := history + [pick];
      if a.analysis.None? {
        runner := Scanning(rest);
        return false;
      }
      var llm := LlmAnalysis(a.analysis.value, ChunksOf(a));
      runner := Prepared(rest, id, llm, url, title);
      RunsSnoc(EMPTY, history, Now(), Upsert(accepted), hash);
      history := history + [Upsert(accepted)];
      UpsertChunks(id, llm.ragChunks, url, title, accepted);
      runner := Indexed(rest, id, llm);
      RunsSnoc(EMPTY, history, Now(), Mark, hash);
      history := history + [Mark];
      db := MarkAsProcessed(db, id, llm);
      runner := Scanning(rest);
      ok := true;
    }

    /** The query is sent, or the run ends. */
    method Turn(e: Event)
      requires Valid() && ((e == StartRun && runner.Resting?) || (e == StopRun && !runner.Resting?))
      modifies this`runner, this`history
      ensures Valid() && runner == (if e == StartRun then Scanning(MatchingIds(db)) else Resting) && history == old(history) + [e]
    {
      RunsSnoc(EMPTY, history, Now(), e, hash);
      history := history + [e];
      runner := if e == StartRun then Scanning(MatchingIds(db)) else Resting;
    }

    /** The k-th document of the cursor, when the ones before it are done. */
    method Visit(ghost start: seq<Event>, ghost first: Index, ghost before: Collection, cursor: seq<string>, k: nat,
                 answer: nat -> Answer, accepted: nat -> bool)
      returns (ok: bool)
      requires Valid() && k < |cursor| && runner == Scanning(Remaining(cursor, k))
      requires Enumerates(cursor, MatchingIds(before)) && db == Analysed(before, cursor, answer, k)
      requires forall j :: 0 <= j < |cursor| ==> cursor[j] in before
      requires history == start + EventsUpTo(before, cursor, answer, accepted, k)
      requires index == IndexAfter(before, cursor, answer, accepted, k, first)
      modifies this
      ensures Valid() && runner == Scanning(Remaining(cursor, k + 1))
      ensures db == Analysed(before, cursor, answer, k + 1)
      ensures Succeeded(answer, k + 1) == Succeeded(answer, k) + (if ok then 1 else 0)
      ensures history == start + EventsUpTo(before, cursor, answer, accepted, k + 1)
      ensures index == IndexAfter(before, cursor, answer, accepted, k + 1, first)
    {
      AnalysedOther(before, cursor, answer, k, cursor[k]);
      ok := ProcessOne(cursor[k], db[cursor[k]].url, db[cursor[k]].title, answer(k), accepted(k));
    }

    /** Go through the cursor until it is exhausted or the shutdown is noticed. */
    method Scan(ghost before: Collection, cursor: seq<string>, answer: nat -> Answer, accepted: nat -> bool, shutdownAt: nat)
      returns (processed: nat, failed: nat, ghost visited: nat)
      requires Valid() && runner == Scanning(Remaining(cursor, 0))
      requires Enumerates(cursor, MatchingIds(before)) && db == before
      requires forall k :: 0 <= k < |cursor| ==> cursor[k] in before
      modifies this
      ensures Valid() && runner.Scanning?
      ensures visited == (if shutdownAt < |cursor| then shutdownAt else |cursor|)
      ensures processed + failed == visited && processed == Succeeded(answer, visited)
      ensures db == Analysed(before, cursor, answer, visited)
      ensures history == old(history) + EventsUpTo(before, cursor, answer, accepted, visited)
      ensures index == IndexAfter(before, cursor, answer, accepted, visited, old(index))
    {
      processed, failed, visited := 0, 0, 0;
      ghost var start, first := history, index;
      for k := 0 to |cursor|
        invariant visited == k <= shutdownAt && Valid()
        invariant processed + failed == k && processed == Succeeded(answer, k)
        invariant runner == Scanning(Remaining(cursor, k))
        invariant db == Analysed(before, cursor, answer, k)
        invariant history == start + EventsUpTo(before, cursor, answer, accepted, k)
        invariant index == IndexAfter(before, cursor, answer, accepted, k, first)
      {
        if k == shutdownAt {
          break;
        }
        var ok := Visit(start, first, before, cursor, k, answer, accepted);
        processed, failed := if ok then processed + 1 else processed, if ok then failed else failed + 1;
        visited := k + 1;
      }
    }

    /**
    One run of the analysis. `cursor` lists the documents of the query, `answer(k)` is what the
    model returns for the k-th, `accepted(k)` whether the index takes its chunks, and a shutdown
    is noticed before document `shutdownAt`.
     */
    method RunAnalysisPipeline(cursor: seq<string>, answer: nat -> Answer, accepted: nat -> bool, shutdownAt: nat)
      returns (processed: nat, failed: nat, ghost visited: nat)
      requires Valid() && runner.Resting? && Enumerates(cursor, MatchingIds(db))
      modifies this
      ensures Valid() && runner.Resting?
      ensures visited == (if shutdownAt < |cursor| then shutdownAt else |cursor|)
      ensures processed + failed == visited && processed == Succeeded(answer, visited)
      ensures AnalysedUpTo(old(db), cursor, answer, visited, db)
      ensures forall k :: 0 <= k < |cursor| ==> cursor[k] in old(db)
      ensures history == old(history) + [StartRun] + EventsUpTo(old(db), cursor, answer, accepted, visited) + [StopRun]
      ensures |ProcessedIds(db)| == |ProcessedIds(old(db))| + processed
      ensures (forall k :: 0 <= k < |cursor| ==> NoDash(cursor[k])) ==>
                IndexedUpTo(old(db), cursor, answer, accepted, visited, old(index), index)
    {
      assert forall k :: 0 <= k < |cursor| ==> cursor[k] in MatchingIds(db);
      Turn(StartRun);
      processed, failed, visited := Scan(old(db), cursor, answer, accepted, shutdownAt);
      RunLeaves(old(db), cursor, answer, accepted, visited, old(index));
      Turn(StopRun);
    }
  }
}
