/**
The whole life cycle: ingestion, expiry, the analysis runner with crashes between its writes,
and the dashboard's counts, over every interleaving.
 */
module Lifecycle {
  import opened Basics
  import opened Triage
  import opened IntelStore

  /** What the two language-model stages return for a document. */
  datatype Answer = Answer(analysis: Option<Analysis>, chunks: Option<seq<string>>)

  /** The runner between its database operations; `cursor` are the ids its query still has to yield. */
  datatype Runner =
    | Resting
    | Scanning(cursor: set<string>)
    | Prepared(cursor: set<string>, id: string, llm: LlmAnalysis, source: string, title: string)
    | Indexed(cursor: set<string>, id: string, llm: LlmAnalysis)

  datatype State = State(db: Collection, index: Index, runner: Runner)

  const EMPTY := State(map[], map[], Resting)

  datatype Event =
    | Fetch(fetched: Fetched)
    | Expire(id: string)
    | StartRun
    | Pick(id: string, source: string, title: string, answer: Answer)
    | Upsert(accepted: bool)
    | Mark
    | StopRun             // the cursor is exhausted, a shutdown was requested, or the process crashed

  /** The runner's query. */
  predicate Matches(d: Doc) {
    d.escalate && !d.llmProcessed
  }

  function MatchingIds(db: Collection): set<string> {
    set id | id in db && Matches(db[id])
  }

  /** `rag_chunks or []` */
  function ChunksOf(a: Answer): seq<string> {
    if a.chunks.Some? then a.chunks.value else []
  }

  function Marked(d: Doc, llm: LlmAnalysis): Doc {
    d.(llm := Some(llm), llmProcessed := true, escalate := false)
  }

  /** `update_one`: a document that is no longer there is not written. */
  function MarkAsProcessed(db: Collection, id: string, llm: LlmAnalysis): Collection {
    if id in db then db[id := Marked(db[id], llm)] else db
  }

  predicate Possible(s: State, e: Event) {
    match e
    case Fetch(_) | Expire(_) => true
    case StartRun => s.runner.Resting?
    // the cursor may yield a document that has expired since, or one that came in since
    case Pick(id, _, _, _) => s.runner.Scanning? && (id in s.runner.cursor || id in MatchingIds(s.db))
    case Upsert(_) => s.runner.Prepared?
    case Mark => s.runner.Indexed?
    case StopRun => !s.runner.Resting?
  }

  function Step(s: State, e: Event, hash: string -> string): State
    requires Possible(s, e)
  {
    match e
    case Fetch(fetched) => s.(db := IngestOne(s.db, fetched, hash))
    case Expire(id) => s.(db := s.db - {id})
    case StartRun => s.(runner := Scanning(MatchingIds(s.db)))
    case Pick(id, source, title, answer) =>
      var cursor := s.runner.cursor - {id};
      if answer.analysis.None? then s.(runner := Scanning(cursor))
      else s.(runner := Prepared(cursor, id, LlmAnalysis(answer.analysis.value, ChunksOf(answer)), source, title))
    case Upsert(accepted) =>
      var r := s.runner;
      State(s.db,
            if accepted then UpsertRagChunks(s.index, r.id, r.llm.ragChunks, r.source, r.title) else s.index,
            Indexed(r.cursor, r.id, r.llm))
    case Mark => State(MarkAsProcessed(s.db, s.runner.id, s.runner.llm), s.index, Scanning(s.runner.cursor))
    case StopRun => s.(runner := Resting)
  }

  ghost predicate Runs(s: State, events: seq<Event>, t: State, hash: string -> string)
    decreases |events|
  {
    if events == [] then s == t else Possible(s, events[0]) && Runs(Step(s, events[0], hash), events[1..], t, hash)
  }

  /** No upsert was refused. */
  predicate IndexNeverFailed(events: seq<Event>) {
    forall k :: 0 <= k < |events| ==> events[k] != Upsert(false)
  }

  // ---- invariants ----

  /** A document is either waiting for analysis or processed, never both and never neither, and its score is a risk. */
  predicate WellFiled(d: Doc) {
    && (d.escalate <==> !d.llmProcessed)
    && (d.llmProcessed <==> d.llm.Some?)
    && 3 <= d.riskScore <= 5
    && d.priority == (if d.riskScore == 3 then Medium else High)
  }

  ghost predicate Filed(s: State) {
    forall id :: id in s.db ==> WellFiled(s.db[id]) && NoDash(id)
  }

  /** The ids the runner is about to process. */
  function InHand(r: Runner): set<string> {
    match r
    case Resting => {}
    case Scanning(cursor) => cursor
    case Prepared(cursor, id, _, _, _) => cursor + {id}
    case Indexed(cursor, id, _) => cursor + {id}
  }

  /** With a single runner, nothing it still has in hand is processed yet. */
  ghost predicate RunnerConsistent(s: State) {
    && (forall id :: id in InHand(s.runner) ==> NoDash(id) && (id in s.db ==> !s.db[id].llmProcessed))
    && (s.runner.Prepared? || s.runner.Indexed? ==> s.runner.id !in s.runner.cursor)
  }

  /** Every processed document's chunks are in the index. */
  ghost predicate IndexAgrees(s: State) {
    && (forall id :: id in s.db && s.db[id].llm.Some? ==> Holds(s.index, id, s.db[id].llm.value.ragChunks))
    && (s.runner.Indexed? ==> Holds(s.index, s.runner.id, s.runner.llm.ragChunks))
  }

  lemma StepKeepsFiled(s: State, e: Event, hash: string -> string)
    requires DigestLike(hash) && Filed(s) && RunnerConsistent(s) && Possible(s, e)
    ensures Filed(Step(s, e, hash)) && RunnerConsistent(Step(s, e, hash))
  {
  }

  lemma UpsertKeepsAgreement(s: State, hash: string -> string)
    requires Filed(s) && RunnerConsistent(s) && IndexAgrees(s) && s.runner.Prepared?
    ensures IndexAgrees(Step(s, Upsert(true), hash))
  {
    var r := s.runner;
    UpsertHolds(s.index, r.id, r.llm.ragChunks, r.source, r.title);
    forall id | id in s.db && s.db[id].llm.Some?
      ensures Holds(Step(s, Upsert(true), hash).index, id, s.db[id].llm.value.ragChunks)
    {
      assert id != r.id;
      UpsertKeepsOthers(s.index, r.id, r.llm.ragChunks, r.source, r.title, id, s.db[id].llm.value.ragChunks);
    }
  }

  lemma StepKeepsAgreement(s: State, e: Event, hash: string -> string)
    requires Filed(s) && RunnerConsistent(s) && IndexAgrees(s) && Possible(s, e) && e != Upsert(false)
    ensures IndexAgrees(Step(s, e, hash))
  {
    if e.Upsert? {
      UpsertKeepsAgreement(s, hash);
    }
  }

  lemma {:induction false} RunKeeps(s: State, events: seq<Event>, t: State, hash: string -> string)
    requires DigestLike(hash) && Filed(s) && RunnerConsistent(s) && Runs(s, events, t, hash)
    ensures Filed(t) && RunnerConsistent(t)
    ensures IndexAgrees(s) && IndexNeverFailed(events) ==> IndexAgrees(t)
    decreases |events|
  {
    if events != [] {
      StepKeepsFiled(s, events[0], hash);
      if IndexAgrees(s) && events[0] != Upsert(false) {
        StepKeepsAgreement(s, events[0], hash);
      }
      RunKeeps(Step(s, events[0], hash), events[1..], t, hash);
    }
  }

  /**
  In every run without a refused upsert, expiries and crashes included, every processed document's
  recorded chunks are in the index under the document's ids.
   */
  lemma IndexAgreement(events: seq<Event>, s: State, hash: string -> string, id: string)
    requires DigestLike(hash) && Runs(EMPTY, events, s, hash) && IndexNeverFailed(events)
    requires id in s.db && s.db[id].llmProcessed
    ensures s.db[id].llm.Some? && Holds(s.index, id, s.db[id].llm.value.ragChunks)
  {
    RunKeeps(EMPTY, events, s, hash);
  }

  /**
  A refused upsert is only logged, and the document is marked processed all the same. Its chunks
  are then in the index exactly if the upsert was accepted or they had been there before.
   */
  lemma AgreementAfterProcessing(s: State, accepted: bool, hash: string -> string)
    requires Filed(s) && RunnerConsistent(s) && s.runner.Prepared? && s.runner.id in s.db
    ensures var r := s.runner;
      var t := Step(Step(s, Upsert(accepted), hash), Mark, hash);
      && t.db[r.id].llmProcessed && t.db[r.id].llm == Some(r.llm)
      && (Holds(t.index, r.id, r.llm.ragChunks) <==> accepted || Holds(s.index, r.id, r.llm.ragChunks))
  {
    var r := s.runner;
    UpsertHolds(s.index, r.id, r.llm.ragChunks, r.source, r.title);
  }

  /** Everything but the record of the analysis is the same. */
  predicate SameContent(d: Doc, e: Doc) {
    && d.url == e.url && d.title == e.title && d.rawText == e.rawText && d.ingestedAt == e.ingestedAt
    && d.riskScore == e.riskScore && d.priority == e.priority
  }

  predicate NotExpired(events: seq<Event>, id: string) {
    forall k :: 0 <= k < |events| ==> events[k] != Expire(id)
  }

  /** The first writer wins for good: as long as a document is stored, what was ingested is never changed. */
  lemma {:induction false} ContentNeverChanges(s: State, events: seq<Event>, t: State, hash: string -> string, id: string)
    requires Runs(s, events, t, hash) && NotExpired(events, id) && id in s.db
    ensures id in t.db && SameContent(s.db[id], t.db[id])
    ensures s.db[id].llmProcessed ==> t.db[id].llmProcessed
    decreases |events|
  {
    if events != [] {
      ContentNeverChanges(Step(s, events[0], hash), events[1..], t, hash, id);
    }
  }

  /** Whatever happens to other documents, a processed one is not touched, nor are its chunks. */
  lemma StepKeepsProcessed(s: State, e: Event, hash: string -> string, id: string)
    requires Filed(s) && RunnerConsistent(s) && Possible(s, e) && e != Expire(id)
    requires id in s.db && s.db[id].llm.Some?
    ensures var t := Step(s, e, hash);
      && id in t.db && t.db[id] == s.db[id]
      && (Holds(t.index, id, s.db[id].llm.value.ragChunks) <==> Holds(s.index, id, s.db[id].llm.value.ragChunks))
  {
    if e == Upsert(true) {
      var r := s.runner;
      assert r.id in InHand(r);
      UpsertKeepsOthers(s.index, r.id, r.llm.ragChunks, r.source, r.title, id, s.db[id].llm.value.ragChunks);
    }
  }

  lemma {:induction false} RunKeepsProcessed(s: State, events: seq<Event>, t: State, hash: string -> string, id: string)
    requires DigestLike(hash) && Filed(s) && RunnerConsistent(s) && Runs(s, events, t, hash) && NotExpired(events, id)
    requires id in s.db && s.db[id].llm.Some?
    ensures id in t.db && t.db[id] == s.db[id]
    ensures Holds(t.index, id, s.db[id].llm.value.ragChunks) <==> Holds(s.index, id, s.db[id].llm.value.ragChunks)
    decreases |events|
  {
    if events != [] {
      StepKeepsFiled(s, events[0], hash);
      StepKeepsProcessed(s, events[0], hash, id);
      RunKeepsProcessed(Step(s, events[0], hash), events[1..], t, hash, id);
    }
  }

  /** What happens between the upsert and the mark of one document. */
  predicate BeforeMark(events: seq<Event>, id: string) {
    forall k :: 0 <= k < |events| ==> !events[k].Mark? && !events[k].StopRun? && events[k] != Expire(id)
  }

  lemma {:induction false} UntilMark(s: State, events: seq<Event>, t: State, hash: string -> string)
    requires s.runner.Indexed? && s.runner.id in s.db && Runs(s, events, t, hash) && BeforeMark(events, s.runner.id)
    ensures t.runner == s.runner && t.index == s.index && s.runner.id in t.db
    decreases |events|
  {
    if events != [] {
      UntilMark(Step(s, events[0], hash), events[1..], t, hash);
    }
  }

  /**
  In every run and for each document: from its mark until it expires, its recorded chunks are in
  the index if and only if its own upsert was accepted or they had been there before, whatever
  else happens and whichever other upserts are refused.
   */
  lemma IndexAgreementIff(before: seq<Event>, s: State, accepted: bool, between: seq<Event>, u: State,
                          after: seq<Event>, t: State, hash: string -> string)
    requires DigestLike(hash) && Runs(EMPTY, before, s, hash) && s.runner.Prepared? && s.runner.id in s.db
    requires Runs(Step(s, Upsert(accepted), hash), between, u, hash) && BeforeMark(between, s.runner.id) && Possible(u, Mark)
    requires Runs(Step(u, Mark, hash), after, t, hash) && NotExpired(after, s.runner.id)
    ensures var r := s.runner;
      && r.id in t.db && t.db[r.id].llmProcessed && t.db[r.id].llm == Some(r.llm)
      && (Holds(t.index, r.id, r.llm.ragChunks) <==> accepted || Holds(s.index, r.id, r.llm.ragChunks))
  {
    var r, m := s.runner, Step(s, Upsert(accepted), hash);
    RunKeeps(EMPTY, before, s, hash);
    StepKeepsFiled(s, Upsert(accepted), hash);
    UntilMark(m, between, u, hash);
    RunKeeps(m, between, u, hash);
    StepKeepsFiled(u, Mark, hash);
    assert r.id in InHand(r);
    UpsertHolds(s.index, r.id, r.llm.ragChunks, r.source, r.title);
    RunKeepsProcessed(Step(u, Mark, hash), after, t, hash, r.id);
    RunKeeps(Step(u, Mark, hash), after, t, hash);
  }

  const RISKY := Article("u", Text("fire"), "", true)

  lemma RiskyIsIngestible()
    ensures Ingestible(RISKY)
  {
    var text := FullText(RISKY);
    assert text == "fire ";
    assert text[1..] == "ire " && text[2..] == "re " && text[3..] == "e " && text[4..] == " ";
    assert Lower(" ") == " " + Lower(" "[1..]);
    assert Lower(text[4..]) == " ";
    assert text[3..][1..] == text[4..] && Lower(text[3..]) == "e ";
    assert text[2..][1..] == text[3..] && Lower(text[2..]) == "re ";
    assert text[1..][1..] == text[2..] && Lower(text[1..]) == "ire ";
    assert Lower(text) == "fire ";
    assert OccursAt("fire", Lower(text), 0);
    assert Hit(text, 0);
    RiskValues(text);
  }

  lemma RunsSnoc(s: State, events: seq<Event>, t: State, e: Event, hash: string -> string)
    requires Runs(s, events, t, hash) && Possible(t, e)
    ensures Runs(s, events + [e], Step(t, e, hash), hash)
    decreases |events|
  {
    if events == [] {
      var u := Step(t, e, hash);
      assert events + [e] == [e] && [e][1..] == [] && Runs(u, [], u, hash);
    } else {
      assert (events + [e])[1..] == events[1..] + [e];
      RunsSnoc(Step(s, events[0], hash), events[1..], t, e, hash);
    }
  }

  /** A run up to the point where one document's chunks are to be indexed. */
  lemma PrepareOne(hash: string -> string) returns (events: seq<Event>, s: State)
    ensures Runs(EMPTY, events, s, hash) && s.index == map[] && s.runner.Prepared?
    ensures s.runner.id in s.db && s.runner.llm.ragChunks == ["chunk"]
    ensures s.db.Keys == {s.runner.id} && s.db[s.runner.id].escalate
  {
    RiskyIsIngestible();
    var id := hash("u");
    var fetch, pick := Fetch(Fetched(RISKY, 0)), Pick(id, "u", "fire", Answer(Some("analysis"), Some(["chunk"])));
    var a := Step(EMPTY, fetch, hash);
    var b := Step(a, StartRun, hash);
    assert Matches(a.db[id]) by {
      RiskValues(FullText(RISKY));
    }
    assert Runs(EMPTY, [], EMPTY, hash);
    RunsSnoc(EMPTY, [], EMPTY, fetch, hash);
    RunsSnoc(EMPTY, [] + [fetch], a, StartRun, hash);
    RunsSnoc(EMPTY, [] + [fetch] + [StartRun], b, pick, hash);
    events, s := [] + [fetch] + [StartRun] + [pick], Step(b, pick, hash);
  }

  /** Without the assumption on the index the agreement fails: one refused upsert is enough. */
  lemma RefusedUpsertIsLost(hash: string -> string)
    ensures exists events, s, id :: Runs(EMPTY, events, s, hash) && id in s.db && s.db[id].llm.Some?
              && !Holds(s.index, id, s.db[id].llm.value.ragChunks)
  {
    var events, s := PrepareOne(hash);
    var t := Step(s, Upsert(false), hash);
    RunsSnoc(EMPTY, events, s, Upsert(false), hash);
    RunsSnoc(EMPTY, events + [Upsert(false)], t, Mark, hash);
    var u := Step(t, Mark, hash);
    var id := s.runner.id;
    assert ChunkId(id, 0) !in u.index;
    assert Runs(EMPTY, events + [Upsert(false)] + [Mark], u, hash) && id in u.db && u.db[id].llm.Some?
      && !Holds(u.index, id, u.db[id].llm.value.ragChunks);
  }

  /** Ingest the article, analyse it and index the chunks, when it is not stored. */
  lemma ProcessRisky(events: seq<Event>, s: State, chunks: seq<string>, hash: string -> string) returns (longer: seq<Event>, t: State)
    requires Runs(EMPTY, events, s, hash) && s.runner.Resting? && hash("u") !in s.db
    ensures Runs(EMPTY, longer, t, hash) && t.runner.Resting? && hash("u") in t.db
    ensures t.db[hash("u")].llm == Some(LlmAnalysis("analysis", chunks))
    ensures t.index == UpsertRagChunks(s.index, hash("u"), chunks, "u", "fire")
  {
    RiskyIsIngestible();
    longer, t := Then(events, s, Fetch(Fetched(RISKY, 0)), hash);
    assert Matches(t.db[hash("u")]) by {
      RiskValues(FullText(RISKY));
    }
    longer, t := Then(longer, t, StartRun, hash);
    longer, t := Then(longer, t, Pick(hash("u"), "u", "fire", Answer(Some("analysis"), Some(chunks))), hash);
    longer, t := Then(longer, t, Upsert(true), hash);
    longer, t := Then(longer, t, Mark, hash);
    longer, t := Then(longer, t, StopRun, hash);
  }

  lemma Then(events: seq<Event>, s: State, e: Event, hash: string -> string) returns (longer: seq<Event>, t: State)
    requires Runs(EMPTY, events, s, hash) && Possible(s, e)
    ensures Runs(EMPTY, longer, t, hash) && t == Step(s, e, hash)
  {
    RunsSnoc(EMPTY, events, s, e, hash);
    longer, t := events + [e], Step(s, e, hash);
  }

  /** A document that expires and comes back with fewer chunks leaves an old chunk in the index that it does not record. */
  lemma OldChunkRemains(hash: string -> string)
    requires DigestLike(hash)
    ensures exists events, s, id :: Runs(EMPTY, events, s, hash) && id in s.db && s.db[id].llm.Some?
              && !HasOnly(s.index, id, |s.db[id].llm.value.ragChunks|)
  {
    var id := hash("u");
    assert Runs(EMPTY, [], EMPTY, hash);
    var events, s := ProcessRisky([], EMPTY, ["one", "two"], hash);
    UpsertIsExact(map[], id, ["one", "two"], "u", "fire");
    assert ChunkId(id, 1) in s.index;
    var stored := s.index;
    events, s := Then(events, s, Expire(id), hash);
    events, s := ProcessRisky(events, s, ["new"], hash);
    UpsertHasOnlyIff(stored, id, ["new"], "u", "fire");
    assert !HasOnly(stored, id, 1);
  }

  // ---- the dashboard ----

  /** The sum of the risk scores. */
  ghost function ScoreSum(db: Collection): nat
    decreases |db|
  {
    if db == map[] then 0
    else
      var id :| id in db;
      db[id].riskScore + ScoreSum(db - {id})
  }

  /** The sum does not depend on the order in which the documents are added up. */
  lemma {:induction false} ScoreSumAny(db: Collection, id: string)
    requires id in db
    ensures ScoreSum(db) == db[id].riskScore + ScoreSum(db - {id})
    decreases |db|
  {
    var first :| first in db && ScoreSum(db) == db[first].riskScore + ScoreSum(db - {first});
    if first != id {
      ScoreSumAny(db - {first}, id);
      ScoreSumAny(db - {id}, first);
      assert db - {first} - {id} == db - {id} - {first};
    }
  }

  datatype Summary = Summary(total: nat, escalated: nat, processed: nat, highPriority: nat)

  function EscalatedIds(db: Collection): set<string> {
    set id | id in db && db[id].escalate
  }

  function ProcessedIds(db: Collection): set<string> {
    set id | id in db && db[id].llmProcessed
  }

  function HighIds(db: Collection): set<string> {
    set id | id in db && db[id].priority == High
  }

  function FetchSummary(db: Collection): Summary {
    Summary(|db|, |EscalatedIds(db)|, |ProcessedIds(db)|, |HighIds(db)|)
  }

  /** The average, 0 for an empty collection. */
  ghost function RiskAverage(db: Collection): real {
    if db == map[] then 0.0 else ScoreSum(db) as real / |db| as real
  }

  /** `cents` hundredths are a value rounded to two places. */
  predicate Rounds(cents: int, value: real) {
    -0.5 <= cents as real - 100.0 * value <= 0.5
  }

  lemma HighIdsWithout(db: Collection, id: string)
    requires id in db
    ensures |db - {id}| == |db| - 1
    ensures |HighIds(db)| == |HighIds(db - {id})| + (if db[id].priority == High then 1 else 0)
  {
    var rest := db - {id};
    assert rest.Keys == db.Keys - {id};
    assert HighIds(db) == HighIds(rest) + (if db[id].priority == High then {id} else {});
  }

  lemma {:induction false} ScoreBounds(db: Collection)
    requires forall id :: id in db ==> WellFiled(db[id])
    ensures 3 * |db| + |HighIds(db)| <= ScoreSum(db) <= 3 * |db| + 2 * |HighIds(db)|
    decreases |db|
  {
    if db == map[] {
      assert HighIds(db) == {};
    } else {
      var id :| id in db && ScoreSum(db) == db[id].riskScore + ScoreSum(db - {id});
      HighIdsWithout(db, id);
      ScoreBounds(db - {id});
    }
  }

  lemma HighAtMostAll(db: Collection)
    ensures |HighIds(db)| <= |db|
  {
    SubsetSize(HighIds(db), db.Keys);
  }

  lemma {:induction false} SubsetSize(a: set<string>, b: set<string>)
    requires a <= b
    ensures |a| <= |b|
    decreases |a|
  {
    if a != {} {
      var x :| x in a;
      SubsetSize(a - {x}, b - {x});
    }
  }

  lemma AtMostQuotient(a: real, sum: real, m: real)
    requires m > 0.0 && a * m <= sum
    ensures a <= sum / m
  {
    var q := sum / m;
    assert q * m == sum;
    if a > q {
      assert (a - q) * m > 0.0;
    }
  }

  lemma AtLeastQuotient(a: real, sum: real, m: real)
    requires m > 0.0 && sum <= a * m
    ensures sum / m <= a
  {
    var q := sum / m;
    assert q * m == sum;
    if a < q {
      assert (q - a) * m > 0.0;
    }
  }

  lemma Averages(n: nat, high: nat, sum: nat)
    requires n > 0 && high <= n && 3 * n + high <= sum <= 3 * n + 2 * high
    ensures 3.0 + high as real / n as real <= sum as real / n as real <= 3.0 + 2.0 * (high as real / n as real) <= 5.0
  {
    var m, h := n as real, high as real / n as real;
    assert h * m == high as real;
    assert (3.0 + h) * m == 3.0 * m + h * m;
    assert (3.0 + 2.0 * h) * m == 3.0 * m + 2.0 * (h * m);
    AtMostQuotient(3.0 + h, sum as real, m);
    AtLeastQuotient(3.0 + 2.0 * h, sum as real, m);
    AtLeastQuotient(1.0, high as real, m);
  }

  lemma CountsAddUp(db: Collection)
    requires forall id :: id in db ==> WellFiled(db[id])
    ensures var d := FetchSummary(db); d.total == d.escalated + d.processed && d.highPriority == |HighIds(db)| <= d.total
  {
    var e, p := EscalatedIds(db), ProcessedIds(db);
    assert e + p == db.Keys && e * p == {};
    assert |e + p| == |e| + |p|;
    HighAtMostAll(db);
  }

  /**
  In every state of every run the dashboard's counts fit together: each document is counted once
  as escalated or processed, and the average follows from the share of high priorities.
   */
  lemma DashboardAddsUp(events: seq<Event>, s: State, hash: string -> string)
    requires DigestLike(hash) && Runs(EMPTY, events, s, hash)
    ensures var d := FetchSummary(s.db);
      && d.total == d.escalated + d.processed
      && (d.total > 0 ==> 3.0 + d.highPriority as real / d.total as real <= RiskAverage(s.db)
                          <= 3.0 + 2.0 * (d.highPriority as real / d.total as real) <= 5.0)
      && (d.total == 0 ==> RiskAverage(s.db) == 0.0)
      && (forall cents: int :: d.total > 0 && Rounds(cents, RiskAverage(s.db)) ==> 300 <= cents <= 500)
    ensures forall id :: id in s.db ==> WellFiled(s.db[id]) && s.db[id].priority != Low
  {
    RunKeeps(EMPTY, events, s, hash);
    CountsAddUp(s.db);
    ScoreBounds(s.db);
    var d := FetchSummary(s.db);
    if d.total > 0 {
      Averages(d.total, d.highPriority, ScoreSum(s.db));
      forall cents: int | Rounds(cents, RiskAverage(s.db))
        ensures 300 <= cents <= 500
      {
        assert 299.5 <= cents as real <= 500.5;
      }
    }
  }

  // ---- a dashboard that counts while the collection changes ----

  lemma SizesApart(a: set<string>, b: set<string>, x: string)
    requires a <= b + {x} && b <= a + {x}
    ensures |a| - 1 <= |b| <= |a| + 1
  {
    SubsetSize(a, b + {x});
    SubsetSize(b, a + {x});
  }

  /** One event changes the number of documents, and of processed ones, by one at most. */
  lemma StepDrifts(s: State, e: Event, hash: string -> string)
    requires Possible(s, e)
    ensures var t := Step(s, e, hash);
      && |s.db| - 1 <= |t.db| <= |s.db| + 1
      && |ProcessedIds(s.db)| - 1 <= |ProcessedIds(t.db)| <= |ProcessedIds(s.db)| + 1
  {
    var t := Step(s, e, hash);
    var x := match e
      case Fetch(fetched) => hash(fetched.article.url)
      case Expire(id) => id
      case Mark => s.runner.id
      case _ => "";
    SizesApart(s.db.Keys, t.db.Keys, x);
    SizesApart(ProcessedIds(s.db), ProcessedIds(t.db), x);
  }

  lemma {:induction false} RunDrifts(s: State, events: seq<Event>, t: State, hash: string -> string)
    requires Runs(s, events, t, hash)
    ensures |s.db| - |events| <= |t.db| <= |s.db| + |events|
    ensures |ProcessedIds(s.db)| - |events| <= |ProcessedIds(t.db)| <= |ProcessedIds(s.db)| + |events|
    decreases |events|
  {
    if events != [] {
      StepDrifts(s, events[0], hash);
      RunDrifts(Step(s, events[0], hash), events[1..], t, hash);
    }
  }

  /** `t` is `n` events later than `s`. */
  ghost predicate Later(s: State, n: nat, t: State, hash: string -> string) {
    exists events :: |events| == n && Runs(s, events, t, hash)
  }

  lemma LaterDrifts(s: State, n: nat, t: State, hash: string -> string)
    requires DigestLike(hash) && Filed(s) && RunnerConsistent(s) && Later(s, n, t, hash)
    ensures Filed(t) && RunnerConsistent(t)
    ensures |s.db| - n <= |t.db| <= |s.db| + n
    ensures |ProcessedIds(s.db)| - n <= |ProcessedIds(t.db)| <= |ProcessedIds(s.db)| + n
  {
    var events :| |events| == n && Runs(s, events, t, hash);
    RunKeeps(s, events, t, hash);
    RunDrifts(s, events, t, hash);
  }

  /**
  The dashboard counts all documents, then, `m` events later, the escalated ones, and, `n` events
  after that, the processed ones. The counts miss adding up by at most the events in between.
   */
  lemma DashboardDrifts(before: seq<Event>, s: State, m: nat, t: State, n: nat, u: State, hash: string -> string)
    requires DigestLike(hash) && Runs(EMPTY, before, s, hash) && Later(s, m, t, hash) && Later(t, n, u, hash)
    ensures var counted := FetchSummary(t.db).escalated + FetchSummary(u.db).processed;
      counted - (m + n) <= FetchSummary(s.db).total <= counted + (m + n)
  {
    RunKeeps(EMPTY, before, s, hash);
    LaterDrifts(s, m, t, hash);
    LaterDrifts(t, n, u, hash);
    CountsAddUp(t.db);
  }

  /** A mark between the second and the third query counts a document twice. */
  lemma DashboardCanDisagree(hash: string -> string)
    ensures exists before, s, between, t :: Runs(EMPTY, before, s, hash) && Runs(s, between, t, hash)
              && FetchSummary(s.db).total == 1 && FetchSummary(s.db).escalated == 1 && FetchSummary(t.db).processed == 1
  {
    var before, s := PrepareOne(hash);
    var id, m := s.runner.id, Step(s, Upsert(true), hash);
    var t := Step(m, Mark, hash);
    assert Runs(t, [], t, hash) && Runs(m, [Mark], t, hash);
    assert [Upsert(true), Mark][1..] == [Mark] && Runs(s, [Upsert(true), Mark], t, hash);
    assert |s.db| == |s.db.Keys| && EscalatedIds(s.db) == {id} && ProcessedIds(t.db) == {id};
  }
}
