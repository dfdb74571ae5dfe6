/**
Exactly when the history of a queue is what was published while it was registered, over every
interleaving of publishing threads and the event loop.
 */
module BroadcastHistory {
  import opened Basics
  import Broadcast
  import opened BroadcastThreads

  /** Publish `p` is about to get queue `x` from the list, and removing `y` moves `x` out of its way. */
  predicate Skips(h: Hub, p: nat, y: nat, x: nat) {
    Unfinished(h, p)
    && var i := h.publishers[p].pc.next;
      i < |h.registered| && h.registered[i] == x && y < x && y in h.registered
  }

  /**
  A step that spoils the history of `x`: a publish finds it full; a queue that some publish
  already has behind it is removed when `x` is next; or a publish ends its first loop although
  one that has not yet done so was before it in the queue.
   */
  ghost predicate Spoils(h: Hub, e: Event, x: nat)
    requires Possible(h, e) && x < |h.queues|
  {
    match e
    case Check(p) => h.publishers[p].pc.Holds(x) && h.queues[x].Full()
    case EndLoop(p) => exists a: nat, b: nat :: Overtaken(h, h.queues[x].History(), p, a, b)
    case _ => Removes(h, e).Some? && exists p: nat :: Skips(h, p, Removes(h, e).value, x)
  }

  predicate Overtaken(h: Hub, s: seq<nat>, p: nat, a: nat, b: nat) {
    a < b < |s| && s[b] == p && Unfinished(h, s[a])
  }

  ghost predicate Unspoilt(h: Hub, events: seq<Event>, x: nat)
    decreases |events|
  {
    events == []
    || (x < |h.queues| && Possible(h, events[0]) && !Spoils(h, events[0], x) && Unspoilt(Step(h, events[0]), events[1..], x))
  }

  /** When `x` registers no publish has run off the end of the list, as it can after removals. */
  ghost predicate JoinsCleanly(h: Hub) {
    forall p: nat :: Unfinished(h, p) ==> h.publishers[p].pc.next <= |h.registered|
  }

  /** Nothing is wrong so far: what is due is there, then publishes under way, and the others under way come to `x`. */
  ghost predicate Good(h: Hub, x: nat)
    requires x < |h.queues| && h.queues[x].joined <= |h.published|
  {
    var s, due := h.queues[x].History(), Due(h, x);
    && due <= s
    && (forall i :: |due| <= i < |s| ==> Unfinished(h, s[i]))
    && (forall p: nat :: Unfinished(h, p) && p !in s ==> Ahead(h, p, x))
  }

  /** A publish that is or will be due has missed `x`. */
  predicate Lost(h: Hub, x: nat, p: nat)
    requires x < |h.queues| && h.queues[x].joined <= |h.published|
  {
    p !in h.queues[x].History() && Passed(h, p, x) && (Unfinished(h, p) || p in Due(h, x))
  }

  /** Two publishes are in `x` in the other order than they are or will be published. */
  ghost predicate Inverted(h: Hub, x: nat, a: nat, b: nat)
    requires x < |h.queues|
  {
    var s := h.queues[x].History();
    a < b < |s| && s[b] in h.published
    && forall i, j :: 0 <= i < |h.published| && 0 <= j < |h.published| && h.published[i] == s[b] && h.published[j] == s[a] ==> i < j
  }

  ghost predicate Bad(h: Hub, x: nat)
    requires x < |h.queues| && h.queues[x].joined <= |h.published|
  {
    (exists p: nat :: Lost(h, x, p)) || (exists a: nat, b: nat :: Inverted(h, x, a, b))
  }

  lemma DueGrows(h: Hub, e: Event, x: nat)
    requires Inv(h) && Possible(h, e) && x < |h.queues|
    ensures x < |Step(h, e).queues| && Step(h, e).queues[x].joined <= |Step(h, e).published|
    ensures h.queues[x].joined <= |h.published|
    ensures Due(Step(h, e), x) == Due(h, x) + (if e.EndLoop? then [e.p] else [])
  {
    assert QueueRight(h, x);
  }

  lemma LostStays(h: Hub, e: Event, x: nat, p: nat)
    requires Inv(h) && Possible(h, e) && x < |h.queues| && h.queues[x].joined <= |h.published| && Lost(h, x, p)
    ensures x < |Step(h, e).queues| && Step(h, e).queues[x].joined <= |Step(h, e).published| && Lost(Step(h, e), x, p)
  {
    HistoryGrows(h, e, x);
    DueGrows(h, e, x);
    PassedStays(h, e, p, x);
  }

  lemma InvertedStays(h: Hub, e: Event, x: nat, a: nat, b: nat)
    requires Inv(h) && Possible(h, e) && x < |h.queues| && Inverted(h, x, a, b)
    ensures x < |Step(h, e).queues| && Inverted(Step(h, e), x, a, b)
  {
    HistoryGrows(h, e, x);
    StepKeepsList(h, e);
    assert QueueRight(h, x);
  }

  lemma BadStays(h: Hub, e: Event, x: nat)
    requires Inv(h) && Possible(h, e) && x < |h.queues| && h.queues[x].joined <= |h.published| && Bad(h, x)
    ensures x < |Step(h, e).queues| && Step(h, e).queues[x].joined <= |Step(h, e).published| && Bad(Step(h, e), x)
  {
    if p: nat :| Lost(h, x, p) {
      LostStays(h, e, x, p);
    } else {
      var a: nat, b: nat :| Inverted(h, x, a, b);
      InvertedStays(h, e, x, a, b);
      DueGrows(h, e, x);
    }
  }

  lemma GoodTail(h: Hub, x: nat)
    requires x < |h.queues| && h.queues[x].joined <= |h.published| && Good(h, x)
    ensures var s, due := h.queues[x].History(), Due(h, x);
      |due| <= |s| && (|due| == |s| || Unfinished(h, s[|due|]))
  {
  }

  /** When no publish is under way any more, the history is exact or bad. */
  lemma ExactAtTheEnd(h: Hub, x: nat)
    requires Inv(h) && x < |h.queues| && Quiet(h) && h.queues[x].joined <= |h.published|
    ensures Good(h, x) ==> h.queues[x].History() == Due(h, x)
    ensures Bad(h, x) ==> h.queues[x].History() != Due(h, x)
  {
    if Good(h, x) {
      GoodTail(h, x);
    }
  }

  /** Where position `k` of the list goes when position `j` is removed. */
  lemma ShiftedPlace(ids: seq<nat>, j: nat, k: nat)
    requires Sorted(ids) && j < |ids| && k < |ids| && j != k
    ensures var kept, at := Broadcast.RemoveFirst(ids, ids[j]), if ids[j] < ids[k] then k - 1 else k;
      0 <= at < |kept| && kept[at] == ids[k]
  {
    RemoveFirstAt(ids, j);
    assert ids[j] < ids[k] <==> j < k;
  }

  /** Where `x` is in the list, before and after the removal of `y`. */
  lemma PlaceAfterRemoval(ids: seq<nat>, y: nat, x: nat) returns (k: nat, at: nat)
    requires Sorted(ids) && x in ids && y in ids && x != y
    ensures k < |ids| && ids[k] == x && at == if y < x then k - 1 else k
    ensures var kept := Broadcast.RemoveFirst(ids, y); at < |kept| && kept[at] == x
  {
    k :| 0 <= k < |ids| && ids[k] == x;
    var j :| 0 <= j < |ids| && ids[j] == y;
    ShiftedPlace(ids, j, k);
    at := if y < x then k - 1 else k;
  }

  /** Removing `y` takes `x` out of the way of a publish exactly if it skips it. */
  lemma RemovalSkips(h: Hub, y: nat, p: nat, x: nat)
    requires Inv(h) && x in h.registered && y in h.registered && x != y && Ahead(h, p, x)
    ensures Ahead(Remove(h, y), p, x) <==> !Skips(h, p, y, x)
  {
    var k, at := PlaceAfterRemoval(h.registered, y, x);
    RemoveShrinks(h.registered, y);
    assert PublisherRight(h, p);
  }

  lemma RemovalKeepsGood(h: Hub, y: nat, x: nat)
    requires Inv(h) && x in h.registered && y in h.registered && x != y && h.queues[x].joined <= |h.published| && Good(h, x)
    ensures var g := Remove(h, y);
      if exists p: nat :: Skips(h, p, y, x) then Bad(g, x) else Good(g, x)
  {
    var g := Remove(h, y);
    RemoveShrinks(h.registered, y);
    if p: nat :| Skips(h, p, y, x) {
      assert PublisherRight(h, p) && QueueRight(h, x);
      assert Ahead(h, p, x);
      RemovalSkips(h, y, p, x);
      assert Lost(g, x, p);
    } else {
      forall p: nat | Unfinished(g, p) && p !in g.queues[x].History()
        ensures Ahead(g, p, x)
      {
        RemovalSkips(h, y, p, x);
      }
    }
  }

  lemma OvertakingIsBad(h: Hub, p: nat, x: nat, a: nat, b: nat)
    requires Inv(h) && Possible(h, EndLoop(p)) && x < |h.queues| && Overtaken(h, h.queues[x].History(), p, a, b)
    ensures Inverted(Step(h, EndLoop(p)), x, a, b)
  {
    assert QueueRight(h, x) && PublisherRight(h, p) && PublisherRight(h, h.queues[x].History()[a]);
  }

  lemma FirstUnderWay(h: Hub, p: nat, x: nat)
    requires Inv(h) && Possible(h, EndLoop(p)) && x in h.registered && h.queues[x].joined <= |h.published| && Good(h, x)
    requires !Spoils(h, EndLoop(p), x)
    ensures var s, n := h.queues[x].History(), |Due(h, x)|; n < |s| && s[n] == p
  {
    var s, due := h.queues[x].History(), Due(h, x);
    assert PublisherRight(h, p);
    assert !Ahead(h, p, x) && p in s;
    var b: nat :| b < |s| && s[b] == p;
    assert due == s[..|due|];
    assert forall k :: 0 <= k < |due| ==> due[k] in h.published;
    assert !Overtaken(h, s, p, |due|, b);
  }

  /** What happens to a good history at the end of a publish's first loop. */
  lemma EndKeepsGood(h: Hub, p: nat, x: nat)
    requires Inv(h) && Possible(h, EndLoop(p)) && x in h.registered && h.queues[x].joined <= |h.published| && Good(h, x)
    ensures var g := Step(h, EndLoop(p));
      g.queues[x].joined <= |g.published| && if Spoils(h, EndLoop(p), x) then Bad(g, x) else Good(g, x)
  {
    var g, s, due := Step(h, EndLoop(p)), h.queues[x].History(), Due(h, x);
    DueGrows(h, EndLoop(p), x);
    if a: nat, b: nat :| Overtaken(h, s, p, a, b) {
      OvertakingIsBad(h, p, x, a, b);
    } else {
      FirstUnderWay(h, p, x);
      assert QueueRight(h, x);
      assert due + [p] == s[..|due| + 1];
    }
  }

  lemma CheckKeepsGood(h: Hub, p: nat, x: nat)
    requires Inv(h) && Possible(h, Check(p)) && x in h.registered && h.queues[x].joined <= |h.published| && Good(h, x)
    ensures var g := Step(h, Check(p)); if Spoils(h, Check(p), x) then Bad(g, x) else Good(g, x)
  {
    var g := Step(h, Check(p));
    if Spoils(h, Check(p), x) {
      assert PublisherRight(h, p) && QueueRight(h, x);
      assert Lost(g, x, p);
    }
  }

  lemma AppendKeepsGood(h: Hub, p: nat, x: nat)
    requires Inv(h) && Possible(h, Append(p)) && x in h.registered && h.queues[x].joined <= |h.published| && Good(h, x)
    ensures Good(Step(h, Append(p)), x)
  {
    HistoryGrows(h, Append(p), x);
  }

  lemma FetchKeepsGood(h: Hub, p: nat, x: nat)
    requires Inv(h) && Possible(h, Fetch(p)) && x in h.registered && h.queues[x].joined <= |h.published| && Good(h, x)
    ensures Good(Step(h, Fetch(p)), x)
  {
  }

  lemma EventLoopKeepsGood(h: Hub, e: Event, x: nat)
    requires Inv(h) && Possible(h, e) && x in h.registered && h.queues[x].joined <= |h.published| && Good(h, x)
    requires e.Connects? || e.Takes? || e.Stops? || e.Tests?
    ensures Good(Step(h, e), x)
  {
    var g := Step(h, e);
    HistoryGrows(h, e, x);
    forall p: nat | Unfinished(g, p) && p !in g.queues[x].History()
      ensures Ahead(g, p, x)
    {
      assert Ahead(h, p, x);
      assert h.registered <= g.registered;
    }
  }

  /** Nothing that matters to histories differs. */
  predicate SameOffers(h: Hub, g: Hub) {
    && g.registered == h.registered && g.queues == h.queues && g.published == h.published
    && |g.publishers| == |h.publishers|
    && forall p: nat :: p < |h.publishers| && (h.publishers[p].pc.Offers() || g.publishers[p].pc.Offers())
                        ==> h.publishers[p].pc == g.publishers[p].pc
  }

  lemma SameOffersSameHistory(h: Hub, g: Hub, x: nat)
    requires SameOffers(h, g) && x < |h.queues| && h.queues[x].joined <= |h.published|
    ensures Good(h, x) ==> Good(g, x)
    ensures Bad(h, x) ==> Bad(g, x)
  {
    forall p: nat | Lost(h, x, p)
      ensures Lost(g, x, p)
    {
      assert At(g, p);
    }
    forall a: nat, b: nat | Inverted(h, x, a, b)
      ensures Inverted(g, x, a, b)
    {
    }
  }

  lemma RemovingKeepsGood(h: Hub, e: Event, x: nat)
    requires Inv(h) && Possible(h, e) && x in h.registered && h.queues[x].joined <= |h.published| && Good(h, x)
    requires (e.Evict? || e.Cleans?) && Removes(h, e) != Some(x)
    ensures if Spoils(h, e, x) then Bad(Step(h, e), x) else Good(Step(h, e), x)
  {
    var g := Step(h, e);
    if Removes(h, e).Some? {
      var y := Removes(h, e).value;
      RemovalKeepsGood(h, y, x);
      SameOffersSameHistory(Remove(h, y), g, x);
    } else if e.Cleans? {
      RemoveFirstAbsent(h.registered, h.leaving.value);
      SameOffersSameHistory(h, g, x);
    } else {
      SameOffersSameHistory(h, Goto(h, e.p, Raised), x);
      RaiseKeepsGood(h, e.p, x);
    }
  }

  lemma RaiseKeepsGood(h: Hub, p: nat, x: nat)
    requires Inv(h) && x in h.registered && h.queues[x].joined <= |h.published|
    requires At(h, p) && Good(Goto(h, p, Raised), x)
    ensures Good(Raise(h, p), x)
  {
    var g := Raise(h, p);
    var k :| 0 <= k < |h.registered| && h.registered[k] == x;
    forall n: nat | Unfinished(g, n) && n !in g.queues[x].History()
      ensures Ahead(g, n, x)
    {
      assert n < |h.publishers| ==> Unfinished(Goto(h, p, Raised), n);
      assert g.registered[k] == x;
    }
  }

  /** Every step keeps a good history good, or spoils it for good. */
  lemma StepKeepsGood(h: Hub, e: Event, x: nat)
    requires Inv(h) && Possible(h, e) && x in h.registered && Removes(h, e) != Some(x)
    requires h.queues[x].joined <= |h.published| && Good(h, x)
    ensures x < |Step(h, e).queues| && Step(h, e).queues[x].joined <= |Step(h, e).published|
    ensures if Spoils(h, e, x) then Bad(Step(h, e), x) else Good(Step(h, e), x)
  {
    DueGrows(h, e, x);
    match e {
      case Start(_, _) =>
      case Fetch(p) => FetchKeepsGood(h, p, x);
      case Check(p) => CheckKeepsGood(h, p, x);
      case Append(p) => AppendKeepsGood(h, p, x);
      case EndLoop(p) => EndKeepsGood(h, p, x);
      case Evict(_) => RemovingKeepsGood(h, e, x);
      case Cleans => RemovingKeepsGood(h, e, x);
      case _ => EventLoopKeepsGood(h, e, x);
    }
  }

  // ---- over whole runs ----

  lemma StepKeepsKnown(h: Hub, e: Event, x: nat)
    requires Inv(h) && Possible(h, e) && x in h.registered && Removes(h, e) != Some(x)
    requires h.queues[x].joined <= |h.published| && (Good(h, x) || Bad(h, x))
    ensures x < |Step(h, e).queues| && Step(h, e).queues[x].joined == h.queues[x].joined <= |Step(h, e).published|
    ensures Good(h, x) && !Spoils(h, e, x) ==> Good(Step(h, e), x)
    ensures Bad(h, x) || Spoils(h, e, x) ==> Bad(Step(h, e), x)
  {
    HistoryGrows(h, e, x);
    if Bad(h, x) {
      BadStays(h, e, x);
    }
    if Good(h, x) {
      StepKeepsGood(h, e, x);
    }
  }

  lemma {:induction false} RunKeepsGood(h: Hub, events: seq<Event>, g: Hub, x: nat)
    requires Inv(h) && Runs(h, events, g) && x < |h.queues| && x in g.registered
    requires h.queues[x].joined <= |h.published| && (Good(h, x) || Bad(h, x))
    ensures x < |g.queues| && g.queues[x].joined == h.queues[x].joined <= |g.published|
    ensures Good(h, x) && Unspoilt(h, events, x) ==> Good(g, x)
    ensures Bad(h, x) || !Unspoilt(h, events, x) ==> Bad(g, x)
    decreases |events|
  {
    if events != [] {
      var e := events[0];
      RegisteredAllAlong(h, events, g, x);
      StepKeeps(h, e);
      RegisteredAllAlong(Step(h, e), events[1..], g, x);
      RemovedStaysOut(h, e, x);
      StepKeepsKnown(h, e, x);
      RunKeepsGood(Step(h, e), events[1..], g, x);
    }
  }

  /** A new queue starts well, unless some publish would run past it. */
  lemma JoiningIsGood(h: Hub)
    requires Inv(h) && Possible(h, Connects)
    ensures var g, x := Step(h, Connects), |h.queues|;
      g.queues[x].joined == |g.published| && if JoinsCleanly(h) then Good(g, x) else Bad(g, x)
  {
    var g, x := Step(h, Connects), |h.queues|;
    assert g.registered[|h.registered|] == x;
    if p: nat :| Unfinished(h, p) && h.publishers[p].pc.next > |h.registered| {
      assert PublisherRight(h, p);
      assert Lost(g, x, p);
    }
  }

  /**
  In every run and every interleaving: the history of a queue that stays registered is, when no
  publish is under way, exactly the publishes whose first loop ended after it registered, in that
  order, if and only if it registered cleanly and no step since then spoilt it.
   */
  lemma HistoryIsExactIff(before: seq<Event>, h: Hub, events: seq<Event>, g: Hub, x: nat)
    requires Runs(EMPTY, before, h) && Possible(h, Connects) && x == |h.queues| && Runs(Step(h, Connects), events, g)
    requires x in g.registered && Quiet(g)
    ensures x < |g.queues| && g.queues[x].joined == |h.published| <= |g.published|
    ensures g.queues[x].History() == Due(g, x) <==> JoinsCleanly(h) && Unspoilt(Step(h, Connects), events, x)
  {
    RunKeeps(EMPTY, before, h);
    StepKeeps(h, Connects);
    JoiningIsGood(h);
    RunKeeps(Step(h, Connects), events, g);
    RunKeepsGood(Step(h, Connects), events, g, x);
    ExactAtTheEnd(g, x);
  }

  /** While publishes do not overlap, and nothing is removed during one, only a full queue spoils a history. */
  lemma AloneOnlyFullSpoils(h: Hub, e: Event, x: nat)
    requires Inv(h) && Possible(h, e) && x < |h.queues|
    requires forall p: nat, n: nat :: Unfinished(h, p) && Unfinished(h, n) ==> p == n
    requires Removes(h, e).Some? ==> Quiet(h)
    ensures Spoils(h, e, x) <==> e.Check? && h.publishers[e.p].pc.id == x && h.queues[x].Full()
  {
    if e.EndLoop? {
      assert Unfinished(h, e.p) && QueueRight(h, x);
      forall a: nat, b: nat
        ensures !Overtaken(h, h.queues[x].History(), e.p, a, b)
      {
      }
    } else if Removes(h, e).Some? {
      assert forall p: nat :: !Skips(h, p, Removes(h, e).value, x);
    }
  }

  // ---- exactly when a queue holds a prefix, registered or not ----

  /** What is due and what is there agree as far as both go. */
  ghost predicate Fits(h: Hub, x: nat)
    requires x < |h.queues| && h.queues[x].joined <= |h.published|
  {
    h.queues[x].History() <= Due(h, x) || Due(h, x) <= h.queues[x].History()
  }

  /** All that is there is due, or will be when its publish ends its first loop. */
  ghost predicate OnlyDue(h: Hub, x: nat)
    requires x < |h.queues| && h.queues[x].joined <= |h.published|
  {
    forall p :: p in h.queues[x].History() ==> Unfinished(h, p) || p in Due(h, x)
  }

  /**
  A step that leaves a gap or the wrong order in `x`: a publish ends its first loop although another
  one is in its place there; or one is appended although an earlier one is missing.
   */
  predicate Breaks(h: Hub, e: Event, x: nat)
    requires Possible(h, e) && x < |h.queues| && h.queues[x].joined <= |h.published|
  {
    var s, n := h.queues[x].History(), |Due(h, x)|;
    match e
    case EndLoop(p) => |s| > n && s[n] != p
    case Append(p) => h.publishers[p].pc.id == x && |s| < n
    case _ => false
  }

  ghost predicate Unbroken(h: Hub, events: seq<Event>, x: nat)
    decreases |events|
  {
    events == []
    || (x < |h.queues| && h.queues[x].joined <= |h.published| && Possible(h, events[0])
        && !Breaks(h, events[0], x) && Unbroken(Step(h, events[0]), events[1..], x))
  }

  lemma StepKeepsOnlyDue(h: Hub, e: Event, x: nat)
    requires Inv(h) && Possible(h, e) && x < |h.queues| && h.queues[x].joined <= |h.published| && OnlyDue(h, x)
    ensures x < |Step(h, e).queues| && Step(h, e).queues[x].joined <= |Step(h, e).published| && OnlyDue(Step(h, e), x)
  {
    HistoryGrows(h, e, x);
    DueGrows(h, e, x);
  }

  lemma EndFitsIff(h: Hub, p: nat, x: nat)
    requires Inv(h) && Possible(h, EndLoop(p)) && x < |h.queues| && h.queues[x].joined <= |h.published|
    ensures var g := Step(h, EndLoop(p));
      g.queues[x].joined <= |g.published| && (Fits(g, x) <==> Fits(h, x) && !Breaks(h, EndLoop(p), x))
  {
    var s, due := h.queues[x].History(), Due(h, x);
    DueGrows(h, EndLoop(p), x);
    if due <= s && |s| > |due| {
      assert s[..|due| + 1] == due + [s[|due|]];
    }
  }

  /** A publish under way cannot fill a gap that one already ended has left. */
  lemma AppendFitsIff(h: Hub, p: nat, x: nat)
    requires Inv(h) && Possible(h, Append(p)) && x < |h.queues| && h.queues[x].joined <= |h.published|
    ensures var g := Step(h, Append(p));
      x < |g.queues| && g.queues[x].joined <= |g.published| && (Fits(g, x) <==> Fits(h, x) && !Breaks(h, Append(p), x))
  {
    var s, due := h.queues[x].History(), Due(h, x);
    HistoryGrows(h, Append(p), x);
    DueGrows(h, Append(p), x);
    assert PublisherRight(h, p);
    if |s| < |due| {
      assert due[|s|] in h.published;
    }
  }

  /** Once what is there does not fit what is due it never will again; and it stops fitting exactly when a step breaks it. */
  lemma StepFitsIff(h: Hub, e: Event, x: nat)
    requires Inv(h) && Possible(h, e) && x < |h.queues| && h.queues[x].joined <= |h.published|
    ensures x < |Step(h, e).queues| && Step(h, e).queues[x].joined <= |Step(h, e).published|
    ensures Fits(Step(h, e), x) <==> Fits(h, x) && !Breaks(h, e, x)
  {
    match e {
      case EndLoop(p) => EndFitsIff(h, p, x);
      case Append(p) => AppendFitsIff(h, p, x);
      case _ =>
        HistoryGrows(h, e, x);
        DueGrows(h, e, x);
    }
  }

  lemma {:induction false} RunFitsIff(h: Hub, events: seq<Event>, g: Hub, x: nat)
    requires Inv(h) && Runs(h, events, g) && x < |h.queues| && h.queues[x].joined <= |h.published| && OnlyDue(h, x)
    ensures x < |g.queues| && g.queues[x].joined == h.queues[x].joined <= |g.published| && OnlyDue(g, x)
    ensures Fits(g, x) <==> Fits(h, x) && Unbroken(h, events, x)
    decreases |events|
  {
    if events != [] {
      StepKeeps(h, events[0]);
      HistoryGrows(h, events[0], x);
      StepKeepsOnlyDue(h, events[0], x);
      StepFitsIff(h, events[0], x);
      RunFitsIff(Step(h, events[0]), events[1..], g, x);
    }
  }

  lemma NotSeenBefore(s: seq<nat>, front: seq<nat>)
    requires Broadcast.Distinct(s) && front <= s && |s| > |front|
    ensures exists p :: p in s && p !in front
  {
    var p := s[|front|];
    assert p in s && forall k :: 0 <= k < |front| ==> front[k] == s[k] != p;
  }

  /** When no publish is under way, nothing can be there beyond what is due. */
  lemma PrefixAtTheEnd(h: Hub, x: nat)
    requires Inv(h) && x < |h.queues| && h.queues[x].joined <= |h.published| && Quiet(h) && OnlyDue(h, x)
    ensures h.queues[x].History() <= Due(h, x) <==> Fits(h, x)
  {
    var s, due := h.queues[x].History(), Due(h, x);
    assert QueueRight(h, x);
    if due <= s && |s| > |due| {
      NotSeenBefore(s, due);
    }
  }

  /**
  In every run and every interleaving: what a queue holds, whether it was evicted, has left or is
  still registered, is a prefix of what was published since it registered, once no publish is under
  way, if and only if no step broke it.
   */
  lemma PrefixIff(before: seq<Event>, h: Hub, events: seq<Event>, g: Hub, x: nat)
    requires Runs(EMPTY, before, h) && Possible(h, Connects) && x == |h.queues| && Runs(Step(h, Connects), events, g) && Quiet(g)
    ensures x < |g.queues| && g.queues[x].joined == |h.published| <= |g.published|
    ensures g.queues[x].History() <= Due(g, x) <==> Unbroken(Step(h, Connects), events, x)
  {
    RunKeeps(EMPTY, before, h);
    StepKeeps(h, Connects);
    RunKeeps(Step(h, Connects), events, g);
    RunFitsIff(Step(h, Connects), events, g, x);
    PrefixAtTheEnd(g, x);
  }
}
