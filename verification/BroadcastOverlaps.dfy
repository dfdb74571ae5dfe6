/**
Runs in which overlapping steps break what a publish promises when it is alone.
 */
module BroadcastOverlaps {
  import opened Basics
  import Broadcast
  import opened BroadcastThreads

  /** One more step of a run. */
  lemma Then(events: seq<Event>, h: Hub, e: Event) returns (longer: seq<Event>, g: Hub)
    requires Runs(EMPTY, events, h) && Possible(h, e)
    ensures Runs(EMPTY, longer, g) && g == Step(h, e) && longer == events + [e]
  {
    g := Step(h, e);
    assert Runs(g, [], g) && [e][1..] == [];
    assert Runs(h, [e], g);
    RunsConcat(EMPTY, events, h, [e], g);
    longer := events + [e];
  }

  /** Two connections, and nothing published. */
  lemma TwoConnections() returns (events: seq<Event>, h: Hub)
    ensures Runs(EMPTY, events, h)
    ensures h == Hub([0, 1], [Queue([], [], 0, true), Queue([], [], 0, true)], [], [], None)
  {
    assert Runs(EMPTY, [], EMPTY);
    events, h := Then([], EMPTY, Connects);
    events, h := Then(events, h, Connects);
  }

  /** A publish gives its result to the queue that is next, which is not full. */
  lemma OfferOne(events: seq<Event>, h: Hub, p: nat) returns (longer: seq<Event>, g: Hub)
    requires Runs(EMPTY, events, h) && Possible(h, Fetch(p))
    requires var x := h.registered[h.publishers[p].pc.next]; x < |h.queues| && !h.queues[x].Full()
    ensures Runs(EMPTY, longer, g)
    ensures var i := h.publishers[p].pc.next;
      var x := h.registered[i];
      g == Goto(h, p, Iterating(i + 1)).(queues := h.queues[x := h.queues[x].(unread := h.queues[x].unread + [p])])
  {
    longer, g := Then(events, h, Fetch(p));
    longer, g := Then(longer, g, Check(p));
    longer, g := Then(longer, g, Append(p));
    assert g.publishers == Goto(h, p, Iterating(h.publishers[p].pc.next + 1)).publishers;
  }

  /** One connection ends while a publish is between it and the next one: the next one misses the result. */
  lemma CleanupCanSkip()
    ensures exists events, h :: Runs(EMPTY, events, h) && Quiet(h) && 1 in h.registered && 1 < |h.queues|
              && h.published == [0] && h.queues[1].joined == 0 && h.queues[1].History() == []
  {
    var events, h := TwoConnections();
    events, h := Then(events, h, Start("x", None));
    events, h := OfferOne(events, h, 0);
    events, h := Then(events, h, Tests(0));
    events, h := Then(events, h, Cleans);
    assert h.registered == [1];
    events, h := Then(events, h, EndLoop(0));
    assert 1 in h.registered;
  }

  /** Two publishes have both given their result to the first of two queues. */
  lemma BothInTheFirst() returns (events: seq<Event>, h: Hub)
    ensures Runs(EMPTY, events, h)
    ensures h == Hub([0, 1], [Queue([], [0, 1], 0, true), Queue([], [], 0, true)],
                     [Publisher("x", None, Iterating(1), []), Publisher("y", None, Iterating(1), [])], [], None)
  {
    events, h := TwoConnections();
    events, h := Then(events, h, Start("x", None));
    events, h := Then(events, h, Start("y", None));
    events, h := OfferOne(events, h, 0);
    events, h := OfferOne(events, h, 1);
    assert h.queues == [Queue([], [] + [0] + [1], 0, true), Queue([], [], 0, true)];
    assert [] + [0] + [1] == [0, 1];
    assert h.publishers == [Publisher("x", None, Iterating(1), []), Publisher("y", None, Iterating(1), [])];
  }

  /** Two publishes that overtake each other are in opposite orders in two queues, so no order fits both. */
  lemma OrdersCanDiffer()
    ensures exists events, h :: Runs(EMPTY, events, h) && Quiet(h) && h.registered == [0, 1] && |h.queues| == 2
              && h.queues[0].History() == [0, 1] && h.queues[1].History() == [1, 0]
  {
    var events, h := BothInTheFirst();
    events, h := OfferOne(events, h, 1);
    events, h := OfferOne(events, h, 0);
    events, h := Then(events, h, EndLoop(0));
    events, h := Then(events, h, EndLoop(1));
  }

  /** One connection with `n` unread results, and nothing under way. */
  ghost predicate OneQueue(h: Hub, n: nat) {
    && h.registered == [0] && |h.queues| == 1 && |h.queues[0].unread| == n && h.queues[0].listened && h.leaving.None?
    && h.queues[0].taken == [] && h.queues[0].joined == 0 && |h.published| == n
    && Quiet(h)
  }

  /** Start a publish and let it get the one queue from the list. */
  lemma StartOnOne(events: seq<Event>, h: Hub, result: Broadcast.Result, fallback: Option<Broadcast.Result>) returns (longer: seq<Event>, g: Hub)
    requires Runs(EMPTY, events, h) && h.registered == [0]
    ensures Runs(EMPTY, longer, g)
    ensures g == h.(publishers := h.publishers + [Publisher(result, fallback, Holding(1, 0), [])])
  {
    longer, g := Then(events, h, Start(result, fallback));
    longer, g := Then(longer, g, Fetch(|h.publishers|));
  }

  lemma {:induction false} FillUp(n: nat) returns (events: seq<Event>, h: Hub)
    requires n <= Broadcast.QUEUE_SIZE
    ensures Runs(EMPTY, events, h) && OneQueue(h, n)
  {
    if n == 0 {
      assert Runs(EMPTY, [], EMPTY);
      events, h := Then([], EMPTY, Connects);
    } else {
      events, h := FillUp(n - 1);
      var p, before := |h.publishers|, h;
      events, h := StartOnOne(events, h, "x", None);
      events, h := Then(events, h, Check(p));
      events, h := Then(events, h, Append(p));
      events, h := Then(events, h, EndLoop(p));
      assert h.publishers == before.publishers + [Publisher("x", None, Removing(0), [])];
      assert forall k: nat :: Unfinished(h, k) ==> Unfinished(before, k);
    }
  }

  /** Two publishes that test a queue before either appends can bring it above its size. */
  lemma SizeCanBeExceeded()
    ensures exists events, h :: Runs(EMPTY, events, h) && |h.queues| == 1 && |h.queues[0].unread| == 257
  {
    var events, h := FillUp(255);
    var p := |h.publishers|;
    events, h := StartOnOne(events, h, "x", None);
    events, h := StartOnOne(events, h, "y", None);
    events, h := Then(events, h, Check(p));
    events, h := Then(events, h, Check(p + 1));
    events, h := Then(events, h, Append(p));
    events, h := Then(events, h, Append(p + 1));
  }

  /** A queue whose listener reads after the failed offer is evicted although it has room. */
  lemma EvictedWithRoom()
    ensures exists events, h, p :: Runs(EMPTY, events, h) && Possible(h, Evict(p)) && Removes(h, Evict(p)) == Some(0)
              && |h.queues| == 1 && !h.queues[0].Full()
  {
    var events, h := FillUp(256);
    var p := |h.publishers|;
    events, h := StartOnOne(events, h, "x", None);
    events, h := Then(events, h, Check(p));
    events, h := Then(events, h, EndLoop(p));
    events, h := Then(events, h, Takes(0));
    assert Removes(h, Evict(p)) == Some(0);
  }

  /**
  Two publishes that find the same queue full both remove it: the second raises, and its caller
  publishes a failure although the pipeline finished.
   */
  lemma CompletedBecomesFailed()
    ensures exists events, h, p: nat :: Runs(EMPTY, events, h) && p < |h.publishers|
              && h.publishers[p] == Publisher("completed", Some("failed"), Raised, [0])
              && h.publishers[|h.publishers| - 1] == Publisher("failed", None, Iterating(0), [])
  {
    var events, h := FillUp(256);
    var p := |h.publishers|;
    events, h := StartOnOne(events, h, "x", None);
    events, h := StartOnOne(events, h, "completed", Some("failed"));
    events, h := BothFull(events, h, p);
    events, h := Then(events, h, EndLoop(p));
    events, h := Then(events, h, EndLoop(p + 1));
    events, h := Then(events, h, Evict(p));
    assert h.registered == [];
    var n, before := p + 1, h;
    assert h.publishers[n] == Publisher("completed", Some("failed"), Removing(0), [0]);
    events, h := Then(events, h, Evict(n));
    assert h.publishers == Begin(Goto(before, n, Raised), "failed", None).publishers;
    assert Runs(EMPTY, events, h) && n < |h.publishers|
      && h.publishers[n] == Publisher("completed", Some("failed"), Raised, [0])
      && h.publishers[|h.publishers| - 1] == Publisher("failed", None, Iterating(0), []);
  }

  /** Two publishes in the order `p`, `p + 1` fill the queue, and a third one finds it full. */
  lemma FillAndFind(events: seq<Event>, h: Hub) returns (longer: seq<Event>, g: Hub)
    requires Runs(EMPTY, events, h) && OneQueue(h, 254)
    ensures Runs(EMPTY, longer, g)
    ensures var p := |h.publishers|;
      && g == h.(publishers := g.publishers, queues := [h.queues[0].(unread := h.queues[0].unread + [p, p + 1])])
      && g.publishers == h.publishers + [Publisher("a", None, Iterating(1), []), Publisher("b", None, Iterating(1), []),
                                         Publisher("c", None, Iterating(1), [0])]
  {
    var p := |h.publishers|;
    longer, g := StartOnOne(events, h, "a", None);
    longer, g := Then(longer, g, Check(p));
    longer, g := Then(longer, g, Append(p));
    longer, g := StartOnOne(longer, g, "b", None);
    longer, g := Then(longer, g, Check(p + 1));
    longer, g := Then(longer, g, Append(p + 1));
    assert g.queues == [h.queues[0].(unread := h.queues[0].unread + [p] + [p + 1])];
    assert h.queues[0].unread + [p] + [p + 1] == h.queues[0].unread + [p, p + 1];
    longer, g := StartOnOne(longer, g, "c", None);
    longer, g := Then(longer, g, Check(p + 2));
    assert [] + [0] == [0];
  }

  /** A queue that is full of publishes in one order is evicted while they end in another: what it holds is no prefix. */
  lemma EvictedWithoutPrefix()
    ensures exists events, h :: Runs(EMPTY, events, h) && Quiet(h) && |h.queues| == 1 && h.registered == []
              && h.queues[0].joined == 0 && !(h.queues[0].History() <= h.published)
  {
    var events, h := FillUp(254);
    var p, before := |h.publishers|, h;
    events, h := FillAndFind(events, h);
    events, h := Then(events, h, EndLoop(p + 1));
    events, h := Then(events, h, EndLoop(p + 2));
    events, h := Then(events, h, Evict(p + 2));
    events, h := Then(events, h, EndLoop(p));
    assert forall n: nat :: Unfinished(h, n) ==> Unfinished(before, n);
    assert h.queues[0].History()[254] == p && h.published[254] == p + 1;
  }

  lemma BothFull(events: seq<Event>, h: Hub, p: nat) returns (longer: seq<Event>, g: Hub)
    requires Runs(EMPTY, events, h) && |h.queues| == 1 && h.queues[0].Full() && |h.publishers| == p + 2
    requires forall n :: p <= n < p + 2 ==> h.publishers[n].pc == Holding(1, 0) && h.publishers[n].dead == []
    ensures Runs(EMPTY, longer, g)
    ensures g == h.(publishers := h.publishers[p := h.publishers[p].(pc := Iterating(1), dead := [0])]
                                              [p + 1 := h.publishers[p + 1].(pc := Iterating(1), dead := [0])])
  {
    longer, g := Then(events, h, Check(p));
    assert h.publishers[p].dead + [0] == [0] && h.publishers[p + 1].dead + [0] == [0];
    assert g == h.(publishers := h.publishers[p := h.publishers[p].(pc := Iterating(1), dead := [0])]);
    longer, g := Then(longer, g, Check(p + 1));
  }
}
