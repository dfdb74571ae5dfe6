/**
A publish that no other step overlaps is the one atomic step of the sequential broadcaster.
 */
module BroadcastAlone {
  import opened Basics
  import Broadcast
  import opened BroadcastThreads

  function Results(h: Hub, ns: seq<nat>): seq<Broadcast.Result> {
    seq(|ns|, i requires 0 <= i < |ns| => if ns[i] < |h.publishers| then h.publishers[ns[i]].result else "")
  }

  /** The lists are the same, and the queues hold the same results. */
  ghost predicate Matches(h: Hub, a: Broadcast.Hub) {
    && h.registered == a.registered && |h.queues| == |a.queues|
    && forall x :: 0 <= x < |h.queues| ==>
         && Results(h, h.queues[x].taken) == a.queues[x].taken && Results(h, h.queues[x].unread) == a.queues[x].unread
         && h.queues[x].listened == a.queues[x].listened
  }

  /** All these steps are made by publish `p`. */
  predicate OwnSteps(events: seq<Event>, p: nat) {
    forall k :: 0 <= k < |events| ==> events[k] in {Fetch(p), Check(p), Append(p), EndLoop(p), Evict(p)}
  }

  function Sizes(queues: seq<Queue>): seq<nat> {
    seq(|queues|, i requires 0 <= i < |queues| => |queues[i].unread|)
  }

  /** Those of the listed queues that are full. */
  function Fulls(ids: seq<nat>, queues: seq<Queue>): seq<nat> {
    Broadcast.Those(ids, Sizes(queues), true)
  }

  /** The queues after `p` offered its result to those in `ids`. */
  ghost predicate OfferedTo(before: seq<Queue>, ids: seq<nat>, p: nat, after: seq<Queue>) {
    && |after| == |before|
    && forall x :: 0 <= x < |after| ==>
         after[x] == if x in ids && !before[x].Full() then before[x].(unread := before[x].unread + [p]) else before[x]
  }

  /** What one round of the first loop does, at queue `x`. */
  function OfferTo(h: Hub, p: nat, x: nat): Hub
    requires At(h, p) && h.publishers[p].pc.Offers() && x < |h.queues|
  {
    var pub, q := h.publishers[p], h.queues[x];
    var pc := Iterating(pub.pc.next + 1);
    if q.Full() then h.(publishers := h.publishers[p := pub.(pc := pc, dead := pub.dead + [x])])
    else h.(publishers := h.publishers[p := pub.(pc := pc)], queues := h.queues[x := q.(unread := q.unread + [p])])
  }

  function OfferAll(h: Hub, p: nat, ids: seq<nat>): Hub
    requires At(h, p) && h.publishers[p].pc.Offers() && forall k :: 0 <= k < |ids| ==> ids[k] < |h.queues|
    decreases |ids|
  {
    if ids == [] then h else OfferAll(OfferTo(h, p, ids[0]), p, ids[1..])
  }

  lemma OfferNext(h: Hub, p: nat) returns (events: seq<Event>)
    requires ListRight(h) && Possible(h, Fetch(p))
    ensures OwnSteps(events, p) && Runs(h, events, OfferTo(h, p, h.registered[h.publishers[p].pc.next]))
  {
    var g := OfferTo(h, p, h.registered[h.publishers[p].pc.next]);
    var m := Step(h, Fetch(p));
    var n := Step(m, Check(p));
    assert Runs(g, [], g);
    if n.publishers[p].pc.Iterating? {
      events := [Fetch(p), Check(p)];
      assert n == g && events[1..] == [Check(p)] && Runs(m, [Check(p)], g);
    } else {
      events := [Fetch(p), Check(p), Append(p)];
      assert Step(n, Append(p)) == g && events[1..] == [Check(p), Append(p)] && [Check(p), Append(p)][1..] == [Append(p)];
      assert Runs(n, [Append(p)], g) && Runs(m, [Check(p), Append(p)], g);
    }
  }

  lemma OfferToMovesOn(h: Hub, p: nat)
    requires ListRight(h) && Possible(h, Fetch(p))
    ensures var m, i := OfferTo(h, p, h.registered[h.publishers[p].pc.next]), h.publishers[p].pc.next;
      ListRight(m) && m.registered == h.registered && At(m, p) && m.publishers[p].pc == Iterating(i + 1)
  {
  }

  lemma {:induction false} OfferRest(h: Hub, p: nat) returns (events: seq<Event>)
    requires ListRight(h) && At(h, p) && h.publishers[p].pc.Iterating? && h.publishers[p].pc.next <= |h.registered|
    ensures OwnSteps(events, p) && Runs(h, events, OfferAll(h, p, h.registered[h.publishers[p].pc.next..]))
    decreases |h.registered| - h.publishers[p].pc.next
  {
    var i := h.publishers[p].pc.next;
    var rest := h.registered[i..];
    if rest == [] {
      events := [];
    } else {
      var m := OfferTo(h, p, rest[0]);
      OfferToMovesOn(h, p);
      assert rest[1..] == m.registered[i + 1..] && OfferAll(h, p, rest) == OfferAll(m, p, rest[1..]);
      var first := OfferNext(h, p);
      var more := OfferRest(m, p);
      RunsConcat(h, first, m, more, OfferAll(m, p, rest[1..]));
      events := first + more;
    }
  }

  lemma {:induction false} OfferAllPublisher(h: Hub, p: nat, ids: seq<nat>)
    requires At(h, p) && h.publishers[p].pc.Iterating? && Sorted(ids) && forall k :: 0 <= k < |ids| ==> ids[k] < |h.queues|
    ensures var g, pub := OfferAll(h, p, ids), h.publishers[p];
      && g == h.(queues := g.queues, publishers := g.publishers)
      && g.publishers == h.publishers[p := pub.(pc := Iterating(pub.pc.next + |ids|), dead := pub.dead + Fulls(ids, h.queues))]
    decreases |ids|
  {
    var pub := h.publishers[p];
    if ids == [] {
      assert pub.dead + [] == pub.dead;
    } else {
      var m, rest := OfferTo(h, p, ids[0]), ids[1..];
      assert forall x :: x in rest ==> ids[0] < x;
      FullsElsewhere(rest, h.queues, m.queues);
      assert m.publishers[p].dead + Fulls(rest, h.queues) == pub.dead + Fulls(ids, h.queues);
      OfferAllPublisher(m, p, rest);
    }
  }

  lemma {:induction false} OfferAllQueues(h: Hub, p: nat, ids: seq<nat>)
    requires At(h, p) && h.publishers[p].pc.Offers() && Sorted(ids) && forall k :: 0 <= k < |ids| ==> ids[k] < |h.queues|
    ensures OfferedTo(h.queues, ids, p, OfferAll(h, p, ids).queues)
    decreases |ids|
  {
    if ids != [] {
      var m, rest := OfferTo(h, p, ids[0]), ids[1..];
      assert ids == [ids[0]] + rest && forall x :: x in rest ==> ids[0] < x;
      OfferAllQueues(m, p, rest);
    }
  }

  lemma {:induction false} FullsElsewhere(ids: seq<nat>, before: seq<Queue>, after: seq<Queue>)
    requires |before| == |after| && forall x :: x in ids && x < |before| ==> before[x] == after[x]
    ensures Fulls(ids, before) == Fulls(ids, after)
  {
    if ids != [] {
      FullsElsewhere(ids[1..], before, after);
    }
  }

  lemma {:induction false} EvictRest(h: Hub, p: nat) returns (events: seq<Event>, g: Hub)
    requires Sorted(h.registered) && At(h, p) && h.publishers[p].pc.Removing? && h.publishers[p].pc.k <= |h.publishers[p].dead|
    requires var pub := h.publishers[p];
      Broadcast.Distinct(pub.dead) && forall k :: pub.pc.k <= k < |pub.dead| ==> pub.dead[k] in h.registered
    ensures Runs(h, events, g) && OwnSteps(events, p)
    ensures var pub := h.publishers[p];
      g == Goto(h, p, Removing(|pub.dead|)).(registered := Broadcast.RemoveAll(h.registered, pub.dead[pub.pc.k..]))
    decreases |h.publishers[p].dead| - h.publishers[p].pc.k
  {
    var dead, k := h.publishers[p].dead, h.publishers[p].pc.k;
    if k == |dead| {
      events, g := [], h;
    } else {
      var m := Step(h, Evict(p));
      RemoveShrinks(h.registered, dead[k]);
      assert m == Goto(h, p, Removing(k + 1)).(registered := Broadcast.RemoveFirst(h.registered, dead[k]));
      forall j | k + 1 <= j < |dead|
        ensures dead[j] in m.registered
      {
      }
      assert dead[k..][1..] == dead[k + 1..];
      var more;
      more, g := EvictRest(m, p);
      events := [Evict(p)] + more;
      assert g.publishers == Goto(h, p, Removing(|dead|)).publishers;
    }
  }

  /** The end of the first loop and the second one, which removes what the first one found full. */
  lemma RemovalsAlone(n: Hub, p: nat, dead: seq<nat>) returns (events: seq<Event>)
    requires Sorted(n.registered) && Possible(n, EndLoop(p)) && dead == n.publishers[p].dead
    requires Broadcast.Distinct(dead) && forall x :: x in dead ==> x in n.registered
    ensures var g := Goto(n, p, Removing(|dead|)).(published := n.published + [p]);
      OwnSteps(events, p) && Runs(n, events, g.(registered := Broadcast.RemoveAll(n.registered, dead)))
  {
    var g;
    events, g := EvictRest(Step(n, EndLoop(p)), p);
    assert dead[0..] == dead;
    assert g.publishers == Goto(n, p, Removing(|dead|)).publishers;
    events := [EndLoop(p)] + events;
  }

  lemma FirstLoopAlone(h: Hub, result: Broadcast.Result, fallback: Option<Broadcast.Result>) returns (events: seq<Event>, n: Hub)
    requires Inv(h)
    ensures var p := |h.publishers|; OwnSteps(events, p) && Runs(Begin(h, result, fallback), events, n)
    ensures n == h.(publishers := n.publishers, queues := n.queues)
    ensures var pc := Iterating(|h.registered|);
      n.publishers == h.publishers + [Publisher(result, fallback, pc, Fulls(h.registered, h.queues))]
    ensures OfferedTo(h.queues, h.registered, |h.publishers|, n.queues)
  {
    var p, m := |h.publishers|, Begin(h, result, fallback);
    StepKeeps(h, Start(result, fallback));
    events := OfferRest(m, p);
    assert h.registered[0..] == h.registered;
    OfferAllPublisher(m, p, h.registered);
    OfferAllQueues(m, p, h.registered);
    n := OfferAll(m, p, h.registered);
    assert [] + Fulls(h.registered, h.queues) == Fulls(h.registered, h.queues);
  }

  /** A publish that nothing overlaps. */
  lemma AlonePublish(h: Hub, result: Broadcast.Result, fallback: Option<Broadcast.Result>) returns (events: seq<Event>, g: Hub)
    requires Inv(h)
    ensures OwnSteps(events, |h.publishers|) && Runs(h, [Start(result, fallback)] + events, g)
    ensures var p, dead := |h.publishers|, Fulls(h.registered, h.queues);
      && g.publishers == h.publishers + [Publisher(result, fallback, Removing(|dead|), dead)]
      && g.registered == Broadcast.RemoveAll(h.registered, dead) && g.leaving == h.leaving
      && g.published == h.published + [p] && OfferedTo(h.queues, h.registered, p, g.queues)
  {
    var p, dead, n := |h.publishers|, Fulls(h.registered, h.queues), h;
    events, n := FirstLoopAlone(h, result, fallback);
    Broadcast.ThoseProperties(h.registered, Sizes(h.queues), true);
    var more := RemovalsAlone(n, p, dead);
    g := Goto(n, p, Removing(|dead|)).(published := n.published + [p], registered := Broadcast.RemoveAll(n.registered, dead));
    RunsConcat(Begin(h, result, fallback), events, n, more, g);
    events := events + more;
    assert ([Start(result, fallback)] + events)[1..] == events;
  }

  /** A publish that nothing overlaps is the one atomic publish. */
  lemma AlonePublishIsAtomic(h: Hub, a: Broadcast.Hub, result: Broadcast.Result, fallback: Option<Broadcast.Result>)
    returns (events: seq<Event>, g: Hub)
    requires Inv(h) && Matches(h, a)
    ensures OwnSteps(events, |h.publishers|) && Runs(h, [Start(result, fallback)] + events, g)
    ensures Matches(g, Broadcast.Publish(a, result)) && g.leaving == h.leaving && (Quiet(h) ==> Quiet(g))
  {
    events, g := AlonePublish(h, result, fallback);
    assert Sizes(h.queues) == Broadcast.Sizes(a.queues) by {
      assert forall x :: 0 <= x < |h.queues| ==> |Results(h, h.queues[x].unread)| == |h.queues[x].unread|;
    }
    Broadcast.RemovingTheFull(h.registered, Sizes(h.queues));
    PublishMatches(h, a, result, g);
    assert forall n: nat :: Unfinished(g, n) ==> Unfinished(h, n);
  }

  lemma PublishMatches(h: Hub, a: Broadcast.Hub, result: Broadcast.Result, g: Hub)
    requires Inv(h) && Matches(h, a)
    requires |g.publishers| == |h.publishers| + 1 && g.publishers[..|h.publishers|] == h.publishers
    requires g.publishers[|h.publishers|].result == result
    requires OfferedTo(h.queues, h.registered, |h.publishers|, g.queues)
    requires g.registered == Broadcast.Those(h.registered, Broadcast.Sizes(a.queues), false)
    ensures Matches(g, Broadcast.Publish(a, result))
  {
    var b := Broadcast.Publish(a, result);
    forall x | 0 <= x < |g.queues|
      ensures Results(g, g.queues[x].taken) == b.queues[x].taken && Results(g, g.queues[x].unread) == b.queues[x].unread
    {
      ResultsStay(h, g, x);
      assert |h.queues[x].unread| == |a.queues[x].unread|;
    }
  }

  /** What is in a queue is known already, so one more publish does not change its result. */
  lemma ResultsStay(h: Hub, g: Hub, x: nat)
    requires Inv(h) && x < |h.queues| && |g.publishers| >= |h.publishers| && g.publishers[..|h.publishers|] == h.publishers
    ensures Results(g, h.queues[x].taken) == Results(h, h.queues[x].taken)
    ensures Results(g, h.queues[x].unread) == Results(h, h.queues[x].unread)
  {
    var q := h.queues[x];
    assert QueueRight(h, x);
    forall n | n in q.taken || n in q.unread
      ensures At(h, n) && g.publishers[n] == h.publishers[n]
    {
      assert n in q.History();
      assert g.publishers[..|h.publishers|][n] == h.publishers[n];
    }
  }

  lemma DisconnectMatches(h: Hub, a: Broadcast.Hub, id: nat) returns (events: seq<Event>, g: Hub)
    requires Inv(h) && Matches(h, a) && h.leaving.None? && id < |h.queues|
    ensures Runs(h, events, g) && Matches(g, Broadcast.Cleanup(a, id)) && g.leaving.None? && g.publishers == h.publishers
  {
    if id in h.registered {
      var m := Step(h, Tests(id));
      g := Step(m, Cleans);
      events := [Tests(id), Cleans];
      assert Runs(g, [], g) && events[1..] == [Cleans] && Runs(m, [Cleans], g);
    } else {
      g := Step(h, Tests(id));
      events := [Tests(id)];
      assert Runs(g, [], g);
    }
    forall x | 0 <= x < |h.queues|
      ensures Results(g, h.queues[x].taken) == Results(h, h.queues[x].taken)
      ensures Results(g, h.queues[x].unread) == Results(h, h.queues[x].unread)
    {
    }
  }

  /** One atomic step, made by threads that do not overlap. */
  lemma SequentialStep(h: Hub, a: Broadcast.Hub, e: Broadcast.Event) returns (events: seq<Event>, g: Hub)
    requires Inv(h) && Matches(h, a) && Quiet(h) && h.leaving.None? && Broadcast.Possible(a, e)
    ensures Runs(h, events, g) && Matches(g, Broadcast.Step(a, e)) && Quiet(g) && g.leaving.None?
  {
    match e {
      case Connects =>
        events, g := [Connects], Step(h, Connects);
        assert Runs(g, [], g);
        assert forall p: nat :: Unfinished(g, p) ==> Unfinished(h, p);
      case Publishes(result) =>
        events, g := AlonePublishIsAtomic(h, a, result, None);
        events := [Start(result, None)] + events;
      case Takes(id) =>
        events, g := [Takes(id)], Step(h, Takes(id));
        assert Runs(g, [], g);
        assert forall p: nat :: Unfinished(g, p) ==> Unfinished(h, p);
      case Stops(id) =>
        events, g := [Stops(id)], Step(h, Stops(id));
        assert Runs(g, [], g);
        assert forall p: nat :: Unfinished(g, p) ==> Unfinished(h, p);
      case Disconnects(id) =>
        events, g := DisconnectMatches(h, a, id);
        assert forall p: nat :: Unfinished(g, p) ==> Unfinished(h, p);
    }
  }

  /** Every run of the sequential broadcaster is a run of the threads in which no publish is overlapped. */
  lemma {:induction false} SequentialRuns(h: Hub, a: Broadcast.Hub, steps: seq<Broadcast.Event>, b: Broadcast.Hub)
    returns (events: seq<Event>, g: Hub)
    requires Inv(h) && Matches(h, a) && Quiet(h) && h.leaving.None? && Broadcast.Runs(a, steps, b)
    ensures Runs(h, events, g) && Matches(g, b) && Quiet(g)
    decreases |steps|
  {
    if steps == [] {
      events, g := [], h;
    } else {
      var first, m := SequentialStep(h, a, steps[0]);
      RunKeeps(h, first, m);
      var more;
      more, g := SequentialRuns(m, Broadcast.Step(a, steps[0]), steps[1..], b);
      RunsConcat(h, first, m, more, g);
      events := first + more;
    }
  }
}
