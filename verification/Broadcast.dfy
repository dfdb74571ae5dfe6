/**
The broadcaster behind the dashboard's WebSocket endpoint while publishes do not overlap anything:
every connection registers a bounded queue, a publish puts the result into each registered queue,
and a full queue is evicted. BroadcastThreads takes the same steps apart and interleaves them.
 */
module Broadcast {
  import opened Basics

  const QUEUE_SIZE := 256

  type Result = string

  /**
  A connection's queue: what its listener took and what is still unread, how many results were
  published before it registered, and before it was unregistered, and whether its listener still reads.
   */
  datatype Queue = Queue(taken: seq<Result>, unread: seq<Result>, joined: nat, left: Option<nat>, listened: bool) {
    predicate Full() {
      |unread| >= QUEUE_SIZE
    }
  }

  /** Queues are named by the order in which they were made; `registered` is the global list. */
  datatype Hub = Hub(published: seq<Result>, queues: seq<Queue>, registered: seq<nat>)

  const EMPTY := Hub([], [], [])

  // ---- the operations ----

  function Register(h: Hub): Hub {
    h.(queues := h.queues + [Queue([], [], |h.published|, None, true)], registered := h.registered + [|h.queues|])
  }

  /** What a publish does to one registered queue. */
  function Offer(q: Queue, result: Result, published: nat): Queue {
    if q.Full() then q.(left := Some(published)) else q.(unread := q.unread + [result])
  }

  /** How many results are unread in each queue. */
  function Sizes(queues: seq<Queue>): seq<nat> {
    seq(|queues|, i requires 0 <= i < |queues| => |queues[i].unread|)
  }

  predicate IsFull(sizes: seq<nat>, id: nat) {
    id < |sizes| && sizes[id] >= QUEUE_SIZE
  }

  /** Those of the listed queues that are full, or are not. */
  function Those(ids: seq<nat>, sizes: seq<nat>, full: bool): seq<nat> {
    if ids == [] then [] else (if IsFull(sizes, ids[0]) == full then [ids[0]] else []) + Those(ids[1..], sizes, full)
  }

  function Publish(h: Hub, result: Result): Hub {
    Hub(h.published + [result],
        seq(|h.queues|, i requires 0 <= i < |h.queues| =>
          if i in h.registered then Offer(h.queues[i], result, |h.published|) else h.queues[i]),
        Those(h.registered, Sizes(h.queues), false))
  }

  predicate CanTake(h: Hub, id: nat) {
    id < |h.queues| && h.queues[id].listened && h.queues[id].unread != []
  }

  function Take(h: Hub, id: nat): Hub
    requires CanTake(h, id)
  {
    var q := h.queues[id];
    h.(queues := h.queues[id := q.(taken := q.taken + [q.unread[0]], unread := q.unread[1..])])
  }

  /** `list.remove`: the first occurrence. */
  function RemoveFirst(ids: seq<nat>, id: nat): seq<nat> {
    if ids == [] then [] else if ids[0] == id then ids[1..] else [ids[0]] + RemoveFirst(ids[1..], id)
  }

  /** The listener stops reading. */
  function Silence(h: Hub, id: nat): Hub
    requires id < |h.queues|
  {
    h.(queues := h.queues[id := h.queues[id].(listened := false)])
  }

  /** What the endpoint does when its connection has ended, its listener included. */
  function Cleanup(h: Hub, id: nat): Hub
    requires id < |h.queues|
  {
    if id in h.registered
    then h.(queues := h.queues[id := h.queues[id].(left := Some(|h.published|), listened := false)],
            registered := RemoveFirst(h.registered, id))
    else Silence(h, id)
  }

  datatype Event = Connects | Publishes(result: Result) | Takes(id: nat) | Stops(id: nat) | Disconnects(id: nat)

  predicate Possible(h: Hub, e: Event) {
    match e
    case Takes(id) => CanTake(h, id)
    case Stops(id) => id < |h.queues|
    case Disconnects(id) => id < |h.queues|
    case _ => true
  }

  function Step(h: Hub, e: Event): Hub
    requires Possible(h, e)
  {
    match e
    case Connects => Register(h)
    case Publishes(result) => Publish(h, result)
    case Takes(id) => Take(h, id)
    case Stops(id) => Silence(h, id)
    case Disconnects(id) => Cleanup(h, id)
  }

  ghost predicate Runs(h: Hub, events: seq<Event>, g: Hub)
    decreases |events|
  {
    if events == [] then h == g else Possible(h, events[0]) && Runs(Step(h, events[0]), events[1..], g)
  }

  // ---- the history of a queue ----

  predicate Distinct(ids: seq<nat>) {
    forall i, j :: 0 <= i < j < |ids| ==> ids[i] != ids[j]
  }

  /** The results published while the queue was registered. */
  function Due(h: Hub, id: nat): seq<Result>
    requires id < |h.queues| && InRange(h, h.queues[id])
  {
    var q := h.queues[id];
    h.published[q.joined..if q.left.Some? then q.left.value else |h.published|]
  }

  predicate InRange(h: Hub, q: Queue) {
    q.joined <= (if q.left.Some? then q.left.value else |h.published|) <= |h.published|
  }

  /** What was taken followed by what is unread is exactly what was published while registered. */
  ghost predicate HistoryRight(h: Hub, id: nat)
    requires id < |h.queues|
  {
    var q := h.queues[id];
    && InRange(h, q)
    && q.taken + q.unread == Due(h, id)
    && |q.unread| <= QUEUE_SIZE
    && (q.left.None? <==> id in h.registered)
  }

  ghost predicate Inv(h: Hub) {
    && Distinct(h.registered)
    && (forall id :: id in h.registered ==> id < |h.queues|)
    && (forall id: nat :: id < |h.queues| ==> HistoryRight(h, id))
  }

  lemma {:induction false} ThoseProperties(ids: seq<nat>, sizes: seq<nat>, full: bool)
    requires Distinct(ids)
    ensures var kept := Those(ids, sizes, full);
      && Distinct(kept)
      && (forall id :: id in kept <==> id in ids && IsFull(sizes, id) == full)
  {
    if ids != [] {
      ThoseProperties(ids[1..], sizes, full);
      assert ids == [ids[0]] + ids[1..];
      assert ids[0] !in ids[1..];
    }
  }

  lemma {:induction false} RemoveFirstProperties(ids: seq<nat>, id: nat)
    requires Distinct(ids)
    ensures Distinct(RemoveFirst(ids, id))
    ensures forall x :: x in RemoveFirst(ids, id) <==> x in ids && x != id
  {
    if ids != [] {
      RemoveFirstProperties(ids[1..], id);
      assert ids == [ids[0]] + ids[1..];
      assert ids[0] !in ids[1..];
    }
  }

  lemma PublishKeeps(h: Hub, result: Result)
    requires Inv(h)
    ensures Inv(Publish(h, result))
  {
    var g := Publish(h, result);
    ThoseProperties(h.registered, Sizes(h.queues), false);
    forall id: nat | id < |g.queues|
      ensures HistoryRight(g, id)
    {
      assert HistoryRight(h, id);
      var q := h.queues[id];
      var end := if q.left.Some? then q.left.value else |h.published|;
      assert g.published[q.joined..end] == h.published[q.joined..end];
      assert g.published[q.joined..] == h.published[q.joined..] + [result];
    }
  }

  lemma SilenceKeeps(h: Hub, id: nat)
    requires Inv(h) && id < |h.queues|
    ensures Inv(Silence(h, id))
  {
    var g := Silence(h, id);
    forall i: nat | i < |g.queues|
      ensures HistoryRight(g, i)
    {
      assert HistoryRight(h, i);
    }
  }

  lemma CleanupKeeps(h: Hub, id: nat)
    requires Inv(h) && id < |h.queues|
    ensures Inv(Cleanup(h, id))
  {
    var g := Cleanup(h, id);
    RemoveFirstProperties(h.registered, id);
    forall i: nat | i < |g.queues|
      ensures HistoryRight(g, i)
    {
      assert HistoryRight(h, i);
    }
  }

  lemma TakeKeeps(h: Hub, id: nat)
    requires Inv(h) && CanTake(h, id)
    ensures Inv(Take(h, id))
  {
    var g := Take(h, id);
    forall i: nat | i < |g.queues|
      ensures HistoryRight(g, i)
    {
      assert HistoryRight(h, i);
      assert HistoryRight(h, id);
      assert h.queues[id].unread == [h.queues[id].unread[0]] + h.queues[id].unread[1..];
    }
  }

  lemma RegisterKeeps(h: Hub)
    requires Inv(h)
    ensures Inv(Register(h))
  {
    var g := Register(h);
    assert forall k :: 0 <= k < |h.registered| ==> h.registered[k] in h.registered;
    forall i: nat | i < |g.queues|
      ensures HistoryRight(g, i)
    {
      if i < |h.queues| {
        assert HistoryRight(h, i);
      } else {
        assert g.registered[|h.registered|] == i;
      }
    }
  }

  lemma StepKeeps(h: Hub, e: Event)
    requires Inv(h) && Possible(h, e)
    ensures Inv(Step(h, e))
  {
    match e {
      case Connects => RegisterKeeps(h);
      case Publishes(result) => PublishKeeps(h, result);
      case Takes(id) => TakeKeeps(h, id);
      case Stops(id) => SilenceKeeps(h, id);
      case Disconnects(id) => CleanupKeeps(h, id);
    }
  }

  lemma {:induction false} RunKeeps(h: Hub, events: seq<Event>, g: Hub)
    requires Inv(h) && Runs(h, events, g)
    ensures Inv(g)
    decreases |events|
  {
    if events != [] {
      StepKeeps(h, events[0]);
      RunKeeps(Step(h, events[0]), events[1..], g);
    }
  }

  /**
  In every run, what a connection has taken and has still to read is exactly what was published
  since it registered, up to now if it is registered, and up to its removal if not.
   */
  lemma HistoryIsExact(events: seq<Event>, h: Hub, id: nat)
    requires Runs(EMPTY, events, h) && id < |h.queues|
    ensures var q := h.queues[id];
      && InRange(h, q)
      && q.taken + q.unread == Due(h, id)
      && |q.unread| <= 256
      && (id in h.registered <==> q.left.None?)
  {
    RunKeeps(EMPTY, events, h);
    assert HistoryRight(h, id);
  }

  /** A publish evicts exactly the registered queues with 256 unread results; every other one gets the result. */
  lemma EvictionIsExact(h: Hub, result: Result, id: nat)
    requires Inv(h) && id < |h.queues| && id in h.registered
    ensures var g := Publish(h, result);
      && (id !in g.registered <==> |h.queues[id].unread| == 256)
      && g.queues[id].taken == h.queues[id].taken
      && g.queues[id].unread == (if |h.queues[id].unread| == 256 then h.queues[id].unread else h.queues[id].unread + [result])
  {
    ThoseProperties(h.registered, Sizes(h.queues), false);
    assert HistoryRight(h, id);
  }

  /** Once unregistered a queue is never offered anything again, although its listener may still drain it. */
  lemma {:induction false} UnregisteredIsFrozen(h: Hub, events: seq<Event>, g: Hub, id: nat)
    requires Inv(h) && Runs(h, events, g) && id < |h.queues| && id !in h.registered
    ensures id < |g.queues| && id !in g.registered
    ensures g.queues[id].taken + g.queues[id].unread == h.queues[id].taken + h.queues[id].unread
    decreases |events|
  {
    if events != [] {
      var e := events[0];
      var m := Step(h, e);
      StepKeeps(h, e);
      ThoseProperties(h.registered, Sizes(h.queues), false);
      if e.Disconnects? {
        RemoveFirstProperties(h.registered, e.id);
      }
      if e == Takes(id) {
        assert h.queues[id].unread == [h.queues[id].unread[0]] + h.queues[id].unread[1..];
      }
      UnregisteredIsFrozen(m, events[1..], g, id);
    }
  }

  /** The end of a connection removes its queue and no other, and no queue at all after an eviction. */
  lemma CleanupRemovesOnlyItsOwn(h: Hub, id: nat)
    requires Inv(h) && id < |h.queues|
    ensures forall x :: x in Cleanup(h, id).registered <==> x in h.registered && x != id
    ensures id !in h.registered ==> Cleanup(h, id) == Silence(h, id)
    ensures forall i :: 0 <= i < |h.queues| && i != id ==> Cleanup(h, id).queues[i] == h.queues[i]
  {
    RemoveFirstProperties(h.registered, id);
  }

  // ---- the program ----

  /** Remove the listed queues one after the other. */
  function RemoveAll(ids: seq<nat>, dead: seq<nat>): seq<nat>
    decreases |dead|
  {
    if dead == [] then ids else RemoveAll(RemoveFirst(ids, dead[0]), dead[1..])
  }

  lemma {:induction false} RemoveAllSkips(x: nat, ids: seq<nat>, dead: seq<nat>)
    requires x !in dead
    ensures RemoveAll([x] + ids, dead) == [x] + RemoveAll(ids, dead)
    decreases |dead|
  {
    if dead != [] {
      assert ([x] + ids)[1..] == ids;
      RemoveAllSkips(x, RemoveFirst(ids, dead[0]), dead[1..]);
    }
  }

  lemma {:induction false} RemovingTheFull(ids: seq<nat>, sizes: seq<nat>)
    requires Distinct(ids)
    ensures RemoveAll(ids, Those(ids, sizes, true)) == Those(ids, sizes, false)
  {
    if ids != [] {
      var x, rest := ids[0], ids[1..];
      RemovingTheFull(rest, sizes);
      if IsFull(sizes, x) {
        assert Those(ids, sizes, true)[1..] == Those(rest, sizes, true);
      } else {
        NotAmong(x, rest, sizes);
        assert ids == [x] + rest;
        assert Those(ids, sizes, true) == Those(rest, sizes, true);
        RemoveAllSkips(x, rest, Those(rest, sizes, true));
      }
    }
  }

  lemma NotAmong(x: nat, ids: seq<nat>, sizes: seq<nat>)
    requires Distinct(ids) && x !in ids
    ensures x !in Those(ids, sizes, true)
  {
    ThoseProperties(ids, sizes, true);
  }

  lemma {:induction false} ThoseConcat(xs: seq<nat>, ys: seq<nat>, sizes: seq<nat>, full: bool)
    ensures Those(xs + ys, sizes, full) == Those(xs, sizes, full) + Those(ys, sizes, full)
  {
    if xs == [] {
      assert xs + ys == ys;
    } else {
      var first := if IsFull(sizes, xs[0]) == full then [xs[0]] else [];
      assert (xs + ys)[0] == xs[0] && (xs + ys)[1..] == xs[1..] + ys;
      assert Those(xs + ys, sizes, full) == first + Those(xs[1..] + ys, sizes, full);
      ThoseConcat(xs[1..], ys, sizes, full);
    }
  }

  lemma TheFullSnoc(ids: seq<nat>, id: nat, sizes: seq<nat>)
    ensures Those(ids + [id], sizes, true) == Those(ids, sizes, true) + (if IsFull(sizes, id) then [id] else [])
  {
    ThoseConcat(ids, [id], sizes, true);
    assert Those([id], sizes, true) == (if IsFull(sizes, id) then [id] else []) + Those([id][1..], sizes, true);
  }

  /** The queues after the first `ids` of the registered ones were offered the result, if not full. */
  ghost predicate Offered(before: seq<Queue>, ids: seq<nat>, result: Result, after: seq<Queue>) {
    && |after| == |before|
    && forall i :: 0 <= i < |after| ==>
         after[i] == if i in ids && !before[i].Full() then before[i].(unread := before[i].unread + [result]) else before[i]
  }

  /** Of these queues, the ones in `ids` were removed when `published` results were out. */
  ghost predicate Removed(before: seq<Queue>, ids: seq<nat>, published: nat, after: seq<Queue>) {
    && |after| == |before|
    && forall i :: 0 <= i < |after| ==> after[i] == if i in ids then before[i].(left := Some(published)) else before[i]
  }

  lemma PublishDone(h: Hub, result: Result, offered: seq<Queue>, queues: seq<Queue>)
    requires Inv(h) && Offered(h.queues, h.registered, result, offered)
    requires Removed(offered, Those(h.registered, Sizes(h.queues), true), |h.published|, queues)
    ensures queues == Publish(h, result).queues
  {
    ThoseProperties(h.registered, Sizes(h.queues), true);
    forall i | 0 <= i < |queues|
      ensures queues[i] == Publish(h, result).queues[i]
    {
      assert i in Those(h.registered, Sizes(h.queues), true) <==> i in h.registered && h.queues[i].Full();
    }
  }

  class Broadcaster {
    var agentQueues: seq<nat>
    var queues: seq<Queue>
    var published: seq<Result>   // kept for the record only

    ghost function Now(): Hub
      reads this
    {
      Hub(published, queues, agentQueues)
    }

    constructor ()
      ensures Now() == EMPTY && Inv(Now())
    {
      agentQueues, queues, published := [], [], [];
    }

    /** A new connection: make its queue and append it to the global list. */
    method Connect() returns (id: nat)
      requires Inv(Now())
      modifies this
      ensures Inv(Now()) && Now() == Register(old(Now())) && id == |old(queues)|
    {
      RegisterKeeps(Now());
      id := |queues|;
      queues := queues + [Queue([], [], |published|, None, true)];
      agentQueues := agentQueues + [id];
    }

    /** The first loop of a publish: offer the result to every registered queue, noting the full ones. */
    method OfferToAll(result: Result) returns (dead: seq<nat>)
      requires Inv(Now())
      modifies this`queues
      ensures dead == Those(agentQueues, Sizes(old(queues)), true)
      ensures Offered(old(queues), agentQueues, result, queues)
    {
      dead := [];
      for k := 0 to |agentQueues|
        invariant dead == Those(agentQueues[..k], Sizes(old(queues)), true)
        invariant Offered(old(queues), agentQueues[..k], result, queues)
      {
        var id := agentQueues[k];
        assert id in agentQueues;
        assert agentQueues[..k + 1] == agentQueues[..k] + [id] && id !in agentQueues[..k];
        TheFullSnoc(agentQueues[..k], id, Sizes(old(queues)));
        if queues[id].Full() {
          dead := dead + [id];
        } else {
          queues := queues[id := queues[id].(unread := queues[id].unread + [result])];
        }
      }
      assert agentQueues[..|agentQueues|] == agentQueues;
    }

    /** The second loop: remove the queues that were full. */
    method RemoveDead(dead: seq<nat>)
      requires forall id :: id in dead ==> id < |queues|
      modifies this`agentQueues, this`queues
      ensures agentQueues == RemoveAll(old(agentQueues), dead)
      ensures Removed(old(queues), dead, |published|, queues)
    {
      for k := 0 to |dead|
        invariant RemoveAll(agentQueues, dead[k..]) == RemoveAll(old(agentQueues), dead)
        invariant Removed(old(queues), dead[..k], |published|, queues)
      {
        var id := dead[k];
        assert id in dead;
        assert dead[..k + 1] == dead[..k] + [id] && dead[k..][1..] == dead[k + 1..];
        agentQueues := RemoveFirst(agentQueues, id);
        queues := queues[id := queues[id].(left := Some(|published|))];
      }
      assert dead[..|dead|] == dead && dead[|dead|..] == [];
    }

    method PublishAgentResult(result: Result)
      requires Inv(Now())
      modifies this
      ensures Inv(Now()) && Now() == Publish(old(Now()), result)
    {
      PublishKeeps(Now(), result);
      RemovingTheFull(agentQueues, Sizes(queues));
      ThoseProperties(agentQueues, Sizes(queues), true);
      var dead := OfferToAll(result);
      ghost var offered := queues;
      RemoveDead(dead);
      PublishDone(old(Now()), result, offered, queues);
      published := published + [result];
    }

    /** The listener of connection `id` takes the next result, if there is one before its timeout. */
    method Get(id: nat) returns (result: Option<Result>)
      requires Inv(Now()) && id < |queues| && queues[id].listened
      modifies this
      ensures Inv(Now())
      ensures if CanTake(old(Now()), id) then Now() == Take(old(Now()), id) && result == Some(old(queues[id].unread[0]))
              else Now() == old(Now()) && result == None
    {
      if queues[id].unread == [] {
        return None;
      }
      TakeKeeps(Now(), id);
      var q := queues[id];
      result := Some(q.unread[0]);
      queues := queues[id := q.(taken := q.taken + [q.unread[0]], unread := q.unread[1..])];
    }

    /** The listener of connection `id` ends, by itself or because the connection is to be closed. */
    method StopListening(id: nat)
      requires Inv(Now()) && id < |queues|
      modifies this`queues
      ensures Inv(Now()) && Now() == Silence(old(Now()), id)
    {
      SilenceKeeps(Now(), id);
      queues := queues[id := queues[id].(listened := false)];
    }

    /** Connection `id` has ended. */
    method Disconnect(id: nat)
      requires Inv(Now()) && id < |queues|
      modifies this
      ensures Inv(Now()) && Now() == Cleanup(old(Now()), id)
    {
      CleanupKeeps(Now(), id);
      var q := queues[id].(listened := false);
      if id in agentQueues {
        agentQueues := RemoveFirst(agentQueues, id);
        q := q.(left := Some(|published|));
      }
      queues := queues[id := q];
    }
  }
}
