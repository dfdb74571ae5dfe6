/**
The broadcaster as it really runs: a publish is made by a worker thread, while connections come,
read and go on the event loop and other threads publish. A thread is a program counter that stops
between any two accesses to the global list or to a queue. The list is iterated by a live index,
as Python does: removing an element moves all later ones.
 */
module BroadcastThreads {
  import opened Basics
  import Broadcast

  /**
  A connection's queue, and whether its listener still reads. Publishes are named by the order in
  which they start.
   */
  datatype Queue = Queue(taken: seq<nat>, unread: seq<nat>, joined: nat, listened: bool) {
    predicate Full() {
      |unread| >= Broadcast.QUEUE_SIZE
    }

    function History(): seq<nat> {
      taken + unread
    }
  }

  datatype Pc =
    | Iterating(next: nat)             // about to get the next queue from the list
    | Holding(next: nat, id: nat)      // about to test whether this queue is full
    | Appending(next: nat, id: nat)    // it was not full; about to append
    | Removing(k: nat)                 // the second loop
    | Raised                           // a queue to be removed was gone
  {
    /** In the first loop. */
    predicate Offers() {
      Iterating? || Holding? || Appending?
    }

    predicate Holds(x: nat) {
      (Holding? || Appending?) && id == x
    }
  }

  /** One call of `publish_agent_result`; if it raises, its caller publishes the fallback. */
  datatype Publisher = Publisher(result: Broadcast.Result, fallback: Option<Broadcast.Result>, pc: Pc, dead: seq<nat>)

  datatype Hub = Hub(
    registered: seq<nat>,         // the global list
    queues: seq<Queue>,
    publishers: seq<Publisher>,
    published: seq<nat>,          // in the order in which their first loops ended
    leaving: Option<nat>          // the event loop found this queue in the list and is about to remove it
  )

  const EMPTY := Hub([], [], [], [], None)

  datatype Event =
    | Start(result: Broadcast.Result, fallback: Option<Broadcast.Result>)
    | Fetch(p: nat) | Check(p: nat) | Append(p: nat) | EndLoop(p: nat) | Evict(p: nat)
    | Connects | Takes(id: nat) | Stops(id: nat) | Tests(id: nat) | Cleans

  // ---- the steps ----

  predicate At(h: Hub, p: nat) {
    p < |h.publishers|
  }

  predicate Unfinished(h: Hub, p: nat) {
    At(h, p) && h.publishers[p].pc.Offers()
  }

  predicate Possible(h: Hub, e: Event) {
    match e
    case Start(_, _) => true
    case Fetch(p) => At(h, p) && h.publishers[p].pc.Iterating? && h.publishers[p].pc.next < |h.registered|
    case Check(p) => At(h, p) && h.publishers[p].pc.Holding? && h.publishers[p].pc.id < |h.queues|
    case Append(p) => At(h, p) && h.publishers[p].pc.Appending? && h.publishers[p].pc.id < |h.queues|
    case EndLoop(p) => At(h, p) && h.publishers[p].pc.Iterating? && h.publishers[p].pc.next >= |h.registered|
    case Evict(p) => At(h, p) && h.publishers[p].pc.Removing? && h.publishers[p].pc.k < |h.publishers[p].dead|
    // the event loop runs one piece at a time
    case Connects => h.leaving.None?
    case Takes(id) => h.leaving.None? && id < |h.queues| && h.queues[id].listened && h.queues[id].unread != []
    case Stops(id) => h.leaving.None? && id < |h.queues|
    case Tests(id) => h.leaving.None? && id < |h.queues|
    case Cleans => h.leaving.Some?
  }

  function Goto(h: Hub, p: nat, pc: Pc): Hub
    requires At(h, p)
  {
    h.(publishers := h.publishers[p := h.publishers[p].(pc := pc)])
  }

  function Remove(h: Hub, id: nat): Hub {
    h.(registered := Broadcast.RemoveFirst(h.registered, id))
  }

  function Begin(h: Hub, result: Broadcast.Result, fallback: Option<Broadcast.Result>): Hub {
    h.(publishers := h.publishers + [Publisher(result, fallback, Iterating(0), [])])
  }

  /** `list.remove` raises if the queue is gone, and then the caller publishes its fallback. */
  function Raise(h: Hub, p: nat): Hub
    requires At(h, p)
  {
    var fallback := h.publishers[p].fallback;
    var g := Goto(h, p, Raised);
    if fallback.Some? then Begin(g, fallback.value, None) else g
  }

  function Silence(h: Hub, id: nat): Hub
    requires id < |h.queues|
  {
    h.(queues := h.queues[id := h.queues[id].(listened := false)])
  }

  function CheckFull(h: Hub, p: nat): Hub
    requires Possible(h, Check(p))
  {
    var pub := h.publishers[p];
    if h.queues[pub.pc.id].Full()
    then h.(publishers := h.publishers[p := pub.(pc := Iterating(pub.pc.next), dead := pub.dead + [pub.pc.id])])
    else Goto(h, p, Appending(pub.pc.next, pub.pc.id))
  }

  function AppendTo(h: Hub, p: nat): Hub
    requires Possible(h, Append(p))
  {
    var pc := h.publishers[p].pc;
    var q := h.queues[pc.id];
    Goto(h, p, Iterating(pc.next)).(queues := h.queues[pc.id := q.(unread := q.unread + [p])])
  }

  function EvictNext(h: Hub, p: nat): Hub
    requires Possible(h, Evict(p))
  {
    var pub := h.publishers[p];
    var id := pub.dead[pub.pc.k];
    if id in h.registered then Goto(Remove(h, id), p, Removing(pub.pc.k + 1)) else Raise(h, p)
  }

  function Step(h: Hub, e: Event): Hub
    requires Possible(h, e)
  {
    match e
    case Start(result, fallback) => Begin(h, result, fallback)
    case Fetch(p) =>
      var i := h.publishers[p].pc.next;
      Goto(h, p, Holding(i + 1, h.registered[i]))
    case Check(p) => CheckFull(h, p)
    case Append(p) => AppendTo(h, p)
    case EndLoop(p) => Goto(h, p, Removing(0)).(published := h.published + [p])
    case Evict(p) => EvictNext(h, p)
    case Connects =>
      h.(queues := h.queues + [Queue([], [], |h.published|, true)], registered := h.registered + [|h.queues|])
    case Takes(id) =>
      var q := h.queues[id];
      h.(queues := h.queues[id := q.(taken := q.taken + [q.unread[0]], unread := q.unread[1..])])
    case Stops(id) => Silence(h, id)
    // the endpoint cleans up only when its listener is over
    case Tests(id) => if id in h.registered then Silence(h, id).(leaving := Some(id)) else Silence(h, id)
    // raises if the queue is gone by now; the connection is over either way
    case Cleans => Remove(h, h.leaving.value).(leaving := None)
  }

  ghost predicate Runs(h: Hub, events: seq<Event>, g: Hub)
    decreases |events|
  {
    if events == [] then h == g else Possible(h, events[0]) && Runs(Step(h, events[0]), events[1..], g)
  }

  /** The queue that a step takes from the list. */
  function Removes(h: Hub, e: Event): Option<nat>
    requires Possible(h, e)
  {
    match e
    case Evict(p) =>
      var id := h.publishers[p].dead[h.publishers[p].pc.k];
      if id in h.registered then Some(id) else None
    case Cleans => if h.leaving.value in h.registered then h.leaving else None
    case _ => None
  }

  /** No publish is in its first loop. */
  ghost predicate Quiet(h: Hub) {
    forall p: nat :: !Unfinished(h, p)
  }

  /** The publishes that `x` should have got. */
  function Due(h: Hub, x: nat): seq<nat>
    requires x < |h.queues| && h.queues[x].joined <= |h.published|
  {
    h.published[h.queues[x].joined..]
  }

  // ---- the invariant ----

  predicate Sorted(ids: seq<nat>) {
    forall i, j :: 0 <= i < j < |ids| ==> ids[i] < ids[j]
  }

  /** All that is left of the list from `next` on comes after `x`. */
  predicate Beyond(h: Hub, next: nat, x: nat) {
    forall k :: next <= k < |h.registered| ==> h.registered[k] > x
  }

  /** Publish `p` has dealt with queue `x`, or has missed it: it will not offer it anything any more. */
  predicate Passed(h: Hub, p: nat, x: nat) {
    At(h, p) && (Unfinished(h, p) ==> var pc := h.publishers[p].pc; !pc.Holds(x) && Beyond(h, pc.next, x))
  }

  /** Publish `p` has queue `x` in hand or comes to it. */
  predicate Ahead(h: Hub, p: nat, x: nat) {
    Unfinished(h, p)
    && var pc := h.publishers[p].pc;
      pc.Holds(x) || exists k :: pc.next <= k < |h.registered| && h.registered[k] == x
  }

  /** What publish `p` found full it is done with, and has not given its result. */
  ghost predicate DeadRight(h: Hub, p: nat, x: nat) {
    x < |h.queues| && Passed(h, p, x) && p !in h.queues[x].History()
  }

  ghost predicate PublisherRight(h: Hub, p: nat)
    requires At(h, p)
  {
    var pub := h.publishers[p];
    && (pub.pc.Offers() <==> p !in h.published)
    && (pub.pc.Holding? || pub.pc.Appending? ==> pub.pc.id < |h.queues| && Beyond(h, pub.pc.next, pub.pc.id))
    && (forall j :: 0 <= j < |pub.dead| ==> DeadRight(h, p, pub.dead[j]))
    && Broadcast.Distinct(pub.dead)
    && (pub.pc.Removing? ==> pub.pc.k <= |pub.dead|
                             && forall j :: 0 <= j < pub.pc.k ==> pub.dead[j] !in h.registered)
  }

  ghost predicate QueueRight(h: Hub, x: nat)
    requires x < |h.queues|
  {
    var s := h.queues[x].History();
    && h.queues[x].joined <= |h.published|
    && Broadcast.Distinct(s)
    && forall i :: 0 <= i < |s| ==> Passed(h, s[i], x)
  }

  ghost predicate ListRight(h: Hub) {
    && Sorted(h.registered)
    && (forall k :: 0 <= k < |h.registered| ==> h.registered[k] < |h.queues|)
    && Broadcast.Distinct(h.published)
    && (forall k :: 0 <= k < |h.published| ==> At(h, h.published[k]))
    && (h.leaving.Some? ==> h.leaving.value < |h.queues|)
  }

  ghost predicate Inv(h: Hub) {
    && ListRight(h)
    && (forall p: nat :: At(h, p) ==> PublisherRight(h, p))
    && (forall x: nat :: x < |h.queues| ==> QueueRight(h, x))
  }

  lemma {:induction false} RemoveFirstAbsent(ids: seq<nat>, id: nat)
    requires id !in ids
    ensures Broadcast.RemoveFirst(ids, id) == ids
  {
    if ids != [] {
      assert id !in ids[1..];
      RemoveFirstAbsent(ids[1..], id);
    }
  }

  /** Where everything is after the removal of position `k`. */
  lemma {:induction false} RemoveFirstAt(ids: seq<nat>, k: nat)
    requires Sorted(ids) && k < |ids|
    ensures Broadcast.RemoveFirst(ids, ids[k]) == ids[..k] + ids[k + 1..]
  {
    if k > 0 {
      assert ids[0] < ids[k];
      RemoveFirstAt(ids[1..], k - 1);
    }
  }

  lemma WithoutIsSorted(ids: seq<nat>, k: nat)
    requires Sorted(ids) && k < |ids|
    ensures var kept := ids[..k] + ids[k + 1..];
      Sorted(kept) && |kept| <= |ids| && forall i :: 0 <= i < |kept| ==> kept[i] >= ids[i]
  {
    var kept := ids[..k] + ids[k + 1..];
    assert forall i :: 0 <= i < |kept| ==> kept[i] == ids[if i < k then i else i + 1];
  }

  lemma WithoutHas(ids: seq<nat>, k: nat, x: nat)
    requires Sorted(ids) && k < |ids|
    ensures x in ids[..k] + ids[k + 1..] <==> x in ids && x != ids[k]
  {
    var kept := ids[..k] + ids[k + 1..];
    if x in kept {
      var i :| 0 <= i < |kept| && kept[i] == x;
      assert x == ids[if i < k then i else i + 1];
    }
    if x in ids && x != ids[k] {
      var j :| 0 <= j < |ids| && ids[j] == x;
      assert kept[if j < k then j else j - 1] == x;
    }
  }

  /** Without `id` the list is still sorted, and at each position not smaller than before. */
  lemma RemoveShrinks(ids: seq<nat>, id: nat)
    requires Sorted(ids)
    ensures var kept := Broadcast.RemoveFirst(ids, id);
      && Sorted(kept)
      && |kept| <= |ids|
      && (forall x :: x in kept <==> x in ids && x != id)
      && (forall k :: 0 <= k < |kept| ==> kept[k] >= ids[k])
  {
    if k :| 0 <= k < |ids| && ids[k] == id {
      RemoveFirstAt(ids, k);
      WithoutIsSorted(ids, k);
      forall x
        ensures x in Broadcast.RemoveFirst(ids, id) <==> x in ids && x != id
      {
        WithoutHas(ids, k, x);
      }
    } else {
      RemoveFirstAbsent(ids, id);
    }
  }

  // ---- each step keeps the invariant ----

  lemma RemoveKeepsList(h: Hub, id: nat)
    requires ListRight(h)
    ensures ListRight(Remove(h, id))
  {
    RemoveShrinks(h.registered, id);
    var kept := Remove(h, id).registered;
    forall k | 0 <= k < |kept|
      ensures kept[k] < |h.queues|
    {
      assert kept[k] in h.registered;
    }
  }

  lemma StepKeepsList(h: Hub, e: Event)
    requires Inv(h) && Possible(h, e)
    ensures ListRight(Step(h, e))
  {
    match e {
      case EndLoop(p) => assert PublisherRight(h, p);
      case Evict(p) => RemoveKeepsList(h, h.publishers[p].dead[h.publishers[p].pc.k]);
      case Cleans => RemoveKeepsList(h, h.leaving.value);
      case _ =>
    }
  }

  /** The list without `id` is nowhere before where it was. */
  lemma RemovalStaysBeyond(h: Hub, id: nat, next: nat, x: nat)
    requires Sorted(h.registered) && Beyond(h, next, x)
    ensures Beyond(Remove(h, id), next, x)
  {
    RemoveShrinks(h.registered, id);
  }

  lemma RemovalPasses(h: Hub, e: Event, p: nat, x: nat)
    requires Inv(h) && Possible(h, e) && Passed(h, p, x) && (e.Evict? || e.Cleans?)
    ensures Passed(Step(h, e), p, x)
  {
    if Unfinished(h, p) {
      var id := if e.Cleans? then h.leaving.value else h.publishers[e.p].dead[h.publishers[e.p].pc.k];
      RemovalStaysBeyond(h, id, h.publishers[p].pc.next, x);
    }
  }

  /** What a publish has dealt with or missed it never offers anything to again. */
  lemma PassedStays(h: Hub, e: Event, p: nat, x: nat)
    requires Inv(h) && Possible(h, e) && Passed(h, p, x) && x < |h.queues|
    ensures Passed(Step(h, e), p, x)
  {
    if e.Evict? || e.Cleans? {
      RemovalPasses(h, e, p, x);
    }
  }

  /** What a step appends to the queue's history. */
  function Gets(h: Hub, e: Event, x: nat): seq<nat>
    requires Possible(h, e)
  {
    if e.Append? && h.publishers[e.p].pc.id == x then [e.p] else []
  }

  lemma HistoryGrows(h: Hub, e: Event, x: nat)
    requires Possible(h, e) && x < |h.queues|
    ensures x < |Step(h, e).queues| && Step(h, e).queues[x].joined == h.queues[x].joined
    ensures Step(h, e).queues[x].History() == h.queues[x].History() + Gets(h, e, x)
  {
    if e == Takes(x) {
      assert h.queues[x].unread == [h.queues[x].unread[0]] + h.queues[x].unread[1..];
    }
  }

  lemma DeadStays(h: Hub, e: Event, p: nat, x: nat)
    requires Inv(h) && Possible(h, e) && DeadRight(h, p, x)
    ensures DeadRight(Step(h, e), p, x)
  {
    PassedStays(h, e, p, x);
    HistoryGrows(h, e, x);
  }

  lemma OwnStepKeepsPublisher(h: Hub, e: Event, p: nat)
    requires Inv(h) && Possible(h, e) && e in {Fetch(p), Check(p), Append(p), EndLoop(p)}
    ensures PublisherRight(Step(h, e), p)
  {
    var g := Step(h, e);
    assert PublisherRight(h, p);
    if e.Check? {
      assert QueueRight(h, h.publishers[p].pc.id);
    }
    forall j | 0 <= j < |h.publishers[p].dead|
      ensures DeadRight(g, p, h.publishers[p].dead[j])
    {
      DeadStays(h, e, p, h.publishers[p].dead[j]);
    }
  }

  lemma EvictKeepsPublisher(h: Hub, p: nat)
    requires Inv(h) && Possible(h, Evict(p))
    ensures PublisherRight(Step(h, Evict(p)), p)
  {
    var g, dead, k := Step(h, Evict(p)), h.publishers[p].dead, h.publishers[p].pc.k;
    assert PublisherRight(h, p);
    assert g.publishers[p].dead == dead && !g.publishers[p].pc.Offers() && g.published == h.published;
    forall j | 0 <= j < |dead|
      ensures DeadRight(g, p, dead[j])
    {
      DeadStays(h, Evict(p), p, dead[j]);
    }
    if dead[k] in h.registered {
      RemoveShrinks(h.registered, dead[k]);
      assert forall j :: 0 <= j < k + 1 ==> dead[j] !in g.registered;
    }
  }

  lemma OtherRemovalKeepsPublisher(h: Hub, e: Event, p: nat)
    requires Inv(h) && Possible(h, e) && At(h, p) && ((e.Evict? && e.p != p) || e.Cleans?)
    ensures PublisherRight(Step(h, e), p)
  {
    var g, pub := Step(h, e), h.publishers[p];
    assert PublisherRight(h, p);
    forall j | 0 <= j < |pub.dead|
      ensures DeadRight(g, p, pub.dead[j])
    {
      DeadStays(h, e, p, pub.dead[j]);
    }
    var id := if e.Cleans? then h.leaving.value else h.publishers[e.p].dead[h.publishers[e.p].pc.k];
    if pub.pc.Holding? || pub.pc.Appending? {
      RemovalStaysBeyond(h, id, pub.pc.next, pub.pc.id);
    }
    RemoveShrinks(h.registered, id);
  }

  lemma OtherStepKeepsPublisher(h: Hub, e: Event, p: nat)
    requires Inv(h) && Possible(h, e) && At(h, p) && !e.Evict? && !e.Cleans?
    requires e !in {Fetch(p), Check(p), Append(p), EndLoop(p)}
    ensures PublisherRight(Step(h, e), p)
  {
    var g := Step(h, e);
    assert PublisherRight(h, p);
    forall j | 0 <= j < |h.publishers[p].dead|
      ensures DeadRight(g, p, h.publishers[p].dead[j])
    {
      DeadStays(h, e, p, h.publishers[p].dead[j]);
    }
  }

  lemma StepKeepsPublisher(h: Hub, e: Event, p: nat)
    requires Inv(h) && Possible(h, e) && At(Step(h, e), p)
    ensures PublisherRight(Step(h, e), p)
  {
    if !At(h, p) {
      assert forall k :: 0 <= k < |h.published| ==> At(h, h.published[k]);
    } else if e == Evict(p) {
      EvictKeepsPublisher(h, p);
    } else if e in {Fetch(p), Check(p), Append(p), EndLoop(p)} {
      OwnStepKeepsPublisher(h, e, p);
    } else if e.Evict? || e.Cleans? {
      OtherRemovalKeepsPublisher(h, e, p);
    } else {
      OtherStepKeepsPublisher(h, e, p);
    }
  }

  lemma StepKeepsQueue(h: Hub, e: Event, x: nat)
    requires Inv(h) && Possible(h, e) && x < |Step(h, e).queues|
    ensures QueueRight(Step(h, e), x)
  {
    if x < |h.queues| {
      var g, s := Step(h, e), h.queues[x].History();
      assert QueueRight(h, x);
      HistoryGrows(h, e, x);
      forall i | 0 <= i < |s|
        ensures Passed(g, s[i], x)
      {
        PassedStays(h, e, s[i], x);
      }
      if e.Append? {
        assert PublisherRight(h, e.p);
      }
    }
  }

  lemma StepKeeps(h: Hub, e: Event)
    requires Inv(h) && Possible(h, e)
    ensures Inv(Step(h, e))
  {
    var g := Step(h, e);
    StepKeepsList(h, e);
    forall p: nat | At(g, p)
      ensures PublisherRight(g, p)
    {
      StepKeepsPublisher(h, e, p);
    }
    forall x: nat | x < |g.queues|
      ensures QueueRight(g, x)
    {
      StepKeepsQueue(h, e, x);
    }
  }

  lemma {:induction false} RunKeeps(h: Hub, events: seq<Event>, g: Hub)
    requires Inv(h) && Runs(h, events, g)
    ensures Inv(g)
    decreases |events|
  {
    if events != [] {
      StepKeeps(h, events[0]);
      RunKeeps(Step(h, events[0]), events[1..], g);
    }
  }

  lemma {:induction false} RunsConcat(h: Hub, xs: seq<Event>, m: Hub, ys: seq<Event>, g: Hub)
    requires Runs(h, xs, m) && Runs(m, ys, g)
    ensures Runs(h, xs + ys, g)
    decreases |xs|
  {
    if xs == [] {
      assert xs + ys == ys;
    } else {
      assert (xs + ys)[1..] == xs[1..] + ys;
      RunsConcat(Step(h, xs[0]), xs[1..], m, ys, g);
    }
  }

  // ---- over whole runs ----

  lemma RemovedStaysOut(h: Hub, e: Event, x: nat)
    requires Inv(h) && Possible(h, e) && x < |h.queues|
    ensures x < |Step(h, e).queues|
    ensures x in Step(h, e).registered <==> x in h.registered && Removes(h, e) != Some(x)
  {
    match e {
      case Evict(p) => RemoveShrinks(h.registered, h.publishers[p].dead[h.publishers[p].pc.k]);
      case Cleans => RemoveShrinks(h.registered, h.leaving.value);
      case _ =>
    }
  }

  lemma {:induction false} RegisteredAllAlong(h: Hub, events: seq<Event>, g: Hub, x: nat)
    requires Inv(h) && Runs(h, events, g) && x < |h.queues| && x in g.registered
    ensures x in h.registered
    decreases |events|
  {
    if events != [] {
      StepKeeps(h, events[0]);
      RemovedStaysOut(h, events[0], x);
      RegisteredAllAlong(Step(h, events[0]), events[1..], g, x);
    }
  }

  /** No queue ever gets a publish twice, in whatever way threads interleave. */
  lemma NothingTwice(events: seq<Event>, h: Hub, x: nat)
    requires Runs(EMPTY, events, h) && x < |h.queues|
    ensures Broadcast.Distinct(h.queues[x].History())
    ensures forall i :: 0 <= i < |h.queues[x].History()| ==> h.queues[x].History()[i] < |h.publishers|
  {
    RunKeeps(EMPTY, events, h);
    assert QueueRight(h, x);
    forall i | 0 <= i < |h.queues[x].History()|
      ensures h.queues[x].History()[i] < |h.publishers|
    {
      assert Passed(h, h.queues[x].History()[i], x);
    }
  }
}
