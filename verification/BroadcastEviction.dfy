/**
Which queues a publish evicts, what an evicted queue can still get, and how full a queue can be,
over every interleaving.
 */
module BroadcastEviction {
  import opened Basics
  import Broadcast
  import opened BroadcastThreads
  import opened BroadcastHistory

  /** How often the listener of `x` takes a result in a run. */
  function TakesOf(events: seq<Event>, x: nat): nat {
    if events == [] then 0 else (if events[0] == Takes(x) then 1 else 0) + TakesOf(events[1..], x)
  }

  /** How often a publish appends to `x` in a run. */
  ghost function AppendsTo(h: Hub, events: seq<Event>, x: nat): nat
    decreases |events|
  {
    if events == [] || !Possible(h, events[0]) then 0
    else |Gets(h, events[0], x)| + AppendsTo(Step(h, events[0]), events[1..], x)
  }

  lemma {:induction false} UnreadBetween(h: Hub, events: seq<Event>, g: Hub, x: nat)
    requires Runs(h, events, g) && x < |h.queues|
    ensures x < |g.queues|
    ensures |g.queues[x].unread| == |h.queues[x].unread| + AppendsTo(h, events, x) - TakesOf(events, x)
    decreases |events|
  {
    if events != [] {
      UnreadBetween(Step(h, events[0]), events[1..], g, x);
    }
  }

  /** A listener that is over takes nothing. */
  lemma {:induction false} SilentTakesNothing(h: Hub, events: seq<Event>, g: Hub, x: nat)
    requires Runs(h, events, g) && x < |h.queues| && !h.queues[x].listened
    ensures TakesOf(events, x) == 0
    decreases |events|
  {
    if events != [] {
      SilentTakesNothing(Step(h, events[0]), events[1..], g, x);
    }
  }

  /** Once the endpoint starts to clean up, its listener takes nothing any more. */
  lemma CleanedUpTakesNothing(h: Hub, id: nat, events: seq<Event>, g: Hub)
    requires Possible(h, Tests(id)) && Runs(Step(h, Tests(id)), events, g)
    ensures TakesOf(events, id) == 0
  {
    SilentTakesNothing(Step(h, Tests(id)), events, g, id);
  }

  /**
  Nothing but its own listener can leave an evicted queue with room: the listener was still reading
  when the publish found it full, and has since taken more than others appended and it had in excess.
  Then, and only then, is it not full any more at its removal.
   */
  lemma EvictedWithRoomIff(h: Hub, p: nat, events: seq<Event>, g: Hub)
    requires Possible(h, Check(p)) && var x := h.publishers[p].pc.id; h.queues[x].Full() && Runs(Step(h, Check(p)), events, g)
    requires Possible(g, Evict(p)) && Removes(g, Evict(p)) == Some(h.publishers[p].pc.id)
    ensures var x := h.publishers[p].pc.id;
      && x < |g.queues|
      && (!g.queues[x].Full() <==>
            TakesOf(events, x) > AppendsTo(Step(h, Check(p)), events, x) + |h.queues[x].unread| - 256)
      && (!g.queues[x].Full() ==> h.queues[x].listened && TakesOf(events, x) > 0)
  {
    var x, m := h.publishers[p].pc.id, Step(h, Check(p));
    UnreadBetween(m, events, g, x);
    if !h.queues[x].listened {
      SilentTakesNothing(m, events, g, x);
    }
  }

  ghost predicate NeverRemoved(h: Hub, events: seq<Event>, x: nat)
    decreases |events|
  {
    events == [] || (Possible(h, events[0]) && Removes(h, events[0]) != Some(x) && NeverRemoved(Step(h, events[0]), events[1..], x))
  }

  lemma {:induction false} RegisteredIff(h: Hub, events: seq<Event>, g: Hub, x: nat)
    requires Inv(h) && Runs(h, events, g) && x < |h.queues| && x in h.registered
    ensures x in g.registered <==> NeverRemoved(h, events, x)
    decreases |events|
  {
    if events != [] {
      StepKeeps(h, events[0]);
      RemovedStaysOut(h, events[0], x);
      if Removes(h, events[0]) == Some(x) {
        if x in g.registered {
          RegisteredAllAlong(Step(h, events[0]), events[1..], g, x);
        }
      } else {
        RegisteredIff(Step(h, events[0]), events[1..], g, x);
      }
    }
  }

  /**
  A publish that found a queue full evicts it if and only if the queue was still in the list and
  nobody else removed it. Otherwise the publish raises, and its caller publishes the fallback.
   */
  lemma EvictsIff(before: seq<Event>, h: Hub, p: nat, events: seq<Event>, g: Hub)
    requires Runs(EMPTY, before, h) && Possible(h, Check(p)) && h.queues[h.publishers[p].pc.id].Full()
    requires Runs(Step(h, Check(p)), events, g) && Possible(g, Evict(p))
    requires g.publishers[p].dead[g.publishers[p].pc.k] == h.publishers[p].pc.id
    ensures var x, pub, t := h.publishers[p].pc.id, g.publishers[p], Step(g, Evict(p));
      if x in h.registered && NeverRemoved(Step(h, Check(p)), events, x)
      then Removes(g, Evict(p)) == Some(x) && x !in t.registered && t.publishers == Goto(g, p, Removing(pub.pc.k + 1)).publishers
      else t.registered == g.registered
           && t.publishers == Goto(g, p, Raised).publishers
                              + (if pub.fallback.Some? then [Publisher(pub.fallback.value, None, Iterating(0), [])] else [])
  {
    var x, m := h.publishers[p].pc.id, Step(h, Check(p));
    RunKeeps(EMPTY, before, h);
    StepKeeps(h, Check(p));
    RunKeeps(m, events, g);
    RemoveShrinks(g.registered, x);
    if x in h.registered {
      RegisteredIff(m, events, g, x);
    } else if x in g.registered {
      RegisteredAllAlong(m, events, g, x);
    }
  }

  /** The clean-up of a connection removes its queue if and only if no publish did so since the test, and raises otherwise. */
  lemma CleanupIff(before: seq<Event>, h: Hub, id: nat, events: seq<Event>, g: Hub)
    requires Runs(EMPTY, before, h) && Possible(h, Tests(id)) && id in h.registered
    requires Runs(Step(h, Tests(id)), events, g) && g.leaving == Some(id)
    ensures Removes(g, Cleans) == if NeverRemoved(Step(h, Tests(id)), events, id) then Some(id) else None
    ensures forall x :: x in Step(g, Cleans).registered <==> x in g.registered && x != id
    ensures Step(g, Cleans).queues == g.queues
  {
    RunKeeps(EMPTY, before, h);
    StepKeeps(h, Tests(id));
    RunKeeps(Step(h, Tests(id)), events, g);
    RegisteredIff(Step(h, Tests(id)), events, g, id);
    RemoveShrinks(g.registered, id);
  }

  /** When a publish returns without raising, every queue it found full is out of the list. */
  lemma ReturnMeansEvicted(events: seq<Event>, h: Hub, p: nat, x: nat)
    requires Runs(EMPTY, events, h) && At(h, p) && h.publishers[p].pc == Removing(|h.publishers[p].dead|)
    requires x in h.publishers[p].dead
    ensures x < |h.queues| && x !in h.registered && p !in h.queues[x].History()
  {
    RunKeeps(EMPTY, events, h);
    assert PublisherRight(h, p);
  }

  // ---- exactly when a removed queue is left alone ----

  /** A publish has passed its test of `x`, or is about to make it and can pass it: there is room, or the listener can make some. */
  predicate MayAppend(h: Hub, p: nat, x: nat)
    requires x < |h.queues|
  {
    At(h, p)
    && var pc, q := h.publishers[p].pc, h.queues[x];
      pc.Holds(x) && (pc.Appending? || !q.Full() || q.listened)
  }

  ghost predicate NobodyMayAppend(h: Hub, x: nat)
    requires x < |h.queues|
  {
    forall p: nat :: !MayAppend(h, p, x)
  }

  ghost predicate Frozen(h: Hub, x: nat)
    requires x < |h.queues|
  {
    forall events, g :: Runs(h, events, g) ==> x < |g.queues| && g.queues[x].History() == h.queues[x].History()
  }

  lemma StepKeepsFrozen(h: Hub, e: Event, x: nat)
    requires Inv(h) && Possible(h, e) && x < |h.queues| && x !in h.registered && NobodyMayAppend(h, x)
    ensures x < |Step(h, e).queues| && x !in Step(h, e).registered && NobodyMayAppend(Step(h, e), x)
    ensures Step(h, e).queues[x].History() == h.queues[x].History()
  {
    RemovedStaysOut(h, e, x);
    HistoryGrows(h, e, x);
    assert e.Append? ==> MayAppend(h, e.p, h.publishers[e.p].pc.id);
    forall p: nat
      ensures !MayAppend(Step(h, e), p, x)
    {
      assert !MayAppend(h, p, x);
    }
  }

  lemma {:induction false} StaysFrozen(h: Hub, events: seq<Event>, g: Hub, x: nat)
    requires Inv(h) && Runs(h, events, g) && x < |h.queues| && x !in h.registered && NobodyMayAppend(h, x)
    ensures x < |g.queues| && g.queues[x].History() == h.queues[x].History()
    decreases |events|
  {
    if events != [] {
      StepKeeps(h, events[0]);
      StepKeepsFrozen(h, events[0], x);
      StaysFrozen(Step(h, events[0]), events[1..], g, x);
    }
  }

  /** As long as the listener reads it can make room, and disturbs nobody. */
  lemma {:induction false} MakeRoom(h: Hub, x: nat) returns (events: seq<Event>, g: Hub)
    requires h.leaving.None? && x < |h.queues| && (h.queues[x].Full() ==> h.queues[x].listened)
    ensures Runs(h, events, g) && x < |g.queues| && !g.queues[x].Full()
    ensures g.publishers == h.publishers && g.queues[x].History() == h.queues[x].History()
    decreases |h.queues[x].unread|
  {
    if !h.queues[x].Full() {
      events, g := [], h;
    } else {
      HistoryGrows(h, Takes(x), x);
      events, g := MakeRoom(Step(h, Takes(x)), x);
      events := [Takes(x)] + events;
    }
  }

  lemma HeldCanGet(h: Hub, p: nat, x: nat) returns (events: seq<Event>, g: Hub)
    requires h.leaving.None? && x < |h.queues| && MayAppend(h, p, x)
    ensures Runs(h, events, g) && x < |g.queues| && g.queues[x].History() == h.queues[x].History() + [p]
  {
    if h.publishers[p].pc.Appending? {
      HistoryGrows(h, Append(p), x);
      g := Step(h, Append(p));
      assert Runs(g, [], g);
      events := [Append(p)];
    } else {
      var m;
      events, m := MakeRoom(h, x);
      var n := Step(m, Check(p));
      HistoryGrows(n, Append(p), x);
      g := Step(n, Append(p));
      assert Runs(g, [], g) && [Check(p), Append(p)][1..] == [Append(p)];
      assert Runs(m, [Check(p), Append(p)], g);
      RunsConcat(h, events, m, [Check(p), Append(p)], g);
      events := events + [Check(p), Append(p)];
    }
  }

  /**
  A removed queue never gets anything again if and only if no publish is about to append to it, and
  none is about to test it unless it is full and its listener is over.
   */
  lemma FrozenIff(before: seq<Event>, h: Hub, x: nat)
    requires Runs(EMPTY, before, h) && x < |h.queues| && x !in h.registered
    ensures Frozen(h, x) <==> NobodyMayAppend(h, x)
  {
    RunKeeps(EMPTY, before, h);
    if NobodyMayAppend(h, x) {
      forall events, g | Runs(h, events, g)
        ensures x < |g.queues| && g.queues[x].History() == h.queues[x].History()
      {
        StaysFrozen(h, events, g, x);
      }
    } else {
      var p: nat :| MayAppend(h, p, x);
      var first := if h.leaving.Some? then [Cleans] else [];
      var m := if h.leaving.Some? then Step(h, Cleans) else h;
      assert Runs(m, [], m) && Runs(h, first, m);
      var events, g := HeldCanGet(m, p, x);
      RunsConcat(h, first, m, events, g);
      assert |g.queues[x].History()| > |h.queues[x].History()|;
    }
  }

  // ---- how far a queue can exceed its size ----

  /** The publishes between their test of `x` and their append. */
  ghost function Appenders(h: Hub, x: nat): set<nat> {
    set p: nat | p < |h.publishers| && h.publishers[p].pc.Appending? && h.publishers[p].pc.id == x
  }

  /** The most publishes that are ever between test and append at once. */
  ghost function Peak(h: Hub, events: seq<Event>, x: nat): nat
    decreases |events|
  {
    var now := |Appenders(h, x)|;
    if events == [] || !Possible(h, events[0]) then now
    else
      var later := Peak(Step(h, events[0]), events[1..], x);
      if now >= later then now else later
  }

  lemma AppendersStep(h: Hub, e: Event, x: nat)
    requires Possible(h, e)
    ensures Appenders(Step(h, e), x)
         == if e.Check? && h.publishers[e.p].pc.id == x && !h.queues[x].Full() then Appenders(h, x) + {e.p}
            else if e.Append? then Appenders(h, x) - {e.p}
            else Appenders(h, x)
  {
  }

  lemma NoAppendersYet(h: Hub, x: nat)
    requires Inv(h) && x >= |h.queues|
    ensures Appenders(h, x) == {}
  {
    forall p: nat | At(h, p)
      ensures p !in Appenders(h, x)
    {
      assert PublisherRight(h, p);
    }
  }

  /** Testing adds a publish only below 256, appending moves one from between into the queue. */
  lemma PeakStep(h: Hub, e: Event, x: nat, peak: nat)
    requires Inv(h) && Possible(h, e) && |Appenders(Step(h, e), x)| <= peak
    requires x < |h.queues| ==> |h.queues[x].unread| + |Appenders(h, x)| <= 255 + peak
    ensures x < |Step(h, e).queues| ==> |Step(h, e).queues[x].unread| + |Appenders(Step(h, e), x)| <= 255 + peak
  {
    AppendersStep(h, e, x);
    if x >= |h.queues| {
      NoAppendersYet(h, x);
    } else if e.Append? && h.publishers[e.p].pc.id == x {
      assert e.p in Appenders(h, x);
    } else {
      UnreadElsewhere(h, e, x);
    }
  }

  lemma UnreadElsewhere(h: Hub, e: Event, x: nat)
    requires Possible(h, e) && x < |h.queues| && !(e.Append? && h.publishers[e.p].pc.id == x)
    ensures x < |Step(h, e).queues| && |Step(h, e).queues[x].unread| <= |h.queues[x].unread|
    ensures Appenders(Step(h, e), x) != Appenders(h, x) ==> |h.queues[x].unread| <= 255
  {
    AppendersStep(h, e, x);
  }

  lemma {:induction false} PeakBounds(h: Hub, events: seq<Event>, g: Hub, x: nat, peak: nat)
    requires Inv(h) && Runs(h, events, g) && Peak(h, events, x) <= peak
    requires x < |h.queues| ==> |h.queues[x].unread| + |Appenders(h, x)| <= 255 + peak
    ensures x < |g.queues| ==> |g.queues[x].unread| + |Appenders(g, x)| <= 255 + peak
    decreases |events|
  {
    if events != [] {
      var m := Step(h, events[0]);
      StepKeeps(h, events[0]);
      PeakStep(h, events[0], x, peak);
      PeakBounds(m, events[1..], g, x, peak);
    }
  }

  /**
  A queue holds at most 255 unread results and one for each publish that was ever between its
  test and its append at the same time: 256 if publishes do not meet there.
   */
  lemma UnreadIsBounded(events: seq<Event>, h: Hub, x: nat)
    requires Runs(EMPTY, events, h) && x < |h.queues|
    ensures |h.queues[x].unread| <= 255 + Peak(EMPTY, events, x)
  {
    PeakBounds(EMPTY, events, h, x, Peak(EMPTY, events, x));
  }
}
