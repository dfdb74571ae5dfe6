/**
What the invariant means for a run of the gateway: accounting, order, no duplicates,
no misuse of a channel, and how much a shutdown can lose.
 */
module GatewayTheorems {
  import opened Gateway
  import opened GatewayInvariant

  /** `xs` is `ys` with some elements left out. */
  ghost predicate Subsequence(xs: seq<nat>, ys: seq<nat>) {
    exists at: seq<nat> :: Embeds(at, xs, ys)
  }

  /** `at` says where in `ys` each element of `xs` is. */
  ghost predicate Embeds(at: seq<nat>, xs: seq<nat>, ys: seq<nat>) {
    && |at| == |xs|
    && (forall i :: 0 <= i < |at| ==> at[i] < |ys| && ys[at[i]] == xs[i])
    && (forall i, j :: 0 <= i < j < |at| ==> at[i] < at[j])
  }

  ghost predicate Distinct(xs: seq<nat>) {
    forall i, j :: 0 <= i < j < |xs| ==> xs[i] != xs[j]
  }

  /** The results that were to be forwarded, in the order they entered the results channel. */
  function Forwardable(s: State): seq<nat> {
    SuccessIds(s.work.entered)
  }

  // ---- accounting ----

  /** Every accepted task is counted once, in exactly one place, at every moment of every run. */
  lemma NothingLostOrDuplicated(cfg: Config, s: State)
    requires cfg.Valid() && Reachable(cfg, s)
    ensures forall id: nat :: Copies(s, id) == if id < s.main.accepted then 1 else 0
    ensures s.main.accepted
         == |s.tasks.buf| + Busy(s.workers) + |s.work.panicked| + s.work.globalDropped
            + |s.results.buf| + |FanHeld(s.fan)| + |s.fan.abandoned| + |s.fan.skipped|
            + |s.payloads.buf| + |SenderHeld(s.sender)| + s.sender.sent + s.sender.dropped
    ensures s.main.accepted + s.main.rejected + s.main.pending == cfg.total
  {
    ReachableInv(cfg, s);
  }

  /** No goroutine ever sends on or closes a closed channel, and the results channel stays open. */
  lemma NoChannelMisuse(cfg: Config, s: State)
    requires cfg.Valid() && Reachable(cfg, s)
    ensures !s.misuse && !s.results.closed
    ensures |s.tasks.buf| <= 2 * cfg.concurrency && |s.results.buf| <= 100
         && |s.payloads.buf| <= cfg.payloadBuffer
  {
    ReachableInv(cfg, s);
  }

  // ---- order ----

  /** Where in `ds` the delivered payloads are. */
  function DeliveredAt(ds: seq<Delivery>): seq<nat> {
    if ds == [] then [] else
    DeliveredAt(ds[..|ds| - 1]) + (if ds[|ds| - 1].delivered then [|ds| - 1] else [])
  }

  lemma {:induction false} DeliveredEmbed(ds: seq<Delivery>)
    ensures Embeds(DeliveredAt(ds), Settled(ds, true), DeliveryIds(ds))
    ensures forall k :: 0 <= k < |DeliveredAt(ds)| ==> DeliveredAt(ds)[k] < |ds|
  {
    if ds != [] {
      DeliveredEmbed(ds[..|ds| - 1]);
    }
  }

  lemma {:induction false} SettledSplit(ds: seq<Delivery>)
    ensures |Settled(ds, true)| + |Settled(ds, false)| == |ds|
  {
    if ds != [] {
      SettledSplit(ds[..|ds| - 1]);
    }
  }

  lemma {:induction false} SuccessIdsPrefix(xs: seq<Result>, ys: seq<Result>)
    ensures SuccessIds(xs) <= SuccessIds(xs + ys)
  {
    if ys == [] {
      assert xs + ys == xs;
    } else {
      var n := |ys| - 1;
      assert xs + ys == (xs + ys[..n]) + [ys[n]];
      FatesSnoc(xs + ys[..n], ys[n]);
      SuccessIdsPrefix(xs, ys[..n]);
    }
  }

  lemma {:induction false} OccursAtLeast(xs: seq<nat>, i: nat)
    requires i < |xs|
    ensures Occurs(xs, xs[i]) >= 1
  {
    if i > 0 {
      OccursAtLeast(xs[1..], i - 1);
    }
  }

  lemma {:induction false} OnceMeansDistinct(xs: seq<nat>)
    requires forall id: nat :: Occurs(xs, id) <= 1
    ensures Distinct(xs)
  {
    if xs != [] {
      forall id: nat
        ensures Occurs(xs[1..], id) <= 1
      {
        assert Occurs(xs, id) <= 1;
      }
      OnceMeansDistinct(xs[1..]);
      forall j | 0 < j < |xs|
        ensures xs[j] != xs[0]
      {
        OccursAtLeast(xs[1..], j - 1);
        assert Occurs(xs, xs[0]) <= 1;
      }
    }
  }

  lemma EmbedsInLonger(at: seq<nat>, xs: seq<nat>, ys: seq<nat>, zs: seq<nat>)
    requires Embeds(at, xs, ys) && ys <= zs
    ensures Embeds(at, xs, zs)
  {
  }

  /**
  The payloads counted as sent are an order-preserving subsequence of the successful results
  in the order these entered the results channel, none of them twice; each payload the sender
  took is counted once, as sent or as dropped, except the one it may still be sending.
   */
  lemma SentInOrderAtMostOnce(cfg: Config, s: State)
    requires cfg.Valid() && Reachable(cfg, s)
    ensures Subsequence(Settled(s.sender.deliveries, true), Forwardable(s))
    ensures |Settled(s.sender.deliveries, true)| == s.sender.sent
    ensures Distinct(DeliveryIds(s.sender.deliveries))
    ensures s.sender.sent + s.sender.dropped == |s.sender.deliveries|
    ensures Onward(s) <= Forwardable(s)
    ensures s.fan.skipped == FailedIds(s.fan.consumed)
  {
    ReachableInv(cfg, s);
    var ds := s.sender.deliveries;
    SettledSplit(ds);
    SuccessIdsPrefix(s.fan.consumed, s.results.buf);
    DeliveredEmbed(ds);
    EmbedsInLonger(DeliveredAt(ds), Settled(ds, true), DeliveryIds(ds), Onward(s));
    EmbedsInLonger(DeliveredAt(ds), Settled(ds, true), Onward(s), Forwardable(s));
    forall id: nat
      ensures Occurs(DeliveryIds(ds), id) <= 1
    {
      assert Copies(s, id) <= 1;
    }
    OnceMeansDistinct(DeliveryIds(ds));
  }

  // ---- what a shutdown can lose ----

  /** Accepted tasks that no counter and no log line accounts for. */
  function Lost(s: State): int {
    s.main.accepted
    - (s.sender.sent + s.sender.dropped + s.work.globalDropped + |s.fan.skipped| + |s.work.panicked|)
  }

  function LossBound(cfg: Config): nat {
    2 * cfg.concurrency + 100 + 1 + cfg.payloadBuffer
  }

  lemma {:induction false} ExitedAreNotBusy(ws: seq<WorkerPc>)
    requires forall i :: 0 <= i < |ws| ==> ws[i] == Exited
    ensures Busy(ws) == 0
  {
    if ws != [] {
      ExitedAreNotBusy(ws[1..]);
    }
  }

  /** Once the pool has stopped, at most the buffers, one result and one payload in hand are lost. */
  lemma ShutdownLossBounded(cfg: Config, s: State)
    requires cfg.Valid() && Reachable(cfg, s) && s.main.pc in {Draining, Gone}
    ensures 0 <= Lost(s) <= LossBound(cfg) + |SenderHeld(s.sender)|
    ensures s.sender.pc.StreamDone? ==> Lost(s) <= LossBound(cfg)
  {
    ReachableInv(cfg, s);
    ExitedAreNotBusy(s.workers);
  }
}
