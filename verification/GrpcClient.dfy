/**
The stream sender: the bounded retry of one payload with its doubling back-off, and the
receive loop with its counters. `send(k)` is what the k-th `Send` of a payload returns.
 */
module GrpcClient {
  import opened Basics
  import Gateway

  datatype SendOutcome = Ok | Eof | Transient
  datatype SendError = NoError | ServerClosed | Exhausted

  // ---- back-off in nanoseconds, as a 64-bit time.Duration ----

  const RETRY_BACKOFF := 500_000_000
  const MAX_INT64 := 0x7FFF_FFFF_FFFF_FFFF

  function Wrap64(x: int): int {
    (x + 0x8000_0000_0000_0000) % 0x1_0000_0000_0000_0000 - 0x8000_0000_0000_0000
  }

  /** The value of `backoff` after `k` doublings. */
  function Backoff(k: nat): int {
    if k == 0 then RETRY_BACKOFF else Wrap64(Backoff(k - 1) * 2)
  }

  /** `time.Sleep` returns at once for a duration that is not positive. */
  function SleepTime(d: int): nat {
    if d <= 0 then 0 else d
  }

  /** Total time slept over `k` failed attempts. */
  function Slept(k: nat): nat {
    if k == 0 then 0 else Slept(k - 1) + SleepTime(Backoff(k - 1))
  }

  lemma Pow2Values()
    ensures Pow2(34) == 17179869184
  {
    assert Pow2(8) == 256;
    assert Pow2(16) == 65536;
    assert Pow2(24) == 16777216;
    assert Pow2(32) == 4294967296;
  }

  lemma WrapFits(x: int)
    requires 0 <= x <= MAX_INT64
    ensures Wrap64(x) == x
  {
  }

  lemma WrapTurns(x: int)
    requires MAX_INT64 < x < 0x1_0000_0000_0000_0000
    ensures Wrap64(x) == x - 0x1_0000_0000_0000_0000
  {
    var y := x + 0x8000_0000_0000_0000;
    assert y / 0x1_0000_0000_0000_0000 == 1;
  }

  lemma {:induction false} BackoffDoubles(k: nat)
    requires k <= 34
    ensures Backoff(k) == RETRY_BACKOFF * Pow2(k) <= MAX_INT64
  {
    Pow2Grows(k, 34);
    Pow2Values();
    if k > 0 {
      BackoffDoubles(k - 1);
      WrapFits(Backoff(k - 1) * 2);
    }
  }

  /** 500 ms doubled 35 times no longer fits in 64 bits: the duration turns negative. */
  lemma BackoffOverflows()
    ensures Backoff(35) < 0
  {
    BackoffDoubles(34);
    Pow2Values();
    WrapTurns(Backoff(34) * 2);
  }

  lemma {:induction false} BackoffBounded(k: nat)
    ensures SleepTime(Backoff(k)) <= RETRY_BACKOFF * Pow2(k)
    ensures k <= 34 ==> SleepTime(Backoff(k)) == RETRY_BACKOFF * Pow2(k)
    ensures k == 35 ==> SleepTime(Backoff(k)) == 0
  {
    if k <= 34 {
      BackoffDoubles(k);
    } else {
      BackoffOverflows();
      Pow2Values();
      Pow2Grows(35, k);
    }
  }

  lemma {:induction false} SleptAtMost(k: nat)
    ensures Slept(k) <= RETRY_BACKOFF * (Pow2(k) - 1)
    ensures k <= 35 ==> Slept(k) == RETRY_BACKOFF * (Pow2(k) - 1)
    ensures k > 35 ==> Slept(k) < RETRY_BACKOFF * (Pow2(k) - 1)
  {
    if k > 0 {
      SleptAtMost(k - 1);
      BackoffBounded(k - 1);
      Pow2Grows(0, k - 1);
    }
  }

  /** k failed attempts cost 500 ms * (2^k - 1), exactly as long as the duration does not overflow. */
  lemma TotalBackoff(k: nat)
    ensures Slept(k) == 500_000_000 * (Pow2(k) - 1) <==> k <= 35
  {
    SleptAtMost(k);
  }

  // ---- one payload ----

  /** A payload gets through: only transient errors come before a success within the allowed attempts. */
  ghost predicate GetsThrough(send: nat -> SendOutcome, attempts: nat) {
    exists k :: 0 <= k < attempts && SucceedsAt(send, k)
  }

  ghost predicate SucceedsAt(send: nat -> SendOutcome, k: nat) {
    send(k) == Ok && forall j :: 0 <= j < k ==> send(j) == Transient
  }

  /** `failures` is how many attempts failed with an error other than end of stream. */
  method SendWithRetry(send: nat -> SendOutcome, maxSendRetries: int)
    returns (err: SendError, failures: nat, slept: nat)
    ensures failures <= Gateway.SendAttempts(maxSendRetries)
    ensures forall j :: 0 <= j < failures ==> send(j) == Transient
    ensures err == NoError <==> GetsThrough(send, Gateway.SendAttempts(maxSendRetries))
    ensures err == NoError <==> failures < Gateway.SendAttempts(maxSendRetries) && send(failures) == Ok
    ensures err == ServerClosed <==> failures < Gateway.SendAttempts(maxSendRetries) && send(failures) == Eof
    ensures err == Exhausted <==> failures == Gateway.SendAttempts(maxSendRetries)
    ensures slept == Slept(failures)
  {
    var backoff := RETRY_BACKOFF;
    failures, slept := 0, 0;
    var attempt := 1;
    while attempt <= maxSendRetries
      invariant failures == attempt - 1 <= Gateway.SendAttempts(maxSendRetries)
      invariant forall j :: 0 <= j < failures ==> send(j) == Transient
      invariant backoff == Backoff(failures) && slept == Slept(failures)
    {
      var lastErr := send(failures);
      if lastErr == Ok {
        assert SucceedsAt(send, failures);
        return NoError, failures, slept;
      }
      if lastErr == Eof {
        return ServerClosed, failures, slept;
      }
      slept := slept + SleepTime(backoff);
      failures := failures + 1;
      backoff := Wrap64(backoff * 2);
      attempt := attempt + 1;
    }
    err := Exhausted;
  }

  // ---- the receive loop ----

  datatype StreamError = NotConnected | CannotOpen

  /** `acknowledged`: the server's final response arrived; if not, the call returns an error all the same. */
  datatype StreamReport =
    | Refused(error: StreamError)
    | Closed(sent: nat, dropped: nat, delivered: seq<nat>, acknowledged: bool)

  /** `at` lists, in increasing order, exactly the positions among `n` payloads whose payload gets through. */
  ghost predicate DeliversExactly(at: seq<nat>, n: nat, send: nat -> nat -> SendOutcome, attempts: nat) {
    && (forall i :: 0 <= i < |at| ==> at[i] < n)
    && (forall i, j :: 0 <= i < j < |at| ==> at[i] < at[j])
    && (forall p: nat :: p in at <==> p < n && GetsThrough(send(p), attempts))
  }

  class GRPCClient {
    var connected: bool

    constructor ()
      ensures !connected
    {
      connected := false;
    }

    /** The connection became ready in time, or did not. */
    method Connect(ready: bool) returns (ok: bool)
      modifies this
      ensures ok == ready && connected == (old(connected) || ready)
    {
      if ready {
        connected := true;
      }
      ok := ready;
    }

    /**
    `received` payloads arrive before the channel is closed or the context is cancelled, and then
    `acknowledges` tells whether `CloseAndRecv` gets its response;
    `send(p)(k)` is what the k-th `Send` of payload p returns. Whether a payload is delivered
    depends on its own attempts alone: an end of stream on an earlier one does not end the loop.
     */
    method StartStream(opens: bool, received: nat, send: nat -> nat -> SendOutcome, maxSendRetries: int, acknowledges: bool)
      returns (report: StreamReport)
      ensures !connected ==> report == Refused(NotConnected)
      ensures connected && !opens ==> report == Refused(CannotOpen)
      ensures connected && opens ==>
        && report.Closed? && report.sent + report.dropped == received
        && |report.delivered| == report.sent && report.acknowledged == acknowledges
        && DeliversExactly(report.delivered, received, send, Gateway.SendAttempts(maxSendRetries))
    {
      if !connected {
        return Refused(NotConnected);
      }
      if !opens {
        return Refused(CannotOpen);
      }
      var sent, dropped, delivered := 0, 0, [];
      var p: nat := 0;
      while p < received
        invariant p <= received && sent + dropped == p && |delivered| == sent
        invariant DeliversExactly(delivered, p, send, Gateway.SendAttempts(maxSendRetries))
      {
        var err, _, _ := SendWithRetry(send(p), maxSendRetries);
        ghost var before := delivered;
        if err != NoError {
          dropped := dropped + 1;
        } else {
          sent, delivered := sent + 1, delivered + [p];
        }
        p := p + 1;
        assert forall q: nat :: q in delivered <==> q in before || (q == p - 1 && err == NoError);
      }
      report := Closed(sent, dropped, delivered, acknowledges);
    }
  }

  // ---- the same, step by step in the gateway ----

  /** The sender's steps for a payload whose next attempt is number `k`. */
  function RetrySteps(send: nat -> SendOutcome, k: nat, attempts: nat): seq<Gateway.Step>
    requires k <= attempts
    decreases attempts - k
  {
    if k == attempts then [Gateway.Sender(Gateway.GiveUp)]
    else match send(k)
      case Ok => [Gateway.Sender(Gateway.SendOk)]
      case Eof => [Gateway.Sender(Gateway.SendEof)]
      case Transient => [Gateway.Sender(Gateway.SendError)] + RetrySteps(send, k + 1, attempts)
  }

  /** The gateway's step-by-step sender delivers a payload exactly when the retry loop does. */
  lemma {:induction false} StepsFollowTheLoop(cfg: Gateway.Config, s: Gateway.State, send: nat -> SendOutcome)
    requires s.sender.pc.Retrying? && s.sender.pc.failures <= cfg.Attempts()
    requires s.main.pc != Gateway.Gone && !s.misuse
    requires forall j :: 0 <= j < s.sender.pc.failures ==> send(j) == Transient
    ensures var steps := RetrySteps(send, s.sender.pc.failures, cfg.Attempts());
      Gateway.Runs(cfg, s, steps, s.(sender := Gateway.Settle(s.sender, GetsThrough(send, cfg.Attempts()))))
    decreases cfg.Attempts() - s.sender.pc.failures
  {
    var k := s.sender.pc.failures;
    var steps := RetrySteps(send, k, cfg.Attempts());
    var t := Gateway.Apply(cfg, s, steps[0]);
    if k < cfg.Attempts() && send(k) == Transient {
      StepsFollowTheLoop(cfg, t, send);
      assert steps[1..] == RetrySteps(send, k + 1, cfg.Attempts());
    } else {
      assert Gateway.Runs(cfg, t, [], t);
      if k < cfg.Attempts() && send(k) == Ok {
        assert SucceedsAt(send, k);
      }
    }
  }

  lemma {:induction false} RetryStepsBounded(send: nat -> SendOutcome, k: nat, attempts: nat)
    requires k <= attempts
    ensures |RetrySteps(send, k, attempts)| <= attempts - k + 1
    decreases attempts - k
  {
    if k < attempts && send(k) == Transient {
      RetryStepsBounded(send, k + 1, attempts);
    }
  }

  /**
  After the signal the sender ends by its own steps: it settles the payload in hand as the retry loop
  says, whatever `Send` returns, and then sees the cancelled context.
   */
  lemma SenderLeavesAlone(cfg: Gateway.Config, s: Gateway.State, send: nat -> SendOutcome)
    requires s.sender.pc.Retrying? && s.sender.pc.failures == 0 && s.rootDone
    requires s.main.pc != Gateway.Gone && !s.misuse
    ensures var steps := RetrySteps(send, 0, cfg.Attempts()) + [Gateway.Sender(Gateway.SenderSeeDone)];
      var settled := Gateway.Settle(s.sender, GetsThrough(send, cfg.Attempts()));
      |steps| <= cfg.Attempts() + 2 && Gateway.Runs(cfg, s, steps, s.(sender := settled.(pc := Gateway.StreamDone)))
  {
    var settled := Gateway.Settle(s.sender, GetsThrough(send, cfg.Attempts()));
    var t := s.(sender := settled);
    StepsFollowTheLoop(cfg, s, send);
    RetryStepsBounded(send, 0, cfg.Attempts());
    Gateway.RunsSnoc(cfg, s, RetrySteps(send, 0, cfg.Attempts()), t, Gateway.Sender(Gateway.SenderSeeDone));
  }
}
