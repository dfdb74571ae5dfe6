/** What the WebSocket client keeps over every order of events and every re-entrant handler. */
module WsTheorems {
  import opened Basics
  import opened WsState

  // ---- safety: sockets and timers ----

  /** Only the client's own socket has live callbacks. */
  ghost predicate SocketsTracked(c: Client) {
    && (c.ws.Some? ==> c.ws.value < |c.browser.sockets| && c.browser.sockets[c.ws.value].listening)
    && (forall i :: 0 <= i < |c.browser.sockets| && c.browser.sockets[i].listening ==> c.ws == Some(i))
    && (forall i :: 0 <= i < |c.browser.sockets| && c.browser.sockets[i].finished ==> c.browser.sockets[i].ready == CLOSED)
  }

  /** The armed timers are those the fields know of: at most one reconnect timer and one heartbeat. */
  ghost predicate TimersTracked(c: Client) {
    && c.browser.timeouts.Keys == (if c.reconnectTimer.Some? then {c.reconnectTimer.value} else {})
    && c.browser.intervals == (if c.pingTimer.Some? then {c.pingTimer.value} else {})
    && (c.reconnectTimer.Some? ==> c.reconnectTimer.value < c.browser.nextTimer)
    && (c.pingTimer.Some? ==> c.pingTimer.value < c.browser.nextTimer)
  }

  ghost predicate DestroyedIsQuiet(c: Client) {
    c.destroyed ==> c.ws.None? && c.reconnectTimer.None? && c.pingTimer.None?
  }

  // ---- back-off ----

  function Sum(xs: seq<nat>): nat {
    if xs == [] then 0 else Sum(xs[..|xs| - 1]) + xs[|xs| - 1]
  }

  /** The reconnects scheduled since the last open whose wait is over. */
  function Waited(c: Client): seq<nat> {
    if c.reconnectTimer.Some? && !c.backoff.leftover && c.backoff.waits != []
    then c.backoff.waits[..|c.backoff.waits| - 1] else c.backoff.waits
  }

  /** The k-th wait since the last open is the k-th power of two seconds, capped, and waits do not overlap. */
  ghost predicate BackoffRight(c: Client) {
    && |c.backoff.waits| == c.reconnectAttempts
    && (forall k :: 0 <= k < |c.backoff.waits| ==> c.backoff.waits[k] == Delay(k))
    && (c.backoff.leftover ==> c.reconnectTimer.Some? && c.backoff.waits == [])
    && (c.reconnectTimer.Some? ==> c.reconnectTimer.value in c.browser.timeouts)
    && c.backoff.since <= c.browser.now
    && (if c.reconnectTimer.Some? && !c.backoff.leftover
        then var due := c.browser.timeouts[c.reconnectTimer.value];
          && c.backoff.waits != [] && c.backoff.since + Sum(c.backoff.waits) <= due
          && due <= c.browser.now + c.backoff.waits[|c.backoff.waits| - 1]
        else c.backoff.since + Sum(c.backoff.waits) <= c.browser.now)
  }

  ghost predicate Inv(c: Client) {
    SocketsTracked(c) && TimersTracked(c) && DestroyedIsQuiet(c) && (!c.destroyed ==> BackoffRight(c))
  }

  /** Something will bring the client back: a socket that will still report its end, or an armed reconnect. */
  ghost predicate Alive(c: Client) {
    || (HasSocket(c) && c.browser.sockets[c.ws.value].listening && !c.browser.sockets[c.ws.value].finished)
    || c.reconnectTimer.Some?
  }

  // ---- the operations keep the invariant ----

  lemma InitInv(now: nat)
    ensures Inv(Init(now))
  {
  }

  lemma CloseKeeps(c: Client)
    requires Inv(c)
    ensures var d := Close(c);
      && Inv(d) && d.ws.None? && d.destroyed == c.destroyed && |d.browser.sockets| == |c.browser.sockets|
      && d.browser.frames == c.browser.frames && d.reconnectTimer == c.reconnectTimer && d.handlers == c.handlers
  {
  }

  lemma ScheduleKeeps(c: Client)
    requires Inv(c)
    ensures var d := ScheduleReconnect(c);
      && Inv(d) && (c.destroyed || d.reconnectTimer.Some?)
      && d.destroyed == c.destroyed && (c.destroyed ==> d == c)
  {
    if !c.destroyed && c.reconnectTimer.None? {
      var d := ScheduleReconnect(c);
      assert d.backoff.waits[..|d.backoff.waits| - 1] == c.backoff.waits;
    }
  }

  /** A call to connect on a client that is not destroyed leaves it with a socket or a pending reconnect. */
  lemma ConnectKeeps(c: Client, throws: bool)
    requires Inv(c)
    ensures var d := Connect(c, throws);
      && Inv(d) && d.destroyed == c.destroyed
      && (c.destroyed ==> d == c)
      && (!c.destroyed ==> Alive(d))
  {
    CloseKeeps(c);
    if throws {
      ScheduleKeeps(Close(c));
    }
  }

  lemma HeartbeatKeeps(c: Client)
    requires Inv(c)
    ensures Inv(StopHeartbeat(c)) && StopHeartbeat(c).destroyed == c.destroyed
    ensures Alive(StopHeartbeat(c)) <==> Alive(c)
    ensures !c.destroyed ==> Inv(StartHeartbeat(c)) && (Alive(StartHeartbeat(c)) <==> Alive(c))
  {
  }

  lemma DestroyKeeps(c: Client)
    requires Inv(c)
    ensures Inv(Destroy(c)) && Destroy(c).destroyed && Destroy(c).browser.timeouts == map[]
  {
    CloseKeeps(c);
    assert Destroy(c).browser.timeouts.Keys == {};
  }

  lemma PerformKeeps(c: Client, call: Call)
    requires Inv(c)
    ensures Inv(Perform(c, call)) && (c.destroyed ==> Perform(c, call).destroyed)
    ensures !Perform(c, call).destroyed && call !in {DoClose} && Alive(c) ==> Alive(Perform(c, call))
  {
    match call {
      case DoConnect(throws) => ConnectKeeps(c, throws);
      case DoClose => CloseKeeps(c);
      case DoDestroy => DestroyKeeps(c);
      case _ =>
    }
  }

  lemma {:induction false} PerformAllKeeps(c: Client, calls: seq<Call>)
    requires Inv(c)
    ensures Inv(PerformAll(c, calls)) && (c.destroyed ==> PerformAll(c, calls).destroyed)
    ensures !PerformAll(c, calls).destroyed && DoClose !in calls && Alive(c) ==> Alive(PerformAll(c, calls))
  {
    if calls != [] {
      PerformAllKeeps(c, calls[..|calls| - 1]);
      PerformKeeps(PerformAll(c, calls[..|calls| - 1]), calls[|calls| - 1]);
    }
  }

  lemma OnOpenKeeps(c: Client, calls: seq<Call>)
    requires Inv(c) && !c.destroyed
    ensures Inv(OnOpen(c, calls))
    ensures !OnOpen(c, calls).destroyed && DoClose !in calls && Alive(c) ==> Alive(OnOpen(c, calls))
  {
    var reset := c.(reconnectAttempts := 0, backoff := Backoff(c.browser.now, [], c.reconnectTimer.Some?));
    assert Inv(reset);
    HeartbeatKeeps(reset);
    PerformAllKeeps(StartHeartbeat(reset), calls);
  }

  /** However the close handlers call back, even with close(): unless destroyed, a reconnect is pending afterwards. */
  lemma OnCloseReconnects(c: Client, calls: seq<Call>)
    requires Inv(c)
    ensures Inv(OnClose(c, calls)) && (c.destroyed ==> OnClose(c, calls).destroyed)
    ensures !OnClose(c, calls).destroyed ==> OnClose(c, calls).reconnectTimer.Some?
  {
    HeartbeatKeeps(c);
    PerformAllKeeps(StopHeartbeat(c), calls);
    ScheduleKeeps(Emit(StopHeartbeat(c), "close", calls));
  }

  lemma FireKeeps(c: Client, id: nat, throws: bool)
    requires Inv(c) && id in c.browser.timeouts && c.browser.timeouts[id] <= c.browser.now
    ensures Inv(FireTimeout(c, id, throws)) && !FireTimeout(c, id, throws).destroyed && Alive(FireTimeout(c, id, throws))
  {
    var d := c.(reconnectTimer := None,
                browser := c.browser.(timeouts := c.browser.timeouts - {id}),
                backoff := c.backoff.(leftover := false));
    assert id == c.reconnectTimer.value;
    assert d.browser.timeouts.Keys == {};
    ConnectKeeps(d, throws);
  }

  /** The calls an event makes, from the application or from a handler. */
  function CallsOf(e: Event): seq<Call> {
    match e
    case App(call) => [call]
    case Opens(_, calls) => calls
    case Message(_, _, calls, moreCalls) => calls + moreCalls
    case Errors(_, calls) => calls
    case Closes(_, calls) => calls
    case _ => []
  }

  lemma OpensKeeps(c: Client, i: nat, calls: seq<Call>)
    requires Inv(c) && Possible(c, Opens(i, calls))
    ensures var d := Step(c, Opens(i, calls));
      && Inv(d) && (c.destroyed ==> d.destroyed)
      && (!d.destroyed && Alive(c) && DoClose !in calls ==> Alive(d))
  {
    var s := c.browser.sockets[i];
    if s.listening {
      OnOpenKeeps(SetSocket(c, i, s.(ready := OPEN)), calls);
    }
  }

  lemma ClosesKeeps(c: Client, i: nat, calls: seq<Call>)
    requires Inv(c) && Possible(c, Closes(i, calls))
    ensures var d := Step(c, Closes(i, calls));
      && Inv(d) && (c.destroyed ==> d.destroyed)
      && (!d.destroyed && Alive(c) ==> Alive(d))
  {
    var s := c.browser.sockets[i];
    if s.listening {
      OnCloseReconnects(SetSocket(c, i, s.(finished := true)), calls);
    }
  }

  lemma StepKeeps(c: Client, e: Event)
    requires Inv(c) && Possible(c, e)
    ensures Inv(Step(c, e)) && (c.destroyed ==> Step(c, e).destroyed)
    ensures !Step(c, e).destroyed && Alive(c) && DoClose !in CallsOf(e) ==> Alive(Step(c, e))
  {
    match e {
      case App(call) => PerformKeeps(c, call);
      case Message(i, kind, calls, moreCalls) =>
        PerformAllKeeps(c, calls);
        PerformAllKeeps(Emit(c, kind, calls), moreCalls);
      case Errors(i, calls) => PerformAllKeeps(c, calls);
      case TimeoutFires(id, throws) => FireKeeps(c, id, throws);
      case Malformed(_) =>
      case IntervalFires(_) =>
      case Elapse(_) =>
      case Opens(i, calls) => OpensKeeps(c, i, calls);
      case Closes(i, calls) => ClosesKeeps(c, i, calls);
      case _ =>
    }
  }

  // ---- whole runs ----

  lemma {:induction false} RunKeeps(c: Client, events: seq<Event>, d: Client)
    requires Inv(c) && Runs(c, events, d)
    ensures Inv(d) && (c.destroyed ==> d.destroyed)
    decreases |events|
  {
    if events != [] {
      StepKeeps(c, events[0]);
      RunKeeps(Step(c, events[0]), events[1..], d);
    }
  }

  /**
  In every run: only the current socket has live callbacks, at most one reconnect timer and one
  heartbeat are armed and the fields know them, and a destroyed client has none of these.
   */
  lemma NothingLeaks(now: nat, events: seq<Event>, c: Client)
    requires Runs(Init(now), events, c)
    ensures forall i :: 0 <= i < |c.browser.sockets| && c.browser.sockets[i].listening ==> c.ws == Some(i)
    ensures |c.browser.timeouts| <= 1 && |c.browser.intervals| <= 1
    ensures forall t :: t in c.browser.timeouts ==> c.reconnectTimer == Some(t)
    ensures forall t :: t in c.browser.intervals ==> c.pingTimer == Some(t)
    ensures c.destroyed ==> c.ws.None? && c.browser.timeouts == map[] && c.browser.intervals == {}
    ensures c.destroyed ==> forall i :: 0 <= i < |c.browser.sockets| ==> !c.browser.sockets[i].listening
  {
    InitInv(now);
    RunKeeps(Init(now), events, c);
    assert |c.browser.timeouts| == |c.browser.timeouts.Keys|;
  }

  ghost predicate NoClose(events: seq<Event>) {
    forall k :: 0 <= k < |events| ==> DoClose !in CallsOf(events[k])
  }

  lemma {:induction false} StaysAlive(c: Client, events: seq<Event>, d: Client)
    requires Inv(c) && Alive(c) && Runs(c, events, d) && NoClose(events) && !d.destroyed
    ensures Alive(d)
    decreases |events|
  {
    if events != [] {
      StepKeeps(c, events[0]);
      RunKeeps(Step(c, events[0]), events[1..], d);
      StaysAlive(Step(c, events[0]), events[1..], d);
    }
  }

  /** After connect(), until close() or destroy() is called, a socket or a pending reconnect is always there. */
  lemma ConnectIsForGood(now: nat, before: seq<Event>, c: Client, throws: bool, after: seq<Event>, d: Client)
    requires Runs(Init(now), before, c) && Runs(Step(c, App(DoConnect(throws))), after, d)
    requires NoClose(after) && !d.destroyed
    ensures Alive(d)
  {
    InitInv(now);
    RunKeeps(Init(now), before, c);
    ConnectKeeps(c, throws);
    RunKeeps(Connect(c, throws), after, d);
    StaysAlive(Connect(c, throws), after, d);
  }

  // ---- destroy is final ----

  /** No callback can run and no timer is armed. */
  ghost predicate Dead(c: Client) {
    && Inv(c) && c.destroyed
  }

  /** After destroy() no event whatsoever makes a socket, a timer or a frame again. */
  lemma {:induction false} DestroyIsFinal(c: Client, events: seq<Event>, d: Client)
    requires Dead(c) && Runs(c, events, d)
    ensures d.destroyed && d.ws.None? && d.browser.timeouts.Keys == {} && d.browser.intervals == {}
    ensures |d.browser.sockets| == |c.browser.sockets| && d.browser.frames == c.browser.frames
    decreases |events|
  {
    if events != [] {
      DestroyIsFinal(Step(c, events[0]), events[1..], d);
    }
  }

  // ---- close is not final ----

  /** The application itself does not connect again. */
  ghost predicate NoAppConnect(events: seq<Event>) {
    forall k :: 0 <= k < |events| ==> !(events[k].App? && events[k].call.DoConnect?)
  }

  /** No socket and no pending reconnect. */
  ghost predicate Idle(c: Client) {
    Inv(c) && c.ws.None? && c.reconnectTimer.None?
  }

  lemma StepWhenIdle(c: Client, e: Event)
    requires Idle(c) && Possible(c, e) && !(e.App? && e.call.DoConnect?)
    ensures Idle(Step(c, e)) && |Step(c, e).browser.sockets| == |c.browser.sockets|
  {
    StepKeeps(c, e);
    match e {
      case App(call) => if call == DoDestroy { DestroyKeeps(c); }
      case TimeoutFires(id, _) => assert id !in c.browser.timeouts.Keys;
      case _ =>
    }
  }

  lemma {:induction false} StaysIdle(c: Client, events: seq<Event>, d: Client)
    requires Idle(c) && Runs(c, events, d) && NoAppConnect(events)
    ensures |d.browser.sockets| == |c.browser.sockets|
    decreases |events|
  {
    if events != [] {
      StepWhenIdle(c, events[0]);
      StaysIdle(Step(c, events[0]), events[1..], d);
    }
  }

  /** Unless the application connects again, no further socket is ever made. */
  ghost predicate StaysClosed(c: Client) {
    forall events, d :: Runs(c, events, d) && NoAppConnect(events) ==> |d.browser.sockets| == |c.browser.sockets|
  }

  /** close() closes for good exactly if no reconnect was pending: it does not cancel the timer. */
  lemma CloseIsFinalIffNoReconnectPending(c: Client)
    requires Inv(c)
    ensures StaysClosed(Close(c)) <==> c.reconnectTimer.None?
  {
    CloseKeeps(c);
    var d := Close(c);
    if c.reconnectTimer.None? {
      forall events, e | Runs(d, events, e) && NoAppConnect(events)
        ensures |e.browser.sockets| == |d.browser.sockets|
      {
        StaysIdle(d, events, e);
      }
    } else {
      var id := c.reconnectTimer.value;
      assert id in d.browser.timeouts.Keys;
      var wait, fire := Elapse(d.browser.timeouts[id]), TimeoutFires(id, false);
      var e := Step(d, wait);
      var f := Step(e, fire);
      assert Runs(f, [], f) && Runs(e, [fire], f);
      assert [wait, fire][1..] == [fire] && Runs(d, [wait, fire], f);
      assert |f.browser.sockets| == |d.browser.sockets| + 1;
      assert NoAppConnect([wait, fire]);
    }
  }

  /** A connection that broke has a reconnect pending, and close() does not stop it. */
  lemma CloseCanBeUndone(now: nat)
    ensures exists events, c :: Runs(Init(now), events, c) && HasSocket(c) && !StaysClosed(Close(c))
  {
    var a := Init(now);
    var b := Step(a, App(DoConnect(false)));
    var c := Step(b, Dies(0));
    var d := Step(c, Closes(0, []));
    assert Runs(d, [], d) && Runs(c, [Closes(0, [])], d);
    assert [Dies(0), Closes(0, [])][1..] == [Closes(0, [])] && Runs(b, [Dies(0), Closes(0, [])], d);
    var events := [App(DoConnect(false)), Dies(0), Closes(0, [])];
    assert events[1..] == [Dies(0), Closes(0, [])] && Runs(a, events, d);
    InitInv(now);
    RunKeeps(a, events, d);
    assert PerformAll(StopHeartbeat(c), []) == StopHeartbeat(c);
    CloseIsFinalIffNoReconnectPending(d);
  }

  // ---- the back-off over whole runs ----

  /** The time k reconnects wait together. */
  function Total(k: nat): nat {
    if k == 0 then 0 else Total(k - 1) + Delay(k - 1)
  }

  /** 1 s, 2 s, 4 s, 8 s, 16 s, and 30 s from then on. */
  lemma {:induction false} TotalWait(k: nat)
    ensures Total(k) == if k <= 5 then 1000 * (Pow2(k) - 1) else 31000 + 30000 * (k - 5)
  {
    if k > 0 {
      TotalWait(k - 1);
      if k > 5 {
        Pow2Grows(5, k - 1);
      } else {
        assert Pow2(2) == 4;
        assert Pow2(4) == 16;
        assert k - 1 in {0, 1, 2, 3, 4};
      }
      assert Pow2(5) == 2 * Pow2(4);
    }
  }

  lemma {:induction false} SumOfDelays(xs: seq<nat>)
    requires forall k :: 0 <= k < |xs| ==> xs[k] == Delay(k)
    ensures Sum(xs) == Total(|xs|)
  {
    if xs != [] {
      SumOfDelays(xs[..|xs| - 1]);
    }
  }

  /**
  In every run, for a client that was not destroyed: the reconnects scheduled since the last
  open wait 1, 2, 4, ... seconds, at most 30, and those whose wait is over fit one after the
  other into the time since the last open.
   */
  lemma BackoffOverRuns(now: nat, events: seq<Event>, c: Client)
    requires Runs(Init(now), events, c) && !c.destroyed
    ensures |c.backoff.waits| == c.reconnectAttempts
    ensures forall k :: 0 <= k < |c.backoff.waits| ==> c.backoff.waits[k] == Delay(k)
    ensures |Waited(c)| == c.reconnectAttempts - (if c.reconnectTimer.Some? && !c.backoff.leftover then 1 else 0)
    ensures Total(|Waited(c)|) <= c.browser.now - c.backoff.since
  {
    InitInv(now);
    RunKeeps(Init(now), events, c);
    SumOfDelays(Waited(c));
  }
}
