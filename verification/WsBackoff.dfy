/**
The reconnect delays read off the events themselves: how long each reconnect waits is decided by
how many were scheduled since the client's socket last opened.
 */
module WsBackoff {
  import opened Basics
  import opened WsState
  import opened WsTheorems

  // ---- what the events say ----

  /** The client's own socket opens. */
  predicate OpensLive(c: Client, e: Event) {
    e.Opens? && e.i < |c.browser.sockets| && c.browser.sockets[e.i].listening
  }

  /** The event schedules a reconnect: a timeout is armed that was not before. */
  predicate Arms(c: Client, e: Event)
    requires Possible(c, e)
  {
    Step(c, e).browser.timeouts.Keys - c.browser.timeouts.Keys != {}
  }

  /** When the client's socket opened last in a run, and `since` if it never did. */
  function LastOpen(c: Client, events: seq<Event>, since: nat): nat
    decreases |events|
  {
    if events == [] || !Possible(c, events[0]) then since
    else LastOpen(Step(c, events[0]), events[1..], if OpensLive(c, events[0]) then c.browser.now else since)
  }

  /** How many reconnects a run schedules after the client's socket opened last, with `armed` before the run. */
  function ArmedSince(c: Client, events: seq<Event>, armed: nat): nat
    decreases |events|
  {
    if events == [] || !Possible(c, events[0]) then armed
    else
      var before := if OpensLive(c, events[0]) then 0 else armed;
      ArmedSince(Step(c, events[0]), events[1..], before + if Arms(c, events[0]) then 1 else 0)
  }

  // ---- one event schedules one reconnect at most ----

  /** Between these states at most one reconnect was scheduled, with the delay for the attempts so far. */
  predicate MayArm(c: Client, d: Client) {
    && d.backoff.since == c.backoff.since && d.browser.now == c.browser.now
    && c.browser.nextTimer <= d.browser.nextTimer
    && (NothingArmed(c, d) || OneArmed(c, d))
  }

  predicate NothingArmed(c: Client, d: Client) {
    d.reconnectTimer == c.reconnectTimer && d.browser.timeouts == c.browser.timeouts && d.reconnectAttempts == c.reconnectAttempts
  }

  predicate OneArmed(c: Client, d: Client) {
    && c.reconnectTimer.None? && d.reconnectTimer.Some?
    && c.browser.nextTimer <= d.reconnectTimer.value
    && d.reconnectAttempts == c.reconnectAttempts + 1
    && d.browser.timeouts == map[d.reconnectTimer.value := c.browser.now + Delay(c.reconnectAttempts)]
  }

  lemma ScheduleMayArm(c: Client)
    requires Inv(c) && !c.destroyed
    ensures MayArm(c, ScheduleReconnect(c))
  {
    if c.reconnectTimer.None? {
      assert c.browser.timeouts.Keys == {} && c.browser.timeouts == map[];
    }
  }

  lemma ConnectMayArm(c: Client, throws: bool)
    requires Inv(c) && !c.destroyed
    ensures MayArm(c, Connect(c, throws))
  {
    if throws {
      CloseKeeps(c);
      ScheduleMayArm(Close(c));
    }
  }

  lemma PerformMayArm(c: Client, call: Call)
    requires Inv(c) && !Perform(c, call).destroyed
    ensures !c.destroyed && MayArm(c, Perform(c, call))
  {
    PerformKeeps(c, call);
    if call.DoConnect? {
      ConnectMayArm(c, call.throws);
    }
  }

  /** A reconnect that is pending keeps further ones from being scheduled. */
  lemma MayArmThen(c: Client, d: Client, e: Client)
    requires MayArm(c, d) && MayArm(d, e)
    ensures MayArm(c, e)
  {
  }

  lemma {:induction false} PerformAllMayArm(c: Client, calls: seq<Call>)
    requires Inv(c) && !PerformAll(c, calls).destroyed
    ensures !c.destroyed && MayArm(c, PerformAll(c, calls))
  {
    if calls != [] {
      var front, last := calls[..|calls| - 1], calls[|calls| - 1];
      var d := PerformAll(c, front);
      PerformAllKeeps(c, front);
      PerformMayArm(d, last);
      PerformAllMayArm(c, front);
      MayArmThen(c, d, Perform(d, last));
    }
  }

  lemma EmitMayArm(c: Client, event: string, calls: seq<Call>)
    requires Inv(c) && !Emit(c, event, calls).destroyed
    ensures !c.destroyed && MayArm(c, Emit(c, event, calls)) && Inv(Emit(c, event, calls))
  {
    if HandlersOf(c, event) != {} {
      PerformAllMayArm(c, calls);
      PerformAllKeeps(c, calls);
    }
  }

  lemma OnCloseMayArm(c: Client, calls: seq<Call>)
    requires Inv(c) && !OnClose(c, calls).destroyed
    ensures MayArm(c, OnClose(c, calls))
  {
    HeartbeatKeeps(c);
    EmitMayArm(StopHeartbeat(c), "close", calls);
    ScheduleMayArm(Emit(StopHeartbeat(c), "close", calls));
  }

  lemma OnMessageMayArm(c: Client, kind: string, calls: seq<Call>, moreCalls: seq<Call>)
    requires Inv(c) && !OnMessage(c, kind, calls, moreCalls).destroyed
    ensures MayArm(c, OnMessage(c, kind, calls, moreCalls))
  {
    if HandlersOf(c, kind) != {} {
      PerformAllKeeps(c, calls);
    }
    EmitMayArm(Emit(c, kind, calls), "message", moreCalls);
    EmitMayArm(c, kind, calls);
  }

  /** The state from which an event's reconnect is scheduled: the attempts are reset by an open, and a timer that fires is gone. */
  function Base(c: Client, e: Event): Client
    requires Possible(c, e)
  {
    match e
    case Opens(_, _) => if OpensLive(c, e) then c.(reconnectAttempts := 0, backoff := c.backoff.(since := c.browser.now)) else c
    case TimeoutFires(id, _) => c.(reconnectTimer := None, browser := c.browser.(timeouts := c.browser.timeouts - {id}))
    case Elapse(ms) => c.(browser := c.browser.(now := c.browser.now + ms))
    case _ => c
  }

  lemma OpensMayArm(c: Client, i: nat, calls: seq<Call>)
    requires Inv(c) && Possible(c, Opens(i, calls)) && !Step(c, Opens(i, calls)).destroyed
    ensures MayArm(Base(c, Opens(i, calls)), Step(c, Opens(i, calls)))
  {
    var d := SetSocket(c, i, c.browser.sockets[i].(ready := OPEN));
    if c.browser.sockets[i].listening {
      var reset := d.(reconnectAttempts := 0, backoff := Backoff(d.browser.now, [], d.reconnectTimer.Some?));
      assert Inv(reset);
      HeartbeatKeeps(reset);
      EmitMayArm(StartHeartbeat(reset), "open", calls);
    }
  }

  lemma TimeoutMayArm(c: Client, id: nat, throws: bool)
    requires Inv(c) && Possible(c, TimeoutFires(id, throws))
    ensures MayArm(Base(c, TimeoutFires(id, throws)), Step(c, TimeoutFires(id, throws)))
  {
    var d := c.(reconnectTimer := None,
                browser := c.browser.(timeouts := c.browser.timeouts - {id}),
                backoff := c.backoff.(leftover := false));
    assert id == c.reconnectTimer.value;
    assert d.browser.timeouts.Keys == {};
    PerformMayArm(d, DoConnect(throws));
  }

  /** The client's own socket has news. */
  lemma SocketMayArm(c: Client, e: Event)
    requires Inv(c) && Possible(c, e) && !Step(c, e).destroyed && (e.Message? || e.Errors? || e.Closes?)
    ensures MayArm(c, Step(c, e))
  {
    match e {
      case Message(i, kind, calls, moreCalls) =>
        if c.browser.sockets[i].listening {
          OnMessageMayArm(c, kind, calls, moreCalls);
        }
      case Errors(i, calls) =>
        if c.browser.sockets[i].listening {
          EmitMayArm(c, "error", calls);
        }
      case Closes(i, calls) =>
        if c.browser.sockets[i].listening {
          OnCloseMayArm(SetSocket(c, i, c.browser.sockets[i].(finished := true)), calls);
        }
    }
  }

  lemma EventMayArm(c: Client, e: Event)
    requires Inv(c) && Possible(c, e) && !Step(c, e).destroyed
    ensures MayArm(Base(c, e), Step(c, e))
  {
    match e {
      case App(call) => PerformMayArm(c, call);
      case Opens(i, calls) => OpensMayArm(c, i, calls);
      case TimeoutFires(id, throws) => TimeoutMayArm(c, id, throws);
      case Message(_, _, _, _) => SocketMayArm(c, e);
      case Errors(_, _) => SocketMayArm(c, e);
      case Closes(_, _) => SocketMayArm(c, e);
      case _ =>
    }
  }

  /** What one event does to the record of the back-off, and when the reconnect it schedules is due. */
  lemma EventCounts(c: Client, e: Event)
    requires Inv(c) && Possible(c, e) && !Step(c, e).destroyed
    ensures var d, k := Step(c, e), if OpensLive(c, e) then 0 else c.reconnectAttempts;
      && d.backoff.since == (if OpensLive(c, e) then c.browser.now else c.backoff.since)
      && d.reconnectAttempts == k + (if Arms(c, e) then 1 else 0)
      && (Arms(c, e) ==>
            d.reconnectTimer.Some? && d.browser.timeouts == map[d.reconnectTimer.value := c.browser.now + Delay(k)])
  {
    var b, d := Base(c, e), Step(c, e);
    EventMayArm(c, e);
    assert b.browser.timeouts.Keys <= c.browser.timeouts.Keys;
    if OneArmed(b, d) {
      assert d.reconnectTimer.value in d.browser.timeouts.Keys - c.browser.timeouts.Keys;
    } else {
      assert d.browser.timeouts.Keys - c.browser.timeouts.Keys == {};
    }
  }

  lemma {:induction false} RunCounts(c: Client, events: seq<Event>, d: Client)
    requires Inv(c) && Runs(c, events, d) && !d.destroyed
    ensures !c.destroyed
    ensures d.backoff.since == LastOpen(c, events, c.backoff.since)
    ensures d.reconnectAttempts == ArmedSince(c, events, c.reconnectAttempts)
    decreases |events|
  {
    if events != [] {
      StepKeeps(c, events[0]);
      RunCounts(Step(c, events[0]), events[1..], d);
      EventCounts(c, events[0]);
    }
  }

  /**
  In every run: a reconnect that is scheduled after k others since the client's socket last opened,
  or since the client was made, is due in min(1000 * 2^k, 30000) ms; k starts again from 0 with
  every open of the client's own socket, and with nothing else.
   */
  lemma ReconnectIsDue(now: nat, events: seq<Event>, c: Client, e: Event)
    requires Runs(Init(now), events, c) && Possible(c, e) && !Step(c, e).destroyed && Arms(c, e)
    ensures var k := if OpensLive(c, e) then 0 else ArmedSince(Init(now), events, 0);
      var delay := if 1000 * Pow2(k) <= 30000 then 1000 * Pow2(k) else 30000;
      Step(c, e).reconnectTimer.Some?
      && Step(c, e).browser.timeouts == map[Step(c, e).reconnectTimer.value := c.browser.now + delay]
  {
    InitInv(now);
    RunKeeps(Init(now), events, c);
    StepKeeps(c, e);
    RunCounts(Init(now), events, c);
    EventCounts(c, e);
  }

  /** The record that the back-off theorems speak of is what the events say. */
  lemma RecordIsRight(now: nat, events: seq<Event>, c: Client)
    requires Runs(Init(now), events, c) && !c.destroyed
    ensures c.backoff.since == LastOpen(Init(now), events, now)
    ensures |c.backoff.waits| == c.reconnectAttempts == ArmedSince(Init(now), events, 0)
  {
    InitInv(now);
    RunKeeps(Init(now), events, c);
    RunCounts(Init(now), events, c);
  }

  /** Nothing is scheduled in the run, and the client's socket does not open. */
  ghost predicate Uneventful(c: Client, events: seq<Event>)
    decreases |events|
  {
    events == []
    || (Possible(c, events[0]) && !OpensLive(c, events[0]) && !Arms(c, events[0]) && Uneventful(Step(c, events[0]), events[1..]))
  }

  lemma {:induction false} UneventfulKeepsAttempts(c: Client, events: seq<Event>, d: Client)
    requires Inv(c) && Runs(c, events, d) && Uneventful(c, events) && !d.destroyed
    ensures !c.destroyed && Inv(d) && d.reconnectAttempts == c.reconnectAttempts
    decreases |events|
  {
    if events != [] {
      StepKeeps(c, events[0]);
      UneventfulKeepsAttempts(Step(c, events[0]), events[1..], d);
      EventCounts(c, events[0]);
    }
  }

  /** In particular the first reconnect after a good connection waits one second, however many failed before it. */
  lemma FirstReconnectAfterOpen(now: nat, before: seq<Event>, c: Client, i: nat, calls: seq<Call>,
                                between: seq<Event>, d: Client, e: Event)
    requires Runs(Init(now), before, c) && Possible(c, Opens(i, calls)) && c.browser.sockets[i].listening
    requires !Arms(c, Opens(i, calls))
    requires Runs(Step(c, Opens(i, calls)), between, d) && Uneventful(Step(c, Opens(i, calls)), between)
    requires Possible(d, e) && Arms(d, e) && !Step(d, e).destroyed
    ensures Step(d, e).reconnectTimer.Some?
    ensures Step(d, e).browser.timeouts == map[Step(d, e).reconnectTimer.value := d.browser.now + 1000]
  {
    InitInv(now);
    RunKeeps(Init(now), before, c);
    StepKeeps(c, Opens(i, calls));
    RunKeeps(Step(c, Opens(i, calls)), between, d);
    StepKeeps(d, e);
    UneventfulKeepsAttempts(Step(c, Opens(i, calls)), between, d);
    EventCounts(c, Opens(i, calls));
    EventCounts(d, e);
  }
}
