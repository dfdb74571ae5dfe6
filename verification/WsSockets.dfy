/**
What the client's connections and handlers do for the application: at most one connection is in
use, an open one has a heartbeat that is sent on it, sockets it gave up cannot disturb it, and a
handler is called exactly while it is registered.
 */
module WsSockets {
  import opened Basics
  import opened WsState
  import opened WsTheorems

  /** No socket but the client's own is connecting or open. */
  ghost predicate OneInUse(c: Client) {
    forall i :: 0 <= i < |c.browser.sockets| && Usable(c.browser.sockets[i].ready) ==> c.ws == Some(i)
  }

  /** An open connection has a heartbeat. */
  predicate HeartbeatRuns(c: Client) {
    HasSocket(c) && Ready(c) == OPEN ==> c.pingTimer.Some?
  }

  ghost predicate InUse(c: Client) {
    OneInUse(c) && HeartbeatRuns(c)
  }

  lemma CloseKeepsInUse(c: Client)
    requires InUse(c)
    ensures var d := Close(c);
      InUse(d) && forall i :: 0 <= i < |d.browser.sockets| ==> !Usable(d.browser.sockets[i].ready)
  {
  }

  lemma ConnectKeepsInUse(c: Client, throws: bool)
    requires InUse(c)
    ensures InUse(Connect(c, throws))
  {
    CloseKeepsInUse(c);
  }

  lemma PerformKeepsInUse(c: Client, call: Call)
    requires Inv(c) && InUse(c)
    ensures Inv(Perform(c, call)) && InUse(Perform(c, call))
  {
    PerformKeeps(c, call);
    match call {
      case DoConnect(throws) => ConnectKeepsInUse(c, throws);
      case DoClose => CloseKeepsInUse(c);
      case DoDestroy => CloseKeepsInUse(c.(destroyed := true));
      case _ =>
    }
  }

  lemma {:induction false} PerformAllKeepsInUse(c: Client, calls: seq<Call>)
    requires Inv(c) && InUse(c)
    ensures Inv(PerformAll(c, calls)) && InUse(PerformAll(c, calls))
  {
    if calls != [] {
      PerformAllKeepsInUse(c, calls[..|calls| - 1]);
      PerformKeepsInUse(PerformAll(c, calls[..|calls| - 1]), calls[|calls| - 1]);
    }
  }

  lemma OpensKeepsInUse(c: Client, i: nat, calls: seq<Call>)
    requires Inv(c) && InUse(c) && Possible(c, Opens(i, calls))
    ensures Inv(Step(c, Opens(i, calls))) && InUse(Step(c, Opens(i, calls)))
  {
    StepKeeps(c, Opens(i, calls));
    var d := SetSocket(c, i, c.browser.sockets[i].(ready := OPEN));
    if c.browser.sockets[i].listening {
      var reset := d.(reconnectAttempts := 0, backoff := Backoff(d.browser.now, [], d.reconnectTimer.Some?));
      assert Inv(reset);
      HeartbeatKeeps(reset);
      PerformAllKeepsInUse(StartHeartbeat(reset), calls);
    }
  }

  lemma ScheduleKeepsInUse(c: Client)
    requires InUse(c)
    ensures InUse(ScheduleReconnect(c))
  {
  }

  lemma OnCloseKeepsInUse(c: Client, calls: seq<Call>)
    requires Inv(c) && InUse(c) && !(HasSocket(c) && Ready(c) == OPEN)
    ensures InUse(OnClose(c, calls))
  {
    var d := StopHeartbeat(c);
    HeartbeatKeeps(c);
    assert InUse(d);
    PerformAllKeepsInUse(d, calls);
    ScheduleKeepsInUse(Emit(d, "close", calls));
  }

  lemma ClosesKeepsInUse(c: Client, i: nat, calls: seq<Call>)
    requires Inv(c) && InUse(c) && Possible(c, Closes(i, calls))
    ensures Inv(Step(c, Closes(i, calls))) && InUse(Step(c, Closes(i, calls)))
  {
    StepKeeps(c, Closes(i, calls));
    if c.browser.sockets[i].listening {
      OnCloseKeepsInUse(SetSocket(c, i, c.browser.sockets[i].(finished := true)), calls);
    }
  }

  lemma TimeoutKeepsInUse(c: Client, id: nat, throws: bool)
    requires Inv(c) && InUse(c) && Possible(c, TimeoutFires(id, throws))
    ensures Inv(Step(c, TimeoutFires(id, throws))) && InUse(Step(c, TimeoutFires(id, throws)))
  {
    StepKeeps(c, TimeoutFires(id, throws));
  }

  lemma StepKeepsInUse(c: Client, e: Event)
    requires Inv(c) && InUse(c) && Possible(c, e)
    ensures Inv(Step(c, e)) && InUse(Step(c, e))
  {
    StepKeeps(c, e);
    match e {
      case App(call) => PerformKeepsInUse(c, call);
      case Opens(i, calls) => OpensKeepsInUse(c, i, calls);
      case Message(i, kind, calls, moreCalls) =>
        PerformAllKeepsInUse(c, calls);
        PerformAllKeepsInUse(Emit(c, kind, calls), moreCalls);
      case Errors(i, calls) => PerformAllKeepsInUse(c, calls);
      case Closes(i, calls) => ClosesKeepsInUse(c, i, calls);
      case TimeoutFires(id, throws) => TimeoutKeepsInUse(c, id, throws);
      case _ =>
    }
  }

  lemma {:induction false} RunKeepsInUse(c: Client, events: seq<Event>, d: Client)
    requires Inv(c) && InUse(c) && Runs(c, events, d)
    ensures Inv(d) && InUse(d)
    decreases |events|
  {
    if events != [] {
      StepKeepsInUse(c, events[0]);
      RunKeepsInUse(Step(c, events[0]), events[1..], d);
    }
  }

  /**
  In every run no connection is left behind: a socket that is connecting or open is the client's
  own. When that one is open a heartbeat runs, and each of its beats sends one frame on it.
   */
  lemma OneConnectionWithHeartbeat(now: nat, events: seq<Event>, c: Client)
    requires Runs(Init(now), events, c)
    ensures forall i :: 0 <= i < |c.browser.sockets| && c.browser.sockets[i].ready in {CONNECTING, OPEN} ==> c.ws == Some(i)
    ensures forall i: nat :: i < |c.browser.sockets| && c.browser.sockets[i].ready == OPEN ==>
              c.pingTimer.Some? && Possible(c, IntervalFires(c.pingTimer.value))
              && Step(c, IntervalFires(c.pingTimer.value)).browser.frames == c.browser.frames + [i]
    ensures (forall i :: 0 <= i < |c.browser.sockets| ==> c.browser.sockets[i].ready != OPEN) ==>
              forall id :: id in c.browser.intervals ==> Step(c, IntervalFires(id)).browser.frames == c.browser.frames
  {
    InitInv(now);
    RunKeepsInUse(Init(now), events, c);
  }

  /** After connect() the client has a connection that is open or being made, the same one if it had one; or it tries again later. */
  lemma ConnectMakesUsable(c: Client, throws: bool)
    requires Inv(c) && !c.destroyed
    ensures var d := Connect(c, throws);
      if HasSocket(c) && Ready(c) in {CONNECTING, OPEN} then d == c
      else if throws then d.ws.None? && d.reconnectTimer.Some? && |d.browser.sockets| == |c.browser.sockets|
      else d.ws == Some(|c.browser.sockets|) && HasSocket(d) && Ready(d) == CONNECTING
  {
  }

  /** Events of a socket that the client gave up change nothing but that socket. */
  lemma GivenUpIsInert(c: Client, e: Event, i: nat)
    requires Possible(c, e) && i < |c.browser.sockets| && !c.browser.sockets[i].listening
    requires e.Opens? || e.Message? || e.Malformed? || e.Errors? || e.Closes?
    requires e.i == i
    ensures Step(c, e) == c.(browser := c.browser.(sockets := c.browser.sockets[i := Step(c, e).browser.sockets[i]]))
  {
    assert c.browser.sockets == c.browser.sockets[i := c.browser.sockets[i]];
  }

  // ---- handlers ----

  /** A handler is registered after a call exactly if the call registered it, or it was and the call did not remove it. */
  lemma RegisteredIff(c: Client, call: Call, event: string, handler: nat)
    requires Inv(c)
    ensures handler in HandlersOf(Perform(c, call), event)
       <==> call == DoOn(event, handler)
            || (handler in HandlersOf(c, event) && call != DoOff(event, handler) && call != DoDestroy)
  {
    if call.DoConnect? && call.throws {
      CloseKeeps(c);
    }
  }

  /** Handlers of the client's own socket are heard: one that sends on an open connection puts its frame on the wire. */
  lemma HandlersAreHeard(c: Client, i: nat, kind: string, handler: nat)
    requires Inv(c) && c.ws == Some(i) && i < |c.browser.sockets| && handler in HandlersOf(c, kind)
    requires c.browser.sockets[i].ready == OPEN
    ensures Step(c, Message(i, kind, [DoSend], [])).browser.frames == c.browser.frames + [i]
    ensures kind == "message" ==> Step(c, Message(i, "other", [], [DoSend])).browser.frames == c.browser.frames + [i]
    ensures kind == "error" ==> Step(c, Errors(i, [DoSend])).browser.frames == c.browser.frames + [i]
  {
    assert PerformAll(c, [DoSend][..0]) == c;
    assert PerformAll(c, [DoSend]) == Send(c);
    var d := Emit(c, kind, [DoSend]);
    assert PerformAll(d, []) == d;
    assert PerformAll(c, []) == c;
  }

  lemma OneCall(c: Client, call: Call)
    ensures PerformAll(c, [call]) == Perform(c, call)
  {
    assert [call][..0] == [];
    assert PerformAll(c, [call][..0]) == c;
  }

  /** So are those of opens. */
  lemma OpensAreHeard(c: Client, i: nat, handler: nat)
    requires Inv(c) && c.ws == Some(i) && i < |c.browser.sockets| && c.browser.sockets[i].ready == CONNECTING
    requires handler in HandlersOf(c, "open")
    ensures Step(c, Opens(i, [DoSend])).browser.frames == c.browser.frames + [i]
  {
    var d := SetSocket(c, i, c.browser.sockets[i].(ready := OPEN));
    var reset := d.(reconnectAttempts := 0, backoff := Backoff(d.browser.now, [], d.reconnectTimer.Some?));
    OneCall(StartHeartbeat(reset), DoSend);
  }

  /** And of closes. */
  lemma ClosesAreHeard(c: Client, i: nat, handler: nat)
    requires Inv(c) && c.ws == Some(i) && Possible(c, Closes(i, [DoDestroy])) && handler in HandlersOf(c, "close")
    ensures Step(c, Closes(i, [DoDestroy])).destroyed
  {
    var d := StopHeartbeat(SetSocket(c, i, c.browser.sockets[i].(finished := true)));
    assert handler in HandlersOf(d, "close");
    OneCall(d, DoDestroy);
  }

  /** The handlers of a message's own type run before those of every message: these do not run if the former remove them. */
  lemma TypeComesFirst(c: Client, i: nat, kind: string, handler: nat)
    requires Inv(c) && c.ws == Some(i) && i < |c.browser.sockets| && c.browser.sockets[i].ready == OPEN
    requires kind != "message" && HandlersOf(c, kind) != {} && HandlersOf(c, "message") == {handler}
    ensures Step(c, Message(i, kind, [DoOff("message", handler)], [DoSend])).browser.frames == c.browser.frames
  {
    OneCall(c, DoOff("message", handler));
  }
}
