/**
The WebSocket client as the object it is: what each operation achieves for its caller, in every
state it can be called in, be it by the application or from inside one of the client's own handlers.
 */
module WsClient {
  import opened Basics
  import opened WsState
  import Spec = WsState
  import opened WsTheorems

  lemma {:induction false} RunsSnoc(c: Client, events: seq<Event>, d: Client, e: Event)
    requires Runs(c, events, d) && Possible(d, e)
    ensures Runs(c, events + [e], Step(d, e))
    decreases |events|
  {
    if events == [] {
      var f := Step(d, e);
      assert Runs(f, [], f) && [e][1..] == [];
      assert events + [e] == [e];
    } else {
      assert (events + [e])[1..] == events[1..] + [e];
      RunsSnoc(Step(c, events[0]), events[1..], d, e);
    }
  }

  /** The client as a browser runs it. */
  class WSClient {
    var ws: Option<nat>
    var handlers: map<string, set<nat>>
    var reconnectAttempts: nat
    var reconnectTimer: Option<nat>
    var pingTimer: Option<nat>
    var destroyed: bool
    var browser: Browser
    ghost var backoff: Backoff
    ghost var history: seq<Event>
    ghost var busy: bool             // a callback is running
    ghost const createdAt: nat

    ghost function State(): Client
      reads this
    {
      Client(ws, reconnectAttempts, reconnectTimer, pingTimer, destroyed, handlers, browser, backoff)
    }

    /**
    Sockets, timers and back-off are in order, and between callbacks the state is the outcome of
    what has happened since the client was made.
     */
    ghost predicate Valid()
      reads this
    {
      Inv(State()) && (!busy ==> Runs(Init(createdAt), history, State()))
    }

    /** A call from the application is an event of its own; one from a handler belongs to the handler's event. */
    ghost function Noting(call: Call): seq<Event>
      reads this
    {
      if busy then history else history + [App(call)]
    }

    constructor (now: nat)
      ensures State() == Init(now) && history == [] && createdAt == now && !busy && Valid()
    {
      ws, reconnectTimer, pingTimer := None, None, None;
      handlers, reconnectAttempts, destroyed := map[], 0, false;
      browser := Browser([], map[], {}, 1, [], now);
      backoff, history, createdAt, busy := Backoff(now, [], false), [], now, false;
    }

    /** Record a call that led from `c` to the present state. */
    ghost method Note(c: Client, call: Call)
      requires State() == Spec.Perform(c, call) && (!busy ==> Runs(Init(createdAt), history, c))
      modifies this`history
      ensures history == old(Noting(call)) && (!busy ==> Runs(Init(createdAt), history, State()))
    {
      if !busy {
        RunsSnoc(Init(createdAt), history, c, App(call));
        history := history + [App(call)];
      }
    }

    /** The body of `close`: take the callbacks off the socket, close it if it is usable, and forget it. */
    method Detach()
      modifies this`ws, this`browser
      ensures State() == Spec.Close(old(State()))
    {
      if ws.Some? {
        if ws.value < |browser.sockets| {
          var s := browser.sockets[ws.value].(listening := false);
          if s.ready == OPEN || s.ready == CONNECTING {
            s := s.(ready := CLOSING);
          }
          browser := browser.(sockets := browser.sockets[ws.value := s]);
        }
        ws := None;
      }
    }

    /** Afterwards no socket can call back; a pending reconnect and the heartbeat are untouched. */
    method Close()
      requires Valid()
      modifies this
      ensures Valid() && busy == old(busy) && history == old(Noting(DoClose)) && State() == Spec.Close(old(State()))
      ensures ws.None? && forall i :: 0 <= i < |browser.sockets| ==> !browser.sockets[i].listening
      ensures reconnectTimer == old(reconnectTimer) && browser.timeouts == old(browser.timeouts)
      ensures pingTimer == old(pingTimer) && browser.intervals == old(browser.intervals)
    {
      CloseKeeps(State());
      Detach();
      Note(old(State()), DoClose);
    }

    /**
    Afterwards exactly one reconnect is armed, unless the client is destroyed. If none was, it is due
    after twice the wait of the one before, at most 30 seconds.
     */
    method ScheduleReconnect()
      requires Inv(State())
      modifies this`reconnectAttempts, this`reconnectTimer, this`backoff, this`browser
      ensures Inv(State()) && State() == Spec.ScheduleReconnect(old(State()))
      ensures destroyed || (reconnectTimer.Some? && browser.timeouts.Keys == {reconnectTimer.value})
      ensures if destroyed || old(reconnectTimer).Some? then State() == old(State())
              else reconnectAttempts == old(reconnectAttempts) + 1
                   && browser.timeouts == map[reconnectTimer.value := browser.now + Delay(old(reconnectAttempts))]
    {
      ScheduleKeeps(State());
      if destroyed || reconnectTimer.Some? {
        return;
      }
      var delay := Delay(reconnectAttempts);
      assert browser.timeouts == map[] by {
        assert browser.timeouts.Keys == {};
      }
      reconnectAttempts := reconnectAttempts + 1;
      reconnectTimer := Some(browser.nextTimer);
      backoff := backoff.(waits := backoff.waits + [delay]);
      browser := browser.(timeouts := browser.timeouts[browser.nextTimer := browser.now + delay],
                          nextTimer := browser.nextTimer + 1);
    }

    /** Replace the socket, or schedule the next attempt if the constructor throws. */
    method Reopen(throws: bool)
      requires Inv(State()) && !destroyed && !(HasSocket(State()) && Usable(Ready(State())))
      modifies this`ws, this`reconnectAttempts, this`reconnectTimer, this`backoff, this`browser
      ensures State() == Spec.Connect(old(State()), throws)
    {
      CloseKeeps(State());
      Detach();
      if throws {
        ScheduleReconnect();
      } else {
        ws := Some(|browser.sockets|);
        browser := browser.(sockets := browser.sockets + [Socket(CONNECTING, true, false)]);
      }
    }

    /** Unless the client is destroyed it has, afterwards, a socket that will report its end or an armed reconnect. */
    method Connect(throws: bool)
      requires Valid()
      modifies this
      ensures Valid() && busy == old(busy) && history == old(Noting(DoConnect(throws)))
      ensures State() == Spec.Connect(old(State()), throws)
      ensures if old(destroyed) then State() == old(State()) else !destroyed && Alive(State())
      ensures |browser.sockets| <= |old(browser.sockets)| + 1
      ensures !destroyed && !throws ==> HasSocket(State()) && Usable(Ready(State()))
      ensures HasSocket(old(State())) && Usable(Ready(old(State()))) ==> State() == old(State())
    {
      ConnectKeeps(State(), throws);
      if !destroyed && !(ws.Some? && ws.value < |browser.sockets| && Usable(browser.sockets[ws.value].ready)) {
        Reopen(throws);
      }
      Note(old(State()), DoConnect(throws));
    }

    /** Afterwards no heartbeat runs. */
    method StopHeartbeat()
      requires TimersTracked(State())
      modifies this`pingTimer, this`browser
      ensures State() == Spec.StopHeartbeat(old(State()))
      ensures pingTimer.None? && browser.intervals == {}
    {
      if pingTimer.Some? {
        browser := browser.(intervals := browser.intervals - {pingTimer.value});
        pingTimer := None;
      }
    }

    /** Afterwards exactly one heartbeat runs, a new one. */
    method StartHeartbeat()
      requires Inv(State()) && !destroyed
      modifies this`pingTimer, this`browser
      ensures Inv(State()) && State() == Spec.StartHeartbeat(old(State()))
      ensures pingTimer.Some? && browser.intervals == {pingTimer.value} && pingTimer.value !in old(browser.intervals)
    {
      HeartbeatKeeps(State());
      StopHeartbeat();
      pingTimer := Some(browser.nextTimer);
      browser := browser.(intervals := browser.intervals + {browser.nextTimer}, nextTimer := browser.nextTimer + 1);
    }

    /** Afterwards nothing is left that could ever call back. */
    method Destroy()
      requires Valid()
      modifies this
      ensures Valid() && busy == old(busy) && history == old(Noting(DoDestroy)) && State() == Spec.Destroy(old(State()))
      ensures Dead(State()) && browser.timeouts == map[] && browser.intervals == {} && handlers == map[]
      ensures forall i :: 0 <= i < |browser.sockets| ==> !browser.sockets[i].listening
    {
      DestroyKeeps(State());
      destroyed := true;
      Detach();
      StopHeartbeat();
      if reconnectTimer.Some? {
        browser := browser.(timeouts := browser.timeouts - {reconnectTimer.value});
        reconnectTimer := None;
      }
      handlers := map[];
      Note(old(State()), DoDestroy);
    }

    method Send()
      requires Valid()
      modifies this
      ensures Valid() && busy == old(busy) && history == old(Noting(DoSend)) && State() == Spec.Send(old(State()))
    {
      PerformKeeps(State(), DoSend);
      if ws.Some? && ws.value < |browser.sockets| && browser.sockets[ws.value].ready == OPEN {
        browser := browser.(frames := browser.frames + [ws.value]);
      }
      Note(old(State()), DoSend);
    }

    method On(event: string, handler: nat)
      requires Valid()
      modifies this
      ensures Valid() && busy == old(busy) && history == old(Noting(DoOn(event, handler)))
      ensures State() == Spec.On(old(State()), event, handler)
    {
      PerformKeeps(State(), DoOn(event, handler));
      if event !in handlers {
        handlers := handlers[event := {}];
      }
      handlers := handlers[event := handlers[event] + {handler}];
      assert handlers == Spec.On(old(State()), event, handler).handlers;
      Note(old(State()), DoOn(event, handler));
    }

    /** What the function returned by `on` does. */
    method Off(event: string, handler: nat)
      requires Valid()
      modifies this
      ensures Valid() && busy == old(busy) && history == old(Noting(DoOff(event, handler)))
      ensures State() == Spec.Off(old(State()), event, handler)
    {
      PerformKeeps(State(), DoOff(event, handler));
      if event in handlers {
        handlers := handlers[event := handlers[event] - {handler}];
      }
      Note(old(State()), DoOff(event, handler));
    }

    /** A call from the application, or from inside a handler. */
    method Perform(call: Call)
      requires Valid()
      modifies this
      ensures Valid() && busy == old(busy) && history == old(Noting(call)) && State() == Spec.Perform(old(State()), call)
    {
      match call {
        case DoConnect(throws) => Connect(throws);
        case DoClose => Close();
        case DoDestroy => Destroy();
        case DoSend => Send();
        case DoOn(event, handler) => On(event, handler);
        case DoOff(event, handler) => Off(event, handler);
      }
    }

    /** The handlers of `event` run; together they make `calls`. */
    method Emit(event: string, calls: seq<Call>)
      requires busy && Valid()
      modifies this
      ensures busy && Valid() && State() == Spec.Emit(old(State()), event, calls) && history == old(history)
    {
      if event !in handlers || handlers[event] == {} {
        return;
      }
      for k := 0 to |calls|
        invariant busy && Valid() && State() == PerformAll(old(State()), calls[..k]) && history == old(history)
      {
        Perform(calls[k]);
        assert calls[..k + 1][..k] == calls[..k];
      }
      assert calls[..|calls|] == calls;
    }

    /** The browser fires `e`; afterwards everything promised of a reachable client holds. */
    method Fire(e: Event)
      requires !busy && Valid() && Possible(State(), e)
      modifies this
      ensures !busy && Valid() && State() == Step(old(State()), e) && history == old(history) + [e]
      ensures Inv(State())
    {
      busy := true;
      Dispatch(e);
      history := history + [e];
      RunsSnoc(Init(createdAt), old(history), old(State()), e);
      busy := false;
    }

    method Dispatch(e: Event)
      requires busy && Valid() && Possible(State(), e)
      modifies this
      ensures busy && Valid() && State() == Step(old(State()), e) && history == old(history)
    {
      StepKeeps(State(), e);
      match e {
        case App(call) => Perform(call);
        case Opens(i, calls) => Opened(i, calls);
        case Message(i, kind, calls, moreCalls) =>
          if browser.sockets[i].listening {
            Emit(kind, calls);
            Emit("message", moreCalls);
          }
        case Malformed(_) =>
        case StartsClosing(i) => browser := browser.(sockets := browser.sockets[i := browser.sockets[i].(ready := CLOSING)]);
        case Dies(i) => browser := browser.(sockets := browser.sockets[i := browser.sockets[i].(ready := CLOSED)]);
        case Errors(i, calls) =>
          if browser.sockets[i].listening {
            Emit("error", calls);
          }
        case Closes(i, calls) => Closed(i, calls);
        case TimeoutFires(id, throws) => TimedOut(id, throws);
        case IntervalFires(_) => Send();
        case Elapse(ms) => browser := browser.(now := browser.now + ms);
      }
    }

    /** The reconnect timer fires. */
    method TimedOut(id: nat, throws: bool)
      requires busy && Valid() && Possible(State(), TimeoutFires(id, throws))
      modifies this
      ensures busy && Valid() && State() == Step(old(State()), TimeoutFires(id, throws)) && history == old(history)
    {
      assert id == reconnectTimer.value;
      browser := browser.(timeouts := browser.timeouts - {id});
      assert browser.timeouts.Keys == {};
      reconnectTimer := None;
      backoff := backoff.(leftover := false);
      Connect(throws);
    }

    /** Socket `i` opens, and `onopen` runs if it is still attached. */
    method Opened(i: nat, calls: seq<Call>)
      requires busy && Valid() && Possible(State(), Opens(i, calls))
      modifies this
      ensures busy && Valid() && State() == Step(old(State()), Opens(i, calls)) && history == old(history)
    {
      browser := browser.(sockets := browser.sockets[i := browser.sockets[i].(ready := OPEN)]);
      if browser.sockets[i].listening {
        reconnectAttempts := 0;
        backoff := Backoff(browser.now, [], reconnectTimer.Some?);
        StartHeartbeat();
        Emit("open", calls);
      }
    }

    /** The close event of socket `i` is fired, and `onclose` runs if it is still attached. */
    method Closed(i: nat, calls: seq<Call>)
      requires busy && Valid() && Possible(State(), Closes(i, calls))
      modifies this
      ensures busy && Valid() && State() == Step(old(State()), Closes(i, calls)) && history == old(history)
    {
      browser := browser.(sockets := browser.sockets[i := browser.sockets[i].(finished := true)]);
      if browser.sockets[i].listening {
        HeartbeatKeeps(State());
        StopHeartbeat();
        Emit("close", calls);
        if !destroyed {
          ScheduleReconnect();
        }
      }
    }
  }
}
