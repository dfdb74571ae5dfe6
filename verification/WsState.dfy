/**
The reconnecting WebSocket client as a state machine: what each of its operations does to its
fields and to the browser's sockets and timers. Handlers may call back into the client; a
handler's calls are part of the event that triggers it.
 */
module WsState {
  import opened Basics

  datatype ReadyState = CONNECTING | OPEN | CLOSING | CLOSED

  /** A socket; `listening` if the client's callbacks are attached, `finished` once its close event was fired. */
  datatype Socket = Socket(ready: ReadyState, listening: bool, finished: bool)

  /** Everything outside the client's own fields. */
  datatype Browser = Browser(
    sockets: seq<Socket>,      // all sockets the client ever made
    timeouts: map<nat, nat>,   // armed timeouts and when they are due
    intervals: set<nat>,       // running intervals
    nextTimer: nat,            // timer ids are never reused
    frames: seq<nat>,          // the sockets that frames were sent on
    now: nat
  )

  /** The reconnects scheduled since the last open. */
  datatype Backoff = Backoff(
    since: nat,                // when the last open, or the creation, was
    waits: seq<nat>,           // their delays
    leftover: bool             // the armed timer is older than the last open
  )

  datatype Client = Client(
    ws: Option<nat>,
    reconnectAttempts: nat,
    reconnectTimer: Option<nat>,
    pingTimer: Option<nat>,
    destroyed: bool,
    handlers: map<string, set<nat>>,
    browser: Browser,
    backoff: Backoff
  )

  const MAX_RECONNECT_DELAY := 30000

  function Init(now: nat): Client {
    Client(None, 0, None, None, false, map[], Browser([], map[], {}, 1, [], now), Backoff(now, [], false))
  }

  // ---- the operations ----

  function Delay(attempts: nat): nat {
    if 1000 * Pow2(attempts) <= MAX_RECONNECT_DELAY then 1000 * Pow2(attempts) else MAX_RECONNECT_DELAY
  }

  predicate HasSocket(c: Client) {
    c.ws.Some? && c.ws.value < |c.browser.sockets|
  }

  /** The ready state of the client's socket. */
  function Ready(c: Client): ReadyState
    requires HasSocket(c)
  {
    c.browser.sockets[c.ws.value].ready
  }

  predicate Usable(r: ReadyState) {
    r in {OPEN, CONNECTING}
  }

  function Close(c: Client): Client {
    if !HasSocket(c) then c.(ws := None)
    else
      var s := c.browser.sockets[c.ws.value];
      var s' := Socket(if Usable(s.ready) then CLOSING else s.ready, false, s.finished);
      c.(ws := None, browser := c.browser.(sockets := c.browser.sockets[c.ws.value := s']))
  }

  function ScheduleReconnect(c: Client): Client {
    if c.destroyed || c.reconnectTimer.Some? then c
    else
      var b, id, delay := c.browser, c.browser.nextTimer, Delay(c.reconnectAttempts);
      c.(reconnectAttempts := c.reconnectAttempts + 1,
         reconnectTimer := Some(id),
         browser := b.(timeouts := b.timeouts[id := b.now + delay], nextTimer := id + 1),
         backoff := c.backoff.(waits := c.backoff.waits + [delay]))
  }

  /** `throws` tells whether the WebSocket constructor throws. */
  function Connect(c: Client, throws: bool): Client {
    if c.destroyed then c
    else if HasSocket(c) && Usable(Ready(c)) then c
    else
      var d := Close(c);
      if throws then ScheduleReconnect(d)
      else d.(ws := Some(|d.browser.sockets|),
              browser := d.browser.(sockets := d.browser.sockets + [Socket(CONNECTING, true, false)]))
  }

  function StopHeartbeat(c: Client): Client {
    if c.pingTimer.None? then c
    else c.(pingTimer := None, browser := c.browser.(intervals := c.browser.intervals - {c.pingTimer.value}))
  }

  function StartHeartbeat(c: Client): Client {
    var d := StopHeartbeat(c);
    var id := d.browser.nextTimer;
    d.(pingTimer := Some(id), browser := d.browser.(intervals := d.browser.intervals + {id}, nextTimer := id + 1))
  }

  function ClearReconnect(c: Client): Client {
    if c.reconnectTimer.None? then c
    else c.(reconnectTimer := None, browser := c.browser.(timeouts := c.browser.timeouts - {c.reconnectTimer.value}))
  }

  function Destroy(c: Client): Client {
    ClearReconnect(StopHeartbeat(Close(c.(destroyed := true)))).(handlers := map[])
  }

  function Send(c: Client): Client {
    if HasSocket(c) && Ready(c) == OPEN then c.(browser := c.browser.(frames := c.browser.frames + [c.ws.value])) else c
  }

  function HandlersOf(c: Client, event: string): set<nat> {
    if event in c.handlers then c.handlers[event] else {}
  }

  function On(c: Client, event: string, handler: nat): Client {
    c.(handlers := c.handlers[event := HandlersOf(c, event) + {handler}])
  }

  function Off(c: Client, event: string, handler: nat): Client {
    if event in c.handlers then c.(handlers := c.handlers[event := c.handlers[event] - {handler}]) else c
  }

  // ---- calls, from the application or from inside a handler ----

  datatype Call =
    | DoConnect(throws: bool)
    | DoClose
    | DoDestroy
    | DoSend
    | DoOn(event: string, handler: nat)
    | DoOff(event: string, handler: nat)

  function Perform(c: Client, call: Call): Client {
    match call
    case DoConnect(throws) => Connect(c, throws)
    case DoClose => Close(c)
    case DoDestroy => Destroy(c)
    case DoSend => Send(c)
    case DoOn(event, handler) => On(c, event, handler)
    case DoOff(event, handler) => Off(c, event, handler)
  }

  function PerformAll(c: Client, calls: seq<Call>): Client {
    if calls == [] then c else Perform(PerformAll(c, calls[..|calls| - 1]), calls[|calls| - 1])
  }

  /** Run the handlers of `event`, which together make `calls`; without a handler nobody calls anything. */
  function Emit(c: Client, event: string, calls: seq<Call>): Client {
    if HandlersOf(c, event) == {} then c else PerformAll(c, calls)
  }

  // ---- the callbacks on a socket ----

  function OnOpen(c: Client, calls: seq<Call>): Client {
    var reset := c.(reconnectAttempts := 0, backoff := Backoff(c.browser.now, [], c.reconnectTimer.Some?));
    Emit(StartHeartbeat(reset), "open", calls)
  }

  function OnMessage(c: Client, kind: string, calls: seq<Call>, moreCalls: seq<Call>): Client {
    Emit(Emit(c, kind, calls), "message", moreCalls)
  }

  function OnClose(c: Client, calls: seq<Call>): Client {
    var d := Emit(StopHeartbeat(c), "close", calls);
    if d.destroyed then d else ScheduleReconnect(d)
  }

  // ---- what can happen ----

  datatype Event =
    | App(call: Call)
    | Opens(i: nat, calls: seq<Call>)
    | Message(i: nat, kind: string, calls: seq<Call>, moreCalls: seq<Call>)
    | Malformed(i: nat)
    | StartsClosing(i: nat)
    | Dies(i: nat)
    | Errors(i: nat, calls: seq<Call>)
    | Closes(i: nat, calls: seq<Call>)
    | TimeoutFires(id: nat, throws: bool)
    | IntervalFires(id: nat)
    | Elapse(ms: nat)

  /** Whether the browser can produce the event. */
  predicate Possible(c: Client, e: Event) {
    var b := c.browser;
    match e
    case App(_) => true
    case Opens(i, _) => i < |b.sockets| && b.sockets[i].ready == CONNECTING
    case Message(i, _, _, _) => i < |b.sockets| && b.sockets[i].ready == OPEN
    case Malformed(i) => i < |b.sockets| && b.sockets[i].ready == OPEN
    case StartsClosing(i) => i < |b.sockets| && Usable(b.sockets[i].ready)
    case Dies(i) => i < |b.sockets| && b.sockets[i].ready != CLOSED
    case Errors(i, _) => i < |b.sockets| && !b.sockets[i].finished
    case Closes(i, _) => i < |b.sockets| && b.sockets[i].ready == CLOSED && !b.sockets[i].finished
    case TimeoutFires(id, _) => id in b.timeouts && b.timeouts[id] <= b.now
    case IntervalFires(id) => id in b.intervals
    case Elapse(_) => true
  }

  function SetSocket(c: Client, i: nat, s: Socket): Client
    requires i < |c.browser.sockets|
  {
    c.(browser := c.browser.(sockets := c.browser.sockets[i := s]))
  }

  function FireTimeout(c: Client, id: nat, throws: bool): Client {
    var b := c.browser.(timeouts := c.browser.timeouts - {id});
    Connect(c.(reconnectTimer := None, browser := b, backoff := c.backoff.(leftover := false)), throws)
  }

  function Step(c: Client, e: Event): Client
    requires Possible(c, e)
  {
    match e
    case App(call) => Perform(c, call)
    case Opens(i, calls) =>
      var s := c.browser.sockets[i];
      var d := SetSocket(c, i, s.(ready := OPEN));
      if s.listening then OnOpen(d, calls) else d
    case Message(i, kind, calls, moreCalls) =>
      if c.browser.sockets[i].listening then OnMessage(c, kind, calls, moreCalls) else c
    case Malformed(_) => c
    case StartsClosing(i) => SetSocket(c, i, c.browser.sockets[i].(ready := CLOSING))
    case Dies(i) => SetSocket(c, i, c.browser.sockets[i].(ready := CLOSED))
    case Errors(i, calls) => if c.browser.sockets[i].listening then Emit(c, "error", calls) else c
    case Closes(i, calls) =>
      var s := c.browser.sockets[i];
      var d := SetSocket(c, i, s.(finished := true));
      if s.listening then OnClose(d, calls) else d
    case TimeoutFires(id, throws) => FireTimeout(c, id, throws)
    case IntervalFires(_) => Send(c)
    case Elapse(ms) => c.(browser := c.browser.(now := c.browser.now + ms))
  }

  ghost predicate Runs(c: Client, events: seq<Event>, d: Client)
    decreases |events|
  {
    if events == [] then c == d else Possible(c, events[0]) && Runs(Step(c, events[0]), events[1..], d)
  }
}
