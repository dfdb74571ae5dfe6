/**
The scraping gateway as a transition system: one program counter per goroutine
(main, the workers, the fan-out, the stream sender) and the three channels between them.
A `select` is a choice among the steps that are enabled; the scraping engine, timers,
the signal and `stream.Send` are resolved by the step that is taken.

Accepted tasks are named by the order in which the pool accepted them.
 */
module Gateway {
  import opened Channels

  datatype Status = Success | Failed
  datatype Result = Result(id: nat, status: Status)

  datatype MainPc = Submitting | AwaitingSignal | Cancelling | Closing | Joining | Draining | Gone
  datatype WorkerPc = Idle | Executing(id: nat) | Reporting(result: Result) | Exited
  datatype FanPc = Listening | Holding(id: nat) | FanDone
  datatype SenderPc = Opening | Waiting | Retrying(id: nat, failures: nat) | StreamDone

  /** What became of a payload the sender took. */
  datatype Delivery = Delivery(id: nat, delivered: bool)

  const RESULTS_BUFFER := 100

  /** A negative MAX_SEND_RETRIES passes start-up and means no attempt at all. */
  function SendAttempts(maxSendRetries: int): nat {
    if maxSendRetries < 0 then 0 else maxSendRetries
  }

  /** `total` is the number of selectors over all seeds. */
  datatype Config = Config(concurrency: nat, payloadBuffer: nat, maxSendRetries: int, total: nat) {
    // start-up validation lets no other values through
    predicate Valid() {
      concurrency > 0 && payloadBuffer > 0
    }

    function Attempts(): nat {
      SendAttempts(maxSendRetries)
    }
  }

  // Each goroutine's own state comes with the record of what it has done.

  datatype MainState = MainState(pc: MainPc, pending: nat, accepted: nat, rejected: nat)

  datatype WorkerLog = WorkerLog(
    globalDropped: nat,       // the program's counter
    timedOut: seq<nat>,
    panicked: seq<nat>,
    entered: seq<Result>      // results in the order they entered the results channel
  )

  datatype FanState = FanState(pc: FanPc, consumed: seq<Result>, skipped: seq<nat>, abandoned: seq<nat>)

  datatype SenderState = SenderState(
    pc: SenderPc,
    sent: nat, dropped: nat,  // the program's counters
    deliveries: seq<Delivery>
  )

  datatype State = State(
    rootDone: bool,           // a signal cancelled the root context
    poolDone: bool,           // Stop cancelled the pool context
    misuse: bool,             // somebody sent on, or closed, a closed channel
    main: MainState,
    tasks: Chan<nat>,
    workers: seq<WorkerPc>,
    work: WorkerLog,
    results: Chan<Result>,
    fan: FanState,
    payloads: Chan<nat>,
    sender: SenderState
  )

  datatype MainAct = Submit | Reject | Submitted | Wake | Cancel | CloseTasks | Join | Exit
  datatype WorkerAct = Take | SeeClosed | SeeDone | Finish(status: Status) | Panic | Report | TimeOut
  datatype FanAct = FanSeeDone | FanSeeClosed | FanTake | FanPush | FanAbandon
  datatype SenderAct = Open | OpenFails | SenderSeeDone | SenderSeeClosed | SenderTake
                     | SendOk | SendEof | SendError | GiveUp

  datatype Step =
    | Signal
    | Main(main: MainAct)
    | Worker(i: nat, worker: WorkerAct)
    | Fan(fan: FanAct)
    | Sender(sender: SenderAct)

  function Init(cfg: Config): State {
    State(false, false, false,
          MainState(Submitting, cfg.total, 0, 0),
          Chan(2 * cfg.concurrency, [], false),
          seq(cfg.concurrency, i => Idle),
          WorkerLog(0, [], [], []),
          Chan(RESULTS_BUFFER, [], false),
          FanState(Listening, [], [], []),
          Chan(cfg.payloadBuffer, [], false),
          SenderState(Opening, 0, 0, []))
  }

  /** The pool context is derived from the root context. */
  predicate PoolCtxDone(s: State) {
    s.poolDone || s.rootDone
  }

  predicate AllExited(s: State) {
    forall i :: 0 <= i < |s.workers| ==> s.workers[i] == Exited
  }

  // ---- main: submit everything, wait for the signal, Stop the pool, wait for the stream ----

  predicate MainEnabled(s: State, a: MainAct) {
    match a
    case Submit => s.main.pc == Submitting && s.main.pending > 0 && (s.tasks.HasRoom() || s.tasks.closed)
    case Reject => s.main.pc == Submitting && s.main.pending > 0 && PoolCtxDone(s)
    case Submitted => s.main.pc == Submitting && s.main.pending == 0
    case Wake => s.main.pc == AwaitingSignal && s.rootDone
    case Cancel => s.main.pc == Cancelling
    case CloseTasks => s.main.pc == Closing
    case Join => s.main.pc == Joining && AllExited(s)
    case Exit => s.main.pc == Draining       // streamDone, or the grace period elapsed
  }

  function MainApply(s: State, a: MainAct): State
    requires MainEnabled(s, a)
  {
    var m := s.main;
    match a
    case Submit =>
      if s.tasks.closed then s.(misuse := true)
      else s.(main := m.(pending := m.pending - 1, accepted := m.accepted + 1), tasks := s.tasks.Push(m.accepted))
    case Reject => s.(main := m.(pending := m.pending - 1, rejected := m.rejected + 1))
    case Submitted => s.(main := m.(pc := AwaitingSignal))
    case Wake => s.(main := m.(pc := Cancelling))
    case Cancel => s.(main := m.(pc := Closing), poolDone := true)
    case CloseTasks =>
      if s.tasks.closed then s.(misuse := true)
      else s.(main := m.(pc := Joining), tasks := s.tasks.(closed := true))
    case Join => s.(main := m.(pc := Draining))
    case Exit => s.(main := m.(pc := Gone))
  }

  // ---- a worker: receive or see the cancelled context; execute; report within a second ----

  predicate WorkerEnabled(s: State, w: WorkerPc, a: WorkerAct) {
    match a
    case Take => w.Idle? && s.tasks.HasItem()
    case SeeClosed => w.Idle? && s.tasks.Ended()
    case SeeDone => w.Idle? && PoolCtxDone(s)
    case Finish(_) => w.Executing?
    case Panic => w.Executing?
    case Report => w.Reporting? && (s.results.HasRoom() || s.results.closed)
    case TimeOut => w.Reporting?   // also with room, if the goroutine was held up for a second
  }

  /** The worker's next program counter. */
  function WorkerNext(s: State, w: WorkerPc, a: WorkerAct): WorkerPc
    requires WorkerEnabled(s, w, a)
  {
    match a
    case Take => Executing(s.tasks.buf[0])
    case SeeClosed | SeeDone => Exited
    case Finish(status) => Reporting(Result(w.id, status))
    case Panic | Report | TimeOut => Idle
  }

  function WorkerApply(s: State, i: nat, a: WorkerAct): State
    requires i < |s.workers| && WorkerEnabled(s, s.workers[i], a)
  {
    var w := s.workers[i];
    var t := s.(workers := s.workers[i := WorkerNext(s, w, a)]);
    match a
    case Take => t.(tasks := s.tasks.Pop())
    case SeeClosed | SeeDone | Finish(_) => t
    case Panic => t.(work := s.work.(panicked := s.work.panicked + [w.id]))
    case Report =>
      if s.results.closed then s.(misuse := true)
      else t.(results := s.results.Push(w.result), work := s.work.(entered := s.work.entered + [w.result]))
    case TimeOut =>
      t.(work := s.work.(globalDropped := s.work.globalDropped + 1, timedOut := s.work.timedOut + [w.result.id]))
  }

  // ---- the fan-out: results to payloads; it alone closes the payload channel ----

  predicate FanEnabled(s: State, a: FanAct) {
    match a
    case FanSeeDone => s.fan.pc.Listening? && s.rootDone
    case FanSeeClosed => s.fan.pc.Listening? && s.results.Ended()
    case FanTake => s.fan.pc.Listening? && s.results.HasItem()
    case FanPush => s.fan.pc.Holding? && (s.payloads.HasRoom() || s.payloads.closed)
    case FanAbandon => s.fan.pc.Holding? && s.rootDone
  }

  /** Return, with the deferred close of the payload channel. */
  function FanReturn(s: State): State {
    if s.payloads.closed then s.(misuse := true)
    else s.(fan := s.fan.(pc := FanDone), payloads := s.payloads.(closed := true))
  }

  /** Take a result: keep a successful one to forward, skip a failed one. */
  function FanReceive(f: FanState, r: Result): FanState {
    if r.status == Success then f.(pc := Holding(r.id), consumed := f.consumed + [r])
    else f.(consumed := f.consumed + [r], skipped := f.skipped + [r.id])
  }

  function FanApply(s: State, a: FanAct): State
    requires FanEnabled(s, a)
  {
    var f := s.fan;
    match a
    case FanSeeDone | FanSeeClosed => FanReturn(s)
    case FanTake => s.(results := s.results.Pop(), fan := FanReceive(f, s.results.buf[0]))
    case FanPush =>
      if s.payloads.closed then s.(misuse := true)
      else s.(fan := f.(pc := Listening), payloads := s.payloads.Push(f.pc.id))
    case FanAbandon => FanReturn(s.(fan := f.(abandoned := f.abandoned + [f.pc.id])))
  }

  // ---- the stream sender ----

  predicate SenderEnabled(cfg: Config, s: State, a: SenderAct) {
    match a
    case Open | OpenFails => s.sender.pc.Opening?
    case SenderSeeDone => s.sender.pc.Waiting? && s.rootDone
    case SenderSeeClosed => s.sender.pc.Waiting? && s.payloads.Ended()
    case SenderTake => s.sender.pc.Waiting? && s.payloads.HasItem()
    case SendOk | SendEof | SendError => s.sender.pc.Retrying? && s.sender.pc.failures < cfg.Attempts()
    case GiveUp => s.sender.pc.Retrying? && s.sender.pc.failures >= cfg.Attempts()
  }

  function Settle(d: SenderState, delivered: bool): SenderState
    requires d.pc.Retrying?
  {
    SenderState(Waiting,
                if delivered then d.sent + 1 else d.sent,
                if delivered then d.dropped else d.dropped + 1,
                d.deliveries + [Delivery(d.pc.id, delivered)])
  }

  function SenderApply(cfg: Config, s: State, a: SenderAct): State
    requires SenderEnabled(cfg, s, a)
  {
    var d := s.sender;
    match a
    case Open => s.(sender := d.(pc := Waiting))
    case OpenFails | SenderSeeDone | SenderSeeClosed => s.(sender := d.(pc := StreamDone))
    case SenderTake => s.(sender := d.(pc := Retrying(s.payloads.buf[0], 0)), payloads := s.payloads.Pop())
    case SendOk => s.(sender := Settle(d, true))
    case SendEof | GiveUp => s.(sender := Settle(d, false))
    case SendError => s.(sender := d.(pc := Retrying(d.pc.id, d.pc.failures + 1)))
  }

  // ---- the whole process ----

  predicate Enabled(cfg: Config, s: State, step: Step) {
    && s.main.pc != Gone
    && !s.misuse
    && match step
       case Signal => !s.rootDone
       case Main(a) => MainEnabled(s, a)
       case Worker(i, a) => i < |s.workers| && WorkerEnabled(s, s.workers[i], a)
       case Fan(a) => FanEnabled(s, a)
       case Sender(a) => SenderEnabled(cfg, s, a)
  }

  function Apply(cfg: Config, s: State, step: Step): State
    requires Enabled(cfg, s, step)
  {
    match step
    case Signal => s.(rootDone := true)
    case Main(a) => MainApply(s, a)
    case Worker(i, a) => WorkerApply(s, i, a)
    case Fan(a) => FanApply(s, a)
    case Sender(a) => SenderApply(cfg, s, a)
  }

  /** `steps` is an execution from `s` to `t`. */
  ghost predicate Runs(cfg: Config, s: State, steps: seq<Step>, t: State)
    decreases |steps|
  {
    if steps == [] then s == t
    else Enabled(cfg, s, steps[0]) && Runs(cfg, Apply(cfg, s, steps[0]), steps[1..], t)
  }

  ghost predicate Reachable(cfg: Config, s: State) {
    exists steps :: Runs(cfg, Init(cfg), steps, s)
  }

  lemma {:induction false} RunsConcat(cfg: Config, s: State, xs: seq<Step>, t: State, ys: seq<Step>, u: State)
    requires Runs(cfg, s, xs, t) && Runs(cfg, t, ys, u)
    ensures Runs(cfg, s, xs + ys, u)
    decreases |xs|
  {
    if xs == [] {
      assert xs + ys == ys;
    } else {
      assert (xs + ys)[1..] == xs[1..] + ys;
      RunsConcat(cfg, Apply(cfg, s, xs[0]), xs[1..], t, ys, u);
    }
  }

  /** A run extended by one step. */
  lemma RunsSnoc(cfg: Config, s: State, xs: seq<Step>, t: State, step: Step)
    requires Runs(cfg, s, xs, t) && Enabled(cfg, t, step)
    ensures Runs(cfg, s, xs + [step], Apply(cfg, t, step))
  {
    assert Runs(cfg, t, [step], Apply(cfg, t, step));
    RunsConcat(cfg, s, xs, t, [step], Apply(cfg, t, step));
  }

  /** Two steps in a row. */
  lemma RunsTwo(cfg: Config, s: State, x: Step, y: Step)
    requires Enabled(cfg, s, x) && Enabled(cfg, Apply(cfg, s, x), y)
    ensures Runs(cfg, s, [x, y], Apply(cfg, Apply(cfg, s, x), y))
  {
    var t := Apply(cfg, s, x);
    assert Runs(cfg, t, [y], Apply(cfg, t, y));
    assert [x, y][1..] == [y];
  }
}
