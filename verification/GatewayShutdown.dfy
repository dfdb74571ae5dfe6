/**
Termination and shutdown of the gateway: every run is finite, no state is stuck, `Stop`
returns whatever the fan-out and the sender do, and exactly when it drains the queue.
 */
module GatewayShutdown {
  import opened Gateway
  import opened GatewayInvariant
  import opened GatewayTheorems

  // ---- every run is finite ----

  /** Work left in `n` tasks that are each `w` steps from being settled. */
  function Weigh(w: nat, n: nat): nat {
    if n == 0 then 0 else w + Weigh(w, n - 1)
  }

  function WorkerWeight(r: nat, w: WorkerPc): nat {
    match w
    case Exited => 0
    case Idle => 1
    case Reporting(_) => r + 6
    case Executing(_) => r + 7
  }

  function WorkersWeight(r: nat, ws: seq<WorkerPc>): nat {
    if ws == [] then 0 else WorkerWeight(r, ws[0]) + WorkersWeight(r, ws[1..])
  }

  function MainWeight(pc: MainPc): nat {
    match pc
    case Submitting => 6 case AwaitingSignal => 5 case Cancelling => 4 case Closing => 3
    case Joining => 2 case Draining => 1 case Gone => 0
  }

  function FanWeight(r: nat, pc: FanPc): nat {
    match pc
    case FanDone => 0
    case Listening => 1
    case Holding(_) => r + 4
  }

  function SenderWeight(r: nat, pc: SenderPc): int {
    match pc
    case StreamDone => 0
    case Waiting => 1
    case Opening => 2
    case Retrying(_, k) => r - k + 2
  }

  /** How many steps the gateway can still take, at most. */
  function Measure(cfg: Config, s: State): int {
    var r := cfg.Attempts();
    (if s.rootDone then 0 else 1) + MainWeight(s.main.pc)
    + Weigh(r + 8, s.main.pending) + Weigh(r + 7, |s.tasks.buf|) + WorkersWeight(r, s.workers)
    + Weigh(r + 4, |s.results.buf|) + FanWeight(r, s.fan.pc)
    + Weigh(r + 2, |s.payloads.buf|) + SenderWeight(r, s.sender.pc)
  }

  lemma {:induction false} WeightOfUpdate(r: nat, ws: seq<WorkerPc>, i: nat, w: WorkerPc)
    requires i < |ws|
    ensures WorkersWeight(r, ws[i := w]) + WorkerWeight(r, ws[i]) == WorkersWeight(r, ws) + WorkerWeight(r, w)
  {
    if i == 0 {
      assert ws[i := w][1..] == ws[1..];
    } else {
      assert ws[i := w][1..] == ws[1..][i - 1 := w];
      WeightOfUpdate(r, ws[1..], i - 1, w);
    }
  }

  lemma WorkerDescends(cfg: Config, s: State, i: nat, a: WorkerAct)
    requires Shape(cfg, s) && i < |s.workers| && WorkerEnabled(s, s.workers[i], a)
    ensures Measure(cfg, WorkerApply(s, i, a)) < Measure(cfg, s)
  {
    WeightOfUpdate(cfg.Attempts(), s.workers, i, WorkerNext(s, s.workers[i], a));
  }

  lemma FanDescends(cfg: Config, s: State, a: FanAct)
    requires Shape(cfg, s) && FanEnabled(s, a)
    ensures Measure(cfg, FanApply(s, a)) < Measure(cfg, s)
  {
  }

  lemma SenderDescends(cfg: Config, s: State, a: SenderAct)
    requires Shape(cfg, s) && SenderEnabled(cfg, s, a)
    ensures Measure(cfg, SenderApply(cfg, s, a)) < Measure(cfg, s)
  {
  }

  lemma StepDescends(cfg: Config, s: State, step: Step)
    requires Shape(cfg, s) && Enabled(cfg, s, step)
    ensures Measure(cfg, Apply(cfg, s, step)) < Measure(cfg, s)
  {
    match step {
      case Signal =>
      case Main(a) =>
      case Worker(i, a) => WorkerDescends(cfg, s, i, a);
      case Fan(a) => FanDescends(cfg, s, a);
      case Sender(a) => SenderDescends(cfg, s, a);
    }
  }

  lemma {:induction false} RunIsShort(cfg: Config, s: State, steps: seq<Step>, t: State)
    requires Shape(cfg, s) && Runs(cfg, s, steps, t)
    ensures |steps| + Measure(cfg, t) <= Measure(cfg, s) && Shape(cfg, t)
    decreases |steps|
  {
    if steps != [] {
      StepKeepsShape(cfg, s, steps[0]);
      StepDescends(cfg, s, steps[0]);
      RunIsShort(cfg, Apply(cfg, s, steps[0]), steps[1..], t);
    }
  }

  lemma {:induction false} WeighIsProduct(w: nat, n: nat)
    ensures Weigh(w, n) == w * n
  {
    if n > 0 {
      WeighIsProduct(w, n - 1);
      assert w * n == w * (n - 1) + w;
    }
  }

  lemma {:induction false} IdleWeight(r: nat, n: nat)
    ensures WorkersWeight(r, seq(n, i => Idle)) == n
  {
    if n > 0 {
      assert seq(n, i => Idle)[1..] == seq(n - 1, i => Idle);
      IdleWeight(r, n - 1);
    }
  }

  lemma MeasureIsNatural(cfg: Config, s: State)
    requires Shape(cfg, s)
    ensures Measure(cfg, s) >= 0
  {
  }

  /**
  A run, whatever the scheduling, takes at most (attempts + 8) steps for each task
  and a few for each goroutine.
   */
  lemma EveryRunEnds(cfg: Config, steps: seq<Step>, s: State)
    requires cfg.Valid() && Runs(cfg, Init(cfg), steps, s)
    ensures |steps| <= (cfg.Attempts() + 8) * cfg.total + cfg.concurrency + 10
  {
    InitInv(cfg);
    RunIsShort(cfg, Init(cfg), steps, s);
    MeasureIsNatural(cfg, s);
    IdleWeight(cfg.Attempts(), cfg.concurrency);
    WeighIsProduct(cfg.Attempts() + 8, cfg.total);
  }

  // ---- no state is stuck ----

  /**
  What a worker that has not exited can do when its context is cancelled. It gives up a report only
  if there is no room for it.
   */
  function WayOut(s: State, w: WorkerPc): WorkerAct
    requires w != Exited
  {
    match w
    case Idle => SeeDone
    case Executing(_) => Finish(Failed)
    case Reporting(_) => if s.results.HasRoom() then Report else TimeOut
  }

  /**
  Some step is always possible, and after the signal one that is not the signal. Where only workers
  are left to wait for, it is the engine returning, a report, or a report's timer firing.
   */
  lemma NeverStuck(cfg: Config, s: State)
    requires cfg.Valid() && Reachable(cfg, s) && s.main.pc != Gone
    ensures exists step :: Enabled(cfg, s, step)
    ensures s.rootDone ==> exists step :: step != Signal && Enabled(cfg, s, step)
  {
    ReachableInv(cfg, s);
    if !s.rootDone {
      assert Enabled(cfg, s, Signal);
    } else if s.main.pc == Joining && !AllExited(s) {
      var i :| 0 <= i < |s.workers| && s.workers[i] != Exited;
      assert Enabled(cfg, s, Worker(i, WayOut(s, s.workers[i])));
    } else {
      var a := match s.main.pc
        case Submitting => if s.main.pending > 0 then Reject else Submitted
        case AwaitingSignal => Wake
        case Cancelling => Cancel
        case Closing => CloseTasks
        case Joining => Join
        case Draining => Exit
        case Gone => Exit;
      assert Enabled(cfg, s, Main(a));
    }
  }

  /** A run that cannot be continued has ended with the exit of the process. */
  lemma CompletedRunsExit(cfg: Config, s: State)
    requires cfg.Valid() && Reachable(cfg, s) && forall step :: !Enabled(cfg, s, step)
    ensures s.main.pc == Gone && s.rootDone && AllExited(s)
  {
    if s.main.pc != Gone {
      NeverStuck(cfg, s);
    }
    ReachableInv(cfg, s);
  }

  /** Before the signal, a full task queue cannot block `Submit` for good, even with every consumer gone. */
  lemma SubmitIsNotWedged(cfg: Config, s: State)
    requires cfg.Valid() && Reachable(cfg, s) && s.main.pc == Submitting && s.main.pending > 0
    ensures Enabled(cfg, s, Main(Submit)) || Enabled(cfg, s, Main(Reject))
         || exists i, a :: Enabled(cfg, s, Worker(i, a))
  {
    ReachableInv(cfg, s);
    if !s.tasks.HasRoom() && !s.rootDone {
      var w := s.workers[0];
      assert Enabled(cfg, s, Worker(0, if w.Idle? then Take else WayOut(s, w)));
    }
  }

  // ---- Stop ----

  /** Everything but the workers and what they report is as before. */
  ghost predicate OnlyWorkersMoved(s: State, t: State) {
    && t.main == s.main && t.tasks == s.tasks && t.rootDone == s.rootDone && t.poolDone == s.poolDone
    && t.misuse == s.misuse && t.fan == s.fan && t.payloads == s.payloads && t.sender == s.sender
    && t.results == s.results.(buf := t.results.buf) && s.results.buf <= t.results.buf
    && |t.workers| == |s.workers|
  }

  /** With its context cancelled, a worker that has only its report to get rid of needs two steps. */
  lemma ReportAndLeave(cfg: Config, s: State, i: nat) returns (steps: seq<Step>, t: State)
    requires i < |s.workers| && s.main.pc != Gone && !s.misuse && PoolCtxDone(s) && !s.results.closed
    requires s.workers[i].Idle? || s.workers[i].Reporting?
    ensures Runs(cfg, s, steps, t) && |steps| <= 2 && forall step :: step in steps ==> step.Worker? && step.i == i
    ensures OnlyWorkersMoved(s, t) && t.workers == s.workers[i := Exited]
  {
    var step := Worker(i, WayOut(s, s.workers[i]));
    t := Apply(cfg, s, step);
    steps := [step];
    if s.workers[i].Reporting? {
      RunsTwo(cfg, s, step, Worker(i, SeeDone));
      steps, t := [step, Worker(i, SeeDone)], Apply(cfg, t, Worker(i, SeeDone));
    } else {
      assert Runs(cfg, t, [], t);
    }
  }

  /** With its context cancelled a worker can leave in at most three steps of its own, even if nobody takes its report. */
  lemma WorkerLeavesAlone(cfg: Config, s: State, i: nat) returns (steps: seq<Step>, t: State)
    requires i < |s.workers| && s.main.pc != Gone && !s.misuse && PoolCtxDone(s) && !s.results.closed
    ensures Runs(cfg, s, steps, t) && |steps| <= 3 && forall step :: step in steps ==> step.Worker? && step.i == i
    ensures OnlyWorkersMoved(s, t) && t.workers == s.workers[i := Exited]
  {
    if s.workers[i] == Exited {
      return [], s;
    }
    if !s.workers[i].Executing? {
      steps, t := ReportAndLeave(cfg, s, i);
      return;
    }
    var step := Worker(i, Finish(Failed));
    steps, t := ReportAndLeave(cfg, Apply(cfg, s, step), i);
    steps := [step] + steps;
  }

  /** Workers `i..` leave one after the other. */
  lemma {:induction false} WorkersLeave(cfg: Config, s: State, i: nat) returns (steps: seq<Step>, t: State)
    requires i <= |s.workers| && s.main.pc != Gone && !s.misuse && PoolCtxDone(s) && !s.results.closed
    requires forall k :: 0 <= k < i ==> s.workers[k] == Exited
    ensures Runs(cfg, s, steps, t) && OnlyWorkersMoved(s, t) && AllExited(t)
    decreases |s.workers| - i
  {
    if i == |s.workers| {
      return [], s;
    }
    var xs, u := WorkerLeavesAlone(cfg, s, i);
    var ys;
    ys, t := WorkersLeave(cfg, u, i + 1);
    steps := xs + ys;
    RunsConcat(cfg, s, xs, u, ys, t);
  }

  /** One way for `Stop` to run: every worker sees the cancelled context before another task. */
  lemma StopCanSkipTheQueue(cfg: Config, s: State) returns (steps: seq<Step>, t: State)
    requires Shape(cfg, s) && s.main.pc == Cancelling
    ensures Runs(cfg, s, steps, t) && t.main.pc == Draining && t.tasks.buf == s.tasks.buf
    ensures OnlyWorkersMoved(s, t.(main := s.main, tasks := s.tasks, poolDone := s.poolDone))
  {
    var b := Apply(cfg, Apply(cfg, s, Main(Cancel)), Main(CloseTasks));
    RunsTwo(cfg, s, Main(Cancel), Main(CloseTasks));
    var ys, c := WorkersLeave(cfg, b, 0);
    RunsConcat(cfg, s, [Main(Cancel), Main(CloseTasks)], b, ys, c);
    t := Apply(cfg, c, Main(Join));
    steps := [Main(Cancel), Main(CloseTasks)] + ys + [Main(Join)];
    RunsSnoc(cfg, s, [Main(Cancel), Main(CloseTasks)] + ys, c, Main(Join));
  }

  /** While `Stop` runs nothing is added to the queue. */
  lemma {:induction false} QueueOnlyShrinks(cfg: Config, s: State, steps: seq<Step>, t: State)
    requires Shape(cfg, s) && s.main.pc !in {Submitting, AwaitingSignal} && Runs(cfg, s, steps, t)
    ensures t.main.pc !in {Submitting, AwaitingSignal} && |t.tasks.buf| <= |s.tasks.buf|
    decreases |steps|
  {
    if steps != [] {
      StepKeepsShape(cfg, s, steps[0]);
      QueueOnlyShrinks(cfg, Apply(cfg, s, steps[0]), steps[1..], t);
    }
  }

  /** Every run of `Stop` that returns has executed all queued tasks. */
  ghost predicate StopDrains(cfg: Config, s: State) {
    forall steps, t :: Runs(cfg, s, steps, t) && t.main.pc in {Draining, Gone} ==> t.tasks.buf == []
  }

  /**
  The gateway's own description says that the pool drains on shutdown. It does exactly when
  there is nothing left to drain: idle workers may prefer the cancelled context to a queued task.
   */
  lemma StopDrainsIffNothingQueued(cfg: Config, s: State)
    requires cfg.Valid() && Reachable(cfg, s) && s.main.pc == Cancelling
    ensures StopDrains(cfg, s) <==> s.tasks.buf == []
  {
    ReachableInv(cfg, s);
    if s.tasks.buf == [] {
      forall steps, t | Runs(cfg, s, steps, t)
        ensures t.tasks.buf == []
      {
        QueueOnlyShrinks(cfg, s, steps, t);
      }
    } else {
      var steps, t := StopCanSkipTheQueue(cfg, s);
      assert Runs(cfg, s, steps, t) && t.main.pc in {Draining, Gone};
    }
  }

  // ---- the fan-out and the stream end with the signal, and not before ----

  ghost predicate StreamOpenUntilSignal(s: State) {
    && (s.sender.pc.Opening? ==> s.sender.deliveries == [])
    && (s.sender.pc.StreamDone? && s.sender.deliveries != [] ==> s.rootDone)
  }

  lemma StepKeepsStreamOpen(cfg: Config, s: State, step: Step)
    requires Shape(cfg, s) && StreamOpenUntilSignal(s) && Enabled(cfg, s, step)
    ensures StreamOpenUntilSignal(Apply(cfg, s, step))
  {
  }

  lemma {:induction false} RunKeepsStreamOpen(cfg: Config, s: State, steps: seq<Step>, t: State)
    requires Inv(cfg, s) && StreamOpenUntilSignal(s) && Runs(cfg, s, steps, t)
    ensures StreamOpenUntilSignal(t)
    decreases |steps|
  {
    if steps != [] {
      StepKeeps(cfg, s, steps[0]);
      StepKeepsStreamOpen(cfg, s, steps[0]);
      RunKeepsStreamOpen(cfg, Apply(cfg, s, steps[0]), steps[1..], t);
    }
  }

  /** Before the signal the fan-out forwards on, and a stream that has dealt with a payload takes further ones. */
  lemma NothingEndsBeforeSignal(cfg: Config, s: State)
    requires cfg.Valid() && Reachable(cfg, s) && !s.rootDone
    ensures !s.fan.pc.FanDone? && !s.payloads.closed && !AllExited(s)
    ensures s.sender.deliveries != [] ==> s.sender.pc.Waiting? || s.sender.pc.Retrying?
  {
    ReachableInv(cfg, s);
    InitInv(cfg);
    var steps :| Runs(cfg, Init(cfg), steps, s);
    RunKeepsStreamOpen(cfg, Init(cfg), steps, s);
    assert s.workers[0] != Exited;
  }

  /** After the signal the fan-out can end in one step of its own, closing the payload channel behind it. */
  lemma FanLeavesAlone(cfg: Config, s: State)
    requires Shape(cfg, s) && s.rootDone && s.main.pc != Gone && !s.fan.pc.FanDone?
    ensures exists a :: Enabled(cfg, s, Fan(a)) && Apply(cfg, s, Fan(a)).fan.pc.FanDone?
                        && Apply(cfg, s, Fan(a)).payloads == s.payloads.(closed := true)
  {
    var a := if s.fan.pc.Listening? then FanSeeDone else FanAbandon;
    assert Enabled(cfg, s, Fan(a)) && Apply(cfg, s, Fan(a)).fan.pc.FanDone?;
  }

  /** A panic costs its own task and nothing else. */
  lemma PanicIsContained(cfg: Config, s: State, i: nat)
    requires s.main.pc != Gone && !s.misuse && i < |s.workers| && s.workers[i].Executing?
    ensures Enabled(cfg, s, Worker(i, Panic))
    ensures var t := Apply(cfg, s, Worker(i, Panic));
      && t.work.panicked == s.work.panicked + [s.workers[i].id] && t.workers == s.workers[i := Idle]
      && t == s.(workers := t.workers, work := s.work.(panicked := t.work.panicked))
  {
  }

  /** A closed and empty channel of tasks lets an idle worker go, without any cancellation. */
  lemma ClosedLetsGo(cfg: Config, s: State, i: nat)
    requires s.main.pc != Gone && !s.misuse && i < |s.workers| && s.workers[i].Idle? && s.tasks.closed && s.tasks.buf == []
    ensures Enabled(cfg, s, Worker(i, SeeClosed))
    ensures Apply(cfg, s, Worker(i, SeeClosed)) == s.(workers := s.workers[i := Exited])
  {
  }

  lemma {:induction false} DrainedStays(cfg: Config, s: State, steps: seq<Step>, t: State)
    requires s.payloads.closed && s.payloads.buf == [] && s.fan.pc.FanDone? && Runs(cfg, s, steps, t)
    ensures t.payloads.buf == []
    decreases |steps|
  {
    if steps != [] {
      DrainedStays(cfg, Apply(cfg, s, steps[0]), steps[1..], t);
    }
  }

  /** A stream that ends because the payload channel was closed has taken every payload. */
  lemma ClosedMeansDrained(cfg: Config, s: State, steps: seq<Step>, t: State)
    requires cfg.Valid() && Reachable(cfg, s) && Enabled(cfg, s, Sender(SenderSeeClosed))
    requires Runs(cfg, Apply(cfg, s, Sender(SenderSeeClosed)), steps, t)
    ensures t.payloads.buf == []
  {
    ReachableInv(cfg, s);
    DrainedStays(cfg, Apply(cfg, s, Sender(SenderSeeClosed)), steps, t);
  }

  // ---- the loss bound is reached ----

  /** Main is submitting, no worker has a task, the sender has settled nothing and nothing was lost so far. */
  ghost predicate Resting(cfg: Config, s: State) {
    && s.main.pc == Submitting && !s.rootDone && !s.poolDone && !s.misuse
    && s.workers == seq(cfg.concurrency, i => Idle)
    && (s.sender.pc.Opening? || s.sender.pc.Retrying?)
    && s.sender.sent == 0 && s.sender.dropped == 0
    && s.work.globalDropped == 0 && s.work.panicked == [] && s.fan.skipped == []
    && s.tasks.cap == 2 * cfg.concurrency && s.results.cap == RESULTS_BUFFER && s.payloads.cap == cfg.payloadBuffer
    && !s.tasks.closed && !s.results.closed && !s.payloads.closed
  }

  /** Submit a task and hand it to the first worker. */
  lemma StartOne(cfg: Config, s: State) returns (steps: seq<Step>, t: State)
    requires cfg.Valid() && Resting(cfg, s) && s.main.pending > 0 && s.tasks.buf == []
    ensures Runs(cfg, s, steps, t) && t.main.pending == s.main.pending - 1
    ensures t == s.(main := t.main, workers := s.workers[0 := Executing(s.main.accepted)]) && t.main.pc == Submitting
  {
    var a := Apply(cfg, s, Main(Submit));
    assert a.tasks.buf == [s.main.accepted] && a.tasks.Pop() == s.tasks;
    RunsTwo(cfg, s, Main(Submit), Worker(0, Take));
    steps, t := [Main(Submit), Worker(0, Take)], Apply(cfg, a, Worker(0, Take));
  }

  /** Submit a task, scrape it, and put its result into the results channel. */
  lemma ScrapeOne(cfg: Config, s: State) returns (steps: seq<Step>, t: State)
    requires cfg.Valid() && Resting(cfg, s) && s.main.pending > 0 && s.tasks.buf == [] && s.results.HasRoom()
    ensures Runs(cfg, s, steps, t) && Resting(cfg, t) && t.main.pending == s.main.pending - 1
    ensures t.tasks == s.tasks && t.fan == s.fan && t.payloads == s.payloads && t.sender == s.sender
    ensures t.results.buf == s.results.buf + [Result(s.main.accepted, Success)]
  {
    var xs, a := StartOne(cfg, s);
    var b := Apply(cfg, a, Worker(0, Finish(Success)));
    RunsTwo(cfg, a, Worker(0, Finish(Success)), Worker(0, Report));
    t := Apply(cfg, b, Worker(0, Report));
    assert t.workers == s.workers;
    steps := xs + [Worker(0, Finish(Success)), Worker(0, Report)];
    RunsConcat(cfg, s, xs, a, [Worker(0, Finish(Success)), Worker(0, Report)], t);
  }

  /** A result in the channel becomes a payload in its channel. */
  lemma ForwardOne(cfg: Config, s: State) returns (steps: seq<Step>, t: State)
    requires Resting(cfg, s) && s.fan.pc.Listening? && s.payloads.HasRoom()
    requires s.results.buf != [] && s.results.buf[0].status == Success
    ensures Runs(cfg, s, steps, t) && Resting(cfg, t) && t.main == s.main && t.tasks == s.tasks && t.sender == s.sender
    ensures t.results.buf == s.results.buf[1..] && t.fan.pc.Listening?
    ensures t.fan.abandoned == s.fan.abandoned && |t.payloads.buf| == |s.payloads.buf| + 1
  {
    RunsTwo(cfg, s, Fan(FanTake), Fan(FanPush));
    steps, t := [Fan(FanTake), Fan(FanPush)], Apply(cfg, Apply(cfg, s, Fan(FanTake)), Fan(FanPush));
  }

  /** Nothing waits in any channel, and the fan-out has nothing in hand. */
  ghost predicate Unused(cfg: Config, s: State) {
    && Resting(cfg, s)
    && s.tasks.buf == [] && s.results.buf == [] && s.payloads.buf == []
    && s.fan.pc.Listening? && s.fan.abandoned == []
  }

  /** `n` payloads wait in their channel. */
  lemma {:induction false} FillPayloads(cfg: Config, s: State, n: nat) returns (steps: seq<Step>, t: State)
    requires cfg.Valid() && Unused(cfg, s) && n <= cfg.payloadBuffer && n <= s.main.pending
    ensures Runs(cfg, s, steps, t) && Resting(cfg, t) && t.main.pending == s.main.pending - n && t.sender == s.sender
    ensures t.tasks.buf == [] && t.results.buf == [] && t.fan.pc.Listening? && t.fan.abandoned == []
    ensures |t.payloads.buf| == n
  {
    if n == 0 {
      return [], s;
    }
    var xs, a := FillPayloads(cfg, s, n - 1);
    var ys, b := ScrapeOne(cfg, a);
    RunsConcat(cfg, s, xs, a, ys, b);
    var zs;
    zs, t := ForwardOne(cfg, b);
    RunsConcat(cfg, s, xs + ys, b, zs, t);
    steps := xs + ys + zs;
  }

  /** The sender opened its stream and took the first payload. */
  lemma TakeOne(cfg: Config) returns (steps: seq<Step>, t: State)
    requires cfg.Valid() && cfg.total > 0
    ensures Runs(cfg, Init(cfg), steps, t) && Unused(cfg, t) && t.sender.pc.Retrying? && t.main.pending == cfg.total - 1
  {
    var xs, a := ScrapeOne(cfg, Init(cfg));
    var ys, b := ForwardOne(cfg, a);
    RunsConcat(cfg, Init(cfg), xs, a, ys, b);
    var c := Apply(cfg, b, Sender(Open));
    RunsSnoc(cfg, Init(cfg), xs + ys, b, Sender(Open));
    t := Apply(cfg, c, Sender(SenderTake));
    RunsSnoc(cfg, Init(cfg), xs + ys + [Sender(Open)], c, Sender(SenderTake));
    steps := xs + ys + [Sender(Open)] + [Sender(SenderTake)];
  }

  /** `n` more results wait in their channel. */
  lemma {:induction false} FillResults(cfg: Config, s: State, n: nat) returns (steps: seq<Step>, t: State)
    requires cfg.Valid() && Resting(cfg, s) && s.tasks.buf == [] && n <= s.main.pending
    requires |s.results.buf| + n <= RESULTS_BUFFER
    ensures Runs(cfg, s, steps, t) && Resting(cfg, t) && t.main.pending == s.main.pending - n
    ensures t.tasks == s.tasks && t.fan == s.fan && t.payloads == s.payloads && t.sender == s.sender
    ensures |t.results.buf| == |s.results.buf| + n
  {
    if n == 0 {
      return [], s;
    }
    var xs, a := FillResults(cfg, s, n - 1);
    var ys;
    ys, t := ScrapeOne(cfg, a);
    RunsConcat(cfg, s, xs, a, ys, t);
    steps := xs + ys;
  }

  /** `n` more tasks wait in their channel. */
  lemma {:induction false} FillTasks(cfg: Config, s: State, n: nat) returns (steps: seq<Step>, t: State)
    requires Resting(cfg, s) && n <= s.main.pending && |s.tasks.buf| + n <= 2 * cfg.concurrency
    ensures Runs(cfg, s, steps, t) && Resting(cfg, t) && t.main.pending == s.main.pending - n
    ensures t.results == s.results && t.fan == s.fan && t.payloads == s.payloads && t.sender == s.sender
    ensures |t.tasks.buf| == |s.tasks.buf| + n
  {
    if n == 0 {
      return [], s;
    }
    var xs, a := FillTasks(cfg, s, n - 1);
    t := Apply(cfg, a, Main(Submit));
    RunsSnoc(cfg, s, xs, a, Main(Submit));
    steps := xs + [Main(Submit)];
  }

  /** Everything that can be full is full, and the fan-out holds one more. */
  lemma FillEverything(cfg: Config, s: State) returns (steps: seq<Step>, t: State)
    requires cfg.Valid() && Unused(cfg, s) && s.main.pending >= LossBound(cfg)
    ensures Runs(cfg, s, steps, t) && Resting(cfg, t) && t.fan.pc.Holding? && t.fan.abandoned == [] && t.sender == s.sender
    ensures |t.tasks.buf| == 2 * cfg.concurrency && |t.results.buf| == RESULTS_BUFFER
    ensures |t.payloads.buf| == cfg.payloadBuffer
  {
    var xs, a := FillPayloads(cfg, s, cfg.payloadBuffer);
    var ys, b := ScrapeOne(cfg, a);
    RunsConcat(cfg, s, xs, a, ys, b);
    var c := Apply(cfg, b, Fan(FanTake));
    RunsSnoc(cfg, s, xs + ys, b, Fan(FanTake));
    var zs, d := FillResults(cfg, c, RESULTS_BUFFER);
    RunsConcat(cfg, s, xs + ys + [Fan(FanTake)], c, zs, d);
    var ws;
    ws, t := FillTasks(cfg, d, 2 * cfg.concurrency);
    steps := xs + ys + [Fan(FanTake)] + zs + ws;
    RunsConcat(cfg, s, xs + ys + [Fan(FanTake)] + zs, d, ws, t);
  }

  /** Main gives up what it has not submitted; the rest of the gateway stands still. */
  lemma {:induction false} RejectRest(cfg: Config, s: State) returns (steps: seq<Step>, t: State)
    requires s.main.pc == Submitting && s.rootDone && !s.misuse
    ensures Runs(cfg, s, steps, t) && t.main.pc == Submitting && t.main.pending == 0 && t.main.accepted == s.main.accepted
    ensures t == s.(main := t.main)
    decreases s.main.pending
  {
    if s.main.pending == 0 {
      return [], s;
    }
    var a := Apply(cfg, s, Main(Reject));
    var xs;
    xs, t := RejectRest(cfg, a);
    steps := [Main(Reject)] + xs;
    assert Runs(cfg, a, [], a) && Runs(cfg, s, [Main(Reject)], a);
    RunsConcat(cfg, s, [Main(Reject)], a, xs, t);
  }

  /** After the signal main gets to `Stop` without anything else moving. */
  lemma ReachStop(cfg: Config, s: State) returns (steps: seq<Step>, t: State)
    requires Resting(cfg, s)
    ensures Runs(cfg, s, steps, t) && t.main.pc == Cancelling && t.main.accepted == s.main.accepted
    ensures t == s.(main := t.main, rootDone := true)
  {
    var a := Apply(cfg, s, Signal);
    assert Runs(cfg, a, [], a) && Runs(cfg, s, [Signal], a);
    var xs, b := RejectRest(cfg, a);
    RunsConcat(cfg, s, [Signal], a, xs, b);
    var c := Apply(cfg, b, Main(Submitted));
    RunsSnoc(cfg, s, [Signal] + xs, b, Main(Submitted));
    t := Apply(cfg, c, Main(Wake));
    RunsSnoc(cfg, s, [Signal] + xs + [Main(Submitted)], c, Main(Wake));
    steps := [Signal] + xs + [Main(Submitted)] + [Main(Wake)];
  }

  /** Everything is full, the signal comes, and no worker looks at the queue again. */
  lemma WorstShutdown(cfg: Config, first: seq<Step>, start: State) returns (s: State)
    requires cfg.Valid() && Runs(cfg, Init(cfg), first, start) && Unused(cfg, start) && start.main.pending >= LossBound(cfg)
    ensures Reachable(cfg, s) && s.main.pc == Draining && !s.misuse
    ensures |s.tasks.buf| == 2 * cfg.concurrency && |s.results.buf| == RESULTS_BUFFER
    ensures |s.payloads.buf| == cfg.payloadBuffer && s.fan.pc.Holding? && s.rootDone && !s.payloads.closed
    ensures s.sender == start.sender
  {
    var xs, a := FillEverything(cfg, start);
    RunsConcat(cfg, Init(cfg), first, start, xs, a);
    var ys, b := ReachStop(cfg, a);
    RunsConcat(cfg, Init(cfg), first + xs, a, ys, b);
    assert Reachable(cfg, b);
    ReachableInv(cfg, b);
    var zs;
    zs, s := StopCanSkipTheQueue(cfg, b);
    RunsConcat(cfg, Init(cfg), first + xs + ys, b, zs, s);
    assert Reachable(cfg, s);
    ReachableInv(cfg, s);
  }

  /** The loss bound cannot be improved: with enough tasks some shutdown loses exactly that many. */
  lemma LossBoundIsReached(cfg: Config)
    requires cfg.Valid() && cfg.total >= LossBound(cfg)
    ensures exists s :: Reachable(cfg, s) && s.main.pc == Draining && s.sender.pc == StreamDone
                        && Lost(s) == LossBound(cfg)
  {
    assert Runs(cfg, Init(cfg), [], Init(cfg));
    var c := WorstShutdown(cfg, [], Init(cfg));
    var xs :| Runs(cfg, Init(cfg), xs, c);
    var d := Apply(cfg, c, Fan(FanAbandon));
    RunsSnoc(cfg, Init(cfg), xs, c, Fan(FanAbandon));
    var e := Apply(cfg, d, Sender(OpenFails));
    RunsSnoc(cfg, Init(cfg), xs + [Fan(FanAbandon)], d, Sender(OpenFails));
    assert Reachable(cfg, e);
    ReachableInv(cfg, e);
    ExitedAreNotBusy(e.workers);
    assert Lost(e) == LossBound(cfg);
  }

  /** Nor can the one for a sender that still has a payload in hand. */
  lemma LossInHandIsReached(cfg: Config)
    requires cfg.Valid() && cfg.total > LossBound(cfg)
    ensures exists s :: Reachable(cfg, s) && s.main.pc == Draining && |SenderHeld(s.sender)| == 1
                        && Lost(s) == LossBound(cfg) + 1
  {
    var first, start := TakeOne(cfg);
    var s := WorstShutdown(cfg, first, start);
    ReachableInv(cfg, s);
    ExitedAreNotBusy(s.workers);
  }
}
