/**
What every reachable state of the gateway satisfies: no task is lost or duplicated without
being accounted for, payloads keep the order of the results, and no channel is misused.
 */
module GatewayInvariant {
  import opened Gateway

  // ---- where a task can be ----

  function Ids(rs: seq<Result>): seq<nat> {
    seq(|rs|, i requires 0 <= i < |rs| => rs[i].id)
  }

  function DeliveryIds(ds: seq<Delivery>): seq<nat> {
    seq(|ds|, i requires 0 <= i < |ds| => ds[i].id)
  }

  function WorkerHeld(w: WorkerPc): seq<nat> {
    match w
    case Executing(id) => [id]
    case Reporting(r) => [r.id]
    case _ => []
  }

  /** How often `id` occurs in `ids`. */
  function Occurs(ids: seq<nat>, id: nat): nat {
    if ids == [] then 0 else (if ids[0] == id then 1 else 0) + Occurs(ids[1..], id)
  }

  ghost function WorkerCopies(ws: seq<WorkerPc>, id: nat): nat {
    if ws == [] then 0 else Occurs(WorkerHeld(ws[0]), id) + WorkerCopies(ws[1..], id)
  }

  /** How many workers hold a task. */
  function Busy(ws: seq<WorkerPc>): nat {
    if ws == [] then 0 else |WorkerHeld(ws[0])| + Busy(ws[1..])
  }

  function FanHeld(f: FanState): seq<nat> {
    if f.pc.Holding? then [f.pc.id] else []
  }

  function SenderHeld(d: SenderState): seq<nat> {
    if d.pc.Retrying? then [d.pc.id] else []
  }

  ghost function LoggedCopies(l: WorkerLog, id: nat): nat {
    Occurs(l.panicked, id) + Occurs(l.timedOut, id)
  }

  ghost function FanCopies(f: FanState, id: nat): nat {
    Occurs(FanHeld(f), id) + Occurs(f.skipped, id) + Occurs(f.abandoned, id)
  }

  ghost function SenderCopies(d: SenderState, id: nat): nat {
    Occurs(SenderHeld(d), id) + Occurs(DeliveryIds(d.deliveries), id)
  }

  /** In how many places task `id` is. */
  ghost function Copies(s: State, id: nat): nat {
    Occurs(s.tasks.buf, id) + WorkerCopies(s.workers, id) + LoggedCopies(s.work, id)
    + Occurs(Ids(s.results.buf), id) + FanCopies(s.fan, id) + Occurs(s.payloads.buf, id) + SenderCopies(s.sender, id)
  }

  /** The tasks somewhere in the gateway or settled, counted the way the program counts them. */
  function Accounted(s: State): nat {
    |s.tasks.buf| + Busy(s.workers) + |s.work.panicked| + s.work.globalDropped
    + |s.results.buf| + |FanHeld(s.fan)| + |s.fan.abandoned| + |s.fan.skipped|
    + |s.payloads.buf| + |SenderHeld(s.sender)| + s.sender.sent + s.sender.dropped
  }

  function SuccessIds(rs: seq<Result>): seq<nat> {
    if rs == [] then [] else
    SuccessIds(rs[..|rs| - 1]) + (if rs[|rs| - 1].status == Success then [rs[|rs| - 1].id] else [])
  }

  function FailedIds(rs: seq<Result>): seq<nat> {
    if rs == [] then [] else
    FailedIds(rs[..|rs| - 1]) + (if rs[|rs| - 1].status == Failed then [rs[|rs| - 1].id] else [])
  }

  /** The payloads with the given fate, in the order the sender settled them. */
  function Settled(ds: seq<Delivery>, delivered: bool): seq<nat> {
    if ds == [] then [] else
    Settled(ds[..|ds| - 1], delivered) + (if ds[|ds| - 1].delivered == delivered then [ds[|ds| - 1].id] else [])
  }

  // ---- the invariant ----

  /** Channel capacities, who has closed what, and how the program counters agree. */
  ghost predicate Shape(cfg: Config, s: State) {
    && |s.workers| == cfg.concurrency
    && s.tasks.cap == 2 * cfg.concurrency && |s.tasks.buf| <= s.tasks.cap
    && s.results.cap == RESULTS_BUFFER && |s.results.buf| <= s.results.cap
    && s.payloads.cap == cfg.payloadBuffer && |s.payloads.buf| <= s.payloads.cap
    && !s.misuse
    && !s.results.closed
    && (s.tasks.closed <==> s.main.pc in {Joining, Draining, Gone})
    && (s.poolDone <==> s.main.pc in {Closing, Joining, Draining, Gone})
    && (s.payloads.closed <==> s.fan.pc == FanDone)
    && (s.main.pc !in {Submitting, AwaitingSignal} ==> s.rootDone)
    && (s.main.pc != Submitting ==> s.main.pending == 0)
    && (s.fan.pc == FanDone ==> s.rootDone)
    && (s.main.pc in {Draining, Gone} ==> AllExited(s))
    && (!s.rootDone ==> forall i :: 0 <= i < |s.workers| ==> s.workers[i] != Exited)
    && (s.sender.pc.Retrying? ==> s.sender.pc.failures <= cfg.Attempts())
  }

  /** Each accepted task is in exactly one place, and nothing else is anywhere. */
  ghost predicate Conserved(s: State) {
    && (forall id: nat :: Copies(s, id) == if id < s.main.accepted then 1 else 0)
    && Accounted(s) == s.main.accepted
  }

  /** The queue of tasks is first in, first out. */
  ghost predicate QueueInOrder(cfg: Config, s: State) {
    && s.main.accepted + s.main.rejected + s.main.pending == cfg.total
    && |s.tasks.buf| <= s.main.accepted
    && forall k :: 0 <= k < |s.tasks.buf| ==> s.tasks.buf[k] == s.main.accepted - |s.tasks.buf| + k
  }

  /** What the fan-out took is either skipped, or on its way in the order it was taken. */
  ghost predicate FanInOrder(f: FanState, onward: seq<nat>) {
    && f.skipped == FailedIds(f.consumed)
    && onward + FanHeld(f) + f.abandoned == SuccessIds(f.consumed)
    && |f.abandoned| <= 1
    && (f.abandoned != [] ==> f.pc == FanDone)
  }

  /** The payloads that left the fan-out, oldest first. */
  function Onward(s: State): seq<nat> {
    DeliveryIds(s.sender.deliveries) + SenderHeld(s.sender) + s.payloads.buf
  }

  /** Payloads stay in the order in which successful results entered the results channel. */
  ghost predicate PayloadsInOrder(s: State) {
    && s.work.entered == s.fan.consumed + s.results.buf
    && FanInOrder(s.fan, Onward(s))
  }

  /** The program's counters agree with what happened. */
  ghost predicate CountersRight(s: State) {
    && s.work.globalDropped == |s.work.timedOut|
    && s.sender.sent == |Settled(s.sender.deliveries, true)|
    && s.sender.dropped == |Settled(s.sender.deliveries, false)|
  }

  ghost predicate Inv(cfg: Config, s: State) {
    && Shape(cfg, s) && Conserved(s) && QueueInOrder(cfg, s) && PayloadsInOrder(s) && CountersRight(s)
  }

  // ---- facts about sequences ----

  lemma {:induction false} HoldOther(ws: seq<WorkerPc>, i: nat, w: WorkerPc, id: nat)
    requires i < |ws|
    ensures WorkerCopies(ws[i := w], id) + Occurs(WorkerHeld(ws[i]), id)
         == WorkerCopies(ws, id) + Occurs(WorkerHeld(w), id)
    ensures Busy(ws[i := w]) + |WorkerHeld(ws[i])| == Busy(ws) + |WorkerHeld(w)|
  {
    if i == 0 {
      assert ws[i := w][1..] == ws[1..];
    } else {
      assert ws[i := w][1..] == ws[1..][i - 1 := w];
      HoldOther(ws[1..], i - 1, w, id);
    }
  }

  lemma {:induction false} AllIdleHoldNothing(n: nat, id: nat)
    ensures WorkerCopies(seq(n, i => Idle), id) == 0 && Busy(seq(n, i => Idle)) == 0
  {
    if n > 0 {
      assert seq(n, i => Idle)[1..] == seq(n - 1, i => Idle);
      AllIdleHoldNothing(n - 1, id);
    }
  }

  lemma {:induction false} OccursSnoc(xs: seq<nat>, x: nat, id: nat)
    ensures Occurs(xs + [x], id) == Occurs(xs, id) + if x == id then 1 else 0
  {
    if xs != [] {
      assert (xs + [x])[1..] == xs[1..] + [x];
      OccursSnoc(xs[1..], x, id);
    }
  }

  lemma OccursOne(x: nat, id: nat)
    ensures Occurs([x], id) == if x == id then 1 else 0
  {
  }

  lemma IdsSnoc(rs: seq<Result>, r: Result)
    ensures Ids(rs + [r]) == Ids(rs) + [r.id]
  {
  }

  lemma IdsTail(rs: seq<Result>)
    requires rs != []
    ensures Ids(rs)[0] == rs[0].id && Ids(rs)[1..] == Ids(rs[1..])
  {
  }

  lemma FatesSnoc(rs: seq<Result>, r: Result)
    ensures SuccessIds(rs + [r]) == SuccessIds(rs) + (if r.status == Success then [r.id] else [])
    ensures FailedIds(rs + [r]) == FailedIds(rs) + (if r.status == Failed then [r.id] else [])
  {
    assert (rs + [r])[..|rs + [r]| - 1] == rs;
  }

  lemma SettledSnoc(ds: seq<Delivery>, d: Delivery)
    ensures forall b :: Settled(ds + [d], b) == Settled(ds, b) + (if d.delivered == b then [d.id] else [])
    ensures DeliveryIds(ds + [d]) == DeliveryIds(ds) + [d.id]
  {
    assert (ds + [d])[..|ds + [d]| - 1] == ds;
  }

  // ---- each step keeps the invariant ----

  lemma MainMoves(s: State, a: MainAct, id: nat)
    requires !s.tasks.closed || !(a.Submit? || a.CloseTasks?)
    requires MainEnabled(s, a)
    ensures var t := MainApply(s, a);
      && Copies(t, id) == Copies(s, id) + (if a == Submit && id == s.main.accepted then 1 else 0)
      && Accounted(t) == Accounted(s) + (if a == Submit then 1 else 0)
  {
    OccursSnoc(s.tasks.buf, s.main.accepted, id);
  }

  lemma ReportMoves(s: State, i: nat, id: nat)
    requires !s.results.closed && i < |s.workers| && WorkerEnabled(s, s.workers[i], Report)
    ensures Copies(WorkerApply(s, i, Report), id) == Copies(s, id)
    ensures Accounted(WorkerApply(s, i, Report)) == Accounted(s)
  {
    var r := s.workers[i].result;
    HoldOther(s.workers, i, Idle, id);
    OccursOne(r.id, id);
    IdsSnoc(s.results.buf, r);
    OccursSnoc(Ids(s.results.buf), r.id, id);
  }

  lemma PanicMoves(s: State, i: nat, id: nat)
    requires i < |s.workers| && WorkerEnabled(s, s.workers[i], Panic)
    ensures Copies(WorkerApply(s, i, Panic), id) == Copies(s, id)
    ensures Accounted(WorkerApply(s, i, Panic)) == Accounted(s)
  {
    HoldOther(s.workers, i, Idle, id);
    OccursOne(s.workers[i].id, id);
    OccursSnoc(s.work.panicked, s.workers[i].id, id);
  }

  lemma TimeOutMoves(s: State, i: nat, id: nat)
    requires i < |s.workers| && WorkerEnabled(s, s.workers[i], TimeOut)
    ensures Copies(WorkerApply(s, i, TimeOut), id) == Copies(s, id)
    ensures Accounted(WorkerApply(s, i, TimeOut)) == Accounted(s)
  {
    HoldOther(s.workers, i, Idle, id);
    OccursOne(s.workers[i].result.id, id);
    OccursSnoc(s.work.timedOut, s.workers[i].result.id, id);
  }

  lemma WorkerMoves(s: State, i: nat, a: WorkerAct, id: nat)
    requires !s.results.closed && i < |s.workers| && WorkerEnabled(s, s.workers[i], a)
    ensures Copies(WorkerApply(s, i, a), id) == Copies(s, id)
    ensures Accounted(WorkerApply(s, i, a)) == Accounted(s)
  {
    if a.Report? {
      ReportMoves(s, i, id);
    } else if a.Panic? {
      PanicMoves(s, i, id);
    } else if a.TimeOut? {
      TimeOutMoves(s, i, id);
    } else {
      HoldOther(s.workers, i, WorkerNext(s, s.workers[i], a), id);
    }
  }

  lemma FanMoves(s: State, a: FanAct, id: nat)
    requires !s.payloads.closed && FanEnabled(s, a)
    ensures Copies(FanApply(s, a), id) == Copies(s, id)
    ensures Accounted(FanApply(s, a)) == Accounted(s)
  {
    if a.FanTake? {
      OccursOne(s.results.buf[0].id, id);
      IdsTail(s.results.buf);
      OccursSnoc(s.fan.skipped, s.results.buf[0].id, id);
    } else if a.FanPush? {
      OccursOne(s.fan.pc.id, id);
      OccursSnoc(s.payloads.buf, s.fan.pc.id, id);
    } else if a.FanAbandon? {
      OccursOne(s.fan.pc.id, id);
      OccursSnoc(s.fan.abandoned, s.fan.pc.id, id);
    }
  }

  lemma SettlingMoves(cfg: Config, s: State, a: SenderAct, id: nat)
    requires SenderEnabled(cfg, s, a) && (a.SendOk? || a.SendEof? || a.GiveUp?)
    ensures Copies(SenderApply(cfg, s, a), id) == Copies(s, id)
    ensures Accounted(SenderApply(cfg, s, a)) == Accounted(s)
  {
    var d := Delivery(s.sender.pc.id, a == SendOk);
    OccursOne(d.id, id);
    SettledSnoc(s.sender.deliveries, d);
    OccursSnoc(DeliveryIds(s.sender.deliveries), d.id, id);
  }

  lemma SenderMoves(cfg: Config, s: State, a: SenderAct, id: nat)
    requires SenderEnabled(cfg, s, a)
    ensures Copies(SenderApply(cfg, s, a), id) == Copies(s, id)
    ensures Accounted(SenderApply(cfg, s, a)) == Accounted(s)
  {
    if a.SenderTake? {
      OccursOne(s.payloads.buf[0], id);
    } else if a.SendOk? || a.SendEof? || a.GiveUp? {
      SettlingMoves(cfg, s, a, id);
    }
  }

  lemma SignalMoves(s: State, id: nat)
    ensures Copies(s.(rootDone := true), id) == Copies(s, id) && Accounted(s.(rootDone := true)) == Accounted(s)
  {
  }

  /** If no task moves except the one just accepted, conservation is kept. */
  lemma Conserve(s: State, t: State)
    requires Conserved(s) && t.main.accepted - s.main.accepted in {0, 1}
    requires Accounted(t) - Accounted(s) == t.main.accepted - s.main.accepted
    requires forall id: nat :: Copies(t, id) == Copies(s, id)
               + (if s.main.accepted <= id < t.main.accepted then 1 else 0)
    ensures Conserved(t)
  {
  }

  lemma MainConserves(cfg: Config, s: State, a: MainAct)
    requires Shape(cfg, s) && Conserved(s) && MainEnabled(s, a)
    ensures Conserved(MainApply(s, a))
  {
    forall id: nat {
      MainMoves(s, a, id);
    }
    MainMoves(s, a, 0);
    Conserve(s, MainApply(s, a));
  }

  lemma WorkerConserves(cfg: Config, s: State, i: nat, a: WorkerAct)
    requires Shape(cfg, s) && Conserved(s) && i < |s.workers| && WorkerEnabled(s, s.workers[i], a)
    ensures Conserved(WorkerApply(s, i, a))
  {
    forall id: nat {
      WorkerMoves(s, i, a, id);
    }
    WorkerMoves(s, i, a, 0);
    Conserve(s, WorkerApply(s, i, a));
  }

  lemma FanConserves(s: State, a: FanAct)
    requires !s.payloads.closed && Conserved(s) && FanEnabled(s, a)
    ensures Conserved(FanApply(s, a))
  {
    forall id: nat {
      FanMoves(s, a, id);
    }
    FanMoves(s, a, 0);
    Conserve(s, FanApply(s, a));
  }

  lemma SenderConserves(cfg: Config, s: State, a: SenderAct)
    requires Conserved(s) && SenderEnabled(cfg, s, a)
    ensures Conserved(SenderApply(cfg, s, a))
  {
    forall id: nat {
      SenderMoves(cfg, s, a, id);
    }
    SenderMoves(cfg, s, a, 0);
    Conserve(s, SenderApply(cfg, s, a));
  }

  lemma SignalConserves(s: State)
    requires Conserved(s)
    ensures Conserved(s.(rootDone := true))
  {
    forall id: nat {
      SignalMoves(s, id);
    }
    SignalMoves(s, 0);
  }

  lemma StepConserves(cfg: Config, s: State, step: Step)
    requires Shape(cfg, s) && Conserved(s) && Enabled(cfg, s, step)
    ensures Conserved(Apply(cfg, s, step))
  {
    match step {
      case Signal => SignalConserves(s);
      case Main(a) => MainConserves(cfg, s, a);
      case Worker(i, a) => WorkerConserves(cfg, s, i, a);
      case Fan(a) => FanConserves(s, a);
      case Sender(a) => SenderConserves(cfg, s, a);
    }
  }

  lemma WorkerKeepsShape(cfg: Config, s: State, i: nat, a: WorkerAct)
    requires Shape(cfg, s) && i < |s.workers| && WorkerEnabled(s, s.workers[i], a)
    ensures Shape(cfg, WorkerApply(s, i, a))
  {
    assert s.workers[i] != Exited;
  }

  lemma MainKeepsShape(cfg: Config, s: State, a: MainAct)
    requires Shape(cfg, s) && MainEnabled(s, a)
    ensures Shape(cfg, MainApply(s, a))
  {
  }

  lemma FanKeepsShape(cfg: Config, s: State, a: FanAct)
    requires Shape(cfg, s) && FanEnabled(s, a)
    ensures Shape(cfg, FanApply(s, a))
  {
  }

  lemma SenderKeepsShape(cfg: Config, s: State, a: SenderAct)
    requires Shape(cfg, s) && SenderEnabled(cfg, s, a)
    ensures Shape(cfg, SenderApply(cfg, s, a))
  {
  }

  lemma StepKeepsShape(cfg: Config, s: State, step: Step)
    requires Shape(cfg, s) && Enabled(cfg, s, step)
    ensures Shape(cfg, Apply(cfg, s, step))
  {
    match step {
      case Main(a) => MainKeepsShape(cfg, s, a);
      case Worker(i, a) => WorkerKeepsShape(cfg, s, i, a);
      case Fan(a) => FanKeepsShape(cfg, s, a);
      case Sender(a) => SenderKeepsShape(cfg, s, a);
      case Signal =>
    }
  }

  lemma MainKeepsQueue(cfg: Config, s: State, a: MainAct)
    requires !s.misuse && QueueInOrder(cfg, s) && MainEnabled(s, a)
    ensures QueueInOrder(cfg, MainApply(s, a))
  {
  }

  lemma WorkerKeepsQueue(cfg: Config, s: State, i: nat, a: WorkerAct)
    requires QueueInOrder(cfg, s) && i < |s.workers| && WorkerEnabled(s, s.workers[i], a)
    ensures QueueInOrder(cfg, WorkerApply(s, i, a))
  {
  }

  lemma StepKeepsQueue(cfg: Config, s: State, step: Step)
    requires Shape(cfg, s) && QueueInOrder(cfg, s) && Enabled(cfg, s, step)
    ensures QueueInOrder(cfg, Apply(cfg, s, step))
  {
    match step {
      case Main(a) => MainKeepsQueue(cfg, s, a);
      case Worker(i, a) => WorkerKeepsQueue(cfg, s, i, a);
      case _ =>
    }
  }

  lemma FanReceiveKeepsOrder(f: FanState, r: Result, onward: seq<nat>)
    requires f.pc.Listening? && FanInOrder(f, onward)
    ensures FanInOrder(FanReceive(f, r), onward)
  {
    FatesSnoc(f.consumed, r);
  }

  lemma FanTakeKeepsPayloads(s: State)
    requires PayloadsInOrder(s) && FanEnabled(s, FanTake)
    ensures PayloadsInOrder(FanApply(s, FanTake))
  {
    FanReceiveKeepsOrder(s.fan, s.results.buf[0], Onward(s));
  }

  lemma FanKeepsPayloads(s: State, a: FanAct)
    requires !s.payloads.closed && PayloadsInOrder(s) && FanEnabled(s, a)
    ensures PayloadsInOrder(FanApply(s, a))
  {
    if a.FanTake? {
      FanTakeKeepsPayloads(s);
    }
  }

  lemma SenderKeepsOnward(cfg: Config, s: State, a: SenderAct)
    requires SenderEnabled(cfg, s, a)
    ensures Onward(SenderApply(cfg, s, a)) == Onward(s)
  {
    if a.SenderTake? {
      assert s.payloads.buf == [s.payloads.buf[0]] + s.payloads.buf[1..];
    } else if s.sender.pc.Retrying? {
      SettledSnoc(s.sender.deliveries, Delivery(s.sender.pc.id, a == SendOk));
    }
  }

  lemma MainKeepsPayloads(s: State, a: MainAct)
    requires PayloadsInOrder(s) && MainEnabled(s, a)
    ensures PayloadsInOrder(MainApply(s, a))
  {
    assert Onward(MainApply(s, a)) == Onward(s);
  }

  lemma WorkerKeepsPayloads(s: State, i: nat, a: WorkerAct)
    requires !s.results.closed && i < |s.workers| && WorkerEnabled(s, s.workers[i], a) && PayloadsInOrder(s)
    ensures PayloadsInOrder(WorkerApply(s, i, a))
  {
  }

  lemma StepKeepsPayloads(cfg: Config, s: State, step: Step)
    requires Shape(cfg, s) && PayloadsInOrder(s) && Enabled(cfg, s, step)
    ensures PayloadsInOrder(Apply(cfg, s, step))
  {
    match step {
      case Main(a) => MainKeepsPayloads(s, a);
      case Worker(i, a) => WorkerKeepsPayloads(s, i, a);
      case Fan(a) => FanKeepsPayloads(s, a);
      case Sender(a) => SenderKeepsOnward(cfg, s, a);
      case _ =>
    }
  }

  lemma SenderKeepsCounters(cfg: Config, s: State, a: SenderAct)
    requires CountersRight(s) && SenderEnabled(cfg, s, a)
    ensures CountersRight(SenderApply(cfg, s, a))
  {
    if s.sender.pc.Retrying? {
      SettledSnoc(s.sender.deliveries, Delivery(s.sender.pc.id, a == SendOk));
    }
  }

  lemma StepKeepsCounters(cfg: Config, s: State, step: Step)
    requires CountersRight(s) && Enabled(cfg, s, step)
    ensures CountersRight(Apply(cfg, s, step))
  {
    match step {
      case Sender(a) => SenderKeepsCounters(cfg, s, a);
      case _ =>
    }
  }

  lemma StepKeeps(cfg: Config, s: State, step: Step)
    requires Inv(cfg, s) && Enabled(cfg, s, step)
    ensures Inv(cfg, Apply(cfg, s, step))
  {
    StepKeepsShape(cfg, s, step);
    StepConserves(cfg, s, step);
    StepKeepsQueue(cfg, s, step);
    StepKeepsPayloads(cfg, s, step);
    StepKeepsCounters(cfg, s, step);
  }

  lemma InitInv(cfg: Config)
    requires cfg.Valid()
    ensures Inv(cfg, Init(cfg))
  {
    AllIdleHoldNothing(cfg.concurrency, 0);
    forall id: nat
      ensures Copies(Init(cfg), id) == 0
    {
      AllIdleHoldNothing(cfg.concurrency, id);
    }
  }

  lemma {:induction false} RunKeeps(cfg: Config, s: State, steps: seq<Step>, t: State)
    requires Inv(cfg, s) && Runs(cfg, s, steps, t)
    ensures Inv(cfg, t)
    decreases |steps|
  {
    if steps != [] {
      StepKeeps(cfg, s, steps[0]);
      RunKeeps(cfg, Apply(cfg, s, steps[0]), steps[1..], t);
    }
  }

  lemma ReachableInv(cfg: Config, s: State)
    requires cfg.Valid() && Reachable(cfg, s)
    ensures Inv(cfg, s)
  {
    InitInv(cfg);
    var steps :| Runs(cfg, Init(cfg), steps, s);
    RunKeeps(cfg, Init(cfg), steps, s);
  }
}
