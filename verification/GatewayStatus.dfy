/**
What becomes of the outcome of a scrape: over the steps of a whole run, a result that goes on to
the hub is one whose scraping succeeded, and one whose scraping failed ends as skipped.
 */
module GatewayStatus {
  import opened Gateway
  import opened GatewayInvariant
  import opened GatewayTheorems

  // ---- what the scraping engine returned, read off the steps ----

  /** The task that a step finishes, with the outcome of its scrape. */
  function Finished(s: State, step: Step): set<Result> {
    if step.Worker? && step.worker.Finish? && step.i < |s.workers| && s.workers[step.i].Executing?
    then {Result(s.workers[step.i].id, step.worker.status)}
    else {}
  }

  /** All tasks finished in a run, each with the outcome of its scrape. */
  ghost function Finishes(cfg: Config, s: State, steps: seq<Step>): set<Result>
    decreases |steps|
  {
    if steps == [] || !Enabled(cfg, s, steps[0]) then {}
    else Finished(s, steps[0]) + Finishes(cfg, Apply(cfg, s, steps[0]), steps[1..])
  }

  // ---- the invariant ----

  /** A task that no worker has or will have again. */
  predicate Past(s: State, id: nat) {
    && id < s.main.accepted
    && (forall k :: 0 <= k < |s.tasks.buf| ==> id < s.tasks.buf[k])
    && (forall i :: 0 <= i < |s.workers| ==> s.workers[i] != Executing(id))
  }

  /** Each worker executes a task of its own, older than all that are queued. */
  predicate OwnTasks(s: State) {
    && (forall k :: 0 <= k < |s.tasks.buf| ==> s.tasks.buf[k] < s.main.accepted)
    && (forall j, k :: 0 <= j < k < |s.tasks.buf| ==> s.tasks.buf[j] < s.tasks.buf[k])
    && (forall i :: 0 <= i < |s.workers| && s.workers[i].Executing? ==> Taken(s, s.workers[i].id))
    && (forall i, j :: 0 <= i < j < |s.workers| && s.workers[i].Executing? && s.workers[j].Executing?
          ==> s.workers[i].id != s.workers[j].id)
  }

  predicate Taken(s: State, id: nat) {
    id < s.main.accepted && forall k :: 0 <= k < |s.tasks.buf| ==> id < s.tasks.buf[k]
  }

  /** Every report carries the outcome of its task's only scrape. */
  ghost predicate StatusRight(s: State, done: set<Result>) {
    && Reported(s, done)
    && (forall r :: r in done ==> Past(s, r.id))
    && (forall q, r :: q in done && r in done && q.id == r.id ==> q == r)
  }

  predicate Reported(s: State, done: set<Result>) {
    && (forall r :: r in s.work.entered ==> r in done)
    && (forall i :: 0 <= i < |s.workers| && s.workers[i].Reporting? ==> s.workers[i].result in done)
  }

  /** A panic is not an outcome. */
  ghost predicate PanicsApart(s: State, done: set<Result>) {
    && (forall id :: id in s.work.panicked ==> Past(s, id))
    && (forall r :: r in done ==> r.id !in s.work.panicked)
  }

  lemma TakeKeepsOwnTasks(s: State, i: nat)
    requires OwnTasks(s) && i < |s.workers| && WorkerEnabled(s, s.workers[i], Take)
    ensures OwnTasks(WorkerApply(s, i, Take))
  {
    var t, id := WorkerApply(s, i, Take), s.tasks.buf[0];
    assert t.workers == s.workers[i := Executing(id)] && t.tasks.buf == s.tasks.buf[1..];
    assert Taken(t, id);
  }

  lemma WorkerKeepsOwnTasks(s: State, i: nat, a: WorkerAct)
    requires OwnTasks(s) && i < |s.workers| && WorkerEnabled(s, s.workers[i], a)
    ensures OwnTasks(WorkerApply(s, i, a))
  {
    if a.Take? {
      TakeKeepsOwnTasks(s, i);
    } else {
      var t := WorkerApply(s, i, a);
      assert t.tasks == s.tasks && t.main == s.main && |t.workers| == |s.workers|;
      assert forall k :: 0 <= k < |t.workers| && t.workers[k].Executing? ==> t.workers[k] == s.workers[k];
    }
  }

  lemma MainKeepsOwnTasks(s: State, a: MainAct)
    requires OwnTasks(s) && MainEnabled(s, a)
    ensures OwnTasks(MainApply(s, a))
  {
  }

  lemma StepKeepsOwnTasks(cfg: Config, s: State, step: Step)
    requires OwnTasks(s) && Enabled(cfg, s, step)
    ensures OwnTasks(Apply(cfg, s, step))
  {
    match step {
      case Main(a) => MainKeepsOwnTasks(s, a);
      case Worker(i, a) => WorkerKeepsOwnTasks(s, i, a);
      case _ =>
        var t := Apply(cfg, s, step);
        assert t.tasks == s.tasks && t.main == s.main && t.workers == s.workers;
    }
  }

  lemma WorkerKeepsPast(s: State, i: nat, a: WorkerAct, id: nat)
    requires Past(s, id) && i < |s.workers| && WorkerEnabled(s, s.workers[i], a)
    ensures Past(WorkerApply(s, i, a), id)
  {
    assert a.Take? ==> id < s.tasks.buf[0];
  }

  lemma PastStays(cfg: Config, s: State, step: Step, id: nat)
    requires Enabled(cfg, s, step) && Past(s, id)
    ensures Past(Apply(cfg, s, step), id)
  {
    if step.Worker? {
      WorkerKeepsPast(s, step.i, step.worker, id);
    }
  }

  lemma FinishedIsPast(cfg: Config, s: State, step: Step, r: Result)
    requires OwnTasks(s) && Enabled(cfg, s, step) && r in Finished(s, step)
    ensures Past(Apply(cfg, s, step), r.id) && !Past(s, r.id)
  {
  }

  lemma StepKeepsReports(cfg: Config, s: State, step: Step, done: set<Result>)
    requires Reported(s, done) && Enabled(cfg, s, step)
    ensures Reported(Apply(cfg, s, step), done + Finished(s, step))
  {
    if step.Worker? {
      var t := Apply(cfg, s, step);
      assert t.workers == s.workers[step.i := t.workers[step.i]];
    }
  }

  lemma StepKeepsStatus(cfg: Config, s: State, step: Step, done: set<Result>)
    requires OwnTasks(s) && StatusRight(s, done) && Enabled(cfg, s, step)
    ensures StatusRight(Apply(cfg, s, step), done + Finished(s, step))
  {
    var t, more := Apply(cfg, s, step), Finished(s, step);
    StepKeepsReports(cfg, s, step, done);
    forall r | r in done + more
      ensures Past(t, r.id)
    {
      if r in done {
        PastStays(cfg, s, step, r.id);
      } else {
        FinishedIsPast(cfg, s, step, r);
      }
    }
    forall r | r in more
      ensures forall q :: q in done ==> q.id != r.id
    {
      FinishedIsPast(cfg, s, step, r);
    }
  }

  lemma StepKeepsPanics(cfg: Config, s: State, step: Step, done: set<Result>)
    requires OwnTasks(s) && StatusRight(s, done) && PanicsApart(s, done) && Enabled(cfg, s, step)
    ensures PanicsApart(Apply(cfg, s, step), done + Finished(s, step))
  {
    forall id | id in s.work.panicked
      ensures Past(Apply(cfg, s, step), id)
    {
      PastStays(cfg, s, step, id);
    }
    forall r | r in Finished(s, step)
      ensures r.id !in s.work.panicked
    {
      FinishedIsPast(cfg, s, step, r);
    }
  }

  lemma {:induction false} RunKeepsStatus(cfg: Config, s: State, steps: seq<Step>, t: State, done: set<Result>)
    requires OwnTasks(s) && StatusRight(s, done) && PanicsApart(s, done) && Runs(cfg, s, steps, t)
    ensures StatusRight(t, done + Finishes(cfg, s, steps)) && PanicsApart(t, done + Finishes(cfg, s, steps))
    decreases |steps|
  {
    if steps == [] {
      assert done + {} == done;
    } else {
      var more, u := Finished(s, steps[0]), Apply(cfg, s, steps[0]);
      StepKeepsOwnTasks(cfg, s, steps[0]);
      StepKeepsStatus(cfg, s, steps[0], done);
      StepKeepsPanics(cfg, s, steps[0], done);
      RunKeepsStatus(cfg, u, steps[1..], t, done + more);
      assert done + Finishes(cfg, s, steps) == done + more + Finishes(cfg, u, steps[1..]);
    }
  }

  // ---- what follows for the sender and the fan-out ----

  lemma {:induction false} SuccessIdsAre(rs: seq<Result>, id: nat)
    ensures id in SuccessIds(rs) <==> Result(id, Success) in rs
    ensures id in FailedIds(rs) <==> Result(id, Failed) in rs
  {
    if rs != [] {
      var n := |rs| - 1;
      SuccessIdsAre(rs[..n], id);
      assert rs == rs[..n] + [rs[n]];
    }
  }

  lemma SettledAreDelivered(ds: seq<Delivery>, id: nat)
    requires id in Settled(ds, true)
    ensures id in DeliveryIds(ds)
  {
    DeliveredEmbed(ds);
    var k :| 0 <= k < |Settled(ds, true)| && Settled(ds, true)[k] == id;
    assert DeliveryIds(ds)[DeliveredAt(ds)[k]] == id;
  }

  /** Everything the fan-out forwarded, holds or abandoned was finished with success. */
  lemma OnwardSucceeded(cfg: Config, s: State, done: set<Result>, id: nat)
    requires Inv(cfg, s) && StatusRight(s, done)
    requires id in Onward(s) || id in FanHeld(s.fan) || id in s.fan.abandoned
    ensures Result(id, Success) in done && Result(id, Failed) !in done
  {
    assert id in Onward(s) + FanHeld(s.fan) + s.fan.abandoned;
    SuccessIdsAre(s.fan.consumed, id);
    assert Result(id, Success) in s.work.entered;
  }

  /** What has become of one task, given the outcomes of all scrapes. */
  predicate Passed(s: State, done: set<Result>, id: nat) {
    && (id in Settled(s.sender.deliveries, true) ==> Result(id, Success) in done)
    && (Result(id, Failed) in done ==> id !in Onward(s) && id !in FanHeld(s.fan) && id !in s.fan.abandoned)
    && (Result(id, Failed) in done && id in Ids(s.fan.consumed) ==> id in s.fan.skipped)
    && (id in s.fan.skipped ==> Result(id, Failed) in done)
    && (id in s.work.panicked ==> Result(id, Success) !in done && Result(id, Failed) !in done)
  }

  lemma EachPassed(cfg: Config, s: State, done: set<Result>, id: nat)
    requires Inv(cfg, s) && StatusRight(s, done) && PanicsApart(s, done)
    ensures Passed(s, done, id)
  {
    if id in Onward(s) || id in FanHeld(s.fan) || id in s.fan.abandoned {
      OnwardSucceeded(cfg, s, done, id);
    }
    if id in Settled(s.sender.deliveries, true) {
      SettledAreDelivered(s.sender.deliveries, id);
      assert id in Onward(s);
    }
    ConsumedAre(s, done, id);
  }

  /**
  In every run: a result in the channel carries the outcome that its task's scrape had, and each
  task has one outcome at most. What is counted as sent, or is anywhere on the way behind the
  fan-out, was scraped successfully; what failed never gets there, and is skipped when it is taken.
   */
  lemma OnlySuccessIsSent(cfg: Config, steps: seq<Step>, s: State)
    requires cfg.Valid() && Runs(cfg, Init(cfg), steps, s)
    ensures var done := Finishes(cfg, Init(cfg), steps);
      && (forall r :: r in s.work.entered ==> r in done)
      && (forall q, r :: q in done && r in done && q.id == r.id ==> q == r)
      && (forall id :: Passed(s, done, id))
  {
    var done := Finishes(cfg, Init(cfg), steps);
    RunKeepsStatus(cfg, Init(cfg), steps, s, {});
    assert {} + done == done;
    InitInv(cfg);
    RunKeeps(cfg, Init(cfg), steps, s);
    forall id
      ensures Passed(s, done, id)
    {
      EachPassed(cfg, s, done, id);
    }
  }

  lemma ConsumedAre(s: State, done: set<Result>, id: nat)
    requires StatusRight(s, done) && PayloadsInOrder(s)
    ensures Result(id, Failed) in done && id in Ids(s.fan.consumed) ==> id in s.fan.skipped
    ensures id in s.fan.skipped ==> Result(id, Failed) in done
  {
    SuccessIdsAre(s.fan.consumed, id);
    if id in Ids(s.fan.consumed) {
      var k :| 0 <= k < |Ids(s.fan.consumed)| && Ids(s.fan.consumed)[k] == id;
      assert s.fan.consumed[k] in s.work.entered;
    }
  }
}
