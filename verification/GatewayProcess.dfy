/**
The pool's two blocking operations, `Submit` and `Stop`, as main calls them while a
scheduler runs all other goroutines in any order it likes.
 */
module GatewayProcess {
  import opened Gateway
  import opened GatewayInvariant
  import opened GatewayShutdown

  /** What became of each call of `Submit` in a run, in order. */
  function Outcomes(steps: seq<Step>): seq<bool> {
    if steps == [] then []
    else
      var last := steps[|steps| - 1];
      Outcomes(steps[..|steps| - 1])
      + (if last == Main(MainAct.Submit) then [true] else if last == Main(Reject) then [false] else [])
  }

  function Successes(outcomes: seq<bool>): nat {
    if outcomes == [] then 0
    else Successes(outcomes[..|outcomes| - 1]) + if outcomes[|outcomes| - 1] then 1 else 0
  }

  lemma OutcomesSnoc(steps: seq<Step>, step: Step)
    ensures Outcomes(steps + [step])
         == Outcomes(steps) + (if step == Main(MainAct.Submit) then [true] else if step == Main(Reject) then [false] else [])
  {
    assert (steps + [step])[..|steps|] == steps;
  }

  lemma SuccessesSnoc(outcomes: seq<bool>, ok: bool)
    ensures Successes(outcomes + [ok]) == Successes(outcomes) + if ok then 1 else 0
  {
    assert (outcomes + [ok])[..|outcomes|] == outcomes;
  }

  lemma SubmittingMeasureIsNatural(cfg: Config, s: State)
    requires cfg.Valid() && Reachable(cfg, s)
    ensures Measure(cfg, s) >= 0
  {
    ReachableInv(cfg, s);
    MeasureIsNatural(cfg, s);
  }

  lemma OthersLeaveMain(cfg: Config, s: State, step: Step)
    requires !step.Main? && Enabled(cfg, s, step)
    ensures Apply(cfg, s, step).main == s.main && (s.rootDone ==> Apply(cfg, s, step).rootDone)
  {
  }

  lemma JoiningStep(cfg: Config, s: State, step: Step)
    requires Shape(cfg, s) && s.main.pc == Joining && Enabled(cfg, s, step)
    ensures var t := Apply(cfg, s, step);
      t.main.pc in {Joining, Draining} && t.main.accepted == s.main.accepted && |t.tasks.buf| <= |s.tasks.buf|
  {
  }

  /** The running gateway; `trace` is everything that has happened. */
  class Process {
    const cfg: Config
    var state: State
    ghost var trace: seq<Step>

    ghost predicate Valid()
      reads this
    {
      cfg.Valid() && Runs(cfg, Init(cfg), trace, state)
    }

    /** The pool, the channels and the stream, with every goroutine started. */
    constructor (cfg: Config)
      requires cfg.Valid()
      ensures Valid() && this.cfg == cfg && state == Init(cfg) && trace == []
    {
      this.cfg := cfg;
      state := Init(cfg);
      trace := [];
    }

    /** One atomic step of one goroutine. */
    method Perform(step: Step)
      requires Valid() && Enabled(cfg, state, step)
      modifies this
      ensures Valid() && state == Apply(cfg, old(state), step) && trace == old(trace) + [step]
      ensures Shape(cfg, old(state)) && Shape(cfg, state) && Measure(cfg, state) < Measure(cfg, old(state))
    {
      ReachableInv(cfg, state) by {
        assert Reachable(cfg, state);
      }
      StepDescends(cfg, state, step);
      StepKeepsShape(cfg, state, step);
      RunsSnoc(cfg, Init(cfg), trace, state, step);
      state := Apply(cfg, state, step);
      trace := trace + [step];
    }

    /**
    `Submit`: wait until the channel of tasks has room or the context is cancelled. It always
    returns; it fails only after a cancellation, and otherwise appends a task to the queue.
     */
    method Submit(others: State -> Step, preferSend: bool) returns (ok: bool)
      requires Valid() && state.main.pc == Submitting && state.main.pending > 0
      requires forall s :: (exists step: Step :: !step.Main? && Enabled(cfg, s, step))
                           ==> !others(s).Main? && Enabled(cfg, s, others(s))
      modifies this
      ensures Valid() && state.main.pc == Submitting && state.main.pending == old(state.main.pending) - 1
      ensures ok ==> state.main.accepted == old(state.main.accepted) + 1
                     && state.tasks.buf != [] && state.tasks.buf[|state.tasks.buf| - 1] == old(state.main.accepted)
      ensures !ok ==> state.rootDone && state.main.accepted == old(state.main.accepted)
      ensures (old(state.rootDone) ==> state.rootDone) && Outcomes(trace) == Outcomes(old(trace)) + [ok]
    {
      while !Enabled(cfg, state, Main(MainAct.Submit)) && !Enabled(cfg, state, Main(Reject))
        invariant Valid() && state.main == old(state.main) && (old(state.rootDone) ==> state.rootDone)
        invariant Outcomes(trace) == Outcomes(old(trace))
        decreases Measure(cfg, state)
      {
        assert Reachable(cfg, state);
        SubmitIsNotWedged(cfg, state);
        SubmittingMeasureIsNatural(cfg, state);
        assert exists step: Step :: !step.Main? && Enabled(cfg, state, step);
        OthersLeaveMain(cfg, state, others(state));
        OutcomesSnoc(trace, others(state));
        Perform(others(state));
      }
      ReachableInv(cfg, state) by {
        assert Reachable(cfg, state);
      }
      ok := Enabled(cfg, state, Main(MainAct.Submit)) && (preferSend || !Enabled(cfg, state, Main(Reject)));
      OutcomesSnoc(trace, if ok then Main(MainAct.Submit) else Main(Reject));
      Perform(if ok then Main(MainAct.Submit) else Main(Reject));
    }

    /**
    `StartHopping`: submit one task for each selector, in order. A submission that fails is only
    logged; `outcomes` says for each selector what its `Submit` did. The task of an accepted
    selector is named by the number of tasks accepted before it.
     */
    method StartHopping(selectors: seq<string>, others: State -> Step, preferSend: nat -> bool) returns (outcomes: seq<bool>)
      requires Valid() && state.main.pc == Submitting && |selectors| <= state.main.pending
      requires forall s :: (exists step: Step :: !step.Main? && Enabled(cfg, s, step))
                           ==> !others(s).Main? && Enabled(cfg, s, others(s))
      modifies this
      ensures Valid() && state.main.pc == Submitting && state.main.pending == old(state.main.pending) - |selectors|
      ensures |outcomes| == |selectors| && Outcomes(trace) == Outcomes(old(trace)) + outcomes
      ensures state.main.accepted == old(state.main.accepted) + Successes(outcomes)
      ensures false in outcomes ==> state.rootDone
    {
      outcomes := [];
      for k := 0 to |selectors|
        invariant Valid() && state.main.pc == Submitting && state.main.pending == old(state.main.pending) - k
        invariant |outcomes| == k && Outcomes(trace) == Outcomes(old(trace)) + outcomes
        invariant state.main.accepted == old(state.main.accepted) + Successes(outcomes)
        invariant false in outcomes ==> state.rootDone
      {
        var ok := Submit(others, preferSend(k));
        SuccessesSnoc(outcomes, ok);
        outcomes := outcomes + [ok];
      }
    }

    /**
    `Stop`: cancel, close the channel of tasks, wait for the workers, while `next` schedules
    all goroutines. It always returns, and then no worker runs anything.
     */
    method Stop(next: State -> Step)
      requires Valid() && state.main.pc == Cancelling
      requires forall s :: (exists step :: Enabled(cfg, s, step)) ==> Enabled(cfg, s, next(s))
      modifies this
      ensures Valid() && state.main.pc == Draining && AllExited(state) && state.tasks.closed
      ensures |state.tasks.buf| <= |old(state.tasks.buf)| && state.main.accepted == old(state.main.accepted)
      ensures |trace| - |old(trace)| <= Measure(cfg, old(state))
    {
      ReachableInv(cfg, state) by {
        assert Reachable(cfg, state);
      }
      Perform(Main(Cancel));
      Perform(Main(CloseTasks));
      while state.main.pc == Joining
        invariant Valid() && Shape(cfg, state) && state.main.pc in {Joining, Draining}
        invariant |state.tasks.buf| <= |old(state.tasks.buf)| && state.main.accepted == old(state.main.accepted)
        invariant |trace| - |old(trace)| + Measure(cfg, state) <= Measure(cfg, old(state))
        decreases Measure(cfg, state)
      {
        assert Reachable(cfg, state);
        NeverStuck(cfg, state);
        MeasureIsNatural(cfg, state);
        JoiningStep(cfg, state, next(state));
        Perform(next(state));
      }
      MeasureIsNatural(cfg, state);
    }
  }
}
