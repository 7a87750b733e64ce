/**
 * Sequential runs of guarded calls: each call is admitted (or rejected), its
 * outcome recorded, and only then does the next call start. These lemmas state
 * what holds between calls.
 */
module Runs {
  import opened Wrappers
  import opened States
  import opened Metrics
  import opened Options
  import opened Gates

  /** One guarded call: the two clock readings and the wrapped function's outcome. */
  datatype Call = Call(before: int, outcome: Outcome, after: int)

  function Step(p: Params, strategyFn: StrategyFn, g: Gate, c: Call): Gate {
    Do(p, strategyFn, g, c.before, c.outcome, c.after).gate
  }

  /** The gate after the calls, one after the other. */
  function Run(p: Params, strategyFn: StrategyFn, g: Gate, calls: seq<Call>): Gate
    decreases |calls|
  {
    if calls == [] then g else Run(p, strategyFn, Step(p, strategyFn, g, calls[0]), calls[1..])
  }

  /** The gate `NewBreaker` leaves behind. */
  function Initial(p: Params, now: int): Gate {
    NewWindow(p, Gate(StateClosed, 0, Empty), now)
  }

  /**
   * Between calls, a HalfOpen window has seen only successes, and fewer of them
   * than the probe budget.
   */
  predicate ProbeInvariant(p: Params, g: Gate) {
    g.state == StateHalfOpen ==>
      g.metric.countAll == g.metric.continuousSuccess && g.metric.countAll < p.halfOpenMaxCall
  }

  lemma InitialInvariants(p: Params, now: int)
    ensures ProbeInvariant(p, Initial(p, now))
    ensures Consistent(Initial(p, now).metric)
    ensures Initial(p, now).state == StateClosed
  {
  }

  lemma StepKeepsProbeInvariant(p: Params, strategyFn: StrategyFn, g: Gate, c: Call)
    requires ProbeInvariant(p, g)
    ensures ProbeInvariant(p, Step(p, strategyFn, g, c))
  {
  }

  lemma {:induction false} RunKeepsProbeInvariant(p: Params, strategyFn: StrategyFn, g: Gate, calls: seq<Call>)
    requires ProbeInvariant(p, g)
    ensures ProbeInvariant(p, Run(p, strategyFn, g, calls))
    decreases |calls|
  {
    if calls != [] {
      StepKeepsProbeInvariant(p, strategyFn, g, calls[0]);
      RunKeepsProbeInvariant(p, strategyFn, Step(p, strategyFn, g, calls[0]), calls[1..]);
    }
  }

  /**
   * With a positive budget the probe invariant survives each locked step on its
   * own (an admission, or the bookkeeping of any outcome at any time), so it holds
   * however admissions and bookkeeping of overlapping calls interleave.
   */
  lemma LockedStepsKeepProbeInvariant(p: Params, strategyFn: StrategyFn, g: Gate, now: int, success: bool)
    requires p.halfOpenMaxCall > 0
    requires ProbeInvariant(p, g)
    ensures ProbeInvariant(p, BeforeCall(p, g, now).gate)
    ensures ProbeInvariant(p, AfterCall(p, strategyFn, g, success, now))
  {
  }

  /** In a sequential run from construction, a HalfOpen breaker never holds more calls than its budget. */
  lemma ProbeCap(p: Params, strategyFn: StrategyFn, now: int, calls: seq<Call>)
    ensures var g := Run(p, strategyFn, Initial(p, now), calls);
            g.state == StateHalfOpen ==> g.metric.countAll <= p.halfOpenMaxCall
  {
    InitialInvariants(p, now);
    RunKeepsProbeInvariant(p, strategyFn, Initial(p, now), calls);
  }

  /**
   * So, sequentially, the budget check of `beforeCall` never rejects: a HalfOpen
   * breaker closes on the success that would use up its budget.
   */
  lemma HalfOpenRejectionUnreachable(p: Params, g: Gate, now: int)
    requires ProbeInvariant(p, g)
    ensures BeforeCall(p, g, now).err != Some(ErrStateHalfOpen)
  {
  }

  lemma StepKeepsConsistent(p: Params, strategyFn: StrategyFn, g: Gate, c: Call)
    requires Consistent(g.metric) && Room(g.metric)
    ensures Consistent(Step(p, strategyFn, g, c).metric)
    ensures Step(p, strategyFn, g, c).metric.countAll <= g.metric.countAll + 1
  {
  }

  /** The counter relations hold after every call of a run in which no counter wraps. */
  lemma {:induction false} RunKeepsConsistent(p: Params, strategyFn: StrategyFn, g: Gate, calls: seq<Call>)
    requires Consistent(g.metric)
    requires g.metric.countAll + |calls| < U64Limit
    ensures Consistent(Run(p, strategyFn, g, calls).metric)
    ensures Run(p, strategyFn, g, calls).metric.countAll <= g.metric.countAll + |calls|
    decreases |calls|
  {
    if calls != [] {
      StepKeepsConsistent(p, strategyFn, g, calls[0]);
      RunKeepsConsistent(p, strategyFn, Step(p, strategyFn, g, calls[0]), calls[1..]);
    }
  }

  /** While the cooldown lasts, an Open breaker rejects every call and stays exactly as it is. */
  lemma {:induction false} CoolingDownRejectsAll(p: Params, strategyFn: StrategyFn, g: Gate, calls: seq<Call>)
    requires g.state == StateOpen
    requires forall i :: 0 <= i < |calls| ==> calls[i].before <= g.openTime + p.coolDownTime
    ensures Run(p, strategyFn, g, calls) == g
    decreases |calls|
  {
    if calls != [] {
      assert Step(p, strategyFn, g, calls[0]) == g;
      assert forall i :: 0 <= i < |calls| - 1 ==> calls[1..][i] == calls[i + 1];
      CoolingDownRejectsAll(p, strategyFn, g, calls[1..]);
    }
  }

  /** Every call returns normally with a nil error. */
  predicate AllSucceed(calls: seq<Call>) {
    forall i :: 0 <= i < |calls| ==> calls[i].outcome == Returned(None)
  }

  /**
   * A HalfOpen breaker that has seen k successes closes, with a fresh window,
   * after exactly budget - k more successful calls: it is still HalfOpen before
   * each of them.
   */
  lemma {:induction false} ProbesClose(p: Params, strategyFn: StrategyFn, g: Gate, calls: seq<Call>)
    requires g.state == StateHalfOpen
    requires g.metric.countAll == g.metric.continuousSuccess < p.halfOpenMaxCall
    requires |calls| == p.halfOpenMaxCall - g.metric.countAll
    requires AllSucceed(calls)
    ensures Run(p, strategyFn, g, calls).state == StateClosed
    ensures Zeroed(Run(p, strategyFn, g, calls).metric)
    ensures forall k :: 0 <= k < |calls| ==> Run(p, strategyFn, g, calls[..k]).state == StateHalfOpen
    decreases |calls|
  {
    var g' := Step(p, strategyFn, g, calls[0]);
    assert calls[0].outcome == Returned(None);
    assert g' == OnSuccess(p, g, calls[0].after);
    assert calls[..0] == [];
    if |calls| == 1 {
      assert calls[1..] == [];
    } else {
      assert forall i :: 0 <= i < |calls| - 1 ==> calls[1..][i] == calls[i + 1];
      ProbesClose(p, strategyFn, g', calls[1..]);
      forall k | 1 <= k < |calls|
        ensures Run(p, strategyFn, g, calls[..k]).state == StateHalfOpen
      {
        assert calls[..k][0] == calls[0];
        assert calls[..k][1..] == calls[1..][..k - 1];
      }
    }
  }

  /**
   * A HalfOpen breaker whose probe fails, or panics, reopens at the time of the
   * bookkeeping, and the next call rejects until the cooldown from then is over.
   */
  lemma FailedProbeReopens(p: Params, strategyFn: StrategyFn, g: Gate, c: Call, next: int)
    requires g.state == StateHalfOpen && g.metric.countAll < p.halfOpenMaxCall
    requires c.outcome != Returned(None)
    requires next <= c.after + p.coolDownTime
    ensures var g' := Step(p, strategyFn, g, c);
            g'.state == StateOpen && g'.openTime == c.after && Zeroed(g'.metric) &&
            BeforeCall(p, g', next) == Admission(g', Some(ErrStateOpen))
  {
  }
}
