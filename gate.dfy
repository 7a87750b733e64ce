/**
 * The transition rules of the breaker (breaker.go) as functions on values. The
 * methods of `Breakers.Breaker` are proved to follow these functions, and the
 * lemmas in `Runs` reason about sequences of calls through them.
 *
 * Time is an integer count of nanoseconds; the zero time is 0 and `Before` is `<`.
 */
module Gates {
  import opened Wrappers
  import opened States
  import opened Metrics
  import opened Options

  /** The timing parameters and probe budget, fixed after construction. */
  datatype Params = Params(windowInterval: int, coolDownTime: int, halfOpenMaxCall: u64)

  /** The part of a breaker that the call bookkeeping changes. */
  datatype Gate = Gate(state: State, openTime: int, metric: Snapshot)

  /** The gate after admission, and the rejection if there was one. */
  datatype Admission = Admission(gate: Gate, err: Option<Error>)

  /** What the wrapped function did: returned (an error or nil), or panicked. */
  datatype Outcome = Returned(err: Option<Error>) | Panicked

  /** The gate after a guarded call, what the call returns, and whether the wrapped function ran. */
  datatype CallResult = CallResult(gate: Gate, err: Option<Error>, invoked: bool)

  /** The stamp `newWindow` gives a fresh window in state s at time t. */
  function WindowStart(p: Params, s: State, t: int): int {
    if s == StateClosed then (if p.windowInterval == 0 then t else t + p.windowInterval)
    else if s == StateOpen then t + p.coolDownTime
    else t
  }

  /** `newWindow`: the next batch, zero counters, a new start stamp; state and open time stay. */
  function NewWindow(p: Params, g: Gate, t: int): (r: Gate)
    ensures r.state == g.state && r.openTime == g.openTime
    ensures Zeroed(r.metric)
    ensures r.metric.windowBatch == Inc(g.metric.windowBatch) != g.metric.windowBatch
    ensures g.state == StateClosed ==> r.metric.windowStartTime == t + p.windowInterval
    ensures g.state == StateOpen ==> r.metric.windowStartTime == t + p.coolDownTime
    ensures g.state == StateHalfOpen ==> r.metric.windowStartTime == t
  {
    var m := Cleared(NextBatch(g.metric));
    g.(metric := m.(windowStartTime := WindowStart(p, g.state, t)))
  }

  /** `changeState`: a move to another state opens a new window; a move to the same state does nothing. */
  function ChangeState(p: Params, g: Gate, s: State, t: int): (r: Gate)
    ensures s == g.state ==> r == g
    ensures s != g.state ==>
              r.state == s && Zeroed(r.metric) &&
              r.metric.windowBatch == Inc(g.metric.windowBatch) &&
              r.metric.windowStartTime == WindowStart(p, s, t)
    ensures s != g.state && s == StateOpen ==> r.openTime == t && r.metric.windowStartTime == t + p.coolDownTime
    ensures s != StateOpen ==> r.openTime == g.openTime
  {
    if g.state == s then g
    else
      var g' := NewWindow(p, g.(state := s), t);
      if s == StateOpen then g'.(openTime := t) else g'
  }

  /** The Closed-state window has a start stamp that lies before now. */
  predicate WindowExpired(m: Snapshot, now: int) {
    m.windowStartTime != 0 && m.windowStartTime < now
  }

  /** `beforeCall`: decide admission at time now. */
  function BeforeCall(p: Params, g: Gate, now: int): (a: Admission)
    // Open, still cooling down: rejected, nothing changes.
    ensures g.state == StateOpen && now <= g.openTime + p.coolDownTime ==>
              a == Admission(g, Some(ErrStateOpen))
    // Open, cooldown strictly over: admitted as the first probe of a fresh HalfOpen window.
    ensures g.state == StateOpen && g.openTime + p.coolDownTime < now ==>
              a.err == None && a.gate.state == StateHalfOpen && a.gate.openTime == g.openTime &&
              Zeroed(a.gate.metric) && a.gate.metric.windowBatch == Inc(g.metric.windowBatch) &&
              a.gate.metric.windowStartTime == now
    // HalfOpen: rejected exactly when the probe budget is used up; either way nothing changes.
    ensures g.state == StateHalfOpen ==>
              a.gate == g && (a.err == Some(ErrStateHalfOpen) <==> g.metric.countAll >= p.halfOpenMaxCall) &&
              (a.err == None <==> g.metric.countAll < p.halfOpenMaxCall)
    // Closed (and any other value): always admitted; the window rolls exactly when it has expired.
    ensures g.state != StateOpen && g.state != StateHalfOpen ==>
              a.err == None && a.gate.state == g.state && a.gate.openTime == g.openTime &&
              (a.gate.metric.windowBatch != g.metric.windowBatch <==> WindowExpired(g.metric, now)) &&
              (!WindowExpired(g.metric, now) ==> a.gate == g)
    ensures g.state == StateClosed && WindowExpired(g.metric, now) ==>
              Zeroed(a.gate.metric) && a.gate.metric.windowBatch == Inc(g.metric.windowBatch) &&
              a.gate.metric.windowStartTime == now + p.windowInterval
    // A rejection never touches the breaker.
    ensures a.err.Some? ==> a.gate == g
  {
    if g.state == StateOpen then
      if g.openTime + p.coolDownTime < now then Admission(ChangeState(p, g, StateHalfOpen, now), None)
      else Admission(g, Some(ErrStateOpen))
    else if g.state == StateHalfOpen then
      if g.metric.countAll >= p.halfOpenMaxCall then Admission(g, Some(ErrStateHalfOpen))
      else Admission(g, None)
    else if WindowExpired(g.metric, now) then Admission(NewWindow(p, g, now), None)
    else Admission(g, None)
  }

  /** `onSuccess`: count the success; a HalfOpen breaker closes once the success streak reaches the budget. */
  function OnSuccess(p: Params, g: Gate, t: int): (r: Gate)
    ensures g.state != StateHalfOpen ==> r == g.(metric := Succeeded(g.metric))
    ensures g.state == StateHalfOpen ==>
              (r.state == StateClosed <==> Succeeded(g.metric).continuousSuccess >= p.halfOpenMaxCall) &&
              (r.state != StateClosed ==> r == g.(metric := Succeeded(g.metric)))
    ensures g.state == StateHalfOpen && r.state == StateClosed ==>
              r.openTime == g.openTime && Zeroed(r.metric) &&
              r.metric.windowBatch == Inc(g.metric.windowBatch) &&
              r.metric.windowStartTime == t + p.windowInterval
  {
    var g' := g.(metric := Succeeded(g.metric));
    if g'.state == StateHalfOpen && g'.metric.continuousSuccess >= p.halfOpenMaxCall then
      ChangeState(p, g', StateClosed, t)
    else g'
  }

  /** `onFail`: count the failure; a HalfOpen breaker reopens, a Closed one opens when the strategy says so. */
  function OnFail(p: Params, strategyFn: StrategyFn, g: Gate, t: int): (r: Gate)
    ensures g.state == StateHalfOpen ==>
              r.state == StateOpen && r.openTime == t && Zeroed(r.metric) &&
              r.metric.windowBatch == Inc(g.metric.windowBatch) &&
              r.metric.windowStartTime == t + p.coolDownTime
    ensures g.state == StateClosed ==> (r.state == StateOpen <==> strategyFn(Failed(g.metric)))
    ensures g.state == StateClosed && r.state == StateOpen ==>
              r.openTime == t && Zeroed(r.metric) && r.metric.windowBatch == Inc(g.metric.windowBatch) &&
              r.metric.windowStartTime == t + p.coolDownTime
    ensures g.state != StateHalfOpen && !(g.state == StateClosed && strategyFn(Failed(g.metric))) ==>
              r == g.(metric := Failed(g.metric))
  {
    var g' := g.(metric := Failed(g.metric));
    if g.state == StateClosed then
      if strategyFn(g'.metric) then ChangeState(p, g', StateOpen, t) else g'
    else if g.state == StateHalfOpen then ChangeState(p, g', StateOpen, t)
    else g'
  }

  /** `afterCall`: record the outcome of an admitted call. */
  function AfterCall(p: Params, strategyFn: StrategyFn, g: Gate, success: bool, t: int): (r: Gate)
    // Either the outcome is recorded and the state stays ...
    ensures r.state == g.state ==>
              r.openTime == g.openTime && r.metric == (if success then Succeeded(g.metric) else Failed(g.metric))
    // ... or the breaker takes one of the three outcome-driven edges, into a fresh window.
    ensures r.state != g.state ==>
              ((success && g.state == StateHalfOpen && r.state == StateClosed) ||
               (!success && (g.state == StateClosed || g.state == StateHalfOpen) && r.state == StateOpen && r.openTime == t)) &&
              Zeroed(r.metric) && r.metric.windowBatch == Inc(g.metric.windowBatch)
  {
    if success then OnSuccess(p, g, t) else OnFail(p, strategyFn, g, t)
  }

  /**
   * `Do`: admission at time `before`, the wrapped function's outcome, and the
   * bookkeeping at time `after`.
   */
  function Do(p: Params, strategyFn: StrategyFn, g: Gate, before: int, outcome: Outcome, after: int): (r: CallResult)
    // A rejection is returned as it is; the function does not run and the breaker is untouched.
    ensures BeforeCall(p, g, before).err.Some? ==>
              r == CallResult(g, BeforeCall(p, g, before).err, false)
    // A normal return is recorded as success exactly when its error is nil, and is passed through.
    ensures BeforeCall(p, g, before).err.None? && outcome.Returned? ==>
              r.invoked && r.err == outcome.err &&
              r.gate == AfterCall(p, strategyFn, BeforeCall(p, g, before).gate, outcome.err.None?, after)
    // A panic is recorded as a failure and swallowed: the call returns nil.
    ensures BeforeCall(p, g, before).err.None? && outcome.Panicked? ==>
              r.invoked && r.err == None &&
              r.gate == OnFail(p, strategyFn, BeforeCall(p, g, before).gate, after)
  {
    var a := BeforeCall(p, g, before);
    if a.err.Some? then CallResult(a.gate, a.err, false)
    else
      match outcome
      case Returned(e) => CallResult(AfterCall(p, strategyFn, a.gate, e.None?, after), e, true)
      case Panicked => CallResult(AfterCall(p, strategyFn, a.gate, false, after), None, true)
  }
}
