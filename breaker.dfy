/**
 * The breaker object (breaker.go): its fields, its construction, and the call
 * bookkeeping that updates its state, open time and metric in place. Each method
 * is proved to do what the matching function of `Gates` describes.
 */
module Breakers {
  import opened Wrappers
  import opened States
  import opened Metrics
  import opened Options
  import Gates

  /** One second, in nanoseconds. */
  const DefaultWindowInterval: int := 1_000_000_000
  const DefaultCoolDownTime: int := 1_000_000_000
  const DefaultHalfOpenMaxCall: u64 := 5
  const DefaultName: string := "breakerName"

  /** The configurable fields of the package's default breaker, before any option runs. */
  function Defaults(fns: StrategyFns): Settings {
    Settings("", DefaultWindowInterval, DefaultCoolDownTime, DefaultHalfOpenMaxCall,
             fns.fail(DefaultFailThreshold))
  }

  class Breaker {
    var name: string
    var state: State
    var halfOpenMaxCall: u64
    var openTime: int
    var windowInterval: int
    var coolDownTime: int
    /** The counter record, held by value in the source: it is never replaced. */
    const metric: Metric
    var strategyFn: StrategyFn

    function CurrentSettings(): Settings
      reads this
    {
      Settings(name, windowInterval, coolDownTime, halfOpenMaxCall, strategyFn)
    }

    function Config(): Gates.Params
      reads this
    {
      Gates.Params(windowInterval, coolDownTime, halfOpenMaxCall)
    }

    function Current(): Gates.Gate
      reads this, metric
    {
      Gates.Gate(state, openTime, metric.Value())
    }

    /**
     * `NewBreaker`: start from the defaults, run the options in order, name the
     * breaker "breakerName" if no option named it, and open the first window at now.
     */
    constructor (opts: seq<Opt>, fns: StrategyFns, now: int)
      ensures var s := ApplyAll(Defaults(fns), opts);
              windowInterval == s.windowInterval && coolDownTime == s.coolDownTime &&
              halfOpenMaxCall == s.halfOpenMaxCall && strategyFn == s.strategyFn &&
              name == (if s.name == "" then DefaultName else s.name)
      ensures Current() == Gates.NewWindow(Config(), Gates.Gate(StateClosed, 0, Empty), now)
      ensures fresh(metric)
    {
      name := "";
      state := StateClosed;
      halfOpenMaxCall := DefaultHalfOpenMaxCall;
      openTime := 0;
      windowInterval := DefaultWindowInterval;
      coolDownTime := DefaultCoolDownTime;
      metric := new Metric();
      strategyFn := fns.fail(DefaultFailThreshold);
      new;
      for i := 0 to |opts|
        invariant CurrentSettings() == ApplyAll(Defaults(fns), opts[..i])
        invariant Current() == Gates.Gate(StateClosed, 0, Empty)
      {
        assert opts[..i + 1] == opts[..i] + [opts[i]];
        ApplyAllSnoc(Defaults(fns), opts[..i], opts[i]);
        Apply(opts[i]);
      }
      assert opts[..|opts|] == opts;
      if name == "" {
        name := DefaultName;
      }
      NewWindow(now);
    }

    /** Runs one option: sets the single field it names. */
    method Apply(o: Opt)
      modifies this`name, this`windowInterval, this`coolDownTime, this`halfOpenMaxCall, this`strategyFn
      ensures CurrentSettings() == ApplyOpt(old(CurrentSettings()), o)
    {
      match o
      case WithName(n) => name := n;
      case WithWindowInterval(d) => windowInterval := d;
      case WithCoolDownTime(d) => coolDownTime := d;
      case WithHalfOpenMaxCall(n) => halfOpenMaxCall := n;
      case WithStrategyFn(f) => strategyFn := f;
    }

    /** `newWindow`. */
    method NewWindow(t: int)
      modifies metric
      ensures Current() == Gates.NewWindow(Config(), old(Current()), t)
    {
      metric.NewWindowBatch();
      metric.OnReset();
      if state == StateClosed {
        if windowInterval == 0 {
          metric.windowStartTime := t;
        } else {
          metric.windowStartTime := t + windowInterval;
        }
      } else if state == StateOpen {
        metric.windowStartTime := t + coolDownTime;
      } else {
        metric.windowStartTime := t;
      }
    }

    /** `changeState`. */
    method ChangeState(s: State, t: int)
      modifies this`state, this`openTime, metric
      ensures Current() == Gates.ChangeState(Config(), old(Current()), s, t)
    {
      if state == s {
        return;
      }
      state := s;
      NewWindow(t);
      if s == StateOpen {
        openTime := t;
      }
    }

    /** `beforeCall`: None admits the call. */
    method BeforeCall(now: int) returns (err: Option<Error>)
      modifies this`state, this`openTime, metric
      ensures Gates.Admission(Current(), err) == Gates.BeforeCall(Config(), old(Current()), now)
    {
      if state == StateOpen {
        if openTime + coolDownTime < now {
          ChangeState(StateHalfOpen, now);
          return None;
        }
        return Some(ErrStateOpen);
      } else if state == StateHalfOpen {
        if metric.countAll >= halfOpenMaxCall {
          return Some(ErrStateHalfOpen);
        }
      } else if metric.windowStartTime != 0 && metric.windowStartTime < now {
        NewWindow(now);
      }
      return None;
    }

    /** `onSuccess`. */
    method OnSuccess(t: int)
      modifies this`state, this`openTime, metric
      ensures Current() == Gates.OnSuccess(Config(), old(Current()), t)
    {
      metric.OnSuccess();
      if state == StateHalfOpen && metric.continuousSuccess >= halfOpenMaxCall {
        ChangeState(StateClosed, t);
      }
    }

    /** `onFail`. */
    method OnFail(t: int)
      modifies this`state, this`openTime, metric
      ensures Current() == Gates.OnFail(Config(), strategyFn, old(Current()), t)
    {
      metric.OnFail();
      if state == StateClosed {
        if strategyFn(metric.Value()) {
          ChangeState(StateOpen, t);
        }
      } else if state == StateHalfOpen {
        ChangeState(StateOpen, t);
      }
    }

    /** `afterCall`. */
    method AfterCall(success: bool, t: int)
      modifies this`state, this`openTime, metric
      ensures Current() == Gates.AfterCall(Config(), strategyFn, old(Current()), success, t)
    {
      if success {
        OnSuccess(t);
      } else {
        OnFail(t);
      }
    }

    /**
     * `Do`: the wrapped function is represented by its outcome; `before` and `after`
     * are the clock readings of the admission and of the bookkeeping.
     */
    method Do(before: int, outcome: Gates.Outcome, after: int) returns (err: Option<Error>, invoked: bool)
      modifies this`state, this`openTime, metric
      ensures Gates.CallResult(Current(), err, invoked) ==
              Gates.Do(Config(), strategyFn, old(Current()), before, outcome, after)
    {
      var rejection := BeforeCall(before);
      if rejection.Some? {
        return rejection, false;
      }
      invoked := true;
      match outcome
      case Panicked =>
        AfterCall(false, after);
        err := None;
      case Returned(e) =>
        AfterCall(e.None?, after);
        err := e;
    }
  }
}
