/**
 * Construction options of the breaker (option.go): the single-field setters and
 * the normalisation of a strategy choice into a failure policy.
 */
module Options {
  import opened Wrappers
  import opened Metrics

  /** Defaults the strategy normalisation substitutes (declared in breaker.go). */
  const DefaultFailThreshold: u64 := 10
  const DefaultContinuousFailThreshold: u64 := 10
  const DefaultFailRate: real := 0.6
  const DefaultMinCall: u64 := 10

  const UnknownStrategyMessage: string := "unknown breaker strategy"

  /** A failure predicate over the current window's counters. */
  type StrategyFn = Snapshot -> bool

  /**
   * `StrategyOption.Strategy`. The numeric values of the three named selectors are
   * declared outside this model, so every other value is `UnknownStrategy`.
   */
  datatype Selector = StrategyFail | StrategyContinuousFail | StrategyFailRate | UnknownStrategy(code: int)

  datatype StrategyOption = StrategyOption(
    strategy: Selector,
    failThreshold: u64,
    continuousFailThreshold: u64,
    failRate: real,
    minCall: u64)

  /** The policy a strategy option settles on, with its parameters. */
  datatype Policy =
    | FailPolicy(threshold: u64)
    | ContinuousFailPolicy(threshold: u64)
    | FailRatePolicy(rate: real, minCall: u64)

  /** The switch of `WithStrategyOption`: substitute defaults, reject an unknown selector. */
  function NormaliseStrategy(o: StrategyOption): (r: Result<Policy, string>)
    ensures o.strategy.UnknownStrategy? <==> r == Failure(UnknownStrategyMessage)
    ensures o.strategy == StrategyFail ==>
              r == Success(FailPolicy(if o.failThreshold == 0 then DefaultFailThreshold else o.failThreshold))
    ensures o.strategy == StrategyContinuousFail ==>
              r == Success(ContinuousFailPolicy(
                     if o.continuousFailThreshold == 0 then DefaultContinuousFailThreshold
                     else o.continuousFailThreshold))
    ensures o.strategy == StrategyFailRate && (o.failRate <= 0.0 || o.minCall == 0) ==>
              r == Success(FailRatePolicy(DefaultFailRate, DefaultMinCall))
    ensures o.strategy == StrategyFailRate && o.failRate > 0.0 && o.minCall > 0 ==>
              r == Success(FailRatePolicy(o.failRate, o.minCall))
  {
    match o.strategy
    case StrategyFail =>
      var t := if o.failThreshold <= 0 then DefaultFailThreshold else o.failThreshold;
      Success(FailPolicy(t))
    case StrategyContinuousFail =>
      var t := if o.continuousFailThreshold <= 0 then DefaultContinuousFailThreshold
               else o.continuousFailThreshold;
      Success(ContinuousFailPolicy(t))
    case StrategyFailRate =>
      if o.failRate <= 0.0 || o.minCall <= 0 then Success(FailRatePolicy(DefaultFailRate, DefaultMinCall))
      else Success(FailRatePolicy(o.failRate, o.minCall))
    case UnknownStrategy(_) => Failure(UnknownStrategyMessage)
  }

  /** Every policy that normalisation produces has positive parameters. */
  lemma NormalisedPolicyPositive(o: StrategyOption)
    requires NormaliseStrategy(o).Success?
    ensures match NormaliseStrategy(o).value
            case FailPolicy(t) => t > 0
            case ContinuousFailPolicy(t) => t > 0
            case FailRatePolicy(rate, minCall) => rate > 0.0 && minCall > 0
  {
  }

  /** Normalising a normalised choice changes nothing. */
  lemma NormaliseIdempotent(o: StrategyOption)
    requires NormaliseStrategy(o).Success?
    ensures var o' := match NormaliseStrategy(o).value
                      case FailPolicy(t) => o.(failThreshold := t)
                      case ContinuousFailPolicy(t) => o.(continuousFailThreshold := t)
                      case FailRatePolicy(rate, minCall) => o.(failRate := rate, minCall := minCall);
            NormaliseStrategy(o') == NormaliseStrategy(o)
  {
  }

  /**
   * The three strategy-function builders (`FailStrategyFn`, `ContinuousFailStrategyFn`,
   * `FailRateStrategyFn`). Their bodies are declared outside this model, so they are
   * supplied by the caller.
   */
  datatype StrategyFns = StrategyFns(
    fail: u64 -> StrategyFn,
    continuousFail: u64 -> StrategyFn,
    failRate: (real, u64) -> StrategyFn)

  function PolicyFn(p: Policy, fns: StrategyFns): StrategyFn {
    match p
    case FailPolicy(t) => fns.fail(t)
    case ContinuousFailPolicy(t) => fns.continuousFail(t)
    case FailRatePolicy(rate, minCall) => fns.failRate(rate, minCall)
  }

  /** An `Option`: a function that sets one field of the breaker under construction. */
  datatype Opt =
    | WithName(name: string)
    | WithWindowInterval(windowInterval: int)
    | WithCoolDownTime(coolDownTime: int)
    | WithHalfOpenMaxCall(halfOpenMaxCall: u64)
    | WithStrategyFn(strategyFn: StrategyFn)

  /** `WithStrategyOption`: the setter for the normalised policy, or the fatal construction error. */
  function WithStrategyOption(o: StrategyOption, fns: StrategyFns): (r: Result<Opt, string>)
    ensures r.Failure? <==> o.strategy.UnknownStrategy?
    ensures r.Failure? ==> r.error == UnknownStrategyMessage
    ensures r.Success? ==>
              (NormaliseStrategy(o).Success? &&
               r.value == WithStrategyFn(PolicyFn(NormaliseStrategy(o).value, fns)))
  {
    match NormaliseStrategy(o)
    case Success(p) => Success(WithStrategyFn(PolicyFn(p, fns)))
    case Failure(e) => Failure(e)
  }

  /** The configurable fields of a breaker. */
  datatype Settings = Settings(
    name: string,
    windowInterval: int,
    coolDownTime: int,
    halfOpenMaxCall: u64,
    strategyFn: StrategyFn)

  /** Running one option: exactly the field it names is set. */
  function ApplyOpt(s: Settings, o: Opt): (r: Settings)
    ensures o.WithName? ==> r == s.(name := o.name)
    ensures o.WithWindowInterval? ==> r == s.(windowInterval := o.windowInterval)
    ensures o.WithCoolDownTime? ==> r == s.(coolDownTime := o.coolDownTime)
    ensures o.WithHalfOpenMaxCall? ==> r == s.(halfOpenMaxCall := o.halfOpenMaxCall)
    ensures o.WithStrategyFn? ==> r == s.(strategyFn := o.strategyFn)
  {
    match o
    case WithName(n) => s.(name := n)
    case WithWindowInterval(d) => s.(windowInterval := d)
    case WithCoolDownTime(d) => s.(coolDownTime := d)
    case WithHalfOpenMaxCall(n) => s.(halfOpenMaxCall := n)
    case WithStrategyFn(f) => s.(strategyFn := f)
  }

  /** Running the options in order. */
  function ApplyAll(s: Settings, opts: seq<Opt>): Settings
    decreases |opts|
  {
    if opts == [] then s else ApplyAll(ApplyOpt(s, opts[0]), opts[1..])
  }

  /** Running one more option after a prefix. */
  lemma {:induction false} ApplyAllSnoc(s: Settings, opts: seq<Opt>, o: Opt)
    ensures ApplyAll(s, opts + [o]) == ApplyOpt(ApplyAll(s, opts), o)
    decreases |opts|
  {
    if opts == [] {
      assert [o][1..] == [];
    } else {
      assert (opts + [o])[1..] == opts[1..] + [o];
      ApplyAllSnoc(ApplyOpt(s, opts[0]), opts[1..], o);
    }
  }
}
