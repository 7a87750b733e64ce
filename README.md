# A verified model of an in-process circuit breaker

This project models the Go package `breaker`. A `Breaker` wraps a call to a
function. It counts the outcomes of the calls in the current window. Depending
on its state, it lets calls through (Closed), rejects all of them (Open), or
lets through a limited number of probe calls (HalfOpen).

The model has one Dafny module per source file. `breaker.go` is split into the
pure transition rules and the object that runs them:

- `States` (state.go): the state values 0, 1 and 2, their names, the `%d`
  rendering of any other value, and the two rejection errors.
- `Metrics` (metric.go): the counter record. `Snapshot` is the record as a value.
  This is what the strategy function receives, since Go passes the struct by
  value. `NextBatch`, `Succeeded`, `Failed` and `Cleared` state what each update
  does. The class `Metric` holds the record that the breaker updates in place.
  Each of its methods is proved to follow the matching function.
- `Options` (option.go): the strategy normalisation and the single-field setters.
- `Gates` (breaker.go): `newWindow`, `changeState`, `beforeCall`, `onSuccess`,
  `onFail`, `afterCall` and `Do` as functions on the mutable part of a breaker
  (state, open time, metric).
- `Breakers` (breaker.go): the class `Breaker` with the source's fields. Its
  constructor runs the options. Its methods change `state`, `openTime` and
  `metric` in place, and each is proved equal to the function of the same name in
  `Gates`.
- `Runs` (breaker.go): sequential runs of guarded calls, and the facts that hold
  between calls.

Modelling choices:

- Counters are Go `uint64` values. They are shown as the subset type `u64`.
  Every `++` wraps to 0 past 2^64 - 1 (`Metrics.Inc`). The lemmas about counter
  relations assume that no counter wraps.
- Time is an integer number of nanoseconds. The zero `time.Time` is 0, `Before`
  is `<`, and `Add` is `+`. Each `time.Now()` becomes a parameter. `Do` takes two
  clock readings: `before` for admission and `after` for the bookkeeping.
  `newWindow` uses its own `t` wherever the source calls `time.Now()` again.
- The wrapped function is represented by its outcome: it returns nil, returns an
  error, or panics. `Do` reports whether the function ran.
- The strategy function is an arbitrary total predicate on `Snapshot`. The
  bodies of `FailStrategyFn`, `ContinuousFailStrategyFn` and `FailRateStrategyFn`
  are not part of this model. They are passed in as a `StrategyFns` value.
- The numeric values of the `Strategy*` selector constants are not part of this
  model either. The selector is the datatype `Selector`, where every
  unrecognised value is `UnknownStrategy(code)`. The panic for an unknown selector
  is the `Failure` result of `WithStrategyOption`.

The model follows the code as written, including these departures from the usual
circuit-breaker behaviour:

- A success clears `CountFail`, not `ContinuousFail` (metric.go:25). So
  `CountSuccess + CountFail == CountAll` does not hold, and a success never ends
  a failure streak. What does hold is `Metrics.Consistent`:
  `CountSuccess + CountFail <= CountAll`,
  `ContinuousSuccess <= CountSuccess` and
  `ContinuousFail + CountSuccess == CountAll`.
  `Metrics.SuccessBreaksOutcomeSum` shows an input that breaks the equality.
- `breaker.go` reads `TotalRequest`, `TotalSuccess` and `TotalFail`, but the
  struct declares `CountAll`, `CountSuccess` and `CountFail`. The model reads
  `countAll` in the HalfOpen budget check (breaker.go:120).
- In a sequential run, the HalfOpen budget check of `beforeCall` never rejects.
  A HalfOpen window only ever records successes, and it closes on the success
  that reaches the budget (`Runs.HalfOpenRejectionUnreachable`). With a positive
  budget this holds between any two locked steps, not only between whole calls
  (`Runs.LockedStepsKeepProbeInvariant`). So `ErrStateHalfOpen` needs a budget of
  0 together with overlapping calls, or the shared default breaker being
  reconfigured by a later `NewBreaker`.

## Model

| member | source | states |
|---|---|---|
| `States.StateString` | state.go:23-33 | the three states are named "closed", "open" and "half-open"; any other value gives "unknown state: " followed by its canonical decimal (optional '-', no leading zero, no "-0"), which reads back as that value |
| `States.DecimalStringCanonical` | state.go:32 | the `%d` rendering of every integer is canonical: optional '-', at least one digit, no leading zero, never "-0" |
| `States.DecimalRoundTrip` | state.go:32 | the `%d` rendering of every integer reads back as that integer |
| `States.DecimalStringInjective` | state.go:32 | distinct integers have distinct renderings |
| `States.StateStringInjective` | state.go:23-33 | different state values never share a name |
| `States.RejectionsDistinct` | state.go:19-20 | `ErrStateOpen` and `ErrStateHalfOpen` are different errors with different messages |
| `Metrics.NextBatch` | metric.go:16-18 | the batch goes up by one, or wraps from 2^64 - 1 to 0; no other field moves |
| `Metrics.Succeeded` | metric.go:21-26 | total, successes and success streak each go up by one, or wrap from 2^64 - 1 to 0; the failure count is cleared; the failure streak, batch and window start are unchanged |
| `Metrics.Failed` | metric.go:29-34 | total, failures and failure streak each go up by one, or wrap from 2^64 - 1 to 0; the success streak is cleared; successes, batch and window start are unchanged |
| `Metrics.Cleared` | metric.go:37-43 | all five counters are zero; batch and window start are unchanged |
| `Metrics.ClearedIdempotent` | metric.go:37-43 | resetting twice is the same as resetting once |
| `Metrics.ClearedConsistent` | metric.go:37-43 | a reset window satisfies the counter relations |
| `Metrics.SucceededConsistent` | metric.go:21-26 | a success keeps the counter relations when the total cannot wrap |
| `Metrics.FailedConsistent` | metric.go:29-34 | a failure keeps the counter relations when the total cannot wrap |
| `Metrics.SuccessBreaksOutcomeSum` | metric.go:25 | after one failure and one success, successes plus failures is less than the total, and the failure streak is still 1 |
| `Metrics.Metric.constructor` | metric.go:5-13 | a new record is all zero |
| `Metrics.Metric.NewWindowBatch` | metric.go:16-18 | the record becomes `NextBatch` of its old value |
| `Metrics.Metric.OnSuccess` | metric.go:21-26 | the record becomes `Succeeded` of its old value |
| `Metrics.Metric.OnFail` | metric.go:29-34 | the record becomes `Failed` of its old value |
| `Metrics.Metric.OnReset` | metric.go:37-43 | the record becomes `Cleared` of its old value |
| `Options.NormaliseStrategy` | option.go:44-71 | a zero fail or continuous-fail threshold becomes 10, and a non-zero one is kept; a fail rate <= 0 or a zero minimum call count replaces both with 0.6 and 10; both are kept when both are positive; any other selector is the fatal "unknown breaker strategy" |
| `Options.NormalisedPolicyPositive` | option.go:44-67 | every normalised policy has positive parameters |
| `Options.NormaliseIdempotent` | option.go:44-67 | normalising an already normalised option gives the same policy |
| `Options.WithStrategyOption` | option.go:44-71 | fails exactly for an unknown selector; otherwise gives the setter of the builder's function for the normalised policy |
| `Options.ApplyOpt` | option.go:15-41 | each setter assigns exactly the one field it names |
| `Options.ApplyAllSnoc` | breaker.go:43-45 | running options in order is a left fold: one more option runs after all the earlier ones |
| `Gates.NewWindow` | breaker.go:144-160 | next batch, all counters zero, window start at t + interval (Closed), t + cooldown (Open) or t (HalfOpen); state and open time unchanged |
| `Gates.ChangeState` | breaker.go:186-195 | a move to the current state is a no-op; otherwise it sets the state, opens a new window for the new state, and sets the open time only when entering Open |
| `Gates.BeforeCall` | breaker.go:104-130 | Open rejects with `ErrStateOpen` and changes nothing until strictly after open time + cooldown, then admits into a fresh HalfOpen window; HalfOpen rejects with `ErrStateHalfOpen` exactly when total >= budget and never changes anything; Closed always admits and rolls the window (batch one more, counters zero, start at now + interval) exactly when its start is non-zero and before now |
| `Gates.OnSuccess` | breaker.go:163-168 | records the success; HalfOpen closes, with a fresh window, exactly when the new success streak reaches the budget; no other state changes |
| `Gates.OnFail` | breaker.go:171-183 | records the failure; HalfOpen always opens at t; Closed opens at t exactly when the strategy holds on the updated counters; on opening, the batch is one more, the counters are zero and the window start is t + cooldown; otherwise only the counters change |
| `Gates.AfterCall` | breaker.go:133-141 | either the outcome is recorded (success or failure counters) and state and open time stay, or the breaker moves HalfOpen to Closed on a success, or Closed/HalfOpen to Open at t on a failure, into a fresh window |
| `Gates.Do` | breaker.go:54-101 | a rejection is returned without running the function or touching the breaker; a normal return is recorded as success exactly when its error is nil and is passed through; a panic is recorded as a failure and the call returns nil |
| `Breakers.Breaker.constructor` | breaker.go:32-51 | the defaults, then the options in order, then "breakerName" if the name is still empty, then the first window starting at now in state Closed |
| `Breakers.Breaker.Apply` | option.go:15-41 | running one option changes the configuration as `ApplyOpt` says |
| `Breakers.Breaker.NewWindow` | breaker.go:144-160 | the state in place becomes `Gates.NewWindow` of the old one |
| `Breakers.Breaker.ChangeState` | breaker.go:186-195 | the state in place becomes `Gates.ChangeState` of the old one |
| `Breakers.Breaker.BeforeCall` | breaker.go:104-130 | the new state and the returned error are those of `Gates.BeforeCall` |
| `Breakers.Breaker.OnSuccess` | breaker.go:163-168 | the state in place becomes `Gates.OnSuccess` of the old one |
| `Breakers.Breaker.OnFail` | breaker.go:171-183 | the state in place becomes `Gates.OnFail` of the old one, with the breaker's own strategy |
| `Breakers.Breaker.AfterCall` | breaker.go:133-141 | a success is recorded by the success rule and a failure by the failure rule |
| `Breakers.Breaker.Do` | breaker.go:54-101 | the new state, the result and whether the function ran are those of `Gates.Do` |
| `Runs.InitialInvariants` | breaker.go:41-51 | a new breaker is Closed and satisfies the probe and counter invariants |
| `Runs.StepKeepsProbeInvariant` | breaker.go:104-183 | one guarded call keeps "HalfOpen implies total == success streak < budget" |
| `Runs.RunKeepsProbeInvariant` | breaker.go:104-183 | every sequential run keeps that invariant |
| `Runs.ProbeCap` | breaker.go:13 | in a sequential run from construction, a HalfOpen breaker never holds more calls than its budget |
| `Runs.LockedStepsKeepProbeInvariant` | breaker.go:104-183 | with a positive budget, each admission and each bookkeeping step on its own keeps "HalfOpen implies total == success streak < budget" |
| `Runs.HalfOpenRejectionUnreachable` | breaker.go:118-123 | between sequential calls, the HalfOpen budget check never rejects |
| `Runs.StepKeepsConsistent` | metric.go:21-43 | one guarded call keeps the counter relations and adds at most one to the total |
| `Runs.RunKeepsConsistent` | metric.go:21-43 | the counter relations hold after every run in which the total cannot wrap |
| `Runs.CoolingDownRejectsAll` | breaker.go:109-117 | an Open breaker that sees only calls before the end of its cooldown stays exactly as it is |
| `Runs.ProbesClose` | breaker.go:163-168 | a HalfOpen breaker with k successes closes, with zero counters, after budget - k more successful calls, and is still HalfOpen before each of them |
| `Runs.FailedProbeReopens` | breaker.go:171-183 | a failed or panicking probe reopens the breaker at the bookkeeping time, and the next call rejects with `ErrStateOpen` until that cooldown is over |

## Left out

- Logging (`log.Printf`, `log.Println`) and `TimeFormat` are left out: they do not change any state.
- The `sync.RWMutex` and concurrent callers are left out. Only sequential calls are modelled; the lock only brackets the bookkeeping.
- The clock is left out: every `time.Now()` is an integer parameter. `time.Time` arithmetic overflow and monotonic-clock readings are not modelled.
- The wrapped function is left out, represented only by its outcome. A `panic(nil)`, which older Go versions do not recover as a fault, is not modelled.
- The bodies of the three strategy builders and the values of the `Strategy*` constants are not part of this model, because no shown file declares them.
- Float semantics of `FailRate` are left out. It is a `real`, compared only against 0, so NaN is not modelled.
- Sharing of the package-level default breaker is left out: `NewBreaker` returns the same object every time. The constructor models one construction from the default values into a fresh object.
- breaker_test.go is left out: it checks nothing and calls a method the package does not have.
