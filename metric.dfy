/**
 * The window counters of the breaker (metric.go). `Snapshot` is the record as a
 * value (what the breaker hands to its strategy function); `Metric` is the record
 * the breaker owns and updates in place. The pure functions on `Snapshot` state
 * what each in-place update does.
 */
module Metrics {
  /** Width of Go's uint64. */
  const U64Limit: int := 0x1_0000_0000_0000_0000

  type u64 = x: int | 0 <= x < U64Limit

  /** Go's `x++` on a uint64: one more, wrapping to 0 past the largest value. */
  function Inc(x: u64): u64 {
    (x + 1) % U64Limit
  }

  datatype Snapshot = Snapshot(
    windowBatch: u64,
    windowStartTime: int,
    countAll: u64,
    countSuccess: u64,
    countFail: u64,
    continuousSuccess: u64,
    continuousFail: u64)

  /** The zero value of the record. */
  const Empty: Snapshot := Snapshot(0, 0, 0, 0, 0, 0, 0)

  /** All five counters are zero. */
  predicate Zeroed(m: Snapshot) {
    m.countAll == 0 && m.countSuccess == 0 && m.countFail == 0 &&
    m.continuousSuccess == 0 && m.continuousFail == 0
  }

  /** `NewWindowBatch`: the next window identifier; nothing else moves. */
  function NextBatch(m: Snapshot): (r: Snapshot)
    ensures m.windowBatch + 1 < U64Limit ==> r.windowBatch == m.windowBatch + 1
    ensures m.windowBatch == U64Limit - 1 ==> r.windowBatch == 0
    ensures r.windowBatch != m.windowBatch
    ensures r == m.(windowBatch := r.windowBatch)
  {
    m.(windowBatch := Inc(m.windowBatch))
  }

  /** `onSuccess`: one more call and one more success; note that it clears the failure COUNT, not the failure streak. */
  function Succeeded(m: Snapshot): (r: Snapshot)
    ensures m.countAll + 1 < U64Limit ==> r.countAll == m.countAll + 1
    ensures m.countAll == U64Limit - 1 ==> r.countAll == 0
    ensures m.countSuccess + 1 < U64Limit ==> r.countSuccess == m.countSuccess + 1
    ensures m.countSuccess == U64Limit - 1 ==> r.countSuccess == 0
    ensures m.continuousSuccess + 1 < U64Limit ==> r.continuousSuccess == m.continuousSuccess + 1
    ensures m.continuousSuccess == U64Limit - 1 ==> r.continuousSuccess == 0
    ensures r.countFail == 0
    ensures r.continuousFail == m.continuousFail
    ensures r.windowBatch == m.windowBatch && r.windowStartTime == m.windowStartTime
  {
    m.(countAll := Inc(m.countAll), countSuccess := Inc(m.countSuccess),
       continuousSuccess := Inc(m.continuousSuccess), countFail := 0)
  }

  /** `onFail`: one more call, one more failure, a longer failure streak, and the success streak broken. */
  function Failed(m: Snapshot): (r: Snapshot)
    ensures m.countAll + 1 < U64Limit ==> r.countAll == m.countAll + 1
    ensures m.countAll == U64Limit - 1 ==> r.countAll == 0
    ensures m.countFail + 1 < U64Limit ==> r.countFail == m.countFail + 1
    ensures m.countFail == U64Limit - 1 ==> r.countFail == 0
    ensures m.continuousFail + 1 < U64Limit ==> r.continuousFail == m.continuousFail + 1
    ensures m.continuousFail == U64Limit - 1 ==> r.continuousFail == 0
    ensures r.continuousSuccess == 0
    ensures r.countSuccess == m.countSuccess
    ensures r.windowBatch == m.windowBatch && r.windowStartTime == m.windowStartTime
  {
    m.(countAll := Inc(m.countAll), countFail := Inc(m.countFail),
       continuousFail := Inc(m.continuousFail), continuousSuccess := 0)
  }

  /** `OnReset`: the five counters back to zero; the batch and the window start stay. */
  function Cleared(m: Snapshot): (r: Snapshot)
    ensures Zeroed(r)
    ensures r.windowBatch == m.windowBatch && r.windowStartTime == m.windowStartTime
  {
    m.(countAll := 0, countSuccess := 0, countFail := 0, continuousSuccess := 0, continuousFail := 0)
  }

  lemma ClearedIdempotent(m: Snapshot)
    ensures Cleared(Cleared(m)) == Cleared(m)
  {
  }

  /**
   * The relations between the counters that hold in every window, given the code
   * as written. Successes and failures do not add up to the total, because a
   * success clears the failure count.
   */
  predicate Consistent(m: Snapshot) {
    m.countSuccess + m.countFail <= m.countAll &&
    m.continuousSuccess <= m.countSuccess &&
    m.continuousFail + m.countSuccess == m.countAll
  }

  /** The total cannot wrap on the next increment (with `Consistent`, neither can any other counter). */
  predicate Room(m: Snapshot) {
    m.countAll + 1 < U64Limit
  }

  lemma ClearedConsistent(m: Snapshot)
    ensures Consistent(Cleared(m))
  {
  }

  lemma SucceededConsistent(m: Snapshot)
    requires Consistent(m) && Room(m)
    ensures Consistent(Succeeded(m))
    ensures Succeeded(m).countAll == m.countAll + 1
  {
  }

  lemma FailedConsistent(m: Snapshot)
    requires Consistent(m) && Room(m)
    ensures Consistent(Failed(m))
    ensures Failed(m).countAll == m.countAll + 1
  {
  }

  /**
   * The equality `countSuccess + countFail == countAll` is not kept: one failure
   * followed by one success, from an empty window, leaves two calls, one success
   * and no failures; and the failure streak survives the success.
   */
  lemma SuccessBreaksOutcomeSum()
    ensures var m := Failed(Empty);
            m.countSuccess + m.countFail == m.countAll &&
            Succeeded(m).countSuccess + Succeeded(m).countFail != Succeeded(m).countAll &&
            Succeeded(m).continuousFail == 1
  {
  }

  /** The record the breaker owns and updates in place. */
  class Metric {
    var windowBatch: u64
    var windowStartTime: int
    var countAll: u64
    var countSuccess: u64
    var countFail: u64
    var continuousSuccess: u64
    var continuousFail: u64

    function Value(): Snapshot
      reads this
    {
      Snapshot(windowBatch, windowStartTime, countAll, countSuccess, countFail,
               continuousSuccess, continuousFail)
    }

    /** A zero-valued record, as a Go struct starts. */
    constructor ()
      ensures Value() == Empty
    {
      windowBatch, windowStartTime := 0, 0;
      countAll, countSuccess, countFail := 0, 0, 0;
      continuousSuccess, continuousFail := 0, 0;
    }

    method NewWindowBatch()
      modifies this
      ensures Value() == NextBatch(old(Value()))
    {
      windowBatch := Inc(windowBatch);
    }

    method OnSuccess()
      modifies this
      ensures Value() == Succeeded(old(Value()))
    {
      countAll := Inc(countAll);
      countSuccess := Inc(countSuccess);
      continuousSuccess := Inc(continuousSuccess);
      countFail := 0;
    }

    method OnFail()
      modifies this
      ensures Value() == Failed(old(Value()))
    {
      countAll := Inc(countAll);
      countFail := Inc(countFail);
      continuousFail := Inc(continuousFail);
      continuousSuccess := 0;
    }

    method OnReset()
      modifies this
      ensures Value() == Cleared(old(Value()))
    {
      countAll := 0;
      countSuccess := 0;
      countFail := 0;
      continuousSuccess := 0;
      continuousFail := 0;
    }
  }
}
