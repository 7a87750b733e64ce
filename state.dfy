/**
 * The state vocabulary of the breaker (state.go): the three states, their
 * textual names, and the two errors a rejected call receives.
 */
module States {
  import opened Wrappers

  /** Go's `type State int`; the named states are the first three values of iota. */
  type State = int

  const StateClosed: State := 0
  const StateOpen: State := 1
  const StateHalfOpen: State := 2

  const UnknownPrefix: string := "unknown state: "

  /** The decimal digit for d. */
  function Digit(d: nat): (c: char)
    requires d < 10
    ensures '0' <= c <= '9'
  {
    "0123456789"[d]
  }

  function DigitValue(c: char): (d: nat)
    requires '0' <= c <= '9'
    ensures d < 10 && Digit(d) == c
  {
    (c as int - '0' as int) as nat
  }

  predicate AllDigits(s: string) {
    forall i :: 0 <= i < |s| ==> '0' <= s[i] <= '9'
  }

  /** Decimal rendering of a natural number, most significant digit first, no leading zeros. */
  function NatString(n: nat): (s: string)
    ensures |s| >= 1 && AllDigits(s)
    ensures s[0] == '0' <==> n == 0
    decreases n
  {
    if n < 10 then [Digit(n)] else NatString(n / 10) + [Digit(n % 10)]
  }

  /** The value of a string of decimal digits (the empty string reads as 0). */
  function NatValue(s: string): nat
    requires AllDigits(s)
  {
    if s == [] then 0 else NatValue(s[..|s| - 1]) * 10 + DigitValue(s[|s| - 1])
  }

  /** What `fmt.Sprintf("%d", n)` produces for a signed integer. */
  function DecimalString(n: int): (s: string)
    ensures |s| >= 1
    ensures s[0] == '-' <==> n < 0
    ensures AllDigits(if n < 0 then s[1..] else s)
  {
    if n < 0 then "-" + NatString(-n) else NatString(n)
  }

  /**
   * The form `%d` prints: an optional '-', then at least one digit, no leading
   * zero, and no "-0".
   */
  predicate CanonicalDecimal(s: string) {
    if |s| >= 1 && s[0] == '-' then |s| >= 2 && AllDigits(s[1..]) && s[1] != '0'
    else |s| >= 1 && AllDigits(s) && (s[0] == '0' ==> |s| == 1)
  }

  /** `%d` never pads with zeros and never prints "-0". */
  lemma DecimalStringCanonical(n: int)
    ensures CanonicalDecimal(DecimalString(n))
  {
    if n < 0 {
      assert DecimalString(n)[1..] == NatString(-n);
    }
  }

  /** Reads a non-empty string of digits. */
  function ParseDigits(t: string): Option<nat> {
    if |t| >= 1 && AllDigits(t) then Some(NatValue(t)) else None
  }

  /** Reads back a rendering made by DecimalString; None for anything that is not one. */
  function ParseDecimal(s: string): Option<int> {
    if |s| >= 2 && s[0] == '-' then
      match ParseDigits(s[1..])
      case Some(v) => Some(-(v as int))
      case None => None
    else
      match ParseDigits(s)
      case Some(v) => Some(v as int)
      case None => None
  }

  lemma {:induction false} NatStringRoundTrip(n: nat)
    ensures NatValue(NatString(n)) == n
    decreases n
  {
    var s := NatString(n);
    if n < 10 {
      assert s[..|s| - 1] == [];
    } else {
      NatStringRoundTrip(n / 10);
      assert s[..|s| - 1] == NatString(n / 10);
    }
  }

  lemma ParseDigitsNatString(m: nat)
    ensures ParseDigits(NatString(m)) == Some(m)
  {
    NatStringRoundTrip(m);
  }

  /** A '-' in front of a digit string negates what it reads as. */
  lemma ParseNegated(t: string, m: nat)
    requires ParseDigits(t) == Some(m)
    ensures ParseDecimal("-" + t) == Some(-(m as int))
  {
    assert ("-" + t)[1..] == t;
  }

  /** A digit string with no sign reads as its own value. */
  lemma ParseUnsigned(t: string, m: nat)
    requires ParseDigits(t) == Some(m)
    ensures ParseDecimal(t) == Some(m as int)
  {
  }

  /** Every decimal rendering reads back as the integer it was made from. */
  lemma DecimalRoundTrip(n: int)
    ensures ParseDecimal(DecimalString(n)) == Some(n)
  {
    if n < 0 {
      ParseDigitsNatString(-n);
      ParseNegated(NatString(-n), -n);
    } else {
      ParseDigitsNatString(n);
      ParseUnsigned(NatString(n), n);
    }
  }

  /** Distinct integers have distinct decimal renderings. */
  lemma DecimalStringInjective(a: int, b: int)
    requires DecimalString(a) == DecimalString(b)
    ensures a == b
  {
    DecimalRoundTrip(a);
    DecimalRoundTrip(b);
  }

  /** `State.String`: the three named states and a fallback carrying the raw value. */
  function StateString(s: State): (r: string)
    ensures s == StateClosed ==> r == "closed"
    ensures s == StateOpen ==> r == "open"
    ensures s == StateHalfOpen ==> r == "half-open"
    ensures s != StateClosed && s != StateOpen && s != StateHalfOpen ==>
              |r| > |UnknownPrefix| && r[..|UnknownPrefix|] == UnknownPrefix &&
              CanonicalDecimal(r[|UnknownPrefix|..]) && ParseDecimal(r[|UnknownPrefix|..]) == Some(s)
  {
    match s
    case 0 => "closed"
    case 1 => "open"
    case 2 => "half-open"
    case _ =>
      var r := UnknownPrefix + DecimalString(s);
      assert r[|UnknownPrefix|..] == DecimalString(s);
      DecimalRoundTrip(s);
      DecimalStringCanonical(s);
      r
  }

  /** No two states share a name: StateString can be read back. */
  lemma StateStringInjective(a: State, b: State)
    requires StateString(a) == StateString(b)
    ensures a == b
  {
  }

  /** The errors a call can end with: the two rejections, or whatever the wrapped function returned. */
  datatype Error = ErrStateOpen | ErrStateHalfOpen | CallError(message: string)

  function Message(e: Error): string {
    match e
    case ErrStateOpen => "circuit breaker is open, drop request"
    case ErrStateHalfOpen => "circuit breaker is half-open, too many calls"
    case CallError(m) => m
  }

  /** The two rejections are different errors and say different things. */
  lemma RejectionsDistinct()
    ensures ErrStateOpen != ErrStateHalfOpen
    ensures Message(ErrStateOpen) != Message(ErrStateHalfOpen)
  {
  }
}
