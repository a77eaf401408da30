/**
 * Frequency to prescaler quantisation. The driver computes in `float`; this
 * model uses exact integer arithmetic over whole-hertz frequencies, which
 * agrees with the float computation wherever the float is exact.
 */
module Prescale {

  /** The driver's oscillator field (`uint32_t`). */
  type uint32 = x: int | 0 <= x < 0x1_0000_0000

  /** Internal oscillator frequency assumed by default, in Hz. */
  const OSC_FREQ: uint32 := 25_000_000

  /** PWM counter ticks per period. */
  const TICKS: nat := 4096

  /** Bounds the prescale value is clamped to. */
  const PRESCALE_MIN: nat := 3
  const PRESCALE_MAX: nat := 255

  /** Smallest oscillator for which the frequency range [1, osc div 16384]
      is not empty. */
  const MIN_OSC: nat := 16384

  /** Highest frequency the driver accepts: osc div 16384, that is, the
      largest whole frequency whose period still holds the smallest divider
      4096·4. It fits a 16-bit signed `int` exactly when osc < 2^29. */
  function UpperLimit(osc: uint32): (r: nat)
    ensures 16384 * r <= osc < 16384 * r + 16384
    ensures r >= 1 <==> osc >= MIN_OSC
    ensures r < 0x8000 <==> osc < 0x2000_0000
  {
    DivBounds(osc, 16384);
    osc / 16384
  }

  /** The requested frequency after the driver's clamp: below 1 Hz it is
      raised to 1 Hz, otherwise it is capped at the limit. With an
      oscillator below MIN_OSC the limit is 0, and so is every request of
      1 Hz or more. */
  function ClampFrequency(osc: uint32, f: nat): (r: nat)
    ensures f < 1 ==> r == 1
    ensures 1 <= f <= UpperLimit(osc) ==> r == f
    ensures 1 <= f && UpperLimit(osc) < f ==> r == UpperLimit(osc)
    ensures osc >= MIN_OSC ==> 1 <= r <= UpperLimit(osc)
  {
    if f < 1 then 1 else if f > UpperLimit(osc) then UpperLimit(osc) else f
  }

  /** The driver's `float` quotient osc/(4096·f) is defined unless it is
      0/0: after the clamp the divisor is 0 only for a request of at least
      1 Hz, so only a zero oscillator with such a request is undefined. */
  predicate QuotientDefined(osc: uint32, f: nat)
  {
    osc > 0 || f < 1
  }

  /** `q` is `n/d` rounded half up: q <= n/d + 1/2 < q + 1. */
  ghost predicate IsRoundHalfUp(n: int, d: int, q: int)
  {
    2 * d * q - d <= 2 * n < 2 * d * q + d
  }

  /** There is at most one rounding of `n/d`. */
  lemma RoundHalfUpUnique(n: int, d: int, q1: int, q2: int)
    requires d > 0
    requires IsRoundHalfUp(n, d, q1) && IsRoundHalfUp(n, d, q2)
    ensures q1 == q2
  {
    assert 2 * d * q2 < 2 * d * (q1 + 1);
    CancelLess(2 * d, q2, q1 + 1);
    assert 2 * d * q1 < 2 * d * (q2 + 1);
    CancelLess(2 * d, q1, q2 + 1);
  }

  lemma CancelLess(c: int, x: int, y: int)
    requires c > 0 && c * x < c * y
    ensures x < y
  {
  }

  lemma MulMono(c: int, x: int, y: int)
    requires c >= 0 && x <= y
    ensures c * x <= c * y
  {
  }

  /** osc/(4096·f) rounded to the nearest integer, ties up: what adding
      0.5 and truncating computes. */
  function RoundedDivider(osc: uint32, f: nat): (q: nat)
    requires f >= 1
    ensures IsRoundHalfUp(osc, TICKS * f, q)
  {
    var d := TICKS * f;
    var q := (2 * osc + d) / (2 * d);
    assert 2 * d * q <= 2 * osc + d < 2 * d * q + 2 * d by {
      DivBounds(2 * osc + d, 2 * d);
    }
    q
  }

  lemma DivBounds(n: nat, d: nat)
    requires d > 0
    ensures d * (n / d) <= n < d * (n / d) + d
  {
  }

  /** For a frequency inside the clamped range the rounded divider is at
      least 4, so the lower clamp of the prescale never fires. */
  lemma RoundedDividerAtLeastFour(osc: uint32, f: nat)
    requires osc >= MIN_OSC
    requires 1 <= f <= UpperLimit(osc)
    ensures RoundedDivider(osc, f) >= 4
  {
    var d := TICKS * f;
    var q := RoundedDivider(osc, f);
    assert 16384 * f <= osc by { DivBounds(osc, 16384); MulMono(16384, f, osc / 16384); }
    assert 4 * d <= osc;
    assert 2 * d * 3 < 2 * d * q;
    CancelLess(2 * d, 3, q);
  }

  /** The prescale value written for a request of `f` Hz: the rounded
      divider minus one, clamped to [3, 255]. When the clamped frequency is
      0 the `float` quotient is +infinity and the upper clamp gives 255. */
  function PrescaleFor(osc: uint32, f: nat): (p: nat)
    requires QuotientDefined(osc, f)
    ensures PRESCALE_MIN <= p <= PRESCALE_MAX
    ensures ClampFrequency(osc, f) == 0 ==> p == PRESCALE_MAX
    ensures var fc := ClampFrequency(osc, f);
            forall q :: fc >= 1 && IsRoundHalfUp(osc, TICKS * fc, q) ==>
              && (q - 1 < PRESCALE_MIN ==> p == PRESCALE_MIN)
              && (PRESCALE_MIN <= q - 1 <= PRESCALE_MAX ==> p == q - 1)
              && (q - 1 > PRESCALE_MAX ==> p == PRESCALE_MAX)
  {
    var fc := ClampFrequency(osc, f);
    if fc == 0 then PRESCALE_MAX
    else
      var q := RoundedDivider(osc, fc);
      assert forall q' :: IsRoundHalfUp(osc, TICKS * fc, q') ==> q' == q by {
        forall q' | IsRoundHalfUp(osc, TICKS * fc, q') ensures q' == q {
          RoundHalfUpUnique(osc, TICKS * fc, q', q);
        }
      }
      var raw := q - 1;
      if raw < PRESCALE_MIN then PRESCALE_MIN
      else if raw > PRESCALE_MAX then PRESCALE_MAX
      else raw
  }

  /** Within the accepted range the lower clamp never fires: the prescale
      is exactly the rounded divider minus one, capped at 255. */
  lemma PrescaleInRange(osc: uint32, f: nat)
    requires osc >= MIN_OSC && 1 <= f <= UpperLimit(osc)
    ensures PrescaleFor(osc, f) == if RoundedDivider(osc, f) - 1 > PRESCALE_MAX then PRESCALE_MAX
                                   else RoundedDivider(osc, f) - 1
  {
    RoundedDividerAtLeastFour(osc, f);
  }

  /** An oscillator below MIN_OSC: every request of 1 Hz or more yields
      prescale 255, and a request below 1 Hz yields prescale 3. */
  lemma SlowOscillatorPrescale(osc: uint32, f: nat)
    requires 0 < osc < MIN_OSC
    ensures f >= 1 ==> PrescaleFor(osc, f) == PRESCALE_MAX
    ensures f < 1 ==> PrescaleFor(osc, f) == PRESCALE_MIN
  {
    if f < 1 {
      var q := RoundedDivider(osc, 1);
      assert 2 * TICKS * q - TICKS <= 2 * osc;
      assert 2 * TICKS * q < 2 * TICKS * 5;
      CancelLess(2 * TICKS, q, 5);
    }
  }

  /** The PWM frequency a prescale value `p` yields, truncated to whole hertz
      by the unsigned division the driver performs. */
  function AchievedFrequency(osc: uint32, p: nat): (hz: nat)
    ensures hz * (TICKS * (p + 1)) <= osc < (hz + 1) * (TICKS * (p + 1))
  {
    DivBounds(osc, TICKS * (p + 1));
    osc / (TICKS * (p + 1))
  }

  /** The outcome of the driver's unsigned 32-bit division of the
      oscillator frequency by the divisor. */
  datatype Quotient = Quotient(hz: nat) | DivisionByZero

  /** The divisor `4096 * (p + 1)` as the driver evaluates it where `int`
      is 16 bits wide (8-bit AVR boards): the product of two `int`s wraps
      modulo 2^16 into the signed range, and the result is converted to
      `uint32_t` (modulo 2^32) for the division of the unsigned oscillator
      frequency. `p` is the `uint8_t` prescale. */
  function Divisor16(p: nat): (v: uint32)
    requires p <= PRESCALE_MAX
    ensures p + 1 < 8 ==> v == TICKS * (p + 1)
    ensures v == 0 <==> (p + 1) % 16 == 0
  {
    var w := (TICKS * (p + 1)) % 0x1_0000;
    WrappedProduct(p + 1);
    var signed := if w >= 0x8000 then w - 0x1_0000 else w;
    signed % 0x1_0000_0000
  }

  /** 4096·k modulo 2^16 keeps only k modulo 16. */
  lemma WrappedProduct(k: nat)
    ensures (TICKS * k) % 0x1_0000 == TICKS * (k % 16)
  {
    var q, r := k / 16, k % 16;
    assert TICKS * k == 0x1_0000 * q + TICKS * r;
  }

  /** The frequency setPWMFrequency and getPWMFrequency return on a board
      with a 16-bit `int`: the unsigned quotient by `Divisor16(p)`, and no
      value at all when that divisor wrapped to 0. */
  function AchievedFrequency16(osc: uint32, p: nat): (r: Quotient)
    requires p <= PRESCALE_MAX
    ensures r.DivisionByZero? <==> (p + 1) % 16 == 0
    ensures r.Quotient? ==> Divisor16(p) * r.hz <= osc < Divisor16(p) * r.hz + Divisor16(p)
  {
    var v := Divisor16(p);
    if v == 0 then DivisionByZero else Quotient(Divide(osc, v))
  }

  /** Unsigned division: the largest `h` with d·h <= n. */
  function Divide(n: nat, d: nat): (h: nat)
    requires d > 0
    ensures d * h <= n < d * h + d
  {
    DivBounds(n, d);
    n / d
  }

  /** Below prescale 7 the 16-bit product does not overflow, and the
      return value is the intended one. */
  lemma SixteenBitAgreesBelowSeven(osc: uint32, p: nat)
    requires p + 1 < 8
    ensures AchievedFrequency16(osc, p) == Quotient(AchievedFrequency(osc, p))
  {
    SmallPrescaleExact(osc, p);
  }

  /** Below prescale 7 the 16-bit product is exact. */
  lemma SmallPrescaleExact(osc: uint32, p: nat)
    requires p + 1 < 8
    ensures Divisor16(p) > 0 && Divide(osc, Divisor16(p)) == AchievedFrequency(osc, p)
  {
    assert Divisor16(p) == TICKS * (p + 1);
  }

  /** At the 25 MHz internal oscillator a 50 Hz request writes prescale
      121; the intended return is 50 Hz, but with a 16-bit `int` the divisor
      4096·122 wraps to −24576, converts to 4294942720, and the call returns
      0 Hz. A request of 23 Hz writes prescale 255, whose divisor
      4096·256 wraps to 0. */
  lemma SixteenBitIntOverflow()
    ensures PrescaleFor(OSC_FREQ, 50) == 121
    ensures AchievedFrequency(OSC_FREQ, 121) == 50
    ensures Divisor16(121) == 4294942720
    ensures AchievedFrequency16(OSC_FREQ, 121) == Quotient(0)
    ensures PrescaleFor(OSC_FREQ, 23) == 255 && AchievedFrequency16(OSC_FREQ, 255) == DivisionByZero
  {
    assert RoundedDivider(OSC_FREQ, 50) == 122;
    assert RoundedDivider(OSC_FREQ, 23) == 265;
  }

  /** With a prescale of at least 3 the achieved frequency never exceeds the
      clamp limit, and with one of at most 255 it is at least osc div 2^20. */
  lemma AchievedWithinRange(osc: uint32, p: nat)
    requires PRESCALE_MIN <= p <= PRESCALE_MAX
    ensures osc / (TICKS * (PRESCALE_MAX + 1)) <= AchievedFrequency(osc, p) <= UpperLimit(osc)
  {
    var hz := AchievedFrequency(osc, p);
    assert hz * 16384 <= osc by { MulMono(hz * TICKS, 4, p + 1); }
    DivBounds(osc, 16384);
    var lo := osc / (TICKS * (PRESCALE_MAX + 1));
    DivBounds(osc, TICKS * (PRESCALE_MAX + 1));
    assert osc < (hz + 1) * (TICKS * (PRESCALE_MAX + 1)) by {
      MulMono((hz + 1) * TICKS, p + 1, PRESCALE_MAX + 1);
    }
  }

  /** A request above the limit is treated as the limit, and a request of
      0 Hz as 1 Hz. */
  lemma ClampIdempotent(osc: uint32, f: nat)
    requires osc >= MIN_OSC
    ensures f > UpperLimit(osc) ==> PrescaleFor(osc, f) == PrescaleFor(osc, UpperLimit(osc))
    ensures f < 1 ==> PrescaleFor(osc, f) == PrescaleFor(osc, 1)
  {
  }

  /** Worked values at the 25 MHz internal oscillator: 1000 Hz gives
      prescale 5 and 1017 Hz; 2000 Hz and 1526 Hz clamp to 1525 Hz, giving
      prescale 3 and 1525 Hz; 1 Hz gives prescale 255 and 23 Hz. */
  lemma InternalOscillatorExamples()
    ensures UpperLimit(OSC_FREQ) == 1525
    ensures PrescaleFor(OSC_FREQ, 1000) == 5 && AchievedFrequency(OSC_FREQ, 5) == 1017
    ensures PrescaleFor(OSC_FREQ, 2000) == 3 && PrescaleFor(OSC_FREQ, 1526) == 3
    ensures AchievedFrequency(OSC_FREQ, 3) == 1525
    ensures PrescaleFor(OSC_FREQ, 1) == 255 && AchievedFrequency(OSC_FREQ, 255) == 23
  {
    assert RoundedDivider(OSC_FREQ, 1000) == 6;
    assert RoundedDivider(OSC_FREQ, 1525) == 4;
    assert RoundedDivider(OSC_FREQ, 1) == 6104;
  }

  /** Where the exact arithmetic parts from the driver's `float`: above 2^24
      a `float` holds only even integers, so the oscillator 22527999 becomes
      22528000 before the division. The exact quotient for 1000 Hz lies
      just below 5.5 and gives prescale 4 and 1099 Hz; the rounded
      oscillator gives exactly 5.5, so the driver writes prescale 5 and
      returns 916 Hz. */
  lemma FloatRoundingExample()
    ensures PrescaleFor(22527999, 1000) == 4 && AchievedFrequency(22527999, 4) == 1099
    ensures PrescaleFor(22528000, 1000) == 5 && AchievedFrequency(22527999, 5) == 916
  {
    assert RoundedDivider(22527999, 1000) == 5;
    assert RoundedDivider(22528000, 1000) == 6;
  }
}
