/**
 * The arithmetic of `write`: a requested duty fraction becomes a compare value in
 * counter ticks.  The float argument is modelled as a real; NaN is not represented.
 */
module DutyCycle {

  /**
   * Input saturation: values above 1 become 1, values below 0 become 0.  The result lies
   * in [0, 1] and is left unchanged there, so saturating twice is saturating once.
   */
  function Saturate(x: real): (r: real)
    ensures 0.0 <= r <= 1.0
    ensures 0.0 <= x <= 1.0 ==> r == x
    ensures x > 1.0 ==> r == 1.0
    ensures x < 0.0 ==> r == 0.0
  {
    if x > 1.0 then 1.0 else if x < 0.0 then 0.0 else x
  }

  /** `period * pwm` truncated to an integer, as the uint32 cast does for non-negative values. */
  function Ticks(period: nat, pwm: real): (r: nat)
    requires 0.0 <= pwm <= 1.0
    ensures r <= period
    ensures r as real <= period as real * pwm < r as real + 1.0
  {
    var x := period as real * pwm;
    assert x <= period as real;
    x.Floor
  }

  /**
   * The compare value `write` computes: exactly 0 for a zero fraction, otherwise the
   * truncated product pushed into [dutyMin, dutyMax] (the lower bound is tested first).
   */
  function DutyFor(period: nat, dutyMin: nat, dutyMax: nat, pwm: real): nat
    requires 0.0 <= pwm <= 1.0
  {
    if pwm == 0.0 then 0
    else
      var d := Ticks(period, pwm);
      if d < dutyMin then dutyMin else if d > dutyMax then dutyMax else d
  }

  /** A zero fraction gives a zero compare value, below duty_min if need be. */
  lemma ZeroIsExactlyZero(period: nat, dutyMin: nat, dutyMax: nat, x: real)
    requires x <= 0.0
    ensures DutyFor(period, dutyMin, dutyMax, Saturate(x)) == 0
  {
  }

  /**
   * A non-zero fraction gives a compare value within [dutyMin, dutyMax] whenever the
   * bounds are ordered, hence within the period when dutyMax is.
   */
  lemma NonZeroWithinBounds(period: nat, dutyMin: nat, dutyMax: nat, x: real)
    requires dutyMin <= dutyMax
    requires x > 0.0
    ensures dutyMin <= DutyFor(period, dutyMin, dutyMax, Saturate(x)) <= dutyMax
    ensures dutyMax <= period ==> DutyFor(period, dutyMin, dutyMax, Saturate(x)) <= period
  {
  }

  /** Inside the bounds the compare value is the truncated product itself. */
  lemma UnclampedIsProportional(period: nat, dutyMin: nat, dutyMax: nat, pwm: real)
    requires 0.0 < pwm <= 1.0
    requires dutyMin <= Ticks(period, pwm) <= dutyMax
    ensures DutyFor(period, dutyMin, dutyMax, pwm) as real <= period as real * pwm
    ensures period as real * pwm < DutyFor(period, dutyMin, dutyMax, pwm) as real + 1.0
  {
  }

  lemma TicksMonotone(period: nat, a: real, b: real)
    requires 0.0 <= a <= b <= 1.0
    ensures Ticks(period, a) <= Ticks(period, b)
  {
    var pr := period as real;
    assert pr * b - pr * a == pr * (b - a);
    assert pr * (b - a) >= 0.0;
  }

  /** A larger requested fraction never gives a smaller compare value, when the bounds are ordered. */
  lemma {:induction false} DutyMonotone(period: nat, dutyMin: nat, dutyMax: nat, x: real, y: real)
    requires dutyMin <= dutyMax
    requires x <= y
    ensures DutyFor(period, dutyMin, dutyMax, Saturate(x)) <= DutyFor(period, dutyMin, dutyMax, Saturate(y))
  {
    var a, b := Saturate(x), Saturate(y);
    if a != 0.0 {
      TicksMonotone(period, a, b);
    }
  }

  /**
   * Full scale gives the period itself, raised to dutyMin when the period is shorter than
   * dutyMin (the lower bound is tested first) and otherwise capped at dutyMax.
   */
  lemma FullScale(period: nat, dutyMin: nat, dutyMax: nat, x: real)
    requires x >= 1.0
    ensures DutyFor(period, dutyMin, dutyMax, Saturate(x)) ==
      if period < dutyMin then dutyMin else if period > dutyMax then dutyMax else period
  {
  }
}
