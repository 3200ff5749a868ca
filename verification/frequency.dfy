/**
 * Frequency resolver: from a requested PWM frequency and the system clock, the
 * prescaler ratio (CKPSC 0 = x32, finest, .. 7 = /4, coarsest), the counter period
 * and the duty-cycle bounds of one HRTIM timer unit.
 */
module Frequency {
  import opened HrtimDefs
  import DutyCycle

  function Pow2(i: nat): (r: nat)
    ensures 1 <= r
  {
    if i == 0 then 1 else 2 * Pow2(i - 1)
  }

  /** The x32-relative clock multiplier of prescaler i, in hundredths: 32 * 100 / 2^i. */
  function Scale(i: nat): int
  {
    3200 / Pow2(i)
  }

  /**
   * Lowest frequency prescaler `i` can produce before the 16-bit period overflows,
   * computed in 64-bit integer arithmetic at 1% precision of the system clock.  The
   * multiplier of each row is Scale(i), written out (MinFrequIsScaled).
   */
  function MinFrequ(sys: nat, i: nat): nat
    requires i < PRESCALER_COUNT
  {
    var a := sys / 100;
    match i
    case 0 => a * 3200 / COUNTER_MAX
    case 1 => a * 1600 / COUNTER_MAX
    case 2 => a * 800 / COUNTER_MAX
    case 3 => a * 400 / COUNTER_MAX
    case 4 => a * 200 / COUNTER_MAX
    case 5 => a * 100 / COUNTER_MAX
    case 6 => a * 50 / COUNTER_MAX
    case _ => a * 25 / COUNTER_MAX
  }

  /** Each row is the clock in hundredths times 32 * 100 / 2^i, over the 16-bit counter range. */
  lemma MinFrequIsScaled(sys: nat, i: nat)
    requires i < PRESCALER_COUNT
    ensures MinFrequ(sys, i) == (sys / 100) * Scale(i) / COUNTER_MAX
  {
    ScaleValues();
  }

  /** The `_min_frequ_ckpsc` table as `setupHRTIM1` fills it. */
  function MinFrequTable(sys: nat): seq<nat>
  {
    seq(PRESCALER_COUNT, i requires 0 <= i < PRESCALER_COUNT => MinFrequ(sys, i))
  }

  lemma ScaleValues()
    ensures Scale(0) == 3200 && Scale(1) == 1600 && Scale(2) == 800 && Scale(3) == 400
    ensures Scale(4) == 200 && Scale(5) == 100 && Scale(6) == 50 && Scale(7) == 25
  {
  }

  /** For i in 0..7 the division 3200 / 2^i is exact: the multipliers are 32 * 100 / 2^i. */
  lemma ScaleExact(i: nat)
    requires i < PRESCALER_COUNT
    ensures Scale(i) * Pow2(i) == 3200
  {
    ScaleValues();
  }

  lemma MulMono(a: nat, x: nat, y: nat)
    requires x <= y
    ensures a * x <= a * y
  {
    assert a * y - a * x == a * (y - x);
  }

  lemma DivMono(a: nat, b: nat, c: nat)
    requires a <= b && 0 < c
    ensures a / c <= b / c
  {
    if a / c > b / c {
      MulMono(c, b / c + 1, a / c);
      assert false;
    }
  }

  /**
   * The threshold table is non-increasing: each coarser prescaler halves the counter
   * clock, so it saturates at a lower frequency.
   */
  lemma {:induction false} MinFrequNonIncreasing(sys: nat, i: nat, j: nat)
    requires i <= j < PRESCALER_COUNT
    ensures MinFrequ(sys, j) <= MinFrequ(sys, i)
  {
    ScaleValues();
    MinFrequIsScaled(sys, i);
    MinFrequIsScaled(sys, j);
    assert Scale(j) <= Scale(i);
    MulMono(sys / 100, Scale(j), Scale(i));
    DivMono((sys / 100) * Scale(j), (sys / 100) * Scale(i), COUNTER_MAX);
  }

  /**
   * The table `setupHRTIM1` fills has one entry per prescaler, is non-increasing from the
   * finest ratio to the coarsest, and fits its uint32 storage for a uint32 clock.
   */
  lemma MinFrequTableOrdered(sys: nat)
    ensures |MinFrequTable(sys)| == PRESCALER_COUNT
    ensures forall i, j :: 0 <= i <= j < PRESCALER_COUNT ==> MinFrequTable(sys)[j] <= MinFrequTable(sys)[i]
    ensures sys < UINT32_MODULUS ==> forall i :: 0 <= i < PRESCALER_COUNT ==> MinFrequTable(sys)[i] < UINT32_MODULUS
  {
    var t := MinFrequTable(sys);
    forall i, j | 0 <= i <= j < PRESCALER_COUNT
      ensures t[j] <= t[i]
    {
      MinFrequNonIncreasing(sys, i, j);
    }
    if sys < UINT32_MODULUS {
      forall i | 0 <= i < PRESCALER_COUNT
        ensures t[i] < UINT32_MODULUS
      {
        MinFrequFitsUint32(sys, i);
      }
    }
  }

  /**
   * The threshold against the prescaler's real counter clock sys * 32 / 2^i (that is,
   * sys * Scale(i) / 100): 0xFFFF times the threshold never exceeds the clock, and falls
   * short of it by less than 0xFFFF + Scale(i), the two truncations of the formula.
   */
  lemma ThresholdVsClock(sys: nat, i: nat)
    requires i < PRESCALER_COUNT
    ensures sys * Scale(i) / 100 - (COUNTER_MAX + Scale(i)) < COUNTER_MAX * MinFrequ(sys, i)
    ensures COUNTER_MAX * MinFrequ(sys, i) <= sys * Scale(i) / 100
  {
    ScaleValues();
    MinFrequIsScaled(sys, i);
    var sc: nat := Scale(i);
    var a := sys / 100;
    var x := a * sc;
    var m := MinFrequ(sys, i);
    assert COUNTER_MAX * m <= x < COUNTER_MAX * m + COUNTER_MAX;
    MulMono(sc, 100 * a, sys);
    assert 100 * x == sc * (100 * a);
    assert sc * sys == sys * sc;
    DivLowerBound(sys * sc, 100, x);
    MulMono(sc, sys, 100 * a + 99);
    assert sc * (100 * a + 99) == 100 * x + 99 * sc;
    DivUpperBound(sys * sc, 100, x + sc - 1);
  }

  /**
   * The 64-bit intermediate never overflows and every threshold fits the uint32
   * table when the system clock is a uint32.
   */
  lemma MinFrequFitsUint32(sys: nat, i: nat)
    requires sys < UINT32_MODULUS && i < PRESCALER_COUNT
    ensures (sys / 100) * Scale(i) < 0x1_0000_0000_0000_0000
    ensures MinFrequ(sys, i) < UINT32_MODULUS
  {
    ScaleValues();
    MinFrequIsScaled(sys, i);
    MulMono(sys / 100, Scale(i), 3200);
    assert (sys / 100) * 3200 <= sys * 32;
    DivMono((sys / 100) * Scale(i), UINT32_MODULUS * 32, COUNTER_MAX);
  }

  /**
   * Whether prescaler i accepts frequency f: CKPSC 0 demands strictly more than its
   * threshold, every other ratio accepts its threshold itself.
   */
  predicate Meets(f: nat, table: seq<nat>, i: nat)
    requires |table| == PRESCALER_COUNT && i < PRESCALER_COUNT
  {
    if i == 0 then f > table[0] else f >= table[i]
  }

  /** First prescaler from `i` on (i >= 1) whose threshold `f` reaches. */
  function FirstFrom(f: nat, table: seq<nat>, i: nat): (r: Option<nat>)
    requires |table| == PRESCALER_COUNT && 1 <= i <= PRESCALER_COUNT
    ensures r.Some? ==> i <= r.value < PRESCALER_COUNT && Meets(f, table, r.value)
    ensures r.Some? ==> forall q :: i <= q < r.value ==> !Meets(f, table, q)
    ensures r.None? <==> forall q :: i <= q < PRESCALER_COUNT ==> !Meets(f, table, q)
    decreases PRESCALER_COUNT - i
  {
    if i == PRESCALER_COUNT then None
    else if f >= table[i] then assert Meets(f, table, i); Some(i)
    else FirstFrom(f, table, i + 1)
  }

  /**
   * The prescaler scan of `setupFrequency`: the first ratio, finest first, whose
   * threshold `f` meets; `None` when not even the coarsest one accepts it.
   */
  function SelectPrescaler(f: nat, table: seq<nat>): (r: Option<nat>)
    requires |table| == PRESCALER_COUNT
    ensures r.Some? ==> r.value < PRESCALER_COUNT && Meets(f, table, r.value)
    ensures r.Some? ==> forall q :: 0 <= q < r.value ==> !Meets(f, table, q)
    ensures r.None? <==> forall q :: 0 <= q < PRESCALER_COUNT ==> !Meets(f, table, q)
  {
    if f > table[0] then assert Meets(f, table, 0); Some(0) else FirstFrom(f, table, 1)
  }

  /** With the real threshold table, the scan fails exactly below the coarsest threshold. */
  lemma {:induction false} SelectFailsIffBelowCoarsest(sys: nat, f: nat)
    ensures SelectPrescaler(f, MinFrequTable(sys)).None? <==> f < MinFrequ(sys, 7)
  {
    var t := MinFrequTable(sys);
    if f < MinFrequ(sys, 7) {
      forall q | 0 <= q < PRESCALER_COUNT ensures !Meets(f, t, q) {
        MinFrequNonIncreasing(sys, q, 7);
      }
    } else {
      assert Meets(f, t, 7);
    }
  }

  /**
   * The chosen ratio is the finest usable one: every coarser ratio would also accept
   * the frequency, every finer one rejects it.
   */
  lemma {:induction false} SelectIsFinestUsable(sys: nat, f: nat, p: nat, q: nat)
    requires SelectPrescaler(f, MinFrequTable(sys)) == Some(p)
    requires q < PRESCALER_COUNT
    ensures Meets(f, MinFrequTable(sys), q) <==> p <= q
  {
    var t := MinFrequTable(sys);
    if p <= q && q != 0 {
      MinFrequNonIncreasing(sys, p, q);
    }
  }

  /** Period before the even/rollover steps: 0xFFFF / f * min_frequ[p], truncated. */
  function RawPeriod(f: nat, threshold: nat): nat
    requires 0 < f
  {
    COUNTER_MAX * threshold / f
  }

  /** Rounds an odd period up to the next even value. */
  function MakeEven(period: nat): (r: nat)
    ensures r % 2 == 0
    ensures period <= r <= period + 1
  {
    if (period / 2) * 2 != period then period + 1 else period
  }

  /** Hardware duty-cycle limits (min, max) of each prescaler ratio. */
  function DutyLimits(p: nat): (nat, nat)
  {
    match p
    case 0 => (0x0060, 0xFFDF)
    case 1 => (0x0030, 0xFFEF)
    case 2 => (0x0018, 0xFFF7)
    case 3 => (0x000C, 0xFFFB)
    case 4 => (0x0006, 0xFFFD)
    case _ => (0x0003, 0xFFFD)
  }

  /** What is kept free below the period when the table maximum does not fit in it. */
  function Margin(dutyMin: nat, rollover: bool): nat
  {
    if rollover then (dutyMin / 3) * 2 else dutyMin / 3
  }

  /** The final duty maximum: the table value, or `period - margin` in uint32 arithmetic. */
  function AdjustMax(period: nat, dutyMin: nat, tableMax: nat, rollover: bool): nat
    requires period < UINT32_MODULUS && dutyMin < UINT32_MODULUS
  {
    if tableMax > period then Sub32(period, Margin(dutyMin, rollover)) else tableMax
  }

  /** Timing parameters of one channel, in counter ticks. */
  datatype Timing = Timing(frequency: nat, prescaler: nat, period: nat, dutyMin: nat, dutyMax: nat)

  datatype Resolution = Resolved(timing: Timing) | BelowMinimum(minimum: nat)

  function Clamp(f: nat, sys: nat): nat
  {
    if f > sys then sys else f
  }

  /** The period after the even and rollover steps. */
  function FinalPeriod(raw: nat, rollover: bool): nat
  {
    var even := MakeEven(raw);
    if rollover then even / 2 else even
  }

  /** `setupFrequency` as a function of the request, the system clock and the mode. */
  function Resolve(sys: nat, requested: nat, rollover: bool): Resolution
    requires 0 < sys && 0 < requested && sys < UINT32_MODULUS
  {
    var f := Clamp(requested, sys);
    var table := MinFrequTable(sys);
    match SelectPrescaler(f, table)
    case None => BelowMinimum(table[7])
    case Some(p) =>
      MinFrequFitsUint32(sys, p);
      PeriodFits(f, table[p], p == 0);
      var period := FinalPeriod(RawPeriod(f, table[p]), rollover);
      var limits := DutyLimits(p);
      Resolved(Timing(f, p, period, limits.0, AdjustMax(period, limits.0, limits.1, rollover)))
  }

  /** Resolve, spelled out in terms of the scan result. */
  lemma ResolveUnfold(sys: nat, requested: nat, rollover: bool)
    requires 0 < sys && 0 < requested && sys < UINT32_MODULUS
    ensures var f := Clamp(requested, sys);
      var choice := SelectPrescaler(f, MinFrequTable(sys));
      && (Resolve(sys, requested, rollover).Resolved? <==> choice.Some?)
      && (choice.Some? ==>
            var p := choice.value;
            var period := FinalPeriod(RawPeriod(f, MinFrequ(sys, p)), rollover);
            && p < PRESCALER_COUNT && 0 < f
            && RawPeriod(f, MinFrequ(sys, p)) <= COUNTER_MAX
            && Resolve(sys, requested, rollover).timing ==
               Timing(f, p, period, DutyLimits(p).0,
                      AdjustMax(period, DutyLimits(p).0, DutyLimits(p).1, rollover)))
  {
    var f := Clamp(requested, sys);
    var choice := SelectPrescaler(f, MinFrequTable(sys));
    if choice.Some? {
      PeriodFits(f, MinFrequ(sys, choice.value), choice.value == 0);
    }
  }

  /** The resolver's result, assembled from the results of its steps. */
  lemma ResolveFromSteps(sys: nat, requested: nat, rollover: bool, f: nat, p: nat, raw: nat, period: nat,
                         dutyMin: nat, dutyMax: nat)
    requires 0 < sys < UINT32_MODULUS && 0 < requested
    requires f == Clamp(requested, sys) && 0 < f
    requires SelectPrescaler(f, MinFrequTable(sys)) == Some(p) && p < PRESCALER_COUNT
    requires raw == RawPeriod(f, MinFrequ(sys, p))
    requires period == FinalPeriod(raw, rollover) && period < UINT32_MODULUS
    requires dutyMin == DutyLimits(p).0
    requires dutyMax == AdjustMax(period, dutyMin, DutyLimits(p).1, rollover)
    ensures Resolve(sys, requested, rollover) == Resolved(Timing(f, p, period, dutyMin, dutyMax))
  {
    ResolveUnfold(sys, requested, rollover);
  }

  /** Frequencies the resolver accepts (the others halt the constructor). */
  predicate Reachable(sys: nat, requested: nat)
  {
    Clamp(requested, sys) >= MinFrequ(sys, 7)
  }

  /** A threshold the frequency reaches gives at most a full 16-bit period. */
  lemma PeriodFits(f: nat, threshold: nat, strict: bool)
    requires 0 < f && threshold <= f && (strict ==> threshold < f)
    ensures RawPeriod(f, threshold) <= COUNTER_MAX
    ensures strict ==> RawPeriod(f, threshold) < COUNTER_MAX
  {
    MulMono(COUNTER_MAX, threshold, f);
    assert COUNTER_MAX * threshold < f * (COUNTER_MAX + 1);
    DivUpperBound(COUNTER_MAX * threshold, f, COUNTER_MAX);
    if strict {
      MulMono(COUNTER_MAX, threshold, f - 1);
      assert COUNTER_MAX * threshold < f * COUNTER_MAX;
      DivUpperBound(COUNTER_MAX * threshold, f, COUNTER_MAX - 1);
    }
  }

  lemma DivUpperBound(a: nat, c: nat, k: nat)
    requires 0 < c && a < c * (k + 1)
    ensures a / c <= k
  {
    if a / c > k {
      MulMono(c, k + 1, a / c);
      assert false;
    }
  }

  lemma DivLowerBound(a: nat, c: nat, k: nat)
    requires 0 < c && c * k <= a
    ensures k <= a / c
  {
    if a / c < k {
      MulMono(c, a / c + 1, k);
      assert false;
    }
  }

  /** Resolution fails exactly when the clamped frequency is below the coarsest threshold. */
  lemma {:induction false} ResolveFailsIffUnreachable(sys: nat, requested: nat, rollover: bool)
    requires 0 < sys < UINT32_MODULUS && 0 < requested
    ensures Resolve(sys, requested, rollover).BelowMinimum? <==> !Reachable(sys, requested)
    ensures Resolve(sys, requested, rollover).BelowMinimum? ==>
      Resolve(sys, requested, rollover).minimum == MinFrequ(sys, 7)
  {
    SelectFailsIffBelowCoarsest(sys, Clamp(requested, sys));
  }

  /**
   * A resolved frequency is the request clamped to the system clock, and its prescaler
   * is the finest ratio accepting it: ratio q accepts it exactly when q >= prescaler.
   */
  lemma {:induction false} ResolveChoosesFinest(sys: nat, requested: nat, rollover: bool, q: nat)
    requires 0 < sys < UINT32_MODULUS && 0 < requested && q < PRESCALER_COUNT
    requires Resolve(sys, requested, rollover).Resolved?
    ensures var t := Resolve(sys, requested, rollover).timing;
      && t.frequency == (if requested > sys then sys else requested)
      && t.prescaler < PRESCALER_COUNT
      && (Meets(t.frequency, MinFrequTable(sys), q) <==> t.prescaler <= q)
  {
    var f := Clamp(requested, sys);
    SelectIsFinestUsable(sys, f, SelectPrescaler(f, MinFrequTable(sys)).value, q);
  }

  /**
   * Rollover mode resolves to the same prescaler and duty minimum as normal mode, with
   * exactly half of the normal period, which is always even.
   */
  lemma {:induction false} RolloverHalvesPeriod(sys: nat, requested: nat)
    requires 0 < sys < UINT32_MODULUS && 0 < requested
    requires Reachable(sys, requested)
    ensures Resolve(sys, requested, false).Resolved? && Resolve(sys, requested, true).Resolved?
    ensures var n := Resolve(sys, requested, false).timing;
      var r := Resolve(sys, requested, true).timing;
      && n.period % 2 == 0
      && 2 * r.period == n.period
      && r.prescaler == n.prescaler && r.frequency == n.frequency && r.dutyMin == n.dutyMin
  {
    ResolveFailsIffUnreachable(sys, requested, false);
    ResolveFailsIffUnreachable(sys, requested, true);
  }

  /**
   * The period is at most 0x10000 ticks in normal mode, one above the 16-bit counter's
   * range (0x10000 only when the frequency equals a threshold exactly), at most 0x8000 in
   * rollover mode, and below 0xFFFF with the finest prescaler, whose test is strict.
   */
  lemma {:induction false} PeriodBounds(sys: nat, requested: nat, rollover: bool)
    requires 0 < sys < UINT32_MODULUS && 0 < requested
    requires Resolve(sys, requested, rollover).Resolved?
    ensures var t := Resolve(sys, requested, rollover).timing;
      && t.period <= (if rollover then (COUNTER_MAX + 1) / 2 else COUNTER_MAX + 1)
      && (t.prescaler == 0 ==> t.period <= (if rollover then COUNTER_MAX / 2 else COUNTER_MAX - 1))
  {
    var f := Clamp(requested, sys);
    var table := MinFrequTable(sys);
    var p := SelectPrescaler(f, table).value;
    PeriodFits(f, table[p], p == 0);
  }

  lemma EvenPeriodRoundTrip(target: nat, f: nat)
    requires 0 < f
    ensures MakeEven(target / f) * f <= target + f
    ensures target < (MakeEven(target / f) + 1) * f
  {
    var raw := target / f;
    var p := MakeEven(raw);
    assert raw * f <= target < (raw + 1) * f;
    MulMono(f, p, raw + 1);
    MulMono(f, raw + 1, p + 1);
  }

  /**
   * Decoding the normal-mode period through the threshold gives the frequency back within
   * one tick: period * f differs from 0xFFFF * min_frequ[p] by less than f (plus the one
   * tick added to make the period even).
   */
  lemma {:induction false} PeriodRoundTrip(sys: nat, requested: nat)
    requires 0 < sys < UINT32_MODULUS && 0 < requested
    requires Resolve(sys, requested, false).Resolved?
    ensures var t := Resolve(sys, requested, false).timing;
      var target := COUNTER_MAX * MinFrequ(sys, t.prescaler);
      t.period * t.frequency <= target + t.frequency && target < (t.period + 1) * t.frequency
  {
    ResolveUnfold(sys, requested, false);
    var t := Resolve(sys, requested, false).timing;
    EvenPeriodRoundTrip(COUNTER_MAX * MinFrequ(sys, t.prescaler), t.frequency);
  }

  /**
   * Against the prescaler's real counter clock the normal-mode period is less exact than
   * against the threshold: period * f exceeds the clock by at most f, but can fall short
   * of it by up to 0xFFFF + Scale(p) more than one period step.
   */
  lemma {:induction false} PeriodTracksClock(sys: nat, requested: nat)
    requires 0 < sys < UINT32_MODULUS && 0 < requested
    requires Resolve(sys, requested, false).Resolved?
    ensures var t := Resolve(sys, requested, false).timing;
      var clock := sys * Scale(t.prescaler) / 100;
      && t.period * t.frequency <= clock + t.frequency
      && clock < (t.period + 1) * t.frequency + COUNTER_MAX + Scale(t.prescaler)
  {
    ResolveUnfold(sys, requested, false);
    PeriodRoundTrip(sys, requested);
    var t := Resolve(sys, requested, false).timing;
    ThresholdVsClock(sys, t.prescaler);
  }

  /**
   * At 170 MHz a 1 kHz request takes prescaler 7, whose counter clock is 42.5 MHz, so
   * 42500 ticks would give 1 kHz exactly; the truncated threshold (648) gives 42466.
   */
  lemma PeriodMissesClockAt1kHz()
    ensures Resolve(170_000_000, 1000, false) == Resolved(Timing(1000, 7, 42466, 3, 42465))
    ensures 170_000_000 * Scale(7) / 100 == 42500 * 1000
  {
    ScaleValues();
    var table := MinFrequTable(170_000_000);
    assert table[0] == 83009 && table[1] == 41504 && table[2] == 20752 && table[3] == 10376;
    assert table[4] == 5188 && table[5] == 2594 && table[6] == 1297 && table[7] == 648;
    assert FirstFrom(1000, table, 7) == Some(7);
    assert RawPeriod(1000, 648) == 42466;
  }

  /** The duty maximum stays within the period exactly when the table value fits or the margin does. */
  lemma AdjustMaxWithinPeriod(period: nat, dutyMin: nat, tableMax: nat, rollover: bool)
    requires period < UINT32_MODULUS && dutyMin < UINT32_MODULUS
    requires Margin(dutyMin, rollover) < UINT32_MODULUS
    ensures AdjustMax(period, dutyMin, tableMax, rollover) <= period <==>
      tableMax <= period || Margin(dutyMin, rollover) <= period
    ensures tableMax <= period ==> AdjustMax(period, dutyMin, tableMax, rollover) == tableMax
  {
  }

  /** Neighbouring thresholds differ by a factor of two, up to one unit of truncation. */
  lemma ThresholdDoubling(sys: nat, p: nat)
    requires 1 <= p < PRESCALER_COUNT
    ensures MinFrequ(sys, p - 1) <= 2 * MinFrequ(sys, p) + 1
  {
    ScaleValues();
    MinFrequIsScaled(sys, p);
    MinFrequIsScaled(sys, p - 1);
    var x := (sys / 100) * Scale(p);
    assert (sys / 100) * Scale(p - 1) == 2 * x;
    var q := x / COUNTER_MAX;
    assert x < COUNTER_MAX * (q + 1);
    DivUpperBound(2 * x, COUNTER_MAX, 2 * q + 1);
  }

  /** With a prescaler coarser than the finest, the raw period spans a third of the counter or more. */
  lemma CoarsePeriodIsLong(sys: nat, f: nat, p: nat)
    requires 1 <= p < PRESCALER_COUNT && 0 < f
    requires 1 <= MinFrequ(sys, p)
    requires !Meets(f, MinFrequTable(sys), p - 1)
    ensures RawPeriod(f, MinFrequ(sys, p)) >= COUNTER_MAX / 3
  {
    var m := MinFrequ(sys, p);
    ThresholdDoubling(sys, p);
    assert f <= 3 * m;
    MulMono(COUNTER_MAX / 3, f, 3 * m);
    DivLowerBound(COUNTER_MAX * m, f, COUNTER_MAX / 3);
  }

  /** With the finest prescaler and a clock of at least 68703 Hz, the raw period is at least 31. */
  lemma FinePeriodFloor(sys: nat, f: nat)
    requires 68703 <= sys && 0 < f <= sys
    ensures RawPeriod(f, MinFrequ(sys, 0)) >= 31
  {
    ScaleValues();
    var a := sys / 100;
    var m := MinFrequ(sys, 0);
    assert m == a * 3200 / COUNTER_MAX;
    assert COUNTER_MAX * m > a * 3200 - COUNTER_MAX;
    assert a * 100 > sys - 100;
    assert COUNTER_MAX * m >= 31 * sys;
    MulMono(31, f, sys);
    DivLowerBound(COUNTER_MAX * m, f, 31);
  }

  /** A raw period of a third of the counter leaves room for every duty table entry. */
  lemma LongPeriodKeepsDutyOrder(raw: nat, p: nat, rollover: bool)
    requires COUNTER_MAX / 3 <= raw <= COUNTER_MAX && p < PRESCALER_COUNT
    ensures var period := FinalPeriod(raw, rollover);
      var dmin := DutyLimits(p).0;
      dmin <= AdjustMax(period, dmin, DutyLimits(p).1, rollover) <= period
  {
  }

  /** A raw period of 31 or more keeps the finest prescaler's normal-mode maximum in range. */
  lemma FinePeriodKeepsMax(raw: nat)
    requires 31 <= raw <= COUNTER_MAX
    ensures var period := FinalPeriod(raw, false);
      AdjustMax(period, DutyLimits(0).0, DutyLimits(0).1, false) <= period
  {
  }

  /**
   * Duty bounds after `setupFrequency`, for any clock whose coarsest threshold is at least
   * 1 Hz: in normal mode duty_max never exceeds the period, and with any prescaler but the
   * finest duty_min <= duty_max <= period holds in both modes.  (With the finest prescaler
   * in rollover mode the uint32 subtraction can wrap: see DutyMaxWrapsAtFullClock.)
   */
  lemma {:induction false} DutyBoundsHold(sys: nat, requested: nat, rollover: bool)
    requires 0 < sys < UINT32_MODULUS && 0 < requested
    requires 1 <= MinFrequ(sys, 7)
    requires Reachable(sys, requested)
    ensures Resolve(sys, requested, rollover).Resolved?
    ensures var t := Resolve(sys, requested, rollover).timing;
      && t.dutyMin == DutyLimits(t.prescaler).0
      && (t.prescaler >= 1 ==> t.dutyMin <= t.dutyMax <= t.period)
      && (!rollover ==> t.dutyMax <= t.period)
  {
    ResolveFailsIffUnreachable(sys, requested, rollover);
    ResolveUnfold(sys, requested, rollover);
    var f := Clamp(requested, sys);
    var p := SelectPrescaler(f, MinFrequTable(sys)).value;
    var raw := RawPeriod(f, MinFrequ(sys, p));
    if p >= 1 {
      MinFrequNonIncreasing(sys, p, 7);
      CoarsePeriodIsLong(sys, f, p);
      LongPeriodKeepsDutyOrder(raw, p, rollover);
    } else if !rollover {
      ScaleValues();
      assert sys / 100 * 25 >= COUNTER_MAX;
      FinePeriodFloor(sys, f);
      FinePeriodKeepsMax(raw);
    }
  }

  /**
   * At 170 MHz a request equal to prescaler 1's threshold (41504 Hz) gives the raw period
   * 0xFFFF, which the evening step turns into 0x10000: one above the 16-bit counter.
   */
  lemma PeriodReachesFullCounter()
    ensures Resolve(170_000_000, 41504, false) == Resolved(Timing(41504, 1, 0x10000, 48, 0xFFEF))
  {
    ScaleValues();
    var table := MinFrequTable(170_000_000);
    assert table[0] == 83009 && table[1] == 41504;
    assert FirstFrom(41504, table, 1) == Some(1);
    assert RawPeriod(41504, 41504) == COUNTER_MAX;
  }

  /**
   * The exact condition for ordered duty bounds, for every prescaler and both modes:
   * duty_min <= duty_max <= period holds exactly when the table maximum fits the period
   * or the period leaves room for duty_min plus the margin.
   */
  lemma {:induction false} DutyOrderExactly(sys: nat, requested: nat, rollover: bool)
    requires 0 < sys < UINT32_MODULUS && 0 < requested
    requires Resolve(sys, requested, rollover).Resolved?
    ensures var t := Resolve(sys, requested, rollover).timing;
      t.dutyMin <= t.dutyMax <= t.period <==>
        DutyLimits(t.prescaler).1 <= t.period || t.dutyMin + Margin(t.dutyMin, rollover) <= t.period
  {
    ResolveUnfold(sys, requested, rollover);
    PeriodBounds(sys, requested, rollover);
  }

  /**
   * At 170 MHz a 1 MHz request in rollover mode takes the finest prescaler and still has
   * ordered bounds: period 2720, duty bounds [96, 2656].
   */
  lemma Resolve1MHzRollover()
    ensures Resolve(170_000_000, 1_000_000, true) == Resolved(Timing(1_000_000, 0, 2720, 96, 2656))
  {
    ScaleValues();
    var table := MinFrequTable(170_000_000);
    assert table[0] == 83009;
    assert RawPeriod(1_000_000, 83009) == 5439;
  }

  /**
   * At a 50 MHz clock a 14.8 MHz request gives period 108 and duty bounds [96, 76]: the
   * bounds cross, so `write` maps 0.5 to 96 and 1.0 to 76.
   */
  lemma DutyBoundsCrossAt50MHz()
    ensures Resolve(50_000_000, 14_800_000, false) == Resolved(Timing(14_800_000, 0, 108, 96, 76))
    ensures DutyCycle.DutyFor(108, 96, 76, 0.5) == 96 && DutyCycle.DutyFor(108, 96, 76, 1.0) == 76
  {
    ScaleValues();
    var table := MinFrequTable(50_000_000);
    assert table[0] == 24414;
    assert RawPeriod(14_800_000, 24414) == 108;
    assert DutyCycle.Ticks(108, 0.5) == 54;
  }

  /**
   * At the STM32G474's 170 MHz clock, the constructor's 42 kHz selects prescaler 1 (x16),
   * a 64762-tick period and duty bounds [48, 64746]; in rollover mode the period is 32381
   * and the duty maximum 32349.
   */
  lemma Resolve42kHz()
    ensures Resolve(170_000_000, 42000, false) == Resolved(Timing(42000, 1, 64762, 48, 64746))
    ensures Resolve(170_000_000, 42000, true) == Resolved(Timing(42000, 1, 32381, 48, 32349))
  {
    ScaleValues();
    var table := MinFrequTable(170_000_000);
    assert table[0] == 83009 && table[1] == 41504;
    assert FirstFrom(42000, table, 1) == Some(1);
    assert RawPeriod(42000, 41504) == 64761;
  }

  /**
   * At a full-clock request (170 MHz) in rollover mode the period is 16 ticks while the
   * margin is 64, so `period - margin` wraps: duty_max becomes 2^32 - 48, far above the
   * period, and duty_min (96) exceeds the period as well.
   */
  lemma DutyMaxWrapsAtFullClock()
    ensures Resolve(170_000_000, 170_000_000, true) ==
      Resolved(Timing(170_000_000, 0, 16, 96, UINT32_MODULUS - 48))
    ensures Resolve(170_000_000, 170_000_000, false) ==
      Resolved(Timing(170_000_000, 0, 32, 96, 0))
  {
    ScaleValues();
    var table := MinFrequTable(170_000_000);
    assert table[0] == 83009;
    assert RawPeriod(170_000_000, 83009) == 31;
  }

  /** The scan returns any index that meets its threshold while no finer one does. */
  lemma SelectIsFirst(f: nat, table: seq<nat>, p: nat)
    requires |table| == PRESCALER_COUNT && p < PRESCALER_COUNT
    requires Meets(f, table, p)
    requires forall q :: 0 <= q < p ==> !Meets(f, table, q)
    ensures SelectPrescaler(f, table) == Some(p)
  {
    var r := SelectPrescaler(f, table);
    assert r.Some?;
  }
}
