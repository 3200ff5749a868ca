/**
 * The PwmOutG4 driver: process-wide HRTIM bookkeeping (class Hrtim1) and one PWM
 * channel per output pin (class PwmOutG4).  The vendor HAL is abstract: the calls the
 * driver makes are appended to two logs, configuration at construction and commands
 * at run time, and the set of running outputs is a bit mask.
 */
module Driver {
  import opened HrtimDefs
  import opened PinTable
  import Frequency
  import DutyCycle
  import SyncMasks

  /** The HAL configuration calls made while channels are constructed. */
  datatype Setup =
    | HrtimSetup                                                          // HRTIM1 clock, init and DLL calibration
    | TimerSetup(unit: nat, period: nat, prescaler: nat, rollover: bool)  // time base, counting mode, timer options
    | OutputSetup(unit: nat, output: bv32, compare: CompareUnit, inverted: bool, rollover: bool)
    | GpioSetup(port: GpioPort, line: nat)

  /** The HAL calls made by the run-time operations. */
  datatype Command =
    | SetCompare(unit: nat, compare: CompareUnit, value: nat)
    | BaseStart(unit: nat)
    | OutputStart(outputs: bv32)
    | OutputStop(outputs: bv32)
    | SoftwareReset(timers: bv32)

  /** Number of HRTIM bring-ups in a log. */
  function HrtimSetups(log: seq<Setup>): nat
  {
    if log == [] then 0
    else HrtimSetups(log[..|log| - 1]) + (if log[|log| - 1].HrtimSetup? then 1 else 0)
  }

  /** The counting modes (rollover or not) of the timer-wide configurations of `unit` in a log, in order. */
  function TimerModes(log: seq<Setup>, unit: nat): seq<bool>
  {
    if log == [] then []
    else
      var e := log[|log| - 1];
      TimerModes(log[..|log| - 1], unit) + (if e.TimerSetup? && e.unit == unit then [e.rollover] else [])
  }

  lemma HrtimSetupsAppend(log: seq<Setup>, e: Setup)
    ensures HrtimSetups(log + [e]) == HrtimSetups(log) + (if e.HrtimSetup? then 1 else 0)
  {
    assert (log + [e])[..|log|] == log;
  }

  lemma TimerModesAppend(log: seq<Setup>, e: Setup, u: nat)
    ensures TimerModes(log + [e], u) == TimerModes(log, u) + (if e.TimerSetup? && e.unit == u then [e.rollover] else [])
  {
    assert (log + [e])[..|log|] == log;
  }

  /**
   * The mode a channel ends up with: a unit already in rollover mode forces rollover on,
   * a unit already in normal mode forces it off, an unset unit takes the request.
   */
  function CoercedRollover(unitState: int, requested: bool): bool
  {
    if unitState == TIM_ROLLOVER_ENABLED && !requested then true
    else if unitState == TIM_ROLLOVER_DISABLED && requested then false
    else requested
  }

  /** Coercion makes the channel agree with a unit whose mode is set, and leaves the request alone otherwise. */
  lemma CoercionFollowsUnit(unitState: int, requested: bool)
    requires TIM_UNSET <= unitState <= TIM_ROLLOVER_ENABLED
    ensures unitState != TIM_UNSET ==> StateFor(CoercedRollover(unitState, requested)) == unitState
    ensures unitState == TIM_UNSET ==> CoercedRollover(unitState, requested) == requested
  {
  }

  /** Stopping a set of outputs and starting it again leaves it running and the others as they were. */
  lemma RestartKeepsOthers(running: bv32, outputs: bv32)
    ensures (running & !outputs) | outputs == running | outputs
  {
  }

  /**
   * The process-wide state of the driver: the HRTIM1 handle's one-shot flag, the per-unit
   * mode and owner tables, the threshold table, and the abstract HAL.
   */
  class Hrtim1 {
    const sysClock: nat
    const generalState: array<int>   // per unit: TIM_UNSET, TIM_ROLLOVER_DISABLED or TIM_ROLLOVER_ENABLED
    const initializedBy: array<int>  // per unit: 0, or the uint8 pin code of the channel that configured it
    const minFrequ: array<nat>       // per prescaler: lowest usable frequency
    var initialized: bool
    var running: bv32                // outputs currently enabled
    var setups: seq<Setup>           // HAL configuration calls made so far
    var commands: seq<Command>       // HAL run-time calls made so far

    ghost predicate Valid()
      reads this`initialized, this`setups, generalState, initializedBy
    {
      && 0 < sysClock < UINT32_MODULUS
      && generalState.Length == NUM_TIM_MAX && initializedBy.Length == NUM_TIM_MAX
      && minFrequ.Length == PRESCALER_COUNT
      && generalState != initializedBy
      // HRTIM1 is brought up once, by the first construction
      && HrtimSetups(setups) == (if initialized then 1 else 0)
      && (forall u :: 0 <= u < NUM_TIM_MAX ==> UnitOk(u))
    }

    /**
     * Unit `u` has a recorded mode, a uint8 owner that implies a recorded mode, and at most
     * one timer-wide configuration, present exactly when a pin owns the unit and made in
     * the unit's recorded mode.
     */
    ghost predicate UnitOk(u: nat)
      reads this`setups, generalState, initializedBy
    {
      && u < generalState.Length && u < initializedBy.Length
      && TIM_UNSET <= generalState[u] <= TIM_ROLLOVER_ENABLED
      && 0 <= initializedBy[u] < 256
      && (initializedBy[u] != 0 ==> generalState[u] != TIM_UNSET)
      && TimerModes(setups, u) == if initializedBy[u] != 0 then [generalState[u] == TIM_ROLLOVER_ENABLED] else []
    }

    /** Once HRTIM1 is up, the threshold table holds the minimum frequency of every prescaler. */
    ghost predicate TableReady()
      reads this`initialized, minFrequ
    {
      initialized ==> minFrequ[..] == Frequency.MinFrequTable(sysClock)
    }

    constructor (sysClock: nat)
      requires 0 < sysClock < UINT32_MODULUS
      ensures Valid() && TableReady() && fresh(generalState) && fresh(initializedBy) && fresh(minFrequ)
      ensures this.sysClock == sysClock && !initialized && running == 0 && setups == [] && commands == []
      ensures forall u :: 0 <= u < NUM_TIM_MAX ==> generalState[u] == TIM_UNSET && initializedBy[u] == 0
    {
      this.sysClock := sysClock;
      generalState := new int[NUM_TIM_MAX](_ => TIM_UNSET);
      initializedBy := new int[NUM_TIM_MAX](_ => 0);
      minFrequ := new nat[PRESCALER_COUNT](_ => 0);
      initialized := false;
      running := 0;
      setups := [];
      commands := [];
    }

    /**
     * HRTIM1 bring-up (abstract) followed by the threshold-table loop, and the one-shot
     * flag that keeps it from running again.
     */
    method SetupHrtim1()
      requires Valid() && !initialized
      modifies this`setups, this`initialized, minFrequ
      ensures Valid() && initialized && TableReady()
      ensures setups == old(setups) + [HrtimSetup]
      ensures minFrequ[..] == Frequency.MinFrequTable(sysClock)
    {
      Append(HrtimSetup);
      FillThresholds();
      initialized := true;
    }

    /** The loop of `setupHRTIM1` that computes the minimum frequency of every prescaler. */
    method FillThresholds()
      requires minFrequ.Length == PRESCALER_COUNT
      modifies minFrequ
      ensures minFrequ[..] == Frequency.MinFrequTable(sysClock)
    {
      ghost var table := Frequency.MinFrequTable(sysClock);
      for i := 0 to PRESCALER_COUNT
        invariant forall k :: 0 <= k < i ==> minFrequ[k] == table[k]
      {
        var m := (sysClock / 100) * Frequency.Scale(i) / COUNTER_MAX;
        Frequency.MinFrequIsScaled(sysClock, i);
        assert m == table[i];
        minFrequ[i] := m;
      }
      assert minFrequ[..] == table;
    }

    /** Records the counting mode of a unit; a unit already set keeps its mode. */
    method RecordMode(unit: nat, rollover: bool)
      requires Valid() && unit < NUM_TIM_MAX
      requires generalState[unit] == TIM_UNSET || generalState[unit] == StateFor(rollover)
      modifies generalState
      ensures Valid() && generalState[unit] == StateFor(rollover)
      ensures forall u :: 0 <= u < NUM_TIM_MAX && u != unit ==> generalState[u] == old(generalState[u])
    {
      generalState[unit] := StateFor(rollover);
      forall u | 0 <= u < NUM_TIM_MAX
        ensures UnitOk(u)
      {
        assert old(UnitOk(u));
      }
    }

    /**
     * Timer-wide configuration of one unit (period, prescaler, counting mode), and the
     * record of the pin that did it.
     */
    method SetupPwmTimer(unit: nat, owner: int, period: nat, prescaler: nat, rollover: bool)
      requires Valid() && unit < NUM_TIM_MAX && 0 < owner < 256
      requires initializedBy[unit] == 0 && generalState[unit] == StateFor(rollover)
      modifies this`setups, initializedBy
      ensures Valid() && initializedBy[unit] == owner
      ensures forall u :: 0 <= u < NUM_TIM_MAX && u != unit ==> initializedBy[u] == old(initializedBy[u])
      ensures setups == old(setups) + [TimerSetup(unit, period, prescaler, rollover)]
    {
      var e := TimerSetup(unit, period, prescaler, rollover);
      HrtimSetupsAppend(setups, e);
      ghost var before := setups;
      setups := setups + [e];
      initializedBy[unit] := owner;
      forall u | 0 <= u < NUM_TIM_MAX
        ensures UnitOk(u)
      {
        assert old(UnitOk(u));
        TimerModesAppend(before, e, u);
      }
    }

    /** Compare unit, polarity and reset source of one output. */
    method SetupPwmOutput(unit: nat, output: bv32, compare: CompareUnit, inverted: bool, rollover: bool)
      requires Valid()
      modifies this`setups
      ensures Valid() && setups == old(setups) + [OutputSetup(unit, output, compare, inverted, rollover)]
    {
      Append(OutputSetup(unit, output, compare, inverted, rollover));
    }

    method SetupGpio(port: GpioPort, line: nat)
      requires Valid()
      modifies this`setups
      ensures Valid() && setups == old(setups) + [GpioSetup(port, line)]
    {
      Append(GpioSetup(port, line));
    }

    /** Logs a configuration call that configures no timer unit. */
    method Append(e: Setup)
      requires Valid() && !e.TimerSetup?
      modifies this`setups
      ensures setups == old(setups) + [e]
      ensures HrtimSetups(setups) == HrtimSetups(old(setups)) + (if e.HrtimSetup? then 1 else 0)
      ensures forall u :: 0 <= u < NUM_TIM_MAX ==> UnitOk(u)
    {
      HrtimSetupsAppend(setups, e);
      setups := setups + [e];
      forall u | 0 <= u < NUM_TIM_MAX
        ensures UnitOk(u)
      {
        assert old(UnitOk(u));
        TimerModesAppend(old(setups), e, u);
      }
    }

    method SetCompareValue(unit: nat, compare: CompareUnit, value: nat)
      modifies this`commands
      ensures commands == old(commands) + [SetCompare(unit, compare, value)]
    {
      commands := commands + [SetCompare(unit, compare, value)];
    }

    method SimpleBaseStart(unit: nat)
      modifies this`commands
      ensures commands == old(commands) + [BaseStart(unit)]
    {
      commands := commands + [BaseStart(unit)];
    }

    method WaveformOutputStart(outputs: bv32)
      modifies this`commands, this`running
      ensures commands == old(commands) + [OutputStart(outputs)]
      ensures running == old(running) | outputs
    {
      commands := commands + [OutputStart(outputs)];
      running := running | outputs;
    }

    method WaveformOutputStop(outputs: bv32)
      modifies this`commands, this`running
      ensures commands == old(commands) + [OutputStop(outputs)]
      ensures SyncMasks.Cleared(old(running), running, outputs)
    {
      commands := commands + [OutputStop(outputs)];
      running := running & !outputs;
    }

    method SoftwareResetTimers(timers: bv32)
      modifies this`commands
      ensures commands == old(commands) + [SoftwareReset(timers)]
    {
      commands := commands + [SoftwareReset(timers)];
    }
  }

  /** One PWM output channel. */
  class PwmOutG4 {
    const ctx: Hrtim1
    const pin: PinName
    const binding: Binding
    const inverted: bool
    const requested: nat             // frequency passed to the constructor
    var rollover: bool
    var coerced: bool                // the unit's mode overrode the requested one
    var frequency: nat
    var prescaler: nat
    var period: nat
    var dutyMin: nat
    var dutyMax: nat
    var pwm: real
    var dutyCycle: nat

    /** The binding is the pin table's entry for this channel's pin. */
    ghost predicate Bound()
      reads this
    {
      Known(pin) && binding == Lookup(pin).value
    }

    /** Binding and timing are what the pin table and the resolver give for this channel. */
    ghost predicate Configured()
      reads this
    {
      && Bound()
      && 0 < ctx.sysClock < UINT32_MODULUS && 0 < requested
      && Frequency.Resolve(ctx.sysClock, requested, rollover) ==
         Frequency.Resolved(Frequency.Timing(frequency, prescaler, period, dutyMin, dutyMax))
    }

    /** The channel's mode is the one recorded for its unit. */
    ghost predicate AgreesWithUnit()
      reads this, ctx.generalState
    {
      binding.timer < ctx.generalState.Length && ctx.generalState[binding.timer] == StateFor(rollover)
    }

    /**
     * Construction: pin lookup (an unknown pin halts), rollover coercion against the
     * unit's recorded mode, then `InitPwm`.  A frequency the resolver rejects halts too.
     */
    constructor (ctx: Hrtim1, pin: PinName, frequency: nat, inverted: bool, rollover: bool)
      requires ctx.Valid() && ctx.TableReady()
      requires Known(pin)
      requires 0 < frequency && Frequency.Reachable(ctx.sysClock, frequency)
      modifies ctx, ctx.generalState, ctx.initializedBy, ctx.minFrequ
      ensures ctx.Valid() && ctx.TableReady() && Configured() && AgreesWithUnit()
      ensures this.ctx == ctx && this.pin == pin && this.inverted == inverted && requested == frequency
      ensures this.rollover == CoercedRollover(old(ctx.generalState[TimerOf(pin)]), rollover)
      ensures coerced <==> this.rollover != rollover
      ensures old(ctx.generalState[TimerOf(pin)]) != TIM_UNSET ==>
        ctx.generalState[TimerOf(pin)] == old(ctx.generalState[TimerOf(pin)])
      ensures forall u :: 0 <= u < NUM_TIM_MAX && u != TimerOf(pin) ==> ctx.generalState[u] == old(ctx.generalState[u])
      ensures ctx.initializedBy[TimerOf(pin)] ==
        if old(ctx.initializedBy[TimerOf(pin)]) == 0 then PinByte(pin) else old(ctx.initializedBy[TimerOf(pin)])
      ensures forall u :: 0 <= u < NUM_TIM_MAX && u != TimerOf(pin) ==> ctx.initializedBy[u] == old(ctx.initializedBy[u])
      ensures ctx.initialized && ctx.running == old(ctx.running) && ctx.commands == old(ctx.commands)
      ensures ctx.setups == old(ctx.setups)
        + (if old(ctx.initialized) then [] else [HrtimSetup])
        + (if old(ctx.initializedBy[TimerOf(pin)]) == 0 then [TimerSetup(TimerOf(pin), period, prescaler, this.rollover)] else [])
        + [OutputSetup(TimerOf(pin), OutputOf(pin), binding.compare, inverted, this.rollover), GpioSetup(binding.port, binding.line)]
    {
      this.ctx := ctx;
      this.pin := pin;
      this.inverted := inverted;
      this.requested := frequency;
      this.binding := Lookup(pin).value;
      this.frequency := frequency;
      this.rollover := rollover;
      new;
      BindingWellFormed(pin);
      assert binding.timer == TimerOf(pin) && binding.output == OutputOf(pin);
      AdoptUnitMode(rollover);
      InitPwm();
    }

    /**
     * The mode step of the constructor: a unit already in rollover mode forces rollover
     * on, one in normal mode forces it off; the unit then records the channel's mode.
     */
    method AdoptUnitMode(requestedMode: bool)
      requires ctx.Valid() && binding.timer < NUM_TIM_MAX && rollover == requestedMode
      modifies this`rollover, this`coerced, ctx.generalState
      ensures ctx.Valid()
      ensures rollover == CoercedRollover(old(ctx.generalState[binding.timer]), requestedMode)
      ensures coerced <==> rollover != requestedMode
      ensures ctx.generalState[binding.timer] == StateFor(rollover)
      ensures old(ctx.generalState[binding.timer]) != TIM_UNSET ==>
        ctx.generalState[binding.timer] == old(ctx.generalState[binding.timer])
      ensures forall u :: 0 <= u < NUM_TIM_MAX && u != binding.timer ==> ctx.generalState[u] == old(ctx.generalState[u])
    {
      var unit := binding.timer;
      if ctx.generalState[unit] == TIM_ROLLOVER_ENABLED && !rollover {
        rollover := true;
      }
      if ctx.generalState[unit] == TIM_ROLLOVER_DISABLED && rollover {
        rollover := false;
      }
      coerced := rollover != requestedMode;
      assert ctx.UnitOk(unit);
      CoercionFollowsUnit(ctx.generalState[unit], requestedMode);
      ctx.RecordMode(unit, rollover);
    }

    /**
     * HRTIM1 bring-up on the first construction only, timing resolution, then the unit
     * and this output.
     */
    method InitPwm()
      requires ctx.Valid() && ctx.TableReady() && Bound()
      requires 0 < requested && frequency == requested && Frequency.Reachable(ctx.sysClock, requested)
      requires ctx.generalState[binding.timer] == StateFor(rollover)
      modifies this`frequency, this`prescaler, this`period, this`dutyMin, this`dutyMax
      modifies ctx, ctx.initializedBy, ctx.minFrequ
      ensures ctx.Valid() && ctx.TableReady() && Configured() && ctx.initialized
      ensures ctx.running == old(ctx.running) && ctx.commands == old(ctx.commands)
      ensures ctx.initializedBy[binding.timer] ==
        if old(ctx.initializedBy[binding.timer]) == 0 then PinByte(pin) else old(ctx.initializedBy[binding.timer])
      ensures forall u :: 0 <= u < NUM_TIM_MAX && u != binding.timer ==> ctx.initializedBy[u] == old(ctx.initializedBy[u])
      ensures ctx.setups == old(ctx.setups)
        + (if old(ctx.initialized) then [] else [HrtimSetup])
        + (if old(ctx.initializedBy[binding.timer]) == 0 then [TimerSetup(binding.timer, period, prescaler, rollover)] else [])
        + [OutputSetup(binding.timer, binding.output, binding.compare, inverted, rollover), GpioSetup(binding.port, binding.line)]
    {
      if !ctx.initialized {
        ctx.SetupHrtim1();
      }
      SetupFrequency();
      BindingWellFormed(pin);
      AttachOutput();
    }

    /**
     * Timer-wide configuration of the unit unless a channel already claimed it (the unit
     * then keeps that channel's period, prescaler and mode), then this output and its pin.
     */
    method AttachOutput()
      requires ctx.Valid() && binding.timer < NUM_TIM_MAX && 0 < PinByte(pin) < 256
      requires ctx.generalState[binding.timer] == StateFor(rollover)
      modifies ctx`setups, ctx.initializedBy
      ensures ctx.Valid()
      ensures ctx.initializedBy[binding.timer] ==
        if old(ctx.initializedBy[binding.timer]) == 0 then PinByte(pin) else old(ctx.initializedBy[binding.timer])
      ensures forall u :: 0 <= u < NUM_TIM_MAX && u != binding.timer ==> ctx.initializedBy[u] == old(ctx.initializedBy[u])
      ensures ctx.setups == old(ctx.setups)
        + (if old(ctx.initializedBy[binding.timer]) == 0 then [TimerSetup(binding.timer, period, prescaler, rollover)] else [])
        + [OutputSetup(binding.timer, binding.output, binding.compare, inverted, rollover), GpioSetup(binding.port, binding.line)]
    {
      ClaimUnit();
      ghost var claimed := ctx.setups;
      var output := OutputSetup(binding.timer, binding.output, binding.compare, inverted, rollover);
      var gpio := GpioSetup(binding.port, binding.line);
      ctx.SetupPwmOutput(binding.timer, binding.output, binding.compare, inverted, rollover);
      ctx.SetupGpio(binding.port, binding.line);
      assert ctx.setups == claimed + [output, gpio];
    }

    /** The timer-wide step of `initPWM`: only the first channel on a unit configures it. */
    method ClaimUnit()
      requires ctx.Valid() && binding.timer < NUM_TIM_MAX && 0 < PinByte(pin) < 256
      requires ctx.generalState[binding.timer] == StateFor(rollover)
      modifies ctx`setups, ctx.initializedBy
      ensures ctx.Valid()
      ensures ctx.initializedBy[binding.timer] ==
        if old(ctx.initializedBy[binding.timer]) == 0 then PinByte(pin) else old(ctx.initializedBy[binding.timer])
      ensures forall u :: 0 <= u < NUM_TIM_MAX && u != binding.timer ==> ctx.initializedBy[u] == old(ctx.initializedBy[u])
      ensures ctx.setups == old(ctx.setups)
        + (if old(ctx.initializedBy[binding.timer]) == 0 then [TimerSetup(binding.timer, period, prescaler, rollover)] else [])
    {
      if ctx.initializedBy[binding.timer] == 0 {
        ctx.SetupPwmTimer(binding.timer, PinByte(pin), period, prescaler, rollover);
      }
    }

    /**
     * The prescaler scan of `setupFrequency`: the first ratio whose threshold the
     * frequency exceeds (strictly for ratio 0, at least for the others).
     */
    method ScanPrescalers(f: nat) returns (p: nat)
      requires ctx.minFrequ.Length == PRESCALER_COUNT && ctx.minFrequ[..] == Frequency.MinFrequTable(ctx.sysClock)
      requires f >= ctx.minFrequ[7]
      ensures Frequency.SelectPrescaler(f, Frequency.MinFrequTable(ctx.sysClock)) == Some(p)
    {
      var table := ctx.minFrequ;
      ghost var t := table[..];
      if f > table[0] {
        p := 0;
      } else if f >= table[1] {
        p := 1;
      } else if f >= table[2] {
        p := 2;
      } else if f >= table[3] {
        p := 3;
      } else if f >= table[4] {
        p := 4;
      } else if f >= table[5] {
        p := 5;
      } else if f >= table[6] {
        p := 6;
      } else if f >= table[7] {
        p := 7;
      } else {
        // the minimum-frequency error halts; the precondition rules it out
        assert false;
      }
      Frequency.SelectIsFirst(f, t, p);
    }

    /**
     * The period step of `setupFrequency`: 0xFFFF / f * threshold truncated, made even,
     * then halved in rollover mode.
     */
    method PeriodFor(f: nat, threshold: nat) returns (per: nat)
      requires 0 < f && threshold <= f
      ensures per == Frequency.FinalPeriod(Frequency.RawPeriod(f, threshold), rollover)
      ensures per <= COUNTER_MAX + 1
    {
      Frequency.PeriodFits(f, threshold, false);
      per := COUNTER_MAX * threshold / f;
      if (per / 2) * 2 != per {
        per := per + 1;
      }
      if rollover {
        per := per / 2;
      }
    }

    /**
     * The duty-bound step of `setupFrequency`: the hardware table row of the prescaler,
     * with the maximum pulled below the period, in uint32 arithmetic, when it does not fit.
     */
    method DutyBounds(p: nat, per: nat) returns (dMin: nat, dMax: nat)
      requires per < UINT32_MODULUS
      ensures dMin == Frequency.DutyLimits(p).0
      ensures dMax == Frequency.AdjustMax(per, dMin, Frequency.DutyLimits(p).1, rollover)
    {
      match p {
        case 0 => dMin, dMax := 0x0060, 0xFFDF;
        case 1 => dMin, dMax := 0x0030, 0xFFEF;
        case 2 => dMin, dMax := 0x0018, 0xFFF7;
        case 3 => dMin, dMax := 0x000C, 0xFFFB;
        case 4 => dMin, dMax := 0x0006, 0xFFFD;
        case _ => dMin, dMax := 0x0003, 0xFFFD;
      }
      if dMax > per {
        if rollover {
          dMax := Sub32(per, (dMin / 3) * 2);
        } else {
          dMax := Sub32(per, dMin / 3);
        }
      }
    }

    /** Frequency clamp, period and duty bounds, step by step. */
    method SetupFrequency()
      requires 0 < frequency && 0 < ctx.sysClock < UINT32_MODULUS
      requires Frequency.Reachable(ctx.sysClock, frequency)
      requires ctx.minFrequ.Length == PRESCALER_COUNT && ctx.minFrequ[..] == Frequency.MinFrequTable(ctx.sysClock)
      modifies this`frequency, this`prescaler, this`period, this`dutyMin, this`dutyMax
      ensures Frequency.Resolve(ctx.sysClock, old(frequency), rollover) ==
        Frequency.Resolved(Frequency.Timing(frequency, prescaler, period, dutyMin, dutyMax))
    {
      var sys := ctx.sysClock;
      var table := ctx.minFrequ;
      var f := frequency;
      if f > sys {
        f := sys;
      }

      var p := ScanPrescalers(f);
      var threshold := table[p];
      assert threshold == Frequency.MinFrequ(sys, p);
      Frequency.PeriodFits(f, threshold, p == 0);

      var per := PeriodFor(f, threshold);
      var dMin, dMax := DutyBounds(p, per);
      Frequency.ResolveFromSteps(sys, frequency, rollover, f, p, Frequency.RawPeriod(f, threshold), per, dMin, dMax);
      frequency, prescaler, period, dutyMin, dutyMax := f, p, per, dMin, dMax;
    }

    /**
     * Duty-cycle write: the fraction is saturated to [0, 1], zero gives compare value 0,
     * anything else the truncated share of the period clamped to [dutyMin, dutyMax];
     * the value goes to this channel's compare unit.
     */
    method Write(x: real)
      modifies this`pwm, this`dutyCycle, ctx`commands
      ensures pwm == DutyCycle.Saturate(x)
      ensures dutyCycle == DutyCycle.DutyFor(period, dutyMin, dutyMax, pwm)
      ensures x <= 0.0 ==> dutyCycle == 0
      ensures x > 0.0 && dutyMin <= dutyMax ==> dutyMin <= dutyCycle <= dutyMax
      ensures ctx.commands == old(ctx.commands) + [SetCompare(binding.timer, binding.compare, dutyCycle)]
    {
      var level: real;
      if x > 1.0 {
        level := 1.0;
      } else if x < 0.0 {
        level := 0.0;
      } else {
        level := x;
      }
      var duty: nat;
      if level == 0.0 {
        duty := 0;
      } else {
        duty := DutyCycle.Ticks(period, level);
        if duty < dutyMin {
          duty := dutyMin;
        } else if duty > dutyMax {
          duty := dutyMax;
        }
      }
      assert duty == DutyCycle.DutyFor(period, dutyMin, dutyMax, level);
      if x > 0.0 && dutyMin <= dutyMax {
        DutyCycle.NonZeroWithinBounds(period, dutyMin, dutyMax, x);
      }
      pwm, dutyCycle := level, duty;
      ctx.SetCompareValue(binding.timer, binding.compare, dutyCycle);
    }

    /** Starts the unit's counter and enables this channel's output. */
    method StartPwm()
      modifies ctx`commands, ctx`running
      ensures ctx.commands == old(ctx.commands) + [BaseStart(binding.timer), OutputStart(binding.output)]
      ensures ctx.running == old(ctx.running) | binding.output
    {
      ctx.SimpleBaseStart(binding.timer);
      ctx.WaveformOutputStart(binding.output);
    }

    /** Disables this channel's output only: every other pin's output keeps its state. */
    method StopPwm()
      requires Bound()
      modifies ctx`commands, ctx`running
      ensures ctx.commands == old(ctx.commands) + [OutputStop(binding.output)]
      ensures SyncMasks.Cleared(old(ctx.running), ctx.running, binding.output)
      ensures ctx.running & binding.output == 0
      ensures forall q :: Known(q) && q != pin ==> ctx.running & OutputOf(q) == old(ctx.running) & OutputOf(q)
    {
      ctx.WaveformOutputStop(binding.output);
      SyncMasks.StopClearsOnly(old(ctx.running), pin);
    }

    /**
     * Two-channel sync: nothing for two channels on one unit; otherwise both outputs are
     * stopped, both units' counters reset and both outputs restarted, together.
     */
    method SyncWith(other: PwmOutG4)
      requires other.ctx == ctx && Bound() && other.Bound()
      modifies ctx`commands, ctx`running
      ensures binding.timer == other.binding.timer ==>
        ctx.commands == old(ctx.commands) && ctx.running == old(ctx.running)
      ensures binding.timer != other.binding.timer ==>
        var outputs := binding.output + other.binding.output;
        && ctx.commands == old(ctx.commands) +
             [OutputStop(outputs), SoftwareReset(binding.reset + other.binding.reset), OutputStart(outputs)]
        && ctx.running == old(ctx.running) | outputs
    {
      if binding.timer == other.binding.timer {
        return;
      }
      var outputs := binding.output + other.binding.output;
      var resets := binding.reset + other.binding.reset;
      ctx.WaveformOutputStop(outputs);
      ctx.SoftwareResetTimers(resets);
      ctx.WaveformOutputStart(outputs);
      RestartKeepsOthers(old(ctx.running), outputs);
    }

    /**
     * Three-channel sync: the three outputs are stopped, the units of the three channels
     * reset and the outputs restarted, together.  The source adds the masks up with no
     * same-unit test, which resets the wrong unit when two of the channels share one
     * (SyncMasks.ThreeWaySumResetsWrongTimer); this is the corrected form on unions.
     */
    method SyncWithBoth(other1: PwmOutG4, other2: PwmOutG4)
      requires other1.ctx == ctx && other2.ctx == ctx
      requires Bound() && other1.Bound() && other2.Bound()
      modifies ctx`commands, ctx`running
      ensures var outputs := binding.output | other1.binding.output | other2.binding.output;
        && ctx.commands == old(ctx.commands) +
             [OutputStop(outputs), SoftwareReset(SyncMasks.ThreeWayResetUnion(pin, other1.pin, other2.pin)),
              OutputStart(outputs)]
        && ctx.running == old(ctx.running) | outputs
    {
      var outputs := binding.output | other1.binding.output | other2.binding.output;
      var resets := binding.reset | other1.binding.reset | other2.binding.reset;
      assert binding.reset == ResetOf(pin) && other1.binding.reset == ResetOf(other1.pin);
      assert other2.binding.reset == ResetOf(other2.pin);
      assert resets == SyncMasks.ThreeWayResetUnion(pin, other1.pin, other2.pin);
      ctx.WaveformOutputStop(outputs);
      ctx.SoftwareResetTimers(resets);
      ctx.WaveformOutputStart(outputs);
      RestartKeepsOthers(old(ctx.running), outputs);
    }
  }

  /**
   * Two channels on timer D built one after the other with possibly conflicting rollover
   * requests: the second is coerced to the first one's mode, both agree with the unit,
   * and the unit is configured exactly once, by the first.
   */
  method SharedUnitAgreement(ctx: Hrtim1, first: bool, second: bool) returns (a: PwmOutG4, b: PwmOutG4)
    requires ctx.Valid() && ctx.TableReady()
    requires ctx.generalState[TIMER_D] == TIM_UNSET && ctx.initializedBy[TIMER_D] == 0
    requires Frequency.Reachable(ctx.sysClock, 42000)
    modifies ctx, ctx.generalState, ctx.initializedBy, ctx.minFrequ
    ensures ctx.Valid() && ctx.TableReady() && a.Configured() && b.Configured() && ctx.commands == old(ctx.commands)
    ensures a.rollover == first && b.rollover == first && (b.coerced <==> second != first)
    ensures a.AgreesWithUnit() && b.AgreesWithUnit()
    ensures TimerModes(ctx.setups, TIMER_D) == [first] && ctx.initializedBy[TIMER_D] == PinByte(PWM2_OUT)
  {
    a := new PwmOutG4(ctx, PWM2_OUT, 42000, false, first);
    b := new PwmOutG4(ctx, DIO7, 42000, true, second);
    assert ctx.UnitOk(TIMER_D);
  }
}
