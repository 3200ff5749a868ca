/**
 * The resource table of the driver: which HRTIM timer unit, output, counter-reset
 * token and compare unit each supported pin is wired to.  Pins are identified by
 * their numeric PinName code; the five supported ones are the board aliases of
 * PB12, PB14, PC6, PB15 and PC7 in the STM32 PinName encoding (port * 16 + line).
 */
module PinTable {
  import opened HrtimDefs

  type PinName = nat

  const PWM1_OUT: PinName := 0x1C  // PB12
  const PWM2_OUT: PinName := 0x1E  // PB14
  const PWM3_OUT: PinName := 0x26  // PC6
  const DIO7: PinName := 0x1F      // PB15
  const DIO8: PinName := 0x27      // PC7

  /** Timer-unit indices, as the HAL numbers them. */
  const TIMER_A: nat := 0
  const TIMER_B: nat := 1
  const TIMER_C: nat := 2
  const TIMER_D: nat := 3
  const TIMER_E: nat := 4
  const TIMER_F: nat := 5

  /** HAL output identifiers: one bit per output, two outputs per unit. */
  const OUTPUT_TC1: bv32 := 0x10
  const OUTPUT_TD1: bv32 := 0x40
  const OUTPUT_TD2: bv32 := 0x80
  const OUTPUT_TF1: bv32 := 0x400
  const OUTPUT_TF2: bv32 := 0x800

  datatype CompareUnit = Compare1 | Compare2 | Compare3

  /** GPIO ports the supported pins live on. */
  datatype GpioPort = GpioB | GpioC

  /**
   * Everything the constructor derives from the pin.  `compare` is both the compare
   * unit written by `write` and the comparator that resets the output.
   */
  datatype Binding = Binding(timer: nat, reset: bv32, output: bv32, compare: CompareUnit, port: GpioPort, line: nat)

  /**
   * HAL software-reset token of a timer unit (the TxRST bits of HRTIM_CR2): one bit per
   * unit, consecutive from bit 9, so timers C and D together are 0x1800.
   */
  function TimerResetBit(timer: nat): (r: bv32)
    requires timer < NUM_TIM_MAX
    ensures r != 0 && r & (r - 1) == 0
  {
    match timer
    case 0 => 0x200
    case 1 => 0x400
    case 2 => 0x800
    case 3 => 0x1000
    case 4 => 0x2000
    case _ => 0x4000
  }

  /**
   * The pin switch of the constructor; `None` is the fatal "pin not recognized" path.
   * Each reset token is the one of the pin's timer (BindingWellFormed).
   */
  function Lookup(pin: PinName): Option<Binding>
  {
    if pin == PWM1_OUT then Some(Binding(TIMER_C, 0x800, OUTPUT_TC1, Compare1, GpioB, 12))
    else if pin == PWM2_OUT then Some(Binding(TIMER_D, 0x1000, OUTPUT_TD1, Compare1, GpioB, 14))
    else if pin == PWM3_OUT then Some(Binding(TIMER_F, 0x4000, OUTPUT_TF1, Compare1, GpioC, 6))
    else if pin == DIO7 then Some(Binding(TIMER_D, 0x1000, OUTPUT_TD2, Compare3, GpioB, 15))
    else if pin == DIO8 then Some(Binding(TIMER_F, 0x4000, OUTPUT_TF2, Compare2, GpioC, 7))
    else None
  }

  predicate Known(pin: PinName)
  {
    Lookup(pin).Some?
  }

  function TimerOf(pin: PinName): nat
    requires Known(pin)
  {
    Lookup(pin).value.timer
  }

  function OutputOf(pin: PinName): bv32
    requires Known(pin)
  {
    Lookup(pin).value.output
  }

  function ResetOf(pin: PinName): bv32
    requires Known(pin)
  {
    Lookup(pin).value.reset
  }

  /** The pin as stored in the uint8 `_tim_initialized` table. */
  function PinByte(pin: PinName): nat
  {
    pin % 256
  }

  /** Exactly five pins are supported. */
  lemma KnownPins(pin: PinName)
    ensures Known(pin) <==> pin in {PWM1_OUT, PWM2_OUT, PWM3_OUT, DIO7, DIO8}
  {
  }

  /**
   * Every supported pin is bound to a real timer unit, drives exactly one output bit,
   * and survives the uint8 truncation as a non-zero value, so the "unit configured"
   * guard (`_tim_initialized[idx] != 0`) sees every pin that claimed a unit.
   */
  lemma BindingWellFormed(pin: PinName)
    requires Known(pin)
    ensures TimerOf(pin) < NUM_TIM_MAX && ResetOf(pin) == TimerResetBit(TimerOf(pin))
    ensures OutputOf(pin) != 0 && OutputOf(pin) & (OutputOf(pin) - 1) == 0
    ensures 0 < PinByte(pin) < 256
  {
  }

  /**
   * Two supported pins share a timer unit exactly when they are the same pin, or the
   * pairs PWM2_OUT/DIO7 (timer D) and PWM3_OUT/DIO8 (timer F).
   */
  lemma SharedTimers(p: PinName, q: PinName)
    requires Known(p) && Known(q)
    ensures TimerOf(p) == TimerOf(q) <==>
      p == q || {p, q} == {PWM2_OUT, DIO7} || {p, q} == {PWM3_OUT, DIO8}
  {
    KnownPins(p);
    KnownPins(q);
  }

  /** Different pins drive different outputs, so their output bits never overlap. */
  lemma OutputsDisjoint(p: PinName, q: PinName)
    requires Known(p) && Known(q) && p != q
    ensures OutputOf(p) & OutputOf(q) == 0
  {
    KnownPins(p);
    KnownPins(q);
  }

  /** Reset tokens of two units overlap exactly when the units are the same. */
  lemma ResetBitsDisjoint(s: nat, t: nat)
    requires s < NUM_TIM_MAX && t < NUM_TIM_MAX
    ensures TimerResetBit(s) & TimerResetBit(t) != 0 <==> s == t
  {
  }
}
