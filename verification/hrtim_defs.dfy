/** Constants shared by the PwmOutG4 driver model and the uint32 arithmetic it needs. */
module HrtimDefs {

  /** Number of HRTIM timer units (A..F) the process-wide tables are indexed by. */
  const NUM_TIM_MAX: nat := 6

  /** Values stored in the per-unit mode table. */
  const TIM_UNSET: int := 0
  const TIM_ROLLOVER_DISABLED: int := 1
  const TIM_ROLLOVER_ENABLED: int := 2

  /** Number of prescaler ratios (CKPSC = 0 .. 7). */
  const PRESCALER_COUNT: nat := 8

  /** Largest value of the 16-bit HRTIM counter. */
  const COUNTER_MAX: nat := 0xFFFF

  const UINT32_MODULUS: nat := 0x1_0000_0000

  datatype Option<T> = None | Some(value: T)

  /** `a - b` on uint32 operands: the difference wraps modulo 2^32. */
  function Sub32(a: nat, b: nat): (r: nat)
    requires a < UINT32_MODULUS && b < UINT32_MODULUS
    ensures r < UINT32_MODULUS
    ensures b <= a ==> r == a - b
    ensures a < b ==> r == UINT32_MODULUS + a - b
  {
    (a - b) % UINT32_MODULUS
  }

  /** Mode-table value for a unit running with the given rollover flag. */
  function StateFor(rollover: bool): (s: int)
    ensures s != TIM_UNSET
    ensures (s == TIM_ROLLOVER_ENABLED) == rollover
  {
    if rollover then TIM_ROLLOVER_ENABLED else TIM_ROLLOVER_DISABLED
  }
}
