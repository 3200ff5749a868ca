/**
 * The masks `syncWith` hands to the HAL.  The source adds the output identifiers and
 * the timer-reset tokens of the channels (uint32 `+`, so bv32 addition here); the HAL
 * reads the result as a bit set.
 */
module SyncMasks {
  import opened HrtimDefs
  import opened PinTable

  /** Two single bits add up to their union exactly when they are different bits. */
  lemma SingleBitsSumIsUnionIffDistinct(a: bv32, b: bv32)
    requires a != 0 && a & (a - 1) == 0
    requires b != 0 && b & (b - 1) == 0
    ensures a + b == a | b <==> a != b
  {
  }

  /**
   * For two channels on different timer units the sums the two-channel `syncWith`
   * computes are the unions of their outputs and of their units' reset tokens.
   */
  lemma {:induction false} PairMasksAreUnions(p: PinName, q: PinName)
    requires Known(p) && Known(q) && TimerOf(p) != TimerOf(q)
    ensures OutputOf(p) + OutputOf(q) == OutputOf(p) | OutputOf(q)
    ensures ResetOf(p) + ResetOf(q) == ResetOf(p) | ResetOf(q)
  {
    KnownPins(p);
    KnownPins(q);
  }

  /** The reset mask of the three-channel `syncWith`, as written: a sum of the tokens. */
  function ThreeWayResetSum(p: PinName, q: PinName, r: PinName): bv32
    requires Known(p) && Known(q) && Known(r)
  {
    ResetOf(p) + ResetOf(q) + ResetOf(r)
  }

  /** The reset mask the three-channel `syncWith` evidently intends: the union of the tokens. */
  function ThreeWayResetUnion(p: PinName, q: PinName, r: PinName): bv32
    requires Known(p) && Known(q) && Known(r)
  {
    ResetOf(p) | ResetOf(q) | ResetOf(r)
  }

  /**
   * As written, the three-channel sync has no same-timer guard, so PWM2_OUT and DIO7
   * (both on timer D) contribute timer D's token twice: the carry turns it into timer E's
   * token.  Timer D is then not reset at all, and the unrelated timer E is.  The output
   * sum has no such guard either: passing PWM2_OUT twice adds TD1 twice, and the carry
   * gives DIO7's TD2, so TD2 is stopped and restarted in place of TD1.
   */
  lemma ThreeWaySumResetsWrongTimer()
    ensures ThreeWayResetSum(PWM2_OUT, DIO7, PWM3_OUT) == TimerResetBit(TIMER_E) | TimerResetBit(TIMER_F)
    ensures ThreeWayResetSum(PWM2_OUT, DIO7, PWM3_OUT) & TimerResetBit(TIMER_D) == 0
    ensures OutputOf(PWM2_OUT) + OutputOf(PWM2_OUT) + OutputOf(PWM3_OUT) == OutputOf(DIO7) | OutputOf(PWM3_OUT)
    ensures (OutputOf(PWM2_OUT) + OutputOf(PWM2_OUT) + OutputOf(PWM3_OUT)) & OutputOf(PWM2_OUT) == 0
  {
  }

  /** The union mask resets a unit exactly when one of the three channels runs on it. */
  lemma {:induction false} ThreeWayUnionResetsExactly(p: PinName, q: PinName, r: PinName, t: nat)
    requires Known(p) && Known(q) && Known(r) && t < NUM_TIM_MAX
    ensures ThreeWayResetUnion(p, q, r) & TimerResetBit(t) != 0 <==>
      t == TimerOf(p) || t == TimerOf(q) || t == TimerOf(r)
  {
    BindingWellFormed(p);
    BindingWellFormed(q);
    BindingWellFormed(r);
    UnitUnionResetsExactly(TimerOf(p), TimerOf(q), TimerOf(r), t);
  }

  /** The union of three units' reset tokens meets a unit's token exactly when it is one of the three. */
  lemma UnitUnionResetsExactly(s1: nat, s2: nat, s3: nat, t: nat)
    requires s1 < NUM_TIM_MAX && s2 < NUM_TIM_MAX && s3 < NUM_TIM_MAX && t < NUM_TIM_MAX
    ensures (TimerResetBit(s1) | TimerResetBit(s2) | TimerResetBit(s3)) & TimerResetBit(t) != 0 <==>
      t == s1 || t == s2 || t == s3
  {
    ResetBitsDisjoint(s1, t);
    ResetBitsDisjoint(s2, t);
    ResetBitsDisjoint(s3, t);
    UnionMeets(TimerResetBit(s1), TimerResetBit(s2), TimerResetBit(s3), TimerResetBit(t));
  }

  /** A union of three masks meets a mask exactly when one of the three does. */
  lemma UnionMeets(a: bv32, b: bv32, c: bv32, x: bv32)
    ensures (a | b | c) & x != 0 <==> a & x != 0 || b & x != 0 || c & x != 0
  {
    assert (a | b | c) & x == (a & x) | (b & x) | (c & x);
  }

  /** When the three channels are on three different units the sum and the union agree. */
  lemma {:induction false} ThreeWaySumIsUnionOnDistinctTimers(p: PinName, q: PinName, r: PinName)
    requires Known(p) && Known(q) && Known(r)
    requires TimerOf(p) != TimerOf(q) && TimerOf(q) != TimerOf(r) && TimerOf(p) != TimerOf(r)
    ensures ThreeWayResetSum(p, q, r) == ThreeWayResetUnion(p, q, r)
    ensures OutputOf(p) + OutputOf(q) + OutputOf(r) == OutputOf(p) | OutputOf(q) | OutputOf(r)
  {
    KnownPins(p);
    KnownPins(q);
    KnownPins(r);
  }

  /** `after` is `before` with the bits of `out` cleared, as a stop command leaves it. */
  predicate Cleared(before: bv32, after: bv32, out: bv32)
  {
    after == before & !out
  }

  /** Stopping one pin's output clears it and leaves every other pin's output as it was. */
  lemma StopClearsOnly(running: bv32, p: PinName)
    requires Known(p)
    ensures (running & !OutputOf(p)) & OutputOf(p) == 0
    ensures forall q :: Known(q) && q != p ==> (running & !OutputOf(p)) & OutputOf(q) == running & OutputOf(q)
  {
    forall q | Known(q) && q != p
      ensures (running & !OutputOf(p)) & OutputOf(q) == running & OutputOf(q)
    {
      StopLeavesSiblings(running, p, q);
    }
  }

  /** Stopping one output leaves another pin's output as it was. */
  lemma StopLeavesSiblings(running: bv32, p: PinName, q: PinName)
    requires Known(p) && Known(q) && p != q
    ensures (running & !OutputOf(p)) & OutputOf(q) == running & OutputOf(q)
  {
    OutputsDisjoint(p, q);
    ClearKeepsDisjoint(running, OutputOf(p), OutputOf(q));
  }

  /** Clearing the bits of a mask leaves the bits of a disjoint mask as they were. */
  lemma ClearKeepsDisjoint(running: bv32, a: bv32, b: bv32)
    requires a & b == 0
    ensures (running & !a) & b == running & b
  {
  }
}
