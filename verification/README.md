# PwmOutG4 — a verified model of the STM32G4 HRTIM PWM driver

`PwmOutG4` drives PWM outputs of an STM32G474 from its high-resolution timer (HRTIM1).
Each object is one output pin. The object drives one output of one of six timer units
(A..F). Two pins can share a unit. The driver keeps process-wide static state:
- whether HRTIM1 has been brought up;
- the counting mode recorded for each unit (normal or rollover);
- the pin that configured each unit;
- a table of the lowest frequency each of the eight prescaler ratios can produce.

The project models:

- **the pin table** (`PinTable`): the five supported pins and, for each one, its unit,
  output bit, reset token, compare unit and GPIO line. An unknown pin halts.
- **the frequency resolver** (`Frequency`). It covers:
  - the threshold table `setupHRTIM1` fills;
  - the clamp to the system clock;
  - the prescaler scan from finest to coarsest;
  - the period computation, with the even step and the rollover halving;
  - the duty-cycle bounds, including the uint32 subtraction that adjusts the maximum.
- **the write path** (`DutyCycle`). The requested fraction is saturated to [0, 1]. A zero
  fraction gives compare value 0 exactly. Any other fraction gives the truncated share of
  the period, clamped to the duty bounds.
- **the sync masks** (`SyncMasks`): the output and reset masks that `syncWith` builds by
  adding the per-channel bits together.
- **the driver** (`Driver`):
  - class `Hrtim1` holds the static state and an abstract HAL. The HAL is two logs of the
    calls made plus the mask of running outputs. The configuration calls made while
    channels are constructed go to `setups`. The calls made by `write`, `startPWM`,
    `stopPWM` and `syncWith` go to `commands`.
  - class `PwmOutG4` is one channel. It covers construction (rollover coercion against the
    unit's recorded mode), `initPWM` (HRTIM1 brought up once, each unit configured once),
    `setupFrequency`, `write`, `startPWM`/`stopPWM` and both `syncWith` overloads.

The class invariant `Hrtim1.Valid` states that:
- HRTIM1 has been brought up exactly once if the one-shot flag is set, and never otherwise;
- each unit's timer-wide configuration appears at most once in the configuration log,
  exactly when a pin is recorded as the unit's owner (`Hrtim1.UnitOk`);
- that configuration used the counting mode recorded for the unit.

`Hrtim1.TableReady` adds that once HRTIM1 is up, the threshold table holds the resolver's
values. The run-time operations touch neither the configuration log nor the tables, so
they keep both by framing alone.

Integers are unbounded in Dafny. The one uint32 wrap-around that matters, the `duty_max`
adjustment, is written out as `HrtimDefs.Sub32`. The 64-bit intermediate of the threshold
computation is proved never to overflow. The `uint8_t` owner record is `PinTable.PinByte`.

## Model

| member | source | states |
|---|---|---|
| HrtimDefs.Sub32 | PwmOutG4.cpp:193-200 | uint32 subtraction: the exact difference when it is non-negative, otherwise the difference plus 2^32 |
| HrtimDefs.StateFor | PwmOutG4.cpp:85-90 | the state recorded for a unit is never "unset", and is TIM_ROLLOVER_ENABLED exactly when the channel is in rollover mode |
| PinTable.TimerResetBit | PwmOutG4.cpp:22-72 | every unit's software-reset token is a single bit |
| PinTable.KnownPins | PwmOutG4.cpp:22-72 | a pin has a binding exactly when it is one of PWM1_OUT, PWM2_OUT, PWM3_OUT, DIO7, DIO8 |
| PinTable.BindingWellFormed | PwmOutG4.cpp:22-72 | a known pin's unit is one of the six, its reset token is its unit's, its output is a single bit, and its pin id stays non-zero once stored as uint8 |
| PinTable.SharedTimers | PwmOutG4.cpp:22-72 | two known pins share a unit exactly when they are the same pin, PWM2_OUT with DIO7 (unit D), or PWM3_OUT with DIO8 (unit F) |
| PinTable.OutputsDisjoint | PwmOutG4.cpp:22-72 | distinct known pins drive disjoint output bits |
| PinTable.ResetBitsDisjoint | PwmOutG4.cpp:22-72 | two units' reset tokens overlap exactly when the units are equal |
| Frequency.MinFrequIsScaled | PwmOutG4.cpp:222-224 | the threshold of prescaler i is (sys/100)·(3200/2^i)/0xFFFF |
| Frequency.ScaleExact | PwmOutG4.cpp:223 | the multiplier 32·100/2^i divides exactly for every prescaler, so no truncation hides in it |
| Frequency.MinFrequTableOrdered | PwmOutG4.cpp:222-224 | the filled table has eight entries, never increases from the finest ratio to the coarsest, and every entry fits a uint32 for a uint32 clock |
| Frequency.ThresholdVsClock | PwmOutG4.cpp:223 | 0xFFFF × min_frequ[i] never exceeds the prescaler's real counter clock sys·32/2^i, and falls short of it by less than 0xFFFF + 3200/2^i |
| Frequency.MinFrequNonIncreasing | PwmOutG4.cpp:222-224 | a coarser prescaler never has a higher threshold |
| Frequency.MinFrequFitsUint32 | PwmOutG4.cpp:222-224 | the 64-bit intermediate never overflows and every threshold fits a uint32 |
| Frequency.ThresholdDoubling | PwmOutG4.cpp:222-224 | each threshold is at most twice the next coarser one plus one |
| Frequency.FirstFrom | PwmOutG4.cpp:135-150 | the scan from ratio i returns the first ratio that accepts the frequency, or nothing exactly when none from i on does |
| Frequency.SelectPrescaler | PwmOutG4.cpp:133-151 | the scan returns the first accepting ratio (a strict test for ratio 0, non-strict for the others), or nothing exactly when no ratio accepts |
| Frequency.SelectIsFirst | PwmOutG4.cpp:133-151 | a ratio that accepts the frequency while no finer one does is what the scan returns |
| Frequency.SelectFailsIffBelowCoarsest | PwmOutG4.cpp:148-151 | the scan fails exactly when the frequency is below the coarsest threshold min_frequ[7] |
| Frequency.SelectIsFinestUsable | PwmOutG4.cpp:133-151 | with the table non-increasing, ratio q accepts the frequency exactly when q is at or after the chosen ratio |
| Frequency.MakeEven | PwmOutG4.cpp:158-159 | the result is even and at most one more than its input |
| Frequency.ResolveUnfold | PwmOutG4.cpp:126-201 | the resolver succeeds exactly when the scan does, and then its timing is built from the clamped frequency, the chosen ratio, the period and the duty table, with the raw period at most 0xFFFF |
| Frequency.PeriodFits | PwmOutG4.cpp:154 | a frequency at or above the threshold gives a raw period of at most 0xFFFF, and strictly below it when the test is strict |
| Frequency.ResolveFailsIffUnreachable | PwmOutG4.cpp:148-151 | the resolver reports the minimum-frequency error exactly when the clamped frequency is below min_frequ[7], and it reports that value |
| Frequency.ResolveChoosesFinest | PwmOutG4.cpp:128-151 | a resolved frequency is the request clamped to the system clock, and ratio q accepts it exactly when q is at or after the chosen prescaler |
| Frequency.RolloverHalvesPeriod | PwmOutG4.cpp:154-163 | the normal-mode period is even; the rollover period is exactly half of it, with the same prescaler, frequency and duty_min |
| Frequency.PeriodBounds | PwmOutG4.cpp:154-163 | the period is at most 0x10000 ticks, one above the 16-bit counter's range (0x8000 in rollover mode); with the finest prescaler it is at most 0xFFFE (0x7FFF) |
| Frequency.PeriodReachesFullCounter | PwmOutG4.cpp:154-163 | at 170 MHz, a 41504 Hz request (prescaler 1's threshold) gives period 0x10000 in normal mode, with bounds [48, 0xFFEF] |
| Frequency.EvenPeriodRoundTrip | PwmOutG4.cpp:154-158 | an evened truncated quotient times the divisor lies within one divisor of the dividend |
| Frequency.PeriodRoundTrip | PwmOutG4.cpp:154-158 | period × frequency is within one frequency of 0xFFFF × min_frequ[prescaler], the truncated threshold the code divides (one tick relative to that threshold, not to the real clock) |
| Frequency.PeriodTracksClock | PwmOutG4.cpp:154-158 | against the prescaler's real counter clock, period × frequency exceeds the clock by at most one frequency and falls short of it by less than one frequency plus 0xFFFF + 3200/2^p |
| Frequency.PeriodMissesClockAt1kHz | PwmOutG4.cpp:154-158 | at 170 MHz, 1 kHz gives prescaler 7 and period 42466, while its 42.5 MHz counter clock needs 42500 ticks |
| Frequency.AdjustMaxWithinPeriod | PwmOutG4.cpp:193-200 | the adjusted duty_max is within the period exactly when the table value fits or the margin (duty_min/3, doubled in rollover mode) does |
| Frequency.CoarsePeriodIsLong | PwmOutG4.cpp:135-163 | with any prescaler but the finest, the raw period is at least a third of the counter |
| Frequency.FinePeriodFloor | PwmOutG4.cpp:133-154 | with the finest prescaler and a clock of at least 68703 Hz, the raw period is at least 31 ticks |
| Frequency.LongPeriodKeepsDutyOrder | PwmOutG4.cpp:157-200 | a raw period of a third of the counter or more gives duty_min ≤ duty_max ≤ period in both modes, for every duty table row |
| Frequency.FinePeriodKeepsMax | PwmOutG4.cpp:193-200 | with the finest prescaler in normal mode, a raw period of 31 or more keeps duty_max ≤ period |
| Frequency.DutyOrderExactly | PwmOutG4.cpp:166-200 | for every resolved timing, duty_min ≤ duty_max ≤ period holds exactly when the table maximum fits the period or duty_min plus the margin does |
| Frequency.Resolve1MHzRollover | PwmOutG4.cpp:154-200 | at 170 MHz, 1 MHz in rollover mode gives prescaler 0, period 2720 and ordered duty bounds [96, 2656] |
| Frequency.DutyBoundsCrossAt50MHz | PwmOutG4.cpp:154-200 | at a 50 MHz clock, 14.8 MHz gives prescaler 0, period 108 and crossed duty bounds [96, 76]; `write` then maps 0.5 to 96 and 1.0 to 76 |
| Frequency.DutyBoundsHold | PwmOutG4.cpp:166-200 | duty_min is the table value of the prescaler; in normal mode duty_max ≤ period; with any prescaler but the finest, duty_min ≤ duty_max ≤ period |
| Frequency.Resolve42kHz | PwmOutG4.cpp:18 | at 170 MHz, 42 kHz resolves to prescaler 1, period 64762, duty bounds [48, 64746], and in rollover mode to period 32381 and duty_max 32349 |
| Frequency.DutyMaxWrapsAtFullClock | PwmOutG4.cpp:193-200 | at 170 MHz, a 170 MHz request in rollover mode gives period 16 and a duty_max wrapped to 2^32 − 48 (normal mode: period 32, duty_max 0) |
| DutyCycle.Saturate | PwmOutG4.cpp:387-393 | the fraction lies in [0, 1], is unchanged inside it, and is saturated to 1 above and to 0 below |
| DutyCycle.Ticks | PwmOutG4.cpp:401 | the truncated product lies within one tick below period × fraction and never exceeds the period |
| DutyCycle.ZeroIsExactlyZero | PwmOutG4.cpp:397-399 | a non-positive request gives compare value 0, even below duty_min |
| DutyCycle.NonZeroWithinBounds | PwmOutG4.cpp:400-407 | a positive request gives a compare value in [duty_min, duty_max] whenever the bounds are ordered, and within the period when duty_max is |
| DutyCycle.UnclampedIsProportional | PwmOutG4.cpp:401 | inside the bounds the compare value is period × fraction truncated |
| DutyCycle.TicksMonotone | PwmOutG4.cpp:401 | a larger fraction never truncates to fewer ticks |
| DutyCycle.DutyMonotone | PwmOutG4.cpp:385-408 | with ordered bounds, a larger request never gives a smaller compare value |
| DutyCycle.FullScale | PwmOutG4.cpp:385-408 | a request of 1 or more gives duty_min when the period is below duty_min, duty_max when the period is above duty_max, and the full period otherwise |
| SyncMasks.SingleBitsSumIsUnionIffDistinct | PwmOutG4.cpp:423-435 | the sum of two single-bit masks is their union exactly when the bits differ |
| SyncMasks.PairMasksAreUnions | PwmOutG4.cpp:417-441 | for two known pins on different units, the summed output and reset masks are the unions |
| SyncMasks.ThreeWaySumResetsWrongTimer | PwmOutG4.cpp:443-457 | the three-channel reset sum for PWM2_OUT, DIO7 and PWM3_OUT resets units E and F, and not unit D; the output sum for PWM2_OUT, PWM2_OUT and PWM3_OUT is DIO7's and PWM3_OUT's outputs, without PWM2_OUT's |
| SyncMasks.ThreeWayUnionResetsExactly | PwmOutG4.cpp:443-457 | the union of the three reset tokens resets unit t exactly when one of the three channels is on t |
| SyncMasks.UnitUnionResetsExactly | PwmOutG4.cpp:443-457 | the union of three units' reset tokens meets unit t's token exactly when t is one of the three |
| SyncMasks.ThreeWaySumIsUnionOnDistinctTimers | PwmOutG4.cpp:443-457 | on three distinct units the summed output and reset masks are the unions |
| SyncMasks.StopClearsOnly | PwmOutG4.cpp:377-382 | clearing one pin's output bit leaves that bit clear and every other pin's bit as it was |
| SyncMasks.StopLeavesSiblings | PwmOutG4.cpp:377-382 | clearing one pin's output bit leaves another pin's bit as it was |
| Driver.CoercionFollowsUnit | PwmOutG4.cpp:75-90 | a channel on a unit whose mode is recorded ends up in that mode; on an unset unit it keeps the requested mode |
| Driver.RestartKeepsOthers | PwmOutG4.cpp:423-439 | stopping and restarting a set of outputs leaves them running and the rest as they were |
| Driver.Hrtim1.constructor | PwmOutG4.cpp:8-12 | the static state starts with HRTIM1 down, every unit unset and unowned, no output running and both HAL logs empty |
| Driver.Hrtim1.SetupHrtim1 | PwmOutG4.cpp:203-226 | brings HRTIM1 up once (one configuration call), fills the threshold table with the resolver's values, and keeps the invariant with the flag set |
| Driver.Hrtim1.FillThresholds | PwmOutG4.cpp:222-224 | the loop leaves entry i of the table equal to the threshold of prescaler i, for all eight |
| Driver.Hrtim1.RecordMode | PwmOutG4.cpp:85-90 | records the channel's mode for its unit, changing no other unit, and keeps the invariant |
| Driver.Hrtim1.SetupPwmTimer | PwmOutG4.cpp:113-117 | configures an unowned unit (one configuration call in the unit's recorded mode), records the owner pin, and keeps the invariant |
| Driver.Hrtim1.SetupPwmOutput | PwmOutG4.cpp:291-321 | logs the output configuration and keeps the invariant |
| Driver.Hrtim1.SetupGpio | PwmOutG4.cpp:323-360 | logs the GPIO configuration and keeps the invariant |
| Driver.Hrtim1.SetCompareValue | PwmOutG4.cpp:411 | logs the compare write as a run-time command |
| Driver.Hrtim1.SimpleBaseStart | PwmOutG4.cpp:365 | logs the counter start as a run-time command |
| Driver.Hrtim1.WaveformOutputStart | PwmOutG4.cpp:367 | logs the start; the given outputs are added to the running set |
| Driver.Hrtim1.WaveformOutputStop | PwmOutG4.cpp:379 | logs the stop; the given outputs are removed from the running set |
| Driver.Hrtim1.SoftwareResetTimers | PwmOutG4.cpp:427 | logs the counter reset as a run-time command |
| Driver.PwmOutG4.constructor | PwmOutG4.cpp:14-93 | the channel is bound to its pin's table entry. Its mode is the coerced one, and it agrees with the unit's recorded mode, which was kept if already set. Its timing is the resolver's. Only its own unit's state and owner change. The configuration log grows by exactly the bring-up (first construction only), the unit configuration (unowned unit only), the output and the GPIO setup; no command is issued and the running set is unchanged |
| Driver.PwmOutG4.AdoptUnitMode | PwmOutG4.cpp:75-90 | the channel's mode is forced to the unit's recorded one when that is set (and `coerced` says whether it changed), and the unit records the channel's mode; no other unit changes |
| Driver.PwmOutG4.InitPwm | PwmOutG4.cpp:99-124 | HRTIM1 is up and brought up only if it was not; the timing is the resolver's; the unit is configured and claimed only if unowned; then output and GPIO are set up |
| Driver.PwmOutG4.AttachOutput | PwmOutG4.cpp:111-123 | configures and claims the unit only if no pin owns it yet (otherwise its owner is kept), then logs the output and GPIO setup |
| Driver.PwmOutG4.ClaimUnit | PwmOutG4.cpp:113-117 | the unit is configured in the channel's mode and claimed by its pin exactly when no pin owned it; other units' owners are unchanged |
| Driver.PwmOutG4.ScanPrescalers | PwmOutG4.cpp:133-151 | the if-chain over the threshold table returns what the resolver's scan returns |
| Driver.PwmOutG4.PeriodFor | PwmOutG4.cpp:154-163 | the period the code computes is the resolver's evened (and, in rollover mode, halved) period, at most 0x10000 |
| Driver.PwmOutG4.DutyBounds | PwmOutG4.cpp:166-200 | the switch gives the prescaler's table duty_min and the resolver's adjusted duty_max |
| Driver.PwmOutG4.SetupFrequency | PwmOutG4.cpp:126-201 | the step-by-step computation ends with exactly the resolver's frequency, prescaler, period and duty bounds |
| Driver.PwmOutG4.Write | PwmOutG4.cpp:385-412 | the stored fraction is the saturated input; the compare value is 0 for a non-positive input and within [duty_min, duty_max] otherwise when the bounds are ordered; that value is written to this channel's compare unit as the one new command |
| Driver.PwmOutG4.StartPwm | PwmOutG4.cpp:362-375 | starts the unit's counter and adds this channel's output to the running set |
| Driver.PwmOutG4.StopPwm | PwmOutG4.cpp:377-382 | the running set loses exactly this channel's output bit: that output stops and every other pin's output keeps its state |
| Driver.PwmOutG4.SyncWith | PwmOutG4.cpp:417-441 | two channels on one unit: nothing happens. Otherwise the summed outputs are stopped, the summed units reset and the outputs restarted, and both end up running |
| Driver.PwmOutG4.SyncWithBoth | PwmOutG4.cpp:443-457 | (corrected form, see Findings) stops the three outputs, resets exactly the union of the three channels' units and restarts the outputs, which end up running |
| Driver.SharedUnitAgreement | PwmOutG4.cpp:75-124 | for PWM2_OUT then DIO7 on an unset unit D: the second channel is coerced to the first one's mode exactly when they differ, both agree with the unit, and unit D is configured once, by PWM2_OUT, in the first channel's mode |

## Left out

- Register-level HAL configuration: the contents of the HRTIM1, timer, output and GPIO
  configuration structures are not modelled. Each HAL call is logged with the parameters
  the driver derives: unit, period, prescaler, mode, output, compare unit, polarity, port
  and line.
- HAL failures: the driver only prints them and carries on, so every HAL call is modelled
  as succeeding. Console output is not modelled.
- The fatal paths are preconditions of the constructor: the unknown-pin loop
  (PwmOutG4.cpp:69-72) and the minimum-frequency error (PwmOutG4.cpp:148-151). The pure
  resolver still reports the second one as `BelowMinimum`.
- Floating point: the period `(float)0xFFFF / f * min_frequ[p]` is modelled as the exact
  `0xFFFF * min_frequ[p] / f`, truncated. Single-precision rounding can shift the result by
  one tick, and that is not captured. In `write`, the float fraction is a real and the
  cast is `Floor` of the exact product `period × fraction`. The code's product at
  PwmOutG4.cpp:401 is single precision, with a period of up to 0x10000, so it can round
  across an integer before the truncation: the compare value can likewise be one tick off,
  and that is not captured either. NaN is not represented.
- The constructor takes the frequency as a parameter, as both headers declare it
  (PwmOutG4.h:47, PwmOutG4/PwmOutG4.h:54-58). PwmOutG4.cpp:14-18 instead hard-codes 42000;
  `Frequency.Resolve42kHz` covers that value.
- The system clock is a constructor parameter of `Hrtim1`. It stands in for the global
  `SystemCoreClock`, which the model cannot read.
- The HAL constants and pin codes come from vendor headers that are not part of this
  model:
  - unit index A..F = 0..5;
  - reset token = bit 9 + index (PwmOutG4.cpp:434-435 agrees: 0x1800 is units C and D);
  - output bits TC1 = 0x10, TD1 = 0x40, TD2 = 0x80, TF1 = 0x400, TF2 = 0x800;
  - pin codes in mbed's `port << 4 | pin` encoding.
- `resume`/`suspend` are declared in the headers but not defined in PwmOutG4.cpp; the
  model follows the defined `startPWM`/`stopPWM`.
- Dead time, ADC triggering and the destructor are empty or not part of PwmOutG4.cpp.
- Concurrency and interrupts: the driver has no locking, and the model is sequential.
- A second channel on a unit computes its own timing from its own frequency, but it does
  not reconfigure the unit: the hardware keeps the owner's period. The model records this
  in the log (no second timer configuration) and does not model the resulting waveform.
- Frequency.DutyBoundsHold: it proves ordered duty bounds only for prescalers 1..7; with
  the finest prescaler they hold exactly under the condition of
  `Frequency.DutyOrderExactly`, and that condition can fail. In normal mode, for clocks of
  at least 262.2 kHz (where min_frequ[7] is at least 1), duty_max stays within the period,
  as the comment at PwmOutG4.cpp:192 promises; for slower clocks the period can be 0 and
  the subtraction wraps. Even then duty_min can exceed duty_max: at a 50 MHz clock 14.8 MHz gives period 108 with bounds [96, 76]
  (`Frequency.DutyBoundsCrossAt50MHz`). In rollover mode the subtraction can wrap below
  zero, breaking that promise (`Frequency.DutyMaxWrapsAtFullClock`).
- Frequency.PeriodBounds: the period can reach 0x10000, one above what the 16-bit period
  register holds. A request equal to a threshold of prescalers 1..7 gives the raw period
  0xFFFF, which PwmOutG4.cpp:158-159 evens to 0x10000
  (`Frequency.PeriodReachesFullCounter`). The model passes that value to the timer
  configuration unchanged, as the code does; what the register then holds is not modelled.
- Frequency.PeriodRoundTrip: the one-tick round trip is relative to the truncated
  threshold 0xFFFF × min_frequ[p], not to the real counter clock. Against the clock the
  period can be short by up to (0xFFFF + 3200/2^p)/f further ticks
  (`Frequency.PeriodTracksClock`): 34 ticks at 170 MHz and 1 kHz
  (`Frequency.PeriodMissesClockAt1kHz`).
- Driver.PwmOutG4.SyncWith: its contract states the masks as sums, as the code builds
  them. That the sum is the intended union is a separate lemma,
  `SyncMasks.PairMasksAreUnions`, which applies to two distinct units (the only case in
  which the method acts).
- Driver.PwmOutG4.SyncWithBoth follows the corrected masks (unions), not the sums the code
  adds up. The as-written sums are `SyncMasks.ThreeWayResetSum`, and they agree with the
  unions on three distinct units (`SyncMasks.ThreeWaySumIsUnionOnDistinctTimers`).

## Findings

| source | as written | input that shows it | evidently intended | confidence | as-written member | corrected member |
|---|---|---|---|---|---|---|
| PwmOutG4.cpp:449 | the three-channel `syncWith` resets the units in the sum of the three reset tokens, with no same-unit test | `PWM2_OUT.syncWith(DIO7, PWM3_OUT)`: PWM2_OUT and DIO7 are both on unit D, so D's token is added twice and the carry gives E's token; the reset hits units E and F and not D. The output sum has the same flaw: `PWM2_OUT.syncWith(PWM2_OUT, PWM3_OUT)` adds TD1 twice, which gives TD2, so DIO7's output is stopped and restarted instead of PWM2_OUT's | reset the union of the tokens, i.e. exactly the units the three channels use, and stop and restart the union of the outputs (the driver's `SyncWithBoth` does) | not executed | SyncMasks.ThreeWaySumResetsWrongTimer | SyncMasks.ThreeWayUnionResetsExactly |
