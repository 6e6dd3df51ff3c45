/**
 * The two unit conversions of the control loop: from an ADC result to a
 * duty-cycle command (`(int)ADC_Result/40`) and from a duty-cycle command to
 * the Timer B3 compare value (`(int)DutyCycle/10`), both in 16-bit C
 * arithmetic and exactly as scaled in the program.
 */
module Scaling {
  import opened CInt

  /** Full scale of the 12-bit converter: results lie below this. */
  const ADC_FULL_SCALE := 0x1000
  /** ADC counts per unit of duty-cycle command. */
  const COUNTS_PER_DUTY := 40
  /** Duty-cycle units per compare count. */
  const DUTY_PER_COMPARE := 10
  /** The PWM period written to TB3CCR0 by the timer initialisation. */
  const PWM_PERIOD := 1000
  /** The compare value the timer initialisation writes before the loop starts. */
  const DEFAULT_COMPARE := 300

  /** The duty-cycle command computed from a conversion result. */
  function DutyCycle(adcResult: Word): (dutyCycle: Int16)
    ensures adcResult < 0x8000 ==>
      0 <= dutyCycle
      && dutyCycle * COUNTS_PER_DUTY <= adcResult < dutyCycle * COUNTS_PER_DUTY + COUNTS_PER_DUTY
    ensures adcResult < ADC_FULL_SCALE ==> dutyCycle <= 102
    ensures 0x8000 <= adcResult ==> dutyCycle <= 0
  {
    Div(ToSigned(adcResult), COUNTS_PER_DUTY)
  }

  /** The value written to the compare register for a duty-cycle command. */
  function CompareValue(dutyCycle: Int16): (compare: Word)
    ensures 0 <= dutyCycle ==>
      compare * DUTY_PER_COMPARE <= dutyCycle < compare * DUTY_PER_COMPARE + DUTY_PER_COMPARE
    ensures 0 <= dutyCycle <= 100 ==> compare <= 10
    ensures -DUTY_PER_COMPARE < dutyCycle < 0 ==> compare == 0
    ensures dutyCycle <= -DUTY_PER_COMPARE ==> 0x8000 < compare
  {
    ToUnsigned(Div(dutyCycle, DUTY_PER_COMPARE))
  }

  /**
   * For a 12-bit result the compare value is the result divided by 400,
   * rounded down: at most 10, which is 1% of the 1000-count period rather
   * than the 0-100% range the duty-cycle command is documented to span.
   */
  lemma SampleToCompare(adcResult: Word)
    requires adcResult < ADC_FULL_SCALE
    ensures CompareValue(DutyCycle(adcResult)) == adcResult / (COUNTS_PER_DUTY * DUTY_PER_COMPARE)
    ensures CompareValue(DutyCycle(adcResult)) <= 10
    ensures CompareValue(DutyCycle(adcResult)) * 100 <= PWM_PERIOD
  {
  }

  /** A brighter input never gives a smaller compare value. */
  lemma CompareMonotonic(a: Word, b: Word)
    requires a <= b < ADC_FULL_SCALE
    ensures CompareValue(DutyCycle(a)) <= CompareValue(DutyCycle(b))
  {
  }

  /** Worked values of both conversions. */
  lemma ScalingExamples()
    ensures DutyCycle(0) == 0 && DutyCycle(39) == 0 && DutyCycle(40) == 1
    ensures DutyCycle(4095) == 102
    ensures CompareValue(0) == 0 && CompareValue(100) == 10 && CompareValue(305) == 30
    ensures CompareValue(DutyCycle(4095)) == 10
  {
  }
}
