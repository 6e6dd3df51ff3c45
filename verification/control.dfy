/**
 * What each routine of the program does to the register file, as functions
 * from the state before to the state after, and the properties of the
 * initialisation sequence and of the control loop proved from them.
 */
module Control {
  import opened CInt
  import opened Msp430
  import opened Scaling

  /** gpioInit: LED pin low and output, A1 pin to analog, P6.0 to timer output. */
  function AfterGpioInit(s: State): State
  {
    s.(P6OUT := s.P6OUT - BIT6,
       P6DIR := s.P6DIR + BIT6 + BIT0,
       P1SEL0 := s.P1SEL0 + BIT1,
       P1SEL1 := s.P1SEL1 + BIT1,
       P6SEL0 := s.P6SEL0 + BIT0)
  }

  /** adcInit: converter on, sample-and-hold, 12-bit results, channel A1. */
  function AfterAdcInit(s: State): State
  {
    s.(ADCCTL0 := s.ADCCTL0 + (ADCSHT_2 + ADCON),
       ADCCTL1 := s.ADCCTL1 + ADCSHP,
       ADCCTL2 := (s.ADCCTL2 - ADCRES) + ADCRES_2,
       ADCMCTL0 := s.ADCMCTL0 + ADCINCH_1)
  }

  /** timerInit: period, reset/set output mode, default compare, SMCLK up mode. */
  function AfterTimerInit(s: State): State
  {
    s.(TB3CCR0 := PWM_PERIOD,
       TB3CCTL1 := OUTMOD_7,
       TB3CCR1 := DEFAULT_COMPARE,
       TB3CTL := TBSSEL__SMCLK + MC__UP + TBCLR)
  }

  /** The start of main: gpioInit, then adcInit, then timerInit. */
  function AfterBoot(s: State): State
  {
    AfterTimerInit(AfterAdcInit(AfterGpioInit(s)))
  }

  /**
   * readADCSingle, for a conversion that delivers `sample`: conversion is
   * enabled and started, the converter stores the result and raises ADCIFG0,
   * and reading ADCMEM0 clears ADCIFG0 again.
   */
  function AfterReadAdcSingle(s: State, sample: Word): State
  {
    s.(ADCCTL0 := s.ADCCTL0 + (ADCENC + ADCSC),
       ADCMEM0 := sample,
       ADCIFG := (s.ADCIFG + ADCIFG0) - ADCIFG0)
  }

  /** setLEDBrightness(dutyCycle). */
  function AfterSetLedBrightness(s: State, dutyCycle: Int16): State
  {
    s.(TB3CCR1 := CompareValue(dutyCycle))
  }

  /**
   * One pass of the main loop, for a conversion that delivers `sample`:
   * `ADC_Result = readADCSingle(); setLEDBrightness((int)ADC_Result/40);`
   */
  function AfterIteration(s: State, sample: Word): (t: State)
    requires Idle(s)
    ensures Idle(t)
  {
    var read := AfterReadAdcSingle(s, sample);
    var stored := read.(ADC_Result := ToUnsigned(ToSigned(read.ADCMEM0)));
    AfterSetLedBrightness(stored, DutyCycle(stored.ADC_Result))
  }

  /** The main loop run once per sample, in order. */
  function AfterIterations(s: State, samples: seq<Word>): (t: State)
    requires Idle(s)
    ensures Idle(t)
    decreases |samples|
  {
    if samples == [] then s
    else AfterIteration(AfterIterations(s, samples[..|samples| - 1]), samples[|samples| - 1])
  }

  // ---------------------------------------------------------------------
  // Initialisation

  /**
   * gpioInit clears BIT6 of P6OUT and sets BIT6 and BIT0 of P6DIR, BIT1 of
   * P1SEL0 and P1SEL1 and BIT0 of P6SEL0; every other bit of those
   * registers, and every other register (P6SEL1 among them), keeps its value.
   */
  lemma GpioInitBits(s: State)
    ensures var t := AfterGpioInit(s);
      && t.P6OUT * BIT6 == {} && t.P6OUT - BIT6 == s.P6OUT - BIT6
      && BIT6 + BIT0 <= t.P6DIR && t.P6DIR - (BIT6 + BIT0) == s.P6DIR - (BIT6 + BIT0)
      && BIT1 <= t.P1SEL0 && t.P1SEL0 - BIT1 == s.P1SEL0 - BIT1
      && BIT1 <= t.P1SEL1 && t.P1SEL1 - BIT1 == s.P1SEL1 - BIT1
      && BIT0 <= t.P6SEL0 && t.P6SEL0 - BIT0 == s.P6SEL0 - BIT0
      && t.(P6OUT := s.P6OUT, P6DIR := s.P6DIR, P1SEL0 := s.P1SEL0,
            P1SEL1 := s.P1SEL1, P6SEL0 := s.P6SEL0) == s
  {
  }

  /** Running gpioInit again changes nothing. */
  lemma GpioInitIdempotent(s: State)
    ensures AfterGpioInit(AfterGpioInit(s)) == AfterGpioInit(s)
  {
  }

  /**
   * adcInit sets ADCSHT_2 and ADCON in ADCCTL0, ADCSHP in ADCCTL1 and
   * ADCINCH_1 in ADCMCTL0, keeping their other bits; in ADCCTL2 the ADCRES
   * field ends up holding ADCRES_2's part of it whatever it held before,
   * and the bits outside the field gain only what ADCRES_2 has there.
   * Every other register keeps its value.
   */
  lemma AdcInitBits(s: State)
    ensures var t := AfterAdcInit(s);
      && ADCSHT_2 + ADCON <= t.ADCCTL0
      && t.ADCCTL0 - (ADCSHT_2 + ADCON) == s.ADCCTL0 - (ADCSHT_2 + ADCON)
      && ADCSHP <= t.ADCCTL1 && t.ADCCTL1 - ADCSHP == s.ADCCTL1 - ADCSHP
      && ADCINCH_1 <= t.ADCMCTL0 && t.ADCMCTL0 - ADCINCH_1 == s.ADCMCTL0 - ADCINCH_1
      && t.ADCCTL2 * ADCRES == ADCRES_2 * ADCRES
      && t.ADCCTL2 - ADCRES == (s.ADCCTL2 - ADCRES) + (ADCRES_2 - ADCRES)
      && t.(ADCCTL0 := s.ADCCTL0, ADCCTL1 := s.ADCCTL1,
            ADCCTL2 := s.ADCCTL2, ADCMCTL0 := s.ADCMCTL0) == s
  {
  }

  /**
   * When ADCRES_2 is a value of the ADCRES field, the clear-then-set leaves
   * the field equal to exactly ADCRES_2, whatever it held before, and the
   * rest of ADCCTL2 untouched.
   */
  lemma AdcResolutionExact(s: State)
    requires ADCRES_2 <= ADCRES
    ensures AfterAdcInit(s).ADCCTL2 * ADCRES == ADCRES_2
    ensures AfterAdcInit(s).ADCCTL2 - ADCRES == s.ADCCTL2 - ADCRES
  {
  }

  /** Running adcInit again changes nothing. */
  lemma AdcInitIdempotent(s: State)
    ensures AfterAdcInit(AfterAdcInit(s)) == AfterAdcInit(s)
  {
  }

  /**
   * timerInit only assigns whole registers, so the timer's configuration
   * afterwards does not depend on what it was before; everything else is
   * kept, and running it again changes nothing.
   */
  lemma TimerInitOverwrites(s: State, s': State)
    ensures var t, t' := AfterTimerInit(s), AfterTimerInit(s');
      && t.TB3CCR0 == t'.TB3CCR0 == 1000
      && t.TB3CCTL1 == t'.TB3CCTL1 == OUTMOD_7
      && t.TB3CCR1 == t'.TB3CCR1 == 300
      && t.TB3CTL == t'.TB3CTL == TBSSEL__SMCLK + MC__UP + TBCLR
      && t.(TB3CCR0 := s.TB3CCR0, TB3CCTL1 := s.TB3CCTL1,
            TB3CCR1 := s.TB3CCR1, TB3CTL := s.TB3CTL) == s
      && AfterTimerInit(t) == t
  {
  }

  /**
   * The three initialisers write disjoint registers, so the register state
   * they leave is the same in all six orders, and running the whole
   * start-up sequence twice leaves the same state as running it once.
   */
  lemma BootIdempotent(s: State)
    ensures AfterBoot(s) == AfterTimerInit(AfterGpioInit(AfterAdcInit(s)))
    ensures AfterBoot(s) == AfterAdcInit(AfterTimerInit(AfterGpioInit(s)))
    ensures AfterBoot(s) == AfterGpioInit(AfterTimerInit(AfterAdcInit(s)))
    ensures AfterBoot(s) == AfterAdcInit(AfterGpioInit(AfterTimerInit(s)))
    ensures AfterBoot(s) == AfterGpioInit(AfterAdcInit(AfterTimerInit(s)))
    ensures AfterBoot(AfterBoot(s)) == AfterBoot(s)
  {
  }

  // ---------------------------------------------------------------------
  // The control loop

  /**
   * readADCSingle sets ADCENC and ADCSC in ADCCTL0 and keeps its other bits,
   * leaves the sample in ADCMEM0 and, when no result was pending, leaves the
   * interrupt flags as it found them; nothing else changes.
   */
  lemma ReadAdcSingleBits(s: State, sample: Word)
    requires Idle(s)
    ensures var t := AfterReadAdcSingle(s, sample);
      && ADCENC + ADCSC <= t.ADCCTL0
      && t.ADCCTL0 - (ADCENC + ADCSC) == s.ADCCTL0 - (ADCENC + ADCSC)
      && t.ADCMEM0 == sample && t.ADCIFG == s.ADCIFG
      && t.(ADCCTL0 := s.ADCCTL0, ADCMEM0 := s.ADCMEM0) == s
  {
    FlagCleared(s);
  }

  /** With ADCIFG0 clear, raising it and clearing it again restores ADCIFG. */
  lemma FlagCleared(s: State)
    requires Idle(s)
    ensures (s.ADCIFG + ADCIFG0) - ADCIFG0 == s.ADCIFG
  {
    forall b | b in s.ADCIFG
      ensures b !in ADCIFG0
    {
      assert b !in s.ADCIFG * ADCIFG0;
    }
  }

  /**
   * setLEDBrightness writes TB3CCR1 alone: the value it leaves, the duty
   * cycle divided by 10 for a non-negative command, does not depend on what
   * TB3CCR1 or any other register held before.
   */
  lemma SetLedBrightnessOverwrites(s: State, s': State, dutyCycle: Int16)
    ensures var t, t' := AfterSetLedBrightness(s, dutyCycle), AfterSetLedBrightness(s', dutyCycle);
      && t.TB3CCR1 == t'.TB3CCR1
      && (0 <= dutyCycle ==> t.TB3CCR1 == dutyCycle / 10)
      && t.(TB3CCR1 := s.TB3CCR1) == s
  {
  }

  /**
   * One iteration stores the sample in ADCMEM0 and ADC_Result (the detour
   * through a 16-bit `int` loses nothing), sets ADCENC and ADCSC, leaves the
   * interrupt flags as they were and writes the compare value of the
   * sample's duty cycle; nothing else changes.
   */
  lemma IterationOutcome(s: State, sample: Word)
    requires Idle(s)
    ensures AfterIteration(s, sample) ==
      s.(ADCCTL0 := s.ADCCTL0 + (ADCENC + ADCSC),
         ADCMEM0 := sample,
         ADC_Result := sample,
         TB3CCR1 := CompareValue(DutyCycle(sample)))
  {
    FlagCleared(s);
  }

  /**
   * The loop keeps no memory: any number of iterations leave the state that
   * a single iteration with the last sample leaves.
   */
  lemma {:induction false} IterationsCollapse(s: State, samples: seq<Word>)
    requires Idle(s) && samples != []
    ensures AfterIterations(s, samples) == AfterIteration(s, samples[|samples| - 1])
    decreases |samples|
  {
    var init := samples[..|samples| - 1];
    var last := samples[|samples| - 1];
    if init != [] {
      IterationsCollapse(s, init);
      var mid := AfterIterations(s, init);
      IterationOutcome(s, init[|init| - 1]);
      IterationOutcome(mid, last);
      IterationOutcome(s, last);
    }
  }

  /**
   * After any non-empty run of the loop on 12-bit samples, TB3CCR1 holds
   * (last / 40) / 10, at most 10, and ADC_Result the last sample; every
   * configuration register is as before the loop.
   */
  lemma LoopOutcome(s: State, samples: seq<Word>)
    requires Idle(s) && samples != []
    requires samples[|samples| - 1] < ADC_FULL_SCALE
    ensures var t, last := AfterIterations(s, samples), samples[|samples| - 1];
      && t.TB3CCR1 == (last / 40) / 10 <= 10
      && t.ADC_Result == t.ADCMEM0 == last
      && t == s.(ADCCTL0 := s.ADCCTL0 + (ADCENC + ADCSC), ADCMEM0 := last,
                 ADC_Result := last, TB3CCR1 := t.TB3CCR1)
  {
    var last := samples[|samples| - 1];
    IterationsCollapse(s, samples);
    IterationOutcome(s, last);
    SampleToCompare(last);
  }

  /**
   * Start-up leaves the default compare value 300 and no conversion pending;
   * the first pass of the loop replaces it by the sample's compare value,
   * which for a 12-bit sample is never 300.
   */
  lemma FirstWriteReplacesDefault(s: State, sample: Word)
    requires Idle(s) && sample < ADC_FULL_SCALE
    ensures Idle(AfterBoot(s)) && AfterBoot(s).TB3CCR1 == 300
    ensures AfterIteration(AfterBoot(s), sample).TB3CCR1 == CompareValue(DutyCycle(sample)) <= 10
  {
  }
}
