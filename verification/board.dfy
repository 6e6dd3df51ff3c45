/**
 * The program itself: the registers as fields of one object, and each C
 * routine as a method that updates them in place, proved to leave the state
 * the corresponding function of module Control describes.
 */
module Board {
  import opened CInt
  import opened Msp430
  import opened Scaling
  import opened Control

  /**
   * What the converter does with one conversion once started: it raises
   * ADCIFG0 after the program has found the flag clear `polls` times, with
   * `sample` in ADCMEM0. This stands in for the hardware the program polls.
   */
  datatype Conversion = Conversion(polls: nat, sample: Word)

  /** The samples a sequence of conversions delivers, in order. */
  function Samples(conversions: seq<Conversion>): (samples: seq<Word>)
    ensures |samples| == |conversions|
    ensures forall i :: 0 <= i < |conversions| ==> samples[i] == conversions[i].sample
  {
    if conversions == [] then []
    else Samples(conversions[..|conversions| - 1]) + [conversions[|conversions| - 1].sample]
  }

  class Mcu {
    var P1SEL0: Reg8
    var P1SEL1: Reg8
    var P6OUT: Reg8
    var P6DIR: Reg8
    var P6SEL0: Reg8
    var P6SEL1: Reg8
    var ADCCTL0: Reg16
    var ADCCTL1: Reg16
    var ADCCTL2: Reg16
    var ADCMCTL0: Reg16
    var ADCIFG: Reg16
    var ADCMEM0: Word
    var TB3CTL: Reg16
    var TB3CCTL1: Reg16
    var TB3CCR0: Word
    var TB3CCR1: Word
    /** The program's global `unsigned int ADC_Result`. */
    var ADC_Result: Word

    /** The whole register file as a value. */
    ghost function Snapshot(): State
      reads this
    {
      State(P1SEL0, P1SEL1, P6OUT, P6DIR, P6SEL0, P6SEL1,
            ADCCTL0, ADCCTL1, ADCCTL2, ADCMCTL0, ADCIFG, ADCMEM0,
            TB3CTL, TB3CCTL1, TB3CCR0, TB3CCR1, ADC_Result)
    }

    /** main.c: gpioInit. */
    method GpioInit()
      modifies this`P6OUT, this`P6DIR, this`P1SEL0, this`P1SEL1, this`P6SEL0
      ensures Snapshot() == AfterGpioInit(old(Snapshot()))
    {
      P6OUT := P6OUT - BIT6;
      P6DIR := P6DIR + BIT6;
      P1SEL0 := P1SEL0 + BIT1;
      P1SEL1 := P1SEL1 + BIT1;
      P6SEL0 := P6SEL0 + BIT0;
      P6DIR := P6DIR + BIT0;
    }

    /** main.c: timerInit. */
    method TimerInit()
      modifies this`TB3CCR0, this`TB3CCTL1, this`TB3CCR1, this`TB3CTL
      ensures Snapshot() == AfterTimerInit(old(Snapshot()))
    {
      TB3CCR0 := 1000;
      TB3CCTL1 := OUTMOD_7;
      TB3CCR1 := 300;
      TB3CTL := TBSSEL__SMCLK + MC__UP + TBCLR;
    }

    /** main.c: adcInit. */
    method AdcInit()
      modifies this`ADCCTL0, this`ADCCTL1, this`ADCCTL2, this`ADCMCTL0
      ensures Snapshot() == AfterAdcInit(old(Snapshot()))
    {
      ADCCTL0 := ADCCTL0 + (ADCSHT_2 + ADCON);
      ADCCTL1 := ADCCTL1 + ADCSHP;
      ADCCTL2 := ADCCTL2 - ADCRES;
      ADCCTL2 := ADCCTL2 + ADCRES_2;
      ADCMCTL0 := ADCMCTL0 + ADCINCH_1;
    }

    /**
     * The converter between two reads of ADCIFG: having been found not done
     * `polls` times, conversion `c` completes now if that is its count.
     */
    method ConverterStep(c: Conversion, polls: nat)
      modifies this`ADCMEM0, this`ADCIFG
      ensures polls == c.polls ==> ADCMEM0 == c.sample && ADCIFG == old(ADCIFG) + ADCIFG0
      ensures polls != c.polls ==> ADCMEM0 == old(ADCMEM0) && ADCIFG == old(ADCIFG)
    {
      if polls == c.polls {
        ADCMEM0 := c.sample;
        ADCIFG := ADCIFG + ADCIFG0;
      }
    }

    /**
     * main.c: readADCSingle. Starts a conversion, spins until ADCIFG0 is
     * set, and returns ADCMEM0 as an `int`; reading ADCMEM0 clears ADCIFG0.
     * The spin ends because the conversion `c` completes after `c.polls`
     * unsuccessful polls, and because ADCIFG0 names at least one bit;
     * `polled` counts the polls that found the flag clear.
     */
    method ReadAdcSingle(c: Conversion) returns (result: Int16, ghost polled: nat)
      requires ADCIFG0 != {} && ADCIFG * ADCIFG0 == {}
      modifies this`ADCCTL0, this`ADCMEM0, this`ADCIFG
      ensures Snapshot() == AfterReadAdcSingle(old(Snapshot()), c.sample)
      ensures result == ToSigned(c.sample) && ToUnsigned(result) == ADCMEM0
      ensures ADCIFG * ADCIFG0 == {}
      ensures polled == c.polls
    {
      ADCCTL0 := ADCCTL0 + (ADCENC + ADCSC);
      ghost var started := Snapshot();
      var polls := 0;
      ConverterStep(c, polls);
      while ADCIFG * ADCIFG0 == {}
        invariant polls <= c.polls
        invariant ADCCTL0 == started.ADCCTL0
        invariant ADCIFG * ADCIFG0 == {} ==>
          polls < c.polls && ADCIFG == started.ADCIFG && ADCMEM0 == started.ADCMEM0
        invariant ADCIFG * ADCIFG0 != {} ==>
          polls == c.polls && ADCIFG == started.ADCIFG + ADCIFG0 && ADCMEM0 == c.sample
        decreases c.polls - polls
      {
        polls := polls + 1;
        ConverterStep(c, polls);
      }
      polled := polls;
      result := ToSigned(ADCMEM0);
      ADCIFG := ADCIFG - ADCIFG0;
    }

    /** main.c: setLEDBrightness. */
    method SetLedBrightness(dutyCycle: Int16)
      modifies this`TB3CCR1
      ensures Snapshot() == AfterSetLedBrightness(old(Snapshot()), dutyCycle)
    {
      TB3CCR1 := CompareValue(dutyCycle);
    }

    /** One pass of main's `while(1)` loop. */
    method LoopIteration(c: Conversion)
      requires ADCIFG0 != {} && ADCIFG * ADCIFG0 == {}
      modifies this`ADCCTL0, this`ADCMEM0, this`ADCIFG, this`ADC_Result, this`TB3CCR1
      ensures Snapshot() == AfterIteration(old(Snapshot()), c.sample)
    {
      ghost var polled;
      var sample;
      sample, polled := ReadAdcSingle(c);
      ADC_Result := ToUnsigned(sample);
      var dutyCycle := DutyCycle(ADC_Result);
      SetLedBrightness(dutyCycle);
    }

    /**
     * main, after the watchdog and pin-lock bring-up: the three
     * initialisers, then the loop body once for each conversion in turn.
     * From reset no conversion is waiting to be read.
     */
    method Run(conversions: seq<Conversion>)
      requires ADCIFG0 != {} && ADCIFG * ADCIFG0 == {}
      modifies this`P6OUT, this`P6DIR, this`P1SEL0, this`P1SEL1, this`P6SEL0
      modifies this`ADCCTL0, this`ADCCTL1, this`ADCCTL2, this`ADCMCTL0
      modifies this`ADCIFG, this`ADCMEM0, this`ADC_Result
      modifies this`TB3CCR0, this`TB3CCTL1, this`TB3CCR1, this`TB3CTL
      ensures Snapshot() == AfterIterations(AfterBoot(old(Snapshot())), Samples(conversions))
      ensures TB3CCR0 == PWM_PERIOD && TB3CCTL1 == OUTMOD_7
      ensures conversions == [] ==> TB3CCR1 == DEFAULT_COMPARE
      ensures conversions != [] ==>
        var last := conversions[|conversions| - 1].sample;
        ADC_Result == last && TB3CCR1 == CompareValue(DutyCycle(last))
    {
      ghost var reset := old(Snapshot());
      GpioInit();
      AdcInit();
      TimerInit();
      ghost var booted := Snapshot();
      assert booted == AfterBoot(reset);
      for i := 0 to |conversions|
        invariant ADCIFG * ADCIFG0 == {}
        invariant Snapshot() == AfterIterations(booted, Samples(conversions[..i]))
      {
        LoopIteration(conversions[i]);
        assert conversions[..i + 1][..i] == conversions[..i];
      }
      assert conversions[..|conversions|] == conversions;
      if conversions != [] {
        IterationsCollapse(booted, Samples(conversions));
        IterationOutcome(booted, conversions[|conversions| - 1].sample);
      }
    }
  }
}
