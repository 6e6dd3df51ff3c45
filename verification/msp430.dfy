/**
 * The part of the MSP430FR2355 register file that the control loop touches,
 * and the bit masks of `msp430.h` it uses.
 *
 * A register that the program updates bit by bit is modelled as the set of
 * its bit positions that hold 1, and a mask likewise, so that C's `r |= m`
 * is `r + m`, `r &= ~m` is `r - m` and `r & m` is `r * m`.
 *
 * The masks are left uninterpreted: nothing here fixes their bit positions.
 * A property that needs a fact about them (that a flag names at least one
 * bit, or that a field value lies inside its field) says so in its own
 * `requires`.
 */
module Msp430 {
  import opened CInt

  /** A bit position of a 16-bit register, and of an 8-bit port register. */
  type Bit16 = b: nat | b < 16
  type Bit8 = b: nat | b < 8

  /** The bits that are 1 in a 16-bit register or mask, and in an 8-bit one. */
  type Reg16 = set<Bit16>
  type Reg8 = set<Bit8>

  // Port pins (8-bit port registers).
  const BIT0: Reg8
  const BIT1: Reg8
  const BIT6: Reg8

  // ADC control: ADCCTL0, ADCCTL1, ADCCTL2, ADCMCTL0 and the interrupt flags.
  const ADCSHT_2: Reg16
  const ADCON: Reg16
  const ADCENC: Reg16
  const ADCSC: Reg16
  const ADCSHP: Reg16
  /** The whole result-resolution field of ADCCTL2. */
  const ADCRES: Reg16
  /** The 12-bit setting of the result-resolution field. */
  const ADCRES_2: Reg16
  const ADCINCH_1: Reg16
  const ADCIFG0: Reg16

  // Timer B3 control.
  const OUTMOD_7: Reg16
  const TBSSEL__SMCLK: Reg16
  const MC__UP: Reg16
  const TBCLR: Reg16

  /**
   * The registers of the model, plus the program's one global, `ADC_Result`.
   * Registers the code updates bit by bit are bit sets; the conversion
   * result, the timer's period and compare registers and the global hold
   * numbers and are 16-bit words.
   */
  datatype State = State(
    // Port 1 and port 6
    P1SEL0: Reg8, P1SEL1: Reg8,
    P6OUT: Reg8, P6DIR: Reg8, P6SEL0: Reg8, P6SEL1: Reg8,
    // ADC
    ADCCTL0: Reg16, ADCCTL1: Reg16, ADCCTL2: Reg16, ADCMCTL0: Reg16,
    ADCIFG: Reg16, ADCMEM0: Word,
    // Timer B3
    TB3CTL: Reg16, TB3CCTL1: Reg16, TB3CCR0: Word, TB3CCR1: Word,
    // unsigned int ADC_Result
    ADC_Result: Word)

  /** No finished conversion is waiting to be read: ADCIFG0 is clear. */
  predicate Idle(s: State)
  {
    s.ADCIFG * ADCIFG0 == {}
  }
}
