# ADC-controlled LED brightness on the MSP430FR2355, modelled in Dafny

The program (`main.c`) runs one control loop. It initialises the pins, the
12-bit ADC and Timer B3. Then, forever, it samples ADC channel A1, turns the
reading into a duty-cycle command (`(int)ADC_Result/40`) and writes
`DutyCycle/10` to the compare register TB3CCR1. TB3CCR1 sets the PWM pulse on
P6.0, which dims an LED.

The model has five modules:

- `CInt` (`c_int.dfy`) covers 16-bit C arithmetic as the MSP430 compiler does
  it. `int` and `unsigned int` are 16 bits wide. Converting between them
  keeps the bit pattern (modulo 2^16), and `/` truncates toward zero.
- `Msp430` (`msp430.dfy`) holds the `msp430.h` masks and the register file
  as a value (`State`). Some registers are updated bit by bit (`|=`, `&= ~`).
  Each of these is modelled as the set of its bit positions that hold 1. So
  `r |= m` is `r + m`, `r &= ~m` is `r - m` and `r & m` is `r * m`. Numeric
  registers (ADCMEM0, TB3CCR0, TB3CCR1) and the global `ADC_Result` are
  16-bit words. The masks are uninterpreted constants. Where a property
  needs a fact about a mask, that fact is a `requires` of that property.
- `Scaling` (`scaling.dfy`) covers the two divisions, exactly as written.
- `Control` (`control.dfy`) has one function per routine. Each maps the
  register state before the routine to the state after it. The lemmas about
  initialisation and the loop are proved from these functions.
- `Board` (`board.dfy`) is the program itself. Class `Mcu` has one field per
  register and one method per C routine. Each initialiser's and
  `setLEDBrightness`'s `modifies` clause names exactly the registers the
  routine writes. `readADCSingle` writes only ADCCTL0 itself. Its frame also
  names ADCMEM0 and ADCIFG, which the converter writes while the routine
  polls and which reading ADCMEM0 clears. The frames of the loop pass and of
  `main` are the unions of the frames of the routines they call. Only
  P6SEL1 is left out. Each method is proved to leave the state that the
  matching `Control` function gives, and this fixes every field.

The converter is hardware, not code, so it is an input. A `Conversion`
gives the number of times `readADCSingle` finds ADCIFG0 clear before it is
set, and the value then in ADCMEM0. `Mcu.ConverterStep` makes the conversion
complete at that poll. The spin-wait is then a real loop that is proved to
end. Reading ADCMEM0 clears ADCIFG0, as the peripheral does.

The scaling is modelled as written. For a 12-bit sample, the compare value is
`sample / 400`. That is at most 10 of the 1000-count period, so at most 1%
duty. The comments at `main.c:39` and `main.c:140` describe a 0-100% range.
`Scaling.SampleToCompare` records this.

## Model

| member | source | states |
|---|---|---|
| CInt.ToSigned | main.c:128-133 | `readADCSingle` returns the 16-bit ADCMEM0 as an `int`. Values below 0x8000 keep their value, larger ones become negative. Converting back to `unsigned` restores the register value. |
| CInt.ToUnsigned | main.c:58 | Assigning an `int` to `unsigned int ADC_Result` is conversion modulo 2^16. Non-negative values are kept; a negative `i` becomes `i + 65536`. |
| CInt.SignedRoundTrip | main.c:58 | Every 16-bit `int` survives the trip through `unsigned int` and back. |
| CInt.Div | main.c:62 | C's `/` by a positive divisor rounds toward zero. For `a >= 0` the quotient is the floor; for `a < 0` it is the ceiling. |
| Scaling.DutyCycle | main.c:62 | `(int)ADC_Result/40` is floor division by 40 for results below 0x8000: `d*40 <= r < d*40+40`. For a 12-bit result it lies in [0,102]. Results of 0x8000 or more become negative `int`s and give a command of 0 or less. |
| Scaling.CompareValue | main.c:146 | `(int)DutyCycle/10`, stored in the 16-bit TB3CCR1, is floor division by 10 for a non-negative command. It is at most 10 for a command in [0,100]. It is 0 for a command in (-10,0), and wraps to a value above 0x8000 for a command of -10 or less. |
| Scaling.SampleToCompare | main.c:57-64 | For every 12-bit sample the compare value equals `sample / 400`. It is at most 10, which is at most 1% of the 1000-count period. |
| Scaling.CompareMonotonic | main.c:57-64 | A larger 12-bit sample never gives a smaller compare value. |
| Scaling.ScalingExamples | main.c:62 | Sample 0 gives command 0, 39 gives 0, 40 gives 1 and 4095 gives 102. Command 0 gives compare 0, 100 gives 10 and 305 gives 30. Sample 4095 gives compare 10. |
| Control.GpioInitBits | main.c:75-88 | `gpioInit` clears BIT6 of P6OUT. It sets BIT6 and BIT0 of P6DIR, BIT1 of P1SEL0 and P1SEL1, and BIT0 of P6SEL0. All other bits and all other registers, P6SEL1 among them, keep their values. |
| Control.GpioInitIdempotent | main.c:75-88 | Running `gpioInit` twice leaves the same state as running it once. |
| Control.AdcInitBits | main.c:110-123 | `adcInit` sets ADCSHT_2 and ADCON in ADCCTL0, ADCSHP in ADCCTL1 and ADCINCH_1 in ADCMCTL0, and keeps their other bits. After it, the ADCRES field of ADCCTL2 holds ADCRES_2's part of the field, whatever it held before. No other register changes. |
| Control.AdcResolutionExact | main.c:116-119 | If ADCRES_2 lies inside the ADCRES field, the clear-then-set leaves that field equal to exactly ADCRES_2 from any prior value, and leaves the rest of ADCCTL2 unchanged. |
| Control.AdcInitIdempotent | main.c:110-123 | Running `adcInit` twice leaves the same state as running it once. |
| Control.TimerInitOverwrites | main.c:94-104 | After `timerInit`, TB3CCR0 = 1000, TB3CCTL1 = OUTMOD_7, TB3CCR1 = 300 and TB3CTL = TBSSEL__SMCLK\|MC__UP\|TBCLR, whatever the prior state. Nothing else changes. Running it again changes nothing. |
| Control.BootIdempotent | main.c:53-55 | The three initialisers write disjoint registers. All six orders of gpioInit, adcInit and timerInit leave the same register state. Running the start-up sequence twice gives the same state as running it once. |
| Control.ReadAdcSingleBits | main.c:128-133 | `readADCSingle` sets ADCENC and ADCSC in ADCCTL0 and keeps its other bits. It leaves the sample in ADCMEM0 and the interrupt flags as they were. Nothing else changes. |
| Control.SetLedBrightnessOverwrites | main.c:144-147 | `setLEDBrightness(d)` changes only TB3CCR1. It leaves `d / 10` there for `d >= 0`, independent of the register's previous value. |
| Control.AfterIteration | main.c:57-64 | One loop pass leaves no finished conversion waiting, so the next pass can start. |
| Control.AfterIterations | main.c:57-64 | Any number of loop passes leave no finished conversion waiting. |
| Control.IterationOutcome | main.c:57-64 | One pass stores the sample in ADCMEM0 and in ADC_Result; the detour through `int` loses nothing. It sets ADCENC and ADCSC and writes the compare value of the sample's duty cycle. Nothing else changes. |
| Control.IterationsCollapse | main.c:57-64 | Any non-empty run of the loop leaves the same state as one pass with the last sample. No earlier sample or earlier TB3CCR1 value has any effect. |
| Control.LoopOutcome | main.c:57-64 | After a non-empty run whose last sample is 12-bit, TB3CCR1 = (last/40)/10, which is at most 10. ADC_Result = ADCMEM0 = last. Apart from ADCENC and ADCSC in ADCCTL0, every configuration register is as before the loop. |
| Control.FirstWriteReplacesDefault | main.c:53-58 | Start-up leaves TB3CCR1 = 300 with no conversion pending. The first loop pass replaces 300 with the sample's compare value, which is at most 10 for a 12-bit sample. |
| Board.Mcu.GpioInit | main.c:75-88 | Writes only P6OUT, P6DIR, P1SEL0, P1SEL1 and P6SEL0, and leaves the state `AfterGpioInit` describes. |
| Board.Mcu.TimerInit | main.c:94-104 | Writes only TB3CCR0, TB3CCTL1, TB3CCR1 and TB3CTL, and leaves the state `AfterTimerInit` describes. |
| Board.Mcu.AdcInit | main.c:110-123 | Writes only ADCCTL0, ADCCTL1, ADCCTL2 and ADCMCTL0, and leaves the state `AfterAdcInit` describes. |
| Board.Mcu.ReadAdcSingle | main.c:128-133 | Returns the converter's sample as an `int`, which converts back to the value in ADCMEM0. The number of polls that found ADCIFG0 clear equals the converter's count. It leaves ADCIFG0 clear and the state `AfterReadAdcSingle` describes. |
| Board.Mcu.SetLedBrightness | main.c:144-147 | Writes only TB3CCR1, with the compare value of the command. |
| Board.Mcu.LoopIteration | main.c:57-64 | One pass of `while(1)` writes only ADCCTL0, ADCMEM0, ADCIFG, ADC_Result and TB3CCR1, and leaves the state `AfterIteration` describes. |
| Board.Mcu.Run | main.c:47-65 | Runs gpioInit, then adcInit, then timerInit, then one loop pass per conversion. It never writes P6SEL1. The final state is start-up followed by the passes over the samples. TB3CCR0 ends at 1000. TB3CCR1 ends at 300 if there were no passes, and otherwise at the compare value of the last sample, which is also in ADC_Result. |

## Left out

- The watchdog stop and the LOCKLPM5 unlock (`main.c:49-51`) are one-time system bring-up, not control logic. `Board.Mcu.Run` starts after them.
- The bit positions of the `msp430.h` masks are not modelled; the header is not part of this model. Properties that need a fact about a mask require it: ADCIFG0 names at least one bit, and ADCRES_2 lies inside ADCRES.
- The converter and the timer as hardware are not modelled: conversion timing, the PWM waveform and the SMCLK frequency. This includes two self-clearing bits: the hardware clears ADCSC when a conversion ends, and TBCLR clears itself after resetting the timer and always reads as 0. The model leaves both bits set once written. The converter appears only as its result and the number of polls before it is ready.
- Board.Mcu.ReadAdcSingle: assumes no finished result is waiting when it starts (ADCIFG0 clear). This holds from reset and after every read, but is not checked against a reset model. A stale flag would make the C code return the old ADCMEM0 at once; the model does not cover that case.
- Board.Mcu.Run: runs the `while(1)` loop once per element of a finite sequence of conversions, not forever. A converter that never finishes, which hangs the C code, cannot be written as a `Conversion`.
- The register end state is the same in all six orders of the three initialisers (`Control.BootIdempotent`). The order still matters electrically, to avoid glitches on the pins while they are configured; that is not modelled.
- Two comments do not match the code, and the model follows the code. `main.c:29` says "TimerB0", but the code writes the TB3 registers. `main.c:125` says "Channel 0", but `main.c:122` selects ADCINCH_1.
