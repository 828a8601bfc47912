# GPIO register driver

A model of the GPIO driver in `gpio.c`. The microcontroller has four 8-bit
ports, A to D, with ids 0 to 3. Each port has a direction register
`PORTx_DIR`, where bit 1 means output and 0 means input. Each also has a data
register `PORTx_DATA`. The driver's sixteen functions act on these eight
registers at three granularities:

- whole port: `gpioPortDirection`, `gpioPortWrite`, `gpioPortToggle`,
  `gpioPortRead`;
- pin mask: `gpioPinDirection`, `gpioPinWrite`, `gpioPinToggle`, and
  `gpioPinRead`, which reads one pin index;
- nibble: `gpioUpperNibble{Direction,Write,Toggle,Read}` works on bits 4–7
  and `gpioLowerNibble{…}` on bits 0–3.

The model follows `gpio.c` as written, including two behaviours that the
design description of the driver calls defects:

- Every case of the `switch` in `gpioPinWrite` and in the six nibble
  direction, write and toggle functions lacks a `break`. A call for port p
  therefore runs the same update on every later port: a call for A rewrites
  A, B, C and D, and a call for D rewrites only D. The design description
  asks for strict per-port isolation.
- In `gpioPinWrite`, port B's case treats `value` as one level. It clears the
  masked bits when `value == LOW` and sets them otherwise. The cases of A, C
  and D copy the masked bits of `value` bit by bit. The design description
  asks for the level behaviour on every port.

Three consequences follow, each proved:

- The two kinds of case agree when `value` is 0x00 or 0xFF, and can disagree
  otherwise (`PinWriteArmsAgreeOnFullLevels`, `PinWriteArmsDisagree`).
- A pin written with 1 and read back gives 1 on port B, but on A, C and D only
  for pin 0 (`PinWriteThenRead`). The design description promises 1 on every
  port.
- A nibble write for port A reaches port D (`UpperNibbleWriteOnAReachesD`).

Structure:

- `bits.dfy`, module `Bits`: the bit helpers `GET_BIT`, `TOGGLE_BIT`,
  `ASSIGN_BIT` and `LOW`. They come from `gpio.h`, which is not part of this
  model, so each is defined once with its assumed meaning. The module also
  holds the masks the loops cover.
- `banks.dfy`, module `Banks`: the register file as a value. A `Bank` holds
  one register per port, and `RegFile` holds a direction bank and a data
  bank. Every driver operation is a function from the old bank to the new
  one, and the properties relating several calls are proved here.
  `FallFrom` models a `switch` without `break`.
- `gpio.dfy`, module `Gpio`: the driver itself. Class `Registers` has the
  eight registers as `bv8` fields. Each mutating C function is a method with
  `modifies this`, and its `ensures` gives the new register file as the
  corresponding `Banks` function of the old one. The four readers are
  functions. The C `for` loops are the methods `CopyPinBits`, `AssignBits`
  and `ToggleBits`, with loop invariants.
- `properties.dfy`, module `GpioProperties`: call sequences on a fresh
  `Registers` built from arbitrary contents, with what a caller then
  observes. These cover write then read, toggle twice, and the worked
  scenarios.

A port id is a C `uint8` (newtype `u8`, 0..255). Every other byte is a `bv8`.

## Model

| member | source | states |
|---|---|---|
| `Bits.GetBit` | gpio.c:331-337 | GET_BIT(x, i) is 0 or 1, and is 1 exactly when bit i of x is set (i < 8) |
| `Bits.ToggleBit` | gpio.c:430 | TOGGLE_BIT flips bit i and keeps every other bit |
| `Bits.AssignBit` | gpio.c:358 | ASSIGN_BIT takes bit i from value and keeps every other bit of the register |
| `Bits.FlipMask` | gpio.c:288 | `r ^= mask` flips exactly the bits of mask and keeps the others |
| `Bits.MaskedCopy` | gpio.c:229-235 | the result has value's bits inside mask and the register's bits outside it |
| `Bits.BitRangeSelects` | gpio.c:356 | a loop `for (i = lo; i < hi; i++)` covers exactly bit positions lo..hi-1 |
| `Bits.NibbleRanges` | gpio.c:356-359 | the loops over 4..7 and 0..3 cover exactly the masks 0xF0 and 0x0F used by the nibble reads |
| `Banks.LevelPins` | gpio.c:237-244 | port B's case of gpioPinWrite clears every masked bit when value is LOW and sets every masked bit otherwise; unmasked bits are kept |
| `Banks.FallFrom` | gpio.c:228-260 | a switch without `break` entered at case q runs the arm of port q and of every later port; earlier ports are untouched |
| `Banks.FallFromFields` | gpio.c:228-260 | the same fall-through written out register by register |
| `Banks.Store` | gpio.c:16-67 | the selected port's register becomes the byte; the other ports are unchanged; an invalid port changes nothing |
| `Banks.XorPort` | gpio.c:283-304 | the selected port's register has exactly the mask bits flipped; the other ports are unchanged; an invalid port changes nothing |
| `Banks.DirectBits` | gpio.c:152-162 | direction 0xFF sets exactly the masked bits; any other direction clears exactly the masked bits; unmasked bits are kept |
| `Banks.DirectPins` | gpio.c:148-203 | gpioPinDirection changes only the selected port's DIR, as DirectBits does; an invalid port changes nothing |
| `Banks.AssignFrom` | gpio.c:351-412 | the nibble direction/write functions give the selected port and every later port the value's bits inside the nibble mask; other bits and earlier ports are kept |
| `Banks.FlipFrom` | gpio.c:423-448 | the nibble toggles flip the nibble in the selected port and every later port; other bits and earlier ports are kept |
| `Banks.PinWriteFrom` | gpio.c:224-262 | gpioPinWrite: ports before the selected one are kept; port B (when reached) takes the level; the other reached ports take value's masked bits; unmasked bits are kept everywhere |
| `Banks.XorPortTwice` | gpio.c:283-304 | toggling the same pins of the same port twice restores the bank (also gpioPortToggle with mask 0xFF) |
| `Banks.FlipFromTwice` | gpio.c:557-582 | a nibble toggle applied twice restores every port |
| `Banks.DirectPinsIdempotent` | gpio.c:148-203 | gpioPinDirection twice with the same arguments equals once |
| `Banks.AssignFromIdempotent` | gpio.c:521-546 | a nibble write twice with the same arguments equals once |
| `Banks.PinWriteArmsAgreeOnFullLevels` | gpio.c:228-252 | for value 0x00 or 0xFF, the bit-copy cases and port B's level case give the same register |
| `Banks.PinWriteArmsDisagree` | gpio.c:237-252 | writing 0x01 under mask 0x02 from port B sets bit 1 of B but leaves bit 1 of C cleared |
| `Banks.AssignFromReachesPortD` | gpio.c:387-412 | a nibble write for any valid port also rewrites port D's nibble |
| `Banks.PinWriteOnPortB` | gpio.c:237-260 | gpioPinWrite for port B: A kept, B set/cleared by level, C and D take value's masked bits |
| `Banks.PinWriteOnPortD` | gpio.c:254-260 | gpioPinWrite for port D changes only D, copying value's masked bits |
| `Banks.NibbleWritesCommute` | gpio.c:387-546 | upper and lower nibble writes commute, whatever ports they are called for |
| `Banks.NibbleWritesMakePortWrite` | gpio.c:387-546 | writing both nibbles of port p with v stores v in p and in every later port, and keeps earlier ports |
| `Gpio.CopyPinBits` | gpio.c:229-235 | the pin-write loop over i = 0..7 gives the register value's bits inside pins and keeps the rest |
| `Gpio.CopyPinBitsStep` | gpio.c:231-233 | one loop pass extends the copied mask by bit i exactly when GET_BIT(pins, i) |
| `Gpio.AssignBits` | gpio.c:356-359 | the nibble assign loop over i = lo..hi-1 copies value's bits lo..hi-1 and keeps the rest |
| `Gpio.ToggleBits` | gpio.c:428-431 | the nibble toggle loop over i = lo..hi-1 flips bits lo..hi-1 and keeps the rest |
| `Gpio.Registers.PortDirection` | gpio.c:16-35 | DIR of the port becomes direction as-is (Store); data registers unchanged |
| `Gpio.Registers.PortWrite` | gpio.c:48-67 | DATA of the port becomes value as-is (Store); direction registers unchanged |
| `Gpio.Registers.PortToggle` | gpio.c:78-97 | DATA of the port is XORed with 0xFF (XorPort); direction registers unchanged |
| `Gpio.Registers.PortRead` | gpio.c:108-122 | returns the port's DATA, and 0 for an invalid port id |
| `Gpio.Registers.PinDirection` | gpio.c:148-203 | DIR bank becomes DirectPins of the old one; data registers unchanged |
| `Gpio.Registers.PinWrite` | gpio.c:224-262 | DATA bank becomes PinWriteFrom of the old one (fall-through, port B level); direction registers unchanged |
| `Gpio.Registers.PinToggle` | gpio.c:283-304 | DATA bank becomes XorPort of the old one with the pins; direction registers unchanged |
| `Gpio.Registers.PinRead` | gpio.c:326-339 | returns 0 or 1, and 1 exactly when bit `pin` of the port's DATA is set |
| `Gpio.Registers.UpperNibbleDirection` | gpio.c:351-376 | DIR bank becomes AssignFrom(old, port, direction, 0xF0); data registers unchanged |
| `Gpio.Registers.UpperNibbleWrite` | gpio.c:387-412 | DATA bank becomes AssignFrom(old, port, value, 0xF0); direction registers unchanged |
| `Gpio.Registers.UpperNibbleToggle` | gpio.c:423-448 | DATA bank becomes FlipFrom(old, port, 0xF0); direction registers unchanged |
| `Gpio.Registers.UpperNibbleRead` | gpio.c:459-472 | the result has no bit in 0x0F, and its bits in 0xF0 are the port's DATA bits |
| `Gpio.Registers.LowerNibbleDirection` | gpio.c:485-510 | DIR bank becomes AssignFrom(old, port, direction, 0x0F); data registers unchanged |
| `Gpio.Registers.LowerNibbleWrite` | gpio.c:521-546 | DATA bank becomes AssignFrom(old, port, value, 0x0F); direction registers unchanged |
| `Gpio.Registers.LowerNibbleToggle` | gpio.c:557-582 | DATA bank becomes FlipFrom(old, port, 0x0F); direction registers unchanged |
| `Gpio.Registers.LowerNibbleRead` | gpio.c:593-606 | the result has no bit in 0xF0, and its bits in 0x0F are the port's DATA bits |
| `GpioProperties.PortWriteThenRead` | gpio.c:48-122 | gpioPortWrite then gpioPortRead returns the byte; for an invalid port the read is 0 and nothing changed |
| `GpioProperties.PortDirectionStores` | gpio.c:16-35 | gpioPortDirection stores the byte in the port's DIR only; data registers unchanged |
| `GpioProperties.ToggleScenario` | gpio.c:16-122 | port A set all-output, written 0x55 and toggled reads 0xAA |
| `GpioProperties.PortToggleTwice` | gpio.c:78-97 | gpioPortToggle twice restores all eight registers |
| `GpioProperties.PinToggleTwice` | gpio.c:283-304 | gpioPinToggle twice with the same pins restores all eight registers |
| `GpioProperties.PinDirectionLowNibbleOfB` | gpio.c:164-174 | pins 0x0F of port B become outputs for 0xFF and inputs otherwise; B's upper DIR nibble is kept |
| `GpioProperties.PinWriteThenRead` | gpio.c:224-339 | writing pin i then reading it gives the level on port B, and bit i of value on A, C, D |
| `GpioProperties.NibbleWritesThenReads` | gpio.c:387-606 | each nibble read gives back its own half of what was written; the port read gives both |
| `GpioProperties.UpperNibbleWriteOnAReachesD` | gpio.c:387-412 | an upper nibble write for port A sets D's upper nibble and keeps D's lower nibble |
| `GpioProperties.NibbleTogglesTwice` | gpio.c:423-582 | each nibble toggle applied twice restores all eight registers |

## Left out

- `SwDelay_ms` in `softwareDelay.c` is a busy-wait whose only effect is elapsed time. It is not modelled.
- The `volatile`, memory-mapped nature of `PORTx_DIR` and `PORTx_DATA` is not modelled. The registers are plain fields, so a read returns the last value written and external pin levels never appear in a data register.
- `gpio.h` is not part of this model. The meanings of `GET_BIT`, `TOGGLE_BIT`, `ASSIGN_BIT`, `LOW` and `GPIOA`..`GPIOD` are assumed, as stated in `bits.dfy` and `banks.dfy`.
- Interrupts and concurrent access are not modelled. The driver does no synchronisation, so every call is modelled as atomic.
- `Gpio.Registers.PinRead`, `Gpio.Registers.UpperNibbleRead` and `Gpio.Registers.LowerNibbleRead` require a valid port. The C functions have no `return` for any other port id, which is undefined behaviour, so no fallback value is modelled.
- `Bits.GetBit` reads pin indices 8 and above as 0. In C, a shift of the promoted `int` by 8..31 gives 0 too, but a shift by 32 or more is undefined. The model does not distinguish that case.
- The driver's pin-mask functions take a mask of pins, while `gpioPinRead` takes one pin index. The model keeps the two readings as the code uses them.
- The model does not capture the per-port isolation of pin writes and nibble operations, or the uniform level semantics of `gpioPinWrite`, that the design description asks for. It models the fall-through and the port-B-only level case of `gpio.c` instead, as described above.
