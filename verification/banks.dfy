/**
 * The register file of the four GPIO ports as a value, and what each driver
 * operation does to it.
 *
 * A bank holds one register kind (the four direction registers, or the four
 * data registers), one register per port. The driver in gpio.c updates one
 * bank per call; the functions here give the new bank from the old one.
 */
module Banks {
  import opened Bits

  /** A C uint8 used as a number: a port id. */
  newtype u8 = x: int | 0 <= x < 0x100

  /** Port ids, as documented beside every function of gpio.c. */
  const GPIOA: u8 := 0
  const GPIOB: u8 := 1
  const GPIOC: u8 := 2
  const GPIOD: u8 := 3

  /** One register per port. */
  datatype Bank = Bank(portA: bv8, portB: bv8, portC: bv8, portD: bv8)
  {
    /** The register of port p. */
    function At(p: u8): bv8
      requires p < 4
    {
      if p == GPIOA then portA else if p == GPIOB then portB else if p == GPIOC then portC else portD
    }

    /** This bank with the register of port p replaced by v. */
    function With(p: u8, v: bv8): (r: Bank)
      requires p < 4
      ensures r.At(p) == v
      ensures forall q: u8 :: q < 4 && q != p ==> r.At(q) == At(q)
    {
      if p == GPIOA then this.(portA := v)
      else if p == GPIOB then this.(portB := v)
      else if p == GPIOC then this.(portC := v)
      else this.(portD := v)
    }
  }

  /** Two banks that agree on every port are the same bank. */
  lemma BankExt(x: Bank, y: Bank)
    requires forall p: u8 :: p < 4 ==> x.At(p) == y.At(p)
    ensures x == y
  {
    assert x.At(GPIOA) == y.At(GPIOA) && x.At(GPIOB) == y.At(GPIOB);
    assert x.At(GPIOC) == y.At(GPIOC) && x.At(GPIOD) == y.At(GPIOD);
  }

  /** The whole register file: PORTx_DIR and PORTx_DATA for x = A..D. */
  datatype RegFile = RegFile(dir: Bank, data: Bank)

  /** What one case arm of a fall-through switch does to its port's register. */
  datatype Arm =
    | CopyBits(value: bv8, mask: bv8)    // ASSIGN_BIT from value over the bits of mask
    | FlipBits(mask: bv8)                // TOGGLE_BIT over the bits of mask
    | PinWriteArm(pins: bv8, value: bv8) // the arms of gpioPinWrite

  /**
   * Port B's case of gpioPinWrite: the pins are cleared when value is LOW and
   * set otherwise, whatever value's own bits are; the other bits are kept.
   */
  function LevelPins(d: bv8, pins: bv8, value: bv8): (r: bv8)
    ensures r & !pins == d & !pins
    ensures r & pins == if value == LOW then 0 else pins
  {
    if value == LOW then d & !pins else d | pins
  }

  /** The arm for port q applied to that port's register d. */
  function RunArm(a: Arm, q: u8, d: bv8): bv8
  {
    match a
    case CopyBits(v, m) => MaskedCopy(d, v, m)
    case FlipBits(m) => FlipMask(d, m)
    case PinWriteArm(pins, v) =>
      if q == GPIOB then LevelPins(d, pins, v) else MaskedCopy(d, v, pins)
  }

  /**
   * A switch whose cases have no `break`: entering at case q runs the arm of
   * port q and then the arm of every later port.
   */
  function FallFrom(bk: Bank, q: u8, a: Arm): (r: Bank)
    requires q <= 4
    ensures forall p: u8 :: p < 4 ==> r.At(p) == if q <= p then RunArm(a, p, bk.At(p)) else bk.At(p)
    decreases 4 - q as int
  {
    if q == 4 then bk else FallFrom(bk.With(q, RunArm(a, q, bk.At(q))), q + 1, a)
  }

  /** FallFrom written out port by port. */
  lemma FallFromFields(bk: Bank, q: u8, a: Arm)
    requires q <= 4
    ensures FallFrom(bk, q, a) == Bank(
      if q <= GPIOA then RunArm(a, GPIOA, bk.portA) else bk.portA,
      if q <= GPIOB then RunArm(a, GPIOB, bk.portB) else bk.portB,
      if q <= GPIOC then RunArm(a, GPIOC, bk.portC) else bk.portC,
      if q <= GPIOD then RunArm(a, GPIOD, bk.portD) else bk.portD)
  {
    var r := FallFrom(bk, q, a);
    assert r.At(GPIOA) == r.portA && r.At(GPIOB) == r.portB;
    assert r.At(GPIOC) == r.portC && r.At(GPIOD) == r.portD;
  }

  /**
   * gpioPortDirection / gpioPortWrite: the byte is stored as-is into the
   * selected port's register; an invalid port id changes nothing.
   */
  function Store(bk: Bank, port: u8, v: bv8): (r: Bank)
    ensures port < 4 ==> r.At(port) == v
    ensures forall p: u8 :: p < 4 && p != port ==> r.At(p) == bk.At(p)
  {
    if port < 4 then bk.With(port, v) else bk
  }

  /**
   * gpioPortToggle (mask 0xFF) / gpioPinToggle: every bit of mask flips in the
   * selected port's register, no other bit of it changes, and no other
   * port's register changes; an invalid port id changes nothing.
   */
  function XorPort(bk: Bank, port: u8, mask: bv8): (r: Bank)
    ensures port < 4 ==> r.At(port) == FlipMask(bk.At(port), mask)
    ensures forall p: u8 :: p < 4 && p != port ==> r.At(p) == bk.At(p)
  {
    if port < 4 then bk.With(port, FlipMask(bk.At(port), mask)) else bk
  }

  /**
   * One port's case of gpioPinDirection: OR the pins in for direction 0xFF,
   * AND with the pins' complement (pins ^ 0xFF) for any other direction.
   */
  function DirectBits(d: bv8, pins: bv8, direction: bv8): (r: bv8)
    ensures r & !pins == d & !pins
    ensures r & pins == if direction == 0xFF then pins else 0
  {
    if direction == 0xFF then d | pins else d & (pins ^ 0xFF)
  }

  /**
   * gpioPinDirection: with direction 0xFF the pins of the selected port
   * become outputs (set); with any other direction they become inputs
   * (cleared). Bits outside pins and the other ports keep their value; an
   * invalid port id changes nothing.
   */
  function DirectPins(bk: Bank, port: u8, pins: bv8, direction: bv8): (r: Bank)
    ensures port < 4 ==> r.At(port) == DirectBits(bk.At(port), pins, direction)
    ensures forall p: u8 :: p < 4 && p != port ==> r.At(p) == bk.At(p)
  {
    if port < 4 then bk.With(port, DirectBits(bk.At(port), pins, direction)) else bk
  }

  /**
   * The nibble direction/write functions: in the selected port AND every
   * later port (missing `break`) the bits of mask take v's bits; the other
   * bits, and the earlier ports, keep their value.
   */
  function AssignFrom(bk: Bank, port: u8, v: bv8, mask: bv8): (r: Bank)
    ensures forall p: u8 :: p < 4 ==> r.At(p) == if port <= p then MaskedCopy(bk.At(p), v, mask) else bk.At(p)
  {
    if port < 4 then FallFrom(bk, port, CopyBits(v, mask)) else bk
  }

  /**
   * The nibble toggle functions: the bits of mask flip in the selected port
   * and every later port (missing `break`); the other bits, and the earlier
   * ports, keep their value.
   */
  function FlipFrom(bk: Bank, port: u8, mask: bv8): (r: Bank)
    ensures forall p: u8 :: p < 4 ==> r.At(p) == if port <= p then FlipMask(bk.At(p), mask) else bk.At(p)
  {
    if port < 4 then FallFrom(bk, port, FlipBits(mask)) else bk
  }

  /**
   * gpioPinWrite: entering at the selected port, every case runs (missing
   * `break`). Port B's case sets the pins when value is not LOW and clears
   * them when it is; the cases of A, C and D copy the pins' bits of value.
   * Bits outside pins, and the ports before the selected one, keep their value.
   */
  function PinWriteFrom(bk: Bank, port: u8, pins: bv8, value: bv8): (r: Bank)
    ensures forall p: u8 :: p < 4 ==>
      r.At(p) == (if p < port then bk.At(p)
                  else if p == GPIOB then LevelPins(bk.At(p), pins, value)
                  else MaskedCopy(bk.At(p), value, pins))
  {
    if port < 4 then FallFrom(bk, port, PinWriteArm(pins, value)) else bk
  }

  // ---------------------------------------------------------------------------
  // Properties relating several operations
  // ---------------------------------------------------------------------------

  /** Toggling the same pins of the same port twice restores the bank. */
  lemma XorPortTwice(bk: Bank, port: u8, mask: bv8)
    ensures XorPort(XorPort(bk, port, mask), port, mask) == bk
  {
    var r := XorPort(XorPort(bk, port, mask), port, mask);
    BankExt(r, bk);
  }

  /** A nibble toggle applied twice restores every port's register. */
  lemma FlipFromTwice(bk: Bank, port: u8, mask: bv8)
    ensures FlipFrom(FlipFrom(bk, port, mask), port, mask) == bk
  {
    var r := FlipFrom(FlipFrom(bk, port, mask), port, mask);
    BankExt(r, bk);
  }

  /**
   * gpioPinDirection is an absolute set or clear: applying it twice with the
   * same arguments has the effect of applying it once.
   */
  lemma DirectPinsIdempotent(bk: Bank, port: u8, pins: bv8, direction: bv8)
    ensures DirectPins(DirectPins(bk, port, pins, direction), port, pins, direction)
         == DirectPins(bk, port, pins, direction)
  {
    var once := DirectPins(bk, port, pins, direction);
    BankExt(DirectPins(once, port, pins, direction), once);
  }

  /**
   * The nibble writes are idempotent too: a second identical call finds the
   * nibble already holding the value's bits.
   */
  lemma AssignFromIdempotent(bk: Bank, port: u8, v: bv8, mask: bv8)
    ensures AssignFrom(AssignFrom(bk, port, v, mask), port, v, mask) == AssignFrom(bk, port, v, mask)
  {
    var once := AssignFrom(bk, port, v, mask);
    BankExt(AssignFrom(once, port, v, mask), once);
  }

  /**
   * The two kinds of case in gpioPinWrite agree when value is a full level
   * (0x00 or 0xFF): then the bit copy of A, C and D gives the same register
   * as B's set-or-clear.
   */
  lemma PinWriteArmsAgreeOnFullLevels(pins: bv8, value: bv8, d: bv8)
    requires value == LOW || value == 0xFF
    ensures MaskedCopy(d, value, pins) == LevelPins(d, pins, value)
  {
  }

  /**
   * For any other value they can disagree: writing 0x01 under pin mask 0x02
   * sets bit 1 on port B but clears it on port C.
   */
  lemma PinWriteArmsDisagree()
    ensures GetBit(PinWriteFrom(Bank(0, 0, 0, 0), GPIOB, 0x02, 0x01).At(GPIOB), 1) == 1
    ensures GetBit(PinWriteFrom(Bank(0, 0, 0, 0), GPIOB, 0x02, 0x01).At(GPIOC), 1) == 0
  {
  }

  /**
   * The missing `break` in the nibble functions: a call for any valid port
   * rewrites port D's register too.
   */
  lemma AssignFromReachesPortD(bk: Bank, port: u8, v: bv8, mask: bv8)
    requires port < 4
    ensures AssignFrom(bk, port, v, mask).At(GPIOD) == MaskedCopy(bk.At(GPIOD), v, mask)
  {
  }

  /**
   * gpioPinWrite on port B: B's pins are cleared for LOW and set otherwise,
   * then the cases of C and D copy the pins' bits of value; A is untouched
   * and no bit outside pins changes anywhere.
   */
  lemma PinWriteOnPortB(bk: Bank, pins: bv8, value: bv8)
    ensures var r := PinWriteFrom(bk, GPIOB, pins, value);
      && r.portA == bk.portA
      && r.portB == LevelPins(bk.portB, pins, value)
      && r.portC == MaskedCopy(bk.portC, value, pins)
      && r.portD == MaskedCopy(bk.portD, value, pins)
  {
  }

  /**
   * gpioPinWrite on port D: D takes the pins' bits of value and keeps its
   * other bits; ports A, B and C are untouched.
   */
  lemma PinWriteOnPortD(bk: Bank, pins: bv8, value: bv8)
    ensures PinWriteFrom(bk, GPIOD, pins, value) == bk.(portD := MaskedCopy(bk.portD, value, pins))
  {
  }

  /**
   * The upper and lower nibble writes touch disjoint bits, so they commute,
   * whatever ports they are called for.
   */
  lemma NibbleWritesCommute(bk: Bank, p: u8, v: bv8, q: u8, w: bv8)
    ensures AssignFrom(AssignFrom(bk, p, v, UPPER_NIBBLE), q, w, LOWER_NIBBLE)
         == AssignFrom(AssignFrom(bk, q, w, LOWER_NIBBLE), p, v, UPPER_NIBBLE)
  {
    var x := AssignFrom(AssignFrom(bk, p, v, UPPER_NIBBLE), q, w, LOWER_NIBBLE);
    var y := AssignFrom(AssignFrom(bk, q, w, LOWER_NIBBLE), p, v, UPPER_NIBBLE);
    forall k: u8 | k < 4
      ensures x.At(k) == y.At(k)
    {
      NibbleCopiesCommute(bk.At(k), v, w);
    }
    BankExt(x, y);
  }

  /** Copies into the two nibbles of one register commute. */
  lemma NibbleCopiesCommute(d: bv8, v: bv8, w: bv8)
    ensures MaskedCopy(MaskedCopy(d, v, UPPER_NIBBLE), w, LOWER_NIBBLE)
         == MaskedCopy(MaskedCopy(d, w, LOWER_NIBBLE), v, UPPER_NIBBLE)
  {
  }

  /**
   * Writing both nibbles with the same byte stores that byte, in the
   * selected port and, through the missing `break`, in every later port.
   */
  lemma NibbleWritesMakePortWrite(bk: Bank, port: u8, v: bv8)
    requires port < 4
    ensures forall p: u8 :: p < 4 ==>
      AssignFrom(AssignFrom(bk, port, v, UPPER_NIBBLE), port, v, LOWER_NIBBLE).At(p)
        == if port <= p then v else bk.At(p)
  {
  }
}
