/**
 * The GPIO driver of gpio.c: four 8-bit ports A..D, each with a direction
 * register (PORTx_DIR) and a data register (PORTx_DATA), and the sixteen
 * functions that set, write, toggle and read them per port, per pin mask and
 * per nibble.
 *
 * Registers is the register file; each C function is a method or, for the
 * readers, a function over it. Every mutating method states its new state as
 * a function of the old one from module Banks, where the properties of that
 * function are proved. The `for` loops of gpio.c are the methods
 * CopyPinBits, AssignBits and ToggleBits, proved against their bit-mask
 * specifications. A switch without `break` is a chain of `if port <= X`
 * tests, one per case, so that entering at one case runs all later ones.
 */
module Gpio {
  import opened Bits
  import opened Banks

  /**
   * The loop in the A, C and D cases of gpioPinWrite: for i = 0..7, when bit
   * i of pins is set, ASSIGN_BIT(reg, i, value). The result takes the pins'
   * bits of value and keeps reg's other bits.
   */
  method CopyPinBits(reg: bv8, pins: bv8, value: bv8) returns (r: bv8)
    ensures r == MaskedCopy(reg, value, pins)
  {
    r := reg;
    var i: bv8 := 0;
    while i < 8
      invariant i <= 8
      invariant r == MaskedCopy(reg, value, pins & BitsBelow(i))
      decreases 8 - i as int
    {
      CopyPinBitsStep(reg, value, pins, i);
      if GetBit(pins, i) != 0 {
        r := AssignBit(r, i, value);
      }
      i := i + 1;
    }
  }

  /** One pass of CopyPinBits' loop extends the copied mask by bit i of pins. */
  lemma CopyPinBitsStep(reg: bv8, value: bv8, pins: bv8, i: bv8)
    requires i < 8
    ensures MaskedCopy(reg, value, pins & BitsBelow(i + 1))
         == if GetBit(pins, i) != 0 then AssignBit(MaskedCopy(reg, value, pins & BitsBelow(i)), i, value)
            else MaskedCopy(reg, value, pins & BitsBelow(i))
  {
    BitsBelowStep(i);
  }

  /**
   * The loops of the nibble direction/write functions: for i = lo..hi-1,
   * ASSIGN_BIT(reg, i, value). Called with 4..8 (upper) and 0..4 (lower).
   */
  method AssignBits(reg: bv8, value: bv8, lo: bv8, hi: bv8) returns (r: bv8)
    requires lo <= hi <= 8
    ensures r == MaskedCopy(reg, value, BitRange(lo, hi))
  {
    r := reg;
    var i := lo;
    while i < hi
      invariant lo <= i <= hi
      invariant r == MaskedCopy(reg, value, BitRange(lo, i))
      decreases hi as int - i as int
    {
      r := AssignBit(r, i, value);
      i := i + 1;
    }
  }

  /**
   * The loops of the nibble toggle functions: for i = lo..hi-1,
   * TOGGLE_BIT(reg, i). The bits lo..hi-1 flip, the others stay.
   */
  method ToggleBits(reg: bv8, lo: bv8, hi: bv8) returns (r: bv8)
    requires lo <= hi <= 8
    ensures r == FlipMask(reg, BitRange(lo, hi))
  {
    r := reg;
    var i := lo;
    while i < hi
      invariant lo <= i <= hi
      invariant r == FlipMask(reg, BitRange(lo, i))
      decreases hi as int - i as int
    {
      r := ToggleBit(r, i);
      i := i + 1;
    }
  }

  /** The eight memory-mapped registers of ports A..D. */
  class Registers {
    var dirA: bv8
    var dirB: bv8
    var dirC: bv8
    var dirD: bv8
    var dataA: bv8
    var dataB: bv8
    var dataC: bv8
    var dataD: bv8

    /** The register file as a value: the direction bank and the data bank. */
    function Regs(): RegFile
      reads this
    {
      RegFile(Bank(dirA, dirB, dirC, dirD), Bank(dataA, dataB, dataC, dataD))
    }

    /** The registers hold whatever the hardware holds when the driver starts. */
    constructor (init: RegFile)
      ensures Regs() == init
    {
      dirA, dirB, dirC, dirD := init.dir.portA, init.dir.portB, init.dir.portC, init.dir.portD;
      dataA, dataB, dataC, dataD := init.data.portA, init.data.portB, init.data.portC, init.data.portD;
    }

    // ------------------------------------------------------------------ port

    /** gpioPortDirection: store direction as-is in the port's DIR register; an invalid port id matches no case. */
    method PortDirection(port: u8, direction: bv8)
      modifies this
      ensures Regs().dir == Store(old(Regs().dir), port, direction)
      ensures Regs().data == old(Regs().data)
    {
      if port == GPIOA {
        dirA := direction;
      } else if port == GPIOB {
        dirB := direction;
      } else if port == GPIOC {
        dirC := direction;
      } else if port == GPIOD {
        dirD := direction;
      }
    }

    /** gpioPortWrite: store value as-is in the port's DATA register; an invalid port id matches no case. */
    method PortWrite(port: u8, value: bv8)
      modifies this
      ensures Regs().data == Store(old(Regs().data), port, value)
      ensures Regs().dir == old(Regs().dir)
    {
      if port == GPIOA {
        dataA := value;
      } else if port == GPIOB {
        dataB := value;
      } else if port == GPIOC {
        dataC := value;
      } else if port == GPIOD {
        dataD := value;
      }
    }

    /** gpioPortToggle: DATA ^= 0xFF for the port; an invalid port id matches no case. */
    method PortToggle(port: u8)
      modifies this
      ensures Regs().data == XorPort(old(Regs().data), port, 0xFF)
      ensures Regs().dir == old(Regs().dir)
    {
      if port == GPIOA {
        dataA := FlipMask(dataA, 0xFF);
      } else if port == GPIOB {
        dataB := FlipMask(dataB, 0xFF);
      } else if port == GPIOC {
        dataC := FlipMask(dataC, 0xFF);
      } else if port == GPIOD {
        dataD := FlipMask(dataD, 0xFF);
      }
    }

    /** gpioPortRead: the port's DATA register, and 0 for an invalid port id. */
    function PortRead(port: u8): (r: bv8)
      reads this
      ensures port < 4 ==> r == Regs().data.At(port)
      ensures port >= 4 ==> r == 0
    {
      if port == GPIOA then dataA
      else if port == GPIOB then dataB
      else if port == GPIOC then dataC
      else if port == GPIOD then dataD
      else 0
    }

    // ------------------------------------------------------------------- pin

    /**
     * gpioPinDirection: each port's case is DirectBits (for direction 0xFF,
     * DIR |= pins; otherwise pins ^= 0xFF and DIR &= pins) and ends in
     * `break`; an invalid port id matches no case.
     */
    method PinDirection(port: u8, pins: bv8, direction: bv8)
      modifies this
      ensures Regs().dir == DirectPins(old(Regs().dir), port, pins, direction)
      ensures Regs().data == old(Regs().data)
    {
      if port == GPIOA {
        dirA := DirectBits(dirA, pins, direction);
      } else if port == GPIOB {
        dirB := DirectBits(dirB, pins, direction);
      } else if port == GPIOC {
        dirC := DirectBits(dirC, pins, direction);
      } else if port == GPIOD {
        dirD := DirectBits(dirD, pins, direction);
      }
    }

    /**
     * gpioPinWrite, whose cases have no `break`: control enters at the
     * selected port and runs the case of every later port too. Port B's
     * case treats value as one level (LevelPins); the others copy value's
     * bits in a loop (CopyPinBits).
     */
    method PinWrite(port: u8, pins: bv8, value: bv8)
      modifies this
      ensures Regs().data == PinWriteFrom(old(Regs().data), port, pins, value)
      ensures Regs().dir == old(Regs().dir)
    {
      if port < 4 {
        FallFromFields(Regs().data, port, PinWriteArm(pins, value));
      }
      if port <= GPIOA {
        dataA := CopyPinBits(dataA, pins, value);
      }
      if port <= GPIOB {
        dataB := LevelPins(dataB, pins, value);
      }
      if port <= GPIOC {
        dataC := CopyPinBits(dataC, pins, value);
      }
      if port <= GPIOD {
        dataD := CopyPinBits(dataD, pins, value);
      }
    }

    /** gpioPinToggle: DATA ^= pins for the port; an invalid port id matches no case. */
    method PinToggle(port: u8, pins: bv8)
      modifies this
      ensures Regs().data == XorPort(old(Regs().data), port, pins)
      ensures Regs().dir == old(Regs().dir)
    {
      if port == GPIOA {
        dataA := FlipMask(dataA, pins);
      } else if port == GPIOB {
        dataB := FlipMask(dataB, pins);
      } else if port == GPIOC {
        dataC := FlipMask(dataC, pins);
      } else if port == GPIOD {
        dataD := FlipMask(dataD, pins);
      }
    }

    /**
     * gpioPinRead: GET_BIT of the port's DATA register. The C function has
     * no return for an invalid port id, so the port must be valid.
     */
    function PinRead(port: u8, pin: bv8): (r: bv8)
      requires port < 4
      reads this
      ensures r == 0 || r == 1
      ensures r == 1 <==> pin < 8 && Regs().data.At(port) & (1 << pin) != 0
    {
      if port == GPIOA then GetBit(dataA, pin)
      else if port == GPIOB then GetBit(dataB, pin)
      else if port == GPIOC then GetBit(dataC, pin)
      else GetBit(dataD, pin)
    }

    // ---------------------------------------------------------- upper nibble

    /** gpioUpperNibbleDirection: ASSIGN_BIT of bits 4..7 of DIR, falling through to later ports. */
    method UpperNibbleDirection(port: u8, direction: bv8)
      modifies this
      ensures Regs().dir == AssignFrom(old(Regs().dir), port, direction, UPPER_NIBBLE)
      ensures Regs().data == old(Regs().data)
    {
      if port < 4 {
        FallFromFields(Regs().dir, port, CopyBits(direction, UPPER_NIBBLE));
      }
      NibbleRanges();
      if port <= GPIOA {
        dirA := AssignBits(dirA, direction, 4, 8);
      }
      if port <= GPIOB {
        dirB := AssignBits(dirB, direction, 4, 8);
      }
      if port <= GPIOC {
        dirC := AssignBits(dirC, direction, 4, 8);
      }
      if port <= GPIOD {
        dirD := AssignBits(dirD, direction, 4, 8);
      }
    }

    /** gpioUpperNibbleWrite: ASSIGN_BIT of bits 4..7 of DATA, falling through to later ports. */
    method UpperNibbleWrite(port: u8, value: bv8)
      modifies this
      ensures Regs().data == AssignFrom(old(Regs().data), port, value, UPPER_NIBBLE)
      ensures Regs().dir == old(Regs().dir)
    {
      if port < 4 {
        FallFromFields(Regs().data, port, CopyBits(value, UPPER_NIBBLE));
      }
      NibbleRanges();
      if port <= GPIOA {
        dataA := AssignBits(dataA, value, 4, 8);
      }
      if port <= GPIOB {
        dataB := AssignBits(dataB, value, 4, 8);
      }
      if port <= GPIOC {
        dataC := AssignBits(dataC, value, 4, 8);
      }
      if port <= GPIOD {
        dataD := AssignBits(dataD, value, 4, 8);
      }
    }

    /** gpioUpperNibbleToggle: TOGGLE_BIT of bits 4..7 of DATA, falling through to later ports. */
    method UpperNibbleToggle(port: u8)
      modifies this
      ensures Regs().data == FlipFrom(old(Regs().data), port, UPPER_NIBBLE)
      ensures Regs().dir == old(Regs().dir)
    {
      if port < 4 {
        FallFromFields(Regs().data, port, FlipBits(UPPER_NIBBLE));
      }
      NibbleRanges();
      if port <= GPIOA {
        dataA := ToggleBits(dataA, 4, 8);
      }
      if port <= GPIOB {
        dataB := ToggleBits(dataB, 4, 8);
      }
      if port <= GPIOC {
        dataC := ToggleBits(dataC, 4, 8);
      }
      if port <= GPIOD {
        dataD := ToggleBits(dataD, 4, 8);
      }
    }

    /**
     * gpioUpperNibbleRead: DATA & 0xF0, not shifted. The C function has no
     * return for an invalid port id, so the port must be valid.
     */
    function UpperNibbleRead(port: u8): (r: bv8)
      requires port < 4
      reads this
      ensures r & LOWER_NIBBLE == 0
      ensures r & UPPER_NIBBLE == Regs().data.At(port) & UPPER_NIBBLE
    {
      if port == GPIOA then dataA & 0xF0
      else if port == GPIOB then dataB & 0xF0
      else if port == GPIOC then dataC & 0xF0
      else dataD & 0xF0
    }

    // ---------------------------------------------------------- lower nibble

    /** gpioLowerNibbleDirection: ASSIGN_BIT of bits 0..3 of DIR, falling through to later ports. */
    method LowerNibbleDirection(port: u8, direction: bv8)
      modifies this
      ensures Regs().dir == AssignFrom(old(Regs().dir), port, direction, LOWER_NIBBLE)
      ensures Regs().data == old(Regs().data)
    {
      if port < 4 {
        FallFromFields(Regs().dir, port, CopyBits(direction, LOWER_NIBBLE));
      }
      NibbleRanges();
      if port <= GPIOA {
        dirA := AssignBits(dirA, direction, 0, 4);
      }
      if port <= GPIOB {
        dirB := AssignBits(dirB, direction, 0, 4);
      }
      if port <= GPIOC {
        dirC := AssignBits(dirC, direction, 0, 4);
      }
      if port <= GPIOD {
        dirD := AssignBits(dirD, direction, 0, 4);
      }
    }

    /** gpioLowerNibbleWrite: ASSIGN_BIT of bits 0..3 of DATA, falling through to later ports. */
    method LowerNibbleWrite(port: u8, value: bv8)
      modifies this
      ensures Regs().data == AssignFrom(old(Regs().data), port, value, LOWER_NIBBLE)
      ensures Regs().dir == old(Regs().dir)
    {
      if port < 4 {
        FallFromFields(Regs().data, port, CopyBits(value, LOWER_NIBBLE));
      }
      NibbleRanges();
      if port <= GPIOA {
        dataA := AssignBits(dataA, value, 0, 4);
      }
      if port <= GPIOB {
        dataB := AssignBits(dataB, value, 0, 4);
      }
      if port <= GPIOC {
        dataC := AssignBits(dataC, value, 0, 4);
      }
      if port <= GPIOD {
        dataD := AssignBits(dataD, value, 0, 4);
      }
    }

    /** gpioLowerNibbleToggle: TOGGLE_BIT of bits 0..3 of DATA, falling through to later ports. */
    method LowerNibbleToggle(port: u8)
      modifies this
      ensures Regs().data == FlipFrom(old(Regs().data), port, LOWER_NIBBLE)
      ensures Regs().dir == old(Regs().dir)
    {
      if port < 4 {
        FallFromFields(Regs().data, port, FlipBits(LOWER_NIBBLE));
      }
      NibbleRanges();
      if port <= GPIOA {
        dataA := ToggleBits(dataA, 0, 4);
      }
      if port <= GPIOB {
        dataB := ToggleBits(dataB, 0, 4);
      }
      if port <= GPIOC {
        dataC := ToggleBits(dataC, 0, 4);
      }
      if port <= GPIOD {
        dataD := ToggleBits(dataD, 0, 4);
      }
    }

    /**
     * gpioLowerNibbleRead: DATA & 0x0F. The C function has no return for an
     * invalid port id, so the port must be valid.
     */
    function LowerNibbleRead(port: u8): (r: bv8)
      requires port < 4
      reads this
      ensures r & UPPER_NIBBLE == 0
      ensures r & LOWER_NIBBLE == Regs().data.At(port) & LOWER_NIBBLE
    {
      if port == GPIOA then dataA & 0x0F
      else if port == GPIOB then dataB & 0x0F
      else if port == GPIOC then dataC & 0x0F
      else dataD & 0x0F
    }
  }
}
