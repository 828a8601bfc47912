/**
 * Properties of the driver over sequences of calls. Each method starts from
 * arbitrary register contents, makes the driver calls of one usage pattern
 * and returns what a caller then observes.
 */
module GpioProperties {
  import opened Bits
  import opened Banks
  import opened Gpio

  /**
   * gpioPortWrite then gpioPortRead gives back the byte written. For an
   * invalid port id the read gives 0 and no register has changed. No call
   * touches a direction register.
   */
  method PortWriteThenRead(init: RegFile, port: u8, value: bv8) returns (read: bv8, after: RegFile)
    ensures read == if port < 4 then value else 0
    ensures port >= 4 ==> after == init
    ensures after.dir == init.dir
  {
    var regs := new Registers(init);
    regs.PortWrite(port, value);
    read := regs.PortRead(port);
    after := regs.Regs();
  }

  /**
   * gpioPortDirection stores the byte in the selected DIR register and no
   * other register changes; for an invalid port id nothing changes.
   */
  method PortDirectionStores(init: RegFile, port: u8, direction: bv8) returns (after: RegFile)
    ensures port < 4 ==> after.dir.At(port) == direction
    ensures forall p: u8 :: p < 4 && p != port ==> after.dir.At(p) == init.dir.At(p)
    ensures after.data == init.data
  {
    var regs := new Registers(init);
    regs.PortDirection(port, direction);
    after := regs.Regs();
  }

  /** Port A made all output, written 0x55 and toggled reads back 0xAA. */
  method ToggleScenario(init: RegFile) returns (dir: bv8, read: bv8)
    ensures dir == 0xFF
    ensures read == 0xAA
  {
    var regs := new Registers(init);
    regs.PortDirection(GPIOA, 0xFF);
    regs.PortWrite(GPIOA, 0x55);
    regs.PortToggle(GPIOA);
    dir := regs.Regs().dir.portA;
    read := regs.PortRead(GPIOA);
  }

  /** gpioPortToggle twice on the same port restores every register. */
  method PortToggleTwice(init: RegFile, port: u8) returns (after: RegFile)
    ensures after == init
  {
    var regs := new Registers(init);
    regs.PortToggle(port);
    regs.PortToggle(port);
    XorPortTwice(init.data, port, 0xFF);
    after := regs.Regs();
  }

  /** gpioPinToggle twice with the same pins restores every register. */
  method PinToggleTwice(init: RegFile, port: u8, pins: bv8) returns (after: RegFile)
    ensures after == init
  {
    var regs := new Registers(init);
    regs.PinToggle(port, pins);
    regs.PinToggle(port, pins);
    XorPortTwice(init.data, port, pins);
    after := regs.Regs();
  }

  /**
   * gpioPinDirection on pins 0x0F of port B: the low nibble of B's DIR
   * becomes all outputs for direction 0xFF and all inputs otherwise; the
   * high nibble keeps its prior value.
   */
  method PinDirectionLowNibbleOfB(init: RegFile, direction: bv8) returns (dir: bv8)
    ensures dir & 0x0F == if direction == 0xFF then 0x0F else 0x00
    ensures dir & 0xF0 == init.dir.portB & 0xF0
  {
    var regs := new Registers(init);
    regs.PinDirection(GPIOB, 0x0F, direction);
    dir := regs.Regs().dir.portB;
  }

  /**
   * gpioPinWrite of pin i (mask 1 << i) then gpioPinRead of pin i. On port B
   * the read is 1 unless value is LOW; on the other ports it is bit i of
   * value, so writing 1 reads back 1 only for pin 0.
   */
  method PinWriteThenRead(init: RegFile, port: u8, i: bv8, value: bv8) returns (read: bv8)
    requires port < 4 && i < 8
    ensures port == GPIOB ==> read == if value == LOW then 0 else 1
    ensures port != GPIOB ==> read == GetBit(value, i)
  {
    var regs := new Registers(init);
    regs.PinWrite(port, 1 << i, value);
    read := regs.PinRead(port, i);
  }

  /**
   * Writing the upper nibble with v and the lower nibble with w: each nibble
   * read gives its own half back, and the port read gives both halves.
   */
  method NibbleWritesThenReads(init: RegFile, port: u8, v: bv8, w: bv8) returns (upper: bv8, lower: bv8, read: bv8)
    requires port < 4
    ensures upper == v & UPPER_NIBBLE
    ensures lower == w & LOWER_NIBBLE
    ensures read == upper | lower
  {
    var regs := new Registers(init);
    regs.UpperNibbleWrite(port, v);
    regs.LowerNibbleWrite(port, w);
    upper := regs.UpperNibbleRead(port);
    lower := regs.LowerNibbleRead(port);
    read := regs.PortRead(port);
  }

  /**
   * The missing `break`: gpioUpperNibbleWrite for port A rewrites the upper
   * nibble of port D's data register too, and keeps its lower nibble.
   */
  method UpperNibbleWriteOnAReachesD(init: RegFile, v: bv8) returns (d: bv8)
    ensures d & UPPER_NIBBLE == v & UPPER_NIBBLE
    ensures d & LOWER_NIBBLE == init.data.portD & LOWER_NIBBLE
  {
    var regs := new Registers(init);
    regs.UpperNibbleWrite(GPIOA, v);
    d := regs.Regs().data.portD;
  }

  /** Both nibble toggles applied twice each restore every register. */
  method NibbleTogglesTwice(init: RegFile, port: u8) returns (after: RegFile)
    ensures after == init
  {
    var regs := new Registers(init);
    regs.UpperNibbleToggle(port);
    regs.UpperNibbleToggle(port);
    FlipFromTwice(init.data, port, UPPER_NIBBLE);
    regs.LowerNibbleToggle(port);
    regs.LowerNibbleToggle(port);
    FlipFromTwice(init.data, port, LOWER_NIBBLE);
    after := regs.Regs();
  }
}
