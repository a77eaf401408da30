/**
 * The PCA9685 driver: one instance's stored addresses and oscillator
 * frequency, together with the bus it talks to. Every public operation is a
 * function from the state before the call to the state after it; the bus
 * log records the transactions in the order the driver issues them.
 * Reads always go to the primary address, writes to the address the
 * operation's address type resolves to.
 */
module Pca9685 {
  import opened Registers
  import opened ByteConversion
  import opened I2cBus
  import opened Addressing
  import opened Prescale

  datatype OutputType = OpenDrain | TotemPole

  datatype Driver = Driver(addrs: Addresses, osc: uint32, bus: Bus)

  /** A value returned by an operation, with the state after it. */
  datatype Returned<T> = Returned(value: T, driver: Driver)

  /** `r` has the same configuration as `d`, and its register file is still
      the replay of its log. */
  ghost predicate SameConfig(d: Driver, r: Driver)
  {
    r.addrs == d.addrs && r.osc == d.osc && KeepsConsistent(d.bus, r.bus)
  }

  /** The value a read of `reg` by `d` returns (reads use the primary address). */
  function Current(d: Driver, reg: uint8): byte
  {
    Peek(d.bus.regs, d.addrs.primary, reg)
  }

  /** The 16-bit value held by the register pair starting at `reg`. */
  function Reg16(regs: RegisterFile, addr: uint8, reg: uint8): uint16
  {
    Join(Peek(regs, addr, reg), Peek(regs, addr, Next(reg)))
  }

  /** readByte: one register read from the primary address. */
  function ReadByte(d: Driver, reg: uint8): (r: Returned<byte>)
    ensures r.value == Current(d, reg)
    ensures r.driver.bus.log == d.bus.log + [Read(d.addrs.primary, reg)]
    ensures r.driver.bus.regs == d.bus.regs
    ensures SameConfig(d, r.driver)
  {
    var (v, b) := ReadReg(d.bus, d.addrs.primary, reg);
    Returned(v, d.(bus := b))
  }

  /** writeByte: one register write to the address `t` resolves to. */
  function WriteByte(d: Driver, t: AddressType, reg: uint8, value: byte): (r: Driver)
    ensures r.bus.log == d.bus.log + [Write(Resolve(d.addrs, t), reg, value)]
    ensures Peek(r.bus.regs, Resolve(d.addrs, t), reg) == value
    ensures UnchangedExcept(d.bus.regs, r.bus.regs, {(Resolve(d.addrs, t), reg)})
    ensures SameConfig(d, r)
  {
    d.(bus := WriteReg(d.bus, Resolve(d.addrs, t), reg, value))
  }

  /** A `delay(ms)` call. */
  function Pause(d: Driver, ms: nat): (r: Driver)
    ensures r.bus.log == d.bus.log + [Delay(ms)]
    ensures r.bus.regs == d.bus.regs
    ensures SameConfig(d, r)
  {
    d.(bus := Wait(d.bus, ms))
  }

  /** restart: MODE1 := RESTART alone, then a 10 ms wait. Every other MODE1
      bit, EXTCLK and SLEEP included, is cleared in the byte written. */
  function Restart(d: Driver, t: AddressType := Normal): (r: Driver)
    ensures var a := Resolve(d.addrs, t);
            var w := Peek(r.bus.regs, a, MODE1);
            && w == 0x80
            && r.bus.log == d.bus.log + [Write(a, MODE1, w), Delay(10)]
            && UnchangedExcept(d.bus.regs, r.bus.regs, {(a, MODE1)})
    ensures SameConfig(d, r)
  {
    Pause(WriteByte(d, t, MODE1, MODE1_RESTART), 10)
  }

  /** sleep: MODE1 read from the primary address, written back to the
      target with SLEEP set and every other bit as read. */
  function Sleep(d: Driver, t: AddressType := Normal): (r: Driver)
    ensures var a := Resolve(d.addrs, t);
            var m := Current(d, MODE1);
            var w := Peek(r.bus.regs, a, MODE1);
            && Has(w, MODE1_SLEEP) && AgreeOutside(w, m, MODE1_SLEEP)
            && r.bus.log == d.bus.log + [Read(d.addrs.primary, MODE1), Write(a, MODE1, w)]
            && UnchangedExcept(d.bus.regs, r.bus.regs, {(a, MODE1)})
    ensures SameConfig(d, r)
  {
    var rd := ReadByte(d, MODE1);
    WriteByte(rd.driver, t, MODE1, rd.value | MODE1_SLEEP)
  }

  /** wakeUp: MODE1 read from the primary address, written back to the
      target with SLEEP cleared and every other bit as read. */
  function WakeUp(d: Driver, t: AddressType := Normal): (r: Driver)
    ensures var a := Resolve(d.addrs, t);
            var m := Current(d, MODE1);
            var w := Peek(r.bus.regs, a, MODE1);
            && Lacks(w, MODE1_SLEEP) && AgreeOutside(w, m, MODE1_SLEEP)
            && r.bus.log == d.bus.log + [Read(d.addrs.primary, MODE1), Write(a, MODE1, w)]
            && UnchangedExcept(d.bus.regs, r.bus.regs, {(a, MODE1)})
    ensures SameConfig(d, r)
  {
    var rd := ReadByte(d, MODE1);
    WriteByte(rd.driver, t, MODE1, rd.value & !MODE1_SLEEP)
  }

  /** setOscillFrequency: the frequency later prescale computations use. */
  function SetOscillFrequency(d: Driver, f: uint32): (r: Driver)
    ensures r.osc == f && r.addrs == d.addrs && r.bus == d.bus
  {
    d.(osc := f)
  }

  /** getOscillFrequency: the frequency whose setting leaves the driver as
      it is. */
  function GetOscillFrequency(d: Driver): (f: uint32)
    ensures SetOscillFrequency(d, f) == d
  {
    d.osc
  }

  /** Setting the oscillator frequency and reading it back gives the value
      set; setting it to the value read changes nothing. */
  lemma OscillatorRoundTrip(d: Driver, f: uint32)
    ensures GetOscillFrequency(SetOscillFrequency(d, f)) == f
    ensures SetOscillFrequency(d, GetOscillFrequency(d)) == d
  {
  }

  /** The transactions of setPWMFrequency after MODE1 is read as `m`:
      sleep with RESTART cleared, the prescale, `m` back, and after the
      stabilisation delay `m` with RESTART and AI set. */
  function PrescaleEvents(a: uint8, m: byte, p: byte): seq<Event>
  {
    [ Write(a, MODE1, (m & !MODE1_RESTART) | MODE1_SLEEP),
      Write(a, PRESCALE, p),
      Write(a, MODE1, m),
      Delay(5),
      Write(a, MODE1, m | MODE1_RESTART | MODE1_AI) ]
  }

  /** The write half of setPWMFrequency: prescale `p` written inside a
      sleep bracket built from the MODE1 value `m` read before. */
  function WritePrescale(d: Driver, t: AddressType, m: byte, p: byte): (r: Driver)
    ensures var a := Resolve(d.addrs, t);
            && r.bus.log == d.bus.log + PrescaleEvents(a, m, p)
            && Peek(r.bus.regs, a, PRESCALE) == p
            && Peek(r.bus.regs, a, MODE1) == m | MODE1_RESTART | MODE1_AI
            && UnchangedExcept(d.bus.regs, r.bus.regs, {(a, MODE1), (a, PRESCALE)})
    ensures SameConfig(d, r)
  {
    var a := Resolve(d.addrs, t);
    var d1 := WriteByte(d, t, MODE1, (m & !MODE1_RESTART) | MODE1_SLEEP);
    var d2 := WriteByte(d1, t, PRESCALE, p);
    var d3 := WriteByte(d2, t, MODE1, m);
    var d4 := Pause(d3, 5);
    var d5 := WriteByte(d4, t, MODE1, m | MODE1_RESTART | MODE1_AI);
    assert Peek(d5.bus.regs, a, PRESCALE) == p by {
      assert Peek(d3.bus.regs, a, PRESCALE) == p;
    }
    assert UnchangedExcept(d.bus.regs, d5.bus.regs, {(a, MODE1), (a, PRESCALE)}) by {
      forall a': uint8, g: uint8 | (a', g) !in {(a, MODE1), (a, PRESCALE)}
        ensures Peek(d5.bus.regs, a', g) == Peek(d.bus.regs, a', g)
      {
        assert Peek(d5.bus.regs, a', g) == Peek(d3.bus.regs, a', g);
        assert Peek(d3.bus.regs, a', g) == Peek(d2.bus.regs, a', g);
        assert Peek(d2.bus.regs, a', g) == Peek(d1.bus.regs, a', g);
      }
    }
    d5
  }

  /** setPWMFrequency: quantises the request into a prescale value, writes
      it inside a sleep bracket and returns the frequency that prescale
      yields, truncated to whole hertz. */
  function SetPWMFrequency(d: Driver, f: nat, t: AddressType := Normal): (r: Returned<nat>)
    requires QuotientDefined(d.osc, f)
    ensures var a := Resolve(d.addrs, t);
            var regs := r.driver.bus.regs;
            var p := Peek(regs, a, PRESCALE) as int;
            && p == PrescaleFor(d.osc, f)
            && r.value == AchievedFrequency(d.osc, p)
            && r.driver.bus.log == d.bus.log + [Read(d.addrs.primary, MODE1)]
                                   + PrescaleEvents(a, Current(d, MODE1), p as byte)
            && Peek(regs, a, MODE1) == Current(d, MODE1) | MODE1_RESTART | MODE1_AI
            && UnchangedExcept(d.bus.regs, regs, {(a, MODE1), (a, PRESCALE)})
    ensures SameConfig(d, r.driver)
  {
    var p := PrescaleFor(d.osc, f);
    ByteRoundTrip(p);
    var rd := ReadByte(d, MODE1);
    var w := WritePrescale(rd.driver, t, rd.value, p as byte);
    Returned(AchievedFrequency(d.osc, p), w)
  }

  /** getPWMFrequency: the frequency the prescale register (read from the
      primary address) yields, truncated to whole hertz. */
  function GetPWMFrequency(d: Driver): (r: Returned<nat>)
    ensures r.value == AchievedFrequency(d.osc, Current(d, PRESCALE) as int)
    ensures r.driver.bus.log == d.bus.log + [Read(d.addrs.primary, PRESCALE)]
    ensures r.driver.bus.regs == d.bus.regs
    ensures SameConfig(d, r.driver)
  {
    var rd := ReadByte(d, PRESCALE);
    Returned(AchievedFrequency(d.osc, rd.value as int), rd.driver)
  }

  /** The four writes of setExtClock after MODE1 is read as `m`: sleep
      with RESTART cleared, the same with EXTCLK added, the prescale, and
      the restart with SLEEP cleared and RESTART and AI set. */
  function ExtClockWrites(a: uint8, m: byte, p: byte): seq<Event>
  {
    var mode := (m & !MODE1_RESTART) | MODE1_SLEEP;
    [ Write(a, MODE1, mode),
      Write(a, MODE1, mode | MODE1_EXTCLK),
      Write(a, PRESCALE, p),
      Write(a, MODE1, ((mode | MODE1_EXTCLK) & !MODE1_SLEEP) | MODE1_RESTART | MODE1_AI) ]
  }

  /** The five transactions of setExtClock: the read of MODE1 from the
      primary address, then the four writes. */
  function ExtClockEvents(primary: uint8, a: uint8, m: byte, p: byte): seq<Event>
  {
    [Read(primary, MODE1)] + ExtClockWrites(a, m, p)
  }

  /** The MODE1 byte `w` setExtClock leaves after reading `m`: running on
      the external clock (EXTCLK set, SLEEP clear), restarted with register
      auto-increment on (RESTART and AI set), every other bit as read. */
  predicate RunningOnExtClock(w: byte, m: byte)
  {
    && Has(w, MODE1_EXTCLK | MODE1_RESTART | MODE1_AI)
    && Lacks(w, MODE1_SLEEP)
    && AgreeOutside(w, m, MODE1_SLEEP | MODE1_RESTART | MODE1_AI | MODE1_EXTCLK)
  }

  /** The last MODE1 byte of `ExtClockWrites` is the running mode. */
  lemma ExtClockFinalMode(m: byte)
    ensures RunningOnExtClock(((((m & !MODE1_RESTART) | MODE1_SLEEP) | MODE1_EXTCLK) & !MODE1_SLEEP)
                              | MODE1_RESTART | MODE1_AI, m)
  {
  }

  /** The write half of setExtClock: the four MODE1/PRESCALE writes that
      follow the read of MODE1 as `m`, with prescale `p`. */
  function WriteExtClock(d: Driver, t: AddressType, m: byte, p: byte): (r: Driver)
    ensures var a := Resolve(d.addrs, t);
            && r.bus.log == d.bus.log + ExtClockWrites(a, m, p)
            && Peek(r.bus.regs, a, PRESCALE) == p
            && RunningOnExtClock(Peek(r.bus.regs, a, MODE1), m)
            && UnchangedExcept(d.bus.regs, r.bus.regs, {(a, MODE1), (a, PRESCALE)})
    ensures SameConfig(d, r)
  {
    var a := Resolve(d.addrs, t);
    var mode := (m & !MODE1_RESTART) | MODE1_SLEEP;
    var d1 := WriteByte(d, t, MODE1, mode);
    var ext := mode | MODE1_EXTCLK;
    var d2 := WriteByte(d1, t, MODE1, ext);
    var d3 := WriteByte(d2, t, PRESCALE, p);
    var d4 := WriteByte(d3, t, MODE1, (ext & !MODE1_SLEEP) | MODE1_RESTART | MODE1_AI);
    ExtClockFinalMode(m);
    assert Peek(d4.bus.regs, a, PRESCALE) == p by {
      assert Peek(d3.bus.regs, a, PRESCALE) == p;
    }
    assert UnchangedExcept(d.bus.regs, d4.bus.regs, {(a, MODE1), (a, PRESCALE)}) by {
      forall a': uint8, g: uint8 | (a', g) !in {(a, MODE1), (a, PRESCALE)}
        ensures Peek(d4.bus.regs, a', g) == Peek(d.bus.regs, a', g)
      {
        assert Peek(d4.bus.regs, a', g) == Peek(d3.bus.regs, a', g);
        assert Peek(d3.bus.regs, a', g) == Peek(d2.bus.regs, a', g);
        assert Peek(d2.bus.regs, a', g) == Peek(d1.bus.regs, a', g);
      }
    }
    d4
  }

  /** setExtClock: switches to an external clock of `input` Hz, which
      becomes the oscillator frequency, and writes the prescale for
      `pwmFrequency` computed from it. The oscillator frequency is driver
      state only, so recording it before the bus writes rather than between
      them changes nothing observable. */
  function SetExtClock(d: Driver, input: uint32, pwmFrequency: nat := 0, t: AddressType := Normal): (r: Driver)
    requires QuotientDefined(input, pwmFrequency)
    ensures var a := Resolve(d.addrs, t);
            var p := Peek(r.bus.regs, a, PRESCALE) as int;
            && r.osc == input
            && p == PrescaleFor(input, pwmFrequency)
            && RunningOnExtClock(Peek(r.bus.regs, a, MODE1), Current(d, MODE1))
            && r.bus.log == d.bus.log + ExtClockEvents(d.addrs.primary, a, Current(d, MODE1), p as byte)
            && UnchangedExcept(d.bus.regs, r.bus.regs, {(a, MODE1), (a, PRESCALE)})
    ensures r.addrs == d.addrs && KeepsConsistent(d.bus, r.bus)
  {
    var rd := ReadByte(d, MODE1);
    var p := PrescaleFor(input, pwmFrequency);
    ByteRoundTrip(p);
    var d1 := SetOscillFrequency(rd.driver, input);
    var r := WriteExtClock(d1, t, rd.value, p as byte);
    r
  }

  /** setOutputType as the source has it: both switch arms compute the new
      MODE2 value and discard it, so MODE2 is written back as read whatever
      the requested output type. */
  function SetOutputTypeAsWritten(d: Driver, outputType: OutputType, t: AddressType := Normal): (r: Driver)
    ensures var a := Resolve(d.addrs, t);
            && Peek(r.bus.regs, a, MODE2) == Current(d, MODE2)
            && r.bus.log == d.bus.log + [Read(d.addrs.primary, MODE2), Write(a, MODE2, Current(d, MODE2))]
            && UnchangedExcept(d.bus.regs, r.bus.regs, {(a, MODE2)})
    ensures SameConfig(d, r)
  {
    var rd := ReadByte(d, MODE2);
    var mode := rd.value;
    WriteByte(rd.driver, t, MODE2, mode)
  }

  /** setOutputType with the computed value applied: MODE2 is written back
      with OUTDRV set for totem pole and cleared for open drain, every other
      bit as read. */
  function SetOutputType(d: Driver, outputType: OutputType, t: AddressType := Normal): (r: Driver)
    ensures var a := Resolve(d.addrs, t);
            var w := Peek(r.bus.regs, a, MODE2);
            && (Has(w, MODE2_OUTDRV) <==> outputType == TotemPole)
            && (Lacks(w, MODE2_OUTDRV) <==> outputType == OpenDrain)
            && AgreeOutside(w, Current(d, MODE2), MODE2_OUTDRV)
            && r.bus.log == d.bus.log + [Read(d.addrs.primary, MODE2), Write(a, MODE2, w)]
            && UnchangedExcept(d.bus.regs, r.bus.regs, {(a, MODE2)})
    ensures SameConfig(d, r)
  {
    var rd := ReadByte(d, MODE2);
    var mode := rd.value;
    var updated := match outputType
      case TotemPole => mode | MODE2_OUTDRV
      case OpenDrain => mode & !MODE2_OUTDRV;
    WriteByte(rd.driver, t, MODE2, updated)
  }

  /** One burst of on/off ticks to the four registers from `base` of device `a`. */
  function WriteTicks(d: Driver, a: uint8, base: uint8, on: uint16, off: uint16): (r: Driver)
    ensures r.bus.log == d.bus.log + [WriteBlock(a, base, TickBytes(on, off))]
    ensures Reg16(r.bus.regs, a, base) == on
    ensures Reg16(r.bus.regs, a, Next(Next(base))) == off
    ensures forall a2: uint8, g: uint8 :: (a2 != a || Distance(base, g) >= 4) ==>
              Peek(r.bus.regs, a2, g) == Peek(d.bus.regs, a2, g)
    ensures SameConfig(d, r)
  {
    TicksDecode(d.bus, a, base, on, off);
    d.(bus := WriteRegs(d.bus, a, base, TickBytes(on, off)))
  }

  /** After the burst, the first register pair reads back `on` and the
      second `off`. */
  lemma TicksDecode(b: Bus, a: uint8, base: uint8, on: uint16, off: uint16)
    ensures var regs := WriteRegs(b, a, base, TickBytes(on, off)).regs;
            Reg16(regs, a, base) == on && Reg16(regs, a, Next(Next(base))) == off
  {
    var bytes := TickBytes(on, off);
    var regs := WriteRegs(b, a, base, bytes).regs;
    var n2 := Next(Next(base));
    NextDistances(base);
    assert Peek(regs, a, base) == bytes[0];
    assert Peek(regs, a, Next(base)) == bytes[1];
    assert Peek(regs, a, n2) == bytes[2];
    assert Peek(regs, a, Next(n2)) == bytes[3];
    Reg16OfBytes(regs, a, base, on);
    Reg16OfBytes(regs, a, n2, off);
  }

  /** A register pair holding the low and high byte of `v` reads back as `v`. */
  lemma Reg16OfBytes(regs: RegisterFile, a: uint8, reg: uint8, v: uint16)
    requires Peek(regs, a, reg) == LowByte(v) && Peek(regs, a, Next(reg)) == HighByte(v)
    ensures Reg16(regs, a, reg) == v
  {
    SplitThenJoin(v);
  }

  /** setPWMOutput: one burst of the start register LED0_ON_L + 4·output
      followed by on low, on high, off low, off high. */
  function SetPWMOutput(d: Driver, output: uint8, on: uint16, off: uint16, t: AddressType := Normal): (r: Driver)
    ensures var a := Resolve(d.addrs, t);
            var base := ChannelBase(output);
            var regs := r.bus.regs;
            && r.bus.log == d.bus.log + [WriteBlock(a, base, TickBytes(on, off))]
            && Reg16(regs, a, base) == on
            && Reg16(regs, a, Next(Next(base))) == off
            && (forall a2: uint8, g: uint8 :: (a2 != a || Distance(base, g) >= 4) ==>
                  Peek(regs, a2, g) == Peek(d.bus.regs, a2, g))
    ensures SameConfig(d, r)
  {
    WriteTicks(d, Resolve(d.addrs, t), ChannelBase(output), on, off)
  }

  /** setAllPWMOutputs: the same four bytes as one burst to the ALL_LED block. */
  function SetAllPWMOutputs(d: Driver, on: uint16, off: uint16, t: AddressType := Normal): (r: Driver)
    ensures var a := Resolve(d.addrs, t);
            var regs := r.bus.regs;
            && r.bus.log == d.bus.log + [WriteBlock(a, ALL_LED_ON_L, TickBytes(on, off))]
            && Reg16(regs, a, ALL_LED_ON_L) == on
            && Reg16(regs, a, ALL_LED_OFF_L) == off
            && (forall a2: uint8, g: uint8 :: (a2 != a || !(ALL_LED_ON_L <= g <= ALL_LED_OFF_H)) ==>
                  Peek(regs, a2, g) == Peek(d.bus.regs, a2, g))
    ensures SameConfig(d, r)
  {
    assert Next(Next(ALL_LED_ON_L)) == ALL_LED_OFF_L;
    assert forall g: uint8 :: Distance(ALL_LED_ON_L, g) < 4 ==> ALL_LED_ON_L <= g <= ALL_LED_OFF_H;
    WriteTicks(d, Resolve(d.addrs, t), ALL_LED_ON_L, on, off)
  }
}
