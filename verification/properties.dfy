/**
 * Properties relating the driver's operations to each other and to the
 * register-level protocol: the frequency round trip, the clamp, the order
 * and bit content of the MODE1 writes, and where channel writes land.
 */
module Pca9685Properties {
  import opened Registers
  import opened I2cBus
  import opened Addressing
  import opened Prescale
  import opened Pca9685

  /** The transactions an operation appended to the log. */
  function NewEvents(d: Driver, r: Driver): seq<Event>
    requires |d.bus.log| <= |r.bus.log|
  {
    r.bus.log[|d.bus.log|..]
  }

  /** Writes in `es` go to `w` and reads to `rd`. */
  predicate Addressed(es: seq<Event>, w: uint8, rd: uint8)
  {
    forall i :: 0 <= i < |es| ==>
      (es[i].Write? ==> es[i].addr == w) &&
      (es[i].WriteBlock? ==> es[i].addr == w) &&
      (es[i].Read? ==> es[i].addr == rd)
  }

  /** getPWMFrequency after setPWMFrequency returns what setPWMFrequency
      returned, provided the writes went to the primary address that reads
      use; when they went to another address the read sees the prescale
      that was there before. */
  lemma FrequencyRoundTrip(d: Driver, f: nat, t: AddressType)
    requires QuotientDefined(d.osc, f)
    ensures var s := SetPWMFrequency(d, f, t);
            Resolve(d.addrs, t) == d.addrs.primary ==> GetPWMFrequency(s.driver).value == s.value
    ensures var s := SetPWMFrequency(d, f, t);
            Resolve(d.addrs, t) != d.addrs.primary ==>
              GetPWMFrequency(s.driver).value == GetPWMFrequency(d).value
  {
    var s := SetPWMFrequency(d, f, t);
    if Resolve(d.addrs, t) != d.addrs.primary {
      assert Current(s.driver, PRESCALE) == Current(d, PRESCALE);
    }
  }

  /** A request above osc div 16384 behaves exactly like that limit, and a
      request of 0 Hz exactly like 1 Hz: same return value, same state. */
  lemma FrequencyClampIdempotent(d: Driver, f: nat, t: AddressType)
    requires d.osc >= MIN_OSC
    ensures f > UpperLimit(d.osc) ==> SetPWMFrequency(d, f, t) == SetPWMFrequency(d, UpperLimit(d.osc), t)
    ensures f < 1 ==> SetPWMFrequency(d, f, t) == SetPWMFrequency(d, 1, t)
  {
    ClampIdempotent(d.osc, f);
  }

  /** The setPWMFrequency protocol over the call's transactions `es`, with
      MODE1 read as `m` from `primary` and writes to `a`: the PRESCALE write
      is preceded by a MODE1 write with SLEEP set and RESTART clear,
      followed by MODE1 as read, and after the delay by MODE1 as read with
      RESTART and AI added; the device ends awake exactly when it was awake
      before the call. */
  ghost predicate FrequencyProtocol(es: seq<Event>, primary: uint8, a: uint8, m: byte)
  {
    && |es| == 6
    && Addressed(es, a, primary)
    && es[0] == Read(primary, MODE1)
    && es[1].Write? && es[1].reg == MODE1
    && Has(es[1].value, MODE1_SLEEP) && Lacks(es[1].value, MODE1_RESTART)
    && AgreeOutside(es[1].value, m, MODE1_SLEEP | MODE1_RESTART)
    && es[2].Write? && es[2].reg == PRESCALE
    && es[3].Write? && es[3].reg == MODE1 && es[3].value == m
    && es[4] == Delay(5)
    && es[5].Write? && es[5].reg == MODE1
    && Has(es[5].value, MODE1_RESTART | MODE1_AI)
    && AgreeOutside(es[5].value, m, MODE1_RESTART | MODE1_AI)
    && (Lacks(es[5].value, MODE1_SLEEP) <==> Lacks(m, MODE1_SLEEP))
  }

  lemma PrescaleEventsFollowProtocol(primary: uint8, a: uint8, m: byte, p: byte)
    ensures FrequencyProtocol([Read(primary, MODE1)] + PrescaleEvents(a, m, p), primary, a, m)
  {
  }

  /** setPWMFrequency follows the sleep-bracket protocol, reading MODE1 from
      the primary address and writing the quantised prescale to the
      resolved address. */
  lemma FrequencySequence(d: Driver, f: nat, t: AddressType)
    requires QuotientDefined(d.osc, f)
    ensures var es := NewEvents(d, SetPWMFrequency(d, f, t).driver);
            && FrequencyProtocol(es, d.addrs.primary, Resolve(d.addrs, t), Current(d, MODE1))
            && es[2].value as int == PrescaleFor(d.osc, f)
  {
    var r := SetPWMFrequency(d, f, t).driver;
    var a := Resolve(d.addrs, t);
    var p := Peek(r.bus.regs, a, PRESCALE);
    assert NewEvents(d, r) == [Read(d.addrs.primary, MODE1)] + PrescaleEvents(a, Current(d, MODE1), p);
    PrescaleEventsFollowProtocol(d.addrs.primary, a, Current(d, MODE1), p);
  }

  /** The setExtClock protocol over the call's transactions `es`, with
      MODE1 read as `m` from `primary` and writes to `a`: sleep with RESTART
      cleared and every other bit as read, then the same byte with EXTCLK
      added, the PRESCALE write while SLEEP is set, and a final write that
      clears SLEEP, sets RESTART, AI and EXTCLK and keeps every other bit as
      read. EXTCLK is set in every MODE1 write after the first, and no MODE1
      write changes the address-response bits ALLCALL, SUB1, SUB2, SUB3. */
  ghost predicate ExtClockProtocol(es: seq<Event>, primary: uint8, a: uint8, m: byte)
  {
    var responseBits := MODE1_ALLCALL | MODE1_SUB1 | MODE1_SUB2 | MODE1_SUB3;
    && |es| == 5
    && Addressed(es, a, primary)
    && es[0] == Read(primary, MODE1)
    && es[1].Write? && es[1].reg == MODE1
    && Has(es[1].value, MODE1_SLEEP) && Lacks(es[1].value, MODE1_RESTART)
    && AgreeOutside(es[1].value, m, MODE1_SLEEP | MODE1_RESTART)
    && es[2].Write? && es[2].reg == MODE1
    && es[2].value == es[1].value | MODE1_EXTCLK
    && Has(es[2].value, MODE1_SLEEP | MODE1_EXTCLK) && Lacks(es[2].value, MODE1_RESTART)
    && es[3].Write? && es[3].reg == PRESCALE
    && es[4].Write? && es[4].reg == MODE1
    && RunningOnExtClock(es[4].value, m)
    && (forall i :: 1 <= i < 5 && es[i].Write? && es[i].reg == MODE1 ==>
          es[i].value & responseBits == m & responseBits)
    && (forall i :: 2 <= i < 5 && es[i].Write? && es[i].reg == MODE1 ==>
          Has(es[i].value, MODE1_EXTCLK))
  }

  lemma ExtClockEventsFollowProtocol(primary: uint8, a: uint8, m: byte, p: byte)
    ensures ExtClockProtocol(ExtClockEvents(primary, a, m, p), primary, a, m)
  {
  }

  /** setExtClock follows the external-clock protocol, makes the input
      frequency the oscillator frequency and writes the prescale quantised
      against it. */
  lemma ExtClockSequence(d: Driver, input: uint32, pwmFrequency: nat, t: AddressType)
    requires QuotientDefined(input, pwmFrequency)
    ensures var r := SetExtClock(d, input, pwmFrequency, t);
            var es := NewEvents(d, r);
            && ExtClockProtocol(es, d.addrs.primary, Resolve(d.addrs, t), Current(d, MODE1))
            && es[3].value as int == PrescaleFor(input, pwmFrequency)
            && r.osc == input
  {
    var r := SetExtClock(d, input, pwmFrequency, t);
    var a := Resolve(d.addrs, t);
    var p := Peek(r.bus.regs, a, PRESCALE);
    assert NewEvents(d, r) == ExtClockEvents(d.addrs.primary, a, Current(d, MODE1), p);
    ExtClockEventsFollowProtocol(d.addrs.primary, a, Current(d, MODE1), p);
  }

  /** The default pwmFrequency of setExtClock, 0, is clamped up to 1 Hz. */
  lemma ExtClockDefaultFrequency(d: Driver, input: uint32)
    requires input >= MIN_OSC
    ensures SetExtClock(d, input) == SetExtClock(d, input, 1, Normal)
  {
    ClampIdempotent(input, 0);
  }

  /** sleep, wakeUp and setPWMFrequency keep the EXTCLK bit of the MODE1
      value read in every MODE1 byte they write; restart writes 0x80 and so
      clears it in the byte sent. Keeping the external clock after a restart
      rests on the device treating EXTCLK as sticky, not on the driver. */
  lemma ExtClockBitAcrossOperations(d: Driver, f: nat, t: AddressType)
    requires Has(Current(d, MODE1), MODE1_EXTCLK)
    ensures Has(Peek(Sleep(d, t).bus.regs, Resolve(d.addrs, t), MODE1), MODE1_EXTCLK)
    ensures Has(Peek(WakeUp(d, t).bus.regs, Resolve(d.addrs, t), MODE1), MODE1_EXTCLK)
    ensures QuotientDefined(d.osc, f) ==>
              forall e :: e in NewEvents(d, SetPWMFrequency(d, f, t).driver) && e.Write? && e.reg == MODE1 ==>
                Has(e.value, MODE1_EXTCLK)
    ensures Lacks(Peek(Restart(d, t).bus.regs, Resolve(d.addrs, t), MODE1), MODE1_EXTCLK)
  {
    if QuotientDefined(d.osc, f) {
      FrequencySequence(d, f, t);
    }
  }

  /** As written, setOutputType sends the same bytes for both output types. */
  lemma OutputTypeIgnored(d: Driver, t: AddressType)
    ensures SetOutputTypeAsWritten(d, TotemPole, t) == SetOutputTypeAsWritten(d, OpenDrain, t)
  {
  }

  /** A device whose MODE2 reads 0x00: asking for totem pole leaves OUTDRV
      clear as written, and sets it once the computed value is applied. */
  lemma OutputTypeCounterexample()
    ensures var d := Driver(DefaultAddresses(), OSC_FREQ, Bus(map[], []));
            && Lacks(Peek(SetOutputTypeAsWritten(d, TotemPole).bus.regs, 0x40, MODE2), MODE2_OUTDRV)
            && Has(Peek(SetOutputType(d, TotemPole).bus.regs, 0x40, MODE2), MODE2_OUTDRV)
  {
  }

  /** Writing one of the sixteen channels leaves MODE1, MODE2, PRESCALE,
      the ALL_LED block and every other channel's registers as they were,
      and does all this with a single write to the resolved address. */
  lemma ChannelWriteIsolated(d: Driver, output: uint8, on: uint16, off: uint16, t: AddressType, other: uint8, reg: uint8)
    requires output < CHANNELS
    ensures var r := SetPWMOutput(d, output, on, off, t);
            var a := Resolve(d.addrs, t);
            && Addressed(NewEvents(d, r), a, d.addrs.primary)
            && (reg in {MODE1, MODE2, PRESCALE, ALL_LED_ON_L, ALL_LED_ON_H, ALL_LED_OFF_L, ALL_LED_OFF_H} ==>
                  Peek(r.bus.regs, a, reg) == Peek(d.bus.regs, a, reg))
            && (other < CHANNELS && other != output && InChannelBlock(other, reg) ==>
                  Peek(r.bus.regs, a, reg) == Peek(d.bus.regs, a, reg))
  {
    var base := ChannelBase(output);
    if Distance(base, reg) < 4 {
      ChannelBlocksDisjoint(output, if other < CHANNELS then other else output, reg);
    }
  }

  /** Every operation with an address-type parameter targets the primary
      address when the argument is left out. */
  lemma DefaultTargetIsNormal(d: Driver, f: nat, input: uint32, pf: nat, output: uint8, on: uint16, off: uint16, o: OutputType)
    ensures Restart(d) == Restart(d, Normal)
    ensures Sleep(d) == Sleep(d, Normal) && WakeUp(d) == WakeUp(d, Normal)
    ensures QuotientDefined(d.osc, f) ==> SetPWMFrequency(d, f) == SetPWMFrequency(d, f, Normal)
    ensures SetExtClock(d, input) == SetExtClock(d, input, 0, Normal)
    ensures QuotientDefined(input, pf) ==> SetExtClock(d, input, pf) == SetExtClock(d, input, pf, Normal)
    ensures SetOutputTypeAsWritten(d, o) == SetOutputTypeAsWritten(d, o, Normal)
    ensures SetOutputType(d, o) == SetOutputType(d, o, Normal)
    ensures SetPWMOutput(d, output, on, off) == SetPWMOutput(d, output, on, off, Normal)
    ensures SetAllPWMOutputs(d, on, off) == SetAllPWMOutputs(d, on, off, Normal)
    ensures Resolve(d.addrs, Normal) == d.addrs.primary
  {
  }
}
