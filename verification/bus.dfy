/**
 * The two-wire bus as the driver sees it: a register file keyed by
 * (bus address, register number) and an append-only log of the
 * transactions issued. Every device register holds a plain byte; a register
 * the file has no entry for reads as 0. A burst write stores its bytes in
 * consecutive registers, the register number wrapping modulo 256.
 */
module I2cBus {
  import opened Registers

  /** One register of one device: (7-bit bus address, register number). */
  type Key = (uint8, uint8)

  type RegisterFile = map<Key, byte>

  /** A transaction the driver issues, in the order it issues them. */
  datatype Event =
    | Write(addr: uint8, reg: uint8, value: byte)
    | WriteBlock(addr: uint8, reg: uint8, data: seq<byte>)
    | Read(addr: uint8, reg: uint8)
    | Delay(ms: nat)

  datatype Bus = Bus(regs: RegisterFile, log: seq<Event>)

  /** The byte a read of `reg` at `addr` returns. */
  function Peek(regs: RegisterFile, addr: uint8, reg: uint8): byte
  {
    if (addr, reg) in regs then regs[(addr, reg)] else 0
  }

  /** Every register outside `keys` holds what it held before. */
  ghost predicate UnchangedExcept(before: RegisterFile, after: RegisterFile, keys: set<Key>)
  {
    forall a: uint8, g: uint8 :: (a, g) !in keys ==> Peek(after, a, g) == Peek(before, a, g)
  }

  /** Stores `data` at `reg`, `Next(reg)`, ... of device `addr`. */
  function StoreBlock(regs: RegisterFile, addr: uint8, reg: uint8, data: seq<byte>): RegisterFile
    decreases |data|
  {
    if data == [] then regs
    else StoreBlock(regs[(addr, reg) := data[0]], addr, Next(reg), data[1..])
  }

  /** A block of at most 256 bytes lands at the registers whose distance
      from `reg` (modulo 256) is below its length, byte `i` at distance `i`;
      every other register of every device is untouched. */
  lemma {:induction false} StoreBlockEffect(regs: RegisterFile, addr: uint8, reg: uint8, data: seq<byte>)
    requires |data| <= 256
    ensures forall g: uint8 :: Distance(reg, g) < |data| ==>
              Peek(StoreBlock(regs, addr, reg, data), addr, g) == data[Distance(reg, g)]
    ensures forall a: uint8, g: uint8 :: (a != addr || Distance(reg, g) >= |data|) ==>
              Peek(StoreBlock(regs, addr, reg, data), a, g) == Peek(regs, a, g)
    decreases |data|
  {
    if data != [] {
      StoreBlockEffect(regs[(addr, reg) := data[0]], addr, Next(reg), data[1..]);
      forall g: uint8 | g != reg
        ensures Distance(Next(reg), g) == Distance(reg, g) - 1
      {
      }
    }
  }

  /** The effect of one transaction on the register file. */
  function Apply(regs: RegisterFile, e: Event): RegisterFile
  {
    match e
    case Write(a, r, v) => regs[(a, r) := v]
    case WriteBlock(a, r, data) => StoreBlock(regs, a, r, data)
    case Read(_, _) => regs
    case Delay(_) => regs
  }

  /** The register file obtained by applying `events` in order. */
  function Replay(regs: RegisterFile, events: seq<Event>): RegisterFile
    decreases |events|
  {
    if events == [] then regs else Replay(Apply(regs, events[0]), events[1..])
  }

  /** Replaying a log extended by one event applies that event last. */
  lemma {:induction false} ReplayAppend(regs: RegisterFile, events: seq<Event>, e: Event)
    ensures Replay(regs, events + [e]) == Apply(Replay(regs, events), e)
    decreases |events|
  {
    if events == [] {
      assert [e][1..] == [];
    } else {
      assert (events + [e])[1..] == events[1..] + [e];
      ReplayAppend(Apply(regs, events[0]), events[1..], e);
    }
  }

  /** The bus started from register file `initial` and the register file is
      exactly what replaying the log onto it produces. */
  predicate Consistent(initial: RegisterFile, b: Bus)
  {
    b.regs == Replay(initial, b.log)
  }

  /** From every starting register file that explains `b`, the same one
      explains `r`: the register file stays the replay of the log. */
  ghost predicate KeepsConsistent(b: Bus, r: Bus)
  {
    forall initial :: Consistent(initial, b) ==> Consistent(initial, r)
  }

  /** Issue one transaction: log it and apply it. */
  function Issue(b: Bus, e: Event): (r: Bus)
    ensures r.log == b.log + [e]
    ensures KeepsConsistent(b, r)
  {
    ReplayAppend(b.regs, [], e);
    assert forall initial :: Replay(initial, b.log + [e]) == Apply(Replay(initial, b.log), e) by {
      forall initial ensures Replay(initial, b.log + [e]) == Apply(Replay(initial, b.log), e) {
        ReplayAppend(initial, b.log, e);
      }
    }
    Bus(Apply(b.regs, e), b.log + [e])
  }

  /** A single-register write transaction to device `addr`. */
  function WriteReg(b: Bus, addr: uint8, reg: uint8, value: byte): (r: Bus)
    ensures r.log == b.log + [Write(addr, reg, value)]
    ensures Peek(r.regs, addr, reg) == value
    ensures UnchangedExcept(b.regs, r.regs, {(addr, reg)})
    ensures KeepsConsistent(b, r)
  {
    Issue(b, Write(addr, reg, value))
  }

  /** A register-pointer write followed by a burst of data bytes. */
  function WriteRegs(b: Bus, addr: uint8, reg: uint8, data: seq<byte>): (r: Bus)
    requires |data| <= 256
    ensures r.log == b.log + [WriteBlock(addr, reg, data)]
    ensures forall g: uint8 :: Distance(reg, g) < |data| ==>
              Peek(r.regs, addr, g) == data[Distance(reg, g)]
    ensures forall a: uint8, g: uint8 :: (a != addr || Distance(reg, g) >= |data|) ==>
              Peek(r.regs, a, g) == Peek(b.regs, a, g)
    ensures KeepsConsistent(b, r)
  {
    StoreBlockEffect(b.regs, addr, reg, data);
    Issue(b, WriteBlock(addr, reg, data))
  }

  /** A read of one register of device `addr`: the value and the bus with
      the read logged. Reading changes no register. */
  function ReadReg(b: Bus, addr: uint8, reg: uint8): (r: (byte, Bus))
    ensures r.0 == Peek(b.regs, addr, reg)
    ensures r.1.log == b.log + [Read(addr, reg)]
    ensures r.1.regs == b.regs
    ensures KeepsConsistent(b, r.1)
  {
    (Peek(b.regs, addr, reg), Issue(b, Read(addr, reg)))
  }

  /** A wait of `ms` milliseconds: logged, no register changes. */
  function Wait(b: Bus, ms: nat): (r: Bus)
    ensures r.log == b.log + [Delay(ms)]
    ensures r.regs == b.regs
    ensures KeepsConsistent(b, r)
  {
    Issue(b, Delay(ms))
  }
}
