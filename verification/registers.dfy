/** Conversion between 8-bit values held as integers and as bit-vectors. */
module ByteConversion {
  /** An integer in 0..255 survives conversion to a byte and back. */
  lemma ByteRoundTrip(x: int)
    requires 0 <= x < 256
    ensures (x as bv8) as int == x
  {
  }
}

/**
 * Register map and bit layout of the NXP PCA9685 as the driver's header
 * declares them, plus the byte-level encodings the driver uses: MODE1/MODE2
 * bit masks, the per-channel register block, and the split of a 16-bit tick
 * count into the low and high bytes sent on the bus.
 */
module Registers {
  import opened ByteConversion

  /** The contents of an 8-bit register (`uint8_t`), as a bit-vector so
      that the driver's masks apply to it directly. */
  type byte = bv8

  /** An 8-bit register number or 7-bit bus address (`uint8_t`) as an
      integer; arithmetic that can leave the range is reduced modulo 256
      explicitly where the source truncates. */
  type uint8 = x: int | 0 <= x < 256

  /** A 16-bit tick count as passed to the channel setters (`uint16_t`). */
  type uint16 = x: int | 0 <= x < 0x1_0000

  // Register numbers.
  const MODE1: uint8 := 0x00
  const MODE2: uint8 := 0x01
  const SUBADR1: uint8 := 0x02
  const SUBADR2: uint8 := 0x03
  const SUBADR3: uint8 := 0x04
  const ALLCALLADR: uint8 := 0x05
  const LED0_ON_L: uint8 := 0x06
  /** Last register of the sixteen channel blocks (LED15_OFF_H). */
  const LED15_OFF_H: uint8 := 0x45
  const ALL_LED_ON_L: uint8 := 0xFA
  const ALL_LED_ON_H: uint8 := 0xFB
  const ALL_LED_OFF_L: uint8 := 0xFC
  const ALL_LED_OFF_H: uint8 := 0xFD
  const PRESCALE: uint8 := 0xFE
  const TESTMODE: uint8 := 0xFF

  /** Number of PWM channels and registers per channel block. */
  const CHANNELS: nat := 16
  const REGS_PER_CHANNEL: nat := 4

  // MODE1 bits.
  const MODE1_ALLCALL: byte := 1 << 0
  const MODE1_SUB3: byte := 1 << 1
  const MODE1_SUB2: byte := 1 << 2
  const MODE1_SUB1: byte := 1 << 3
  const MODE1_SLEEP: byte := 1 << 4
  const MODE1_AI: byte := 1 << 5
  const MODE1_EXTCLK: byte := 1 << 6
  const MODE1_RESTART: byte := 1 << 7

  // MODE2 bits.
  const MODE2_OUTNE_L: byte := 1 << 0
  const MODE2_OUTNE_H: byte := 1 << 1
  /** Output driver: 1 is totem pole, 0 is open drain. */
  const MODE2_OUTDRV: byte := 1 << 2
  const MODE2_OCH: byte := 1 << 3
  const MODE2_INVRT: byte := 1 << 4

  /** Bit position of MODE2_OUTDRV. */
  const OUTDRV_BIT: nat := 2

  /** The eight MODE1 masks in declaration order, ALLCALL first. */
  const Mode1Masks: seq<byte> :=
    [MODE1_ALLCALL, MODE1_SUB3, MODE1_SUB2, MODE1_SUB1,
     MODE1_SLEEP, MODE1_AI, MODE1_EXTCLK, MODE1_RESTART]

  /** Whether bit `k` of `b` is set. */
  predicate BitSet(b: byte, k: nat)
    requires k < 8
  {
    (b >> k) & 1 == 1
  }

  /** `a` and `b` agree on every bit except possibly bit `k`. */
  predicate SameBitsExcept(a: byte, b: byte, k: nat)
    requires k < 8
  {
    forall j :: 0 <= j < 8 && j != k ==> (BitSet(a, j) <==> BitSet(b, j))
  }

  /** Every bit of `mask` is set in `v`. */
  predicate Has(v: byte, mask: byte)
  {
    v & mask == mask
  }

  /** No bit of `mask` is set in `v`. */
  predicate Lacks(v: byte, mask: byte)
  {
    v & mask == 0
  }

  /** `a` and `b` agree on every bit outside `mask`. */
  predicate AgreeOutside(a: byte, b: byte, mask: byte)
  {
    a & !mask == b & !mask
  }

  /** Each MODE1 mask is exactly the single bit at its own position, so the
      eight masks are pairwise distinct and cover bits 0..7. */
  lemma Mode1MasksAreSingleBits()
    ensures |Mode1Masks| == 8
    ensures forall k, j :: 0 <= k < 8 && 0 <= j < 8 ==>
              (BitSet(Mode1Masks[k], j) <==> j == k)
    ensures forall k, j :: 0 <= k < j < 8 ==> Mode1Masks[k] != Mode1Masks[j]
  {
    forall k, j | 0 <= k < 8 && 0 <= j < 8
      ensures BitSet(Mode1Masks[k], j) <==> j == k
    {
      assert Mode1Masks[k] == (1 as byte) << k;
    }
  }

  /** The MODE1 mask at index `k` is `1 << k`. */
  lemma MaskIsShift(k: nat)
    requires k < 8
    ensures Mode1Masks[k] == (1 as byte) << k
  {
  }

  /** Bit `j` of `m` after setting the single-bit mask of bit `k`. */
  lemma SetBitAt(m: byte, mask: byte, k: nat, j: nat)
    requires k < 8 && j < 8 && mask == (1 as byte) << k
    ensures j == k ==> BitSet(m | mask, j)
    ensures j != k ==> (BitSet(m | mask, j) <==> BitSet(m, j))
  {
  }

  /** Bit `j` of `m` after clearing the single-bit mask of bit `k`. */
  lemma ClearBitAt(m: byte, mask: byte, k: nat, j: nat)
    requires k < 8 && j < 8 && mask == (1 as byte) << k
    ensures j == k ==> !BitSet(m & !mask, j)
    ensures j != k ==> (BitSet(m & !mask, j) <==> BitSet(m, j))
  {
  }

  /** OR-ing in the mask of bit `k` sets that bit and leaves the other seven
      unchanged. */
  lemma SetMaskOnlyTouchesItsBit(m: byte, k: nat)
    requires k < 8
    ensures BitSet(m | Mode1Masks[k], k)
    ensures SameBitsExcept(m | Mode1Masks[k], m, k)
  {
    var mask := Mode1Masks[k];
    MaskIsShift(k);
    SetBitAt(m, mask, k, k);
    forall j | 0 <= j < 8 && j != k
      ensures BitSet(m | mask, j) <==> BitSet(m, j)
    {
      SetBitAt(m, mask, k, j);
    }
  }

  /** AND-ing with the complement of the mask of bit `k` clears that bit and
      leaves the other seven unchanged. */
  lemma ClearMaskOnlyTouchesItsBit(m: byte, k: nat)
    requires k < 8
    ensures !BitSet(m & !Mode1Masks[k], k)
    ensures SameBitsExcept(m & !Mode1Masks[k], m, k)
  {
    MaskIsShift(k);
    ClearShiftOnlyTouchesItsBit(m, Mode1Masks[k], k);
  }

  /** Clearing the single-bit mask of bit `k`, for every bit at once. */
  lemma ClearShiftOnlyTouchesItsBit(m: byte, mask: byte, k: nat)
    requires k < 8 && mask == (1 as byte) << k
    ensures !BitSet(m & !mask, k)
    ensures SameBitsExcept(m & !mask, m, k)
  {
    ClearBitAt(m, mask, k, k);
    forall j | 0 <= j < 8 && j != k
      ensures BitSet(m & !mask, j) <==> BitSet(m, j)
    {
      ClearBitAt(m, mask, k, j);
    }
  }

  /** MODE2_OUTDRV is bit 2 of MODE2 and no other bit. */
  lemma OutdrvIsBitTwo()
    ensures forall j :: 0 <= j < 8 ==> (BitSet(MODE2_OUTDRV, j) <==> j == OUTDRV_BIT)
  {
  }

  /** The register after `reg` in a burst write, wrapping after 0xFF. */
  function Next(reg: uint8): uint8
  {
    (reg + 1) % 256
  }

  /** How many registers past `start` register `reg` lies, modulo 256. */
  function Distance(start: uint8, reg: uint8): uint8
  {
    (reg - start) % 256
  }

  /** The three registers after `start` lie at distances 1, 2 and 3. */
  lemma NextDistances(start: uint8)
    ensures Distance(start, start) == 0
    ensures Distance(start, Next(start)) == 1
    ensures Distance(start, Next(Next(start))) == 2
    ensures Distance(start, Next(Next(Next(start)))) == 3
  {
    if start < 253 {
      assert Next(Next(Next(start))) == start + 3;
    } else if start == 253 {
      assert Next(Next(Next(start))) == 0;
    } else if start == 254 {
      assert Next(Next(Next(start))) == 1;
    } else {
      assert Next(Next(Next(start))) == 2;
    }
  }

  /** First register of channel `output`: LED0_ON_L + 4·output. The driver
      does no range check, and the register number is truncated to 8 bits
      when it is written to the bus. */
  function ChannelBase(output: uint8): (r: uint8)
    ensures output < CHANNELS ==>
              r == LED0_ON_L + REGS_PER_CHANNEL * output && r + 3 <= LED15_OFF_H
  {
    (LED0_ON_L + REGS_PER_CHANNEL * output) % 256
  }

  /** The registers 0..3 past the base of channel `output`. */
  predicate InChannelBlock(output: uint8, reg: uint8)
  {
    Distance(ChannelBase(output), reg) < REGS_PER_CHANNEL
  }

  /** For the sixteen real channels the blocks are pairwise disjoint and
      avoid MODE1/MODE2, the ALL_LED registers and PRESCALE. */
  lemma ChannelBlocksDisjoint(o1: uint8, o2: uint8, reg: uint8)
    requires o1 < CHANNELS && o2 < CHANNELS
    requires InChannelBlock(o1, reg)
    ensures LED0_ON_L <= reg <= LED15_OFF_H
    ensures reg != MODE1 && reg != MODE2 && reg != PRESCALE
    ensures !(ALL_LED_ON_L <= reg <= ALL_LED_OFF_H)
    ensures InChannelBlock(o2, reg) ==> o1 == o2
  {
    var k1 := Distance(ChannelBase(o1), reg);
    assert reg == LED0_ON_L + REGS_PER_CHANNEL * o1 + k1;
    if InChannelBlock(o2, reg) {
      var k2 := Distance(ChannelBase(o2), reg);
      assert reg == LED0_ON_L + REGS_PER_CHANNEL * o2 + k2;
    }
  }

  /** Without a range check, channel 61 starts at the ALL_LED block and
      channel 62 at PRESCALE. */
  lemma OutOfRangeChannelsAlias()
    ensures ChannelBase(61) == ALL_LED_ON_L
    ensures ChannelBase(62) == PRESCALE
  {
  }

  /** `v & 0xFF` of an unsigned 16-bit value: the byte congruent to v
      modulo 256. */
  function LowByte(v: uint16): (b: byte)
    ensures (v - b as int) % 256 == 0
  {
    ByteRoundTrip(v % 256);
    (v % 256) as byte
  }

  /** `(v >> 8) & 0xFF` of an unsigned 16-bit value: the number of whole
      multiples of 256 in v. */
  function HighByte(v: uint16): (b: byte)
    ensures 256 * b as int <= v < 256 * b as int + 256
  {
    ByteRoundTrip(v / 256);
    (v / 256) as byte
  }

  /** The four bytes sent after the start register: on low, on high, off
      low, off high. Read back as little-endian pairs they give on and off. */
  function TickBytes(on: uint16, off: uint16): (bs: seq<byte>)
    ensures |bs| == 4
    ensures Join(bs[0], bs[1]) == on && Join(bs[2], bs[3]) == off
  {
    SplitThenJoin(on);
    SplitThenJoin(off);
    [LowByte(on), HighByte(on), LowByte(off), HighByte(off)]
  }

  /** The 16-bit value a low/high register pair holds. */
  function Join(lo: byte, hi: byte): (v: uint16)
  {
    lo as int + 256 * hi as int
  }

  /** Splitting a tick count into bytes and joining them gives it back. */
  lemma SplitThenJoin(v: uint16)
    ensures Join(LowByte(v), HighByte(v)) == v
  {
    ByteRoundTrip(v % 256);
    ByteRoundTrip(v / 256);
  }

  /** Joining two bytes and splitting the result gives them back, so the
      encoding is a bijection between 16-bit values and byte pairs. */
  lemma JoinThenSplit(lo: byte, hi: byte)
    ensures LowByte(Join(lo, hi)) == lo
    ensures HighByte(Join(lo, hi)) == hi
  {
    var v := Join(lo, hi);
    assert v % 256 == lo as int;
    assert v / 256 == hi as int;
  }
}
