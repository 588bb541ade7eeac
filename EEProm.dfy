/** The bit-banged driver of EEProm.c (the `USE_USCI == 0` build): the
    transport that shifts bytes and addresses over SI and SO, and the command
    framer that brackets opcodes, addresses and data between CS low and CS
    high.  Each method states its whole effect on the port registers, on the
    driver's two globals, and on the wire trace, as one of the trace
    functions below.  The routines other than EEPromInit do not set SCLK
    low before their first pulse, so each trace is stated for either SCLK
    level the caller leaves: when SCLK starts high, the first SCLK_HIGH
    raises no edge and the first clock edge of the trace is missing
    (`FromSclk`). */
module EEProm {
  import opened Bits
  import opened Pins

  /** Instruction bytes of the 25LC320A. */
  const READ: bv8 := 0x03
  const WRITE: bv8 := 0x02
  const WREN: bv8 := 0x06

  /** The sixteen bits WriteEEProm_16Bit puts on SI for `w`: at pulse `k`,
      bit 7 of `w` after `k` one-place shifts.  `AddressBitsLowByte` says
      what they are. */
  function AddressBits(w: bv16): (bits: seq<bool>)
    ensures |bits| == 16
  {
    SentBits16(w, 16)
  }

  /** Bit 7 of the shifted 16-bit value sees the low byte, MSB first, and
      then eight zero bits: the high byte of the address is never sent. */
  lemma AddressBitsLowByte(w: bv16)
    ensures AddressBits(w) == ByteBits(Lo(w)) + Repeat(false, 8)
  {
    forall k | 0 <= k < 16
      ensures AddressBits(w)[k] == (ByteBits(Lo(w)) + Repeat(false, 8))[k]
    {
      SentBits16At(w, 16, k);
      TopBitAfterShift16(w, k);
      if k < 8 {
        ByteBitsAt(Lo(w), k);
      } else {
        RepeatAt(false, 8, k - 8);
      }
    }
  }

  /** The address shift always ends with SI low. */
  lemma AddressBitsEndLow(w: bv16)
    ensures !AddressBits(w)[15]
  {
    SentBits16At(w, 16, 15);
    TopBitAfterShift16(w, 15);
  }

  /** Pulse `k` of a byte shift carries bit `7 - k` of the byte: MSB first. */
  lemma BytePulse(cs: bool, data: bv8, k: nat)
    requires k < 8
    ensures Clocks(cs, ByteBits(data))[k] == Clock(cs, Bit(data, 7 - k))
  {
    ClocksAt(cs, ByteBits(data), k);
    ByteBitsAt(data, k);
  }

  /** Pulse `k` of the address shift carries bit 7 of `w << k`: bit `7 - k`
      of the low byte for the first eight pulses, then zero. */
  lemma AddressPulse(cs: bool, w: bv16, k: nat)
    requires k < 16
    ensures Clocks(cs, AddressBits(w))[k] == Clock(cs, Shl16(w, k) & 0x80 == 0x80)
    ensures Clocks(cs, AddressBits(w))[k] == Clock(cs, k < 8 && Bit(Lo(w), 7 - k))
  {
    ClocksAt(cs, AddressBits(w), k);
    SentBits16At(w, 16, k);
    TopBitAfterShift16(w, k);
  }

  /** Bit `7 - k` of a received byte is the SO level at the `k`-th read:
      the first level read is the MSB. */
  lemma ReceivedBit(input: nat -> bv8, from: nat, k: nat)
    requires k < 8
    ensures Bit(Received(input, from, 8), 7 - k) == IsHigh(input(from + k), EEPROM_SO)
  {
    BitsToByteBit(SoLevels(input, from, 8), 7 - k);
    SoLevelsAt(input, from, 8, k);
  }

  /** The sixteen bits a 16-bit shifter testing bit 15 (`& 0x8000`) would
      put on SI: what the address shift evidently intends. */
  function IntendedAddressBits(w: bv16): (bits: seq<bool>)
    ensures |bits| == 16
  {
    TopBits16(w, 16)
  }

  /** The levels such a shifter puts on SI in its first `n` pulses. */
  function TopBits16(w: bv16, n: nat): (bits: seq<bool>)
    ensures |bits| == n
  {
    if n == 0 then [] else TopBits16(w, n - 1) + [Shl16(w, n - 1) & 0x8000 == 0x8000]
  }

  lemma {:induction false} TopBits16At(w: bv16, n: nat, k: nat)
    requires k < n
    ensures TopBits16(w, n)[k] == (Shl16(w, k) & 0x8000 == 0x8000)
  {
    if k < n - 1 {
      TopBits16At(w, n - 1, k);
    }
  }

  /** Pulse `k` of the intended shifter carries bit `15 - k` of the address. */
  lemma IntendedAddressBitAt(w: bv16, k: nat)
    requires k < 16
    ensures IntendedAddressBits(w)[k] == Bit16(w, 15 - k)
  {
    TopBits16At(w, 16, k);
    assert (Shl16(w, k) & 0x8000 == 0x8000) == Bit16(Shl16(w, k), 15);
    Shl16Bit(w, k, 15);
  }

  /** Testing bit 15 sends the address big-endian: the high byte, MSB
      first, then the low byte. */
  lemma IntendedAddressBitsAreBigEndian(w: bv16)
    ensures IntendedAddressBits(w) == ByteBits(Hi(w)) + ByteBits(Lo(w))
  {
    var bits := IntendedAddressBits(w);
    forall k | 0 <= k < 8
      ensures bits[k] == ByteBits(Hi(w))[k]
    {
      HighPulse(w, k);
    }
    forall k | 0 <= k < 8
      ensures bits[8 + k] == ByteBits(Lo(w))[k]
    {
      LowPulse(w, k);
    }
    assert bits[..8] == ByteBits(Hi(w));
    assert bits[8..] == ByteBits(Lo(w));
    assert bits == bits[..8] + bits[8..];
  }

  lemma HighPulse(w: bv16, k: nat)
    requires k < 8
    ensures IntendedAddressBits(w)[k] == ByteBits(Hi(w))[k]
  {
    IntendedAddressBitAt(w, k);
    Bit16OfBytes(w, 15 - k);
    ByteBitsAt(Hi(w), k);
  }

  lemma LowPulse(w: bv16, k: nat)
    requires k < 8
    ensures IntendedAddressBits(w)[8 + k] == ByteBits(Lo(w))[k]
  {
    IntendedAddressBitAt(w, 8 + k);
    Bit16OfBytes(w, 7 - k);
    ByteBitsAt(Lo(w), k);
  }

  /** Two addresses that differ only above bit 7 put the same sixteen bits on the wire. */
  lemma AddressesAlias()
    ensures AddressBits(0x0000) == AddressBits(0x0100)
  {
    AddressBitsLowByte(0x0000);
    AddressBitsLowByte(0x0100);
    assert Lo(0x0100) == Lo(0x0000);
  }

  /** One chip-select bracket: CS low, one clock edge per bit of `bits`, CS high. */
  function Bracket(bits: seq<bool>): seq<BusEvent>
  {
    [Cs(false)] + Clocks(false, bits) + [Cs(true)]
  }

  /** `n` iterations of the post-write busy-wait. */
  function Ticks(n: nat): (t: seq<BusEvent>)
    ensures |t| == n
  {
    seq(n, _ => DelayTick)
  }

  lemma TicksSnoc(n: nat)
    ensures Ticks(n + 1) == Ticks(n) + [DelayTick]
  {
  }

  /** The SI levels at the rising edges inside the bracket of EEProm_Read:
      the READ opcode, the address shift, and the eight receive pulses,
      during which SI stays low because the address shift always ends on a
      zero bit. */
  function ReadFrame(address: bv16): (bits: seq<bool>)
    ensures |bits| == 32
  {
    ByteBits(READ) + AddressBits(address) + Repeat(false, 8)
  }

  /** What SI carries inside the second bracket of EEProm_Write. */
  function WriteFrame(address: bv16, data: bv8): (bits: seq<bool>)
    ensures |bits| == 32
  {
    ByteBits(WRITE) + AddressBits(address) + ByteBits(data)
  }

  /** The wire trace of EEProm_Read: CS low, the READ opcode and the
      address shift, eight receive iterations, CS high. */
  function ReadTrace(address: bv16): seq<BusEvent>
  {
    [Cs(false)] + Clocks(false, ByteBits(READ)) + Clocks(false, AddressBits(address)) + Pulses(false, false, 8) + [Cs(true)]
  }

  /** The wire trace of EEProm_Write: a bracket holding only WREN, a bracket
      holding WRITE, the address shift and the data, then the busy-wait. */
  function WriteTrace(address: bv16, data: bv8): seq<BusEvent>
  {
    Bracket(ByteBits(WREN)) + Bracket(WriteFrame(address, data)) + Ticks(WRITE_DELAY)
  }

  /** The wire trace of EEPromInit: CS driven high, then a bracket holding only WREN. */
  function InitTrace(): seq<BusEvent>
  {
    [Cs(true)] + Bracket(ByteBits(WREN))
  }

  /** The wire trace of one EEProm_Write per address of `addresses`, in order. */
  function WritesTrace(addresses: seq<bv16>, data: bv8): seq<BusEvent>
    decreases |addresses|
  {
    if addresses == [] then []
    else WritesTrace(addresses[..|addresses| - 1], data) + WriteTrace(addresses[|addresses| - 1], data)
  }

  /** The addresses EEPromClear writes, in order: `0 <= index < EEPROM_MAX_ADDR`. */
  function ClearAddresses(): (addresses: seq<bv16>)
    ensures |addresses| == EEPROM_MAX_ADDR
  {
    seq(EEPROM_MAX_ADDR, k requires 0 <= k < EEPROM_MAX_ADDR => k as bv16)
  }

  /** EEPromClear never writes the top address: 4095 iterations, none of them on 4095. */
  lemma ClearSkipsTopAddress()
    ensures |ClearAddresses()| == EEPROM_MAX_ADDR
    ensures forall k :: 0 <= k < |ClearAddresses()| ==> ClearAddresses()[k] != EEPROM_MAX_ADDR as bv16
  {
    assert EEPROM_MAX_ADDR as bv16 == 4095;
    forall k | 0 <= k < |ClearAddresses()|
      ensures ClearAddresses()[k] != 4095
    {
      BelowTop(k);
    }
  }

  lemma BelowTop(k: nat)
    requires k < 4095
    ensures k as bv16 != 4095
  {
  }

  /** The addresses a clear of the whole array evidently intends: every
      address from 0 to EEPROM_MAX_ADDR, in order. */
  function IntendedClearAddresses(): (addresses: seq<bv16>)
    ensures |addresses| == EEPROM_MAX_ADDR + 1
  {
    seq(EEPROM_MAX_ADDR + 1, k requires 0 <= k <= EEPROM_MAX_ADDR => k as bv16)
  }

  /** The intended clear visits every address of the 4096-byte array at the
      position of its own number, and as written it stops one address short. */
  lemma IntendedClearCoversAll(a: bv16)
    requires a as int <= EEPROM_MAX_ADDR
    ensures IntendedClearAddresses()[a as int] == a
    ensures a as int < EEPROM_MAX_ADDR ==> ClearAddresses()[a as int] == a
    ensures ClearAddresses() == IntendedClearAddresses()[..EEPROM_MAX_ADDR]
  {
  }

  /** The SO levels that `n` reads of P2IN see, starting at read number `from`. */
  function SoLevels(input: nat -> bv8, from: nat, n: nat): (levels: seq<bool>)
    ensures |levels| == n
  {
    if n == 0 then [] else SoLevels(input, from, n - 1) + [IsHigh(input(from + n - 1), EEPROM_SO)]
  }

  lemma {:induction false} SoLevelsAt(input: nat -> bv8, from: nat, n: nat, k: nat)
    requires k < n
    ensures SoLevels(input, from, n)[k] == IsHigh(input(from + k), EEPROM_SO)
  {
    if k < n - 1 {
      SoLevelsAt(input, from, n - 1, k);
    }
  }

  /** What the receive loop shows on the wire in `n` iterations: each one a
      rising clock edge with CS at `cs` and SI held at `si`, then a read of
      P2IN while SCLK is high. */
  function Pulses(cs: bool, si: bool, n: nat): (t: seq<BusEvent>)
    ensures |t| == 2 * n
  {
    if n == 0 then [] else Pulses(cs, si, n - 1) + [Clock(cs, si), SoRead(true)]
  }

  /** Every read of P2IN follows a rising edge and happens with SCLK high. */
  lemma {:induction false} PulsesAt(cs: bool, si: bool, n: nat, k: nat)
    requires k < n
    ensures Pulses(cs, si, n)[2 * k] == Clock(cs, si)
    ensures Pulses(cs, si, n)[2 * k + 1] == SoRead(true)
  {
    if k < n - 1 {
      PulsesAt(cs, si, n - 1, k);
    }
  }

  /** One more iteration of the receive loop: its edge is missing only when
      it is the first and SCLK started high. */
  lemma PulseSnoc(t0: seq<BusEvent>, high: bool, cs: bool, si: bool, k: nat)
    ensures t0 + FromSclk(high, Pulses(cs, si, k)) + FromSclk(high && k == 0, [Clock(cs, si)]) + [SoRead(true)]
            == t0 + FromSclk(high, Pulses(cs, si, k + 1))
  {
    var step := [Clock(cs, si), SoRead(true)];
    if k == 0 {
      assert Pulses(cs, si, 1) == step;
      assert FromSclk(high, step) == FromSclk(high, [Clock(cs, si)]) + [SoRead(true)];
    } else {
      PulsesAt(cs, si, k, 0);
      FromSclkAppend(high, Pulses(cs, si, k), step, 0);
    }
  }

  /** One more bit of a shifter: its edge is missing only when it is the
      first and SCLK started high. */
  lemma EdgeSnoc(t0: seq<BusEvent>, high: bool, cs: bool, bits: seq<bool>, b: bool)
    ensures t0 + FromSclk(high, Clocks(cs, bits)) + FromSclk(high && bits == [], [Clock(cs, b)])
            == t0 + FromSclk(high, Clocks(cs, bits + [b]))
  {
    ClocksLast(cs, bits, b);
    if bits == [] {
      assert bits + [b] == [b];
    } else {
      ClocksAt(cs, bits, 0);
      FromSclkAppend(high, Clocks(cs, bits), [Clock(cs, b)], 0);
    }
  }

  /** P2OUT with CS high, SCLK low and SI low, every other bit as in `reg`. */
  function Idle(reg: bv8): bv8
  {
    SetMask(ClearMask(ClearMask(reg, EEPROM_SI), EEPROM_SCLK), EEPROM_CS)
  }

  /** A bracket whose bits the driver sends in three shifts, one after the
      other; only the first can start with SCLK high. */
  lemma BracketParts(t: seq<BusEvent>, high: bool, a: seq<bool>, b: seq<bool>, c: seq<bool>)
    requires a != []
    ensures t + [Cs(false)] + FromSclk(high, Clocks(false, a)) + Clocks(false, b) + Clocks(false, c) + [Cs(true)]
            == t + FromSclk(high, Bracket(a + b + c))
  {
    ClocksAppend(false, a, b);
    ClocksAppend(false, a + b, c);
    assert Bracket(a + b + c) == [Cs(false)] + Clocks(false, a) + Clocks(false, b) + Clocks(false, c) + [Cs(true)];
    ClocksAt(false, a, 0);
    OpenFrame(t, high, Cs(false), Clocks(false, a), Clocks(false, b), Clocks(false, c), Cs(true));
  }

  /** P2OUT after one bit step of a shifter that sent `si`, starting from `reg`. */
  function BitSent(reg: bv8, si: bool): bv8
  {
    ClearMask(Drive(reg, EEPROM_SI, si), EEPROM_SCLK)
  }

  /** P2OUT at the end of a command whose last bit sent was `si`: CS high,
      SCLK low, SI at `si`, every other line as in `reg`. */
  function AfterFrame(reg: bv8, si: bool): bv8
  {
    SetMask(BitSent(reg, si), EEPROM_CS)
  }

  /** SI_HIGH or SI_LOW, SCLK_HIGH, SCLK_LOW: SCLK ends low, SI holds the bit
      sent, and no other line of the port changes. */
  lemma BitSentIsPulse(reg: bv8, si: bool)
    ensures ClearMask(SetMask(Drive(reg, EEPROM_SI, si), EEPROM_SCLK), EEPROM_SCLK) == BitSent(reg, si)
    ensures IsHigh(BitSent(reg, si), EEPROM_SCLK) == false && IsHigh(BitSent(reg, si), EEPROM_SI) == si
    ensures IsHigh(BitSent(reg, si), EEPROM_CS) == IsHigh(reg, EEPROM_CS)
    ensures BitSent(reg, si) & !(EEPROM_SI | EEPROM_SCLK) == reg & !(EEPROM_SI | EEPROM_SCLK)
  {
  }

  /** Only the last bit step shows in P2OUT. */
  lemma BitSentTwice(reg: bv8, a: bool, b: bool)
    ensures BitSent(BitSent(reg, a), b) == BitSent(reg, b)
  {
  }

  /** A bit step taken from the register as the previous bit step (or the
      caller) left it: the CS level is the caller's, and P2OUT afterwards
      depends only on the bit just sent. */
  lemma RegStep(out0: bv8, first: bool, last: bool, reg: bv8, si: bool)
    requires reg == if first then out0 else BitSent(out0, last)
    ensures IsHigh(reg, EEPROM_CS) == IsHigh(out0, EEPROM_CS)
    ensures IsHigh(Drive(reg, EEPROM_SI, si), EEPROM_SCLK) == (first && IsHigh(out0, EEPROM_SCLK))
    ensures BitSent(reg, si) == BitSent(out0, si)
  {
  }

  /** One pulse of the 8-bit shifter: the shifted copy and the bits sent so far advance together. */
  lemma Step8(data: bv8, i: nat, d: bv8)
    requires d == Shl(data, i)
    ensures Shift8(d) == Shl(data, i + 1)
    ensures SentBits(data, i + 1) == SentBits(data, i) + [d & 0x80 == 0x80]
  {
  }

  /** One pulse of the 8-bit shifter as its loop logs it: the shifted copy
      advances and the pulse's edge extends the trace of the bits sent so far. */
  lemma Pulse8(data: bv8, k: nat, d: bv8, t0: seq<BusEvent>, high: bool, cs: bool, t: seq<BusEvent>)
    requires d == Shl(data, k)
    requires t == t0 + FromSclk(high, Clocks(cs, SentBits(data, k))) + FromSclk(k == 0 && high, [Clock(cs, d & 0x80 == 0x80)])
    ensures Shift8(d) == Shl(data, k + 1)
    ensures t == t0 + FromSclk(high, Clocks(cs, SentBits(data, k + 1)))
    ensures SentBits(data, k + 1)[k] == (d & 0x80 == 0x80)
  {
    Step8(data, k, d);
    EdgeSnoc(t0, high, cs, SentBits(data, k), d & 0x80 == 0x80);
    assert (high && SentBits(data, k) == []) == (k == 0 && high);
  }

  /** The same for the 16-bit shifter. */
  lemma Pulse16(data: bv16, k: nat, d: bv16, t0: seq<BusEvent>, high: bool, cs: bool, t: seq<BusEvent>)
    requires d == Shl16(data, k)
    requires t == t0 + FromSclk(high, Clocks(cs, SentBits16(data, k))) + FromSclk(k == 0 && high, [Clock(cs, d & 0x80 == 0x80)])
    ensures Shift16(d) == Shl16(data, k + 1)
    ensures t == t0 + FromSclk(high, Clocks(cs, SentBits16(data, k + 1)))
    ensures SentBits16(data, k + 1)[k] == (d & 0x80 == 0x80)
  {
    Step16(data, k, d);
    EdgeSnoc(t0, high, cs, SentBits16(data, k), d & 0x80 == 0x80);
    assert (high && SentBits16(data, k) == []) == (k == 0 && high);
  }

  /** The same for the 16-bit shifter. */
  lemma Step16(data: bv16, i: nat, d: bv16)
    requires d == Shl16(data, i)
    ensures Shift16(d) == Shl16(data, i + 1)
    ensures SentBits16(data, i + 1) == SentBits16(data, i) + [d & 0x80 == 0x80]
  {
  }

  /** One read pulse (SCLK_HIGH, SCLK_LOW) from the register as the previous
      pulse or the caller left it. */
  lemma ReadStep(out0: bv8, first: bool, reg: bv8)
    requires reg == if first then out0 else ClearMask(out0, EEPROM_SCLK)
    ensures IsHigh(reg, EEPROM_CS) == IsHigh(out0, EEPROM_CS)
    ensures IsHigh(reg, EEPROM_SI) == IsHigh(out0, EEPROM_SI)
    ensures IsHigh(reg, EEPROM_SCLK) == (first && IsHigh(out0, EEPROM_SCLK))
    ensures IsHigh(SetMask(reg, EEPROM_SCLK), EEPROM_SCLK)
    ensures ClearMask(SetMask(reg, EEPROM_SCLK), EEPROM_SCLK) == ClearMask(out0, EEPROM_SCLK)
  {
  }

  /** The events of one read pulse taken from the register as the previous
      pulse or the caller left it: a rising edge unless SCLK was already
      high, then a read of P2IN with SCLK high. */
  lemma PulseTrace(t0: seq<BusEvent>, out0: bv8, k: nat, reg: bv8)
    requires reg == if k == 0 then out0 else ClearMask(out0, EEPROM_SCLK)
    ensures t0 + FromSclk(IsHigh(out0, EEPROM_SCLK), Pulses(IsHigh(out0, EEPROM_CS), IsHigh(out0, EEPROM_SI), k))
              + (if IsHigh(reg, EEPROM_SCLK) then [] else [Clock(IsHigh(reg, EEPROM_CS), IsHigh(reg, EEPROM_SI))])
              + [SoRead(IsHigh(SetMask(reg, EEPROM_SCLK), EEPROM_SCLK))]
            == t0 + FromSclk(IsHigh(out0, EEPROM_SCLK), Pulses(IsHigh(out0, EEPROM_CS), IsHigh(out0, EEPROM_SI), k + 1))
  {
    var cs, si := IsHigh(out0, EEPROM_CS), IsHigh(out0, EEPROM_SI);
    ReadStep(out0, k == 0, reg);
    PulseSnoc(t0, IsHigh(out0, EEPROM_SCLK), cs, si, k);
    FromSclkEdge(k == 0 && IsHigh(out0, EEPROM_SCLK), Clock(cs, si));
  }

  /** The byte the receive loop has built after `n` reads of P2IN starting at read number `from`. */
  function Received(input: nat -> bv8, from: nat, n: nat): bv8
  {
    BitsToByte(SoLevels(input, from, n))
  }

  /** Receiving one more SO level is one more shift-in step. */
  lemma ReadBitStep(input: nat -> bv8, from: nat, n: nat, x: bv8)
    requires x == Received(input, from, n)
    ensures ShiftIn(x, IsHigh(input(from + n), EEPROM_SO)) == Received(input, from, n + 1)
    ensures (if input(from + n) & EEPROM_SO == EEPROM_SO then Shift8(x) | 0x01 else Shift8(x)) == Received(input, from, n + 1)
  {
    BitsToByteSnoc(SoLevels(input, from, n), IsHigh(input(from + n), EEPROM_SO));
  }

  /** The register steps of EEProm_Read: CS low, two shifts, a read, CS high. */
  lemma ReadRegs(out0: bv8, b: bool, a: bool)
    requires !a
    ensures !IsHigh(ClearMask(out0, EEPROM_CS), EEPROM_CS)
    ensures IsHigh(ClearMask(out0, EEPROM_CS), EEPROM_SCLK) == IsHigh(out0, EEPROM_SCLK)
    ensures !IsHigh(BitSent(ClearMask(out0, EEPROM_CS), b), EEPROM_CS)
    ensures !IsHigh(BitSent(BitSent(ClearMask(out0, EEPROM_CS), b), a), EEPROM_CS)
    ensures !IsHigh(BitSent(BitSent(ClearMask(out0, EEPROM_CS), b), a), EEPROM_SI)
    ensures SetMask(ClearMask(BitSent(BitSent(ClearMask(out0, EEPROM_CS), b), a), EEPROM_SCLK), EEPROM_CS) == Idle(out0)
  {
  }

  /** The register steps of a bracket holding one shift: CS low, the shift, CS high. */
  lemma EnableRegs(out0: bv8, b: bool)
    ensures !IsHigh(ClearMask(out0, EEPROM_CS), EEPROM_CS)
    ensures IsHigh(ClearMask(out0, EEPROM_CS), EEPROM_SCLK) == IsHigh(out0, EEPROM_SCLK)
    ensures SetMask(BitSent(ClearMask(out0, EEPROM_CS), b), EEPROM_CS) == AfterFrame(out0, b)
  {
  }

  /** The events of the WRITE bracket as its three shifts log them: only
      the opcode shift can start with SCLK high. */
  lemma WriteFrameTrace(t0: seq<BusEvent>, out0: bv8, r0: bv8, r1: bv8, r2: bv8, address: bv16, data: bv8, t: seq<BusEvent>)
    requires r0 == ClearMask(out0, EEPROM_CS)
    requires r1 == BitSent(r0, ByteBits(WRITE)[7]) && r2 == BitSent(r1, AddressBits(address)[15])
    requires
      t == t0 + [Cs(false)]
           + FromSclk(IsHigh(r0, EEPROM_SCLK), Clocks(IsHigh(r0, EEPROM_CS), ByteBits(WRITE)))
           + FromSclk(IsHigh(r1, EEPROM_SCLK), Clocks(IsHigh(r1, EEPROM_CS), AddressBits(address)))
           + FromSclk(IsHigh(r2, EEPROM_SCLK), Clocks(IsHigh(r2, EEPROM_CS), ByteBits(data)))
           + [Cs(true)]
    ensures t == t0 + FromSclk(IsHigh(out0, EEPROM_SCLK), Bracket(WriteFrame(address, data)))
  {
    FrameRegs(out0, ByteBits(WRITE)[7], AddressBits(address)[15], ByteBits(data)[7]);
    SclkEndsLow(r0, ByteBits(WRITE)[7]);
    SclkEndsLow(r1, AddressBits(address)[15]);
    BracketParts(t0, IsHigh(out0, EEPROM_SCLK), ByteBits(WRITE), AddressBits(address), ByteBits(data));
  }

  /** The events of the READ bracket as its three steps log them: only the
      opcode shift can start with SCLK high. */
  lemma ReadFrameTrace(t0: seq<BusEvent>, out0: bv8, r0: bv8, r1: bv8, r2: bv8, address: bv16, t: seq<BusEvent>)
    requires r0 == ClearMask(out0, EEPROM_CS)
    requires r1 == BitSent(r0, ByteBits(READ)[7]) && r2 == BitSent(r1, AddressBits(address)[15])
    requires
      t == t0 + [Cs(false)]
           + FromSclk(IsHigh(r0, EEPROM_SCLK), Clocks(IsHigh(r0, EEPROM_CS), ByteBits(READ)))
           + FromSclk(IsHigh(r1, EEPROM_SCLK), Clocks(IsHigh(r1, EEPROM_CS), AddressBits(address)))
           + FromSclk(IsHigh(r2, EEPROM_SCLK), Pulses(IsHigh(r2, EEPROM_CS), IsHigh(r2, EEPROM_SI), 8))
           + [Cs(true)]
    ensures t == t0 + FromSclk(IsHigh(out0, EEPROM_SCLK), ReadTrace(address))
  {
    AddressBitsEndLow(address);
    ReadRegs(out0, ByteBits(READ)[7], AddressBits(address)[15]);
    SclkEndsLow(r0, ByteBits(READ)[7]);
    SclkEndsLow(BitSent(r0, ByteBits(READ)[7]), AddressBits(address)[15]);
    ReadTraceParts(t0, IsHigh(out0, EEPROM_SCLK), address);
  }

  /** Where P2OUT stands once the WRITE bracket's last shift is done and CS rises. */
  lemma WriteFrameEnd(out0: bv8, r0: bv8, r1: bv8, r2: bv8, r3: bv8, address: bv16, data: bv8)
    requires r0 == ClearMask(out0, EEPROM_CS)
    requires r1 == BitSent(r0, ByteBits(WRITE)[7]) && r2 == BitSent(r1, AddressBits(address)[15])
    requires r3 == BitSent(r2, ByteBits(data)[7])
    ensures SetMask(r3, EEPROM_CS) == AfterFrame(out0, ByteBits(data)[7])
  {
    FrameRegs(out0, ByteBits(WRITE)[7], AddressBits(address)[15], ByteBits(data)[7]);
  }

  /** Where P2OUT stands once the READ bracket's receive loop is done and CS rises. */
  lemma ReadFrameEnd(out0: bv8, r0: bv8, r1: bv8, r2: bv8, r3: bv8, address: bv16)
    requires r0 == ClearMask(out0, EEPROM_CS)
    requires r1 == BitSent(r0, ByteBits(READ)[7]) && r2 == BitSent(r1, AddressBits(address)[15])
    requires r3 == ClearMask(r2, EEPROM_SCLK)
    ensures SetMask(r3, EEPROM_CS) == Idle(out0)
  {
    AddressBitsEndLow(address);
    ReadRegs(out0, ByteBits(READ)[7], AddressBits(address)[15]);
  }

  /** The register steps of a bracket holding three shifts. */
  lemma FrameRegs(out0: bv8, b1: bool, b2: bool, b3: bool)
    ensures !IsHigh(ClearMask(out0, EEPROM_CS), EEPROM_CS)
    ensures IsHigh(ClearMask(out0, EEPROM_CS), EEPROM_SCLK) == IsHigh(out0, EEPROM_SCLK)
    ensures !IsHigh(BitSent(ClearMask(out0, EEPROM_CS), b1), EEPROM_CS)
    ensures !IsHigh(BitSent(BitSent(ClearMask(out0, EEPROM_CS), b1), b2), EEPROM_CS)
    ensures SetMask(BitSent(BitSent(BitSent(ClearMask(out0, EEPROM_CS), b1), b2), b3), EEPROM_CS)
            == AfterFrame(out0, b3)
  {
    BitSentTwice(ClearMask(out0, EEPROM_CS), b1, b2);
    BitSentTwice(ClearMask(out0, EEPROM_CS), b2, b3);
  }

  /** A frame sent from the idle state ends as if it had been sent from any earlier state. */
  lemma IdleThenFrame(reg: bv8, b: bool)
    ensures AfterFrame(Idle(reg), b) == AfterFrame(reg, b)
  {
  }

  /** A bracket holding one shift. */
  lemma BracketOne(t: seq<BusEvent>, high: bool, a: seq<bool>)
    requires a != []
    ensures t + [Cs(false)] + FromSclk(high, Clocks(false, a)) + [Cs(true)] == t + FromSclk(high, Bracket(a))
  {
    assert Bracket(a) == [Cs(false)] + (Clocks(false, a) + [Cs(true)]);
    FromSclkSkip(high, Cs(false), Clocks(false, a) + [Cs(true)]);
    ClocksAt(false, a, 0);
    FromSclkAppend(high, Clocks(false, a), [Cs(true)], 0);
  }

  /** The event after the opening chip-select of a bracket is a clock edge. */
  lemma BracketOpens(bits: seq<bool>)
    requires bits != []
    ensures |Bracket(bits)| > 1 && Bracket(bits)[1] == Clock(false, bits[0])
  {
    ClocksAt(false, bits, 0);
  }

  /** The trace of EEProm_Write: the WREN bracket, the WRITE bracket, the
      busy-wait; only the first bracket can start with SCLK high. */
  lemma WriteTraceParts(t: seq<BusEvent>, high: bool, address: bv16, data: bv8)
    ensures t + FromSclk(high, Bracket(ByteBits(WREN))) + Bracket(WriteFrame(address, data)) + Ticks(WRITE_DELAY)
            == t + FromSclk(high, WriteTrace(address, data))
  {
    BracketOpens(ByteBits(WREN));
    OpenAppend(t, high, Bracket(ByteBits(WREN)), Bracket(WriteFrame(address, data)), Ticks(WRITE_DELAY));
  }

  /** The second event of EEProm_Write is a clock edge. */
  lemma WriteTraceOpens(address: bv16, data: bv8)
    ensures |WriteTrace(address, data)| > 1 && WriteTrace(address, data)[1].Clock?
  {
    BracketOpens(ByteBits(WREN));
  }

  /** The second event of EEProm_Read is a clock edge. */
  lemma ReadTraceOpens(address: bv16)
    ensures |ReadTrace(address)| > 1 && ReadTrace(address)[1].Clock?
  {
    ClocksAt(false, ByteBits(READ), 0);
  }

  /** A second command after a first that started with SCLK high: only the first is affected. */
  lemma TwoCommands(t: seq<BusEvent>, high: bool, first: seq<BusEvent>, second: seq<BusEvent>)
    requires |first| > 1 && first[1].Clock?
    ensures t + FromSclk(high, first) + second == t + FromSclk(high, first + second)
  {
    FromSclkAppend(high, first, second, 1);
  }

  /** The trace of EEProm_Read, assembled in the order the driver emits it. */
  lemma ReadTraceParts(t: seq<BusEvent>, high: bool, address: bv16)
    ensures t + [Cs(false)] + FromSclk(high, Clocks(false, ByteBits(READ))) + Clocks(false, AddressBits(address))
              + Pulses(false, false, 8) + [Cs(true)]
            == t + FromSclk(high, ReadTrace(address))
  {
    ClocksAt(false, ByteBits(READ), 0);
    OpenFrame(t, high, Cs(false), Clocks(false, ByteBits(READ)), Clocks(false, AddressBits(address)), Pulses(false, false, 8), Cs(true));
  }

  /** A second command frame leaves P2OUT as if only it had run. */
  lemma AfterFrameTwice(reg: bv8, a: bool, b: bool)
    ensures AfterFrame(AfterFrame(reg, a), b) == AfterFrame(reg, b)
  {
  }

  /** Two reads in a row end where one read ends. */
  lemma IdleTwice(reg: bv8)
    ensures Idle(Idle(reg)) == Idle(reg)
  {
  }

  /** The last bit of 0x00 on the wire is low, and so is the last bit of WREN. */
  lemma ZeroAndWrenEndLow()
    ensures !ByteBits(0)[7] && !ByteBits(WREN)[7]
  {
    ByteBitsAt(0, 7);
    ByteBitsAt(WREN, 7);
  }

  /** One iteration of the bulk clear starting from the caller's P2OUT or
      from the idle state an earlier iteration left. */
  lemma IdleStep(out0: bv8, first: bool, before: bv8)
    requires before == if first then out0 else Idle(out0)
    ensures AfterFrame(before, false) == Idle(out0)
  {
  }

  /** The second event of a run of writes is a clock edge. */
  lemma {:induction false} WritesTraceOpens(addresses: seq<bv16>, data: bv8)
    requires addresses != []
    ensures |WritesTrace(addresses, data)| > 1 && WritesTrace(addresses, data)[1].Clock?
    decreases |addresses|
  {
    var init := addresses[..|addresses| - 1];
    WriteTraceOpens(addresses[|addresses| - 1], data);
    if init != [] {
      WritesTraceOpens(init, data);
    } else {
      assert WritesTrace(init, data) == [];
    }
  }

  /** The trace of the bulk clear grows by one write per iteration; only the
      first write can start with SCLK high. */
  lemma ClearStep(t0: seq<BusEvent>, high: bool, index: int)
    requires 0 <= index < EEPROM_MAX_ADDR
    ensures t0 + FromSclk(high, WritesTrace(ClearAddresses()[..index], 0)) + FromSclk(high && index == 0, WriteTrace(index as bv16, 0))
            == t0 + FromSclk(high, WritesTrace(ClearAddresses()[..index + 1], 0))
  {
    var prefix := ClearAddresses()[..index + 1];
    var done := WritesTrace(ClearAddresses()[..index], 0);
    var next := WriteTrace(index as bv16, 0);
    assert prefix[..|prefix| - 1] == ClearAddresses()[..index];
    assert prefix[|prefix| - 1] == index as bv16;
    assert WritesTrace(prefix, 0) == done + next;
    if index == 0 {
      assert done == [];
    } else {
      WritesTraceOpens(ClearAddresses()[..index], 0);
    }
    ExtendOpen(t0, high, done, next);
  }

  /** The register steps of EEPromInit before its WREN bracket: CS high, SCLK low. */
  lemma InitRegs(out0: bv8)
    ensures Idle(ClearMask(SetMask(out0, EEPROM_CS), EEPROM_SCLK)) == Idle(out0)
    ensures !IsHigh(ClearMask(SetMask(out0, EEPROM_CS), EEPROM_SCLK), EEPROM_SCLK)
  {
  }

  /** Every command leaves SCLK low. */
  lemma SclkEndsLow(reg: bv8, b: bool)
    ensures !IsHigh(BitSent(reg, b), EEPROM_SCLK) && !IsHigh(AfterFrame(reg, b), EEPROM_SCLK)
    ensures !IsHigh(Idle(reg), EEPROM_SCLK) && !IsHigh(ClearMask(reg, EEPROM_SCLK), EEPROM_SCLK)
  {
  }

  /** The trace of EEPromInit: CS high, then the WREN bracket. */
  lemma InitTraceParts(t: seq<BusEvent>)
    ensures t + [Cs(true)] + Bracket(ByteBits(WREN)) == t + InitTrace()
  {
  }

  /** The driver: the port it drives and its two globals, `EEProm_i` (the
      shared bit counter) and `EEProm_In` (the last P2IN value read). */
  class Driver {
    const port: Port
    var i: int
    var lastIn: bv8

    constructor (port: Port)
      ensures this.port == port && i == 0 && lastIn == 0
    {
      this.port := port;
      i, lastIn := 0, 0;
    }

    /** One iteration of a shifter loop: SI_HIGH or SI_LOW as `si` says,
        then SCLK_HIGH and SCLK_LOW.  (The loops shift their local copy of
        the data between the two clock macros; that touches no pin.)  The
        ghost parameters say where P2OUT stands: as the caller of the
        shifter left it (`out0`), or just after a previous bit `last`.
        Only the first pulse can find SCLK already high, and then it logs
        no edge. */
    method PulseBit(si: bool, ghost out0: bv8, ghost first: bool, ghost last: bool)
      modifies port`p2out, port`trace
      requires port.p2out == if first then out0 else BitSent(out0, last)
      ensures port.p2out == BitSent(out0, si)
      ensures port.trace == old(port.trace) + FromSclk(first && IsHigh(out0, EEPROM_SCLK), [Clock(IsHigh(out0, EEPROM_CS), si)])
    {
      RegStep(out0, first, last, port.p2out, si);
      BitSentIsPulse(port.p2out, si);
      if si {
        port.SiHigh();
      } else {
        port.SiLow();
      }
      port.SclkHigh();
      port.SclkLow();
    }

    /** WriteEEProm_16Bit, bit-banged: sixteen clock pulses with SI set from
        bit 7 of `data << k` at pulse `k`.  `EEProm_i` ends at 16. */
    method WriteEEProm16Bit(data: bv16)
      modifies this`i, port`p2out, port`trace
      ensures port.trace == old(port.trace) + FromSclk(IsHigh(old(port.p2out), EEPROM_SCLK), Clocks(IsHigh(old(port.p2out), EEPROM_CS), AddressBits(data)))
      ensures port.p2out == BitSent(old(port.p2out), AddressBits(data)[15])
      ensures i == 16
    {
      ghost var t0, out0 := port.trace, port.p2out;
      ghost var cs, high := IsHigh(out0, EEPROM_CS), IsHigh(out0, EEPROM_SCLK);
      ghost var last := false;
      var d := data;
      var k: nat := 0;
      while k < 16
        modifies port`p2out, port`trace
        invariant 0 <= k <= 16
        invariant d == Shl16(data, k)
        invariant port.trace == t0 + FromSclk(high, Clocks(cs, SentBits16(data, k)))
        invariant port.p2out == if k == 0 then out0 else BitSent(out0, last)
        invariant k > 0 ==> last == SentBits16(data, k)[k - 1]
      {
        var si := d & 0x80 == 0x80;
        PulseBit(si, out0, k == 0, last);
        Pulse16(data, k, d, t0, high, cs, port.trace);
        d := Shift16(d);
        last := si;
        k := k + 1;
      }
      assert k == 16;
      i := k;
    }

    /** WriteEEProm_8Bit, bit-banged: eight clock pulses with SI set from bit
        7 of `data << k` at pulse `k`, which sends `data` most significant
        bit first.  `EEProm_i` ends at 8. */
    method WriteEEProm8Bit(data: bv8)
      modifies this`i, port`p2out, port`trace
      ensures port.trace == old(port.trace) + FromSclk(IsHigh(old(port.p2out), EEPROM_SCLK), Clocks(IsHigh(old(port.p2out), EEPROM_CS), ByteBits(data)))
      ensures port.p2out == BitSent(old(port.p2out), ByteBits(data)[7])
      ensures i == 8
    {
      ghost var t0, out0 := port.trace, port.p2out;
      ghost var cs, high := IsHigh(out0, EEPROM_CS), IsHigh(out0, EEPROM_SCLK);
      ghost var last := false;
      var d := data;
      var k: nat := 0;
      while k < 8
        modifies port`p2out, port`trace
        invariant 0 <= k <= 8
        invariant d == Shl(data, k)
        invariant port.trace == t0 + FromSclk(high, Clocks(cs, SentBits(data, k)))
        invariant port.p2out == if k == 0 then out0 else BitSent(out0, last)
        invariant k > 0 ==> last == SentBits(data, k)[k - 1]
      {
        var si := d & 0x80 == 0x80;
        PulseBit(si, out0, k == 0, last);
        Pulse8(data, k, d, t0, high, cs, port.trace);
        d := Shift8(d);
        last := si;
        k := k + 1;
      }
      assert k == 8;
      i := k;
    }

    /** Where ReadEEProm_8Bit stands after `k` iterations, started with the
        wire trace `t0`, P2OUT at `out0` and `s0` reads of P2IN done: `k`
        more reads, the byte built from their SO levels, the last one kept
        in `EEProm_In`, `k` clock edges with SI held, SCLK low. */
    ghost predicate Receiving(k: nat, output: bv8, t0: seq<BusEvent>, out0: bv8, s0: nat)
      reads this, port
    {
      && port.samples == s0 + k
      && output == Received(port.p2in, s0, k)
      && (k > 0 ==> lastIn == port.p2in(s0 + k - 1))
      && port.trace == t0 + FromSclk(IsHigh(out0, EEPROM_SCLK), Pulses(IsHigh(out0, EEPROM_CS), IsHigh(out0, EEPROM_SI), k))
      && port.p2out == if k == 0 then out0 else ClearMask(out0, EEPROM_SCLK)
    }

    /** One iteration of the receive loop: SCLK_HIGH, `output << 1`, one
        read of P2IN into `EEProm_In`, `| 0x01` when its SO bit is set, then
        SCLK_LOW. */
    method ReceiveBit(output: bv8, ghost k: nat, ghost t0: seq<BusEvent>, ghost out0: bv8, ghost s0: nat)
      returns (next: bv8)
      modifies this`lastIn, port`p2out, port`trace, port`samples
      requires Receiving(k, output, t0, out0, s0)
      ensures Receiving(k + 1, next, t0, out0, s0)
    {
      ReadStep(out0, k == 0, port.p2out);
      ReadBitStep(port.p2in, s0, k, output);
      PulseTrace(t0, out0, k, port.p2out);
      port.SclkHigh();
      next := Shift8(output);
      lastIn := port.ReadSoPort();
      if lastIn & EEPROM_SO == EEPROM_SO {
        next := next | 0x01;
      }
      port.SclkLow();
    }

    /** ReadEEProm_8Bit, bit-banged: eight clock pulses; after each
        SCLK_HIGH, while SCLK is high, P2IN is read into `EEProm_In` and its
        SO bit shifted into the result, most significant bit first.  SI is
        not touched. */
    method ReadEEProm8Bit() returns (output: bv8)
      modifies this`i, this`lastIn, port`p2out, port`trace, port`samples
      ensures output == Received(port.p2in, old(port.samples), 8)
      ensures port.samples == old(port.samples) + 8 && lastIn == port.p2in(old(port.samples) + 7)
      ensures port.trace == old(port.trace) + FromSclk(IsHigh(old(port.p2out), EEPROM_SCLK),
                                                       Pulses(IsHigh(old(port.p2out), EEPROM_CS), IsHigh(old(port.p2out), EEPROM_SI), 8))
      ensures port.p2out == ClearMask(old(port.p2out), EEPROM_SCLK)
      ensures i == 8
    {
      ghost var t0, out0, s0 := port.trace, port.p2out, port.samples;
      output := 0;
      var k: nat := 0;
      while k < 8
        modifies this`lastIn, port`p2out, port`trace, port`samples
        invariant 0 <= k <= 8
        invariant Receiving(k, output, t0, out0, s0)
      {
        output := ReceiveBit(output, k, t0, out0, s0);
        k := k + 1;
      }
      assert k == 8;
      i := k;
    }

    /** EEProm_Read: one bracket holding READ, the address shift and one
        8-bit read; returns the byte shifted in from SO; CS is high on return. */
    method EEPromRead(address: bv16) returns (output: bv8)
      modifies this`i, this`lastIn, port`p2out, port`trace, port`samples
      ensures output == BitsToByte(SoLevels(port.p2in, old(port.samples), 8))
      ensures port.trace == old(port.trace) + FromSclk(IsHigh(old(port.p2out), EEPROM_SCLK), ReadTrace(address))
      ensures port.p2out == Idle(old(port.p2out))
      ensures port.samples == old(port.samples) + 8 && lastIn == port.p2in(old(port.samples) + 7)
      ensures i == 8
    {
      ghost var t0, out0 := port.trace, port.p2out;
      port.CsLow();
      ghost var r0 := port.p2out;
      WriteEEProm8Bit(READ);
      ghost var r1 := port.p2out;
      WriteEEProm16Bit(address);
      ghost var r2 := port.p2out;
      assert port.samples == old(port.samples);
      output := ReadEEProm8Bit();
      ghost var r3 := port.p2out;
      port.CsHigh();
      ReadFrameEnd(out0, r0, r1, r2, r3, address);
      ReadFrameTrace(t0, out0, r0, r1, r2, address, port.trace);
    }

    /** The busy-wait at the end of EEProm_Write: WRITE_DELAY iterations of
        a counting loop, one `DelayTick` each; no pin changes. */
    method WriteDelay()
      modifies port`trace
      ensures port.trace == old(port.trace) + Ticks(WRITE_DELAY)
    {
      var index := 0;
      while index < WRITE_DELAY
        invariant 0 <= index <= WRITE_DELAY
        invariant port.trace == old(port.trace) + Ticks(index)
      {
        TicksSnoc(index);
        index := index + 1;
        port.trace := port.trace + [DelayTick];
      }
    }

    /** The first bracket of EEProm_Write (and the last step of
        EEPromInit): CS low, WREN, CS high.  WREN ends on a low bit, so P2OUT
        ends idle. */
    method SendWriteEnable()
      modifies this`i, port`p2out, port`trace
      ensures port.trace == old(port.trace) + FromSclk(IsHigh(old(port.p2out), EEPROM_SCLK), Bracket(ByteBits(WREN)))
      ensures port.p2out == Idle(old(port.p2out))
      ensures i == 8
    {
      ghost var t0, out0 := port.trace, port.p2out;
      ZeroAndWrenEndLow();
      EnableRegs(out0, ByteBits(WREN)[7]);
      port.CsLow();
      WriteEEProm8Bit(WREN);
      port.CsHigh();
      BracketOne(t0, IsHigh(out0, EEPROM_SCLK), ByteBits(WREN));
    }

    /** The second bracket of EEProm_Write: CS low, WRITE, the address
        shift, the data byte, CS high. */
    method SendWriteFrame(address: bv16, data: bv8)
      modifies this`i, port`p2out, port`trace
      ensures port.trace == old(port.trace) + FromSclk(IsHigh(old(port.p2out), EEPROM_SCLK), Bracket(WriteFrame(address, data)))
      ensures port.p2out == AfterFrame(old(port.p2out), ByteBits(data)[7])
      ensures i == 8
    {
      ghost var t0, out0 := port.trace, port.p2out;
      port.CsLow();
      ghost var r0 := port.p2out;
      WriteEEProm8Bit(WRITE);
      ghost var r1 := port.p2out;
      WriteEEProm16Bit(address);
      ghost var r2 := port.p2out;
      WriteEEProm8Bit(data);
      ghost var r3 := port.p2out;
      port.CsHigh();
      WriteFrameEnd(out0, r0, r1, r2, r3, address, data);
      WriteFrameTrace(t0, out0, r0, r1, r2, address, data, port.trace);
    }

    /** EEProm_Write: the WREN bracket, the WRITE bracket holding the
        address and `data`, then WRITE_DELAY iterations of the counting
        loop after CS has gone high. */
    method EEPromWrite(address: bv16, data: bv8)
      modifies this`i, port`p2out, port`trace
      ensures port.trace == old(port.trace) + FromSclk(IsHigh(old(port.p2out), EEPROM_SCLK), WriteTrace(address, data))
      ensures port.p2out == AfterFrame(old(port.p2out), ByteBits(data)[7])
      ensures i == 8
    {
      ghost var t0, out0 := port.trace, port.p2out;
      SendWriteEnable();
      SclkEndsLow(out0, false);
      SendWriteFrame(address, data);
      WriteDelay();
      IdleThenFrame(out0, ByteBits(data)[7]);
      WriteTraceParts(t0, IsHigh(out0, EEPROM_SCLK), address, data);
    }

    /** EEProm_Write_16: writes `data >> 8` at `address`, then `data & 0xff`
        at `address + 1` (16-bit wrap-around). */
    method EEPromWrite16(address: bv16, data: bv16)
      modifies this`i, port`p2out, port`trace
      ensures port.trace == old(port.trace) + FromSclk(IsHigh(old(port.p2out), EEPROM_SCLK),
                                                       WriteTrace(address, Hi(data)) + WriteTrace(address + 1, Lo(data)))
      ensures port.p2out == AfterFrame(old(port.p2out), ByteBits(Lo(data))[7])
      ensures i == 8
    {
      ghost var t0, out0 := port.trace, port.p2out;
      var top := Hi(data);
      var bottom := Lo(data);
      var a := address;
      EEPromWrite(a, top);
      SclkEndsLow(out0, ByteBits(top)[7]);
      a := a + 1;
      EEPromWrite(a, bottom);
      AfterFrameTwice(out0, ByteBits(top)[7], ByteBits(bottom)[7]);
      WriteTraceOpens(address, top);
      TwoCommands(t0, IsHigh(out0, EEPROM_SCLK), WriteTrace(address, top), WriteTrace(address + 1, bottom));
    }

    /** EEProm_Read_16: `(EEProm_Read(address) << 8) | EEProm_Read(address + 1)`. */
    method EEPromRead16(address: bv16) returns (output: bv16)
      modifies this`i, this`lastIn, port`p2out, port`trace, port`samples
      ensures output == Word(BitsToByte(SoLevels(port.p2in, old(port.samples), 8)),
                             BitsToByte(SoLevels(port.p2in, old(port.samples) + 8, 8)))
      ensures port.trace == old(port.trace) + FromSclk(IsHigh(old(port.p2out), EEPROM_SCLK), ReadTrace(address) + ReadTrace(address + 1))
      ensures port.p2out == Idle(old(port.p2out))
      ensures port.samples == old(port.samples) + 16 && lastIn == port.p2in(old(port.samples) + 15)
      ensures i == 8
    {
      ghost var t0, out0 := port.trace, port.p2out;
      var first := EEPromRead(address);
      output := first as bv16;
      SclkEndsLow(out0, false);
      var a := address + 1;
      var second := EEPromRead(a);
      var value2 := second as bv16;
      output := output << 8;
      output := output | value2;
      IdleTwice(out0);
      ReadTraceOpens(address);
      TwoCommands(t0, IsHigh(out0, EEPROM_SCLK), ReadTrace(address), ReadTrace(address + 1));
    }

    /** Where EEPromClear stands after `n` iterations, started with the
        wire trace `t0` and P2OUT at `out0`: the first `n` addresses written
        with 0x00, in order, and P2OUT idle once a write has happened. */
    ghost predicate Clearing(n: nat, t0: seq<BusEvent>, out0: bv8)
      reads this, port
    {
      && n <= EEPROM_MAX_ADDR
      && port.trace == t0 + FromSclk(IsHigh(out0, EEPROM_SCLK), WritesTrace(ClearAddresses()[..n], 0))
      && port.p2out == (if n == 0 then out0 else Idle(out0))
      && (n > 0 ==> i == 8)
    }

    /** One iteration of EEPromClear: EEProm_Write(index, 0x00). */
    method ClearOne(index: int, ghost t0: seq<BusEvent>, ghost out0: bv8)
      modifies this`i, port`p2out, port`trace
      requires 0 <= index < EEPROM_MAX_ADDR && Clearing(index, t0, out0)
      ensures Clearing(index + 1, t0, out0)
    {
      ghost var before := port.p2out;
      ZeroAndWrenEndLow();
      SclkEndsLow(out0, false);
      EEPromWrite(index as bv16, 0x00);
      IdleStep(out0, index == 0, before);
      ClearStep(t0, IsHigh(out0, EEPROM_SCLK), index);
    }

    /** EEPromClear: EEProm_Write(index, 0x00) for `0 <= index < EEPROM_MAX_ADDR`. */
    method EEPromClear()
      modifies this`i, port`p2out, port`trace
      ensures port.trace == old(port.trace) + FromSclk(IsHigh(old(port.p2out), EEPROM_SCLK), WritesTrace(ClearAddresses(), 0))
      ensures port.p2out == Idle(old(port.p2out))
      ensures i == 8
    {
      ghost var t0, out0 := port.trace, port.p2out;
      var index := 0;
      while index < EEPROM_MAX_ADDR
        modifies this`i, port`p2out, port`trace
        invariant 0 <= index <= EEPROM_MAX_ADDR
        invariant Clearing(index, t0, out0)
      {
        ClearOne(index, t0, out0);
        index := index + 1;
      }
      assert index == EEPROM_MAX_ADDR;
      assert ClearAddresses()[..EEPROM_MAX_ADDR] == ClearAddresses();
    }

    /** EEPromInit: sets the SCLK, SI and CS direction bits, drives CS high
        and SCLK low, and sends one WREN in its own bracket.  Because SCLK is
        low before the bracket, its trace is the same whatever level SCLK
        had on entry. */
    method EEPromInit()
      modifies this`i, port`p2out, port`p2dir, port`trace
      ensures port.p2dir == SetMask(SetMask(SetMask(old(port.p2dir), EEPROM_SCLK), EEPROM_SI), EEPROM_CS)
      ensures port.p2out == Idle(old(port.p2out))
      ensures port.trace == old(port.trace) + InitTrace()
      ensures i == 8
    {
      ghost var t0, out0 := port.trace, port.p2out;
      InitRegs(out0);
      port.SclkSetup();
      port.SiSetup();
      port.CsSetup();
      port.CsHigh();
      port.SclkLow();
      SendWriteEnable();
      InitTraceParts(t0);
    }
  }
}
