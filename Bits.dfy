/** Bit-level vocabulary shared by the pin layer, the driver and the device:
    the C operations on `char` (8 bits) and on MSP430 `unsigned int` (16 bits),
    and the MSB-first bit strings that the SPI wire carries. */
module Bits {

  /** The mask of bit `k`, `1 << k`, written out so that the solver needs
      no integer-to-bit-vector conversion. */
  function BitMask(k: nat): bv8
    requires k < 8
  {
    if k == 0 then 0x01 else if k == 1 then 0x02 else if k == 2 then 0x04
    else if k == 3 then 0x08 else if k == 4 then 0x10 else if k == 5 then 0x20
    else if k == 6 then 0x40 else 0x80
  }

  /** Bit `k` of `b`, counting from the least significant bit. */
  predicate Bit(b: bv8, k: nat)
    requires k < 8
  {
    b & BitMask(k) != 0
  }

  /** The eight bits of `b`, most significant first: the order in which
      the driver puts a byte on the wire.  Defined the way the shifter
      produces them; `ByteBitsAt` states which bit of `b` each one is. */
  function ByteBits(b: bv8): (bits: seq<bool>)
    ensures |bits| == 8
  {
    SentBits(b, 8)
  }

  /** The levels a `char` shifter puts on SI in its first `n` pulses: at
      pulse `k`, the test `& 0x80` of the byte after `k` one-place shifts. */
  function SentBits(b: bv8, n: nat): (bits: seq<bool>)
    ensures |bits| == n
  {
    if n == 0 then [] else SentBits(b, n - 1) + [Shl(b, n - 1) & 0x80 == 0x80]
  }

  /** The same for an `unsigned int` shifter. */
  function SentBits16(w: bv16, n: nat): (bits: seq<bool>)
    ensures |bits| == n
  {
    if n == 0 then [] else SentBits16(w, n - 1) + [Shl16(w, n - 1) & 0x80 == 0x80]
  }

  lemma {:induction false} SentBitsAt(b: bv8, n: nat, k: nat)
    requires k < n
    ensures SentBits(b, n)[k] == (Shl(b, k) & 0x80 == 0x80)
  {
    if k < n - 1 {
      SentBitsAt(b, n - 1, k);
    }
  }

  lemma {:induction false} SentBits16At(w: bv16, n: nat, k: nat)
    requires k < n
    ensures SentBits16(w, n)[k] == (Shl16(w, k) & 0x80 == 0x80)
  {
    if k < n - 1 {
      SentBits16At(w, n - 1, k);
    }
  }

  /** `n` copies of one line level. */
  function Repeat(level: bool, n: nat): (bits: seq<bool>)
    ensures |bits| == n
  {
    if n == 0 then [] else Repeat(level, n - 1) + [level]
  }

  lemma {:induction false} RepeatAt(level: bool, n: nat, k: nat)
    requires k < n
    ensures Repeat(level, n)[k] == level
  {
    if k < n - 1 {
      RepeatAt(level, n - 1, k);
    }
  }

  /** The byte built by shifting `bits` in one at a time, most significant
      first: `x = x << 1` and then `x = x | 1` for a high bit.  Bits that
      are shifted past bit 7 are lost, as in an 8-bit `char`. */
  function BitsToByte(bits: seq<bool>): bv8
    decreases |bits|
  {
    if bits == [] then 0
    else ShiftIn(BitsToByte(bits[..|bits| - 1]), bits[|bits| - 1])
  }

  /** One step of the receive loop: `x << 1`, then `| 0x01` when the bit is high. */
  function ShiftIn(x: bv8, c: bool): bv8
  {
    (x << 1) | (if c then 1 else 0)
  }

  /** Receiving one more bit is one more shift-in step. */
  lemma BitsToByteSnoc(bits: seq<bool>, c: bool)
    ensures BitsToByte(bits + [c]) == ShiftIn(BitsToByte(bits), c)
  {
    assert (bits + [c])[..|bits|] == bits;
  }

  /** The low byte of a 16-bit value (`data & 0x00ff` stored in a `char`). */
  function Lo(w: bv16): bv8
  {
    (w & 0xFF) as bv8
  }

  /** The high byte of a 16-bit value (`data >> 8` stored in a `char`). */
  function Hi(w: bv16): bv8
  {
    (w >> 8) as bv8
  }

  /** The 16-bit value `(hi << 8) | lo`, both bytes widened without sign extension. */
  function Word(hi: bv8, lo: bv8): bv16
  {
    ((hi as bv16) << 8) | (lo as bv16)
  }

  /** One shift-in step: bit 0 of the new byte is the new bit, and every
      other bit is the old byte's bit one place lower. */
  lemma ShiftInBit(x: bv8, c: bool, k: nat)
    requires k < 8
    ensures Bit(ShiftIn(x, c), k) == if k == 0 then c else Bit(x, k - 1)
  {
  }

  /** Shifting in `bits` leaves bit `k` equal to the bit received `k` places
      before the end, and zero where fewer than `k + 1` bits were received. */
  lemma {:induction false} BitsToByteBit(bits: seq<bool>, k: nat)
    requires k < 8
    ensures Bit(BitsToByte(bits), k) == (k < |bits| && bits[|bits| - 1 - k])
    decreases |bits|
  {
    if bits == [] {
      assert BitsToByte(bits) == 0;
    } else {
      var init := bits[..|bits| - 1];
      ShiftInBit(BitsToByte(init), bits[|bits| - 1], k);
      if k > 0 {
        BitsToByteBit(init, k - 1);
      }
    }
  }

  /** Two bytes with the same eight bits are equal. */
  lemma SameBits(x: bv8, y: bv8)
    requires forall k :: 0 <= k < 8 ==> Bit(x, k) == Bit(y, k)
    ensures x == y
  {
    assert Bit(x, 0) == Bit(y, 0) && Bit(x, 1) == Bit(y, 1);
    assert Bit(x, 2) == Bit(y, 2) && Bit(x, 3) == Bit(y, 3);
    assert Bit(x, 4) == Bit(y, 4) && Bit(x, 5) == Bit(y, 5);
    assert Bit(x, 6) == Bit(y, 6) && Bit(x, 7) == Bit(y, 7);
  }

  /** Shifting in the MSB-first bits of a byte rebuilds that byte. */
  lemma ByteBitsRoundTrip(b: bv8)
    ensures BitsToByte(ByteBits(b)) == b
  {
    forall k | 0 <= k < 8
      ensures Bit(BitsToByte(ByteBits(b)), k) == Bit(b, k)
    {
      BitsToByteBit(ByteBits(b), k);
      ByteBitsAt(b, 7 - k);
    }
    SameBits(BitsToByte(ByteBits(b)), b);
  }

  /** Splitting a 16-bit value into its high and low byte and joining them again is the identity. */
  lemma WordRoundTrip(w: bv16)
    ensures Word(Hi(w), Lo(w)) == w
    ensures Hi(Word(Hi(w), Lo(w))) == Hi(w) && Lo(Word(Hi(w), Lo(w))) == Lo(w)
  {
  }

  /** `data = data << 1` on a `char`. */
  function Shift8(b: bv8): bv8
  {
    b << 1
  }

  /** `data = data << 1` on an `unsigned int`. */
  function Shift16(w: bv16): bv16
  {
    w << 1
  }

  /** `b` shifted left `k` times by one place, as the shifter loops do it. */
  function Shl(b: bv8, k: nat): bv8
  {
    if k == 0 then b else Shift8(Shl(b, k - 1))
  }

  /** `w` shifted left `k` times by one place. */
  function Shl16(w: bv16, k: nat): bv16
  {
    if k == 0 then w else Shift16(Shl16(w, k - 1))
  }

  /** Bit `j` of `b` after `k` one-place shifts is bit `j - k` of `b`, or zero. */
  lemma {:induction false} ShlBit(b: bv8, k: nat, j: nat)
    requires j < 8
    ensures Bit(Shl(b, k), j) == (j >= k && Bit(b, j - k))
  {
    if k > 0 {
      var x := Shl(b, k - 1);
      assert ShiftIn(x, false) == Shift8(x);
      ShiftInBit(x, false, j);
      if j > 0 {
        ShlBit(b, k - 1, j - 1);
      }
    }
  }

  /** Eight or more one-place shifts clear a `char`. */
  lemma ShlClears(b: bv8, k: nat)
    requires k >= 8
    ensures Shl(b, k) == 0
  {
    forall j | 0 <= j < 8
      ensures Bit(Shl(b, k), j) == Bit(0, j)
    {
      ShlBit(b, k, j);
    }
    SameBits(Shl(b, k), 0);
  }

  /** After `k` one-place shifts of a `char`, the test `& 0x80` reads bit
      `7 - k` of the original byte: the 8-bit shifter sends the byte MSB first. */
  lemma TopBitAfterShift(b: bv8, k: nat)
    requires k < 8
    ensures (Shl(b, k) & 0x80 == 0x80) == Bit(b, 7 - k)
  {
    ShlBit(b, k, 7);
  }

  /** Bit `k` on the wire is bit `7 - k` of the byte: the shifter sends the
      byte most significant bit first. */
  lemma ByteBitsAt(b: bv8, k: nat)
    requires k < 8
    ensures ByteBits(b)[k] == Bit(b, 7 - k)
  {
    SentBitsAt(b, 8, k);
    TopBitAfterShift(b, k);
  }

  /** The low byte of a shifted 16-bit value is the shifted low byte. */
  lemma {:induction false} LowByteOfShift16(w: bv16, k: nat)
    ensures Lo(Shl16(w, k)) == Shl(Lo(w), k)
  {
    if k > 0 {
      LowByteOfShift16(w, k - 1);
      var x := Shl16(w, k - 1);
      assert Lo(Shift16(x)) == Shift8(Lo(x));
    }
  }

  /** After `k` one-place shifts of a 16-bit `unsigned int`, the test `& 0x80`
      reads bit `7 - k` of the low byte for the first eight shifts and zero
      after that: bit 7 never sees the high byte. */
  lemma TopBitAfterShift16(w: bv16, k: nat)
    requires k < 16
    ensures (Shl16(w, k) & 0x80 == 0x80) == (k < 8 && Bit(Lo(w), 7 - k))
  {
    LowByteOfShift16(w, k);
    var x := Shl16(w, k);
    assert (x & 0x80 == 0x80) == (Lo(x) & 0x80 == 0x80);
    if k < 8 {
      TopBitAfterShift(Lo(w), k);
    } else {
      ShlClears(Lo(w), k);
    }
  }

  /** The mask of bit `k` of a 16-bit value. */
  function BitMask16(k: nat): bv16
    requires k < 16
  {
    if k < 8 then BitMask(k) as bv16 else (BitMask(k - 8) as bv16) << 8
  }

  /** Bit `k` of a 16-bit value, counting from the least significant bit. */
  predicate Bit16(w: bv16, k: nat)
    requires k < 16
  {
    w & BitMask16(k) != 0
  }

  /** The bits of a 16-bit value are the bits of its low byte and then of its high byte. */
  lemma Bit16OfBytes(w: bv16, k: nat)
    requires k < 16
    ensures Bit16(w, k) == if k < 8 then Bit(Lo(w), k) else Bit(Hi(w), k - 8)
  {
  }

  /** One one-place shift of a 16-bit value moves every bit one place up. */
  lemma Shift16Bit(w: bv16, j: nat)
    requires j < 16
    ensures Bit16(Shift16(w), j) == (j > 0 && Bit16(w, j - 1))
  {
  }

  /** Bit `j` of `w` after `k` one-place shifts is bit `j - k` of `w`, or zero. */
  lemma {:induction false} Shl16Bit(w: bv16, k: nat, j: nat)
    requires j < 16
    ensures Bit16(Shl16(w, k), j) == (j >= k && Bit16(w, j - k))
  {
    if k > 0 {
      Shift16Bit(Shl16(w, k - 1), j);
      if j > 0 {
        Shl16Bit(w, k - 1, j - 1);
      }
    }
  }
}
