/** An abstract 25LC320A on the other end of the wire, used to state what
    the driver's commands mean.  The device collects the SI level at every
    rising clock edge while CS is low, and acts on the collected bits when
    CS goes high: WREN sets the write-enable latch, WRITE stores its data
    byte when the latch is set (and clears the latch), READ answers with the
    stored byte.  Cells never written read 0xFF, as an erased part does.
    The part holds 4096 bytes, so of the 16-bit address that arrives on
    the wire only the low twelve bits select a cell. */
module Device {
  import opened Bits
  import opened Pins
  import opened EEProm

  /** A cell of the memory array, named by its 12-bit index. */
  datatype Cell = Cell(index: bv16)

  /** The cell a 16-bit wire address selects: its low twelve bits. */
  function ArrayCell(w: bv16): (c: Cell)
    ensures c.index < 0x1000
    ensures w < 0x1000 ==> c.index == w
  {
    Cell(w & 0x0FFF)
  }

  /** The device: the frame being received, the write-enable latch, the
      store, and the replies it has given to reads, oldest first. */
  datatype Part = Part(bits: seq<bool>, wel: bool, store: map<Cell, bv8>, replies: seq<bv8>)

  /** The byte a read of `a` answers with. */
  function StoreRead(store: map<Cell, bv8>, a: Cell): bv8
  {
    if a in store then store[a] else 0xFF
  }

  /** The 16-bit address carried MSB first by sixteen wire bits: the first
      eight are the high byte, the last eight the low byte. */
  function WireAddress(bits: seq<bool>): bv16
    requires |bits| == 16
  {
    Word(BitsToByte(bits[..8]), BitsToByte(bits[8..]))
  }

  /** The instruction byte that opens a frame of at least eight bits. */
  function Opcode(frame: seq<bool>): bv8
    requires |frame| >= 8
  {
    BitsToByte(frame[..8])
  }

  /** What the device does with a complete frame when CS goes high. */
  function Close(d: Part): (r: Part)
    ensures r.bits == d.bits
    ensures r.store != d.store ==> |d.bits| >= 8 && d.wel && Opcode(d.bits) == WRITE
    ensures |r.replies| <= |d.replies| + 1
  {
    var f := d.bits;
    if |f| < 8 then d
    else if Opcode(f) == WREN then d.(wel := true)
    else if Opcode(f) == WRITE && |f| >= 32 then
      if d.wel then d.(store := d.store[ArrayCell(WireAddress(f[8..24])) := BitsToByte(f[24..32])], wel := false)
      else d
    else if Opcode(f) == READ && |f| >= 24 then
      d.(replies := d.replies + [StoreRead(d.store, ArrayCell(WireAddress(f[8..24])))])
    else d
  }

  /** The device's reaction to one wire event. */
  function Step(d: Part, e: BusEvent): Part
  {
    match e
    case Cs(high) => if high then Close(d).(bits := []) else d.(bits := [])
    case Clock(csHigh, si) => if csHigh then d else d.(bits := d.bits + [si])
    case SoRead(_) => d
    case DelayTick => d
  }

  /** The device after it has seen the whole trace `t`, from the first event to the last. */
  function Run(d: Part, t: seq<BusEvent>): Part
    decreases |t|
  {
    if t == [] then d else Step(Run(d, t[..|t| - 1]), t[|t| - 1])
  }

  /** Running two traces one after the other is running their concatenation. */
  lemma {:induction false} RunConcat(d: Part, a: seq<BusEvent>, b: seq<BusEvent>)
    ensures Run(d, a + b) == Run(Run(d, a), b)
    decreases |b|
  {
    if b == [] {
      assert a + b == a;
    } else {
      var b' := b[..|b| - 1];
      assert (a + b)[..|a + b| - 1] == a + b';
      assert (a + b)[|a + b| - 1] == b[|b| - 1];
      RunConcat(d, a, b');
    }
  }

  /** Clock edges with CS low append their SI levels to the frame. */
  lemma {:induction false} RunClocks(d: Part, bits: seq<bool>)
    ensures Run(d, Clocks(false, bits)) == d.(bits := d.bits + bits)
    decreases |bits|
  {
    if bits == [] {
      assert d.bits + bits == d.bits;
    } else {
      var init := bits[..|bits| - 1];
      RunClocks(d, init);
      var t := Clocks(false, bits);
      assert t[..|t| - 1] == Clocks(false, init);
      assert d.bits + init + [bits[|bits| - 1]] == d.bits + bits;
    }
  }

  /** The receive loop clocks in zeros on SI; its reads of SO do not disturb the device. */
  lemma {:induction false} RunPulses(d: Part, n: nat)
    ensures Run(d, Pulses(false, false, n)) == d.(bits := d.bits + Repeat(false, n))
  {
    if n == 0 {
      assert d.bits + Repeat(false, 0) == d.bits;
    } else {
      var init := Pulses(false, false, n - 1);
      RunPulses(d, n - 1);
      RunConcat(d, init, [Clock(false, false), SoRead(true)]);
      RunConcat(Run(d, init), [Clock(false, false)], [SoRead(true)]);
      assert [Clock(false, false)] + [SoRead(true)] == [Clock(false, false), SoRead(true)];
      assert [Clock(false, false)][..0] == [] && [SoRead(true)][..0] == [];
      assert d.bits + Repeat(false, n - 1) + [false] == d.bits + Repeat(false, n);
    }
  }

  /** The busy-wait is invisible to the device. */
  lemma {:induction false} RunTicks(d: Part, n: nat)
    ensures Run(d, Ticks(n)) == d
  {
    if n > 0 {
      RunTicks(d, n - 1);
      assert Ticks(n)[..n - 1] == Ticks(n - 1);
    }
  }

  /** One CS-low bracket: the device acts on exactly the bits inside it. */
  lemma BracketEffect(d: Part, bits: seq<bool>)
    ensures Run(d, Bracket(bits)) == Close(d.(bits := bits)).(bits := [])
  {
    RunConcat(d, [Cs(false)], Clocks(false, bits));
    RunConcat(d, [Cs(false)] + Clocks(false, bits), [Cs(true)]);
    assert Run(d, [Cs(false)]) == d.(bits := []) by {
      assert [Cs(false)][..0] == [];
    }
    RunClocks(d.(bits := []), bits);
    assert [] + bits == bits;
    assert Run(Run(d, [Cs(false)] + Clocks(false, bits)), [Cs(true)])
           == Step(Run(d, [Cs(false)] + Clocks(false, bits)), Cs(true)) by {
      assert [Cs(true)][..0] == [];
    }
  }

  /** After a clear as written, every address the driver can read answers
      0x00: each one reaches the cell of its low nibble, and the nibbles
      0 to 15 are among the addresses cleared.  The address EEPromClear skips,
      0x0FFF, is one of them. */
  lemma ClearedReadsZero(d: Part, a: bv16)
    ensures StoreRead(Run(d, WritesTrace(ClearAddresses(), 0)).store, DeviceCell(a)) == 0
    ensures Run(Run(d, WritesTrace(ClearAddresses(), 0)), ReadTrace(a)).replies
            == Run(d, WritesTrace(ClearAddresses(), 0)).replies + [0]
  {
    var d1 := Run(d, WritesTrace(ClearAddresses(), 0));
    LowNibbleCleared(a);
    ClearEffect(d);
    assert StoreRead(d1.store, DeviceCell(a)) == 0;
    ReadTraceEffect(d1, a);
  }

  /** Every cell the driver can reach is reached by one of the cleared addresses. */
  lemma LowNibbleCleared(a: bv16)
    ensures DeviceCell(a) in Reached(ClearAddresses())
  {
    var n := a & 0x0F;
    DeviceAddressAliases(a, n);
    NibbleIsIndex(a);
    assert ClearAddresses()[n as int] == n;
  }

  lemma NibbleIsIndex(a: bv16)
    ensures (a & 0x0F) & 0x0F == a & 0x0F
    ensures (a & 0x0F) as int < 16
  {
  }

  /** The fields of a frame laid out as an instruction byte, sixteen
      address bits and eight more bits. */
  lemma FrameFields(op: seq<bool>, addr: seq<bool>, rest: seq<bool>)
    requires |op| == 8 && |addr| == 16 && |rest| == 8
    ensures (op + addr + rest)[..8] == op
    ensures (op + addr + rest)[8..24] == addr
    ensures (op + addr + rest)[24..32] == rest
  {
  }

  /** The address the device sees when the driver sends `a`. */
  function DeviceAddress(a: bv16): bv16
  {
    WireAddress(AddressBits(a))
  }

  /** The address shift, as written, delivers the low byte of the address
      as the high byte of the wire address, and zero as its low byte. */
  lemma DeviceAddressIsLowByteShifted(a: bv16)
    ensures DeviceAddress(a) == Word(Lo(a), 0)
  {
    AddressBitsLowByte(a);
    var bits := AddressBits(a);
    assert bits[..8] == ByteBits(Lo(a));
    assert bits[8..] == Repeat(false, 8);
    ByteBitsRoundTrip(Lo(a));
    ByteBitsRoundTrip(0);
    assert ByteBits(0) == Repeat(false, 8) by {
      forall k | 0 <= k < 8
        ensures ByteBits(0)[k] == Repeat(false, 8)[k]
      {
        ByteBitsAt(0, k);
        RepeatAt(false, 8, k);
      }
    }
  }

  /** The cell the device selects when the driver sends `a`. */
  function DeviceCell(a: bv16): Cell
  {
    ArrayCell(DeviceAddress(a))
  }

  /** As written, the cell reached is the low nibble of the address moved
      to bits 8 to 11 of the index. */
  lemma DeviceCellIsLowNibble(a: bv16)
    ensures DeviceCell(a) == Cell((a & 0x0F) << 8)
  {
    DeviceAddressIsLowByteShifted(a);
    NibbleOfWord(a);
  }

  lemma NibbleOfWord(a: bv16)
    ensures Word(Lo(a), 0) & 0x0FFF == (a & 0x0F) << 8
  {
  }

  /** Consecutive addresses reach different cells: their low nibbles differ. */
  lemma NextAddressDiffers(a: bv16)
    ensures DeviceCell(a + 1) != DeviceCell(a)
  {
    DeviceCellIsLowNibble(a);
    DeviceCellIsLowNibble(a + 1);
    NextNibbleDiffers(a);
  }

  lemma NextNibbleDiffers(a: bv16)
    ensures ((a + 1) & 0x0F) << 8 != (a & 0x0F) << 8
  {
  }

  /** As written, two addresses reach the same cell exactly when their low
      four bits agree: the high byte of the address never reaches the
      device, and of the low byte only bits 0 to 3 land inside the twelve
      bits that select a cell. */
  lemma DeviceAddressAliases(a: bv16, b: bv16)
    ensures DeviceCell(a) == DeviceCell(b) <==> a & 0x0F == b & 0x0F
  {
    DeviceCellIsLowNibble(a);
    DeviceCellIsLowNibble(b);
    NibbleShiftInjective(a & 0x0F, b & 0x0F);
  }

  lemma NibbleShiftInjective(x: bv16, y: bv16)
    requires x < 16 && y < 16
    ensures x << 8 == y << 8 <==> x == y
  {
  }

  /** A byte written to 0x0010 is what a read of 0x0000 returns. */
  lemma AliasedWrite(d: Part, v: bv8)
    ensures Run(d, WriteTrace(0x0010, v) + ReadTrace(0x0000)).replies == d.replies + [v]
  {
    RunConcat(d, WriteTrace(0x0010, v), ReadTrace(0x0000));
    WriteTraceEffect(d, 0x0010, v);
    var d1 := Run(d, WriteTrace(0x0010, v));
    DeviceAddressAliases(0x0010, 0x0000);
    assert StoreRead(d1.store, DeviceCell(0x0000)) == v;
    ReadTraceEffect(d1, 0x0000);
  }

  /** The intended shifter delivers the whole address: the device decodes
      every address as itself, so distinct addresses reach distinct cells. */
  lemma IntendedAddressDecodes(a: bv16, b: bv16)
    ensures WireAddress(IntendedAddressBits(a)) == a
    ensures WireAddress(IntendedAddressBits(a)) == WireAddress(IntendedAddressBits(b)) <==> a == b
  {
    IntendedRoundTrip(a);
    IntendedRoundTrip(b);
  }

  /** With the intended shifter every address of the part reaches its own cell. */
  lemma IntendedCellsDistinct(a: bv16, b: bv16)
    requires a < 0x1000 && b < 0x1000
    ensures ArrayCell(WireAddress(IntendedAddressBits(a))) == Cell(a)
    ensures ArrayCell(WireAddress(IntendedAddressBits(a))) == ArrayCell(WireAddress(IntendedAddressBits(b))) <==> a == b
  {
    IntendedRoundTrip(a);
    IntendedRoundTrip(b);
  }

  lemma IntendedRoundTrip(a: bv16)
    ensures WireAddress(IntendedAddressBits(a)) == a
  {
    var bits := IntendedAddressBits(a);
    IntendedAddressBitsAreBigEndian(a);
    assert bits[..8] == ByteBits(Hi(a));
    assert bits[8..] == ByteBits(Lo(a));
    ByteBitsRoundTrip(Hi(a));
    ByteBitsRoundTrip(Lo(a));
    WordRoundTrip(a);
  }

  /** The WREN bracket sets the write-enable latch and nothing else. */
  lemma WrenEffect(d: Part)
    ensures Run(d, Bracket(ByteBits(WREN))) == d.(bits := [], wel := true)
  {
    BracketEffect(d, ByteBits(WREN));
    ByteBitsRoundTrip(WREN);
    assert ByteBits(WREN)[..8] == ByteBits(WREN);
  }

  /** The WRITE bracket with the latch set stores the data byte at the
      device address of `a` and clears the latch. */
  lemma WriteFrameEffect(d: Part, a: bv16, v: bv8)
    requires d.wel
    ensures Run(d, Bracket(WriteFrame(a, v)))
            == d.(bits := [], wel := false, store := d.store[DeviceCell(a) := v])
  {
    BracketEffect(d, WriteFrame(a, v));
    FrameFields(ByteBits(WRITE), AddressBits(a), ByteBits(v));
    ByteBitsRoundTrip(WRITE);
    ByteBitsRoundTrip(v);
  }

  /** EEProm_Write as the device sees it: whatever the latch was, the data
      byte lands at the device address of `a`; the latch ends clear; no
      reply is produced. */
  lemma WriteTraceEffect(d: Part, a: bv16, v: bv8)
    ensures Run(d, WriteTrace(a, v)) == d.(bits := [], wel := false, store := d.store[DeviceCell(a) := v])
  {
    var d1 := d.(bits := [], wel := true);
    WrenEffect(d);
    WriteFrameEffect(d1, a, v);
    RunConcat(d, Bracket(ByteBits(WREN)), Bracket(WriteFrame(a, v)));
    RunConcat(d, Bracket(ByteBits(WREN)) + Bracket(WriteFrame(a, v)), Ticks(WRITE_DELAY));
    RunTicks(Run(d1, Bracket(WriteFrame(a, v))), WRITE_DELAY);
  }

  /** EEProm_Read as the device sees it: one reply, the byte stored at the
      device address of `a`; the store and the latch are unchanged. */
  lemma ReadTraceEffect(d: Part, a: bv16)
    ensures Run(d, ReadTrace(a)) == d.(bits := [], replies := d.replies + [StoreRead(d.store, DeviceCell(a))])
  {
    ReadTraceRun(d, a);
    CloseReadFrame(d, a);
  }

  /** The READ frame for `a`, once closed, adds the byte at the device cell of
      `a` to the replies and changes nothing else. */
  lemma CloseReadFrame(d: Part, a: bv16)
    ensures Close(d.(bits := ReadFrame(a))) == d.(bits := ReadFrame(a), replies := d.replies + [StoreRead(d.store, DeviceCell(a))])
  {
    FrameFields(ByteBits(READ), AddressBits(a), Repeat(false, 8));
    ByteBitsRoundTrip(READ);
  }

  /** During EEProm_Read the device collects the instruction, the sixteen
      address bits and the eight zeros the receive loop leaves on SI, and
      acts on them when CS goes high. */
  lemma ReadTraceRun(d: Part, a: bv16)
    ensures Run(d, ReadTrace(a)) == Close(d.(bits := ReadFrame(a))).(bits := [])
  {
    FrameRun(d, ByteBits(READ), AddressBits(a), 8);
  }

  /** Running one bracket of two clocked bit strings then `n` receive pulses
      closes the frame of those bits followed by `n` zeros. */
  lemma FrameRun(d: Part, op: seq<bool>, addr: seq<bool>, n: nat)
    ensures Run(d, [Cs(false)] + Clocks(false, op) + Clocks(false, addr) + Pulses(false, false, n) + [Cs(true)])
         == Close(d.(bits := op + addr + Repeat(false, n))).(bits := [])
  {
    var t0 := [Cs(false)];
    var t1 := t0 + Clocks(false, op);
    var t2 := t1 + Clocks(false, addr);
    var t3 := t2 + Pulses(false, false, n);
    assert Run(d, t0) == d.(bits := []) by {
      assert t0[..0] == [];
    }
    RunThenClocks(d, t0, d.(bits := []), op);
    assert [] + op == op;
    RunThenClocks(d, t1, d.(bits := op), addr);
    RunThenPulses(d, t2, d.(bits := op + addr), n);
    RunThenClose(d, t3, d.(bits := op + addr + Repeat(false, n)));
  }

  /** Clock edges with CS low after a trace append their SI levels to the frame it left. */
  lemma RunThenClocks(d: Part, t: seq<BusEvent>, d1: Part, bits: seq<bool>)
    requires Run(d, t) == d1
    ensures Run(d, t + Clocks(false, bits)) == d1.(bits := d1.bits + bits)
  {
    RunConcat(d, t, Clocks(false, bits));
    RunClocks(d1, bits);
  }

  /** Receive pulses after a trace append zeros to the frame it left. */
  lemma RunThenPulses(d: Part, t: seq<BusEvent>, d1: Part, n: nat)
    requires Run(d, t) == d1
    ensures Run(d, t + Pulses(false, false, n)) == d1.(bits := d1.bits + Repeat(false, n))
  {
    RunConcat(d, t, Pulses(false, false, n));
    RunPulses(d1, n);
  }

  /** CS rising after a trace closes the frame it left. */
  lemma RunThenClose(d: Part, t: seq<BusEvent>, d1: Part)
    requires Run(d, t) == d1
    ensures Run(d, t + [Cs(true)]) == Close(d1).(bits := [])
  {
    RunConcat(d, t, [Cs(true)]);
    assert [Cs(true)][..0] == [];
  }

  /** A read returns the last byte written to the same address. */
  lemma ReadAfterWrite(d: Part, a: bv16, v: bv8)
    ensures Run(d, WriteTrace(a, v) + ReadTrace(a)).replies == d.replies + [v]
  {
    RunConcat(d, WriteTrace(a, v), ReadTrace(a));
    WriteTraceEffect(d, a, v);
    var d1 := Run(d, WriteTrace(a, v));
    assert d1.store == d.store[DeviceCell(a) := v] && d1.replies == d.replies;
    ReadTraceEffect(d1, a);
    assert StoreRead(d1.store, DeviceCell(a)) == v;
  }

  lemma TwoReplies(r: seq<bv8>, x: bv8, y: bv8)
    ensures r + [x] + [y] == r + [x, y]
  {
  }

  /** Two writes to different cells: each cell reads back its own byte. */
  lemma TwoCells(store: map<Cell, bv8>, c0: Cell, c1: Cell, x: bv8, y: bv8)
    requires c0 != c1
    ensures StoreRead(store[c0 := x][c1 := y], c0) == x
    ensures StoreRead(store[c0 := x][c1 := y], c1) == y
  {
  }

  /** EEProm_Write_16 as the device sees it: the high byte of `v` lands at
      the cell of `a`, then the low byte at the cell of `a + 1`. */
  lemma Write16Effect(d: Part, a: bv16, v: bv16)
    ensures Run(d, WriteTrace(a, Hi(v)) + WriteTrace(a + 1, Lo(v)))
            == d.(bits := [], wel := false,
                  store := d.store[DeviceCell(a) := Hi(v)][DeviceCell(a + 1) := Lo(v)])
  {
    RunConcat(d, WriteTrace(a, Hi(v)), WriteTrace(a + 1, Lo(v)));
    WriteTraceEffect(d, a, Hi(v));
    WriteTraceEffect(Run(d, WriteTrace(a, Hi(v))), a + 1, Lo(v));
  }

  /** EEProm_Read_16 as the device sees it: two replies, the cell of `a`
      and then the cell of `a + 1`. */
  lemma Read16Effect(d: Part, a: bv16)
    ensures Run(d, ReadTrace(a) + ReadTrace(a + 1))
            == d.(bits := [], replies := d.replies + [StoreRead(d.store, DeviceCell(a))]
                                                   + [StoreRead(d.store, DeviceCell(a + 1))])
  {
    RunConcat(d, ReadTrace(a), ReadTrace(a + 1));
    ReadTraceEffect(d, a);
    ReadTraceEffect(Run(d, ReadTrace(a)), a + 1);
  }

  /** EEProm_Write_16 followed by EEProm_Read_16 at the same address: the
      two replies are the high and the low byte of `v`, and joined as
      EEProm_Read_16 joins them they give back `v`. */
  lemma Write16ThenRead16(d: Part, a: bv16, v: bv16)
    ensures Run(d, WriteTrace(a, Hi(v)) + WriteTrace(a + 1, Lo(v)) + ReadTrace(a) + ReadTrace(a + 1)).replies
            == d.replies + [Hi(v), Lo(v)]
    ensures Word(Hi(v), Lo(v)) == v
  {
    var w := WriteTrace(a, Hi(v)) + WriteTrace(a + 1, Lo(v));
    RunPairs(d, WriteTrace(a, Hi(v)), WriteTrace(a + 1, Lo(v)), ReadTrace(a), ReadTrace(a + 1));
    Write16Effect(d, a, v);
    Read16Effect(Run(d, w), a);
    NextAddressDiffers(a);
    TwoCells(d.store, DeviceCell(a), DeviceCell(a + 1), Hi(v), Lo(v));
    TwoReplies(d.replies, Hi(v), Lo(v));
    WordRoundTrip(v);
  }

  /** Running four traces in turn is running the last two from where the first two left off. */
  lemma RunPairs(d: Part, a: seq<BusEvent>, b: seq<BusEvent>, c: seq<BusEvent>, e: seq<BusEvent>)
    ensures Run(d, a + b + c + e) == Run(Run(d, a + b), c + e)
  {
    assert a + b + c + e == (a + b) + (c + e);
    RunConcat(d, a + b, c + e);
  }

  /** The read that EEProm_Read performs returns the device's reply when
      the SO levels it samples are the reply's bits, MSB first. */
  lemma ReadReturnsReply(input: nat -> bv8, from: nat, reply: bv8)
    requires SoLevels(input, from, 8) == ByteBits(reply)
    ensures Received(input, from, 8) == reply
  {
    ByteBitsRoundTrip(reply);
  }

  /** EEPromInit, sent to a device with no frame in progress, leaves the
      write-enable latch set and the store as it was. */
  lemma InitArmsLatch(d: Part)
    requires d.bits == []
    ensures Run(d, InitTrace()).wel
    ensures Run(d, InitTrace()).store == d.store && Run(d, InitTrace()).replies == d.replies
  {
    RunConcat(d, [Cs(true)], Bracket(ByteBits(WREN)));
    WrenEffect(Run(d, [Cs(true)]));
    assert [Cs(true)][..0] == [];
  }

  /** The device addresses reached by writing to each of `addresses`. */
  function Reached(addresses: seq<bv16>): (cells: set<Cell>)
    ensures forall k :: 0 <= k < |addresses| ==> DeviceCell(addresses[k]) in cells
  {
    set k | 0 <= k < |addresses| :: DeviceCell(addresses[k])
  }

  /** One more address reaches one more cell. */
  lemma ReachedSnoc(addresses: seq<bv16>)
    requires addresses != []
    ensures Reached(addresses)
            == Reached(addresses[..|addresses| - 1]) + {DeviceCell(addresses[|addresses| - 1])}
  {
    var init := addresses[..|addresses| - 1];
    forall c | c in Reached(addresses)
      ensures c in Reached(init) + {DeviceCell(addresses[|addresses| - 1])}
    {
      var k :| 0 <= k < |addresses| && c == DeviceCell(addresses[k]);
      if k < |init| {
        assert addresses[k] == init[k];
      }
    }
    forall c | c in Reached(init)
      ensures c in Reached(addresses)
    {
      var k :| 0 <= k < |init| && c == DeviceCell(init[k]);
      assert init[k] == addresses[k];
    }
  }

  /** Every cell of `cells` reads `v` in `store`, and every other cell reads as in `base`. */
  ghost predicate Filled(store: map<Cell, bv8>, cells: set<Cell>, base: map<Cell, bv8>, v: bv8)
  {
    forall c :: StoreRead(store, c) == if c in cells then v else StoreRead(base, c)
  }

  /** Writing `v` to one more cell fills one more cell. */
  lemma FillStep(store: map<Cell, bv8>, cells: set<Cell>, base: map<Cell, bv8>, v: bv8, cell: Cell)
    requires Filled(store, cells, base, v)
    ensures Filled(store[cell := v], cells + {cell}, base, v)
  {
    forall c
      ensures StoreRead(store[cell := v], c) == if c in cells + {cell} then v else StoreRead(base, c)
    {
      if c != cell {
        assert StoreRead(store[cell := v], c) == StoreRead(store, c);
      }
    }
  }

  /** One EEProm_Write of `v` per address: every cell reached holds `v`,
      every other cell is as it was, the latch ends clear, no replies. */
  lemma {:induction false} WritesEffect(d: Part, addresses: seq<bv16>, v: bv8)
    requires addresses != []
    ensures Run(d, WritesTrace(addresses, v)).wel == false
    ensures Run(d, WritesTrace(addresses, v)).replies == d.replies
    ensures Filled(Run(d, WritesTrace(addresses, v)).store, Reached(addresses), d.store, v)
    decreases |addresses|
  {
    var init := addresses[..|addresses| - 1];
    var last := addresses[|addresses| - 1];
    var d1 := Run(d, WritesTrace(init, v));
    RunConcat(d, WritesTrace(init, v), WriteTrace(last, v));
    WriteTraceEffect(d1, last, v);
    ReachedSnoc(addresses);
    if init == [] {
      assert d1 == d;
      assert Reached(init) == {};
      assert Filled(d.store, {}, d.store, v);
    } else {
      WritesEffect(d, init, v);
    }
    FillStep(d1.store, Reached(init), d.store, v, DeviceCell(last));
  }

  /** EEPromClear as the device sees it: every cell that one of its
      addresses reaches holds 0x00 and nothing else changes in the store. */
  lemma ClearEffect(d: Part)
    ensures Filled(Run(d, WritesTrace(ClearAddresses(), 0)).store, Reached(ClearAddresses()), d.store, 0)
  {
    WritesEffect(d, ClearAddresses(), 0);
  }

  /** Clearing twice reads back as clearing once. */
  lemma ClearIdempotent(d: Part)
    ensures forall c :: StoreRead(Run(Run(d, WritesTrace(ClearAddresses(), 0)), WritesTrace(ClearAddresses(), 0)).store, c)
                        == StoreRead(Run(d, WritesTrace(ClearAddresses(), 0)).store, c)
  {
    var d1 := Run(d, WritesTrace(ClearAddresses(), 0));
    ClearEffect(d);
    ClearEffect(d1);
  }

  /** A whole session at driver level: a fresh port with every line low,
      EEPromInit, one EEProm_Write of `v` at `a`, then one EEProm_Read of
      `a`.  The wire shows the three routines' traces in order; an erased,
      idle part replaying that trace answers the read with `v`; and when
      SO carries that reply, the read returns `v`. */
  method WriteThenReadSession(input: nat -> bv8, a: bv16, v: bv8) returns (got: bv8, ghost trace: seq<BusEvent>)
    ensures trace == InitTrace() + WriteTrace(a, v) + ReadTrace(a)
    ensures Run(Part([], false, map[], []), trace).replies == [v]
    ensures got == Received(input, 0, 8)
    ensures SoLevels(input, 0, 8) == ByteBits(v) ==> got == v
  {
    var port, driver := InitThenWrite(input, a, v);
    SclkEndsLow(Idle(0), ByteBits(v)[7]);
    got := driver.EEPromRead(a);
    trace := port.trace;
    SessionReplies(a, v);
    if SoLevels(input, 0, 8) == ByteBits(v) {
      ReadReturnsReply(input, 0, v);
    }
  }

  /** The first two steps of that session: a fresh port with every line
      low, EEPromInit, then one EEProm_Write of `v` at `a`.  Nothing has
      been read from P2IN yet. */
  method InitThenWrite(input: nat -> bv8, a: bv16, v: bv8) returns (port: Port, driver: Driver)
    ensures fresh(port) && fresh(driver) && driver.port == port
    ensures port.p2in == input && port.samples == 0
    ensures port.trace == InitTrace() + WriteTrace(a, v)
    ensures port.p2out == AfterFrame(Idle(0), ByteBits(v)[7])
  {
    port := new Port(0, 0, input);
    driver := new Driver(port);
    driver.EEPromInit();
    SclkEndsLow(0, false);
    driver.EEPromWrite(a, v);
    assert [] + InitTrace() == InitTrace();
  }

  /** The part's side of that session: init arms the latch, the write
      stores `v`, the read answers with it. */
  lemma SessionReplies(a: bv16, v: bv8)
    ensures Run(Part([], false, map[], []), InitTrace() + WriteTrace(a, v) + ReadTrace(a)).replies == [v]
  {
    var d0 := Part([], false, map[], []);
    RunThenRest(d0, InitTrace(), WriteTrace(a, v), ReadTrace(a));
    InitArmsLatch(d0);
    ReadAfterWrite(Run(d0, InitTrace()), a, v);
  }

  /** Running three traces in turn is running the last two from where the first left off. */
  lemma RunThenRest(d: Part, a: seq<BusEvent>, b: seq<BusEvent>, c: seq<BusEvent>)
    ensures Run(d, a + b + c) == Run(Run(d, a), b + c)
  {
    assert a + b + c == a + (b + c);
    RunConcat(d, a, b + c);
  }
}
