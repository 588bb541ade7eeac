/** The pin layer of EEProm.h: port 2 seen as plain byte registers, the
    line masks and constants, and one method per set/clear/setup macro.
    Every macro is a read-modify-write on P2OUT or P2DIR through a
    single-bit mask.  The port also keeps a ghost log of what the SPI
    wire shows: each chip-select drive, each rising edge of SCLK (a set of
    SCLK while it is already high is not an edge and is not logged), and
    each read of P2IN with the SCLK level at that moment. */
module Pins {

  /** Line masks on port 2. */
  const EEPROM_CS: bv8 := 0x40
  const EEPROM_SO: bv8 := 0x80
  const EEPROM_SCLK: bv8 := 0x10
  const EEPROM_SI: bv8 := 0x08

  /** Iterations of the busy-wait after a write. */
  const WRITE_DELAY: int := 2000

  /** Loop limit of the bulk clear. */
  const EEPROM_MAX_ADDR: int := 4095

  /** `reg |= mask` */
  function SetMask(reg: bv8, mask: bv8): (r: bv8)
    ensures r & mask == mask
    ensures r & !mask == reg & !mask
  {
    reg | mask
  }

  /** `reg &= ~mask` */
  function ClearMask(reg: bv8, mask: bv8): (r: bv8)
    ensures r & mask == 0
    ensures r & !mask == reg & !mask
  {
    reg & !mask
  }

  /** The register after driving the line `mask` to `level`. */
  function Drive(reg: bv8, mask: bv8, level: bool): bv8
  {
    if level then SetMask(reg, mask) else ClearMask(reg, mask)
  }

  /** The test `(reg & mask) == mask` that the driver uses for a line level. */
  predicate IsHigh(reg: bv8, mask: bv8)
  {
    reg & mask == mask
  }

  /** A nonzero mask with exactly one bit set. */
  predicate SingleBit(m: bv8)
  {
    m != 0 && m & (m - 1) == 0
  }

  /** The four line masks are single bits, pairwise distinct. */
  lemma MasksAreDistinctBits()
    ensures SingleBit(EEPROM_CS) && SingleBit(EEPROM_SO) && SingleBit(EEPROM_SCLK) && SingleBit(EEPROM_SI)
    ensures EEPROM_CS & EEPROM_SO == 0 && EEPROM_CS & EEPROM_SCLK == 0 && EEPROM_CS & EEPROM_SI == 0
    ensures EEPROM_SO & EEPROM_SCLK == 0 && EEPROM_SO & EEPROM_SI == 0 && EEPROM_SCLK & EEPROM_SI == 0
  {
  }

  /** Driving a single-bit line sets its level and leaves the level of
      every line with a disjoint mask as it was. */
  lemma DriveIsLocal(reg: bv8, m: bv8, level: bool, other: bv8)
    requires SingleBit(m) && m & other == 0
    ensures IsHigh(Drive(reg, m, level), m) == level
    ensures IsHigh(Drive(reg, m, level), other) == IsHigh(reg, other)
  {
  }

  /** A setup macro run twice leaves P2DIR as one run does, and it never
      clears a direction bit. */
  lemma SetupIdempotent(dir: bv8, m: bv8)
    ensures SetMask(SetMask(dir, m), m) == SetMask(dir, m)
    ensures SetMask(dir, m) & dir == dir
  {
  }

  /** What the wire shows: a write of the chip-select line; a rising edge
      of SCLK together with the CS and SI levels at that edge; a read of
      P2IN together with the SCLK level at that moment; `DelayTick` marks
      one iteration of the driver's post-write busy-wait. */
  datatype BusEvent =
    | Cs(high: bool)
    | Clock(csHigh: bool, si: bool)
    | SoRead(sclkHigh: bool)
    | DelayTick

  /** The clock edges that carry `bits` on SI, one per bit, with CS at `cs`. */
  function Clocks(cs: bool, bits: seq<bool>): (t: seq<BusEvent>)
    ensures |t| == |bits|
    decreases |bits|
  {
    if bits == [] then [] else Clocks(cs, bits[..|bits| - 1]) + [Clock(cs, bits[|bits| - 1])]
  }

  lemma {:induction false} ClocksAppend(cs: bool, a: seq<bool>, b: seq<bool>)
    ensures Clocks(cs, a + b) == Clocks(cs, a) + Clocks(cs, b)
    decreases |b|
  {
    if b == [] {
      assert a + b == a;
    } else {
      var b' := b[..|b| - 1];
      assert (a + b)[..|a + b| - 1] == a + b';
      ClocksAppend(cs, a, b');
    }
  }

  /** Edge `k` carries bit `k`. */
  lemma {:induction false} ClocksAt(cs: bool, bits: seq<bool>, k: nat)
    requires k < |bits|
    ensures Clocks(cs, bits)[k] == Clock(cs, bits[k])
    decreases |bits|
  {
    if k < |bits| - 1 {
      ClocksAt(cs, bits[..|bits| - 1], k);
    }
  }

  /** One more bit is one more clock edge. */
  lemma ClocksLast(cs: bool, bits: seq<bool>, b: bool)
    ensures Clocks(cs, bits + [b]) == Clocks(cs, bits) + [Clock(cs, b)]
  {
    assert (bits + [b])[..|bits|] == bits;
  }

  /** A bracket's events, regrouped so that its first shift leads the rest. */
  lemma Regroup(x: BusEvent, a: seq<BusEvent>, b: seq<BusEvent>, c: seq<BusEvent>, y: BusEvent)
    ensures [x] + (a + b + c) + [y] == [x] + (a + (b + c + [y]))
    ensures [x] + a + b + c + [y] == [x] + (a + (b + c + [y]))
  {
  }

  /** The wire trace `t` as it shows when SCLK is already high at its start:
      the first SCLK_HIGH then raises nothing, so the first clock edge of
      `t` is missing.  Chip-select writes and P2IN reads before that edge
      leave SCLK alone and stay. */
  function FromSclk(high: bool, t: seq<BusEvent>): (r: seq<BusEvent>)
    ensures !high ==> r == t
    decreases |t|
  {
    if !high || t == [] then t
    else if t[0].Clock? then t[1..]
    else [t[0]] + FromSclk(high, t[1..])
  }

  /** Once `t` holds a clock edge, what follows it is unaffected. */
  lemma {:induction false} FromSclkAppend(high: bool, t: seq<BusEvent>, rest: seq<BusEvent>, k: nat)
    requires k < |t| && t[k].Clock?
    ensures FromSclk(high, t + rest) == FromSclk(high, t) + rest
    decreases |t|
  {
    if high {
      assert (t + rest)[0] == t[0] && (t + rest)[1..] == t[1..] + rest;
      if !t[0].Clock? {
        FromSclkAppend(high, t[1..], rest, k - 1);
      }
    }
  }

  /** An event that is not a clock edge passes through. */
  lemma FromSclkSkip(high: bool, e: BusEvent, t: seq<BusEvent>)
    requires !e.Clock?
    ensures FromSclk(high, [e] + t) == [e] + FromSclk(high, t)
  {
    assert ([e] + t)[0] == e && ([e] + t)[1..] == t;
  }

  /** A single edge vanishes exactly when SCLK was already high. */
  lemma FromSclkEdge(high: bool, e: BusEvent)
    requires e.Clock?
    ensures FromSclk(high, [e]) == if high then [] else [e]
  {
  }

  /** Two more parts after a first one that holds a clock edge: only the
      first part sees SCLK's starting level. */
  lemma OpenAppend(t: seq<BusEvent>, high: bool, a: seq<BusEvent>, b: seq<BusEvent>, c: seq<BusEvent>)
    requires |a| > 1 && a[1].Clock?
    ensures t + FromSclk(high, a) + b + c == t + FromSclk(high, a + b + c)
  {
    var f := FromSclk(high, a);
    FromSclkAppend(high, a, b + c, 1);
    assert a + b + c == a + (b + c);
    assert t + f + b + c == t + (f + (b + c));
  }

  /** One more part after the ones so far: it sees SCLK's starting level
      only when it is the first, because every earlier part holds a clock
      edge. */
  lemma ExtendOpen(t: seq<BusEvent>, high: bool, done: seq<BusEvent>, next: seq<BusEvent>)
    requires done != [] ==> |done| > 1 && done[1].Clock?
    ensures t + FromSclk(high, done) + FromSclk(high && done == [], next) == t + FromSclk(high, done + next)
  {
    if done == [] {
      assert done + next == next;
    } else {
      FromSclkAppend(high, done, next, 1);
      assert t + FromSclk(high, done) + next == t + (FromSclk(high, done) + next);
    }
  }

  /** A chip-select bracket whose first shift starts with a clock edge:
      only that shift sees SCLK's starting level. */
  lemma OpenFrame(t: seq<BusEvent>, high: bool, x: BusEvent, lead: seq<BusEvent>, b: seq<BusEvent>, c: seq<BusEvent>, y: BusEvent)
    requires !x.Clock? && lead != [] && lead[0].Clock?
    ensures t + [x] + FromSclk(high, lead) + b + c + [y] == t + FromSclk(high, [x] + lead + b + c + [y])
  {
    var rest := b + c + [y];
    var f := FromSclk(high, lead);
    Regroup(x, lead, b, c, y);
    FromSclkSkip(high, x, lead + rest);
    FromSclkAppend(high, lead, rest, 0);
    Regroup(x, f, b, c, y);
    assert t + [x] + f + b + c + [y] == t + ([x] + f + b + c + [y]);
  }

  /** Port 2 of the microcontroller: P2OUT and P2DIR as bytes, P2IN as the
      sequence of values its successive reads return. */
  class Port {
    var p2out: bv8
    var p2dir: bv8
    /** `p2in(n)` is the value of P2IN at its `n`-th read. */
    const p2in: nat -> bv8
    /** How many times P2IN has been read. */
    var samples: nat
    ghost var trace: seq<BusEvent>

    constructor (out: bv8, dir: bv8, input: nat -> bv8)
      ensures p2out == out && p2dir == dir && p2in == input
      ensures samples == 0 && trace == []
    {
      p2out, p2dir, p2in, samples := out, dir, input, 0;
      trace := [];
    }

    /** CS_HIGH */
    method CsHigh()
      modifies this`p2out, this`trace
      ensures p2out == SetMask(old(p2out), EEPROM_CS)
      ensures trace == old(trace) + [Cs(true)]
    {
      p2out := p2out | EEPROM_CS;
      trace := trace + [Cs(true)];
    }

    /** CS_LOW */
    method CsLow()
      modifies this`p2out, this`trace
      ensures p2out == ClearMask(old(p2out), EEPROM_CS)
      ensures trace == old(trace) + [Cs(false)]
    {
      p2out := p2out & !EEPROM_CS;
      trace := trace + [Cs(false)];
    }

    /** CS_SETUP */
    method CsSetup()
      modifies this`p2dir
      ensures p2dir == SetMask(old(p2dir), EEPROM_CS)
    {
      p2dir := p2dir | EEPROM_CS;
    }

    /** SI_SETUP */
    method SiSetup()
      modifies this`p2dir
      ensures p2dir == SetMask(old(p2dir), EEPROM_SI)
    {
      p2dir := p2dir | EEPROM_SI;
    }

    /** SI_HIGH */
    method SiHigh()
      modifies this`p2out
      ensures p2out == SetMask(old(p2out), EEPROM_SI)
    {
      p2out := p2out | EEPROM_SI;
    }

    /** SI_LOW */
    method SiLow()
      modifies this`p2out
      ensures p2out == ClearMask(old(p2out), EEPROM_SI)
    {
      p2out := p2out & !EEPROM_SI;
    }

    /** SCLK_SETUP */
    method SclkSetup()
      modifies this`p2dir
      ensures p2dir == SetMask(old(p2dir), EEPROM_SCLK)
    {
      p2dir := p2dir | EEPROM_SCLK;
    }

    /** SCLK_HIGH: a rising edge, at which the device samples SI, when SCLK
        was low; nothing shows on the wire when it was already high. */
    method SclkHigh()
      modifies this`p2out, this`trace
      ensures p2out == SetMask(old(p2out), EEPROM_SCLK)
      ensures trace == old(trace) + if IsHigh(old(p2out), EEPROM_SCLK) then []
                                    else [Clock(IsHigh(old(p2out), EEPROM_CS), IsHigh(old(p2out), EEPROM_SI))]
    {
      if !IsHigh(p2out, EEPROM_SCLK) {
        trace := trace + [Clock(IsHigh(p2out, EEPROM_CS), IsHigh(p2out, EEPROM_SI))];
      }
      p2out := p2out | EEPROM_SCLK;
    }

    /** SCLK_LOW */
    method SclkLow()
      modifies this`p2out
      ensures p2out == ClearMask(old(p2out), EEPROM_SCLK)
    {
      p2out := p2out & !EEPROM_SCLK;
    }

    /** SO_PORT: one read of P2IN, logged with the SCLK level at that moment. */
    method ReadSoPort() returns (v: bv8)
      modifies this`samples, this`trace
      ensures v == p2in(old(samples)) && samples == old(samples) + 1
      ensures trace == old(trace) + [SoRead(IsHigh(p2out, EEPROM_SCLK))]
    {
      v := p2in(samples);
      samples := samples + 1;
      trace := trace + [SoRead(IsHigh(p2out, EEPROM_SCLK))];
    }
  }
}
