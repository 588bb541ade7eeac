# 25LC320A EEPROM driver, bit-banged SPI framing

This project models the driver for a Microchip 25LC320A serial EEPROM on
an MSP430, in the build that `USE_USCI 0` selects. In that build the
driver toggles port-2 pins to bit-bang SPI. It has three layers:

- **Pins** (`Pins.dfy`): the line masks and constants of `EEProm.h`, and
  one method of `class Port` per `CS_*`, `SI_*`, `SCLK_*` and `SO_PORT`
  macro. `P2OUT` and `P2DIR` are byte fields. `P2IN` is a supplied stream
  of bytes, one per read. The port keeps a ghost trace of the wire:
  - `Cs(high)` for every chip-select drive;
  - `Clock(cs, si)` for every rising SCLK edge, with the CS and SI levels
    at that edge. `SCLK_HIGH` with SCLK already high raises no edge and
    logs nothing;
  - `SoRead(sclk)` for every read of `P2IN`, with the SCLK level at that
    moment. This makes the order of the sampling within a clock pulse
    visible.
- **Driver** (`EEProm.dfy`): `class Driver` holds the globals `EEProm_i`
  and `EEProm_In`. It has one method per routine of `EEProm.c`: the
  8-bit and 16-bit shifters, the 8-bit receiver, and the command framer
  (read, write, 16-bit read and write, clear, init). Each method states:
  - the exact wire trace it appends, as a function of its arguments, for
    either SCLK level on entry. Only `EEPromInit` drives SCLK low before
    its first pulse. The other routines start from the level the caller
    left. If SCLK starts high, their first `SCLK_HIGH` raises no edge, and
    that first clock edge is missing from the trace (`Pins.FromSclk`);
  - the final `P2OUT` and `EEProm_i`;
  - for reads, the byte or word it returns, as a function of the SO
    levels sampled.

  Each loop is proved against that statement with invariants.
- **Device** (`Device.dfy`): an abstract 25LC320A, the datatype `Part`
  (frame bits, write-enable latch, store, replies), that replays the wire
  trace. It collects SI bits while CS is low and acts on the frame when CS
  rises:
  - WREN (0x06) sets the write-enable latch;
  - WRITE (0x02) stores its data byte if the latch is set, then clears it;
  - READ (0x03) answers with the stored byte.

  The part holds 4096 bytes. Only the low twelve bits of the 16-bit wire
  address select a cell. Unwritten cells read 0xFF. The device gives the driver's traces their
  meaning: a read returns the last byte written, and a 16-bit write then
  read gives the word back. `Bits.dfy` holds the bit and byte helpers.

Machine types: `char` is `bv8` and `unsigned int` is `bv16` (the MSP430's
`int` is 16 bits wide). All shifts truncate as the C ones do.

The code misses its evident intent in two places. The model follows the
code; both are listed under "## Findings":

- The 25LC320A's SPI protocol expects a 16-bit address, high byte first.
  The address shift does not send it that way. It sends the low byte MSB
  first, then eight zero bits.
- The comment on the clear (EEProm.c:190-192) says it sets all the data
  to 0x00. The clear never writes address 4095.

## Model

| member | source | states |
|---|---|---|
| Pins.SetMask | EEProm.h:29-41 | `reg \|= mask` sets every bit of the mask and keeps every other bit |
| Pins.ClearMask | EEProm.h:30-42 | `reg &= ~mask` clears every bit of the mask and keeps every other bit |
| Pins.MasksAreDistinctBits | EEProm.h:21-24 | the CS, SO, SCLK and SI masks are single bits, pairwise disjoint |
| Pins.DriveIsLocal | EEProm.h:29-42 | driving one single-bit line sets its level and leaves every disjoint line's level unchanged |
| Pins.SetupIdempotent | EEProm.h:31-40 | a setup macro run twice equals one run, and it never clears a direction bit |
| Pins.Port.CsHigh | EEProm.h:29 | P2OUT gets the CS bit set; the wire shows CS high |
| Pins.Port.CsLow | EEProm.h:30 | P2OUT gets the CS bit cleared; the wire shows CS low |
| Pins.Port.CsSetup | EEProm.h:31 | P2DIR gets the CS bit set |
| Pins.Port.SiSetup | EEProm.h:34 | P2DIR gets the SI bit set |
| Pins.Port.SiHigh | EEProm.h:35 | P2OUT gets the SI bit set |
| Pins.Port.SiLow | EEProm.h:36 | P2OUT gets the SI bit cleared |
| Pins.Port.ReadSoPort | EEProm.h:38 | returns the next value of the P2IN stream and advances it by one; the wire shows one read of P2IN with the SCLK level at that moment |
| Pins.Port.SclkSetup | EEProm.h:40 | P2DIR gets the SCLK bit set |
| Pins.Port.SclkHigh | EEProm.h:41 | P2OUT gets the SCLK bit set; the wire shows one clock edge, with the CS and SI levels at that moment, exactly when SCLK was low before |
| Pins.Port.SclkLow | EEProm.h:42 | P2OUT gets the SCLK bit cleared |
| EEProm.Driver.constructor | EEProm.c:16-17 | `EEProm_i` and `EEProm_In` start at 0 |
| EEProm.Driver.PulseBit | EEProm.c:69-79 | one shifter iteration: SI driven to the bit, one clock edge carrying it (none if it is the first iteration and SCLK was already high), SCLK low again |
| EEProm.Driver.WriteEEProm16Bit | EEProm.c:24-53 | sixteen clock edges carrying `AddressBits(data)`, without the first if SCLK was high on entry; SCLK low on exit; `EEProm_i` = 16 |
| EEProm.AddressBitsLowByte | EEProm.c:37-50 | the 16-bit shift sends the low byte MSB first, then eight zero bits |
| EEProm.AddressPulse | EEProm.c:37-50 | edge k of the 16-bit shift carries bit 7 of `data << k`, which is bit 7-k of the low byte for k < 8 and zero after |
| EEProm.Driver.WriteEEProm8Bit | EEProm.c:60-83 | eight clock edges carrying the byte, without the first if SCLK was high on entry; SCLK low on exit; `EEProm_i` = 8 |
| EEProm.BytePulse | EEProm.c:67-80 | edge k of the 8-bit shift carries bit 7-k of the byte (MSB first) |
| EEProm.Driver.ReceiveBit | EEProm.c:104-111 | one receive iteration: one clock edge (none if it is the first and SCLK was already high), then one P2IN read while SCLK is high, the SO level shifted in as the new bit 0 |
| EEProm.PulsesAt | EEProm.c:106-108 | in the receive trace every P2IN read comes right after a rising edge and while SCLK is high |
| EEProm.Driver.ReadEEProm8Bit | EEProm.c:89-117 | eight pulses, each a clock edge with SI unchanged followed by a P2IN read with SCLK high (the first edge missing if SCLK was high on entry); returns the eight SO levels read, MSB first; `EEProm_In` is the last P2IN value read; SCLK low on exit |
| EEProm.ReceivedBit | EEProm.c:101-114 | bit 7-k of the received byte is the SO level at the k-th read |
| Device.ReadReturnsReply | EEProm.c:101-114 | when the SO levels are the bits of a byte, MSB first, that byte is what is received |
| EEProm.Driver.EEPromRead | EEProm.c:124-134 | one CS bracket holding READ, the address shift and eight receive pulses, from either SCLK level on entry; returns the received byte; CS high and SCLK low on return |
| EEProm.Driver.WriteDelay | EEProm.c:151-155 | exactly `WRITE_DELAY` iterations of the busy-wait |
| EEProm.Driver.SendWriteEnable | EEProm.c:143-145 | one CS bracket holding only WREN; CS high after it |
| EEProm.Driver.SendWriteFrame | EEProm.c:146-150 | one CS bracket holding WRITE, the address shift and the data byte; CS high after it |
| EEProm.Driver.EEPromWrite | EEProm.c:141-156 | the WREN bracket, then the WRITE bracket, then `WRITE_DELAY` delay iterations; CS high on return |
| EEProm.Driver.EEPromWrite16 | EEProm.c:163-170 | a write of `data >> 8` at `address`, then a write of `data & 0xff` at `address + 1` |
| EEProm.Driver.EEPromRead16 | EEProm.c:177-187 | reads at `address` and then `address + 1`; returns the first byte shifted left by 8, OR the second |
| EEProm.Driver.ClearOne | EEProm.c:199 | one clear iteration appends `EEProm_Write(index, 0x00)` |
| EEProm.Driver.EEPromClear | EEProm.c:194-201 | the writes of 0x00 to addresses 0, 1, …, 4094 in increasing order; CS high on return |
| EEProm.ClearSkipsTopAddress | EEProm.c:197 | the clear makes 4095 writes, none of them to address 4095 |
| EEProm.Driver.EEPromInit | EEProm.c:207-218 | sets the SCLK, SI and CS direction bits; CS high, SCLK low; one bracket holding only WREN with all eight edges, whatever SCLK was on entry; CS high on return |
| EEProm.AddressesAlias | EEProm.c:39 | addresses 0x0000 and 0x0100 put the same sixteen bits on the wire |
| EEProm.IntendedAddressBits | EEProm.c:37-50 | the corrected shifter, testing bit 15, sends sixteen bits |
| EEProm.IntendedAddressBitsAreBigEndian | EEProm.c:39 | the corrected shifter sends the high byte and then the low byte, each MSB first |
| EEProm.IntendedClearAddresses | EEProm.c:197 | the corrected clear visits EEPROM_MAX_ADDR + 1 addresses |
| EEProm.IntendedClearCoversAll | EEProm.c:194-201 | the corrected clear visits every address 0 to 4095 at the position of its own number; the clear as written is that sequence without its last entry |
| Device.Close | EEProm.c:124-156 | a closed frame changes the store only when it is a WRITE with the write-enable latch set, and adds at most one reply |
| Device.ArrayCell | EEProm.h:26 | a wire address selects the cell of its low twelve bits, one of 4096; an address below 4096 selects its own cell |
| Device.RunPulses | EEProm.c:104-111 | the receive pulses clock zeros into the device's frame, and the P2IN reads leave the device unchanged |
| Device.DeviceAddressIsLowByteShifted | EEProm.c:37-50 | the device decodes the address shift as a word with the low byte of the address on top and zero below |
| Device.DeviceCellIsLowNibble | EEProm.c:37-50 | as written, the cell reached is the low four bits of the address moved to bits 8 to 11 of the cell index |
| Device.DeviceAddressAliases | EEProm.c:39 | two addresses reach the same cell if and only if their low four bits agree |
| Device.AliasedWrite | EEProm.c:39 | a byte written to 0x0010 is what a read of 0x0000 returns |
| Device.IntendedAddressDecodes | EEProm.c:39 | with the corrected shifter the device decodes every address as itself, so two addresses give the same wire address if and only if they are equal |
| Device.IntendedCellsDistinct | EEProm.c:39 | with the corrected shifter every address below 4096 reaches its own cell, so two such addresses share a cell if and only if they are equal |
| Device.NextAddressDiffers | EEProm.c:168 | `address` and `address + 1` reach different cells |
| Device.WrenEffect | EEProm.c:143-145 | the WREN bracket sets the write-enable latch and changes nothing else |
| Device.WriteFrameEffect | EEProm.c:146-150 | with the latch set, the WRITE bracket stores the data byte at the address's cell and clears the latch |
| Device.WriteTraceEffect | EEProm.c:141-156 | EEProm_Write stores the byte at the address's cell, whatever the latch was; the latch ends clear; no reply |
| Device.ReadTraceEffect | EEProm.c:124-134 | EEProm_Read adds one reply, the byte at the address's cell; store and latch unchanged |
| Device.ReadAfterWrite | EEProm.c:124-156 | a read after a write of v to the same address returns v |
| Device.Write16Effect | EEProm.c:163-170 | the high byte lands at the cell of `address` and the low byte at the cell of `address + 1` |
| Device.Read16Effect | EEProm.c:177-187 | two replies: the byte at the cell of `address`, then the byte at the cell of `address + 1` |
| Device.Write16ThenRead16 | EEProm.c:163-187 | a 16-bit read after a 16-bit write of v at the same address returns the bytes of v, high first, and they reassemble into v |
| Device.InitArmsLatch | EEProm.c:207-218 | from an idle device, init leaves the write-enable latch set and the store and replies unchanged |
| Device.WritesEffect | EEProm.c:197-200 | a run of writes of one byte leaves the latch clear, adds no reply, and fills every reached cell with that byte, leaving all other cells as they were |
| Device.ClearEffect | EEProm.c:194-201 | after the clear, every cell reached by addresses 0 to 4094 reads 0x00 and every other cell is unchanged |
| Device.ClearIdempotent | EEProm.c:194-201 | clearing twice reads back exactly as clearing once |
| Device.ClearedReadsZero | EEProm.c:194-201 | after the clear as written, every address the driver can read, 4095 included, reads 0x00 |
| Device.InitThenWrite | EEProm.c:207-218 | on a fresh port, EEPromInit then EEProm_Write(a, v) (EEProm.c:141-156) put `InitTrace()` then `WriteTrace(a, v)` on the wire, read nothing from P2IN, and leave CS high and SCLK low |
| Device.WriteThenReadSession | EEProm.c:124-156 | a fresh port, EEPromInit (EEProm.c:207-218), EEProm_Write(a, v), EEProm_Read(a): the wire shows the three traces in order; an erased, idle part answers the read with v; the byte returned is the SO levels sampled, and it is v when SO carries that reply |
| Device.SessionReplies | EEProm.c:124-156 | an erased, idle part replaying init (EEProm.c:207-218), a write of v at a and a read of a gives exactly one reply, v |

## Left out

- The `USE_USCI 1` branches (EEProm.c:26-35, 62-65, 91-99) are not modelled. They are compiled out, and the file header calls them non-functional.
- EEProm.Driver.WriteDelay: models the busy-wait as its iteration count (one `DelayTick` per iteration), not as time.
- EEProm.Driver.WriteEEProm16Bit, EEProm.Driver.WriteEEProm8Bit, EEProm.Driver.ReadEEProm8Bit:
  - loop on a local counter and assign the global `EEProm_i` its final value after the loop;
  - no observer exists between iterations.
- `msp430.h` register semantics are not modelled. P2OUT and P2DIR are plain bytes, and P2IN is a supplied stream of values, one per read.
- The plain `char` is treated as unsigned (0..255). Its signedness is implementation-defined. With a signed `char`, the widening at EEProm.c:179-183 would sign-extend bytes of 0x80 and above.
- EEProm.Driver.EEPromRead16: states the result as `Word(first, second)` under the unsigned-`char` assumption above.
- The device model also leaves out two features, because the driver never uses them:
  - the device's sequential read past one byte;
  - its page write of several bytes.
- Device.WriteTraceEffect: a write takes effect when CS rises. The model does not check that `WRITE_DELAY` iterations (EEProm.c:151-155) outlast the part's write cycle, so this lemma, `Device.ReadAfterWrite` and `Device.Write16ThenRead16` hold whatever the delay, 0 included.
- The device model does not drive SO. `P2IN` stays a supplied stream, so a read returns the device's reply only when SO carries the reply's bits, MSB first (the hypothesis of `Device.ReadReturnsReply`).
- Driver helpers that sequence the routines:
  - `PulseBit` is one iteration of a shifter loop. It runs `SI_HIGH` or `SI_LOW`, then `SCLK_HIGH`, then `SCLK_LOW`. The loop's `data << 1` on its local copy, which the source places between `SCLK_HIGH` and `SCLK_LOW` (EEProm.c:47-49, 77-79), moves after `SCLK_LOW`. It touches no pin.
  - `ReceiveBit` is one iteration of the receiver.
  - `SendWriteEnable`, `SendWriteFrame` and `WriteDelay` are the three parts of `EEProm_Write`.
  - `ClearOne` is one iteration of the clear.

  `ReceiveBit`, the three parts of `EEProm_Write` and `ClearOne` run the source's statements in the source's order.
- Sharing the bus with the Nokia 5110 display (EEProm.h:6-8) is an external concern.

## Findings

| source | as written | input that shows it | evidently intended | confidence | as-written member | corrected member |
|---|---|---|---|---|---|---|
| EEProm.c:39 | the 16-bit shifter tests `data & 0x80`, so the wire carries the low byte MSB first and then eight zero bits | addresses 0x0000 and 0x0100 send the same sixteen bits; on the part, which uses the low twelve wire bits, any two addresses with the same low four bits share a cell, so a byte written to 0x0010 reads back from 0x0000 | test `data & 0x8000`, sending the high byte then the low byte | not executed; bit 15 is pointed to by the sixteen-pulse loop, by the protocol's 16-bit address field, and by the USCI branch of the same routine (EEProm.c:27-34), which sends `data >> 8` first and then the low byte | EEProm.AddressesAlias, Device.DeviceAddressAliases, Device.AliasedWrite | EEProm.IntendedAddressBits, EEProm.IntendedAddressBitsAreBigEndian, Device.IntendedAddressDecodes, Device.IntendedCellsDistinct |
| EEProm.c:197, EEProm.h:26 | the clear loops while `index < EEPROM_MAX_ADDR`, with `EEPROM_MAX_ADDR` = 4095 | address 4095 is never written. Through this driver the gap does not show on reads: because of the address aliasing above, 4095 reaches the same cell as 15, which is cleared | loop while `index <= EEPROM_MAX_ADDR`, clearing all 4096 bytes | not executed; the constant's name says it is the last address, and the routine's comment says all the data is cleared | EEProm.ClearSkipsTopAddress, Device.ClearedReadsZero | EEProm.IntendedClearAddresses, EEProm.IntendedClearCoversAll |

The driver methods keep the shifter and the loop bound as written, since
they model the code. The corrected definitions sit beside them with their
intended properties proved.
