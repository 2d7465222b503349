# Six MAME register machines, modelled in Dafny

This project models the register-level behaviour of six MAME drivers and
devices. Every one of them is a small machine driven by `read(offset)` and
`write(offset, data[, mask])` calls against a handful of fields:

- **NEC PC-9801 / PC-9821** (`pc9801.cpp`). It covers:
  - DMA page latches and the page auto-increment that happens at the end of a block;
  - the A20 gate and its readback, and the EMS ROM/VRAM bank selection;
  - the GRCG tile latch, the EGC register file and its pattern derivation;
  - the extended video flip-flops, including the PC-9821 protection rule;
  - the 16- and 256-colour palette overlays, and the 256-colour GVRAM redirection;
  - the access-control and window-bank registers, the banked SDIP memory and the ext2 readback;
  - IDE channel selection and the IRQ merge, PIC selection and the RTC pin split;
  - FDC and SASI control edges, and the mouse latch and interrupt divider;
  - the per-generation reset defaults;
  - the four I/O address maps as ordered range tables with byte lanes.
- **Elektronika MS 0515** (`ms0515.cpp`). It covers the RAM bank resolver with its video-RAM overlay, the priority encoder for the interrupt lines, the halt register, the system ports and the reset.
- **Monkey King 3B SoC** (`monkey_king_3b.cpp`). It covers:
  - the masked 32-bit register files and the framebuffer alias into SDRAM;
  - the timer control register and the fixed status reads;
  - the debug UART's line buffer;
  - the boot stub written at reset, and the in-place swap of the two halves of the ROM.
- **Zexall** (`zexall.cpp`). It covers the req/ack output handshake, in which a poll of the ack cell delivers one byte to the terminal whenever `req` changed.
- **VTxx APU** (`nes_vt_apu.cpp`). It covers the address decode across the base APU, the secondary APU and the extended registers, the mode-dependent masking of register 0x15, and the mixer clamp.
- **Electron Sound Expansion v3** (`sndexp3.cpp`). It covers the ROM/RAM window gated by three select lines, and the sound latch sent on a rising edge of the enable bit.

Some calls go into devices outside these files: the PIC, the CPU input
lines, floppy drives, the SN76489, the base NES APU, the terminal and the
beeper. None of these is modelled. Each call a handler makes is returned as
an *effect* value, in the order the source makes it. A value a handler reads
from such a device becomes a parameter: an input port, the vblank bit, a
drive's ready line, or the base APU's register value.

Each file is modelled in the form the source uses:
- A handler that only computes becomes a function. Its contract states what
  the handler promises.
- State that the source updates in place becomes a Dafny class: `Zexall.ZexallState`,
  `SoundExpansion.Sndexp3`, `VtApu.NesapuVt`, `Ms0515.Ms0515State`,
  `MonkeyKing.Mk3bSoc` and `Pc98Machine.Pc9801`. Each method's `ensures`
  gives the new state in terms of those functions.
- The loops of the source stay loops, each with its invariants: the text-VRAM
  clear and the FDC BIOS copies in the PC-98 reset, the ROM half swap,
  and the mixer.

Modules and files:

| file | module | models |
|---|---|---|
| bits.dfy | Bits | masked merges (`COMBINE_DATA`), bit reversal (`bitswap`), byte increment |
| zexall.dfy | Zexall | `zexall.cpp` |
| sndexp3.dfy | SoundExpansion | `sndexp3.cpp` |
| nes_vt_apu.dfy | VtApu | `nes_vt_apu.cpp` |
| ms0515.dfy | Ms0515 | `ms0515.cpp` |
| monkey_king_3b.dfy | MonkeyKing | `monkey_king_3b.cpp` |
| pc98_bus.dfy | Pc98Bus | the effect values and handler results shared by the PC-98 modules |
| pc98_dma.dfy | Pc98Dma | DMA page and auto-increment logic |
| pc98_system.dfy | Pc98System | A20, banks, access control, window bank, SDIP, ext2, IDE, PIC, RTC, FDC, SASI |
| pc98_video.dfy | Pc98Video | GRCG, EGC, video flip-flops, palettes, GVRAM windows |
| pc98_mouse.dfy | Pc98Mouse | the mouse PPI latch and the interrupt divider |
| pc98_maps.dfy | Pc98Maps | the I/O address maps |
| pc98_machine.dfy | Pc98Machine | the driver state as a class, its resets and handler methods |

Assumptions taken from outside the source file:
- `includes/pc9801.h` is not part of this model, so some constants and array
  sizes are assumed:
  - `m_ex_video_ff` has 128 entries, which is what its index `(data & 0xfe) >> 1` can reach;
  - index `ANALOG_16_MODE` is 0, `ANALOG_256_MODE` is 0x10 and `GDC_IS_5MHz` is 0x42;
  - the 16-colour palette has 16 entries per component and the 256-colour palette 256;
  - the mouse latches are bytes.
- `m_sys_type` is 0 on the PC-9801F and 2 from the RS on, as `machine_start`
  computes it at pc9801.cpp:2064 and 2071.
- Address-map precedence: where two ranges of a table serve the same port,
  lane and direction, the range listed first wins. A table's own ranges
  come before those it imports with `AM_IMPORT_FROM`. This is what makes
  `grcg_r` at pc9801.cpp:1103 override `txt_scrl_r` at pc9801.cpp:699.
- Read and write handlers are looked up separately. A range with only a
  write handler does not hide another range's reads.

## Model

| member | source | states |
|---|---|---|
| Bits.Inc8 | src/mame/drivers/zexall.cpp:102 | the byte increment wraps 255 to 0 and otherwise adds one |
| Bits.Combine16 | src/mame/drivers/ms0515.cpp:229-232 | COMBINE_DATA on 16 bits: the masked bits come from the data, the other bits keep their old value |
| Bits.Combine16Unique | src/mame/drivers/ms0515.cpp:231 | any word that agrees with the data under the mask and with the old value outside it is the merged word |
| Bits.Combine32 | src/mame/drivers/monkey_king_3b.cpp:404 | the 32-bit masked merge takes the masked bits from the data and keeps the rest |
| Bits.Combine32Unique | src/mame/drivers/monkey_king_3b.cpp:374-375 | the 32-bit merge is the only word with those two properties |
| Bits.Combine32Extremes | src/mame/drivers/monkey_king_3b.cpp:404 | a full mask writes the data outright and an empty mask changes nothing |
| Bits.Reverse8 | src/mame/drivers/pc9801.cpp:858 | bitswap<8>(0..7) moves bit i of the byte to bit 7-i |
| Bits.Reverse8Involution | src/mame/drivers/pc9801.cpp:858 | reversing a byte twice gives it back |
| Bits.Reverse16Bytes | src/mame/drivers/pc9801.cpp:1061-1083 | the GRCG window's bitswap<16> reverses the bits inside each byte and leaves the bytes in place |
| Bits.Reverse16BytesInvolution | src/mame/drivers/pc9801.cpp:1061-1083 | a word written through the GRCG window and read back through it comes out unchanged |
| Zexall.AckRead | src/mame/drivers/zexall.cpp:95-105 | the ack poll sends the data byte exactly when req differs from req_last, and then increments ack mod 256 and clears the pending state; otherwise it sends nothing and changes nothing; it returns the new ack |
| Zexall.AckWrite | src/mame/drivers/zexall.cpp:107-110 | the ack write replaces ack and leaves the other latches alone |
| Zexall.ReqRead | src/mame/drivers/zexall.cpp:112-115 | the req read differs from req_last exactly when a byte is pending |
| Zexall.ReqWrite | src/mame/drivers/zexall.cpp:117-121 | req_last takes the old req and req takes the data, so a byte is pending exactly when the new req differs from the old one |
| Zexall.DataRead | src/mame/drivers/zexall.cpp:123-126 | while a byte is pending, the data read is the byte the next ack poll sends |
| Zexall.DataWrite | src/mame/drivers/zexall.cpp:128-131 | the data write replaces data and nothing else |
| Zexall.AckReadSettles | src/mame/drivers/zexall.cpp:98-104 | a second poll with no new request sends nothing and changes nothing, so polls after the first are idempotent |
| Zexall.LatchRoundTrips | src/mame/drivers/zexall.cpp:107-131 | req and data read back what was written; ack reads back what was written unless a byte was pending |
| Zexall.ResetQuiet | src/mame/drivers/zexall.cpp:77-84 | after reset nothing is pending, a poll returns 0 and sends nothing, and req and data read 0 |
| Zexall.SendByteDelivers | src/mame/drivers/zexall.cpp:95-131 | one store-data, bump-req, poll handshake delivers exactly that byte, once, and returns the old ack plus one |
| Zexall.TransmitExact | src/mame/drivers/zexall.cpp:95-131 | a message sent byte by byte reaches the terminal exactly and in order, and ack advances by its length mod 256 |
| Zexall.ZexallState.constructor | src/mame/drivers/zexall.cpp:77-81 | a new driver has 64 KiB of RAM and zeroed latches |
| Zexall.ZexallState.MachineReset | src/mame/drivers/zexall.cpp:77-84 | reset zeroes the four latches and copies the program image into RAM |
| Zexall.ZexallState.OutputAckRead | src/mame/drivers/zexall.cpp:95-105 | the method's new latches, returned value and sent bytes are those of AckRead |
| Zexall.ZexallState.OutputReqWrite | src/mame/drivers/zexall.cpp:117-121 | the method's new latches are those of ReqWrite |
| Zexall.ZexallState.MemRead | src/mame/drivers/zexall.cpp:138-143 | a program-space read at 0xFFFD, 0xFFFE or 0xFFFF goes to the ack, req or data handler, and any lower address reads RAM and changes nothing |
| Zexall.ZexallState.MemWrite | src/mame/drivers/zexall.cpp:138-143 | a program-space write at 0xFFFD, 0xFFFE or 0xFFFF goes to the matching handler and leaves RAM alone; any lower address writes exactly that RAM cell |
| SoundExpansion.Initial | src/devices/bus/electron/cart/sndexp3.cpp:45-46 | a new cartridge has latch 0 and enable 0 |
| SoundExpansion.Read | src/devices/bus/electron/cart/sndexp3.cpp:64-81 | a read returns 0xff unless infc and infd are low and romqa is high; inside that window, offsets below 0x2000 read ROM and higher offsets read RAM at offset mod 0x2000 |
| SoundExpansion.Write | src/devices/bus/electron/cart/sndexp3.cpp:87-113 | under infc, low byte 0x98 stores the latch and 0x99 stores enable bit 0, sending the latch to the chip only on a 0-to-1 edge of that bit; inside the read window, offsets from 0x2000 write RAM; ROM never changes |
| SoundExpansion.RamRoundTrip | src/devices/bus/electron/cart/sndexp3.cpp:106-112 | a RAM write is read back at every offset that aliases it |
| SoundExpansion.RomReadOnly | src/devices/bus/electron/cart/sndexp3.cpp:106-112 | no write of any kind changes what the ROM half reads |
| SoundExpansion.SoundOnlyFromPageFC | src/devices/bus/electron/cart/sndexp3.cpp:89-104 | without infc no write reaches the sound chip |
| SoundExpansion.LatchThenEnable | src/devices/bus/electron/cart/sndexp3.cpp:93-101 | storing a byte at 0x98, clearing enable at 0x99 and then setting it sends exactly that byte, and setting it again while it is set sends nothing |
| SoundExpansion.Sndexp3.constructor | src/devices/bus/electron/cart/sndexp3.cpp:41-48 | construction gives latch 0, enable 0, fresh RAM and the given ROM |
| SoundExpansion.Sndexp3.ReadByte | src/devices/bus/electron/cart/sndexp3.cpp:64-81 | the method returns what Read gives for the current state |
| SoundExpansion.Sndexp3.WriteByte | src/devices/bus/electron/cart/sndexp3.cpp:87-113 | the method's new state and sound writes are those of Write |
| VtApu.VtRead | src/devices/sound/nes_vt_apu.cpp:116-133 | 0x30-0x36 read the extra registers and 0x10-0x13 the VT03 PCM registers; 0x15 reads the base status, masked to 0x4F with the VT03 enable at bit 4 in VT03 mode; anything else reads 0 |
| VtApu.Read | src/devices/sound/nes_vt_apu.cpp:137-154 | 0x00-0x0F read the base APU; 0x10-0x13 read the base APU, or the VT03 registers in VT03 mode; 0x20-0x2F read the secondary APU at address minus 0x20; 0x15 and 0x30-0x36 go to VtRead; 0x14 and every other address read 0 |
| VtApu.VtWrite | src/devices/sound/nes_vt_apu.cpp:97-114 | 0x35 with VT3x PCM off forwards data&0x0F to secondary register 0x15 and stores nothing; otherwise 0x30-0x36 store the extra register; 0x15 goes to the base APU, masked to the low nibble iff a PCM mode is on; every write ends with the register-write notification |
| VtApu.Write | src/devices/sound/nes_vt_apu.cpp:156-173 | 0x00-0x0F go to the base APU; 0x10-0x13 take the extended path iff a PCM mode is on and otherwise go to the base APU; 0x20-0x2F go to the secondary APU; 0x15 and 0x30-0x36 go to VtWrite; every other address is dropped |
| VtApu.ExtraRegRoundTrip | src/devices/sound/nes_vt_apu.cpp:99-104 | an extra register reads back what was written, except 0x35 while VT3x PCM is off, which keeps its old value |
| VtApu.WriteFrame | src/devices/sound/nes_vt_apu.cpp:97-114 | a write changes no extra register other than its own and no mode flag |
| VtApu.StatusInVt03Mode | src/devices/sound/nes_vt_apu.cpp:122-128 | in VT03 mode register 0x15 reads (base & 0x4F) with the VT03 enable at bit 4 |
| VtApu.DmcMaskedUnderPcm | src/devices/sound/nes_vt_apu.cpp:105-111 | with a PCM mode on, what register 0x15 passes to the base APU has its high nibble clear |
| VtApu.Asr8 | src/devices/sound/nes_vt_apu.cpp:80-81 | the right shift by 8 floors: the result times 256 is at most the sample and the next multiple is above it |
| VtApu.Clamp8 | src/devices/sound/nes_vt_apu.cpp:86-90 | the clamp returns values in -128..127 unchanged and saturates the rest at the nearer bound |
| VtApu.MixSample | src/devices/sound/nes_vt_apu.cpp:77-92 | a mixed sample is a multiple of 256 between -32768 and 32512; a sum within 8 bits comes out as the sum times 256, and the top value 32512 comes out exactly when the sum reaches 127 |
| VtApu.MixSampleRange | src/devices/sound/nes_vt_apu.cpp:77-92 | every mixed sample is a multiple of 256 between -32768 and 32512 |
| VtApu.MixSilence | src/devices/sound/nes_vt_apu.cpp:77-92 | five silent inputs mix to silence |
| VtApu.Clamp8Monotone | src/devices/sound/nes_vt_apu.cpp:86-90 | the clamp never reverses the order of two sums |
| VtApu.MixSampleMonotone | src/devices/sound/nes_vt_apu.cpp:77-92 | raising the VT03 PCM input never lowers the mixed sample |
| VtApu.Mixed | src/devices/sound/nes_vt_apu.cpp:77-94 | the mixed stream has one sample per input sample |
| VtApu.MixInto | src/devices/sound/nes_vt_apu.cpp:75-94 | the mixing loop fills the output buffer with exactly the mixed stream |
| VtApu.NesapuVt.constructor | src/devices/sound/nes_vt_apu.cpp:15-49 | a new device has fresh, well-formed register arrays holding the saved VT state: both PCM mode flags off, the extra registers and the VT03 PCM registers zero, the VT03 channel disabled |
| VtApu.NesapuVt.ReadReg | src/devices/sound/nes_vt_apu.cpp:137-154 | the method returns what Read gives for the current state |
| VtApu.NesapuVt.WriteReg | src/devices/sound/nes_vt_apu.cpp:156-173 | the method's new state and effects are those of Write |
| Ms0515.BankBase | src/mame/drivers/ms0515.cpp:185-222 | with bit 7 clear, window i is at i*0o20000 plus 0o160000 when bit i is set; with bit 7 set, the pair chosen by bits 10-11 moves to 0o340000 and 0o360000 and every other window keeps its per-bit base |
| Ms0515.Banks | src/mame/drivers/ms0515.cpp:195-221 | the seven window bases are those of BankBase |
| Ms0515.Page6NeverOverlaid | src/mame/drivers/ms0515.cpp:201-221 | window 6 always has its per-bit base |
| Ms0515.OverlaySel2And3Agree | src/mame/drivers/ms0515.cpp:215-219 | overlay selections 2 and 3 give the same mapping |
| Ms0515.BankBitIsolated | src/mame/drivers/ms0515.cpp:195-201 | with bit 7 clear, flipping bit i moves window i and no other window |
| Ms0515.PagesDisjoint | src/mame/drivers/ms0515.cpp:195-221 | two different windows never map to the same base, with or without the video window |
| Ms0515.HighestPending | src/mame/drivers/ms0515.cpp:468-472 | the descending scan stops at the highest pending line at or below its start, and at 0 when there is none |
| Ms0515.Priority | src/mame/drivers/ms0515.cpp:468-472 | the encoded level is a pending line with no pending line above it, or 0 |
| Ms0515.AboveClear | src/mame/drivers/ms0515.cpp:468-472 | no line above the encoded level is pending |
| Ms0515.PriorityUnique | src/mame/drivers/ms0515.cpp:468-472 | a pending line with nothing pending above it is the encoded level |
| Ms0515.PriorityZero | src/mame/drivers/ms0515.cpp:468-472 | the level is 0 exactly when no line from 1 to 15 is pending |
| Ms0515.ScanLevel | src/mame/drivers/ms0515.cpp:468-472 | the loop from line 15 down to line 1 ends on the encoded level of the request mask |
| Ms0515.UpdateIrqs | src/mame/drivers/ms0515.cpp:463-466 | the new mask has bit irq equal to the line state and every other bit unchanged |
| Ms0515.AssertRaisesLevel | src/mame/drivers/ms0515.cpp:461-477 | asserting line n raises the level to n when n is above it and otherwise keeps it |
| Ms0515.ClearOtherKeepsLevel | src/mame/drivers/ms0515.cpp:461-477 | clearing a line other than the current level keeps the level |
| Ms0515.ClearTopLowersLevel | src/mame/drivers/ms0515.cpp:461-477 | clearing the line at the current level lowers the level |
| Ms0515.LinesFor | src/mame/drivers/ms0515.cpp:473-476 | the four CPU lines carry the bits of the level |
| Ms0515.PortAEffects | src/mame/drivers/ms0515.cpp:250-285 | port A sets the two LEDs from bits 5 and 4; a selected drive is given to the FDC with side from inverted bit 3 and motor-off from bit 2, and no other drive's motor is touched; with none selected both drives get motor-off |
| Ms0515.SelectedDrive | src/mame/drivers/ms0515.cpp:257-269 | bits 1-0 select a drive exactly when bit 1 is clear, and drive 1 exactly when they are 01 |
| Ms0515.PortBValue | src/mame/drivers/ms0515.cpp:295-310 | port B reads intrq at bit 0 and drq at bit 1; bit 2 is set when a drive is selected and not ready; bits 3-7 are 0 |
| Ms0515.PortCEffects | src/mame/drivers/ms0515.cpp:321-329 | port C drives PIT gate 2 from bit 7 and LED 17 from bit 4, and nothing else |
| Ms0515.PortCOnlyBits7And4 | src/mame/drivers/ms0515.cpp:313-329 | two port C values that agree in bits 7 and 4 have the same effects, so the resolution and overscan bits are only stored |
| Ms0515.Ms0515State.constructor | src/mame/drivers/ms0515.cpp:348-358 | a new machine has the bank, interrupt and halt registers cleared and no drive selected |
| Ms0515.Ms0515State.IrqEncoder | src/mame/drivers/ms0515.cpp:461-477 | the mask has exactly bit irq updated and the CPU lines show the new level |
| Ms0515.Ms0515State.BankWrite | src/mame/drivers/ms0515.cpp:185-222 | the register stores the data verbatim and the windows become Banks(data); line 2 is driven, asserted iff bit 8 is set, only when bit 8 changed |
| Ms0515.Ms0515State.HaltRead | src/mame/drivers/ms0515.cpp:224-227 | the halt read returns the stored register |
| Ms0515.Ms0515State.HaltWrite | src/mame/drivers/ms0515.cpp:229-232 | the halt write merges only the masked bits |
| Ms0515.Ms0515State.PortAWrite | src/mame/drivers/ms0515.cpp:250-285 | data&3 of 0 selects drive 0, 1 selects drive 1, and 2 or 3 selects none; sysrega stores the data |
| Ms0515.Ms0515State.PortBRead | src/mame/drivers/ms0515.cpp:295-310 | the method returns PortBValue for the selected drive |
| Ms0515.Ms0515State.PortCWrite | src/mame/drivers/ms0515.cpp:321-329 | sysregc stores the data and the PIT gate and LED follow bits 7 and 4 |
| Ms0515.Ms0515State.ScreenVblank | src/mame/drivers/ms0515.cpp:432-437 | the vblank line reaches interrupt line 11 only while bank-register bit 9 is set |
| Ms0515.Ms0515State.IrqLine | src/mame/drivers/ms0515.cpp:492-515 | each of interrupt lines 2, 5, 8, 9 and 11 updates its own bit and re-encodes |
| Ms0515.Ms0515State.MachineReset | src/mame/drivers/ms0515.cpp:348-358 | reset writes 0 to the bank register, which gives the identity mapping, points video RAM at 0o340000, and clears blink, halt and interrupts and the drive selection; line 2 is dropped through the encoder exactly when bit 8 of the old register was set, and then the CPU lines show the level without it |
| Ms0515.ResetIdentityMapping | src/mame/drivers/ms0515.cpp:351 | bank value 0 maps window i at i*0o20000 |
| MonkeyKing.Io4Read | src/mame/drivers/monkey_king_3b.cpp:304-320 | the reads return 0x55 at 0x00, vblank at bits 27 and 0 at 0x01, 0x44444444 at 0x80, 0x04000000 at 0x82, and 0 elsewhere |
| MonkeyKing.Io10Read | src/mame/drivers/monkey_king_3b.cpp:407-421 | the reads return 0xFFFFFFFF at 0x008, the inverted vblank at 0x148 and 0x149, and 0 elsewhere |
| MonkeyKing.VideoSizeFields | src/mame/drivers/monkey_king_3b.cpp:381-383 | the upper 16 bits pass through unchanged and the low 15 bits are doubled |
| MonkeyKing.Io7Read | src/mame/drivers/monkey_king_3b.cpp:378-399 | 0x21 reads the video size, 0x12 the vblank as 0xFF or 0, 0x00, 0x01 and 0x1E the input port, and any other offset the stored word |
| MonkeyKing.SdramRead | src/mame/drivers/monkey_king_3b.cpp:423-432 | byte address 0xF03AF0 reads 0 and every other word reads the stored SDRAM word |
| MonkeyKing.Io4Write | src/mame/drivers/monkey_king_3b.cpp:322-355 | at 0x41 the period becomes data&0xFFFF only if the mask touches the low 16 bits, and enable becomes bit 23 only if the mask touches bits 16-23, arming or stopping the timer; at 0x82 bit 26 clears the IRQ and re-arms an enabled timer; other offsets do nothing |
| MonkeyKing.TimerPeriodSixteenBits | src/mame/drivers/monkey_king_3b.cpp:327-328 | the stored period never exceeds 0xFFFF |
| MonkeyKing.TimerWriteLanes | src/mame/drivers/monkey_king_3b.cpp:325-340 | a low-half write changes only the period, and a write to bits 16-23 with bit 23 set only enables and arms the timer |
| MonkeyKing.UartChar | src/mame/drivers/monkey_king_3b.cpp:439-447 | a newline emits and clears the buffer, a carriage return is dropped, and any other character is appended |
| MonkeyKing.UartWrite | src/mame/drivers/monkey_king_3b.cpp:438-439 | the character is the low byte of the written word |
| MonkeyKing.DropCR | src/mame/drivers/monkey_king_3b.cpp:444-446 | the kept text has no carriage return and gains no newline |
| MonkeyKing.FeedPartial | src/mame/drivers/monkey_king_3b.cpp:438-447 | text with no newline is buffered without its carriage returns and nothing is emitted |
| MonkeyKing.FeedNewline | src/mame/drivers/monkey_king_3b.cpp:438-447 | a line ended by a newline is emitted whole, buffered text first, and leaves the buffer empty |
| MonkeyKing.SwapHalves | src/mame/drivers/monkey_king_3b.cpp:454-462 | byte k and byte k + size/2 trade places for every k below size/2, and an odd last byte stays |
| MonkeyKing.SwapHalvesInvolution | src/mame/drivers/monkey_king_3b.cpp:454-462 | fixing the image up twice restores it |
| MonkeyKing.InitRs70 | src/mame/drivers/monkey_king_3b.cpp:454-462 | the in-place swap loop leaves the buffer equal to SwapHalves of its old contents |
| MonkeyKing.Mk3bSoc.constructor | src/mame/drivers/monkey_king_3b.cpp:265-266 | a new SoC has fresh register, SDRAM and internal RAM arrays, a stopped timer and an empty UART buffer |
| MonkeyKing.Mk3bSoc.MachineReset | src/mame/drivers/monkey_king_3b.cpp:257-267 | reset writes the three-word boot stub at the start of internal RAM, keeps the rest, and zeroes and disables the timer |
| MonkeyKing.Mk3bSoc.Io4W | src/mame/drivers/monkey_king_3b.cpp:322-355 | the method's new timer state and effects are those of Io4Write |
| MonkeyKing.Mk3bSoc.Io6R | src/mame/drivers/monkey_king_3b.cpp:367-370 | the framebuffer window reads SDRAM word offset + 0x200000 |
| MonkeyKing.Mk3bSoc.Io6W | src/mame/drivers/monkey_king_3b.cpp:372-376 | the framebuffer write merges the masked bits into that SDRAM word and changes no other word |
| MonkeyKing.Mk3bSoc.Io7R | src/mame/drivers/monkey_king_3b.cpp:378-399 | the method returns Io7Read of the register file |
| MonkeyKing.Mk3bSoc.Io7W | src/mame/drivers/monkey_king_3b.cpp:401-405 | the write replaces exactly the masked bits of one register and changes no other |
| MonkeyKing.Mk3bSoc.SdramR | src/mame/drivers/monkey_king_3b.cpp:423-432 | the method returns SdramRead of the SDRAM contents |
| MonkeyKing.Mk3bSoc.Io10W | src/mame/drivers/monkey_king_3b.cpp:435-452 | a write at 0x148 feeds one character to the UART and other offsets change nothing |
| MonkeyKing.Io7WriteThenRead | src/mame/drivers/monkey_king_3b.cpp:397-405 | at an ordinary offset a masked write followed by a read returns the merged word |
| MonkeyKing.Io6WriteThenRead | src/mame/drivers/monkey_king_3b.cpp:367-376 | a masked framebuffer write followed by a framebuffer read returns the merged word |
| MonkeyKing.FramebufferAlias | src/mame/drivers/monkey_king_3b.cpp:367-432 | the framebuffer window and the plain SDRAM read see the same word, except at the patched byte address 0xF03AF0 |
| Pc98Dma.ResetModes | src/mame/drivers/pc9801.cpp:2118 | reset turns auto-increment off on all four channels and keeps pages and the acknowledged channel |
| Pc98Dma.Channel | src/mame/drivers/pc9801.cpp:418 | a latch offset 0-3 selects channel (offset+1)&3 |
| Pc98Dma.ChannelBijective | src/mame/drivers/pc9801.cpp:418 | the four latch offsets reach the four channels one to one |
| Pc98Dma.PageWrite4 | src/mame/drivers/pc9801.cpp:416-420 | dmapg4_w at offsets 0-3 stores data&0x0F as that channel's page and changes no other channel or field, and other offsets change nothing |
| Pc98Dma.PageWrite8 | src/mame/drivers/pc9801.cpp:422-428 | dmapg8_w at offsets 0-3 stores the full byte as the channel's page; at offset 4 it sets auto-increment of channel data&3 to (data>>2)&3; nothing else changes |
| Pc98Dma.PageWritesKeepModes | src/mame/drivers/pc9801.cpp:416-428 | the page writes keep every auto-increment mode in 0-3 |
| Pc98Dma.NextPage | src/mame/drivers/pc9801.cpp:1837-1848 | mode 1 increments the page's low nibble mod 16 and keeps the high nibble; mode 3 increments the whole byte mod 256; modes 0 and 2 keep the page |
| Pc98Dma.Mode3Increment | src/mame/drivers/pc9801.cpp:1845-1846 | in mode 3 the page as a number becomes page + 1 mod 256, so 0xFF wraps to 0x00 |
| Pc98Dma.CrossingsKeepHighNibble | src/mame/drivers/pc9801.cpp:1839-1843 | any number of mode-1 block crossings keeps the high nibble |
| Pc98Dma.NextPageNibble | src/mame/drivers/pc9801.cpp:1842 | one mode-1 crossing adds one to the low nibble mod 16 |
| Pc98Dma.CrossingsLowNibble | src/mame/drivers/pc9801.cpp:1839-1843 | after n mode-1 crossings the low nibble is the starting byte plus n, taken mod 16 |
| Pc98Dma.Mode1Period | src/mame/drivers/pc9801.cpp:1839-1843 | sixteen mode-1 crossings bring the page back to where it started |
| Pc98Dma.Address | src/mame/drivers/pc9801.cpp:1834 | the DMA address has the acknowledged channel's page in bits 16 and up and the offset below |
| Pc98Dma.Transfer | src/mame/drivers/pc9801.cpp:1831-1879 | a read or write cycle uses the address from before any page change; only offset 0xFFFF advances the acknowledged channel's page by its mode |
| Pc98Dma.Acknowledge | src/mame/drivers/pc9801.cpp:1881-1884 | a DACK going low makes its channel the acknowledged one, and a DACK going high changes nothing |
| Pc98Dma.BlockCrossing | src/mame/drivers/pc9801.cpp:1835-1848 | in mode 1 the cycle after a crossing addresses the next 64 KiB block in the same 1 MiB region |
| Pc98System.F0Read | src/mame/drivers/pc9801.cpp:657-673 | offset 0 reads 0x18 when an AMD98 board is present and 0 otherwise, and every other offset reads 0xFF |
| Pc98System.A20Read | src/mame/drivers/pc9801.cpp:795-803 | offset 1 reads the inverted gate with bits 1-7 set; offset 3 reads the inverted gate at bit 0 and the NMI flip-flop shifted left by one; other offsets go to f0_r |
| Pc98System.A20Write | src/mame/drivers/pc9801.cpp:805-829 | offset 0 clears the POR bit, clears the gate and pulses CPU reset; offset 1 opens the gate; at offset 3, data 2 opens it, 3 closes it and anything else keeps it; every write ends by driving the A20 line from the gate |
| Pc98System.A20ReadbackMatchesLine | src/mame/drivers/pc9801.cpp:795-829 | after any write, bit 0 of the offset-1 readback is the inverse of the A20 line just driven |
| Pc98System.A20Mask | src/mame/drivers/pc9801.cpp:2016-2019 | an open gate masks addresses to 24 bits and a closed gate to 20 bits |
| Pc98System.A20MaskWraps | src/mame/drivers/pc9801.cpp:2016-2019 | the closed mask wraps addresses mod 1 MiB and the open mask mod 16 MiB |
| Pc98System.EmsRomSetting | src/mame/drivers/pc9801.cpp:773-775 | the accepted EMS ROM settings are exactly 0x00, 0x02, 0x10 and 0x12 |
| Pc98System.BankWrite | src/mame/drivers/pc9801.cpp:769-793 | offset 1 with an accepted ROM setting selects IPL bank (data&2)>>1 and otherwise logs; offset 3 with high nibble 2 sets the VRAM bank to (data&2)>>1 and otherwise keeps it; other offsets do nothing |
| Pc98System.BankIsBit | src/mame/drivers/pc9801.cpp:784-792 | the VRAM bank stays 0 or 1 |
| Pc98System.AccessCtrlRead | src/mame/drivers/pc9801.cpp:1021-1027 | offset 1 reads the register and other offsets read 0xFF |
| Pc98System.AccessCtrlWrite | src/mame/drivers/pc9801.cpp:1029-1033 | a write to offset 1 reads back verbatim and other offsets change nothing |
| Pc98System.WindowBankRead | src/mame/drivers/pc9801.cpp:1207-1213 | offset 1 reads the bank with bit 0 clear and other offsets read 0xFF |
| Pc98System.WindowBankWrite | src/mame/drivers/pc9801.cpp:1215-1221 | offset 1 stores the data with bit 0 cleared and other offsets change nothing |
| Pc98System.WindowBankRoundTrip | src/mame/drivers/pc9801.cpp:1207-1221 | the window bank reads back what was written, bit 0 cleared |
| Pc98System.SdipIndex | src/mame/drivers/pc9801.cpp:1243-1266 | register n of the current bank is byte n + 12*bank of the 24-byte array |
| Pc98System.SdipRead | src/mame/drivers/pc9801.cpp:1223-1230 | port 2 reads the selected byte and every other port reads 0xFF |
| Pc98System.SdipWrite | src/mame/drivers/pc9801.cpp:1232-1277 | port 2 writes the selected byte and nothing else; register 11 at port 3 sets the bank to data bit 6; every other write changes nothing |
| Pc98System.SdipRoundTrip | src/mame/drivers/pc9801.cpp:1223-1241 | a byte written at port 2 reads back, and the other registers of the bank keep their values |
| Pc98System.SdipBankSwitch | src/mame/drivers/pc9801.cpp:1267-1273 | switching the bank leaves every byte in place and makes port 2 of register n reach byte n + 12*(data bit 6) |
| Pc98System.Ext2Read | src/mame/drivers/pc9801.cpp:1287-1336 | selector 3 reads the display register and selector 0x0A the 256-colour flag; any other selector reads 0; the GDC 5 MHz flag is ORed in at bit 1 |
| Pc98System.Ext2Analog256 | src/mame/drivers/pc9801.cpp:1305-1333 | with 0/1 flags, selector 0x0A reads the 256-colour flag at bit 0 and the GDC clock flag at bit 1 |
| Pc98System.IdeCtrlWrite | src/mame/drivers/pc9801.cpp:506-510 | a write with bit 7 clear selects channel data&1, and one with bit 7 set changes nothing |
| Pc98System.IdeIrq | src/mame/drivers/pc9801.cpp:532-542 | each IDE interrupt records its own line, and the slave PIC's IR1 is the OR of both |
| Pc98System.IdeIrqLineDropsLast | src/mame/drivers/pc9801.cpp:532-542 | with both lines high, dropping one keeps IR1 high, and dropping the other as well lowers it |
| Pc98System.IdeChannel | src/mame/drivers/pc9801.cpp:512-530 | the chip-select ports reach IDE channel 2 when the selection is nonzero and channel 1 otherwise |
| Pc98System.PicSelect | src/mame/drivers/pc9801.cpp:1051-1059 | offsets 4 and up reach the slave PIC and lower ones the master, at register offset&3 |
| Pc98System.RtcWrite | src/mame/drivers/pc9801.cpp:404-414 | an RTC write always sets the RTC's pins |
| Pc98System.RtcPinsExact | src/mame/drivers/pc9801.cpp:404-414 | the command, strobe, clock and data pins carry exactly the low six bits of the write |
| Pc98System.FdcModeRead | src/mame/drivers/pc9801.cpp:909-912 | bits 1-0 read back the mode and bits 7-2 read as ones |
| Pc98System.FdcModeEffects | src/mame/drivers/pc9801.cpp:914-930 | bit 1 chooses between 360 rpm at 500 kbit/s and 300 rpm at 250 kbit/s, the same for both 2HD drives |
| Pc98System.ResetEdge | src/mame/drivers/pc9801.cpp:454-455 | the controller is soft-reset exactly on a 0-to-1 edge of bit 7 |
| Pc98System.ReadyEffects | src/mame/drivers/pc9801.cpp:459-465 | bit 6 set disconnects the ready line and drives it low, and bit 6 clear connects it |
| Pc98System.MotorEffects | src/mame/drivers/pc9801.cpp:467-476 | on the 9801F bit 3 drives both motors directly; on later machines it drives them inverted, and only while mode bit 2 is clear |
| Pc98System.MotorPolarity | src/mame/drivers/pc9801.cpp:472-476 | on later machines each motor line is the inverse of bit 3 |
| Pc98System.Fdc2hdEffects | src/mame/drivers/pc9801.cpp:451-477 | a 2HD control write soft-resets on a rising bit 7, drives ready low iff bit 6 is set, and ends with the motor effects |
| Pc98System.Fdc2ddEffects | src/mame/drivers/pc9801.cpp:487-496 | a 2DD control write soft-resets on a rising bit 7 and ends with both motors at the inverse of bit 3 |
| Pc98System.ControlResetOnce | src/mame/drivers/pc9801.cpp:454-455 | rewriting the same control byte never resets, and a reset happens exactly on the rising edge |
| Pc98System.Fdc2ddRead | src/mame/drivers/pc9801.cpp:480-485 | bit 6 is always set and bit 4 is set iff drive 0 is not ready or drive 1 is; every other bit is 0 |
| Pc98System.SasiCtrlEffects | src/mame/drivers/pc9801.cpp:631-655 | SEL follows bit 5, and RST is raised exactly on a 1-to-0 edge of bit 3 and otherwise driven low |
| Pc98Mouse.Reset | src/mame/drivers/pc9801.cpp:2115-2117 | reset sets port C to 0xFF and clears the frequency register and the divider, keeping the latches |
| Pc98Mouse.PortARead | src/mame/drivers/pc9801.cpp:1908-1929 | the buttons occupy the high nibble; the low nibble is a nibble of X or Y, live while bit 7 of port C is clear and latched while it is set, chosen by bit 6, with bit 5 picking the high nibble |
| Pc98Mouse.PortCWrite | src/mame/drivers/pc9801.cpp:1941-1950 | port C stores the data, and a 0-to-1 edge of bit 7 latches both counters |
| Pc98Mouse.LatchHolds | src/mame/drivers/pc9801.cpp:1917-1947 | after the latching edge, port A reports the latched counters however the live ones move |
| Pc98Mouse.FreqWrite | src/mame/drivers/pc9801.cpp:1035-1043 | offset 3 sets the frequency register to data&3 and restarts the divider, and other offsets change nothing |
| Pc98Mouse.TimerTick | src/mame/drivers/pc9801.cpp:2195-2210 | with bit 4 of port C set the tick does nothing; otherwise the divider advances and pulses IR5 of the slave PIC when it passes the frequency register, then restarts |
| Pc98Mouse.DividerPeriod | src/mame/drivers/pc9801.cpp:2197-2208 | from a restarted divider, n ticks give n / (freq_reg + 1) interrupts and leave n mod (freq_reg + 1) |
| Pc98Video.GrcgRead | src/mame/drivers/pc9801.cpp:831-844 | offsets 6 and 7 read 0xFF, and every other offset goes to the text-scroll handler |
| Pc98Video.GrcgWrite | src/mame/drivers/pc9801.cpp:846-865 | offset 6 stores the mode and resets the tile index; offset 7 stores the bit-reversed byte at the tile index and advances the index mod 4; every other offset goes to the text-scroll handler |
| Pc98Video.GrcgLoadTiles | src/mame/drivers/pc9801.cpp:848-862 | a mode write followed by four tile writes loads the four bit-reversed tiles in order and brings the index back to 0 |
| Pc98Video.PatternFor | src/mame/drivers/pc9801.cpp:894-897 | pattern plane i is all ones when colour bit i is set and all zeros otherwise |
| Pc98Video.PatternSource | src/mame/drivers/pc9801.cpp:881-893 | regs[1] bits 13-14 pick the background colour (register 5) for 1, the foreground colour (register 3) for 2, and no pattern update otherwise |
| Pc98Video.EgcMerge | src/mame/drivers/pc9801.cpp:872-873 | a writable register merges the masked bits, and register 4 keeps its value while regs[1]&0x6000 is nonzero |
| Pc98Video.EgcDerive | src/mame/drivers/pc9801.cpp:874-906 | registers 1, 3 and 5 re-derive the pattern from the selected colour, and 6 and 7 set count to (regs[7]&0xFFF)+1 with first set and init clear; the registers themselves do not change |
| Pc98Video.EgcWrite | src/mame/drivers/pc9801.cpp:867-907 | with ex_video_ff[2] clear a write changes nothing, and otherwise it merges and then derives |
| Pc98Video.EgcReg4Frozen | src/mame/drivers/pc9801.cpp:872 | while regs[1]&0x6000 is nonzero, a write to register 4 leaves the whole EGC unchanged |
| Pc98Video.EgcMaskedMerge | src/mame/drivers/pc9801.cpp:872-873 | writing any register other than 4 sets exactly its masked bits and keeps the other registers |
| Pc98Video.EgcCountRange | src/mame/drivers/pc9801.cpp:902 | after a write to register 6 or 7 the count lies in 1..4096 |
| Pc98Video.EgcForegroundPattern | src/mame/drivers/pc9801.cpp:888-897 | in foreground mode a full write of colour c to register 3 makes the pattern planes follow the bits of c |
| Pc98Video.FfIndex | src/mame/drivers/pc9801.cpp:976 | the flip-flop index (data&0xFE)>>1 is data/2 and fits the flip-flop array |
| Pc98Video.RsVideoFfWrite | src/mame/drivers/pc9801.cpp:971-997 | at offset 1 data with high nibble 0 stores data&1 at index (data&0xFE)>>1, other data does nothing, and nothing goes to the base handler; other offsets go to the base handler |
| Pc98Video.RsReachesLowFlagsOnly | src/mame/drivers/pc9801.cpp:975-976 | the RS path never changes flip-flops 8 and up, and so never changes the 256-colour flag |
| Pc98Video.Pc9821VideoFfWrite | src/mame/drivers/pc9801.cpp:1141-1155 | at offset 1 the write to index 2 (data&0xFE == 4) is refused while flag 3 is clear; otherwise the flag is stored and the RS path runs as well |
| Pc98Video.VideoFfKeepsFlagsBinary | src/mame/drivers/pc9801.cpp:971-1155 | both paths keep every flip-flop at 0 or 1 |
| Pc98Video.EgcEnableProtected | src/mame/drivers/pc9801.cpp:1145-1147 | while flag 3 is clear no 9821 write can turn on the EGC flag 2 |
| Pc98Video.PaletteOffsetsInWindow | src/mame/drivers/pc9801.cpp:1001 | the overlay applies to even offsets with bit 3 set, that is exactly 0x08, 0x0A, 0x0C and 0x0E |
| Pc98Video.Pal16Write | src/mame/drivers/pc9801.cpp:1001-1009 | 0x08 sets the entry, and 0x0A, 0x0C and 0x0E set green, red and blue of that entry, all to data&0xF; other offsets change nothing |
| Pc98Video.Pal16Read | src/mame/drivers/pc9801.cpp:1170-1176 | a 16-colour readback is at most 0xF |
| Pc98Video.Pal256Write | src/mame/drivers/pc9801.cpp:1189-1195 | 0x08 sets the entry, and 0x0A, 0x0C and 0x0E set green, red and blue of that entry, all to the full byte; the write bank is untouched |
| Pc98Video.RsA0Write | src/mame/drivers/pc9801.cpp:999-1019 | in 16-colour mode the four palette offsets write the 16-colour table, and every other write goes to the base handler |
| Pc98Video.Pc9821A0Read | src/mame/drivers/pc9801.cpp:1157-1183 | in 256-colour mode the palette offsets read 0; otherwise in 16-colour mode they read the 16-colour table; everything else goes to the base handler |
| Pc98Video.Pc9821A0Write | src/mame/drivers/pc9801.cpp:1185-1205 | in 256-colour mode the palette offsets write the 256-colour table; every other write takes the RS path |
| Pc98Video.PaletteOverlaysExclusive | src/mame/drivers/pc9801.cpp:1185-1205 | a 9821 palette write changes at most one of the two tables, and in 256-colour mode never the 16-colour one |
| Pc98Video.Pal16RoundTrip | src/mame/drivers/pc9801.cpp:1157-1205 | in 16-colour mode, selecting an entry and writing a component reads back the value masked to 4 bits |
| Pc98Video.GvramAddr | src/mame/drivers/pc9801.cpp:1061-1071 | the A8000 window addresses plane word offset + 0x4000 in the selected VRAM bank |
| Pc98Video.Gvram0Addr | src/mame/drivers/pc9801.cpp:1073-1083 | the E0000 window addresses plane word offset in the selected VRAM bank |
| Pc98Video.Pc9821GvramTarget | src/mame/drivers/pc9801.cpp:1356-1375 | in 256-colour mode the window is the linear word at 0xF00000 OR 2*offset OR write_bank*0x8000; otherwise it is the RS plane address |
| Pc98Video.LinearWindowBounds | src/mame/drivers/pc9801.cpp:1358-1370 | with a 0/1 write bank, the linear window stays inside 0xF00000-0xF1FFFF at even addresses |
| Pc98Video.Pc9821Gvram0ReadTarget | src/mame/drivers/pc9801.cpp:1377-1391 | in 256-colour mode byte 4 reads the write bank, and every other read goes to the plane |
| Pc98Video.Pc9821Gvram0Write | src/mame/drivers/pc9801.cpp:1393-1407 | in 256-colour mode a write to byte 4 merges into the write bank and nothing else changes |
| Pc98Maps.LaneRank | src/mame/drivers/pc9801.cpp:684 | a lane's rank among the served lanes is at most the lane number |
| Pc98Maps.HandlerOffset | src/mame/drivers/pc9801.cpp:684-708 | a 16-bit handler is given the index of the bus word that holds the port |
| Pc98Maps.OneLaneOffset | src/mame/drivers/pc9801.cpp:684-708 | on the 16-bit bus, an 8-bit handler on mask 0x00FF or 0xFF00 is given bus-word offsets: its port p has offset (p - start) / 2 |
| Pc98Maps.BothLanesOffset | src/mame/drivers/pc9801.cpp:684-708 | on the 16-bit bus, an 8-bit handler on both lanes that starts at an even port is given byte offsets |
| Pc98Maps.Decode | src/mame/drivers/pc9801.cpp:684-708 | a port decodes in a table exactly when one of the table's ranges serves that port, lane and direction |
| Pc98Maps.LookupIsFirstMatch | src/mame/drivers/pc9801.cpp:685-708 | a LookupFrom lookup finds nothing exactly when no range serves the port, lane and direction; otherwise it returns the first range that does, at its handler offset |
| Pc98Maps.LookupAppend | src/mame/drivers/pc9801.cpp:717 | an importing table looks up its own ranges first and the imported ones only when its own miss |
| Pc98Maps.UnmappedRead | src/mame/drivers/pc9801.cpp:1426 | a read nobody serves gives 0xFF under UNMAP_HIGH and 0 otherwise |
| Pc98Maps.SdipEntries | src/mame/drivers/pc9801.cpp:1478-1489 | the SDIP block has one range per remaining register |
| Pc98Maps.CommonLayers | src/mame/drivers/pc9801.cpp:685-708 | the common table finds a port in its first part, else its second, else its third |
| Pc98Maps.GenerationLayers | src/mame/drivers/pc9801.cpp:1124-1133 | the RS table tries its own ranges and then the UX table; the UX and original tables try their own ranges and then the common table |
| Pc98Maps.Pc9821Layers | src/mame/drivers/pc9801.cpp:1425-1508 | the 9821 table finds a port in its parts in listing order |
| Pc98Maps.GrcgOverridesTextScroll | src/mame/drivers/pc9801.cpp:1103 | on the UX, writes to 0x7C and 0x7E reach GRCG registers 6 and 7; on the original they reach text scroll; the odd PIT ports still reach the PIT on both |
| Pc98Maps.NmiPortsPerGeneration | src/mame/drivers/pc9801.cpp:1100 | on the UX and RS the NOP range hides the NMI control at 0x52; on the original 0x50 and 0x52 reach NMI control registers 0 and 1 |
| Pc98Maps.Pc9821NmiPorts | src/mame/drivers/pc9801.cpp:1434 | on the 9821, port 0x52 reaches NMI control register 1 |
| Pc98Maps.DmaPagePorts | src/mame/drivers/pc9801.cpp:1099 | the original's odd ports 0x21 and 0x27 reach dmapg4_w offsets 0 and 3; the UX's 0x25 and 0x29 reach dmapg8_w offsets 2 and 4; even port 0x20 still reaches the RTC |
| Pc98Maps.Pc9821DmaModePort | src/mame/drivers/pc9801.cpp:1430 | on the 32-bit bus, port 0x29 reaches dmapg8_w offset 4, the auto-increment register |
| Pc98Maps.Pc9821PalettePort | src/mame/drivers/pc9801.cpp:1444 | port 0xA8 reaches the 9821 palette handler at offset 8 |
| Pc98Maps.A20Ports | src/mame/drivers/pc9801.cpp:1108 | a UX write to 0xF2 reaches the A20 control at offset 1 and an RS read of 0xF6 reaches it at offset 3; on the original, 0xF0 reads f0_r and a write to 0xF2 reaches nothing |
| Pc98Maps.Pc9821A20Ports | src/mame/drivers/pc9801.cpp:1452 | on the 9821, ports 0xF2 and 0xF6 reach the A20 control at offsets 1 and 3 |
| Pc98Maps.LaterModelPorts | src/mame/drivers/pc9801.cpp:1111-1130 | UX port 0x4AE reaches EGC register 7, and RS port 0xBFDB reaches mouse frequency offset 3 |
| Pc98Maps.Pc9821EgcPort | src/mame/drivers/pc9801.cpp:1460 | 9821 port 0x4AE reaches EGC register 7 |
| Pc98Maps.SdipDecode | src/mame/drivers/pc9801.cpp:1478-1489 | in the SDIP block listed from register m on, port 0x841C + 0x100*n + q reaches SDIP register n at offset q for every n from m |
| Pc98Maps.SdipPorts | src/mame/drivers/pc9801.cpp:1478-1489 | in the whole 9821 table, those ports reach SDIP register n at offset q |
| Pc98Maps.UnmappedValues | src/mame/drivers/pc9801.cpp:1425-1426 | port 0x100 is unmapped on the RS, reading 0xFF, and on the 9821, reading 0 |
| Pc98Machine.TvramAtReset | src/mame/drivers/pc9801.cpp:2098-2110 | after reset text VRAM holds 0x2000 words, zero except the 16 memory-switch words at 0x1FF0 |
| Pc98Machine.MemswLayout | src/mame/drivers/pc9801.cpp:2102-2109 | every even memory-switch word is 0xE1 and the first switch value is 0x48 |
| Pc98Machine.FdcBiosBank | src/mame/drivers/pc9801.cpp:2134-2141 | an FDC BIOS bank is the 4 KiB of the program region starting at its base |
| Pc98Machine.ResetTvram | src/mame/drivers/pc9801.cpp:2098-2110 | the clear loop and the memory-switch loop leave text VRAM equal to TvramAtReset |
| Pc98Machine.CopyBank | src/mame/drivers/pc9801.cpp:2134-2135 | the copy loop fills the first 4 KiB of the ROM with the bank and changes nothing beyond |
| Pc98Machine.Pc9801.constructor | src/mame/drivers/pc9801.cpp:2058-2072 | a new machine is well formed, with the given system type and AMD98 presence and a fresh text VRAM |
| Pc98Machine.Pc9801.CommonReset | src/mame/drivers/pc9801.cpp:2096-2120 | the common reset rewrites text VRAM, turns the beeper off, clears the NMI flip-flop, resets the mouse, turns off auto-increment and zeroes the EGC; nothing else changes |
| Pc98Machine.Pc9801.Pc9801fReset | src/mame/drivers/pc9801.cpp:2122-2142 | the 9801F reset is the common reset plus the 2DD BIOS from bank 0 or 0x8000 (ROM_LOAD bit 1) and the 2HD BIOS from 0x10000 or 0x18000 (bit 0) |
| Pc98Machine.Pc9801.RsReset | src/mame/drivers/pc9801.cpp:2144-2162 | the RS reset is the common reset plus gate closed, FDC mode 3, access control 0, IDE channel 1 and both IDE interrupts low, and it drives A20 low |
| Pc98Machine.Pc9801.Pc9821Reset | src/mame/drivers/pc9801.cpp:2164-2169 | the 9821 reset is the RS reset plus window bank 0x08 |
| Pc98Machine.Pc9801.DmaPage4W | src/mame/drivers/pc9801.cpp:416-420 | the DMA latches become PageWrite4 of the old ones and nothing else changes |
| Pc98Machine.Pc9801.DmaPage8W | src/mame/drivers/pc9801.cpp:422-428 | the DMA latches become PageWrite8 of the old ones and nothing else changes |
| Pc98Machine.Pc9801.DmaCycle | src/mame/drivers/pc9801.cpp:1831-1879 | a DMA byte cycle gives the address of Address and the page update of Transfer |
| Pc98Machine.Pc9801.SetDmaChannel | src/mame/drivers/pc9801.cpp:1881-1889 | a DACK line updates the acknowledged channel as Acknowledge says |
| Pc98Machine.Pc9801.NmiCtrlW | src/mame/drivers/pc9801.cpp:430-433 | the NMI flip-flop takes the handler offset mod 256 and nothing else changes |
| Pc98Machine.Pc9801.A20CtrlR | src/mame/drivers/pc9801.cpp:795-803 | the method returns A20Read of the gate and NMI flip-flop |
| Pc98Machine.Pc9801.A20CtrlW | src/mame/drivers/pc9801.cpp:805-829 | the gate and effects are those of A20Write |
| Pc98Machine.Pc9801.BankW | src/mame/drivers/pc9801.cpp:769-793 | the VRAM bank and effects are those of BankWrite |
| Pc98Machine.Pc9801.AccessCtrlR | src/mame/drivers/pc9801.cpp:1021-1027 | the method returns AccessCtrlRead |
| Pc98Machine.Pc9801.AccessCtrlW | src/mame/drivers/pc9801.cpp:1029-1033 | the register becomes AccessCtrlWrite of the old one |
| Pc98Machine.Pc9801.WindowBankR | src/mame/drivers/pc9801.cpp:1207-1213 | the method returns WindowBankRead |
| Pc98Machine.Pc9801.WindowBankW | src/mame/drivers/pc9801.cpp:1215-1221 | the window bank becomes WindowBankWrite of the old one |
| Pc98Machine.Pc9801.SdipR | src/mame/drivers/pc9801.cpp:1243-1254 | sdip_n_r returns SdipRead for register n |
| Pc98Machine.Pc9801.SdipW | src/mame/drivers/pc9801.cpp:1256-1277 | sdip_n_w makes the SDIP state SdipWrite of the old one |
| Pc98Machine.Pc9801.Ext2VideoFfR | src/mame/drivers/pc9801.cpp:1287-1336 | the method returns Ext2Read of the selector and flip-flops |
| Pc98Machine.Pc9801.Ext2VideoFfW | src/mame/drivers/pc9801.cpp:1338-1341 | the selector takes the data and nothing else changes |
| Pc98Machine.Pc9801.GrcgW | src/mame/drivers/pc9801.cpp:846-865 | the GRCG state and the fall-through to text scroll are those of GrcgWrite |
| Pc98Machine.Pc9801.EgcW | src/mame/drivers/pc9801.cpp:867-907 | the EGC becomes EgcWrite, enabled by flip-flop 2 |
| Pc98Machine.Pc9801.RsVideoFfW | src/mame/drivers/pc9801.cpp:971-997 | the flip-flops and the fall-through are those of RsVideoFfWrite |
| Pc98Machine.Pc9801.Pc9821VideoFfW | src/mame/drivers/pc9801.cpp:1141-1155 | the flip-flops and the fall-through are those of Pc9821VideoFfWrite |
| Pc98Machine.Pc9801.RsA0W | src/mame/drivers/pc9801.cpp:999-1019 | the 16-colour table and the fall-through are those of RsA0Write |
| Pc98Machine.Pc9801.Pc9821A0R | src/mame/drivers/pc9801.cpp:1157-1183 | the method returns Pc9821A0Read |
| Pc98Machine.Pc9801.Pc9821A0W | src/mame/drivers/pc9801.cpp:1185-1205 | both tables and the fall-through are those of Pc9821A0Write |
| Pc98Machine.Pc9801.Pc9821Gvram0W | src/mame/drivers/pc9801.cpp:1393-1407 | the write bank is updated as Pc9821Gvram0Write says and the plane address is Gvram0Addr |
| Pc98Machine.Pc9801.IdeCtrlR | src/mame/drivers/pc9801.cpp:498-504 | the method returns the selected channel |
| Pc98Machine.Pc9801.IdeCtrlW | src/mame/drivers/pc9801.cpp:506-510 | the IDE state becomes IdeCtrlWrite of the old one |
| Pc98Machine.Pc9801.IdeIrqW | src/mame/drivers/pc9801.cpp:532-542 | the IDE lines and the IR1 effect are those of IdeIrq |
| Pc98Machine.Pc9801.FdcModeCtrlR | src/mame/drivers/pc9801.cpp:909-912 | the method returns FdcModeRead |
| Pc98Machine.Pc9801.FdcModeCtrlW | src/mame/drivers/pc9801.cpp:914-930 | the mode register takes the data and the effects are FdcModeEffects |
| Pc98Machine.Pc9801.Fdc2hdCtrlW | src/mame/drivers/pc9801.cpp:451-477 | the control register takes the data and the effects are Fdc2hdEffects of the old register |
| Pc98Machine.Pc9801.Fdc2ddCtrlW | src/mame/drivers/pc9801.cpp:487-496 | the control register takes the data and the effects are Fdc2ddEffects of the old register |
| Pc98Machine.Pc9801.SasiCtrlW | src/mame/drivers/pc9801.cpp:631-655 | the control register takes the data and the effects are SasiCtrlEffects of the old register |
| Pc98Machine.Pc9801.MousePortAR | src/mame/drivers/pc9801.cpp:1908-1929 | the method returns PortARead |
| Pc98Machine.Pc9801.MousePortCW | src/mame/drivers/pc9801.cpp:1941-1950 | the mouse state becomes PortCWrite of the old one |
| Pc98Machine.Pc9801.MouseFreqW | src/mame/drivers/pc9801.cpp:1035-1043 | the mouse state becomes FreqWrite of the old one |
| Pc98Machine.Pc9801.MouseIrqTick | src/mame/drivers/pc9801.cpp:2195-2210 | the mouse state becomes that of TimerTick, and IR5 of the slave PIC is pulsed exactly when TimerTick fires |

## Left out

- I/O, time and devices. The external devices are not modelled: the uPD765 FDCs, i8237, i8259, i8255s, i8251s, PIT, RTC, SASI bus, ATA/IDE, uPD7220 GDCs, SN76489, the base and secondary NES APUs, `vt_apu_regwrite` and the terminal. Calls into them are effects, and values they return are parameters.
- Timer scheduling is not modelled: `m_sys_timer->adjust`, `attotime` and `time_until_vblank_end`. Only the arm and stop requests appear, as effects. The vblank bit is an input.
- `timestamp_r` reads the CPU's cycle counter. The map tables name it, but the model has no value for it.
- Rendering is not modelled: the screen update functions, blinking, `set_pen_color`/`pal4bit` and the palette init functions. The palette writes keep only the table updates.
- Configuration is not modelled: machine configs, input port definitions, ROM definitions, floppy formats and slot interfaces. The `ROM_LOAD` port's value is a parameter of the 9801F reset.
- The kanji ROM reformatting in `pc9801_kanji` and the kanji RAM handlers (`pc9801rs_knjram_r/w`) are ROM loading and memory, not I/O register logic.
- `ide_ctrl_r` also pokes RAM at 0x457 through program space. That poke is not modelled; the method returns only the channel selection.
- `f0_r` scans the device tree for an AMD98 board. The scan is reduced to a boolean fixed at construction.
- The handlers the PC-98 code falls through to are not modelled: `txt_scrl_r/w`, `pc9801_video_ff_w`, `pc9801_a0_r/w`, and the uPD7220 GRCG plane access behind `grcg_gvram*`. A handler that falls through reports it, through a `toBase` flag or as a target address.
- `sasi_data_r/w`, `sasi_status_r`, the SASI and FDC line callbacks, `unk_r`, `vrtc_clear_w`, `midi_r` and the DMA HRQ/TC callbacks talk only to devices. They appear in the map tables by name.
- `ide_cs0/1_r/w` forward to the ATA device. Only the channel choice is modelled, as `Pc98System.IdeChannel`.
- Pc98Machine.Pc9801.RsReset: does not model the IDE ROM install at 0xD8000 or `device_reset_after_children`, because both change the program address space or a device buffer rather than a register.
- The program address maps are not modelled, apart from the GVRAM redirection functions. This includes the RAM installs in `machine_start`, the IPL bank mapping and the ROM regions.
- VtApu.NesapuVt.constructor: the device constructor sets none of the VT fields, and nes_vt_apu.h and the base device's reset are not part of this model. The model chooses zeros and both PCM modes off as the starting values.
- Pc98Machine.Pc9801.constructor: the state before the first reset is all zeros. Power-on values come from `machine_start` and the device defaults, which are not in this model.
- Pc98Maps.Decode: the tables are not wired into `Pc9801`'s methods. Each method stands for one handler, and the lemmas tie ports to handlers and offsets.
- `pc9821_grcg_gvram_r/w` and `grcg_gvram_r` are modelled as target addresses, not as memory accesses. Only `pc9821_grcg_gvram0_w` is a method, because it is the only one that changes a register.
- `ppi_sys_portc_w` and the beeper are not modelled. The beeper appears only as the reset's `BeeperOn(false)` effect.
- Program finish and self-check in Zexall are not modelled. The RAM image is a parameter of the reset.
- The text-VRAM handlers (`tvram_r/w`) are not in `pc9801.cpp`, so they are not part of this model. Only the reset writes text VRAM.
- The `m_ex_video_ff`, palette, SDIP and pattern arrays are `seq` fields that each method reassigns, not arrays. These arrays are only indexed, never aliased, so nothing observable is lost.
- The text-VRAM, FDC BIOS, ROM, SDRAM and register-file buffers stay arrays.
- Zexall.ZexallState.MemRead: by the first-listed-wins reading of address maps used for the PC-98 tables, the RAM range at zexall.cpp:139 would shadow the three handler cells listed after it. MemRead and MemWrite send 0xFFFD-0xFFFF to the handlers instead, because the output handshake relies on reaching them.
- The MS 0515 screen update and the keyboard and serial line clocks are rendering and device plumbing, so they are not modelled.
