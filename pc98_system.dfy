/** PC-9801 system-control registers of the later models: the A20 gate and
    port 0xF0 block, the EMS ROM/VRAM bank register, the access-control and
    window-bank readbacks, the SDIP setup memory, the GDC extended
    flip-flop readback, IDE channel selection, the PIC, RTC, floppy and
    SASI control ports. */
module Pc98System {
  import opened Pc98Bus

  function Bit01(b: bool): bv8 { if b then 1 else 0 }

  // -- port 0xF0 block -----------------------------------------------------------

  /** f0_r: offset 0 answers the AMD98 sound board probe with its ID 0x18 when
      such a board is present and 0 otherwise; other offsets read 0xFF. */
  function F0Read(offset: nat, amd98: bool): (v: bv8)
    ensures offset == 0 ==> v == (if amd98 then 0x18 else 0)
    ensures offset != 0 ==> v == 0xff
  {
    if offset == 0 then (if amd98 then 0x18 else 0) else 0xff
  }

  /** a20_ctrl_r: offset 1 reads the inverted gate in bit 0 with the other
      bits set; offset 3 reads the inverted gate and the NMI flip-flop in
      bit 1 and up; anything else is the 0xF0 probe. */
  function A20Read(gate: bool, nmiFf: bv8, offset: nat, amd98: bool): (v: bv8)
    ensures offset == 1 ==> v == (if gate then 0xfe else 0xff)
    ensures offset == 3 ==> v & 1 == (if gate then 0 else 1) && v >> 1 == (nmiFf << 1) >> 1
    ensures offset != 1 && offset != 3 ==> v == F0Read(offset, amd98)
  {
    if offset == 1 then (Bit01(gate) ^ 1) | 0xfe
    else if offset == 3 then (Bit01(gate) ^ 1) | (nmiFf << 1)
    else F0Read(offset, amd98)
  }

  datatype A20Result = A20Result(gate: bool, effects: seq<Effect>)

  /** a20_ctrl_w: offset 0 is the CPU reset port (clears the POR bit, drops
      A20, pulses reset, gate off); offset 1 opens the gate; offset 3 opens
      it on data 2 and closes it on data 3. The CPU's A20 line is then set
      to the gate, whatever the offset. */
  function A20Write(gate: bool, offset: nat, data: bv8): (r: A20Result)
    ensures offset == 0 ==> r == A20Result(false, [PorCleared, CpuA20(false), CpuResetPulse, CpuA20(false)])
    ensures offset == 1 ==> r == A20Result(true, [CpuA20(true)])
    ensures offset == 3 ==> r.gate == (if data == 2 then true else if data == 3 then false else gate)
    ensures offset != 0 ==> r.effects == [CpuA20(r.gate)]
    ensures offset !in {0, 1, 3} ==> r.gate == gate
  {
    var pre := if offset == 0 then [PorCleared, CpuA20(false), CpuResetPulse] else [];
    var g := if offset == 0 then false
             else if offset == 1 then true
             else if offset == 3 then (if data == 2 then true else if data == 3 then false else gate)
             else gate;
    A20Result(g, pre + [CpuA20(g)])
  }

  /** After any gate write, a read of offset 1 shows the gate that the CPU's
      A20 line was last set to. */
  lemma A20ReadbackMatchesLine(gate: bool, nmiFf: bv8, offset: nat, data: bv8, amd98: bool)
    ensures var r := A20Write(gate, offset, data);
            r.effects[|r.effects| - 1] == CpuA20(r.gate)
            && (A20Read(r.gate, nmiFf, 1, amd98) & 1 == 0 <==> r.gate)
  {
  }

  /** a20_286: the CPU's address mask with the gate closed (1 MiB) or open
      (16 MiB). */
  function A20Mask(state: bool): (m: bv32)
    ensures m == if state then 0xff_ffff else 0x0f_ffff
  {
    if state then 0xff_ffff else 0x0f_ffff
  }

  /** With the gate closed addresses wrap at 1 MiB as on an 8086; with it
      open they wrap at 16 MiB, the 286's 24-bit bus. */
  lemma A20MaskWraps(a: bv32)
    ensures a & A20Mask(false) == a % 0x10_0000
    ensures a & A20Mask(true) == a % 0x100_0000
  {
  }

  // -- EMS bank register (0x43D/0x43F) ------------------------------------------

  /** The ROM bank settings offset 1 accepts: exactly 0x00, 0x02, 0x10 and
      0x12, whose bit 1 is the bank. */
  predicate EmsRomSetting(data: bv8): (ok: bool)
    ensures ok <==> data in {0x00, 0x02, 0x10, 0x12}
  {
    ((data & 0xf0) == 0x00 || (data & 0xf0) == 0x10) && (data & 0xed) == 0
  }

  datatype BankResult = BankResult(vramBank: bv8, effects: seq<Effect>)

  /** pc9801rs_bank_w: offset 1 switches the IPL ROM bank to bit 1 of an
      accepted setting (others are ignored); offset 3 with high nibble 2
      selects the VRAM bank from bit 1. */
  function BankWrite(vramBank: bv8, offset: nat, data: bv8): (r: BankResult)
    ensures offset == 1 ==> (r.vramBank == vramBank
              && r.effects == (if EmsRomSetting(data) then [IplBank((data & 2) >> 1)] else []))
    ensures offset == 3 ==> (r.effects == []
              && r.vramBank == (if data & 0xf0 == 0x20 then (data & 2) >> 1 else vramBank))
    ensures offset != 1 && offset != 3 ==> r == BankResult(vramBank, [])
  {
    if offset == 1 && EmsRomSetting(data) then BankResult(vramBank, [IplBank((data & 2) >> 1)])
    else if offset == 3 && (data & 0xf0) == 0x20 then BankResult((data & 2) >> 1, [])
    else BankResult(vramBank, [])
  }

  /** Bank numbers are single bits. */
  lemma BankIsBit(vramBank: bv8, offset: nat, data: bv8)
    requires vramBank <= 1
    ensures var r := BankWrite(vramBank, offset, data);
            r.vramBank <= 1 && forall e :: e in r.effects ==> e.IplBank? && e.bank <= 1
  {
  }

  // -- readback registers -------------------------------------------------------------

  /** access_ctrl_r/w: one byte at offset 1; other offsets read 0xFF and
      ignore writes. */
  function AccessCtrlRead(ac: bv8, offset: nat): (v: bv8)
    ensures v == if offset == 1 then ac else 0xff
  {
    if offset == 1 then ac else 0xff
  }

  function AccessCtrlWrite(ac: bv8, offset: nat, data: bv8): (r: bv8)
    ensures offset == 1 ==> AccessCtrlRead(r, 1) == data
    ensures offset != 1 ==> r == ac
  {
    if offset == 1 then data else ac
  }

  /** window_bank_r/w: the 0xF0000 window bank at offset 1 keeps bits 7-1,
      so bit 0 always reads 0 and the window moves in 128 KiB steps. */
  function WindowBankRead(wb: bv8, offset: nat): (v: bv8)
    ensures offset == 1 ==> v == wb & 0xfe
    ensures offset != 1 ==> v == 0xff
  {
    if offset == 1 then wb & 0xfe else 0xff
  }

  function WindowBankWrite(wb: bv8, offset: nat, data: bv8): (r: bv8)
    ensures offset == 1 ==> r & 1 == 0 && r >> 1 == data >> 1
    ensures offset != 1 ==> r == wb
  {
    if offset == 1 then data & 0xfe else wb
  }

  lemma WindowBankRoundTrip(wb: bv8, data: bv8)
    ensures WindowBankRead(WindowBankWrite(wb, 1, data), 1) == data & 0xfe
  {
  }

  // -- SDIP setup memory ----------------------------------------------------------------

  const SdipBytes: nat := 24
  const SdipPort: nat := 2

  /** m_sdip[24] and m_sdip_bank: twelve byte registers in two banks. */
  datatype Sdip = Sdip(bytes: seq<bv8>, bank: bv8)

  predicate SdipWellFormed(s: Sdip) { |s.bytes| == SdipBytes && s.bank <= 1 }

  function SdipIndex(s: Sdip, n: nat): (i: nat)
    requires SdipWellFormed(s) && n < 12
    ensures i < SdipBytes && i % 12 == n && i / 12 == s.bank as int
  {
    n + 12 * s.bank as int
  }

  /** sdip_n_r: only port 2 of each register reaches the current bank's
      byte; the other ports read 0xFF. */
  function SdipRead(s: Sdip, n: nat, port: nat): (v: bv8)
    requires SdipWellFormed(s) && n < 12
    ensures port == SdipPort ==> v == s.bytes[SdipIndex(s, n)]
    ensures port != SdipPort ==> v == 0xff
  {
    if port == SdipPort then s.bytes[SdipIndex(s, n)] else 0xff
  }

  /** sdip_n_w: port 2 stores into the current bank; register 11 also takes
      the bank from bit 6 of a write to its port 3. */
  function SdipWrite(s: Sdip, n: nat, port: nat, data: bv8): (r: Sdip)
    requires SdipWellFormed(s) && n < 12
    ensures SdipWellFormed(r)
    ensures port == SdipPort ==> r.bank == s.bank && r.bytes == s.bytes[SdipIndex(s, n) := data]
    ensures n == 11 && port == 3 ==> r == s.(bank := (data & 0x40) >> 6)
    ensures port != SdipPort && !(n == 11 && port == 3) ==> r == s
  {
    var s1 := if n == 11 && port == 3 then s.(bank := (data & 0x40) >> 6) else s;
    if port == SdipPort then s1.(bytes := s1.bytes[SdipIndex(s1, n) := data]) else s1
  }

  /** A write to a register's port 2 reads back from port 2 and leaves every
      other byte of either bank alone. */
  lemma SdipRoundTrip(s: Sdip, n: nat, m: nat, data: bv8)
    requires SdipWellFormed(s) && n < 12 && m < 12 && m != n
    ensures SdipRead(SdipWrite(s, n, SdipPort, data), n, SdipPort) == data
    ensures SdipRead(SdipWrite(s, n, SdipPort, data), m, SdipPort) == SdipRead(s, m, SdipPort)
  {
  }

  /** Switching banks hides the bytes written before the switch: after
      selecting the other bank, port 2 reads the other twelve bytes. */
  lemma SdipBankSwitch(s: Sdip, n: nat, data: bv8)
    requires SdipWellFormed(s) && n < 12
    ensures var t := SdipWrite(s, 11, 3, data);
            t.bytes == s.bytes && t.bank == (if data & 0x40 != 0 then 1 else 0)
            && SdipRead(t, n, SdipPort) == s.bytes[n + 12 * t.bank as int]
  {
  }

  // -- GDC extended flip-flop readback (0x9A0) ----------------------------------------------

  const ExVideoFfCount: nat := 128
  const ANALOG_16_MODE: nat := 0x00
  const ANALOG_256_MODE: nat := 0x10
  const GDC_IS_5MHz: nat := 0x42
  const DisplayRegSel: bv8 := 0x03
  const Analog256Sel: bv8 := 0x0a

  /** ext2_video_ff_r: selector 3 reads the display flip-flop, selector 0x0A
      the 256-colour flag; every read has the 5 MHz GDC flag in bit 1. */
  function Ext2Read(sel: bv8, displayReg: bv8, ex: seq<bv8>): (v: bv8)
    requires |ex| == ExVideoFfCount
    ensures v == (if sel == DisplayRegSel then displayReg
                  else if sel == Analog256Sel then ex[ANALOG_256_MODE] else 0)
                 | (ex[GDC_IS_5MHz] << 1)
  {
    var res: bv8 := if sel == DisplayRegSel then displayReg
                    else if sel == Analog256Sel then ex[ANALOG_256_MODE] else 0;
    res | (ex[GDC_IS_5MHz] << 1)
  }

  /** With the flags stored as 0 or 1, selector 0x0A reads the 256-colour
      flag in bit 0 and the GDC clock in bit 1, and nothing else. */
  lemma Ext2Analog256(ex: seq<bv8>, displayReg: bv8)
    requires |ex| == ExVideoFfCount && ex[ANALOG_256_MODE] <= 1 && ex[GDC_IS_5MHz] <= 1
    ensures var v := Ext2Read(Analog256Sel, displayReg, ex);
            v & 1 == ex[ANALOG_256_MODE] && (v >> 1) & 1 == ex[GDC_IS_5MHz] && v >> 2 == 0
  {
  }

  // -- IDE --------------------------------------------------------------------------------

  datatype Ide = Ide(sel: bv8, irq1: bool, irq2: bool)

  /** ide_ctrl_w: with bit 7 clear, bit 0 selects the channel; with bit 7
      set, the write is ignored. */
  function IdeCtrlWrite(i: Ide, data: bv8): (r: Ide)
    ensures data & 0x80 == 0 ==> r == i.(sel := data & 1)
    ensures data & 0x80 != 0 ==> r == i
  {
    if data & 0x80 == 0 then i.(sel := data & 1) else i
  }

  datatype IdeIrqResult = IdeIrqResult(ide: Ide, effect: Effect)

  /** ide1_irq_w / ide2_irq_w: remember the channel's request and drive the
      shared slave-PIC input with the OR of both. */
  function IdeIrq(i: Ide, channel: nat, state: bool): (r: IdeIrqResult)
    requires channel == 1 || channel == 2
    ensures channel == 1 ==> r.ide == i.(irq1 := state)
    ensures channel == 2 ==> r.ide == i.(irq2 := state)
    ensures r.effect == SlaveIr1(r.ide.irq1 || r.ide.irq2)
  {
    if channel == 1 then IdeIrqResult(i.(irq1 := state), SlaveIr1(state || i.irq2))
    else IdeIrqResult(i.(irq2 := state), SlaveIr1(state || i.irq1))
  }

  /** The shared line drops only once both channels have dropped. */
  lemma IdeIrqLineDropsLast(i: Ide)
    ensures IdeIrq(IdeIrq(Ide(i.sel, true, true), 1, false).ide, 2, true).effect == SlaveIr1(true)
    ensures IdeIrq(IdeIrq(Ide(i.sel, true, true), 1, false).ide, 2, false).effect == SlaveIr1(false)
  {
  }

  /** ide_cs0/cs1: the selected channel, 1 or 2. */
  function IdeChannel(i: Ide): (c: nat)
    ensures c == if i.sel != 0 then 2 else 1
  {
    if i.sel != 0 then 2 else 1
  }

  // -- PIC, RTC ------------------------------------------------------------------------------

  datatype PicReg = PicReg(slave: bool, reg: nat)

  /** pic_r/pic_w: offsets 0-3 address the master, 4 and up the slave, at
      register offset modulo 4. */
  function PicSelect(offset: nat): (p: PicReg)
    ensures p.slave <==> offset >= 4
    ensures p.reg == offset % 4 && p.reg < 4
  {
    PicReg(offset >= 4, offset % 4)
  }

  /** rtc_w: bits 0-5 drive the uPD1990's C0, C1, C2, STB, CLK and DATA IN. */
  function RtcWrite(data: bv8): (e: Effect)
    ensures e.RtcPins?
  {
    RtcPins(data & 1 != 0, data & 2 != 0, data & 4 != 0, data & 8 != 0, data & 0x10 != 0, data & 0x20 != 0)
  }

  function PinsByte(e: Effect): bv8
    requires e.RtcPins?
  {
    (if e.c0 then 1 else 0) | (if e.c1 then 2 else 0) | (if e.c2 then 4 else 0)
    | (if e.stb then 8 else 0) | (if e.clk then 0x10 else 0) | (if e.din then 0x20 else 0)
  }

  /** The six pins carry exactly the low six bits of the write. */
  lemma RtcPinsExact(data: bv8)
    ensures PinsByte(RtcWrite(data)) == data & 0x3f
  {
  }

  // -- floppy control ---------------------------------------------------------------------------

  /** fdc_mode_ctrl_r: bits 7-2 read as 1, bits 1-0 read back the mode. */
  function FdcModeRead(ctrl: bv8): (v: bv8)
    ensures v & 3 == ctrl & 3 && v >> 2 == 0x3f
  {
    (ctrl & 3) | 0xf0 | 8 | 4
  }

  /** fdc_mode_ctrl_w: bit 1 selects 2HD (360 rpm, 500 kbit/s) or 2DD
      (300 rpm, 250 kbit/s) operation of the 2HD controller's drives. */
  function FdcModeEffects(data: bv8): (e: seq<Effect>)
    ensures |e| == 3 && e[0].DriveRpm? && e[1].DriveRpm? && e[2].FdcRate? && e[2].fdc == Fdc2hd
    ensures e[0].drive == 0 && e[1].drive == 1 && e[0].rpm == e[1].rpm
    ensures (e[0].rpm == 360 && e[2].rate == 500000) <==> data & 2 != 0
    ensures (e[0].rpm == 300 && e[2].rate == 250000) <==> data & 2 == 0
  {
    var rpm := if data & 2 != 0 then 360 else 300;
    [DriveRpm(0, rpm), DriveRpm(1, rpm), FdcRate(Fdc2hd, if data & 2 != 0 then 500000 else 250000)]
  }

  /** A controller is reset on a 0->1 edge of bit 7. */
  function ResetEdge(fdc: Fdc, prev: bv8, data: bv8): (e: seq<Effect>)
    ensures |e| <= 1 && forall x :: x in e ==> x == FdcSoftReset(fdc)
    ensures e != [] <==> prev & 0x80 == 0 && data & 0x80 != 0
  {
    if prev & 0x80 == 0 && data & 0x80 != 0 then [FdcSoftReset(fdc)] else []
  }

  /** fdc_2hd_ctrl_w, ready line: bit 6 disconnects the ready line and
      lowers it; otherwise the line is connected. */
  function ReadyEffects(data: bv8): (e: seq<Effect>)
    ensures data & 0x40 != 0 ==> e == [FdcReadyConnected(Fdc2hd, false), FdcReadyLow(Fdc2hd)]
    ensures data & 0x40 == 0 ==> e == [FdcReadyConnected(Fdc2hd, true)]
  {
    if data & 0x40 != 0 then [FdcReadyConnected(Fdc2hd, false), FdcReadyLow(Fdc2hd)]
    else [FdcReadyConnected(Fdc2hd, true)]
  }

  /** fdc_2hd_ctrl_w, motors: on the original machine (system type 0) bit 3
      asserts both motor lines; on later machines it is active low, and the
      lines are only driven while bit 2 of the mode register is clear. */
  function MotorEffects(fdcCtrl: bv8, sysType: nat, data: bv8): (e: seq<Effect>)
    ensures sysType == 0 ==> e == [FdcMotorLine(Fdc2hd, 0, data & 8 != 0), FdcMotorLine(Fdc2hd, 1, data & 8 != 0)]
    ensures sysType != 0 && fdcCtrl & 4 == 0 ==>
              e == [FdcMotorLine(Fdc2hd, 0, data & 8 == 0), FdcMotorLine(Fdc2hd, 1, data & 8 == 0)]
    ensures sysType != 0 && fdcCtrl & 4 != 0 ==> e == []
  {
    if sysType == 0 then [FdcMotorLine(Fdc2hd, 0, data & 8 != 0), FdcMotorLine(Fdc2hd, 1, data & 8 != 0)]
    else if fdcCtrl & 4 == 0 then [FdcMotorLine(Fdc2hd, 0, data & 8 == 0), FdcMotorLine(Fdc2hd, 1, data & 8 == 0)]
    else []
  }

  /** The two generations drive the 2HD motor lines with opposite polarity. */
  lemma MotorPolarity(fdcCtrl: bv8, data: bv8)
    requires fdcCtrl & 4 == 0
    ensures forall k :: 0 <= k < 2 ==>
              MotorEffects(fdcCtrl, 0, data)[k].asserted == !MotorEffects(fdcCtrl, 2, data)[k].asserted
  {
  }

  /** fdc_2hd_ctrl_w: reset edge, ready line, motors, in that order. */
  function Fdc2hdEffects(prev: bv8, fdcCtrl: bv8, sysType: nat, data: bv8): (e: seq<Effect>)
    ensures FdcSoftReset(Fdc2hd) in e <==> prev & 0x80 == 0 && data & 0x80 != 0
    ensures FdcReadyLow(Fdc2hd) in e <==> data & 0x40 != 0
    ensures |e| >= |MotorEffects(fdcCtrl, sysType, data)|
    ensures e[|e| - |MotorEffects(fdcCtrl, sysType, data)|..] == MotorEffects(fdcCtrl, sysType, data)
  {
    ResetEdge(Fdc2hd, prev, data) + ReadyEffects(data) + MotorEffects(fdcCtrl, sysType, data)
  }

  /** fdc_2dd_ctrl_w: reset edge, then both motor lines, active low on bit 3. */
  function Fdc2ddEffects(prev: bv8, data: bv8): (e: seq<Effect>)
    ensures FdcSoftReset(Fdc2dd) in e <==> prev & 0x80 == 0 && data & 0x80 != 0
    ensures |e| >= 2
    ensures e[|e| - 2..] == [FdcMotorLine(Fdc2dd, 0, data & 8 == 0), FdcMotorLine(Fdc2dd, 1, data & 8 == 0)]
  {
    ResetEdge(Fdc2dd, prev, data) + [FdcMotorLine(Fdc2dd, 0, data & 8 == 0), FdcMotorLine(Fdc2dd, 1, data & 8 == 0)]
  }

  /** Writing the same control byte twice resets the controller at most once. */
  lemma ControlResetOnce(fdc: Fdc, prev: bv8, data: bv8)
    ensures ResetEdge(fdc, data, data) == []
    ensures |ResetEdge(fdc, prev, data)| == 1 <==> prev & 0x80 == 0 && data & 0x80 != 0
  {
  }

  /** fdc_2dd_ctrl_r: bit 4 from the drives' ready lines, bit 6 set. */
  function Fdc2ddRead(ready0: bool, ready1: bool): (v: bv8)
    ensures v & 0xaf == 0 && v & 0x40 != 0
    ensures (v & 0x10 != 0) <==> (!ready0 || ready1)
  {
    (if !ready0 then 0x10 else 0) | (if ready1 then 0x10 else 0) | 0x40
  }

  /** fdc_2hd_ctrl_r: a constant. */
  const Fdc2hdCtrlRead: bv8 := 0x44

  // -- SASI ---------------------------------------------------------------------------------------

  /** sasi_ctrl_w: bit 5 drives SEL; a 1->0 edge of bit 3 raises RST,
      otherwise RST is driven low. */
  function SasiCtrlEffects(prev: bv8, data: bv8): (e: seq<Effect>)
    ensures |e| == 2 && e[0].SasiSel? && e[1].SasiRst?
    ensures e[0].level <==> data & 0x20 != 0
    ensures e[1].level <==> prev & 8 != 0 && data & 8 == 0
  {
    [SasiSel(data & 0x20 != 0), SasiRst(prev & 8 != 0 && data & 8 == 0)]
  }
}
