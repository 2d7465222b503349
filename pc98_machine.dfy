/** The PC-9801 family's driver state as one object: every handler updates
    the members it owns in place and returns the calls it makes on the
    devices around it. Each method is specified by the register functions
    of the Pc98* modules; `Regs()` is the whole register state, so each
    `ensures` says both what changes and that nothing else does. */
module Pc98Machine {
  import opened Bits
  import opened Pc98Bus
  import opened Pc98System
  import opened Pc98Video
  import Pc98Dma
  import Pc98Mouse

  /** All register members of the driver state, as one value. */
  datatype Registers = Registers(
    dma: Pc98Dma.Dma, gateA20: bool, nmiFf: bv8, vramBank: bv8,
    grcg: Grcg, egc: Egc, exVideoFf: seq<bv8>, pal16: Pal16, pal256: Pal256,
    accessCtrl: bv8, windowBank: bv8, sdip: Sdip, ext2Ff: bv8, ide: Ide,
    fdcCtrl: bv8, fdc2hdCtrl: bv8, fdc2ddCtrl: bv8, sasiCtrl: bv8,
    mouse: Pc98Mouse.Mouse)

  /** Text VRAM words; the last 16 hold the memory-switch settings. */
  const TvramWords: nat := 0x2000
  const MemswBase: nat := 0x1ff0

  /** default_memsw_data, one byte per word. */
  const DefaultMemsw: seq<bv16> :=
    [0xe1, 0x48, 0xe1, 0x05, 0xe1, 0x04, 0xe1, 0x00, 0xe1, 0x01, 0xe1, 0x00, 0xe1, 0x00, 0xe1, 0x6e]

  /** Text VRAM after MACHINE_RESET(pc9801_common): cleared, then the
      memory switches at the top. */
  function TvramAtReset(): (t: seq<bv16>)
    ensures |t| == TvramWords
    ensures forall k :: 0 <= k < MemswBase ==> t[k] == 0
    ensures forall k :: 0 <= k < 16 ==> t[MemswBase + k] == DefaultMemsw[k]
  {
    seq(TvramWords, k requires 0 <= k < TvramWords => if k < MemswBase then 0 else DefaultMemsw[k - MemswBase])
  }

  /** The memory switches come out as odd bytes 0xE1 with the settings in
      between; switch 1 (word 0x1FF1) is 0x48. */
  lemma MemswLayout()
    ensures forall k :: 0 <= k < 8 ==> TvramAtReset()[MemswBase + 2 * k] == 0xe1
    ensures TvramAtReset()[MemswBase + 1] == 0x48
  {
    var t := TvramAtReset();
    forall k | 0 <= k < 8
      ensures t[MemswBase + 2 * k] == 0xe1
    {
      DefaultMemswOddBytes(k);
      assert t[MemswBase + 2 * k] == DefaultMemsw[2 * k];
    }
  }

  lemma DefaultMemswOddBytes(k: nat)
    requires k < 8
    ensures DefaultMemsw[2 * k] == 0xe1
  {
    if k < 4 {
      assert k == 0 || k == 1 || k == 2 || k == 3;
    } else {
      assert k == 4 || k == 5 || k == 6 || k == 7;
    }
  }

  /** The first 0x1000 bytes of a 32 KiB bank of the FDC BIOS image. */
  function FdcBiosBank(prg: seq<bv8>, base: nat): (r: seq<bv8>)
    requires base + 0x1000 <= |prg|
    ensures |r| == 0x1000 && forall i :: 0 <= i < 0x1000 ==> r[i] == prg[base + i]
  {
    prg[base .. base + 0x1000]
  }

  class Pc9801 {
    var dma: Pc98Dma.Dma
    var gateA20: bool
    var nmiFf: bv8
    var vramBank: bv8
    var grcg: Grcg
    var egc: Egc
    var exVideoFf: seq<bv8>
    var pal16: Pal16
    var pal256: Pal256
    var accessCtrl: bv8
    var windowBank: bv8
    var sdip: Sdip
    var ext2Ff: bv8
    var ide: Ide
    var fdcCtrl: bv8
    var fdc2hdCtrl: bv8
    var fdc2ddCtrl: bv8
    var sasiCtrl: bv8
    var mouse: Pc98Mouse.Mouse
    const tvram: array<bv16>
    /** m_sys_type: 0 on the original model, 2 on the 386 models and 9821. */
    const sysType: nat
    /** Whether an AMD98 sound board answers the 0xF0 probe. */
    const amd98: bool

    function Regs(): Registers
      reads this
    {
      Registers(dma, gateA20, nmiFf, vramBank, grcg, egc, exVideoFf, pal16, pal256,
                accessCtrl, windowBank, sdip, ext2Ff, ide, fdcCtrl, fdc2hdCtrl,
                fdc2ddCtrl, sasiCtrl, mouse)
    }

    predicate Valid()
      reads this
    {
      Pc98Dma.WellFormed(dma) && GrcgWellFormed(grcg) && EgcWellFormed(egc)
      && |exVideoFf| == ExVideoFfCount && Pal16WellFormed(pal16) && Pal256WellFormed(pal256)
      && SdipWellFormed(sdip) && Pc98Mouse.WellFormed(mouse) && tvram.Length == TvramWords
    }

    /** Power-on state: every register zero, the tables cleared. */
    constructor (sysType: nat, amd98: bool)
      ensures Valid() && fresh(tvram)
      ensures this.sysType == sysType && this.amd98 == amd98
    {
      dma := Pc98Dma.Dma([0, 0, 0, 0], [0, 0, 0, 0], 0);
      gateA20 := false;
      nmiFf := 0;
      vramBank := 0;
      grcg := Grcg(0, 0, [0, 0, 0, 0]);
      egc := EgcReset;
      exVideoFf := seq(ExVideoFfCount, _ => 0);
      var z16: seq<bv8> := seq(16, _ => 0);
      var z256: seq<bv8> := seq(256, _ => 0);
      pal16 := Pal16(0, z16, z16, z16);
      pal256 := Pal256(0, z256, z256, z256, 0);
      accessCtrl := 0;
      windowBank := 0;
      var zs: seq<bv8> := seq(SdipBytes, _ => 0);
      sdip := Sdip(zs, 0);
      ext2Ff := 0;
      ide := Ide(0, false, false);
      fdcCtrl := 0;
      fdc2hdCtrl := 0;
      fdc2ddCtrl := 0;
      sasiCtrl := 0;
      mouse := Pc98Mouse.Mouse(0, 0, 0, 0, 0);
      tvram := new bv16[TvramWords];
      this.sysType := sysType;
      this.amd98 := amd98;
    }

    // -- resets -----------------------------------------------------------------------

    /** MACHINE_RESET(pc9801_common): text VRAM cleared with the memory
        switches on top, NMI flip-flop and mouse divider cleared, port C all
        ones, auto-increment off on every channel, the EGC zeroed. */
    method CommonReset() returns (effects: seq<Effect>)
      requires Valid()
      modifies this, tvram
      ensures Valid() && tvram[..] == TvramAtReset()
      ensures Regs() == old(Regs()).(nmiFf := 0, mouse := Pc98Mouse.Reset(old(mouse)),
                                     dma := Pc98Dma.ResetModes(old(dma)), egc := EgcReset)
      ensures effects == [BeeperOn(false)]
    {
      effects := [BeeperOn(false)];
      nmiFf := 0;
      mouse := Pc98Mouse.Reset(mouse);
      dma := Pc98Dma.ResetModes(dma);
      egc := EgcReset;
      ghost var reset := Regs();
      ResetTvram(tvram);
      assert Regs() == reset;
    }

    /** MACHINE_RESET(pc9801f): the common reset, then the 2DD and 2HD FDC
        BIOS windows are filled from the FDC data image, the bank chosen
        by bit 1 (2DD) and bit 0 (2HD) of the ROM_LOAD setting; the 2HD
        banks follow the 2DD ones at 0x10000. */
    method Pc9801fReset(prg: array<bv8>, rom2dd: array<bv8>, rom2hd: array<bv8>, romLoad: bv8)
      returns (effects: seq<Effect>)
      requires Valid()
      requires prg.Length >= 0x19000 && rom2dd.Length >= 0x1000 && rom2hd.Length >= 0x1000
      requires rom2dd != rom2hd && prg != rom2dd && prg != rom2hd
      modifies this, tvram, rom2dd, rom2hd
      ensures Valid() && tvram[..] == TvramAtReset()
      ensures Regs() == old(Regs()).(nmiFf := 0, mouse := Pc98Mouse.Reset(old(mouse)),
                                     dma := Pc98Dma.ResetModes(old(dma)), egc := EgcReset)
      ensures effects == [BeeperOn(false)]
      ensures rom2dd[..0x1000] == FdcBiosBank(prg[..], if romLoad & 2 != 0 then 0x8000 else 0)
      ensures rom2dd[0x1000..] == old(rom2dd[0x1000..])
      ensures rom2hd[..0x1000] == FdcBiosBank(prg[..], if romLoad & 1 != 0 then 0x18000 else 0x10000)
      ensures rom2hd[0x1000..] == old(rom2hd[0x1000..])
    {
      effects := CommonReset();
      var op2dd: nat := if romLoad & 2 != 0 then 1 else 0;
      CopyBank(prg, rom2dd, op2dd * 0x8000);
      var op2hd: nat := if romLoad & 1 != 0 then 1 else 0;
      CopyBank(prg, rom2hd, op2hd * 0x8000 + 0x10000);
    }

    /** MACHINE_RESET(pc9801rs): the common reset, then A20 gate closed
        (and the CPU line with it), FDC mode 3, access control 0, IDE
        channel 1 with no interrupt pending. */
    method RsReset() returns (effects: seq<Effect>)
      requires Valid()
      modifies this, tvram
      ensures Valid() && tvram[..] == TvramAtReset()
      ensures Regs() == old(Regs()).(nmiFf := 0, mouse := Pc98Mouse.Reset(old(mouse)),
                                     dma := Pc98Dma.ResetModes(old(dma)), egc := EgcReset,
                                     gateA20 := false, fdcCtrl := 3, accessCtrl := 0,
                                     ide := Ide(0, false, false))
      ensures effects == [BeeperOn(false), CpuA20(false)]
    {
      effects := CommonReset();
      ghost var common := Regs();
      gateA20 := false;
      fdcCtrl := 3;
      accessCtrl := 0;
      ide := Ide(0, false, false);
      assert Regs() == common.(gateA20 := false, fdcCtrl := 3, accessCtrl := 0, ide := Ide(0, false, false));
      assert Valid();
      effects := effects + [CpuA20(gateA20)];
    }

    /** MACHINE_RESET(pc9821): the 386 reset, then window bank 8. */
    method Pc9821Reset() returns (effects: seq<Effect>)
      requires Valid()
      modifies this, tvram
      ensures Valid() && tvram[..] == TvramAtReset()
      ensures Regs() == old(Regs()).(nmiFf := 0, mouse := Pc98Mouse.Reset(old(mouse)),
                                     dma := Pc98Dma.ResetModes(old(dma)), egc := EgcReset,
                                     gateA20 := false, fdcCtrl := 3, accessCtrl := 0,
                                     ide := Ide(0, false, false), windowBank := 0x08)
      ensures effects == [BeeperOn(false), CpuA20(false)]
    {
      effects := RsReset();
      windowBank := 0x08;
    }

    // -- DMA ----------------------------------------------------------------------------

    method DmaPage4W(offset: nat, data: bv8)
      requires Valid()
      modifies this
      ensures Valid() && Regs() == old(Regs()).(dma := Pc98Dma.PageWrite4(old(dma), offset, data))
    {
      dma := Pc98Dma.PageWrite4(dma, offset, data);
    }

    method DmaPage8W(offset: nat, data: bv8)
      requires Valid()
      modifies this
      ensures Valid() && Regs() == old(Regs()).(dma := Pc98Dma.PageWrite8(old(dma), offset, data))
    {
      dma := Pc98Dma.PageWrite8(dma, offset, data);
    }

    /** dma_read_byte / dma_write_byte: the program-space address of the
        cycle; the page then steps as the channel's mode says. */
    method DmaCycle(offset: bv16) returns (address: bv32)
      requires Valid()
      modifies this
      ensures Valid()
      ensures address == Pc98Dma.Address(old(dma), offset)
      ensures Regs() == old(Regs()).(dma := Pc98Dma.Transfer(old(dma), offset).dma)
    {
      var c := Pc98Dma.Transfer(dma, offset);
      address := c.address;
      dma := c.dma;
    }

    method SetDmaChannel(channel: nat, state: bool)
      requires Valid() && channel < 4
      modifies this
      ensures Valid() && Regs() == old(Regs()).(dma := Pc98Dma.Acknowledge(old(dma), channel, state))
    {
      dma := Pc98Dma.Acknowledge(dma, channel, state);
    }

    // -- system control -------------------------------------------------------------------

    /** nmi_ctrl_w: the flip-flop takes the handler offset, truncated to a byte. */
    method NmiCtrlW(offset: nat)
      modifies this
      ensures Regs() == old(Regs()).(nmiFf := (offset % 256) as bv8)
    {
      nmiFf := (offset % 256) as bv8;
    }

    method A20CtrlR(offset: nat) returns (v: bv8)
      ensures v == A20Read(gateA20, nmiFf, offset, amd98)
    {
      v := A20Read(gateA20, nmiFf, offset, amd98);
    }

    method A20CtrlW(offset: nat, data: bv8) returns (effects: seq<Effect>)
      modifies this
      ensures Regs() == old(Regs()).(gateA20 := A20Write(old(gateA20), offset, data).gate)
      ensures effects == A20Write(old(gateA20), offset, data).effects
    {
      var r := A20Write(gateA20, offset, data);
      gateA20 := r.gate;
      effects := r.effects;
    }

    method BankW(offset: nat, data: bv8) returns (effects: seq<Effect>)
      modifies this
      ensures Regs() == old(Regs()).(vramBank := BankWrite(old(vramBank), offset, data).vramBank)
      ensures effects == BankWrite(old(vramBank), offset, data).effects
    {
      var r := BankWrite(vramBank, offset, data);
      vramBank := r.vramBank;
      effects := r.effects;
    }

    method AccessCtrlR(offset: nat) returns (v: bv8)
      ensures v == AccessCtrlRead(accessCtrl, offset)
    {
      v := AccessCtrlRead(accessCtrl, offset);
    }

    method AccessCtrlW(offset: nat, data: bv8)
      modifies this
      ensures Regs() == old(Regs()).(accessCtrl := AccessCtrlWrite(old(accessCtrl), offset, data))
    {
      accessCtrl := AccessCtrlWrite(accessCtrl, offset, data);
    }

    method WindowBankR(offset: nat) returns (v: bv8)
      ensures v == WindowBankRead(windowBank, offset)
    {
      v := WindowBankRead(windowBank, offset);
    }

    method WindowBankW(offset: nat, data: bv8)
      modifies this
      ensures Regs() == old(Regs()).(windowBank := WindowBankWrite(old(windowBank), offset, data))
    {
      windowBank := WindowBankWrite(windowBank, offset, data);
    }

    /** sdip_N_r for register n. */
    method SdipR(n: nat, port: nat) returns (v: bv8)
      requires Valid() && n < 12
      ensures v == SdipRead(sdip, n, port)
    {
      v := SdipRead(sdip, n, port);
    }

    /** sdip_N_w for register n. */
    method SdipW(n: nat, port: nat, data: bv8)
      requires Valid() && n < 12
      modifies this
      ensures Valid() && Regs() == old(Regs()).(sdip := SdipWrite(old(sdip), n, port, data))
    {
      sdip := SdipWrite(sdip, n, port, data);
    }

    /** ext2_video_ff_r; the display register is the base video flip-flop
        state, which this model does not hold. */
    method Ext2VideoFfR(displayReg: bv8) returns (v: bv8)
      requires Valid()
      ensures v == Ext2Read(ext2Ff, displayReg, exVideoFf)
    {
      v := Ext2Read(ext2Ff, displayReg, exVideoFf);
    }

    method Ext2VideoFfW(data: bv8)
      modifies this
      ensures Regs() == old(Regs()).(ext2Ff := data)
    {
      ext2Ff := data;
    }

    // -- video ------------------------------------------------------------------------------

    /** grcg_w; `toBase` asks for the text-scroll handler instead. */
    method GrcgW(offset: nat, data: bv8) returns (toBase: bool)
      requires Valid()
      modifies this
      ensures Valid() && Regs() == old(Regs()).(grcg := GrcgWrite(old(grcg), offset, data).grcg)
      ensures toBase == GrcgWrite(old(grcg), offset, data).toBase
    {
      var r := GrcgWrite(grcg, offset, data);
      grcg := r.grcg;
      toBase := r.toBase;
    }

    /** egc_w: enabled by extended flip-flop 2. */
    method EgcW(offset: nat, data: bv16, mask: bv16)
      requires Valid() && offset < 8
      modifies this
      ensures Valid()
      ensures Regs() == old(Regs()).(egc := EgcWrite(old(egc), old(exVideoFf)[2] != 0, offset, data, mask))
    {
      egc := EgcWrite(egc, exVideoFf[2] != 0, offset, data, mask);
    }

    method RsVideoFfW(offset: nat, data: bv8) returns (toBase: bool)
      requires Valid()
      modifies this
      ensures Valid()
      ensures Regs() == old(Regs()).(exVideoFf := RsVideoFfWrite(old(exVideoFf), offset, data).ex)
      ensures toBase == RsVideoFfWrite(old(exVideoFf), offset, data).toBase
    {
      var r := RsVideoFfWrite(exVideoFf, offset, data);
      exVideoFf := r.ex;
      toBase := r.toBase;
    }

    method Pc9821VideoFfW(offset: nat, data: bv8) returns (toBase: bool)
      requires Valid()
      modifies this
      ensures Valid()
      ensures Regs() == old(Regs()).(exVideoFf := Pc9821VideoFfWrite(old(exVideoFf), offset, data).ex)
      ensures toBase == Pc9821VideoFfWrite(old(exVideoFf), offset, data).toBase
    {
      var r := Pc9821VideoFfWrite(exVideoFf, offset, data);
      exVideoFf := r.ex;
      toBase := r.toBase;
    }

    method RsA0W(offset: nat, data: bv8) returns (toBase: bool)
      requires Valid()
      modifies this
      ensures Valid()
      ensures Regs() == old(Regs()).(pal16 := RsA0Write(old(pal16), old(exVideoFf), offset, data).pal16)
      ensures toBase == RsA0Write(old(pal16), old(exVideoFf), offset, data).toBase
    {
      var r := RsA0Write(pal16, exVideoFf, offset, data);
      pal16 := r.pal16;
      toBase := r.toBase;
    }

    method Pc9821A0R(offset: nat) returns (r: Read)
      requires Valid()
      ensures r == Pc9821A0Read(pal16, exVideoFf, offset)
    {
      r := Pc9821A0Read(pal16, exVideoFf, offset);
    }

    method Pc9821A0W(offset: nat, data: bv8) returns (toBase: bool)
      requires Valid()
      modifies this
      ensures Valid()
      ensures var r := Pc9821A0Write(old(pal16), old(pal256), old(exVideoFf), offset, data);
              Regs() == old(Regs()).(pal16 := r.pal16, pal256 := r.pal256) && toBase == r.toBase
    {
      var r := Pc9821A0Write(pal16, pal256, exVideoFf, offset, data);
      pal16 := r.pal16;
      pal256 := r.pal256;
      toBase := r.toBase;
    }

    /** pc9821_grcg_gvram0_w: the 256-colour write bank register, then the
        plane write (not modelled) at the returned address. */
    method Pc9821Gvram0W(offset: bv32, data: bv16, mask: bv16) returns (addr: bv32)
      requires Valid() && offset < 0x4000
      modifies this
      ensures Valid()
      ensures Regs() == old(Regs()).(pal256 := Pc9821Gvram0Write(old(exVideoFf), old(pal256), offset, data, mask))
      ensures addr == Gvram0Addr(offset, old(vramBank))
    {
      pal256 := Pc9821Gvram0Write(exVideoFf, pal256, offset, data, mask);
      addr := Gvram0Addr(offset, vramBank);
    }

    // -- IDE, floppy, SASI ---------------------------------------------------------------

    method IdeCtrlR() returns (v: bv8)
      ensures v == ide.sel
    {
      v := ide.sel;
    }

    method IdeCtrlW(data: bv8)
      modifies this
      ensures Regs() == old(Regs()).(ide := IdeCtrlWrite(old(ide), data))
    {
      ide := IdeCtrlWrite(ide, data);
    }

    /** ide1_irq_w (channel 1) and ide2_irq_w (channel 2). */
    method IdeIrqW(channel: nat, state: bool) returns (effect: Effect)
      requires channel == 1 || channel == 2
      modifies this
      ensures Regs() == old(Regs()).(ide := IdeIrq(old(ide), channel, state).ide)
      ensures effect == IdeIrq(old(ide), channel, state).effect
    {
      var r := IdeIrq(ide, channel, state);
      ide := r.ide;
      effect := r.effect;
    }

    method FdcModeCtrlR() returns (v: bv8)
      ensures v == FdcModeRead(fdcCtrl)
    {
      v := FdcModeRead(fdcCtrl);
    }

    method FdcModeCtrlW(data: bv8) returns (effects: seq<Effect>)
      modifies this
      ensures Regs() == old(Regs()).(fdcCtrl := data)
      ensures effects == FdcModeEffects(data)
    {
      effects := FdcModeEffects(data);
      fdcCtrl := data;
    }

    method Fdc2hdCtrlW(data: bv8) returns (effects: seq<Effect>)
      modifies this
      ensures Regs() == old(Regs()).(fdc2hdCtrl := data)
      ensures effects == Fdc2hdEffects(old(fdc2hdCtrl), old(fdcCtrl), sysType, data)
    {
      effects := Fdc2hdEffects(fdc2hdCtrl, fdcCtrl, sysType, data);
      fdc2hdCtrl := data;
    }

    method Fdc2ddCtrlW(data: bv8) returns (effects: seq<Effect>)
      modifies this
      ensures Regs() == old(Regs()).(fdc2ddCtrl := data)
      ensures effects == Fdc2ddEffects(old(fdc2ddCtrl), data)
    {
      effects := Fdc2ddEffects(fdc2ddCtrl, data);
      fdc2ddCtrl := data;
    }

    method SasiCtrlW(data: bv8) returns (effects: seq<Effect>)
      modifies this
      ensures Regs() == old(Regs()).(sasiCtrl := data)
      ensures effects == SasiCtrlEffects(old(sasiCtrl), data)
    {
      effects := SasiCtrlEffects(sasiCtrl, data);
      sasiCtrl := data;
    }

    // -- mouse ------------------------------------------------------------------------------

    method MousePortAR(buttons: bv8, x: bv8, y: bv8) returns (v: bv8)
      ensures v == Pc98Mouse.PortARead(mouse, buttons, x, y)
    {
      v := Pc98Mouse.PortARead(mouse, buttons, x, y);
    }

    method MousePortCW(data: bv8, x: bv8, y: bv8)
      requires Valid()
      modifies this
      ensures Valid() && Regs() == old(Regs()).(mouse := Pc98Mouse.PortCWrite(old(mouse), data, x, y))
    {
      mouse := Pc98Mouse.PortCWrite(mouse, data, x, y);
    }

    method MouseFreqW(offset: nat, data: bv8)
      requires Valid()
      modifies this
      ensures Valid() && Regs() == old(Regs()).(mouse := Pc98Mouse.FreqWrite(old(mouse), offset, data))
    {
      mouse := Pc98Mouse.FreqWrite(mouse, offset, data);
    }

    /** mouse_irq_cb: one timer tick; an interrupt pulses the slave PIC's IR5. */
    method MouseIrqTick() returns (effects: seq<Effect>)
      requires Valid()
      modifies this
      ensures Valid() && Regs() == old(Regs()).(mouse := Pc98Mouse.TimerTick(old(mouse)).mouse)
      ensures effects == if Pc98Mouse.TimerTick(old(mouse)).irq then [SlaveIr5Pulse] else []
    {
      var t := Pc98Mouse.TimerTick(mouse);
      mouse := t.mouse;
      effects := if t.irq then [SlaveIr5Pulse] else [];
    }
  }

  /** The text VRAM part of MACHINE_RESET(pc9801_common). */
  method ResetTvram(tvram: array<bv16>)
    requires tvram.Length == TvramWords
    modifies tvram
    ensures tvram[..] == TvramAtReset()
  {
    var i := 0;
    while i < TvramWords
      invariant 0 <= i <= TvramWords
      invariant forall k :: 0 <= k < i ==> tvram[k] == 0
    {
      tvram[i] := 0;
      i := i + 1;
    }
    var j := 0;
    while j < 16
      invariant 0 <= j <= 16
      invariant forall k :: 0 <= k < MemswBase ==> tvram[k] == 0
      invariant forall k :: 0 <= k < j ==> tvram[MemswBase + k] == DefaultMemsw[k]
    {
      tvram[MemswBase + j] := DefaultMemsw[j];
      j := j + 1;
    }
    assert forall k :: 0 <= k < TvramWords ==> tvram[k] == TvramAtReset()[k] by {
      forall k | 0 <= k < TvramWords
        ensures tvram[k] == TvramAtReset()[k]
      {
        if k >= MemswBase {
          assert tvram[MemswBase + (k - MemswBase)] == DefaultMemsw[k - MemswBase];
        }
      }
    }
    assert tvram[..] == TvramAtReset();
  }

  /** The FDC BIOS copy loop: 0x1000 bytes from `base` on. */
  method CopyBank(prg: array<bv8>, rom: array<bv8>, base: nat)
    requires base + 0x1000 <= prg.Length && rom.Length >= 0x1000 && prg != rom
    modifies rom
    ensures rom[..0x1000] == FdcBiosBank(prg[..], base)
    ensures rom[0x1000..] == old(rom[0x1000..])
  {
    var i := 0;
    while i < 0x1000
      invariant 0 <= i <= 0x1000
      invariant forall k :: 0 <= k < i ==> rom[k] == prg[base + k]
      invariant forall k :: 0x1000 <= k < rom.Length ==> rom[k] == old(rom[k])
    {
      rom[i] := prg[base + i];
      i := i + 1;
    }
    assert rom[..0x1000] == FdcBiosBank(prg[..], base);
  }
}
