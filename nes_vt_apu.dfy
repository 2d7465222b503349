/** The VTxx APU: a NES APU ("base") paired with a second legacy APU (XOP2),
    extra registers at 0x30-0x36 and PCM channels, behind one register window
    at 0x4000 + address. */
module VtApu {

  /** The part of m_apu_vt that the register handlers read and write. */
  datatype Apu = Apu(
    useVt03Pcm: bool,
    useVt3xPcm: bool,
    extraRegs: seq<bv8>,   // 0x30-0x36
    vt03Regs: seq<bv8>,    // VT03 PCM registers, shown at 0x10-0x13
    vt03Enabled: bool)

  predicate WellFormed(a: Apu) { |a.extraRegs| == 7 && |a.vt03Regs| == 4 }

  /** Calls the handlers make on the two legacy APUs and the VT register hook. */
  datatype Effect =
    | BaseWrite(addr: nat, value: bv8)   // nesapu_device::write
    | Xop2Write(addr: nat, value: bv8)   // the secondary APU's write
    | RegWrite(addr: nat, value: bv8)    // vt_apu_regwrite

  /** The three sub-ranges the VT registers occupy. */
  predicate ExtraReg(addr: nat) { 0x30 <= addr <= 0x36 }
  predicate PcmReg(addr: nat) { 0x10 <= addr <= 0x13 }
  predicate Xop2Reg(addr: nat) { 0x20 <= addr <= 0x2f }

  /** vt_apu_read: extra registers, VT03 PCM registers, and the status
      register 0x15, whose bit 4 shows the VT03 PCM enable in VT03 mode. */
  function VtRead(a: Apu, addr: nat, base: nat -> bv8): (v: bv8)
    requires WellFormed(a)
    ensures ExtraReg(addr) ==> v == a.extraRegs[addr - 0x30]
    ensures PcmReg(addr) ==> v == a.vt03Regs[addr - 0x10]
    ensures addr == 0x15 && !a.useVt03Pcm ==> v == base(0x15)
    ensures addr == 0x15 && a.useVt03Pcm ==>
              v & 0x4f == base(0x15) & 0x4f && v & 0xa0 == 0 && (v & 0x10 != 0 <==> a.vt03Enabled)
    ensures !ExtraReg(addr) && !PcmReg(addr) && addr != 0x15 ==> v == 0
  {
    if ExtraReg(addr) then a.extraRegs[addr - 0x30]
    else if PcmReg(addr) then a.vt03Regs[addr - 0x10]
    else if addr == 0x15 then
      if a.useVt03Pcm then (base(0x15) & 0x4f) | (if a.vt03Enabled then 0x10 else 0)
      else base(0x15)
    else 0
  }

  /** read: 0x00-0x0F go to the base APU, 0x10-0x13 to the base APU unless
      VT03 PCM is on, 0x20-0x2F to XOP2, 0x15 and 0x30-0x36 to vt_apu_read;
      anything else reads 0. */
  function Read(a: Apu, addr: nat, base: nat -> bv8, xop2: nat -> bv8): (v: bv8)
    requires WellFormed(a)
    ensures addr <= 0x0f ==> v == base(addr)
    ensures PcmReg(addr) ==> v == (if a.useVt03Pcm then a.vt03Regs[addr - 0x10] else base(addr))
    ensures Xop2Reg(addr) ==> v == xop2(addr - 0x20)
    ensures (addr == 0x15 || ExtraReg(addr)) ==> v == VtRead(a, addr, base)
    ensures !(addr <= 0x15 || Xop2Reg(addr) || ExtraReg(addr)) ==> v == 0
    ensures addr == 0x14 ==> v == 0
  {
    if addr <= 0x0f then base(addr)
    else if PcmReg(addr) then (if !a.useVt03Pcm then base(addr) else VtRead(a, addr, base))
    else if Xop2Reg(addr) then xop2(addr - 0x20)
    else if addr == 0x15 || ExtraReg(addr) then VtRead(a, addr, base)
    else 0
  }

  /** Result of a register write. */
  datatype WriteResult = WriteResult(apu: Apu, effects: seq<Effect>)

  /** vt_apu_write: with VT3x PCM off, 0x35 drives XOP2's channel enable
      (low nibble); otherwise 0x30-0x36 store into the extra registers; 0x15
      reaches the base APU, with its DMC bit masked off when either PCM is in
      use; every address is then passed to the VT register hook. */
  function VtWrite(a: Apu, addr: nat, data: bv8): (r: WriteResult)
    requires WellFormed(a)
    ensures WellFormed(r.apu)
    ensures r.apu == (if ExtraReg(addr) && !(addr == 0x35 && !a.useVt3xPcm)
                      then a.(extraRegs := a.extraRegs[addr - 0x30 := data]) else a)
    ensures |r.effects| >= 1 && r.effects[|r.effects| - 1] == RegWrite(addr, data)
    ensures addr == 0x35 && !a.useVt3xPcm ==> r.effects == [Xop2Write(0x15, data & 0x0f), RegWrite(addr, data)]
    ensures addr == 0x15 ==>
              r.effects == [BaseWrite(0x15, if a.useVt03Pcm || a.useVt3xPcm then data & 0x0f else data),
                            RegWrite(addr, data)]
    ensures addr != 0x15 && !(addr == 0x35 && !a.useVt3xPcm) ==> r.effects == [RegWrite(addr, data)]
  {
    if addr == 0x35 && !a.useVt3xPcm then
      WriteResult(a, [Xop2Write(0x15, data & 0x0f), RegWrite(addr, data)])
    else if ExtraReg(addr) then
      WriteResult(a.(extraRegs := a.extraRegs[addr - 0x30 := data]), [RegWrite(addr, data)])
    else if addr == 0x15 then
      var nesVal := if a.useVt03Pcm || a.useVt3xPcm then data & 0x0f else data;
      WriteResult(a, [BaseWrite(0x15, nesVal), RegWrite(addr, data)])
    else
      WriteResult(a, [RegWrite(addr, data)])
  }

  /** write: the same routing as read; 0x10-0x13 go to the VT handler when
      either PCM is in use, and unknown addresses are dropped. */
  function Write(a: Apu, addr: nat, data: bv8): (r: WriteResult)
    requires WellFormed(a)
    ensures WellFormed(r.apu)
    ensures addr <= 0x0f ==> r == WriteResult(a, [BaseWrite(addr, data)])
    ensures Xop2Reg(addr) ==> r == WriteResult(a, [Xop2Write(addr - 0x20, data)])
    ensures PcmReg(addr) && !a.useVt03Pcm && !a.useVt3xPcm ==> r == WriteResult(a, [BaseWrite(addr, data)])
    ensures PcmReg(addr) && (a.useVt03Pcm || a.useVt3xPcm) ==> r == WriteResult(a, [RegWrite(addr, data)])
    ensures (addr == 0x15 || ExtraReg(addr)) ==> r == VtWrite(a, addr, data)
    ensures !(addr <= 0x13 || addr == 0x15 || Xop2Reg(addr) || ExtraReg(addr)) ==> r == WriteResult(a, [])
  {
    if addr <= 0x0f then WriteResult(a, [BaseWrite(addr, data)])
    else if PcmReg(addr) then
      if a.useVt03Pcm || a.useVt3xPcm then VtWrite(a, addr, data) else WriteResult(a, [BaseWrite(addr, data)])
    else if Xop2Reg(addr) then WriteResult(a, [Xop2Write(addr - 0x20, data)])
    else if addr == 0x15 || ExtraReg(addr) then VtWrite(a, addr, data)
    else WriteResult(a, [])
  }

  /** An extra register reads back what was written to it, except 0x35 while
      VT3x PCM is off, which belongs to XOP2 and keeps its old value. */
  lemma ExtraRegRoundTrip(a: Apu, addr: nat, data: bv8, base: nat -> bv8, xop2: nat -> bv8)
    requires WellFormed(a) && ExtraReg(addr)
    ensures Read(Write(a, addr, data).apu, addr, base, xop2)
         == if addr == 0x35 && !a.useVt3xPcm then Read(a, addr, base, xop2) else data
  {
  }

  /** Writes change nothing but the one extra register they address; in
      particular a write never changes the PCM mode flags. */
  lemma WriteFrame(a: Apu, addr: nat, data: bv8, other: nat)
    requires WellFormed(a) && ExtraReg(other) && other != addr
    ensures Write(a, addr, data).apu.extraRegs[other - 0x30] == a.extraRegs[other - 0x30]
    ensures Write(a, addr, data).apu.useVt03Pcm == a.useVt03Pcm
    ensures Write(a, addr, data).apu.useVt3xPcm == a.useVt3xPcm
    ensures Write(a, addr, data).apu.vt03Regs == a.vt03Regs
  {
  }

  /** In VT03 mode the status register keeps only the base APU's length and
      frame bits and shows the PCM enable in bit 4. */
  lemma StatusInVt03Mode(a: Apu, base: nat -> bv8, xop2: nat -> bv8)
    requires WellFormed(a) && a.useVt03Pcm
    ensures Read(a, 0x15, base, xop2) == (base(0x15) & 0x4f) | (if a.vt03Enabled then 0x10 else 0)
  {
  }

  /** The channel-enable write 0x15 never lets the base APU's DMC enable
      bit through while a PCM unit is in use. */
  lemma DmcMaskedUnderPcm(a: Apu, data: bv8, e: Effect)
    requires WellFormed(a) && (a.useVt03Pcm || a.useVt3xPcm)
    requires e in Write(a, 0x15, data).effects && e.BaseWrite?
    ensures e.value & 0xf0 == 0 && e.value == data & 0x0f
  {
  }

  // -- mixing ---------------------------------------------------------------

  /** stream_sample_t >> 8: an arithmetic shift, i.e. division rounding
      toward minus infinity. */
  function Asr8(x: int): (r: int)
    ensures r * 256 <= x < r * 256 + 256
  {
    x / 256
  }

  /** The 8-bit clamp of the mixer. */
  function Clamp8(x: int): (r: int)
    ensures -128 <= r <= 127
    ensures -128 <= x <= 127 ==> r == x
    ensures x > 127 ==> r == 127
    ensures x < -128 ==> r == -128
  {
    if x > 127 then 127 else if x < -128 then -128 else x
  }

  /** One output sample: both legacy APUs scaled down by 256, plus the VT03
      and the two VT3x PCM values, clamped to 8 bits and scaled back up. */
  function MixSample(p: int, s: int, pcm03: int, pcm3x0: int, pcm3x1: int): (r: int)
    ensures -32768 <= r <= 32512 && r % 256 == 0
    ensures var sum := Asr8(p) + Asr8(s) + pcm03 + pcm3x0 + pcm3x1;
            (-128 <= sum <= 127 ==> r == sum * 256) && (sum >= 127 <==> r == 32512)
  {
    Clamp8(Asr8(p) + Asr8(s) + pcm03 + pcm3x0 + pcm3x1) * 256
  }

  /** Every mixed sample is a multiple of 256 within a signed 16-bit range. */
  lemma MixSampleRange(p: int, s: int, pcm03: int, pcm3x0: int, pcm3x1: int)
    ensures -32768 <= MixSample(p, s, pcm03, pcm3x0, pcm3x1) <= 32512
    ensures MixSample(p, s, pcm03, pcm3x0, pcm3x1) % 256 == 0
  {
  }

  /** Silence in gives silence out. */
  lemma MixSilence()
    ensures MixSample(0, 0, 0, 0, 0) == 0
  {
  }

  /** The clamp never reverses an order. */
  lemma Clamp8Monotone(x: int, y: int)
    requires x <= y
    ensures Clamp8(x) <= Clamp8(y)
  {
  }

  /** The mixer is monotone in the VT03 PCM input. */
  lemma MixSampleMonotone(p: int, s: int, pcm03: int, pcm3x0: int, pcm3x1: int, d: nat)
    ensures MixSample(p, s, pcm03, pcm3x0, pcm3x1) <= MixSample(p, s, pcm03 + d, pcm3x0, pcm3x1)
  {
    var x := Asr8(p) + Asr8(s) + pcm03 + pcm3x0 + pcm3x1;
    assert Asr8(p) + Asr8(s) + (pcm03 + d) + pcm3x0 + pcm3x1 == x + d;
    Clamp8Monotone(x, x + d);
  }

  /** The whole buffer, sample by sample. */
  function Mixed(p: seq<int>, s: seq<int>, v03: seq<int>, v3x0: seq<int>, v3x1: seq<int>): (r: seq<int>)
    requires |s| == |p| && |v03| == |p| && |v3x0| == |p| && |v3x1| == |p|
    ensures |r| == |p|
  {
    seq(|p|, i requires 0 <= i < |p| => MixSample(p[i], s[i], v03[i], v3x0[i], v3x1[i]))
  }

  /** sound_stream_update's output loop. The legacy APU buffers and the values
      the PCM generators return, call by call, are inputs. */
  method MixInto(out: array<int>, p: seq<int>, s: seq<int>, v03: seq<int>, v3x0: seq<int>, v3x1: seq<int>)
    requires out.Length == |p| && |s| == |p| && |v03| == |p| && |v3x0| == |p| && |v3x1| == |p|
    modifies out
    ensures out[..] == Mixed(p, s, v03, v3x0, v3x1)
  {
    var i := 0;
    while i < out.Length
      invariant 0 <= i <= out.Length
      invariant forall k :: 0 <= k < i ==> out[k] == MixSample(p[k], s[k], v03[k], v3x0[k], v3x1[k])
    {
      var accum := 0;
      accum := accum + p[i] / 256;
      accum := accum + s[i] / 256;
      accum := accum + v03[i];
      accum := accum + v3x0[i];
      accum := accum + v3x1[i];
      if accum > 127 {
        accum := 127;
      } else if accum < -128 {
        accum := -128;
      }
      out[i] := accum * 256;
      i := i + 1;
    }
  }

  /** The device: the VT registers live in fixed-size arrays updated in place. */
  class NesapuVt {
    var useVt03Pcm: bool
    var useVt3xPcm: bool
    const extraRegs: array<bv8>
    const vt03Regs: array<bv8>
    var vt03Enabled: bool

    ghost predicate Valid() reads this { extraRegs.Length == 7 && vt03Regs.Length == 4 && extraRegs != vt03Regs }

    function State(): (a: Apu) reads this, extraRegs, vt03Regs
      ensures Valid() ==> WellFormed(a)
    {
      Apu(useVt03Pcm, useVt3xPcm, extraRegs[..], vt03Regs[..], vt03Enabled)
    }

    /** A new device: both PCM modes off and every VT register zero. */
    constructor ()
      ensures Valid() && fresh(extraRegs) && fresh(vt03Regs)
      ensures State() == Apu(false, false, [0, 0, 0, 0, 0, 0, 0], [0, 0, 0, 0], false)
    {
      useVt03Pcm := false;
      useVt3xPcm := false;
      vt03Enabled := false;
      var extra := new bv8[7](_ => 0);
      var vt03 := new bv8[4](_ => 0);
      assert extra[..] == [0, 0, 0, 0, 0, 0, 0];
      assert vt03[..] == [0, 0, 0, 0];
      extraRegs := extra;
      vt03Regs := vt03;
    }

    method ReadReg(addr: nat, base: nat -> bv8, xop2: nat -> bv8) returns (v: bv8)
      requires Valid()
      ensures v == Read(State(), addr, base, xop2)
    {
      if addr <= 0x0f {
        v := base(addr);
      } else if 0x10 <= addr <= 0x13 && !useVt03Pcm {
        v := base(addr);
      } else if 0x10 <= addr <= 0x13 {
        v := vt03Regs[addr - 0x10];
      } else if 0x20 <= addr <= 0x2f {
        v := xop2(addr - 0x20);
      } else if 0x30 <= addr <= 0x36 {
        v := extraRegs[addr - 0x30];
      } else if addr == 0x15 {
        v := base(0x15);
        if useVt03Pcm {
          v := (v & 0x4f) | (if vt03Enabled then 0x10 else 0);
        }
      } else {
        v := 0;
      }
    }

    method WriteReg(addr: nat, data: bv8) returns (effects: seq<Effect>)
      requires Valid()
      modifies extraRegs
      ensures Valid()
      ensures WriteResult(State(), effects) == Write(old(State()), addr, data)
    {
      if addr <= 0x0f {
        effects := [BaseWrite(addr, data)];
      } else if 0x10 <= addr <= 0x13 && !useVt03Pcm && !useVt3xPcm {
        effects := [BaseWrite(addr, data)];
      } else if 0x20 <= addr <= 0x2f {
        effects := [Xop2Write(addr - 0x20, data)];
      } else if 0x10 <= addr <= 0x15 || 0x30 <= addr <= 0x36 {
        if addr == 0x14 {
          effects := [];
          return;
        }
        effects := [];
        if addr == 0x35 && !useVt3xPcm {
          effects := [Xop2Write(0x15, data & 0x0f)];
        } else if 0x30 <= addr <= 0x36 {
          extraRegs[addr - 0x30] := data;
        } else if addr == 0x15 {
          var nesVal := data;
          if useVt03Pcm || useVt3xPcm {
            nesVal := nesVal & 0x0f;
          }
          effects := [BaseWrite(0x15, nesVal)];
        }
        effects := effects + [RegWrite(addr, data)];
      } else {
        effects := [];
      }
    }
  }
}
