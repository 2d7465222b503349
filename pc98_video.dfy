/** PC-9801 graphics-side registers: the GRCG tile latch, the EGC register
    file, the mode flip-flops of the RS and 9821, the 16- and 256-colour
    palette overlays on ports 0xA8-0xAE, and the GVRAM windows. A write that
    a handler passes on to the base handler of the original model
    (txt_scrl_w, pc9801_video_ff_w, pc9801_a0_w) is reported, not modelled. */
module Pc98Video {
  import opened Bits
  import opened Pc98System

  /** The outcome of a read that an overriding handler may pass on. */
  datatype Read = Value(v: bv8) | ToBase

  // -- GRCG ----------------------------------------------------------------------

  datatype Grcg = Grcg(mode: bv8, tileIndex: bv8, tile: seq<bv8>)

  predicate GrcgWellFormed(g: Grcg) { |g.tile| == 4 && g.tileIndex < 4 }

  /** grcg_r: the mode and tile registers read 0xFF; other offsets are the
      text-scroll registers underneath. */
  function GrcgRead(offset: nat): (r: Read)
    ensures offset == 6 || offset == 7 ==> r == Value(0xff)
    ensures offset != 6 && offset != 7 ==> r == ToBase
  {
    if offset == 6 || offset == 7 then Value(0xff) else ToBase
  }

  datatype GrcgResult = GrcgResult(grcg: Grcg, toBase: bool)

  /** grcg_w: offset 6 sets the mode and rewinds the tile index; offset 7
      stores the bit-reversed byte in the current tile and moves to the next
      one, modulo 4; other offsets go to the text-scroll registers. */
  function GrcgWrite(g: Grcg, offset: nat, data: bv8): (r: GrcgResult)
    requires GrcgWellFormed(g)
    ensures GrcgWellFormed(r.grcg)
    ensures offset == 6 ==> r == GrcgResult(Grcg(data, 0, g.tile), false)
    ensures offset == 7 ==> (!r.toBase && r.grcg.mode == g.mode
              && r.grcg.tile == g.tile[g.tileIndex as int := Reverse8(data)]
              && r.grcg.tileIndex as int == (g.tileIndex as int + 1) % 4)
    ensures offset != 6 && offset != 7 ==> r == GrcgResult(g, true)
  {
    if offset == 6 then GrcgResult(g.(mode := data, tileIndex := 0), false)
    else if offset == 7 then
      GrcgResult(g.(tile := g.tile[g.tileIndex as int := Reverse8(data)],
                    tileIndex := (g.tileIndex + 1) & 3), false)
    else GrcgResult(g, true)
  }

  /** A mode write followed by four tile writes loads the four tiles in
      order, each bit-reversed, and leaves the index back at 0. */
  lemma GrcgLoadTiles(g: Grcg, mode: bv8, d0: bv8, d1: bv8, d2: bv8, d3: bv8)
    requires GrcgWellFormed(g)
    ensures var g0 := GrcgWrite(g, 6, mode).grcg;
            var g1 := GrcgWrite(g0, 7, d0).grcg;
            var g2 := GrcgWrite(g1, 7, d1).grcg;
            var g3 := GrcgWrite(g2, 7, d2).grcg;
            var g4 := GrcgWrite(g3, 7, d3).grcg;
            g4 == Grcg(mode, 0, [Reverse8(d0), Reverse8(d1), Reverse8(d2), Reverse8(d3)])
  {
  }

  // -- EGC ----------------------------------------------------------------------------

  datatype Egc = Egc(regs: seq<bv16>, pat: seq<bv16>, count: int, first: bool, init: bool)

  predicate EgcWellFormed(e: Egc) { |e.regs| == 8 && |e.pat| == 4 }

  /** The all-zero EGC of MACHINE_RESET(pc9801_common). */
  const EgcReset: Egc := Egc([0, 0, 0, 0, 0, 0, 0, 0], [0, 0, 0, 0], 0, false, false)

  /** The pattern registers for a colour: plane i all ones iff bit i is set. */
  function PatternFor(color: bv8): (p: seq<bv16>)
    ensures |p| == 4
    ensures p[0] == (if color & 1 != 0 then 0xffff else 0)
    ensures p[1] == (if color & 2 != 0 then 0xffff else 0)
    ensures p[2] == (if color & 4 != 0 then 0xffff else 0)
    ensures p[3] == (if color & 8 != 0 then 0xffff else 0)
  {
    [if color & 1 != 0 then 0xffff else 0, if color & 2 != 0 then 0xffff else 0,
     if color & 4 != 0 then 0xffff else 0, if color & 8 != 0 then 0xffff else 0]
  }

  /** Where the pattern colour comes from (bits 14-13 of register 1): the
      background colour register 5, the foreground register 3, or neither. */
  function PatternSource(regs: seq<bv16>): (src: Option<nat>)
    requires |regs| == 8
    ensures (regs[1] >> 13) & 3 == 1 ==> src == Some(5)
    ensures (regs[1] >> 13) & 3 == 2 ==> src == Some(3)
    ensures (regs[1] >> 13) & 3 != 1 && (regs[1] >> 13) & 3 != 2 ==> src == None
  {
    var sel := (regs[1] >> 13) & 3;
    if sel == 1 then Some(5) else if sel == 2 then Some(3) else None
  }

  /** Register 4 is frozen while bits 14-13 of register 1 are non-zero. */
  predicate EgcRegWritable(e: Egc, offset: nat)
    requires EgcWellFormed(e)
  {
    e.regs[1] & 0x6000 == 0 || offset != 4
  }

  /** egc_w, first step: the masked merge into the register file, which
      skips register 4 while it is frozen. */
  function EgcMerge(e: Egc, offset: nat, data: bv16, mask: bv16): (regs: seq<bv16>)
    requires EgcWellFormed(e) && offset < 8
    ensures |regs| == 8
    ensures EgcRegWritable(e, offset) ==> regs == e.regs[offset := Combine16(e.regs[offset], data, mask)]
    ensures !EgcRegWritable(e, offset) ==> regs == e.regs
  {
    if EgcRegWritable(e, offset) then e.regs[offset := Combine16(e.regs[offset], data, mask)] else e.regs
  }

  /** egc_w, second step on the merged registers: a write to a colour
      register (1, 3, 5) re-derives the pattern from the selected source; a
      write to 6 or 7 reloads the bit count and restarts the transfer. */
  function EgcDerive(e: Egc, offset: nat): (r: Egc)
    requires EgcWellFormed(e)
    ensures EgcWellFormed(r) && r.regs == e.regs
    ensures offset in {1, 3, 5} ==> (r.count == e.count && r.first == e.first && r.init == e.init
              && r.pat == (match PatternSource(e.regs)
                           case Some(k) => PatternFor((e.regs[k] & 0xff) as bv8)
                           case None => e.pat))
    ensures (offset == 6 || offset == 7) ==>
              (r.pat == e.pat && r.count == (e.regs[7] & 0xfff) as int + 1 && r.first && !r.init)
    ensures offset !in {1, 3, 5, 6, 7} ==> r == e
  {
    if offset == 1 || offset == 3 || offset == 5 then
      match PatternSource(e.regs)
      case Some(k) => e.(pat := PatternFor((e.regs[k] & 0xff) as bv8))
      case None => e
    else if offset == 6 || offset == 7 then
      e.(count := (e.regs[7] & 0xfff) as int + 1, first := true, init := false)
    else e
  }

  /** egc_w, gated by the EGC-enable flip-flop (extended flag 2). */
  function EgcWrite(e: Egc, enabled: bool, offset: nat, data: bv16, mask: bv16): (r: Egc)
    requires EgcWellFormed(e) && offset < 8
    ensures EgcWellFormed(r)
    ensures !enabled ==> r == e
    ensures enabled ==> r == EgcDerive(e.(regs := EgcMerge(e, offset, data, mask)), offset)
  {
    if !enabled then e else EgcDerive(e.(regs := EgcMerge(e, offset, data, mask)), offset)
  }

  /** Register 4 is frozen while register 1 selects a pattern source: a
      write to it changes nothing at all. */
  lemma EgcReg4Frozen(e: Egc, data: bv16, mask: bv16)
    requires EgcWellFormed(e) && e.regs[1] & 0x6000 != 0
    ensures EgcWrite(e, true, 4, data, mask) == e
  {
  }

  /** Writes while the EGC is disabled are dropped, and an enabled write to
      any register but 4 merges exactly the masked bits. */
  lemma EgcMaskedMerge(e: Egc, offset: nat, data: bv16, mask: bv16)
    requires EgcWellFormed(e) && offset < 8 && offset != 4
    ensures var r := EgcWrite(e, true, offset, data, mask);
            r.regs[offset] & mask == data & mask && r.regs[offset] & !mask == e.regs[offset] & !mask
            && forall k :: 0 <= k < 8 && k != offset ==> r.regs[k] == e.regs[k]
  {
  }

  /** The transfer count is always between 1 and 4096 after a count write. */
  lemma EgcCountRange(e: Egc, offset: nat, data: bv16, mask: bv16)
    requires EgcWellFormed(e) && (offset == 6 || offset == 7)
    ensures 1 <= EgcWrite(e, true, offset, data, mask).count <= 4096
  {
    var r := EgcWrite(e, true, offset, data, mask);
    assert r.regs[7] & 0xfff <= 0xfff;
  }

  /** A full-mask write to the foreground colour with foreground selection
      sets each pattern plane from the matching colour bit. */
  lemma EgcForegroundPattern(e: Egc, color: bv16)
    requires EgcWellFormed(e) && (e.regs[1] >> 13) & 3 == 2
    ensures var r := EgcWrite(e, true, 3, color, 0xffff);
            r.regs[3] == color && r.pat == PatternFor((color & 0xff) as bv8)
  {
    Combine16Unique(e.regs[3], color, 0xffff, color);
  }

  // -- extended mode flip-flops ------------------------------------------------------------

  /** The flip-flop index a port 0x6A write addresses: bits 7-1. */
  function FfIndex(data: bv8): (i: nat)
    ensures i < ExVideoFfCount && i == data as int / 2
  {
    ((data & 0xfe) >> 1) as int
  }

  /** Every flag holds 0 or 1. */
  predicate FlagsBinary(ex: seq<bv8>) {
    forall k :: 0 <= k < |ex| ==> ex[k] <= 1
  }

  datatype FfResult = FfResult(ex: seq<bv8>, toBase: bool)

  /** pc9801rs_video_ff_w: at offset 1, a byte whose high nibble is 0 sets
      flag (data >> 1) to bit 0; other bytes are ignored; other offsets go to
      the original mode flip-flop handler. */
  function RsVideoFfWrite(ex: seq<bv8>, offset: nat, data: bv8): (r: FfResult)
    requires |ex| == ExVideoFfCount
    ensures |r.ex| == ExVideoFfCount
    ensures offset == 1 && data & 0xf0 == 0 ==> r == FfResult(ex[FfIndex(data) := data & 1], false)
    ensures offset == 1 && data & 0xf0 != 0 ==> r == FfResult(ex, false)
    ensures offset != 1 ==> r == FfResult(ex, true)
  {
    if offset == 1 then
      FfResult(if data & 0xf0 == 0 then ex[FfIndex(data) := data & 1] else ex, false)
    else FfResult(ex, true)
  }

  /** The RS path only reaches flags 0-7: it can never switch on the
      256-colour mode or any other 9821 flag. */
  lemma RsReachesLowFlagsOnly(ex: seq<bv8>, offset: nat, data: bv8)
    requires |ex| == ExVideoFfCount
    ensures forall k :: 8 <= k < ExVideoFfCount ==> RsVideoFfWrite(ex, offset, data).ex[k] == ex[k]
    ensures RsVideoFfWrite(ex, offset, data).ex[ANALOG_256_MODE] == ex[ANALOG_256_MODE]
  {
  }

  /** pc9821_video_ff_w: at offset 1 every flag can be set, except flag 2
      (EGC enable), which is protected until flag 3 is set; the RS handler
      then runs as well, and stores the same value again when it stores at
      all. Other offsets take the RS path. */
  function Pc9821VideoFfWrite(ex: seq<bv8>, offset: nat, data: bv8): (r: FfResult)
    requires |ex| == ExVideoFfCount
    ensures |r.ex| == ExVideoFfCount
    ensures offset == 1 && data & 0xfe == 4 && ex[3] == 0 ==> r == FfResult(ex, false)
    ensures offset == 1 && !(data & 0xfe == 4 && ex[3] == 0) ==>
              r == FfResult(ex[FfIndex(data) := data & 1], false)
    ensures offset != 1 ==> r == RsVideoFfWrite(ex, offset, data)
  {
    if offset == 1 then
      if data & 0xfe == 4 && ex[3] == 0 then FfResult(ex, false)
      else RsVideoFfWrite(ex[FfIndex(data) := data & 1], offset, data)
    else RsVideoFfWrite(ex, offset, data)
  }

  /** Flags stay binary under both paths. */
  lemma VideoFfKeepsFlagsBinary(ex: seq<bv8>, offset: nat, data: bv8)
    requires |ex| == ExVideoFfCount && FlagsBinary(ex)
    ensures FlagsBinary(RsVideoFfWrite(ex, offset, data).ex)
    ensures FlagsBinary(Pc9821VideoFfWrite(ex, offset, data).ex)
  {
  }

  /** The EGC enable can only be switched on after the protection flag. */
  lemma EgcEnableProtected(ex: seq<bv8>, data: bv8)
    requires |ex| == ExVideoFfCount && ex[3] == 0 && ex[2] == 0
    ensures Pc9821VideoFfWrite(ex, 1, data).ex[2] == 0
  {
  }

  // -- palettes ------------------------------------------------------------------------------

  datatype Pal16 = Pal16(entry: bv8, g: seq<bv8>, r: seq<bv8>, b: seq<bv8>)
  datatype Pal256 = Pal256(entry: bv8, g: seq<bv8>, r: seq<bv8>, b: seq<bv8>, writeBank: bv16)

  predicate Pal16WellFormed(p: Pal16) { |p.g| == 16 && |p.r| == 16 && |p.b| == 16 && p.entry < 16 }
  predicate Pal256WellFormed(p: Pal256) { |p.g| == 256 && |p.r| == 256 && |p.b| == 256 }

  /** The overlay only claims even offsets with bit 3 set. */
  predicate PaletteOffset(offset: nat) {
    offset % 2 == 0 && (offset / 8) % 2 == 1
  }

  lemma PaletteOffsetsInWindow(offset: nat)
    requires offset < 16
    ensures PaletteOffset(offset) <==> offset in {0x08, 0x0a, 0x0c, 0x0e}
  {
  }

  /** The 16-colour table: 0x08 selects the entry, 0x0A/0x0C/0x0E hold its
      green, red and blue, four bits each. */
  function Pal16Write(p: Pal16, offset: nat, data: bv8): (q: Pal16)
    requires Pal16WellFormed(p)
    ensures Pal16WellFormed(q)
    ensures offset == 0x08 ==> q == p.(entry := data & 0xf)
    ensures offset == 0x0a ==> q == p.(g := p.g[p.entry as int := data & 0xf])
    ensures offset == 0x0c ==> q == p.(r := p.r[p.entry as int := data & 0xf])
    ensures offset == 0x0e ==> q == p.(b := p.b[p.entry as int := data & 0xf])
    ensures offset !in {0x08, 0x0a, 0x0c, 0x0e} ==> q == p
  {
    var e := p.entry as int;
    if offset == 0x08 then p.(entry := data & 0xf)
    else if offset == 0x0a then p.(g := p.g[e := data & 0xf])
    else if offset == 0x0c then p.(r := p.r[e := data & 0xf])
    else if offset == 0x0e then p.(b := p.b[e := data & 0xf])
    else p
  }

  function Pal16Read(p: Pal16, offset: nat): (v: bv8)
    requires Pal16WellFormed(p)
    ensures v <= 0xf
  {
    if offset == 0x08 then p.entry & 0xf
    else if offset == 0x0a then p.g[p.entry as int] & 0xf
    else if offset == 0x0c then p.r[p.entry as int] & 0xf
    else if offset == 0x0e then p.b[p.entry as int] & 0xf
    else 0
  }

  /** The 256-colour table: as the 16-colour one with full bytes. */
  function Pal256Write(p: Pal256, offset: nat, data: bv8): (q: Pal256)
    requires Pal256WellFormed(p)
    ensures Pal256WellFormed(q) && q.writeBank == p.writeBank
    ensures offset == 0x08 ==> q == p.(entry := data)
    ensures offset == 0x0a ==> q == p.(g := p.g[p.entry as int := data])
    ensures offset == 0x0c ==> q == p.(r := p.r[p.entry as int := data])
    ensures offset == 0x0e ==> q == p.(b := p.b[p.entry as int := data])
    ensures offset !in {0x08, 0x0a, 0x0c, 0x0e} ==> q == p
  {
    var e := p.entry as int;
    if offset == 0x08 then p.(entry := data)
    else if offset == 0x0a then p.(g := p.g[e := data])
    else if offset == 0x0c then p.(r := p.r[e := data])
    else if offset == 0x0e then p.(b := p.b[e := data])
    else p
  }

  datatype A0Result = A0Result(pal16: Pal16, pal256: Pal256, toBase: bool)

  /** pc9801rs_a0_w: in 16-colour mode the palette offsets go to the
      16-colour table; everything else goes to the original handler. */
  function RsA0Write(p16: Pal16, ex: seq<bv8>, offset: nat, data: bv8): (r: FfResultPal)
    requires Pal16WellFormed(p16) && |ex| == ExVideoFfCount
    ensures Pal16WellFormed(r.pal16)
    ensures PaletteOffset(offset) && ex[ANALOG_16_MODE] != 0 ==> r == FfResultPal(Pal16Write(p16, offset, data), false)
    ensures !(PaletteOffset(offset) && ex[ANALOG_16_MODE] != 0) ==> r == FfResultPal(p16, true)
  {
    if PaletteOffset(offset) && ex[ANALOG_16_MODE] != 0 then FfResultPal(Pal16Write(p16, offset, data), false)
    else FfResultPal(p16, true)
  }

  datatype FfResultPal = FfResultPal(pal16: Pal16, toBase: bool)

  /** pc9821_a0_r: at the palette offsets the 256-colour mode wins and reads
      0; otherwise the 16-colour mode reads back its table; otherwise, and at
      all other offsets, the original handler answers. */
  function Pc9821A0Read(p16: Pal16, ex: seq<bv8>, offset: nat): (r: Read)
    requires Pal16WellFormed(p16) && |ex| == ExVideoFfCount
    ensures PaletteOffset(offset) && ex[ANALOG_256_MODE] != 0 ==> r == Value(0)
    ensures PaletteOffset(offset) && ex[ANALOG_256_MODE] == 0 && ex[ANALOG_16_MODE] != 0 ==>
              r == Value(Pal16Read(p16, offset))
    ensures !PaletteOffset(offset) || (ex[ANALOG_256_MODE] == 0 && ex[ANALOG_16_MODE] == 0) ==> r == ToBase
  {
    if PaletteOffset(offset) then
      if ex[ANALOG_256_MODE] != 0 then Value(0)
      else if ex[ANALOG_16_MODE] != 0 then Value(Pal16Read(p16, offset))
      else ToBase
    else ToBase
  }

  /** pc9821_a0_w: in 256-colour mode the palette offsets go to the
      256-colour table; otherwise the RS handler decides. */
  function Pc9821A0Write(p16: Pal16, p256: Pal256, ex: seq<bv8>, offset: nat, data: bv8): (r: A0Result)
    requires Pal16WellFormed(p16) && Pal256WellFormed(p256) && |ex| == ExVideoFfCount
    ensures Pal16WellFormed(r.pal16) && Pal256WellFormed(r.pal256)
    ensures PaletteOffset(offset) && ex[ANALOG_256_MODE] != 0 ==>
              r == A0Result(p16, Pal256Write(p256, offset, data), false)
    ensures !(PaletteOffset(offset) && ex[ANALOG_256_MODE] != 0) ==>
              r == A0Result(RsA0Write(p16, ex, offset, data).pal16, p256, RsA0Write(p16, ex, offset, data).toBase)
  {
    if PaletteOffset(offset) && ex[ANALOG_256_MODE] != 0 then
      A0Result(p16, Pal256Write(p256, offset, data), false)
    else
      var rs := RsA0Write(p16, ex, offset, data);
      A0Result(rs.pal16, p256, rs.toBase)
  }

  /** The two overlays never both take an access: a palette write changes at
      most one of the tables, and in 256-colour mode the 16-colour table is
      neither read nor written. */
  lemma PaletteOverlaysExclusive(p16: Pal16, p256: Pal256, ex: seq<bv8>, offset: nat, data: bv8)
    requires Pal16WellFormed(p16) && Pal256WellFormed(p256) && |ex| == ExVideoFfCount
    ensures var r := Pc9821A0Write(p16, p256, ex, offset, data);
            r.pal16 == p16 || r.pal256 == p256
    ensures ex[ANALOG_256_MODE] != 0 && PaletteOffset(offset) ==>
              Pc9821A0Write(p16, p256, ex, offset, data).pal16 == p16
              && Pc9821A0Read(p16, ex, offset) == Value(0)
  {
  }

  /** In 16-colour mode (256-colour off) the 9821 reads back what was
      written to the selected entry, masked to four bits. */
  lemma Pal16RoundTrip(p16: Pal16, p256: Pal256, ex: seq<bv8>, entry: bv8, offset: nat, data: bv8)
    requires Pal16WellFormed(p16) && Pal256WellFormed(p256) && |ex| == ExVideoFfCount
    requires ex[ANALOG_256_MODE] == 0 && ex[ANALOG_16_MODE] != 0
    requires offset in {0x0a, 0x0c, 0x0e}
    ensures var s1 := Pc9821A0Write(p16, p256, ex, 0x08, entry).pal16;
            var s2 := Pc9821A0Write(s1, p256, ex, offset, data).pal16;
            Pc9821A0Read(s2, ex, offset) == Value(data & 0xf)
            && Pc9821A0Read(s2, ex, 0x08) == Value(entry & 0xf)
  {
    var s1 := Pc9821A0Write(p16, p256, ex, 0x08, entry).pal16;
    assert s1.entry == entry & 0xf;
  }

  // -- GVRAM windows ---------------------------------------------------------------------------

  /** Where a GVRAM access lands: a GRCG plane word of the bitmap GDC, a word
      of the linear 256-colour memory at 0xF00000, or the 256-colour write
      bank register. */
  datatype Target = GrcgPlane(addr: bv32) | Linear(addr: bv32)

  /** grcg_gvram_r/w (0xA8000-0xBFFFF): planes from word 0x4000 on, in the
      selected VRAM bank. */
  function GvramAddr(offset: bv32, vramBank: bv8): (a: bv32)
    requires offset < 0xc000
    ensures a == offset + 0x4000 + (vramBank as bv32) * 0x1_0000
  {
    (offset + 0x4000) | ((vramBank as bv32) << 16)
  }

  /** grcg_gvram0_r/w (0xE0000-0xE7FFF): planes from word 0. */
  function Gvram0Addr(offset: bv32, vramBank: bv8): (a: bv32)
    requires offset < 0x4000
    ensures a & 0xffff == offset && a >> 16 == vramBank as bv32
  {
    offset | ((vramBank as bv32) << 16)
  }

  /** pc9821_grcg_gvram_r/w: in 256-colour mode the window is linear memory
      at 0xF00000 in the current write bank; otherwise the RS window. */
  function Pc9821GvramTarget(ex: seq<bv8>, p256: Pal256, vramBank: bv8, offset: bv32): (t: Target)
    requires |ex| == ExVideoFfCount && offset < 0xc000
    ensures ex[ANALOG_256_MODE] != 0 ==>
              t == Linear(0xf0_0000 | (offset * 2) | ((p256.writeBank as bv32) * 0x8000))
    ensures ex[ANALOG_256_MODE] == 0 ==> t == GrcgPlane(GvramAddr(offset, vramBank))
  {
    if ex[ANALOG_256_MODE] != 0 then Linear(0xf0_0000 | (offset * 2) | ((p256.writeBank as bv32) * 0x8000))
    else GrcgPlane(GvramAddr(offset, vramBank))
  }

  /** With a single-bit write bank the linear window covers 0xF00000 up to
      0xF1FFFF: bank 0 the first 96 KiB, bank 1 the same addresses with bit 15
      forced on. */
  lemma LinearWindowBounds(ex: seq<bv8>, p256: Pal256, vramBank: bv8, offset: bv32)
    requires |ex| == ExVideoFfCount && offset < 0xc000 && ex[ANALOG_256_MODE] != 0
    requires p256.writeBank <= 1
    ensures var t := Pc9821GvramTarget(ex, p256, vramBank, offset);
            0xf0_0000 <= t.addr < 0xf2_0000 && t.addr & 1 == 0
  {
  }

  datatype Gvram0Read = Gvram0Read(fromBank: bool, addr: bv32)

  /** pc9821_grcg_gvram0_r: in 256-colour mode word offset 2 (byte 4) reads
      the write bank; every other word, in any mode, reads the plane. */
  function Pc9821Gvram0ReadTarget(ex: seq<bv8>, vramBank: bv8, offset: bv32): (r: Gvram0Read)
    requires |ex| == ExVideoFfCount && offset < 0x4000
    ensures r.fromBank <==> ex[ANALOG_256_MODE] != 0 && offset * 2 == 4
    ensures r.addr == Gvram0Addr(offset, vramBank)
  {
    Gvram0Read(ex[ANALOG_256_MODE] != 0 && offset * 2 == 4, Gvram0Addr(offset, vramBank))
  }

  /** pc9821_grcg_gvram0_w: in 256-colour mode a write to byte 4 merges into
      the write bank; the write then reaches the plane in every case. */
  function Pc9821Gvram0Write(ex: seq<bv8>, p256: Pal256, offset: bv32, data: bv16, mask: bv16): (q: Pal256)
    requires |ex| == ExVideoFfCount && offset < 0x4000
    ensures ex[ANALOG_256_MODE] != 0 && offset * 2 == 4 ==>
              q == p256.(writeBank := Combine16(p256.writeBank, data, mask))
    ensures !(ex[ANALOG_256_MODE] != 0 && offset * 2 == 4) ==> q == p256
  {
    if ex[ANALOG_256_MODE] != 0 && offset * 2 == 4 then p256.(writeBank := Combine16(p256.writeBank, data, mask))
    else p256
  }
}
