/** The PC-9801 family's I/O address maps as ordered tables of ranges.
    Each range serves some byte lanes of the data bus (a lane mask such as
    0x00FF serves even ports on the 16-bit bus, 0xFF00 odd ones); a table
    that imports another lists the imported ranges after its own, and the
    range listed first wins. Reads and writes are looked up separately: a
    range without a read handler does not hide another range's reads. */
module Pc98Maps {
  import opened Bits

  /** The handlers the tables name. Devices outside the driver (PIC, PIT,
      PPIs, GDCs, FDCs, UARTs, DMA controller, IDE) appear by name only. */
  datatype Handler =
    | Dma8237 | Pic | Rtc | PpiSys | PpiPrn | Keyboard | PpiFdd | NmiCtrl | GdcChr | VrtcClear
    | Pit | TxtScrl | SasiData | SasiStatus | SasiCtrl | Fdc2hdMsr | Fdc2hdFifo | Fdc2hdCtrl
    | UartData | UartStatus | UartControl | PpiMouse
    | DmaPage4 | VideoFf | A0Read | A0Write | Fdc2ddMap | Fdc2ddCtrl | F0
    | DmaPage8 | Nop | Timestamp | RsVideoFf | Grcg | RsA0Write | FdcModeCtrl | Fdc2hdMap
    | A20Ctrl | AccessCtrl | EmsBank | Egc | IdeCtrl | IdeCs0 | IdeCs1 | MouseFreq | Midi
    | Pc9821VideoFf | Pc9821A0 | UnknownRead | WindowBank | Ext2VideoFf | Sdip(n: nat)

  datatype Dir = ReadDir | WriteDir

  /** One AM_RANGE: its ports, lanes, whether the handler is 16 bits wide,
      and its read and write handlers. */
  datatype Entry = Entry(lo: nat, hi: nat, lanes: bv32, wide: bool, read: Option<Handler>, write: Option<Handler>)

  /** A table with its bus width in bytes and its unmapped-read value
      (ADDRESS_MAP_UNMAP_HIGH: all ones; otherwise zeros). */
  datatype IoMap = IoMap(entries: seq<Entry>, bus: nat, unmapHigh: bool)

  datatype Decoded = Decoded(handler: Handler, offset: nat)

  function R(lo: nat, hi: nat, lanes: bv32, h: Handler): Entry { Entry(lo, hi, lanes, false, Some(h), Some(h)) }
  function RO(lo: nat, hi: nat, lanes: bv32, h: Handler): Entry { Entry(lo, hi, lanes, false, Some(h), None) }
  function WO(lo: nat, hi: nat, lanes: bv32, h: Handler): Entry { Entry(lo, hi, lanes, false, None, Some(h)) }
  function RW(lo: nat, hi: nat, lanes: bv32, r: Handler, w: Handler): Entry { Entry(lo, hi, lanes, false, Some(r), Some(w)) }

  function LaneMask(lane: nat): bv32 {
    if lane == 0 then 0x0000_00ff else if lane == 1 then 0x0000_ff00
    else if lane == 2 then 0x00ff_0000 else if lane == 3 then 0xff00_0000 else 0
  }

  predicate LaneServed(lanes: bv32, lane: nat) { lanes & LaneMask(lane) != 0 }

  /** How many served lanes lie below a lane. */
  function LaneRank(lanes: bv32, lane: nat): (n: nat)
    ensures n <= lane
  {
    if lane == 0 then 0 else LaneRank(lanes, lane - 1) + (if LaneServed(lanes, lane - 1) then 1 else 0)
  }

  function Handles(e: Entry, dir: Dir): Option<Handler> {
    if dir == ReadDir then e.read else e.write
  }

  /** Whether a range answers an access: in range, on a served lane, with a
      handler for the direction. */
  predicate Serves(e: Entry, bus: nat, port: nat, dir: Dir)
    requires bus > 0
  {
    e.lo <= port <= e.hi && LaneServed(e.lanes, port % bus) && Handles(e, dir).Some?
  }

  function Times(a: nat, b: nat): nat
    decreases b
  {
    if b == 0 then 0 else a + Times(a, b - 1)
  }

  /** The handler's offset: a 16-bit handler counts words; an 8-bit handler
      counts its served lanes, bus word by bus word. */
  function HandlerOffset(e: Entry, bus: nat, port: nat): (n: nat)
    requires bus > 0 && e.lo <= port
    ensures e.wide ==> 2 * n <= port - e.lo < 2 * n + 2
  {
    if e.wide then (port - e.lo) / 2
    else Times((port - e.lo) / bus, LaneRank(e.lanes, bus)) + LaneRank(e.lanes, port % bus)
  }

  /** On the 16-bit bus a byte handler on one lane (mask 0x00FF or 0xFF00)
      counts bus words: its n-th served port is offset n. */
  lemma OneLaneOffset(e: Entry, port: nat)
    requires !e.wide && e.lo <= port && (e.lanes == 0x00ff || e.lanes == 0xff00)
    requires LaneServed(e.lanes, port % 2)
    ensures HandlerOffset(e, 2, port) == (port - e.lo) / 2
  {
    assert LaneRank(e.lanes, 2) == 1;
    assert LaneRank(e.lanes, port % 2) == 0;
  }

  /** On the 16-bit bus a byte handler on both lanes, starting at an even
      port, counts bytes. */
  lemma BothLanesOffset(e: Entry, port: nat)
    requires !e.wide && e.lo <= port && e.lo % 2 == 0 && e.lanes == 0xffff
    ensures HandlerOffset(e, 2, port) == port - e.lo
  {
    var q := (port - e.lo) / 2;
    assert LaneRank(e.lanes, 2) == 2;
    assert LaneRank(e.lanes, port % 2) == port % 2;
    assert Times(q, 2) == q + q;
  }

  /** The first range from index i on that serves the access. */
  function LookupFrom(t: seq<Entry>, i: nat, bus: nat, port: nat, dir: Dir): Option<Decoded>
    requires bus > 0 && i <= |t|
    decreases |t| - i
  {
    if i == |t| then None
    else if Serves(t[i], bus, port, dir) then
      Some(Decoded(Handles(t[i], dir).value, HandlerOffset(t[i], bus, port)))
    else LookupFrom(t, i + 1, bus, port, dir)
  }

  /** A port decodes in a table exactly when one of its ranges serves it. */
  function Decode(m: IoMap, port: nat, dir: Dir): (r: Option<Decoded>)
    requires m.bus > 0
    ensures r.Some? <==> exists j :: 0 <= j < |m.entries| && Serves(m.entries[j], m.bus, port, dir)
  {
    LookupIsFirstMatch(m.entries, 0, m.bus, port, dir);
    LookupFrom(m.entries, 0, m.bus, port, dir)
  }

  /** A read no range serves: all ones or zeros, per table. */
  function UnmappedRead(m: IoMap): (v: bv8)
    ensures v == if m.unmapHigh then 0xff else 0
  {
    if m.unmapHigh then 0xff else 0
  }

  /** The range a lookup picks is the first one that serves the access, and
      the lookup fails exactly when no range serves it. */
  lemma {:induction false} LookupIsFirstMatch(t: seq<Entry>, i: nat, bus: nat, port: nat, dir: Dir)
    requires bus > 0 && i <= |t|
    ensures LookupFrom(t, i, bus, port, dir).None? <==> forall j :: i <= j < |t| ==> !Serves(t[j], bus, port, dir)
    ensures LookupFrom(t, i, bus, port, dir).Some? ==>
              exists j :: i <= j < |t| && Serves(t[j], bus, port, dir)
                          && (forall k :: i <= k < j ==> !Serves(t[k], bus, port, dir))
                          && LookupFrom(t, i, bus, port, dir).value
                             == Decoded(Handles(t[j], dir).value, HandlerOffset(t[j], bus, port))
    decreases |t| - i
  {
    if i < |t| && !Serves(t[i], bus, port, dir) {
      LookupIsFirstMatch(t, i + 1, bus, port, dir);
      if LookupFrom(t, i, bus, port, dir).Some? {
        var j :| i + 1 <= j < |t| && Serves(t[j], bus, port, dir)
                 && (forall k :: i + 1 <= k < j ==> !Serves(t[k], bus, port, dir))
                 && LookupFrom(t, i + 1, bus, port, dir).value
                    == Decoded(Handles(t[j], dir).value, HandlerOffset(t[j], bus, port));
        assert forall k :: i <= k < j ==> !Serves(t[k], bus, port, dir);
      }
    }
  }

  function OrElse(a: Option<Decoded>, b: Option<Decoded>): Option<Decoded> {
    if a.Some? then a else b
  }

  /** Composition: a table listed before an imported one decides every
      access it serves, and the imported table decides the rest. */
  lemma LookupAppend(a: seq<Entry>, b: seq<Entry>, bus: nat, port: nat, dir: Dir)
    requires bus > 0
    ensures LookupFrom(a + b, 0, bus, port, dir) == OrElse(LookupFrom(a, 0, bus, port, dir), LookupFrom(b, 0, bus, port, dir))
  {
    LookupAppendFrom(a, b, 0, bus, port, dir);
  }

  lemma {:induction false} LookupAppendFrom(a: seq<Entry>, b: seq<Entry>, i: nat, bus: nat, port: nat, dir: Dir)
    requires bus > 0 && i <= |a|
    ensures LookupFrom(a + b, i, bus, port, dir) == OrElse(LookupFrom(a, i, bus, port, dir), LookupFrom(b, 0, bus, port, dir))
    decreases |a| - i
  {
    if i == |a| {
      LookupShift(a, b, 0, bus, port, dir);
    } else {
      assert (a + b)[i] == a[i];
      if !Serves(a[i], bus, port, dir) {
        LookupAppendFrom(a, b, i + 1, bus, port, dir);
      }
    }
  }

  lemma {:induction false} LookupShift(a: seq<Entry>, b: seq<Entry>, j: nat, bus: nat, port: nat, dir: Dir)
    requires bus > 0 && j <= |b|
    ensures LookupFrom(a + b, |a| + j, bus, port, dir) == LookupFrom(b, j, bus, port, dir)
    decreases |b| - j
  {
    if j < |b| {
      assert (a + b)[|a| + j] == b[j];
      LookupShift(a, b, j + 1, bus, port, dir);
    }
  }

  // -- the tables -------------------------------------------------------------------

  /** pc9801_common_io, in three parts: first device on even ports, second
      on odd ones. */
  const CommonA: seq<Entry> := [
    R(0x0000, 0x001f, 0xff00, Dma8237),
    R(0x0000, 0x001f, 0x00ff, Pic),
    WO(0x0020, 0x002f, 0x00ff, Rtc),
    R(0x0030, 0x0037, 0xff00, PpiSys),
    R(0x0040, 0x0047, 0x00ff, PpiPrn),
    R(0x0040, 0x0047, 0xff00, Keyboard),
    R(0x0050, 0x0057, 0xff00, PpiFdd),
    WO(0x0050, 0x0057, 0x00ff, NmiCtrl)
  ]
  const CommonB: seq<Entry> := [
    R(0x0060, 0x0063, 0x00ff, GdcChr),
    WO(0x0064, 0x0065, 0x00ff, VrtcClear),
    R(0x0070, 0x007f, 0xff00, Pit),
    R(0x0070, 0x007f, 0x00ff, TxtScrl),
    R(0x0080, 0x0081, 0x00ff, SasiData),
    RW(0x0082, 0x0083, 0x00ff, SasiStatus, SasiCtrl)
  ]
  const CommonC: seq<Entry> := [
    RO(0x0090, 0x0091, 0x00ff, Fdc2hdMsr),
    R(0x0092, 0x0093, 0x00ff, Fdc2hdFifo),
    R(0x0094, 0x0095, 0x00ff, Fdc2hdCtrl),
    R(0x0090, 0x0091, 0xff00, UartData),
    RW(0x0092, 0x0093, 0xff00, UartStatus, UartControl),
    R(0x7fd8, 0x7fdf, 0xff00, PpiMouse)
  ]
  const CommonIo: seq<Entry> := CommonA + (CommonB + CommonC)

  /** pc9801_io: the original PC-9801's own ranges. */
  const Pc9801Own: seq<Entry> := [
    WO(0x0020, 0x002f, 0xff00, DmaPage4),
    WO(0x0068, 0x0069, 0x00ff, VideoFf),
    RW(0x00a0, 0x00af, 0xffff, A0Read, A0Write),
    R(0x00c8, 0x00cb, 0x00ff, Fdc2ddMap),
    R(0x00cc, 0x00cd, 0x00ff, Fdc2ddCtrl),
    RO(0x00f0, 0x00ff, 0x00ff, F0)
  ]

  /** pc9801ux_io, in two parts: the 286 models' ranges. */
  const UxA: seq<Entry> := [
    WO(0x0020, 0x002f, 0xff00, DmaPage8),
    R(0x0050, 0x0057, 0xffff, Nop),
    Entry(0x005c, 0x005f, 0xffff, true, Some(Timestamp), Some(Nop)),
    WO(0x0068, 0x006b, 0x00ff, RsVideoFf),
    R(0x0070, 0x007f, 0x00ff, Grcg),
    RW(0x00a0, 0x00af, 0xffff, A0Read, RsA0Write),
    R(0x00bc, 0x00bf, 0xffff, FdcModeCtrl)
  ]
  const UxB: seq<Entry> := [
    R(0x00c8, 0x00cb, 0x00ff, Fdc2hdMap),
    R(0x00cc, 0x00cd, 0x00ff, Fdc2hdCtrl),
    R(0x00f0, 0x00ff, 0x00ff, A20Ctrl),
    R(0x0438, 0x043b, 0xffff, AccessCtrl),
    WO(0x043c, 0x043f, 0xffff, EmsBank),
    Entry(0x04a0, 0x04af, 0xffff, true, None, Some(Egc)),
    R(0x3fd8, 0x3fdf, 0xff00, Pit)
  ]
  const UxOwn: seq<Entry> := UxA + UxB

  /** pc9801rs_io: the 386 models' ranges, on top of the 286 table. */
  const RsOwn: seq<Entry> := [
    R(0x0430, 0x0433, 0x00ff, IdeCtrl),
    Entry(0x0640, 0x064f, 0xffff, true, Some(IdeCs0), Some(IdeCs0)),
    Entry(0x0740, 0x074f, 0xffff, true, Some(IdeCs1), Some(IdeCs1)),
    R(0x1e8c, 0x1e8f, 0xffff, Nop),
    WO(0xbfd8, 0xbfdf, 0xffff, MouseFreq),
    RO(0xe0d0, 0xe0d3, 0xffff, Midi)
  ]

  /** The SDIP registers 0x841C + 0x100 * n for n from m to 11. */
  function SdipEntries(m: nat): (t: seq<Entry>)
    requires m <= 12
    ensures |t| == 12 - m
    decreases 12 - m
  {
    if m == 12 then [] else [R(0x841c + 0x100 * m, 0x841f + 0x100 * m, 0xffff_ffff, Sdip(m))] + SdipEntries(m + 1)
  }

  /** pc9821_io, in five parts and the SDIP block: a 32-bit table of its
      own, without UNMAP_HIGH. */
  const P21A: seq<Entry> := [
    R(0x0000, 0x001f, 0xff00_ff00, Dma8237),
    R(0x0000, 0x001f, 0x00ff_00ff, Pic),
    WO(0x0020, 0x002f, 0x0000_00ff, Rtc),
    WO(0x0020, 0x002f, 0xff00_ff00, DmaPage8),
    R(0x0030, 0x0037, 0xff00_ff00, PpiSys),
    R(0x0040, 0x0047, 0x00ff_00ff, PpiPrn),
    R(0x0040, 0x0047, 0xff00_ff00, Keyboard)
  ]
  const P21B: seq<Entry> := [
    WO(0x0050, 0x0053, 0x00ff_00ff, NmiCtrl),
    Entry(0x005c, 0x005f, 0xffff_ffff, true, Some(Timestamp), Some(Nop)),
    R(0x0060, 0x0063, 0x00ff_00ff, GdcChr),
    RO(0x0060, 0x0063, 0xff00_ff00, UnknownRead),
    WO(0x0064, 0x0067, 0x0000_00ff, VrtcClear),
    WO(0x0068, 0x006b, 0x00ff_00ff, Pc9821VideoFf),
    R(0x0070, 0x007f, 0xff00_ff00, Pit)
  ]
  const P21C: seq<Entry> := [
    R(0x0070, 0x007f, 0x00ff_00ff, Grcg),
    R(0x0090, 0x0093, 0x00ff_00ff, Fdc2hdMap),
    R(0x0094, 0x0097, 0x0000_00ff, Fdc2hdCtrl),
    R(0x00a0, 0x00af, 0xffff_ffff, Pc9821A0),
    R(0x00bc, 0x00bf, 0xffff_ffff, FdcModeCtrl),
    R(0x00c8, 0x00cb, 0x00ff_00ff, Fdc2hdMap),
    R(0x00cc, 0x00cf, 0x0000_00ff, Fdc2hdCtrl)
  ]
  const P21D: seq<Entry> := [
    R(0x00f0, 0x00ff, 0x00ff_00ff, A20Ctrl),
    R(0x0430, 0x0433, 0x00ff_00ff, IdeCtrl),
    R(0x0438, 0x043b, 0xffff_ffff, AccessCtrl),
    WO(0x043c, 0x043f, 0xffff_ffff, EmsBank),
    R(0x0460, 0x0463, 0xffff_ffff, WindowBank),
    Entry(0x04a0, 0x04af, 0xffff_ffff, true, None, Some(Egc)),
    Entry(0x0640, 0x064f, 0xffff_ffff, true, Some(IdeCs0), Some(IdeCs0))
  ]
  const P21E: seq<Entry> := [
    Entry(0x0740, 0x074f, 0xffff_ffff, true, Some(IdeCs1), Some(IdeCs1)),
    R(0x09a0, 0x09a3, 0x0000_00ff, Ext2VideoFf),
    R(0x1e8c, 0x1e8f, 0xffff_ffff, Nop),
    R(0x3fd8, 0x3fdf, 0xff00_ff00, Pit),
    R(0x7fd8, 0x7fdf, 0xff00_ff00, PpiMouse)
  ]
  const P21Midi: seq<Entry> := [RO(0xe0d0, 0xe0d3, 0xffff_ffff, Midi)]
  const Pc9821Own: seq<Entry> := P21A + (P21B + (P21C + (P21D + (P21E + (SdipEntries(0) + P21Midi)))))

  const Pc9801Io: IoMap := IoMap(Pc9801Own + CommonIo, 2, true)
  const Pc9801UxIo: IoMap := IoMap(UxOwn + CommonIo, 2, true)
  const Pc9801RsIo: IoMap := IoMap(RsOwn + (UxOwn + CommonIo), 2, true)
  const Pc9821Io: IoMap := IoMap(Pc9821Own, 4, false)

  function L(t: seq<Entry>, bus: nat, port: nat, dir: Dir): Option<Decoded>
    requires bus > 0
  {
    LookupFrom(t, 0, bus, port, dir)
  }

  lemma CommonLayers(port: nat, dir: Dir)
    ensures L(CommonIo, 2, port, dir) == OrElse(L(CommonA, 2, port, dir), OrElse(L(CommonB, 2, port, dir), L(CommonC, 2, port, dir)))
  {
    LookupAppend(CommonA, CommonB + CommonC, 2, port, dir);
    LookupAppend(CommonB, CommonC, 2, port, dir);
  }

  /** Generation layering: the 386 table answers with its own ranges first
      and otherwise exactly as the 286 table does; the 286 and the original
      tables in turn answer with their own ranges before the shared ones. */
  lemma GenerationLayers(port: nat, dir: Dir)
    ensures Decode(Pc9801RsIo, port, dir) == OrElse(L(RsOwn, 2, port, dir), Decode(Pc9801UxIo, port, dir))
    ensures Decode(Pc9801UxIo, port, dir) == OrElse(L(UxA, 2, port, dir), OrElse(L(UxB, 2, port, dir), L(CommonIo, 2, port, dir)))
    ensures Decode(Pc9801Io, port, dir) == OrElse(L(Pc9801Own, 2, port, dir), L(CommonIo, 2, port, dir))
  {
    LookupAppend(RsOwn, UxOwn + CommonIo, 2, port, dir);
    LookupAppend(UxOwn, CommonIo, 2, port, dir);
    LookupAppend(UxA, UxB, 2, port, dir);
    LookupAppend(Pc9801Own, CommonIo, 2, port, dir);
  }

  lemma Pc9821Layers(port: nat, dir: Dir)
    ensures Decode(Pc9821Io, port, dir)
            == OrElse(L(P21A, 4, port, dir), OrElse(L(P21B, 4, port, dir), OrElse(L(P21C, 4, port, dir),
               OrElse(L(P21D, 4, port, dir), OrElse(L(P21E, 4, port, dir),
               OrElse(L(SdipEntries(0), 4, port, dir), L(P21Midi, 4, port, dir)))))))
  {
    LookupAppend(P21A, P21B + (P21C + (P21D + (P21E + (SdipEntries(0) + P21Midi)))), 4, port, dir);
    LookupAppend(P21B, P21C + (P21D + (P21E + (SdipEntries(0) + P21Midi))), 4, port, dir);
    LookupAppend(P21C, P21D + (P21E + (SdipEntries(0) + P21Midi)), 4, port, dir);
    LookupAppend(P21D, P21E + (SdipEntries(0) + P21Midi), 4, port, dir);
    LookupAppend(P21E, SdipEntries(0) + P21Midi, 4, port, dir);
    LookupAppend(SdipEntries(0), P21Midi, 4, port, dir);
  }

  /** Ranges that do not serve an access can be skipped. */
  lemma {:induction false} LookupSkip(t: seq<Entry>, i: nat, j: nat, bus: nat, port: nat, dir: Dir)
    requires bus > 0 && i <= j <= |t|
    requires forall k :: i <= k < j ==> !Serves(t[k], bus, port, dir)
    ensures LookupFrom(t, i, bus, port, dir) == LookupFrom(t, j, bus, port, dir)
    decreases j - i
  {
    if i < j {
      LookupSkip(t, i + 1, j, bus, port, dir);
    }
  }

  // -- concrete decodes ---------------------------------------------------------------
  // Each decode below is split in two: a lemma that evaluates the lookup in
  // the individual parts of a table, and the statement about the whole
  // table, which follows from those values by the layering lemmas above.

  lemma UxGrcgParts()
    ensures L(UxA, 2, 0x7c, WriteDir) == Some(Decoded(Grcg, 6))
    ensures L(UxA, 2, 0x7e, WriteDir) == Some(Decoded(Grcg, 7))
    ensures L(UxA, 2, 0x71, ReadDir) == None && L(UxB, 2, 0x71, ReadDir) == None
    ensures L(Pc9801Own, 2, 0x7c, WriteDir) == None && L(Pc9801Own, 2, 0x71, ReadDir) == None
  {
  }

  lemma CommonPitParts()
    ensures L(CommonA, 2, 0x7c, WriteDir) == None && L(CommonB, 2, 0x7c, WriteDir) == Some(Decoded(TxtScrl, 6))
    ensures L(CommonA, 2, 0x71, ReadDir) == None && L(CommonB, 2, 0x71, ReadDir) == Some(Decoded(Pit, 0))
  {
  }

  /** The GRCG registers override the text-scroll registers on the 286
      models: port 0x7C (mode) and 0x7E (tile) reach the GRCG at offsets 6
      and 7, which the original model routes to the text scroll; odd ports
      are the PIT on both. */
  lemma GrcgOverridesTextScroll()
    ensures Decode(Pc9801UxIo, 0x7c, WriteDir) == Some(Decoded(Grcg, 6))
    ensures Decode(Pc9801UxIo, 0x7e, WriteDir) == Some(Decoded(Grcg, 7))
    ensures Decode(Pc9801Io, 0x7c, WriteDir) == Some(Decoded(TxtScrl, 6))
    ensures Decode(Pc9801UxIo, 0x71, ReadDir) == Some(Decoded(Pit, 0))
    ensures Decode(Pc9801Io, 0x71, ReadDir) == Some(Decoded(Pit, 0))
  {
    UxGrcgParts();
    CommonPitParts();
    GenerationLayers(0x7c, WriteDir);
    GenerationLayers(0x7e, WriteDir);
    GenerationLayers(0x71, ReadDir);
    CommonLayers(0x7c, WriteDir);
    CommonLayers(0x71, ReadDir);
  }

  lemma NmiParts()
    ensures L(UxA, 2, 0x52, WriteDir) == Some(Decoded(Nop, 2)) && L(RsOwn, 2, 0x52, WriteDir) == None
    ensures L(Pc9801Own, 2, 0x50, WriteDir) == None && L(Pc9801Own, 2, 0x52, WriteDir) == None
    ensures L(CommonA, 2, 0x50, WriteDir) == Some(Decoded(NmiCtrl, 0))
    ensures L(CommonA, 2, 0x52, WriteDir) == Some(Decoded(NmiCtrl, 1))
  {
    LookupSkip(CommonA, 0, 7, 2, 0x50, WriteDir);
    LookupSkip(CommonA, 0, 7, 2, 0x52, WriteDir);
  }

  /** On the 286 and 386 models the whole 0x50-0x57 block is a no-op,
      hiding the NMI flip-flop the original model has at 0x50 and 0x52. */
  lemma NmiPortsPerGeneration()
    ensures Decode(Pc9801UxIo, 0x52, WriteDir) == Some(Decoded(Nop, 2))
    ensures Decode(Pc9801RsIo, 0x52, WriteDir) == Some(Decoded(Nop, 2))
    ensures Decode(Pc9801Io, 0x50, WriteDir) == Some(Decoded(NmiCtrl, 0))
    ensures Decode(Pc9801Io, 0x52, WriteDir) == Some(Decoded(NmiCtrl, 1))
  {
    NmiParts();
    GenerationLayers(0x52, WriteDir);
    GenerationLayers(0x50, WriteDir);
    CommonLayers(0x50, WriteDir);
    CommonLayers(0x52, WriteDir);
  }

  lemma Pc9821NmiParts()
    ensures L(P21A, 4, 0x52, WriteDir) == None && L(P21B, 4, 0x52, WriteDir) == Some(Decoded(NmiCtrl, 1))
  {
  }

  /** The 9821 keeps the NMI flip-flop at 0x50 and 0x52. */
  lemma Pc9821NmiPorts()
    ensures Decode(Pc9821Io, 0x52, WriteDir) == Some(Decoded(NmiCtrl, 1))
  {
    Pc9821NmiParts();
    Pc9821Layers(0x52, WriteDir);
  }

  lemma DmaPageParts()
    ensures L(Pc9801Own, 2, 0x21, WriteDir) == Some(Decoded(DmaPage4, 0))
    ensures L(Pc9801Own, 2, 0x27, WriteDir) == Some(Decoded(DmaPage4, 3))
    ensures L(UxA, 2, 0x25, WriteDir) == Some(Decoded(DmaPage8, 2))
    ensures L(UxA, 2, 0x29, WriteDir) == Some(Decoded(DmaPage8, 4))
    ensures L(UxA, 2, 0x20, WriteDir) == None && L(UxB, 2, 0x20, WriteDir) == None
    ensures L(CommonA, 2, 0x20, WriteDir) == Some(Decoded(Rtc, 0))
  {
  }

  /** The DMA page ports: 0x21, 0x23, 0x25, 0x27 are latch offsets 0-3 and
      0x29 the mode register; the even ports of the block are the RTC. */
  lemma DmaPagePorts()
    ensures Decode(Pc9801Io, 0x21, WriteDir) == Some(Decoded(DmaPage4, 0))
    ensures Decode(Pc9801Io, 0x27, WriteDir) == Some(Decoded(DmaPage4, 3))
    ensures Decode(Pc9801UxIo, 0x25, WriteDir) == Some(Decoded(DmaPage8, 2))
    ensures Decode(Pc9801UxIo, 0x29, WriteDir) == Some(Decoded(DmaPage8, 4))
    ensures Decode(Pc9801UxIo, 0x20, WriteDir) == Some(Decoded(Rtc, 0))
  {
    DmaPageParts();
    GenerationLayers(0x21, WriteDir);
    GenerationLayers(0x27, WriteDir);
    GenerationLayers(0x25, WriteDir);
    GenerationLayers(0x29, WriteDir);
    GenerationLayers(0x20, WriteDir);
    CommonLayers(0x20, WriteDir);
  }

  lemma Pc9821DmaParts()
    ensures L(P21A, 4, 0x29, WriteDir) == Some(Decoded(DmaPage8, 4))
  {
  }

  /** On the 9821 the DMA mode register is the fifth served byte of the
      block as well. */
  lemma Pc9821DmaModePort()
    ensures Decode(Pc9821Io, 0x29, WriteDir) == Some(Decoded(DmaPage8, 4))
  {
    Pc9821DmaParts();
    Pc9821Layers(0x29, WriteDir);
  }

  lemma Pc9821PaletteParts()
    ensures L(P21A, 4, 0xa8, WriteDir) == None && L(P21B, 4, 0xa8, WriteDir) == None
    ensures L(P21C, 4, 0xa8, WriteDir) == Some(Decoded(Pc9821A0, 8))
  {
    LookupSkip(P21C, 0, 3, 4, 0xa8, WriteDir);
  }

  /** On the 9821 port 0xA8 is palette offset 8. */
  lemma Pc9821PalettePort()
    ensures Decode(Pc9821Io, 0xa8, WriteDir) == Some(Decoded(Pc9821A0, 8))
  {
    Pc9821PaletteParts();
    Pc9821Layers(0xa8, WriteDir);
  }

  lemma A20Parts()
    ensures L(UxA, 2, 0xf2, WriteDir) == None && L(UxB, 2, 0xf2, WriteDir) == Some(Decoded(A20Ctrl, 1))
    ensures L(RsOwn, 2, 0xf6, ReadDir) == None && L(UxA, 2, 0xf6, ReadDir) == None
    ensures L(UxB, 2, 0xf6, ReadDir) == Some(Decoded(A20Ctrl, 3))
    ensures L(Pc9801Own, 2, 0xf0, ReadDir) == Some(Decoded(F0, 0)) && L(Pc9801Own, 2, 0xf2, WriteDir) == None
    ensures L(CommonA, 2, 0xf2, WriteDir) == None && L(CommonB, 2, 0xf2, WriteDir) == None
    ensures L(CommonC, 2, 0xf2, WriteDir) == None
  {
  }

  /** Port 0xF2 is A20 offset 1 and 0xF6 offset 3 on the 16-bit bus; the
      original model has only the read-only F0 block there. */
  lemma A20Ports()
    ensures Decode(Pc9801UxIo, 0xf2, WriteDir) == Some(Decoded(A20Ctrl, 1))
    ensures Decode(Pc9801RsIo, 0xf6, ReadDir) == Some(Decoded(A20Ctrl, 3))
    ensures Decode(Pc9801Io, 0xf0, ReadDir) == Some(Decoded(F0, 0))
    ensures Decode(Pc9801Io, 0xf2, WriteDir) == None
  {
    A20Parts();
    GenerationLayers(0xf2, WriteDir);
    GenerationLayers(0xf6, ReadDir);
    GenerationLayers(0xf0, ReadDir);
    CommonLayers(0xf2, WriteDir);
  }

  lemma Pc9821A20Parts()
    ensures L(P21A, 4, 0xf2, WriteDir) == None && L(P21B, 4, 0xf2, WriteDir) == None
    ensures L(P21C, 4, 0xf2, WriteDir) == None && L(P21D, 4, 0xf2, WriteDir) == Some(Decoded(A20Ctrl, 1))
    ensures L(P21A, 4, 0xf6, ReadDir) == None && L(P21B, 4, 0xf6, ReadDir) == None
    ensures L(P21C, 4, 0xf6, ReadDir) == None && L(P21D, 4, 0xf6, ReadDir) == Some(Decoded(A20Ctrl, 3))
  {
    Pc9821BelowF0(0xf2, WriteDir);
    Pc9821BelowF0(0xf6, ReadDir);
  }

  /** The first three 9821 parts end below 0xF0. */
  lemma Pc9821BelowF0(port: nat, dir: Dir)
    requires 0xf0 <= port
    ensures L(P21A, 4, port, dir) == None && L(P21B, 4, port, dir) == None && L(P21C, 4, port, dir) == None
  {
    NoEarlierServes(P21A, 4, port, dir);
    NoEarlierServes(P21B, 4, port, dir);
    NoEarlierServes(P21C, 4, port, dir);
  }

  /** On the 32-bit bus the A20 ports keep their offsets. */
  lemma Pc9821A20Ports()
    ensures Decode(Pc9821Io, 0xf2, WriteDir) == Some(Decoded(A20Ctrl, 1))
    ensures Decode(Pc9821Io, 0xf6, ReadDir) == Some(Decoded(A20Ctrl, 3))
  {
    Pc9821A20Parts();
    Pc9821Layers(0xf2, WriteDir);
    Pc9821Layers(0xf6, ReadDir);
  }

  lemma LaterModelParts()
    ensures L(UxA, 2, 0x04ae, WriteDir) == None && L(UxB, 2, 0x04ae, WriteDir) == Some(Decoded(Egc, 7))
    ensures L(RsOwn, 2, 0xbfdb, WriteDir) == Some(Decoded(MouseFreq, 3))
  {
  }

  /** Ports reached only on the later models: the EGC at 0x4AE (word 7)
      and the mouse divider at 0xBFDB (offset 3) on the 386 models. */
  lemma LaterModelPorts()
    ensures Decode(Pc9801UxIo, 0x04ae, WriteDir) == Some(Decoded(Egc, 7))
    ensures Decode(Pc9801RsIo, 0xbfdb, WriteDir) == Some(Decoded(MouseFreq, 3))
  {
    LaterModelParts();
    GenerationLayers(0x04ae, WriteDir);
    GenerationLayers(0xbfdb, WriteDir);
  }

  lemma Pc9821EgcParts()
    ensures L(P21A, 4, 0x04ae, WriteDir) == None && L(P21B, 4, 0x04ae, WriteDir) == None
    ensures L(P21C, 4, 0x04ae, WriteDir) == None && L(P21D, 4, 0x04ae, WriteDir) == Some(Decoded(Egc, 7))
  {
    Pc9821BelowF0(0x04ae, WriteDir);
    LookupSkip(P21D, 0, 5, 4, 0x04ae, WriteDir);
  }

  /** The 9821 EGC is at 0x4AE (word 7) as on the 16-bit bus. */
  lemma Pc9821EgcPort()
    ensures Decode(Pc9821Io, 0x04ae, WriteDir) == Some(Decoded(Egc, 7))
  {
    Pc9821EgcParts();
    Pc9821Layers(0x04ae, WriteDir);
  }

  /** Every SDIP port decodes to its register and its byte within it. */
  lemma {:induction false} SdipDecode(m: nat, n: nat, q: nat, dir: Dir)
    requires m <= n < 12 && q < 4
    ensures L(SdipEntries(m), 4, 0x841c + 0x100 * n + q, dir) == Some(Decoded(Sdip(n), q))
    decreases n - m
  {
    var port := 0x841c + 0x100 * n + q;
    var e := R(0x841c + 0x100 * m, 0x841f + 0x100 * m, 0xffff_ffff, Sdip(m));
    LookupAppend([e], SdipEntries(m + 1), 4, port, dir);
    assert port % 4 == q;
    assert LaneServed(0xffff_ffff, q) by {
      assert q == 0 || q == 1 || q == 2 || q == 3;
    }
    if m == n {
      assert LaneRank(0xffff_ffff, q) == q by {
        assert q == 0 || q == 1 || q == 2 || q == 3;
      }
      assert (port - e.lo) / 4 == 0;
      assert Serves([e][0], 4, port, dir);
    } else {
      assert !Serves([e][0], 4, port, dir);
      SdipDecode(m + 1, n, q, dir);
    }
  }

  /** The parts listed before the SDIP block all end below it. */
  lemma BelowSdipParts(port: nat, dir: Dir)
    requires port >= 0x841c
    ensures L(P21A, 4, port, dir) == None && L(P21B, 4, port, dir) == None
    ensures L(P21C, 4, port, dir) == None && L(P21D, 4, port, dir) == None
    ensures L(P21E, 4, port, dir) == None
  {
    NoEarlierServes(P21A, 4, port, dir);
    NoEarlierServes(P21B, 4, port, dir);
    NoEarlierServes(P21C, 4, port, dir);
    NoEarlierServes(P21D, 4, port, dir);
    NoEarlierServes(P21E, 4, port, dir);
  }

  /** On the 9821, SDIP register n byte q sits at 0x841C + 0x100 n + q. */
  lemma SdipPorts(n: nat, q: nat, dir: Dir)
    requires n < 12 && q < 4
    ensures Decode(Pc9821Io, 0x841c + 0x100 * n + q, dir) == Some(Decoded(Sdip(n), q))
  {
    var port := 0x841c + 0x100 * n + q;
    BelowSdipParts(port, dir);
    SdipDecode(0, n, q, dir);
    Pc9821Layers(port, dir);
  }

  /** A part whose ranges all end below a port does not serve it. */
  lemma NoEarlierServes(t: seq<Entry>, bus: nat, port: nat, dir: Dir)
    requires bus > 0 && forall j :: 0 <= j < |t| ==> t[j].hi < port
    ensures L(t, bus, port, dir) == None
  {
    LookupIsFirstMatch(t, 0, bus, port, dir);
  }

  lemma RsUnmappedParts()
    ensures L(RsOwn, 2, 0x0100, ReadDir) == None
    ensures L(UxA, 2, 0x0100, ReadDir) == None && L(UxB, 2, 0x0100, ReadDir) == None
    ensures L(CommonA, 2, 0x0100, ReadDir) == None && L(CommonB, 2, 0x0100, ReadDir) == None
    ensures L(CommonC, 2, 0x0100, ReadDir) == None
  {
  }

  lemma Pc9821UnmappedParts()
    ensures L(P21A, 4, 0x0100, ReadDir) == None && L(P21B, 4, 0x0100, ReadDir) == None
    ensures L(P21C, 4, 0x0100, ReadDir) == None && L(P21D, 4, 0x0100, ReadDir) == None
    ensures L(P21E, 4, 0x0100, ReadDir) == None && L(P21Midi, 4, 0x0100, ReadDir) == None
    ensures L(SdipEntries(0), 4, 0x0100, ReadDir) == None
  {
    SdipAbove(0, 0x0100, ReadDir);
  }

  /** Unserved reads: all ones on the 16-bit tables, zero on the 9821. */
  lemma UnmappedValues()
    ensures Decode(Pc9801RsIo, 0x0100, ReadDir) == None && UnmappedRead(Pc9801RsIo) == 0xff
    ensures Decode(Pc9821Io, 0x0100, ReadDir) == None && UnmappedRead(Pc9821Io) == 0
  {
    RsUnmappedParts();
    Pc9821UnmappedParts();
    GenerationLayers(0x0100, ReadDir);
    CommonLayers(0x0100, ReadDir);
    Pc9821Layers(0x0100, ReadDir);
  }

  /** The SDIP block serves no port below its first register. */
  lemma {:induction false} SdipAbove(m: nat, port: nat, dir: Dir)
    requires m <= 12 && port < 0x841c
    ensures L(SdipEntries(m), 4, port, dir) == None
    decreases 12 - m
  {
    if m < 12 {
      var e := R(0x841c + 0x100 * m, 0x841f + 0x100 * m, 0xffff_ffff, Sdip(m));
      LookupAppend([e], SdipEntries(m + 1), 4, port, dir);
      SdipAbove(m + 1, port, dir);
    }
  }
}
