/** Elektronika MS 0515: the RAM bank register at 0177400, the halt/timer
    register at 0177770, the system registers behind the 8255 (ports A, B and
    C) and the interrupt priority encoder that drives the T11's four CPx
    lines. Addresses in comments are octal, as on the machine. */
module Ms0515 {
  import opened Bits

  /** Bit j of a 16-bit register. */
  predicate Bit(x: bv16, j: bv16) requires j < 16 { (x >> j) & 1 == 1 }

  // -- RAM banking ------------------------------------------------------------

  /** Offsets into the RAM buffer (octal 020000 = page size, 0160000 = the
      alternate-page stride, 0340000 = video RAM). */
  const PageSize: nat := 0x2000
  const AltStride: nat := 0xe000
  const VideoRam: nat := 0x1c000

  /** Bits 11-10: which pair of pages the VRAM window covers. */
  function OverlaySel(data: bv16): nat { ((data >> 10) & 3) as nat }

  /** The first of the two pages the VRAM window replaces. */
  function OverlayFirst(sel: nat): nat { if sel == 0 then 0 else if sel == 1 then 2 else 4 }

  /** The RAM offset mapped at page i (0..6) for a bank register value:
      page i normally shows i * 020000, plus 0160000 when bit i is set; with
      bit 7 set, two consecutive pages selected by bits 11-10 show video RAM
      (0340000 and 0360000) instead. */
  function BankBase(data: bv16, i: bv16): (base: nat)
    requires i < 7
    ensures !Bit(data, 7) ==> base == i as nat * PageSize + (if Bit(data, i) then AltStride else 0)
    ensures Bit(data, 7) && (i as nat == OverlayFirst(OverlaySel(data)) || i as nat == OverlayFirst(OverlaySel(data)) + 1) ==>
              base == VideoRam + (i as nat - OverlayFirst(OverlaySel(data))) * PageSize
    ensures Bit(data, 7) && i as nat != OverlayFirst(OverlaySel(data)) && i as nat != OverlayFirst(OverlaySel(data)) + 1 ==>
              base == i as nat * PageSize + (if Bit(data, i) then AltStride else 0)
  {
    var first := OverlayFirst(OverlaySel(data));
    if Bit(data, 7) && first <= i as nat <= first + 1 then VideoRam + (i as nat - first) * PageSize
    else i as nat * PageSize + (if Bit(data, i) then AltStride else 0)
  }

  /** All seven page bases. */
  function Banks(data: bv16): (b: seq<nat>)
    ensures |b| == 7 && forall i: bv16 :: i < 7 ==> b[i] == BankBase(data, i)
  {
    seq(7, i requires 0 <= i < 7 => BankBase(data, i as bv16))
  }

  /** Page 6 (0140000-0157777) is never covered by the video window. */
  lemma Page6NeverOverlaid(data: bv16)
    ensures BankBase(data, 6) == 6 * PageSize + (if Bit(data, 6) then AltStride else 0)
  {
  }

  /** Window selections 2 and 3 give the same mapping. */
  lemma OverlaySel2And3Agree(data: bv16)
    requires OverlaySel(data) == 2
    ensures Banks(data) == Banks(data | 0x0400)
  {
    var d3 := data | 0x0400;
    assert OverlaySel(d3) == 3;
    forall i: bv16 | i < 7 ensures BankBase(d3, i) == BankBase(data, i) {
      assert Bit(d3, i) == Bit(data, i) && Bit(d3, 7) == Bit(data, 7);
      SameBankBase(data, d3, i);
    }
    var a, b := Banks(data), Banks(d3);
    forall k | 0 <= k < 7 ensures a[k] == b[k] {
      assert a[k as bv16] == BankBase(data, k as bv16) && b[k as bv16] == BankBase(d3, k as bv16);
    }
  }

  /** A page's base depends only on its own select bit, bit 7 and which
      pages the window covers. */
  lemma SameBankBase(d1: bv16, d2: bv16, i: bv16)
    requires i < 7 && Bit(d1, i) == Bit(d2, i) && Bit(d1, 7) == Bit(d2, 7)
    requires OverlayFirst(OverlaySel(d1)) == OverlayFirst(OverlaySel(d2))
    ensures BankBase(d1, i) == BankBase(d2, i)
  {
  }

  /** Flipping the select bit of one page moves that page and no other. With
      the video window covering the page, the flip changes nothing at all;
      otherwise the page moves by exactly the alternate stride. */
  lemma BankBitIsolated(data: bv16, i: bv16, j: bv16)
    requires i < 7 && j < 7 && i != j
    ensures BankBase(data ^ (1 << i), j) == BankBase(data, j)
    ensures !Bit(data, 7) ==> BankBase(data ^ (1 << i), i) != BankBase(data, i)
  {
    var d := data ^ (1 << i);
    assert OverlaySel(d) == OverlaySel(data);
  }

  /** Distinct pages never alias: every page maps to a different 8 KiB block,
      the two video pages included, since video RAM lies above every plain
      page. */
  lemma PagesDisjoint(data: bv16, i: bv16, j: bv16)
    requires i < 7 && j < 7 && i != j
    ensures BankBase(data, i) != BankBase(data, j)
  {
    var first := OverlayFirst(OverlaySel(data));
    var ki := PageBlock(data, i);
    var kj := PageBlock(data, j);
    assert i as nat != j as nat;
    BlocksDistinct(first, i as nat, j as nat, ki, kj);
  }

  /** The 8 KiB block a page shows: block i or i + 7 of plain RAM, or, for
      the two window pages, block 14 or 15 (video RAM). */
  lemma PageBlock(data: bv16, i: bv16) returns (k: nat)
    requires i < 7
    ensures BankBase(data, i) == k * PageSize
    ensures (k < 14 && k % 7 == i as nat) || (k >= 14 && k - 14 + OverlayFirst(OverlaySel(data)) == i as nat)
  {
    var first := OverlayFirst(OverlaySel(data));
    if Bit(data, 7) && first <= i as nat <= first + 1 {
      k := 14 + (i as nat - first);
    } else if Bit(data, i) {
      k := i as nat + 7;
    } else {
      k := i as nat;
    }
  }

  lemma BlocksDistinct(first: nat, i: nat, j: nat, ki: nat, kj: nat)
    requires i != j
    requires (ki < 14 && ki % 7 == i) || (ki >= 14 && ki - 14 + first == i)
    requires (kj < 14 && kj % 7 == j) || (kj >= 14 && kj - 14 + first == j)
    ensures ki * PageSize != kj * PageSize
  {
  }

  // -- interrupt priority encoder ---------------------------------------------

  /** No request above line p is pending (p < 16). */
  predicate NoneAbove(irqs: bv16, p: bv16) requires p < 16 { (irqs >> p) >> 1 == 0 }

  /** The highest pending request among lines 1..from, or 0 if there is none
      (line 0 is never reported). */
  function HighestPending(irqs: bv16, from: bv16): (p: bv16)
    requires from < 16
    ensures p <= from
    ensures p > 0 ==> Bit(irqs, p)
    ensures NoneAbove(irqs & (0xffff >> (15 - from)), p)
    decreases from
  {
    if from == 0 then 0
    else if Bit(irqs, from) then from
    else HighestPending(irqs, from - 1)
  }

  /** The level presented to the CPU for a set of pending requests: the
      highest pending line, 0 when only line 0 or nothing is pending. */
  function Priority(irqs: bv16): (p: bv16)
    ensures p < 16
    ensures p > 0 ==> Bit(irqs, p)
    ensures NoneAbove(irqs, p)
  {
    HighestPending(irqs, 15)
  }

  /** Nothing pending above p means bit k is clear for every k above p. */
  lemma AboveClear(irqs: bv16, p: bv16, k: bv16)
    requires p < k < 16 && NoneAbove(irqs, p)
    ensures !Bit(irqs, k)
  {
  }

  /** The two conditions of Priority's contract single out its result. */
  lemma PriorityUnique(irqs: bv16, k: bv16)
    requires k < 16 && (k > 0 ==> Bit(irqs, k)) && NoneAbove(irqs, k)
    ensures Priority(irqs) == k
  {
    var p := Priority(irqs);
    if p < k { AboveClear(irqs, p, k); }
    if k < p { AboveClear(irqs, k, p); }
  }

  /** The level is 0 exactly when no line from 1 to 15 is requesting. */
  lemma PriorityZero(irqs: bv16)
    ensures Priority(irqs) == 0 <==> irqs & 0xfffe == 0
  {
  }

  /** irq_encoder's bookkeeping: set or clear one request bit, leaving the
      others as they were. */
  function UpdateIrqs(irqs: bv16, irq: bv16, asserted: bool): (m: bv16)
    requires irq < 16
    ensures Bit(m, irq) == asserted
    ensures (m ^ irqs) & !(1 << irq) == 0
    ensures if asserted then irqs & !m == 0 else m & !irqs == 0
  {
    if asserted then irqs | (1 << irq) else irqs & !(1 << irq)
  }

  /** Asserting request n (1..15) raises the level to n if n beats every
      pending request, and leaves it alone otherwise. */
  lemma AssertRaisesLevel(irqs: bv16, n: bv16)
    requires 0 < n < 16
    ensures Priority(UpdateIrqs(irqs, n, true)) == if n > Priority(irqs) then n else Priority(irqs)
  {
    var m := UpdateIrqs(irqs, n, true);
    var p := Priority(irqs);
    if n > p {
      NoneAboveMono(irqs, p, n);
      SetBelowNoneAbove(irqs, n, n);
      PriorityUnique(m, n);
    } else {
      SetBelowNoneAbove(irqs, n, p);
      if p > 0 && p != n { OtherBitsKept(m, irqs, n, p); }
      PriorityUnique(m, p);
    }
  }

  /** With line p clear as well, nothing is pending above p - 1. */
  lemma NoneAboveStep(irqs: bv16, p: bv16)
    requires 0 < p < 16 && NoneAbove(irqs, p) && !Bit(irqs, p)
    ensures NoneAbove(irqs, p - 1)
  {
  }

  /** Nothing pending above p means nothing pending above any higher line. */
  lemma NoneAboveMono(irqs: bv16, p: bv16, q: bv16)
    requires p <= q < 16 && NoneAbove(irqs, p)
    ensures NoneAbove(irqs, q)
  {
  }

  /** Setting a bit at or below p adds nothing above p. */
  lemma SetBelowNoneAbove(irqs: bv16, n: bv16, p: bv16)
    requires n <= p < 16 && NoneAbove(irqs, p)
    ensures NoneAbove(irqs | (1 << n), p)
  {
  }

  /** Clearing a request other than the highest one does not change the level. */
  lemma ClearOtherKeepsLevel(irqs: bv16, n: bv16)
    requires n < 16 && n != Priority(irqs)
    ensures Priority(UpdateIrqs(irqs, n, false)) == Priority(irqs)
  {
    LevelKept(UpdateIrqs(irqs, n, false), irqs, n, Priority(irqs));
  }

  /** Dropping request n, other than the pending level p, leaves the level at p. */
  lemma LevelKept(m: bv16, irqs: bv16, n: bv16, p: bv16)
    requires n < 16 && p < 16 && p != n
    requires (m ^ irqs) & !(1 << n) == 0 && m & !irqs == 0
    requires (p > 0 ==> Bit(irqs, p)) && NoneAbove(irqs, p)
    ensures Priority(m) == p
  {
    if p > 0 { OtherBitsKept(m, irqs, n, p); }
    SubsetNoneAbove(m, irqs, p);
    PriorityUnique(m, p);
  }

  /** Clearing the highest request lowers the level. */
  lemma ClearTopLowersLevel(irqs: bv16)
    requires Priority(irqs) > 0
    ensures Priority(UpdateIrqs(irqs, Priority(irqs), false)) < Priority(irqs)
  {
    var n := Priority(irqs);
    var m := UpdateIrqs(irqs, n, false);
    var q := Priority(m);
    if q > n {
      OtherBitsKept(m, irqs, n, q);
      AboveClear(irqs, n, q);
    }
  }

  /** Dropping requests never adds one above p. */
  lemma SubsetNoneAbove(m: bv16, irqs: bv16, p: bv16)
    requires p < 16 && m & !irqs == 0 && NoneAbove(irqs, p)
    ensures NoneAbove(m, p)
  {
  }

  /** Two registers that differ at most in bit n agree on every other bit. */
  lemma OtherBitsKept(m: bv16, irqs: bv16, n: bv16, q: bv16)
    requires n < 16 && q < 16 && q != n && (m ^ irqs) & !(1 << n) == 0
    ensures Bit(m, q) == Bit(irqs, q)
  {
  }

  /** irq_encoder's scan: from line 15 down to line 1, stop at the first
      pending request; 0 when none is. */
  method ScanLevel(irqs: bv16) returns (i: bv16)
    ensures i == Priority(irqs)
  {
    i := 15;
    while i > 0
      invariant i <= 15
      invariant NoneAbove(irqs, i)
    {
      if (irqs >> i) & 1 == 1 {
        break;
      }
      i := i - 1;
    }
    PriorityUnique(irqs, i);
  }

  /** The four CPx lines: line k is asserted when bit k of the level is set. */
  datatype CpuLines = CpuLines(cp3: bool, cp2: bool, cp1: bool, cp0: bool)

  function LinesFor(level: bv16): (l: CpuLines)
    requires level < 16
    ensures (if l.cp3 then 8 else 0) | (if l.cp2 then 4 else 0) | (if l.cp1 then 2 else 0)
            | (if l.cp0 then 1 else 0) == level
  {
    CpuLines(level & 8 != 0, level & 4 != 0, level & 2 != 0, level & 1 != 0)
  }

  // -- system registers ---------------------------------------------------------

  datatype Drive = Drive0 | Drive1

  /** What the system register writes do to the outside world. */
  datatype Effect =
    | Lines(lines: CpuLines)                 // T11 CPx inputs from the encoder
    | Led(name: nat, on: bool)               // led16, led9, led17
    | FdcSelect(drive: Drive)                // kr1818vg93 set_floppy
    | SideSelect(drive: Drive, side: bool)   // floppy ss_w
    | Motor(drive: Drive, off: bool)         // floppy mon_w (1 = motor off)
    | PitGate2(level: bool)                  // 8253 gate 2 (sound)

  /** The drive selected by bits 1-0 of port A: 0 and 1 pick a drive,
      2 and 3 deselect both. */
  function SelectedDrive(data: bv8): (d: Option<Drive>)
    ensures d.Some? <==> data & 2 == 0
    ensures d == Some(Drive1) <==> data & 3 == 1
  {
    if data & 3 == 0 then Some(Drive0) else if data & 3 == 1 then Some(Drive1) else None
  }

  /** Port A: LEDs from bits 5 and 4; the selected drive gets side select
      (inverted bit 3) and motor (bit 2); with no drive selected both motors
      are turned off. */
  function PortAEffects(data: bv8): (e: seq<Effect>)
    ensures Led(16, data & 0x20 != 0) in e && Led(9, data & 0x10 != 0) in e
    ensures SelectedDrive(data).None? ==> Motor(Drive0, true) in e && Motor(Drive1, true) in e
    ensures forall d :: SelectedDrive(data) == Some(d) ==>
              FdcSelect(d) in e && SideSelect(d, data & 8 == 0) in e && Motor(d, data & 4 != 0) in e
    ensures forall x :: x in e && x.Motor? && SelectedDrive(data).Some? ==> x.drive == SelectedDrive(data).value
  {
    [Led(16, data & 0x20 != 0), Led(9, data & 0x10 != 0)] +
    match SelectedDrive(data)
    case Some(d) => [FdcSelect(d), SideSelect(d, data & 8 == 0), Motor(d, data & 4 != 0)]
    case None => [Motor(Drive0, true), Motor(Drive1, true)]
  }

  /** Port B (read): FDC INTRQ in bit 0, DRQ in bit 1 and, while a drive is
      selected, its inverted ready signal in bit 2. */
  function PortBValue(selected: Option<Drive>, intrq: bool, drq: bool, ready: bool): (v: bv8)
    ensures v & 0xf8 == 0
    ensures (v & 1 != 0) == intrq && (v & 2 != 0) == drq
    ensures (v & 4 != 0) == (selected.Some? && !ready)
  {
    Flag8(intrq) | (Flag8(drq) << 1) | (if selected.Some? then Flag8(!ready) << 2 else 0)
  }

  /** Port C: sound gate from bit 7, LED 17 from bit 4; the floppy and the
      other LEDs are left alone. */
  function PortCEffects(data: bv8): (e: seq<Effect>)
    ensures PitGate2(data & 0x80 != 0) in e && Led(17, data & 0x10 != 0) in e
    ensures forall x :: x in e ==> x == PitGate2(data & 0x80 != 0) || x == Led(17, data & 0x10 != 0)
  {
    [PitGate2(data & 0x80 != 0), Led(17, data & 0x10 != 0)]
  }

  /** Only bits 7 and 4 of port C have an effect: the video resolution and
      overscan bits are merely stored. */
  lemma PortCOnlyBits7And4(a: bv8, b: bv8)
    requires a & 0x90 == b & 0x90
    ensures PortCEffects(a) == PortCEffects(b)
  {
    assert a & 0x80 == (a & 0x90) & 0x80 && b & 0x80 == (b & 0x90) & 0x80;
    assert a & 0x10 == (a & 0x90) & 0x10 && b & 0x10 == (b & 0x90) & 0x10;
  }

  // -- the driver state -----------------------------------------------------------

  class Ms0515State {
    var sysregA: bv8
    var sysregC: bv8
    var bankReg: bv16
    var haltReg: bv16
    var irqs: bv16
    var blink: int
    var floppy: Option<Drive>
    /** The RAM offsets the seven bank pointers currently hold. */
    var bankBases: seq<nat>
    /** Where m_video_ram points into RAM. */
    var videoRam: nat

    constructor ()
      ensures bankReg == 0 && irqs == 0 && haltReg == 0 && floppy.None?
    {
      sysregA, sysregC, bankReg, haltReg, irqs := 0, 0, 0, 0, 0;
      blink, floppy, bankBases, videoRam := 0, None, Banks(0), VideoRam;
    }

    /** irq_encoder: record the request, then scan from line 15 down to line 1
        for the first pending one and present its number on the CPx lines. */
    method IrqEncoder(irq: bv16, asserted: bool) returns (e: Effect)
      requires irq < 16
      modifies this`irqs
      ensures irqs == UpdateIrqs(old(irqs), irq, asserted)
      ensures e == Lines(LinesFor(Priority(irqs)))
    {
      if asserted {
        irqs := irqs | (1 << irq);
      } else {
        irqs := irqs & !(1 << irq);
      }
      var i := ScanLevel(irqs);
      e := Lines(LinesFor(i));
    }

    /** ms0515_bank_w: a change of bit 8 drives the vblank request (line 2);
        the register takes the whole word (the byte-lane mask is ignored); then
        the seven page pointers are recomputed. */
    method BankWrite(data: bv16) returns (effects: seq<Effect>)
      modifies this`irqs, this`bankReg, this`bankBases
      ensures bankReg == data && bankBases == Banks(data)
      ensures Bit(old(bankReg) ^ data, 8) ==>
                irqs == UpdateIrqs(old(irqs), 2, Bit(data, 8)) && effects == [Lines(LinesFor(Priority(irqs)))]
      ensures !Bit(old(bankReg) ^ data, 8) ==> irqs == old(irqs) && effects == []
    {
      effects := [];
      if ((data ^ bankReg) >> 8) & 1 == 1 {
        var e := IrqEncoder(2, (data >> 8) & 1 == 1);
        effects := [e];
      }
      bankReg := data;
      bankBases := Banks(data);
    }

    method HaltRead() returns (v: bv16)
      ensures v == haltReg
    {
      v := haltReg;
    }

    method HaltWrite(data: bv16, mask: bv16)
      modifies this`haltReg
      ensures haltReg == Combine16(old(haltReg), data, mask)
    {
      haltReg := (haltReg & !mask) | (data & mask);
    }

    method PortAWrite(data: bv8) returns (effects: seq<Effect>)
      modifies this`floppy, this`sysregA
      ensures floppy == SelectedDrive(data) && sysregA == data
      ensures effects == PortAEffects(data)
    {
      effects := [Led(16, data & 0x20 != 0), Led(9, data & 0x10 != 0)];
      if data & 3 == 0 {
        floppy := Some(Drive0);
      } else if data & 3 == 1 {
        floppy := Some(Drive1);
      } else {
        floppy := None;
      }
      if floppy.Some? {
        effects := effects + [FdcSelect(floppy.value), SideSelect(floppy.value, data & 8 == 0), Motor(floppy.value, data & 4 != 0)];
      } else {
        effects := effects + [Motor(Drive0, true), Motor(Drive1, true)];
      }
      sysregA := data;
    }

    method PortBRead(intrq: bool, drq: bool, ready: bool) returns (v: bv8)
      ensures v == PortBValue(floppy, intrq, drq, ready)
    {
      v := Flag8(intrq);
      v := v | (Flag8(drq) << 1);
      if floppy.Some? {
        v := v | (Flag8(!ready) << 2);
      }
    }

    method PortCWrite(data: bv8) returns (effects: seq<Effect>)
      modifies this`sysregC
      ensures sysregC == data && effects == PortCEffects(data)
    {
      effects := [PitGate2(data & 0x80 != 0), Led(17, data & 0x10 != 0)];
      sysregC := data;
    }

    /** screen_vblank: with bit 9 of the bank register set, the vblank edge
        drives request 11 (the timer); otherwise it is ignored. */
    method ScreenVblank(state: bool) returns (effects: seq<Effect>)
      modifies this`irqs
      ensures Bit(bankReg, 9) ==> irqs == UpdateIrqs(old(irqs), 11, state) && effects == [Lines(LinesFor(Priority(irqs)))]
      ensures !Bit(bankReg, 9) ==> irqs == old(irqs) && effects == []
    {
      effects := [];
      if (bankReg >> 9) & 1 == 1 {
        var e := IrqEncoder(11, state);
        effects := [e];
      }
    }

    /** The request lines wired to the encoder: 2 vblank, 5 MS 7004
        keyboard, 8 serial TX, 9 serial RX, 11 timer. */
    method IrqLine(irq: bv16, state: bool) returns (e: Effect)
      requires irq == 2 || irq == 5 || irq == 8 || irq == 9 || irq == 11
      modifies this`irqs
      ensures irqs == UpdateIrqs(old(irqs), irq, state) && e == Lines(LinesFor(Priority(irqs)))
    {
      e := IrqEncoder(irq, state);
    }

    /** machine_reset: bank register cleared through the bank handler, video
        RAM at 0340000, blink counter, halt register and pending requests
        zeroed, no drive selected. */
    method MachineReset() returns (effects: seq<Effect>)
      modifies this`irqs, this`bankReg, this`bankBases, this`videoRam, this`blink, this`haltReg, this`floppy
      ensures bankReg == 0 && bankBases == Banks(0) && videoRam == VideoRam
      ensures blink == 0 && haltReg == 0 && irqs == 0 && floppy.None?
      ensures Bit(old(bankReg), 8) ==> effects == [Lines(LinesFor(Priority(UpdateIrqs(old(irqs), 2, false))))]
      ensures !Bit(old(bankReg), 8) ==> effects == []
    {
      effects := BankWrite(0);
      videoRam := VideoRam;
      blink := 0;
      haltReg := 0;
      irqs := 0;
      floppy := None;
    }
  }

  /** After reset every page shows its own block of the first 56 KiB. */
  lemma ResetIdentityMapping()
    ensures forall i: bv16 :: i < 7 ==> Banks(0)[i] == i as nat * PageSize
  {
  }
}
