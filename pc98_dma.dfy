/** PC-9801 DMA page latches: the i8237 only drives 16 address bits, so the
    board keeps one page byte per channel (ports 0x21/0x23/0x25/0x27), an
    auto-increment mode per channel (port 0x29) and the channel last
    acknowledged by the controller. */
module Pc98Dma {

  /** m_dma_offset[4] (page latches), m_dma_autoinc[4] and m_dack. */
  datatype Dma = Dma(page: seq<bv8>, autoinc: seq<bv8>, dack: nat)

  predicate WellFormed(d: Dma) {
    |d.page| == 4 && |d.autoinc| == 4 && d.dack < 4
  }

  /** The reset state of MACHINE_RESET(pc9801_common) for the modes; page
      latches are not reset by the driver and are left as given. */
  function ResetModes(d: Dma): (r: Dma)
    requires WellFormed(d)
    ensures WellFormed(r) && r.page == d.page && r.dack == d.dack
    ensures forall c :: 0 <= c < 4 ==> r.autoinc[c] == 0
  {
    d.(autoinc := [0, 0, 0, 0])
  }

  /** Port offsets 0..3 of the page latch address channels 1, 2, 3, 0. */
  function Channel(offset: nat): (c: nat)
    requires offset < 4
    ensures c < 4
  {
    (offset + 1) % 4
  }

  /** Every channel has exactly one page port. */
  lemma ChannelBijective(c: nat)
    requires c < 4
    ensures exists o :: 0 <= o < 4 && Channel(o) == c
    ensures forall o1, o2 :: 0 <= o1 < 4 && 0 <= o2 < 4 && Channel(o1) == Channel(o2) ==> o1 == o2
  {
    assert Channel((c + 3) % 4) == c;
  }

  /** dmapg4_w: the 4-bit page latch of the original PC-9801. */
  function PageWrite4(d: Dma, offset: nat, data: bv8): (r: Dma)
    requires WellFormed(d)
    ensures WellFormed(r) && r.autoinc == d.autoinc && r.dack == d.dack
    ensures offset < 4 ==> r.page[Channel(offset)] == data & 0x0f
    ensures offset < 4 ==> forall c :: 0 <= c < 4 && c != Channel(offset) ==> r.page[c] == d.page[c]
    ensures offset >= 4 ==> r == d
  {
    if offset < 4 then d.(page := d.page[Channel(offset) := data & 0x0f]) else d
  }

  /** dmapg8_w: the 8-bit page latch of the later models, plus the mode
      register at offset 4 (channel in bits 1-0, mode in bits 3-2). */
  function PageWrite8(d: Dma, offset: nat, data: bv8): (r: Dma)
    requires WellFormed(d)
    ensures WellFormed(r) && r.dack == d.dack
    ensures offset == 4 ==> (r.page == d.page
              && r.autoinc[(data & 3) as int] == (data >> 2) & 3
              && forall c :: 0 <= c < 4 && c != (data & 3) as int ==> r.autoinc[c] == d.autoinc[c])
    ensures offset < 4 ==> (r.autoinc == d.autoinc && r.page[Channel(offset)] == data
              && forall c :: 0 <= c < 4 && c != Channel(offset) ==> r.page[c] == d.page[c])
    ensures offset > 4 ==> r == d
  {
    if offset == 4 then d.(autoinc := d.autoinc[(data & 3) as int := (data >> 2) & 3])
    else if offset < 4 then d.(page := d.page[Channel(offset) := data])
    else d
  }

  /** Mode registers only ever hold 0..3. */
  predicate ModesInRange(d: Dma)
    requires WellFormed(d)
  {
    forall c :: 0 <= c < 4 ==> d.autoinc[c] <= 3
  }

  lemma PageWritesKeepModes(d: Dma, offset: nat, data: bv8)
    requires WellFormed(d) && ModesInRange(d)
    ensures ModesInRange(PageWrite8(d, offset, data)) && ModesInRange(PageWrite4(d, offset, data))
  {
  }

  /** The page after a transfer crosses the end of a 64 KiB block: mode 1
      wraps within a 1 MiB area (low nibble only), mode 3 steps the whole
      byte, modes 0 and 2 keep the page. */
  function NextPage(mode: bv8, page: bv8): (r: bv8)
    ensures mode == 1 ==> r & 0xf0 == page & 0xf0 && r & 0x0f == (page + 1) & 0x0f
    ensures mode == 3 ==> r - page == 1
    ensures mode != 1 && mode != 3 ==> r == page
  {
    if mode == 1 then WrapNibbleFields(page); ((page + 1) & 0x0f) | (page & 0xf0)
    else if mode == 3 then page + 1
    else page
  }

  lemma WrapNibbleFields(page: bv8)
    ensures (((page + 1) & 0x0f) | (page & 0xf0)) & 0xf0 == page & 0xf0
    ensures (((page + 1) & 0x0f) | (page & 0xf0)) & 0x0f == (page + 1) & 0x0f
  {
  }

  /** In mode 3 the whole page byte counts up and wraps from 0xFF to 0x00. */
  lemma Mode3Increment(page: bv8)
    ensures NextPage(3, page) as int == (page as int + 1) % 256
  {
    if page == 0xff {
      assert NextPage(3, page) == 0;
    } else {
      assert NextPage(3, page) as int == page as int + 1;
    }
  }

  /** Sixteen block crossings in mode 1 come back to the starting page. */
  function Crossings(page: bv8, n: nat): bv8 {
    if n == 0 then page else NextPage(1, Crossings(page, n - 1))
  }

  lemma {:induction false} CrossingsKeepHighNibble(page: bv8, n: nat)
    ensures Crossings(page, n) & 0xf0 == page & 0xf0
  {
    if n > 0 {
      CrossingsKeepHighNibble(page, n - 1);
    }
  }

  lemma NextPageNibble(page: bv8)
    ensures (NextPage(1, page) & 0x0f) as int == ((page & 0x0f) as int + 1) % 16
  {
  }

  /** A count of crossings as a byte: n mod 256. */
  function CrossingCount(n: nat): bv8 {
    if n == 0 then 0 else CrossingCount(n - 1) + 1
  }

  /** The low nibble of a successor depends only on the low nibble. */
  lemma LowNibbleSucc(a: bv8, b: bv8)
    requires a & 0x0f == b & 0x0f
    ensures (a + 1) & 0x0f == (b + 1) & 0x0f
  {
  }

  /** n crossings advance the low nibble by n, modulo 16. */
  lemma {:induction false} CrossingsLowNibble(page: bv8, n: nat)
    ensures Crossings(page, n) & 0x0f == (page + CrossingCount(n)) & 0x0f
  {
    if n > 0 {
      var prev := Crossings(page, n - 1);
      CrossingsLowNibble(page, n - 1);
      LowNibbleSucc(prev, page + CrossingCount(n - 1));
      assert Crossings(page, n) & 0x0f == (prev + 1) & 0x0f;
    }
  }

  /** A byte is its two nibbles. */
  lemma NibblesDetermine(a: bv8, b: bv8)
    requires a & 0xf0 == b & 0xf0 && a & 0x0f == b & 0x0f
    ensures a == b
  {
    assert a == (a & 0xf0) | (a & 0x0f);
    assert b == (b & 0xf0) | (b & 0x0f);
  }

  lemma Mode1Period(page: bv8)
    ensures Crossings(page, 16) == page
  {
    var q := Crossings(page, 16);
    CrossingsKeepHighNibble(page, 16);
    CrossingsLowNibble(page, 16);
    assert CrossingCount(8) == 8;
    assert CrossingCount(16) == 16;
    assert (page + 16) & 0x0f == page & 0x0f;
    NibblesDetermine(q, page);
  }

  /** The 24-bit bus address of a DMA cycle: page in bits 23-16. */
  function Address(d: Dma, offset: bv16): (a: bv32)
    requires WellFormed(d)
    ensures a >> 16 == d.page[d.dack] as bv32
    ensures a & 0xffff == offset as bv32
  {
    Join(d.page[d.dack], offset)
  }

  /** A page above a 16-bit offset. */
  function Join(page: bv8, offset: bv16): (a: bv32)
    ensures a >> 16 == page as bv32
    ensures a & 0xffff == offset as bv32
  {
    ((page as bv32) << 16) | (offset as bv32)
  }

  datatype Cycle = Cycle(dma: Dma, address: bv32)

  /** dma_read_byte / dma_write_byte: the address is formed from the page
      as it is before the cycle; a cycle at the last offset of the block
      then moves the acknowledged channel's page by its mode. */
  function Transfer(d: Dma, offset: bv16): (r: Cycle)
    requires WellFormed(d)
    ensures WellFormed(r.dma) && r.dma.autoinc == d.autoinc && r.dma.dack == d.dack
    ensures r.address == Address(d, offset)
    ensures offset != 0xffff ==> r.dma == d
    ensures offset == 0xffff ==>
              r.dma.page[d.dack] == NextPage(d.autoinc[d.dack], d.page[d.dack])
              && forall c :: 0 <= c < 4 && c != d.dack ==> r.dma.page[c] == d.page[c]
  {
    var a := Address(d, offset);
    if offset == 0xffff then
      Cycle(d.(page := d.page[d.dack := NextPage(d.autoinc[d.dack], d.page[d.dack])]), a)
    else Cycle(d, a)
  }

  /** set_dma_channel: DACK is active low; the channel whose line goes low
      becomes the one that later cycles use. */
  function Acknowledge(d: Dma, channel: nat, state: bool): (r: Dma)
    requires WellFormed(d) && channel < 4
    ensures WellFormed(r) && r.page == d.page && r.autoinc == d.autoinc
    ensures r.dack == if state then d.dack else channel
  {
    if !state then d.(dack := channel) else d
  }

  /** A whole 64 KiB block in mode 1 followed by the crossing: the next
      cycle's address is in the following 64 KiB page of the same 1 MiB area. */
  lemma BlockCrossing(d: Dma)
    requires WellFormed(d) && d.autoinc[d.dack] == 1
    ensures var n := Transfer(d, 0xffff).dma;
            Address(n, 0) >> 20 == Address(d, 0xffff) >> 20
            && (Address(n, 0) >> 16) & 0xf == ((Address(d, 0xffff) >> 16) + 1) & 0xf
  {
    var p := d.page[d.dack];
    var q := NextPage(1, p);
    assert Address(Transfer(d, 0xffff).dma, 0) == (q as bv32) << 16;
    assert Address(d, 0xffff) == ((p as bv32) << 16) | 0xffff;
  }
}
