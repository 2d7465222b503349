/** PC-9801 bus mouse: the PPI at 0x7FD9-0x7FDF reads the counters a nibble
    at a time, port C latches them, and a 120 Hz timer raises the mouse
    interrupt every (freq_reg + 1) ticks unless interrupts are masked. */
module Pc98Mouse {
  import opened Bits

  /** m_mouse: control is PPI port C; freq_index counts timer ticks. */
  datatype Mouse = Mouse(control: bv8, freqReg: Byte, freqIndex: Byte, lx: bv8, ly: bv8)

  /** The divider never runs past its period. */
  predicate WellFormed(m: Mouse) { m.freqReg <= 3 && m.freqIndex <= m.freqReg }

  /** MACHINE_RESET(pc9801_common): port C all ones, divider at 1:1. */
  function Reset(m: Mouse): (r: Mouse)
    ensures WellFormed(r) && r.control == 0xff && r.freqReg == 0 && r.freqIndex == 0
    ensures r.lx == m.lx && r.ly == m.ly
  {
    m.(control := 0xff, freqReg := 0, freqIndex := 0)
  }

  /** ppi_mouse_porta_r: the buttons in the high nibble; in the low nibble
      a nibble (bit 5 of port C: high or low) of the X or Y count (bit 6),
      live while bit 7 is clear, latched while it is set. */
  function PortARead(m: Mouse, buttons: bv8, x: bv8, y: bv8): (v: bv8)
    ensures v & 0xf0 == buttons & 0xf0
    ensures var src := if m.control & 0x80 == 0 then (if m.control & 0x40 != 0 then y else x)
                       else (if m.control & 0x40 != 0 then m.ly else m.lx);
            v & 0x0f == (if m.control & 0x20 != 0 then src >> 4 else src & 0x0f)
  {
    var shift: bv8 := if m.control & 0x20 != 0 then 4 else 0;
    var src := if m.control & 0x80 == 0 then (if m.control & 0x40 != 0 then y else x)
               else (if m.control & 0x40 != 0 then m.ly else m.lx);
    (buttons & 0xf0) | ((src >> shift) & 0x0f)
  }

  /** ppi_mouse_portc_w: a 0->1 edge of bit 7 latches both counters; port C
      always takes the new value. */
  function PortCWrite(m: Mouse, data: bv8, x: bv8, y: bv8): (r: Mouse)
    ensures r.control == data && r.freqReg == m.freqReg && r.freqIndex == m.freqIndex
    ensures m.control & 0x80 == 0 && data & 0x80 != 0 ==> r.lx == x && r.ly == y
    ensures !(m.control & 0x80 == 0 && data & 0x80 != 0) ==> r.lx == m.lx && r.ly == m.ly
  {
    var latched := if m.control & 0x80 == 0 && data & 0x80 != 0 then m.(lx := x, ly := y) else m;
    latched.(control := data)
  }

  /** Once latched, the counts read back as they were at the latch, however
      the live counters move. */
  lemma LatchHolds(m: Mouse, data: bv8, x: bv8, y: bv8, buttons: bv8, x2: bv8, y2: bv8)
    requires m.control & 0x80 == 0 && data & 0x80 != 0
    ensures PortARead(PortCWrite(m, data, x, y), buttons, x2, y2)
            == PortARead(PortCWrite(m, data, x, y), buttons, x, y)
  {
  }

  /** pc9801rs_mouse_freq_w: offset 3 sets the divider and restarts it. */
  function FreqWrite(m: Mouse, offset: nat, data: bv8): (r: Mouse)
    ensures WellFormed(m) ==> WellFormed(r)
    ensures offset == 3 ==> r == m.(freqReg := (data & 3) as int, freqIndex := 0)
    ensures offset != 3 ==> r == m
  {
    if offset == 3 then m.(freqReg := (data & 3) as int, freqIndex := 0) else m
  }

  datatype Tick = Tick(mouse: Mouse, irq: bool)

  /** mouse_irq_cb: with interrupts unmasked (bit 4 of port C clear) the
      tick is counted, and the count passing the divider pulses the slave
      PIC's IR5 and restarts. */
  function TimerTick(m: Mouse): (t: Tick)
    requires WellFormed(m)
    ensures WellFormed(t.mouse)
    ensures m.control & 0x10 != 0 ==> t == Tick(m, false)
    ensures m.control & 0x10 == 0 ==> (t.mouse.control == m.control && t.mouse.freqReg == m.freqReg
              && (t.irq <==> m.freqIndex == m.freqReg)
              && t.mouse.freqIndex == (if t.irq then 0 else m.freqIndex + 1))
  {
    if m.control & 0x10 == 0 then
      var idx := Inc8(m.freqIndex);
      if idx > m.freqReg then Tick(m.(freqIndex := 0), true) else Tick(m.(freqIndex := idx), false)
    else Tick(m, false)
  }

  datatype Run = Run(mouse: Mouse, irqs: nat)

  /** n timer ticks, counting interrupts. */
  function Ticks(m: Mouse, n: nat): (r: Run)
    requires WellFormed(m)
    ensures WellFormed(r.mouse)
  {
    if n == 0 then Run(m, 0)
    else
      var prev := Ticks(m, n - 1);
      var t := TimerTick(prev.mouse);
      Run(t.mouse, prev.irqs + (if t.irq then 1 else 0))
  }

  /** The mouse interrupt divides the timer by freq_reg + 1: from a restart,
      n unmasked ticks raise exactly n / (freq_reg + 1) interrupts and leave
      the counter at n mod (freq_reg + 1). */
  lemma {:induction false} DividerPeriod(m: Mouse, n: nat)
    requires WellFormed(m) && m.freqIndex == 0 && m.control & 0x10 == 0
    ensures var r := Ticks(m, n);
            r.mouse.control == m.control && r.mouse.freqReg == m.freqReg
            && r.irqs == n / (m.freqReg + 1) && r.mouse.freqIndex == n % (m.freqReg + 1)
  {
    if n > 0 {
      DividerPeriod(m, n - 1);
      DivModStep(n - 1, m.freqReg + 1);
    }
  }

  /** The divider periods are 1 to 4, so the division is by a constant. */
  lemma DivModStep(n: nat, k: nat)
    requires 1 <= k <= 4
    ensures n % k == k - 1 ==> (n + 1) / k == n / k + 1 && (n + 1) % k == 0
    ensures n % k != k - 1 ==> (n + 1) / k == n / k && (n + 1) % k == n % k + 1
  {
    if k == 1 {
    } else if k == 2 {
      assert n / k == n / 2 && (n + 1) / k == (n + 1) / 2;
    } else if k == 3 {
      assert n / k == n / 3 && (n + 1) / k == (n + 1) / 3;
    } else {
      assert n / k == n / 4 && (n + 1) / k == (n + 1) / 4;
    }
  }
}
