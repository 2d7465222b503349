/** The Monkey King 3B SoC skeleton: register stubs in the 0x04, 0x07 and
    0x10 I/O blocks, the 0x06 framebuffer alias of SDRAM, a 240 kHz system
    timer, a debug UART that collects text lines, and the RS-70 ROM fix-up. */
module MonkeyKing {
  import opened Bits

  const Ioregs7Words: nat := 16384         // m_ioregs7, the 0x07 block (64 KiB)
  const SdramWords: nat := 0x40_0000       // 16 MiB of SDRAM at 0x18000000
  const FramebufferWord: nat := 0x20_0000  // 0x00800000 / 4: where the 0x06 block starts in SDRAM
  const IoBlockWords: nat := 0x4000        // the 0x04 and 0x10 blocks span 64 KiB
  const HackWord: nat := 0x3c_0ebc         // SDRAM byte address 0xF03AF0, forced to read 0

  /** io4_r: fixed status words; offset 1 shows vblank in bits 27 and 0. */
  function Io4Read(offset: nat, vblank: bool): (v: bv32)
    ensures offset == 0x00 ==> v == 0x55
    ensures offset == 0x01 ==> v == (if vblank then 0x0800_0001 else 0)
    ensures offset == 0x80 ==> v == 0x4444_4444
    ensures offset == 0x82 ==> v == 0x0400_0000
    ensures offset !in {0x00, 0x01, 0x80, 0x82} ==> v == 0
  {
    if offset == 0x00 then 0x55
    else if offset == 0x01 then ((if vblank then 1 else 0) << 27) | (if vblank then 1 else 0)
    else if offset == 0x80 then 0x4444_4444
    else if offset == 0x82 then 0x0400_0000
    else 0
  }

  /** io10_r: offset 8 always reads all ones; 0x148/0x149 read all ones
      outside vblank and 0 during it; anything else reads 0. */
  function Io10Read(offset: nat, vblank: bool): (v: bv32)
    ensures offset == 0x008 ==> v == 0xffff_ffff
    ensures (offset == 0x148 || offset == 0x149) ==> v == (if vblank then 0 else 0xffff_ffff)
    ensures offset !in {0x008, 0x148, 0x149} ==> v == 0
  {
    if offset == 0x008 then 0xffff_ffff
    else if offset == 0x148 || offset == 0x149 then (if vblank then 0 else 0xffff_ffff)
    else 0
  }

  /** The video-size register as io7_r shows it: the width (upper half)
      unchanged, the height field (bits 14-0) doubled. */
  function VideoSize(r: bv32): bv32 {
    (r & 0xffff_0000) | ((r & 0x0000_7fff) << 1)
  }

  /** The width passes through and the height is doubled. */
  lemma VideoSizeFields(r: bv32)
    ensures VideoSize(r) >> 16 == r >> 16
    ensures VideoSize(r) & 0xffff == (r & 0x7fff) << 1
  {
  }

  /** io7_r over the register file: 0x21 is the video size, 0x12 the vblank
      flag, 0x00, 0x01 and 0x1E the IN0 port; other offsets read back the
      stored word. */
  function Io7Read(regs: seq<bv32>, offset: nat, vblank: bool, in0: bv32): (v: bv32)
    requires offset < |regs|
    ensures offset == 0x21 ==> v == VideoSize(regs[offset])
    ensures offset == 0x12 ==> v == (if vblank then 0xff else 0)
    ensures offset in {0x00, 0x01, 0x1e} ==> v == in0
    ensures offset !in {0x00, 0x01, 0x12, 0x1e, 0x21} ==> v == regs[offset]
  {
    if offset == 0x21 then VideoSize(regs[offset])
    else if offset == 0x12 then (if vblank then 0xff else 0)
    else if offset == 0x1e || offset == 0x00 || offset == 0x01 then in0
    else regs[offset]
  }

  /** sdram_r: SDRAM reads back as stored, except the one word at byte
      address 0xF03AF0, which always reads 0. */
  function SdramRead(sdram: seq<bv32>, offset: nat): (v: bv32)
    requires offset < |sdram|
    ensures offset * 4 == 0xf0_3af0 ==> v == 0
    ensures offset * 4 != 0xf0_3af0 ==> v == sdram[offset]
  {
    if offset * 4 == 0xf0_3af0 then 0 else sdram[offset]
  }

  // -- timer -----------------------------------------------------------------

  datatype Timer = Timer(time: bv32, enabled: bool)

  /** Requests to the scheduler and the CPU. */
  datatype Effect =
    | TimerArm(ticks: bv32)   // adjust(from_ticks(ticks, 240000))
    | TimerStop               // adjust(never)
    | IrqClear                // ARM7 IRQ line cleared

  datatype TimerResult = TimerResult(timer: Timer, effects: seq<Effect>)

  /** io4_w: at 0x41 the low half-word of the data sets the period when the
      mask covers it, and bit 23 arms or stops the timer when the mask covers
      the third byte; at 0x82 bit 26 acknowledges the interrupt and re-arms an
      enabled timer; other offsets do nothing. */
  function Io4Write(t: Timer, offset: nat, data: bv32, mask: bv32): (r: TimerResult)
    ensures offset == 0x41 ==>
              r.timer.time == (if mask & 0xffff != 0 then data & 0xffff else t.time)
              && r.timer.enabled == (if mask & 0x00ff_0000 != 0 then data & 0x0080_0000 != 0 else t.enabled)
              && r.effects == (if mask & 0x00ff_0000 == 0 then []
                               else if data & 0x0080_0000 != 0 then [TimerArm(r.timer.time)]
                               else [TimerStop])
    ensures offset == 0x82 ==> (r.timer == t &&
              r.effects == (if data & 0x0400_0000 == 0 then []
                            else [IrqClear] + (if t.enabled then [TimerArm(t.time)] else [])))
    ensures offset != 0x41 && offset != 0x82 ==> r == TimerResult(t, [])
  {
    if offset == 0x41 then
      var time := if mask & 0xffff != 0 then data & 0xffff else t.time;
      if mask & 0x00ff_0000 != 0 then
        if data & 0x0080_0000 != 0 then TimerResult(Timer(time, true), [TimerArm(time)])
        else TimerResult(Timer(time, false), [TimerStop])
      else TimerResult(Timer(time, t.enabled), [])
    else if offset == 0x82 then
      if data & 0x0400_0000 != 0 then
        TimerResult(t, [IrqClear] + (if t.enabled then [TimerArm(t.time)] else []))
      else TimerResult(t, [])
    else TimerResult(t, [])
  }

  /** The period is a 16-bit quantity: whatever is written, it never exceeds
      0xFFFF once written through register 0x41. */
  lemma TimerPeriodSixteenBits(t: Timer, data: bv32, mask: bv32)
    requires mask & 0xffff != 0
    ensures Io4Write(t, 0x41, data, mask).timer.time <= 0xffff
  {
  }

  /** A period-only write (mask on the low half word) leaves the timer's run
      state alone and schedules nothing; a control-only write keeps the old
      period and arms the timer with it. */
  lemma TimerWriteLanes(t: Timer, data: bv32)
    ensures Io4Write(t, 0x41, data, 0x0000_ffff) == TimerResult(Timer(data & 0xffff, t.enabled), [])
    ensures Io4Write(t, 0x41, 0x0080_0000, 0x00ff_0000) == TimerResult(Timer(t.time, true), [TimerArm(t.time)])
  {
  }

  // -- debug UART ---------------------------------------------------------------

  const NL: bv8 := 0x0a
  const CR: bv8 := 0x0d

  datatype UartResult = UartResult(buf: seq<bv8>, lines: seq<seq<bv8>>)

  /** One character arriving at the UART: a newline emits the collected
      line and empties the buffer, a carriage return is dropped, anything
      else is appended. */
  function UartChar(buf: seq<bv8>, c: bv8): (r: UartResult)
    ensures c == NL ==> r == UartResult([], [buf])
    ensures c == CR ==> r == UartResult(buf, [])
    ensures c != NL && c != CR ==> r == UartResult(buf + [c], [])
  {
    if c == NL then UartResult([], [buf])
    else if c != CR then UartResult(buf + [c], [])
    else UartResult(buf, [])
  }

  /** io10_w at 0x148: the character is the low byte of the data. */
  function UartWrite(buf: seq<bv8>, data: bv32): (r: UartResult)
    ensures r == UartChar(buf, (data & 0xff) as bv8)
  {
    UartChar(buf, (data & 0xff) as bv8)
  }

  /** The characters that stay after removing carriage returns. */
  function DropCR(s: seq<bv8>): (r: seq<bv8>)
    ensures NL !in s ==> NL !in r
    ensures CR !in r
  {
    if s == [] then [] else (if s[0] == CR then [] else [s[0]]) + DropCR(s[1..])
  }

  /** Feeding a string of characters to the UART, one write each. */
  function Feed(buf: seq<bv8>, s: seq<bv8>): UartResult
    decreases |s|
  {
    if s == [] then UartResult(buf, [])
    else
      var first := UartChar(buf, s[0]);
      var rest := Feed(first.buf, s[1..]);
      UartResult(rest.buf, first.lines + rest.lines)
  }

  /** Text without a newline is buffered, minus its carriage returns, and
      nothing is emitted. */
  lemma {:induction false} FeedPartial(buf: seq<bv8>, s: seq<bv8>)
    requires NL !in s
    ensures Feed(buf, s) == UartResult(buf + DropCR(s), [])
    decreases |s|
  {
    if s != [] {
      TailLacks(s, NL);
      if s[0] == CR {
        assert UartChar(buf, s[0]) == UartResult(buf, []);
        FeedPartial(buf, s[1..]);
        assert DropCR(s) == DropCR(s[1..]);
      } else {
        assert UartChar(buf, s[0]) == UartResult(buf + [s[0]], []);
        FeedPartial(buf + [s[0]], s[1..]);
        assert DropCR(s) == [s[0]] + DropCR(s[1..]);
        assert (buf + [s[0]]) + DropCR(s[1..]) == buf + DropCR(s);
      }
    } else {
      assert buf + DropCR(s) == buf;
    }
  }

  lemma TailLacks(s: seq<bv8>, c: bv8)
    requires s != [] && c !in s
    ensures s[0] != c && c !in s[1..]
  {
    assert s[0] in s;
    assert s == [s[0]] + s[1..];
  }

  /** A line terminated by a newline comes out whole, buffered text first,
      and leaves the buffer empty. */
  lemma {:induction false} FeedNewline(buf: seq<bv8>, s: seq<bv8>)
    requires NL !in s
    ensures Feed(buf, s + [NL]) == UartResult([], [buf + DropCR(s)])
    decreases |s|
  {
    var t := s + [NL];
    if s == [] {
      assert t[0] == NL && t[1..] == [];
      assert UartChar(buf, t[0]) == UartResult([], [buf]);
      assert Feed([], []) == UartResult([], []);
      assert buf + DropCR(s) == buf;
    } else {
      assert s[0] in s;
      assert t[0] == s[0] && t[1..] == s[1..] + [NL];
      var first := UartChar(buf, s[0]);
      var kept := if s[0] == CR then [] else [s[0]];
      assert first == UartResult(buf + kept, []);
      TailLacks(s, NL);
      FeedNewline(first.buf, s[1..]);
      assert DropCR(s) == kept + DropCR(s[1..]);
      assert buf + kept + DropCR(s[1..]) == buf + DropCR(s);
    }
  }

  // -- ROM fix-up -----------------------------------------------------------------

  /** init_rs70's image: the two halves of the flash exchanged (a trailing
      odd byte, if any, stays put). */
  function SwapHalves(s: seq<bv8>): (r: seq<bv8>)
    ensures |r| == |s|
    ensures forall k :: 0 <= k < |s| / 2 ==> r[k] == s[k + |s| / 2] && r[k + |s| / 2] == s[k]
    ensures forall k :: 2 * (|s| / 2) <= k < |s| ==> r[k] == s[k]
  {
    var h := |s| / 2;
    s[h..2 * h] + s[..h] + s[2 * h..]
  }

  /** Applying the fix-up twice restores the original image. */
  lemma SwapHalvesInvolution(s: seq<bv8>)
    ensures SwapHalves(SwapHalves(s)) == s
  {
    var r := SwapHalves(SwapHalves(s));
    var h := |s| / 2;
    forall k | 0 <= k < |s| ensures r[k] == s[k] {
      if k < h { assert r[k] == SwapHalves(s)[k + h]; }
      else if k < 2 * h { assert r[(k - h) + h] == SwapHalves(s)[k - h]; }
    }
  }

  /** init_rs70 on the flash buffer, in place. */
  method InitRs70(rom: array<bv8>)
    modifies rom
    ensures rom[..] == SwapHalves(old(rom[..]))
  {
    ghost var orig := rom[..];
    var h := rom.Length / 2;
    var i := 0;
    while i < h
      invariant 0 <= i <= h
      invariant forall k :: 0 <= k < i ==> rom[k] == orig[k + h]
      invariant forall k :: h <= k < h + i ==> rom[k] == orig[k - h]
      invariant forall k :: i <= k < h ==> rom[k] == orig[k]
      invariant forall k :: h + i <= k < rom.Length ==> rom[k] == orig[k]
    {
      rom[i], rom[i + h] := rom[i + h], rom[i];
      i := i + 1;
    }
    assert forall k :: 0 <= k < rom.Length ==> rom[..][k] == SwapHalves(orig)[k] by {
      forall k | 0 <= k < rom.Length ensures rom[..][k] == SwapHalves(orig)[k] {
        if h <= k < 2 * h { assert SwapHalves(orig)[(k - h) + h] == orig[k - h]; }
      }
    }
  }

  // -- the SoC state ------------------------------------------------------------------

  class Mk3bSoc {
    const ioregs7: array<bv32>
    const sdram: array<bv32>
    const iram0: array<bv32>
    var timerTime: bv32
    var timerEnabled: bool
    var debugBuf: seq<bv8>

    ghost predicate Valid() reads this {
      ioregs7.Length == Ioregs7Words && sdram.Length == SdramWords && iram0.Length == IoBlockWords
      && ioregs7 != sdram && ioregs7 != iram0 && sdram != iram0
    }

    function TimerState(): Timer reads this { Timer(timerTime, timerEnabled) }

    constructor ()
      ensures Valid() && fresh(ioregs7) && fresh(sdram) && fresh(iram0)
      ensures timerTime == 0 && !timerEnabled && debugBuf == []
    {
      ioregs7 := new bv32[Ioregs7Words];
      sdram := new bv32[SdramWords];
      iram0 := new bv32[IoBlockWords];
      timerTime, timerEnabled, debugBuf := 0, false, [];
    }

    /** machine_reset: a three-word boot stub at the start of internal RAM
        (load the word after the branch into r0, branch to it: 0x08000000,
        the start of the NOR flash) and a stopped timer. */
    method MachineReset()
      requires Valid()
      modifies iram0, this`timerTime, this`timerEnabled
      ensures iram0[0] == 0xe59f_0000 && iram0[1] == 0xe12f_ff10 && iram0[2] == 0x0800_0000
      ensures forall k :: 3 <= k < iram0.Length ==> iram0[k] == old(iram0[k])
      ensures TimerState() == Timer(0, false)
    {
      iram0[0] := 0xe59f_0000;
      iram0[1] := 0xe12f_ff10;
      iram0[2] := 0x0800_0000;
      timerTime := 0;
      timerEnabled := false;
    }

    method Io4W(offset: nat, data: bv32, mask: bv32) returns (effects: seq<Effect>)
      modifies this`timerTime, this`timerEnabled
      ensures TimerResult(TimerState(), effects) == Io4Write(old(TimerState()), offset, data, mask)
    {
      effects := [];
      if offset == 0x41 {
        if mask & 0xffff != 0 {
          timerTime := data & 0xffff;
        }
        if mask & 0x00ff_0000 != 0 {
          if data & 0x0080_0000 != 0 {
            effects := [TimerArm(timerTime)];
            timerEnabled := true;
          } else {
            effects := [TimerStop];
            timerEnabled := false;
          }
        }
      } else if offset == 0x82 {
        if data & 0x0400_0000 != 0 {
          effects := [IrqClear];
          if timerEnabled {
            effects := effects + [TimerArm(timerTime)];
          }
        }
      }
    }

    /** io6_r: the 0x06 block reads the framebuffer half of SDRAM. */
    method Io6R(offset: nat) returns (v: bv32)
      requires Valid() && offset < FramebufferWord
      ensures v == sdram[offset + FramebufferWord]
    {
      v := sdram[offset + FramebufferWord];
    }

    /** io6_w: masked write into the framebuffer half of SDRAM. */
    method Io6W(offset: nat, data: bv32, mask: bv32)
      requires Valid() && offset < FramebufferWord
      modifies sdram
      ensures sdram[..] == old(sdram[..])[offset + FramebufferWord :=
                           Combine32(old(sdram[offset + FramebufferWord]), data, mask)]
    {
      sdram[offset + FramebufferWord] := (sdram[offset + FramebufferWord] & !mask) | (data & mask);
    }

    method Io7R(offset: nat, vblank: bool, in0: bv32) returns (v: bv32)
      requires Valid() && offset < Ioregs7Words
      ensures v == Io7Read(ioregs7[..], offset, vblank, in0)
    {
      if offset == 0x21 {
        v := (ioregs7[offset] & 0xffff_0000) | ((ioregs7[offset] & 0x0000_7fff) << 1);
      } else if offset == 0x12 {
        v := if vblank then 0xff else 0;
      } else if offset == 0x1e || offset == 0x00 || offset == 0x01 {
        v := in0;
      } else {
        v := ioregs7[offset];
      }
    }

    /** io7_w: masked write into the register file. */
    method Io7W(offset: nat, data: bv32, mask: bv32)
      requires Valid() && offset < Ioregs7Words
      modifies ioregs7
      ensures ioregs7[..] == old(ioregs7[..])[offset := Combine32(old(ioregs7[offset]), data, mask)]
    {
      ioregs7[offset] := (ioregs7[offset] & !mask) | (data & mask);
    }

    /** sdram_r, the read handler over the whole SDRAM range. */
    method SdramR(offset: nat) returns (v: bv32)
      requires Valid() && offset < SdramWords
      ensures v == SdramRead(sdram[..], offset)
    {
      if offset * 4 == 0xf0_3af0 {
        return 0;
      }
      v := sdram[offset];
    }

    /** io10_w: only the debug UART at 0x148 does anything. */
    method Io10W(offset: nat, data: bv32) returns (lines: seq<seq<bv8>>)
      modifies this`debugBuf
      ensures offset == 0x148 ==> UartResult(debugBuf, lines) == UartWrite(old(debugBuf), data)
      ensures offset != 0x148 ==> debugBuf == old(debugBuf) && lines == []
    {
      lines := [];
      if offset == 0x148 {
        var c := (data & 0xff) as bv8;
        if c == NL {
          lines := [debugBuf];
          debugBuf := [];
        } else if c != CR {
          debugBuf := debugBuf + [c];
        }
      }
    }
  }

  /** A masked write to the register file followed by a read of the same
      ordinary register returns exactly the merged word, and the write leaves
      every other register alone. */
  lemma Io7WriteThenRead(regs: seq<bv32>, offset: nat, data: bv32, mask: bv32, other: nat, vblank: bool, in0: bv32)
    requires offset < |regs| && other < |regs| && other != offset
    requires offset !in {0x00, 0x01, 0x12, 0x1e, 0x21}
    ensures var after := regs[offset := Combine32(regs[offset], data, mask)];
            Io7Read(after, offset, vblank, in0) & mask == data & mask
            && Io7Read(after, offset, vblank, in0) & !mask == regs[offset] & !mask
            && Io7Read(after, other, vblank, in0) == Io7Read(regs, other, vblank, in0)
  {
  }

  /** A masked write through the 0x06 block is seen by a read through the
      0x06 block and, away from the forced-zero word, by the SDRAM handler. */
  lemma Io6WriteThenRead(sdram: seq<bv32>, offset: nat, data: bv32, mask: bv32)
    requires |sdram| == SdramWords && offset < FramebufferWord
    ensures var w := offset + FramebufferWord;
            var after := sdram[w := Combine32(sdram[w], data, mask)];
            after[w] & mask == data & mask && after[w] & !mask == sdram[w] & !mask
            && (w != HackWord ==> SdramRead(after, w) == after[w])
            && (forall k :: 0 <= k < |sdram| && k != w ==> after[k] == sdram[k])
  {
  }

  /** The 0x06 block and the SDRAM handler see the same words, except the
      one SDRAM word whose read is forced to 0. */
  lemma FramebufferAlias(sdram: seq<bv32>, offset: nat)
    requires |sdram| == SdramWords && offset < FramebufferWord
    ensures offset + FramebufferWord != HackWord ==>
              SdramRead(sdram, offset + FramebufferWord) == sdram[offset + FramebufferWord]
    ensures SdramRead(sdram, HackWord) == 0
  {
  }
}
