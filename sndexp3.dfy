/** The Acorn Electron "Sound Expansion v3" cartridge: an 8 KiB ROM and an
    8 KiB RAM in the cartridge ROM window, and an SN76489 sound chip reached
    through a data latch (FC98) and an enable bit (FC99) in page FC. */
module SoundExpansion {
  import opened Bits

  const WindowSize := 0x2000

  /** The cartridge's state: ROM image, RAM, m_sound_latch, m_sound_enable. */
  datatype Cart = Cart(rom: seq<Byte>, ram: seq<Byte>, latch: Byte, enable: Byte)

  predicate WellFormed(c: Cart) { |c.rom| == WindowSize && |c.ram| == WindowSize }

  /** The constructor clears the latch and the enable bit. */
  function Initial(rom: seq<Byte>, ram: seq<Byte>): (c: Cart)
    requires |rom| == WindowSize && |ram| == WindowSize
    ensures WellFormed(c) && c.latch == 0 && c.enable == 0
  {
    Cart(rom, ram, 0, 0)
  }

  /** The cartridge ROM window is selected: not page FC, not page FD, and
      the ROM Q/A select line high. */
  predicate RomWindow(infc: bool, infd: bool, romqa: bool) { !infc && !infd && romqa }

  /** read: 0xFF outside the ROM window; inside it the low 8 KiB is ROM and
      everything above is RAM, both indexed by the low 13 address bits. */
  function Read(c: Cart, offset: nat, infc: bool, infd: bool, romqa: bool): (v: Byte)
    requires WellFormed(c)
    ensures !RomWindow(infc, infd, romqa) ==> v == 0xff
    ensures RomWindow(infc, infd, romqa) && offset < WindowSize ==> v == c.rom[offset]
    ensures RomWindow(infc, infd, romqa) && offset >= WindowSize ==> v == c.ram[offset % WindowSize]
  {
    if RomWindow(infc, infd, romqa) then
      if offset < WindowSize then c.rom[offset % WindowSize] else c.ram[offset % WindowSize]
    else 0xff
  }

  /** Result of a write: the new state and the bytes given to the sound chip. */
  datatype WriteResult = WriteResult(cart: Cart, sound: seq<Byte>)

  /** write: in page FC, offset low byte 0x98 loads the latch and 0x99 sets the
      enable bit, sending the latch to the chip on a 0-to-1 edge of bit 0; in
      the ROM window, writes above the ROM half go to RAM. */
  function Write(c: Cart, offset: nat, data: Byte, infc: bool, infd: bool, romqa: bool): (r: WriteResult)
    requires WellFormed(c)
    ensures WellFormed(r.cart) && r.cart.rom == c.rom
    ensures r.sound == (if infc && offset % 256 == 0x99 && data % 2 == 1 && c.enable == 0 then [c.latch] else [])
    ensures r.cart.latch == (if infc && offset % 256 == 0x98 then data else c.latch)
    ensures r.cart.enable == (if infc && offset % 256 == 0x99 then data % 2 else c.enable)
    ensures r.cart.ram == (if RomWindow(infc, infd, romqa) && offset >= WindowSize
                           then c.ram[offset % WindowSize := data] else c.ram)
  {
    var (c1, sound) :=
      if infc && offset % 256 == 0x98 then (c.(latch := data), [])
      else if infc && offset % 256 == 0x99 then
        (c.(enable := data % 2), if data % 2 == 1 && c.enable == 0 then [c.latch] else [])
      else (c, []);
    if RomWindow(infc, infd, romqa) && offset >= WindowSize then
      WriteResult(c1.(ram := c1.ram[offset % WindowSize := data]), sound)
    else WriteResult(c1, sound)
  }

  /** A byte written to cartridge RAM reads back, at its own address and at
      every alias of it in the upper part of the window. */
  lemma RamRoundTrip(c: Cart, offset: nat, alias: nat, data: Byte)
    requires WellFormed(c) && offset >= WindowSize && alias >= WindowSize
    requires alias % WindowSize == offset % WindowSize
    ensures Read(Write(c, offset, data, false, false, true).cart, alias, false, false, true) == data
  {
  }

  /** No write changes what the ROM half of the window returns. */
  lemma RomReadOnly(c: Cart, offset: nat, data: Byte, infc: bool, infd: bool, romqa: bool, at: nat)
    requires WellFormed(c) && at < WindowSize
    ensures Read(Write(c, offset, data, infc, infd, romqa).cart, at, false, false, true)
         == Read(c, at, false, false, true)
  {
  }

  /** Writes outside page FC never reach the sound chip. */
  lemma SoundOnlyFromPageFC(c: Cart, offset: nat, data: Byte, infd: bool, romqa: bool)
    requires WellFormed(c)
    ensures Write(c, offset, data, false, infd, romqa).sound == []
  {
  }

  /** The latch/enable protocol: load the latch, drop the enable bit, raise
      it: the chip receives the latched byte exactly once, and raising the
      enable bit again while it is already high sends nothing. */
  lemma LatchThenEnable(c: Cart, page: nat, b: Byte)
    requires WellFormed(c)
    ensures var c1 := Write(c, page * 256 + 0x98, b, true, false, false).cart;
            var c2 := Write(c1, page * 256 + 0x99, 0, true, false, false).cart;
            var r3 := Write(c2, page * 256 + 0x99, 1, true, false, false);
            r3.sound == [b] && Write(r3.cart, page * 256 + 0x99, 1, true, false, false).sound == []
  {
    assert (page * 256 + 0x98) % 256 == 0x98;
    assert (page * 256 + 0x99) % 256 == 0x99;
  }

  /** The cartridge as a device object: the RAM is a buffer updated in place,
      the ROM is never written. */
  class Sndexp3 {
    const rom: seq<Byte>
    const ram: array<Byte>
    var soundLatch: Byte
    var soundEnable: Byte

    ghost predicate Valid() reads this { |rom| == WindowSize && ram.Length == WindowSize }

    function State(): (c: Cart) reads this, ram
      ensures Valid() ==> WellFormed(c)
    {
      Cart(rom, ram[..], soundLatch, soundEnable)
    }

    constructor (romImage: seq<Byte>)
      requires |romImage| == WindowSize
      ensures Valid() && fresh(ram) && soundLatch == 0 && soundEnable == 0 && rom == romImage
    {
      rom := romImage;
      ram := new Byte[WindowSize];
      soundLatch, soundEnable := 0, 0;
    }

    method ReadByte(offset: nat, infc: bool, infd: bool, romqa: bool) returns (v: Byte)
      requires Valid()
      ensures v == Read(State(), offset, infc, infd, romqa)
    {
      v := 0xff;
      if !infc && !infd && romqa {
        if offset < WindowSize {
          v := rom[offset % WindowSize];
        } else {
          v := ram[offset % WindowSize];
        }
      }
    }

    method WriteByte(offset: nat, data: Byte, infc: bool, infd: bool, romqa: bool) returns (sound: seq<Byte>)
      requires Valid()
      modifies this, ram
      ensures Valid()
      ensures WriteResult(State(), sound) == Write(old(State()), offset, data, infc, infd, romqa)
    {
      sound := [];
      if infc {
        if offset % 256 == 0x98 {
          soundLatch := data;
        } else if offset % 256 == 0x99 {
          if data % 2 == 1 && soundEnable == 0 {
            sound := [soundLatch];
          }
          soundEnable := data % 2;
        }
      }
      if !infc && !infd && romqa && offset >= WindowSize {
        ram[offset % WindowSize] := data;
      }
    }
  }
}
