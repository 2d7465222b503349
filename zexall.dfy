/** The zexall test driver's output link: three RAM cells at the top of the
    Z80 address space through which the test program hands bytes to a
    terminal. The program stores a byte in `data` (0xFFFF), writes a new value
    to `req` (0xFFFE) and polls `ack` (0xFFFD); a poll that finds `req`
    changed sends the byte to the terminal and increments `ack`. */
module Zexall {
  import opened Bits

  /** The four latches of the link: m_out_data, m_out_req, m_out_req_last
      and m_out_ack, all unsigned bytes. */
  datatype Link = Link(data: Byte, req: Byte, reqLast: Byte, ack: Byte)

  /** What a handler leaves behind: the new latches, the byte returned to the
      CPU (0 for writes) and the bytes handed to the terminal. */
  datatype Reply = Reply(link: Link, value: Byte, sent: seq<Byte>)

  /** machine_reset zero-fills the latches. */
  const ResetLink: Link := Link(0, 0, 0, 0)

  /** A request is outstanding when `req` moved since the last delivery. */
  predicate Pending(l: Link) { l.req != l.reqLast }

  /** output_ack_r: a poll of 0xFFFD delivers the pending byte, if any, and
      returns the acknowledge counter. */
  function AckRead(l: Link): (r: Reply)
    ensures r.sent == (if Pending(l) then [l.data] else [])
    ensures r.value == r.link.ack
    ensures r.link.ack == if Pending(l) then Inc8(l.ack) else l.ack
    ensures !Pending(r.link)
    ensures r.link.data == l.data && r.link.req == l.req
  {
    if l.req != l.reqLast then
      Reply(l.(reqLast := l.req, ack := Inc8(l.ack)), Inc8(l.ack), [l.data])
    else
      Reply(l, l.ack, [])
  }

  /** output_ack_w: the CPU may overwrite the counter. */
  function AckWrite(l: Link, v: Byte): (r: Link)
    ensures r.ack == v && r.data == l.data && r.req == l.req && r.reqLast == l.reqLast
  {
    l.(ack := v)
  }

  /** output_req_r: the value read differs from the last delivered request
      exactly when a byte is pending. */
  function ReqRead(l: Link): (v: Byte)
    ensures Pending(l) <==> v != l.reqLast
  {
    l.req
  }

  /** output_req_w: the previous request value is remembered, so the next
      poll sees a request exactly when the new value differs from it. */
  function ReqWrite(l: Link, v: Byte): (r: Link)
    ensures r.req == v && r.reqLast == l.req
    ensures Pending(r) <==> v != l.req
    ensures r.data == l.data && r.ack == l.ack
  {
    l.(reqLast := l.req, req := v)
  }

  /** output_data_r: while a byte is pending, the data cell reads the byte
      the next poll delivers. */
  function DataRead(l: Link): (v: Byte)
    ensures Pending(l) ==> AckRead(l).sent == [v]
  {
    l.data
  }

  /** output_data_w. */
  function DataWrite(l: Link, v: Byte): (r: Link)
    ensures r.data == v && r.req == l.req && r.reqLast == l.reqLast && r.ack == l.ack
  {
    l.(data := v)
  }

  /** A second poll without a new request changes nothing and sends nothing:
      nothing is ever delivered twice. */
  lemma AckReadSettles(l: Link)
    ensures AckRead(AckRead(l).link) == Reply(AckRead(l).link, AckRead(l).link.ack, [])
  {
  }

  /** Reading back what was written, for each of the three cells. */
  lemma LatchRoundTrips(l: Link, v: Byte)
    ensures ReqRead(ReqWrite(l, v)) == v
    ensures DataRead(DataWrite(l, v)) == v
    ensures AckRead(AckWrite(l, v)).value == v || Pending(l)
  {
  }

  /** After reset nothing is pending and every latch reads 0. */
  lemma ResetQuiet()
    ensures !Pending(ResetLink)
    ensures AckRead(ResetLink) == Reply(ResetLink, 0, [])
    ensures ReqRead(ResetLink) == 0 && DataRead(ResetLink) == 0
  {
  }

  /** The handshake the test program performs for one byte: store it at
      0xFFFF, write an incremented request to 0xFFFE, poll 0xFFFD. */
  function SendByte(l: Link, b: Byte): Reply
  {
    AckRead(ReqWrite(DataWrite(l, b), Inc8(l.req)))
  }

  /** One handshake delivers exactly that byte, once, and the poll sees the
      acknowledge counter incremented, whatever state the link was in. */
  lemma SendByteDelivers(l: Link, b: Byte)
    ensures SendByte(l, b).sent == [b]
    ensures SendByte(l, b).value == Inc8(l.ack)
    ensures !Pending(SendByte(l, b).link)
  {
  }

  /** A whole message sent byte by byte. */
  function Transmit(l: Link, bs: seq<Byte>): Reply
    decreases |bs|
  {
    if bs == [] then Reply(l, l.ack, [])
    else
      var first := SendByte(l, bs[0]);
      var rest := Transmit(first.link, bs[1..]);
      Reply(rest.link, rest.value, first.sent + rest.sent)
  }

  /** The terminal receives the message exactly, in order, and the
      acknowledge counter advances by its length modulo 256. */
  lemma {:induction false} TransmitExact(l: Link, bs: seq<Byte>)
    ensures Transmit(l, bs).sent == bs
    ensures Transmit(l, bs).link.ack == (l.ack + |bs|) % 256
    decreases |bs|
  {
    if bs != [] {
      SendByteDelivers(l, bs[0]);
      TransmitExact(SendByte(l, bs[0]).link, bs[1..]);
      assert [bs[0]] + bs[1..] == bs;
    }
  }

  /** The driver state: 64 KiB of RAM and the link latches, with the handlers
      mapped over the top three RAM cells. */
  class ZexallState {
    const mainRam: array<Byte>
    var outData: Byte
    var outReq: Byte
    var outReqLast: Byte
    var outAck: Byte

    ghost predicate Valid() reads this { mainRam.Length == 0x10000 }

    function Latches(): Link reads this { Link(outData, outReq, outReqLast, outAck) }

    constructor ()
      ensures Valid() && fresh(mainRam) && Latches() == ResetLink
    {
      mainRam := new Byte[0x10000];
      outData, outReq, outReqLast, outAck := 0, 0, 0, 0;
    }

    /** machine_reset: zero the latches and copy the program image into RAM
        (the program modifies itself, so every reset reloads it). */
    method MachineReset(program: seq<Byte>)
      requires Valid() && |program| == 0x10000
      modifies this, mainRam
      ensures Valid() && Latches() == ResetLink && mainRam[..] == program
    {
      outAck, outReq, outReqLast, outData := 0, 0, 0, 0;
      forall i | 0 <= i < 0x10000 {
        mainRam[i] := program[i];
      }
    }

    /** output_ack_r. */
    method OutputAckRead() returns (v: Byte, sent: seq<Byte>)
      modifies this
      ensures Reply(Latches(), v, sent) == AckRead(old(Latches()))
    {
      sent := [];
      if outReq != outReqLast {
        sent := [outData];
        outReqLast := outReq;
        outAck := Inc8(outAck);
      }
      v := outAck;
    }

    /** output_req_w. */
    method OutputReqWrite(v: Byte)
      modifies this
      ensures Latches() == ReqWrite(old(Latches()), v)
    {
      outReqLast := outReq;
      outReq := v;
    }

    /** A CPU read of program space: the three handlers serve 0xFFFD-0xFFFF,
        RAM the rest. */
    method MemRead(addr: nat) returns (v: Byte, sent: seq<Byte>)
      requires Valid() && addr < 0x10000
      modifies this
      ensures addr == 0xfffd ==> Reply(Latches(), v, sent) == AckRead(old(Latches()))
      ensures addr == 0xfffe ==> v == ReqRead(old(Latches())) && sent == [] && Latches() == old(Latches())
      ensures addr == 0xffff ==> v == DataRead(old(Latches())) && sent == [] && Latches() == old(Latches())
      ensures addr < 0xfffd ==> v == mainRam[addr] && sent == [] && Latches() == old(Latches())
    {
      sent := [];
      if addr == 0xfffd {
        v, sent := OutputAckRead();
      } else if addr == 0xfffe {
        v := outReq;
      } else if addr == 0xffff {
        v := outData;
      } else {
        v := mainRam[addr];
      }
    }

    /** A CPU write of program space. */
    method MemWrite(addr: nat, v: Byte)
      requires Valid() && addr < 0x10000
      modifies this, mainRam
      ensures addr == 0xfffd ==> Latches() == AckWrite(old(Latches()), v) && mainRam[..] == old(mainRam[..])
      ensures addr == 0xfffe ==> Latches() == ReqWrite(old(Latches()), v) && mainRam[..] == old(mainRam[..])
      ensures addr == 0xffff ==> Latches() == DataWrite(old(Latches()), v) && mainRam[..] == old(mainRam[..])
      ensures addr < 0xfffd ==> Latches() == old(Latches()) && mainRam[..] == old(mainRam[..])[addr := v]
    {
      if addr == 0xfffd {
        outAck := v;
      } else if addr == 0xfffe {
        OutputReqWrite(v);
      } else if addr == 0xffff {
        outData := v;
      } else {
        mainRam[addr] := v;
      }
    }
  }
}
