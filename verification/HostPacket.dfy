/** Remote bus transfers as packets of bytes: the length table of host_fifo_pkg/rtl/host_fifo_pkg.sv and the
    layouts ahb3lite_host_slave.sv and ahb3lite_host_master.sv give commands and replies. */
module HostPacket {
  /** Four byte lanes, least significant first. */
  datatype Word = Word(b0: nat, b1: nat, b2: nat, b3: nat)

  const ZERO := Word(0, 0, 0, 0)

  /** The lanes an aligned access of this size uses, low byte first; sizes 2 and 3 are words. */
  function Lanes(size: nat, addr: Word, w: Word): (s: seq<nat>)
    ensures |s| == LaneCount(size)
  {
    if size == 0 then
      (if addr.b0 % 4 == 0 then [w.b0] else if addr.b0 % 4 == 1 then [w.b1]
       else if addr.b0 % 4 == 2 then [w.b2] else [w.b3])
    else if size == 1 then (if addr.b0 / 2 % 2 == 1 then [w.b2, w.b3] else [w.b0, w.b1])
    else [w.b0, w.b1, w.b2, w.b3]
  }

  function LaneCount(size: nat): nat { if size == 0 then 1 else if size == 1 then 2 else 4 }

  /** A bus transfer: `data` is the addressed lanes, written or read. */
  datatype Transfer = Transfer(write: bool, addr: Word, size: nat, data: seq<nat>)

  predicate TransferOk(t: Transfer) { t.size <= 2 && |t.data| == LaneCount(t.size) }

  /** fifo_payload: bytes from a count code. */
  function Payload(code: nat): nat {
    if code == 0 then 0 else if code == 1 then 1 else if code == 2 then 2 else if code == 3 then 4
    else if code == 4 then 5 else if code == 5 then 6 else if code == 6 then 8 else 16
  }

  const D0: nat := 0
  const D1: nat := 1
  const D2: nat := 2
  const D4: nat := 3
  const D5: nat := 4
  const D6: nat := 5
  const D8: nat := 6
  const D16: nat := 7

  /** Each code stands for the number of bytes it is named for. */
  lemma CodesAreNamed()
    ensures seq(8, code requires 0 <= code < 8 => Payload(code)) == [0, 1, 2, 4, 5, 6, 8, 16]
    ensures Payload(D0) == 0 && Payload(D1) == 1 && Payload(D2) == 2 && Payload(D4) == 4
    ensures Payload(D5) == 5 && Payload(D6) == 6 && Payload(D8) == 8 && Payload(D16) == 16
  {
  }

  /** A command byte: interface, count code, write, autoincrement, size. */
  function Header(ibit: nat, code: nat, write: bool, size: nat): nat {
    ibit * 128 + code * 16 + (if write then 8 else 0) + size
  }

  function Code(h: nat): nat { h / 16 % 8 }
  predicate Writes(h: nat) { h / 8 % 2 == 1 }
  predicate AutoIncrement(h: nat) { h / 4 % 2 == 1 }
  function Size(h: nat): nat { h % 4 }

  lemma HeaderRoundTrip(ibit: nat, code: nat, write: bool, size: nat)
    requires ibit < 2 && code < 8 && size < 4
    ensures var h := Header(ibit, code, write, size);
      && Code(h) == code && Writes(h) == write && !AutoIncrement(h) && Size(h) == size
      && h / 128 == ibit && h / 16 % 8 == code && h / 8 % 2 == (if write then 1 else 0)
      && h / 4 % 2 == 0 && h % 4 == size
  {
    var h := Header(ibit, code, write, size);
    assert h / 16 == ibit * 8 + code;
    assert h / 8 == (ibit * 8 + code) * 2 + (if write then 1 else 0);
    assert h / 4 == ((ibit * 8 + code) * 2 + (if write then 1 else 0)) * 2;
  }

  function WriteCode(size: nat): nat { if size == 0 then D5 else if size == 1 then D6 else D8 }
  function ReadCode(size: nat): nat { if size == 0 then D1 else if size == 1 then D2 else D4 }

  function Reverse(s: seq<nat>): (r: seq<nat>)
    ensures |r| == |s|
  {
    if s == [] then [] else Reverse(s[1..]) + [s[0]]
  }

  lemma {:induction false} ReverseMore(s: seq<nat>, b: nat)
    ensures Reverse(s + [b]) == [b] + Reverse(s)
  {
    if s == [] {
      assert s + [b] == [b];
    } else {
      ReverseMore(s[1..], b);
      assert (s + [b])[1..] == s[1..] + [b];
    }
  }

  /** The command for a transfer: header, address and, for a write, its data, most significant byte first. */
  function Packet(ibit: nat, t: Transfer): (p: seq<nat>)
    requires |t.data| == LaneCount(t.size)
    ensures |p| == 5 + if t.write then LaneCount(t.size) else 0
  {
    [Header(ibit, if t.write then WriteCode(t.size) else D4, t.write, t.size), t.addr.b3, t.addr.b2, t.addr.b1,
     t.addr.b0]
    + (if t.write then Reverse(t.data) else [])
  }

  /** The reply: a status byte and, for a read, its data, most significant byte first. */
  function Reply(ibit: nat, t: Transfer): (p: seq<nat>)
    requires |t.data| == LaneCount(t.size)
    ensures |p| == ReplyLength(t.write, t.size)
  {
    [ibit * 128 + (if t.write then D0 else ReadCode(t.size)) * 16] + (if t.write then [] else Reverse(t.data))
  }

  function ReplyLength(write: bool, size: nat): nat { if write then 1 else 1 + LaneCount(size) }

  /** What a shift register holds once a whole packet is in: the data's lanes low byte first, then the address
      low byte first. */
  lemma PacketReversed(ibit: nat, t: Transfer)
    requires |t.data| == LaneCount(t.size)
    ensures Reverse(Packet(ibit, t)[1..]) == (if t.write then t.data else [])
            + [t.addr.b0, t.addr.b1, t.addr.b2, t.addr.b3]
  {
    var a := [t.addr.b3, t.addr.b2, t.addr.b1, t.addr.b0];
    var d := if t.write then Reverse(t.data) else [];
    assert Packet(ibit, t)[1..] == a + d;
    ReverseConcat(a, d);
    ReverseTwice(t.data);
    ReverseFour(t.addr.b3, t.addr.b2, t.addr.b1, t.addr.b0);
  }

  lemma ReplyReversed(ibit: nat, t: Transfer)
    requires |t.data| == LaneCount(t.size)
    ensures Reverse(Reply(ibit, t)) == (if t.write then [] else t.data) + [Reply(ibit, t)[0]]
  {
    var d := if t.write then [] else Reverse(t.data);
    assert Reply(ibit, t) == [Reply(ibit, t)[0]] + d;
    ReverseConcat([Reply(ibit, t)[0]], d);
    ReverseTwice(t.data);
  }

  lemma ReverseFour(a: nat, b: nat, c: nat, d: nat)
    ensures Reverse([a, b, c, d]) == [d, c, b, a]
  {
    assert [a, b, c, d][1..] == [b, c, d] && [b, c, d][1..] == [c, d] && [c, d][1..] == [d];
    assert Reverse([d]) == [d];
    assert Reverse([c, d]) == [d, c];
    assert Reverse([b, c, d]) == [d, c, b];
  }

  lemma ReverseTwo(a: nat, b: nat)
    ensures Reverse([a]) == [a] && Reverse([a, b]) == [b, a]
  {
    assert [a, b][1..] == [b];
  }

  /** The addressed lanes, most significant byte first. */
  lemma LanesReversed(size: nat, addr: Word, d: Word)
    ensures Reverse(Lanes(size, addr, d)) ==
      if size == 0 then Lanes(0, addr, d)
      else if size == 1 then (if addr.b0 / 2 % 2 == 1 then [d.b3, d.b2] else [d.b1, d.b0])
      else [d.b3, d.b2, d.b1, d.b0]
  {
    if size == 0 { ReverseTwo(Lanes(0, addr, d)[0], 0); }
    ReverseTwo(d.b0, d.b1);
    ReverseTwo(d.b2, d.b3);
    ReverseFour(d.b0, d.b1, d.b2, d.b3);
  }

  lemma {:induction false} ReverseConcat(s: seq<nat>, t: seq<nat>)
    ensures Reverse(s + t) == Reverse(t) + Reverse(s)
  {
    if s == [] {
      assert s + t == t;
    } else {
      ReverseConcat(s[1..], t);
      assert (s + t)[1..] == s[1..] + t;
    }
  }

  lemma {:induction false} ReverseTwice(s: seq<nat>)
    ensures Reverse(Reverse(s)) == s
  {
    if s != [] {
      ReverseTwice(s[1..]);
      ReverseMore(Reverse(s[1..]), s[0]);
    }
  }

  /** The format by example: a word written, a halfword read and its reply, on interfaces 1 and 0. */
  lemma Examples()
    ensures Packet(1, Transfer(true, Word(0x04, 0, 0, 0x40), 2, [0x44, 0x33, 0x22, 0x11])) ==
            [0xEA, 0x40, 0x00, 0x00, 0x04, 0x11, 0x22, 0x33, 0x44]
    ensures Packet(0, Transfer(false, Word(0x06, 0, 0, 0x20), 1, [0xCD, 0xAB])) == [0x31, 0x20, 0x00, 0x00, 0x06]
    ensures Reply(0, Transfer(false, Word(0x06, 0, 0, 0x20), 1, [0xCD, 0xAB])) == [0x20, 0xAB, 0xCD]
  {
    ReverseFour(0x44, 0x33, 0x22, 0x11);
    ReverseTwo(0xCD, 0xAB);
  }
}
