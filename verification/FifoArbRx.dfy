/** The packet demultiplexer, fifo_arb_rx/rtl/fifo_arb_rx.sv, with its default masks. */
module FifoArbRx {
  import opened HostPacket

  /** cmd & SELMASK, and the payload a header announces. */
  predicate Selects(word: nat) { word / 128 % 2 == 1 }
  function Announced(header: nat): nat { Payload(Code(header)) }

  datatype Regs = Regs(valid: bool, dcnt: nat, psel: bool, pcmd: nat)

  /** `rddata` is the input FIFO's output register; the flags are the client FIFOs' and the input's. */
  datatype In = In(rdempty: bool, rddata: nat, full1: bool, full2: bool)

  function Cmd(r: Regs, i: In): nat { if r.dcnt == 0 && r.valid then i.rddata else r.pcmd }
  predicate Sel(r: Regs, i: In) { if r.dcnt != 0 then r.psel else Selects(Cmd(r, i)) }
  predicate Wren1(r: Regs, i: In) { r.valid && Sel(r, i) && !i.full1 }
  predicate Wren2(r: Regs, i: In) { r.valid && !Sel(r, i) && !i.full2 }
  predicate Rden(r: Regs, i: In) { !i.rdempty && !i.full1 && !i.full2 && !Wren1(r, i) && !Wren2(r, i) }

  function Step(r: Regs, i: In): Regs {
    Regs(Rden(r, i),
         if r.valid && r.dcnt != 0 then r.dcnt - 1 else if r.valid then Announced(Cmd(r, i)) else r.dcnt,
         Sel(r, i), Cmd(r, i))
  }

  /** Lines 92-133. */
  class FifoArbRx {
    var dataValid: bool
    var dcnt: nat
    var psel: bool
    var pcmd: nat

    function View(): Regs
      reads this
    {
      Regs(dataValid, dcnt, psel, pcmd)
    }

    constructor ()
      ensures View() == Regs(false, 0, false, 0)
    {
      dataValid, dcnt, psel, pcmd := false, 0, false, 0;
    }

    method Posedge(i: In) returns (rden: bool, wren1: bool, wren2: bool)
      modifies this
      ensures rden == Rden(old(View()), i) && wren1 == Wren1(old(View()), i) && wren2 == Wren2(old(View()), i)
      ensures View() == Step(old(View()), i)
    {
      var cmd := if dcnt == 0 && dataValid then i.rddata else pcmd;
      var sel := if dcnt != 0 then psel else Selects(cmd);
      wren1 := dataValid && sel && !i.full1;
      wren2 := dataValid && !sel && !i.full2;
      rden := !i.rdempty && !i.full1 && !i.full2 && !wren1 && !wren2;
      var valid, cnt := dataValid, dcnt;
      if valid && cnt == 0 { dcnt := Announced(cmd); }
      dataValid := rden;
      if valid && cnt != 0 { dcnt := cnt - 1; }
      pcmd, psel := cmd, sel;
    }
  }

  // ---------- what should come out

  /** A packet: a header and the words it announces. */
  predicate IsPacket(p: seq<nat>) { p != [] && |p| == 1 + Announced(p[0]) }

  /** The words of some packets, and of those among them for one client. */
  function Words(packets: seq<seq<nat>>): seq<nat> {
    if packets == [] then [] else packets[0] + Words(packets[1..])
  }

  function WordsFor(packets: seq<seq<nat>>, client1: bool): seq<nat>
    requires forall k :: 0 <= k < |packets| ==> IsPacket(packets[k])
  {
    if packets == [] then []
    else
      assert IsPacket(packets[0]);
      (if Selects(packets[0][0]) == client1 then packets[0] else []) + WordsFor(packets[1..], client1)
  }

  /** Where a word-by-word reader stands: words left of the packet it is in, that packet's client, and what
      each client has been given. */
  datatype Reader = Reader(left: nat, sel: bool, out1: seq<nat>, out2: seq<nat>)

  function Give(d: Reader, word: nat): Reader {
    var sel := if d.left != 0 then d.sel else Selects(word);
    Reader(if d.left != 0 then d.left - 1 else Announced(word), sel,
           if sel then d.out1 + [word] else d.out1, if sel then d.out2 else d.out2 + [word])
  }

  function Read(d: Reader, words: seq<nat>): Reader
    decreases words
  {
    if words == [] then d else Read(Give(d, words[0]), words[1..])
  }

  const NOTHING := Reader(0, false, [], [])

  lemma {:induction false} ReadMore(d: Reader, words: seq<nat>, w: nat)
    ensures Read(d, words + [w]) == Give(Read(d, words), w)
    decreases words
  {
    if words == [] {
      assert words + [w] == [w];
      assert Read(Give(d, w), []) == Give(d, w);
    } else {
      assert (words + [w])[1..] == words[1..] + [w];
      ReadMore(Give(d, words[0]), words[1..], w);
    }
  }

  lemma {:induction false} ReadConcat(d: Reader, a: seq<nat>, b: seq<nat>)
    ensures Read(d, a + b) == Read(Read(d, a), b)
    decreases a
  {
    if a == [] {
      assert a + b == b;
    } else {
      assert (a + b)[1..] == a[1..] + b;
      ReadConcat(Give(d, a[0]), a[1..], b);
    }
  }

  /** The rest of a packet goes where it began. */
  lemma {:induction false} ReadRest(d: Reader, words: seq<nat>)
    requires |words| <= d.left
    ensures var e := Read(d, words);
      && e.left == d.left - |words| && (words != [] ==> e.sel == d.sel)
      && e.out1 == d.out1 + (if d.sel then words else []) && e.out2 == d.out2 + (if d.sel then [] else words)
    decreases words
  {
    if words != [] {
      var w := words[0];
      var e := if d.sel then d.(left := d.left - 1, out1 := d.out1 + [w])
        else d.(left := d.left - 1, out2 := d.out2 + [w]);
      assert Give(d, w) == e;
      ReadRest(e, words[1..]);
      assert [w] + words[1..] == words;
      Regroup(d.out1, w, words[1..]);
      Regroup(d.out2, w, words[1..]);
    }
  }

  lemma Regroup(a: seq<nat>, w: nat, b: seq<nat>)
    ensures a + [w] + b == a + ([w] + b)
  {
  }

  lemma ReadPacket(d: Reader, p: seq<nat>)
    requires d.left == 0 && IsPacket(p)
    ensures var e := Read(d, p);
      && e.left == 0 && e.out1 == d.out1 + (if Selects(p[0]) then p else [])
      && e.out2 == d.out2 + (if Selects(p[0]) then [] else p)
  {
    ReadRest(Give(d, p[0]), p[1..]);
    assert [p[0]] + p[1..] == p;
    Regroup(d.out1, p[0], p[1..]);
    Regroup(d.out2, p[0], p[1..]);
  }

  lemma Onto(a: seq<nat>, b: seq<nat>, c: seq<nat>)
    ensures a + b + c == a + (b + c)
  {
  }

  /** Reading whole packets gives each client its packets, whole and in order. */
  lemma {:induction false} ReadPackets(d: Reader, packets: seq<seq<nat>>)
    requires d.left == 0 && forall k :: 0 <= k < |packets| ==> IsPacket(packets[k])
    ensures var e := Read(d, Words(packets));
      e.left == 0 && e.out1 == d.out1 + WordsFor(packets, true) && e.out2 == d.out2 + WordsFor(packets, false)
    decreases packets
  {
    if packets != [] {
      var p, rest := packets[0], packets[1..];
      assert IsPacket(p);
      ReadConcat(d, p, Words(rest));
      ReadPacket(d, p);
      var e := Read(d, p);
      ReadPackets(e, rest);
      Onto(d.out1, if Selects(p[0]) then p else [], WordsFor(rest, true));
      Onto(d.out2, if Selects(p[0]) then [] else p, WordsFor(rest, false));
    }
  }

  // ---------- the demultiplexer between its FIFOs

  /** The client FIFOs and, for the proofs, every word read from the input and written to each client. */
  datatype Demux = Demux(r: Regs, rddata: nat, fifo1: seq<nat>, fifo2: seq<nat>, words: seq<nat>, out1: seq<nat>,
                         out2: seq<nat>)

  /** The input offers a word or is empty; each client may take one. */
  datatype Offer = Empty | Word(word: nat)
  datatype Tick = Tick(offer: Offer, take1: bool, take2: bool)

  function Input(y: Demux, k: Tick, depth: nat): In {
    In(k.offer.Empty?, y.rddata, |y.fifo1| >= depth, |y.fifo2| >= depth)
  }

  function Fifo(q: seq<nat>, take: bool, put: seq<nat>): seq<nat> {
    (if take && q != [] then q[1..] else q) + put
  }

  function DemuxNext(y: Demux, k: Tick, depth: nat): Demux {
    var i := Input(y, k, depth);
    var put1, put2 := if Wren1(y.r, i) then [y.rddata] else [], if Wren2(y.r, i) then [y.rddata] else [];
    Demux(Step(y.r, i),
          if Rden(y.r, i) then k.offer.word else y.rddata,
          Fifo(y.fifo1, k.take1, put1), Fifo(y.fifo2, k.take2, put2),
          if Rden(y.r, i) then y.words + [k.offer.word] else y.words,
          y.out1 + put1, y.out2 + put2)
  }

  /** The words dealt with: all that were read but the one in hand. */
  function Dealt(y: Demux): seq<nat>
    requires y.r.valid ==> y.words != []
  {
    if y.r.valid then y.words[..|y.words| - 1] else y.words
  }

  predicate DemuxOk(y: Demux, depth: nat) {
    && |y.fifo1| <= depth && |y.fifo2| <= depth
    && (y.r.valid ==> |y.fifo1| < depth && |y.fifo2| < depth && y.words != [] && y.words[|y.words| - 1] == y.rddata)
    && var d := Read(NOTHING, Dealt(y));
       y.r.dcnt == d.left && y.out1 == d.out1 && y.out2 == d.out2 && (y.r.dcnt != 0 ==> y.r.psel == d.sel)
  }

  /** The word in hand, if any, is dealt with on this clock. */
  lemma DealtNext(y: Demux, k: Tick, depth: nat)
    ensures var y' := DemuxNext(y, k, depth);
      (y'.r.valid ==> y'.words != []) && Dealt(y') == y.words
  {
    if Rden(y.r, Input(y, k, depth)) { assert (y.words + [k.offer.word])[..|y.words|] == y.words; }
  }

  lemma ReadDealt(y: Demux)
    requires y.r.valid ==> y.words != [] && y.words[|y.words| - 1] == y.rddata
    ensures Read(NOTHING, y.words) ==
            if y.r.valid then Give(Read(NOTHING, Dealt(y)), y.rddata) else Read(NOTHING, Dealt(y))
  {
    if y.r.valid {
      ReadMore(NOTHING, Dealt(y), y.rddata);
      assert Dealt(y) + [y.rddata] == y.words;
    }
  }

  /** What the registers do with it is what a word-by-word reader does. */
  lemma Deals(r: Regs, i: In, d: Reader)
    requires r.dcnt == d.left && (r.dcnt != 0 ==> r.psel == d.sel) && r.valid && !i.full1 && !i.full2
    ensures var e, r' := Give(d, i.rddata), Step(r, i);
      && r'.dcnt == e.left && r'.psel == e.sel && Wren1(r, i) == e.sel && Wren2(r, i) == !e.sel
  {
  }

  lemma DemuxStep(y: Demux, k: Tick, depth: nat)
    requires DemuxOk(y, depth)
    ensures DemuxOk(DemuxNext(y, k, depth), depth)
    ensures y.r.valid ==> Wren1(y.r, Input(y, k, depth)) || Wren2(y.r, Input(y, k, depth))
  {
    DealtNext(y, k, depth);
    ReadDealt(y);
    if y.r.valid { Deals(y.r, Input(y, k, depth), Read(NOTHING, Dealt(y))); }
  }

  function Run(y: Demux, ticks: seq<Tick>, depth: nat): Demux
    decreases ticks
  {
    if ticks == [] then y else Run(DemuxNext(y, ticks[0], depth), ticks[1..], depth)
  }

  lemma {:induction false} RunOk(y: Demux, ticks: seq<Tick>, depth: nat)
    requires DemuxOk(y, depth)
    ensures DemuxOk(Run(y, ticks, depth), depth)
    decreases ticks
  {
    if ticks != [] {
      DemuxStep(y, ticks[0], depth);
      RunOk(DemuxNext(y, ticks[0], depth), ticks[1..], depth);
    }
  }

  function Start(rddata: nat): Demux { Demux(Regs(false, 0, false, 0), rddata, [], [], [], [], []) }

  /** For every input stream and every pattern of stalls: neither client FIFO overflows, and whenever the words
      dealt with are whole packets, client 1 has been given exactly those whose header matches the mask, whole
      and in order, and client 2 the rest. */
  lemma PacketsRouted(rddata: nat, ticks: seq<Tick>, depth: nat, packets: seq<seq<nat>>)
    requires forall k :: 0 <= k < |packets| ==> IsPacket(packets[k])
    ensures DemuxOk(Run(Start(rddata), ticks, depth), depth)
    ensures var y := Run(Start(rddata), ticks, depth);
      Dealt(y) == Words(packets) ==> y.out1 == WordsFor(packets, true) && y.out2 == WordsFor(packets, false)
  {
    RunOk(Start(rddata), ticks, depth);
    ReadPackets(NOTHING, packets);
  }

  /** In the middle of a packet too: every word read but the one in hand has been written once, to one client. */
  lemma NothingLost(rddata: nat, ticks: seq<Tick>, depth: nat)
    ensures DemuxOk(Run(Start(rddata), ticks, depth), depth)
    ensures var y := Run(Start(rddata), ticks, depth);
      multiset(y.out1) + multiset(y.out2) == multiset(Dealt(y)) && |y.words| <= |y.out1| + |y.out2| + 1
  {
    RunOk(Start(rddata), ticks, depth);
    var y := Run(Start(rddata), ticks, depth);
    ReadKeeps(NOTHING, Dealt(y));
  }

  lemma {:induction false} ReadKeeps(d: Reader, words: seq<nat>)
    ensures var e := Read(d, words);
      multiset(e.out1) + multiset(e.out2) == multiset(d.out1) + multiset(d.out2) + multiset(words)
    ensures |Read(d, words).out1| + |Read(d, words).out2| == |d.out1| + |d.out2| + |words|
    decreases words
  {
    if words != [] {
      ReadKeeps(Give(d, words[0]), words[1..]);
      assert [words[0]] + words[1..] == words;
    }
  }

  // ---------- the far end's replies, routed

  /** What the far end sends for a transfer, or for one that failed, is a packet for its own interface. */
  lemma ReplyIsPacket(ibit: nat, t: Transfer)
    requires ibit < 2 && |t.data| == LaneCount(t.size)
    ensures IsPacket(Reply(ibit, t)) && Selects(Reply(ibit, t)[0]) == (ibit == 1)
    ensures IsPacket([ibit * 128 + 1]) && Selects(ibit * 128 + 1) == (ibit == 1)
  {
    var code := if t.write then D0 else ReadCode(t.size);
    assert Reply(ibit, t)[0] == Header(ibit, code, false, 0);
    HeaderRoundTrip(ibit, code, false, 0);
    HeaderRoundTrip(ibit, D0, false, 1);
  }

  /** So is what the near end sends. */
  lemma CommandIsPacket(ibit: nat, t: Transfer)
    requires ibit < 2 && TransferOk(t)
    ensures IsPacket(Packet(ibit, t)) && Selects(Packet(ibit, t)[0]) == (ibit == 1)
  {
    HeaderRoundTrip(ibit, if t.write then WriteCode(t.size) else D4, t.write, t.size);
  }

  /** Transfers answered on behalf of two interfaces. */
  datatype Answered = Answered(ibit: nat, t: Transfer)

  predicate AnsweredOk(a: Answered) { a.ibit < 2 && |a.t.data| == LaneCount(a.t.size) }

  /** The bytes of the replies to the transfers of one interface, in order. */
  function RepliesTo(answers: seq<Answered>, ibit: nat): seq<nat>
    requires forall k :: 0 <= k < |answers| ==> AnsweredOk(answers[k])
  {
    if answers == [] then []
    else
      assert AnsweredOk(answers[0]);
      (if answers[0].ibit == ibit then Reply(ibit, answers[0].t) else []) + RepliesTo(answers[1..], ibit)
  }

  function Replies(answers: seq<Answered>): seq<seq<nat>>
    requires forall k :: 0 <= k < |answers| ==> AnsweredOk(answers[k])
  {
    seq(|answers|, k requires 0 <= k < |answers| =>
        assert AnsweredOk(answers[k]);
        Reply(answers[k].ibit, answers[k].t))
  }

  lemma {:induction false} RepliesSplit(answers: seq<Answered>)
    requires forall k :: 0 <= k < |answers| ==> AnsweredOk(answers[k])
    ensures forall k :: 0 <= k < |answers| ==> IsPacket(Replies(answers)[k])
    ensures WordsFor(Replies(answers), true) == RepliesTo(answers, 1)
    ensures WordsFor(Replies(answers), false) == RepliesTo(answers, 0)
  {
    forall k | 0 <= k < |answers| ensures IsPacket(Replies(answers)[k]) {
      assert AnsweredOk(answers[k]);
      ReplyIsPacket(answers[k].ibit, answers[k].t);
    }
    if answers != [] {
      assert AnsweredOk(answers[0]);
      ReplyIsPacket(answers[0].ibit, answers[0].t);
      RepliesSplit(answers[1..]);
      assert Replies(answers)[1..] == Replies(answers[1..]);
    }
  }

  /** Given the replies of two far ends, mixed as they come, the demultiplexer gives each client exactly the replies to
      its own interface's transfers. */
  lemma RepliesRouted(rddata: nat, ticks: seq<Tick>, depth: nat, answers: seq<Answered>)
    requires forall k :: 0 <= k < |answers| ==> AnsweredOk(answers[k])
    ensures DemuxOk(Run(Start(rddata), ticks, depth), depth)
    ensures var y := Run(Start(rddata), ticks, depth);
      Dealt(y) == Words(Replies(answers)) ==> y.out1 == RepliesTo(answers, 1) && y.out2 == RepliesTo(answers, 0)
  {
    RepliesSplit(answers);
    PacketsRouted(rddata, ticks, depth, Replies(answers));
  }

  // ---------- words keep flowing

  /** While words are offered and both clients have room, one is read every second clock at least. */
  lemma EverySecondClock(y: Demux, first: Tick, second: Tick, depth: nat)
    requires DemuxOk(y, depth) && first.offer.Word? && second.offer.Word?
    requires |y.fifo1| < depth && |y.fifo2| < depth
    requires var y' := DemuxNext(y, first, depth); |y'.fifo1| < depth && |y'.fifo2| < depth
    ensures var y' := DemuxNext(y, first, depth);
      |DemuxNext(y', second, depth).words| > |y.words|
  {
  }
}
