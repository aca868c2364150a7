/** The two ends joined by FIFOs: a bus transfer at the near end becomes the same transfer at the far end. */
module HostLink {
  import opened HostPacket
  import S = HostSlave
  import M = HostMaster

  /** `there` and `back` are the FIFOs, `rdA` and `rdB` their output registers at the far and the near end. For
      the proofs: the transfer in hand, and the transfers finished at the near end and at the far end. */
  datatype Link = Link(n: S.Near, f: M.Far, there: seq<nat>, back: seq<nat>, rdA: nat, rdB: nat,
                       cur: Transfer, near: seq<Transfer>, far: seq<Transfer>)

  /** One clock's surroundings: each FIFO may stall reads and writes, and the far bus answers when it likes. */
  datatype Tick = Tick(request: S.Request, hwdata: Word, stallThere: bool, stallBack: bool, fullThere: bool,
                       fullBack: bool, hready: bool, hrdata: Word)

  function NearIn(y: Link, k: Tick): S.In {
    S.In(y.back == [] || k.stallBack, y.rdB, k.fullThere, k.request, k.hwdata)
  }

  function FarIn(y: Link, k: Tick): M.In {
    M.In(y.there == [] || k.stallThere, y.rdA, k.fullBack, k.hready, k.hrdata, false)
  }

  /** The transfer as far as its data is known: a write's comes the clock after its address, a read's when the
      far bus answers. */
  function CurNext(y: Link, k: Tick): Transfer {
    if S.Starts(y.n, NearIn(y, k)) then
      Transfer(k.request.write, k.request.addr, k.request.size, seq(LaneCount(k.request.size), _ => 0))
    else if y.n.state == S.WaitData then y.cur.(data := Lanes(y.n.size, y.n.addr, k.hwdata))
    else if M.Answers(y.f, FarIn(y, k)) && !y.f.hwrite then y.cur.(data := Lanes(y.f.hsize, y.f.haddr, k.hrdata))
    else y.cur
  }

  /** What the far bus sees finish this clock. */
  function FarTransfer(f: M.Far, hrdata: Word): Transfer {
    Transfer(f.hwrite, f.haddr, f.hsize, Lanes(f.hsize, f.haddr, if f.hwrite then f.hwdata else hrdata))
  }

  predicate Shaped(y: Link) { S.Shaped(y.n) && M.Shaped(y.f) }

  function LinkNext(y: Link, k: Tick, ibit: nat): Link
    requires Shaped(y)
  {
    var ni, fi := NearIn(y, k), FarIn(y, k);
    var n', f' := S.Step(y.n, ni, ibit), M.Step(y.f, fi);
    Link(n', f',
         (if M.Rden(y.f, fi) && y.there != [] then y.there[1..] else y.there) + (if y.n.wren then [y.n.wrdata] else []),
         (if S.Rden(y.n, ni) && y.back != [] then y.back[1..] else y.back)
           + (if M.Wren(y.f, fi) then [y.f.wrdata] else []),
         if M.Rden(y.f, fi) && y.there != [] then y.there[0] else y.rdA,
         if S.Rden(y.n, ni) && y.back != [] then y.back[0] else y.rdB,
         CurNext(y, k),
         if y.n.state == S.AhbResp && n'.ready then
           y.near + [Transfer(y.n.write, y.n.addr, y.n.size,
                              if y.n.write then y.cur.data else Lanes(y.n.size, y.n.addr, n'.hrdata))]
         else y.near,
         if M.Answers(y.f, fi) then y.far + [FarTransfer(y.f, k.hrdata)] else y.far)
  }

  /** A bus that waits while the near end is busy and asks for aligned transfers of up to a word. */
  predicate TickOk(y: Link, k: Tick) {
    k.request.Request? ==> y.n.ready && k.request.size <= 2 && Aligned(k.request.addr, k.request.size)
  }

  predicate Aligned(addr: Word, size: nat) {
    (size == 1 ==> addr.b0 % 2 == 0) && (size == 2 ==> addr.b0 % 4 == 0)
  }

  // ---------- where a transfer can be

  predicate Sized(y: Link) { Shaped(y) && y.n.ocnt <= 9 && y.f.ocnt <= 5 }

  /** Bytes between the ends: waiting to be taken by the far end, and by the near end. */
  function ToFar(y: Link): seq<nat>
    requires Shaped(y) && y.n.ocnt <= 9
  {
    (if y.f.dvalid then [y.rdA] else []) + y.there + (if y.n.wren then [y.n.wrdata] else []) + y.n.dato[..y.n.ocnt]
  }

  function ToNear(y: Link): seq<nat>
    requires Shaped(y) && y.f.ocnt <= 5
  {
    (if y.n.dvalid then [y.rdB] else []) + y.back + Outgoing(y.f)
  }

  /** What the near end has stored of the transfer in hand. */
  predicate Holds(y: Link) {
    y.n.write == y.cur.write && y.n.addr == y.cur.addr && y.n.size == y.cur.size && TransferOk(y.cur) &&
      Aligned(y.cur.addr, y.cur.size)
  }

  predicate FarAtRest(y: Link) { y.f.state == M.Idle && y.f.icnt == 0 && y.f.ocnt == 0 }

  /** No transfer, or a write waiting for its data. */
  predicate Resting(y: Link)
    requires Sized(y)
  {
    && FarAtRest(y) && ToFar(y) == [] && ToNear(y) == [] && y.n.icnt == 0 && y.far == y.near
    && (if y.n.ready then y.n.state == S.Idle else y.n.state == S.WaitData && y.n.write && Holds(y))
  }

  /** The command on its way: the far end has taken the first `c` bytes of it. */
  predicate Calling(y: Link, ibit: nat, c: nat)
    requires Sized(y)
  {
    && y.n.state == S.WaitResp && Holds(y) && !y.n.ready && y.n.icnt == ReplyLength(y.cur.write, y.cur.size)
    && y.far == y.near
    && y.f.state == M.Idle && y.f.ocnt == 0 && ToNear(y) == []
    && var p := Packet(ibit, y.cur);
       && c < |p| && ToFar(y) == p[c..]
       && (if c == 0 then y.f.icnt == 0
           else y.f.icnt == |p| - c && y.f.cmd == p[0] && y.f.dati[..c - 1] == Reverse(p[1..c]))
  }

  /** The command in the far end's hands, and its bus transfer. */
  predicate Performing(y: Link, ibit: nat)
    requires Sized(y)
  {
    && y.n.state == S.WaitResp && Holds(y) && !y.n.ready && y.n.icnt == ReplyLength(y.cur.write, y.cur.size)
    && y.far == y.near
    && y.f.icnt == 0 && y.f.ocnt == 0 && ToFar(y) == [] && ToNear(y) == []
    && var p := Packet(ibit, y.cur);
       && y.f.cmd == p[0] && y.f.dati[..|p| - 1] == Reverse(p[1..])
       && (y.f.state == M.Addr
           || ((y.f.state == M.Wait || y.f.state == M.Data)
               && y.f.hwrite == y.cur.write && y.f.haddr == y.cur.addr && y.f.hsize == y.cur.size
               && (y.f.state == M.Data && y.f.hwrite ==> Lanes(y.cur.size, y.cur.addr, y.f.hwdata) == y.cur.data)))
  }

  /** The reply on its way: the near end has taken the first `c` bytes of it. */
  predicate Replying(y: Link, ibit: nat, c: nat)
    requires Sized(y)
  {
    && y.n.state == S.WaitResp && Holds(y) && !y.n.ready && y.far == y.near + [y.cur]
    && y.f.state == M.Idle && y.f.icnt == 0 && ToFar(y) == []
    && var q := Reply(ibit, y.cur);
       c < |q| && y.n.icnt == |q| - c && ToNear(y) == q[c..] && y.n.dati[..c] == Reverse(q[..c])
  }

  /** The reply in the near end's hands. */
  predicate Replied(y: Link, ibit: nat)
    requires Sized(y)
  {
    && y.n.state == S.AhbResp && Holds(y) && !y.n.ready && y.n.icnt == 0 && y.far == y.near + [y.cur]
    && FarAtRest(y) && ToFar(y) == [] && ToNear(y) == []
    && var q := Reply(ibit, y.cur); y.n.dati[..|q|] == Reverse(q)
  }

  predicate LinkInv(y: Link, ibit: nat) {
    && Sized(y)
    && (Resting(y)
        || (y.f.icnt <= 8 && Calling(y, ibit, Taken(y, ibit)))
        || Performing(y, ibit)
        || Replying(y, ibit, ReplyTaken(y))
        || Replied(y, ibit))
  }

  function Taken(y: Link, ibit: nat): nat {
    if y.f.icnt == 0 || |y.cur.data| != LaneCount(y.cur.size) then 0
    else if |Packet(ibit, y.cur)| >= y.f.icnt then |Packet(ibit, y.cur)| - y.f.icnt else 0
  }

  function ReplyTaken(y: Link): nat {
    if ReplyLength(y.cur.write, y.cur.size) >= y.n.icnt then ReplyLength(y.cur.write, y.cur.size) - y.n.icnt else 0
  }

  // ---------- bytes flow

  lemma Chain(h: seq<nat>, t: seq<nat>, w: seq<nat>, d: seq<nat>, h': seq<nat>, t': seq<nat>, w': seq<nat>,
              d': seq<nat>)
    requires |h| <= 1 && h' + t' == t + w && w' + d' == d
    ensures h' + t' + w' + d' == (h + t + w + d)[|h|..]
  {
    assert h' + t' + w' + d' == (h' + t') + (w' + d');
  }

  lemma ShortChain(h: seq<nat>, t: seq<nat>, o: seq<nat>, h': seq<nat>, t': seq<nat>, o': seq<nat>, w: seq<nat>)
    requires |h| <= 1 && h' + t' == t + w && w + o' == o
    ensures h' + t' + o' == (h + t + o)[|h|..]
  {
    assert t + w + o' == t + (w + o');
  }

  lemma FifoMoves(fifo: seq<nat>, take: bool, put: seq<nat>)
    requires take ==> fifo != []
    ensures (if take then [fifo[0]] else []) + ((if take then fifo[1..] else fifo) + put) == fifo + put
  {
  }

  /** The near end's registers: what leaves the buffer goes to the write register. */
  lemma NearSends(n: S.Near, i: S.In, ibit: nat)
    requires S.Shaped(n) && n.ocnt <= 9 && S.Loaded(n, i, ibit) == []
    ensures var n' := S.Step(n, i, ibit);
      S.Shaped(n') && n'.ocnt <= 9 && (if n'.wren then [n'.wrdata] else []) + n'.dato[..n'.ocnt] == n.dato[..n.ocnt]
  {
  }

  function Outgoing(f: M.Far): seq<nat>
    requires M.Shaped(f) && f.ocnt <= 5
  {
    if f.ocnt == 0 then [] else [f.wrdata] + f.dato[..f.ocnt - 1]
  }

  lemma FarSends(f: M.Far, i: M.In)
    requires M.Shaped(f) && f.ocnt <= 5 && !M.Answers(f, i)
    ensures var f' := M.Step(f, i);
      M.Shaped(f') && f'.ocnt <= 5 && (if M.Wren(f, i) then [f.wrdata] else []) + Outgoing(f') == Outgoing(f)
  {
    if M.Wren(f, i) {
      assert f.dato[..f.ocnt - 1] == if f.ocnt == 1 then []
        else [f.dato[0]] + (f.dato[1..] + [f.dato[3]])[..f.ocnt - 2];
    }
  }

  /** No byte is lost, repeated or reordered between the near end's buffer and the far end's hands. */
  lemma ThereFlows(y: Link, k: Tick, ibit: nat)
    requires Shaped(y) && y.n.ocnt <= 9 && S.Loaded(y.n, NearIn(y, k), ibit) == []
    ensures var y' := LinkNext(y, k, ibit);
      S.Shaped(y'.n) && M.Shaped(y'.f) && y'.n.ocnt <= 9 &&
        ToFar(y') == (if y.f.dvalid then ToFar(y)[1..] else ToFar(y))
  {
    M.StaysShaped(y.f, FarIn(y, k));
    NearSends(y.n, NearIn(y, k), ibit);
    var y' := LinkNext(y, k, ibit);
    var h, w := if y.f.dvalid then [y.rdA] else [], if y.n.wren then [y.n.wrdata] else [];
    var h', w' := if y'.f.dvalid then [y'.rdA] else [], if y'.n.wren then [y'.n.wrdata] else [];
    FifoMoves(y.there, M.Rden(y.f, FarIn(y, k)), w);
    Chain(h, y.there, w, y.n.dato[..y.n.ocnt], h', y'.there, w', y'.n.dato[..y'.n.ocnt]);
  }

  /** Nor between the far end's buffer and the near end's hands. */
  lemma BackFlows(y: Link, k: Tick, ibit: nat)
    requires Shaped(y) && y.f.ocnt <= 5 && !M.Answers(y.f, FarIn(y, k))
    ensures var y' := LinkNext(y, k, ibit);
      S.Shaped(y'.n) && M.Shaped(y'.f) && y'.f.ocnt <= 5 &&
        ToNear(y') == (if y.n.dvalid then ToNear(y)[1..] else ToNear(y))
  {
    S.StaysShaped(y.n, NearIn(y, k), ibit);
    FarSends(y.f, FarIn(y, k));
    var y' := LinkNext(y, k, ibit);
    var h, w := if y.n.dvalid then [y.rdB] else [], if M.Wren(y.f, FarIn(y, k)) then [y.f.wrdata] else [];
    var h' := if y'.n.dvalid then [y'.rdB] else [];
    FifoMoves(y.back, S.Rden(y.n, NearIn(y, k)), w);
    ShortChain(h, y.back, Outgoing(y.f), h', y'.back, Outgoing(y'.f), w);
  }

  // ---------- every clock keeps the invariant

  /** With nothing in flight and nothing loaded, nothing comes into flight. */
  lemma QuietStays(y: Link, k: Tick, ibit: nat)
    requires Shaped(y) && y.n.ocnt <= 9 && FarAtRest(y) && ToFar(y) == [] && ToNear(y) == []
    requires S.Loaded(y.n, NearIn(y, k), ibit) == []
    ensures var y' := LinkNext(y, k, ibit);
      && Sized(y') && FarAtRest(y') && ToFar(y') == [] && ToNear(y') == []
      && y'.far == y.far && !y.n.dvalid
  {
    ThereFlows(y, k, ibit);
    BackFlows(y, k, ibit);
  }

  lemma RestStays(y: Link, k: Tick, ibit: nat)
    requires Sized(y) && Resting(y) && TickOk(y, k) && y.n.ready && (k.request.Request? ==> k.request.write)
    ensures Sized(LinkNext(y, k, ibit))
    ensures Resting(LinkNext(y, k, ibit))
  {
    QuietStays(y, k, ibit);
  }

  /** Loading the command puts all of it in flight. */
  lemma LoadFlows(y: Link, k: Tick, ibit: nat)
    requires Shaped(y) && y.n.ocnt <= 9 && FarAtRest(y) && ToFar(y) == [] && ToNear(y) == []
    requires S.Loaded(y.n, NearIn(y, k), ibit) != []
    ensures var y' := LinkNext(y, k, ibit);
      && Sized(y') && FarAtRest(y') && ToFar(y') == S.Loaded(y.n, NearIn(y, k), ibit) && ToNear(y') == []
      && y'.far == y.far
  {
    S.StaysShaped(y.n, NearIn(y, k), ibit);
    M.StaysShaped(y.f, FarIn(y, k));
    BackFlows(y, k, ibit);
  }

  lemma ReadCalls(y: Link, k: Tick, ibit: nat)
    requires Sized(y) && Resting(y) && TickOk(y, k) && y.n.ready && k.request.Request? && !k.request.write
    ensures LinkInv(LinkNext(y, k, ibit), ibit)
  {
    LoadFlows(y, k, ibit);
    var y' := LinkNext(y, k, ibit);
    assert Packet(ibit, y'.cur) == S.Loaded(y.n, NearIn(y, k), ibit);
    assert Calling(y', ibit, 0);
  }

  lemma WriteCalls(y: Link, k: Tick, ibit: nat)
    requires Sized(y) && Resting(y) && TickOk(y, k) && !y.n.ready
    ensures LinkInv(LinkNext(y, k, ibit), ibit)
  {
    LoadFlows(y, k, ibit);
    var y' := LinkNext(y, k, ibit);
    assert Packet(ibit, y'.cur) == S.Loaded(y.n, NearIn(y, k), ibit);
    assert Calling(y', ibit, 0);
  }

  /** What the far end makes of the next byte of a command. */
  lemma FarTakes(f: M.Far, i: M.In, p: seq<nat>, c: nat)
    requires M.Shaped(f) && M.Takes(f) && c < |p| <= 9 && i.rddata == p[c] && Payload(Code(p[0])) == |p| - 1 && |p| >= 5
    requires if c == 0 then f.icnt == 0 else f.icnt == |p| - c && f.cmd == p[0] && f.dati[..c - 1] == Reverse(p[1..c])
    ensures var f' := M.Step(f, i);
      && f'.cmd == p[0] && f'.dati[..c] == Reverse(p[1..c + 1])
      && (if c + 1 < |p| then f'.state == M.Idle && f'.icnt == |p| - (c + 1) else f'.state == M.Addr && f'.icnt == 0)
  {
    if c > 0 {
      assert p[1..c + 1] == p[1..c] + [p[c]];
      ReverseMore(p[1..c], p[c]);
    } else {
      assert p[1..1] == [];
    }
  }

  lemma PacketCode(ibit: nat, t: Transfer)
    requires TransferOk(t) && ibit < 2
    ensures var p := Packet(ibit, t);
      && Payload(Code(p[0])) == |p| - 1 && 5 <= |p| <= 9
      && Writes(p[0]) == t.write && !AutoIncrement(p[0]) && Size(p[0]) == t.size && p[0] / 128 % 2 == ibit
  {
    HeaderRoundTrip(ibit, if t.write then WriteCode(t.size) else D4, t.write, t.size);
  }

  lemma CallWaits(y: Link, k: Tick, ibit: nat, c: nat)
    requires Sized(y) && Calling(y, ibit, c) && TickOk(y, k) && !y.f.dvalid
    ensures Sized(LinkNext(y, k, ibit)) && Calling(LinkNext(y, k, ibit), ibit, c)
  {
    ThereFlows(y, k, ibit);
    BackFlows(y, k, ibit);
  }

  /** The flow and the far end's hands on a clock that takes byte c of the command. */
  lemma CallTakes(y: Link, k: Tick, ibit: nat, c: nat)
    requires Sized(y) && ibit < 2 && Calling(y, ibit, c) && TickOk(y, k) && y.f.dvalid
    ensures var y', p := LinkNext(y, k, ibit), Packet(ibit, y.cur);
      && Sized(y') && ToFar(y') == p[c + 1..] && ToNear(y') == []
      && y'.f.cmd == p[0] && y'.f.dati[..c] == Reverse(p[1..c + 1])
      && (if c + 1 < |p| then y'.f.state == M.Idle && y'.f.icnt == |p| - (c + 1)
          else y'.f.state == M.Addr && y'.f.icnt == 0)
  {
    ThereFlows(y, k, ibit);
    BackFlows(y, k, ibit);
    PacketCode(ibit, y.cur);
    var p := Packet(ibit, y.cur);
    assert ToFar(y)[0] == y.rdA;
    FarTakes(y.f, FarIn(y, k), p, c);
    assert p[c..][1..] == p[c + 1..];
  }

  lemma CallByte(y: Link, k: Tick, ibit: nat, c: nat)
    requires Sized(y) && ibit < 2 && Calling(y, ibit, c) && TickOk(y, k) && y.f.dvalid
    ensures var y' := LinkNext(y, k, ibit);
      Sized(y') && if c + 1 < |Packet(ibit, y.cur)| then Calling(y', ibit, c + 1) else Performing(y', ibit)
  {
    CallTakes(y, k, ibit, c);
    var p := Packet(ibit, y.cur);
    if c + 1 == |p| { assert p[1..c + 1] == p[1..] && p[c + 1..] == []; }
  }

  lemma CallMoves(y: Link, k: Tick, ibit: nat, c: nat)
    requires Sized(y) && ibit < 2 && Calling(y, ibit, c) && TickOk(y, k)
    ensures var y' := LinkNext(y, k, ibit);
      && Sized(y')
      && (if !y.f.dvalid then Calling(y', ibit, c)
          else if c + 1 < |Packet(ibit, y.cur)| then Calling(y', ibit, c + 1) else Performing(y', ibit))
  {
    if y.f.dvalid { CallByte(y, k, ibit, c); } else { CallWaits(y, k, ibit, c); }
  }

  /** Replicated data reads back from the lanes an aligned access uses. */
  lemma ReplicatedLanes(t: Transfer, f: M.Far)
    requires M.Shaped(f) && TransferOk(t) && Aligned(t.addr, t.size) && Size(f.cmd) == t.size &&
             f.dati[..LaneCount(t.size)] == t.data
    ensures Lanes(t.size, t.addr, M.Replicated(f)) == t.data
  {
    assert forall j :: 0 <= j < LaneCount(t.size) ==> t.data[j] == f.dati[j];
  }

  lemma SpreadLanes(t: Transfer, d: seq<nat>)
    requires |d| == 5 && TransferOk(t) && Aligned(t.addr, t.size) && d[..LaneCount(t.size)] == t.data
    ensures Lanes(t.size, t.addr, S.Spread(t.size, d)) == t.data
  {
    assert forall j :: 0 <= j < LaneCount(t.size) ==> t.data[j] == d[j];
  }

  /** The far end decodes the address and finds the data where it looks for them. */
  lemma FarDecodes(f: M.Far, ibit: nat, t: Transfer)
    requires M.Shaped(f) && TransferOk(t) && ibit < 2
    requires var p := Packet(ibit, t); f.cmd == p[0] && f.dati[..|p| - 1] == Reverse(p[1..])
    ensures Writes(f.cmd) == t.write && Size(f.cmd) == t.size && M.Target(f) == t.addr
    ensures t.write ==> f.dati[..LaneCount(t.size)] == t.data
  {
    PacketCode(ibit, t);
    PacketReversed(ibit, t);
    var p := Packet(ibit, t);
    var all := (if t.write then t.data else []) + [t.addr.b0, t.addr.b1, t.addr.b2, t.addr.b3];
    assert f.dati[..|p| - 1] == all;
    assert forall j :: 0 <= j < |p| - 1 ==> f.dati[j] == all[j];
    if t.write { assert f.dati[..LaneCount(t.size)] == all[..LaneCount(t.size)]; }
  }

  lemma PerformMoves(y: Link, k: Tick, ibit: nat)
    requires Sized(y) && ibit < 2 && Performing(y, ibit) && TickOk(y, k) && !M.Answers(y.f, FarIn(y, k))
    ensures var y' := LinkNext(y, k, ibit);
      Sized(y') && Performing(y', ibit)
  {
    ThereFlows(y, k, ibit);
    BackFlows(y, k, ibit);
    FarDecodes(y.f, ibit, y.cur);
    if y.f.state == M.Wait && y.cur.write { ReplicatedLanes(y.cur, y.f); }
  }

  /** The transfer the far bus sees finish is the one in hand. */
  lemma FarSees(y: Link, k: Tick, ibit: nat)
    requires Sized(y) && Performing(y, ibit) && M.Answers(y.f, FarIn(y, k))
    ensures FarTransfer(y.f, k.hrdata) == CurNext(y, k) && TransferOk(CurNext(y, k))
  {
  }

  /** The reply loaded is the whole reply. */
  lemma FarReplies(f: M.Far, i: M.In, ibit: nat, t: Transfer)
    requires M.Shaped(f) && f.ocnt == 0 && M.Answers(f, i) && !i.hresp && ibit < 2 && TransferOk(t)
    requires f.cmd / 128 % 2 == ibit && Size(f.cmd) == t.size && f.hwrite == t.write && f.haddr == t.addr
    requires !t.write ==> t.data == Lanes(t.size, t.addr, i.hrdata)
    ensures var f' := M.Step(f, i); M.Shaped(f') && f'.ocnt <= 5 && Outgoing(f') == Reply(ibit, t)
  {
    M.StaysShaped(f, i);
  }

  lemma ReplyLoads(y: Link, k: Tick, ibit: nat)
    requires Sized(y) && ibit < 2 && Performing(y, ibit) && TickOk(y, k) && M.Answers(y.f, FarIn(y, k))
    ensures var y' := LinkNext(y, k, ibit);
      Sized(y') && ToFar(y') == [] && ToNear(y') == Reply(ibit, CurNext(y, k)) && !y.n.dvalid
  {
    ThereFlows(y, k, ibit);
    FarDecodes(y.f, ibit, y.cur);
    PacketCode(ibit, y.cur);
    S.StaysShaped(y.n, NearIn(y, k), ibit);
    FarSees(y, k, ibit);
    FarReplies(y.f, FarIn(y, k), ibit, CurNext(y, k));
  }

  /** The far bus answers, and the whole reply is in flight. */
  lemma PerformEnds(y: Link, k: Tick, ibit: nat)
    requires Sized(y) && ibit < 2 && Performing(y, ibit) && TickOk(y, k) && M.Answers(y.f, FarIn(y, k))
    ensures Sized(LinkNext(y, k, ibit)) && Replying(LinkNext(y, k, ibit), ibit, 0)
  {
    ReplyLoads(y, k, ibit);
    FarSees(y, k, ibit);
    assert Reverse([]) == [];
  }

  /** What the near end makes of the next byte of a reply. */
  lemma NearTakes(n: S.Near, i: S.In, ibit: nat, q: seq<nat>, c: nat)
    requires S.Shaped(n) && n.state == S.WaitResp && n.dvalid && c < |q| <= 5 && i.rddata == q[c]
    requires n.icnt == |q| - c && n.dati[..c] == Reverse(q[..c])
    ensures var n' := S.Step(n, i, ibit);
      && n'.icnt == |q| - (c + 1) && |n'.dati| == 5 && n'.dati[..c + 1] == Reverse(q[..c + 1])
      && n'.state == (if c + 1 < |q| then S.WaitResp else S.AhbResp)
  {
    assert q[..c + 1] == q[..c] + [q[c]];
    ReverseMore(q[..c], q[c]);
    assert ([i.rddata] + n.dati[..4])[..c + 1] == [i.rddata] + n.dati[..c];
  }

  lemma ReplyWaits(y: Link, k: Tick, ibit: nat, c: nat)
    requires Sized(y) && Replying(y, ibit, c) && TickOk(y, k) && !y.n.dvalid
    ensures Sized(LinkNext(y, k, ibit)) && Replying(LinkNext(y, k, ibit), ibit, c)
  {
    ThereFlows(y, k, ibit);
    BackFlows(y, k, ibit);
  }

  /** The flow and the near end's hands on a clock that takes byte c of the reply. */
  lemma ReplyTakes(y: Link, k: Tick, ibit: nat, c: nat)
    requires Sized(y) && Replying(y, ibit, c) && TickOk(y, k) && y.n.dvalid
    ensures var y', q := LinkNext(y, k, ibit), Reply(ibit, y.cur);
      && Sized(y') && ToFar(y') == [] && ToNear(y') == q[c + 1..]
      && y'.n.icnt == |q| - (c + 1) && y'.n.dati[..c + 1] == Reverse(q[..c + 1])
      && y'.n.state == (if c + 1 < |q| then S.WaitResp else S.AhbResp)
  {
    ThereFlows(y, k, ibit);
    BackFlows(y, k, ibit);
    var q := Reply(ibit, y.cur);
    assert ToNear(y)[0] == y.rdB;
    NearTakes(y.n, NearIn(y, k), ibit, q, c);
    assert q[c..][1..] == q[c + 1..];
  }

  lemma ReplyByte(y: Link, k: Tick, ibit: nat, c: nat)
    requires Sized(y) && Replying(y, ibit, c) && TickOk(y, k) && y.n.dvalid
    ensures var y' := LinkNext(y, k, ibit);
      Sized(y') && if c + 1 < |Reply(ibit, y.cur)| then Replying(y', ibit, c + 1) else Replied(y', ibit)
  {
    ReplyTakes(y, k, ibit, c);
    var q := Reply(ibit, y.cur);
    if c + 1 == |q| { assert q[..c + 1] == q && q[c + 1..] == []; }
  }

  lemma ReplyMoves(y: Link, k: Tick, ibit: nat, c: nat)
    requires Sized(y) && Replying(y, ibit, c) && TickOk(y, k)
    ensures var y' := LinkNext(y, k, ibit);
      && Sized(y')
      && (if !y.n.dvalid then Replying(y', ibit, c)
          else if c + 1 < |Reply(ibit, y.cur)| then Replying(y', ibit, c + 1) else Replied(y', ibit))
  {
    if y.n.dvalid { ReplyByte(y, k, ibit, c); } else { ReplyWaits(y, k, ibit, c); }
  }

  /** A good reply's status bit is clear where the near end looks for it, and its data is on the lanes read. */
  lemma ReplyDecoded(n: S.Near, ibit: nat, t: Transfer)
    requires S.Shaped(n) && TransferOk(t) && n.write == t.write && n.size == t.size && Aligned(t.addr, t.size)
    requires var q := Reply(ibit, t); n.dati[..|q|] == Reverse(q)
    ensures !S.Failed(n) && (!t.write ==> Lanes(t.size, t.addr, S.Spread(t.size, n.dati)) == t.data)
  {
    ReplyReversed(ibit, t);
    var q := Reply(ibit, t);
    var all := (if t.write then [] else t.data) + [q[0]];
    assert forall j :: 0 <= j < |q| ==> n.dati[j] == all[j];
    assert q[0] % 2 == 0;
    if !t.write {
      assert n.dati[..LaneCount(t.size)] == all[..LaneCount(t.size)];
      SpreadLanes(t, n.dati);
    }
  }

  lemma RepliedEnds(y: Link, k: Tick, ibit: nat)
    requires Sized(y) && Replied(y, ibit) && TickOk(y, k)
    ensures var y' := LinkNext(y, k, ibit);
      Sized(y') && Resting(y') && y'.n.ready && !y'.n.error && y'.near == y.near + [y.cur]
  {
    QuietStays(y, k, ibit);
    ReplyDecoded(y.n, ibit, y.cur);
  }

  lemma LinkStep(y: Link, k: Tick, ibit: nat)
    requires LinkInv(y, ibit) && ibit < 2 && TickOk(y, k)
    ensures LinkInv(LinkNext(y, k, ibit), ibit)
  {
    if Resting(y) {
      if !y.n.ready { WriteCalls(y, k, ibit); }
      else if k.request.Request? && !k.request.write { ReadCalls(y, k, ibit); }
      else { RestStays(y, k, ibit); }
    } else if Replied(y, ibit) {
      RepliedEnds(y, k, ibit);
    } else if Performing(y, ibit) {
      if M.Answers(y.f, FarIn(y, k)) { PerformEnds(y, k, ibit); } else { PerformMoves(y, k, ibit); }
    } else if Replying(y, ibit, ReplyTaken(y)) {
      ReplyMoves(y, k, ibit, ReplyTaken(y));
    } else {
      CallMoves(y, k, ibit, Taken(y, ibit));
    }
  }

  // ---------- every run

  /** Both ends out of reset, nothing in flight. */
  predicate AtStart(y: Link) {
    && Shaped(y) && y.n.state == S.Idle && y.n.icnt == 0 && y.n.ocnt == 0 && !y.n.dvalid && y.n.ready && !y.n.wren
    && y.f.state == M.Idle && y.f.icnt == 0 && y.f.ocnt == 0 && !y.f.dvalid
    && y.there == [] && y.back == [] && y.near == [] && y.far == []
  }

  /** One clock. The guard holds in every run: see RunInv. */
  function Clock(y: Link, k: Tick, ibit: nat): Link {
    if Shaped(y) then LinkNext(y, k, ibit) else y
  }

  predicate IsRun(states: seq<Link>, ticks: seq<Tick>, ibit: nat) {
    && ibit < 2
    && |states| == |ticks| + 1 && AtStart(states[0])
    && forall i :: 0 <= i < |ticks| ==> TickOk(states[i], ticks[i]) && states[i + 1] == Clock(states[i], ticks[i], ibit)
  }

  lemma {:induction false} RunInv(states: seq<Link>, ticks: seq<Tick>, ibit: nat, i: nat)
    requires IsRun(states, ticks, ibit) && i < |states|
    ensures LinkInv(states[i], ibit)
  {
    if i > 0 {
      RunInv(states, ticks, ibit, i - 1);
      LinkStep(states[i - 1], ticks[i - 1], ibit);
    }
  }

  /** In every run, whatever the FIFOs stall and whenever the far bus answers: the far bus sees exactly the near
      bus's transfers, in order and each once, at the same address, direction and size and with the same data on
      the addressed lanes, a read's data included; and between transfers both FIFOs are empty. */
  lemma RemoteRoundTrip(states: seq<Link>, ticks: seq<Tick>, ibit: nat, i: nat)
    requires IsRun(states, ticks, ibit) && i < |states|
    ensures var y := states[i];
      if y.n.ready then y.far == y.near && y.there == [] && y.back == []
      else y.far == y.near || y.far == y.near + [y.cur]
  {
    RunInv(states, ticks, ibit, i);
  }

  /** What the near bus is told when its transfer ends: OKAY, and a read's data as the far bus gave it. */
  lemma TransferEnds(states: seq<Link>, ticks: seq<Tick>, ibit: nat, i: nat)
    requires IsRun(states, ticks, ibit) && i < |ticks| && !states[i].n.ready && states[i + 1].n.ready
    ensures var y, y' := states[i], states[i + 1];
      && !y'.n.error && y'.near == y.near + [y.cur] == y.far
      && y.cur.write == y.n.write && y.cur.addr == y.n.addr && y.cur.size == y.n.size
      && (!y.n.write ==> Lanes(y.n.size, y.n.addr, y'.n.hrdata) == y.cur.data)
  {
    RunInv(states, ticks, ibit, i);
    EndsReplied(states[i], ticks[i], ibit);
    RepliedEnds(states[i], ticks[i], ibit);
    ReplyDecoded(states[i].n, ibit, states[i].cur);
  }

  lemma EndsReplied(y: Link, k: Tick, ibit: nat)
    requires LinkInv(y, ibit) && TickOk(y, k) && !y.n.ready && LinkNext(y, k, ibit).n.ready
    ensures Replied(y, ibit)
  {
  }

  // ---------- every transfer ends

  /** A clock on which nothing stalls. */
  predicate Prompt(k: Tick) {
    k.request.Quiet? && !k.stallThere && !k.stallBack && !k.fullThere && !k.fullBack && k.hready
  }

  function One(b: bool): nat { if b then 1 else 0 }

  /** Moves left to the bytes on their way to the far end, and to the near end. */
  function MovesThere(y: Link): nat { 4 * y.n.ocnt + 3 * One(y.n.wren) + 2 * |y.there| + One(y.f.dvalid) }
  function MovesBack(y: Link): nat { 3 * y.f.ocnt + 2 * |y.back| + One(y.n.dvalid) }

  /** Clocks left, at most, of the transfer in hand. */
  function Left(y: Link): nat {
    match y.n.state
    case WaitData => 61
    case AhbResp => 1
    case _ =>
      if y.f.state == M.Addr then 23 else if y.f.state == M.Wait then 22 else if y.f.state == M.Data then 21
      else if MovesThere(y) > 0 then 24 + MovesThere(y)
      else 1 + MovesBack(y)
  }

  lemma LeftBounded(y: Link, ibit: nat)
    requires LinkInv(y, ibit) && !y.n.ready
    ensures Left(y) <= 61
  {
    if Calling(y, ibit, Taken(y, ibit)) { assert |ToFar(y)| <= 9; }
    if Replying(y, ibit, ReplyTaken(y)) { assert |ToNear(y)| <= 5; }
  }

  lemma ThereMoves(y: Link, k: Tick, ibit: nat)
    requires Shaped(y) && y.n.ocnt <= 9 && S.Loaded(y.n, NearIn(y, k), ibit) == [] && Prompt(k)
    requires y.f.state == M.Idle && y.f.ocnt == 0 && MovesThere(y) > 0
    ensures MovesThere(LinkNext(y, k, ibit)) < MovesThere(y)
  {
  }

  lemma BackMoves(y: Link, k: Tick, ibit: nat)
    requires Shaped(y) && y.f.ocnt <= 5 && Prompt(k) && y.n.state == S.WaitResp && y.n.icnt > 0
    requires y.f.state == M.Idle && MovesBack(y) > 0
    ensures MovesBack(LinkNext(y, k, ibit)) < MovesBack(y)
  {
  }

  lemma CallShortens(y: Link, k: Tick, ibit: nat, c: nat)
    requires Sized(y) && ibit < 2 && Calling(y, ibit, c) && TickOk(y, k) && Prompt(k)
    ensures Left(LinkNext(y, k, ibit)) < Left(y)
  {
    assert ToFar(y) != [];
    ThereMoves(y, k, ibit);
    CallMoves(y, k, ibit, c);
    var y' := LinkNext(y, k, ibit);
    if y'.f.state == M.Idle { assert ToFar(y') != []; }
  }

  lemma LeftOfReply(y: Link, ibit: nat, c: nat)
    requires Sized(y) && Replying(y, ibit, c)
    ensures MovesBack(y) > 0 && Left(y) == 1 + MovesBack(y)
  {
    assert ToNear(y) != [] && ToFar(y) == [];
  }

  lemma ReplyShortens(y: Link, k: Tick, ibit: nat, c: nat)
    requires Sized(y) && Replying(y, ibit, c) && TickOk(y, k) && Prompt(k)
    ensures Left(LinkNext(y, k, ibit)) < Left(y)
  {
    var y' := LinkNext(y, k, ibit);
    LeftOfReply(y, ibit, c);
    BackMoves(y, k, ibit);
    ReplyMoves(y, k, ibit, c);
    if y'.n.state == S.WaitResp { LeftOfReply(y', ibit, if y.n.dvalid then c + 1 else c); }
  }

  lemma PerformShortens(y: Link, k: Tick, ibit: nat)
    requires Sized(y) && ibit < 2 && Performing(y, ibit) && TickOk(y, k) && Prompt(k)
    ensures Left(LinkNext(y, k, ibit)) < Left(y)
  {
    if M.Answers(y.f, FarIn(y, k)) {
      PerformEnds(y, k, ibit);
      var y' := LinkNext(y, k, ibit);
      assert |ToNear(y')| <= 5 && ToFar(y') == [];
    } else {
      PerformMoves(y, k, ibit);
    }
  }

  lemma LeftFalls(y: Link, k: Tick, ibit: nat)
    requires LinkInv(y, ibit) && ibit < 2 && TickOk(y, k) && Prompt(k) && !y.n.ready
    ensures LinkNext(y, k, ibit).n.ready || Left(LinkNext(y, k, ibit)) < Left(y)
  {
    if Resting(y) {
      WriteCalls(y, k, ibit);
      LeftOnCall(y, k, ibit);
    } else if Replied(y, ibit) {
      RepliedEnds(y, k, ibit);
    } else if Performing(y, ibit) {
      PerformShortens(y, k, ibit);
    } else if Replying(y, ibit, ReplyTaken(y)) {
      ReplyShortens(y, k, ibit, ReplyTaken(y));
    } else {
      CallShortens(y, k, ibit, Taken(y, ibit));
    }
  }

  lemma LeftOnCall(y: Link, k: Tick, ibit: nat)
    requires Sized(y) && Resting(y) && !y.n.ready && TickOk(y, k)
    ensures Left(LinkNext(y, k, ibit)) < Left(y)
  {
    LoadFlows(y, k, ibit);
    assert |ToFar(LinkNext(y, k, ibit))| <= 9;
  }

  lemma {:induction false} StillLeft(states: seq<Link>, ticks: seq<Tick>, ibit: nat, k: nat, i: nat)
    requires IsRun(states, ticks, ibit) && k <= i < |states|
    requires forall j :: k <= j < i ==> Prompt(ticks[j])
    requires forall j :: k <= j <= i ==> !states[j].n.ready
    ensures Left(states[i]) + (i - k) <= Left(states[k])
  {
    if i > k {
      StillLeft(states, ticks, ibit, k, i - 1);
      RunInv(states, ticks, ibit, i - 1);
      LeftFalls(states[i - 1], ticks[i - 1], ibit);
    }
  }

  /** If nothing stalls, a transfer in hand ends within 62 clocks. */
  lemma EveryTransferEnds(states: seq<Link>, ticks: seq<Tick>, ibit: nat, k: nat)
    requires IsRun(states, ticks, ibit) && k + 62 < |states|
    requires forall j :: k <= j < k + 62 ==> Prompt(ticks[j])
    ensures exists j :: k <= j <= k + 62 && states[j].n.ready
  {
    if forall j :: k <= j <= k + 62 ==> !states[j].n.ready {
      StillLeft(states, ticks, ibit, k, k + 62);
      RunInv(states, ticks, ibit, k);
      LeftBounded(states[k], ibit);
    }
  }

  // ---------- a full FIFO is not written

  lemma HoldsWhenFull(y: Link, k: Tick, ibit: nat)
    requires Shaped(y)
    ensures k.fullThere ==> !LinkNext(y, k, ibit).n.wren
    ensures k.fullBack ==> |LinkNext(y, k, ibit).back| <= |y.back|
  {
  }
}
