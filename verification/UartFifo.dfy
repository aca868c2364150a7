/** uart_fifo/rtl/uart_fifo.sv: the transmitter and receiver with their FIFO handshakes, and the line looped
    back from one to the other. */
module UartFifo {
  import opened UartLine
  import T = UartTx
  import R = UartRx

  class UartFifo {
    const tx: T.TxUartLite
    const rx: R.RxUartLite
    var dvalid: bool
    var dropped: nat

    constructor (n: nat, max: nat, dataReg: Byte)
      ensures fresh(tx) && fresh(rx) && tx.View() == T.POWER_ON && R.PowerOn(rx.View(), max) && !dvalid && dropped == 0
      ensures tx.clocksPerBaud == n && rx.clocksPerBaud == n && tx.max == max && rx.max == max
    {
      tx := new T.TxUartLite(n, max);
      rx := new R.RxUartLite(n, max, dataReg);
      dvalid, dropped := false, 0;
    }

    /** One clock out of reset: `din` is the FIFO's output register, `line` the RX pin. */
    method Posedge(empty: bool, din: Byte, full: bool, line: bool) returns (rden: bool, wren: bool, dout: Byte)
      requires tx.clocksPerBaud > 0 && rx.clocksPerBaud > 0
      modifies this`dvalid, this`dropped, tx, rx
      ensures rden == (!empty && !old(dvalid))
      ensures wren == (old(rx.View()).wr && !full) && dout == old(rx.View()).out
      ensures dvalid == (rden || (old(dvalid) && old(tx.View()).busy))
      ensures dropped == if old(rx.View()).wr && full then (old(dropped) + 1) % 1024 else old(dropped)
      ensures tx.View() == T.TxNext(old(tx.View()), tx.clocksPerBaud, tx.max, old(dvalid), din)
      ensures rx.View() == R.RxNext(old(rx.View()), rx.clocksPerBaud, rx.max, line)
    {
      rden := !empty && !dvalid;
      wren := rx.oWr && !full;
      dout := rx.oData;
      var valid, busy := dvalid, tx.rBusy;
      if rden { dvalid := true; } else if !busy { dvalid := false; }
      if rx.oWr && full { dropped := (dropped + 1) % 1024; }
      tx.Posedge(valid, din);
      rx.Posedge(line);
    }
  }

  // ---------- TX wired to RX

  /** For the proofs: the bytes o_wr has announced, those that went into the receive FIFO and how many did
      not. `dropped` is the DROPPED register. */
  datatype Loop = Loop(s: T.Sender, r: R.Rx, received: seq<Byte>, written: seq<Byte>, lost: nat, dropped: nat)

  datatype Tick = Tick(head: T.Head, full: bool)

  function LoopNext(y: Loop, n: nat, max: nat, k: Tick): Loop
    requires n > 0
  {
    Loop(T.SenderNext(y.s, n, max, k.head),
         R.RxNext(y.r, n, max, y.s.tx.line),
         if y.r.wr then y.received + [y.r.out] else y.received,
         if y.r.wr && !k.full then y.written + [y.r.out] else y.written,
         if y.r.wr && k.full then y.lost + 1 else y.lost,
         if y.r.wr && k.full then (y.dropped + 1) % 1024 else y.dropped)
  }

  predicate LoopOk(y: Loop, n: nat)
    requires n > 0
  {
    && T.SenderOk(y.s, n)
    && R.RxOk(y.s.frames, n, |y.received|, y.s.t, y.r)
    && |y.received| <= |y.s.frames| && y.received == Bytes(y.s.frames)[..|y.received|]
    && Tallied(y)
  }

  /** Every byte announced was written or counted as dropped. */
  predicate Tallied(y: Loop) {
    && |y.received| == |y.written| + y.lost && y.dropped == y.lost % 1024
    && (y.lost == 0 ==> y.written == y.received)
  }

  /** A frame that begins now does not change what the receiver has seen. */
  lemma RxGrows(f: seq<Frame>, n: nat, i: nat, r: R.Rx, g: Frame)
    requires n >= 4 && R.RxOk(f, n, i, g.start, r) && Spaced(f + [g], n)
    ensures R.RxOk(f + [g], n, i, g.start, r)
  {
    assert (f + [g])[..|f|] == f;
    assert R.Synced(f + [g], n, g.start, r);
    if R.Hunting(f, n, i, g.start, r) { assert R.Hunting(f + [g], n, i, g.start, r); }
  }

  lemma FramesGrow(s: T.Sender, n: nat, max: nat, head: T.Head)
    requires 4 <= n && T.SenderOk(s, n)
    ensures var s' := T.SenderNext(s, n, max, head);
      T.SenderOk(s', n) && s'.t == s.t + 1 && (s'.frames == s.frames || s'.frames == s.frames + [Frame(s'.t, s.din)])
      && Bytes(s.frames) <= Bytes(s'.frames)
  {
    T.SenderStep(s, n, max, head);
  }

  /** The receiver after one clock, in which a frame may begin. */
  lemma ReceiverStep(f: seq<Frame>, f': seq<Frame>, n: nat, max: nat, i: nat, t: nat, r: R.Rx, byte: Byte)
    requires 4 <= n <= max && R.RxOk(f, n, i, t, r) && Spaced(f', n)
    requires f' == f || f' == f + [Frame(t + 1, byte)]
    ensures R.RxOk(f', n, if r.wr then i + 1 else i, t + 1, R.RxNext(r, n, max, Wave(f, n, t)))
  {
    R.RxStep(f, n, max, i, t, r);
    if f' != f {
      RxGrows(f, n, if r.wr then i + 1 else i, R.RxNext(r, n, max, Wave(f, n, t)), Frame(t + 1, byte));
    }
  }

  lemma SenderAndReceiver(s: T.Sender, r: R.Rx, i: nat, n: nat, max: nat, head: T.Head)
    requires 4 <= n <= max && T.SenderOk(s, n) && R.RxOk(s.frames, n, i, s.t, r)
    ensures var s' := T.SenderNext(s, n, max, head);
      R.RxOk(s'.frames, n, if r.wr then i + 1 else i, s'.t, R.RxNext(r, n, max, s.tx.line))
  {
    FramesGrow(s, n, max, head);
    T.LineIsWave(s, n);
    ReceiverStep(s.frames, T.SenderNext(s, n, max, head).frames, n, max, i, s.t, r, s.din);
  }

  lemma LoopTallies(y: Loop, n: nat, max: nat, k: Tick)
    requires n > 0 && Tallied(y)
    ensures Tallied(LoopNext(y, n, max, k))
  {
  }

  lemma LoopTransmits(y: Loop, n: nat, max: nat, k: Tick)
    requires 4 <= n <= max && LoopOk(y, n)
    ensures T.SenderOk(LoopNext(y, n, max, k).s, n)
  {
    FramesGrow(y.s, n, max, k.head);
  }

  lemma LoopReceives(y: Loop, n: nat, max: nat, k: Tick)
    requires 4 <= n <= max && LoopOk(y, n)
    ensures var y' := LoopNext(y, n, max, k); R.RxOk(y'.s.frames, n, |y'.received|, y'.s.t, y'.r)
  {
    SenderAndReceiver(y.s, y.r, |y.received|, n, max, k.head);
  }

  lemma LoopAnnounces(y: Loop, n: nat, max: nat, k: Tick)
    requires 4 <= n <= max && LoopOk(y, n)
    ensures var y' := LoopNext(y, n, max, k);
      |y'.received| <= |y'.s.frames| && y'.received == Bytes(y'.s.frames)[..|y'.received|]
  {
    FramesGrow(y.s, n, max, k.head);
    R.PulseIsDelivery(y.s.frames, n, |y.received|, y.s.t, y.r);
    Announced(Bytes(y.s.frames), Bytes(LoopNext(y, n, max, k).s.frames), y.received, y.r.wr, y.r.out);
  }

  lemma LoopStep(y: Loop, n: nat, max: nat, k: Tick)
    requires 4 <= n <= max && LoopOk(y, n)
    ensures LoopOk(LoopNext(y, n, max, k), n)
  {
    LoopTransmits(y, n, max, k);
    LoopReceives(y, n, max, k);
    LoopAnnounces(y, n, max, k);
    LoopTallies(y, n, max, k);
  }

  lemma Announced(sent: seq<Byte>, sent': seq<Byte>, received: seq<Byte>, wr: bool, out: Byte)
    requires sent <= sent' && received <= sent && (wr ==> |received| < |sent| && sent[|received|] == out)
    ensures var received' := if wr then received + [out] else received;
      received' <= sent' && |received'| <= |sent| && received' == sent'[..|received'|]
  {
  }

  function Start(r: R.Rx, din: Byte): Loop {
    Loop(T.Sender(T.POWER_ON, false, din, 0, [], []), r, [], [], 0, 0)
  }

  function Run(y: Loop, n: nat, max: nat, env: seq<Tick>): Loop
    requires n > 0
    decreases env
  {
    if env == [] then y else Run(LoopNext(y, n, max, env[0]), n, max, env[1..])
  }

  lemma {:induction false} RunOk(y: Loop, n: nat, max: nat, env: seq<Tick>)
    requires 4 <= n <= max && LoopOk(y, n)
    ensures LoopOk(Run(y, n, max, env), n)
    decreases env
  {
    if env != [] {
      LoopStep(y, n, max, env[0]);
      RunOk(LoopNext(y, n, max, env[0]), n, max, env[1..]);
    }
  }

  lemma StartOk(n: nat, max: nat, r: R.Rx, din: Byte)
    requires 4 <= n <= max && R.PowerOn(r, max)
    ensures LoopOk(Start(r, din), n)
  {
    R.PowerOnOk([], n, max, r);
  }

  /** For every divisor of at least 4, whatever the two FIFOs do: the bytes announced are the bytes taken from
      the input FIFO, in order and each once. What does not fit the output FIFO is counted, modulo the
      counter's width; if it never filled, everything announced was written. */
  lemma RoundTrip(n: nat, max: nat, r: R.Rx, din: Byte, env: seq<Tick>)
    requires 4 <= n <= max && R.PowerOn(r, max)
    ensures var y := Run(Start(r, din), n, max, env);
      && y.received <= y.s.popped
      && |y.received| == |y.written| + y.lost && y.dropped == y.lost % 1024
      && (y.lost == 0 ==> y.written == y.received)
  {
    StartOk(n, max, r, din);
    RunOk(Start(r, din), n, max, env);
  }

  /** The line carries the frames of the bytes taken, at least ten bit times apart, and each is announced on
      its own clock: in the middle of its stop bit, plus the synchroniser's delay. */
  lemma AnnouncedOnTime(n: nat, max: nat, r: R.Rx, din: Byte, env: seq<Tick>)
    requires 4 <= n <= max && R.PowerOn(r, max)
    ensures var y := Run(Start(r, din), n, max, env); var i := |y.received|;
      && Spaced(y.s.frames, n) && Bytes(y.s.frames) <= y.s.popped && y.s.tx.line == Wave(y.s.frames, n, y.s.t)
      && (y.r.wr <==> i < |y.s.frames| && y.s.t == R.Delivery(y.s.frames, n, i))
      && (y.r.wr ==> y.r.out == y.s.popped[i])
      && (i < |y.s.frames| ==> y.s.t <= R.Delivery(y.s.frames, n, i))
  {
    StartOk(n, max, r, din);
    RunOk(Start(r, din), n, max, env);
    var y := Run(Start(r, din), n, max, env);
    T.LineIsWave(y.s, n);
    R.PulseIsDelivery(y.s.frames, n, |y.received|, y.s.t, y.r);
  }

  /** A byte ready by the end of a stop bit follows without a gap. */
  lemma BackToBack(s: T.Sender, n: nat, max: nat, head: T.Head)
    requires 4 <= n && T.SenderOk(s, n) && s.dvalid && s.tx.state == 9 && s.tx.zero
    ensures s.frames != [] && T.SenderNext(s, n, max, head).frames ==
            s.frames + [Frame(s.frames[|s.frames| - 1].start + 10 * n, s.din)]
  {
  }

  // ---------- nothing is left behind

  /** When the last byte taken will have been announced, if no more are taken. */
  function Deadline(s: T.Sender, n: nat): nat {
    (if T.Waiting(s) then (if s.tx.state == 15 || s.frames == [] then s.t + 1
                           else s.frames[|s.frames| - 1].start + 10 * n)
     else if s.frames == [] then 0 else s.frames[|s.frames| - 1].start)
    + 2 + n / 2 + 9 * n + 2
  }

  lemma DeadlineKept(s: T.Sender, n: nat, max: nat)
    requires 4 <= n && T.SenderOk(s, n)
    ensures Deadline(T.SenderNext(s, n, max, T.Empty), n) == Deadline(s, n)
  {
  }

  lemma AtDeadline(y: Loop, n: nat)
    requires 4 <= n && LoopOk(y, n) && y.s.t >= Deadline(y.s, n)
    ensures y.received == y.s.popped
  {
    R.PulseIsDelivery(y.s.frames, n, |y.received|, y.s.t, y.r);
    if |y.received| < |y.s.frames| { Sorted(y.s.frames, n, |y.received|, |y.s.frames| - 1); }
    if y.s.tx.state <= 9 {
      MulMonotone(y.s.tx.state, 9, n);
    }
  }

  /** Once the input FIFO stays empty, every byte taken from it is announced, at latest by the deadline. */
  lemma {:induction false} NothingLeftBehind(y: Loop, n: nat, max: nat, env: seq<Tick>)
    requires 4 <= n <= max && LoopOk(y, n)
    requires forall k :: 0 <= k < |env| ==> env[k].head.Empty?
    requires y.s.t + |env| >= Deadline(y.s, n)
    ensures var y' := Run(y, n, max, env); y'.received == y'.s.popped == y.s.popped
    decreases env
  {
    if env == [] {
      AtDeadline(y, n);
    } else {
      LoopStep(y, n, max, env[0]);
      DeadlineKept(y.s, n, max);
      NothingLeftBehind(LoopNext(y, n, max, env[0]), n, max, env[1..]);
    }
  }

  // ---------- bytes keep moving

  /** The clocks until the next byte is taken, at most. */
  function Wait(s: T.Sender, n: nat): int {
    if !s.dvalid then 1
    else if !T.Waiting(s) then 2
    else if s.tx.state == 15 || s.frames == [] then 4
    else s.frames[|s.frames| - 1].start + 10 * n - s.t + 4
  }

  lemma WaitBounded(s: T.Sender, n: nat)
    requires 4 <= n && T.SenderOk(s, n)
    ensures 1 <= Wait(s, n) <= 10 * n + 4
  {
    if s.tx.state <= 9 { MulMonotone(s.tx.state, 9, n); }
  }

  lemma WaitFalls(s: T.Sender, n: nat, max: nat, head: T.Head)
    requires 4 <= n && T.SenderOk(s, n) && head.Head?
    ensures var s' := T.SenderNext(s, n, max, head); s'.popped == s.popped + [head.byte] || Wait(s', n) < Wait(s, n)
    ensures s.popped <= T.SenderNext(s, n, max, head).popped
  {
    WaitBounded(s, n);
  }

  /** While the input FIFO holds bytes another is taken every ten bit times and four clocks at least. */
  lemma {:induction false} BytesKeepMoving(y: Loop, n: nat, max: nat, env: seq<Tick>)
    requires 4 <= n <= max && LoopOk(y, n) && |env| >= Wait(y.s, n)
    requires forall k :: 0 <= k < |env| ==> env[k].head.Head?
    ensures |Run(y, n, max, env).s.popped| > |y.s.popped|
    decreases env
  {
    WaitBounded(y.s, n);
    var y' := LoopNext(y, n, max, env[0]);
    LoopStep(y, n, max, env[0]);
    WaitFalls(y.s, n, max, env[0].head);
    if y'.s.popped == y.s.popped + [env[0].head.byte] { OnlyGrows(y', n, max, env[1..]); }
    else { BytesKeepMoving(y', n, max, env[1..]); }
  }

  lemma {:induction false} OnlyGrows(y: Loop, n: nat, max: nat, env: seq<Tick>)
    requires n > 0
    ensures |Run(y, n, max, env).s.popped| >= |y.s.popped|
    decreases env
  {
    if env != [] { OnlyGrows(LoopNext(y, n, max, env[0]), n, max, env[1..]); }
  }
}
