/** The simulator's UART, verilator_utils/UARTServer.cpp: a serialiser and a deserialiser driven by simulation
    time. */
module UartServer {
  import opened UartLine

  datatype State = Idle | Data | Stop | Done

  /** tx_state, tx_start, rxc and rcnt: reads the pin. The received byte fills from the top. */
  datatype Reader = Reader(state: State, start: nat, rxc: Byte, rcnt: nat)

  /** rx_state, rx_start, txc, tcnt and *rx_pin: drives the pin. */
  datatype Writer = Writer(state: State, start: nat, txc: Byte, tcnt: nat, pin: bool)

  const ZEROS: Byte := [false, false, false, false, false, false, false, false]

  /** A state machine acts at once, or every `period` even times after it started; times here are halved. */
  predicate Due(start: nat, t: nat, period: nat)
    requires period > 0
  {
    start == 0 || t < start || (t - start) % period == 0
  }

  function ReaderNext(r: Reader, t: nat, period: nat, pin: bool): Reader
    requires period > 0
  {
    if !Due(r.start, t, period) then r
    else match r.state
      case Idle => if !pin then Reader(Data, t, r.rxc, r.rcnt) else r
      case Data => Reader(if r.rcnt + 1 == 8 then Stop else Data, r.start, r.rxc[1..] + [pin], r.rcnt + 1)
      case Stop => Reader(Idle, 0, ZEROS, 0)
      case Done => r
  }

  /** The byte put in the queue this time, if any, and whether its stop bit was low. */
  predicate Queues(r: Reader, t: nat, period: nat)
    requires period > 0
  {
    Due(r.start, t, period) && r.state == Stop
  }

  /** A byte waiting to be sent, if any. */
  datatype Waiting = None | Some(byte: Byte)

  function WriterMoves(w: Writer, t: nat, period: nat, next: Waiting): Writer
    requires period > 0
  {
    if !Due(w.start, t, period) then w
    else match w.state
      case Idle => if next.Some? then Writer(Data, t, next.byte, w.tcnt, false) else w
      case Data => Writer(if w.tcnt + 1 == 8 then Stop else Data, w.start, w.txc[1..] + [false], w.tcnt + 1, w.txc[0])
      case Stop => Writer(Done, w.start, w.txc, w.tcnt, true)
      case Done => w
  }

  /** The last thing each time: the stop bit is over one step before its period is. */
  function WriterNext(w: Writer, t: nat, period: nat, next: Waiting): Writer
    requires period > 0
  {
    var v := WriterMoves(w, t, period, next);
    if v.state == Done && v.start <= t && (t - v.start) % period == period - 1 then Writer(Idle, 0, ZEROS, 0, v.pin)
      else v
  }

  predicate Dequeues(w: Writer, t: nat, period: nat, next: Waiting)
    requires period > 0
  {
    Due(w.start, t, period) && w.state == Idle && next.Some?
  }

  /** doUARTServer (lines 24-116) on even times: its static variables are the object's fields. */
  class UartServer {
    const period: nat
    var txState: State
    var txStart: nat
    var rxc: Byte
    var rcnt: nat
    var rxState: State
    var rxStart: nat
    var txc: Byte
    var tcnt: nat
    var rxPin: bool

    function Rx(): Reader
      reads this
    {
      Reader(txState, txStart, rxc, rcnt)
    }

    function Tx(): Writer
      reads this
    {
      Writer(rxState, rxStart, txc, tcnt, rxPin)
    }

    constructor (period: nat)
      ensures this.period == period && Rx() == Reader(Idle, 0, ZEROS, 0) && Tx() == Writer(Idle, 0, ZEROS, 0, true)
    {
      this.period := period;
      txState, txStart, rxc, rcnt := Idle, 0, ZEROS, 0;
      rxState, rxStart, txc, tcnt, rxPin := Idle, 0, ZEROS, 0, true;
    }

    /** `next` is the head of the queue of bytes to send. */
    method Do(t: nat, txPin: bool, next: Waiting) returns (queued: Waiting, stopError: bool, dequeued: bool)
      requires period > 0
      modifies this
      ensures Rx() == ReaderNext(old(Rx()), t, period, txPin) && Tx() == WriterNext(old(Tx()), t, period, next)
      ensures queued == if Queues(old(Rx()), t, period) then Some(old(Rx()).rxc) else None
      ensures stopError == (Queues(old(Rx()), t, period) && !txPin) && dequeued == Dequeues(old(Tx()), t, period, next)
    {
      queued, stopError := Reads(t, txPin);
      dequeued := Writes(t, next);
    }

    /** Lines 36-72. */
    method Reads(t: nat, txPin: bool) returns (queued: Waiting, stopError: bool)
      requires period > 0
      modifies this`txState, this`txStart, this`rxc, this`rcnt
      ensures Rx() == ReaderNext(old(Rx()), t, period, txPin)
      ensures queued == if Queues(old(Rx()), t, period) then Some(old(Rx()).rxc) else None
      ensures stopError == (Queues(old(Rx()), t, period) && !txPin)
    {
      queued, stopError := None, false;
      if Due(txStart, t, period) {
        match txState {
          case Idle => if !txPin { txState, txStart := Data, t; }
          case Data =>
            rxc, rcnt := rxc[1..] + [txPin], rcnt + 1;
            if rcnt == 8 { txState := Stop; }
          case Stop =>
            if !txPin { stopError := true; }
            queued := Some(rxc);
            txState, rxc, rcnt, txStart := Idle, ZEROS, 0, 0;
          case Done =>
        }
      }
    }

    /** Lines 75-113. */
    method Writes(t: nat, next: Waiting) returns (dequeued: bool)
      requires period > 0
      modifies this`rxState, this`rxStart, this`txc, this`tcnt, this`rxPin
      ensures Tx() == WriterNext(old(Tx()), t, period, next) && dequeued == Dequeues(old(Tx()), t, period, next)
    {
      dequeued := false;
      if Due(rxStart, t, period) {
        match rxState {
          case Idle =>
            if next.Some? {
              dequeued := true;
              txc, rxPin, rxState, rxStart := next.byte, false, Data, t;
            }
          case Data =>
            rxPin := txc[0];
            txc, tcnt := txc[1..] + [false], tcnt + 1;
            if tcnt == 8 { rxState := Stop; }
          case Stop => rxPin, rxState := true, Done;
          case Done =>
        }
      }
      if rxState == Done && rxStart <= t && (t - rxStart) % period == period - 1 {
        rxState, txc, tcnt, rxStart := Idle, ZEROS, 0, 0;
      }
    }
  }

  // ---------- the serialiser writes frames

  lemma Remainder(n: nat, m: nat, c: nat, p: nat)
    requires c < n && p == m * n + c
    ensures p % n == c
  {
    SlotAt(n, m, c, p);
    assert p == p / n * n + p % n;
  }

  /** Which slot of its frame the pin is in. */
  function SlotOf(w: Writer): nat {
    if w.state == Data then w.tcnt else if w.state == Stop then 8 else 9
  }

  /** After the call at time t, c steps into the slot. */
  predicate Writing(f: seq<Frame>, n: nat, t: nat, w: Writer, c: nat) {
    && f != [] && c < n && w.state != Idle
    && var last := f[|f| - 1];
       && w.start == last.start > 0 && t == last.start + SlotOf(w) * n + c
       && (w.state == Data ==> w.tcnt <= 7) && (w.state == Stop ==> w.tcnt == 8) && (w.state == Done ==> c < n - 1)
       && w.pin == SlotBit(last.byte, SlotOf(w))
       && (forall j :: 0 <= j < 8 - w.tcnt ==> w.txc[j] == last.byte[w.tcnt + j])
       && w.tcnt <= 8
  }

  predicate WriterIdle(f: seq<Frame>, n: nat, t: nat, w: Writer) {
    w.state == Idle && w.start == 0 && w.tcnt == 0 && w.pin && (f != [] ==> f[|f| - 1].start + 10 * n <= t + 1)
  }

  ghost predicate WriterOk(f: seq<Frame>, n: nat, t: nat, w: Writer)
  {
    Spaced(f, n) && (WriterIdle(f, n, t, w) || exists c: nat :: Writing(f, n, t, w, c))
  }

  function FramesNext(f: seq<Frame>, n: nat, t: nat, w: Writer, next: Waiting): seq<Frame>
    requires n > 0
  {
    if Dequeues(w, t, n, next) then f + [Frame(t, next.byte)] else f
  }

  lemma WriterStarts(f: seq<Frame>, n: nat, t: nat, w: Writer, next: Waiting)
    requires n >= 1 && WriterOk(f, n, t, w) && WriterIdle(f, n, t, w)
    ensures WriterOk(FramesNext(f, n, t + 1, w, next), n, t + 1, WriterNext(w, t + 1, n, next))
  {
    var w', f' := WriterNext(w, t + 1, n, next), FramesNext(f, n, t + 1, w, next);
    if next.Some? {
      assert 0 * n == 0;
      assert w' == Writer(Data, t + 1, next.byte, 0, false);
      assert Writing(f', n, t + 1, w', 0);
    }
  }

  lemma WriterWaits(f: seq<Frame>, n: nat, t: nat, w: Writer, next: Waiting, c: nat)
    requires n >= 1 && WriterOk(f, n, t, w) && Writing(f, n, t, w, c) && c + 1 < n
    ensures WriterOk(FramesNext(f, n, t + 1, w, next), n, t + 1, WriterNext(w, t + 1, n, next))
  {
    Remainder(n, SlotOf(w), c + 1, t + 1 - w.start);
    var w' := WriterNext(w, t + 1, n, next);
    if w'.state != Idle { assert Writing(f, n, t + 1, w', c + 1); }
  }

  lemma Turning(n: nat, m: nat, c: nat, p: nat)
    requires c + 1 == n && p == m * n + c
    ensures p + 1 == (m + 1) * n && (p + 1) % n == 0
  {
    assert (m + 1) * n == m * n + n;
    Remainder(n, m + 1, 0, p + 1);
  }

  lemma DataTurns(f: seq<Frame>, n: nat, t: nat, w: Writer, next: Waiting, c: nat)
    requires n >= 1 && WriterOk(f, n, t, w) && Writing(f, n, t, w, c) && c + 1 == n && w.state == Data
    ensures WriterOk(FramesNext(f, n, t + 1, w, next), n, t + 1, WriterNext(w, t + 1, n, next))
  {
    Turning(n, SlotOf(w), c, t - w.start);
    var w' := WriterNext(w, t + 1, n, next);
    assert w' == Writer(if w.tcnt + 1 == 8 then Stop else Data, w.start, w.txc[1..] + [false], w.tcnt + 1, w.txc[0]);
    assert Writing(f, n, t + 1, w', 0);
  }

  lemma StopTurns(f: seq<Frame>, n: nat, t: nat, w: Writer, next: Waiting, c: nat)
    requires n >= 1 && WriterOk(f, n, t, w) && Writing(f, n, t, w, c) && c + 1 == n && w.state == Stop
    ensures WriterOk(FramesNext(f, n, t + 1, w, next), n, t + 1, WriterNext(w, t + 1, n, next))
  {
    Turning(n, SlotOf(w), c, t - w.start);
    var w' := WriterNext(w, t + 1, n, next);
    if w'.state != Idle { assert Writing(f, n, t + 1, w', 0); }
  }

  lemma WriterStep(f: seq<Frame>, n: nat, t: nat, w: Writer, next: Waiting)
    requires n >= 1 && WriterOk(f, n, t, w)
    ensures WriterOk(FramesNext(f, n, t + 1, w, next), n, t + 1, WriterNext(w, t + 1, n, next))
  {
    if WriterIdle(f, n, t, w) {
      WriterStarts(f, n, t, w, next);
    } else {
      var c: nat :| Writing(f, n, t, w, c);
      if c + 1 < n { WriterWaits(f, n, t, w, next, c); }
      else if w.state == Data { DataTurns(f, n, t, w, next, c); }
      else { StopTurns(f, n, t, w, next, c); }
    }
  }

  lemma PinIsWave(f: seq<Frame>, n: nat, t: nat, w: Writer)
    requires n >= 1 && WriterOk(f, n, t, w)
    ensures w.pin == Wave(f, n, t)
  {
    if WriterIdle(f, n, t, w) {
      WaveHigh(f, n, |f|, t);
    } else {
      var c: nat :| Writing(f, n, t, w, c);
      WaveAt(f, n, |f| - 1, t, SlotOf(w), c);
    }
  }

  // ---------- the deserialiser reads any well-formed line

  /** Before the call at time t, the line `delay` behind: waiting for frame i, if there is one. */
  predicate Waits(f: seq<Frame>, i: nat, delay: nat, t: nat, r: Reader) {
    r.state == Idle && r.start == 0 && r.rcnt == 0 && (i < |f| ==> t <= f[i].start + delay)
  }

  /** c steps after its last sample of frame i. */
  predicate Reads(f: seq<Frame>, n: nat, i: nat, delay: nat, t: nat, r: Reader, c: nat) {
    && i < |f| && c < n && (if r.rcnt == 8 then r.state == Stop else r.state == Data) && r.rcnt <= 8
    && r.start == f[i].start + delay > 0 && t == r.start + r.rcnt * n + c + 1
    && (forall j :: 8 - r.rcnt <= j < 8 ==> r.rxc[j] == f[i].byte[j - (8 - r.rcnt)])
  }

  ghost predicate ReaderOk(f: seq<Frame>, n: nat, i: nat, delay: nat, t: nat, r: Reader) {
    && Spaced(f, n) && i <= |f| && (i > 0 ==> t > f[i - 1].start + 9 * n + delay)
    && (Waits(f, i, delay, t, r) || exists c: nat :: Reads(f, n, i, delay, t, r, c))
  }

  lemma ReaderWaits(f: seq<Frame>, n: nat, i: nat, delay: nat, t: nat, r: Reader)
    requires n >= 1 && t >= 1 && ReaderOk(f, n, i, delay, t, r) && Waits(f, i, delay, t, r)
    ensures ReaderOk(f, n, i, delay, t + 1, ReaderNext(r, t, n, Wave(f, n, t - delay))) && !Queues(r, t, n)
  {
    var r' := ReaderNext(r, t, n, Wave(f, n, t - delay));
    if i < |f| && t == f[i].start + delay {
      WaveAt(f, n, i, t - delay, 0, 0);
      assert 0 * n == 0;
      assert Reads(f, n, i, delay, t + 1, r', 0);
    } else {
      WaveHigh(f, n, i, t - delay);
    }
  }

  lemma ReaderHolds(f: seq<Frame>, n: nat, i: nat, delay: nat, t: nat, r: Reader, c: nat)
    requires n >= 1 && t >= 1 && ReaderOk(f, n, i, delay, t, r) && Reads(f, n, i, delay, t, r, c) && c + 1 < n
    ensures ReaderOk(f, n, i, delay, t + 1, ReaderNext(r, t, n, Wave(f, n, t - delay))) && !Queues(r, t, n)
  {
    Remainder(n, r.rcnt, c + 1, t - r.start);
    assert Reads(f, n, i, delay, t + 1, r, c + 1);
  }

  /** A sample is taken at the very start of its bit. */
  lemma ReaderSamples(f: seq<Frame>, n: nat, i: nat, delay: nat, t: nat, r: Reader, c: nat)
    requires n >= 1 && t >= 1 && ReaderOk(f, n, i, delay, t, r) && Reads(f, n, i, delay, t, r, c) && c + 1 == n &&
             r.rcnt < 8
    ensures ReaderOk(f, n, i, delay, t + 1, ReaderNext(r, t, n, Wave(f, n, t - delay))) && !Queues(r, t, n)
  {
    var k := r.rcnt;
    Turning(n, k, c, t - 1 - r.start);
    MulMonotone(k + 1, 8, n);
    WaveAt(f, n, i, t - delay, k + 1, 0);
    ShiftedIn(r.rxc, f[i].byte, k);
    var r' := ReaderNext(r, t, n, Wave(f, n, t - delay));
    assert r' == Reader(if k + 1 == 8 then Stop else Data, r.start, r.rxc[1..] + [f[i].byte[k]], k + 1);
    assert Reads(f, n, i, delay, t + 1, r', 0);
  }

  lemma ReaderStops(f: seq<Frame>, n: nat, i: nat, delay: nat, t: nat, r: Reader, c: nat)
    requires n >= 1 && t >= 1 && ReaderOk(f, n, i, delay, t, r) && Reads(f, n, i, delay, t, r, c) && c + 1 == n &&
             r.rcnt == 8
    ensures ReaderOk(f, n, i + 1, delay, t + 1, ReaderNext(r, t, n, Wave(f, n, t - delay)))
    ensures Queues(r, t, n) && r.rxc == f[i].byte && Wave(f, n, t - delay) && t == f[i].start + delay + 9 * n
  {
    Turning(n, 8, c, t - 1 - r.start);
    WaveAt(f, n, i, t - delay, 9, 0);
    assert Waits(f, i + 1, delay, t + 1, ReaderNext(r, t, n, Wave(f, n, t - delay)));
  }

  /** One call on any line of frames at the reader's own rate. */
  lemma ReaderStep(f: seq<Frame>, n: nat, i: nat, delay: nat, t: nat, r: Reader)
    requires n >= 1 && t >= 1 && ReaderOk(f, n, i, delay, t, r)
    ensures ReaderOk(f, n, if Queues(r, t, n) then i + 1 else i, delay, t + 1,
                     ReaderNext(r, t, n, Wave(f, n, t - delay)))
    ensures Queues(r, t, n) ==> i < |f| && r.rxc == f[i].byte && Wave(f, n, t - delay)
  {
    if Waits(f, i, delay, t, r) {
      ReaderWaits(f, n, i, delay, t, r);
    } else {
      var c: nat :| Reads(f, n, i, delay, t, r, c);
      if c + 1 < n { ReaderHolds(f, n, i, delay, t, r, c); }
      else if r.rcnt < 8 { ReaderSamples(f, n, i, delay, t, r, c); }
      else { ReaderStops(f, n, i, delay, t, r, c); }
    }
  }

  // ---------- one half feeding the other

  /** A run of calls 1, 2, ...: `ws` and `rs` are the two halves before the first call and after each, and
      offers[t] is what the queue of bytes to send offers call t + 1. The reader sees the pin as it was `delay`
      calls ago, and high before the first. */
  ghost predicate IsRun(ws: seq<Writer>, rs: seq<Reader>, offers: seq<Waiting>, n: nat, delay: nat) {
    && n >= 1 && delay >= 1 && |ws| == |rs| == |offers| + 1
    && ws[0] == Writer(Idle, 0, ZEROS, 0, true) && rs[0] == Reader(Idle, 0, ZEROS, 0)
    && forall t :: 0 <= t < |offers| ==>
         ws[t + 1] == WriterNext(ws[t], t + 1, n, offers[t]) &&
           rs[t + 1] == ReaderNext(rs[t], t + 1, n, Seen(ws, t + 1 - delay))
  }

  function Seen(ws: seq<Writer>, t: int): bool { if 1 <= t < |ws| then ws[t].pin else true }

  /** The frames begun by call t, and the bytes taken from the queue for them. */
  function FramesAt(ws: seq<Writer>, offers: seq<Waiting>, n: nat, t: nat): seq<Frame>
    requires n >= 1 && t < |ws| == |offers| + 1
  {
    if t == 0 then [] else FramesNext(FramesAt(ws, offers, n, t - 1), n, t, ws[t - 1], offers[t - 1])
  }

  function PoppedAt(ws: seq<Writer>, offers: seq<Waiting>, n: nat, t: nat): seq<Byte>
    requires n >= 1 && t < |ws| == |offers| + 1
  {
    if t == 0 then []
    else PoppedAt(ws, offers, n, t - 1)
         + (if Dequeues(ws[t - 1], t, n, offers[t - 1]) then [offers[t - 1].byte] else [])
  }

  /** The bytes received by call t, and how many of them had a low stop bit. */
  function ReceivedAt(rs: seq<Reader>, n: nat, t: nat): seq<Byte>
    requires n >= 1 && t < |rs|
  {
    if t == 0 then [] else ReceivedAt(rs, n, t - 1) + (if Queues(rs[t - 1], t, n) then [rs[t - 1].rxc] else [])
  }

  function ErrorsAt(ws: seq<Writer>, rs: seq<Reader>, n: nat, delay: nat, t: nat): nat
    requires n >= 1 && t < |rs|
  {
    if t == 0 then 0
    else ErrorsAt(ws, rs, n, delay, t - 1) + (if Queues(rs[t - 1], t, n) && !Seen(ws, t - delay) then 1 else 0)
  }

  lemma {:induction false} PoppedAreFrames(ws: seq<Writer>, offers: seq<Waiting>, n: nat, t: nat)
    requires n >= 1 && t < |ws| == |offers| + 1
    ensures PoppedAt(ws, offers, n, t) == Bytes(FramesAt(ws, offers, n, t))
  {
    if t > 0 {
      PoppedAreFrames(ws, offers, n, t - 1);
      var f := FramesAt(ws, offers, n, t - 1);
      if Dequeues(ws[t - 1], t, n, offers[t - 1]) { assert (f + [Frame(t, offers[t - 1].byte)])[..|f|] == f; }
    }
  }

  lemma {:induction false} WriterInEveryRun(ws: seq<Writer>, rs: seq<Reader>, offers: seq<Waiting>, n: nat,
                                            delay: nat, t: nat)
    requires IsRun(ws, rs, offers, n, delay) && t < |ws|
    ensures WriterOk(FramesAt(ws, offers, n, t), n, t, ws[t])
  {
    if t == 0 {
      assert WriterIdle([], n, 0, ws[0]);
    } else {
      WriterInEveryRun(ws, rs, offers, n, delay, t - 1);
      WriterStep(FramesAt(ws, offers, n, t - 1), n, t - 1, ws[t - 1], offers[t - 1]);
    }
  }

  lemma WaveGrows(f: seq<Frame>, g: Frame, n: nat, t: int)
    requires n >= 1 && t < g.start
    ensures Wave(f + [g], n, t) == Wave(f, n, t)
  {
    assert (f + [g])[..|f|] == f;
  }

  /** The frames begun later do not change the line so far: all along, it carries the frames of the whole run. */
  lemma {:induction false} WaveKept(ws: seq<Writer>, offers: seq<Waiting>, n: nat, t: nat, last: nat)
    requires n >= 1 && t <= last < |ws| == |offers| + 1
    ensures Wave(FramesAt(ws, offers, n, last), n, t) == Wave(FramesAt(ws, offers, n, t), n, t)
    decreases last
  {
    if t < last {
      WaveKept(ws, offers, n, t, last - 1);
      if offers[last - 1].Some? {
        WaveGrows(FramesAt(ws, offers, n, last - 1), Frame(last, offers[last - 1].byte), n, t);
      }
    }
  }

  lemma {:induction false} FramesStart(ws: seq<Writer>, offers: seq<Waiting>, n: nat, t: nat)
    requires n >= 1 && t < |ws| == |offers| + 1
    ensures forall k :: 0 <= k < |FramesAt(ws, offers, n, t)| ==> 1 <= FramesAt(ws, offers, n, t)[k].start <= t
  {
    if t > 0 { FramesStart(ws, offers, n, t - 1); }
  }

  lemma SeenIsWave(ws: seq<Writer>, rs: seq<Reader>, offers: seq<Waiting>, n: nat, delay: nat, t: int, last: nat)
    requires IsRun(ws, rs, offers, n, delay) && t <= last < |ws|
    ensures Seen(ws, t) == Wave(FramesAt(ws, offers, n, last), n, t)
  {
    if t >= 1 {
      WriterInEveryRun(ws, rs, offers, n, delay, t);
      PinIsWave(FramesAt(ws, offers, n, t), n, t, ws[t]);
      WaveKept(ws, offers, n, t, last);
    } else {
      WriterInEveryRun(ws, rs, offers, n, delay, last);
      FramesStart(ws, offers, n, last);
      WaveHigh(FramesAt(ws, offers, n, last), n, 0, t);
    }
  }

  /** What one call of the reader adds to the bytes received. */
  lemma ReaderGets(f: seq<Frame>, n: nat, delay: nat, t: nat, r: Reader, r': Reader, pin: bool, got: seq<Byte>,
                   got': seq<Byte>)
    requires n >= 1 && t >= 1 && Prefix(f, got) && ReaderOk(f, n, |got|, delay, t, r)
    requires pin == Wave(f, n, t - delay) && r' == ReaderNext(r, t, n, pin) &&
             got' == got + (if Queues(r, t, n) then [r.rxc] else [])
    ensures Prefix(f, got') && ReaderOk(f, n, |got'|, delay, t + 1, r') && (Queues(r, t, n) ==> pin)
  {
    ReaderStep(f, n, |got|, delay, t, r);
    assert |got'| == if Queues(r, t, n) then |got| + 1 else |got|;
  }

  predicate Prefix(f: seq<Frame>, got: seq<Byte>) { |got| <= |f| && got == Bytes(f)[..|got|] }

  lemma ReaderStarts(f: seq<Frame>, n: nat, delay: nat, r: Reader)
    requires Spaced(f, n) && r == Reader(Idle, 0, ZEROS, 0) && delay >= 1 && (f != [] ==> f[0].start >= 1)
    ensures ReaderOk(f, n, 0, delay, 1, r)
  {
  }

  /** Against the frames of the whole run, the reader has received the first of them, and is in step with the
      next. */
  lemma {:induction false} ReaderInEveryRun(ws: seq<Writer>, rs: seq<Reader>, offers: seq<Waiting>, n: nat,
                                            delay: nat, t: nat, last: nat)
    requires IsRun(ws, rs, offers, n, delay) && t <= last < |ws|
    ensures var f, got := FramesAt(ws, offers, n, last), ReceivedAt(rs, n, t);
      ReaderOk(f, n, |got|, delay, t + 1, rs[t]) && Prefix(f, got)
  {
    if t == 0 {
      WriterInEveryRun(ws, rs, offers, n, delay, last);
      FramesStart(ws, offers, n, last);
      ReaderStarts(FramesAt(ws, offers, n, last), n, delay, rs[0]);
    } else {
      ReaderInEveryRun(ws, rs, offers, n, delay, t - 1, last);
      ReaderCall(ws, rs, offers, n, delay, t, last);
    }
  }

  lemma ReaderCall(ws: seq<Writer>, rs: seq<Reader>, offers: seq<Waiting>, n: nat, delay: nat, t: nat, last: nat)
    requires IsRun(ws, rs, offers, n, delay) && 1 <= t <= last < |ws|
    requires var f, got := FramesAt(ws, offers, n, last), ReceivedAt(rs, n, t - 1);
      ReaderOk(f, n, |got|, delay, t, rs[t - 1]) && Prefix(f, got)
    ensures var f, got := FramesAt(ws, offers, n, last), ReceivedAt(rs, n, t);
      ReaderOk(f, n, |got|, delay, t + 1, rs[t]) && Prefix(f, got) && (Queues(rs[t - 1], t, n) ==> Seen(ws, t - delay))
  {
    var f := FramesAt(ws, offers, n, last);
    SeenIsWave(ws, rs, offers, n, delay, t - delay, last);
    ReaderGets(f, n, delay, t, rs[t - 1], rs[t], Seen(ws, t - delay), ReceivedAt(rs, n, t - 1), ReceivedAt(rs, n, t));
  }

  lemma StopBitHigh(ws: seq<Writer>, rs: seq<Reader>, offers: seq<Waiting>, n: nat, delay: nat, t: nat)
    requires IsRun(ws, rs, offers, n, delay) && 1 <= t < |ws|
    ensures Queues(rs[t - 1], t, n) ==> Seen(ws, t - delay)
  {
    ReaderInEveryRun(ws, rs, offers, n, delay, t - 1, t);
    ReaderCall(ws, rs, offers, n, delay, t, t);
  }

  lemma {:induction false} NoStopErrors(ws: seq<Writer>, rs: seq<Reader>, offers: seq<Waiting>, n: nat, delay: nat,
                                        t: nat)
    requires IsRun(ws, rs, offers, n, delay) && t < |ws|
    ensures ErrorsAt(ws, rs, n, delay, t) == 0
  {
    if t > 0 {
      NoStopErrors(ws, rs, offers, n, delay, t - 1);
      StopBitHigh(ws, rs, offers, n, delay, t);
    }
  }

  /** For every period, every delay and every pattern of gaps between bytes: the bytes received are the bytes
      taken from the queue, in order and each once, with no stop-bit error; and all of them once nine bit times
      and the delay have passed since the last began. */
  lemma RoundTrip(ws: seq<Writer>, rs: seq<Reader>, offers: seq<Waiting>, n: nat, delay: nat, t: nat)
    requires IsRun(ws, rs, offers, n, delay) && t < |ws|
    ensures var popped, received := PoppedAt(ws, offers, n, t), ReceivedAt(rs, n, t);
      && received <= popped && ErrorsAt(ws, rs, n, delay, t) == 0
      && var f := FramesAt(ws, offers, n, t); (f != [] && t >= f[|f| - 1].start + 9 * n + delay ==> received == popped)
  {
    PoppedAreFrames(ws, offers, n, t);
    ReaderInEveryRun(ws, rs, offers, n, delay, t, t);
    NoStopErrors(ws, rs, offers, n, delay, t);
    var f, got := FramesAt(ws, offers, n, t), ReceivedAt(rs, n, t);
    if f != [] && t >= f[|f| - 1].start + 9 * n + delay { AllReceived(f, n, delay, t, rs[t], |got|); }
  }

  lemma AllReceived(f: seq<Frame>, n: nat, delay: nat, t: nat, r: Reader, i: nat)
    requires n >= 1 && ReaderOk(f, n, i, delay, t + 1, r) && f != [] && t >= f[|f| - 1].start + 9 * n + delay
    ensures i == |f|
  {
    if i < |f| {
      Sorted(f, n, i, |f| - 1);
      var c: nat :| Waits(f, i, delay, t + 1, r) || Reads(f, n, i, delay, t + 1, r, c);
      MulMonotone(r.rcnt, 8, n);
    }
  }

  /** A byte on offer is taken as soon as the last frame's ten bit times are over. */
  lemma NoByteWaits(ws: seq<Writer>, rs: seq<Reader>, offers: seq<Waiting>, n: nat, delay: nat, t: nat)
    requires IsRun(ws, rs, offers, n, delay) && t < |offers| && offers[t].Some?
    requires var f := FramesAt(ws, offers, n, t); f == [] || f[|f| - 1].start + 10 * n <= t + 1
    ensures PoppedAt(ws, offers, n, t + 1) == PoppedAt(ws, offers, n, t) + [offers[t].byte]
  {
    WriterInEveryRun(ws, rs, offers, n, delay, t);
    var f := FramesAt(ws, offers, n, t);
    if !WriterIdle(f, n, t, ws[t]) {
      var c: nat :| Writing(f, n, t, ws[t], c);
      MulMonotone(SlotOf(ws[t]), 9, n);
    }
  }
}
