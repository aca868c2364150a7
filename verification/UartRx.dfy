/** The receiver uart_fifo/rtl/rxuartlite.v. */
module UartRx {
  import opened UartLine

  /** q, qq and ck are the synchroniser; `chg` counts clocks since the line last changed; state 0 to 7 are
      the data bits, 8 the stop bit, 9 waits for the line to go high and 15 is idle. */
  datatype Rx = Rx(q: bool, qq: bool, ck: bool, chg: nat, half: bool, state: nat, data: Byte,
                   baud: nat, zero: bool, wr: bool, out: Byte)

  const ZEROS: Byte := [false, false, false, false, false, false, false, false]

  predicate PowerOn(r: Rx, max: nat) {
    r.q && r.qq && r.ck && r.chg == max && !r.half && r.state == 15 && r.baud == 0 && r.zero && !r.wr && r.out == ZEROS
  }

  /** half_baud - 1 - 1 in the counters' own width. */
  function Threshold(n: nat, max: nat): int {
    if n / 2 >= 2 then n / 2 - 2 else n / 2 - 2 + max + 1
  }

  /** The middle of a start bit. */
  predicate Starts(r: Rx) { r.state == 15 && !r.ck && r.half }

  function NextState(r: Rx): nat {
    if r.state == 15 then (if !r.ck && r.half then 0 else 15)
    else if r.state >= 9 && r.ck then 15
    else if r.zero && r.state <= 8 then r.state + 1
    else r.state
  }

  function NextBaud(r: Rx, n: nat, max: nat): nat
    requires n > 0
  {
    if Starts(r) then n - 1
    else if r.state == 9 then 0
    else if r.zero && r.state < 8 then n - 1
    else if !r.zero then (if r.baud == 0 then max else r.baud - 1)
    else r.baud
  }

  predicate NextZero(r: Rx) {
    if Starts(r) then false
    else if r.state == 9 then true
    else if r.zero && r.state < 8 then false
    else r.baud == 1 || r.zero
  }

  function NextChg(r: Rx, max: nat): nat {
    if r.qq != r.ck then 0 else if r.chg != max then r.chg + 1 else r.chg
  }

  predicate Pulses(r: Rx) { r.zero && r.state == 8 && r.ck }

  function RxNext(r: Rx, n: nat, max: nat, line: bool): Rx
    requires n > 0
  {
    Rx(line, r.q, r.qq, NextChg(r, max), !r.ck && r.chg >= Threshold(n, max), NextState(r),
       if r.zero && r.state != 8 then r.data[1..] + [r.qq] else r.data,
       NextBaud(r, n, max), NextZero(r), Pulses(r), if Pulses(r) then r.data else r.out)
  }

  /** rxuartlite: one clocked block a register, every right-hand side reading the registers before the edge. */
  class RxUartLite {
    const clocksPerBaud: nat
    const max: nat
    var qUart: bool
    var qqUart: bool
    var ckUart: bool
    var chgCounter: nat
    var halfBaudTime: bool
    var state: nat
    var dataReg: Byte
    var baudCounter: nat
    var zeroBaudCounter: bool
    var oWr: bool
    var oData: Byte

    function View(): Rx
      reads this
    {
      Rx(qUart, qqUart, ckUart, chgCounter, halfBaudTime, state, dataReg, baudCounter, zeroBaudCounter, oWr, oData)
    }

    constructor (n: nat, max: nat, dataReg: Byte)
      ensures PowerOn(View(), max) && clocksPerBaud == n && this.max == max
    {
      clocksPerBaud, this.max, this.dataReg := n, max, dataReg;
      qUart, qqUart, ckUart, chgCounter, halfBaudTime := true, true, true, max, false;
      state, baudCounter, zeroBaudCounter, oWr, oData := 15, 0, true, false, ZEROS;
    }

    method Posedge(line: bool)
      requires clocksPerBaud > 0
      modifies this
      ensures View() == RxNext(old(View()), clocksPerBaud, max, line)
    {
      var r := View();
      Line(r, line);
      Captures(r);
      States(r);
      Baud(r);
    }

    method Line(r: Rx, line: bool)
      requires chgCounter == r.chg
      modifies this`qUart, this`qqUart, this`ckUart, this`chgCounter, this`halfBaudTime
      ensures ckUart == r.qq && qqUart == r.q && qUart == line && chgCounter == NextChg(r, max)
      ensures halfBaudTime == (!r.ck && r.chg >= Threshold(clocksPerBaud, max))
    {
      ckUart, qqUart, qUart := r.qq, r.q, line;
      if r.qq != r.ck { chgCounter := 0; } else if r.chg != max { chgCounter := r.chg + 1; }
      halfBaudTime := !r.ck && r.chg >= Threshold(clocksPerBaud, max);
    }

    method Captures(r: Rx)
      requires dataReg == r.data && oData == r.out
      modifies this`dataReg, this`oWr, this`oData
      ensures dataReg == if r.zero && r.state != 8 then r.data[1..] + [r.qq] else r.data
      ensures oWr == Pulses(r) && oData == if Pulses(r) then r.data else r.out
    {
      if r.zero && r.state != 8 { dataReg := r.data[1..] + [r.qq]; }
      if r.zero && r.state == 8 && r.ck { oWr, oData := true, r.data; } else { oWr := false; }
    }

    method States(r: Rx)
      requires state == r.state
      modifies this`state
      ensures state == NextState(r)
    {
      if r.state == 15 {
        state := 15;
        if !r.ck && r.half { state := 0; }
      } else if r.state >= 9 && r.ck {
        state := 15;
      } else if r.zero {
        if r.state <= 8 { state := r.state + 1; }
      }
    }

    method Baud(r: Rx)
      requires baudCounter == r.baud && zeroBaudCounter == r.zero && clocksPerBaud > 0
      modifies this`baudCounter, this`zeroBaudCounter
      ensures baudCounter == NextBaud(r, clocksPerBaud, max) && zeroBaudCounter == NextZero(r)
    {
      if r.state == 15 && !r.ck && r.half {
        baudCounter, zeroBaudCounter := clocksPerBaud - 1, false;
      } else if r.state == 9 {
        baudCounter, zeroBaudCounter := 0, true;
      } else if r.zero && r.state < 8 {
        baudCounter, zeroBaudCounter := clocksPerBaud - 1, false;
      } else {
        if !r.zero { baudCounter := if r.baud == 0 then max else r.baud - 1; }
        if r.baud == 1 { zeroBaudCounter := true; }
      }
    }
  }

  // ---------- the receiver reads any well-formed line

  /** The clock on which the middle of frame i's start bit is recognised. */
  function Found(f: seq<Frame>, n: nat, i: nat): nat
    requires i < |f|
  {
    f[i].start + 2 + n / 2
  }

  /** The clock on which frame i's byte is on o_data with o_wr high. */
  function Delivery(f: seq<Frame>, n: nat, i: nat): nat
    requires i < |f|
  {
    Found(f, n, i) + 9 * n + 1
  }

  /** The synchroniser holds the line's last three levels. */
  predicate Synced(f: seq<Frame>, n: nat, t: nat, r: Rx)
    requires n > 0
  {
    r.q == Wave(f, n, t - 1) && r.qq == Wave(f, n, t - 2) && r.ck == Wave(f, n, t - 3)
  }

  /** Waiting for frame i, if there is one. */
  predicate Hunting(f: seq<Frame>, n: nat, i: nat, t: nat, r: Rx) {
    && r.state == 15 && !r.wr
    && (i < |f| ==> t <= Found(f, n, i))
    && r.half == (i < |f| && t == Found(f, n, i))
    && (i < |f| && f[i].start + 2 < t ==> r.chg == t - f[i].start - 3)
  }

  /** c clocks into slot `state` + 1 of frame i, as the receiver counts them from the middle of the start bit. */
  predicate Sampling(f: seq<Frame>, n: nat, i: nat, t: nat, r: Rx, c: nat) {
    && i < |f| && c < n && r.state <= 8 && !r.wr
    && t == Found(f, n, i) + 1 + r.state * n + c
    && r.baud == n - 1 - c && r.zero == (c == n - 1)
    && (forall j :: 8 - r.state <= j < 8 ==> r.data[j] == f[i].byte[j - (8 - r.state)])
  }

  predicate Delivering(f: seq<Frame>, n: nat, i: nat, t: nat, r: Rx) {
    i < |f| && r.state == 9 && r.wr && r.out == f[i].byte && t == Delivery(f, n, i)
  }

  /** The receiver on clock t, with i frames delivered before it. */
  predicate RxOk(f: seq<Frame>, n: nat, i: nat, t: nat, r: Rx)
    requires n > 0
  {
    && Spaced(f, n) && i <= |f| && Synced(f, n, t, r)
    && (i > 0 ==> t > Delivery(f, n, i - 1))
    && (Hunting(f, n, i, t, r)
        || (0 <= n - 1 - r.baud && Sampling(f, n, i, t, r, n - 1 - r.baud))
        || Delivering(f, n, i, t, r))
  }

  lemma PowerOnOk(f: seq<Frame>, n: nat, max: nat, r: Rx)
    requires n >= 4 && PowerOn(r, max) && Spaced(f, n)
    ensures RxOk(f, n, 0, 0, r)
  {
    WaveHigh(f, n, 0, -1);
    WaveHigh(f, n, 0, -2);
    WaveHigh(f, n, 0, -3);
    assert f != [] ==> Found(f, n, 0) > 0;
  }

  lemma Before(f: seq<Frame>, n: nat, i: nat, t: int)
    requires Spaced(f, n) && 0 < i < |f| && t <= f[i - 1].start + 10 * n
    ensures t <= f[i].start
  {
  }

  /** While the line is idle, or before the third clock of the start bit. */
  lemma HuntStays(f: seq<Frame>, n: nat, max: nat, i: nat, t: nat, r: Rx)
    requires 4 <= n <= max && RxOk(f, n, i, t, r) && Hunting(f, n, i, t, r) && (i < |f| ==> t <= f[i].start + 2)
    ensures RxOk(f, n, i, t + 1, RxNext(r, n, max, Wave(f, n, t)))
  {
    WaveHigh(f, n, i, t - 3);
    if i < |f| && t == f[i].start + 2 {
      WaveAt(f, n, i, t - 2, 0, 0);
    }
  }

  lemma StartLow(f: seq<Frame>, n: nat, i: nat, t: nat, r: Rx)
    requires 4 <= n && Spaced(f, n) && i < |f| && Synced(f, n, t, r) && f[i].start + 2 < t <= Found(f, n, i)
    ensures !r.ck && !r.qq
  {
    WaveAt(f, n, i, t - 3, 0, t - 3 - f[i].start);
    WaveAt(f, n, i, t - 2, 0, t - 2 - f[i].start);
  }

  /** Inside the first half of the start bit the change counter runs. */
  lemma HuntCounts(f: seq<Frame>, n: nat, max: nat, i: nat, t: nat, r: Rx)
    requires 4 <= n <= max && RxOk(f, n, i, t, r) && Hunting(f, n, i, t, r)
    requires i < |f| && f[i].start + 2 < t < Found(f, n, i)
    ensures RxOk(f, n, i, t + 1, RxNext(r, n, max, Wave(f, n, t)))
  {
    StartLow(f, n, i, t, r);
    assert Hunting(f, n, i, t + 1, RxNext(r, n, max, Wave(f, n, t)));
  }

  lemma HuntEnds(f: seq<Frame>, n: nat, max: nat, i: nat, t: nat, r: Rx)
    requires 4 <= n <= max && RxOk(f, n, i, t, r) && Hunting(f, n, i, t, r) && i < |f| && t == Found(f, n, i)
    ensures RxOk(f, n, i, t + 1, RxNext(r, n, max, Wave(f, n, t)))
  {
    StartLow(f, n, i, t, r);
    var r' := RxNext(r, n, max, Wave(f, n, t));
    assert r'.state == 0 && r'.baud == n - 1 && !r'.zero && 0 * n == 0;
    assert Sampling(f, n, i, t + 1, r', 0);
  }

  lemma SampleWaits(f: seq<Frame>, n: nat, max: nat, i: nat, t: nat, r: Rx, c: nat)
    requires 4 <= n <= max && RxOk(f, n, i, t, r) && Sampling(f, n, i, t, r, c) && !r.zero
    ensures RxOk(f, n, i, t + 1, RxNext(r, n, max, Wave(f, n, t)))
  {
    assert Sampling(f, n, i, t + 1, RxNext(r, n, max, Wave(f, n, t)), c + 1);
  }

  /** A sample is taken in the middle of its bit. */
  lemma SampleIsBit(f: seq<Frame>, n: nat, i: nat, r: Rx, k: nat)
    requires 4 <= n && Spaced(f, n) && i < |f| && k < 8 && Synced(f, n, Found(f, n, i) + (k + 1) * n, r)
    ensures r.qq == f[i].byte[k]
  {
    MulMonotone(k + 1, 8, n);
    WaveAt(f, n, i, Found(f, n, i) + (k + 1) * n - 2, k + 1, n / 2);
  }

  lemma NextSlot(k: nat, n: nat)
    ensures (k + 1) * n == k * n + n
  {
  }

  lemma SampleReads(f: seq<Frame>, n: nat, i: nat, t: nat, r: Rx, c: nat)
    requires 4 <= n && Spaced(f, n) && Synced(f, n, t, r) && Sampling(f, n, i, t, r, c) && r.zero && r.state < 8
    ensures r.qq == f[i].byte[r.state] && t == Found(f, n, i) + (r.state + 1) * n
  {
    NextSlot(r.state, n);
    SampleIsBit(f, n, i, r, r.state);
  }

  lemma SampleBit(f: seq<Frame>, n: nat, max: nat, i: nat, t: nat, r: Rx, c: nat)
    requires 4 <= n <= max && RxOk(f, n, i, t, r) && Sampling(f, n, i, t, r, c) && r.zero && r.state < 8
    ensures RxOk(f, n, i, t + 1, RxNext(r, n, max, Wave(f, n, t)))
  {
    SampleReads(f, n, i, t, r, c);
    ShiftedIn(r.data, f[i].byte, r.state);
    var r' := RxNext(r, n, max, Wave(f, n, t));
    assert r'.data == r.data[1..] + [f[i].byte[r.state]];
    assert Sampling(f, n, i, t + 1, r', 0);
  }

  lemma SampleStop(f: seq<Frame>, n: nat, max: nat, i: nat, t: nat, r: Rx, c: nat)
    requires 4 <= n <= max && RxOk(f, n, i, t, r) && Sampling(f, n, i, t, r, c) && r.zero && r.state == 8
    ensures RxOk(f, n, i, t + 1, RxNext(r, n, max, Wave(f, n, t)))
  {
    WaveAt(f, n, i, t - 3, 9, n / 2 - 1);
    assert r.data == f[i].byte;
    assert Delivering(f, n, i, t + 1, RxNext(r, n, max, Wave(f, n, t)));
  }

  /** At the delivery clock the line is in the middle of the stop bit, and the next start bit is yet to be seen. */
  lemma StopHigh(f: seq<Frame>, n: nat, i: nat, r: Rx)
    requires 4 <= n && Spaced(f, n) && i < |f| && Synced(f, n, Delivery(f, n, i), r)
    ensures r.ck && (i + 1 < |f| ==> Delivery(f, n, i) + 1 <= f[i + 1].start + 2)
  {
    WaveAt(f, n, i, Delivery(f, n, i) - 3, 9, n / 2);
  }

  lemma Delivered(f: seq<Frame>, n: nat, max: nat, i: nat, t: nat, r: Rx)
    requires 4 <= n <= max && Spaced(f, n) && Synced(f, n, t, r) && Delivering(f, n, i, t, r)
    ensures RxOk(f, n, i + 1, t + 1, RxNext(r, n, max, Wave(f, n, t)))
  {
    StopHigh(f, n, i, r);
    HuntsAgain(f, n, max, i, t, r);
  }

  lemma HuntsAgain(f: seq<Frame>, n: nat, max: nat, i: nat, t: nat, r: Rx)
    requires 4 <= n <= max && Delivering(f, n, i, t, r) && r.ck && (i + 1 < |f| ==> t + 1 <= f[i + 1].start + 2)
    ensures Hunting(f, n, i + 1, t + 1, RxNext(r, n, max, Wave(f, n, t)))
  {
  }

  lemma SampleStep(f: seq<Frame>, n: nat, max: nat, i: nat, t: nat, r: Rx, c: nat)
    requires 4 <= n <= max && RxOk(f, n, i, t, r) && Sampling(f, n, i, t, r, c)
    ensures RxOk(f, n, i, t + 1, RxNext(r, n, max, Wave(f, n, t)))
  {
    if !r.zero { SampleWaits(f, n, max, i, t, r, c); }
    else if r.state < 8 { SampleBit(f, n, max, i, t, r, c); }
    else { SampleStop(f, n, max, i, t, r, c); }
  }

  lemma HuntStep(f: seq<Frame>, n: nat, max: nat, i: nat, t: nat, r: Rx)
    requires 4 <= n <= max && RxOk(f, n, i, t, r) && Hunting(f, n, i, t, r)
    ensures RxOk(f, n, i, t + 1, RxNext(r, n, max, Wave(f, n, t)))
  {
    if i == |f| || t <= f[i].start + 2 { HuntStays(f, n, max, i, t, r); }
    else if t < Found(f, n, i) { HuntCounts(f, n, max, i, t, r); }
    else { HuntEnds(f, n, max, i, t, r); }
  }

  /** One clock on any line of frames at the receiver's own rate. */
  lemma RxStep(f: seq<Frame>, n: nat, max: nat, i: nat, t: nat, r: Rx)
    requires 4 <= n <= max && RxOk(f, n, i, t, r)
    ensures RxOk(f, n, if r.wr then i + 1 else i, t + 1, RxNext(r, n, max, Wave(f, n, t)))
  {
    if Delivering(f, n, i, t, r) {
      Delivered(f, n, max, i, t, r);
    } else if Hunting(f, n, i, t, r) {
      HuntStep(f, n, max, i, t, r);
    } else {
      SampleStep(f, n, max, i, t, r, n - 1 - r.baud);
    }
  }

  /** o_wr is high on a frame's delivery clock, with its byte, and on no other. */
  lemma PulseIsDelivery(f: seq<Frame>, n: nat, i: nat, t: nat, r: Rx)
    requires 4 <= n && RxOk(f, n, i, t, r)
    ensures r.wr <==> i < |f| && t == Delivery(f, n, i)
    ensures r.wr ==> r.out == f[i].byte
    ensures i < |f| ==> t <= Delivery(f, n, i)
  {
    if r.state <= 8 { MulMonotone(r.state, 8, n); }
  }

  // ---------- on any line at all

  /** The receiver from power-on on any line, clock by clock. */
  predicate IsRun(rs: seq<Rx>, line: seq<bool>, n: nat, max: nat) {
    && n > 0 && |rs| == |line| + 1 && PowerOn(rs[0], max)
    && forall t :: 0 <= t < |line| ==> rs[t + 1] == RxNext(rs[t], n, max, line[t])
  }

  /** What has come through the synchroniser is the line three clocks ago, and high before. */
  lemma Synchronised(rs: seq<Rx>, line: seq<bool>, n: nat, max: nat, t: nat)
    requires IsRun(rs, line, n, max) && t < |rs|
    ensures rs[t].ck == if t >= 3 then line[t - 3] else true
  {
    if t >= 1 { assert rs[t - 1 + 1] == RxNext(rs[t - 1], n, max, line[t - 1]); }
    if t >= 2 { assert rs[t - 2 + 1] == RxNext(rs[t - 2], n, max, line[t - 2]); }
    if t >= 3 { assert rs[t - 3 + 1] == RxNext(rs[t - 3], n, max, line[t - 3]); }
  }

  /** Whatever the line does, no byte is announced whose stop bit was sampled low. */
  lemma NoStopBitNoByte(rs: seq<Rx>, line: seq<bool>, n: nat, max: nat, t: nat)
    requires IsRun(rs, line, n, max) && t < |line| && rs[t + 1].wr
    ensures rs[t].state == 8 && (t >= 3 ==> line[t - 3])
  {
    Synchronised(rs, line, n, max, t);
    assert rs[t + 1] == RxNext(rs[t], n, max, line[t]);
  }

  /** After a stop bit sampled low the receiver waits, and announces nothing, until the line is high again. */
  lemma {:induction false} WaitsForHigh(rs: seq<Rx>, line: seq<bool>, n: nat, max: nat, t: nat, u: nat)
    requires IsRun(rs, line, n, max) && t < u < |rs| && t >= 3
    requires rs[t].state == 8 && rs[t].zero
    requires forall v :: t - 3 <= v < u - 3 ==> !line[v]
    ensures rs[u].state == 9 && !rs[u].wr
    decreases u
  {
    Synchronised(rs, line, n, max, u - 1);
    assert rs[u - 1 + 1] == RxNext(rs[u - 1], n, max, line[u - 1]);
    if t < u - 1 { WaitsForHigh(rs, line, n, max, t, u - 1); }
  }

  /** chg counts clocks for which the synchronised line has not changed. */
  lemma {:induction false} ChgMeansStable(rs: seq<Rx>, line: seq<bool>, n: nat, max: nat, t: nat, j: nat)
    requires IsRun(rs, line, n, max) && t < |rs| && j <= t && j <= rs[t].chg
    ensures rs[t - j].ck == rs[t].ck
    decreases t
  {
    if j > 0 {
      assert rs[t - 1 + 1] == RxNext(rs[t - 1], n, max, line[t - 1]);
      ChgMeansStable(rs, line, n, max, t - 1, j - 1);
    }
  }

  /** On any line the receiver leaves idle only once the line has been low for half a bit: a shorter pulse starts
      nothing. */
  lemma GlitchesIgnored(rs: seq<Rx>, line: seq<bool>, n: nat, max: nat, t: nat)
    requires IsRun(rs, line, n, max) && 4 <= n <= max && t < |line| && rs[t].state == 15 && rs[t + 1].state != 15
    ensures t >= n / 2 + 2
    ensures forall v :: t - 2 - n / 2 <= v <= t - 3 ==> !line[v]
  {
    assert rs[t + 1] == RxNext(rs[t], n, max, line[t]);
    if t >= 1 { assert rs[t - 1 + 1] == RxNext(rs[t - 1], n, max, line[t - 1]); }
    Synchronised(rs, line, n, max, t);
    LowBefore(rs, line, n, max, t, n / 2 - 2);
    forall v | t - 2 - n / 2 <= v <= t - 3 ensures !line[v] {
      if v < t - 3 { LowBefore(rs, line, n, max, t, t - 4 - v); }
    }
  }

  lemma {:induction false} LowBefore(rs: seq<Rx>, line: seq<bool>, n: nat, max: nat, t: nat, j: nat)
    requires IsRun(rs, line, n, max) && 1 <= t < |rs| && !rs[t - 1].ck && rs[t - 1].chg >= n / 2 - 2 && j <= n / 2 - 2
    ensures t - 1 - j >= 3 && !line[t - 4 - j]
  {
    if j > 0 { LowBefore(rs, line, n, max, t, j - 1); }
    Synchronised(rs, line, n, max, t - 1);
    ChgMeansStable(rs, line, n, max, t - 1, j);
    Synchronised(rs, line, n, max, t - 1 - j);
  }
}
