/** The transmitter uart_fifo/rtl/txuartlite.v and the FIFO handshake of uart_fifo/rtl/uart_fifo.sv that
    feeds it. */
module UartTx {
  import opened UartLine

  const ONES: Byte := [true, true, true, true, true, true, true, true]

  /** state: 0 is the start bit, 1 to 8 the data bits, 9 the stop bit, 15 idle. `zero` is
      zero_baud_counter. */
  datatype Tx = Tx(state: nat, busy: bool, data: Byte, line: bool, baud: nat, zero: bool)

  const POWER_ON := Tx(15, true, ONES, true, 0, true)

  predicate Continues(r: Tx, wr: bool) { r.zero && r.state > 8 && wr }

  function NextState(r: Tx, wr: bool): nat {
    if !r.zero then r.state else if r.state > 8 then (if wr then 0 else 15) else r.state + 1
  }

  function NextData(r: Tx, wr: bool, byte: Byte): Byte {
    if (wr && !r.busy) || Continues(r, wr) then byte else if r.zero then r.data[1..] + [true] else r.data
  }

  function NextLine(r: Tx, wr: bool): bool {
    if (wr && !r.busy) || Continues(r, wr) then false else if r.zero then r.data[0] else r.line
  }

  /** The baud counter and its precomputed test for zero: `n` is CLOCKS_PER_BAUD, `max` the counter's
      largest value. */
  function NextBaud(r: Tx, n: nat, max: nat, wr: bool): (nat, bool)
    requires n > 0
  {
    if r.state == 15 then (if wr && !r.busy then (n - 1, false) else (0, true))
    else if r.zero && r.state == 9 then (if wr then (n - 1, false) else (0, true))
    else if !r.zero then (if r.baud == 0 then max else r.baud - 1, r.baud == 1)
    else (n - 1, r.baud == 1)
  }

  function TxNext(r: Tx, n: nat, max: nat, wr: bool, byte: Byte): Tx
    requires n > 0
  {
    Tx(NextState(r, wr), !r.zero || r.state <= 8, NextData(r, wr, byte), NextLine(r, wr),
       NextBaud(r, n, max, wr).0, NextBaud(r, n, max, wr).1)
  }

  /** txuartlite: four clocked blocks, every right-hand side reading the registers before the edge. */
  class TxUartLite {
    const clocksPerBaud: nat
    const max: nat
    var state: nat
    var rBusy: bool
    var lclData: Byte
    var oUartTx: bool
    var baudCounter: nat
    var zeroBaudCounter: bool

    function View(): Tx
      reads this
    {
      Tx(state, rBusy, lclData, oUartTx, baudCounter, zeroBaudCounter)
    }

    constructor (n: nat, max: nat)
      ensures View() == POWER_ON && clocksPerBaud == n && this.max == max
    {
      clocksPerBaud, this.max := n, max;
      state, rBusy, lclData, oUartTx, baudCounter, zeroBaudCounter := 15, true, ONES, true, 0, true;
    }

    method Posedge(wr: bool, byte: Byte)
      requires clocksPerBaud > 0
      modifies this
      ensures View() == TxNext(old(View()), clocksPerBaud, max, wr, byte)
    {
      var r := View();
      if !r.zero {
        rBusy := true;
      } else if r.state > 8 {
        rBusy := false;
        if wr { state := 0; } else { state := 15; }
      } else {
        rBusy, state := true, r.state + 1;
      }
      if wr && !r.busy {
        lclData, oUartTx := byte, false;
      } else if r.zero && r.state > 8 && wr {
        lclData, oUartTx := byte, false;
      } else if r.zero {
        lclData, oUartTx := r.data[1..] + [true], r.data[0];
      }
      Baud(r, wr);
    }

    method Baud(r: Tx, wr: bool)
      requires r.baud == baudCounter && clocksPerBaud > 0
      modifies this`baudCounter, this`zeroBaudCounter
      ensures (baudCounter, zeroBaudCounter) == NextBaud(r, clocksPerBaud, max, wr)
    {
      zeroBaudCounter := r.baud == 1;
      if r.state == 15 {
        baudCounter, zeroBaudCounter := 0, true;
        if wr && !r.busy { baudCounter, zeroBaudCounter := clocksPerBaud - 1, false; }
      } else if r.zero && r.state == 9 {
        if wr { baudCounter, zeroBaudCounter := clocksPerBaud - 1, false; }
        else { baudCounter, zeroBaudCounter := 0, true; }
      } else if !r.zero {
        baudCounter := if r.baud == 0 then max else r.baud - 1;
      } else {
        baudCounter := clocksPerBaud - 1;
      }
    }
  }

  // ---------- the transmitter behind its FIFO

  /** A FIFO that offers `head`, or is empty. */
  datatype Head = Empty | Head(byte: Byte)

  /** `din` is the FIFO's output register. For the proofs: the clock, the bytes read from the FIFO and the
      frames begun. */
  datatype Sender = Sender(tx: Tx, dvalid: bool, din: Byte, t: nat, popped: seq<Byte>, frames: seq<Frame>)

  predicate Rden(dvalid: bool, head: Head) { head.Head? && !dvalid }

  predicate NextDvalid(dvalid: bool, head: Head, busy: bool) {
    Rden(dvalid, head) || (dvalid && busy)
  }

  /** A byte is taken when it is valid and the transmitter is idle or at the end of a stop bit. */
  predicate Begins(s: Sender) {
    s.dvalid && s.tx.zero && (s.tx.state == 15 || s.tx.state == 9)
  }

  function SenderNext(s: Sender, n: nat, max: nat, head: Head): Sender
    requires n > 0
  {
    Sender(TxNext(s.tx, n, max, s.dvalid, s.din),
           NextDvalid(s.dvalid, head, s.tx.busy),
           if Rden(s.dvalid, head) then head.byte else s.din,
           s.t + 1,
           if Rden(s.dvalid, head) then s.popped + [head.byte] else s.popped,
           if Begins(s) then s.frames + [Frame(s.t + 1, s.din)] else s.frames)
  }

  /** Where the transmitter is in the frame that began last: c clocks into slot m. */
  predicate InSlot(s: Sender, n: nat, c: nat) {
    && s.frames != [] && c < n && s.tx.state <= 9
    && var f := s.frames[|s.frames| - 1];
       && s.t == f.start + s.tx.state * n + c
       && s.tx.baud == n - 1 - c && s.tx.zero == (c == n - 1)
       && s.tx.line == SlotBit(f.byte, s.tx.state)
       && (forall j :: 0 <= j < 8 ==> s.tx.data[j] == SlotBit(f.byte, s.tx.state + 1 + j))
       && s.tx.busy == !(s.tx.state == 0 && c == 0)
       && (s.tx.state == 0 && c == 0 && s.dvalid ==> s.din == f.byte)
  }

  predicate Idle(s: Sender, n: nat) {
    && s.tx.state == 15 && s.tx.zero && s.tx.line && s.tx.data == ONES
    && (s.tx.busy ==> !s.dvalid)
    && (s.frames != [] ==> s.frames[|s.frames| - 1].start + 10 * n <= s.t)
  }

  /** A byte out of the FIFO that has not begun its frame; during the clock after an immediate continuation
      dvalid still names the byte just begun. */
  predicate Waiting(s: Sender) {
    s.dvalid && !(s.tx.state == 0 && !s.tx.busy)
  }

  predicate SenderOk(s: Sender, n: nat) {
    && Spaced(s.frames, n)
    && (Idle(s, n) || (0 <= n - 1 - s.tx.baud && InSlot(s, n, n - 1 - s.tx.baud)))
    && s.popped == Bytes(s.frames) + (if Waiting(s) then [s.din] else [])
  }

  lemma ShiftedData(data: Byte, b: Byte, m: nat)
    requires forall j :: 0 <= j < 8 ==> data[j] == SlotBit(b, m + 1 + j)
    ensures forall j :: 0 <= j < 8 ==> (data[1..] + [true])[j] == SlotBit(b, m + 2 + j)
  {
    forall j | 0 <= j < 8 ensures (data[1..] + [true])[j] == SlotBit(b, m + 2 + j) {
      if j < 7 { assert data[j + 1] == SlotBit(b, m + 1 + (j + 1)); }
    }
  }

  lemma IdleStays(s: Sender, n: nat, max: nat, head: Head)
    requires 2 <= n && SenderOk(s, n) && s.tx.state == 15 && !s.dvalid
    ensures SenderOk(SenderNext(s, n, max, head), n)
  {
    assert ONES[1..] + [true] == ONES;
  }

  lemma IdleBegins(s: Sender, n: nat, max: nat, head: Head)
    requires 2 <= n && SenderOk(s, n) && s.tx.state == 15 && s.dvalid
    ensures SenderOk(SenderNext(s, n, max, head), n)
  {
    var s' := SenderNext(s, n, max, head);
    assert s'.frames[..|s'.frames| - 1] == s.frames;
    assert s'.tx == Tx(0, false, s.din, false, n - 1, false);
    assert InSlot(s', n, 0);
  }

  /** Within a slot only the baud counter moves. */
  lemma SlotStep(s: Sender, n: nat, max: nat, head: Head)
    requires 2 <= n && SenderOk(s, n) && s.tx.state != 15 && !s.tx.zero
    ensures SenderOk(SenderNext(s, n, max, head), n)
  {
    assert InSlot(SenderNext(s, n, max, head), n, n - s.tx.baud);
  }

  /** At the end of a slot the next bit goes out. */
  lemma NextSlotStep(s: Sender, n: nat, max: nat, head: Head)
    requires 2 <= n && SenderOk(s, n) && s.tx.state <= 8 && s.tx.zero
    ensures SenderOk(SenderNext(s, n, max, head), n)
  {
    assert (s.tx.state + 1) * n == s.tx.state * n + n;
    ShiftedData(s.tx.data, s.frames[|s.frames| - 1].byte, s.tx.state);
    assert s.tx.data[0] == SlotBit(s.frames[|s.frames| - 1].byte, s.tx.state + 1 + 0);
    assert InSlot(SenderNext(s, n, max, head), n, 0);
  }

  /** At the end of the stop bit the next byte begins at once, or the line idles. */
  lemma FrameEndStep(s: Sender, n: nat, max: nat, head: Head)
    requires 2 <= n && SenderOk(s, n) && s.tx.state == 9 && s.tx.zero
    ensures SenderOk(SenderNext(s, n, max, head), n)
  {
    var s' := SenderNext(s, n, max, head);
    if s.dvalid {
      assert s'.frames[..|s'.frames| - 1] == s.frames;
      assert s'.tx.data == s.din;
    } else {
      assert s'.tx.data == ONES;
    }
  }

  lemma SenderStep(s: Sender, n: nat, max: nat, head: Head)
    requires 2 <= n && SenderOk(s, n)
    ensures SenderOk(SenderNext(s, n, max, head), n)
  {
    if s.tx.state == 15 {
      if s.dvalid { IdleBegins(s, n, max, head); } else { IdleStays(s, n, max, head); }
    }
    else if !s.tx.zero { SlotStep(s, n, max, head); }
    else if s.tx.state <= 8 { NextSlotStep(s, n, max, head); }
    else { FrameEndStep(s, n, max, head); }
  }

  /** The wire carries exactly the frames begun. */
  lemma LineIsWave(s: Sender, n: nat)
    requires 2 <= n && SenderOk(s, n)
    ensures s.tx.line == Wave(s.frames, n, s.t)
  {
    if s.tx.state == 15 {
      WaveHigh(s.frames, n, |s.frames|, s.t);
    } else {
      WaveAt(s.frames, n, |s.frames| - 1, s.t, s.tx.state, n - 1 - s.tx.baud);
    }
  }
}
