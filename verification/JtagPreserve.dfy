/** Every cycle of the PHY and its target keeps the invariant of JtagSystem. */
module JtagPreserve {
  import opened Tap
  import opened JtagPhy
  import opened JtagSystem

  lemma BitsFirst(stream: seq<Packet>, i: nat, from: nat)
    requires WellFormed(stream, i) && i < |stream| && Olen(stream[i]) != 0 && from < Olen(stream[i])
    ensures Bits(stream, i, from) == [Shifted(stream[i].cmd.ir, Bit(stream, i, from))] + Bits(stream, i, from + 1)
  {
  }

  /** The registers with no command in hand and no packet out of the FIFO. */
  lemma QuietStep(r: Regs, i: In)
    requires |r.dout| == BUF_SZ && !r.pending && !r.busy && !r.reqBlocked && !r.respBlocked && !r.dvalid
    requires r.nstate == (if r.state == LOGIC_RESET then LOGIC_RESET else RUNTEST_IDLE)
    ensures r.state.lo == LIdle ==> Step(r, i) == r.(dvalid := !i.empty)
    ensures r.state.lo == LExit1 ==> Step(r, i) == r.(dvalid := !i.empty, state := St(r.state.ir, LUpdate), tms := true)
    ensures r.state.lo == LUpdate ==> Step(r, i) == r.(dvalid := !i.empty, state := RUNTEST_IDLE, tms := false)
    ensures r.state.lo == LShift && r.ctr + 1 == r.olen < 4096 && !(r.cmd.read && i.full) ==>
      Step(r, i) == r.(dvalid := !i.empty, state := St(r.state.ir, LExit1), tms := true,
                       tdi := r.dout[0], dout := ShiftedOut(r), ctr := r.olen)
  {
  }

  lemma QuietIdles(stream: seq<Packet>, y: Sys, arrived: nat, r': Regs, take: bool, total: seq<Event>)
    requires QuietInv(stream, y, total) && !y.r.dvalid && y.arrived <= arrived <= |stream|
    requires take == (y.rdIdx != y.arrived) && y.r.state.lo == LIdle && r' == y.r.(dvalid := take)
    ensures QuietInv(stream, Settle(stream, y, arrived, r', take, y.ci, y.pk), total)
  {
  }

  lemma QuietUpdates(stream: seq<Packet>, y: Sys, arrived: nat, r': Regs, take: bool, total: seq<Event>)
    requires QuietInv(stream, y, total) && !y.r.dvalid && y.arrived <= arrived <= |stream|
    requires take == (y.rdIdx != y.arrived) && y.r.state.lo == LUpdate
    requires r' == y.r.(dvalid := take, state := RUNTEST_IDLE, tms := false)
    ensures QuietInv(stream, Settle(stream, y, arrived, r', take, y.ci, y.pk), total)
  {
  }

  lemma QuietExits(stream: seq<Packet>, y: Sys, arrived: nat, r': Regs, take: bool, total: seq<Event>)
    requires QuietInv(stream, y, total) && !y.r.dvalid && y.arrived <= arrived <= |stream|
    requires take == (y.rdIdx != y.arrived) && y.r.state.lo == LExit1
    requires r' == y.r.(dvalid := take, state := St(y.r.state.ir, LUpdate), tms := true)
    ensures QuietInv(stream, Settle(stream, y, arrived, r', take, y.ci, y.pk), total)
  {
    var ir := y.r.state.ir;
    var y' := Settle(stream, y, arrived, r', take, y.ci, y.pk);
    ExitIsQuiet(stream, y, arrived, r', take);
    assert y'.log + Owed(r') == y.log + Owed(y.r);
  }

  lemma ExitIsQuiet(stream: seq<Packet>, y: Sys, arrived: nat, r': Regs, take: bool)
    requires Common(stream, y) && Quiet(stream, y) && !y.r.dvalid && y.arrived <= arrived <= |stream|
    requires take == (y.rdIdx != y.arrived) && y.r.state.lo == LExit1
    requires r' == y.r.(dvalid := take, state := St(y.r.state.ir, LUpdate), tms := true)
    ensures var y' := Settle(stream, y, arrived, r', take, y.ci, y.pk);
      && Common(stream, y') && Quiet(stream, y') && y'.ci == y.ci && y'.r == r'
      && y'.log == y.log + [Updated(y.r.state.ir)] && Owed(y.r) == [Updated(y.r.state.ir)] && Owed(r') == []
  {
  }

  lemma QuietLastBit(stream: seq<Packet>, y: Sys, arrived: nat, r': Regs, take: bool, total: seq<Event>)
    requires QuietInv(stream, y, total) && !y.r.dvalid && y.arrived <= arrived <= |stream|
    requires take == (y.rdIdx != y.arrived) && y.r.state.lo == LShift
    requires r' == y.r.(dvalid := take, state := St(y.r.state.ir, LExit1), tms := true,
                        tdi := y.r.dout[0], dout := r'.dout, ctr := r'.ctr) && |r'.dout| == BUF_SZ && r'.ctr < 4096
    ensures QuietInv(stream, Settle(stream, y, arrived, r', take, y.ci, y.pk), total)
  {
    var ir := y.r.state.ir;
    var y' := Settle(stream, y, arrived, r', take, y.ci, y.pk);
    assert y'.log == y.log + [Shifted(ir, y.r.dout[0])];
    assert Owed(y.r) == [Shifted(ir, y.r.dout[0])] + Owed(r');
  }

  lemma StayQuiet(stream: seq<Packet>, y: Sys, full: bool, ilen: nat, arrived: nat, total: seq<Event>)
    requires Roomy(stream, full)
    requires QuietInv(stream, y, total) && !y.r.dvalid && y.arrived <= arrived <= |stream|
    ensures QuietInv(stream, Cycle(stream, y, full, ilen, arrived), total)
  {
    var i := Input(y, full, ilen);
    QuietStep(y.r, i);
    match y.r.state.lo
    case LIdle => QuietIdles(stream, y, arrived, Step(y.r, i), Rden(y.r, i), total);
    case LUpdate => QuietUpdates(stream, y, arrived, Step(y.r, i), Rden(y.r, i), total);
    case LExit1 => QuietExits(stream, y, arrived, Step(y.r, i), Rden(y.r, i), total);
    case LShift => QuietLastBit(stream, y, arrived, Step(y.r, i), Rden(y.r, i), total);
    case _ =>
  }

  /** The state and TMS a clock edge leads to from `r` when its target state is Run-Test/Idle (or the reset
      state has not been left). */
  function Homeward(r: Regs): (St, bool) {
    match r.state.lo
    case LUpdate => (RUNTEST_IDLE, false)
    case LExit1 => (St(r.state.ir, LUpdate), true)
    case _ => (r.state, r.tms)
  }

  /** The registers when the next command's first packet goes into them. */
  function Loaded(r: Regs, p: Packet): Regs {
    var (s, t) := Homeward(r);
    r.(state := s, tms := t, busy := true, dvalid := false, pending := true, cmd := p.cmd, olen := Olen(p),
       dout := p.data, ctr := 0, nstate := if p.len == 0 then RUNTEST_IDLE else ShiftOf(p.cmd))
  }

  lemma FreshStep(r: Regs, i: In)
    requires |r.dout| == BUF_SZ && !r.pending && !r.busy && !r.reqBlocked && !r.respBlocked && r.dvalid
    requires r.nstate == (if r.state == LOGIC_RESET then LOGIC_RESET else RUNTEST_IDLE)
    requires r.state.lo == LIdle || r.state.lo == LExit1 || r.state.lo == LUpdate
    requires Olen(i.rd) < 4096 && (i.rd.cmd.read ==> i.rd.len > 0)
    ensures Step(r, i) == Loaded(r, i.rd)
  {
  }

  lemma FreshWalks(stream: seq<Packet>, y: Sys, arrived: nat, total: seq<Event>)
    requires QuietInv(stream, y, total) && y.r.dvalid && y.arrived <= arrived <= |stream| && Olen(y.rd) == 0
    ensures WalkInv(stream, Settle(stream, y, arrived, Loaded(y.r, y.rd), false, y.ci, 1), total)
  {
    FreshIsWalking(stream, y, arrived);
  }

  lemma FreshIsWalking(stream: seq<Packet>, y: Sys, arrived: nat)
    requires Common(stream, y) && Quiet(stream, y) && y.r.dvalid && y.arrived <= arrived <= |stream| && Olen(y.rd) == 0
    ensures var y' := Settle(stream, y, arrived, Loaded(y.r, y.rd), false, y.ci, 1);
      Common(stream, y') && Walking(stream, y') && y'.log == y.log + Owed(y.r) && y'.ci == y.ci
  {
  }

  /** A packet's data is the 64 bits it is for. */
  lemma PacketBits(stream: seq<Packet>, i: nat, p: nat, d: seq<bool>)
    requires WellFormed(stream, i) && i < |stream| && Olen(stream[i]) != 0
    requires p < FetchCount(Olen(stream[i]), stream[i].cmd.ext) && d == stream[i + p].data
    ensures forall j :: 0 <= j < 64 ==> d[j] == Bit(stream, i, 64 * p + j)
  {
    forall j | 0 <= j < 64 ensures d[j] == Bit(stream, i, 64 * p + j) {
      assert (64 * p + j) / 64 == p && (64 * p + j) % 64 == j;
    }
  }

  lemma FreshIsWriting(stream: seq<Packet>, y: Sys, arrived: nat)
    requires Common(stream, y) && Quiet(stream, y) && y.r.dvalid && y.arrived <= arrived <= |stream| && Olen(y.rd) != 0
    ensures var y' := Settle(stream, y, arrived, Loaded(y.r, y.rd), false, y.ci, 1);
      Common(stream, y') && Writing(stream, y') && DoutOk(stream, y') && Going(y'.r, 1) && y'.log == y.log + Owed(y.r)
  {
    PacketBits(stream, y.ci, 0, y.rd.data);
  }

  lemma FreshWrites(stream: seq<Packet>, y: Sys, arrived: nat, total: seq<Event>)
    requires QuietInv(stream, y, total) && y.r.dvalid && y.arrived <= arrived <= |stream| && Olen(y.rd) != 0
    ensures WriteInv(stream, Settle(stream, y, arrived, Loaded(y.r, y.rd), false, y.ci, 1), total)
  {
    FreshIsWriting(stream, y, arrived);
    TotalFirst(stream, y.ci);
    var y' := Settle(stream, y, arrived, Loaded(y.r, y.rd), false, y.ci, 1);
    assert y'.log + Rest(stream, y') + Total(stream, Next(stream, y.ci)) ==
           y.log + Owed(y.r) + (Rest(stream, y') + Total(stream, Next(stream, y.ci)));
  }

  lemma TotalFirst(stream: seq<Packet>, i: nat)
    requires WellFormed(stream, i) && i < |stream| && Olen(stream[i]) != 0
    ensures Total(stream, i) ==
      [Captured(stream[i].cmd.ir)] + Bits(stream, i, 0) + [Updated(stream[i].cmd.ir)] + Total(stream, Next(stream, i))
  {
  }

  lemma LatchFirst(stream: seq<Packet>, y: Sys, full: bool, ilen: nat, arrived: nat, total: seq<Event>)
    requires Roomy(stream, full)
    requires QuietInv(stream, y, total) && y.r.dvalid && y.arrived <= arrived <= |stream|
    ensures var y' := Cycle(stream, y, full, ilen, arrived);
      if Olen(y.rd) == 0 then WalkInv(stream, y', total) else WriteInv(stream, y', total)
  {
    FreshStep(y.r, Input(y, full, ilen));
    if Olen(y.rd) == 0 { FreshWalks(stream, y, arrived, total); } else { FreshWrites(stream, y, arrived, total); }
  }

  // ---------- length-0 commands

  /** While TMS is held, Test-Logic-Reset stays put under 1 and Run-Test/Idle and Shift-xR under 0. */
  lemma {:induction false} Held(c: Cmd, t: Tap, a: nat, b: nat)
    requires a <= b && forall k, tms :: a <= k < b ==> SequenceTms(c, k, tms) == tms
    ensures SequenceTmsAt(c, b) == SequenceTmsAt(c, a)
    ensures SequenceTap(c, t, a) == TestLogicReset && SequenceTmsAt(c, a) ==> SequenceTap(c, t, b) == TestLogicReset
    ensures SequenceTap(c, t, a) == RunTestIdle && !SequenceTmsAt(c, a) ==> SequenceTap(c, t, b) == RunTestIdle
    decreases b
  {
    if a < b {
      Held(c, t, a, b - 1);
      assert SequenceTms(c, b - 1, SequenceTmsAt(c, b - 1)) == SequenceTmsAt(c, b - 1);
    }
  }

  /** Five clocks with TMS high reset the TAP wherever it was. */
  lemma FiveOnes(t: Tap)
    ensures TapNext(TapNext(TapNext(TapNext(TapNext(t, true), true), true), true), true) == TestLogicReset
  {
  }

  lemma Opening(c: Cmd, t: Tap)
    requires c != CMD_FLUSH
    ensures !SequenceTmsAt(c, 9) && SequenceTmsAt(c, 15) && SequenceTap(c, t, 15) == TestLogicReset
  {
    Held(c, t, 0, 9);
    assert SequenceTmsAt(c, 10);
    Held(c, t, 10, 15);
    assert SequenceTmsAt(c, 11) && SequenceTmsAt(c, 12) && SequenceTmsAt(c, 13) && SequenceTmsAt(c, 14) by {
      Held(c, t, 10, 11); Held(c, t, 10, 12); Held(c, t, 10, 13); Held(c, t, 10, 14);
    }
    FiveOnes(SequenceTap(c, t, 10));
    assert SequenceTap(c, t, 15) == TapNext(SequenceTap(c, t, 14), true);
    assert SequenceTap(c, t, 14) == TapNext(SequenceTap(c, t, 13), true);
    assert SequenceTap(c, t, 13) == TapNext(SequenceTap(c, t, 12), true);
    assert SequenceTap(c, t, 12) == TapNext(SequenceTap(c, t, 11), true);
    assert SequenceTap(c, t, 11) == TapNext(SequenceTap(c, t, 10), true);
  }

  /** RESET resynchronises: whatever TAP state the target is in, it is reset and left in Run-Test/Idle. */
  lemma ResetResynchronises(t: Tap)
    ensures SequenceTap(CMD_RESET, t, 15) == TestLogicReset
    ensures SequenceTap(CMD_RESET, t, 18) == RunTestIdle && !SequenceTmsAt(CMD_RESET, 18)
  {
    Opening(CMD_RESET, t);
    Held(CMD_RESET, t, 15, 17);
    assert SequenceTmsAt(CMD_RESET, 18) == false;
  }

  /** A reset pulse inside the switch sequence: TMS low at a, high at b, low again at e. */
  lemma Pulse(c: Cmd, t: Tap, b: nat, e: nat)
    requires SequenceTap(c, t, b) == RunTestIdle && b + 3 <= e
    requires SequenceTms(c, b, false) && SequenceTms(c, b, true)
    requires forall k, tms :: b < k < e ==> SequenceTms(c, k, tms) == tms
    requires !SequenceTms(c, e, true)
    ensures SequenceTap(c, t, e) == TestLogicReset
    ensures SequenceTap(c, t, e + 1) == RunTestIdle && !SequenceTmsAt(c, e + 1)
  {
    assert SequenceTmsAt(c, b + 1);
    Held(c, t, b + 1, b + 2);
    Held(c, t, b + 1, b + 3);
    assert SequenceTap(c, t, b + 1) == SelectScan(false);
    assert SequenceTap(c, t, b + 2) == SelectScan(true);
    Held(c, t, b + 3, e);
  }

  /** Every length-0 command ends with the target back in Run-Test/Idle. */
  lemma SequenceEndsIdle(c: Cmd)
    ensures SequenceTap(c, RunTestIdle, SequenceEnd(c)) == RunTestIdle && !SequenceTmsAt(c, SequenceEnd(c))
  {
    var t := RunTestIdle;
    if c == CMD_FLUSH {
      Held(c, t, 0, 8);
    } else if c == CMD_RESET {
      ResetResynchronises(t);
    } else {
      Held(c, t, 0, 9);
      Pulse(c, t, 9, 69);
      Held(c, t, 70, 71);
      Pulse(c, t, 71, 75);
      Held(c, t, 76, 77);
      Pulse(c, t, 77, 80);
      Held(c, t, 81, 82);
      Pulse(c, t, 82, 94);
    }
  }

  lemma WalkStep(r: Regs, i: In)
    requires |r.dout| == BUF_SZ && r.pending && r.busy && !r.dvalid && !r.reqBlocked && !r.respBlocked
    requires r.olen == 0 && r.nstate == RUNTEST_IDLE
    ensures r.state == RUNTEST_IDLE && r.ctr <= SequenceEnd(r.cmd) ==>
      Step(r, i) == r.(tms := SequenceTms(r.cmd, r.ctr, r.tms), ctr := r.ctr + 1,
                       busy := r.ctr != SequenceEnd(r.cmd), pending := r.ctr != SequenceEnd(r.cmd))
    ensures (r.state == LOGIC_RESET && r.tms) || r.state.lo == LUpdate ==>
            Step(r, i) == r.(state := RUNTEST_IDLE, tms := false)
  {
  }

  /** The states a length-0 command takes the target through. */
  predicate Silent(t: Tap) {
    t.RunTestIdle? || t.SelectScan? || t.TestLogicReset?
  }

  lemma StaysReset(c: Cmd, t: Tap, a: nat, b: nat)
    requires a <= b && SequenceTap(c, t, a) == TestLogicReset && SequenceTmsAt(c, a)
    requires forall k, tms :: a <= k < b ==> SequenceTms(c, k, tms) == tms
    ensures SequenceTap(c, t, b) == TestLogicReset
  {
    Held(c, t, a, b);
  }

  lemma PulseStates(c: Cmd, b: nat, e: nat, k: nat)
    requires SequenceTap(c, RunTestIdle, b) == RunTestIdle && b + 3 <= e && b <= k <= e
    requires SequenceTms(c, b, false) && SequenceTms(c, b, true)
    requires forall k, tms :: b < k < e ==> SequenceTms(c, k, tms) == tms
    ensures Silent(SequenceTap(c, RunTestIdle, k))
  {
    var t := RunTestIdle;
    assert SequenceTmsAt(c, b + 1);
    Held(c, t, b + 1, b + 2);
    Held(c, t, b + 1, b + 3);
    assert SequenceTap(c, t, b + 1) == SelectScan(false);
    assert SequenceTap(c, t, b + 2) == SelectScan(true);
    if k >= b + 3 {
      assert SequenceTap(c, t, b + 3) == TestLogicReset && SequenceTmsAt(c, b + 3);
      StaysReset(c, t, b + 3, k);
    }
  }

  lemma WalkStates(c: Cmd, k: nat)
    requires k <= SequenceEnd(c)
    ensures Silent(SequenceTap(c, RunTestIdle, k))
  {
    var t := RunTestIdle;
    if k <= 9 {
      Held(c, t, 0, k);
    } else {
      Held(c, t, 0, 9);
      if c == CMD_RESET {
        if k <= 17 { PulseStates(c, 9, 17, k); } else { ResetResynchronises(t); }
      } else {
        Pulse(c, t, 9, 69);
        LongWalkStates(c, k);
      }
    }
  }

  lemma LongWalkStates(c: Cmd, k: nat)
    requires 9 <= k <= 95 && c != CMD_RESET && c != CMD_FLUSH
    requires SequenceTap(c, RunTestIdle, 9) == RunTestIdle
    requires SequenceTap(c, RunTestIdle, 70) == RunTestIdle && !SequenceTmsAt(c, 70)
    ensures Silent(SequenceTap(c, RunTestIdle, k))
  {
    var t := RunTestIdle;
    Held(c, t, 70, 71);
    Pulse(c, t, 71, 75);
    if k <= 69 { PulseStates(c, 9, 69, k); }
    else if k <= 71 { }
    else if k <= 75 { PulseStates(c, 71, 75, k); }
    else { LastPulses(c, k); }
  }

  lemma LastPulses(c: Cmd, k: nat)
    requires 76 <= k <= 95 && c != CMD_RESET && c != CMD_FLUSH
    requires SequenceTap(c, RunTestIdle, 76) == RunTestIdle && !SequenceTmsAt(c, 76)
    ensures Silent(SequenceTap(c, RunTestIdle, k))
  {
    var t := RunTestIdle;
    Held(c, t, 76, 77);
    Pulse(c, t, 77, 80);
    Held(c, t, 81, 82);
    Pulse(c, t, 82, 94);
    if k <= 77 { }
    else if k <= 80 { PulseStates(c, 77, 80, k); }
    else if k <= 82 { }
    else if k <= 94 { PulseStates(c, 82, 94, k); }
  }

  lemma WalkEnters(stream: seq<Packet>, y: Sys, arrived: nat, total: seq<Event>)
    requires WalkInv(stream, y, total) && y.arrived <= arrived <= |stream| && y.r.state != RUNTEST_IDLE
    ensures WalkInv(stream, Settle(stream, y, arrived, y.r.(state := RUNTEST_IDLE, tms := false), false, y.ci, y.pk),
                    total)
  {
  }

  lemma WalkMoves(stream: seq<Packet>, y: Sys, arrived: nat, r': Regs, total: seq<Event>)
    requires WalkInv(stream, y, total) && y.arrived <= arrived <= |stream|
    requires y.r.state == RUNTEST_IDLE && y.r.ctr < SequenceEnd(y.r.cmd)
    requires r' == y.r.(tms := SequenceTms(y.r.cmd, y.r.ctr, y.r.tms), ctr := y.r.ctr + 1)
    ensures WalkInv(stream, Settle(stream, y, arrived, r', false, y.ci, y.pk), total)
  {
    WalkStates(y.r.cmd, y.r.ctr);
    WalkStates(y.r.cmd, y.r.ctr + 1);
  }

  lemma WalkEnds(stream: seq<Packet>, y: Sys, arrived: nat, r': Regs, total: seq<Event>)
    requires WalkInv(stream, y, total) && y.arrived <= arrived <= |stream|
    requires y.r.state == RUNTEST_IDLE && y.r.ctr == SequenceEnd(y.r.cmd)
    requires r' == y.r.(tms := SequenceTms(y.r.cmd, y.r.ctr, y.r.tms), ctr := y.r.ctr + 1, busy := false,
                        pending := false)
    ensures QuietInv(stream, Settle(stream, y, arrived, r', false, y.ci + 1, y.pk), total)
  {
    SequenceEndsIdle(y.r.cmd);
  }

  lemma WalkCycle(stream: seq<Packet>, y: Sys, full: bool, ilen: nat, arrived: nat)
    requires Roomy(stream, full)
    requires FifoOk(stream, y) && y.ci < |stream| && Olen(stream[y.ci]) == 0
    requires y.r.pending && y.r.busy && !y.r.dvalid && y.r.olen == 0 && y.r.state.lo != LShift
    requires y.r.state == RUNTEST_IDLE ==> y.r.ctr <= SequenceEnd(y.r.cmd)
    ensures var r, r' := y.r, Step(y.r, Input(y, full, ilen));
      Cycle(stream, y, full, ilen, arrived) == Settle(stream, y, arrived, r', false,
        if r.state == RUNTEST_IDLE && r.ctr == SequenceEnd(r.cmd) then y.ci + 1 else y.ci, y.pk)
  {
  }

  lemma WalkPreserves(stream: seq<Packet>, y: Sys, full: bool, ilen: nat, arrived: nat, total: seq<Event>)
    requires Roomy(stream, full)
    requires WalkInv(stream, y, total) && y.arrived <= arrived <= |stream|
    ensures var y' := Cycle(stream, y, full, ilen, arrived);
      if y.r.state == RUNTEST_IDLE && y.r.ctr == SequenceEnd(y.r.cmd) then QuietInv(stream, y', total)
      else WalkInv(stream, y', total)
  {
    var i, r := Input(y, full, ilen), y.r;
    WalkCycle(stream, y, full, ilen, arrived);
    WalkStep(r, i);
    if r.state != RUNTEST_IDLE {
      WalkEnters(stream, y, arrived, total);
    } else if r.ctr < SequenceEnd(r.cmd) {
      WalkMoves(stream, y, arrived, Step(r, i), total);
    } else {
      WalkEnds(stream, y, arrived, Step(r, i), total);
    }
  }

  // ---------- writes: on the way to SHIFT-xR

  function GoNext(r: Regs): (St, bool) {
    match r.state.lo
    case LIdle => if r.state.ir then (RUNTEST_IDLE, false) else (St(false, LSelect), true)
    case LUpdate => (St(false, LSelect), true)
    case LSelect => if r.cmd.ir && !r.state.ir then (St(true, LSelect), true) else (St(r.state.ir, LCapture), false)
    case _ => (St(r.state.ir, LShift), false)
  }

  lemma GoStep(r: Regs, i: In, pk: nat)
    requires |r.dout| == BUF_SZ && r.pending && r.olen >= 2 && !r.respBlocked
    requires Going(r, pk) && TmsOk(r.state, r.tms) && r.nstate == St(r.cmd.ir, LShift)
    ensures Step(r, i) == r.(state := GoNext(r).0, tms := GoNext(r).1)
  {
  }

  lemma GoWriting(stream: seq<Packet>, y: Sys, arrived: nat)
    requires Common(stream, y) && Writing(stream, y) && Going(y.r, y.pk) && y.arrived <= arrived <= |stream|
    ensures var y' := Settle(stream, y, arrived, y.r.(state := GoNext(y.r).0, tms := GoNext(y.r).1), false, y.ci, y.pk);
      && Common(stream, y') && Writing(stream, y')
      && y'.log == y.log + (if y.r.state.lo == LCapture then [Captured(y.r.cmd.ir)] else [])
      && (if y.r.state.lo == LCapture then InShift(y') else Going(y'.r, y'.pk))
  {
  }

  lemma CaptureFirst(ir: bool, bits: seq<Event>)
    ensures RestOf(false, ir, bits) == [Captured(ir)] + RestOf(true, ir, bits)
  {
  }

  /** The log grows by exactly what leaves the rest of the command. */
  lemma LogGrows(log: seq<Event>, rest: seq<Event>, log': seq<Event>, rest': seq<Event>, e: seq<Event>,
                 after: seq<Event>, total: seq<Event>)
    requires log + rest + after == total && log' == log + e && rest == e + rest'
    ensures log' + rest' + after == total
  {
    assert log + e + rest' == log + (e + rest');
  }

  lemma GoSettles(stream: seq<Packet>, y: Sys, arrived: nat, total: seq<Event>)
    requires WriteInv(stream, y, total) && Going(y.r, y.pk) && y.arrived <= arrived <= |stream|
    ensures var r' := y.r.(state := GoNext(y.r).0, tms := GoNext(y.r).1);
      WriteInv(stream, Settle(stream, y, arrived, r', false, y.ci, y.pk), total)
  {
    GoWriting(stream, y, arrived);
    var y' := Settle(stream, y, arrived, y.r.(state := GoNext(y.r).0, tms := GoNext(y.r).1), false, y.ci, y.pk);
    var e := if y.r.state.lo == LCapture then [Captured(y.r.cmd.ir)] else [];
    CaptureFirst(y.r.cmd.ir, Bits(stream, y.ci, y.r.ctr));
    LogGrows(y.log, Rest(stream, y), y'.log, Rest(stream, y'), e, Total(stream, Next(stream, y.ci)), total);
  }

  lemma GoCycle(stream: seq<Packet>, y: Sys, full: bool, ilen: nat, arrived: nat)
    requires Roomy(stream, full)
    requires FifoOk(stream, y) && y.r.pending && y.r.busy && !y.r.dvalid && y.r.state.lo != LShift && y.r.olen != 0
    ensures Cycle(stream, y, full, ilen, arrived) ==
            Settle(stream, y, arrived, Step(y.r, Input(y, full, ilen)), false, y.ci, y.pk)
  {
  }

  lemma GoPreserves(stream: seq<Packet>, y: Sys, full: bool, ilen: nat, arrived: nat, total: seq<Event>)
    requires Roomy(stream, full)
    requires WriteInv(stream, y, total) && Going(y.r, y.pk) && y.arrived <= arrived <= |stream|
    ensures WriteInv(stream, Cycle(stream, y, full, ilen, arrived), total)
  {
    GoCycle(stream, y, full, ilen, arrived);
    GoStep(y.r, Input(y, full, ilen), y.pk);
    GoSettles(stream, y, arrived, total);
  }

  // ---------- writes: one bit out of SHIFT-xR

  /** Where the PHY looks for another packet: three bits before the one in hand runs out, if there is more. */
  lemma NeedsDataWhen(r: Regs, pk: nat)
    requires Shifting(r) && 1 <= pk <= FetchCount(r.olen, r.cmd.ext)
    requires 64 * (pk - 1) <= r.ctr < 64 * pk || pk == FetchCount(r.olen, r.cmd.ext)
    requires 64 * (pk - 1) <= r.ctr <= r.olen - 2
    ensures NeedsData(r) <==> More(r, pk) && r.ctr == 64 * pk - 3
    ensures More(r, pk) ==> 64 * pk <= r.olen - 62
  {
  }

  function Sent(r: Regs): Regs
    requires |r.dout| == BUF_SZ
  {
    r.(tdi := r.dout[0], dout := ShiftedOut(r), ctr := r.ctr + 1)
  }

  predicate SendingWrite(r: Regs) {
    && |r.dout| == BUF_SZ && r.pending && !r.respBlocked && !r.tms
    && r.state == St(r.cmd.ir, LShift) && r.nstate.ir == r.cmd.ir && r.ctr <= r.olen - 2 && r.olen < 4096
  }

  lemma SendStep(r: Regs, i: In)
    requires !(r.cmd.read && i.full) && SendingWrite(r) && !r.reqBlocked && r.nstate.lo == LShift && r.busy && !r.dvalid
    ensures Step(r, i) ==
      if r.ctr == r.olen - 2 then Sent(r).(nstate := RUNTEST_IDLE, busy := false, pending := false)
      else if !NeedsData(r) then Sent(r)
      else if i.empty then Sent(r).(reqBlocked := true)
      else Sent(r).(busy := false)
  {
  }

  lemma FetchStep(r: Regs, i: In)
    requires !(r.cmd.read && i.full) && SendingWrite(r) && !r.reqBlocked && r.nstate.lo == LShift
    requires !r.busy && !NeedsData(r) && r.ctr < r.olen - 2
    ensures !r.dvalid && !i.empty ==> Step(r, i) == Sent(r).(dvalid := true)
    ensures r.dvalid && i.rd.cmd == r.cmd && Olen(i.rd) == r.olen < 4096 ==>
      Step(r, i) == Sent(r).(dvalid := false, busy := true, dout := i.rd.data)
  {
  }

  lemma StarveStep(r: Regs, i: In)
    requires !(r.cmd.read && i.full) && SendingWrite(r) && r.reqBlocked && r.busy && !r.dvalid
    requires !NeedsData(r) && r.ctr < r.olen - 2
    ensures r.nstate.lo == LShift ==> Step(r, i) == Sent(r).(nstate := St(r.cmd.ir, LPause))
    ensures r.nstate.lo == LPause ==> Step(r, i) == Sent(r).(state := St(r.cmd.ir, LExit1), tms := true)
  {
  }

  /** Shifting by one keeps dout in step with the bits still to send. */
  lemma DoutShifts(stream: seq<Packet>, y: Sys, y': Sys)
    requires Common(stream, y) && Writing(stream, y) && Common(stream, y') && y'.ci == y.ci && y'.pk == y.pk
    requires DoutOk(stream, y) && 64 * (y.pk - 1) <= y.r.ctr
    requires y'.r.dout == ShiftedOut(y.r) && y'.r.ctr == y.r.ctr + 1 && y'.r.olen == y.r.olen && y'.r.cmd == y.r.cmd
    ensures DoutOk(stream, y')
  {
    forall j | 0 <= j < 64 && (y'.r.ctr + j < 64 * y.pk || y.pk == FetchCount(y.r.olen, y.r.cmd.ext))
      ensures y'.r.dout[j] == Bit(stream, y.ci, y'.r.ctr + j)
    {
      if j < 63 {
        assert y'.r.dout[j] == y.r.dout[j + 1];
        assert y.r.dout[j + 1] == Bit(stream, y.ci, y.r.ctr + (j + 1));
      } else {
        assert y.r.dout[63] == Bit(stream, y.ci, y.r.ctr + 63);
        assert (y.r.ctr + 64) / 64 >= y.pk;
      }
    }
  }

  /** What one bit out of SHIFT-xR does to a write that stays in hand. */
  ghost predicate Sends(stream: seq<Packet>, y: Sys, y': Sys)
    requires Common(stream, y)
  {
    && Common(stream, y') && Writing(stream, y') && y'.ci == y.ci
    && y'.r.ctr == y.r.ctr + 1 && y'.r.cmd == y.r.cmd && AfterCapture(y'.r.state)
    && y'.log == y.log + [Shifted(y.r.cmd.ir, y.r.dout[0])]
  }

  lemma BitSent(stream: seq<Packet>, y: Sys, y': Sys, total: seq<Event>)
    requires WriteInv(stream, y, total) && AfterCapture(y.r.state) && y.r.ctr < y.r.olen
    requires 64 * (y.pk - 1) <= y.r.ctr && (More(y.r, y.pk) ==> y.r.ctr < 64 * y.pk)
    requires Sends(stream, y, y')
    ensures y'.log + Rest(stream, y') + Total(stream, Next(stream, y.ci)) == total
  {
    assert y.r.dout[0] == Bit(stream, y.ci, y.r.ctr + 0);
    BitsFirst(stream, y.ci, y.r.ctr);
    var e := [Shifted(y.r.cmd.ir, y.r.dout[0])];
    BitFirst(y.r.cmd.ir, e, Bits(stream, y.ci, y'.r.ctr));
    LogGrows(y.log, Rest(stream, y), y'.log, Rest(stream, y'), e, Total(stream, Next(stream, y.ci)), total);
  }

  lemma BitFirst(ir: bool, e: seq<Event>, bits: seq<Event>)
    ensures RestOf(true, ir, e + bits) == e + RestOf(true, ir, bits)
  {
  }

  ghost predicate Shifts(stream: seq<Packet>, y: Sys) {
    Common(stream, y) && Writing(stream, y) && InShift(y)
  }

  lemma PlainSends(stream: seq<Packet>, y: Sys, arrived: nat)
    requires Shifts(stream, y) && y.arrived <= arrived <= |stream| && y.r.busy && !y.r.reqBlocked
    requires y.r.ctr < y.r.olen - 2 && !(More(y.r, y.pk) && y.r.ctr == 64 * y.pk - 3)
    ensures var y' := Settle(stream, y, arrived, Sent(y.r), false, y.ci, y.pk); Sends(stream, y, y') && InShift(y')
  {
  }

  lemma AsksSends(stream: seq<Packet>, y: Sys, arrived: nat)
    requires Shifts(stream, y) && y.arrived <= arrived <= |stream| && y.r.busy && !y.r.reqBlocked
    requires More(y.r, y.pk) && y.r.ctr == 64 * y.pk - 3 && 64 * y.pk <= y.r.olen - 62
    ensures var r' := if y.rdIdx == y.arrived then Sent(y.r).(reqBlocked := true) else Sent(y.r).(busy := false);
      var y' := Settle(stream, y, arrived, r', false, y.ci, y.pk); Sends(stream, y, y') && InShift(y')
  {
  }

  lemma ReadsSends(stream: seq<Packet>, y: Sys, arrived: nat)
    requires Shifts(stream, y) && y.arrived <= arrived <= |stream| && !y.r.busy && !y.r.dvalid && !y.r.reqBlocked
    requires 64 * y.pk <= y.r.olen - 62
    ensures var y' := Settle(stream, y, arrived, Sent(y.r).(dvalid := true), true, y.ci, y.pk);
      Sends(stream, y, y') && InShift(y')
  {
  }

  lemma LoadsSends(stream: seq<Packet>, y: Sys, arrived: nat)
    requires Shifts(stream, y) && y.arrived <= arrived <= |stream| && !y.r.busy && y.r.dvalid && !y.r.reqBlocked
    requires 64 * y.pk <= y.r.olen - 62 && |y.rd.data| == BUF_SZ
    ensures var r' := Sent(y.r).(dvalid := false, busy := true, dout := y.rd.data);
      var y' := Settle(stream, y, arrived, r', false, y.ci, y.pk + 1);
      Sends(stream, y, y') && InShift(y')
  {
  }

  /** The packet behind the one in hand is the command's next. */
  lemma NextPacket(stream: seq<Packet>, y: Sys)
    requires Common(stream, y) && Writing(stream, y) && y.r.dvalid
    ensures |y.rd.data| == BUF_SZ && y.rd.cmd == y.r.cmd && Olen(y.rd) == y.r.olen
    ensures forall j :: 0 <= j < 64 ==> y.rd.data[j] == Bit(stream, y.ci, 64 * y.pk + j)
  {
    PacketBits(stream, y.ci, y.pk, y.rd.data);
  }

  lemma StarvedSends(stream: seq<Packet>, y: Sys, arrived: nat)
    requires Shifts(stream, y) && y.arrived <= arrived <= |stream| && y.r.reqBlocked && y.r.nstate.lo == LShift
    requires 64 * y.pk <= y.r.olen - 62
    ensures var y' := Settle(stream, y, arrived, Sent(y.r).(nstate := St(y.r.cmd.ir, LPause)), false, y.ci, y.pk);
      Sends(stream, y, y') && InShift(y')
  {
  }

  lemma LeavesSends(stream: seq<Packet>, y: Sys, arrived: nat)
    requires Shifts(stream, y) && y.arrived <= arrived <= |stream| && y.r.reqBlocked && y.r.nstate.lo == LPause
    requires 64 * y.pk <= y.r.olen - 62
    ensures var r' := Sent(y.r).(state := St(y.r.cmd.ir, LExit1), tms := true);
      var y' := Settle(stream, y, arrived, r', false, y.ci, y.pk); Sends(stream, y, y') && InPause(y'.r, y'.pk)
  {
  }

  lemma FinishIsQuiet(stream: seq<Packet>, y: Sys, arrived: nat)
    requires Shifts(stream, y) && y.arrived <= arrived <= |stream| && y.r.busy && !y.r.reqBlocked
    requires y.r.ctr == y.r.olen - 2 && !More(y.r, y.pk)
    ensures var r' := Sent(y.r).(nstate := RUNTEST_IDLE, busy := false, pending := false);
      var y' := Settle(stream, y, arrived, r', false, Next(stream, y.ci), y.pk);
      && Common(stream, y') && Quiet(stream, y') && y'.log == y.log + [Shifted(y.r.cmd.ir, y.r.dout[0])]
      && Owed(y'.r) == [Shifted(y.r.cmd.ir, y.r.dout[1]), Updated(y.r.cmd.ir)]
  {
  }

  /** With two bits to go, the rest of the command is those bits and the update. */
  lemma LastTwo(stream: seq<Packet>, y: Sys)
    requires Common(stream, y) && Writing(stream, y) && DoutOk(stream, y) && AfterCapture(y.r.state)
    requires y.r.ctr == y.r.olen - 2 && !More(y.r, y.pk)
    ensures Rest(stream, y) == [Shifted(y.r.cmd.ir, y.r.dout[0])]
            + [Shifted(y.r.cmd.ir, y.r.dout[1]), Updated(y.r.cmd.ir)]
  {
    assert y.r.dout[0] == Bit(stream, y.ci, y.r.ctr + 0);
    assert y.r.dout[1] == Bit(stream, y.ci, y.r.ctr + 1);
    BitsFirst(stream, y.ci, y.r.ctr);
    BitsFirst(stream, y.ci, y.r.ctr + 1);
    assert Bits(stream, y.ci, y.r.ctr + 2) == [];
  }

  lemma FinishSettles(stream: seq<Packet>, y: Sys, arrived: nat, total: seq<Event>)
    requires WriteInv(stream, y, total) && InShift(y) && y.arrived <= arrived <= |stream| && y.r.busy && !y.r.reqBlocked
    requires y.r.ctr == y.r.olen - 2 && !More(y.r, y.pk)
    ensures var r' := Sent(y.r).(nstate := RUNTEST_IDLE, busy := false, pending := false);
      QuietInv(stream, Settle(stream, y, arrived, r', false, Next(stream, y.ci), y.pk), total)
  {
    FinishIsQuiet(stream, y, arrived);
    LastTwo(stream, y);
    var y' := Settle(stream, y, arrived, Sent(y.r).(nstate := RUNTEST_IDLE, busy := false, pending := false),
                     false, Next(stream, y.ci), y.pk);
    LogGrows(y.log, Rest(stream, y), y'.log, Owed(y'.r), [Shifted(y.r.cmd.ir, y.r.dout[0])], Total(stream, y'.ci),
             total);
  }

  lemma SendSettles(stream: seq<Packet>, y: Sys, y': Sys, total: seq<Event>)
    requires WriteInv(stream, y, total) && InShift(y) && Sends(stream, y, y') && DoutOk(stream, y')
    requires InShift(y') || InPause(y'.r, y'.pk)
    ensures WriteInv(stream, y', total)
  {
    BitSent(stream, y, y', total);
  }

  lemma ShiftCycle(stream: seq<Packet>, y: Sys, full: bool, ilen: nat, arrived: nat)
    requires Roomy(stream, full)
    requires FifoOk(stream, y) && SendingWrite(y.r) && y.ci < |stream|
    ensures var i := Input(y, full, ilen);
      Cycle(stream, y, full, ilen, arrived) ==
        Settle(stream, y, arrived, Step(y.r, i), Rden(y.r, i),
               if y.r.ctr == y.r.olen - 2 then Next(stream, y.ci) else y.ci, if Latch(y.r) then y.pk + 1 else y.pk)
  {
  }

  lemma ShiftReady(stream: seq<Packet>, y: Sys)
    requires Shifts(stream, y)
    ensures SendingWrite(y.r)
    ensures NeedsData(y.r) <==> More(y.r, y.pk) && y.r.ctr == 64 * y.pk - 3
    ensures More(y.r, y.pk) ==> 64 * y.pk <= y.r.olen - 62
    ensures y.r.reqBlocked || !y.r.busy ==> More(y.r, y.pk)
  {
    NeedsDataWhen(y.r, y.pk);
  }

  lemma BusyShift(stream: seq<Packet>, y: Sys, full: bool, ilen: nat, arrived: nat, total: seq<Event>)
    requires Roomy(stream, full)
    requires WriteInv(stream, y, total) && InShift(y) && y.arrived <= arrived <= |stream| && y.r.busy && !y.r.reqBlocked
    ensures var y' := Cycle(stream, y, full, ilen, arrived);
      if y.r.ctr == y.r.olen - 2 then QuietInv(stream, y', total) else WriteInv(stream, y', total)
  {
    ShiftReady(stream, y);
    ShiftCycle(stream, y, full, ilen, arrived);
    SendStep(y.r, Input(y, full, ilen));
    if y.r.ctr == y.r.olen - 2 {
      FinishSettles(stream, y, arrived, total);
    } else {
      var y' := Settle(stream, y, arrived, Step(y.r, Input(y, full, ilen)), false, y.ci, y.pk);
      if NeedsData(y.r) { AsksSends(stream, y, arrived); } else { PlainSends(stream, y, arrived); }
      DoutShifts(stream, y, y');
      SendSettles(stream, y, y', total);
    }
  }

  lemma FetchShift(stream: seq<Packet>, y: Sys, full: bool, ilen: nat, arrived: nat, total: seq<Event>)
    requires Roomy(stream, full)
    requires WriteInv(stream, y, total) && InShift(y) && y.arrived <= arrived <= |stream| && !y.r.busy &&
             !y.r.reqBlocked
    ensures WriteInv(stream, Cycle(stream, y, full, ilen, arrived), total)
  {
    if y.r.dvalid { FetchLoads(stream, y, full, ilen, arrived, total); }
    else { FetchReads(stream, y, full, ilen, arrived, total); }
  }

  lemma FetchLoads(stream: seq<Packet>, y: Sys, full: bool, ilen: nat, arrived: nat, total: seq<Event>)
    requires Roomy(stream, full)
    requires WriteInv(stream, y, total) && InShift(y) && y.arrived <= arrived <= |stream| && !y.r.busy &&
             !y.r.reqBlocked && y.r.dvalid
    ensures WriteInv(stream, Cycle(stream, y, full, ilen, arrived), total)
  {
    ShiftReady(stream, y);
    ShiftCycle(stream, y, full, ilen, arrived);
    NextPacket(stream, y);
    FetchStep(y.r, Input(y, full, ilen));
    LoadsSends(stream, y, arrived);
    SendSettles(stream, y, Cycle(stream, y, full, ilen, arrived), total);
  }

  lemma FetchReads(stream: seq<Packet>, y: Sys, full: bool, ilen: nat, arrived: nat, total: seq<Event>)
    requires Roomy(stream, full)
    requires WriteInv(stream, y, total) && InShift(y) && y.arrived <= arrived <= |stream| && !y.r.busy &&
             !y.r.reqBlocked && !y.r.dvalid
    ensures WriteInv(stream, Cycle(stream, y, full, ilen, arrived), total)
  {
    ShiftReady(stream, y);
    ShiftCycle(stream, y, full, ilen, arrived);
    FetchStep(y.r, Input(y, full, ilen));
    ReadsSends(stream, y, arrived);
    var y' := Settle(stream, y, arrived, Step(y.r, Input(y, full, ilen)), true, y.ci, y.pk);
    DoutShifts(stream, y, y');
    SendSettles(stream, y, y', total);
  }

  lemma StarvedShift(stream: seq<Packet>, y: Sys, full: bool, ilen: nat, arrived: nat, total: seq<Event>)
    requires Roomy(stream, full)
    requires WriteInv(stream, y, total) && InShift(y) && y.arrived <= arrived <= |stream| && y.r.reqBlocked
    ensures WriteInv(stream, Cycle(stream, y, full, ilen, arrived), total)
  {
    ShiftReady(stream, y);
    ShiftCycle(stream, y, full, ilen, arrived);
    StarveStep(y.r, Input(y, full, ilen));
    if y.r.nstate.lo == LShift { StarvedSends(stream, y, arrived); } else { LeavesSends(stream, y, arrived); }
    var y' := Settle(stream, y, arrived, Step(y.r, Input(y, full, ilen)), false, y.ci, y.pk);
    DoutShifts(stream, y, y');
    SendSettles(stream, y, y', total);
  }

  // ---------- writes: round PAUSE-xR

  predicate PausingWrite(r: Regs) {
    && |r.dout| == BUF_SZ && r.pending && !r.respBlocked && TmsOk(r.state, r.tms)
    && r.state.ir == r.nstate.ir == r.cmd.ir && r.olen >= 2
  }

  lemma WaitStep(r: Regs, i: In)
    requires PausingWrite(r) && r.reqBlocked && r.nstate.lo == LPause
    ensures r.state.lo == LExit1 && r.busy && !r.dvalid ==>
            Step(r, i) == r.(state := St(r.cmd.ir, LPause), tms := false)
    ensures r.state.lo == LPause && !r.dvalid ==> Step(r, i) == r.(busy := false, dvalid := !r.busy && !i.empty)
    ensures r.state.lo == LPause && r.dvalid && !r.busy && i.rd.cmd == r.cmd && Olen(i.rd) == r.olen < 4096 ==>
      Step(r, i) == r.(busy := true, dvalid := false, reqBlocked := false, dout := i.rd.data)
  {
  }

  lemma ResumeStep(r: Regs, i: In)
    requires PausingWrite(r) && !r.reqBlocked && r.busy && !r.dvalid
    ensures r.state.lo == LPause && r.nstate.lo == LPause ==> Step(r, i) == r.(nstate := St(r.cmd.ir, LShift))
    ensures r.state.lo == LPause && r.nstate.lo == LShift ==>
            Step(r, i) == r.(state := St(r.cmd.ir, LExit2), tms := true)
    ensures r.state.lo == LExit2 && r.nstate.lo == LShift ==>
            Step(r, i) == r.(state := St(r.cmd.ir, LShift), tms := false)
  {
  }

  lemma PauseCycle(stream: seq<Packet>, y: Sys, full: bool, ilen: nat, arrived: nat)
    requires Roomy(stream, full)
    requires FifoOk(stream, y) && PausingWrite(y.r) && AfterCapture(y.r.state) && y.r.state.lo != LShift
    ensures var i := Input(y, full, ilen);
      Cycle(stream, y, full, ilen, arrived) ==
        Settle(stream, y, arrived, Step(y.r, i), Rden(y.r, i), y.ci, if Latch(y.r) then y.pk + 1 else y.pk)
  {
  }

  /** What a cycle round PAUSE-xR does: nothing the target's register sees. */
  ghost predicate Rests(stream: seq<Packet>, y: Sys, y': Sys)
    requires Common(stream, y)
  {
    && Common(stream, y') && Writing(stream, y') && y'.ci == y.ci && y'.log == y.log
    && y'.r.ctr == y.r.ctr && y'.r.cmd == y.r.cmd && AfterCapture(y'.r.state)
    && (InPause(y'.r, y'.pk) || InShift(y'))
  }

  ghost predicate Pauses(stream: seq<Packet>, y: Sys) {
    Common(stream, y) && Writing(stream, y) && InPause(y.r, y.pk)
  }

  lemma EntersPause(stream: seq<Packet>, y: Sys, arrived: nat)
    requires Pauses(stream, y) && y.arrived <= arrived <= |stream| && y.r.state.lo == LExit1
    ensures Rests(stream, y, Settle(stream, y, arrived, y.r.(state := St(y.r.cmd.ir, LPause), tms := false), false,
                                    y.ci, y.pk))
  {
  }

  lemma WaitsInPause(stream: seq<Packet>, y: Sys, arrived: nat)
    requires Pauses(stream, y) && y.arrived <= arrived <= |stream|
    requires y.r.reqBlocked && y.r.state.lo == LPause && !y.r.dvalid
    ensures var take := !y.r.busy && y.rdIdx != y.arrived;
      Rests(stream, y, Settle(stream, y, arrived, y.r.(busy := false, dvalid := take), take, y.ci, y.pk))
  {
    var take := !y.r.busy && y.rdIdx != y.arrived;
    var y' := Settle(stream, y, arrived, y.r.(busy := false, dvalid := take), take, y.ci, y.pk);
    assert TapNext(Pause(y.r.cmd.ir), false) == Pause(y.r.cmd.ir);
    assert y'.log == y.log && y'.tap == y.tap;
    assert y'.rdIdx <= y'.arrived <= |stream|;
  }

  lemma LoadsInPause(stream: seq<Packet>, y: Sys, arrived: nat)
    requires Pauses(stream, y) && y.arrived <= arrived <= |stream|
    requires y.r.reqBlocked && y.r.state.lo == LPause && y.r.dvalid && |y.rd.data| == BUF_SZ
    ensures var r' := y.r.(busy := true, dvalid := false, reqBlocked := false, dout := y.rd.data);
      Rests(stream, y, Settle(stream, y, arrived, r', false, y.ci, y.pk + 1))
  {
  }

  lemma Resumes(stream: seq<Packet>, y: Sys, arrived: nat)
    requires Pauses(stream, y) && y.arrived <= arrived <= |stream| && !y.r.reqBlocked
    ensures var r' := if y.r.state.lo == LExit2 then y.r.(state := St(y.r.cmd.ir, LShift), tms := false)
                      else if y.r.nstate.lo == LPause then y.r.(nstate := St(y.r.cmd.ir, LShift))
                      else y.r.(state := St(y.r.cmd.ir, LExit2), tms := true);
      Rests(stream, y, Settle(stream, y, arrived, r', false, y.ci, y.pk))
  {
  }

  lemma RestSettles(stream: seq<Packet>, y: Sys, y': Sys, total: seq<Event>)
    requires WriteInv(stream, y, total) && InPause(y.r, y.pk) && Rests(stream, y, y') && DoutOk(stream, y')
    ensures WriteInv(stream, y', total)
  {
  }

  lemma ResumePreserves(stream: seq<Packet>, y: Sys, full: bool, ilen: nat, arrived: nat, total: seq<Event>)
    requires Roomy(stream, full)
    requires WriteInv(stream, y, total) && InPause(y.r, y.pk) && y.arrived <= arrived <= |stream| && !y.r.reqBlocked
    ensures WriteInv(stream, Cycle(stream, y, full, ilen, arrived), total)
  {
    ResumeRests(stream, y, full, ilen, arrived);
    RestSettles(stream, y, Cycle(stream, y, full, ilen, arrived), total);
  }

  lemma ResumeRests(stream: seq<Packet>, y: Sys, full: bool, ilen: nat, arrived: nat)
    requires Roomy(stream, full)
    requires Pauses(stream, y) && y.arrived <= arrived <= |stream| && !y.r.reqBlocked
    ensures Rests(stream, y, Cycle(stream, y, full, ilen, arrived))
  {
    PauseCycle(stream, y, full, ilen, arrived);
    ResumeStep(y.r, Input(y, full, ilen));
    Resumes(stream, y, arrived);
  }

  lemma WaitPreserves(stream: seq<Packet>, y: Sys, full: bool, ilen: nat, arrived: nat, total: seq<Event>)
    requires Roomy(stream, full)
    requires WriteInv(stream, y, total) && InPause(y.r, y.pk) && y.arrived <= arrived <= |stream|
    requires y.r.reqBlocked && !y.r.dvalid
    ensures WriteInv(stream, Cycle(stream, y, full, ilen, arrived), total)
  {
    PauseCycle(stream, y, full, ilen, arrived);
    WaitStep(y.r, Input(y, full, ilen));
    if y.r.state.lo == LExit1 {
      EntersPause(stream, y, arrived);
    } else {
      WaitsInPause(stream, y, arrived);
    }
    RestSettles(stream, y, Cycle(stream, y, full, ilen, arrived), total);
  }

  lemma LoadPreserves(stream: seq<Packet>, y: Sys, full: bool, ilen: nat, arrived: nat, total: seq<Event>)
    requires Roomy(stream, full)
    requires WriteInv(stream, y, total) && InPause(y.r, y.pk) && y.arrived <= arrived <= |stream|
    requires y.r.reqBlocked && y.r.dvalid
    ensures WriteInv(stream, Cycle(stream, y, full, ilen, arrived), total)
  {
    PauseCycle(stream, y, full, ilen, arrived);
    NextPacket(stream, y);
    WaitStep(y.r, Input(y, full, ilen));
    LoadsInPause(stream, y, arrived);
    RestSettles(stream, y, Cycle(stream, y, full, ilen, arrived), total);
  }
}
