/** The JTAG PHY's command side, arm_debug/rtl/jtag_phy.sv:223-456: one PHY_CLK cycle is one step. */
module JtagPhy {
  import opened Tap

  const BUF_SZ: nat := 64   // data bits per packet; olen and ctr are $clog2(MAX_CLEN) = 12 bits wide

  /** state[2:0], named by the 3-bit codes 000, 001, 010, 011, 100, 101, 110 and 111 of lines 89-109. */
  datatype Lo = LIdle | LSelect | LShift | LUpdate | LCapture | LExit1 | LPause | LExit2

  /** A TAP state as the PHY encodes it: ir is state[3]. */
  datatype St = St(ir: bool, lo: Lo)

  const RUNTEST_IDLE := St(false, LIdle)
  const LOGIC_RESET := St(true, LIdle)

  function Code(l: Lo): (bool, bool, bool) {
    match l
    case LIdle => (false, false, false)
    case LSelect => (false, false, true)
    case LShift => (false, true, false)
    case LUpdate => (false, true, true)
    case LCapture => (true, false, false)
    case LExit1 => (true, false, true)
    case LPause => (true, true, false)
    case LExit2 => (true, true, true)
  }

  /** One move of the shift register: {^state[1:0], state[2:1]}. */
  function Lfsr(l: Lo): Lo {
    match l
    case LIdle => LIdle
    case LSelect => LCapture
    case LShift => LExit1
    case LUpdate => LSelect
    case LCapture => LShift
    case LExit1 => LPause
    case LPause => LExit2
    case LExit2 => LUpdate
  }

  /** state[1], the TMS that goes with that move. */
  predicate LfsrTms(l: Lo) {
    l == LShift || l == LUpdate || l == LPause || l == LExit2
  }

  lemma LfsrIsShiftRegister(l: Lo)
    ensures var (b2, b1, b0) := Code(l); Code(Lfsr(l)) == (b1 != b0, b2, b1) && LfsrTms(l) == b1
  {
  }

  function Decode(s: St): Tap {
    match s.lo
    case LIdle => if s.ir then TestLogicReset else RunTestIdle
    case LSelect => SelectScan(s.ir)
    case LShift => Shift(s.ir)
    case LUpdate => Update(s.ir)
    case LCapture => Capture(s.ir)
    case LExit1 => Exit1(s.ir)
    case LPause => Pause(s.ir)
    case LExit2 => Exit2(s.ir)
  }

  /** cmd[2], cmd[1] and cmd[0] of lines 53-75. */
  datatype Cmd = Cmd(ir: bool, ext: bool, read: bool)

  const CMD_RESET := Cmd(false, false, false)
  const CMD_FLUSH := Cmd(true, true, false)

  datatype Packet = Packet(data: seq<bool>, len: nat, cmd: Cmd)

  datatype Regs = Regs(
    tms: bool, tdi: bool,
    state: St, nstate: St,
    busy: bool, dvalid: bool, pending: bool, reqBlocked: bool, respBlocked: bool,
    cmd: Cmd, olen: nat, dout: seq<bool>, ctr: nat)

  /** FIFO flags, the input FIFO's output register, and the response side's bit count. */
  datatype In = In(empty: bool, full: bool, ilen: nat, rd: Packet)

  /** `a - b` in the 32-bit unsigned arithmetic the comparisons are done in. */
  function Sub32(a: nat, b: nat): int {
    if a >= b then a - b else a - b + 0x1_0000_0000
  }

  function ShiftOf(c: Cmd): St {
    St(c.ir, LShift)
  }

  predicate Rden(r: Regs, i: In) {
    !i.empty && !r.dvalid && !r.busy
  }

  predicate Shifting(r: Regs) { r.state.lo == LShift }
  predicate Paused(r: Regs) { r.state.lo == LPause }
  predicate Latch(r: Regs) { r.dvalid && !r.busy }
  predicate Fresh(r: Regs) { Latch(r) && !r.pending }

  predicate NeedsData(r: Regs) {
    Shifting(r) && !r.cmd.ext && r.ctr != 0 && Sub32(r.olen, r.ctr) > BUF_SZ && r.ctr % 64 == BUF_SZ - 3
  }

  predicate Finishing(r: Regs) {
    Shifting(r) && r.ctr == Sub32(r.olen, 2)
  }

  predicate Sending(r: Regs) {
    Shifting(r) && r.ctr < r.olen
  }

  /** A length-0 command is walking the target by hand. */
  predicate Sequencing(r: Regs) {
    r.state == RUNTEST_IDLE && r.olen == 0 && r.pending
  }

  /** The counter value at which a length-0 command ends (lines 370-396). */
  function SequenceEnd(c: Cmd): nat {
    if c == CMD_FLUSH then 8 else if c == CMD_RESET then 18 else 95
  }

  predicate SequenceDone(r: Regs) {
    Sequencing(r) &&
    var k := r.ctr % 128;
    (k == 8 && r.cmd == CMD_FLUSH) || (k == 18 && r.cmd == CMD_RESET) || k == 95
  }

  /** TMS during a length-0 command (lines 370-396): `tms` is the value it would otherwise keep. */
  function SequenceTms(c: Cmd, k: nat, tms: bool): bool {
    if k in {9, 71, 77, 82} then true
    else if k in {69, 75, 80, 94} then false
    else if k == 17 && c == CMD_RESET then false
    else tms
  }

  /** The TAP state machine of lines 416-454: the next state and TMS. */
  function Fsm(s: St, n: St, tms: bool): (St, bool) {
    if s.lo == LIdle then
      if n == s then (s, tms) else if s.ir then (RUNTEST_IDLE, !tms) else (St(false, LSelect), !tms)
    else if s.lo == LSelect && !s.ir && n.ir then (St(true, LSelect), tms)
    else if s.lo == LSelect && s.ir && n.lo == LIdle then (LOGIC_RESET, true)
    else if s.lo == LCapture && n.lo != LShift then (St(s.ir, LExit1), true)
    else if s.lo == LExit2 && s.ir == n.ir && n.lo == LShift then (St(s.ir, LShift), false)
    else if s.lo == LUpdate && n == RUNTEST_IDLE then (RUNTEST_IDLE, false)
    else if s.lo == LExit1 && n.lo != LPause then (St(s.ir, LUpdate), true)
    else if (s.lo == LShift || s.lo == LPause) && s == n then (s, tms)
    else (St(s.ir && s.lo != LUpdate, Lfsr(s.lo)), LfsrTms(s.lo))
  }

  function NextTarget(r: Regs, i: In): St {
    if Fresh(r) then
      if i.rd.len == 0 then RUNTEST_IDLE else ShiftOf(i.rd.cmd)
    else if Finishing(r) then RUNTEST_IDLE
    else if Paused(r) && !r.reqBlocked && !r.respBlocked then St(r.nstate.ir, LShift)
    else if r.reqBlocked || r.respBlocked then St(r.nstate.ir, LPause)
    else r.nstate
  }

  function ShiftedOut(r: Regs): seq<bool>
    requires |r.dout| == BUF_SZ
  {
    r.dout[1..] + [r.cmd.ext && r.dout[BUF_SZ - 1]]
  }

  function NextTdi(r: Regs): bool
    requires |r.dout| == BUF_SZ
  {
    if Shifting(r) then Sending(r) && r.dout[0] else r.tdi
  }

  function NextBusy(r: Regs, i: In): bool {
    if Latch(r) then true
    else r.busy && !Finishing(r) && !(NeedsData(r) && !i.empty) && !(Paused(r) && r.reqBlocked)
  }

  function NextDvalid(r: Regs, i: In): bool {
    Rden(r, i) || (r.dvalid && !Latch(r))
  }

  function NextPending(r: Regs): bool {
    Fresh(r) || (r.pending && !Finishing(r))
  }

  function NextReqBlocked(r: Regs, i: In): bool {
    (NeedsData(r) && i.empty) || (r.reqBlocked && !(Paused(r) && r.dvalid))
  }

  function NextRespBlocked(r: Regs, i: In): bool {
    || (Shifting(r) && r.cmd.read && i.full && r.olen > BUF_SZ && i.ilen == BUF_SZ - 3)
    || (r.respBlocked && (!Paused(r) || i.full))
  }

  function NextOlen(r: Regs, i: In): nat {
    if !Latch(r) then r.olen else if i.rd.cmd.read then (i.rd.len + 1) % 4096 else i.rd.len
  }

  function NextDout(r: Regs, i: In): seq<bool>
    requires |r.dout| == BUF_SZ
  {
    if Latch(r) then i.rd.data else if Sending(r) then ShiftedOut(r) else r.dout
  }

  function NextCtr(r: Regs): nat {
    if Fresh(r) then 0 else if Sending(r) then (r.ctr + 1) % 4096 else r.ctr
  }

  /** Every register after one rising edge of PHY_CLK out of reset. */
  function Step(r: Regs, i: In): Regs
    requires |r.dout| == BUF_SZ
  {
    if Sequencing(r) then
      Regs(SequenceTms(r.cmd, r.ctr % 128, r.tms), NextTdi(r), r.state, NextTarget(r, i),
           NextBusy(r, i) && !SequenceDone(r), NextDvalid(r, i), NextPending(r) && !SequenceDone(r),
           NextReqBlocked(r, i), NextRespBlocked(r, i),
           if Latch(r) then i.rd.cmd else r.cmd, NextOlen(r, i), NextDout(r, i), (r.ctr + 1) % 4096)
    else
      var (s, t) := Fsm(r.state, r.nstate, r.tms);
      Regs(t, NextTdi(r), s, NextTarget(r, i),
           NextBusy(r, i), NextDvalid(r, i), NextPending(r),
           NextReqBlocked(r, i), NextRespBlocked(r, i),
           if Latch(r) then i.rd.cmd else r.cmd, NextOlen(r, i), NextDout(r, i), NextCtr(r))
  }

  /** TCK is held low while idle with nothing pending (lines 127-130). */
  predicate Gated(r: Regs) {
    r.state == RUNTEST_IDLE && !r.pending
  }

  /** The registers out of reset (lines 224-237); those the reset leaves alone start as given. */
  predicate OutOfReset(r: Regs) {
    && r.tms && !r.tdi
    && r.state == LOGIC_RESET && r.nstate == LOGIC_RESET
    && !r.busy && !r.dvalid && !r.pending && !r.reqBlocked && !r.respBlocked
    && |r.dout| == BUF_SZ && r.ctr < 4096
  }

  // ---------- the TAP encoding is sound

  /** TMS is what the current state was reached with, where the machine later keeps or flips it. */
  predicate TmsOk(s: St, tms: bool) {
    && (s.lo == LIdle ==> tms == s.ir)
    && (s.lo == LSelect ==> tms)
    && (s.lo == LShift || s.lo == LPause ==> !tms)
  }

  /** Whatever target states are asked for, the PHY's state and the target's TAP make the same move. */
  lemma FsmLockstep(s: St, n: St, tms: bool)
    requires TmsOk(s, tms)
    ensures var (s', tms') := Fsm(s, n, tms); Decode(s') == TapNext(Decode(s), tms') && TmsOk(s', tms')
  {
    match s.lo
    case LIdle => case LSelect => case LShift => case LUpdate =>
    case LCapture => case LExit1 => case LPause => case LExit2 =>
  }

  /** The always-block in the order the source writes it. Every right-hand side reads the registers as they
      were at the clock edge, and of several assignments to one register the last wins. */
  class Phy {
    var tms: bool
    var tdi: bool
    var state: St
    var nstate: St
    var busy: bool
    var dvalid: bool
    var pending: bool
    var reqBlocked: bool
    var respBlocked: bool
    var cmd: Cmd
    var olen: nat
    var dout: seq<bool>
    var ctr: nat

    function View(): Regs
      reads this
    {
      Regs(tms, tdi, state, nstate, busy, dvalid, pending, reqBlocked, respBlocked, cmd, olen, dout, ctr)
    }

    constructor (dout: seq<bool>, cmd: Cmd, olen: nat, ctr: nat)
      requires |dout| == BUF_SZ && olen < 4096 && ctr < 4096
      ensures OutOfReset(View())
    {
      tms, tdi, state, nstate := true, false, LOGIC_RESET, LOGIC_RESET;
      busy, dvalid, pending, reqBlocked, respBlocked := false, false, false, false, false;
      this.cmd, this.olen, this.dout, this.ctr := cmd, olen, dout, ctr;
    }

    method Posedge(i: In)
      requires |dout| == BUF_SZ
      modifies this
      ensures View() == Step(old(View()), i)
    {
      var r := View();
      Commands(r, i);
      Walk(r);
    }

    /** Everything but the TAP walk. */
    method Commands(r: Regs, i: In)
      requires r == View() && |dout| == BUF_SZ
      modifies this
      ensures tms == r.tms && state == r.state
      ensures tdi == NextTdi(r) && dout == NextDout(r, i) && nstate == NextTarget(r, i)
      ensures cmd == (if Latch(r) then i.rd.cmd else r.cmd) && olen == NextOlen(r, i)
      ensures dvalid == NextDvalid(r, i) && busy == NextBusy(r, i) && pending == NextPending(r)
      ensures reqBlocked == NextReqBlocked(r, i) && respBlocked == NextRespBlocked(r, i) && ctr == NextCtr(r)
    {
      Decides(r, i);
      Sends(r);
      Receives(r, i);
    }

    /** Lines 242-291 and 311-318: whether to pause, fetch or finish. */
    method Decides(r: Regs, i: In)
      requires r == View()
      modifies this`nstate, this`busy, this`pending, this`respBlocked, this`reqBlocked
      ensures reqBlocked == NextReqBlocked(r, i) && respBlocked == NextRespBlocked(r, i)
      ensures busy == (r.busy && !Finishing(r) && !(NeedsData(r) && !i.empty) && !(Paused(r) && r.reqBlocked))
      ensures pending == (r.pending && !Finishing(r))
      ensures Fresh(r) || nstate == NextTarget(r, i)
    {
      Pausing(r, i);
      LooksAhead(r, i);
    }

    /** Lines 242-262: into and out of PAUSE-xR. */
    method Pausing(r: Regs, i: In)
      requires r == View()
      modifies this`nstate, this`busy, this`respBlocked, this`reqBlocked
      ensures nstate == if Paused(r) && !r.reqBlocked && !r.respBlocked then St(r.nstate.ir, LShift)
                        else if r.reqBlocked || r.respBlocked then St(r.nstate.ir, LPause) else r.nstate
      ensures busy == (r.busy && !(Paused(r) && r.reqBlocked))
      ensures respBlocked == (r.respBlocked && (!Paused(r) || i.full))
      ensures reqBlocked == (r.reqBlocked && !(Paused(r) && r.dvalid))
    {
      if r.reqBlocked || r.respBlocked {
        nstate := St(r.nstate.ir, LPause);
      }
      if r.state.lo == LPause {
        if r.reqBlocked { busy := false; }
        if !i.full && r.respBlocked { respBlocked := false; }
        if r.reqBlocked && r.dvalid { reqBlocked := false; }
        if !r.reqBlocked && !r.respBlocked { nstate := St(r.nstate.ir, LShift); }
      }
    }

    /** Lines 265-291 and 311-318: the decisions taken two or three bits ahead. */
    method LooksAhead(r: Regs, i: In)
      modifies this`nstate, this`busy, this`pending, this`respBlocked, this`reqBlocked
      ensures respBlocked ==
        (old(respBlocked) || (Shifting(r) && r.cmd.read && i.full && r.olen > BUF_SZ && i.ilen == BUF_SZ - 3))
      ensures reqBlocked == (old(reqBlocked) || (NeedsData(r) && i.empty))
      ensures busy == (old(busy) && !(NeedsData(r) && !i.empty) && !Finishing(r))
      ensures pending == (old(pending) && !Finishing(r))
      ensures nstate == if Finishing(r) then RUNTEST_IDLE else old(nstate)
    {
      if r.state.lo == LShift {
        if r.cmd.read && i.full && r.olen > BUF_SZ && i.ilen == BUF_SZ - 3 {
          respBlocked := true;
        }
        if !r.cmd.ext && r.ctr != 0 && Sub32(r.olen, r.ctr) > BUF_SZ && r.ctr % 64 == BUF_SZ - 3 {
          if i.empty { reqBlocked := true; } else { busy := false; }
        }
        if r.ctr == Sub32(r.olen, 2) {
          nstate, busy, pending := RUNTEST_IDLE, false, false;
        }
      }
    }

    /** Lines 293-309: one bit out of SHIFT-xR. */
    method Sends(r: Regs)
      requires |r.dout| == BUF_SZ && tdi == r.tdi && dout == r.dout && ctr == r.ctr
      modifies this`tdi, this`dout, this`ctr
      ensures tdi == if Shifting(r) then Sending(r) && r.dout[0] else r.tdi
      ensures dout == if Sending(r) then ShiftedOut(r) else r.dout
      ensures ctr == if Sending(r) then (r.ctr + 1) % 4096 else r.ctr
    {
      if r.state.lo == LShift {
        if r.ctr < r.olen {
          tdi, dout, ctr := r.dout[0], ShiftedOut(r), (r.ctr + 1) % 4096;
        } else {
          tdi := false;
        }
      }
    }

    /** Lines 322-360: a packet out of the FIFO and into the operating registers. */
    method Receives(r: Regs, i: In)
      requires |r.dout| == BUF_SZ && dvalid == r.dvalid && cmd == r.cmd && olen == r.olen
      requires busy == (r.busy && !Finishing(r) && !(NeedsData(r) && !i.empty) && !(Paused(r) && r.reqBlocked))
      requires pending == (r.pending && !Finishing(r)) && (Fresh(r) || nstate == NextTarget(r, i))
      requires dout == (if Sending(r) then ShiftedOut(r) else r.dout)
      requires ctr == (if Sending(r) then (r.ctr + 1) % 4096 else r.ctr)
      modifies this`dvalid, this`busy, this`cmd, this`olen, this`dout, this`pending, this`ctr, this`nstate
      ensures cmd == (if Latch(r) then i.rd.cmd else r.cmd) && olen == NextOlen(r, i) && dout == NextDout(r, i)
      ensures dvalid == NextDvalid(r, i) && busy == NextBusy(r, i) && pending == NextPending(r)
      ensures ctr == NextCtr(r) && nstate == NextTarget(r, i)
    {
      if Rden(r, i) {
        dvalid := true;
      }
      if r.dvalid && !r.busy {
        cmd, dout, dvalid, busy := i.rd.cmd, i.rd.data, false, true;
        olen := if i.rd.cmd.read then (i.rd.len + 1) % 4096 else i.rd.len;
        if !r.pending {
          pending, ctr := true, 0;
          if i.rd.len == 0 {
            nstate := RUNTEST_IDLE;
          } else if i.rd.cmd.ir {
            nstate := St(true, LShift);
          } else {
            nstate := St(false, LShift);
          }
        }
      }
    }

    /** Lines 365-455: a length-0 sequence, or the TAP state machine. */
    method Walk(r: Regs)
      requires tms == r.tms && state == r.state
      modifies this`tms, this`state, this`pending, this`busy, this`ctr
      ensures (state, tms) == if Sequencing(r) then (r.state, SequenceTms(r.cmd, r.ctr % 128, r.tms))
                              else Fsm(r.state, r.nstate, r.tms)
      ensures pending == (old(pending) && !SequenceDone(r)) && busy == (old(busy) && !SequenceDone(r))
      ensures ctr == if Sequencing(r) then (r.ctr + 1) % 4096 else old(ctr)
    {
      if r.state == RUNTEST_IDLE && r.olen == 0 && r.pending {
        var k := r.ctr % 128;
        if k == 8 {
          if r.cmd == CMD_FLUSH { pending, busy := false, false; }
        } else if k == 9 || k == 71 || k == 77 || k == 82 {
          tms := true;
        } else if k == 17 {
          if r.cmd == CMD_RESET { tms := false; }
        } else if k == 18 {
          if r.cmd == CMD_RESET { pending, busy := false, false; }
        } else if k == 69 || k == 75 || k == 80 || k == 94 {
          tms := false;
        } else if k == 95 {
          pending, busy := false, false;
        }
        ctr := (r.ctr + 1) % 4096;
      } else {
        var (s, t) := Fsm(r.state, r.nstate, r.tms);
        state, tms := s, t;
      }
    }
  }
}
