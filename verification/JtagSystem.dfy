/** The PHY driving a target: for every arrival timing of the command packets, the target stays in lockstep
    and shifts exactly the bits the packets carry. */
module JtagSystem {
  import opened Tap
  import opened JtagPhy

  /** The bits a command shifts: a read one more than it was asked for. */
  function Olen(p: Packet): nat { if p.cmd.read then p.len + 1 else p.len }

  /** Some command captures what comes back. */
  ghost predicate HasRead(stream: seq<Packet>) { exists k :: 0 <= k < |stream| && stream[k].cmd.read }

  /** The response FIFO has room whenever it may be needed. */
  ghost predicate Roomy(stream: seq<Packet>, full: bool) { full ==> !HasRead(stream) }

  /** The packets a command of this many bits makes the PHY fetch (arm_debug/rtl/jtag_phy.sv:277-291). */
  function FetchCount(len: nat, ext: bool): nat {
    if ext || len < 126 then 1 else (len + 2) / 64
  }

  /** The stream is a sequence of commands: length-0 sequences, or writes and reads whose packets all carry the same
      header. */
  ghost predicate WellFormed(stream: seq<Packet>, i: nat)
    decreases |stream| - i
  {
    i >= |stream| ||
    var p := stream[i];
    && Olen(p) < 4096 && Olen(p) != 1
    && (if Olen(p) == 0 then |p.data| == BUF_SZ && WellFormed(stream, i + 1)
        else
          var n := FetchCount(Olen(p), p.cmd.ext);
          && i + n <= |stream|
          && (forall k :: i <= k < i + n ==>
              |stream[k].data| == BUF_SZ && stream[k].len == p.len && stream[k].cmd == p.cmd)
          && WellFormed(stream, i + n))
  }

  /** Where the command at i ends. */
  function Next(stream: seq<Packet>, i: nat): nat
    requires i < |stream|
  {
    if Olen(stream[i]) == 0 then i + 1 else i + FetchCount(Olen(stream[i]), stream[i].cmd.ext)
  }

  /** Bit k of the command at i as the PHY delivers it: the fetched packets' bits in order, then zeros, or
      with auto-extend the first packet's last bit for ever. */
  ghost function Bit(stream: seq<Packet>, i: nat, k: nat): bool
    requires WellFormed(stream, i) && i < |stream| && Olen(stream[i]) != 0
  {
    var p := stream[i];
    if p.cmd.ext then p.data[if k < 64 then k else 63]
    else if k / 64 < FetchCount(Olen(p), false) then stream[i + k / 64].data[k % 64]
    else false
  }

  /** The bits of the command at i from bit `from` on, as the target sees them. */
  ghost function Bits(stream: seq<Packet>, i: nat, from: nat): seq<Event>
    requires WellFormed(stream, i) && i < |stream| && Olen(stream[i]) != 0 && from <= Olen(stream[i])
  {
    seq(Olen(stream[i]) - from, k requires 0 <= k < Olen(stream[i]) - from =>
        Shifted(stream[i].cmd.ir, Bit(stream, i, from + k)))
  }

  /** Everything the target should see for the commands from i on: for each write one capture, its bits and
      one update. */
  ghost function Total(stream: seq<Packet>, i: nat): seq<Event>
    requires WellFormed(stream, i)
    decreases |stream| - i
  {
    if i >= |stream| then []
    else if Olen(stream[i]) == 0 then Total(stream, i + 1)
    else [Captured(stream[i].cmd.ir)] + Bits(stream, i, 0) + [Updated(stream[i].cmd.ir)]
         + Total(stream, Next(stream, i))
  }

  // ---------- the system

  /** `rd` is the FIFO's output register, `rdIdx` the packets read and `arrived` the packets the host has
      delivered. For the proofs, `ci` is the first packet of the command in hand (or of the next, once it
      is finishing) and `pk` how many of its packets have been taken. */
  datatype Sys = Sys(r: Regs, rd: Packet, rdIdx: nat, arrived: nat, tap: Tap, log: seq<Event>, ci: nat, pk: nat)

  function Input(y: Sys, full: bool, ilen: nat): In {
    In(y.rdIdx == y.arrived, full, ilen, y.rd)
  }

  ghost predicate FifoOk(stream: seq<Packet>, y: Sys) {
    y.rdIdx <= y.arrived <= |stream| && |y.r.dout| == BUF_SZ
  }

  /** One PHY_CLK cycle: the rising edge, then TCK's if it is not gated. */
  function Cycle(stream: seq<Packet>, y: Sys, full: bool, ilen: nat, arrived: nat): Sys
    requires FifoOk(stream, y)
  {
    var i := Input(y, full, ilen);
    Settle(stream, y, arrived, Step(y.r, i), Rden(y.r, i),
           if y.ci < |stream| && (Finishing(y.r) || SequenceDone(y.r)) then Next(stream, y.ci) else y.ci,
           if Fresh(y.r) then 1 else if Latch(y.r) then y.pk + 1 else y.pk)
  }

  /** What follows from the registers' new values: the FIFO read and the target's edge of TCK. */
  function Settle(stream: seq<Packet>, y: Sys, arrived: nat, r': Regs, take: bool, ci: nat, pk: nat): Sys
    requires FifoOk(stream, y) && (take ==> y.rdIdx < y.arrived)
  {
    Sys(r',
        if take then stream[y.rdIdx] else y.rd,
        if take then y.rdIdx + 1 else y.rdIdx,
        arrived,
        if Gated(r') then y.tap else TapNext(y.tap, r'.tms),
        if Gated(r') then y.log else y.log + Events(y.tap, r'.tms, r'.tdi),
        ci, pk)
  }

  // ---------- invariant: where the PHY can be

  ghost predicate Common(stream: seq<Packet>, y: Sys) {
    && FifoOk(stream, y)
    && WellFormed(stream, y.ci) && y.ci <= |stream|
    && !y.r.respBlocked && y.r.ctr < 4096
  }

  /** No command in hand: waiting, or sending the last bit of one and updating. */
  ghost predicate Quiet(stream: seq<Packet>, y: Sys) {
    var r := y.r;
    && !r.pending && !r.busy && !r.reqBlocked
    && y.rdIdx == y.ci + (if r.dvalid then 1 else 0)
    && (r.dvalid ==> y.ci < |stream| && y.rd == stream[y.ci])
    && TmsOk(r.state, r.tms)
    && r.nstate == (if r.state == LOGIC_RESET then LOGIC_RESET else RUNTEST_IDLE)
    && (r.state == LOGIC_RESET || r.state == RUNTEST_IDLE || r.state.lo == LShift || r.state.lo == LExit1 ||
        r.state.lo == LUpdate)
    && (if r.state == RUNTEST_IDLE then y.tap == RunTestIdle || y.tap.Update? else y.tap == Decode(r.state))
    && (r.state.lo == LShift ==> !r.dvalid && r.ctr + 1 == r.olen && (r.cmd.read ==> HasRead(stream)))
  }

  /** TMS after the k-th step of a length-0 command. */
  function SequenceTmsAt(c: Cmd, k: nat): bool {
    if k == 0 then false else SequenceTms(c, k - 1, SequenceTmsAt(c, k - 1))
  }

  /** The target's TAP after k steps of a length-0 command that finds it in t. */
  function SequenceTap(c: Cmd, t: Tap, k: nat): Tap {
    if k == 0 then t else TapNext(SequenceTap(c, t, k - 1), SequenceTmsAt(c, k))
  }

  /** A length-0 command in hand. */
  ghost predicate Walking(stream: seq<Packet>, y: Sys) {
    var r := y.r;
    && r.pending && r.busy && !r.dvalid && !r.reqBlocked && r.olen == 0
    && y.ci < |stream| && Olen(stream[y.ci]) == 0 && r.cmd == stream[y.ci].cmd && y.rdIdx == y.ci + 1
    && r.nstate == RUNTEST_IDLE
    && (if r.state == RUNTEST_IDLE then
          r.ctr <= SequenceEnd(r.cmd) && y.tap == SequenceTap(r.cmd, RunTestIdle, r.ctr) &&
            r.tms == SequenceTmsAt(r.cmd, r.ctr)
        else
          && (r.state == LOGIC_RESET || r.state.lo == LUpdate)
          && r.ctr == 0 && y.tap == Decode(r.state) && TmsOk(r.state, r.tms))
  }

  /** A write in hand, of which `pk` packets have been taken. */
  ghost predicate Writing(stream: seq<Packet>, y: Sys)
    requires Common(stream, y)
  {
    var r := y.r;
    && r.pending
    && y.ci < |stream| && Olen(stream[y.ci]) == r.olen >= 2 && r.cmd == stream[y.ci].cmd
    && 1 <= y.pk <= FetchCount(r.olen, r.cmd.ext)
    && y.rdIdx == y.ci + y.pk + (if r.dvalid then 1 else 0)
    && (r.dvalid ==> y.pk < FetchCount(r.olen, r.cmd.ext) && y.rd == stream[y.ci + y.pk])
    && TmsOk(r.state, r.tms) && y.tap == Decode(r.state)
    && r.nstate.ir == r.cmd.ir
  }

  /** The bits waiting in dout are the next ones to send, as far as the packets taken go. */
  ghost predicate DoutOk(stream: seq<Packet>, y: Sys)
    requires Common(stream, y) && y.ci < |stream| && Olen(stream[y.ci]) != 0
  {
    forall j :: 0 <= j < 64 && (y.r.ctr + j < 64 * y.pk || y.pk == FetchCount(y.r.olen, y.r.cmd.ext)) ==>
      y.r.dout[j] == Bit(stream, y.ci, y.r.ctr + j)
  }

  /** On the way to SHIFT-xR. */
  ghost predicate Going(r: Regs, pk: nat) {
    && r.busy && !r.dvalid && !r.reqBlocked && r.ctr == 0 && pk == 1 && r.nstate.lo == LShift
    && (r.state.lo == LIdle || r.state.lo == LUpdate
        || (r.state.lo == LSelect && (r.state.ir ==> r.cmd.ir))
        || (r.state.lo == LCapture && r.state.ir == r.cmd.ir))
  }

  predicate More(r: Regs, pk: nat) {
    pk < FetchCount(r.olen, r.cmd.ext)
  }

  /** In SHIFT-xR: sending, fetching the next packet, or about to pause for want of one. */
  ghost predicate InShift(y: Sys) {
    var r, pk := y.r, y.pk;
    && r.state == St(r.cmd.ir, LShift)
    && 64 * (pk - 1) <= r.ctr <= r.olen - 2
    && (if r.reqBlocked then
          && r.busy && !r.dvalid && More(r, pk)
          && ((r.nstate.lo == LShift && r.ctr == 64 * pk - 2) || (r.nstate.lo == LPause && r.ctr == 64 * pk - 1))
        else
          && r.nstate.lo == LShift
          && (if r.busy then !r.dvalid && (More(r, pk) ==> r.ctr <= 64 * pk - 3)
              else More(r, pk) && (if r.dvalid then r.ctr == 64 * pk - 1
                                   else r.ctr == 64 * pk - 2 && y.rdIdx < y.arrived)))
  }

  /** Round PAUSE-xR: waiting for the packet, then on the way back. */
  ghost predicate InPause(r: Regs, pk: nat) {
    && r.state.ir == r.cmd.ir
    && (if r.reqBlocked then
          && More(r, pk) && r.ctr == 64 * pk && r.nstate.lo == LPause
          && ((r.state.lo == LExit1 && r.busy && !r.dvalid) || (r.state.lo == LPause && !(r.busy && r.dvalid)))
        else
          && pk >= 2 && r.ctr == 64 * (pk - 1) && r.busy && !r.dvalid
          && ((r.state.lo == LPause && (r.nstate.lo == LPause || r.nstate.lo == LShift))
              || (r.state.lo == LExit2 && r.nstate.lo == LShift)))
  }

  predicate AfterCapture(s: St) {
    s.lo == LShift || s.lo == LExit1 || s.lo == LPause || s.lo == LExit2
  }

  /** What the target has still to see of the command that is finishing. */
  function Owed(r: Regs): seq<Event>
    requires |r.dout| == BUF_SZ
  {
    if r.state.lo == LShift then [Shifted(r.state.ir, r.dout[0]), Updated(r.state.ir)]
    else if r.state.lo == LExit1 then [Updated(r.state.ir)]
    else []
  }

  function RestOf(captured: bool, ir: bool, bits: seq<Event>): seq<Event> {
    (if captured then [] else [Captured(ir)]) + bits + [Updated(ir)]
  }

  /** What it has still to see of the write in hand. */
  ghost function Rest(stream: seq<Packet>, y: Sys): seq<Event>
    requires Common(stream, y) && Writing(stream, y) && y.r.ctr <= y.r.olen
  {
    RestOf(AfterCapture(y.r.state), y.r.cmd.ir, Bits(stream, y.ci, y.r.ctr))
  }

  ghost predicate QuietInv(stream: seq<Packet>, y: Sys, total: seq<Event>) {
    Common(stream, y) && Quiet(stream, y) && y.log + Owed(y.r) + Total(stream, y.ci) == total
  }

  ghost predicate WalkInv(stream: seq<Packet>, y: Sys, total: seq<Event>) {
    Common(stream, y) && Walking(stream, y) && y.log + Total(stream, y.ci) == total
  }

  ghost predicate WriteInv(stream: seq<Packet>, y: Sys, total: seq<Event>) {
    && Common(stream, y) && Writing(stream, y) && DoutOk(stream, y)
    && (Going(y.r, y.pk) || InShift(y) || InPause(y.r, y.pk))
    && y.r.ctr <= y.r.olen
    && y.log + Rest(stream, y) + Total(stream, Next(stream, y.ci)) == total
  }

  ghost predicate Inv(stream: seq<Packet>, y: Sys) {
    WellFormed(stream, 0) &&
    var total := Total(stream, 0);
    QuietInv(stream, y, total) || WalkInv(stream, y, total) || WriteInv(stream, y, total)
  }
}
