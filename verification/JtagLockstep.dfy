/** The PHY and its target stay in lockstep whatever they are asked to do: reads, writes and length-0 commands of any
    length, in any packets, with the response FIFO full at any time. */
module JtagLockstep {
  import opened Tap
  import opened JtagPhy
  import opened JtagSystem
  import opened JtagPreserve
  import opened JtagTheorems

  /** Where the target is. */
  predicate InStep(r: Regs, tap: Tap) {
    if Sequencing(r) then
      && r.ctr <= SequenceEnd(r.cmd)
      && tap == SequenceTap(r.cmd, RunTestIdle, r.ctr) && r.tms == SequenceTmsAt(r.cmd, r.ctr)
    else
      TmsOk(r.state, r.tms) && (tap == Decode(r.state) || (Gated(r) && tap.Update?))
  }

  /** A command in hand before it has moved, or that has nowhere to go, has all its packets and has not begun. */
  predicate Unmoved(r: Regs) {
    && r.busy && !r.dvalid
    && (Sequencing(r) || ((r.nstate.lo == LIdle ==> r.ctr <= r.olen <= 1) && (r.olen == 0 ==> r.ctr == 0)))
  }

  /** Without one, the PHY is on its way home or asked to pause. */
  predicate Homing(r: Regs) {
    && (r.nstate.lo == LIdle ==>
          r.state.lo == LShift || r.state.lo == LExit1 || r.state.lo == LUpdate || r.state.lo == LIdle)
    && (r.state == LOGIC_RESET ==> r.nstate == LOGIC_RESET && !r.reqBlocked && !r.respBlocked)
  }

  predicate Steady(r: Regs) {
    && |r.dout| == BUF_SZ
    && (r.nstate == LOGIC_RESET ==> r.state == LOGIC_RESET && !r.pending)
    && (if r.pending then r.nstate.lo == LIdle || r.state.lo == LIdle ==> Unmoved(r) else Homing(r))
  }

  /** A length-0 command is walked to its end, whatever the FIFOs do. */
  lemma SequenceStep(r: Regs, i: In)
    requires |r.dout| == BUF_SZ && Sequencing(r) && r.busy && !r.dvalid && r.ctr <= SequenceEnd(r.cmd)
    ensures var r' := Step(r, i); var done := r.ctr == SequenceEnd(r.cmd);
      && r'.state == RUNTEST_IDLE && r'.cmd == r.cmd && r'.olen == 0 && |r'.dout| == BUF_SZ && !r'.dvalid
      && r'.pending == r'.busy == !done && r'.ctr == r.ctr + 1 && r'.tms == SequenceTms(r.cmd, r.ctr, r.tms)
      && (r'.nstate == LOGIC_RESET ==> r.nstate == LOGIC_RESET)
  {
  }

  /** A new command is loaded. */
  lemma FreshSteady(r: Regs, i: In)
    requires Steady(r) && Fresh(r) && |i.rd.data| == BUF_SZ
    ensures Steady(Step(r, i)) && Step(r, i).ctr == 0 && Step(r, i).pending
  {
  }

  /** No command in hand. */
  lemma HomingSteady(r: Regs, i: In)
    requires Steady(r) && !r.pending && !Fresh(r) && (r.dvalid ==> |i.rd.data| == BUF_SZ)
    ensures Steady(Step(r, i)) && !Step(r, i).pending
  {
  }

  /** A command that has not moved yet. */
  lemma UnmovedSteady(r: Regs, i: In)
    requires Steady(r) && r.pending && Unmoved(r) && !Sequencing(r) && (r.nstate.lo == LIdle || r.state.lo == LIdle)
    ensures Steady(Step(r, i))
  {
  }

  /** A command under way. */
  lemma MovedSteady(r: Regs, i: In)
    requires Steady(r) && r.pending && r.nstate.lo != LIdle && r.state.lo != LIdle
    requires r.dvalid ==> |i.rd.data| == BUF_SZ
    ensures Steady(Step(r, i))
  {
  }

  lemma SteadyStep(r: Regs, i: In)
    requires Steady(r) && (r.dvalid ==> |i.rd.data| == BUF_SZ) && (Sequencing(r) ==> r.ctr <= SequenceEnd(r.cmd))
    ensures Steady(Step(r, i))
  {
    if Sequencing(r) { SequenceStep(r, i); }
    else if Fresh(r) { FreshSteady(r, i); }
    else if !r.pending { HomingSteady(r, i); }
    else if r.nstate.lo == LIdle || r.state.lo == LIdle { UnmovedSteady(r, i); }
    else { MovedSteady(r, i); }
  }

  /** The target after the clock that leaves the PHY's registers at `r`. */
  function Driven(tap: Tap, r: Regs): Tap { if Gated(r) then tap else TapNext(tap, r.tms) }

  lemma SequenceInStep(r: Regs, i: In, tap: Tap)
    requires Steady(r) && Sequencing(r) && InStep(r, tap)
    ensures InStep(Step(r, i), Driven(tap, Step(r, i)))
  {
    SequenceStep(r, i);
    SequenceEndsIdle(r.cmd);
    assert SequenceTmsAt(r.cmd, r.ctr + 1) == SequenceTms(r.cmd, r.ctr, SequenceTmsAt(r.cmd, r.ctr));
  }

  /** A length-0 command begins with the target in Run-Test/Idle and TMS low. */
  lemma BeginsAtRest(r: Regs, i: In)
    requires Steady(r) && !Sequencing(r) && Sequencing(Step(r, i)) && TmsOk(r.state, r.tms)
    ensures var r' := Step(r, i); r'.ctr == 0 && !r'.tms
    ensures r.state == LOGIC_RESET || r.state == RUNTEST_IDLE || r.state.lo == LUpdate
  {
    FsmLockstep(r.state, r.nstate, r.tms);
  }

  /** TCK stops with the target in Run-Test/Idle, or in Update on the way there. */
  lemma StopsAtRest(r: Regs, i: In)
    requires Steady(r) && !Sequencing(r) && Gated(Step(r, i))
    ensures Gated(r) || r.state.lo == LUpdate
  {
  }

  lemma WalkInStep(r: Regs, i: In, tap: Tap)
    requires Steady(r) && !Sequencing(r) && InStep(r, tap)
    ensures InStep(Step(r, i), Driven(tap, Step(r, i)))
  {
    var r' := Step(r, i);
    FsmLockstep(r.state, r.nstate, r.tms);
    if Sequencing(r') { BeginsAtRest(r, i); }
    else if Gated(r') { StopsAtRest(r, i); }
  }

  ghost predicate Locked(stream: seq<Packet>, y: Sys) {
    && y.rdIdx <= y.arrived <= |stream|
    && Steady(y.r) && InStep(y.r, y.tap) && (y.r.dvalid ==> |y.rd.data| == BUF_SZ)
  }

  /** Packets of the right width, and nothing more. */
  predicate Sized(stream: seq<Packet>) { forall k :: 0 <= k < |stream| ==> |stream[k].data| == BUF_SZ }

  lemma LockedStep(stream: seq<Packet>, y: Sys, k: Tick)
    requires Sized(stream) && Locked(stream, y) && y.arrived <= k.arrived <= |stream|
    ensures Locked(stream, Clock(stream, y, k))
  {
    var i := Input(y, k.full, k.ilen);
    SteadyStep(y.r, i);
    if Sequencing(y.r) { SequenceInStep(y.r, i, y.tap); } else { WalkInStep(y.r, i, y.tap); }
  }

  lemma {:induction false} LockedRun(stream: seq<Packet>, states: seq<Sys>, ticks: seq<Tick>, i: nat)
    requires Sized(stream) && IsAnyRun(stream, states, ticks) && i < |states|
    ensures Locked(stream, states[i])
  {
    if i > 0 {
      LockedRun(stream, states, ticks, i - 1);
      LockedStep(stream, states[i - 1], ticks[i - 1]);
      assert states[i - 1 + 1] == Clock(stream, states[i - 1], ticks[i - 1]);
    }
  }

  /** In every run, of any commands: outside length-0 sequences and gaps in TCK the target is in the PHY's own state;
      during a sequence it is where the sequence has walked it; while TCK is gated it waits, TMS low, in Run-Test/Idle
      or Update. */
  lemma LockstepInEveryRun(stream: seq<Packet>, states: seq<Sys>, ticks: seq<Tick>, i: nat)
    requires Sized(stream) && IsAnyRun(stream, states, ticks) && i < |states|
    ensures var y := states[i];
      if Gated(y.r) then (y.tap == RunTestIdle || y.tap.Update?) && !y.r.tms
      else if Sequencing(y.r) then y.tap == SequenceTap(y.r.cmd, RunTestIdle, y.r.ctr)
      else y.tap == Decode(y.r.state)
  {
    LockedRun(stream, states, ticks, i);
  }

  /** And every length-0 command ends with the target in Run-Test/Idle. */
  lemma SequencesEndIdle(stream: seq<Packet>, states: seq<Sys>, ticks: seq<Tick>, i: nat)
    requires Sized(stream) && IsAnyRun(stream, states, ticks) && i < |ticks|
    requires Sequencing(states[i].r) && !Sequencing(states[i + 1].r)
    ensures Gated(states[i + 1].r) && states[i + 1].tap == RunTestIdle && !states[i + 1].r.tms
  {
    LockedRun(stream, states, ticks, i);
    LockedRun(stream, states, ticks, i + 1);
    var y, k := states[i], ticks[i];
    assert states[i + 1] == Clock(stream, y, k);
    SequenceStep(y.r, Input(y, k.full, k.ilen));
    SequenceEndsIdle(y.r.cmd);
  }
}
