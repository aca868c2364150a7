/** What holds of every run of the PHY: lockstep, exactly the packets' bits, and an end to every command. */
module JtagTheorems {
  import opened Tap
  import opened JtagPhy
  import opened JtagSystem
  import opened JtagPreserve

  lemma CyclePreserves(stream: seq<Packet>, y: Sys, full: bool, ilen: nat, arrived: nat)
    requires Roomy(stream, full)
    requires Inv(stream, y) && y.arrived <= arrived <= |stream|
    ensures Inv(stream, Cycle(stream, y, full, ilen, arrived))
  {
    var total := Total(stream, 0);
    if QuietInv(stream, y, total) {
      if y.r.dvalid { LatchFirst(stream, y, full, ilen, arrived, total); }
      else { StayQuiet(stream, y, full, ilen, arrived, total); }
    } else if WalkInv(stream, y, total) {
      WalkPreserves(stream, y, full, ilen, arrived, total);
    } else {
      WritePreserves(stream, y, full, ilen, arrived, total);
    }
  }

  lemma WritePreserves(stream: seq<Packet>, y: Sys, full: bool, ilen: nat, arrived: nat, total: seq<Event>)
    requires Roomy(stream, full)
    requires WriteInv(stream, y, total) && y.arrived <= arrived <= |stream|
    ensures var y' := Cycle(stream, y, full, ilen, arrived); QuietInv(stream, y', total) || WriteInv(stream, y', total)
  {
    if Going(y.r, y.pk) {
      GoPreserves(stream, y, full, ilen, arrived, total);
    } else if InShift(y) {
      if y.r.reqBlocked { StarvedShift(stream, y, full, ilen, arrived, total); }
      else if y.r.busy { BusyShift(stream, y, full, ilen, arrived, total); }
      else { FetchShift(stream, y, full, ilen, arrived, total); }
    } else {
      if !y.r.reqBlocked { ResumePreserves(stream, y, full, ilen, arrived, total); }
      else if y.r.dvalid { LoadPreserves(stream, y, full, ilen, arrived, total); }
      else { WaitPreserves(stream, y, full, ilen, arrived, total); }
    }
  }

  // ---------- runs

  /** The surroundings on one clock: the response FIFO's flag, the response side's bit count, and how many
      packets have arrived by its end. */
  datatype Tick = Tick(full: bool, ilen: nat, arrived: nat)

  /** Out of reset, with the target in Test-Logic-Reset; the FIFO's output register holds anything. */
  predicate AtStart(y: Sys) {
    OutOfReset(y.r) && y.rdIdx == 0 && y.arrived == 0 && y.tap == TestLogicReset && y.log == [] && y.ci == 0
  }

  /** One clock. The guard holds in every run: see RunInv. */
  function Clock(stream: seq<Packet>, y: Sys, k: Tick): Sys {
    if y.rdIdx <= y.arrived <= |stream| && |y.r.dout| == BUF_SZ then Cycle(stream, y, k.full, k.ilen, k.arrived) else y
  }

  /** Any run from reset, of any packets: any surroundings, except that packets only ever arrive. */
  predicate IsAnyRun(stream: seq<Packet>, states: seq<Sys>, ticks: seq<Tick>) {
    && |states| == |ticks| + 1 && AtStart(states[0])
    && forall i :: 0 <= i < |ticks| ==>
         states[i].arrived <= ticks[i].arrived <= |stream| && states[i + 1] == Clock(stream, states[i], ticks[i])
  }

  /** A run of the commands the PHY serves. */
  ghost predicate IsRun(stream: seq<Packet>, states: seq<Sys>, ticks: seq<Tick>) {
    && WellFormed(stream, 0)
    && |states| == |ticks| + 1 && AtStart(states[0])
    && forall i :: 0 <= i < |ticks| ==>
         && Roomy(stream, ticks[i].full)
         && states[i].arrived <= ticks[i].arrived <= |stream| && states[i + 1] == Clock(stream, states[i], ticks[i])
  }

  lemma StartInv(stream: seq<Packet>, y: Sys)
    requires WellFormed(stream, 0) && AtStart(y)
    ensures Inv(stream, y)
  {
    assert QuietInv(stream, y, Total(stream, 0));
  }

  lemma {:induction false} RunInv(stream: seq<Packet>, states: seq<Sys>, ticks: seq<Tick>, i: nat)
    requires IsRun(stream, states, ticks) && i < |states|
    ensures Inv(stream, states[i])
  {
    if i == 0 {
      StartInv(stream, states[0]);
    } else {
      RunInv(stream, states, ticks, i - 1);
      var t := ticks[i - 1];
      CyclePreserves(stream, states[i - 1], t.full, t.ilen, t.arrived);
    }
  }

  /** Nothing left to do: every packet has been sent and TCK is idle. */
  predicate Done(stream: seq<Packet>, y: Sys) {
    y.rdIdx == |stream| && !y.r.pending && !y.r.dvalid && y.r.state.lo == LIdle
  }

  /** However the packets arrive, the target never sees a capture, bit or update it should not, out of order
      or twice; once the PHY is done it has seen them all. */
  lemma ExactlyTheBits(stream: seq<Packet>, states: seq<Sys>, ticks: seq<Tick>, i: nat)
    requires IsRun(stream, states, ticks) && i < |states|
    ensures states[i].log <= Total(stream, 0)
    ensures Done(stream, states[i]) ==> states[i].log == Total(stream, 0)
  {
    RunInv(stream, states, ticks, i);
    LogIsPrefix(stream, states[i]);
  }

  lemma LogIsPrefix(stream: seq<Packet>, y: Sys)
    requires Inv(stream, y)
    ensures y.log <= Total(stream, 0) && (Done(stream, y) ==> y.log == Total(stream, 0))
  {
  }

  // ---------- every command ends

  /** How far a command has to go when no bit is sent: on the way to SHIFT-xR, or round PAUSE-xR. */
  function Detour(r: Regs): nat {
    match r.state.lo
    case LIdle => if r.state.ir then 5 else 4
    case LUpdate => 4
    case LSelect => if r.state.ir then 2 else 3
    case LCapture => 1
    case LExit1 => 8
    case LPause => if r.reqBlocked then (if r.busy then 7 else if r.dvalid then 5 else 6)
                   else if r.nstate.lo == LPause then 4 else 3
    case LExit2 => 2
    case LShift => 0
  }

  function HomeRank(r: Regs): nat {
    2 * (match r.state.lo case LShift => 3 case LExit1 => 2 case LUpdate => 1 case _ => 0) + (if r.dvalid then 0 else 1)
  }

  /** The work left, compared lexicographically: commands, whether one is in hand, its bits, its detours. */
  function Work(stream: seq<Packet>, y: Sys): (nat, nat, nat, nat)
    requires y.ci <= |stream|
  {
    (|stream| - y.ci,
     if y.r.pending then 0 else 1,
     if !y.r.pending then 0 else if y.r.olen == 0 then 96 - (if y.r.ctr <= 96 then y.r.ctr else 96)
     else if y.r.ctr <= y.r.olen then y.r.olen - y.r.ctr else 0,
     if !y.r.pending then HomeRank(y.r) else if y.r.olen == 0 then (if y.r.state == RUNTEST_IDLE then 0 else 1)
     else Detour(y.r))
  }

  predicate Less(a: (nat, nat, nat, nat), b: (nat, nat, nat, nat)) {
    || a.0 < b.0
    || (a.0 == b.0 && (a.1 < b.1 || (a.1 == b.1 && (a.2 < b.2 || (a.2 == b.2 && a.3 < b.3)))))
  }

  /** There is nothing to do until another packet arrives. */
  predicate Starved(y: Sys) {
    && !y.r.dvalid && y.rdIdx == y.arrived
    && if y.r.pending then Paused(y.r) && y.r.reqBlocked && !y.r.busy else y.r.state.lo == LIdle
  }

  /** With every packet there, only the end is like that. */
  lemma StarvedIsDone(stream: seq<Packet>, y: Sys)
    requires Inv(stream, y) && y.arrived == |stream| && Starved(y)
    ensures Done(stream, y)
  {
  }

  lemma QuietWorks(stream: seq<Packet>, y: Sys, full: bool, ilen: nat, arrived: nat)
    requires Roomy(stream, full)
    requires Common(stream, y) && Quiet(stream, y) && y.arrived <= arrived <= |stream| && !Starved(y)
    ensures var y' := Cycle(stream, y, full, ilen, arrived);
      y'.ci <= |stream| && Less(Work(stream, y'), Work(stream, y))
  {
    if y.r.dvalid { FreshStep(y.r, Input(y, full, ilen)); } else { QuietStep(y.r, Input(y, full, ilen)); }
  }

  lemma WalkWorks(stream: seq<Packet>, y: Sys, full: bool, ilen: nat, arrived: nat, total: seq<Event>)
    requires Roomy(stream, full)
    requires WalkInv(stream, y, total) && y.arrived <= arrived <= |stream|
    ensures var y' := Cycle(stream, y, full, ilen, arrived);
      y'.ci <= |stream| && Less(Work(stream, y'), Work(stream, y))
  {
    WalkCycle(stream, y, full, ilen, arrived);
    WalkStep(y.r, Input(y, full, ilen));
  }

  lemma GoWorks(stream: seq<Packet>, y: Sys, full: bool, ilen: nat, arrived: nat, total: seq<Event>)
    requires Roomy(stream, full)
    requires WriteInv(stream, y, total) && y.arrived <= arrived <= |stream| && Going(y.r, y.pk)
    ensures var y' := Cycle(stream, y, full, ilen, arrived);
      y'.ci <= |stream| && Less(Work(stream, y'), Work(stream, y))
  {
    GoCycle(stream, y, full, ilen, arrived);
    GoStep(y.r, Input(y, full, ilen), y.pk);
  }

  lemma ShiftWorks(stream: seq<Packet>, y: Sys, full: bool, ilen: nat, arrived: nat, total: seq<Event>)
    requires Roomy(stream, full)
    requires WriteInv(stream, y, total) && y.arrived <= arrived <= |stream| && InShift(y)
    ensures var y' := Cycle(stream, y, full, ilen, arrived);
      y'.ci <= |stream| && Less(Work(stream, y'), Work(stream, y))
  {
    ShiftReady(stream, y);
    ShiftCycle(stream, y, full, ilen, arrived);
    var i := Input(y, full, ilen);
    if y.r.reqBlocked { StarveStep(y.r, i); }
    else if y.r.busy { SendStep(y.r, i); }
    else {
      if y.r.dvalid { NextPacket(stream, y); }
      FetchStep(y.r, i);
    }
  }

  lemma ResumeWorks(stream: seq<Packet>, y: Sys, full: bool, ilen: nat, arrived: nat)
    requires Roomy(stream, full)
    requires Pauses(stream, y) && y.arrived <= arrived <= |stream| && !y.r.reqBlocked
    ensures var y' := Cycle(stream, y, full, ilen, arrived);
      y'.ci <= |stream| && Less(Work(stream, y'), Work(stream, y))
  {
    PauseCycle(stream, y, full, ilen, arrived);
    ResumeStep(y.r, Input(y, full, ilen));
  }

  lemma WaitWorks(stream: seq<Packet>, y: Sys, full: bool, ilen: nat, arrived: nat)
    requires Roomy(stream, full)
    requires Pauses(stream, y) && y.arrived <= arrived <= |stream| && y.r.reqBlocked && !y.r.dvalid && !Starved(y)
    ensures var y' := Cycle(stream, y, full, ilen, arrived);
      y'.ci <= |stream| && Less(Work(stream, y'), Work(stream, y))
  {
    PauseCycle(stream, y, full, ilen, arrived);
    WaitStep(y.r, Input(y, full, ilen));
  }

  lemma LoadWorks(stream: seq<Packet>, y: Sys, full: bool, ilen: nat, arrived: nat)
    requires Roomy(stream, full)
    requires Pauses(stream, y) && y.arrived <= arrived <= |stream| && y.r.reqBlocked && y.r.dvalid
    ensures var y' := Cycle(stream, y, full, ilen, arrived);
      y'.ci <= |stream| && Less(Work(stream, y'), Work(stream, y))
  {
    PauseCycle(stream, y, full, ilen, arrived);
    NextPacket(stream, y);
    WaitStep(y.r, Input(y, full, ilen));
  }

  lemma Works(stream: seq<Packet>, y: Sys, full: bool, ilen: nat, arrived: nat)
    requires Roomy(stream, full)
    requires Inv(stream, y) && y.arrived <= arrived <= |stream| && !Starved(y)
    ensures var y' := Cycle(stream, y, full, ilen, arrived);
      Inv(stream, y') && y'.ci <= |stream| && Less(Work(stream, y'), Work(stream, y))
  {
    CyclePreserves(stream, y, full, ilen, arrived);
    var total := Total(stream, 0);
    if QuietInv(stream, y, total) { QuietWorks(stream, y, full, ilen, arrived); }
    else if WalkInv(stream, y, total) { WalkWorks(stream, y, full, ilen, arrived, total); }
    else if Going(y.r, y.pk) { GoWorks(stream, y, full, ilen, arrived, total); }
    else if InShift(y) { ShiftWorks(stream, y, full, ilen, arrived, total); }
    else if !y.r.reqBlocked { ResumeWorks(stream, y, full, ilen, arrived); }
    else if y.r.dvalid { LoadWorks(stream, y, full, ilen, arrived); }
    else { WaitWorks(stream, y, full, ilen, arrived); }
  }

  /** The clocks left, at most: every part of the work is bounded. */
  function ClocksLeft(stream: seq<Packet>, y: Sys): int {
    if y.ci > |stream| then 0
    else var (commands, waiting, bits, detour) := Work(stream, y); ((commands * 2 + waiting) * 4096 + bits) * 9 + detour
  }

  lemma WorkBounded(stream: seq<Packet>, y: Sys)
    requires Inv(stream, y)
    ensures y.ci <= |stream|
    ensures var w := Work(stream, y); w.0 <= |stream| && w.1 <= 1 && w.2 < 4096 && w.3 < 9
  {
  }

  lemma ClocksFall(stream: seq<Packet>, y: Sys, t: Tick)
    requires Inv(stream, y) && y.arrived <= t.arrived <= |stream| && !Starved(y) && Roomy(stream, t.full)
    ensures var y' := Cycle(stream, y, t.full, t.ilen, t.arrived);
      Inv(stream, y') && 0 <= ClocksLeft(stream, y') < ClocksLeft(stream, y)
  {
    Works(stream, y, t.full, t.ilen, t.arrived);
    WorkBounded(stream, y);
    WorkBounded(stream, Cycle(stream, y, t.full, t.ilen, t.arrived));
  }

  lemma StaysDone(stream: seq<Packet>, y: Sys, t: Tick)
    requires Inv(stream, y) && y.arrived == t.arrived == |stream| && Done(stream, y) && Roomy(stream, t.full)
    ensures Done(stream, Cycle(stream, y, t.full, t.ilen, t.arrived))
  {
    QuietStep(y.r, Input(y, t.full, t.ilen));
  }

  lemma DrainStep(stream: seq<Packet>, states: seq<Sys>, ticks: seq<Tick>, i: nat)
    requires IsRun(stream, states, ticks) && i < |ticks| && states[i].arrived == |stream|
    ensures states[i + 1].arrived == |stream|
    ensures if Done(stream, states[i]) then Done(stream, states[i + 1])
            else ClocksLeft(stream, states[i + 1]) < ClocksLeft(stream, states[i])
  {
    RunInv(stream, states, ticks, i);
    if Done(stream, states[i]) { StaysDone(stream, states[i], ticks[i]); }
    else {
      if Starved(states[i]) { StarvedIsDone(stream, states[i]); }
      ClocksFall(stream, states[i], ticks[i]);
    }
  }

  lemma {:induction false} AllArrived(stream: seq<Packet>, states: seq<Sys>, ticks: seq<Tick>, k: nat, i: nat)
    requires IsRun(stream, states, ticks) && k <= i < |states| && states[k].arrived == |stream|
    ensures states[i].arrived == |stream|
  {
    if i > k {
      AllArrived(stream, states, ticks, k, i - 1);
      DrainStep(stream, states, ticks, i - 1);
    }
  }

  /** A count that falls until something is done, which then stays done. */
  lemma {:induction false} CountsDown(left: seq<int>, done: seq<bool>, k: nat, i: nat)
    requires |left| == |done| && k <= i < |left|
    requires forall j {:trigger left[j]} :: k <= j < i ==> if done[j] then done[j + 1] else left[j + 1] < left[j]
    ensures done[i] || left[i] + (i - k) <= left[k]
    decreases i
  {
    if i > k {
      CountsDown(left, done, k, i - 1);
      assert if done[i - 1] then done[i - 1 + 1] else left[i - 1 + 1] < left[i - 1];
    }
  }

  lemma Drains(stream: seq<Packet>, states: seq<Sys>, ticks: seq<Tick>, k: nat, i: nat)
    requires IsRun(stream, states, ticks) && k <= i < |states| && states[k].arrived == |stream|
    ensures Done(stream, states[i]) || ClocksLeft(stream, states[i]) + (i - k) <= ClocksLeft(stream, states[k])
  {
    var left := seq(|states|, j requires 0 <= j < |states| => ClocksLeft(stream, states[j]));
    var done := seq(|states|, j requires 0 <= j < |states| => Done(stream, states[j]));
    forall j | k <= j < i ensures if done[j] then done[j + 1] else left[j + 1] < left[j] {
      AllArrived(stream, states, ticks, k, j);
      DrainStep(stream, states, ticks, j);
    }
    CountsDown(left, done, k, i);
  }

  /** Once every packet has arrived, 73,728 clocks for each, and as many over, are enough to send everything. */
  lemma EveryCommandEnds(stream: seq<Packet>, states: seq<Sys>, ticks: seq<Tick>, k: nat, i: nat)
    requires IsRun(stream, states, ticks) && k <= i < |states| && states[k].arrived == |stream|
    requires i - k >= 73728 * (|stream| + 1)
    ensures Done(stream, states[i]) && states[i].log == Total(stream, 0)
  {
    RunInv(stream, states, ticks, k);
    RunInv(stream, states, ticks, i);
    WorkBounded(stream, states[k]);
    WorkBounded(stream, states[i]);
    Drains(stream, states, ticks, k, i);
    LogIsPrefix(stream, states[i]);
  }
}
