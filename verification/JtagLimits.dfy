/** The lengths of write the PHY does not serve, and what it does instead. */
module JtagLimits {
  import opened Tap
  import opened JtagPhy
  import opened JtagSystem
  import opened JtagPreserve
  import opened JtagTheorems

  // ---------- the host's packets and the PHY's

  /** What the host sends for a write of `len` bits: as many packets as they fill, with one header. */
  predicate HostWrite(host: seq<Packet>, len: nat, c: Cmd) {
    && 2 <= len < 4096 && !c.read && !c.ext
    && |host| == (len + 63) / 64
    && forall k :: 0 <= k < |host| ==> host[k].len == len && host[k].cmd == c && |host[k].data| == BUF_SZ
  }

  /** What it asks the target to see. */
  function Requested(host: seq<Packet>, len: nat, c: Cmd): seq<Event>
    requires HostWrite(host, len, c)
  {
    [Captured(c.ir)] + seq(len, k requires 0 <= k < len => Shifted(c.ir, host[k / 64].data[k % 64])) + [Updated(c.ir)]
  }

  /** The lengths whose packets the PHY all takes. */
  predicate Served(len: nat) { len <= 64 || len % 64 == 0 || len % 64 >= 62 }

  lemma TakenAll(len: nat)
    requires 2 <= len
    ensures FetchCount(len, false) == (if Served(len) then (len + 63) / 64 else (len + 63) / 64 - 1)
    ensures !Served(len) ==> 64 * FetchCount(len, false) < len <= 64 * FetchCount(len, false) + 64
  {
  }

  /** The packets the PHY takes for the write. */
  function Taken(host: seq<Packet>, len: nat, c: Cmd): seq<Packet>
    requires HostWrite(host, len, c)
  {
    TakenAll(len);
    host[..FetchCount(len, false)]
  }

  lemma TakenWellFormed(host: seq<Packet>, len: nat, c: Cmd)
    requires HostWrite(host, len, c)
    ensures WellFormed(Taken(host, len, c), 0) && Next(Taken(host, len, c), 0) == |Taken(host, len, c)|
  {
    var s := Taken(host, len, c);
    assert WellFormed(s, |s|);
  }

  /** The bits past the packets taken are sent as zeros. */
  predicate Blank(host: seq<Packet>, len: nat, c: Cmd)
    requires HostWrite(host, len, c)
  {
    forall k :: 64 * FetchCount(len, false) <= k < len ==> !host[k / 64].data[k % 64]
  }

  lemma BitTaken(host: seq<Packet>, len: nat, c: Cmd, k: nat)
    requires HostWrite(host, len, c) && k < len && WellFormed(Taken(host, len, c), 0)
    ensures Bit(Taken(host, len, c), 0, k) == (k < 64 * FetchCount(len, false) && host[k / 64].data[k % 64])
  {
    TakenAll(len);
  }

  /** What the target sees of the packets taken is what was asked for exactly when none is left, or asks for
      zeros only. */
  lemma TotalOfTaken(host: seq<Packet>, len: nat, c: Cmd)
    requires HostWrite(host, len, c)
    ensures WellFormed(Taken(host, len, c), 0)
    ensures |Total(Taken(host, len, c), 0)| == |Requested(host, len, c)| == len + 2
    ensures Total(Taken(host, len, c), 0) == Requested(host, len, c) <==> Served(len) || Blank(host, len, c)
  {
    var s := Taken(host, len, c);
    TakenAll(len);
    TakenWellFormed(host, len, c);
    TotalFirst(s, 0);
    var total, asked := Total(s, 0), Requested(host, len, c);
    assert Total(s, |s|) == [];
    forall k | 0 <= k < len
      ensures total[k + 1] == Shifted(c.ir, k < 64 * FetchCount(len, false) && host[k / 64].data[k % 64])
      ensures asked[k + 1] == Shifted(c.ir, host[k / 64].data[k % 64])
    {
      BitTaken(host, len, c, k);
      assert total[k + 1] == Bits(s, 0, 0)[k];
    }
    if total == asked && !Served(len) {
      forall k | 64 * FetchCount(len, false) <= k < len ensures !host[k / 64].data[k % 64] {
        assert total[k + 1] == asked[k + 1];
      }
    }
    if Served(len) || Blank(host, len, c) {
      forall j | 0 <= j < len + 2 ensures total[j] == asked[j] {
        if 0 < j < len + 1 { assert total[j - 1 + 1] == asked[j - 1 + 1]; }
      }
    }
  }

  /** A length is served exactly when whatever the packets hold the target sees all of it: for len 65, say, two
      packets of ones are sent as 64 ones and a zero. */
  lemma ServedLengths(len: nat, c: Cmd)
    requires 2 <= len < 4096 && !c.read && !c.ext
    ensures Served(len) <==>
      forall host | HostWrite(host, len, c) ::
        WellFormed(Taken(host, len, c), 0) && Total(Taken(host, len, c), 0) == Requested(host, len, c)
  {
    forall host | HostWrite(host, len, c)
      ensures WellFormed(Taken(host, len, c), 0)
      ensures Served(len) ==> Total(Taken(host, len, c), 0) == Requested(host, len, c)
    {
      TotalOfTaken(host, len, c);
    }
    if !Served(len) {
      var ones := seq(64, _ => true);
      var host := seq((len + 63) / 64, _ => Packet(ones, len, c));
      assert HostWrite(host, len, c);
      TakenAll(len);
      var k := 64 * FetchCount(len, false);
      assert host[k / 64].data[k % 64];
      TotalOfTaken(host, len, c);
    }
  }

  // ---------- runs of the host's packets

  /** Packets that have not arrived make no difference. */
  lemma ClockPrefix(s: seq<Packet>, t: seq<Packet>, y: Sys, k: Tick)
    requires Inv(s, y) && s <= t && k.arrived <= |s|
    ensures Clock(s, y, k) == Clock(t, y, k)
  {
    if y.ci == |s| && Finishing(y.r) { QuietIsLast(s, y); }
  }

  lemma QuietIsLast(s: seq<Packet>, y: Sys)
    requires Inv(s, y) && y.ci == |s|
    ensures !Finishing(y.r) && !SequenceDone(y.r)
  {
  }

  lemma RunGrows(s: seq<Packet>, states: seq<Sys>, ticks: seq<Tick>, k: Tick)
    requires IsRun(s, states, ticks) && states[|ticks|].arrived <= k.arrived <= |s| && !HasRead(s)
    ensures IsRun(s, states + [Clock(s, states[|ticks|], k)], ticks + [k])
  {
  }

  lemma PrefixClock(s: seq<Packet>, t: seq<Packet>, states: seq<Sys>, ticks: seq<Tick>, n: nat)
    requires s <= t && IsAnyRun(t, states, ticks) && n < |ticks| && ticks[n].arrived <= |s|
    requires IsRun(s, states[..n + 1], ticks[..n])
    ensures states[n].arrived <= ticks[n].arrived && states[n + 1] == Clock(s, states[n], ticks[n])
  {
    RunInv(s, states[..n + 1], ticks[..n], n);
    ClockPrefix(s, t, states[n], ticks[n]);
  }

  lemma OneLonger(s: seq<Packet>, states: seq<Sys>, ticks: seq<Tick>, n: nat)
    requires n < |ticks| < |states| && IsRun(s, states[..n + 1], ticks[..n]) && !HasRead(s)
    requires states[n].arrived <= ticks[n].arrived <= |s| && states[n + 1] == Clock(s, states[n], ticks[n])
    ensures IsRun(s, states[..n + 2], ticks[..n + 1])
  {
    RunGrows(s, states[..n + 1], ticks[..n], ticks[n]);
    assert states[..n + 2] == states[..n + 1] + [states[n + 1]] && ticks[..n + 1] == ticks[..n] + [ticks[n]];
  }

  lemma {:induction false} RunOfPrefix(s: seq<Packet>, t: seq<Packet>, states: seq<Sys>, ticks: seq<Tick>, n: nat)
    requires WellFormed(s, 0) && !HasRead(s) && s <= t && IsAnyRun(t, states, ticks) && n <= |ticks|
    requires forall j :: 0 <= j < n ==> ticks[j].arrived <= |s|
    ensures IsRun(s, states[..n + 1], ticks[..n])
  {
    if n > 0 {
      RunOfPrefix(s, t, states, ticks, n - 1);
      PrefixClock(s, t, states, ticks, n - 1);
      OneLonger(s, states, ticks, n - 1);
    }
  }

  /** Until a packet arrives that is left over: once the packets the PHY takes have, it captures, shifts as many
      bits as the write has and updates, with the bits asked for exactly when there is no other packet or that one
      holds none but zeros. */
  lemma WriteAsTaken(host: seq<Packet>, len: nat, c: Cmd, states: seq<Sys>, ticks: seq<Tick>, k: nat, i: nat)
    requires HostWrite(host, len, c) && IsAnyRun(host, states, ticks) && k <= i <= |ticks|
    requires states[k].arrived == |Taken(host, len, c)|
    requires forall j :: 0 <= j < i ==> ticks[j].arrived <= |Taken(host, len, c)|
    requires i - k >= 73728 * (|Taken(host, len, c)| + 1)
    ensures Done(Taken(host, len, c), states[i]) && |states[i].log| == len + 2
    ensures states[i].log == Requested(host, len, c) <==> Served(len) || Blank(host, len, c)
  {
    var s := Taken(host, len, c);
    TakenWellFormed(host, len, c);
    RunOfPrefix(s, host, states, ticks, i);
    EveryCommandEnds(s, states[..i + 1], ticks[..i], k, i);
    TotalOfTaken(host, len, c);
  }

  lemma SameBits(host: seq<Packet>, len: nat, c: Cmd, stream: seq<Packet>)
    requires HostWrite(host, len, c) && host <= stream && WellFormed(stream, 0) && WellFormed(Taken(host, len, c), 0)
    ensures Bits(stream, 0, 0) == Bits(Taken(host, len, c), 0, 0)
  {
    var s := Taken(host, len, c);
    forall k | 0 <= k < len ensures Bit(stream, 0, k) == Bit(s, 0, k) {
      if k / 64 < FetchCount(len, false) { assert stream[k / 64] == host[k / 64] == s[k / 64]; }
    }
  }

  /** A stream that goes on from the packet left over: that packet begins its next command. */
  lemma TotalGoesOn(host: seq<Packet>, len: nat, c: Cmd, stream: seq<Packet>)
    requires HostWrite(host, len, c) && host <= stream && WellFormed(stream, 0) && !Served(len)
    ensures WellFormed(Taken(host, len, c), 0) && WellFormed(stream, |Taken(host, len, c)|)
    ensures Total(stream, 0) == Total(Taken(host, len, c), 0) + Total(stream, |Taken(host, len, c)|)
    ensures [Captured(c.ir)] <= Total(stream, |Taken(host, len, c)|)
  {
    var s := Taken(host, len, c);
    var n := |s|;
    TakenAll(len);
    TakenWellFormed(host, len, c);
    SameBits(host, len, c, stream);
    assert stream[0] == host[0] == s[0] && stream[n] == host[n] && Next(stream, 0) == n;
    TotalFirst(stream, 0);
    TotalFirst(s, 0);
    TotalFirst(stream, n);
    assert Total(s, n) == [];
  }

  // ---------- every run of an unserved length

  /** The packets taken, then as many more with the same header, of which the one left over is the first: what the
      PHY would have to be sent for both its commands to end. */
  function Padded(host: seq<Packet>, len: nat, c: Cmd): seq<Packet>
    requires HostWrite(host, len, c)
  {
    var s := Taken(host, len, c);
    s + seq(|s|, _ => host[|host| - 1])
  }

  /** A run of as many packets as two commands take is only well formed from where one begins. */
  lemma NotMidway(p: seq<Packet>, n: nat, ci: nat)
    requires |p| == 2 * n && n >= 1 && ci <= |p| && WellFormed(p, ci)
    requires forall k :: 0 <= k < |p| ==> Olen(p[k]) != 0 && FetchCount(Olen(p[k]), p[k].cmd.ext) == n
    ensures ci == 0 || ci == n || ci == 2 * n
  {
  }

  /** Its commands begin at 0 and after the packets taken. */
  lemma PaddedWellFormed(host: seq<Packet>, len: nat, c: Cmd)
    requires HostWrite(host, len, c) && !Served(len)
    ensures var (p, n) := (Padded(host, len, c), |Taken(host, len, c)|);
      && 1 <= n == FetchCount(len, false) && |p| == 2 * n && |host| == n + 1 && host <= p
      && WellFormed(p, 0) && WellFormed(p, n) && Next(p, 0) == n && Next(p, n) == 2 * n
      && (forall k :: 0 <= k < |p| ==> p[k].len == len && p[k].cmd == c && |p[k].data| == BUF_SZ)
      && forall ci :: 0 <= ci <= |p| && WellFormed(p, ci) ==> ci == 0 || ci == n || ci == 2 * n
  {
    var p, n := Padded(host, len, c), |Taken(host, len, c)|;
    TakenAll(len);
    assert host == host[..n] + [host[n]];
    assert WellFormed(p, 2 * n);
    forall ci | 0 <= ci <= |p| && WellFormed(p, ci) ensures ci == 0 || ci == n || ci == 2 * n {
      NotMidway(p, n, ci);
    }
  }

  /** What the target sees of it is one write more than of the packets taken. */
  lemma TotalOfPadded(host: seq<Packet>, len: nat, c: Cmd)
    requires HostWrite(host, len, c) && !Served(len)
    ensures WellFormed(Taken(host, len, c), 0) && WellFormed(Padded(host, len, c), 0)
    ensures Total(Taken(host, len, c), 0) + [Captured(c.ir)] <= Total(Padded(host, len, c), 0)
    ensures |Total(Taken(host, len, c), 0)| == len + 2 && |Total(Padded(host, len, c), 0)| == 2 * (len + 2)
  {
    var p, n := Padded(host, len, c), |Taken(host, len, c)|;
    PaddedWellFormed(host, len, c);
    TotalGoesOn(host, len, c, p);
    TotalOfTaken(host, len, c);
    TotalFirst(p, n);
    assert Total(p, 2 * n) == [];
  }

  /** Packets that never arrive make no difference either. */
  lemma ClockPadded(s: seq<Packet>, t: seq<Packet>, y: Sys, k: Tick)
    requires Inv(s, y) && t <= s && y.arrived <= |t| && k.arrived <= |t|
    ensures Clock(s, y, k) == Clock(t, y, k)
  {
    if y.ci >= |t| { NoneInHand(s, t, y); }
  }

  lemma NoneInHand(s: seq<Packet>, t: seq<Packet>, y: Sys)
    requires Inv(s, y) && t <= s && y.arrived <= |t| <= y.ci
    ensures !Finishing(y.r) && !SequenceDone(y.r)
  {
  }

  lemma PaddedClock(s: seq<Packet>, t: seq<Packet>, states: seq<Sys>, ticks: seq<Tick>, n: nat)
    requires t <= s && IsAnyRun(t, states, ticks) && n < |ticks| && IsRun(s, states[..n + 1], ticks[..n])
    ensures states[n].arrived <= ticks[n].arrived <= |t| && states[n + 1] == Clock(s, states[n], ticks[n])
  {
    RunInv(s, states[..n + 1], ticks[..n], n);
    ClockPadded(s, t, states[n], ticks[n]);
  }

  lemma {:induction false} RunOfPadded(s: seq<Packet>, t: seq<Packet>, states: seq<Sys>, ticks: seq<Tick>, n: nat)
    requires WellFormed(s, 0) && !HasRead(s) && t <= s && IsAnyRun(t, states, ticks) && n <= |ticks|
    ensures IsRun(s, states[..n + 1], ticks[..n])
  {
    if n > 0 {
      RunOfPadded(s, t, states, ticks, n - 1);
      PaddedClock(s, t, states, ticks, n - 1);
      OneLonger(s, states, ticks, n - 1);
    }
  }

  /** The packet left over is taken for a command of its own: in every run of an unserved length, at every instant,
      the target has seen no more than the packets taken make of the write, or all of that and another capture. */
  lemma LeftoverIsACommand(host: seq<Packet>, len: nat, c: Cmd, states: seq<Sys>, ticks: seq<Tick>, i: nat)
    requires HostWrite(host, len, c) && !Served(len) && IsAnyRun(host, states, ticks) && i < |states|
    ensures WellFormed(Taken(host, len, c), 0)
    ensures var seen := Total(Taken(host, len, c), 0);
      states[i].log <= seen || seen + [Captured(c.ir)] <= states[i].log
  {
    var p := Padded(host, len, c);
    PaddedWellFormed(host, len, c);
    RunOfPadded(p, host, states, ticks, i);
    ExactlyTheBits(p, states[..i + 1], ticks[..i], i);
    TotalOfPadded(host, len, c);
    var seen, log, all := Total(Taken(host, len, c), 0), states[i].log, Total(p, 0);
    if |log| <= |seen| {
      assert log == all[..|log|] == seen[..|log|];
    } else {
      assert log == all[..|log|] && seen + [Captured(c.ir)] == all[..|seen| + 1];
    }
  }

  /** By the time the PHY has nothing to do but wait, that capture has been made. */
  lemma StarvedIsSecond(host: seq<Packet>, len: nat, c: Cmd, y: Sys)
    requires HostWrite(host, len, c) && !Served(len)
    requires Inv(Padded(host, len, c), y) && y.arrived == |host| && Starved(y)
    ensures |y.log| > len + 2
  {
    var p, n := Padded(host, len, c), |Taken(host, len, c)|;
    PaddedWellFormed(host, len, c);
    TotalOfPadded(host, len, c);
    var total := Total(p, 0);
    assert Total(p, 2 * n) == [];
    if QuietInv(p, y, total) {
      assert y.ci == 2 * n;
    } else {
      assert WriteInv(p, y, total);
      assert y.ci == n;
    }
  }

  lemma LogGrowing(s: seq<Packet>, y: Sys, k: Tick)
    ensures |y.log| <= |Clock(s, y, k).log|
  {
  }

  lemma SecondStep(host: seq<Packet>, len: nat, c: Cmd, states: seq<Sys>, ticks: seq<Tick>, i: nat)
    requires HostWrite(host, len, c) && !Served(len) && IsRun(Padded(host, len, c), states, ticks) && i < |ticks|
    requires states[i].arrived == |host|
    ensures var p := Padded(host, len, c);
      if |states[i].log| > len + 2 then |states[i + 1].log| > len + 2
      else ClocksLeft(p, states[i + 1]) < ClocksLeft(p, states[i])
  {
    var p := Padded(host, len, c);
    RunInv(p, states, ticks, i);
    LogGrowing(p, states[i], ticks[i]);
    if |states[i].log| <= len + 2 {
      if Starved(states[i]) { StarvedIsSecond(host, len, c, states[i]); }
      ClocksFall(p, states[i], ticks[i]);
    }
  }

  /** Once the host has sent everything, nothing more arrives. */
  lemma {:induction false} AllSent(p: seq<Packet>, host: seq<Packet>, states: seq<Sys>, ticks: seq<Tick>, k: nat,
                                   i: nat)
    requires IsRun(p, states, ticks) && IsAnyRun(host, states, ticks) && k <= i < |states|
    requires states[k].arrived == |host|
    ensures states[i].arrived == |host|
    decreases i
  {
    if k < i {
      AllSent(p, host, states, ticks, k, i - 1);
      RunInv(p, states, ticks, i - 1);
      assert states[i - 1 + 1] == Clock(p, states[i - 1], ticks[i - 1]);
      assert states[i - 1].arrived <= ticks[i - 1].arrived <= |host|;
    }
  }

  /** In time the second capture comes. */
  lemma SecondComes(host: seq<Packet>, len: nat, c: Cmd, states: seq<Sys>, ticks: seq<Tick>, k: nat, i: nat)
    requires HostWrite(host, len, c) && !Served(len) && IsAnyRun(host, states, ticks) && k <= i < |states|
    requires IsRun(Padded(host, len, c), states, ticks) && states[k].arrived == |host|
    requires i - k >= 73728 * (|Padded(host, len, c)| + 1)
    ensures |states[i].log| > len + 2
  {
    var p := Padded(host, len, c);
    var left := seq(|states|, j requires 0 <= j < |states| => ClocksLeft(p, states[j]));
    var done := seq(|states|, j requires 0 <= j < |states| => |states[j].log| > len + 2);
    forall j | k <= j < i ensures if done[j] then done[j + 1] else left[j + 1] < left[j] {
      AllSent(p, host, states, ticks, k, j);
      SecondStep(host, len, c, states, ticks, j);
    }
    CountsDown(left, done, k, i);
    RunInv(p, states, ticks, k);
    RunInv(p, states, ticks, i);
    WorkBounded(p, states[k]);
    WorkBounded(p, states[i]);
  }

  lemma ServedEnds(host: seq<Packet>, len: nat, c: Cmd, states: seq<Sys>, ticks: seq<Tick>, k: nat, i: nat)
    requires HostWrite(host, len, c) && IsAnyRun(host, states, ticks) && k <= i <= |ticks| && Served(len)
    requires states[k].arrived == |host| && i - k >= 73728 * (|host| + 1)
    ensures states[i].log == Requested(host, len, c)
  {
    TakenAll(len);
    assert Taken(host, len, c) == host;
    TotalOfTaken(host, len, c);
    RunOfPrefix(host, host, states, ticks, i);
    EveryCommandEnds(host, states[..i + 1], ticks[..i], k, i);
  }

  lemma UnservedEnds(host: seq<Packet>, len: nat, c: Cmd, states: seq<Sys>, ticks: seq<Tick>, k: nat, i: nat)
    requires HostWrite(host, len, c) && IsAnyRun(host, states, ticks) && k <= i <= |ticks| && !Served(len)
    requires states[k].arrived == |host| && i - k >= 73728 * (2 * |host| + 1)
    ensures |states[i].log| > len + 2
  {
    var p := Padded(host, len, c);
    PaddedWellFormed(host, len, c);
    RunOfPadded(p, host, states, ticks, |ticks|);
    assert states[..|ticks| + 1] == states && ticks[..|ticks|] == ticks;
    SecondComes(host, len, c, states, ticks, k, i);
  }

  /** In every run, once the host has sent all packets of a write and 147,456 clocks for each, and half as many over,
      have passed, the target has seen exactly the write asked for if and only if its length is served. */
  lemma WriteEnds(host: seq<Packet>, len: nat, c: Cmd, states: seq<Sys>, ticks: seq<Tick>, k: nat, i: nat)
    requires HostWrite(host, len, c) && IsAnyRun(host, states, ticks) && k <= i <= |ticks|
    requires states[k].arrived == |host| && i - k >= 73728 * (2 * |host| + 1)
    ensures states[i].log == Requested(host, len, c) <==> Served(len)
  {
    if Served(len) { ServedEnds(host, len, c, states, ticks, k, i); }
    else { UnservedEnds(host, len, c, states, ticks, k, i); }
  }

  // ---------- a write of one bit

  /** A write of one bit in hand: on its way to SHIFT-xR or there. */
  predicate OneBit(r: Regs) {
    && r.pending && r.busy && !r.dvalid && !r.reqBlocked && !r.respBlocked
    && r.olen == 1 && !r.cmd.read && r.nstate == ShiftOf(r.cmd) && |r.dout| == BUF_SZ && TmsOk(r.state, r.tms)
    && (if r.state == r.nstate then r.ctr <= 1
        else r.ctr == 0 && (r.state.lo == LIdle || r.state.lo == LUpdate || r.state == St(r.cmd.ir, LCapture)
                            || (r.state.lo == LSelect && (r.state.ir ==> r.cmd.ir))))
  }

  /** The PHY looks for the end two bits early, and one bit is too few. */
  lemma OneBitStep(r: Regs, i: In)
    requires OneBit(r)
    ensures var r' := Step(r, i);
      && OneBit(r') && !Rden(r, i) && r'.cmd == r.cmd && !Gated(r')
      && (if r.state == r.nstate then r'.state == r.nstate else r'.state == r.nstate || Detour(r') < Detour(r))
      && Decode(r'.state) == TapNext(Decode(r.state), r'.tms) && r'.state.lo != LUpdate
  {
    FsmLockstep(r.state, r.nstate, r.tms);
  }

  /** From reset, with a write of one bit first: not there yet, or in hand and the target never told to update. */
  predicate OneBitFirst(stream: seq<Packet>, y: Sys) {
    && y.rdIdx <= y.arrived <= |stream| && |y.r.dout| == BUF_SZ
    && y.tap == Decode(y.r.state)
    && (forall e :: e in y.log ==> !e.Updated?)
    && (OneBit(y.r) ||
        (OutOfReset(y.r.(dvalid := false)) && y.rdIdx == (if y.r.dvalid then 1 else 0) &&
         (y.r.dvalid ==> y.rd == stream[0])))
  }

  predicate OneBitWrite(p: Packet) { p.len == 1 && !p.cmd.read && |p.data| == BUF_SZ }

  function ToShift(r: Regs): nat {
    if !OneBit(r) then (if r.dvalid then 6 else 7) else if r.state == r.nstate then 0 else Detour(r)
  }

  /** What a clock does: the way to SHIFT-xR gets shorter, or is at its end. */
  predicate Closer(r: Regs, r': Regs) {
    ToShift(r') < ToShift(r) || (OneBit(r') && r'.state == r'.nstate)
  }

  lemma OneBitHeld(stream: seq<Packet>, y: Sys, k: Tick)
    requires OneBitFirst(stream, y) && OneBit(y.r) && y.arrived <= k.arrived <= |stream|
    ensures var y' := Clock(stream, y, k);
      OneBitFirst(stream, y') && OneBit(y'.r) && Closer(y.r, y'.r) && y'.arrived == k.arrived
  {
    OneBitStep(y.r, Input(y, k.full, k.ilen));
  }

  lemma OneBitLoads(stream: seq<Packet>, y: Sys, k: Tick)
    requires OneBitFirst(stream, y) && !OneBit(y.r) && y.r.dvalid && stream != [] && OneBitWrite(stream[0])
    requires y.arrived <= k.arrived <= |stream|
    ensures var y' := Clock(stream, y, k);
      OneBitFirst(stream, y') && OneBit(y'.r) && Closer(y.r, y'.r) && y'.arrived == k.arrived
  {
    FreshStep(y.r, Input(y, k.full, k.ilen));
  }

  lemma OneBitAwaited(stream: seq<Packet>, y: Sys, k: Tick)
    requires OneBitFirst(stream, y) && !OneBit(y.r) && !y.r.dvalid && stream != []
    requires y.arrived <= k.arrived <= |stream|
    ensures var y' := Clock(stream, y, k);
      OneBitFirst(stream, y') && (y.arrived > 0 ==> Closer(y.r, y'.r)) && y'.arrived == k.arrived
  {
    QuietStep(y.r, Input(y, k.full, k.ilen));
  }

  lemma OneBitClock(stream: seq<Packet>, y: Sys, k: Tick)
    requires OneBitFirst(stream, y) && stream != [] && OneBitWrite(stream[0]) && y.arrived <= k.arrived <= |stream|
    ensures var y' := Clock(stream, y, k);
      OneBitFirst(stream, y') && (y.arrived > 0 ==> Closer(y.r, y'.r)) && y'.arrived == k.arrived
  {
    if OneBit(y.r) { OneBitHeld(stream, y, k); }
    else if y.r.dvalid { OneBitLoads(stream, y, k); }
    else { OneBitAwaited(stream, y, k); }
  }

  lemma {:induction false} OneBitRun(stream: seq<Packet>, states: seq<Sys>, ticks: seq<Tick>, i: nat)
    requires IsAnyRun(stream, states, ticks) && stream != [] && OneBitWrite(stream[0]) && i < |states|
    ensures OneBitFirst(stream, states[i])
  {
    if i > 0 {
      OneBitRun(stream, states, ticks, i - 1);
      OneBitClock(stream, states[i - 1], ticks[i - 1]);
      assert states[i - 1 + 1] == Clock(stream, states[i - 1], ticks[i - 1]);
    }
  }

  lemma {:induction false} OneBitArrives(stream: seq<Packet>, states: seq<Sys>, ticks: seq<Tick>, k: nat, i: nat)
    requires IsAnyRun(stream, states, ticks) && stream != [] && OneBitWrite(stream[0])
    requires k <= i < |states| && states[k].arrived > 0
    ensures states[i].arrived > 0
    ensures (OneBit(states[i].r) && states[i].r.state == states[i].r.nstate) ||
            ToShift(states[i].r) + (i - k) <= ToShift(states[k].r)
  {
    if i > k {
      OneBitArrives(stream, states, ticks, k, i - 1);
      OneBitRun(stream, states, ticks, i - 1);
      OneBitClock(stream, states[i - 1], ticks[i - 1]);
      assert states[i - 1 + 1] == Clock(stream, states[i - 1], ticks[i - 1]);
    }
  }

  /** A write of one bit never ends: within seven clocks of its arrival the PHY is in SHIFT-xR, and there it stays;
      it is never done, and the target never told to update. */
  lemma OneBitNeverEnds(stream: seq<Packet>, states: seq<Sys>, ticks: seq<Tick>, k: nat, i: nat)
    requires IsAnyRun(stream, states, ticks) && stream != [] && OneBitWrite(stream[0]) && k <= i < |states|
    ensures !Done(stream, states[i]) && forall e :: e in states[i].log ==> !e.Updated?
    ensures states[k].arrived > 0 && i - k >= 7 ==> states[i].r.pending && states[i].r.state == ShiftOf(states[i].r.cmd)
  {
    OneBitRun(stream, states, ticks, i);
    OneBitRun(stream, states, ticks, k);
    if states[k].arrived > 0 { OneBitArrives(stream, states, ticks, k, i); }
  }

  // ---------- a read

  /** A captured read of up to 64 bits: the target sees one capture, the bits asked for and one more, zero, and one
      update. */
  lemma ReadShiftsOneMore(p: Packet, states: seq<Sys>, ticks: seq<Tick>, k: nat, i: nat)
    requires 1 <= p.len <= 64 && p.cmd.read && !p.cmd.ext && |p.data| == BUF_SZ
    requires IsAnyRun([p], states, ticks) && (forall j :: 0 <= j < |ticks| ==> !ticks[j].full)
    requires k <= i < |states| && states[k].arrived == 1 && i - k >= 2 * 73728
    ensures states[i].log == [Captured(p.cmd.ir)] +
                             seq(p.len + 1, j requires 0 <= j < p.len + 1 => Shifted(p.cmd.ir, j < 64 && p.data[j])) +
                             [Updated(p.cmd.ir)]
  {
    var s := [p];
    assert WellFormed(s, 1) && Next(s, 0) == 1;
    assert WellFormed(s, 0);
    EveryCommandEnds(s, states, ticks, k, i);
    TotalFirst(s, 0);
    assert Total(s, 1) == [];
    assert Bits(s, 0, 0) == seq(p.len + 1, j requires 0 <= j < p.len + 1 => Shifted(p.cmd.ir, j < 64 && p.data[j]));
  }

  /** A captured read of more than 64 bits, or of 64 and the one more, sending its last bits. */
  predicate ReadEnding(r: Regs) {
    && |r.dout| == BUF_SZ && r.pending && r.busy && !r.dvalid && !r.reqBlocked && !r.respBlocked && r.cmd.read && !r.tms
    && r.state == r.nstate == St(r.cmd.ir, LShift)
    && 64 < r.olen < 4096 && r.olen - 64 <= r.ctr <= r.olen - 2
  }

  /** After the first two clocks: asked to pause, or finished. */
  lemma FirstTwo(r: Regs, i: In, j: In)
    requires ReadEnding(r) && i.full && j.full && i.empty && j.empty && i.ilen == 61
    ensures var s := Step(Step(r, i), j);
      && |s.dout| == BUF_SZ && s.respBlocked && !s.dvalid && s.pending == (r.olen - r.ctr > 3)
      && (s.pending ==>
            && s.busy && !s.reqBlocked && !s.tms && s.cmd == r.cmd && s.olen == r.olen && s.ctr == r.ctr + 2
            && s.state == r.state && s.nstate == St(r.cmd.ir, LPause))
  {
  }

  lemma LastTwo(s: Regs, k: In, l: In)
    requires |s.dout| == BUF_SZ && s.respBlocked && !s.dvalid && k.full && l.full && k.empty && l.empty
    requires s.pending ==>
      && s.busy && !s.reqBlocked && !s.tms && s.state == St(s.cmd.ir, LShift) && s.nstate == St(s.cmd.ir, LPause)
      && 64 < s.olen < 4096 && s.olen - 64 <= s.ctr && s.ctr + 2 <= s.olen
    ensures var u := Step(Step(s, k), l);
      (Paused(u) && u.pending && u.nstate == St(s.cmd.ir, LPause)) <==> s.pending && s.ctr != s.olen - 2
  {
  }

  /** When the response FIFO has no room for a word that is about to be complete the PHY pauses, four clocks later,
      exactly if more than four bits are left to send. With fewer it has left for home by then with nothing in hand. */
  lemma PausesInTime(r: Regs, i: In, j: In, k: In, l: In)
    requires ReadEnding(r) && i.full && j.full && k.full && l.full && i.ilen == 61
    requires i.empty && j.empty && k.empty && l.empty
    ensures var s := Step(Step(Step(Step(r, i), j), k), l);
      (Paused(s) && s.pending && s.nstate == St(r.cmd.ir, LPause)) <==> r.olen - r.ctr > 4
  {
    FirstTwo(r, i, j);
    LastTwo(Step(Step(r, i), j), k, l);
  }

  /** So a read of 64 bits, or a multiple, that finds the response FIFO full as its last word completes is followed by
      a scan nobody asked for: with nothing in hand the PHY takes the target to Capture-DR. */
  lemma RescansWhenFull(r: Regs, i: In)
    requires ReadEnding(r) && r.olen - r.ctr == 4 && i.full && i.empty && i.ilen == 61
    ensures var s := Step(Step(Step(Step(r, i), i), i), i); var t := Step(Step(s, i), i);
      && s.state == St(r.cmd.ir, LUpdate) && !s.pending
      && t.state == St(false, LCapture) && !t.pending
  {
    var s := FourthStep(r, i);
  }

  lemma FourthStep(r: Regs, i: In) returns (s: Regs)
    requires ReadEnding(r) && r.olen - r.ctr == 4 && i.full && i.empty && i.ilen == 61
    ensures s == Step(Step(Step(Step(r, i), i), i), i)
    ensures s.state == St(r.cmd.ir, LUpdate) && !s.pending && s.nstate == St(false, LPause) && s.respBlocked
    ensures !s.busy && !s.dvalid && |s.dout| == BUF_SZ && s.tms
  {
    s := Step(Step(Step(Step(r, i), i), i), i);
  }
}
