/** The bits of TMS a length-0 command sends, one by one. */
module JtagSequences {
  import opened Tap
  import opened JtagPhy
  import opened JtagSystem
  import opened JtagPreserve
  import opened JtagTheorems
  import opened JtagLockstep

  function Ones(n: nat): seq<bool> { seq(n, _ => true) }
  function Zeros(n: nat): seq<bool> { seq(n, _ => false) }

  /** A word sent low bit first. */
  function Value(bits: seq<bool>): nat {
    if bits == [] then 0 else (if bits[0] then 1 else 0) + 2 * Value(bits[1..])
  }

  /** The select sequence from SWD to JTAG of the ADIv5 standard (ARM IHI 0031E): 0xE73C. */
  const SELECT_JTAG: seq<bool> := [false, false, true, true] + [true, true, false, false] + [true, true, true, false] +
                                  [false, true, true, true]

  /** FLUSH (110) waits; RESET (000) sends eight ones; any other command sends sixty ones, the select sequence and
      nine ones. Each begins with TMS low and the last two end with it low. */
  function Script(c: Cmd): seq<bool> {
    if c == Cmd(true, true, false) then Zeros(9)
    else if c == Cmd(false, false, false) then Zeros(10) + Ones(8) + Zeros(1)
    else Zeros(10) + Ones(60) + SELECT_JTAG + Ones(9) + Zeros(1)
  }

  lemma ValueFirst(a: bool, rest: seq<bool>)
    ensures Value([a] + rest) == (if a then 1 else 0) + 2 * Value(rest)
  {
    assert ([a] + rest)[1..] == rest;
  }

  lemma NibbleFirst(a: bool, b: bool, c: bool, d: bool, rest: seq<bool>)
    ensures Value([a, b, c, d] + rest) ==
      (if a then 1 else 0) + (if b then 2 else 0) + (if c then 4 else 0) + (if d then 8 else 0) + 16 * Value(rest)
  {
    ValueFirst(a, [b, c, d] + rest);
    ValueFirst(b, [c, d] + rest);
    ValueFirst(c, [d] + rest);
    ValueFirst(d, rest);
    assert [a, b, c, d] + rest == [a] + ([b, c, d] + rest) && [b, c, d] + rest == [b] + ([c, d] + rest);
    assert [c, d] + rest == [c] + ([d] + rest);
  }

  lemma SelectIs()
    ensures |SELECT_JTAG| == 16 && Value(SELECT_JTAG) == 0xE73C
  {
    var d := [false, true, true, true];
    var c := [true, true, true, false] + d;
    var b := [true, true, false, false] + c;
    assert SELECT_JTAG == [false, false, true, true] + b && d + [] == d;
    NibbleFirst(false, false, true, true, b);
    NibbleFirst(true, true, false, false, c);
    NibbleFirst(true, true, true, false, d);
    NibbleFirst(false, true, true, true, []);
  }

  /** TMS keeps its value from a to b. */
  lemma Keeps(c: Cmd, a: nat, b: nat)
    requires a <= b && forall k, tms :: a <= k < b ==> SequenceTms(c, k, tms) == tms
    ensures forall j :: a <= j <= b ==> SequenceTmsAt(c, j) == SequenceTmsAt(c, a)
  {
    forall j | a <= j <= b ensures SequenceTmsAt(c, j) == SequenceTmsAt(c, a) {
      Held(c, RunTestIdle, a, j);
    }
  }

  lemma ShortBits(c: Cmd, k: nat)
    requires (c == CMD_FLUSH || c == CMD_RESET) && k < |Script(c)|
    ensures SequenceTmsAt(c, k) == Script(c)[k]
  {
    if c == CMD_FLUSH {
      Keeps(c, 0, 8);
    } else {
      Keeps(c, 0, 9);
      Keeps(c, 10, 17);
    }
  }

  /** The bits of the long script, by their place. */
  function LongAt(k: nat): bool {
    if k < 10 then false
    else if k < 70 then true
    else if k < 86 then k != 70 && k != 71 && k != 76 && k != 77 && k != 81 && k != 82
    else k < 95
  }

  lemma LongScript(c: Cmd, k: nat)
    requires c != CMD_FLUSH && c != CMD_RESET && k < |Script(c)|
    ensures |Script(c)| == 96 && Script(c)[k] == LongAt(k)
  {
    assert Script(c) == Zeros(10) + Ones(60) + SELECT_JTAG + Ones(9) + Zeros(1);
    if 70 <= k < 86 { assert Script(c)[k] == SELECT_JTAG[k - 70]; }
  }

  lemma FirstBits(c: Cmd, k: nat)
    requires c != CMD_FLUSH && c != CMD_RESET && k <= 75
    ensures SequenceTmsAt(c, k) == LongAt(k)
  {
    if k <= 9 { Keeps(c, 0, 9); }
    else if k <= 69 { Keeps(c, 10, 69); }
    else if k <= 71 { Keeps(c, 70, 71); }
    else { Keeps(c, 72, 75); }
  }

  lemma LastBits(c: Cmd, k: nat)
    requires c != CMD_FLUSH && c != CMD_RESET && 76 <= k < 96
    ensures SequenceTmsAt(c, k) == LongAt(k)
  {
    if k <= 77 { Keeps(c, 76, 77); }
    else if k <= 80 { Keeps(c, 78, 80); }
    else if k <= 82 { Keeps(c, 81, 82); }
    else if k <= 94 { Keeps(c, 83, 94); }
  }

  lemma LongBits(c: Cmd, k: nat)
    requires c != CMD_FLUSH && c != CMD_RESET && k < |Script(c)|
    ensures SequenceTmsAt(c, k) == Script(c)[k] && |Script(c)| == 96
  {
    LongScript(c, k);
    if k <= 75 { FirstBits(c, k); } else { LastBits(c, k); }
  }

  lemma SentBits(c: Cmd, k: nat)
    requires k < |Script(c)|
    ensures |Script(c)| == SequenceEnd(c) + 1 && SequenceTmsAt(c, k) == Script(c)[k]
  {
    if c == CMD_FLUSH || c == CMD_RESET { ShortBits(c, k); } else { LongBits(c, k); }
  }

  // ---------- in every run

  /** TMS on the edges of TCK from state i up to state j. */
  function TmsOnTck(states: seq<Sys>, i: nat, j: nat): seq<bool>
    requires i <= j <= |states|
  {
    if i == j then []
    else TmsOnTck(states, i, j - 1) + (if Gated(states[j - 1].r) then [] else [states[j - 1].r.tms])
  }

  /** A length-0 command has sent bit k. */
  predicate AtBit(r: Regs, c: Cmd, k: nat) {
    Sequencing(r) && r.ctr == k && r.cmd == c && r.tms == SequenceTmsAt(c, k)
  }

  lemma NextBit(stream: seq<Packet>, y: Sys, t: Tick, c: Cmd, k: nat)
    requires Locked(stream, y) && AtBit(y.r, c, k) && k < SequenceEnd(c)
    ensures AtBit(Clock(stream, y, t).r, c, k + 1)
  {
    SequenceStep(y.r, Input(y, t.full, t.ilen));
  }

  lemma NextBitInRun(stream: seq<Packet>, states: seq<Sys>, ticks: seq<Tick>, m: nat, c: Cmd, k: nat)
    requires Sized(stream) && IsAnyRun(stream, states, ticks) && m < |ticks|
    requires AtBit(states[m].r, c, k) && k < SequenceEnd(c)
    ensures AtBit(states[m + 1].r, c, k + 1)
  {
    LockedRun(stream, states, ticks, m);
    NextBit(stream, states[m], ticks[m], c, k);
  }

  /** Once begun a length-0 command goes on to its end. */
  lemma {:induction false} GoesOn(stream: seq<Packet>, states: seq<Sys>, ticks: seq<Tick>, i: nat, c: Cmd, k: nat)
    requires Sized(stream) && IsAnyRun(stream, states, ticks) && i + k < |states|
    requires AtBit(states[i].r, c, 0) && k <= SequenceEnd(c)
    ensures AtBit(states[i + k].r, c, k)
    decreases k
  {
    if k > 0 {
      GoesOn(stream, states, ticks, i, c, k - 1);
      NextBitInRun(stream, states, ticks, i + k - 1, c, k - 1);
    }
  }

  lemma OneEdge(states: seq<Sys>, i: nat, k: nat, c: Cmd)
    requires i + k < |states| && k < |Script(c)| && AtBit(states[i + k].r, c, k)
    requires TmsOnTck(states, i, i + k) == Script(c)[..k]
    ensures TmsOnTck(states, i, i + k + 1) == Script(c)[..k + 1]
  {
    SentBits(c, k);
    assert Script(c)[..k + 1] == Script(c)[..k] + [Script(c)[k]];
  }

  predicate AtBitOf(states: seq<Sys>, i: nat, c: Cmd, m: nat)
    requires i + m < |states|
  {
    AtBit(states[i + m].r, c, m)
  }

  lemma {:induction false} Edges(states: seq<Sys>, i: nat, c: Cmd, k: nat)
    requires i + k <= |states| && k <= |Script(c)|
    requires forall m :: 0 <= m < k ==> AtBitOf(states, i, c, m)
    ensures TmsOnTck(states, i, i + k) == Script(c)[..k]
    decreases k
  {
    if k > 0 {
      Edges(states, i, c, k - 1);
      assert AtBitOf(states, i, c, k - 1);
      OneEdge(states, i, k - 1, c);
    }
  }

  lemma BeginsHow(stream: seq<Packet>, y: Sys, t: Tick)
    requires Locked(stream, y) && !Sequencing(y.r) && Sequencing(Clock(stream, y, t).r)
    ensures AtBit(Clock(stream, y, t).r, Clock(stream, y, t).r.cmd, 0)
  {
    BeginsAtRest(y.r, Input(y, t.full, t.ilen));
  }

  lemma EndsHow(stream: seq<Packet>, y: Sys, t: Tick, c: Cmd)
    requires Locked(stream, y) && AtBit(y.r, c, SequenceEnd(c))
    ensures Gated(Clock(stream, y, t).r)
  {
    SequenceStep(y.r, Input(y, t.full, t.ilen));
  }

  lemma BeginsInRun(stream: seq<Packet>, states: seq<Sys>, ticks: seq<Tick>, i: nat)
    requires Sized(stream) && IsAnyRun(stream, states, ticks) && i < |ticks|
    requires !Sequencing(states[i].r) && Sequencing(states[i + 1].r)
    ensures AtBit(states[i + 1].r, states[i + 1].r.cmd, 0)
  {
    LockedRun(stream, states, ticks, i);
    BeginsHow(stream, states[i], ticks[i]);
  }

  lemma EndsInRun(stream: seq<Packet>, states: seq<Sys>, ticks: seq<Tick>, m: nat, c: Cmd)
    requires Sized(stream) && IsAnyRun(stream, states, ticks) && m < |ticks|
    requires AtBit(states[m].r, c, SequenceEnd(c))
    ensures Gated(states[m + 1].r)
  {
    LockedRun(stream, states, ticks, m);
    EndsHow(stream, states[m], ticks[m], c);
  }

  lemma ScriptLength(c: Cmd)
    ensures |Script(c)| == SequenceEnd(c) + 1
  {
  }

  lemma ScriptSent(stream: seq<Packet>, states: seq<Sys>, ticks: seq<Tick>, i: nat, c: Cmd, n: nat)
    requires Sized(stream) && IsAnyRun(stream, states, ticks) && i + n <= |states| && n == |Script(c)|
    requires i < |states| && AtBit(states[i].r, c, 0)
    ensures TmsOnTck(states, i, i + n) == Script(c)
  {
    ScriptLength(c);
    forall m | 0 <= m < n ensures AtBitOf(states, i, c, m) {
      GoesOn(stream, states, ticks, i, c, m);
    }
    Edges(states, i, c, n);
    assert Script(c)[..n] == Script(c);
  }

  /** In every run a length-0 command sends exactly its bits on the edges of TCK, from the one on which it begins, and
      then TCK stops. */
  lemma SequenceSent(stream: seq<Packet>, states: seq<Sys>, ticks: seq<Tick>, i: nat)
    requires Sized(stream) && IsAnyRun(stream, states, ticks) && i < |ticks|
    requires !Sequencing(states[i].r) && Sequencing(states[i + 1].r)
    ensures var script := Script(states[i + 1].r.cmd); var n := i + 1 + |script|;
      && (n <= |states| ==> TmsOnTck(states, i + 1, n) == script)
      && (n < |states| ==> Gated(states[n].r))
  {
    BeginsInRun(stream, states, ticks, i);
    var c := states[i + 1].r.cmd;
    var n := |Script(c)|;
    ScriptLength(c);
    if i + 1 + n <= |states| { ScriptSent(stream, states, ticks, i + 1, c, n); }
    if i + 1 + n < |states| {
      GoesOn(stream, states, ticks, i + 1, c, n - 1);
      EndsInRun(stream, states, ticks, i + n, c);
    }
  }
}
