/** What holds of every run of the bridge: it is plain memory. */
module BridgeTheorems {
  import opened Adiv5
  import opened DebugBridge
  import opened BridgeSystem
  import opened BridgeKnowledge
  import opened BridgePreserve

  // ---------- every run

  /** A target that increments by single transfers or not at all. */
  predicate WorldOk(w: World) { w.ap < 0x100 && w.target.inc <= 1 }

  predicate IsRun(w: World, states: seq<Sys>, ticks: seq<Tick>) {
    && WorldOk(w)
    && |states| == |ticks| + 1 && AtStart(states[0])
    && forall i :: 0 <= i < |ticks| ==>
       TickOk(w, states[i], ticks[i]) && states[i + 1] == SysNext(states[i], ticks[i], w.ap)
  }

  lemma StartInv(w: World, y: Sys)
    requires WorldOk(w) && AtStart(y)
    ensures SysInv(w, y)
  {
  }

  lemma {:induction false} RunInv(w: World, states: seq<Sys>, ticks: seq<Tick>, i: nat)
    requires IsRun(w, states, ticks) && i < |states|
    ensures SysInv(w, states[i])
  {
    if i == 0 {
      StartInv(w, states[0]);
    } else {
      RunInv(w, states, ticks, i - 1);
      SysStep(w, states[i - 1], ticks[i - 1]);
    }
  }

  /** In every run the target is made exactly the accesses the bus asked for, in order and each once, at their
      addresses and sizes and with their data; at most the transfer in hand is outstanding. */
  lemma Transparent(w: World, states: seq<Sys>, ticks: seq<Tick>, i: nat)
    requires IsRun(w, states, ticks) && i < |states|
    ensures var y := states[i]; var acc := Accesses(w.ap, w.target, Issued(y));
      if y.b.bus.ready then acc == y.asked
      else y.asked != [] && (acc == y.asked || acc == y.asked[..|y.asked| - 1])
  {
    RunInv(w, states, ticks, i);
  }

  lemma EndsFrom(r: Regs, i: In)
    requires !r.bus.ready && i.request.Quiet? && NextBus(r, i).ready
    ensures r.state == AhbErrorWait || (r.state == AhbResp && Complete(r.link))
  {
  }

  lemma EndsAnswered(w: World, y: Sys, k: Tick)
    requires SysInv(w, y) && TickOk(w, y, k) && !y.b.bus.ready
    ensures y.asked != [] && (SysNext(y, k, w.ap).b.bus.ready ==> Issued(y) == y.pushed)
    ensures var y' := SysNext(y, k, w.ap); y'.b.bus.ready ==>
      && |y.answers| == |y.pushed| > 0 && Accesses(w.ap, w.target, y.pushed) == y.asked && !y'.b.bus.error
      && EffectOf(w.ap, TargetAt(w, y, |y.pushed| - 1), y.pushed[|y.pushed| - 1]) == Some(y.asked[|y.asked| - 1])
      && (!y.b.bus.wnr ==> y'.b.bus.hrdata == y.answers[|y.pushed| - 1].word)
  {
    Stands(w, y);
    if SysNext(y, k, w.ap).b.bus.ready {
      EndsFrom(y.b, Input(y, k, w.ap));
      CompleteMeansAnswered(y);
      assert y.pushed == Issued(y);
      ReplyHand(y.b, Input(y, k, w.ap), y.asked, Accesses(w.ap, w.target, Issued(y)));
    }
  }

  /** A transfer ends, with OKAY, once the target has carried out every command: its own access, the last one,
      included. A read's data is the answer to that access. */
  lemma TransferEnds(w: World, states: seq<Sys>, ticks: seq<Tick>, i: nat)
    requires IsRun(w, states, ticks) && i < |ticks| && !states[i].b.bus.ready && states[i + 1].b.bus.ready
    ensures var y, y' := states[i], states[i + 1];
      && y.asked != [] && |y.answers| == |y.pushed| > 0
      && Accesses(w.ap, w.target, y.pushed) == y.asked && !y'.b.bus.error
      && EffectOf(w.ap, TargetAt(w, y, |y.pushed| - 1), y.pushed[|y.pushed| - 1]) == Some(y.asked[|y.asked| - 1])
      && (!y.b.bus.wnr ==> y'.b.bus.hrdata == y.answers[|y.pushed| - 1].word)
  {
    RunInv(w, states, ticks, i);
    EndsAnswered(w, states[i], ticks[i]);
  }

  // ---------- flat memory

  /** Memory after a run of accesses, for any memory at all. */
  function Stored<M>(store: (M, Access) -> M, m: M, acc: seq<Access>): M {
    if acc == [] then m
    else
      var (m', a) := (Stored(store, m, acc[..|acc| - 1]), acc[|acc| - 1]);
      if a.write then store(m', a) else m'
  }

  /** Every answer to a read of memory is what the memory holds at that point of the command stream. */
  ghost predicate Remembers<M>(w: World, y: Sys, store: (M, Access) -> M, load: (M, Access) -> nat, m: M)
    requires |y.answers| <= |y.pushed|
  {
    forall n :: 0 <= n < |y.answers| ==> MemoryAnswers(w, y, store, load, m, n)
  }

  predicate MemoryAnswers<M>(w: World, y: Sys, store: (M, Access) -> M, load: (M, Access) -> nat, m: M, n: nat)
    requires n < |y.answers| <= |y.pushed|
  {
    match EffectOf(w.ap, TargetAt(w, y, n), y.pushed[n])
    case None => true
    case Some(a) => a.write || y.answers[n].word == load(Stored(store, m, Accesses(w.ap, w.target, y.pushed[..n])), a)
  }

  /** The accesses before the one the last command makes. */
  lemma AllButLast(ap: nat, t: Target, cmds: seq<Cmd>, a: Access)
    requires cmds != []
    requires EffectOf(ap, After(ap, t, cmds[..|cmds| - 1]), cmds[|cmds| - 1]) == Some(a)
    ensures Accesses(ap, t, cmds) == Accesses(ap, t, cmds[..|cmds| - 1]) + [a]
  {
  }

  /** What a memory that remembers answers to the last command, when that is a read. */
  lemma LastAnswer<M>(w: World, y: Sys, store: (M, Access) -> M, load: (M, Access) -> nat, m: M, asked: seq<Access>)
    requires |y.answers| == |y.pushed| > 0 && Remembers(w, y, store, load, m) && asked != []
    requires Accesses(w.ap, w.target, y.pushed) == asked && !asked[|asked| - 1].write
    requires EffectOf(w.ap, TargetAt(w, y, |y.pushed| - 1), y.pushed[|y.pushed| - 1]) == Some(asked[|asked| - 1])
    ensures y.answers[|y.pushed| - 1].word == load(Stored(store, m, asked[..|asked| - 1]), asked[|asked| - 1])
  {
    AllButLast(w.ap, w.target, y.pushed, asked[|asked| - 1]);
    assert asked[..|asked| - 1] == Accesses(w.ap, w.target, y.pushed[..|y.pushed| - 1]);
    assert MemoryAnswers(w, y, store, load, m, |y.pushed| - 1);
  }

  lemma LastIsAsked(w: World, y: Sys)
    requires SysInv(w, y) && !y.b.bus.ready && !y.b.bus.wnr
    ensures y.asked != [] && !y.asked[|y.asked| - 1].write
  {
  }

  /** The bridge is plain memory: a read returns what the transfers before it left at its address. */
  lemma ReadsFlatMemory<M>(w: World, states: seq<Sys>, ticks: seq<Tick>, i: nat,
                           store: (M, Access) -> M, load: (M, Access) -> nat, m: M)
    requires IsRun(w, states, ticks) && i < |ticks| && !states[i].b.bus.ready && states[i + 1].b.bus.ready
    requires !states[i].b.bus.wnr && |states[i].answers| <= |states[i].pushed| &&
             Remembers(w, states[i], store, load, m)
    ensures var asked := states[i].asked;
      asked != [] && states[i + 1].b.bus.hrdata == load(Stored(store, m, asked[..|asked| - 1]), asked[|asked| - 1])
  {
    RunInv(w, states, ticks, i);
    TransferEnds(w, states, ticks, i);
    LastIsAsked(w, states[i]);
    LastAnswer(w, states[i], store, load, m, states[i].asked);
  }
}
