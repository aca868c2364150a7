/** How long the blocking queue's calls wait, and how they come back. */
module BlockingWaits {
  import opened Wrappers
  import opened SpscQueue
  import opened SpscInvariant
  import opened SpscTheorems
  import opened BlockingQueue

  // ---------- the loop after a timeout

  /** How many more of its own steps a call can take, the loop after a timeout gone round at most once. */
  function BRank<T>(b: BState<T>): nat
    requires b.bc.BCRun?
  {
    match b.bc.pc
    case Inner => if b.s.q.cons.CRun? then ConsumerRank(b.s.q.cons.c.pc) else 0
    case Enter => 14
    case TryDec | SpinDec | UndoTry => 15
    case UndoDec => 16
    case UndoInc => 17
    case KernelWait | KernelTimed => 18
    case Park => 19
    case Spin(left) => 20 + left
    case TryLoad => 21 + SPIN
  }

  /** The loop's try_wait fails exactly when the producer is between its fetch_add and its post. */
  lemma UndoTryGrants<T>(b: BState<T>)
    requires BInv(b) && b.bc.BCRun? && b.bc.pc == UndoTry
    ensures b.kernel > 0 <==> b.bp != BPSignalPost
  {
  }

  lemma InnerRank<T>(b: BState<T>, t: bool)
    requires BInv(b) && BEnabled(b, BConsumerStep(t)) && b.bc.pc == Inner
    ensures var b' := BAfter(b, BConsumerStep(t)); b'.bc.BCIdle? || BRank(b') < BRank(b)
  {
    ConsumerWaitFree(b.s, ConsumerStep);
  }

  /** Each of the consumer's own steps brings its call closer to returning, unless the loop's try_wait comes
      between the producer's fetch_add and its post. */
  lemma OwnStep<T>(b: BState<T>, t: bool)
    requires BInv(b) && BEnabled(b, BConsumerStep(t)) && (b.bc.pc == UndoTry ==> b.bp != BPSignalPost)
    ensures var b' := BAfter(b, BConsumerStep(t)); b'.bc.BCIdle? || BRank(b') < BRank(b)
  {
    if b.bc.pc == Inner { InnerRank(b, t); }
  }

  /** The producer cannot set it back. */
  lemma OthersStep<T>(b: BState<T>, a: BAction<T>)
    requires BInv(b) && BEnabled(b, a) && !a.BConsumerStep? && b.bc.BCRun?
    ensures BAfter(b, a).bc == b.bc && BRank(BAfter(b, a)) == BRank(b)
  {
    if a.BProducerStep? && b.bp.BPInner? { ProducerEffect(b.s, a.mallocOk); }
  }

  /** The consumer's own steps among acts[i..j]. */
  function OwnSteps<T>(acts: seq<BAction<T>>, i: nat, j: nat): nat
    requires i <= j <= |acts|
  {
    if i == j then 0 else OwnSteps(acts, i, j - 1) + (if acts[j - 1].BConsumerStep? then 1 else 0)
  }

  /** The consumer stays in its call, and never runs try_wait between the producer's fetch_add and its post. */
  ghost predicate InCall<T>(states: seq<BState<T>>, acts: seq<BAction<T>>, i: nat, j: nat)
    requires |states| == |acts| + 1 && i <= j <= |acts|
  {
    && (forall k :: i <= k <= j ==> states[k].bc.BCRun?)
    && (forall k :: i <= k < j && acts[k].BConsumerStep? && states[k].bc.pc == UndoTry ==> states[k].bp != BPSignalPost)
  }

  lemma RankFalls<T>(b: BState<T>, a: BAction<T>)
    requires BInv(b) && BEnabled(b, a) && b.bc.BCRun? && BAfter(b, a).bc.BCRun?
    requires a.BConsumerStep? && b.bc.pc == UndoTry ==> b.bp != BPSignalPost
    ensures BRank(BAfter(b, a)) + (if a.BConsumerStep? then 1 else 0) <= BRank(b)
  {
    if a.BConsumerStep? { OwnStep(b, a.timeout); } else { OthersStep(b, a); }
  }

  lemma RankFallsAt<T>(states: seq<BState<T>>, acts: seq<BAction<T>>, i: nat, j: nat, k: nat)
    requires BRun(states, acts) && i <= k < j <= |acts| && InCall(states, acts, i, j)
    ensures states[k].bc.BCRun? && states[k + 1].bc.BCRun?
    ensures BRank(states[k + 1]) + (if acts[k].BConsumerStep? then 1 else 0) <= BRank(states[k])
  {
    BRunInv(states, acts, k);
    assert BEnabled(states[k], acts[k]) && states[k + 1] == BAfter(states[k], acts[k]);
    RankFalls(states[k], acts[k]);
  }

  lemma {:induction false} StepsSpend<T>(acts: seq<BAction<T>>, ranks: seq<nat>, i: nat, j: nat)
    requires |ranks| == |acts| + 1 && i <= j <= |acts|
    requires forall k {:trigger acts[k]} :: i <= k < j ==>
             ranks[k + 1] + (if acts[k].BConsumerStep? then 1 else 0) <= ranks[k]
    ensures OwnSteps(acts, i, j) + ranks[j] <= ranks[i]
    decreases j
  {
    if i < j {
      StepsSpend(acts, ranks, i, j - 1);
      assert ranks[j - 1 + 1] + (if acts[j - 1].BConsumerStep? then 1 else 0) <= ranks[j - 1];
    }
  }

  function RankOf<T>(b: BState<T>): nat { if b.bc.BCRun? then BRank(b) else 0 }

  lemma RankSpent<T>(states: seq<BState<T>>, acts: seq<BAction<T>>, i: nat, j: nat)
    requires BRun(states, acts) && i <= j <= |acts| && InCall(states, acts, i, j)
    ensures OwnSteps(acts, i, j) <= BRank(states[i])
  {
    var ranks := seq(|states|, k requires 0 <= k < |states| => RankOf(states[k]));
    forall k | i <= k < j ensures ranks[k + 1] + (if acts[k].BConsumerStep? then 1 else 0) <= ranks[k] {
      RankFallsAt(states, acts, i, j, k);
    }
    StepsSpend(acts, ranks, i, j);
  }

  lemma RankBounded<T>(b: BState<T>)
    requires b.bc.BCRun?
    ensures b.bc.pc in {UndoInc, UndoDec, UndoTry} ==> BRank(b) <= 17
    ensures b.bc.pc == TryLoad ==> BRank(b) <= 21 + SPIN
  {
  }

  /** A timed wait takes at most 10,021 steps of its own, and once its timeout has passed at most seventeen; in the
      kernel it can always take one, the timeout itself. Only a producer held up between its fetch_add and its post
      can keep it longer. */
  lemma TimedWaitReturns<T>(states: seq<BState<T>>, acts: seq<BAction<T>>, i: nat, j: nat)
    requires BRun(states, acts) && i <= j <= |acts| && InCall(states, acts, i, j)
    ensures states[i].bc.pc == TryLoad ==> OwnSteps(acts, i, j) <= 10021
    ensures states[i].bc.pc in {UndoInc, UndoDec, UndoTry} ==> OwnSteps(acts, i, j) <= 17
    ensures states[i].bc.pc == KernelTimed ==> BEnabled(states[i], BConsumerStep(true))
  {
    RankSpent(states, acts, i, j);
    RankBounded(states[i]);
  }

  // ---------- which calls wait, and for how long

  /** Only a call without a timeout waits for ever; only one with a timeout gives up; the others never wait. */
  predicate PcOk<T>(c: BConsumer<T>) {
    c.BCRun? ==>
      match c.pc
      case TryLoad | TryDec => c.op != PeekOp
      case Spin(_) | SpinDec | Park => c.op == WaitOp || c.op == TimedOp
      case KernelWait => c.op == WaitOp
      case KernelTimed | UndoInc | UndoDec | UndoTry => c.op == TimedOp
      case Enter | Inner => true
  }

  lemma PcStep<T>(b: BState<T>, a: BAction<T>)
    requires BEnabled(b, a) && PcOk(b.bc)
    ensures PcOk(BAfter(b, a).bc)
    ensures b.bc.BCRun? && BAfter(b, a).bc.BCRun? ==> BAfter(b, a).bc.op == b.bc.op
  {
  }

  lemma {:induction false} PcInEveryRun<T>(states: seq<BState<T>>, acts: seq<BAction<T>>, i: nat)
    requires BRun(states, acts) && i < |states|
    ensures PcOk(states[i].bc)
  {
    if i > 0 {
      PcInEveryRun(states, acts, i - 1);
      PcStep(states[i - 1], acts[i - 1]);
    }
  }

  lemma EndsWith<T>(b: BState<T>, t: bool)
    requires BInv(b) && BEnabled(b, BConsumerStep(t)) && PcOk(b.bc) && BInv(BAfter(b, BConsumerStep(t)))
    requires BAfter(b, BConsumerStep(t)).bc.BCIdle?
    ensures match BAfter(b, BConsumerStep(t)).bc.returned
      case NoElement =>
        (b.bc.op == TimedOp && b.bc.pc == UndoInc) || b.bc.op == PeekOp ||
        ((b.bc.op == TryDequeueOp || b.bc.op == PopOp) && b.bc.pc == TryLoad && b.count <= 0)
      case Got(_) => b.bc.pc == Inner
      case _ => false
  {
  }

  /** wait_dequeue always comes back with an element. */
  lemma WaitReturnsElement<T>(states: seq<BState<T>>, acts: seq<BAction<T>>, i: nat)
    requires BRun(states, acts) && i < |acts|
    requires states[i].bc.BCRun? && states[i].bc.op == WaitOp && states[i + 1].bc.BCIdle?
    ensures states[i + 1].bc.returned.Got?
  {
    EndsInRun(states, acts, i);
  }

  lemma EndsInRun<T>(states: seq<BState<T>>, acts: seq<BAction<T>>, i: nat)
    requires BRun(states, acts) && i < |acts| && states[i].bc.BCRun? && states[i + 1].bc.BCIdle?
    ensures match states[i + 1].bc.returned
      case NoElement =>
        (states[i].bc.op == TimedOp && states[i].bc.pc == UndoInc) || states[i].bc.op == PeekOp ||
        ((states[i].bc.op == TryDequeueOp || states[i].bc.op == PopOp) && states[i].count <= 0)
      case Got(_) => true
      case _ => false
  {
    BRunInv(states, acts, i);
    BRunInv(states, acts, i + 1);
    PcInEveryRun(states, acts, i);
    var b, a := states[i], acts[i];
    assert BEnabled(b, a) && states[i + 1] == BAfter(b, a);
    if a.BConsumerStep? { EndsWith(b, a.timeout); }
  }

  lemma MayStep<T>(b: BState<T>)
    requires BInv(b) && b.bc.BCRun? && b.bc.pc != KernelWait
    ensures BEnabled(b, BConsumerStep(true))
  {
    InvReady(b.s);
  }

  /** A call other than wait_dequeue is never stuck: at every instant it can take its next step, in the kernel by
      timing out. */
  lemma NeverStuck<T>(states: seq<BState<T>>, acts: seq<BAction<T>>, i: nat)
    requires BRun(states, acts) && i < |states| && states[i].bc.BCRun? && states[i].bc.op != WaitOp
    ensures BEnabled(states[i], BConsumerStep(true))
  {
    BRunInv(states, acts, i);
    PcInEveryRun(states, acts, i);
    MayStep(states[i]);
  }

  /** The kernel's timed wait ran out at k, and the loop has been going round since. */
  ghost predicate TimedOut<T>(states: seq<BState<T>>, acts: seq<BAction<T>>, k: nat, i: nat)
    requires |states| == |acts| + 1 && i < |states|
  {
    && k < i && acts[k] == BConsumerStep(true) && states[k].bc.BCRun? && states[k].bc.pc == KernelTimed
    && forall m :: k < m <= i ==> states[m].bc.BCRun? && states[m].bc.pc in {UndoInc, UndoDec, UndoTry}
  }

  /** The loop is only ever entered from there. */
  lemma {:induction false} UndoesAfterTimeout<T>(states: seq<BState<T>>, acts: seq<BAction<T>>, i: nat) returns (k: nat)
    requires BRun(states, acts) && i < |states|
    requires states[i].bc.BCRun? && states[i].bc.pc in {UndoInc, UndoDec, UndoTry}
    ensures TimedOut(states, acts, k, i)
  {
    var b, a := states[i - 1], acts[i - 1];
    assert BEnabled(b, a) && states[i - 1 + 1] == BAfter(b, a);
    if b.bc.BCRun? && b.bc.pc in {UndoInc, UndoDec, UndoTry} {
      k := UndoesAfterTimeout(states, acts, i - 1);
    } else {
      k := i - 1;
    }
  }

  /** wait_dequeue_timed comes back without an element only after its timeout has passed, and try_dequeue and pop only
      when m_count showed none. */
  lemma GivesUpAfterTimeout<T>(states: seq<BState<T>>, acts: seq<BAction<T>>, i: nat)
    requires BRun(states, acts) && i < |acts| && states[i].bc.BCRun? && states[i].bc.op != PeekOp
    requires states[i + 1].bc == BCIdle(NoElement)
    ensures if states[i].bc.op == TimedOp then exists k :: TimedOut(states, acts, k, i)
            else (states[i].bc.op == TryDequeueOp || states[i].bc.op == PopOp) && states[i].count <= 0
  {
    EndsInRun(states, acts, i);
    if states[i].bc.op == TimedOp { var k := UndoesAfterTimeout(states, acts, i); }
  }

  /** A waiting call goes to the kernel only after 10,001 loads of m_count, one by tryWait and 10,000 by the spinning
      loop, every one of which showed no element: at `Park` it has made 10,002 steps. */
  lemma {:induction false} SpinsBeforeParking<T>(states: seq<BState<T>>, acts: seq<BAction<T>>, i: nat, j: nat)
    requires BRun(states, acts) && i <= j <= |acts| && forall k :: i <= k <= j ==> states[k].bc.BCRun?
    requires states[i].bc.pc == TryLoad && (states[j].bc.pc.Spin? || states[j].bc.pc in {TryLoad, Park})
    ensures OwnSteps(acts, i, j) + BRank(states[j]) == 10021
    ensures states[j].bc.pc == Park ==> OwnSteps(acts, i, j) == 10002
    ensures forall k :: i <= k < j && acts[k].BConsumerStep? && (states[k].bc.pc.Spin? ==> states[k].bc.pc.left > 0) ==>
              states[k].count <= 0
    decreases j
  {
    if i < j {
      var b, a := states[j - 1], acts[j - 1];
      assert BEnabled(b, a) && states[j - 1 + 1] == BAfter(b, a);
      SpinsBeforeParking(states, acts, i, j - 1);
    }
  }
}
