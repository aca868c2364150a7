/** The blocking queue of verilator_utils/readerwriterqueue.h:744-933: SpscQueue guarded by the
    LightweightSemaphore of verilator_utils/atomicops.h:576-667. Each access to m_count and each call into
    the kernel semaphore is one step; the steps of the inner queue are those of SpscQueue. */
module BlockingQueue {
  import opened Wrappers
  import opened SpscQueue
  import opened SpscInvariant
  import opened SpscTheorems

  /** signal() is `fetch_add(1)`, then a kernel post if the old count was negative. */
  datatype BProducer = BPIdle(returned: Option<bool>) | BPInner | BPSignalAdd | BPSignalPost

  /** The blocking calls; `Timed` covers wait_dequeue_timed with a timeout of zero or more, and a
      negative timeout is `Wait`. */
  datatype Op = TryDequeueOp | PopOp | PeekOp | WaitOp | TimedOp

  datatype BPc =
    | TryLoad | TryDec                 // tryWait
    | Spin(left: nat) | SpinDec        // the spinning part of waitWithPartialSpinning
    | Park | KernelWait | KernelTimed  // the last decrement, then the kernel
    | UndoInc | UndoDec | UndoTry      // the loop after a timeout
    | Enter | Inner                    // the call into the inner queue

  datatype BResult<T> = NoResult | NoElement | Got(value: T) | AssertFailed
  datatype BConsumer<T> = BCIdle(returned: BResult<T>) | BCRun(pc: BPc, op: Op)

  /** `signals` and `granted` count the completed fetch_add(1)s of signal() and the waits that succeeded. */
  datatype BState<T> = BState(s: State<T>, count: int, kernel: nat, bp: BProducer, bc: BConsumer<T>,
                              signals: int, granted: int)

  datatype BAction<T> =
    | BCallEnqueue(element: T, canAlloc: bool)
    | BCall(op: Op)
    | BProducerStep(mallocOk: bool)
    | BConsumerStep(timeout: bool)

  const SPIN := 10000

  ghost predicate BEnabled<T>(b: BState<T>, a: BAction<T>) {
    match a
    case BCallEnqueue(_, _) => b.bp.BPIdle? && b.s.q.prod.PIdle?
    case BCall(_) => b.bc.BCIdle?
    case BProducerStep(_) => !b.bp.BPIdle? && (b.bp.BPInner? ==> PReady(b.s.q))
    case BConsumerStep(timeout) =>
      b.bc.BCRun? &&
      match b.bc.pc
      case KernelWait => b.kernel > 0
      case KernelTimed => b.kernel > 0 || timeout
      case Enter => b.s.q.cons.CIdle?
      case Inner => CReady(b.s.q)
      case _ => true
  }

  function InnerKind(op: Op): Kind {
    match op case PopOp => Pop case PeekOp => Peek case _ => TryDequeue
  }

  function BProduce<T>(b: BState<T>, mallocOk: bool): BState<T>
    requires BEnabled(b, BProducerStep(mallocOk))
  {
    match b.bp
    case BPInner =>
      var s' := After(b.s, ProducerStep(mallocOk));
      b.(s := s', bp := if s'.q.prod.PRun? then BPInner
                        else if s'.q.prod.returned == Some(true) then BPSignalAdd
                        else BPIdle(Some(false)))
    case BPSignalAdd =>
      b.(count := b.count + 1, signals := b.signals + 1,
         bp := if b.count < 0 then BPSignalPost else BPIdle(Some(true)))
    case BPSignalPost =>
      b.(kernel := b.kernel + 1, bp := BPIdle(Some(true)))
  }

  function Grant<T>(b: BState<T>): BState<T>
    requires b.bc.BCRun?
  {
    b.(granted := b.granted + 1, bc := b.bc.(pc := Enter))
  }

  function BConsume<T>(b: BState<T>, timeout: bool): BState<T>
    requires BEnabled(b, BConsumerStep(timeout))
  {
    var at := (pc: BPc) => b.(bc := b.bc.(pc := pc));
    match b.bc.pc
    case TryLoad =>
      if b.count > 0 then at(TryDec)
      else if b.bc.op == WaitOp || b.bc.op == TimedOp then at(Spin(SPIN))
      else b.(bc := BCIdle(NoElement))
    case TryDec => Grant(b.(count := b.count - 1))
    case Spin(left) =>
      if left == 0 then at(Park) else if b.count > 0 then at(SpinDec) else at(Spin(left - 1))
    case SpinDec => Grant(b.(count := b.count - 1))
    case Park =>
      var b' := b.(count := b.count - 1);
      if b.count > 0 then Grant(b')
      else b'.(bc := b.bc.(pc := if b.bc.op == TimedOp then KernelTimed else KernelWait))
    case KernelWait => Grant(b.(kernel := b.kernel - 1))
    case KernelTimed => if timeout then at(UndoInc) else Grant(b.(kernel := b.kernel - 1))
    case UndoInc =>
      if b.count < 0 then b.(count := b.count + 1, bc := BCIdle(NoElement))
      else b.(count := b.count + 1, bc := b.bc.(pc := UndoDec))
    case UndoDec =>
      b.(count := b.count - 1, bc := b.bc.(pc := if b.count > 0 then UndoTry else UndoInc))
    case UndoTry => if b.kernel > 0 then Grant(b.(kernel := b.kernel - 1)) else at(UndoInc)
    case Enter => b.(s := After(b.s, CallConsumer(InnerKind(b.bc.op))), bc := b.bc.(pc := Inner))
    case Inner =>
      var s' := After(b.s, ConsumerStep);
      b.(s := s', bc :=
        if s'.q.cons.CRun? then b.bc
        else match s'.q.cons.returned
          case Removed(x) => BCIdle(Got(x))
          case Peeked(x) => BCIdle(Got(x))
          case _ => if b.bc.op == PeekOp then BCIdle(NoElement) else BCIdle(AssertFailed))
  }

  function BAfter<T>(b: BState<T>, a: BAction<T>): BState<T>
    requires BEnabled(b, a)
  {
    match a
    case BCallEnqueue(v, canAlloc) => b.(s := After(b.s, CallEnqueue(v, canAlloc)), bp := BPInner)
    case BCall(op) => b.(bc := BCRun(if op == PeekOp then Enter else TryLoad, op))
    case BProducerStep(m) => BProduce(b, m)
    case BConsumerStep(t) => BConsume(b, t)
  }

  // ---------- invariant

  /** The consumer has taken one off m_count and not yet been granted it or put it back. */
  predicate Pending<T>(c: BConsumer<T>) {
    c.BCRun? && c.pc in {KernelWait, KernelTimed, UndoInc, UndoTry}
  }

  /** A granted wait whose element has not yet been removed from the inner queue. */
  predicate Claimed<T>(c: BConsumer<T>) {
    c.BCRun? && c.op != PeekOp && c.pc in {Enter, Inner}
  }

  function One(p: bool): int {
    if p then 1 else 0
  }

  ghost predicate CountsOk<T>(b: BState<T>) {
    && b.count == b.signals - b.granted - One(Pending(b.bc))
    && b.signals == |b.s.h.enq| - One(b.bp == BPSignalAdd)
    && b.granted == |b.s.h.deq| + One(Claimed(b.bc))
    && b.count >= -One(Pending(b.bc))
  }

  /** Kernel posts made or about to be made. */
  function Posts<T>(b: BState<T>): int {
    b.kernel + One(b.bp == BPSignalPost)
  }

  /** A post is outstanding exactly when a waiter that went below zero has since been covered. */
  ghost predicate PostsOk<T>(b: BState<T>) {
    && Posts(b) == (if b.bc.BCRun? && b.bc.pc == UndoDec then 1
                    else if Pending(b.bc) && b.count >= 0 then 1 else 0)
    && (b.bc.BCRun? && b.bc.pc == UndoDec ==> b.count >= 1)
    && (b.bc.BCRun? && b.bc.pc == UndoTry ==> b.count >= 0)
    && (b.bc.BCRun? && b.bc.pc in {TryDec, SpinDec} ==> b.count >= 1)
  }

  ghost predicate BInv<T>(b: BState<T>) {
    Inv(b.s) && BOk(b)
  }

  ghost predicate BOk<T>(b: BState<T>) {
    && CountsOk(b)
    && PostsOk(b)
    && (b.bp.BPInner? <==> b.s.q.prod.PRun?)
    && (b.bc.BCRun? && b.bc.pc == Inner <==> b.s.q.cons.CRun?)
    && (b.bc.BCRun? && b.bc.op == PeekOp ==> b.bc.pc in {Enter, Inner})
    && (b.s.q.cons.CRun? ==> b.s.q.cons.c.kind == InnerKind(b.bc.op) && (b.bc.op != PeekOp ==> b.s.h.low >= 1))
    && b.bc != BCIdle(AssertFailed)
  }

  /** What one step of the inner queue's producer does to the histories. */
  ghost predicate InnerProduces<T>(s: State<T>, s': State<T>) {
    && s'.h.deq == s.h.deq && s'.q.cons == s.q.cons
    && (s'.q.prod.PIdle? ==> s'.q.prod.returned.Some?)
    && |s'.h.enq| == |s.h.enq| + One(s'.q.prod == PIdle(Some(true)))
    && (s'.h.low == s.h.low || s'.h.low == Held(s'.h))
  }

  lemma ProducerEffect<T>(s: State<T>, m: bool)
    requires PReady(s.q)
    ensures InnerProduces(s, After(s, ProducerStep(m)))
  {
  }

  /** What one step of the inner queue's consumer does; `claimed` says an element is there for it. */
  ghost predicate InnerConsumes<T>(s: State<T>, s': State<T>, claimed: bool)
    requires s.q.cons.CRun?
  {
    && s'.h.enq == s.h.enq && s'.q.prod == s.q.prod
    && (s'.q.cons.CRun? ==> s'.q.cons.c.kind == s.q.cons.c.kind)
    && (s'.q.cons.CIdle? && s.q.cons.c.kind != Peek ==> s'.q.cons.returned.Removed? || !claimed)
    && |s'.h.deq| == |s.h.deq| + One(s'.q.cons.CIdle? && s'.q.cons.returned.Removed?)
    && (s'.q.cons.CIdle? && s'.q.cons.returned.Removed? ==> s.q.cons.c.kind != Peek)
    && (s'.h.low == s.h.low || s'.h.low == Held(s'.h))
  }

  /** The inner try_dequeue and pop cannot find an empty queue while an element is claimed. */
  lemma ConsumerEffect<T>(s: State<T>)
    requires Inv(s) && CReady(s.q)
    ensures InnerConsumes(s, After(s, ConsumerStep), s.h.low >= 1)
  {
    if s.q.cons.c.pc == CLoadTailBlock && s.q.cons.c.fb == s.q.tailBlock {
      var r := s.h.ring;
      assert r[0] == r[s.h.live];
    }
  }

  lemma BCallsPreserve<T>(b: BState<T>, a: BAction<T>)
    requires BInv(b) && BEnabled(b, a) && (a.BCallEnqueue? || a.BCall?)
    ensures BInv(BAfter(b, a))
  {
    if a.BCallEnqueue? {
      StepPreserves(b.s, CallEnqueue(a.element, a.canAlloc));
    }
  }

  lemma BInnerProduce<T>(b: BState<T>, s': State<T>)
    requires BOk(b) && b.bp.BPInner? && InnerProduces(b.s, s') && s'.h.low <= Held(s'.h)
    ensures BOk(b.(s := s', bp := if s'.q.prod.PRun? then BPInner
                                  else if s'.q.prod.returned == Some(true) then BPSignalAdd
                                  else BPIdle(Some(false))))
  {
  }

  lemma BSignal<T>(b: BState<T>, m: bool)
    requires BOk(b) && BEnabled(b, BProducerStep(m)) && !b.bp.BPInner?
    ensures BOk(BAfter(b, BProducerStep(m)))
  {
  }

  lemma BProducePreserves<T>(b: BState<T>, m: bool)
    requires BInv(b) && BEnabled(b, BProducerStep(m))
    ensures BInv(BAfter(b, BProducerStep(m)))
  {
    if b.bp.BPInner? {
      StepPreserves(b.s, ProducerStep(m));
      ProducerEffect(b.s, m);
      BInnerProduce(b, After(b.s, ProducerStep(m)));
    } else {
      BSignal(b, m);
    }
  }

  lemma BSemaphore<T>(b: BState<T>, t: bool)
    requires BOk(b) && BEnabled(b, BConsumerStep(t)) && b.bc.pc != Enter && b.bc.pc != Inner
    ensures BOk(BAfter(b, BConsumerStep(t)))
    ensures BAfter(b, BConsumerStep(t)).s == b.s
  {
  }

  lemma BEnter<T>(b: BState<T>, s': State<T>)
    requires BOk(b) && b.bc.BCRun? && b.bc.pc == Enter
    requires s'.h.enq == b.s.h.enq && s'.h.deq == b.s.h.deq && s'.q.prod == b.s.q.prod
    requires s'.q.cons.CRun? && s'.q.cons.c.kind == InnerKind(b.bc.op) && s'.h.low == Held(s'.h)
    ensures BOk(b.(s := s', bc := b.bc.(pc := Inner)))
  {
  }

  lemma BInnerConsume<T>(b: BState<T>, s': State<T>, bc': BConsumer<T>)
    requires BOk(b) && b.bc.BCRun? && b.bc.pc == Inner
    requires InnerConsumes(b.s, s', b.s.h.low >= 1)
    requires bc' == if s'.q.cons.CRun? then b.bc
        else match s'.q.cons.returned
          case Removed(x) => BCIdle(Got(x))
          case Peeked(x) => BCIdle(Got(x))
          case _ => if b.bc.op == PeekOp then BCIdle(NoElement) else BCIdle(AssertFailed)
    ensures BOk(b.(s := s', bc := bc'))
  {
  }

  lemma BConsumePreserves<T>(b: BState<T>, t: bool)
    requires BInv(b) && BEnabled(b, BConsumerStep(t))
    ensures BInv(BAfter(b, BConsumerStep(t)))
  {
    if b.bc.pc == Enter {
      StepPreserves(b.s, CallConsumer(InnerKind(b.bc.op)));
      BEnter(b, After(b.s, CallConsumer(InnerKind(b.bc.op))));
    } else if b.bc.pc == Inner {
      StepPreserves(b.s, ConsumerStep);
      ConsumerEffect(b.s);
      BInnerConsume(b, After(b.s, ConsumerStep), BAfter(b, BConsumerStep(t)).bc);
    } else {
      BSemaphore(b, t);
    }
  }

  lemma BPreserves<T>(b: BState<T>, a: BAction<T>)
    requires BInv(b) && BEnabled(b, a)
    ensures BInv(BAfter(b, a))
  {
    match a
    case BCallEnqueue(_, _) => BCallsPreserve(b, a);
    case BCall(_) => BCallsPreserve(b, a);
    case BProducerStep(m) => BProducePreserves(b, m);
    case BConsumerStep(t) => BConsumePreserves(b, t);
  }

  // ---------- every run

  ghost predicate BInitial<T>(b: BState<T>) {
    && Initial(b.s)
    && b.count == 0 && b.kernel == 0 && b.signals == 0 && b.granted == 0
    && b.bp == BPIdle(None) && b.bc == BCIdle(NoResult)
  }

  ghost predicate BRun<T>(states: seq<BState<T>>, acts: seq<BAction<T>>) {
    && |states| == |acts| + 1
    && BInitial(states[0])
    && forall i :: 0 <= i < |acts| ==> BEnabled(states[i], acts[i]) && states[i + 1] == BAfter(states[i], acts[i])
  }

  lemma {:induction false} BRunInv<T>(states: seq<BState<T>>, acts: seq<BAction<T>>, i: nat)
    requires BRun(states, acts) && i < |states|
    ensures BInv(states[i])
  {
    if i == 0 {
      InitialInv(states[0].s);
    } else {
      BRunInv(states, acts, i - 1);
      BPreserves(states[i - 1], acts[i - 1]);
    }
  }

  /** In every run, m_count is signals less grants less the pending wait and never below -1 (the assert in
      signal()), a kernel post is outstanding exactly when a waiter that went below zero has been covered,
      and no `assert(success)` after a granted wait fails. */
  lemma SemaphoreInEveryRun<T>(states: seq<BState<T>>, acts: seq<BAction<T>>, i: nat)
    requires BRun(states, acts) && i < |states|
    ensures var b := states[i];
      && b.count == b.signals - b.granted - One(Pending(b.bc))
      && b.count >= -1
      && b.bc != BCIdle(AssertFailed)
      && 0 <= Posts(b) <= 1
      && (b.bc.BCRun? && b.bc.pc in {KernelWait, KernelTimed} ==> (Posts(b) == 1 <==> b.signals > b.granted))
  {
    BRunInv(states, acts, i);
  }

  /** No lost wakeup: a consumer stuck in the kernel has no signalled element to take, unless the producer's
      very next step posts. */
  lemma NoLostWakeup<T>(states: seq<BState<T>>, acts: seq<BAction<T>>, i: nat)
    requires BRun(states, acts) && i < |states|
    requires states[i].bc.BCRun? && states[i].bc.pc in {KernelWait, KernelTimed}
    ensures !BEnabled(states[i], BConsumerStep(false)) <==>
      states[i].signals == states[i].granted || states[i].bp == BPSignalPost
  {
    BRunInv(states, acts, i);
  }

  /** What a step that ends a call gives back. */
  ghost predicate Returns<T>(b: BState<T>, b': BState<T>)
    requires b'.bc.BCIdle?
  {
    match b'.bc.returned
    case NoElement => b.signals == b.granted && b'.s == b.s
    case Got(x) => |b.s.h.deq| < |b.s.h.enq| && x == b.s.h.enq[|b.s.h.deq|] && b'.s.h.deq == b.s.h.deq + [x]
    case _ => false
  }

  lemma EmptyHanded<T>(b: BState<T>, t: bool)
    requires BInv(b) && BEnabled(b, BConsumerStep(t)) && b.bc.op != PeekOp && b.bc.pc != Inner
    requires BAfter(b, BConsumerStep(t)).bc.BCIdle?
    ensures Returns(b, BAfter(b, BConsumerStep(t)))
  {
  }

  lemma Granted<T>(b: BState<T>, t: bool)
    requires BInv(b) && BEnabled(b, BConsumerStep(t)) && b.bc.op != PeekOp && b.bc.pc == Inner
    requires BAfter(b, BConsumerStep(t)).bc.BCIdle?
    ensures Returns(b, BAfter(b, BConsumerStep(t)))
  {
    StepPreserves(b.s, ConsumerStep);
    ConsumerEffect(b.s);
    RemovedIsOldest(b.s);
  }

  /** A blocking-queue call other than peek returns empty-handed only at an instant when every signalled
      element had been taken; and a call that was granted a wait returns the oldest element. */
  lemma BlockingReturns<T>(states: seq<BState<T>>, acts: seq<BAction<T>>, i: nat)
    requires BRun(states, acts) && i < |acts|
    requires states[i].bc.BCRun? && states[i].bc.op != PeekOp && states[i + 1].bc.BCIdle?
    ensures Returns(states[i], states[i + 1])
  {
    BRunInv(states, acts, i);
    var b, a := states[i], acts[i];
    assert BEnabled(b, a) && states[i + 1] == BAfter(b, a);
    if a.BConsumerStep? {
      if b.bc.pc == Inner { Granted(b, a.timeout); } else { EmptyHanded(b, a.timeout); }
    }
  }

  lemma RemovedIsOldest<T>(s: State<T>)
    requires Inv(s) && CReady(s.q) && Inv(After(s, ConsumerStep))
    ensures var s' := After(s, ConsumerStep);
      s'.q.cons.CIdle? && s'.q.cons.returned.Removed? ==>
        var x := s'.q.cons.returned.value;
        |s.h.deq| < |s.h.enq| && x == s.h.enq[|s.h.deq|] && s'.h.deq == s.h.deq + [x]
  {
    var s' := After(s, ConsumerStep);
    if s'.q.cons.CIdle? && s'.q.cons.returned.Removed? {
      assert s'.h.deq[|s.h.deq|] == s'.h.enq[..|s.h.deq| + 1][|s.h.deq|];
    }
  }

  /** size_approx with no call in progress is exactly the number of elements held. */
  lemma SizeApproxAtRest<T>(states: seq<BState<T>>, acts: seq<BAction<T>>, i: nat)
    requires BRun(states, acts) && i < |states| && states[i].bp.BPIdle? && states[i].bc.BCIdle?
    ensures states[i].count == Held(states[i].s.h)
  {
    BRunInv(states, acts, i);
  }
}
