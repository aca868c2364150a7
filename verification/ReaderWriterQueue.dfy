/** The queue as the object it is in verilator_utils/readerwriterqueue.h: fields updated in place, one
    method per atomic step of each thread, and the calls those steps add up to when the other thread is
    not running. */
module ReaderWriterQueueObject {
  import opened Wrappers
  import opened QueueBlocks
  import opened CeilToPow2
  import opened SpscQueue
  import opened SpscInvariant
  import opened SpscPreserve
  import opened SpscTheorems

  /** The largest `size` for which size + 1 still has a power of two in a size_t above it. */
  const MAX_SIZE: nat := 0x7FFF_FFFF_FFFF_FFFF

  ghost predicate IsPow2(n: nat) {
    exists k: nat :: n == Pow2(k)
  }

  ghost predicate PowerSized<T>(q: Queue<T>) {
    && IsPow2(q.largestBlockSize)
    && forall x :: 0 <= x < |q.blocks| ==> IsPow2(q.blocks[x].sizeMask + 1)
  }

  /** Every block keeps a power-of-two size, so masking an index is NextIndex. */
  lemma PowerSizedKept<T>(q: Queue<T>, a: Action<T>)
    requires Enabled(q, a) && PowerSized(q) && q.largestBlockSize > 0
    ensures PowerSized(QueueAfter(q, a))
  {
    var k: nat :| q.largestBlockSize == Pow2(k);
    assert q.largestBlockSize * 2 == Pow2(k + 1);
  }

  /** The largest MAX_BLOCK_SIZE the constructor's asserts let through. */
  const TOP: nat := 0x8000_0000_0000_0000

  /** readerwriterqueue.h:109, in size_t arithmetic. */
  function InitialBlockCount(size: nat, maxBlockSize: nat): nat
    requires size >= 1 && maxBlockSize >= 2
  {
    (size + maxBlockSize * 2 - 3) % (SIZE_MAX + 1) / (maxBlockSize - 1)
  }

  /** The sizes the constructor serves. */
  predicate Serviceable(size: nat, maxBlockSize: nat) {
    size <= MAX_SIZE && (maxBlockSize < TOP || size < 3)
  }

  /** That many blocks leave room for `size` elements in all blocks but one. */
  lemma EnoughBlocks(size: nat, maxBlockSize: nat)
    requires size >= 1 && maxBlockSize >= 2 && size + maxBlockSize * 2 - 3 <= SIZE_MAX
    ensures InitialBlockCount(size, maxBlockSize) >= 2
    ensures Capacity(InitialBlockCount(size, maxBlockSize), maxBlockSize - 1) >= size
  {
    var d, count := maxBlockSize - 1, InitialBlockCount(size, maxBlockSize);
    assert size + 2 * d - 1 == count * d + (size + 2 * d - 1) % d;
    MulDistributes(count, 1, d);
    assert (count - 1) * d >= size;
  }

  /** Where the arithmetic wraps there are two blocks for one or two elements, and none for more. */
  lemma BlockCount(size: nat, maxBlockSize: nat)
    requires 1 <= size <= MAX_SIZE && 2 <= maxBlockSize <= TOP && IsPow2(maxBlockSize)
    ensures Serviceable(size, maxBlockSize) ==>
      InitialBlockCount(size, maxBlockSize) >= 1 &&
      Capacity(InitialBlockCount(size, maxBlockSize), maxBlockSize - 1) >= size
    ensures !Serviceable(size, maxBlockSize) ==> InitialBlockCount(size, maxBlockSize) == 0
  {
    if maxBlockSize < TOP {
      HalfOfTop(maxBlockSize);
      EnoughBlocks(size, maxBlockSize);
    } else if size < 3 {
      assert InitialBlockCount(size, maxBlockSize) == 2;
    }
  }

  lemma HalfOfTop(n: nat)
    requires IsPow2(n) && n < TOP
    ensures n * 2 <= TOP
  {
    var k: nat :| n == Pow2(k);
    SizeMaxIsPow2();
    Pow2Order(63, k);
    Pow2Mono(k, 63);
  }

  /** The state inside an enqueue call that began in s0, or just after it, when only the producer runs. */
  ghost predicate SoloEnqueue<T>(s0: State<T>, s: State<T>, element: T, canAlloc: bool, mallocOk: bool) {
    && Inv(s) && s.q.cons == s0.q.cons && s.h.cap == s0.h.cap && s.h.deq == s0.h.deq
    && (s.q.prod.PRun? ==>
          s.h.enq == s0.h.enq && s.h.peak == Held(s.h) &&
          s.q.prod.f.element == element && s.q.prod.f.canAlloc == canAlloc && (s.q.prod.f.pc == PAlloc ==> canAlloc))
    && (s.q.prod.PIdle? ==>
          || (s.q.prod.returned == Some(true) && s.h.enq == s0.h.enq + [element])
          || (s.q.prod.returned == Some(false) && s.h.enq == s0.h.enq &&
              if canAlloc then !mallocOk else Held(s.h) >= s.h.cap))
  }

  lemma SoloEnqueueStep<T>(s0: State<T>, s: State<T>, element: T, canAlloc: bool, m: bool)
    requires SoloEnqueue(s0, s, element, canAlloc, m) && PReady(s.q)
    ensures SoloEnqueue(s0, After(s, Action.ProducerStep(m)), element, canAlloc, m)
  {
    var s' := After(s, Action.ProducerStep(m));
    StepPreserves(s, Action.ProducerStep(m));
    if s'.q.prod.PRun? { WithinEnqueue(s, Action.ProducerStep(m)); }
    if s.q.prod.f.pc == PCheckFrontBlock && s.q.prod.f.tn == s.q.frontBlock { FullRing(s); }
  }

  /** What a dequeue of this kind returns when the producer is not running. */
  function SoloResult<T>(h: History<T>, kind: Kind): CResult<T> {
    if |h.deq| >= |h.enq| then Empty
    else if kind == Peek then Peeked(h.enq[|h.deq|])
    else Removed(h.enq[|h.deq|])
  }

  ghost predicate SoloDequeue<T>(s0: State<T>, s: State<T>, kind: Kind) {
    && Inv(s) && s.q.prod == s0.q.prod && s.h.enq == s0.h.enq
    && (s.q.cons.CRun? ==> s.h.deq == s0.h.deq && s.h.low == Held(s.h) && s.q.cons.c.kind == kind)
    && (s.q.cons.CIdle? ==>
          && s.q.cons.returned == SoloResult(s0.h, kind)
          && s.h.deq == if s.q.cons.returned.Removed? then s0.h.deq + [s.q.cons.returned.value] else s0.h.deq)
  }

  lemma SoloDequeueStep<T>(s0: State<T>, s: State<T>, kind: Kind)
    requires SoloDequeue(s0, s, kind) && CReady(s.q)
    ensures SoloDequeue(s0, After(s, Action.ConsumerStep), kind)
  {
    var s' := After(s, Action.ConsumerStep);
    StepPreserves(s, Action.ConsumerStep);
    RaceFree(s);
    if s'.q.cons.CRun? { WithinDequeue(s, Action.ConsumerStep); }
    if s.q.cons.c.pc == CStoreFront {
      assert s'.h.deq[|s.h.deq|] == s'.h.enq[..|s'.h.deq|][|s.h.deq|];
    }
  }

  class ReaderWriterQueue<T> {
    var blocks: seq<Block<T>>
    var frontBlock: nat
    var tailBlock: nat
    var largestBlockSize: nat
    const maxBlockSize: nat
    var prod: Producer<T>
    var cons: Consumer<T>
    ghost var h: History<T>

    function View(): Queue<T>
      reads this
    {
      Queue(blocks, frontBlock, tailBlock, largestBlockSize, maxBlockSize, prod, cons)
    }

    ghost function Snapshot(): State<T>
      reads this
    {
      State(View(), h)
    }

    ghost predicate Valid()
      reads this
    {
      Inv(Snapshot()) && PowerSized(View())
    }

    /** The constructor's loop: `count` blocks, each linked back to the first as it is added. */
    static method MakeRing(count: nat, size: nat) returns (bs: seq<Block<T>>)
      ensures |bs| == count
      ensures forall k :: 0 <= k < count ==> bs[k] == MakeBlock<T>(size).(next := Some(Wrap(k + 1, count)))
    {
      bs := [];
      var i := 0;
      while i != count
        invariant 0 <= i <= count && |bs| == i
        invariant forall k :: 0 <= k < i ==> bs[k] == MakeBlock<T>(size).(next := Some(Wrap(k + 1, i)))
      {
        var block := MakeBlock<T>(size);
        if i != 0 {
          bs := bs[i - 1 := bs[i - 1].(next := Some(i))];
        }
        bs := bs + [block.(next := Some(0))];
        i := i + 1;
      }
    }

    /** Sizes up to MAX_SIZE give a queue with room for `size` elements. Beyond, ceilToPow2 yields 0 and the
        only block has no slots: see OversizedBreaks. With the largest MAX_BLOCK_SIZE there is, twice that and
        the number of blocks wrap to 0, and a queue of three elements or more is left without a block. */
    constructor (size: nat, maxBlockSize: nat)
      requires 1 <= size <= SIZE_MAX
      requires 2 <= maxBlockSize <= TOP && IsPow2(maxBlockSize)
      ensures Serviceable(size, maxBlockSize) ==> Initial(Snapshot()) && h.cap == size && PowerSized(View())
      ensures size > MAX_SIZE ==> |blocks| == 1 && blocks[0] == MakeBlock<T>(0).(next := Some(0)) &&
                                  frontBlock == 0 && tailBlock == 0 && prod.PIdle? && cons.CIdle?
      ensures size <= MAX_SIZE && !Serviceable(size, maxBlockSize) ==> |blocks| == 0
    {
      var largest := CeilToPow2.CeilToPow2(if size == SIZE_MAX then 0 else size + 1);
      var bs: seq<Block<T>> := [];
      if largest > maxBlockSize * 2 % (SIZE_MAX + 1) {
        BlockCount(size, maxBlockSize);
        largest := maxBlockSize;
        bs := MakeRing(InitialBlockCount(size, maxBlockSize), largest);
      } else {
        bs := [MakeBlock<T>(largest).(next := Some(0))];
      }
      blocks := bs;
      frontBlock := 0;
      tailBlock := 0;
      largestBlockSize := largest;
      this.maxBlockSize := maxBlockSize;
      prod := PIdle(None);
      cons := CIdle(NotCalled);
      h := FirstHistory<T>(|bs|, if largest == 0 then 0 else largest - 1, size);
      new;
      if Serviceable(size, maxBlockSize) {
        assert Fresh(View(), |blocks|, largestBlockSize - 1);
        forall x | 0 <= x < |blocks| ensures IsPow2(blocks[x].sizeMask + 1) {
        }
      }
    }

    /** The producer's next atomic step, in place. */
    method ProducerStep(mallocOk: bool)
      requires PReady(View())
      modifies this`blocks, this`tailBlock, this`largestBlockSize, this`prod
      ensures View() == ProducerNext(old(View()), mallocOk)
    {
      var f := prod.f;
      match f.pc {
        case PLoadTailBlock =>
          prod := PRun(f.(pc := PLoadTail, tb := tailBlock));
        case PLoadTail =>
          var b := blocks[f.tb];
          var nbt := NextIndex(b.tail, b.sizeMask);
          prod := PRun(f.(pc := if nbt != b.localFront then PConstruct else PLoadFront, bt := b.tail, nbt := nbt));
        case PLoadFront =>
          var front := blocks[f.tb].front;
          blocks := blocks[f.tb := blocks[f.tb].(localFront := front)];
          prod := PRun(f.(pc := if f.nbt != front then PConstruct else PLoadNext));
        case PConstruct =>
          Build(f.tb, f.bt, f.element);
          prod := PRun(f.(pc := PStoreTail));
        case PStoreTail =>
          blocks := blocks[f.tb := blocks[f.tb].(tail := f.nbt)];
          prod := PIdle(Some(true));
        case PLoadNext =>
          prod := PRun(f.(pc := PCheckFrontBlock, tn := blocks[f.tb].next.value));
        case PCheckFrontBlock =>
          if f.tn != frontBlock {
            prod := PRun(f.(pc := PReloadNext));
          } else if f.canAlloc {
            prod := PRun(f.(pc := PAlloc));
          } else {
            prod := PIdle(Some(false));
          }
        case PReloadNext =>
          prod := PRun(f.(pc := PLoadNextFront, tn := blocks[f.tb].next.value));
        case PLoadNextFront =>
          var front := blocks[f.tn].front;
          blocks := blocks[f.tn := blocks[f.tn].(localFront := front)];
          prod := PRun(f.(pc := PLoadNextTail));
        case PLoadNextTail =>
          prod := PRun(f.(pc := PConstructNext, nt := blocks[f.tn].tail));
        case PConstructNext =>
          Build(f.tn, f.nt, f.element);
          prod := PRun(f.(pc := PStoreNextTail));
        case PStoreNextTail =>
          blocks := blocks[f.tn := blocks[f.tn].(tail := NextIndex(f.nt, blocks[f.tn].sizeMask))];
          prod := PRun(f.(pc := PStoreTailBlock));
        case PAlloc =>
          if mallocOk {
            var size := if largestBlockSize >= maxBlockSize then largestBlockSize else largestBlockSize * 2;
            blocks := blocks + [MakeBlock(size)];
            largestBlockSize := size;
            prod := PRun(f.(pc := PConstructNew, tn := |blocks| - 1));
          } else {
            prod := PIdle(Some(false));
          }
        case PConstructNew =>
          Build(f.tn, 0, f.element);
          prod := PRun(f.(pc := PInitTail));
        case PInitTail =>
          blocks := blocks[f.tn := blocks[f.tn].(tail := 1, localTail := 1)];
          prod := PRun(f.(pc := PLoadLink));
        case PLoadLink =>
          prod := PRun(f.(pc := PInitNext, lk := blocks[f.tb].next));
        case PInitNext =>
          blocks := blocks[f.tn := blocks[f.tn].(next := f.lk)];
          prod := PRun(f.(pc := PLink));
        case PLink =>
          blocks := blocks[f.tb := blocks[f.tb].(next := Some(f.tn))];
          prod := PRun(f.(pc := PStoreTailBlock));
        case PStoreTailBlock =>
          tailBlock := f.tn;
          prod := PIdle(Some(true));
      }
    }

    /** Constructs the element in a slot. */
    method Build(x: nat, j: nat, element: T)
      requires x < |blocks| && j < |blocks[x].data|
      modifies this`blocks
      ensures blocks == old(blocks)[x := old(blocks)[x].(data := old(blocks)[x].data[j := Some(element)])]
    {
      var data := blocks[x].data[j := Some(element)];
      blocks := blocks[x := blocks[x].(data := data)];
    }

    /** The consumer's next atomic step, in place. */
    method ConsumerStep()
      requires CReady(View())
      modifies this`blocks, this`frontBlock, this`cons
      ensures View() == ConsumerNext(old(View()))
    {
      var c := cons.c;
      match c.pc {
        case CLoadFrontBlock =>
          cons := CRun(c.(pc := CLoadFront, fb := frontBlock, bt := blocks[frontBlock].localTail));
        case CLoadFront =>
          var bf := blocks[c.fb].front;
          cons := CRun(c.(pc := if bf != c.bt then CTake else CLoadTail, bf := bf));
        case CLoadTail =>
          var tail := blocks[c.fb].tail;
          blocks := blocks[c.fb := blocks[c.fb].(localTail := tail)];
          cons := CRun(c.(pc := if c.bf != tail then CTake else CLoadTailBlock));
        case CTake =>
          var x := blocks[c.fb].data[c.bf].value;
          if c.kind == Peek {
            cons := CIdle(Peeked(x));
          } else {
            blocks := blocks[c.fb := blocks[c.fb].(data := blocks[c.fb].data[c.bf := None])];
            cons := CRun(c.(pc := CStoreFront, taken := Some(x)));
          }
        case CStoreFront =>
          blocks := blocks[c.fb := blocks[c.fb].(front := NextIndex(c.bf, blocks[c.fb].sizeMask))];
          cons := CIdle(Removed(c.taken.value));
        case CLoadTailBlock =>
          if c.fb != tailBlock {
            cons := CRun(c.(pc := CReloadFrontBlock));
          } else {
            cons := CIdle(Empty);
          }
        case CReloadFrontBlock =>
          cons := CRun(c.(pc := CReloadTail, fb := frontBlock));
        case CReloadTail =>
          var tail := blocks[c.fb].tail;
          blocks := blocks[c.fb := blocks[c.fb].(localTail := tail)];
          cons := CRun(c.(pc := CReloadFront, bt := tail));
        case CReloadFront =>
          var bf := blocks[c.fb].front;
          cons := CRun(c.(pc := if bf != c.bt then CTake else CLoadNext, bf := bf));
        case CLoadNext =>
          cons := CRun(c.(pc := CLoadNextFront, nb := blocks[c.fb].next.value));
        case CLoadNextFront =>
          cons := CRun(c.(pc := CLoadNextTail, nf := blocks[c.nb].front));
        case CLoadNextTail =>
          if c.kind == Peek {
            cons := CRun(c.(pc := CTake, fb := c.nb, bf := c.nf));
          } else {
            var tail := blocks[c.nb].tail;
            blocks := blocks[c.nb := blocks[c.nb].(localTail := tail)];
            cons := CRun(c.(pc := CStoreFrontBlock));
          }
        case CStoreFrontBlock =>
          frontBlock := c.nb;
          cons := CRun(c.(pc := CTake, fb := c.nb, bf := c.nf));
      }
    }

    /** inner_enqueue while the consumer is not running. */
    method InnerEnqueue(element: T, canAlloc: bool, mallocOk: bool) returns (ok: bool)
      requires Valid() && prod.PIdle? && cons.CIdle?
      modifies this
      ensures Valid() && prod.PIdle? && cons == old(cons)
      ensures h.deq == old(h.deq) && h.cap == old(h.cap)
      ensures h.enq == if ok then old(h.enq) + [element] else old(h.enq)
      ensures !ok ==> if canAlloc then !mallocOk else Held(h) >= h.cap
    {
      ghost var s0 := Snapshot();
      StepPreserves(s0, Action.CallEnqueue(element, canAlloc));
      prod := PRun(PFrame(PLoadTailBlock, element, canAlloc, 0, 0, 0, 0, 0, None));
      h := After(s0, Action.CallEnqueue(element, canAlloc)).h;
      while prod.PRun?
        invariant SoloEnqueue(s0, Snapshot(), element, canAlloc, mallocOk) && PowerSized(View())
        decreases if prod.PRun? then ProducerRank(prod.f.pc) + 1 else 0
      {
        ghost var s := Snapshot();
        InvReady(s);
        ProducerWaitFree(s, Action.ProducerStep(mallocOk));
        SoloEnqueueStep(s0, s, element, canAlloc, mallocOk);
        PowerSizedKept(s.q, Action.ProducerStep(mallocOk));
        ProducerStep(mallocOk);
        h := After(s, Action.ProducerStep(mallocOk)).h;
      }
      ok := prod.returned.value;
    }

    /** try_dequeue, pop or peek while the producer is not running: fails exactly when the queue is empty. */
    method Dequeue(kind: Kind) returns (r: CResult<T>)
      requires Valid() && prod.PIdle? && cons.CIdle?
      modifies this
      ensures Valid() && cons.CIdle? && prod == old(prod)
      ensures h.enq == old(h.enq)
      ensures r == SoloResult(old(h), kind)
      ensures h.deq == if r.Removed? then old(h.deq) + [r.value] else old(h.deq)
    {
      ghost var s0 := Snapshot();
      StepPreserves(s0, Action.CallConsumer(kind));
      cons := CRun(CFrame(CLoadFrontBlock, kind, 0, 0, 0, 0, 0, None));
      h := After(s0, Action.CallConsumer(kind)).h;
      while cons.CRun?
        invariant SoloDequeue(s0, Snapshot(), kind) && PowerSized(View())
        decreases if cons.CRun? then ConsumerRank(cons.c.pc) + 1 else 0
      {
        ghost var s := Snapshot();
        InvReady(s);
        ConsumerWaitFree(s, Action.ConsumerStep);
        SoloDequeueStep(s0, s, kind);
        PowerSizedKept(s.q, Action.ConsumerStep);
        ConsumerStep();
        h := After(s, Action.ConsumerStep).h;
      }
      r := cons.returned;
    }
  }

  /** A queue asked for more than MAX_SIZE elements writes outside its only block on the first enqueue. */
  lemma OversizedBreaks<T>(q: Queue<T>, element: T)
    requires |q.blocks| == 1 && q.blocks[0] == MakeBlock<T>(0).(next := Some(0))
    requires q.tailBlock == 0 && q.prod.PIdle?
    ensures var q1 := QueueAfter(q, Action.CallEnqueue(element, true));
      var q2 := ProducerNext(q1, true);
      PReady(q2) && !PReady(ProducerNext(q2, true))
  {
  }
}
