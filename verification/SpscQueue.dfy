/** The lock-free single-producer single-consumer queue of
    verilator_utils/readerwriterqueue.h:60-741 as a two-thread transition system.
    Every load or store of a `weak_atomic`, and every construction or destruction of an element,
    is one step; the two threads' steps interleave freely. */
module SpscQueue {
  import opened Wrappers
  import opened QueueBlocks
  import opened CeilToPow2

  /** The producer's next step inside inner_enqueue (readerwriterqueue.h:521-630). */
  datatype PPc =
    | PLoadTailBlock | PLoadTail | PLoadFront | PConstruct | PStoreTail
    | PLoadNext | PCheckFrontBlock
    | PReloadNext | PLoadNextFront | PLoadNextTail | PConstructNext | PStoreNextTail
    | PAlloc | PConstructNew | PInitTail | PLoadLink | PInitNext | PLink
    | PStoreTailBlock

  /** tb = tailBlock_, bt = blockTail, nbt = nextBlockTail (first use), tn = tailBlockNext or newBlock,
      nt = nextBlockTail (second use), lk = the link copied into a new block. */
  datatype PFrame<T> = PFrame(pc: PPc, element: T, canAlloc: bool, tb: nat, bt: nat, nbt: nat,
                              tn: nat, nt: nat, lk: Option<nat>)

  datatype Producer<T> = PIdle(returned: Option<bool>) | PRun(f: PFrame<T>)

  datatype Kind = TryDequeue | Pop | Peek

  /** The consumer's next step inside try_dequeue, pop (readerwriterqueue.h:271-362, 412-476) or
      peek (lines 370-407). */
  datatype CPc =
    | CLoadFrontBlock | CLoadFront | CLoadTail | CTake | CStoreFront
    | CLoadTailBlock | CReloadFrontBlock | CReloadTail | CReloadFront
    | CLoadNext | CLoadNextFront | CLoadNextTail | CStoreFrontBlock

  /** fb = frontBlock_, bf = blockFront, bt = blockTail, nb = nextBlock, nf = nextBlockFront,
      taken = the object moved out of (or destroyed in) the front slot. */
  datatype CFrame<T> = CFrame(pc: CPc, kind: Kind, fb: nat, bf: nat, bt: nat, nb: nat, nf: nat,
                              taken: Option<T>)

  datatype CResult<T> = NotCalled | Empty | Removed(value: T) | Peeked(value: T)
  datatype Consumer<T> = CIdle(returned: CResult<T>) | CRun(c: CFrame<T>)

  /** The queue object together with the two threads' stack frames. Blocks are named by their
      allocation order. */
  datatype Queue<T> = Queue(
    blocks: seq<Block<T>>,
    frontBlock: nat, tailBlock: nat,
    largestBlockSize: nat, maxBlockSize: nat,
    prod: Producer<T>, cons: Consumer<T>)

  /** make_block (readerwriterqueue.h:714-727); `size - 1` is a size_t and wraps for 0. */
  function MakeBlock<T>(size: nat): Block<T> {
    Block(0, 0, 0, 0, None, seq(size, i => None), if size == 0 then SIZE_MAX else size - 1)
  }

  function NewBlockSize<T>(q: Queue<T>): nat {
    if q.largestBlockSize >= q.maxBlockSize then q.largestBlockSize else q.largestBlockSize * 2
  }

  // ---------- memory safety: what a step dereferences exists

  ghost predicate IsBlock<T>(q: Queue<T>, i: nat) {
    i < |q.blocks|
  }

  ghost predicate IsSlot<T>(q: Queue<T>, i: nat, j: nat) {
    i < |q.blocks| && j < |q.blocks[i].data|
  }

  ghost predicate PReady<T>(q: Queue<T>) {
    q.prod.PRun? &&
    var f := q.prod.f;
    match f.pc
    case PLoadTailBlock => true
    case PLoadTail | PLoadFront | PStoreTail => IsBlock(q, f.tb)
    case PConstruct => IsSlot(q, f.tb, f.bt)
    case PLoadNext | PReloadNext => IsBlock(q, f.tb) && q.blocks[f.tb].next.Some?
    case PCheckFrontBlock => true
    case PLoadNextFront | PLoadNextTail | PStoreNextTail => IsBlock(q, f.tn)
    case PConstructNext => IsSlot(q, f.tn, f.nt)
    case PAlloc => NewBlockSize(q) > 0
    case PConstructNew => IsSlot(q, f.tn, 0)
    case PInitTail => IsBlock(q, f.tn)
    case PLoadLink => IsBlock(q, f.tb)
    case PInitNext => IsBlock(q, f.tn)
    case PLink => IsBlock(q, f.tb)
    case PStoreTailBlock => true
  }

  ghost predicate CReady<T>(q: Queue<T>) {
    q.cons.CRun? &&
    var c := q.cons.c;
    match c.pc
    case CLoadFrontBlock => IsBlock(q, q.frontBlock)
    case CLoadFront | CLoadTail | CReloadTail | CReloadFront => IsBlock(q, c.fb)
    case CTake => IsSlot(q, c.fb, c.bf) && q.blocks[c.fb].data[c.bf].Some?
    case CStoreFront => IsBlock(q, c.fb) && c.taken.Some?
    case CLoadTailBlock | CReloadFrontBlock => true
    case CLoadNext => IsBlock(q, c.fb) && q.blocks[c.fb].next.Some?
    case CLoadNextFront | CLoadNextTail => IsBlock(q, c.nb)
    case CStoreFrontBlock => true
  }

  // ---------- the producer's steps

  function SetBlock<T>(q: Queue<T>, i: nat, b: Block<T>): Queue<T>
    requires i < |q.blocks|
  {
    q.(blocks := q.blocks[i := b])
  }

  function ProducerNext<T>(q: Queue<T>, mallocOk: bool): Queue<T>
    requires PReady(q)
  {
    var f := q.prod.f;
    match f.pc
    case PLoadTailBlock =>
      q.(prod := PRun(f.(pc := PLoadTail, tb := q.tailBlock)))
    case PLoadTail =>
      var b := q.blocks[f.tb];
      var nbt := NextIndex(b.tail, b.sizeMask);
      var pc := if nbt != b.localFront then PConstruct else PLoadFront;
      q.(prod := PRun(f.(pc := pc, bt := b.tail, nbt := nbt)))
    case PLoadFront =>
      var b := q.blocks[f.tb];
      var pc := if f.nbt != b.front then PConstruct else PLoadNext;
      SetBlock(q, f.tb, b.(localFront := b.front)).(prod := PRun(f.(pc := pc)))
    case PConstruct =>
      var b := q.blocks[f.tb];
      SetBlock(q, f.tb, b.(data := b.data[f.bt := Some(f.element)])).(prod := PRun(f.(pc := PStoreTail)))
    case PStoreTail =>
      SetBlock(q, f.tb, q.blocks[f.tb].(tail := f.nbt)).(prod := PIdle(Some(true)))
    case PLoadNext =>
      q.(prod := PRun(f.(pc := PCheckFrontBlock, tn := q.blocks[f.tb].next.value)))
    case PCheckFrontBlock =>
      if f.tn != q.frontBlock then q.(prod := PRun(f.(pc := PReloadNext)))
      else if f.canAlloc then q.(prod := PRun(f.(pc := PAlloc)))
      else q.(prod := PIdle(Some(false)))
    case PReloadNext =>
      q.(prod := PRun(f.(pc := PLoadNextFront, tn := q.blocks[f.tb].next.value)))
    case PLoadNextFront =>
      var b := q.blocks[f.tn];
      SetBlock(q, f.tn, b.(localFront := b.front)).(prod := PRun(f.(pc := PLoadNextTail)))
    case PLoadNextTail =>
      q.(prod := PRun(f.(pc := PConstructNext, nt := q.blocks[f.tn].tail)))
    case PConstructNext =>
      var b := q.blocks[f.tn];
      SetBlock(q, f.tn, b.(data := b.data[f.nt := Some(f.element)])).(prod := PRun(f.(pc := PStoreNextTail)))
    case PStoreNextTail =>
      var b := q.blocks[f.tn];
      SetBlock(q, f.tn, b.(tail := NextIndex(f.nt, b.sizeMask))).(prod := PRun(f.(pc := PStoreTailBlock)))
    case PAlloc =>
      if !mallocOk then q.(prod := PIdle(Some(false)))
      else
        var size := NewBlockSize(q);
        q.(blocks := q.blocks + [MakeBlock(size)], largestBlockSize := size,
           prod := PRun(f.(pc := PConstructNew, tn := |q.blocks|)))
    case PConstructNew =>
      var b := q.blocks[f.tn];
      SetBlock(q, f.tn, b.(data := b.data[0 := Some(f.element)])).(prod := PRun(f.(pc := PInitTail)))
    case PInitTail =>
      SetBlock(q, f.tn, q.blocks[f.tn].(tail := 1, localTail := 1)).(prod := PRun(f.(pc := PLoadLink)))
    case PLoadLink =>
      q.(prod := PRun(f.(pc := PInitNext, lk := q.blocks[f.tb].next)))
    case PInitNext =>
      SetBlock(q, f.tn, q.blocks[f.tn].(next := f.lk)).(prod := PRun(f.(pc := PLink)))
    case PLink =>
      SetBlock(q, f.tb, q.blocks[f.tb].(next := Some(f.tn))).(prod := PRun(f.(pc := PStoreTailBlock)))
    case PStoreTailBlock =>
      q.(tailBlock := f.tn, prod := PIdle(Some(true)))
  }

  // ---------- the consumer's steps

  function ConsumerNext<T>(q: Queue<T>): Queue<T>
    requires CReady(q)
  {
    var c := q.cons.c;
    match c.pc
    case CLoadFrontBlock =>
      q.(cons := CRun(c.(pc := CLoadFront, fb := q.frontBlock, bt := q.blocks[q.frontBlock].localTail)))
    case CLoadFront =>
      var bf := q.blocks[c.fb].front;
      q.(cons := CRun(c.(pc := if bf != c.bt then CTake else CLoadTail, bf := bf)))
    case CLoadTail =>
      var b := q.blocks[c.fb];
      var pc := if c.bf != b.tail then CTake else CLoadTailBlock;
      SetBlock(q, c.fb, b.(localTail := b.tail)).(cons := CRun(c.(pc := pc)))
    case CTake =>
      var b := q.blocks[c.fb];
      var x := b.data[c.bf].value;
      if c.kind == Peek then q.(cons := CIdle(Peeked(x)))
      else SetBlock(q, c.fb, b.(data := b.data[c.bf := None]))
           .(cons := CRun(c.(pc := CStoreFront, taken := Some(x))))
    case CStoreFront =>
      var b := q.blocks[c.fb];
      SetBlock(q, c.fb, b.(front := NextIndex(c.bf, b.sizeMask))).(cons := CIdle(Removed(c.taken.value)))
    case CLoadTailBlock =>
      if c.fb != q.tailBlock then q.(cons := CRun(c.(pc := CReloadFrontBlock)))
      else q.(cons := CIdle(Empty))
    case CReloadFrontBlock =>
      q.(cons := CRun(c.(pc := CReloadTail, fb := q.frontBlock)))
    case CReloadTail =>
      var b := q.blocks[c.fb];
      SetBlock(q, c.fb, b.(localTail := b.tail)).(cons := CRun(c.(pc := CReloadFront, bt := b.tail)))
    case CReloadFront =>
      var bf := q.blocks[c.fb].front;
      q.(cons := CRun(c.(pc := if bf != c.bt then CTake else CLoadNext, bf := bf)))
    case CLoadNext =>
      q.(cons := CRun(c.(pc := CLoadNextFront, nb := q.blocks[c.fb].next.value)))
    case CLoadNextFront =>
      q.(cons := CRun(c.(pc := CLoadNextTail, nf := q.blocks[c.nb].front)))
    case CLoadNextTail =>
      var b := q.blocks[c.nb];
      // peek only asserts about the next block's tail and reads its front slot in place
      if c.kind == Peek then q.(cons := CRun(c.(pc := CTake, fb := c.nb, bf := c.nf)))
      else SetBlock(q, c.nb, b.(localTail := b.tail)).(cons := CRun(c.(pc := CStoreFrontBlock)))
    case CStoreFrontBlock =>
      q.(frontBlock := c.nb, cons := CRun(c.(pc := CTake, fb := c.nb, bf := c.nf)))
  }

  // ---------- the asserts written in the source

  /** `nextBlockFront == nextBlockTail` at readerwriterqueue.h:574 and `newBlock->front == 0` at 605. */
  ghost predicate ProducerAsserts<T>(q: Queue<T>)
    requires PReady(q)
  {
    var f := q.prod.f;
    && (f.pc == PLoadNextTail ==> q.blocks[f.tn].localFront == q.blocks[f.tn].tail)
    && (f.pc == PInitTail ==> q.blocks[f.tn].front == 0)
  }

  /** `nextBlockFront != nextBlockTail` at readerwriterqueue.h:337, 402 and 453. */
  ghost predicate ConsumerAsserts<T>(q: Queue<T>)
    requires CReady(q)
  {
    q.cons.c.pc == CLoadNextTail ==> q.cons.c.nf != q.blocks[q.cons.c.nb].tail
  }

  // ---------- whole runs

  /** What a run has done so far. `ring` is the circular list of blocks read from frontBlock, of which
      ring[live] is tailBlock. `peak` and `low` are the most elements held at any instant since the
      producer's current call began, and the fewest since the consumer's. `cap` is the constructor's
      `size` argument and `minMask` the least sizeMask of any block. */
  datatype History<T> = History(ring: seq<nat>, live: nat, enq: seq<T>, deq: seq<T>,
                                peak: int, low: int, cap: nat, minMask: nat)

  datatype State<T> = State(q: Queue<T>, h: History<T>)

  datatype Action<T> =
    | CallEnqueue(element: T, canAlloc: bool)
    | CallConsumer(kind: Kind)
    | ProducerStep(mallocOk: bool)
    | ConsumerStep

  function Held<T>(h: History<T>): int {
    |h.enq| - |h.deq|
  }

  ghost predicate Enabled<T>(q: Queue<T>, a: Action<T>) {
    match a
    case CallEnqueue(_, _) => q.prod.PIdle?
    case CallConsumer(_) => q.cons.CIdle?
    case ProducerStep(_) => PReady(q)
    case ConsumerStep => CReady(q)
  }

  function QueueAfter<T>(q: Queue<T>, a: Action<T>): Queue<T>
    requires Enabled(q, a)
  {
    match a
    case CallEnqueue(v, canAlloc) => q.(prod := PRun(PFrame(PLoadTailBlock, v, canAlloc, 0, 0, 0, 0, 0, None)))
    case CallConsumer(kind) => q.(cons := CRun(CFrame(CLoadFrontBlock, kind, 0, 0, 0, 0, 0, None)))
    case ProducerStep(mallocOk) => ProducerNext(q, mallocOk)
    case ConsumerStep => ConsumerNext(q)
  }

  /** An enqueue takes effect when the new tail (or tailBlock) is published, a dequeue when the new
      front is. */
  function Effects<T>(q: Queue<T>, h: History<T>, a: Action<T>): History<T> {
    match a
    case CallEnqueue(_, _) => h
    case CallConsumer(_) => h
    case ProducerStep(_) =>
      if !q.prod.PRun? then h
      else (
        var f := q.prod.f;
        match f.pc
        case PStoreTail => h.(enq := h.enq + [f.element])
        case PStoreTailBlock => h.(enq := h.enq + [f.element], live := h.live + 1)
        case PLink =>
          if h.live < |h.ring| then h.(ring := h.ring[..h.live + 1] + [f.tn] + h.ring[h.live + 1..]) else h
        case _ => h)
    case ConsumerStep =>
      if !q.cons.CRun? then h
      else (
        var c := q.cons.c;
        match c.pc
        case CStoreFront => if c.taken.Some? then h.(deq := h.deq + [c.taken.value]) else h
        case CStoreFrontBlock =>
          if |h.ring| > 0 && h.live > 0 then h.(ring := h.ring[1..] + [h.ring[0]], live := h.live - 1) else h
        case _ => h)
  }

  /** `peak` and `low` restart with each call and otherwise follow the number of elements held. */
  function Observe<T>(h: History<T>, a: Action<T>): History<T> {
    h.(peak := if a.CallEnqueue? || Held(h) > h.peak then Held(h) else h.peak,
       low := if a.CallConsumer? || Held(h) < h.low then Held(h) else h.low)
  }

  function After<T>(s: State<T>, a: Action<T>): State<T>
    requires Enabled(s.q, a)
  {
    State(QueueAfter(s.q, a), Observe(Effects(s.q, s.h, a), a))
  }
}
