/** Every step of either thread preserves the invariant. */
module SpscPreserve {
  import opened Wrappers
  import opened QueueBlocks
  import opened SpscQueue
  import opened SpscInvariant

  /** A producer step that changes nothing but its own frame. */
  lemma ProducerLocal<T>(s: State<T>, s': State<T>, a: Action<T>)
    requires Inv(s) && s'.q == s.q.(prod := s'.q.prod) && s'.h == Observe(s.h, a) && !a.CallConsumer?
    requires PrePublished(s'.q.prod) == PrePublished(s.q.prod) && Built(s'.q.prod) == Built(s.q.prod)
    requires ProdOk(s.q.blocks, s.q.tailBlock, s.h.ring, s.h.live, s'.h.peak, s'.q.prod)
    ensures Inv(s')
  {
  }

  lemma BeginEnqueue<T>(s: State<T>, v: T, canAlloc: bool)
    requires Inv(s) && s.q.prod.PIdle?
    ensures Inv(After(s, CallEnqueue(v, canAlloc)))
  {
    ProducerLocal(s, After(s, CallEnqueue(v, canAlloc)), CallEnqueue(v, canAlloc));
  }

  lemma ProduceLoadTailBlock<T>(s: State<T>, m: bool)
    requires Inv(s) && PReady(s.q) && s.q.prod.f.pc == PLoadTailBlock
    ensures Inv(After(s, ProducerStep(m)))
  {
    ProducerLocal(s, After(s, ProducerStep(m)), ProducerStep(m));
  }

  lemma ProduceLoadTail<T>(s: State<T>, m: bool)
    requires Inv(s) && PReady(s.q) && s.q.prod.f.pc == PLoadTail
    ensures Inv(After(s, ProducerStep(m)))
  {
    ProducerLocal(s, After(s, ProducerStep(m)), ProducerStep(m));
  }

  lemma ProduceLoadNext<T>(s: State<T>, m: bool)
    requires Inv(s) && PReady(s.q) && s.q.prod.f.pc == PLoadNext
    ensures Inv(After(s, ProducerStep(m)))
  {
    ProducerLocal(s, After(s, ProducerStep(m)), ProducerStep(m));
  }

  lemma ProduceCheckFrontBlock<T>(s: State<T>, m: bool)
    requires Inv(s) && PReady(s.q) && s.q.prod.f.pc == PCheckFrontBlock
    ensures Inv(After(s, ProducerStep(m)))
  {
    ProducerLocal(s, After(s, ProducerStep(m)), ProducerStep(m));
  }

  lemma ProduceReloadNext<T>(s: State<T>, m: bool)
    requires Inv(s) && PReady(s.q) && s.q.prod.f.pc == PReloadNext
    ensures Inv(After(s, ProducerStep(m)))
  {
    ProducerLocal(s, After(s, ProducerStep(m)), ProducerStep(m));
  }

  lemma ProduceLoadNextTail<T>(s: State<T>, m: bool)
    requires Inv(s) && PReady(s.q) && s.q.prod.f.pc == PLoadNextTail
    ensures Inv(After(s, ProducerStep(m)))
  {
    ProducerLocal(s, After(s, ProducerStep(m)), ProducerStep(m));
  }

  lemma ProduceLoadLink<T>(s: State<T>, m: bool)
    requires Inv(s) && PReady(s.q) && s.q.prod.f.pc == PLoadLink
    ensures Inv(After(s, ProducerStep(m)))
  {
    ProducerLocal(s, After(s, ProducerStep(m)), ProducerStep(m));
  }

  // ---------- frames: one block replaced by another

  ghost predicate Replaces<T>(bs: seq<Block<T>>, bs': seq<Block<T>>, x: nat) {
    && x < |bs| && AllOk(bs)
    && |bs'| == |bs| && bs' == bs[x := bs'[x]]
    && BlockOk(bs'[x]) && bs'[x].sizeMask == bs[x].sizeMask
  }

  lemma RingFrame<T>(bs: seq<Block<T>>, bs': seq<Block<T>>, x: nat, front: nat, tail: nat, r: seq<nat>, live: nat)
    requires Replaces(bs, bs', x) && RingOk(bs, front, tail, r, live) && bs'[x].next == bs[x].next
    ensures AllOk(bs') && RingOk(bs', front, tail, r, live)
  {
  }

  lemma FillFrame<T>(bs: seq<Block<T>>, bs': seq<Block<T>>, x: nat, r: seq<nat>, live: nat, pre: bool)
    requires Replaces(bs, bs', x) && Shape(bs, r, live) && FillOk(bs, r, live, pre)
    requires Count(bs'[x]) == Count(bs[x])
    ensures Shape(bs', r, live) && FillOk(bs', r, live, pre)
  {
    forall i | 0 <= i < |r| ensures FillAt(bs'[r[i]], i, live, pre) {
      assert FillAt(bs[r[i]], i, live, pre);
    }
  }

  lemma SlotsFrame<T>(bs: seq<Block<T>>, bs': seq<Block<T>>, x: nat, hole: Option<Slot>, built: Option<Slot>)
    requires Replaces(bs, bs', x) && SlotsOk(bs, hole, built)
    requires bs'[x].front == bs[x].front && bs'[x].tail == bs[x].tail && bs'[x].data == bs[x].data
    ensures AllOk(bs') && SlotsOk(bs', hole, built)
  {
    forall y, j | 0 <= y < |bs'| && 0 <= j <= bs'[y].sizeMask ensures SlotAt(bs'[y], y, j, hole, built) {
      assert SlotAt(bs[y], y, j, hole, built);
    }
  }

  lemma RawFrame<T>(bs: seq<Block<T>>, bs': seq<Block<T>>, x: nat, r: seq<nat>, live: nat)
    requires Replaces(bs, bs', x) && Shape(bs, r, live)
    requires Window(bs'[x]) == Window(bs[x]) || x !in r[..live + 1]
    ensures Shape(bs', r, live) && Raw(bs', r, live) == Raw(bs, r, live)
  {
    FlatFrame(bs, bs', r[..live + 1]);
  }

  lemma RawLast<T>(bs: seq<Block<T>>, r: seq<nat>, live: nat)
    requires Shape(bs, r, live)
    ensures Raw(bs, r, live) == Flat(bs, r[..live]) + Window(bs[r[live]])
  {
    assert r[..live + 1] == r[..live] + [r[live]];
    FlatConcat(bs, r[..live], [r[live]]);
    assert Flat(bs, [r[live]]) == Window(bs[r[live]]);
  }

  lemma RawFirst<T>(bs: seq<Block<T>>, r: seq<nat>, live: nat)
    requires Shape(bs, r, live)
    ensures Raw(bs, r, live) == Window(bs[r[0]]) + Flat(bs, r[1..live + 1])
  {
    assert r[..live + 1][1..] == r[1..live + 1];
  }

  /** The number of elements held is the number of live slots. */
  lemma HeldIsLive<T>(s: State<T>)
    requires Inv(s)
    ensures Held(s.h) == |Raw(s.q.blocks, s.h.ring, s.h.live)|
  {
  }

  /** A step that only refreshes the shadow index of one block, and its own frame. */
  lemma Shadow<T>(s: State<T>, s': State<T>, a: Action<T>, x: nat)
    requires Inv(s) && s'.h == Observe(s.h, a)
    requires s'.q == s.q.(blocks := s'.q.blocks, prod := s'.q.prod, cons := s'.q.cons)
    requires Replaces(s.q.blocks, s'.q.blocks, x)
    requires s'.q.blocks[x] ==
             s.q.blocks[x].(localFront := s'.q.blocks[x].localFront, localTail := s'.q.blocks[x].localTail)
    requires PrePublished(s'.q.prod) == PrePublished(s.q.prod) && Built(s'.q.prod) == Built(s.q.prod)
    requires Hole(s'.q.cons) == Hole(s.q.cons) && InHand(s'.q.cons) == InHand(s.q.cons)
    requires s'.h.low <= Held(s.h) <= s'.h.peak
    requires Shape(s'.q.blocks, s.h.ring, s.h.live) ==>
      && ProdOk(s'.q.blocks, s.q.tailBlock, s.h.ring, s.h.live, s'.h.peak, s'.q.prod)
      && ConsOk(s'.q.blocks, s.q.frontBlock, s.h.ring, s.h.live, s'.h.low, s'.q.cons)
    ensures Inv(s')
  {
    var q, h, bs, bs' := s.q, s.h, s.q.blocks, s'.q.blocks;
    RingFrame(bs, bs', x, q.frontBlock, q.tailBlock, h.ring, h.live);
    FillFrame(bs, bs', x, h.ring, h.live, PrePublished(q.prod));
    SlotsFrame(bs, bs', x, Hole(q.cons), Built(q.prod));
    assert Window(bs'[x]) == Window(bs[x]);
    RawFrame(bs, bs', x, h.ring, h.live);
  }

  lemma ProduceLoadFront<T>(s: State<T>, m: bool)
    requires Inv(s) && PReady(s.q) && s.q.prod.f.pc == PLoadFront
    ensures Inv(After(s, ProducerStep(m)))
  {
    RawLast(s.q.blocks, s.h.ring, s.h.live);
    HeldIsLive(s);
    Shadow(s, After(s, ProducerStep(m)), ProducerStep(m), s.q.tailBlock);
  }

  lemma ProduceLoadNextFront<T>(s: State<T>, m: bool)
    requires Inv(s) && PReady(s.q) && s.q.prod.f.pc == PLoadNextFront
    ensures Inv(After(s, ProducerStep(m)))
  {
    Shadow(s, After(s, ProducerStep(m)), ProducerStep(m), s.q.prod.f.tn);
  }

  // ---------- constructing an element

  lemma SlotsConstruct<T>(bs: seq<Block<T>>, bs': seq<Block<T>>, x: nat, j: nat, v: T, hole: Option<Slot>)
    requires Replaces(bs, bs', x) && SlotsOk(bs, hole, None)
    requires j <= bs[x].sizeMask && !InWindow(bs[x], j)
    requires bs'[x] == bs[x].(data := bs[x].data[j := Some(v)])
    ensures AllOk(bs') && SlotsOk(bs', hole, Some(Slot(x, j)))
  {
    forall y, k | 0 <= y < |bs'| && 0 <= k <= bs'[y].sizeMask ensures SlotAt(bs'[y], y, k, hole, Some(Slot(x, j))) {
      assert SlotAt(bs[y], y, k, hole, None);
    }
  }

  /** A step that constructs the element in a raw slot. */
  lemma Construct<T>(s: State<T>, s': State<T>, a: Action<T>, x: nat, j: nat)
    requires Inv(s) && s'.h == Observe(s.h, a) && s.q.prod.PRun? && !a.CallConsumer?
    requires s'.q == s.q.(blocks := s'.q.blocks, prod := s'.q.prod)
    requires Replaces(s.q.blocks, s'.q.blocks, x)
    requires j <= s.q.blocks[x].sizeMask && !InWindow(s.q.blocks[x], j)
    requires s'.q.blocks[x] == s.q.blocks[x].(data := s.q.blocks[x].data[j := Some(s.q.prod.f.element)])
    requires PrePublished(s'.q.prod) == PrePublished(s.q.prod)
    requires Built(s.q.prod) == None && Built(s'.q.prod) == Some(Slot(x, j))
    requires Shape(s'.q.blocks, s.h.ring, s.h.live) ==>
      ProdOk(s'.q.blocks, s.q.tailBlock, s.h.ring, s.h.live, s'.h.peak, s'.q.prod)
    ensures Inv(s')
  {
    var q, h, bs, bs' := s.q, s.h, s.q.blocks, s'.q.blocks;
    RingFrame(bs, bs', x, q.frontBlock, q.tailBlock, h.ring, h.live);
    FillFrame(bs, bs', x, h.ring, h.live, PrePublished(q.prod));
    SlotsConstruct(bs, bs', x, j, q.prod.f.element, Hole(q.cons));
    WindowWriteOutside(bs[x], bs'[x], j, Some(q.prod.f.element));
    RawFrame(bs, bs', x, h.ring, h.live);
  }

  lemma ProduceConstruct<T>(s: State<T>, m: bool)
    requires Inv(s) && PReady(s.q) && s.q.prod.f.pc == PConstruct
    ensures Inv(After(s, ProducerStep(m)))
  {
    var s' := After(s, ProducerStep(m));
    Construct(s, s', ProducerStep(m), s.q.tailBlock, s.q.prod.f.bt);
  }

  lemma ProduceConstructNext<T>(s: State<T>, m: bool)
    requires Inv(s) && PReady(s.q) && s.q.prod.f.pc == PConstructNext
    ensures Inv(After(s, ProducerStep(m)))
  {
    var s' := After(s, ProducerStep(m));
    Construct(s, s', ProducerStep(m), s.q.prod.f.tn, s.q.prod.f.nt);
  }

  lemma ProduceConstructNew<T>(s: State<T>, m: bool)
    requires Inv(s) && PReady(s.q) && s.q.prod.f.pc == PConstructNew
    ensures Inv(After(s, ProducerStep(m)))
  {
    var s' := After(s, ProducerStep(m));
    Construct(s, s', ProducerStep(m), s.q.prod.f.tn, 0);
  }

  // ---------- publishing an element

  lemma SlotsPublish<T>(bs: seq<Block<T>>, bs': seq<Block<T>>, x: nat, hole: Option<Slot>)
    requires AllOk(bs) && x < |bs| && SlotsOk(bs, hole, Some(Slot(x, bs[x].tail)))
    requires Replaces(bs, bs', x) && NextIndex(bs[x].tail, bs[x].sizeMask) != bs[x].front
    requires hole != Some(Slot(x, bs[x].tail))
    requires bs'[x] == bs[x].(tail := NextIndex(bs[x].tail, bs[x].sizeMask), localTail := bs'[x].localTail)
    ensures AllOk(bs') && SlotsOk(bs', hole, None)
  {
    forall y, k | 0 <= y < |bs'| && 0 <= k <= bs'[y].sizeMask ensures SlotAt(bs'[y], y, k, hole, None) {
      assert SlotAt(bs[y], y, k, hole, Some(Slot(x, bs[x].tail)));
    }
  }

  lemma SomesPush<T>(raw: seq<Option<T>>, inHand: Option<T>, enq: seq<T>, deq: seq<T>, v: T)
    requires ContentsOk(raw, inHand, enq, deq) && (inHand.Some? ==> |raw| > 0)
    ensures ContentsOk(raw + [Some(v)], inHand, enq + [v], deq)
  {
    assert Somes((enq + [v])[|deq|..]) == Somes(enq[|deq|..]) + [Some(v)];
    assert Logical(raw + [Some(v)], inHand) == Logical(raw, inHand) + [Some(v)];
  }

  /** Publishing the element in tailBlock appends it to the live slots. */
  lemma PublishAtTail<T>(bs: seq<Block<T>>, bs': seq<Block<T>>, front: nat, tail: nat, r: seq<nat>, live: nat)
    requires AllOk(bs) && RingOk(bs, front, tail, r, live) && Replaces(bs, bs', tail)
    requires FillOk(bs, r, live, false)
    requires NextIndex(bs[tail].tail, bs[tail].sizeMask) != bs[tail].front
    requires bs'[tail] == bs[tail].(tail := NextIndex(bs[tail].tail, bs[tail].sizeMask))
    ensures Shape(bs', r, live) && FillOk(bs', r, live, false)
    ensures Raw(bs', r, live) == Raw(bs, r, live) + [bs[tail].data[bs[tail].tail]]
  {
    WindowPush(bs[tail], bs'[tail]);
    FillAtTail(bs, bs', r, live);
    RawLast(bs, r, live);
    RawLast(bs', r, live);
    FlatFrame(bs, bs', r[..live]);
  }

  lemma FillAtTail<T>(bs: seq<Block<T>>, bs': seq<Block<T>>, r: seq<nat>, live: nat)
    requires Shape(bs, r, live) && Replaces(bs, bs', r[live]) && FillOk(bs, r, live, false)
    requires forall i, j :: 0 <= i < j < |r| ==> r[i] != r[j]
    requires Count(bs'[r[live]]) == Count(bs[r[live]]) + 1
    ensures Shape(bs', r, live) && FillOk(bs', r, live, false)
  {
    forall i | 0 <= i < |r| ensures FillAt(bs'[r[i]], i, live, false) {
      assert FillAt(bs[r[i]], i, live, false);
    }
  }

  /** The consumer's view survives a push onto tailBlock. */
  lemma ConsAfterPush<T>(bs: seq<Block<T>>, bs': seq<Block<T>>, front: nat, tail: nat, r: seq<nat>, live: nat,
                         low: int, low': int, c: Consumer<T>)
    requires AllOk(bs) && RingOk(bs, front, tail, r, live) && Replaces(bs, bs', tail) && low' <= low
    requires FillOk(bs, r, live, false)
    requires ConsOk(bs, front, r, live, low, c)
    requires NextIndex(bs[tail].tail, bs[tail].sizeMask) != bs[tail].front
    requires bs'[tail] == bs[tail].(tail := NextIndex(bs[tail].tail, bs[tail].sizeMask))
    ensures Shape(bs', r, live) && ConsOk(bs', front, r, live, low', c)
  {
    if live > 0 { assert FillAt(bs[r[1]], 1, live, false); }
  }

  /** A step that publishes the element built at the tail of tailBlock. */
  lemma Append<T>(s: State<T>, s': State<T>, f: PFrame<T>, peak: int)
    requires Inv(s) && s.q.prod == PRun(f) && f.pc == PStoreTail
    requires Replaces(s.q.blocks, s'.q.blocks, s.q.tailBlock)
    requires s'.q.blocks[s.q.tailBlock] == s.q.blocks[s.q.tailBlock].(tail := f.nbt)
    requires s'.q == s.q.(blocks := s'.q.blocks, prod := s'.q.prod) && s'.q.prod.PIdle?
    requires s'.h == s.h.(enq := s.h.enq + [f.element], peak := peak) && Held(s'.h) <= peak
    ensures Inv(s')
  {
    var q, h, bs, bs', x := s.q, s.h, s.q.blocks, s'.q.blocks, s.q.tailBlock;
    RingFrame(bs, bs', x, q.frontBlock, q.tailBlock, h.ring, h.live);
    PublishAtTail(bs, bs', q.frontBlock, x, h.ring, h.live);
    SlotsPublish(bs, bs', x, Hole(q.cons));
    SomesPush(Raw(bs, h.ring, h.live), InHand(q.cons), h.enq, h.deq, f.element);
    ConsAfterPush(bs, bs', q.frontBlock, x, h.ring, h.live, h.low, h.low, q.cons);
  }

  lemma ProduceStoreTail<T>(s: State<T>, m: bool)
    requires Inv(s) && PReady(s.q) && s.q.prod.f.pc == PStoreTail
    ensures Inv(After(s, ProducerStep(m)))
  {
    var s' := After(s, ProducerStep(m));
    Append(s, s', s.q.prod.f, s'.h.peak);
  }

  /** The consumer's view depends only on its own two blocks. */
  lemma ConsFrame<T>(bs: seq<Block<T>>, bs': seq<Block<T>>, front: nat, tail: nat, r: seq<nat>, r': seq<nat>,
                     live: nat, low: int, c: Consumer<T>)
    requires AllOk(bs) && RingOk(bs, front, tail, r, live) && ConsOk(bs, front, r, live, low, c)
    requires Shape(bs', r', live) && r'[..live + 1] == r[..live + 1]
    requires |bs| <= |bs'| && forall i :: 0 <= i <= live ==> bs'[r[i]].(next := None) == bs[r[i]].(next := None)
    ensures ConsOk(bs', front, r', live, low, c)
  {
    assert r'[0] == r'[..live + 1][0] == r[0];
    if live > 0 { assert r'[1] == r'[..live + 1][1] == r[..live + 1][1]; }
  }

  /** Nothing the consumer can see depends on a block outside the live part of the ring. */
  lemma OutsideFrame<T>(bs: seq<Block<T>>, bs': seq<Block<T>>, x: nat, front: nat, tail: nat, r: seq<nat>,
                        live: nat, low: int, c: Consumer<T>)
    requires AllOk(bs) && RingOk(bs, front, tail, r, live) && Replaces(bs, bs', x) && x !in r[..live + 1]
    requires bs'[x].next == bs[x].next || x !in r
    requires ConsOk(bs, front, r, live, low, c)
    ensures AllOk(bs') && RingOk(bs', front, tail, r, live) && ConsOk(bs', front, r, live, low, c)
    ensures Raw(bs', r, live) == Raw(bs, r, live)
  {
    ConsFrame(bs, bs', front, tail, r, r, live, low, c);
    RawFrame(bs, bs', x, r, live);
  }

  /** A step that publishes the element in the free block ahead, where the consumer cannot see it yet. */
  ghost predicate AppendsAhead<T>(s: State<T>, s': State<T>, f: PFrame<T>) {
    && Inv(s) && s.q.prod == PRun(f) && f.pc == PStoreNextTail
    && Replaces(s.q.blocks, s'.q.blocks, f.tn)
    && s'.q.blocks[f.tn] == s.q.blocks[f.tn].(tail := NextIndex(f.nt, s.q.blocks[f.tn].sizeMask))
    && s'.q == s.q.(blocks := s'.q.blocks, prod := PRun(f.(pc := PStoreTailBlock)))
    && s'.h == s.h
  }

  lemma AppendAheadContents<T>(s: State<T>, s': State<T>, f: PFrame<T>)
    requires AppendsAhead(s, s', f)
    ensures AllOk(s'.q.blocks) && RingOk(s'.q.blocks, s.q.frontBlock, s.q.tailBlock, s.h.ring, s.h.live)
    ensures FillOk(s'.q.blocks, s.h.ring, s.h.live, true)
    ensures ContentsOk(Raw(s'.q.blocks, s.h.ring, s.h.live), InHand(s.q.cons), s.h.enq, s.h.deq)
    ensures ConsOk(s'.q.blocks, s.q.frontBlock, s.h.ring, s.h.live, s.h.low, s.q.cons)
  {
    assert FillAt(s.q.blocks[f.tn], s.h.live + 1, s.h.live, false);
    FillAhead(s.q.blocks, s'.q.blocks, f.tn, s.h.ring, s.h.live);
    OutsideFrame(s.q.blocks, s'.q.blocks, f.tn, s.q.frontBlock, s.q.tailBlock, s.h.ring, s.h.live, s.h.low, s.q.cons);
  }

  lemma AppendAheadSlots<T>(s: State<T>, s': State<T>, f: PFrame<T>)
    requires AppendsAhead(s, s', f)
    ensures AllOk(s'.q.blocks) && SlotsOk(s'.q.blocks, Hole(s.q.cons), None)
    ensures Shape(s'.q.blocks, s.h.ring, s.h.live)
    ensures ProdOk(s'.q.blocks, s.q.tailBlock, s.h.ring, s.h.live, s.h.peak, s'.q.prod)
  {
    assert FillAt(s.q.blocks[f.tn], s.h.live + 1, s.h.live, false);
    WindowPush(s.q.blocks[f.tn], s'.q.blocks[f.tn]);
    SlotsPublish(s.q.blocks, s'.q.blocks, f.tn, Hole(s.q.cons));
  }

  lemma AppendAhead<T>(s: State<T>, s': State<T>, f: PFrame<T>)
    requires AppendsAhead(s, s', f)
    ensures Inv(s')
  {
    AppendAheadContents(s, s', f);
    AppendAheadSlots(s, s', f);
  }

  lemma FillAhead<T>(bs: seq<Block<T>>, bs': seq<Block<T>>, x: nat, r: seq<nat>, live: nat)
    requires Replaces(bs, bs', x) && Shape(bs, r, live) && FillOk(bs, r, live, false)
    requires live + 1 < |r| && x == r[live + 1] && Count(bs'[x]) == 1
    requires forall i, j :: 0 <= i < j < |r| ==> r[i] != r[j]
    ensures Shape(bs', r, live) && FillOk(bs', r, live, true)
  {
    forall i | 0 <= i < |r| ensures FillAt(bs'[r[i]], i, live, true) {
      assert FillAt(bs[r[i]], i, live, false);
    }
  }

  lemma ProduceStoreNextTail<T>(s: State<T>, m: bool)
    requires Inv(s) && PReady(s.q) && s.q.prod.f.pc == PStoreNextTail
    ensures Inv(After(s, ProducerStep(m)))
  {
    AppendAhead(s, After(s, ProducerStep(m)), s.q.prod.f);
  }

  lemma ProduceInitTail<T>(s: State<T>, m: bool)
    requires Inv(s) && PReady(s.q) && s.q.prod.f.pc == PInitTail
    ensures Inv(After(s, ProducerStep(m)))
  {
    var s' := After(s, ProducerStep(m));
    var q, h, bs, bs', x := s.q, s.h, s.q.blocks, s'.q.blocks, s.q.prod.f.tn;
    forall i | 0 <= i < |h.ring| ensures FillAt(bs'[h.ring[i]], i, h.live, false) {
      assert FillAt(bs[h.ring[i]], i, h.live, false);
    }
    SlotsPublish(bs, bs', x, Hole(q.cons));
    OutsideFrame(bs, bs', x, q.frontBlock, q.tailBlock, h.ring, h.live, h.low, q.cons);
  }

  lemma ProduceInitNext<T>(s: State<T>, m: bool)
    requires Inv(s) && PReady(s.q) && s.q.prod.f.pc == PInitNext
    ensures Inv(After(s, ProducerStep(m)))
  {
    var s' := After(s, ProducerStep(m));
    var q, h, bs, bs', x := s.q, s.h, s.q.blocks, s'.q.blocks, s.q.prod.f.tn;
    forall i | 0 <= i < |h.ring| ensures FillAt(bs'[h.ring[i]], i, h.live, false) {
      assert FillAt(bs[h.ring[i]], i, h.live, false);
    }
    SlotsFrame(bs, bs', x, Hole(q.cons), Built(q.prod));
    OutsideFrame(bs, bs', x, q.frontBlock, q.tailBlock, h.ring, h.live, h.low, q.cons);
  }

  // ---------- a new block

  lemma AllocFrame<T>(bs: seq<Block<T>>, b: Block<T>, r: seq<nat>, live: nat, hole: Option<Slot>)
    requires AllOk(bs) && Shape(bs, r, live) && SlotsOk(bs, hole, None) && FillOk(bs, r, live, false)
    requires BlockOk(b) && b.front == b.tail == 0 && forall j :: 0 <= j < |b.data| ==> b.data[j] == None
    requires hole.Some? ==> hole.value.block < |bs|
    ensures Shape(bs + [b], r, live) && SlotsOk(bs + [b], hole, None) && FillOk(bs + [b], r, live, false)
    ensures Raw(bs + [b], r, live) == Raw(bs, r, live)
  {
    var bs' := bs + [b];
    forall y, k | 0 <= y < |bs'| && 0 <= k <= bs'[y].sizeMask ensures SlotAt(bs'[y], y, k, hole, None) {
      if y < |bs| { assert SlotAt(bs[y], y, k, hole, None); }
    }
    forall i | 0 <= i < |r| ensures FillAt(bs'[r[i]], i, live, false) {
      assert FillAt(bs[r[i]], i, live, false);
    }
    FlatFrame(bs, bs', r[..live + 1]);
  }

  lemma AllocPrivate<T>(s: State<T>, s': State<T>, f: PFrame<T>, b: Block<T>)
    requires Inv(s) && s.q.prod == PRun(f) && f.pc == PAlloc
    requires BlockOk(b) && b.front == b.tail == b.localFront == b.localTail == 0
    requires b.sizeMask >= s.h.minMask && forall j :: 0 <= j < |b.data| ==> b.data[j] == None
    requires s'.q == s.q.(blocks := s.q.blocks + [b], largestBlockSize := b.sizeMask + 1,
                          prod := PRun(f.(pc := PConstructNew, tn := |s.q.blocks|)))
    requires s'.h == s.h
    ensures Inv(s')
  {
    var q, h := s.q, s.h;
    AllocFrame(q.blocks, b, h.ring, h.live, Hole(q.cons));
    ConsFrame(q.blocks, s'.q.blocks, q.frontBlock, q.tailBlock, h.ring, h.ring, h.live, h.low, q.cons);
  }

  lemma ProduceAlloc<T>(s: State<T>, m: bool)
    requires Inv(s) && PReady(s.q) && s.q.prod.f.pc == PAlloc
    ensures Inv(After(s, ProducerStep(m)))
  {
    var s' := After(s, ProducerStep(m));
    if m {
      AllocPrivate(s, s', s.q.prod.f, MakeBlock(NewBlockSize(s.q)));
    } else {
      ProducerLocal(s, s', ProducerStep(m));
    }
  }

  function Insert(r: seq<nat>, live: nat, x: nat): seq<nat>
    requires live < |r|
  {
    r[..live + 1] + [x] + r[live + 1..]
  }

  lemma InsertAt(r: seq<nat>, live: nat, x: nat, i: nat)
    requires live < |r| && i <= |r|
    ensures |Insert(r, live, x)| == |r| + 1
    ensures Insert(r, live, x)[i] == if i <= live then r[i] else if i == live + 1 then x else r[i - 1]
  {
  }

  lemma InsertDistinct(r: seq<nat>, live: nat, x: nat)
    requires live < |r| && x !in r && forall i, j :: 0 <= i < j < |r| ==> r[i] != r[j]
    ensures forall i, j :: 0 <= i < j < |r| + 1 ==> Insert(r, live, x)[i] != Insert(r, live, x)[j]
  {
    forall i, j | 0 <= i < j < |r| + 1 ensures Insert(r, live, x)[i] != Insert(r, live, x)[j] {
      InsertAt(r, live, x, i);
      InsertAt(r, live, x, j);
    }
  }

  lemma RingInsert<T>(bs: seq<Block<T>>, bs': seq<Block<T>>, front: nat, tail: nat, r: seq<nat>, live: nat, x: nat)
    requires AllOk(bs) && RingOk(bs, front, tail, r, live) && Replaces(bs, bs', tail)
    requires x < |bs| && x !in r && bs[x].next == bs[tail].next
    requires bs'[tail] == bs[tail].(next := Some(x))
    ensures AllOk(bs') && RingOk(bs', front, tail, Insert(r, live, x), live)
  {
    var r' := Insert(r, live, x);
    InsertDistinct(r, live, x);
    forall i | 0 <= i < |r'| ensures r'[i] < |bs'| && bs'[r'[i]].next == Some(r'[Wrap(i + 1, |r'|)]) {
      InsertAt(r, live, x, i);
      InsertAt(r, live, x, Wrap(i + 1, |r'|));
      if i != live + 1 {
        var k := if i <= live then i else i - 1;
        assert bs[r[k]].next == Some(r[Wrap(k + 1, |r|)]);
      }
    }
  }

  lemma LinkFrame<T>(bs: seq<Block<T>>, bs': seq<Block<T>>, front: nat, tail: nat, r: seq<nat>, live: nat, x: nat)
    requires AllOk(bs) && RingOk(bs, front, tail, r, live) && Replaces(bs, bs', tail)
    requires FillOk(bs, r, live, false) && x < |bs| && Count(bs[x]) == 1 && x !in r
    requires bs'[tail] == bs[tail].(next := Some(x))
    ensures Shape(bs', Insert(r, live, x), live) && FillOk(bs', Insert(r, live, x), live, true)
    ensures Raw(bs', Insert(r, live, x), live) == Raw(bs, r, live)
  {
    var r' := Insert(r, live, x);
    forall i | 0 <= i < |r'| ensures FillAt(bs'[r'[i]], i, live, true) {
      if i != live + 1 {
        var j := if i <= live then i else i - 1;
        assert FillAt(bs[r[j]], j, live, false);
      }
    }
    assert Window(bs'[tail]) == Window(bs[tail]);
    RawFrame(bs, bs', tail, r, live);
    assert r'[..live + 1] == r[..live + 1];
  }

  lemma LinkViews<T>(bs: seq<Block<T>>, bs': seq<Block<T>>, front: nat, tail: nat, r: seq<nat>, live: nat,
                     peak: int, f: PFrame<T>, low: int, c: Consumer<T>)
    requires AllOk(bs) && RingOk(bs, front, tail, r, live) && Replaces(bs, bs', tail)
    requires f.pc == PLink && ProdOk(bs, tail, r, live, peak, PRun(f)) && ConsOk(bs, front, r, live, low, c)
    requires bs'[tail] == bs[tail].(next := Some(f.tn)) && FillOk(bs, r, live, false)
    ensures AllOk(bs') && RingOk(bs', front, tail, Insert(r, live, f.tn), live)
    ensures FillOk(bs', Insert(r, live, f.tn), live, true)
    ensures Raw(bs', Insert(r, live, f.tn), live) == Raw(bs, r, live)
    ensures ProdOk(bs', tail, Insert(r, live, f.tn), live, peak, PRun(f.(pc := PStoreTailBlock)))
    ensures ConsOk(bs', front, Insert(r, live, f.tn), live, low, c)
  {
    RingInsert(bs, bs', front, tail, r, live, f.tn);
    LinkFrame(bs, bs', front, tail, r, live, f.tn);
    ConsFrame(bs, bs', front, tail, r, Insert(r, live, f.tn), live, low, c);
  }

  lemma LinkCap<T>(bs: seq<Block<T>>, bs': seq<Block<T>>, x: nat, largest: nat, count: nat, minMask: nat, cap: nat)
    requires Replaces(bs, bs', x) && CapOk(bs, largest, count, minMask, cap)
    ensures CapOk(bs', largest, count + 1, minMask, cap)
  {
    if count > 1 { assert count * minMask == (count - 1) * minMask + minMask; }
  }

  /** A step that links the block `f.tn` into the ring after tailBlock. */
  ghost predicate Links<T>(s: State<T>, s': State<T>, f: PFrame<T>) {
    && Inv(s) && s.q.prod == PRun(f) && f.pc == PLink
    && Replaces(s.q.blocks, s'.q.blocks, s.q.tailBlock)
    && s'.q.blocks[s.q.tailBlock] == s.q.blocks[s.q.tailBlock].(next := Some(f.tn))
    && s'.q == s.q.(blocks := s'.q.blocks, prod := PRun(f.(pc := PStoreTailBlock)))
    && s'.h == s.h.(ring := Insert(s.h.ring, s.h.live, f.tn))
  }

  lemma LinkContents<T>(s: State<T>, s': State<T>, f: PFrame<T>)
    requires Links(s, s', f)
    ensures AllOk(s'.q.blocks) && RingOk(s'.q.blocks, s.q.frontBlock, s.q.tailBlock, s'.h.ring, s.h.live)
    ensures FillOk(s'.q.blocks, s'.h.ring, s.h.live, true)
    ensures ContentsOk(Raw(s'.q.blocks, s'.h.ring, s.h.live), InHand(s.q.cons), s.h.enq, s.h.deq)
    ensures ProdOk(s'.q.blocks, s.q.tailBlock, s'.h.ring, s.h.live, s.h.peak, s'.q.prod)
    ensures ConsOk(s'.q.blocks, s.q.frontBlock, s'.h.ring, s.h.live, s.h.low, s.q.cons)
  {
    LinkViews(s.q.blocks, s'.q.blocks, s.q.frontBlock, s.q.tailBlock, s.h.ring, s.h.live, s.h.peak, f, s.h.low,
              s.q.cons);
  }

  lemma LinkSlots<T>(s: State<T>, s': State<T>, f: PFrame<T>)
    requires Links(s, s', f)
    ensures AllOk(s'.q.blocks) && SlotsOk(s'.q.blocks, Hole(s.q.cons), None)
    ensures CapOk(s'.q.blocks, s.q.largestBlockSize, |s'.h.ring|, s.h.minMask, s.h.cap)
  {
    SlotsFrame(s.q.blocks, s'.q.blocks, s.q.tailBlock, Hole(s.q.cons), None);
    LinkCap(s.q.blocks, s'.q.blocks, s.q.tailBlock, s.q.largestBlockSize, |s.h.ring|, s.h.minMask, s.h.cap);
    assert |s'.h.ring| == |s.h.ring| + 1;
  }

  lemma Link<T>(s: State<T>, s': State<T>, f: PFrame<T>)
    requires Links(s, s', f)
    ensures Inv(s')
  {
    LinkContents(s, s', f);
    LinkSlots(s, s', f);
  }

  lemma ProduceLink<T>(s: State<T>, m: bool)
    requires Inv(s) && PReady(s.q) && s.q.prod.f.pc == PLink
    ensures Inv(After(s, ProducerStep(m)))
  {
    Link(s, After(s, ProducerStep(m)), s.q.prod.f);
  }

  // ---------- advancing tailBlock

  lemma ProduceStoreTailBlock<T>(s: State<T>, m: bool)
    requires Inv(s) && PReady(s.q) && s.q.prod.f.pc == PStoreTailBlock
    ensures Inv(After(s, ProducerStep(m)))
  {
    var s' := After(s, ProducerStep(m));
    var q, h, bs := s.q, s.h, s.q.blocks;
    forall i | 0 <= i < |h.ring| ensures FillAt(bs[h.ring[i]], i, h.live + 1, false) {
      assert FillAt(bs[h.ring[i]], i, h.live, true);
    }
    RawLast(bs, h.ring, h.live + 1);
    SomesPush(Raw(bs, h.ring, h.live), InHand(q.cons), h.enq, h.deq, q.prod.f.element);
  }

  // ---------- the consumer

  /** A consumer step that changes nothing but its own frame. */
  lemma ConsumerLocal<T>(s: State<T>, s': State<T>, a: Action<T>)
    requires Inv(s) && s'.q == s.q.(cons := s'.q.cons) && s'.h == Observe(s.h, a) && !a.CallEnqueue?
    requires Hole(s'.q.cons) == Hole(s.q.cons) && InHand(s'.q.cons) == InHand(s.q.cons)
    requires ConsOk(s.q.blocks, s.q.frontBlock, s.h.ring, s.h.live, s'.h.low, s'.q.cons)
    ensures Inv(s')
  {
  }

  lemma BeginConsumer<T>(s: State<T>, kind: Kind)
    requires Inv(s) && s.q.cons.CIdle?
    ensures Inv(After(s, CallConsumer(kind)))
  {
    ConsumerLocal(s, After(s, CallConsumer(kind)), CallConsumer(kind));
  }

  lemma ConsumeLoadFrontBlock<T>(s: State<T>)
    requires Inv(s) && CReady(s.q) && s.q.cons.c.pc == CLoadFrontBlock
    ensures Inv(After(s, ConsumerStep))
  {
    ConsumerLocal(s, After(s, ConsumerStep), ConsumerStep);
  }

  lemma ConsumeLoadFront<T>(s: State<T>)
    requires Inv(s) && CReady(s.q) && s.q.cons.c.pc == CLoadFront
    ensures Inv(After(s, ConsumerStep))
  {
    ConsumerLocal(s, After(s, ConsumerStep), ConsumerStep);
  }

  lemma ConsumeLoadTailBlock<T>(s: State<T>)
    requires Inv(s) && CReady(s.q) && s.q.cons.c.pc == CLoadTailBlock
    ensures Inv(After(s, ConsumerStep))
  {
    ConsumerLocal(s, After(s, ConsumerStep), ConsumerStep);
  }

  lemma ConsumeReloadFrontBlock<T>(s: State<T>)
    requires Inv(s) && CReady(s.q) && s.q.cons.c.pc == CReloadFrontBlock
    ensures Inv(After(s, ConsumerStep))
  {
    ConsumerLocal(s, After(s, ConsumerStep), ConsumerStep);
  }

  lemma ConsumeReloadFront<T>(s: State<T>)
    requires Inv(s) && CReady(s.q) && s.q.cons.c.pc == CReloadFront
    ensures Inv(After(s, ConsumerStep))
  {
    ConsumerLocal(s, After(s, ConsumerStep), ConsumerStep);
  }

  lemma ConsumeLoadNext<T>(s: State<T>)
    requires Inv(s) && CReady(s.q) && s.q.cons.c.pc == CLoadNext
    ensures Inv(After(s, ConsumerStep))
  {
    ConsumerLocal(s, After(s, ConsumerStep), ConsumerStep);
  }

  lemma ConsumeLoadNextFront<T>(s: State<T>)
    requires Inv(s) && CReady(s.q) && s.q.cons.c.pc == CLoadNextFront
    ensures Inv(After(s, ConsumerStep))
  {
    ConsumerLocal(s, After(s, ConsumerStep), ConsumerStep);
  }

  lemma ConsumePeek<T>(s: State<T>)
    requires Inv(s) && CReady(s.q) && s.q.cons.c.pc == CTake && s.q.cons.c.kind == Peek
    ensures Inv(After(s, ConsumerStep))
  {
    ConsumerLocal(s, After(s, ConsumerStep), ConsumerStep);
  }

  lemma ConsumeLoadTail<T>(s: State<T>)
    requires Inv(s) && CReady(s.q) && s.q.cons.c.pc == CLoadTail
    ensures Inv(After(s, ConsumerStep))
  {
    RawFirst(s.q.blocks, s.h.ring, s.h.live);
    HeldIsLive(s);
    Shadow(s, After(s, ConsumerStep), ConsumerStep, s.q.frontBlock);
  }

  lemma ConsumeReloadTail<T>(s: State<T>)
    requires Inv(s) && CReady(s.q) && s.q.cons.c.pc == CReloadTail
    ensures Inv(After(s, ConsumerStep))
  {
    Shadow(s, After(s, ConsumerStep), ConsumerStep, s.q.frontBlock);
  }

  lemma ConsumeLoadNextTail<T>(s: State<T>)
    requires Inv(s) && CReady(s.q) && s.q.cons.c.pc == CLoadNextTail
    ensures Inv(After(s, ConsumerStep))
  {
    assert FillAt(s.q.blocks[s.h.ring[1]], 1, s.h.live, PrePublished(s.q.prod));
    if s.q.cons.c.kind == Peek {
      ConsumerLocal(s, After(s, ConsumerStep), ConsumerStep);
    } else {
      Shadow(s, After(s, ConsumerStep), ConsumerStep, s.q.cons.c.nb);
    }
  }

  lemma SlotsTake<T>(bs: seq<Block<T>>, bs': seq<Block<T>>, x: nat, built: Option<Slot>)
    requires Replaces(bs, bs', x) && SlotsOk(bs, None, built)
    requires bs[x].front != bs[x].tail && built != Some(Slot(x, bs[x].front))
    requires bs'[x] == bs[x].(data := bs[x].data[bs[x].front := None])
    ensures AllOk(bs') && SlotsOk(bs', Some(Slot(x, bs[x].front)), built)
  {
    forall y, k | 0 <= y < |bs'| && 0 <= k <= bs'[y].sizeMask
      ensures SlotAt(bs'[y], y, k, Some(Slot(x, bs[x].front)), built)
    {
      assert SlotAt(bs[y], y, k, None, built);
    }
  }

  /** Emptying the front slot leaves a hole at the head of the live slots. */
  lemma RawTake<T>(bs: seq<Block<T>>, bs': seq<Block<T>>, front: nat, tail: nat, r: seq<nat>, live: nat)
    requires AllOk(bs) && RingOk(bs, front, tail, r, live) && Replaces(bs, bs', front)
    requires bs[front].front != bs[front].tail
    requires bs'[front] == bs[front].(data := bs[front].data[bs[front].front := None])
    ensures Shape(bs', r, live) && |Raw(bs, r, live)| > 0
    ensures Raw(bs, r, live)[0] == bs[front].data[bs[front].front]
    ensures Raw(bs', r, live) == [None] + Raw(bs, r, live)[1..]
  {
    RawFirst(bs, r, live);
    RawFirst(bs', r, live);
    WindowWriteFront(bs[front], bs'[front], None);
    FlatFrame(bs, bs', r[1..live + 1]);
  }

  lemma ConsumeTake<T>(s: State<T>)
    requires Inv(s) && CReady(s.q) && s.q.cons.c.pc == CTake && s.q.cons.c.kind != Peek
    ensures Inv(After(s, ConsumerStep))
  {
    var s' := After(s, ConsumerStep);
    var q, h, bs, bs', x := s.q, s.h, s.q.blocks, s'.q.blocks, s.q.frontBlock;
    RingFrame(bs, bs', x, x, q.tailBlock, h.ring, h.live);
    FillFrame(bs, bs', x, h.ring, h.live, PrePublished(q.prod));
    SlotsTake(bs, bs', x, Built(q.prod));
    RawTake(bs, bs', x, q.tailBlock, h.ring, h.live);
    ProdAfterTake(bs, bs', x, q.tailBlock, h.ring, h.live, h.peak, q.prod);
  }

  /** The producer's view survives what the consumer does to the live slots of frontBlock. */
  lemma ProdAfterTake<T>(bs: seq<Block<T>>, bs': seq<Block<T>>, front: nat, tail: nat, r: seq<nat>, live: nat,
                         peak: int, p: Producer<T>)
    requires AllOk(bs) && RingOk(bs, front, tail, r, live) && Replaces(bs, bs', front)
    requires ProdOk(bs, tail, r, live, peak, p) && Count(bs[front]) > 0
    requires bs'[front].data == bs[front].data[bs[front].front := None] || bs'[front].data == bs[front].data
    requires bs'[front] == bs[front].(data := bs'[front].data, front := bs'[front].front)
    requires bs'[front].front == bs[front].front || bs'[front].front == NextIndex(bs[front].front, bs[front].sizeMask)
    ensures Shape(bs', r, live) && ProdOk(bs', tail, r, live, peak, p)
  {
  }

  lemma SlotsPop<T>(bs: seq<Block<T>>, bs': seq<Block<T>>, x: nat, built: Option<Slot>)
    requires AllOk(bs) && x < |bs| && SlotsOk(bs, Some(Slot(x, bs[x].front)), built)
    requires Replaces(bs, bs', x) && bs[x].front != bs[x].tail
    requires bs'[x] == bs[x].(front := NextIndex(bs[x].front, bs[x].sizeMask))
    ensures AllOk(bs') && SlotsOk(bs', None, built)
  {
    forall y, k | 0 <= y < |bs'| && 0 <= k <= bs'[y].sizeMask ensures SlotAt(bs'[y], y, k, None, built) {
      assert SlotAt(bs[y], y, k, Some(Slot(x, bs[x].front)), built);
    }
  }

  lemma RawPop<T>(bs: seq<Block<T>>, bs': seq<Block<T>>, front: nat, tail: nat, r: seq<nat>, live: nat, pre: bool)
    requires AllOk(bs) && RingOk(bs, front, tail, r, live) && Replaces(bs, bs', front) && FillOk(bs, r, live, pre)
    requires bs[front].front != bs[front].tail
    requires bs'[front] == bs[front].(front := NextIndex(bs[front].front, bs[front].sizeMask))
    ensures Shape(bs', r, live) && FillOk(bs', r, live, pre) && |Raw(bs, r, live)| > 0
    ensures Raw(bs', r, live) == Raw(bs, r, live)[1..]
  {
    forall i | 0 <= i < |r| ensures FillAt(bs'[r[i]], i, live, pre) {
      assert FillAt(bs[r[i]], i, live, pre);
    }
    RawFirst(bs, r, live);
    RawFirst(bs', r, live);
    WindowPop(bs[front], bs'[front]);
    FlatFrame(bs, bs', r[1..live + 1]);
  }

  /** The element in hand is the oldest, and removing it leaves the rest. */
  lemma SomesPop<T>(raw: seq<Option<T>>, x: T, enq: seq<T>, deq: seq<T>)
    requires ContentsOk(raw, Some(x), enq, deq) && |raw| > 0
    ensures |deq| < |enq| && x == enq[|deq|]
    ensures ContentsOk(raw[1..], None, enq, deq + [x])
  {
    var rest := enq[|deq|..];
    assert Some(x) == Logical(raw, Some(x))[0] == Somes(rest)[0];
    assert Somes(rest)[1..] == Somes(rest[1..]);
    assert rest[1..] == enq[|deq + [x]|..];
  }

  /** A step that publishes the new front of frontBlock. */
  lemma Remove<T>(s: State<T>, s': State<T>, c: CFrame<T>, low: int)
    requires Inv(s) && s.q.cons == CRun(c) && c.pc == CStoreFront
    requires Replaces(s.q.blocks, s'.q.blocks, s.q.frontBlock)
    requires var b := s.q.blocks[s.q.frontBlock];
      s'.q.blocks[s.q.frontBlock] == b.(front := NextIndex(b.front, b.sizeMask))
    requires s'.q == s.q.(blocks := s'.q.blocks, cons := s'.q.cons) && s'.q.cons.CIdle?
    requires s'.h == s.h.(deq := s.h.deq + [c.taken.value], low := low) && low <= Held(s'.h)
    ensures Inv(s')
  {
    var q, h, bs, bs', x := s.q, s.h, s.q.blocks, s'.q.blocks, s.q.frontBlock;
    RingFrame(bs, bs', x, x, q.tailBlock, h.ring, h.live);
    SlotsPop(bs, bs', x, Built(q.prod));
    RawPop(bs, bs', x, q.tailBlock, h.ring, h.live, PrePublished(q.prod));
    SomesPop(Raw(bs, h.ring, h.live), c.taken.value, h.enq, h.deq);
    ProdAfterTake(bs, bs', x, q.tailBlock, h.ring, h.live, h.peak, q.prod);
  }

  lemma ConsumeStoreFront<T>(s: State<T>)
    requires Inv(s) && CReady(s.q) && s.q.cons.c.pc == CStoreFront
    ensures Inv(After(s, ConsumerStep))
  {
    var s' := After(s, ConsumerStep);
    Remove(s, s', s.q.cons.c, s'.h.low);
  }

  // ---------- advancing frontBlock

  lemma RotateRing<T>(bs: seq<Block<T>>, front: nat, tail: nat, r: seq<nat>, r': seq<nat>, live: nat)
    requires RingOk(bs, front, tail, r, live) && live > 0
    requires r' == r[1..] + [r[0]]
    ensures RingOk(bs, r[1], tail, r', live - 1)
    ensures r'[..live] == r[1..live + 1]
  {
    forall i | 0 <= i < |r'| ensures bs[r'[i]].next == Some(r'[Wrap(i + 1, |r'|)]) {
      var j := Wrap(i + 1, |r|);
      assert r'[i] == r[j] && bs[r[j]].next == Some(r[Wrap(j + 1, |r|)]);
    }
  }

  lemma Rotate<T>(bs: seq<Block<T>>, front: nat, r: seq<nat>, r': seq<nat>, live: nat, pre: bool)
    requires AllOk(bs) && Shape(bs, r, live) && FillOk(bs, r, live, pre)
    requires live > 0 && Count(bs[r[0]]) == 0 && (pre ==> live + 1 < |r|)
    requires Shape(bs, r', live - 1) && r' == r[1..] + [r[0]] && r'[..live] == r[1..live + 1]
    ensures FillOk(bs, r', live - 1, pre)
    ensures Raw(bs, r', live - 1) == Raw(bs, r, live)
  {
    forall i | 0 <= i < |r'| ensures FillAt(bs[r'[i]], i, live - 1, pre) {
      var j := Wrap(i + 1, |r|);
      assert r'[i] == r[j] && FillAt(bs[r[j]], j, live, pre);
    }
    RawFirst(bs, r, live);
  }

  lemma ConsumeStoreFrontBlock<T>(s: State<T>)
    requires Inv(s) && CReady(s.q) && s.q.cons.c.pc == CStoreFrontBlock
    ensures Inv(After(s, ConsumerStep))
  {
    var s' := After(s, ConsumerStep);
    var q, h, bs := s.q, s.h, s.q.blocks;
    assert FillAt(bs[h.ring[1]], 1, h.live, PrePublished(q.prod));
    RotateRing(bs, q.frontBlock, q.tailBlock, h.ring, s'.h.ring, h.live);
    Rotate(bs, q.frontBlock, h.ring, s'.h.ring, h.live, PrePublished(q.prod));
  }
}
