/** The invariant of every reachable state of SpscQueue. Each conjunct takes only what it depends on,
    so that a step that leaves those alone keeps it at once. */
module SpscInvariant {
  import opened Wrappers
  import opened QueueBlocks
  import opened SpscQueue

  function Wrap(i: int, n: int): int {
    if i == n then 0 else i
  }

  /** The blocks form one circular list, from frontBlock at 0 to tailBlock at `live` and round. */
  ghost predicate RingOk<T>(bs: seq<Block<T>>, front: nat, tail: nat, r: seq<nat>, live: nat) {
    && live < |r|
    && Allocated(bs, r)
    && (forall i, j :: 0 <= i < j < |r| ==> r[i] != r[j])
    && r[0] == front && r[live] == tail
    && (forall i :: 0 <= i < |r| ==> bs[r[i]].next == Some(r[Wrap(i + 1, |r|)]))
  }

  ghost predicate Shape<T>(bs: seq<Block<T>>, r: seq<nat>, live: nat) {
    AllOk(bs) && Allocated(bs, r) && live < |r|
  }

  /** How full the i-th block from the front is: the blocks strictly between frontBlock and tailBlock
      are full, tailBlock is not empty unless it is also frontBlock, and the rest are empty, but for
      the block after tailBlock when the producer has put its element there and not yet moved
      tailBlock (`pre`). */
  ghost predicate FillAt<T>(b: Block<T>, i: int, live: nat, pre: bool)
    requires BlockOk(b)
  {
    && (0 < i < live ==> Count(b) == b.sizeMask)
    && (0 < i <= live ==> Count(b) >= 1)
    && (live < i ==> Count(b) == if pre && i == live + 1 then 1 else 0)
  }

  ghost predicate FillOk<T>(bs: seq<Block<T>>, r: seq<nat>, live: nat, pre: bool)
    requires Shape(bs, r, live)
  {
    forall i :: 0 <= i < |r| ==> FillAt(bs[r[i]], i, live, pre)
  }

  predicate PrePublished<T>(p: Producer<T>) {
    p.PRun? && p.f.pc == PStoreTailBlock
  }

  datatype Slot = Slot(block: nat, index: nat)

  /** The slot the consumer has emptied without publishing the new front. */
  function Hole<T>(c: Consumer<T>): Option<Slot> {
    if c.CRun? && c.c.pc == CStoreFront then Some(Slot(c.c.fb, c.c.bf)) else None
  }

  /** The slot in which the producer has constructed its element without publishing it. */
  function Built<T>(p: Producer<T>): Option<Slot> {
    if !p.PRun? then None
    else match p.f.pc
      case PStoreTail => Some(Slot(p.f.tb, p.f.bt))
      case PStoreNextTail => Some(Slot(p.f.tn, p.f.nt))
      case PInitTail => Some(Slot(p.f.tn, 0))
      case _ => None
  }

  ghost predicate SlotAt<T>(b: Block<T>, x: int, j: int, hole: Option<Slot>, built: Option<Slot>)
    requires BlockOk(b) && 0 <= x && 0 <= j <= b.sizeMask
  {
    b.data[j].Some? <==> (InWindow(b, j) && hole != Some(Slot(x, j))) || built == Some(Slot(x, j))
  }

  /** A slot holds an object exactly when it is live, or built and about to be published. */
  ghost predicate SlotsOk<T>(bs: seq<Block<T>>, hole: Option<Slot>, built: Option<Slot>)
    requires AllOk(bs)
  {
    forall x, j :: 0 <= x < |bs| && 0 <= j <= bs[x].sizeMask ==> SlotAt(bs[x], x, j, hole, built)
  }

  /** The live slots read round the ring from frontBlock to tailBlock. */
  ghost function Raw<T>(bs: seq<Block<T>>, r: seq<nat>, live: nat): seq<Option<T>>
    requires Shape(bs, r, live)
  {
    Flat(bs, r[..live + 1])
  }

  /** The object in the consumer's hands that still counts as the oldest element. */
  function InHand<T>(c: Consumer<T>): Option<T> {
    if c.CRun? && c.c.pc == CStoreFront then c.c.taken else None
  }

  function Logical<T>(raw: seq<Option<T>>, inHand: Option<T>): seq<Option<T>> {
    if inHand.Some? && |raw| > 0 then [inHand] + raw[1..] else raw
  }

  function Somes<T>(xs: seq<T>): seq<Option<T>> {
    seq(|xs|, i requires 0 <= i < |xs| => Some(xs[i]))
  }

  /** FIFO: what has been removed is a prefix of what has been added, and the rest is what is live. */
  ghost predicate ContentsOk<T>(raw: seq<Option<T>>, inHand: Option<T>, enq: seq<T>, deq: seq<T>) {
    && |deq| <= |enq|
    && deq == enq[..|deq|]
    && Logical(raw, inHand) == Somes(enq[|deq|..])
  }

  /** The producer's view of tailBlock is stale only in the safe direction. */
  ghost predicate TailViewOk<T>(t: Block<T>, live: nat)
    requires BlockOk(t)
  {
    && Dist(t.localFront, t.tail, t.sizeMask) >= Count(t)
    && (live > 0 ==> t.localFront == t.front)
  }

  predicate FullSeen(pc: PPc) {
    pc !in {PLoadTailBlock, PLoadTail, PLoadFront, PConstruct, PStoreTail}
  }

  predicate HasNext(pc: PPc) {
    pc in {PReloadNext, PLoadNextFront, PLoadNextTail, PConstructNext, PStoreNextTail, PStoreTailBlock}
  }

  predicate Private(pc: PPc) {
    pc in {PConstructNew, PInitTail, PLoadLink, PInitNext, PLink}
  }

  /** What the producer knows of tailBlock at each point of inner_enqueue. */
  ghost predicate ProdTailOk<T>(t: Block<T>, tail: nat, peak: int, f: PFrame<T>)
    requires BlockOk(t)
  {
    && (f.pc != PLoadTailBlock ==> f.tb == tail)
    && (f.pc in {PLoadFront, PConstruct, PStoreTail} ==> f.bt == t.tail && f.nbt == NextIndex(t.tail, t.sizeMask))
    && (f.pc in {PConstruct, PStoreTail} ==> f.nbt != t.localFront)
    && (f.pc == PStoreTail ==> t.data[f.bt] == Some(f.element))
    && (FullSeen(f.pc) ==> NextIndex(t.tail, t.sizeMask) == t.localFront && peak >= t.sizeMask)
    && (f.pc == PCheckFrontBlock ==> Some(f.tn) == t.next)
  }

  /** What the producer knows of the free block ahead. */
  ghost predicate ProdNextOk<T>(n: Block<T>, f: PFrame<T>)
    requires BlockOk(n)
  {
    && (f.pc in {PLoadNextTail, PConstructNext, PStoreNextTail, PStoreTailBlock} ==> n.localFront == n.front)
    && (f.pc in {PConstructNext, PStoreNextTail} ==> f.nt == n.tail)
    && (f.pc == PStoreNextTail ==> n.data[f.nt] == Some(f.element))
    && (f.pc == PStoreTailBlock ==> Window(n) == [Some(f.element)])
  }

  /** The new block until it is linked into the ring: nobody else can reach it. */
  ghost predicate PrivateOk<T>(b: Block<T>, t: Block<T>, f: PFrame<T>)
    requires BlockOk(b)
  {
    && b.front == 0 && b.localFront == 0
    && (f.pc in {PConstructNew, PInitTail} ==> b.tail == 0 && b.localTail == 0)
    && (f.pc == PInitTail ==> b.data[0] == Some(f.element))
    && (f.pc in {PLoadLink, PInitNext, PLink} ==> b.tail == 1 && b.data[0] == Some(f.element))
    && (f.pc == PInitNext ==> f.lk == t.next)
    && (f.pc == PLink ==> b.next == t.next)
  }

  ghost predicate ProdOk<T>(bs: seq<Block<T>>, tail: nat, r: seq<nat>, live: nat, peak: int, p: Producer<T>)
    requires Shape(bs, r, live)
  {
    && tail < |bs|
    && TailViewOk(bs[tail], live)
    && (p.PRun? ==>
          var f := p.f;
          && ProdTailOk(bs[tail], tail, peak, f)
          && (HasNext(f.pc) ==> live + 1 < |r|)
          && (HasNext(f.pc) && f.pc != PReloadNext ==> f.tn == r[live + 1] && ProdNextOk(bs[f.tn], f))
          && (Private(f.pc) ==> f.tn < |bs| && f.tn !in r && PrivateOk(bs[f.tn], bs[tail], f)))
  }

  /** What the consumer knows of frontBlock at each point of try_dequeue, pop and peek. */
  ghost predicate ConsFrontOk<T>(b: Block<T>, live: nat, low: int, c: CFrame<T>)
    requires BlockOk(b)
  {
    && (c.pc == CLoadFront ==> c.bt == b.localTail)
    && (c.pc == CLoadTail ==> c.bf == b.front == b.localTail)
    && (c.pc == CStoreFront ==> c.bf == b.front != b.localTail && Count(b) >= 1 && c.kind != Peek && c.taken.Some?)
    && (c.pc == CLoadTailBlock ==> live == 0 ==> low <= 0)
    && (c.pc == CReloadFront ==> c.bt == b.tail == b.localTail)
    && (c.pc in {CLoadNext, CLoadNextFront, CLoadNextTail, CStoreFrontBlock} ==> Count(b) == 0)
  }

  predicate PastTail(pc: CPc) {
    pc in {CReloadFrontBlock, CReloadTail, CReloadFront, CLoadNext, CLoadNextFront, CLoadNextTail, CStoreFrontBlock}
  }

  /** What the consumer knows of the block after frontBlock. */
  ghost predicate ConsNextOk<T>(n: Block<T>, c: CFrame<T>)
    requires BlockOk(n)
  {
    && (c.pc in {CLoadNextTail, CStoreFrontBlock} ==> c.nf == n.front)
    && (c.pc == CStoreFrontBlock ==>
        c.kind != Peek && c.nf != n.localTail && Dist(n.front, n.localTail, n.sizeMask) <= Count(n))
  }

  ghost predicate ConsOk<T>(bs: seq<Block<T>>, front: nat, r: seq<nat>, live: nat, low: int, c: Consumer<T>)
    requires Shape(bs, r, live)
  {
    && front < |bs|
    && Dist(bs[front].front, bs[front].localTail, bs[front].sizeMask) <= Count(bs[front])
    && (c.CRun? ==>
          var f := c.c;
          && ConsFrontOk(bs[front], live, low, f)
          && (f.pc != CLoadFrontBlock && f.pc != CTake ==> f.fb == front)
          && (f.pc == CTake ==>
                && ((f.fb == front && f.bf != bs[front].localTail) ||
                    (f.kind == Peek && live > 0 && f.fb == r[1] && Count(bs[front]) == 0))
                && f.fb < |bs| && f.bf == bs[f.fb].front && Count(bs[f.fb]) >= 1)
          && (PastTail(f.pc) ==> live > 0)
          && (f.pc in {CLoadNextFront, CLoadNextTail, CStoreFrontBlock} ==> f.nb == r[1] && ConsNextOk(bs[f.nb], f)))
  }

  /** Enough slots for `cap` elements, whichever block the consumer is in. */
  ghost predicate CapOk<T>(bs: seq<Block<T>>, largest: nat, count: nat, minMask: nat, cap: nat) {
    && minMask >= 1
    && largest >= minMask + 1
    && (forall x :: 0 <= x < |bs| ==> bs[x].sizeMask >= minMask)
    && Capacity(count, minMask) >= cap
  }

  /** The slots usable whichever block the consumer is in: all but one block's, unless there is only one. */
  function Capacity(count: nat, mask: nat): nat {
    if count <= 1 then mask else (count - 1) * mask
  }

  ghost predicate Inv<T>(s: State<T>) {
    var q, h := s.q, s.h;
    && AllOk(q.blocks)
    && RingOk(q.blocks, q.frontBlock, q.tailBlock, h.ring, h.live)
    && FillOk(q.blocks, h.ring, h.live, PrePublished(q.prod))
    && SlotsOk(q.blocks, Hole(q.cons), Built(q.prod))
    && ContentsOk(Raw(q.blocks, h.ring, h.live), InHand(q.cons), h.enq, h.deq)
    && ProdOk(q.blocks, q.tailBlock, h.ring, h.live, h.peak, q.prod)
    && ConsOk(q.blocks, q.frontBlock, h.ring, h.live, h.low, q.cons)
    && CapOk(q.blocks, q.largestBlockSize, |h.ring|, h.minMask, h.cap)
    && h.low <= Held(h) <= h.peak
  }

  /** No step dereferences a missing block, indexes past a block's data or reads a raw slot, and every
      assert in the source holds. */
  lemma InvReady<T>(s: State<T>)
    requires Inv(s)
    ensures s.q.prod.PRun? ==> PReady(s.q) && ProducerAsserts(s.q)
    ensures s.q.cons.CRun? ==> CReady(s.q) && ConsumerAsserts(s.q)
  {
    var q, h := s.q, s.h;
    var bs, r := q.blocks, h.ring;
    assert FillAt(bs[r[0]], 0, h.live, PrePublished(q.prod));
    if h.live > 0 { assert FillAt(bs[r[1]], 1, h.live, PrePublished(q.prod)); }
    if h.live + 1 < |r| { assert FillAt(bs[r[h.live + 1]], h.live + 1, h.live, PrePublished(q.prod)); }
    if q.cons.CRun? && q.cons.c.pc == CTake {
      var x := q.cons.c.fb;
      assert InWindow(bs[x], bs[x].front);
      assert SlotAt(bs[x], x, bs[x].front, Hole(q.cons), Built(q.prod));
    }
  }
}
