/** What holds of every run of the queue: FIFO order, freedom from races, and what a failed call means. */
module SpscTheorems {
  import opened Wrappers
  import opened QueueBlocks
  import opened SpscQueue
  import opened SpscInvariant
  import opened SpscPreserve

  lemma ProducerPreserves<T>(s: State<T>, m: bool)
    requires Inv(s) && PReady(s.q)
    ensures Inv(After(s, ProducerStep(m)))
  {
    match s.q.prod.f.pc
    case PLoadTailBlock => ProduceLoadTailBlock(s, m);
    case PLoadTail => ProduceLoadTail(s, m);
    case PLoadFront => ProduceLoadFront(s, m);
    case PConstruct => ProduceConstruct(s, m);
    case PStoreTail => ProduceStoreTail(s, m);
    case PLoadNext => ProduceLoadNext(s, m);
    case PCheckFrontBlock => ProduceCheckFrontBlock(s, m);
    case PReloadNext => ProduceReloadNext(s, m);
    case PLoadNextFront => ProduceLoadNextFront(s, m);
    case PLoadNextTail => ProduceLoadNextTail(s, m);
    case PConstructNext => ProduceConstructNext(s, m);
    case PStoreNextTail => ProduceStoreNextTail(s, m);
    case PAlloc => ProduceAlloc(s, m);
    case PConstructNew => ProduceConstructNew(s, m);
    case PInitTail => ProduceInitTail(s, m);
    case PLoadLink => ProduceLoadLink(s, m);
    case PInitNext => ProduceInitNext(s, m);
    case PLink => ProduceLink(s, m);
    case PStoreTailBlock => ProduceStoreTailBlock(s, m);
  }

  lemma ConsumerPreserves<T>(s: State<T>)
    requires Inv(s) && CReady(s.q)
    ensures Inv(After(s, ConsumerStep))
  {
    match s.q.cons.c.pc
    case CLoadFrontBlock => ConsumeLoadFrontBlock(s);
    case CLoadFront => ConsumeLoadFront(s);
    case CLoadTail => ConsumeLoadTail(s);
    case CTake => if s.q.cons.c.kind == Peek { ConsumePeek(s); } else { ConsumeTake(s); }
    case CStoreFront => ConsumeStoreFront(s);
    case CLoadTailBlock => ConsumeLoadTailBlock(s);
    case CReloadFrontBlock => ConsumeReloadFrontBlock(s);
    case CReloadTail => ConsumeReloadTail(s);
    case CReloadFront => ConsumeReloadFront(s);
    case CLoadNext => ConsumeLoadNext(s);
    case CLoadNextFront => ConsumeLoadNextFront(s);
    case CLoadNextTail => ConsumeLoadNextTail(s);
    case CStoreFrontBlock => ConsumeStoreFrontBlock(s);
  }

  lemma StepPreserves<T>(s: State<T>, a: Action<T>)
    requires Inv(s) && Enabled(s.q, a)
    ensures Inv(After(s, a))
  {
    match a
    case CallEnqueue(v, canAlloc) => BeginEnqueue(s, v, canAlloc);
    case CallConsumer(kind) => BeginConsumer(s, kind);
    case ProducerStep(m) => ProducerPreserves(s, m);
    case ConsumerStep => ConsumerPreserves(s);
  }

  /** How many more of its own steps a call can take. */
  function ProducerRank(pc: PPc): nat {
    match pc
    case PLoadTailBlock => 12 case PLoadTail => 11 case PLoadFront => 10
    case PConstruct => 2 case PStoreTail => 1
    case PLoadNext => 9 case PCheckFrontBlock => 8
    case PReloadNext => 6 case PLoadNextFront => 5 case PLoadNextTail => 4
    case PConstructNext => 3 case PStoreNextTail => 2
    case PAlloc => 7 case PConstructNew => 6 case PInitTail => 5
    case PLoadLink => 4 case PInitNext => 3 case PLink => 2
    case PStoreTailBlock => 1
  }

  function ConsumerRank(pc: CPc): nat {
    match pc
    case CLoadFrontBlock => 13 case CLoadFront => 12 case CLoadTail => 11
    case CTake => 2 case CStoreFront => 1
    case CLoadTailBlock => 10 case CReloadFrontBlock => 9 case CReloadTail => 8 case CReloadFront => 7
    case CLoadNext => 6 case CLoadNextFront => 5 case CLoadNextTail => 4 case CStoreFrontBlock => 3
  }

  /** Wait-freedom: each of the producer's own steps brings its call closer to returning, after at most
      twelve; the consumer's steps cannot set it back. */
  lemma ProducerWaitFree<T>(s: State<T>, a: Action<T>)
    requires Enabled(s.q, a) && s.q.prod.PRun?
    ensures var p := After(s, a).q.prod;
      if a.ProducerStep? then p.PIdle? || ProducerRank(p.f.pc) < ProducerRank(s.q.prod.f.pc) else p == s.q.prod
    ensures ProducerRank(s.q.prod.f.pc) <= 12
  {
    match s.q.prod.f.pc { case _ => }
  }

  /** The same for the consumer, after at most thirteen. */
  lemma ConsumerWaitFree<T>(s: State<T>, a: Action<T>)
    requires Enabled(s.q, a) && s.q.cons.CRun?
    ensures var c := After(s, a).q.cons;
      if a.ConsumerStep? then c.CIdle? || ConsumerRank(c.c.pc) < ConsumerRank(s.q.cons.c.pc) else c == s.q.cons
    ensures ConsumerRank(s.q.cons.c.pc) <= 13
  {
    match s.q.cons.c.pc { case _ => }
  }

  // ---------- runs

  /** The queue as its constructor leaves it: `count` empty blocks in a circle. */
  ghost predicate Fresh<T>(q: Queue<T>, count: nat, mask: nat) {
    && count >= 1 && mask >= 1
    && |q.blocks| == count
    && (forall i :: 0 <= i < count ==> q.blocks[i] == MakeBlock<T>(mask + 1).(next := Some(Wrap(i + 1, count))))
    && q.frontBlock == 0 && q.tailBlock == 0
    && q.largestBlockSize == mask + 1
    && q.prod.PIdle? && q.cons.CIdle?
  }

  function FirstHistory<T>(count: nat, mask: nat, cap: nat): History<T> {
    History(seq(count, i => i), 0, [], [], 0, 0, cap, mask)
  }

  ghost predicate Initial<T>(s: State<T>) {
    exists count: nat, mask: nat ::
      Fresh(s.q, count, mask) && Capacity(count, mask) >= s.h.cap && s.h == FirstHistory<T>(count, mask, s.h.cap)
  }

  /** A run: any interleaving of calls and steps of the two threads, and any outcomes of malloc. */
  ghost predicate Run<T>(states: seq<State<T>>, acts: seq<Action<T>>) {
    && |states| == |acts| + 1
    && Initial(states[0])
    && forall i :: 0 <= i < |acts| ==> Enabled(states[i].q, acts[i]) && states[i + 1] == After(states[i], acts[i])
  }

  lemma InitialInv<T>(s: State<T>)
    requires Initial(s)
    ensures Inv(s)
  {
    var q, h := s.q, s.h;
    assert forall i :: 0 <= i < |q.blocks| ==> BlockOk(q.blocks[i]);
    forall i | 0 <= i < |h.ring| ensures FillAt(q.blocks[h.ring[i]], i, 0, false) {
    }
    forall x, j | 0 <= x < |q.blocks| && 0 <= j <= q.blocks[x].sizeMask ensures SlotAt(q.blocks[x], x, j, None, None) {
    }
    assert Raw(q.blocks, h.ring, 0) == [] by {
      RawFirst(q.blocks, h.ring, 0);
      assert h.ring[1..1] == [];
    }
  }

  lemma {:induction false} RunInv<T>(states: seq<State<T>>, acts: seq<Action<T>>, i: nat)
    requires Run(states, acts) && i < |states|
    ensures Inv(states[i]) && states[i].h.cap == states[0].h.cap
  {
    if i == 0 {
      InitialInv(states[0]);
    } else {
      RunInv(states, acts, i - 1);
      StepPreserves(states[i - 1], acts[i - 1]);
    }
  }

  // ---------- safety

  /** FIFO linearizability: at every instant of every run, the elements removed so far are a prefix of the
      elements added so far, and the live slots read round the ring are exactly the rest, in order. */
  lemma FifoInEveryRun<T>(states: seq<State<T>>, acts: seq<Action<T>>, i: nat)
    requires Run(states, acts) && i < |states|
    ensures Inv(states[i])
    ensures var h := states[i].h; h.deq == h.enq[..|h.deq|]
    ensures var q, h := states[i].q, states[i].h;
      Logical(Raw(q.blocks, h.ring, h.live), InHand(q.cons)) == Somes(h.enq[|h.deq|..])
  {
    RunInv(states, acts, i);
  }

  /** Neither thread ever gets stuck, strays outside a block or fails an assert of the source. */
  lemma AlwaysReady<T>(states: seq<State<T>>, acts: seq<Action<T>>, i: nat)
    requires Run(states, acts) && i < |states|
    ensures states[i].q.prod.PRun? ==> PReady(states[i].q) && ProducerAsserts(states[i].q)
    ensures states[i].q.cons.CRun? ==> CReady(states[i].q) && ConsumerAsserts(states[i].q)
  {
    RunInv(states, acts, i);
    InvReady(states[i]);
  }

  /** The slot the producer's next step writes. */
  function ProducerWrites<T>(q: Queue<T>): Option<Slot> {
    if !q.prod.PRun? then None
    else match q.prod.f.pc
      case PConstruct => Some(Slot(q.prod.f.tb, q.prod.f.bt))
      case PConstructNext => Some(Slot(q.prod.f.tn, q.prod.f.nt))
      case PConstructNew => Some(Slot(q.prod.f.tn, 0))
      case _ => None
  }

  /** The slot the consumer's next step reads, and unless it peeks, empties. */
  function ConsumerTakes<T>(q: Queue<T>): Option<Slot> {
    if q.cons.CRun? && q.cons.c.pc == CTake then Some(Slot(q.cons.c.fb, q.cons.c.bf)) else None
  }

  lemma RawHead<T>(bs: seq<Block<T>>, r: seq<nat>, live: nat)
    requires Shape(bs, r, live)
    ensures Count(bs[r[0]]) > 0 ==> |Raw(bs, r, live)| > 0 && Raw(bs, r, live)[0] == bs[r[0]].data[bs[r[0]].front]
    ensures live > 0 && Count(bs[r[0]]) == 0 && Count(bs[r[1]]) > 0 ==>
      |Raw(bs, r, live)| > 0 && Raw(bs, r, live)[0] == bs[r[1]].data[bs[r[1]].front]
  {
    RawFirst(bs, r, live);
    if live > 0 {
      var t := r[1..live + 1];
      assert Flat(bs, t) == Window(bs[t[0]]) + Flat(bs, t[1..]);
    }
  }

  /** Data-race freedom: the producer only ever writes a raw slot, the consumer only ever reads a live one,
      which holds the oldest element, and so the two never touch the same slot. */
  lemma RaceFree<T>(s: State<T>)
    requires Inv(s)
    ensures ProducerWrites(s.q).Some? ==>
      var w := ProducerWrites(s.q).value; IsSlot(s.q, w.block, w.index) && s.q.blocks[w.block].data[w.index] == None
    ensures ConsumerTakes(s.q).Some? ==>
      var w := ConsumerTakes(s.q).value;
      && |s.h.deq| < |s.h.enq|
      && IsSlot(s.q, w.block, w.index)
      && s.q.blocks[w.block].data[w.index] == Some(s.h.enq[|s.h.deq|])
    ensures ProducerWrites(s.q).Some? ==> ProducerWrites(s.q) != ConsumerTakes(s.q)
  {
    InvReady(s);
    var q, h := s.q, s.h;
    if ProducerWrites(q).Some? {
      var w := ProducerWrites(q).value;
      if h.live + 1 < |h.ring| {
        assert FillAt(q.blocks[h.ring[h.live + 1]], h.live + 1, h.live, PrePublished(q.prod));
      }
      assert !InWindow(q.blocks[w.block], w.index);
      assert SlotAt(q.blocks[w.block], w.block, w.index, Hole(q.cons), Built(q.prod));
    }
    if ConsumerTakes(q).Some? {
      RawHead(q.blocks, h.ring, h.live);
      assert Raw(q.blocks, h.ring, h.live)[0] == Somes(h.enq[|h.deq|..])[0];
    }
  }

  // ---------- what a call does

  /** acts[i] is a call to enqueue `v` and the producer is still inside it in states[j]. */
  ghost predicate Enqueuing<T>(states: seq<State<T>>, acts: seq<Action<T>>, i: nat, j: nat, v: T) {
    && Run(states, acts) && i < j < |states|
    && acts[i].CallEnqueue? && acts[i].element == v
    && forall k :: i < k <= j ==> states[k].q.prod.PRun?
  }

  lemma WithinEnqueue<T>(s: State<T>, a: Action<T>)
    requires Enabled(s.q, a) && s.q.prod.PRun? && After(s, a).q.prod.PRun?
    ensures After(s, a).h.enq == s.h.enq
    ensures var f, f' := s.q.prod.f, After(s, a).q.prod.f;
      && f'.element == f.element && f'.canAlloc == f.canAlloc
      && (f'.pc == PAlloc ==> f.pc == PAlloc || f.canAlloc)
    ensures var p := After(s, a).h.peak; p == Held(After(s, a).h) || p == s.h.peak
  {
  }

  lemma {:induction false} EnqueuePending<T>(states: seq<State<T>>, acts: seq<Action<T>>, i: nat, j: nat, v: T)
    requires Enqueuing(states, acts, i, j, v)
    ensures states[j].h.enq == states[i].h.enq
    ensures states[j].q.prod.f.element == v && states[j].q.prod.f.canAlloc == acts[i].canAlloc
    ensures states[j].q.prod.f.pc == PAlloc ==> acts[i].canAlloc
    ensures exists m :: i < m <= j && Held(states[m].h) == states[j].h.peak
  {
    if j == i + 1 {
      assert states[j] == After(states[i], acts[i]);
      assert Held(states[j].h) == states[j].h.peak;
    } else {
      EnqueuePending(states, acts, i, j - 1, v);
      var m :| i < m <= j - 1 && Held(states[m].h) == states[j - 1].h.peak;
      assert states[j] == After(states[j - 1], acts[j - 1]);
      WithinEnqueue(states[j - 1], acts[j - 1]);
      assert Held(states[j].h) == states[j].h.peak || Held(states[m].h) == states[j].h.peak;
    }
  }

  /** When an enqueue call returns, its element has been added exactly once, last, if it returned true, and
      not at all if it returned false. */
  lemma EnqueueReturns<T>(states: seq<State<T>>, acts: seq<Action<T>>, i: nat, j: nat, v: T)
    requires Enqueuing(states, acts, i, j, v) && j < |acts| && states[j + 1].q.prod.PIdle?
    ensures states[j + 1].q.prod.returned == Some(true) || states[j + 1].q.prod.returned == Some(false)
    ensures states[j + 1].h.enq ==
      if states[j + 1].q.prod.returned == Some(true) then states[i].h.enq + [v] else states[i].h.enq
  {
    EnqueuePending(states, acts, i, j, v);
    assert states[j + 1] == After(states[j], acts[j]);
  }

  lemma FullBlocks<T>(bs: seq<Block<T>>, r: seq<nat>, live: nat, m: nat)
    requires Shape(bs, r, live) && FillOk(bs, r, live, false) && 0 < live && live + 1 == |r|
    requires (forall x :: 0 <= x < |bs| ==> bs[x].sizeMask >= m) && Count(bs[r[live]]) >= m
    ensures |Raw(bs, r, live)| >= live * m
  {
    RawFirst(bs, r, live);
    forall i | 0 <= i < live ensures Count(bs[r[1..][i]]) >= m {
      assert FillAt(bs[r[i + 1]], i + 1, live, false);
    }
    assert r[1..live + 1] == r[1..];
    FlatLength(bs, r[1..], m);
  }

  /** With every block but the consumer's full, the queue holds its capacity. */
  lemma FullRing<T>(s: State<T>)
    requires Inv(s) && PReady(s.q) && s.q.prod.f.pc == PCheckFrontBlock && s.q.prod.f.tn == s.q.frontBlock
    ensures Held(s.h) >= s.h.cap || s.h.peak >= s.h.cap
  {
    var bs, r, live := s.q.blocks, s.h.ring, s.h.live;
    assert bs[r[live]].next == Some(r[Wrap(live + 1, |r|)]);
    assert live + 1 == |r|;
    if live > 0 {
      FullBlocks(bs, r, live, s.h.minMask);
      HeldIsLive(s);
    }
  }

  /** try_enqueue fails only if at some instant during the call the queue held at least as many elements
      as its constructor was asked to make room for. */
  lemma TryEnqueueFails<T>(states: seq<State<T>>, acts: seq<Action<T>>, i: nat, j: nat, v: T)
    requires Enqueuing(states, acts, i, j, v) && j < |acts| && states[j + 1].q.prod == PIdle(Some(false))
    requires !acts[i].canAlloc
    ensures exists m :: i < m <= j && Held(states[m].h) >= states[0].h.cap
  {
    EnqueuePending(states, acts, i, j, v);
    RunInv(states, acts, j);
    assert states[j + 1] == After(states[j], acts[j]);
    FullRing(states[j]);
    var m :| i < m <= j && Held(states[m].h) == states[j].h.peak;
  }

  /** enqueue fails only if memory allocation does. */
  lemma EnqueueFails<T>(states: seq<State<T>>, acts: seq<Action<T>>, i: nat, j: nat, v: T)
    requires Enqueuing(states, acts, i, j, v) && j < |acts| && states[j + 1].q.prod == PIdle(Some(false))
    requires acts[i].canAlloc
    ensures acts[j] == ProducerStep(false) && states[j].q.prod.f.pc == PAlloc
  {
    EnqueuePending(states, acts, i, j, v);
    assert states[j + 1] == After(states[j], acts[j]);
  }

  /** acts[i] is a call to try_dequeue, pop or peek and the consumer is still inside it in states[j]. */
  ghost predicate Dequeuing<T>(states: seq<State<T>>, acts: seq<Action<T>>, i: nat, j: nat) {
    && Run(states, acts) && i < j < |states|
    && acts[i].CallConsumer?
    && forall k :: i < k <= j ==> states[k].q.cons.CRun?
  }

  lemma WithinDequeue<T>(s: State<T>, a: Action<T>)
    requires Enabled(s.q, a) && s.q.cons.CRun? && After(s, a).q.cons.CRun?
    ensures After(s, a).h.deq == s.h.deq && After(s, a).q.cons.c.kind == s.q.cons.c.kind
    ensures var p := After(s, a).h.low; p == Held(After(s, a).h) || p == s.h.low
  {
  }

  lemma {:induction false} DequeuePending<T>(states: seq<State<T>>, acts: seq<Action<T>>, i: nat, j: nat)
    requires Dequeuing(states, acts, i, j)
    ensures states[j].h.deq == states[i].h.deq
    ensures states[j].q.cons.c.kind == acts[i].kind
    ensures exists m :: i < m <= j && Held(states[m].h) == states[j].h.low
  {
    if j == i + 1 {
      assert states[j] == After(states[i], acts[i]);
      assert Held(states[j].h) == states[j].h.low;
    } else {
      DequeuePending(states, acts, i, j - 1);
      var m :| i < m <= j - 1 && Held(states[m].h) == states[j - 1].h.low;
      assert states[j] == After(states[j - 1], acts[j - 1]);
      WithinDequeue(states[j - 1], acts[j - 1]);
      assert Held(states[j].h) == states[j].h.low || Held(states[m].h) == states[j].h.low;
    }
  }

  /** try_dequeue, pop and peek report an empty queue only if it was empty at some instant during the call,
      and then they remove nothing. */
  lemma DequeueFails<T>(states: seq<State<T>>, acts: seq<Action<T>>, i: nat, j: nat)
    requires Dequeuing(states, acts, i, j) && j < |acts| && states[j + 1].q.cons == CIdle(Empty)
    ensures exists m :: i < m <= j && Held(states[m].h) == 0
    ensures states[j + 1].h.deq == states[i].h.deq
  {
    DequeuePending(states, acts, i, j);
    RunInv(states, acts, j);
    assert states[j + 1] == After(states[j], acts[j]);
    assert states[j].h.live == 0;
    var m :| i < m <= j && Held(states[m].h) == states[j].h.low;
    RunInv(states, acts, m);
  }

  /** A successful try_dequeue or pop removes exactly the oldest element; a successful peek removes nothing
      and reports the element that is oldest when it returns. */
  lemma DequeueReturns<T>(states: seq<State<T>>, acts: seq<Action<T>>, i: nat, j: nat)
    requires Dequeuing(states, acts, i, j) && j < |acts| && states[j + 1].q.cons.CIdle?
    ensures match states[j + 1].q.cons.returned
      case NotCalled => false
      case Empty => states[j + 1].h.deq == states[i].h.deq
      case Removed(x) => acts[i].kind != Peek && states[j + 1].h.deq == states[i].h.deq + [x] &&
                         |states[i].h.deq| < |states[j].h.enq| && x == states[j].h.enq[|states[i].h.deq|]
      case Peeked(x) => acts[i].kind == Peek && states[j + 1].h.deq == states[i].h.deq &&
                        |states[i].h.deq| < |states[j].h.enq| && x == states[j].h.enq[|states[i].h.deq|]
  {
    DequeuePending(states, acts, i, j);
    RunInv(states, acts, j);
    RunInv(states, acts, j + 1);
    assert states[j + 1] == After(states[j], acts[j]);
    RaceFree(states[j]);
    if states[j + 1].q.cons.returned.Removed? {
      var d := |states[i].h.deq|;
      assert states[j + 1].h.deq[d] == states[j + 1].h.enq[..d + 1][d];
    }
  }
}
