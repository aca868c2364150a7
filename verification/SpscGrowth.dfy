/** When the queue takes memory, and how much: only for an enqueue that met a full queue, in blocks that double. */
module SpscGrowth {
  import opened Wrappers
  import opened QueueBlocks
  import opened CeilToPow2
  import opened SpscQueue
  import opened SpscInvariant
  import opened SpscTheorems

  /** An enqueue about to allocate may, and met a full queue. */
  ghost predicate AllocOk<T>(s: State<T>) {
    s.q.prod.PRun? && s.q.prod.f.pc == PAlloc ==> s.q.prod.f.canAlloc && s.h.peak >= s.h.cap
  }

  lemma AllocStep<T>(s: State<T>, a: Action<T>)
    requires Inv(s) && Enabled(s.q, a) && AllocOk(s)
    ensures AllocOk(After(s, a))
  {
    if a.ProducerStep? && s.q.prod.f.pc == PCheckFrontBlock && s.q.prod.f.tn == s.q.frontBlock { FullRing(s); }
  }

  lemma {:induction false} AllocInv<T>(states: seq<State<T>>, acts: seq<Action<T>>, i: nat)
    requires Run(states, acts) && i < |states|
    ensures AllocOk(states[i])
  {
    if i > 0 {
      AllocInv(states, acts, i - 1);
      RunInv(states, acts, i - 1);
      AllocStep(states[i - 1], acts[i - 1]);
    }
  }

  /** A block is added only inside an enqueue, never a try_enqueue, that met at least as many elements held as the
      constructor was asked to make room for, at an instant of the call; and then one block. */
  lemma GrowsOnlyWhenFull<T>(states: seq<State<T>>, acts: seq<Action<T>>, i: nat, j: nat, v: T)
    requires Enqueuing(states, acts, i, j, v) && j < |acts|
    requires |states[j + 1].q.blocks| != |states[j].q.blocks|
    ensures acts[i].canAlloc && acts[j] == ProducerStep(true)
    ensures |states[j + 1].q.blocks| == |states[j].q.blocks| + 1
    ensures exists m :: i < m <= j && Held(states[m].h) >= states[0].h.cap
  {
    assert Enabled(states[j].q, acts[j]) && states[j + 1] == After(states[j], acts[j]);
    BlocksStep(states[j], acts[j]);
    AllocInv(states, acts, j);
    RunInv(states, acts, j);
    EnqueuePending(states, acts, i, j, v);
    var m :| i < m <= j && Held(states[m].h) == states[j].h.peak;
    assert Held(states[m].h) >= states[0].h.cap;
  }

  /** Only one step adds a block, and it is the newest size there is. */
  lemma BlocksStep<T>(s: State<T>, a: Action<T>)
    requires Enabled(s.q, a)
    ensures var q, q' := s.q, After(s, a).q;
      && q'.maxBlockSize == q.maxBlockSize
      && (forall x :: 0 <= x < |q.blocks| ==> q'.blocks[x].sizeMask == q.blocks[x].sizeMask)
      && (if a == ProducerStep(true) && q.prod.f.pc == PAlloc then
            && |q'.blocks| == |q.blocks| + 1 && q'.largestBlockSize == NewBlockSize(q)
            && q'.blocks[|q.blocks|].sizeMask + 1 == NewBlockSize(q)
          else |q'.blocks| == |q.blocks| && q'.largestBlockSize == q.largestBlockSize)
  {
  }

  /** The power of two the n-th new block has for its size, when the first blocks have 2^a and MAX_BLOCK_SIZE is 2^b. */
  function Exponent(a: nat, b: nat, n: nat): nat {
    if a >= b then a else if a + n <= b then a + n else b
  }

  lemma Doubles<T>(q: Queue<T>, a: nat, b: nat, n: nat)
    requires q.maxBlockSize == Pow2(b) && q.largestBlockSize == Pow2(Exponent(a, b, n))
    ensures NewBlockSize(q) == Pow2(Exponent(a, b, n + 1))
  {
    var e := Exponent(a, b, n);
    Pow2Order(b, e);
    if e >= b { Pow2Mono(b, e); }
    else { Pow2Mono(e, b); }
  }

  /** New blocks double in size up to MAX_BLOCK_SIZE, and then all have that size. */
  lemma {:induction false} BlocksDouble<T>(states: seq<State<T>>, acts: seq<Action<T>>, i: nat, a: nat, b: nat)
    requires Run(states, acts) && i < |states|
    requires states[0].q.largestBlockSize == Pow2(a) && states[0].q.maxBlockSize == Pow2(b)
    ensures var q, q0 := states[i].q, states[0].q;
      && |q.blocks| >= |q0.blocks| && q.maxBlockSize == q0.maxBlockSize
      && q.largestBlockSize == Pow2(Exponent(a, b, |q.blocks| - |q0.blocks|))
      && forall x :: |q0.blocks| <= x < |q.blocks| ==>
           q.blocks[x].sizeMask + 1 == Pow2(Exponent(a, b, x + 1 - |q0.blocks|))
  {
    if i > 0 {
      BlocksDouble(states, acts, i - 1, a, b);
      var s, act := states[i - 1], acts[i - 1];
      assert Enabled(s.q, act) && states[i - 1 + 1] == After(s, act);
      BlocksStep(s, act);
      Doubles(s.q, a, b, |s.q.blocks| - |states[0].q.blocks|);
    }
  }
}
