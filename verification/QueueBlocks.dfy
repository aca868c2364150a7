/** One block of the reader/writer queue: a circular buffer that wastes one slot
    (verilator_utils/readerwriterqueue.h:681-727), and the sequence of live slots it holds. */
module QueueBlocks {
  import opened Wrappers

  /** A slot is `None` while it is raw memory and `Some` while it holds a constructed object. */
  datatype Block<T> = Block(
    front: nat, localTail: nat,
    tail: nat, localFront: nat,
    next: Option<nat>,
    data: seq<Option<T>>,
    sizeMask: nat)

  /** `(i + 1) & sizeMask` for an index within a power-of-two block; see CeilToPow2.MaskedIncrement. */
  function NextIndex(i: nat, mask: nat): nat {
    if i == mask then 0 else i + 1
  }

  /** How many steps of NextIndex lead from one index to another: `(to - from) & sizeMask`. */
  function Dist(from: nat, to: nat, mask: nat): nat
    requires from <= mask
  {
    if from <= to then to - from else to + mask + 1 - from
  }

  function Advance(i: nat, j: nat, mask: nat): nat
    requires i <= mask && j <= mask
  {
    if i + j <= mask then i + j else i + j - mask - 1
  }

  ghost predicate BlockOk<T>(b: Block<T>) {
    && 1 <= b.sizeMask
    && |b.data| == b.sizeMask + 1
    && b.front <= b.sizeMask && b.tail <= b.sizeMask
    && b.localFront <= b.sizeMask && b.localTail <= b.sizeMask
  }

  function Count<T>(b: Block<T>): nat
    requires b.front <= b.sizeMask
  {
    Dist(b.front, b.tail, b.sizeMask)
  }

  /** The slots from `front` up to `tail`, in queue order. */
  ghost function Window<T>(b: Block<T>): (w: seq<Option<T>>)
    requires BlockOk(b)
    ensures |w| == Count(b)
  {
    seq(Count(b), j requires 0 <= j < Count(b) => b.data[Advance(b.front, j, b.sizeMask)])
  }

  ghost predicate InWindow<T>(b: Block<T>, j: nat)
    requires BlockOk(b)
  {
    j <= b.sizeMask && Dist(b.front, j, b.sizeMask) < Count(b)
  }

  ghost predicate AllOk<T>(blocks: seq<Block<T>>) {
    forall i :: 0 <= i < |blocks| ==> BlockOk(blocks[i])
  }

  ghost predicate Allocated<T>(blocks: seq<Block<T>>, ids: seq<nat>) {
    forall i :: 0 <= i < |ids| ==> ids[i] < |blocks|
  }

  /** The live slots of a run of blocks, oldest block first. */
  ghost function Flat<T>(blocks: seq<Block<T>>, ids: seq<nat>): seq<Option<T>>
    requires AllOk(blocks) && Allocated(blocks, ids)
  {
    if ids == [] then [] else Window(blocks[ids[0]]) + Flat(blocks, ids[1..])
  }

  // ---------- windows under the four ways a block changes

  /** Publishing the constructed slot at `tail` appends it. */
  lemma WindowPush<T>(b: Block<T>, b': Block<T>)
    requires BlockOk(b) && NextIndex(b.tail, b.sizeMask) != b.front
    requires b' == b.(tail := NextIndex(b.tail, b.sizeMask), localTail := b'.localTail)
    requires b'.localTail <= b.sizeMask
    ensures BlockOk(b') && Window(b') == Window(b) + [b.data[b.tail]]
  {
  }

  /** Advancing `front` drops the oldest slot. */
  lemma WindowPop<T>(b: Block<T>, b': Block<T>)
    requires BlockOk(b) && b.front != b.tail
    requires b' == b.(front := NextIndex(b.front, b.sizeMask))
    ensures BlockOk(b') && Window(b') == Window(b)[1..]
  {
  }

  /** Writing a slot outside the window is invisible. */
  lemma WindowWriteOutside<T>(b: Block<T>, b': Block<T>, j: nat, x: Option<T>)
    requires BlockOk(b) && j <= b.sizeMask && !InWindow(b, j)
    requires b' == b.(data := b.data[j := x])
    ensures BlockOk(b') && Window(b') == Window(b)
  {
  }

  /** Writing the oldest slot changes only the head. */
  lemma WindowWriteFront<T>(b: Block<T>, b': Block<T>, x: Option<T>)
    requires BlockOk(b) && b.front != b.tail
    requires b' == b.(data := b.data[b.front := x])
    ensures BlockOk(b') && Window(b') == [x] + Window(b)[1..]
  {
  }

  // ---------- runs of blocks

  lemma {:induction false} FlatConcat<T>(blocks: seq<Block<T>>, a: seq<nat>, b: seq<nat>)
    requires AllOk(blocks) && Allocated(blocks, a) && Allocated(blocks, b)
    ensures Flat(blocks, a + b) == Flat(blocks, a) + Flat(blocks, b)
  {
    if a == [] {
      assert a + b == b;
    } else {
      FlatConcat(blocks, a[1..], b);
      assert (a + b)[1..] == a[1..] + b;
    }
  }

  lemma {:induction false} FlatFrame<T>(blocks: seq<Block<T>>, blocks': seq<Block<T>>, ids: seq<nat>)
    requires AllOk(blocks) && Allocated(blocks, ids)
    requires AllOk(blocks') && Allocated(blocks', ids)
    requires forall i :: 0 <= i < |ids| ==> Window(blocks[ids[i]]) == Window(blocks'[ids[i]])
    ensures Flat(blocks, ids) == Flat(blocks', ids)
  {
    if ids != [] {
      FlatFrame(blocks, blocks', ids[1..]);
    }
  }

  lemma {:induction false} FlatLength<T>(blocks: seq<Block<T>>, ids: seq<nat>, m: nat)
    requires AllOk(blocks) && Allocated(blocks, ids)
    requires forall i :: 0 <= i < |ids| ==> Count(blocks[ids[i]]) >= m
    ensures |Flat(blocks, ids)| >= |ids| * m
  {
    if ids != [] {
      FlatLength(blocks, ids[1..], m);
      assert |ids| * m == m + |ids[1..]| * m;
    }
  }
}
