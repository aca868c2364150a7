/** The 8N1 line between the UART transmitter and receiver: what it carries and when. */
module UartLine {
  /** A byte is its eight bits, least significant first. */
  type Byte = b: seq<bool> | |b| == 8 witness [false, false, false, false, false, false, false, false]

  /** A frame's start bit begins on clock `start`. */
  datatype Frame = Frame(start: nat, byte: Byte)

  /** Slot m of a frame: the start bit, eight data bits, then the idle level. */
  function SlotBit(b: Byte, m: nat): bool {
    if m == 0 then false else if m <= 8 then b[m - 1] else true
  }

  /** The frames in order, none starting before the last has had its stop bit. */
  predicate Spaced(f: seq<Frame>, n: nat) {
    forall i :: 1 <= i < |f| ==> f[i - 1].start + 10 * n <= f[i].start
  }

  /** The line on clock t, at n clocks a bit. */
  function Wave(f: seq<Frame>, n: nat, t: int): bool
    requires n > 0
  {
    if f == [] then true
    else
      var last := f[|f| - 1];
      if t < last.start then Wave(f[..|f| - 1], n, t) else SlotBit(last.byte, (t - last.start) / n)
  }

  function Bytes(f: seq<Frame>): (s: seq<Byte>)
    ensures |s| == |f|
    ensures forall i :: 0 <= i < |f| ==> s[i] == f[i].byte
  {
    if f == [] then [] else Bytes(f[..|f| - 1]) + [f[|f| - 1].byte]
  }

  lemma SlotAt(n: nat, m: nat, c: nat, p: nat)
    requires c < n && p == m * n + c
    ensures p / n == m
  {
    if p / n < m { MulMonotone(p / n + 1, m, n); } else if p / n > m { MulMonotone(m + 1, p / n, n); }
  }

  lemma MulMonotone(a: nat, b: nat, n: nat)
    requires a <= b
    ensures a * n <= b * n
  {
  }

  /** A clock that belongs to frame i reads that frame, whatever follows. */
  lemma {:induction false} WaveAt(f: seq<Frame>, n: nat, i: nat, t: int, m: nat, c: nat)
    requires n > 0 && i < |f| && c < n && t == f[i].start + m * n + c
    requires i + 1 < |f| ==> t < f[i + 1].start
    requires Spaced(f, n)
    ensures Wave(f, n, t) == SlotBit(f[i].byte, m)
    decreases |f|
  {
    if i == |f| - 1 {
      SlotAt(n, m, c, t - f[i].start);
    } else {
      Sorted(f, n, i + 1, |f| - 1);
      WaveAt(f[..|f| - 1], n, i, t, m, c);
    }
  }

  lemma {:induction false} Sorted(f: seq<Frame>, n: nat, i: nat, j: nat)
    requires Spaced(f, n) && i <= j < |f|
    ensures f[i].start <= f[j].start
    decreases j
  {
    if i < j { Sorted(f, n, i, j - 1); }
  }

  lemma LateSlot(p: nat, n: nat)
    requires n > 0 && p >= 9 * n
    ensures p / n >= 9
  {
    if p / n < 9 { MulMonotone(p / n + 1, 9, n); }
  }

  /** Before the first frame, and from the stop bit of one to the start of the next, the line is high. */
  lemma {:induction false} WaveHigh(f: seq<Frame>, n: nat, i: nat, t: int)
    requires n > 0 && i <= |f| && Spaced(f, n)
    requires i > 0 ==> t >= f[i - 1].start + 9 * n
    requires i < |f| ==> t < f[i].start
    ensures Wave(f, n, t)
    decreases |f|
  {
    if i < |f| {
      Sorted(f, n, i, |f| - 1);
      WaveHigh(f[..|f| - 1], n, i, t);
    } else if i > 0 {
      LateSlot(t - f[i - 1].start, n);
    }
  }

  /** A register that shifts right holds the first k + 1 bits of a byte once bit k is in. */
  lemma ShiftedIn(data: Byte, b: Byte, k: nat)
    requires k < 8 && forall j :: 8 - k <= j < 8 ==> data[j] == b[j - (8 - k)]
    ensures forall j :: 8 - (k + 1) <= j < 8 ==> (data[1..] + [b[k]])[j] == b[j - (8 - (k + 1))]
  {
    forall j | 8 - (k + 1) <= j < 8 ensures (data[1..] + [b[k]])[j] == b[j - (8 - (k + 1))] {
      if j < 7 { assert data[j + 1] == b[j + 1 - (8 - k)]; }
    }
  }
}
