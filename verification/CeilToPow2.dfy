/** The bit-smearing round-up of verilator_utils/readerwriterqueue.h:640-652, over 64-bit size_t. */
module CeilToPow2 {
  const SIZE_MAX: nat := 0xFFFF_FFFF_FFFF_FFFF

  function Pow2(n: nat): (p: nat)
    ensures p >= 1
  {
    if n == 0 then 1 else 2 * Pow2(n - 1)
  }

  /** Bitwise or of two naturals. */
  function Or(a: nat, b: nat): nat
    decreases a + b
  {
    if a == 0 && b == 0 then 0
    else 2 * Or(a / 2, b / 2) + (if a % 2 == 1 || b % 2 == 1 then 1 else 0)
  }

  /** x >> m */
  function Shr(x: nat, m: nat): nat {
    if m == 0 then x else Shr(x / 2, m - 1)
  }

  /** r is the least power of two at or above x. */
  ghost predicate IsLeastPow2(r: nat, x: nat) {
    && x <= r
    && (exists k: nat :: r == Pow2(k))
    && (forall j: nat :: x <= Pow2(j) ==> r <= Pow2(j))
  }

  function Rest(L: nat, m: nat): nat {
    if m <= L then L - m else 0
  }

  /** The top m (or all, if fewer) of the L bits of y are ones. */
  ghost predicate TopOnes(y: nat, L: nat, m: nat) {
    Pow2(L) - Pow2(Rest(L, m)) <= y < Pow2(L)
  }

  lemma {:induction false} Pow2Add(a: nat, b: nat)
    ensures Pow2(a + b) == Pow2(a) * Pow2(b)
  {
    if a != 0 {
      Pow2Add(a - 1, b);
      assert Pow2(a + b) == 2 * (Pow2(a - 1) * Pow2(b)) == (2 * Pow2(a - 1)) * Pow2(b);
    }
  }

  lemma {:induction false} Pow2Mono(a: nat, b: nat)
    requires a <= b
    ensures Pow2(a) <= Pow2(b)
    ensures a < b ==> 2 * Pow2(a) <= Pow2(b)
  {
    if a < b { Pow2Mono(a, b - 1); }
  }

  lemma Pow2Order(a: nat, b: nat)
    ensures Pow2(b) < Pow2(a) ==> b < a
  {
    if a <= b { Pow2Mono(a, b); }
  }

  lemma {:induction false} OrBounds(a: nat, b: nat, p: nat)
    requires a < Pow2(p) && b < Pow2(p)
    ensures b <= Or(a, b) < Pow2(p)
    decreases p
  {
    if p == 0 || (a == 0 && b == 0) {
    } else {
      OrBounds(a / 2, b / 2, p - 1);
    }
  }

  /** Or-ing in a number below 2^p leaves the bits from p up alone. */
  lemma {:induction false} OrKeepsHigh(h: nat, lo: nat, z: nat, p: nat)
    requires lo < Pow2(p) && z < Pow2(p)
    ensures Or(h * Pow2(p) + lo, z) == h * Pow2(p) + Or(lo, z)
    decreases p
  {
    if p == 0 {
      assert lo == 0 && z == 0;
      OrZero(h);
    } else {
      var q := Pow2(p - 1);
      var a := h * Pow2(p) + lo;
      assert a == 2 * (h * q) + lo;
      OrKeepsHigh(h, lo / 2, z / 2, p - 1);
      assert a / 2 == h * q + lo / 2 && a % 2 == lo % 2;
    }
  }

  lemma OrOntoOnes(h: nat, y: nat, z: nat, p: nat)
    requires h * Pow2(p) <= y < h * Pow2(p) + Pow2(p) && z < Pow2(p)
    ensures h * Pow2(p) + z <= Or(y, z) < h * Pow2(p) + Pow2(p)
  {
    OrKeepsHigh(h, y - h * Pow2(p), z, p);
    OrBounds(y - h * Pow2(p), z, p);
  }

  lemma {:induction false} OrZero(h: nat)
    ensures Or(h, 0) == h
  {
    if h != 0 { OrZero(h / 2); }
  }

  lemma MulDistributes(a: int, b: int, c: int)
    ensures (a - b) * c == a * c - b * c
  {
  }

  lemma {:induction false} ShrBounds(y: nat, m: nat, q: nat)
    ensures q * Pow2(m) <= y <==> q <= Shr(y, m)
    decreases m
  {
    if m != 0 {
      assert q * Pow2(m) == 2 * (q * Pow2(m - 1));
      ShrBounds(y / 2, m - 1, q);
    }
  }

  /** Shifted right by m, the top m bits of y are ones at the top of the remaining L - m. */
  lemma ShiftedOnes(y: nat, L: nat, m: nat)
    requires 1 <= m < L && TopOnes(y, L, m)
    ensures TopOnes(Shr(y, m), L - m, m)
  {
    var p, rest := L - m, Rest(L - m, m);
    Pow2Add(p, m);
    ShrBounds(y, m, Pow2(p));
    if m <= p {
      Pow2Add(rest, m);
      Pow2Mono(rest, p);
      MulDistributes(Pow2(p), Pow2(rest), Pow2(m));
      ShrBounds(y, m, Pow2(p) - Pow2(rest));
    } else {
      Pow2Mono(p, m);
      MulDistributes(Pow2(p), 1, Pow2(m));
      ShrBounds(y, m, Pow2(p) - 1);
    }
  }

  lemma SmearAll(y: nat, L: nat, m: nat)
    requires 1 <= m && L <= m && TopOnes(y, L, m)
    ensures TopOnes(Or(y, Shr(y, m)), L, 2 * m)
  {
    Pow2Mono(L, m);
    ShrBounds(y, m, 1);
    OrZero(y);
  }

  lemma SmearSome(y: nat, L: nat, m: nat)
    requires 1 <= m < L && TopOnes(y, L, m)
    ensures TopOnes(Or(y, Shr(y, m)), L, 2 * m)
  {
    var p, z := L - m, Shr(y, m);
    ShiftedOnes(y, L, m);
    assert Rest(p, m) == Rest(L, 2 * m);
    assert z < Pow2(p);
    var h := Pow2(m) - 1;
    assert h * Pow2(p) == Pow2(L) - Pow2(p) by {
      Pow2Add(m, p);
      MulDistributes(Pow2(m), 1, Pow2(p));
    }
    OrOntoOnes(h, y, z, p);
  }

  /** One smearing step, `x |= x >> m`, doubles the run of ones at the top. */
  method Smear(y: nat, m: nat, ghost L: nat) returns (r: nat)
    requires m >= 1 && TopOnes(y, L, m)
    ensures r == Or(y, Shr(y, m))
    ensures TopOnes(r, L, 2 * m)
  {
    r := Or(y, Shr(y, m));
    if m >= L { SmearAll(y, L, m); } else { SmearSome(y, L, m); }
  }

  lemma {:induction false} BitLength(y: nat) returns (L: nat)
    ensures TopOnes(y, L, 1)
    ensures forall j: nat :: y < Pow2(j) ==> L <= j
  {
    if y == 0 {
      L := 0;
    } else {
      var L' := BitLength(y / 2);
      L := L' + 1;
      forall j: nat | y < Pow2(j) ensures L <= j {
        if j == 0 { } else { assert y / 2 < Pow2(j - 1); }
      }
    }
  }

  lemma Pow2Square(a: nat, p: nat)
    requires Pow2(a) == p
    ensures Pow2(a + a) == p * p
  {
    Pow2Add(a, a);
  }

  lemma SizeMaxIsPow2()
    ensures Pow2(64) == SIZE_MAX + 1 && Pow2(63) == 0x8000_0000_0000_0000
  {
    var a: nat :| a == 8;
    Pow2Square(a, 256);
    Pow2Square(2 * a, 0x1_0000);
    Pow2Square(4 * a, 0x1_0000_0000);
    assert Pow2(8 * a) == 2 * Pow2(8 * a - 1);
  }

  /** Once 64 bits are smeared, adding one gives the power of two, or wraps. */
  lemma IncrementOnes(x: nat, y0: nat, y: nat, L: nat)
    requires x <= SIZE_MAX && y0 == (if x == 0 then SIZE_MAX else x - 1)
    requires TopOnes(y0, L, 1) && forall j: nat :: y0 < Pow2(j) ==> L <= j
    requires TopOnes(y, L, 64)
    ensures y <= SIZE_MAX
    ensures 1 <= x <= 0x8000_0000_0000_0000 ==> y < SIZE_MAX && IsLeastPow2(y + 1, x)
    ensures !(1 <= x <= 0x8000_0000_0000_0000) ==> y == SIZE_MAX
  {
    SizeMaxIsPow2();
    assert y0 < Pow2(64);
    Pow2Mono(L, 64);
    if 1 <= x <= 0x8000_0000_0000_0000 {
      assert y0 < Pow2(63);
      Pow2Mono(L, 63);
      assert y + 1 == Pow2(L);
      forall j: nat | x <= Pow2(j) ensures y + 1 <= Pow2(j) {
        Pow2Mono(L, j);
      }
    } else {
      Pow2Order(L, 63);
    }
  }

  /** For 1 <= x <= 2^63 the result is the least power of two at or above x; for every other
      size_t value (0, or above 2^63) the final increment wraps and the result is 0. */
  method CeilToPow2(x: nat) returns (r: nat)
    requires x <= SIZE_MAX
    ensures 1 <= x <= 0x8000_0000_0000_0000 ==> IsLeastPow2(r, x)
    ensures !(1 <= x <= 0x8000_0000_0000_0000) ==> r == 0
  {
    var y: nat := if x == 0 then SIZE_MAX else x - 1;
    ghost var y0 := y;
    ghost var L := BitLength(y);
    y := Smear(y, 1, L);
    y := Smear(y, 2, L);
    y := Smear(y, 4, L);
    var i: nat := 1;
    while i < 8
      invariant i == 1 || i == 2 || i == 4 || i == 8
      invariant TopOnes(y, L, 8 * i)
      decreases 8 - i
    {
      y := Smear(y, 8 * i, L);
      i := 2 * i;
    }
    IncrementOnes(x, y0, y, L);
    r := if y == SIZE_MAX then 0 else y + 1;
  }

  /** Masking with `size - 1` wraps an in-range index exactly at the end of a power-of-two block:
      the justification for QueueBlocks.NextIndex. */
  lemma MaskedIncrement(x: bv64, mask: bv64)
    requires mask & (mask + 1) == 0 && x <= mask
    ensures (x + 1) & mask == if x == mask then 0 else x + 1
  {
  }
}
