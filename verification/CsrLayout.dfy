/** The two interfaces ahb3lite_csr/sw/cppwriter.py emits for a packing: the target's C struct and the host's
    accessors. */
module CsrLayout {
  import opened CsrPack

  /** A member of the emitted struct: a zero-width bit-field, a bit-field, or whole words. */
  datatype Member = Break | BitField(width: nat) | Words(count: nat)

  function MemberOf(f: Field): Member {
    if f.width != 32 then BitField(f.width) else Words(f.count)
  }

  /** What is emitted for the field after `prev`: a zero-width bit-field first if the field starts another
      register and `prev` was no whole word. */
  function Emission(prev: seq<Field>, ptrs: seq<seq<RegPtr>>, f: Field, first: RegPtr): seq<Member>
    requires |ptrs| == |prev| && (prev != [] ==> ptrs[|prev| - 1] != [])
  {
    (if prev != [] && ptrs[|prev| - 1][0].reg != first.reg && prev[|prev| - 1].width != 32 then [Break] else [])
      + [MemberOf(f)]
  }

  /** Every field has elements, and only whole words come in arrays. */
  predicate Emittable(fields: seq<Field>) {
    forall k :: 0 <= k < |fields| ==>
      WidthOk(fields[k]) && fields[k].count >= 1 && (fields[k].count > 1 ==> fields[k].width == 32)
  }

  predicate HaveFirsts(ptrs: seq<seq<RegPtr>>) { forall k :: 0 <= k < |ptrs| ==> ptrs[k] != [] }

  function Struct(fields: seq<Field>, ptrs: seq<seq<RegPtr>>): seq<Member>
    requires |ptrs| == |fields| && HaveFirsts(ptrs)
  {
    if fields == [] then []
    else
      var n := |fields| - 1;
      Struct(fields[..n], ptrs[..n]) + Emission(fields[..n], ptrs[..n], fields[n], ptrs[n][0])
  }

  /** Lines 138-154. A register is identified by its number where the source compares objects. */
  method EmitStruct(field: seq<Field>, rptr: seq<seq<RegPtr>>) returns (s: seq<Member>)
    requires |rptr| == |field| && HaveFirsts(rptr)
    ensures s == Struct(field, rptr)
  {
    s := [];
    var reg: int, pwidth := -1, 32;
    for k := 0 to |field|
      invariant s == Struct(field[..k], rptr[..k])
      invariant if k == 0 then reg == -1 && pwidth == 32 else reg == rptr[k - 1][0].reg && pwidth == field[k - 1].width
    {
      assert field[..k + 1][..k] == field[..k] && rptr[..k + 1][..k] == rptr[..k];
      if rptr[k][0].reg != reg {
        if pwidth != 32 { s := s + [Break]; }
        reg := rptr[k][0].reg;
      }
      pwidth := field[k].width;
      s := s + [MemberOf(field[k])];
    }
    assert field[..|field|] == field && rptr[..|field|] == rptr;
  }

  // ---------- the compiler's layout

  /** Section 6.7.2.1 of ISO C11 with 32-bit units filled from the low bits: a bit-field goes into the unit in
      use if it fits, else into the next; a zero-width one closes the unit; a word starts a new one. `bit` is
      the first free bit of the last of `units`, and `at` where each named member starts. */
  datatype Layout = Layout(units: nat, bit: nat, at: seq<RegPtr>)

  function Extend(l: Layout, m: Member): Layout {
    match m
    case Break => l.(bit := 32)
    case BitField(w) =>
      if l.units > 0 && l.bit + w <= 32 then Layout(l.units, l.bit + w, l.at + [RegPtr(l.units - 1, l.bit)])
      else Layout(l.units + 1, w, l.at + [RegPtr(l.units, 0)])
    case Words(n) => Layout(l.units + n, 32, l.at + [RegPtr(l.units, 0)])
  }

  function Laid(s: seq<Member>): Layout {
    if s == [] then Layout(0, 32, []) else Extend(Laid(s[..|s| - 1]), s[|s| - 1])
  }

  lemma LaidMore(s: seq<Member>, m: Member)
    ensures Laid(s + [m]) == Extend(Laid(s), m)
  {
    assert (s + [m])[..|s|] == s;
  }

  // ---------- both agree with the packer

  function Copies(f: Field, n: nat): seq<Field> { seq(n, _ => f) }

  /** The elements of a member that starts at `at`: consecutive words. */
  function Elements(at: RegPtr, n: nat): seq<RegPtr> { seq(n, (j: nat) => RegPtr(at.reg + j, at.off)) }

  predicate Grown(p: Packing, q: Packing, n: nat) {
    && |q.regs| == |p.regs| + n && (n >= 1 ==> q.off == 32) && (n == 0 ==> q == p)
    && q.ptrs == p.ptrs + Elements(RegPtr(|p.regs|, 0), n)
  }

  lemma GrowsByOne(p: Packing, q: Packing, f: Field, n: nat)
    requires Grown(p, q, n) && f.width == 32 && (p.regs != [] ==> p.off >= 1)
    ensures Grown(p, Place(q, f), n + 1)
  {
    OneWord(q, f);
    OneElement(RegPtr(|p.regs|, 0), n + 1);
  }

  /** n whole words take n new registers. */
  lemma {:induction false} WholeWords(items: seq<Field>, f: Field, n: nat)
    requires f.width == 32 && (Packed(items).regs != [] ==> Packed(items).off >= 1)
    ensures Grown(Packed(items), Packed(items + Copies(f, n)), n)
    decreases n
  {
    if n == 0 {
      assert items + Copies(f, n) == items;
    } else {
      var most := items + Copies(f, n - 1);
      assert items + Copies(f, n) == most + [f];
      WholeWords(items, f, n - 1);
      OneItem(most, f);
      GrowsByOne(Packed(items), Packed(most), f, n - 1);
    }
  }

  lemma OneWord(q: Packing, f: Field)
    requires f.width == 32 && (q.regs != [] ==> q.off >= 1)
    ensures |Place(q, f).regs| == |q.regs| + 1 && Place(q, f).off == 32
    ensures Place(q, f).ptrs == q.ptrs + [RegPtr(|q.regs|, 0)]
  {
  }

  lemma OneElement(at: RegPtr, n: nat)
    requires n >= 1
    ensures Elements(at, n) == Elements(at, n - 1) + [RegPtr(at.reg + (n - 1), at.off)]
  {
  }

  /** Where the packer stands after some fields, `r` their pointers, and where the compiler stands. */
  predicate Agrees(fields: seq<Field>, p: Packing, r: seq<seq<RegPtr>>, l: Layout) {
    && |r| == |fields| && HaveFirsts(r) && |l.at| == |fields|
    && l.units == |p.regs| && (p.regs == [] <==> fields == [])
    && (fields != [] ==>
          && l.bit == p.off >= 1
          && (fields[|fields| - 1].width == 32 ==> l.bit == 32)
          && (if fields[|fields| - 1].width == 32 then r[|fields| - 1][0].reg < |p.regs|
              else r[|fields| - 1][0].reg == |p.regs| - 1))
    && (forall k :: 0 <= k < |fields| ==> r[k] == Elements(l.at[k], fields[k].count))
  }

  /** The pointers of one more field. */
  lemma NextPtrs(fields: seq<Field>, f: Field)
    ensures Rptrs(fields + [f]) == Rptrs(fields) + [Packed(Items(fields) + Copies(f, f.count)).ptrs[|Items(fields)|..]]
    ensures Items(fields + [f]) == Items(fields) + Copies(f, f.count)
  {
    assert (fields + [f])[..|fields|] == fields;
  }

  lemma StructMore(fields: seq<Field>, ptrs: seq<seq<RegPtr>>, f: Field, mine: seq<RegPtr>)
    requires |ptrs| == |fields| && HaveFirsts(ptrs) && mine != []
    ensures HaveFirsts(ptrs + [mine])
    ensures Struct(fields + [f], ptrs + [mine]) == Struct(fields, ptrs) + Emission(fields, ptrs, f, mine[0])
  {
    assert (fields + [f])[..|fields|] == fields && (ptrs + [mine])[..|fields|] == ptrs;
  }

  /** The new field's members and pointers, from the emission on. */
  lemma LayField(fields: seq<Field>, f: Field, p: Packing, q: Packing, r: seq<seq<RegPtr>>, l: Layout,
                 mine: seq<RegPtr>)
    requires Agrees(fields, p, r, l) && WidthOk(f) && f.count >= 1 && (f.count > 1 ==> f.width == 32)
    requires if f.width == 32 then
               |q.regs| == |p.regs| + f.count && q.off == 32 && mine == Elements(RegPtr(|p.regs|, 0), f.count)
             else q == Place(p, f) && mine == [q.ptrs[|q.ptrs| - 1]]
    ensures var l1 := if |Emission(fields, r, f, mine[0])| == 2 then Extend(l, Break) else l;
      Agrees(fields + [f], q, r + [mine], Extend(l1, MemberOf(f)))
  {
    var l1 := if |Emission(fields, r, f, mine[0])| == 2 then Extend(l, Break) else l;
    var l2 := Extend(l1, MemberOf(f));
    assert l2.at == l.at + [mine[0]];
    assert mine == Elements(mine[0], f.count);
  }

  /** One more field's packing: whole words each take a register, anything narrower is a single element. */
  lemma PackMore(items: seq<Field>, f: Field)
    requires WidthOk(f) && f.count >= 1 && (f.count > 1 ==> f.width == 32) &&
             (Packed(items).regs != [] ==> Packed(items).off >= 1)
    ensures var p, q := Packed(items), Packed(items + Copies(f, f.count)); var mine := q.ptrs[|items|..];
      if f.width == 32 then
        |q.regs| == |p.regs| + f.count && q.off == 32 && mine == Elements(RegPtr(|p.regs|, 0), f.count)
      else q == Place(p, f) && mine == [q.ptrs[|q.ptrs| - 1]]
  {
    if f.width == 32 {
      WholeWords(items, f, f.count);
    } else {
      assert Copies(f, f.count) == [f];
      OneItem(items, f);
    }
  }

  lemma AgreesMore(fields: seq<Field>, f: Field)
    requires WidthOk(f) && f.count >= 1 && (f.count > 1 ==> f.width == 32)
    requires HaveFirsts(Rptrs(fields)) &&
             Agrees(fields, Packed(Items(fields)), Rptrs(fields), Laid(Struct(fields, Rptrs(fields))))
    ensures var all := fields + [f];
      HaveFirsts(Rptrs(all)) && Agrees(all, Packed(Items(all)), Rptrs(all), Laid(Struct(all, Rptrs(all))))
  {
    var items, r := Items(fields), Rptrs(fields);
    PackMore(items, f);
    NextPtrs(fields, f);
    var mine := Packed(items + Copies(f, f.count)).ptrs[|items|..];
    StructMore(fields, r, f, mine);
    LayField(fields, f, Packed(items), Packed(items + Copies(f, f.count)), r, Laid(Struct(fields, r)), mine);
    LaidEmission(fields, r, f, mine[0]);
  }

  lemma LaidEmission(fields: seq<Field>, r: seq<seq<RegPtr>>, f: Field, first: RegPtr)
    requires |r| == |fields| && HaveFirsts(r)
    ensures var e, s := Emission(fields, r, f, first), Struct(fields, r);
      Laid(s + e) == Extend(if |e| == 2 then Extend(Laid(s), Break) else Laid(s), MemberOf(f))
  {
    var e, s := Emission(fields, r, f, first), Struct(fields, r);
    if |e| == 2 {
      assert s + e == s + [Break] + [MemberOf(f)];
      LaidMore(s, Break);
      LaidMore(s + [Break], MemberOf(f));
    } else {
      LaidMore(s, MemberOf(f));
    }
  }

  lemma {:induction false} AgreesAlways(fields: seq<Field>)
    requires Emittable(fields)
    ensures HaveFirsts(Rptrs(fields)) &&
            Agrees(fields, Packed(Items(fields)), Rptrs(fields), Laid(Struct(fields, Rptrs(fields))))
  {
    if fields != [] {
      var front, f := fields[..|fields| - 1], fields[|fields| - 1];
      assert fields == front + [f];
      AgreesAlways(front);
      AgreesMore(front, f);
    }
  }

  /** The emitted struct, laid out by the compiler, puts every field and every array element at the word and bit
      the packer gave it, in as many words as there are registers. */
  lemma StructMatchesPacking(fields: seq<Field>)
    requires Emittable(fields)
    ensures HaveFirsts(Rptrs(fields))
    ensures var l := Laid(Struct(fields, Rptrs(fields)));
      && l.units == |Packed(Items(fields)).regs| && |l.at| == |fields|
      && forall k :: 0 <= k < |fields| ==> Rptrs(fields)[k] == Elements(l.at[k], fields[k].count)
  {
    AgreesAlways(fields);
  }

  // ---------- the accessors

  type Word = w: seq<bool> | |w| == 32 witness seq(32, _ => false)

  function Shr(x: Word, n: nat): Word { seq(32, i requires 0 <= i < 32 => i + n < 32 && x[i + n]) }
  function Shl(x: Word, n: nat): Word { seq(32, i requires 0 <= i < 32 => i >= n && x[i - n]) }
  function And(x: Word, y: Word): Word { seq(32, i requires 0 <= i < 32 => x[i] && y[i]) }
  function Or(x: Word, y: Word): Word { seq(32, i requires 0 <= i < 32 => x[i] || y[i]) }
  function Not(x: Word): Word { seq(32, i requires 0 <= i < 32 => !x[i]) }

  /** 2^width - 1 */
  function Mask(width: nat): Word { seq(32, i requires 0 <= i < 32 => i < width) }

  /** Registers as the host sees them: what was written last. */
  class Host {
    var regs: seq<Word>

    constructor (regs: seq<Word>)
      ensures this.regs == regs
    {
      this.regs := regs;
    }

    /** Lines 83-94: the read accessor gives the field's bits of its register, and zeros above them. */
    method Get(f: Field, at: RegPtr) returns (val: Word)
      requires at.reg < |regs|
      ensures val == Got(regs, f, at)
      ensures forall k :: 0 <= k < 32 ==> val[k] == (k < f.width && at.off + k < 32 && regs[at.reg][at.off + k])
    {
      val := And(Shr(regs[at.reg], at.off), Mask(f.width));
    }

    /** Lines 97-129: the write accessor. What was written reads back, cut to the field's width, no other register
        changes, and unless the field is write-only no bit outside it does. A write-only field's register is not
        read first: the bits below the field are cleared, and those above it take the rest of the value. */
    method Set(f: Field, at: RegPtr, val: Word)
      requires at.reg < |regs|
      modifies this
      ensures regs == WithSet(old(regs), f, at, val)
      ensures at.off + f.width <= 32 ==> Got(regs, f, at) == And(val, Mask(f.width))
      ensures forall r :: 0 <= r < |regs| && r != at.reg ==> regs[r] == old(regs)[r]
      ensures f.kind == WO ==> forall k :: 0 <= k < 32 ==> regs[at.reg][k] == (k >= at.off && val[k - at.off])
      ensures f.kind != WO && at.off + f.width <= 32 ==>
        forall k :: 0 <= k < 32 && !(at.off <= k < at.off + f.width) ==> regs[at.reg][k] == old(regs)[at.reg][k]
    {
      if f.width != 32 && f.kind != WO {
        var p := regs[at.reg];
        p := And(p, Not(Shl(Mask(f.width), at.off)));
        p := Or(p, Shl(And(val, Mask(f.width)), at.off));
        regs := regs[at.reg := p];
      } else {
        regs := regs[at.reg := Shl(val, at.off)];
      }
      assert regs[at.reg] == WithSet(old(regs), f, at, val)[at.reg];
    }

    /** Lines 89-94: the read accessor of an array, whose elements are where `at` says. */
    method GetElement(f: Field, at: seq<RegPtr>, idx: nat) returns (val: Word)
      requires forall k :: 0 <= k < |at| ==> at[k].reg < |regs|
      ensures if idx < |at| then val == Got(regs, f, at[idx]) else val == Mask(0)
    {
      if idx >= |at| { return Mask(0); }
      val := Get(f, at[idx]);
    }

    /** Lines 114-129: its write accessor. */
    method SetElement(f: Field, at: seq<RegPtr>, idx: nat, val: Word)
      requires forall k :: 0 <= k < |at| ==> at[k].reg < |regs|
      modifies this
      ensures regs == if idx < |at| then WithSet(old(regs), f, at[idx], val) else old(regs)
    {
      if idx >= |at| { return; }
      Set(f, at[idx], val);
    }
  }

  /** The field's bits of its register. */
  function Got(regs: seq<Word>, f: Field, at: RegPtr): Word
    requires at.reg < |regs|
  {
    seq(32, k requires 0 <= k < 32 => k < f.width && at.off + k < 32 && regs[at.reg][at.off + k])
  }

  /** Bit k of a field's register once `val` is written: a field of a whole word, or a write-only one, is written
      without reading its register first. */
  predicate BitSet(p: Word, f: Field, off: nat, val: Word, k: nat)
    requires k < 32
  {
    var whole := f.width == 32 || f.kind == WO;
    if off <= k && (whole || k < off + f.width) then val[k - off] else !whole && p[k]
  }

  function WithSet(regs: seq<Word>, f: Field, at: RegPtr, val: Word): (r: seq<Word>)
    requires at.reg < |regs|
    ensures |r| == |regs|
  {
    regs[at.reg := seq(32, k requires 0 <= k < 32 => BitSet(regs[at.reg], f, at.off, val, k))]
  }

  /** For any packing: a field reads back what was written to it, cut to its width; every other field reads
      what it did; and the last of two writes stands. */
  lemma AccessorLaws(items: seq<Field>, regs: seq<Word>, i: nat, j: nat, v: Word, v': Word)
    requires forall k :: 0 <= k < |items| ==> WidthOk(items[k])
    requires |regs| == |Packed(items).regs| && i < |items| && j < |items| && i != j && items[i].kind == RW
    ensures var at := Packed(items).ptrs; var f, g := items[i], items[j];
      && at[i].reg < |regs| && at[j].reg < |regs|
      && Got(WithSet(regs, f, at[i], v), f, at[i]) == And(v, Mask(f.width))
      && Got(WithSet(regs, f, at[i], v), g, at[j]) == Got(regs, g, at[j])
      && WithSet(WithSet(regs, f, at[i], v), f, at[i], v') == WithSet(regs, f, at[i], v')
  {
    var at := Packed(items).ptrs;
    PackingSound(items);
    assert Inside(items, Packed(items), i) && Inside(items, Packed(items), j);
    SetThenGet(regs, items[i], at[i], v);
    assert if i < j then Apart(items, at, i, j) else Apart(items, at, j, i);
    OthersUntouched(regs, items[i], at[i], items[j], at[j], v);
    SetTwice(regs, items[i], at[i], v, v');
  }

  lemma SetThenGet(regs: seq<Word>, f: Field, at: RegPtr, v: Word)
    requires WidthOk(f) && f.kind != WO && at.reg < |regs| && at.off + f.width <= 32
    ensures Got(WithSet(regs, f, at, v), f, at) == And(v, Mask(f.width))
  {
  }

  lemma OthersUntouched(regs: seq<Word>, f: Field, at: RegPtr, g: Field, to: RegPtr, v: Word)
    requires WidthOk(f) && WidthOk(g) && f.kind != WO && at.reg < |regs| && to.reg < |regs|
    requires at.off + f.width <= 32 && to.off + g.width <= 32
    requires at.reg == to.reg ==> at.off + f.width <= to.off || to.off + g.width <= at.off
    ensures Got(WithSet(regs, f, at, v), g, to) == Got(regs, g, to)
  {
  }

  lemma SetTwice(regs: seq<Word>, f: Field, at: RegPtr, v: Word, v': Word)
    requires WidthOk(f) && f.kind != WO && at.reg < |regs| && at.off + f.width <= 32
    ensures WithSet(WithSet(regs, f, at, v), f, at, v') == WithSet(regs, f, at, v')
  {
    var twice, once := WithSet(WithSet(regs, f, at, v), f, at, v'), WithSet(regs, f, at, v');
    assert twice[at.reg] == once[at.reg];
  }
}
