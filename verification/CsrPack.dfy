/** The CSR generator's register packing, ahb3lite_csr/sw/ahb3lite_csr.py:149-183. */
module CsrPack {
  datatype Kind = RO | RW | W1C | WO

  datatype Field = Field(width: nat, kind: Kind, count: nat, strobe: bool)

  /** A register pointer: the register's number (its address is four times that) and the bit offset in it. */
  datatype RegPtr = RegPtr(reg: nat, off: nat)

  predicate WidthOk(f: Field) { 1 <= f.width <= 32 }

  /** The packer's variables: the registers' types so far, `off`, `pstrobe`, and every pointer handed out. */
  datatype Packing = Packing(regs: seq<Kind>, off: nat, pstrobe: bool, ptrs: seq<RegPtr>)

  const EMPTY := Packing([], 0, false, [])

  /** Lines 165-166: a new register is needed. */
  predicate NeedsReg(p: Packing, f: Field) {
    p.regs == [] || f.kind != p.regs[|p.regs| - 1] || p.off + f.width > 32 || f.strobe || p.pstrobe
  }

  function Place(p: Packing, f: Field): Packing {
    var regs := if NeedsReg(p, f) then p.regs + [f.kind] else p.regs;
    var off := if NeedsReg(p, f) then 0 else p.off;
    Packing(regs, off + f.width, f.strobe, p.ptrs + [RegPtr(|regs| - 1, off)])
  }

  /** One item per array element. */
  function Items(fields: seq<Field>): seq<Field> {
    if fields == [] then []
    else Items(fields[..|fields| - 1]) + seq(fields[|fields| - 1].count, _ => fields[|fields| - 1])
  }

  function Packed(items: seq<Field>): (p: Packing)
    ensures |p.ptrs| == |items|
  {
    if items == [] then EMPTY else Place(Packed(items[..|items| - 1]), items[|items| - 1])
  }

  /** Lines 165-180: one element. */
  method PackElement(f: Field, reg: seq<Kind>, off: nat, pstrobe: bool, ghost ptrs: seq<RegPtr>)
    returns (reg': seq<Kind>, off': nat, pstrobe': bool, ptr: RegPtr)
    ensures Packing(reg', off', pstrobe', ptrs + [ptr]) == Place(Packing(reg, off, pstrobe, ptrs), f)
  {
    reg', off' := reg, off;
    if reg == [] || f.kind != reg[|reg| - 1] || off + f.width > 32 || f.strobe || pstrobe {
      off' := 0;
      reg' := reg + [f.kind];
    }
    pstrobe' := f.strobe;
    ptr := RegPtr(|reg'| - 1, off');
    off' := off' + f.width;
  }

  /** Lines 162-180: one field's elements, after `items` have been packed. */
  method PackField(f: Field, reg: seq<Kind>, off: nat, pstrobe: bool, ghost items: seq<Field>, ghost ptrs: seq<RegPtr>)
    returns (reg': seq<Kind>, off': nat, pstrobe': bool, mine: seq<RegPtr>)
    requires Packed(items) == Packing(reg, off, pstrobe, ptrs)
    ensures |mine| == f.count
    ensures Packed(items + seq(f.count, _ => f)) == Packing(reg', off', pstrobe', ptrs + mine)
  {
    reg', off', pstrobe', mine := reg, off, pstrobe, [];
    ghost var all := items;
    assert items + seq(0, _ => f) == items;
    for n := 0 to f.count
      invariant |mine| == n && all == items + seq(n, _ => f)
      invariant Packed(all) == Packing(reg', off', pstrobe', ptrs + mine)
    {
      var ptr;
      OneItem(all, f);
      reg', off', pstrobe', ptr := PackElement(f, reg', off', pstrobe', ptrs + mine);
      assert ptrs + mine + [ptr] == ptrs + (mine + [ptr]);
      mine := mine + [ptr];
      all := all + [f];
    }
  }

  lemma OneItem(items: seq<Field>, f: Field)
    ensures Packed(items + [f]) == Place(Packed(items), f)
  {
    assert (items + [f])[..|items|] == items;
  }

  /** Each field's pointers. */
  function Rptrs(fields: seq<Field>): (r: seq<seq<RegPtr>>)
    ensures |r| == |fields|
  {
    if fields == [] then []
    else
      var front := fields[..|fields| - 1];
      Rptrs(front) + [Packed(Items(fields)).ptrs[|Items(front)|..]]
  }

  /** The packing loop. */
  method Pack(fields: seq<Field>) returns (reg: seq<Kind>, rptr: seq<seq<RegPtr>>)
    ensures |rptr| == |fields| && forall k :: 0 <= k < |fields| ==> |rptr[k]| == fields[k].count
    ensures reg == Packed(Items(fields)).regs && rptr == Rptrs(fields)
  {
    reg, rptr := [], [];
    ghost var ptrs: seq<RegPtr> := [];
    var off, pstrobe := 0, false;
    for k := 0 to |fields|
      invariant |rptr| == k && forall j :: 0 <= j < k ==> |rptr[j]| == fields[j].count
      invariant Packed(Items(fields[..k])) == Packing(reg, off, pstrobe, ptrs) && rptr == Rptrs(fields[..k])
    {
      var mine;
      reg, off, pstrobe, mine := PackField(fields[k], reg, off, pstrobe, Items(fields[..k]), ptrs);
      rptr, ptrs := rptr + [mine], ptrs + mine;
      assert fields[..k + 1][..k] == fields[..k];
      assert mine == ptrs[|Items(fields[..k])|..];
    }
    assert fields[..|fields|] == fields;
  }

  // ---------- what the packing guarantees

  /** Items i < j: in order, never overlapping, and sharing a register only when neither strobes. */
  predicate Apart(items: seq<Field>, ptrs: seq<RegPtr>, i: nat, j: nat)
    requires i < j < |items| == |ptrs|
  {
    && ptrs[i].reg <= ptrs[j].reg
    && (ptrs[i].reg == ptrs[j].reg ==>
          ptrs[i].off + items[i].width <= ptrs[j].off && !items[i].strobe && !items[j].strobe)
  }

  /** Item i lies within a register of its own type. */
  predicate Inside(items: seq<Field>, p: Packing, i: nat)
    requires i < |items| == |p.ptrs|
  {
    p.ptrs[i].reg < |p.regs| && p.ptrs[i].off + items[i].width <= 32 && p.regs[p.ptrs[i].reg] == items[i].kind
  }

  /** The last register holds everything up to `off`, and strobes if the last item does. */
  predicate AtEnd(items: seq<Field>, p: Packing)
    requires |items| == |p.ptrs|
  {
    && (items == [] <==> p.regs == [])
    && (items != [] ==>
          && p.ptrs[|items| - 1].reg == |p.regs| - 1 && p.off == p.ptrs[|items| - 1].off + items[|items| - 1].width
          && p.pstrobe == items[|items| - 1].strobe)
  }

  lemma {:induction false} PackingSound(items: seq<Field>)
    requires forall i :: 0 <= i < |items| ==> WidthOk(items[i])
    ensures var p := Packed(items);
      && AtEnd(items, p)
      && (forall i :: 0 <= i < |items| ==> Inside(items, p, i))
      && (forall i, j :: 0 <= i < j < |items| ==> Apart(items, p.ptrs, i, j))
  {
    if items != [] {
      var k := |items| - 1;
      var front, p, q := items[..k], Packed(items[..k]), Packed(items);
      PackingSound(front);
      forall i | 0 <= i < |items| ensures Inside(items, q, i) {
        if i < k { assert Inside(front, p, i); }
      }
      forall i, j | 0 <= i < j < |items| ensures Apart(items, q.ptrs, i, j) {
        if j < k { assert Apart(front, p.ptrs, i, j); }
        else if i < k - 1 { assert Apart(front, p.ptrs, i, k - 1); assert Inside(front, p, i); }
        else { assert Inside(front, p, i); }
      }
    }
  }

  // ---------- how full the registers are

  function Order(k: Kind): nat {
    match k case RO => 0 case RW => 1 case W1C => 2 case WO => 3
  }

  /** The order the generator sorts into: by type, then by falling width. */
  predicate Before(f: Field, g: Field) {
    Order(f.kind) <= Order(g.kind) && (f.kind == g.kind ==> f.width >= g.width)
  }

  predicate Sorted(items: seq<Field>) {
    |items| < 2 || (Sorted(items[..|items| - 1]) && Before(items[|items| - 2], items[|items| - 1]))
  }

  function Bits(items: seq<Field>, k: Kind): nat {
    if items == [] then 0
    else Bits(items[..|items| - 1], k) + (if items[|items| - 1].kind == k then items[|items| - 1].width else 0)
  }

  function Regs(regs: seq<Kind>, k: Kind): nat {
    if regs == [] then 0 else Regs(regs[..|regs| - 1], k) + (if regs[|regs| - 1] == k then 1 else 0)
  }

  /** Items so far of type k, none of which strobes: all registers but the last are more than half full. */
  predicate Dense(items: seq<Field>, p: Packing, k: Kind) {
    var n := Regs(p.regs, k);
    && (n > 0 ==> (n - 1) * 17 <= Bits(items, k))
    && (items != [] && items[|items| - 1].kind == k ==>
          n > 0 && (n - 1) * 17 + p.off <= Bits(items, k) && items[|items| - 1].width <= p.off && !p.pstrobe
          && p.regs != [] && p.regs[|p.regs| - 1] == k)
  }

  lemma RegsGrow(p: Packing, f: Field, k: Kind)
    ensures Regs(Place(p, f).regs, k) == Regs(p.regs, k) + (if NeedsReg(p, f) && f.kind == k then 1 else 0)
  {
    if NeedsReg(p, f) { assert (p.regs + [f.kind])[..|p.regs|] == p.regs; }
  }

  lemma {:induction false} NoneYet(items: seq<Field>, k: Kind)
    requires Sorted(items) && (items != [] ==> Order(items[|items| - 1].kind) < Order(k))
    ensures Regs(Packed(items).regs, k) == 0
  {
    if items != [] {
      var front, f := items[..|items| - 1], items[|items| - 1];
      if front != [] { LastTwo(items); }
      NoneYet(front, k);
      assert Packed(items) == Place(Packed(front), f);
      RegsGrow(Packed(front), f, k);
    }
  }

  lemma LastTwo(items: seq<Field>)
    requires Sorted(items) && |items| >= 2
    ensures var front := items[..|items| - 1];
      Sorted(front) && front[|front| - 1] == items[|items| - 2] && Before(front[|front| - 1], items[|items| - 1])
  {
  }

  lemma DenseStep(items: seq<Field>, p: Packing, f: Field, k: Kind)
    requires Dense(items, p, k) && WidthOk(f) && (f.kind == k ==> !f.strobe)
    requires f.kind == k && !(items != [] && items[|items| - 1].kind == k) ==> Regs(p.regs, k) == 0 && NeedsReg(p, f)
    requires items != [] && items[|items| - 1].kind == f.kind ==> items[|items| - 1].width >= f.width
    ensures Dense(items + [f], Place(p, f), k)
  {
    RegsGrow(p, f, k);
    assert (items + [f])[..|items|] == items;
  }

  lemma DenseNext(items: seq<Field>, f: Field, k: Kind)
    requires Sorted(items) && (items != [] ==> Before(items[|items| - 1], f)) && Dense(items, Packed(items), k)
    requires WidthOk(f) && (f.kind == k ==> !f.strobe) && forall i :: 0 <= i < |items| ==> WidthOk(items[i])
    ensures Dense(items + [f], Packed(items + [f]), k)
  {
    if f.kind == k && !(items != [] && items[|items| - 1].kind == k) { FirstOfKind(items, f); }
    DenseStep(items, Packed(items), f, k);
    OneItem(items, f);
  }

  lemma {:induction false} StaysDense(items: seq<Field>, k: Kind)
    requires Sorted(items) && forall i :: 0 <= i < |items| ==>
             WidthOk(items[i]) && (items[i].kind == k ==> !items[i].strobe)
    ensures Dense(items, Packed(items), k)
  {
    if items != [] {
      var front, f := items[..|items| - 1], items[|items| - 1];
      assert items == front + [f];
      if |items| >= 2 { LastTwo(items); }
      StaysDense(front, k);
      DenseNext(front, f, k);
    }
  }

  /** Because fields come by falling width, every register of a strobe-free type but the last is more than half
      full: n registers of the type hold at least 17 (n - 1) bits. */
  lemma MoreThanHalfFull(items: seq<Field>, k: Kind)
    requires Sorted(items) && forall i :: 0 <= i < |items| ==>
             WidthOk(items[i]) && (items[i].kind == k ==> !items[i].strobe)
    ensures (Regs(Packed(items).regs, k) - 1) * 17 <= Bits(items, k)
  {
    StaysDense(items, k);
  }

  /** The first item of a type starts its first register. */
  lemma FirstOfKind(items: seq<Field>, f: Field)
    requires Sorted(items) && forall i :: 0 <= i < |items| ==> WidthOk(items[i])
    requires items != [] ==> Order(items[|items| - 1].kind) < Order(f.kind)
    ensures NeedsReg(Packed(items), f) && Regs(Packed(items).regs, f.kind) == 0
  {
    PackingSound(items);
    if items != [] { assert Inside(items, Packed(items), |items| - 1); }
    NoneYet(items, f.kind);
  }
}
