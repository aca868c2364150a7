/** The command and register layouts of arm_debug/rtl/adiv5_pkg.sv, and the MEM-AP they address: chapter C2
    of ARM IHI 0031E. */
module Adiv5 {
  const WORD_END: nat := 0x1_0000_0000

  /** SELECT: bits 31:24, 23:8, 7:4 and 3:0. */
  datatype Sel = Sel(apsel: nat, res: nat, apbank: nat, dpbank: nat)

  /** CSW: bits 31:6, 5:4 (autoinc), 3 and 2:0 (width). */
  datatype Csw = Csw(high: nat, inc: nat, bit3: nat, width: nat)

  predicate SelFits(s: Sel) { s.apsel < 0x100 && s.res < 0x1_0000 && s.apbank < 16 && s.dpbank < 16 }
  predicate CswFits(c: Csw) { c.high < 0x400_0000 && c.inc < 4 && c.bit3 < 2 && c.width < 8 }

  function SelWord(s: Sel): nat { s.apsel * 0x100_0000 + s.res * 0x100 + s.apbank * 16 + s.dpbank }
  function WordSel(w: nat): Sel { Sel(w / 0x100_0000, w / 0x100 % 0x1_0000, w / 16 % 16, w % 16) }
  function CswWord(c: Csw): nat { c.high * 64 + c.inc * 16 + c.bit3 * 8 + c.width }
  function WordCsw(w: nat): Csw { Csw(w / 64, w / 16 % 4, w / 8 % 2, w % 8) }

  lemma SelRoundTrip(s: Sel)
    requires SelFits(s)
    ensures WordSel(SelWord(s)) == s
  {
    var w := SelWord(s);
    assert w / 0x100_0000 == s.apsel;
    assert w / 0x100 == s.apsel * 0x1_0000 + s.res;
    assert w / 0x100 % 0x1_0000 == s.res;
    assert w / 16 == (s.apsel * 0x1_0000 + s.res) * 16 + s.apbank;
    assert w / 16 % 16 == s.apbank;
  }

  lemma CswRoundTrip(c: Csw)
    requires CswFits(c)
    ensures WordCsw(CswWord(c)) == c
  {
    var w := CswWord(c);
    assert w / 64 == c.high;
    assert w / 16 == c.high * 4 + c.inc;
    assert w / 16 % 4 == c.inc;
    assert w / 8 == (c.high * 4 + c.inc) * 2 + c.bit3;
    assert w / 8 % 2 == c.bit3;
  }

  function Add32(a: nat, b: nat): nat {
    if a + b < WORD_END then a + b else a + b - WORD_END
  }

  const INC_SINGLE: nat := 1
  const WIDTH_WORD: nat := 2

  /** Six-bit register addresses: the bank is bits 5:2. */
  const DP_SELECT: nat := 2
  const AP_CSW: nat := 0
  const AP_TAR: nat := 1
  const AP_DRW: nat := 3
  const AP_BD0: nat := 4

  predicate BankMatch(sel: Sel, addr: nat) { addr / 4 == sel.apbank }

  /** A queued command: data, addr, APnDP and RnW. */
  datatype Cmd = Cmd(data: nat, addr: nat, ap: bool, read: bool)

  function ApWrite(addr: nat, data: nat): Cmd { Cmd(data, addr % 4, true, false) }
  function ApRead(addr: nat): Cmd { Cmd(0, addr % 4, true, true) }
  function DpWrite(addr: nat, data: nat): Cmd { Cmd(data, addr % 4, false, false) }

  // ---------- the target

  /** SELECT, and the MEM-AP's CSW increment mode, CSW width and TAR. */
  datatype Target = Target(sel: Sel, inc: nat, width: nat, tar: nat)

  /** A memory access on the target's bus: the data is that of a write. */
  datatype Access = Access(write: bool, addr: nat, size: nat, data: nat)

  datatype Effect = None | Some(access: Access)

  /** 1 << width */
  function Bytes(width: nat): nat {
    if width == 0 then 1 else 2 * Bytes(width - 1)
  }

  /** The offsets of the MEM-AP's registers, and of the debug port's SELECT, in bytes. */
  const CSW_OFFSET: nat := 0x00
  const TAR_OFFSET: nat := 0x04
  const DRW_OFFSET: nat := 0x0C
  const BD_OFFSETS: set<nat> := {0x10, 0x14, 0x18, 0x1C}
  const SELECT_OFFSET: nat := 0x8

  /** The AP register a command names: the bank is in SELECT, A[3:2] in the command. */
  function Offset(t: Target, c: Cmd): nat { t.sel.apbank * 16 + c.addr * 4 }

  /** TAR after a data access. It counts through the whole word, which the architecture promises only for its
      low ten bits. */
  function Incremented(t: Target): nat {
    if t.inc == INC_SINGLE then Add32(t.tar, Bytes(t.width)) else t.tar
  }

  /** What a command does to the debug port and to the access port `ap`. */
  function Apply(ap: nat, t: Target, c: Cmd): Target {
    if !c.ap then (if !c.read && c.addr * 4 == SELECT_OFFSET then t.(sel := WordSel(c.data)) else t)
    else if t.sel.apsel != ap then t
    else if Offset(t, c) == DRW_OFFSET then t.(tar := Incremented(t))
    else if c.read then t
    else if Offset(t, c) == CSW_OFFSET then t.(inc := WordCsw(c.data).inc, width := WordCsw(c.data).width)
    else if Offset(t, c) == TAR_OFFSET then t.(tar := c.data)
    else t
  }

  /** The memory access a command makes: DRW at TAR, BD0 to BD3 within TAR's sixteen bytes. */
  function EffectOf(ap: nat, t: Target, c: Cmd): Effect {
    if !c.ap || t.sel.apsel != ap then None
    else if Offset(t, c) == DRW_OFFSET then Some(Access(!c.read, t.tar, t.width, if c.read then 0 else c.data))
    else if Offset(t, c) in BD_OFFSETS then
      Some(Access(!c.read, t.tar / 16 * 16 + Offset(t, c) % 16, t.width, if c.read then 0 else c.data))
    else None
  }

  function After(ap: nat, t: Target, cmds: seq<Cmd>): Target {
    if cmds == [] then t else Apply(ap, After(ap, t, cmds[..|cmds| - 1]), cmds[|cmds| - 1])
  }

  /** Every access a run of commands makes, in order. */
  function Accesses(ap: nat, t: Target, cmds: seq<Cmd>): seq<Access> {
    if cmds == [] then []
    else
      var (front, c) := (cmds[..|cmds| - 1], cmds[|cmds| - 1]);
      match EffectOf(ap, After(ap, t, front), c)
      case None => Accesses(ap, t, front)
      case Some(a) => Accesses(ap, t, front) + [a]
  }

  lemma OneMore(ap: nat, t: Target, cmds: seq<Cmd>, c: Cmd)
    ensures After(ap, t, cmds + [c]) == Apply(ap, After(ap, t, cmds), c)
    ensures Accesses(ap, t, cmds + [c]) ==
      match EffectOf(ap, After(ap, t, cmds), c)
      case None => Accesses(ap, t, cmds)
      case Some(a) => Accesses(ap, t, cmds) + [a]
  {
    assert (cmds + [c])[..|cmds|] == cmds;
  }
}
