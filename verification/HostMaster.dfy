/** The far end, ahb3lite_host_master/rtl/ahb3lite_host_master.sv: packets in, bus transfers, replies out. */
module HostMaster {
  import opened HostPacket

  datatype State = Idle | Addr | Wait | Data

  /** dati[0] is bits 7:0, the byte shifted in last, and dato[0] the byte to follow wrdata. `trans` is HTRANS at
      NONSEQ. */
  datatype Far = Far(state: State, addr: Word, cmd: nat, icnt: nat, ocnt: nat, dati: seq<nat>, dato: seq<nat>,
                     dvalid: bool, hwrite: bool, trans: bool, hsize: nat, haddr: Word, hwdata: Word, wrdata: nat)

  datatype In = In(rdempty: bool, rddata: nat, wrfull: bool, hready: bool, hrdata: Word, hresp: bool)

  predicate Shaped(f: Far) { |f.dati| == 8 && |f.dato| == 4 }

  predicate Busy(f: Far) { f.state != Idle || (f.icnt <= 1 && f.dvalid) }
  predicate Wren(f: Far, i: In) { f.ocnt != 0 && !i.wrfull }
  predicate Rden(f: Far, i: In) { !i.rdempty && !Busy(f) && !(i.wrfull || Wren(f, i)) }

  /** Addresses as numbers, for autoincrement. */
  function ToInt(w: Word): nat { ((w.b3 * 256 + w.b2) * 256 + w.b1) * 256 + w.b0 }
  function FromInt(n: nat): Word { Word(n % 256, n / 256 % 256, n / 0x1_0000 % 256, n / 0x100_0000 % 256) }

  function Stride(size: nat): nat { if size == 0 then 1 else if size == 1 then 2 else if size == 2 then 4 else 8 }

  /** The address of the access (lines 163-191). */
  function Target(f: Far): Word
    requires Shaped(f)
  {
    var d := f.dati;
    if AutoIncrement(f.cmd) then FromInt(ToInt(f.addr) + Stride(Size(f.cmd)))
    else if !Writes(f.cmd) then Word(d[0], d[1], d[2], d[3])
    else if Size(f.cmd) == 0 then Word(d[1], d[2], d[3], d[4])
    else if Size(f.cmd) == 1 then Word(d[2], d[3], d[4], d[5])
    else Word(d[4], d[5], d[6], d[7])
  }

  /** Write data on every lane it could be taken from (lines 209-215). */
  function Replicated(f: Far): Word
    requires Shaped(f)
  {
    var d := f.dati;
    if Size(f.cmd) == 0 then Word(d[0], d[0], d[0], d[0])
    else if Size(f.cmd) == 1 then Word(d[0], d[1], d[0], d[1])
    else Word(d[0], d[1], d[2], d[3])
  }

  function NextState(f: Far, i: In): State {
    match f.state
    case Idle =>
      if !f.dvalid then Idle
      else if f.icnt == 0 then (if Code(i.rddata) == 0 then Addr else Idle)
      else if f.icnt == 1 then Addr else Idle
    case Addr => Wait
    case Wait => Data
    case Data => if i.hready then Idle else Data
  }

  predicate Takes(f: Far) { f.state == Idle && f.dvalid }

  predicate Answers(f: Far, i: In) { f.state == Data && i.hready }

  function NextIcnt(f: Far, i: In): nat {
    if !Takes(f) then f.icnt else if f.icnt == 0 then Payload(Code(i.rddata)) else f.icnt - 1
  }

  /** The bytes that follow a reply's status (lines 241-268). */
  function ReplyData(f: Far, i: In): seq<nat> {
    if i.hresp || f.hwrite then [] else Reverse(Lanes(Size(f.cmd), f.haddr, i.hrdata))
  }

  function ReplyStatus(f: Far, i: In): nat {
    var ibit := f.cmd / 128 % 2;
    if i.hresp then ibit * 128 + 1 else if f.hwrite then ibit * 128 else ibit * 128 + ReadCode(Size(f.cmd)) * 16
  }

  function Drained(f: Far, i: In): seq<nat>
    requires Shaped(f)
  {
    if Wren(f, i) then f.dato[1..] + [f.dato[3]] else f.dato
  }

  function NextDato(f: Far, i: In): seq<nat>
    requires Shaped(f)
  {
    if Answers(f, i) then ReplyData(f, i) + Drained(f, i)[|ReplyData(f, i)|..] else Drained(f, i)
  }

  function Step(f: Far, i: In): Far
    requires Shaped(f)
  {
    Far(NextState(f, i),
        if f.state == Addr then Target(f) else f.addr,
        if Takes(f) && f.icnt == 0 then i.rddata else f.cmd,
        NextIcnt(f, i),
        if Answers(f, i) then 1 + |ReplyData(f, i)| else if Wren(f, i) then f.ocnt - 1 else f.ocnt,
        if Takes(f) && f.icnt != 0 then [i.rddata] + f.dati[..7] else f.dati,
        NextDato(f, i),
        Rden(f, i),
        if f.state == Addr then Writes(f.cmd) else f.hwrite,
        if f.state == Addr then true else if f.state == Wait then false else f.trans,
        if f.state == Addr then Size(f.cmd) else f.hsize,
        if f.state == Addr then Target(f) else f.haddr,
        if f.state == Wait && f.hwrite then Replicated(f) else f.hwdata,
        if Answers(f, i) then ReplyStatus(f, i) else if Wren(f, i) then f.dato[0] else f.wrdata)
  }

  lemma StaysShaped(f: Far, i: In)
    requires Shaped(f)
    ensures Shaped(Step(f, i))
  {
  }

  /** The clocked block in the order the source writes it. */
  class HostMaster {
    var state: State
    var addr: Word
    var cmd: nat
    var icnt: nat
    var ocnt: nat
    var dati: seq<nat>
    var dato: seq<nat>
    var dvalid: bool
    var hwrite: bool
    var htrans: bool
    var hsize: nat
    var haddr: Word
    var hwdata: Word
    var wrdata: nat

    function View(): Far
      reads this
    {
      Far(state, addr, cmd, icnt, ocnt, dati, dato, dvalid, hwrite, htrans, hsize, haddr, hwdata, wrdata)
    }

    constructor (hwrite: bool, hsize: nat, haddr: Word, hwdata: Word, wrdata: nat)
      ensures Shaped(View()) && state == Idle && icnt == 0 && ocnt == 0 && !dvalid && !htrans
    {
      this.hwrite, this.hsize, this.haddr, this.hwdata, this.wrdata := hwrite, hsize, haddr, hwdata, wrdata;
      state, addr, cmd, icnt, ocnt, dvalid, htrans := Idle, ZERO, 0, 0, 0, false, false;
      dati, dato := seq(8, _ => 0), seq(4, _ => 0);
    }

    method Posedge(i: In)
      requires Shaped(View())
      modifies this
      ensures View() == Step(old(View()), i)
    {
      var f := View();
      Flow(f, i);
      Machine(f, i);
    }

    method Machine(f: Far, i: In)
      requires Shaped(f) && dato == Drained(f, i) && state == f.state && addr == f.addr && cmd == f.cmd &&
               icnt == f.icnt && dati == f.dati
      requires ocnt == (if Wren(f, i) then f.ocnt - 1 else f.ocnt) &&
               wrdata == (if Wren(f, i) then f.dato[0] else f.wrdata)
      requires hwrite == f.hwrite && htrans == f.trans && hsize == f.hsize && haddr == f.haddr && hwdata == f.hwdata
      modifies this
      ensures var f' := Step(f, i);
        && state == f'.state && addr == f'.addr && cmd == f'.cmd && icnt == f'.icnt && dati == f'.dati
        && ocnt == f'.ocnt
        && dato == f'.dato && wrdata == f'.wrdata
        && hwrite == f'.hwrite && htrans == f'.trans && hsize == f'.hsize && haddr == f'.haddr && hwdata == f'.hwdata
      ensures dvalid == old(dvalid)
    {
      match f.state {
        case Idle => Takes(f, i);
        case Addr => Addresses(f);
        case Wait =>
          if f.hwrite { hwdata := Replicated(f); }
          htrans := false;
          state := Data;
        case Data => Answers(f, i);
      }
    }

    /** Lines 95-108: a byte in and a byte out. */
    method Flow(f: Far, i: In)
      requires Shaped(f) && f == View()
      modifies this`dvalid, this`wrdata, this`dato, this`ocnt
      ensures dvalid == Rden(f, i) && wrdata == (if Wren(f, i) then f.dato[0] else f.wrdata)
      ensures dato == Drained(f, i) && ocnt == if Wren(f, i) then f.ocnt - 1 else f.ocnt
    {
      dvalid := Rden(f, i);
      if Wren(f, i) {
        ocnt, wrdata := f.ocnt - 1, f.dato[0];
        dato := f.dato[1..] + [f.dato[3]];
      }
    }

    /** Lines 116-144. */
    method Takes(f: Far, i: In)
      requires Shaped(f) && f.state == Idle && state == f.state && cmd == f.cmd && icnt == f.icnt && dati == f.dati
      modifies this`state, this`cmd, this`icnt, this`dati
      ensures state == NextState(f, i) && icnt == NextIcnt(f, i)
      ensures cmd == if f.dvalid && f.icnt == 0 then i.rddata else f.cmd
      ensures dati == if f.dvalid && f.icnt != 0 then [i.rddata] + f.dati[..7] else f.dati
    {
      if f.dvalid {
        if f.icnt == 0 {
          cmd, icnt := i.rddata, Payload(Code(i.rddata));
          if Code(i.rddata) == 0 { state := Addr; }
        } else {
          dati, icnt := [i.rddata] + f.dati[..7], f.icnt - 1;
          if f.icnt == 1 { state := Addr; }
        }
      }
    }

    /** Lines 149-201. */
    method Addresses(f: Far)
      requires Shaped(f) && f.state == Addr && addr == f.addr && cmd == f.cmd && dati == f.dati
      modifies this`state, this`addr, this`hwrite, this`htrans, this`hsize, this`haddr
      ensures state == Wait && addr == Target(f) == haddr && hwrite == Writes(f.cmd) && htrans && hsize == Size(f.cmd)
    {
      var d := dati;
      if !Writes(cmd) && !AutoIncrement(cmd) {
        hwrite, haddr := false, Word(d[0], d[1], d[2], d[3]);
      } else if !Writes(cmd) {
        hwrite, haddr := false, FromInt(ToInt(f.addr) + Stride(Size(cmd)));
      } else if !AutoIncrement(cmd) {
        hwrite := true;
        if Size(cmd) == 0 { haddr := Word(d[1], d[2], d[3], d[4]); }
        else if Size(cmd) == 1 { haddr := Word(d[2], d[3], d[4], d[5]); }
        else { haddr := Word(d[4], d[5], d[6], d[7]); }
      } else {
        hwrite, haddr := true, FromInt(ToInt(f.addr) + Stride(Size(cmd)));
      }
      addr := haddr;
      htrans, hsize, state := true, Size(cmd), Wait;
    }

    /** Lines 225-279. */
    method Answers(f: Far, i: In)
      requires Shaped(f) && f.state == Data && state == f.state && dato == Drained(f, i) && |dato| == 4
      requires ocnt == (if Wren(f, i) then f.ocnt - 1 else f.ocnt) &&
               wrdata == (if Wren(f, i) then f.dato[0] else f.wrdata)
      modifies this`state, this`wrdata, this`ocnt, this`dato
      ensures state == NextState(f, i) && dato == NextDato(f, i)
      ensures ocnt == if i.hready then 1 + |ReplyData(f, i)| else if Wren(f, i) then f.ocnt - 1 else f.ocnt
      ensures wrdata == if i.hready then ReplyStatus(f, i) else if Wren(f, i) then f.dato[0] else f.wrdata
    {
      if i.hready {
        var ibit, size := f.cmd / 128 % 2, Size(f.cmd);
        if i.hresp {
          wrdata, ocnt := ibit * 128 + 1, 1;
        } else if !f.hwrite {
          LanesReversed(size, f.haddr, i.hrdata);
          if size == 0 {
            dato := Lanes(0, f.haddr, i.hrdata) + dato[1..];
            wrdata, ocnt := ibit * 128 + D1 * 16, 2;
          } else if size == 1 {
            dato := (if f.haddr.b0 / 2 % 2 == 1 then [i.hrdata.b3, i.hrdata.b2] else [i.hrdata.b1, i.hrdata.b0])
              + dato[2..];
            wrdata, ocnt := ibit * 128 + D2 * 16, 3;
          } else {
            dato := [i.hrdata.b3, i.hrdata.b2, i.hrdata.b1, i.hrdata.b0];
            wrdata, ocnt := ibit * 128 + D4 * 16, 5;
          }
        } else {
          wrdata, ocnt := ibit * 128 + D0 * 16, 1;
        }
        state := Idle;
      }
    }
  }
}
