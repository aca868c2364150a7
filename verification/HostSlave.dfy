/** The near end, ahb3lite_host_slave/rtl/ahb3lite_host_slave.sv: bus transfers out as packets, replies back. */
module HostSlave {
  import opened HostPacket

  datatype State = Idle | WaitData | WaitResp | AhbResp | ErrDelay

  /** dati[0] is bits 7:0, the byte shifted in last, and dato[0] the byte to go out next. */
  datatype Near = Near(state: State, icnt: nat, ocnt: nat, dati: seq<nat>, dato: seq<nat>, dvalid: bool,
                       size: nat, write: bool, addr: Word, ready: bool, error: bool, hrdata: Word,
                       wren: bool, wrdata: nat)

  datatype Request = Quiet | Request(write: bool, addr: Word, size: nat)

  datatype In = In(rdempty: bool, rddata: nat, wrfull: bool, request: Request, hwdata: Word)

  predicate Shaped(n: Near) { |n.dati| == 5 && |n.dato| == 9 }

  predicate Rden(n: Near, i: In) { !i.rdempty && n.icnt != 0 }

  predicate Sending(n: Near, i: In) { n.ocnt != 0 && !i.wrfull }

  function Shifted(n: Near, i: In): seq<nat>
    requires Shaped(n)
  {
    if Sending(n, i) then n.dato[1..] + [0] else n.dato
  }

  /** The status bit lies above as much data as the transfer reads. */
  predicate Failed(n: Near)
    requires Shaped(n)
  {
    n.dati[if n.write then 0 else LaneCount(n.size)] % 2 == 1
  }

  function ReadBytes(ibit: nat, addr: Word, size: nat): seq<nat> {
    [Header(ibit, D4, false, size), addr.b3, addr.b2, addr.b1, addr.b0]
  }

  function WriteBytes(ibit: nat, write: bool, addr: Word, size: nat, hwdata: Word): seq<nat> {
    [Header(ibit, WriteCode(size), write, size), addr.b3, addr.b2, addr.b1, addr.b0]
      + Reverse(Lanes(size, addr, hwdata))
  }

  /** A read's data on every lane it could be taken from. */
  function Spread(size: nat, d: seq<nat>): Word
    requires |d| >= 4
  {
    if size == 0 then Word(d[0], d[0], d[0], d[0])
    else if size == 1 then Word(d[0], d[1], d[0], d[1])
    else Word(d[0], d[1], d[2], d[3])
  }

  predicate Starts(n: Near, i: In) { n.state == Idle && i.request.Request? }

  /** Bytes loaded over the low end of dato. */
  function Loaded(n: Near, i: In, ibit: nat): seq<nat>
    requires Shaped(n)
  {
    if Starts(n, i) && !i.request.write then
      ReadBytes(ibit, i.request.addr, i.request.size % 4)
    else if n.state == WaitData then WriteBytes(ibit, n.write, n.addr, n.size, i.hwdata)
    else []
  }

  function NextState(n: Near, i: In): State
    requires Shaped(n)
  {
    match n.state
    case Idle => if !i.request.Request? then Idle else if i.request.write then WaitData else WaitResp
    case WaitData => WaitResp
    case WaitResp => if n.dvalid && n.icnt == 1 then AhbResp else WaitResp
    case AhbResp => if Failed(n) then ErrDelay else Idle
    case ErrDelay => Idle
  }

  function NextIcnt(n: Near, i: In): nat {
    if Starts(n, i) && !i.request.write then 1 + LaneCount(i.request.size % 4)
    else if n.state == WaitData then 1
    else if n.state == WaitResp && n.dvalid && n.icnt != 0 then n.icnt - 1
    else n.icnt
  }

  function NextOcnt(n: Near, i: In, ibit: nat): nat
    requires Shaped(n)
  {
    if Loaded(n, i, ibit) != [] then |Loaded(n, i, ibit)| else if Sending(n, i) then n.ocnt - 1 else n.ocnt
  }

  function NextDato(n: Near, i: In, ibit: nat): seq<nat>
    requires Shaped(n)
  {
    var l := Loaded(n, i, ibit);
    if |l| <= 9 then l + Shifted(n, i)[|l|..] else l
  }

  function Step(n: Near, i: In, ibit: nat): Near
    requires Shaped(n)
  {
    Near(NextState(n, i), NextIcnt(n, i), NextOcnt(n, i, ibit),
         if n.state == WaitResp && n.dvalid then [i.rddata] + n.dati[..4] else n.dati,
         NextDato(n, i, ibit),
         Rden(n, i),
         if Starts(n, i) then i.request.size % 4 else n.size,
         if Starts(n, i) then i.request.write else n.write,
         if Starts(n, i) then i.request.addr else n.addr,
         if Starts(n, i) then false else n.ready || n.state == ErrDelay || (n.state == AhbResp && !Failed(n)),
         if n.state == Idle then false else if n.state == AhbResp then Failed(n) else n.error,
         if n.state == AhbResp && !Failed(n) && !n.write then Spread(n.size, n.dati) else n.hrdata,
         Sending(n, i),
         if Sending(n, i) then n.dato[0] else n.wrdata)
  }

  lemma StaysShaped(n: Near, i: In, ibit: nat)
    requires Shaped(n)
    ensures |Loaded(n, i, ibit)| <= 9 && Shaped(Step(n, i, ibit))
  {
  }

  /** The clocked block in the order the source writes it. */
  class HostSlave {
    const ibit: nat
    var state: State
    var icnt: nat
    var ocnt: nat
    var dati: seq<nat>
    var dato: seq<nat>
    var dvalid: bool
    var size: nat
    var write: bool
    var addr: Word
    var slvHreadyout: bool
    var slvHresp: bool
    var slvHrdata: Word
    var wren: bool
    var wrdata: nat

    function View(): Near
      reads this
    {
      Near(state, icnt, ocnt, dati, dato, dvalid, size, write, addr, slvHreadyout, slvHresp, slvHrdata, wren, wrdata)
    }

    constructor (ibit: nat, size: nat, write: bool, addr: Word, hrdata: Word, wrdata: nat)
      ensures this.ibit == ibit && Shaped(View()) && state == Idle && icnt == 0 && ocnt == 0 && !dvalid &&
              slvHreadyout && !slvHresp
      ensures !wren
    {
      this.ibit, this.size, this.write, this.addr, slvHrdata, this.wrdata := ibit, size, write, addr, hrdata, wrdata;
      dati, dato, dvalid, icnt, ocnt, state := seq(5, _ => 0), seq(9, _ => 0), false, 0, 0, Idle;
      slvHresp, slvHreadyout, wren := false, true, false;
    }

    method Posedge(i: In)
      requires Shaped(View())
      modifies this
      ensures View() == Step(old(View()), i, ibit)
    {
      var n := View();
      Flow(n, i);
      Machine(n, i);
    }

    /** Lines 119-134: a byte in and a byte out. */
    method Flow(n: Near, i: In)
      requires Shaped(n) && n == View()
      modifies this`dvalid, this`wren, this`wrdata, this`dato, this`ocnt
      ensures dvalid == Rden(n, i) && wren == Sending(n, i) && wrdata == (if Sending(n, i) then n.dato[0] else n.wrdata)
      ensures dato == Shifted(n, i) && ocnt == if Sending(n, i) then n.ocnt - 1 else n.ocnt
    {
      dvalid := !i.rdempty && n.icnt != 0;
      if n.ocnt != 0 && !i.wrfull {
        wren, wrdata := true, n.dato[0];
        dato, ocnt := n.dato[1..] + [0], n.ocnt - 1;
      } else {
        wren := false;
      }
    }

    method Machine(n: Near, i: In)
      requires Shaped(n) && dato == Shifted(n, i) && ocnt == (if Sending(n, i) then n.ocnt - 1 else n.ocnt)
      requires state == n.state && icnt == n.icnt && dati == n.dati && size == n.size && write == n.write &&
               addr == n.addr
      requires slvHreadyout == n.ready && slvHresp == n.error && slvHrdata == n.hrdata
      modifies this`slvHresp, this`slvHreadyout, this`slvHrdata, this`size, this`write, this`addr, this`dato, this`dati,
               this`ocnt, this`icnt, this`state
      ensures state == NextState(n, i) && icnt == NextIcnt(n, i) && ocnt == NextOcnt(n, i, ibit) &&
              dato == NextDato(n, i, ibit)
      ensures var n' := Step(n, i, ibit);
        && dati == n'.dati && size == n'.size && write == n'.write && addr == n'.addr
        && slvHreadyout == n'.ready && slvHresp == n'.error && slvHrdata == n'.hrdata
    {
      match n.state {
        case Idle => Begins(n, i);
        case WaitData => Writes(n, i);
        case WaitResp => Receives(n, i);
        case AhbResp => Answers(n);
        case ErrDelay =>
          slvHreadyout := true;
          state := Idle;
      }
    }

    /** Lines 138-179. */
    method Begins(n: Near, i: In)
      requires Shaped(n) && n.state == Idle && dato == Shifted(n, i) && state == n.state && icnt == n.icnt
      requires ocnt == (if Sending(n, i) then n.ocnt - 1 else n.ocnt)
      requires slvHreadyout == n.ready && size == n.size && write == n.write && addr == n.addr
      modifies this`slvHresp, this`slvHreadyout, this`size, this`write, this`addr, this`dato, this`ocnt, this`icnt,
        this`state
      ensures state == NextState(n, i) && icnt == NextIcnt(n, i) && ocnt == NextOcnt(n, i, ibit) &&
              dato == NextDato(n, i, ibit)
      ensures !slvHresp && slvHreadyout == if Starts(n, i) then false else n.ready
      ensures size == if Starts(n, i) then i.request.size % 4 else n.size
      ensures write == if Starts(n, i) then i.request.write else n.write
      ensures addr == if Starts(n, i) then i.request.addr else n.addr
    {
      slvHresp := false;
      if i.request.Request? {
        slvHreadyout := false;
        size, write, addr := i.request.size % 4, i.request.write, i.request.addr;
        if !i.request.write {
          var a := i.request.addr;
          dato := [Header(ibit, D4, false, size), a.b3, a.b2, a.b1, a.b0] + dato[5..];
          ocnt := 5;
          if size == 0 { icnt := 2; } else if size == 1 { icnt := 3; } else { icnt := 5; }
          state := WaitResp;
        } else {
          state := WaitData;
        }
      }
    }

    /** Lines 183-226: the bytes of a write, header first. */
    method Writes(n: Near, i: In)
      requires Shaped(n) && n.state == WaitData && dato == Shifted(n, i) && |dato| == 9
      requires size == n.size && write == n.write && addr == n.addr
      modifies this`dato, this`ocnt, this`icnt, this`state
      ensures state == NextState(n, i) && icnt == NextIcnt(n, i) && ocnt == NextOcnt(n, i, ibit) &&
              dato == NextDato(n, i, ibit)
    {
      var d, a := i.hwdata, addr;
      LanesReversed(size, a, d);
      if size == 0 {
        var lane := if a.b0 % 4 == 0 then d.b0 else if a.b0 % 4 == 1 then d.b1
                    else if a.b0 % 4 == 2 then d.b2 else d.b3;
        dato := [Header(ibit, D5, write, size), a.b3, a.b2, a.b1, a.b0, lane] + dato[6..];
        ocnt := 6;
      } else if size == 1 {
        if a.b0 / 2 % 2 == 1 {
          dato := [Header(ibit, D6, write, size), a.b3, a.b2, a.b1, a.b0, d.b3, d.b2] + dato[7..];
        } else {
          dato := [Header(ibit, D6, write, size), a.b3, a.b2, a.b1, a.b0, d.b1, d.b0] + dato[7..];
        }
        ocnt := 7;
      } else {
        dato := [Header(ibit, D8, write, size), a.b3, a.b2, a.b1, a.b0, d.b3, d.b2, d.b1, d.b0];
        ocnt := 9;
      }
      state := WaitResp;
      icnt := 1;
    }

    /** Lines 230-240. */
    method Receives(n: Near, i: In)
      requires Shaped(n) && n.state == WaitResp && state == n.state && icnt == n.icnt && dati == n.dati
      modifies this`dati, this`state, this`icnt
      ensures state == NextState(n, i) && icnt == NextIcnt(n, i)
      ensures dati == if n.dvalid then [i.rddata] + n.dati[..4] else n.dati
    {
      if n.dvalid {
        dati := [i.rddata] + n.dati[..4];
        if n.icnt == 1 { state := AhbResp; }
        if n.icnt != 0 { icnt := n.icnt - 1; }
      }
    }

    /** Lines 244-273. */
    method Answers(n: Near)
      requires Shaped(n) && n.state == AhbResp && slvHreadyout == n.ready && slvHrdata == n.hrdata
      modifies this`slvHresp, this`slvHreadyout, this`slvHrdata, this`state
      ensures state == (if Failed(n) then ErrDelay else Idle) && slvHresp == Failed(n)
      ensures slvHreadyout == (n.ready || !Failed(n))
      ensures slvHrdata == if !Failed(n) && !n.write then Spread(n.size, n.dati) else n.hrdata
    {
      if Failed(n) {
        slvHresp, state := true, ErrDelay;
      } else {
        if !n.write { slvHrdata := Spread(n.size, n.dati); }
        slvHresp, slvHreadyout, state := false, true, Idle;
      }
    }
  }
}
