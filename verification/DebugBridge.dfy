/** The AHB to ADIv5 bridge, ahb3lite_debug_bridge/rtl/ahb3lite_debug_bridge.sv, enabled and with IRQ
    scanning off: one clock is one step. */
module DebugBridge {
  import opened Adiv5

  datatype State =
    | Disabled | Idle | WriteDpSelect | CacheApCsw | ReadApCsw | AccessDrw | AccessBd | SelectApBank0 | SelectApBank1
    | SetCsw | SetTar | AhbResp | AhbErrorWait | UpdateApCsw | IrqScan

  const INVALID: nat := 0xFFFF_FFFF
  const STAT_OK: nat := 4

  /** The AHB side; `ready` is slv_HREADYOUT and `error` slv_HRESP. */
  datatype Bus = Bus(addr: nat, data: nat, wnr: bool, size: nat, pending: bool, latch: bool,
                     ready: bool, hrdata: nat, error: bool)

  /** The ADIv5 side: the three-bit counters resp_pending and resp_recvd are `sent` and `recvd`. */
  datatype Link = Link(sent: nat, recvd: nat, check: bool, resp: nat, stat: nat, wren: bool, wrdata: Cmd)

  /** The target's registers as last written. */
  datatype Cache = Cache(csw: Csw, sel: Sel, tar: nat, init: bool)

  datatype Regs = Regs(state: State, bus: Bus, link: Link, cache: Cache)

  /** An AHB address phase accepted this clock, if any. */
  datatype Request = Quiet | Request(write: bool, addr: nat, size: nat)

  /** The inputs of one clock: `full` is ADIv5_WRFULL, `rden` the response FIFO being read and `rddata` and
      `rdstat` its output register. */
  datatype In = In(sequential: bool, apsel: nat, full: bool, rden: bool, rddata: nat, rdstat: nat, request: Request,
                   hwdata: nat)

  /** A three-bit counter's next value. */
  function Bump(n: nat): nat { if n == 7 then 0 else n + 1 }

  /** autoinc[0] */
  predicate Odd(inc: nat) { inc == 1 || inc == 3 }

  predicate Inhibit(l: Link, i: In) { i.full || Bump(l.sent) == l.recvd }
  predicate Complete(l: Link) { l.sent == l.recvd }

  /** The states that send a command. */
  predicate Sends(s: State) {
    match s
    case Disabled | Idle | ReadApCsw | AhbResp | AhbErrorWait | IrqScan => false
    case _ => true
  }

  predicate SendsNow(r: Regs, i: In) { Sends(r.state) && !Inhibit(r.link, i) }

  /** The decision tree of STATE_IDLE (lines 479-521) for an access. */
  function Decide(b: Bus, c: Cache): State {
    if b.size != c.csw.width then (if BankMatch(c.sel, AP_CSW) then SetCsw else SelectApBank0)
    else if b.addr == c.tar then (if BankMatch(c.sel, AP_DRW) then AccessDrw else SelectApBank0)
    else if b.size != WIDTH_WORD || b.addr / 16 != c.tar / 16
         then (if BankMatch(c.sel, AP_TAR) then SetTar else SelectApBank0)
    else if BankMatch(c.sel, AP_BD0) then AccessBd
    else SelectApBank1
  }

  /** What a state that sends a command sends. */
  function Command(r: Regs, i: In): Cmd {
    var (b, c) := (r.bus, r.cache);
    match r.state
    case WriteDpSelect => DpWrite(DP_SELECT, SelWord(Sel(i.apsel, c.sel.res, 0, 0)))
    case CacheApCsw => ApRead(AP_CSW)
    case UpdateApCsw => ApWrite(AP_CSW, CswWord(c.csw.(inc := if i.sequential then 1 else 0)))
    case SelectApBank0 => DpWrite(DP_SELECT, SelWord(c.sel.(apbank := 0, dpbank := 0)))
    case SelectApBank1 => DpWrite(DP_SELECT, SelWord(c.sel.(apbank := 1, dpbank := 0)))
    case SetCsw => ApWrite(AP_CSW, CswWord(c.csw.(width := b.size)))
    case SetTar => ApWrite(AP_TAR, b.addr)
    case AccessDrw => if b.wnr then ApWrite(AP_DRW, b.data) else ApRead(AP_DRW)
    case _ => if b.wnr then ApWrite(AP_BD0 + b.addr / 4 % 4, b.data) else ApRead(AP_BD0 + b.addr / 4 % 4)
  }

  /** Where a state goes once its command is sent. The states before an access also serve the IRQ scan, which
      is what they test slv_HREADYOUT for. */
  function Onward(r: Regs): State {
    match r.state
    case WriteDpSelect => if r.cache.init then UpdateApCsw else CacheApCsw
    case CacheApCsw => ReadApCsw
    case UpdateApCsw => Idle
    case SelectApBank0 =>
      if r.cache.csw.width != r.bus.size then SetCsw else if r.bus.addr == r.cache.tar then AccessDrw else SetTar
    case SelectApBank1 => if !r.bus.ready then AccessBd else IrqScan
    case SetCsw => if r.bus.addr == r.cache.tar && !r.bus.ready then AccessDrw else SetTar
    case SetTar => if !r.bus.ready then AccessDrw else SelectApBank1
    case AccessDrw => AhbResp
    case _ => if !r.bus.ready then AhbResp else IrqScan
  }

  function NextState(r: Regs, i: In): State {
    match r.state
    case Disabled => WriteDpSelect
    case Idle =>
      if i.sequential != (Odd(r.cache.csw.inc)) then WriteDpSelect
      else if r.bus.pending then Decide(r.bus, r.cache)
      else Idle
    case ReadApCsw => if Complete(r.link) then Idle else ReadApCsw
    case AhbResp => if !Complete(r.link) then AhbResp else if r.link.stat != STAT_OK then AhbErrorWait else Idle
    case AhbErrorWait => Idle
    case IrqScan => Idle
    case _ => if Inhibit(r.link, i) then r.state else Onward(r)
  }

  /** csw <= {1'b1, resp.data[30:0]} */
  function Enabled(w: nat): Csw {
    var c := WordCsw(w % WORD_END);
    c.(high := if c.high < 0x200_0000 then c.high + 0x200_0000 else c.high)
  }

  function NextSel(r: Regs, i: In): Sel {
    if !SendsNow(r, i) then r.cache.sel
    else match r.state
      case WriteDpSelect => Sel(i.apsel, r.cache.sel.res, 0, 0)
      case SelectApBank0 => r.cache.sel.(apbank := 0)
      case SelectApBank1 => r.cache.sel.(apbank := 1)
      case _ => r.cache.sel
  }

  function NextCsw(r: Regs, i: In): Csw {
    if r.state == ReadApCsw && Complete(r.link) then Enabled(r.link.resp)
    else if SendsNow(r, i) && r.state == UpdateApCsw then r.cache.csw.(inc := if i.sequential then 1 else 0)
    else if SendsNow(r, i) && r.state == SetCsw then r.cache.csw.(width := r.bus.size)
    else r.cache.csw
  }

  /** The state machine writes the cached TAR. */
  predicate SetsTar(r: Regs, i: In) {
    SendsNow(r, i) && (r.state == SetTar || (r.state == AccessDrw && r.bus.wnr && r.cache.csw.inc == INC_SINGLE))
  }

  /** A failed response makes the cached TAR unknown, unless the state machine sets it on the same clock. */
  function NextTar(r: Regs, i: In): nat {
    if SetsTar(r, i) then (if r.state == SetTar then r.bus.addr else Add32(r.cache.tar, Bytes(r.cache.csw.width)))
    else if r.link.check && i.rdstat != STAT_OK then INVALID
    else r.cache.tar
  }

  function NextCache(r: Regs, i: In): Cache {
    Cache(NextCsw(r, i), NextSel(r, i), NextTar(r, i), r.cache.init || (r.state == ReadApCsw && Complete(r.link)))
  }

  function NextLink(r: Regs, i: In): Link {
    var l := r.link;
    Link(if SendsNow(r, i) then Bump(l.sent) else l.sent,
         if l.check then Bump(l.recvd) else l.recvd,
         i.rden,
         if l.check then i.rddata else l.resp,
         if l.check && i.rdstat != STAT_OK then i.rdstat else l.stat,
         if r.state == Disabled || r.state == AhbErrorWait then l.wren else SendsNow(r, i),
         if SendsNow(r, i) then Command(r, i) else l.wrdata)
  }

  /** The bus registers as the state machine leaves them. */
  function Answered(r: Regs, i: In): Bus {
    var b := r.bus;
    match r.state
    case Idle => b.(error := false, pending := b.pending && i.sequential != (Odd(r.cache.csw.inc)))
    case AhbResp =>
      if !Complete(r.link) then b
      else b.(hrdata := if b.wnr then b.hrdata else r.link.resp, error := r.link.stat != STAT_OK,
              ready := b.ready || r.link.stat == STAT_OK)
    case AhbErrorWait => b.(ready := true)
    case _ => b
  }

  /** Write data comes the clock after its request, and a request is latched whatever else happens. */
  function NextBus(r: Regs, i: In): Bus {
    var b := Answered(r, i).(data := if r.bus.latch then i.hwdata else r.bus.data, latch := false);
    match i.request
    case Quiet => b
    case Request(write, addr, size) =>
      b.(ready := false, addr := addr, wnr := write, size := size % 4, latch := write, pending := true)
  }

  function Step(r: Regs, i: In): Regs {
    Regs(NextState(r, i), NextBus(r, i), NextLink(r, i), NextCache(r, i))
  }

  /** While it may not send, a sending state changes nothing. */
  lemma Held(r: Regs, i: In)
    requires Sends(r.state) && Inhibit(r.link, i)
    ensures NextState(r, i) == r.state && Answered(r, i) == r.bus && NextSel(r, i) == r.cache.sel
    ensures NextCsw(r, i) == r.cache.csw && NextCache(r, i).init == r.cache.init && !SetsTar(r, i)
    ensures !NextLink(r, i).wren && NextLink(r, i).sent == r.link.sent && NextLink(r, i).wrdata == r.link.wrdata
  {
  }

  /** The clocked block in the order the source writes it: the response and write data first, then the state
      machine, then a new request. Of several assignments to a register the last stands. */
  class Bridge {
    var state: State
    var bus: Bus
    var link: Link
    var cache: Cache

    function View(): Regs
      reads this
    {
      Regs(state, bus, link, cache)
    }

    /** Out of reset; sel, csw and the AHB registers are what they were. */
    constructor (bus: Bus, csw: Csw, sel: Sel, resp: nat, wrdata: Cmd)
      ensures View() == Regs(Disabled, bus.(addr := INVALID, pending := false, latch := false, ready := true),
                             Link(0, 0, false, resp, STAT_OK, false, wrdata), Cache(csw, sel, INVALID, false))
    {
      state := Disabled;
      this.bus := bus.(addr := INVALID, pending := false, latch := false, ready := true);
      link := Link(0, 0, false, resp, STAT_OK, false, wrdata);
      cache := Cache(csw, sel, INVALID, false);
    }

    method Posedge(i: In)
      modifies this
      ensures View() == Step(old(View()), i)
    {
      var r := View();
      Intake(r, i);
      Machine(r, i);
      Accept(i.request);
    }

    /** Lines 422-942: the state machine. */
    method Machine(r: Regs, i: In)
      requires state == r.state && link.wren == r.link.wren && link.sent == r.link.sent && link.wrdata == r.link.wrdata
      requires bus == r.bus.(data := bus.data, latch := bus.latch)
      requires cache == r.cache.(tar := cache.tar)
      modifies this
      ensures state == NextState(r, i)
      ensures bus == Answered(r, i).(data := old(bus).data, latch := old(bus).latch)
      ensures link == old(link).(sent := NextLink(r, i).sent, wren := NextLink(r, i).wren,
                                 wrdata := NextLink(r, i).wrdata)
      ensures cache.csw == NextCsw(r, i) && cache.sel == NextSel(r, i) && cache.init == NextCache(r, i).init
      ensures cache.tar == if SetsTar(r, i) then NextTar(r, i) else old(cache).tar
    {
      if !Sends(r.state) {
        Waiting(r, i);
      } else if Inhibit(r.link, i) {
        link := link.(wren := false);
        Held(r, i);
      } else {
        Sending(r, i);
      }
    }

    /** Lines 945-968: a new request. */
    method Accept(q: Request)
      requires !bus.latch
      modifies this`bus
      ensures bus == match q
        case Quiet => old(bus)
        case Request(write, addr, size) =>
          old(bus).(ready := false, addr := addr, wnr := write, size := size % 4, latch := write, pending := true)
    {
      if q.Request? {
        bus := bus.(ready := false, addr := q.addr, wnr := q.write, size := q.size % 4, pending := true);
        if q.write { bus := bus.(latch := true); }
      }
    }

    /** Lines 298-330 and 412-418: a response and the write data. */
    method Intake(r: Regs, i: In)
      requires r == View()
      modifies this`link, this`cache, this`bus
      ensures link == r.link.(check := i.rden, resp := if r.link.check then i.rddata else r.link.resp,
                              recvd := if r.link.check then Bump(r.link.recvd) else r.link.recvd,
                              stat := if r.link.check && i.rdstat != STAT_OK then i.rdstat else r.link.stat)
      ensures cache == r.cache.(tar := if r.link.check && i.rdstat != STAT_OK then INVALID else r.cache.tar)
      ensures bus == r.bus.(data := if r.bus.latch then i.hwdata else r.bus.data, latch := false)
    {
      if i.rden { link := link.(check := true); }
      if r.link.check {
        if !i.rden { link := link.(check := false); }
        link := link.(resp := i.rddata, recvd := Bump(r.link.recvd));
        if i.rdstat != STAT_OK {
          link := link.(stat := i.rdstat);
          cache := cache.(tar := INVALID);
        }
      }
      if r.bus.latch { bus := bus.(data := i.hwdata, latch := false); }
    }

    /** The states that send a command (lines 706-756 and 774-890), when they can. */
    method Sending(r: Regs, i: In)
      requires SendsNow(r, i) && state == r.state && bus == r.bus.(data := bus.data, latch := bus.latch)
      requires cache.sel == r.cache.sel && cache.csw == r.cache.csw && cache.init == r.cache.init
      modifies this`state, this`link, this`cache
      ensures state == NextState(r, i)
      ensures bus == Answered(r, i).(data := old(bus).data, latch := old(bus).latch)
      ensures link == old(link).(sent := NextLink(r, i).sent, wren := NextLink(r, i).wren,
                                 wrdata := NextLink(r, i).wrdata)
      ensures cache.csw == NextCsw(r, i) && cache.sel == NextSel(r, i) && cache.init == NextCache(r, i).init
      ensures cache.tar == if SetsTar(r, i) then NextTar(r, i) else old(cache).tar
    {
      link := link.(sent := Bump(r.link.sent), wren := true, wrdata := Command(r, i));
      match r.state {
        case WriteDpSelect => cache := cache.(sel := Sel(i.apsel, r.cache.sel.res, 0, 0));
        case SelectApBank0 => cache := cache.(sel := r.cache.sel.(apbank := 0));
        case SelectApBank1 => cache := cache.(sel := r.cache.sel.(apbank := 1));
        case UpdateApCsw => cache := cache.(csw := r.cache.csw.(inc := if i.sequential then 1 else 0));
        case SetCsw => cache := cache.(csw := r.cache.csw.(width := r.bus.size));
        case SetTar => cache := cache.(tar := r.bus.addr);
        case AccessDrw =>
          if r.bus.wnr && r.cache.csw.inc == INC_SINGLE {
            cache := cache.(tar := Add32(r.cache.tar, Bytes(r.cache.csw.width)));
          }
        case _ =>
      }
      state := Onward(r);
    }

    /** The states that wait: for enable, a transfer or the responses. */
    method Waiting(r: Regs, i: In)
      requires !Sends(r.state) && state == r.state
      requires link.wren == r.link.wren && link.sent == r.link.sent && link.wrdata == r.link.wrdata
      requires bus == r.bus.(data := bus.data, latch := bus.latch)
      requires cache == r.cache.(tar := cache.tar)
      modifies this`state, this`bus, this`link, this`cache
      ensures state == NextState(r, i)
      ensures bus == Answered(r, i).(data := old(bus).data, latch := old(bus).latch)
      ensures link == old(link).(sent := NextLink(r, i).sent, wren := NextLink(r, i).wren,
                                 wrdata := NextLink(r, i).wrdata)
      ensures cache.csw == NextCsw(r, i) && cache.sel == NextSel(r, i) && cache.init == NextCache(r, i).init
      ensures cache.tar == if SetsTar(r, i) then NextTar(r, i) else old(cache).tar
    {
      if r.state != Disabled && r.state != AhbErrorWait { link := link.(wren := false); }
      match r.state {
        case Disabled => state := WriteDpSelect;
        case Idle => Idling(r, i);
        case ReadApCsw =>
          if Complete(r.link) {
            cache := cache.(csw := Enabled(r.link.resp), init := true);
            state := Idle;
          }
        case AhbResp => Responding(r, i);
        case AhbErrorWait => bus, state := bus.(ready := true), Idle;
        case IrqScan => state := Idle;
        case _ =>
      }
    }

    /** Lines 451-525: idle. */
    method Idling(r: Regs, i: In)
      requires r.state == Idle && state == r.state && bus == r.bus.(data := bus.data, latch := bus.latch)
      modifies this`state, this`bus
      ensures state == NextState(r, i)
      ensures bus == Answered(r, i).(data := old(bus).data, latch := old(bus).latch)
    {
      bus := bus.(error := false);
      if i.sequential != Odd(r.cache.csw.inc) {
        state := WriteDpSelect;
      } else if r.bus.pending {
        bus := bus.(pending := false);
        state := Decide(r.bus, r.cache);
      }
    }

    /** Lines 893-929: the reply. */
    method Responding(r: Regs, i: In)
      requires r.state == AhbResp && state == r.state && bus == r.bus.(data := bus.data, latch := bus.latch)
      modifies this`state, this`bus
      ensures state == NextState(r, i)
      ensures bus == Answered(r, i).(data := old(bus).data, latch := old(bus).latch)
    {
      if Complete(r.link) {
        if !r.bus.wnr { bus := bus.(hrdata := r.link.resp); }
        if r.link.stat != STAT_OK {
          bus := bus.(error := true);
          state := AhbErrorWait;
        } else {
          bus := bus.(error := false, ready := true);
          state := Idle;
        }
      }
    }
  }
}
