/** The bridge's invariant, and that every clock keeps it. */
module BridgePreserve {
  import opened Adiv5
  import opened DebugBridge
  import opened BridgeSystem
  import opened BridgeKnowledge

  // ---------- the invariant

  function Virtual(w: World, y: Sys): Target { After(w.ap, w.target, Issued(y)) }

  /** The answer to the read of CSW, once it is there, is the target's CSW. */
  predicate CswKnown(w: World, y: Sys) {
    y.b.state == ReadApCsw ==>
      && Issued(y) != [] && Issued(y)[|Issued(y)| - 1] == ApRead(AP_CSW)
      && (|y.answers| == |Issued(y)| ==>
            var word := y.answers[|y.answers| - 1].word;
            && word < WORD_END && WordCsw(word).inc == Virtual(w, y).inc && WordCsw(word).width == Virtual(w, y).width)
  }

  /** Where the bus stands: no transfer in hand; one whose access has been commanded; or one whose access is
      still to come. `acc` is every access commanded. */
  predicate Handed(s: State, b: Bus, asked: seq<Access>, acc: seq<Access>) {
    if b.ready then !b.pending && !b.latch && Between(s) && acc == asked
    else
      asked != [] &&
      if s == AhbResp then !b.pending && !b.latch && acc == asked && asked[|asked| - 1] == Wanted(b)
      else
        && acc == asked[..|asked| - 1] && Askable(b)
        && asked[|asked| - 1] == Access(b.wnr, b.addr, b.size, if b.wnr && !b.latch then b.data else 0)
        && (b.latch ==> b.wnr)
        && (if b.pending then Between(s) else Accessing(s) && !b.latch)
  }

  /** From the first access on the cached TAR is the target's. Until then the access in hand is one that sets it;
      `was` is the target at the start. */
  predicate Placed(was: Target, s: State, b: Bus, tar: nat, v: Target, accessed: bool) {
    if accessed || was.tar == INVALID then tar == v.tar
    else (Between(s) ==> v.width == was.width) && (b.pending ==> !Marked(was.width, b.addr, b.size))
  }

  predicate Located(w: World, y: Sys) {
    Placed(w.target, y.b.state, y.b.bus, y.b.cache.tar, Virtual(w, y), Accesses(w.ap, w.target, Issued(y)) != [])
  }

  /** The last command issued is the last transfer's access. */
  predicate LastIs(w: World, y: Sys) {
    y.asked != [] && Issued(y) != [] &&
    var n := |Issued(y)| - 1;
    EffectOf(w.ap, After(w.ap, w.target, Issued(y)[..n]), Issued(y)[n]) == Some(y.asked[|y.asked| - 1])
  }

  /** Every response so far was good; the one being taken in, too. */
  predicate Good(y: Sys) {
    && y.b.link.stat == STAT_OK && (y.b.link.check ==> y.rddata.stat == STAT_OK)
    && forall n :: 0 <= n < |y.answers| ==> y.answers[n].stat == STAT_OK
  }

  predicate SysInv(w: World, y: Sys) {
    && Good(y)
    && Counts(y) && Knows(w.ap, y.b.state, y.b.cache, Virtual(w, y))
    && OnPath(y.b.state, y.b.bus, y.b.cache, Virtual(w, y)) && CswKnown(w, y)
    && Handed(y.b.state, y.b.bus, y.asked, Accesses(w.ap, w.target, Issued(y)))
    && Located(w, y)
    && (y.b.state == AhbResp ==> LastIs(w, y))
    && (y.b.state == Disabled ==> !y.b.link.wren)
  }

  // ---------- every clock keeps it

  predicate Heard(r: Regs, i: In) { r.link.check ==> i.rdstat == STAT_OK }

  lemma GoodStep(w: World, y: Sys, k: Tick)
    requires Good(y) && Clocked(w, y, k) && y.rd <= |y.answers|
    ensures Good(SysNext(y, k, w.ap))
  {
  }

  lemma SendsCache(r: Regs, i: In)
    requires SendsNow(r, i) && Heard(r, i)
    ensures NextCache(r, i) == CacheSent(r, i) && NextState(r, i) == Onward(r)
  {
  }

  lemma QuietCache(r: Regs, i: In)
    requires !SendsNow(r, i) && Heard(r, i) && !(r.state == ReadApCsw && Complete(r.link))
    ensures NextCache(r, i) == r.cache
    ensures Sends(r.state) ==> NextState(r, i) == r.state
  {
  }

  /** What sending does to the bridge's knowledge, whatever the state. */
  lemma SendsKnows(ap: nat, r: Regs, v: Target, i: In)
    requires Knows(ap, r.state, r.cache, v) && OnPath(r.state, r.bus, r.cache, v) && Sends(r.state) && i.apsel == ap
    ensures Knows(ap, Onward(r), CacheSent(r, i), Apply(ap, v, Command(r, i)))
    ensures OnPath(Onward(r), r.bus, CacheSent(r, i), Apply(ap, v, Command(r, i)))
    ensures if r.state == AccessDrw || r.state == AccessBd then
              Onward(r) == AhbResp && EffectOf(ap, v, Command(r, i)) == Some(Wanted(r.bus))
            else
              EffectOf(ap, v, Command(r, i)) == None &&
              if Between(r.state) then Between(Onward(r)) else Accessing(Onward(r))
    ensures r.cache.tar == v.tar || r.state == AccessDrw || r.state == AccessBd ==>
      CacheSent(r, i).tar == Apply(ap, v, Command(r, i)).tar
    ensures Between(r.state) ==> Apply(ap, v, Command(r, i)).width == v.width
  {
    match r.state
    case WriteDpSelect | CacheApCsw => SendsSetup(ap, r, v, i);
    case UpdateApCsw => SendsUpdate(ap, r, v, i);
    case SelectApBank0 => SendsSelect0(ap, r, v, i);
    case SelectApBank1 => SendsSelect1(ap, r, v, i);
    case SetCsw => SendsCsw(ap, r, v, i);
    case SetTar => SendsTar(ap, r, v, i);
    case AccessDrw => SendsDrw(ap, r, v, i);
    case AccessBd => SendsBd(ap, r, v, i);
    case _ =>
  }

  /** Sending one more command. */
  lemma VirtualStep(w: World, y: Sys, k: Tick)
    requires y.b.state == Disabled || y.b.state == AhbErrorWait ==> !y.b.link.wren
    ensures var y', c := SysNext(y, k, w.ap), Command(y.b, Input(y, k, w.ap));
      if Now(y, k, w.ap) then
        && Virtual(w, y') == Apply(w.ap, Virtual(w, y), c) && Issued(y') == Issued(y) + [c]
        && Accesses(w.ap, w.target, Issued(y')) ==
           match EffectOf(w.ap, Virtual(w, y), c)
           case None => Accesses(w.ap, w.target, Issued(y))
           case Some(a) => Accesses(w.ap, w.target, Issued(y)) + [a]
      else Issued(y') == Issued(y)
  {
    IssuedStep(y, k, w.ap);
    OneMore(w.ap, w.target, Issued(y), Command(y.b, Input(y, k, w.ap)));
  }

  /** CSW once read: bit 31 aside it is the target's. */
  lemma EnabledFits(word: nat)
    requires word < WORD_END
    ensures CswFits(Enabled(word)) && Enabled(word).inc == WordCsw(word).inc &&
            Enabled(word).width == WordCsw(word).width
  {
  }

  lemma ReadsCsw(w: World, y: Sys)
    requires SysInv(w, y) && y.b.state == ReadApCsw && Complete(y.b.link)
    ensures CswFits(Enabled(y.b.link.resp))
    ensures Enabled(y.b.link.resp).inc == Virtual(w, y).inc && Enabled(y.b.link.resp).width == Virtual(w, y).width
  {
    CompleteMeansAnswered(y);
    EnabledFits(y.b.link.resp);
  }

  predicate Standing(w: World, y: Sys) {
    SysInv(w, y) && (y.b.bus.latch ==> y.asked != []) && y.b.state != AhbErrorWait && y.b.state != IrqScan
  }

  lemma Stands(w: World, y: Sys)
    requires SysInv(w, y)
    ensures Standing(w, y)
  {
  }

  lemma SentKnows(w: World, y: Sys, k: Tick)
    requires Standing(w, y) && TickOk(w, y, k) && Now(y, k, w.ap)
    ensures var y' := SysNext(y, k, w.ap); Knows(w.ap, y'.b.state, y'.b.cache, Virtual(w, y'))
  {
    VirtualStep(w, y, k);
    SendsCache(y.b, Input(y, k, w.ap));
    SendsKnows(w.ap, y.b, Virtual(w, y), Input(y, k, w.ap));
  }

  lemma RestKnows(ap: nat, r: Regs, v: Target, i: In)
    requires Knows(ap, r.state, r.cache, v) && !SendsNow(r, i) && Heard(r, i) &&
             (r.state == Idle ==> r.cache.init)
    requires r.state == ReadApCsw && Complete(r.link) ==>
      CswFits(Enabled(r.link.resp)) && Enabled(r.link.resp).inc == v.inc && Enabled(r.link.resp).width == v.width
    ensures Knows(ap, NextState(r, i), NextCache(r, i), v)
  {
    if !(r.state == ReadApCsw && Complete(r.link)) { QuietCache(r, i); }
  }

  lemma KnowStep(w: World, y: Sys, k: Tick)
    requires Standing(w, y) && TickOk(w, y, k)
    ensures var y' := SysNext(y, k, w.ap); Knows(w.ap, y'.b.state, y'.b.cache, Virtual(w, y'))
  {
    if Now(y, k, w.ap) {
      SentKnows(w, y, k);
    } else {
      VirtualStep(w, y, k);
      assert Virtual(w, SysNext(y, k, w.ap)) == Virtual(w, y);
      if y.b.state == ReadApCsw && Complete(y.b.link) { ReadsCsw(w, y); }
      RestKnows(w.ap, y.b, Virtual(w, y), Input(y, k, w.ap));
    }
  }

  predicate Accepts(r: Regs, i: In) {
    i.request.Request? ==>
      r.bus.ready && i.request.size <= 2 && i.request.addr < WORD_END && Aligned(i.request.addr, i.request.size)
  }

  /** No transfer in hand: the bus may start one. */
  lemma FreeHand(r: Regs, i: In, asked: seq<Access>, acc: seq<Access>)
    requires Handed(r.state, r.bus, asked, acc) && r.bus.ready && Accepts(r, i)
    requires Between(NextState(r, i))
    ensures Handed(NextState(r, i), NextBus(r, i), AskedNext(asked, r, i), acc)
  {
    if i.request.Request? {
      assert AskedNext(asked, r, i)[..|asked|] == asked;
    }
  }

  /** A transfer waiting for the state machine to be idle. */
  lemma PendingHand(r: Regs, i: In, asked: seq<Access>, acc: seq<Access>)
    requires Handed(r.state, r.bus, asked, acc) && !r.bus.ready && r.bus.pending && Accepts(r, i)
    requires if r.state == Idle && i.sequential == Odd(r.cache.csw.inc) then Accessing(NextState(r, i))
             else Between(NextState(r, i))
    ensures Handed(NextState(r, i), NextBus(r, i), AskedNext(asked, r, i), acc)
  {
    var asked' := AskedNext(asked, r, i);
    assert asked'[..|asked'| - 1] == asked[..|asked| - 1];
  }

  /** A transfer on its way to its access, or making it. */
  lemma MovingHand(r: Regs, i: In, asked: seq<Access>, acc: seq<Access>, acc': seq<Access>)
    requires Handed(r.state, r.bus, asked, acc) && Accessing(r.state) && Accepts(r, i)
    requires !r.bus.ready && !r.bus.pending
    requires if NextState(r, i) == AhbResp then acc' == acc + [Wanted(r.bus)]
             else acc' == acc && Accessing(NextState(r, i))
    ensures Handed(NextState(r, i), NextBus(r, i), AskedNext(asked, r, i), acc')
  {
    if NextState(r, i) == AhbResp { assert asked == asked[..|asked| - 1] + [asked[|asked| - 1]]; }
  }

  lemma ReplyHand(r: Regs, i: In, asked: seq<Access>, acc: seq<Access>)
    requires Handed(r.state, r.bus, asked, acc) && r.state == AhbResp && !r.bus.ready && Accepts(r, i)
    requires r.link.stat == STAT_OK
    ensures Handed(NextState(r, i), NextBus(r, i), AskedNext(asked, r, i), acc)
    ensures Complete(r.link) ==>
            NextBus(r, i).ready && !NextBus(r, i).error && (!r.bus.wnr ==> NextBus(r, i).hrdata == r.link.resp)
  {
  }

  lemma IdleDecides(ap: nat, r: Regs, v: Target, i: In)
    requires Knows(ap, Idle, r.cache, v) && r.state == Idle && r.bus.pending && i.sequential == Odd(r.cache.csw.inc)
    requires Askable(r.bus) && !r.bus.ready && i.request.Quiet? && Heard(r, i)
    requires r.cache.tar == v.tar || !Marked(r.cache.csw.width, r.bus.addr, r.bus.size)
    requires r.bus.wnr || !i.sequential
    ensures Accessing(NextState(r, i)) && OnPath(NextState(r, i), NextBus(r, i), NextCache(r, i), v)
  {
    Decides(ap, r.bus, r.cache, v);
  }

  lemma BusKept(r: Regs, i: In)
    requires Accessing(r.state) && i.request.Quiet? && !r.bus.latch
    ensures NextBus(r, i) == r.bus
  {
  }

  lemma SendPath(ap: nat, r: Regs, v: Target, i: In)
    requires Knows(ap, r.state, r.cache, v) && OnPath(r.state, r.bus, r.cache, v) && SendsNow(r, i)
    requires i.apsel == ap && Heard(r, i) && (Accessing(r.state) ==> i.request.Quiet? && !r.bus.latch)
    ensures OnPath(NextState(r, i), NextBus(r, i), NextCache(r, i), Apply(ap, v, Command(r, i)))
  {
    SendsCache(r, i);
    SendsKnows(ap, r, v, i);
    if Accessing(r.state) { BusKept(r, i); }
  }

  lemma HeldPath(r: Regs, v: Target, i: In)
    requires OnPath(r.state, r.bus, r.cache, v) && !SendsNow(r, i) && Accessing(r.state)
    requires Heard(r, i) && i.request.Quiet? && !r.bus.latch
    ensures OnPath(NextState(r, i), NextBus(r, i), NextCache(r, i), v)
  {
    QuietCache(r, i);
    BusKept(r, i);
  }

  lemma RestPath(r: Regs, i: In)
    requires !SendsNow(r, i) && !Accessing(r.state)
    requires !(r.state == Idle && r.bus.pending && i.sequential == Odd(r.cache.csw.inc))
    ensures !Accessing(NextState(r, i))
  {
  }

  /** The cases of a clock, as far as the way to an access goes. */
  lemma PathRegs(ap: nat, r: Regs, v: Target, i: In)
    requires Knows(ap, r.state, r.cache, v) && OnPath(r.state, r.bus, r.cache, v)
    requires i.apsel == ap && Heard(r, i) && (r.bus.ready || r.bus.wnr || !i.sequential)
    requires Accessing(r.state) ==> i.request.Quiet? && !r.bus.latch
    requires r.state == Idle && r.bus.pending ==> i.request.Quiet? && !r.bus.ready && Askable(r.bus)
    requires r.state == Idle && r.bus.pending ==>
      r.cache.tar == v.tar || !Marked(r.cache.csw.width, r.bus.addr, r.bus.size)
    ensures OnPath(NextState(r, i), NextBus(r, i), NextCache(r, i),
                   if SendsNow(r, i) then Apply(ap, v, Command(r, i)) else v)
  {
    if r.state == Idle && r.bus.pending && i.sequential == Odd(r.cache.csw.inc) {
      IdleDecides(ap, r, v, i);
    } else if SendsNow(r, i) {
      SendPath(ap, r, v, i);
    } else if Accessing(r.state) {
      HeldPath(r, v, i);
    } else {
      RestPath(r, i);
    }
  }

  lemma PathStep(w: World, y: Sys, k: Tick)
    requires Standing(w, y) && TickOk(w, y, k)
    ensures var y' := SysNext(y, k, w.ap); OnPath(y'.b.state, y'.b.bus, y'.b.cache, Virtual(w, y'))
  {
    VirtualStep(w, y, k);
    PathRegs(w.ap, y.b, Virtual(w, y), Input(y, k, w.ap));
  }

  /** The accesses commanded after a clock. */
  lemma AccessStep(w: World, y: Sys, k: Tick)
    requires Standing(w, y) && TickOk(w, y, k)
    ensures var y', acc := SysNext(y, k, w.ap), Accesses(w.ap, w.target, Issued(y));
      Accesses(w.ap, w.target, Issued(y')) ==
        if Now(y, k, w.ap) && (y.b.state == AccessDrw || y.b.state == AccessBd) then acc + [Wanted(y.b.bus)] else acc
  {
    VirtualStep(w, y, k);
    if Now(y, k, w.ap) {
      SendsKnows(w.ap, y.b, Virtual(w, y), Input(y, k, w.ap));
    }
  }

  lemma PendingBus(r: Regs, i: In)
    ensures var b := NextBus(r, i);
      match i.request
      case Quiet => (b.pending ==> r.bus.pending) && b.addr == r.bus.addr && b.size == r.bus.size
      case Request(write, addr, size) => b.addr == addr && b.size == size % 4
  {
  }

  /** A request, if one comes, is not one the marker stands for unless something was accessed before. */
  lemma PendingPlaced(w: World, y: Sys, k: Tick)
    requires Located(w, y) && RequestOk(y, k.request) && FirstOk(w, y, k.request) && (y.b.bus.ready ==> y.asked == [])
    requires Accesses(w.ap, w.target, Issued(y)) == [] && w.target.tar != INVALID
    ensures var b := SysNext(y, k, w.ap).b.bus; b.pending ==> !Marked(w.target.width, b.addr, b.size)
  {
    PendingBus(y.b, Input(y, k, w.ap));
  }

  /** What a command does to where TAR is known to be. */
  lemma SentPlaced(ap: nat, r: Regs, v: Target, i: In, was: Target, accessed: bool, b': Bus)
    requires Knows(ap, r.state, r.cache, v) && OnPath(r.state, r.bus, r.cache, v) && Sends(r.state) && i.apsel == ap
    requires Placed(was, r.state, r.bus, r.cache.tar, v, accessed)
    requires !accessed && was.tar != INVALID ==> b'.pending ==> !Marked(was.width, b'.addr, b'.size)
    ensures Placed(was, Onward(r), b', CacheSent(r, i).tar, Apply(ap, v, Command(r, i)),
                   accessed || r.state == AccessDrw || r.state == AccessBd)
  {
    SendsKnows(ap, r, v, i);
  }

  /** One clock of it, once it is known what is commanded. */
  lemma PlacedStep(w: World, y: Sys, k: Tick, accessed: bool)
    requires Standing(w, y) && TickOk(w, y, k)
    requires accessed == (Accesses(w.ap, w.target, Issued(y)) != [])
    ensures var r, i := y.b, Input(y, k, w.ap);
      Placed(w.target, NextState(r, i), NextBus(r, i), NextCache(r, i).tar,
             if Now(y, k, w.ap) then Apply(w.ap, Virtual(w, y), Command(r, i)) else Virtual(w, y),
             accessed || (Now(y, k, w.ap) && (r.state == AccessDrw || r.state == AccessBd)))
  {
    if !accessed && w.target.tar != INVALID { PendingPlaced(w, y, k); }
    if Now(y, k, w.ap) {
      SendsCache(y.b, Input(y, k, w.ap));
      SentPlaced(w.ap, y.b, Virtual(w, y), Input(y, k, w.ap), w.target, accessed, SysNext(y, k, w.ap).b.bus);
    } else {
      StateStep(w, y, k);
      TarRests(y.b, Input(y, k, w.ap));
    }
  }

  lemma LocatedStep(w: World, y: Sys, k: Tick)
    requires Standing(w, y) && TickOk(w, y, k)
    ensures Located(w, SysNext(y, k, w.ap))
  {
    var accessed := Accesses(w.ap, w.target, Issued(y)) != [];
    VirtualStep(w, y, k);
    AccessStep(w, y, k);
    PlacedStep(w, y, k, accessed);
  }

  lemma TarRests(r: Regs, i: In)
    requires !SendsNow(r, i) && Heard(r, i)
    ensures NextCache(r, i).tar == r.cache.tar
  {
  }

  lemma StateStep(w: World, y: Sys, k: Tick)
    requires Standing(w, y) && TickOk(w, y, k)
    ensures var y' := SysNext(y, k, w.ap);
      && (Between(y.b.state) && !(y.b.state == Idle && y.b.bus.pending && k.sequential == Odd(y.b.cache.csw.inc)) ==>
          Between(y'.b.state))
      && (Accessing(y.b.state) ==>
            if Now(y, k, w.ap) && (y.b.state == AccessDrw || y.b.state == AccessBd) then y'.b.state == AhbResp
            else Accessing(y'.b.state))
  {
    if Now(y, k, w.ap) {
      SendsCache(y.b, Input(y, k, w.ap));
      SendsKnows(w.ap, y.b, Virtual(w, y), Input(y, k, w.ap));
    }
  }

  lemma HandStep(w: World, y: Sys, k: Tick)
    requires Standing(w, y) && TickOk(w, y, k)
    ensures var y' := SysNext(y, k, w.ap);
      Handed(y'.b.state, y'.b.bus, y'.asked, Accesses(w.ap, w.target, Issued(y')))
  {
    var i, y' := Input(y, k, w.ap), SysNext(y, k, w.ap);
    var acc, acc' := Accesses(w.ap, w.target, Issued(y)), Accesses(w.ap, w.target, Issued(y'));
    AccessStep(w, y, k);
    StateStep(w, y, k);
    if y.b.bus.ready {
      FreeHand(y.b, i, y.asked, acc);
    } else if y.b.state == AhbResp {
      ReplyHand(y.b, i, y.asked, acc);
    } else if y.b.bus.pending {
      if y.b.state == Idle && k.sequential == Odd(y.b.cache.csw.inc) { IdleDecides(w.ap, y.b, Virtual(w, y), i); }
      PendingHand(y.b, i, y.asked, acc);
    } else {
      MovingHand(y.b, i, y.asked, acc, acc');
    }
  }

  /** On the way to an access the transfer asked for last is the one in hand. */
  lemma InHand(w: World, y: Sys, k: Tick)
    requires Handed(y.b.state, y.b.bus, y.asked, Accesses(w.ap, w.target, Issued(y)))
    requires Accessing(y.b.state) && RequestOk(y, k.request)
    ensures y.asked != [] && y.asked[|y.asked| - 1] == Wanted(y.b.bus) && SysNext(y, k, w.ap).asked == y.asked
  {
  }

  lemma LastOf(w: World, y: Sys, y': Sys, c: Cmd)
    requires Issued(y') == Issued(y) + [c] && y'.asked == y.asked != []
    requires EffectOf(w.ap, Virtual(w, y), c) == Some(y.asked[|y.asked| - 1])
    ensures LastIs(w, y')
  {
    assert Issued(y')[..|Issued(y')| - 1] == Issued(y);
  }

  /** The access just commanded is the transfer's. */
  lemma LastArrives(w: World, y: Sys, k: Tick)
    requires SysInv(w, y) && TickOk(w, y, k) && Now(y, k, w.ap) && (y.b.state == AccessDrw || y.b.state == AccessBd)
    ensures LastIs(w, SysNext(y, k, w.ap))
  {
    IssuedStep(y, k, w.ap);
    SendsKnows(w.ap, y.b, Virtual(w, y), Input(y, k, w.ap));
    InHand(w, y, k);
    LastOf(w, y, SysNext(y, k, w.ap), Command(y.b, Input(y, k, w.ap)));
  }

  lemma LastSame(w: World, y: Sys, y': Sys)
    requires LastIs(w, y) && Issued(y') == Issued(y) && y'.asked == y.asked
    ensures LastIs(w, y')
  {
  }

  lemma LastStays(w: World, y: Sys, k: Tick)
    requires Standing(w, y) && TickOk(w, y, k) && y.b.state == AhbResp
    ensures LastIs(w, SysNext(y, k, w.ap))
  {
    IssuedStep(y, k, w.ap);
    LastSame(w, y, SysNext(y, k, w.ap));
  }

  lemma LastStep(w: World, y: Sys, k: Tick)
    requires Standing(w, y) && TickOk(w, y, k) && SysNext(y, k, w.ap).b.state == AhbResp
    ensures LastIs(w, SysNext(y, k, w.ap))
  {
    StateStep(w, y, k);
    if y.b.state == AhbResp { LastStays(w, y, k); } else { LastArrives(w, y, k); }
  }

  /** The answer to the last command issued, when it is a read of CSW. */
  lemma CswAnswered(w: World, y: Sys, k: Tick)
    requires SysInv(w, y) && TickOk(w, y, k) && y.b.state == ReadApCsw && !y.b.cache.init
    requires k.answer.Answer? && |y.answers| + 1 == |Issued(y)|
    ensures k.answer.reply.word < WORD_END
    ensures WordCsw(k.answer.reply.word).inc == Virtual(w, y).inc
    ensures WordCsw(k.answer.reply.word).width == Virtual(w, y).width
  {
    var n := |Issued(y)| - 1;
    assert y.pushed == Issued(y) && Issued(y) == y.pushed[..n] + [y.pushed[n]];
    OneMore(w.ap, w.target, y.pushed[..n], y.pushed[n]);
  }

  lemma CswEnters(w: World, y: Sys, k: Tick)
    requires Standing(w, y) && TickOk(w, y, k) && y.b.state == CacheApCsw && Now(y, k, w.ap)
    ensures CswKnown(w, SysNext(y, k, w.ap))
  {
    IssuedStep(y, k, w.ap);
  }

  lemma CswKept(w: World, y: Sys, y': Sys, word: nat)
    requires CswKnown(w, y) && y.b.state == ReadApCsw && Issued(y') == Issued(y)
    requires y'.answers == y.answers || y'.answers == y.answers + [Reply(word, STAT_OK)]
    requires y'.answers != y.answers && |y'.answers| == |Issued(y)| ==>
      word < WORD_END && WordCsw(word).inc == Virtual(w, y).inc && WordCsw(word).width == Virtual(w, y).width
    ensures CswKnown(w, y')
  {
  }

  lemma CswStays(w: World, y: Sys, k: Tick)
    requires Standing(w, y) && TickOk(w, y, k) && y.b.state == ReadApCsw
    ensures CswKnown(w, SysNext(y, k, w.ap))
  {
    IssuedStep(y, k, w.ap);
    if k.answer.Answer? && |y.answers| + 1 == |Issued(y)| { CswAnswered(w, y, k); }
    CswKept(w, y, SysNext(y, k, w.ap), if k.answer.Answer? then k.answer.reply.word else 0);
  }

  lemma CswStep(w: World, y: Sys, k: Tick)
    requires Standing(w, y) && TickOk(w, y, k)
    ensures CswKnown(w, SysNext(y, k, w.ap))
  {
    if y.b.state == ReadApCsw { CswStays(w, y, k); }
    else if y.b.state == CacheApCsw && Now(y, k, w.ap) { CswEnters(w, y, k); }
    else { NotReading(y.b, Input(y, k, w.ap)); }
  }

  lemma NotReading(r: Regs, i: In)
    requires r.state != ReadApCsw && !(r.state == CacheApCsw && SendsNow(r, i))
    ensures NextState(r, i) != ReadApCsw
  {
  }

  lemma SysStep(w: World, y: Sys, k: Tick)
    requires SysInv(w, y) && TickOk(w, y, k)
    ensures SysInv(w, SysNext(y, k, w.ap))
  {
    Stands(w, y);
    GoodStep(w, y, k);
    CountStep(y, k, w.ap);
    KnowStep(w, y, k);
    PathStep(w, y, k);
    HandStep(w, y, k);
    LocatedStep(w, y, k);
    CswStep(w, y, k);
    if SysNext(y, k, w.ap).b.state == AhbResp { LastStep(w, y, k); }
  }
}
