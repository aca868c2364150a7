/** What the bridge knows of the target, command by command, and that its three-bit counters suffice. */
module BridgeKnowledge {
  import opened Adiv5
  import opened DebugBridge
  import opened BridgeSystem

  // ---------- what the bridge knows of the target

  predicate Between(s: State) {
    s == Disabled || s == Idle || s == WriteDpSelect || s == CacheApCsw || s == ReadApCsw || s == UpdateApCsw
  }

  predicate Accessing(s: State) {
    s == SelectApBank0 || s == SelectApBank1 || s == SetCsw || s == SetTar || s == AccessDrw || s == AccessBd
  }

  /** The cached TAR is the target's or the marker for none. */
  predicate TarOk(tar: nat, v: Target) { tar == v.tar || tar == INVALID }

  /** v is the target once every command issued is executed. */
  predicate Knows(ap: nat, s: State, c: Cache, v: Target) {
    && SelFits(c.sel) && ap < 0x100 && v.inc <= 1 && TarOk(c.tar, v)
    && (if c.init then
          && c.sel == v.sel && c.sel.apsel == ap && c.sel.dpbank == 0
          && CswFits(c.csw) && c.csw.inc == v.inc && c.csw.width == v.width
          && s != Disabled && s != CacheApCsw && s != ReadApCsw
          && (s == UpdateApCsw ==> c.sel.apbank == 0)
        else
          && c.tar == INVALID && (s == Disabled || s == WriteDpSelect || s == CacheApCsw || s == ReadApCsw)
          && (s == CacheApCsw || s == ReadApCsw ==> c.sel == v.sel && c.sel == Sel(ap, c.sel.res, 0, 0)))
  }

  /** A transfer the bus may ask for. */
  predicate Askable(b: Bus) {
    b.size <= 2 && b.addr < WORD_END && Aligned(b.addr, b.size)
  }

  /** What each state on the way to an access has already established. */
  predicate OnPath(s: State, b: Bus, c: Cache, v: Target) {
    Accessing(s) ==>
      && c.init && Askable(b) && !b.ready
      && (b.wnr || c.csw.inc == 0)
      && (c.tar == v.tar || b.addr != INVALID)
      && (s == SelectApBank1 || s == AccessBd || s == AccessDrw ==> c.tar == v.tar)
      && (s == SetCsw || s == SetTar || s == AccessDrw ==> c.sel.apbank == 0)
      && (s == SetTar || s == AccessDrw ==> c.csw.width == b.size)
      && (s == AccessDrw ==> c.tar == b.addr)
      && (s == SelectApBank1 || s == AccessBd ==> c.csw.width == b.size == 2 && c.tar / 16 == b.addr / 16)
      && (s == AccessBd ==> c.sel.apbank == 1)
  }

  /** The access the transfer in hand asks for. */
  function Wanted(b: Bus): Access {
    Access(b.wnr, b.addr, b.size, if b.wnr then b.data else 0)
  }

  /** The decision tree picks a state whose premises hold. */
  lemma Decides(ap: nat, b: Bus, c: Cache, v: Target)
    requires Knows(ap, Idle, c, v) && Askable(b) && !b.ready && (b.wnr || c.csw.inc == 0)
    requires c.tar == v.tar || !Marked(c.csw.width, b.addr, b.size)
    ensures Knows(ap, Decide(b, c), c, v) && OnPath(Decide(b, c), b, c, v) && Accessing(Decide(b, c))
  {
  }

  /** The cache once r's command is sent and nothing fails. */
  function CacheSent(r: Regs, i: In): Cache {
    Cache(if r.state == UpdateApCsw then r.cache.csw.(inc := if i.sequential then 1 else 0)
          else if r.state == SetCsw then r.cache.csw.(width := r.bus.size) else r.cache.csw,
          match r.state
          case WriteDpSelect => Sel(i.apsel, r.cache.sel.res, 0, 0)
          case SelectApBank0 => r.cache.sel.(apbank := 0)
          case SelectApBank1 => r.cache.sel.(apbank := 1)
          case _ => r.cache.sel,
          if r.state == SetTar then r.bus.addr
          else if r.state == AccessDrw && r.bus.wnr && r.cache.csw.inc == INC_SINGLE then
            Add32(r.cache.tar, Bytes(r.cache.csw.width))
          else r.cache.tar,
          r.cache.init)
  }

  lemma SendsSetup(ap: nat, r: Regs, v: Target, i: In)
    requires Knows(ap, r.state, r.cache, v) && i.apsel == ap
    requires r.state == WriteDpSelect || r.state == CacheApCsw
    ensures var c := Command(r, i);
      Knows(ap, Onward(r), CacheSent(r, i), Apply(ap, v, c)) && EffectOf(ap, v, c) == None && Between(Onward(r))
  {
    SelRoundTrip(Sel(i.apsel, r.cache.sel.res, 0, 0));
  }

  lemma SendsUpdate(ap: nat, r: Regs, v: Target, i: In)
    requires Knows(ap, r.state, r.cache, v) && r.state == UpdateApCsw
    ensures var c := Command(r, i);
      Knows(ap, Onward(r), CacheSent(r, i), Apply(ap, v, c)) && EffectOf(ap, v, c) == None && Between(Onward(r))
  {
    CswRoundTrip(r.cache.csw.(inc := if i.sequential then 1 else 0));
  }

  /** One more command towards the access. */
  predicate Advances(ap: nat, r: Regs, v: Target, i: In) {
    var c := Command(r, i);
    && Knows(ap, Onward(r), CacheSent(r, i), Apply(ap, v, c))
    && OnPath(Onward(r), r.bus, CacheSent(r, i), Apply(ap, v, c))
    && Accessing(Onward(r)) && EffectOf(ap, v, c) == None
  }

  lemma SendsSelect0(ap: nat, r: Regs, v: Target, i: In)
    requires Knows(ap, r.state, r.cache, v) && OnPath(r.state, r.bus, r.cache, v) && r.state == SelectApBank0
    ensures Advances(ap, r, v, i)
  {
    SelRoundTrip(r.cache.sel.(apbank := 0, dpbank := 0));
  }

  lemma SendsSelect1(ap: nat, r: Regs, v: Target, i: In)
    requires Knows(ap, r.state, r.cache, v) && OnPath(r.state, r.bus, r.cache, v) && r.state == SelectApBank1
    ensures Advances(ap, r, v, i)
  {
    SelRoundTrip(r.cache.sel.(apbank := 1, dpbank := 0));
  }

  lemma SendsCsw(ap: nat, r: Regs, v: Target, i: In)
    requires Knows(ap, r.state, r.cache, v) && OnPath(r.state, r.bus, r.cache, v) && r.state == SetCsw
    ensures Advances(ap, r, v, i)
    ensures WordCsw(Command(r, i).data) == r.cache.csw.(width := r.bus.size)
  {
    CswRoundTrip(r.cache.csw.(width := r.bus.size));
  }

  lemma SendsTar(ap: nat, r: Regs, v: Target, i: In)
    requires Knows(ap, r.state, r.cache, v) && OnPath(r.state, r.bus, r.cache, v) && r.state == SetTar
    ensures Advances(ap, r, v, i)
  {
  }

  /** The access itself, at the address and size and with the data wanted. */
  predicate Performs(ap: nat, r: Regs, v: Target, i: In) {
    var c := Command(r, i);
    && Knows(ap, Onward(r), CacheSent(r, i), Apply(ap, v, c)) && Onward(r) == AhbResp
    && EffectOf(ap, v, c) == Some(Wanted(r.bus))
  }

  /** DRW: the cached TAR counts as the target's does. */
  lemma SendsDrw(ap: nat, r: Regs, v: Target, i: In)
    requires Knows(ap, r.state, r.cache, v) && OnPath(r.state, r.bus, r.cache, v) && r.state == AccessDrw
    ensures Performs(ap, r, v, i)
  {
  }

  lemma BankedAddress(addr: nat, tar: nat)
    requires addr % 4 == 0 && addr / 16 == tar / 16
    ensures tar / 16 * 16 + addr / 4 % 4 * 4 == addr
  {
    assert addr / 4 / 4 == addr / 16;
  }

  lemma BankedCommand(ap: nat, v: Target, n: nat, write: bool, data: nat)
    requires v.sel.apsel == ap && v.sel.apbank == 1 && n < 4
    ensures var c := if write then ApWrite(AP_BD0 + n, data) else ApRead(AP_BD0 + n);
      && Apply(ap, v, c) == v
      && EffectOf(ap, v, c) == Some(Access(write, v.tar / 16 * 16 + n * 4, v.width, if write then data else 0))
  {
  }

  /** BD0 to BD3: TAR only shares the access's sixteen bytes. */
  lemma SendsBd(ap: nat, r: Regs, v: Target, i: In)
    requires Knows(ap, r.state, r.cache, v) && OnPath(r.state, r.bus, r.cache, v) && r.state == AccessBd
    ensures Performs(ap, r, v, i)
  {
    BankedCommand(ap, v, r.bus.addr / 4 % 4, r.bus.wnr, r.bus.data);
    BankedAddress(r.bus.addr, r.cache.tar);
  }

  // ---------- the response counters

  /** Responses the bridge has taken in. */
  function Received(y: Sys): int { y.rd - (if y.b.link.check then 1 else 0) }

  /** The low three bits of a count. */
  function Wrap(n: nat): nat { if n < 8 then n else Wrap(n - 8) }

  predicate Numbered(l: Link, issued: nat, received: int) {
    0 <= received <= issued <= received + 7 && l.sent == Wrap(issued) && l.recvd == Wrap(received)
  }

  /** Three bits are enough: never more than seven commands are outstanding, so the counters agree exactly when
      none is, and `resp` is the answer to the last command answered. */
  predicate Counts(y: Sys) {
    Answering(y) && Numbered(y.b.link, |Issued(y)|, Received(y))
  }

  lemma {:induction false} WrapIsMod(n: nat)
    ensures Wrap(n) == n % 8
  {
    if n >= 8 { WrapIsMod(n - 8); }
  }

  lemma BumpWrap(n: nat)
    ensures Bump(Wrap(n)) == Wrap(n + 1)
  {
    WrapIsMod(n);
    WrapIsMod(n + 1);
  }

  lemma ThreeBits(issued: nat, received: nat)
    requires received <= issued <= received + 7
    ensures Wrap(issued) == Wrap(received) <==> issued == received
    ensures Wrap(issued + 1) == Wrap(received) <==> issued == received + 7
    ensures Bump(Wrap(issued)) == Wrap(issued + 1) && Bump(Wrap(received)) == Wrap(received + 1)
  {
    BumpWrap(issued);
    BumpWrap(received);
    WrapIsMod(issued);
    WrapIsMod(issued + 1);
    WrapIsMod(received);
  }

  predicate Now(y: Sys, k: Tick, ap: nat) { SendsNow(y.b, Input(y, k, ap)) }

  lemma IssuedStep(y: Sys, k: Tick, ap: nat)
    requires y.b.state == Disabled || y.b.state == AhbErrorWait ==> !y.b.link.wren
    ensures Issued(SysNext(y, k, ap)) == Issued(y) + (if Now(y, k, ap) then [Command(y.b, Input(y, k, ap))] else [])
    ensures SysNext(y, k, ap).b.link.sent == if Now(y, k, ap) then Bump(y.b.link.sent) else y.b.link.sent
  {
  }

  /** The counters after one clock that may send, take in, answer and read one response. */
  lemma CountNext(issued: nat, received: int, sends: bool, takes: bool, l: Link, l': Link)
    requires Numbered(l, issued, received) && (sends ==> Bump(l.sent) != l.recvd) && (takes ==> received < issued)
    requires l'.sent == (if sends then Bump(l.sent) else l.sent) &&
             l'.recvd == (if takes then Bump(l.recvd) else l.recvd)
    ensures Numbered(l', if sends then issued + 1 else issued, if takes then received + 1 else received)
  {
    ThreeBits(issued, received);
  }

  /** Everything of Counts but the counters. */
  predicate Answering(y: Sys) {
    && y.rd <= |y.answers| <= |y.pushed|
    && (y.b.link.check ==> y.rd > 0 && y.rddata == y.answers[y.rd - 1])
    && (Received(y) > 0 ==> y.b.link.resp == y.answers[Received(y) - 1].word)
  }

  lemma AnswerStep(y: Sys, k: Tick, ap: nat)
    requires Answering(y) && Flows(y, k)
    ensures Answering(SysNext(y, k, ap))
    ensures Received(SysNext(y, k, ap)) == if y.b.link.check then Received(y) + 1 else Received(y)
  {
  }

  lemma LinkStep(y: Sys, k: Tick, ap: nat)
    requires y.b.state == Disabled || y.b.state == AhbErrorWait ==> !y.b.link.wren
    ensures var y' := SysNext(y, k, ap);
      && |Issued(y')| == (if Now(y, k, ap) then |Issued(y)| + 1 else |Issued(y)|)
      && y'.b.link.sent == (if Now(y, k, ap) then Bump(y.b.link.sent) else y.b.link.sent)
      && y'.b.link.recvd == (if y.b.link.check then Bump(y.b.link.recvd) else y.b.link.recvd)
    ensures Now(y, k, ap) ==> Bump(y.b.link.sent) != y.b.link.recvd
  {
    IssuedStep(y, k, ap);
  }

  lemma CountStep(y: Sys, k: Tick, ap: nat)
    requires Counts(y) && Flows(y, k)
    requires y.b.state == Disabled || y.b.state == AhbErrorWait ==> !y.b.link.wren
    ensures Counts(SysNext(y, k, ap))
  {
    LinkStep(y, k, ap);
    AnswerStep(y, k, ap);
    CountNext(|Issued(y)|, Received(y), Now(y, k, ap), y.b.link.check, y.b.link, SysNext(y, k, ap).b.link);
  }

  /** cmd_complete means what it says. */
  lemma CompleteMeansAnswered(y: Sys)
    requires Counts(y)
    ensures Complete(y.b.link) <==> Received(y) == |Issued(y)|
    ensures Complete(y.b.link) && Issued(y) != [] ==>
      |y.answers| == |y.pushed| == |Issued(y)| && y.b.link.resp == y.answers[|Issued(y)| - 1].word
  {
    ThreeBits(|Issued(y)|, Received(y));
  }
}
