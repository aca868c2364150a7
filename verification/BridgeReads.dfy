/** The bridge does not count reads: in sequential mode it reads the wrong word, on a run from reset. */
module BridgeReads {
  import opened Adiv5
  import opened DebugBridge
  import opened BridgeSystem
  import opened BridgeKnowledge
  import opened BridgePreserve
  import opened BridgeTheorems
  import opened BridgeLimits

  /** A data access keeps the cached TAR right exactly when it writes or the target does not increment: the
      bridge does not count reads. */
  lemma TarCountsWrites(ap: nat, r: Regs, v: Target, i: In)
    requires Knows(ap, r.state, r.cache, v) && r.state == AccessDrw && r.cache.init && r.cache.sel.apbank == 0
    requires r.cache.csw.width == r.bus.size <= 2 && r.cache.tar == v.tar == r.bus.addr < WORD_END
    ensures CacheSent(r, i).tar == Apply(ap, v, Command(r, i)).tar <==> r.bus.wnr || v.inc != INC_SINGLE
  {
  }

  /** So in sequential mode a second read of an address is served from the one after it. */
  lemma SecondReadMisses(ap: nat, r: Regs, v: Target, i: In)
    requires Knows(ap, r.state, r.cache, v) && r.state == AccessDrw && r.cache.init && r.cache.sel.apbank == 0
    requires r.cache.csw.width == r.bus.size <= 2 && r.cache.tar == v.tar == r.bus.addr < WORD_END
    requires !r.bus.wnr && v.inc == INC_SINGLE
    ensures Decide(r.bus, CacheSent(r, i)) == AccessDrw
    ensures EffectOf(ap, Apply(ap, v, Command(r, i)), Command(r, i)) ==
            Some(Access(false, Add32(r.bus.addr, Bytes(r.bus.size)), r.bus.size, 0))
  {
  }

  // ---------- the access after such a read

  /** The bridge has decided how to make the access asked for; the TAR cached is that of `v`. */
  predicate Decided(ap: nat, r: Regs, v: Target) {
    && Knows(ap, Idle, r.cache, v) && r.cache.tar == v.tar
    && Askable(r.bus) && !r.bus.ready && r.state == Decide(r.bus, r.cache)
  }

  /** The accesses made without setting TAR. */
  predicate Relies(b: Bus, c: Cache) {
    b.addr == c.tar || (b.size == c.csw.width == WIDTH_WORD && b.addr / 16 == c.tar / 16)
  }

  /** A read goes where a write would. */
  lemma {:induction false} AsAWrite(ap: nat, r: Regs, v: Target, i: In)
    requires Accessing(r.state) && !r.bus.ready
    ensures match PathEnd(ap, r.(bus := r.bus.(wnr := true)), v, i)
      case None => PathEnd(ap, r, v, i) == None
      case Some(a) => PathEnd(ap, r, v, i) == Some(Access(r.bus.wnr, a.addr, a.size, if r.bus.wnr then a.data else 0))
    decreases ToGo(r.state)
  {
    if r.state != AccessDrw && r.state != AccessBd {
      AsAWrite(ap, r.(state := Onward(r), cache := CacheSent(r, i)), Apply(ap, v, Command(r, i)), i);
    }
  }

  /** On the way to setting TAR it does not matter where it was. */
  lemma {:induction false} ArrivesAnyway(ap: nat, r: Regs, v: Target, i: In, tar: nat)
    requires Knows(ap, r.state, r.cache, v) && OnPath(r.state, r.bus, r.cache, v) && i.apsel == ap
    requires r.state == SetTar || ((r.state == SelectApBank0 || r.state == SetCsw) && r.bus.addr != r.cache.tar)
    ensures PathEnd(ap, r, v.(tar := tar), i) == Some(Wanted(r.bus))
    decreases ToGo(r.state)
  {
    SendsKnows(ap, r, v, i);
    var r', v' := r.(state := Onward(r), cache := CacheSent(r, i)), Apply(ap, v, Command(r, i));
    if r.state == SetTar {
      Arrives(ap, r', v', i);
    } else {
      assert Apply(ap, v.(tar := tar), Command(r, i)) == v'.(tar := tar);
      ArrivesAnyway(ap, r', v', i, tar);
    }
  }

  lemma WritesWhere(ap: nat, r: Regs, v: Target, i: In, tar: nat)
    requires Decided(ap, r, v) && i.apsel == ap && r.bus.wnr
    ensures Accessing(r.state)
    ensures PathEnd(ap, r, v.(tar := tar), i) ==
      Some(if Relies(r.bus, r.cache) then Missed(v.tar, tar, Wanted(r.bus)) else Wanted(r.bus))
  {
    Decides(ap, r.bus, r.cache, v);
    if Relies(r.bus, r.cache) { GoesAstray(ap, r, v, i, tar); } else { ArrivesAnyway(ap, r, v, i, tar); }
  }

  /** In any mode, and wherever the target's TAR really is, an access that relies on the one cached goes there and
      any other is right. */
  lemma GoesWhere(ap: nat, r: Regs, v: Target, i: In, tar: nat)
    requires Decided(ap, r, v) && i.apsel == ap
    ensures Accessing(r.state)
    ensures PathEnd(ap, r, v.(tar := tar), i) ==
      Some(if Relies(r.bus, r.cache) then Missed(v.tar, tar, Wanted(r.bus)) else Wanted(r.bus))
  {
    var w := r.(bus := r.bus.(wnr := true));
    WritesWhere(ap, w, v, i, tar);
    AsAWrite(ap, r, v.(tar := tar), i);
  }

  /** After a read in sequential mode at the cached TAR, which leaves the target's one access further, the next
      access is the one asked for exactly when it is neither of that address nor of a word of the same sixteen bytes
      that the target's TAR has left. */
  lemma NextAccess(ap: nat, r: Regs, v: Target, i: In)
    requires Decided(ap, r, v) && i.apsel == ap && v.tar < WORD_END && v.width <= 2
    ensures Accessing(r.state)
    ensures var moved := Add32(v.tar, Bytes(v.width));
      PathEnd(ap, r, v.(tar := moved), i) == Some(Wanted(r.bus)) <==>
        !(r.bus.addr == v.tar ||
          (r.bus.size == v.width == WIDTH_WORD && r.bus.addr / 16 == v.tar / 16 != moved / 16))
  {
    GoesWhere(ap, r, v, i, Add32(v.tar, Bytes(v.width)));
  }

  // ---------- a run that reads an address twice

  /** A run in all but that sequential mode is on throughout. */
  predicate IsSequentialRun(w: World, states: seq<Sys>, ticks: seq<Tick>) {
    && WorldOk(w)
    && |states| == |ticks| + 1 && AtStart(states[0])
    && forall i :: 0 <= i < |ticks| ==> InSequence(w, states[i], ticks[i], states[i + 1])
  }

  predicate InSequence(w: World, y: Sys, k: Tick, y': Sys) {
    Clocked(w, y, k) && FirstOk(w, y, k.request) && k.sequential && y' == SysNext(y, k, w.ap)
  }

  /** A target found in single-increment word mode, its CSW 18. */
  function Found(ap: nat): World { World(ap, Target(Sel(0, 0, 0, 0), INC_SINGLE, WIDTH_WORD, 0)) }

  function Select(ap: nat): Cmd { DpWrite(DP_SELECT, SelWord(Sel(ap, 0, 0, 0))) }
  const READ_CSW: Cmd := ApRead(AP_CSW)
  const READ: Cmd := ApRead(AP_DRW)
  const ZERO: Reply := Reply(0, STAT_OK)
  const CSW: Reply := Reply(18, STAT_OK)
  function Blank(ap: nat): Cache { Cache(Csw(0, 0, 0, 0), Sel(ap, 0, 0, 0), INVALID, false) }

  function Reading(a: nat): Access { Access(false, a, 2, 0) }
  function Waiting(a: nat): Bus { Bus(a, 0, false, 2, true, false, false, 0, false) }
  function Taken(a: nat): Bus { Bus(a, 0, false, 2, false, false, false, 0, false) }
  function Known(ap: nat, tar: nat): Cache { Cache(Csw(0x200_0000, 1, 0, 2), Sel(ap, 0, 0, 0), tar, true) }
  function Counted(sent: nat, recvd: nat, check: bool, resp: nat, c: Cmd): Link {
    Link(sent, recvd, check, resp, STAT_OK, false, c)
  }
  function Sending(sent: nat, recvd: nat, resp: nat, c: Cmd): Link {
    Link(sent, recvd, false, resp, STAT_OK, true, c)
  }

  /** While the bridge is enabled, the first read of `a` waiting. */
  function Enabling(s: State, l: Link, c: Cache, pushed: seq<Cmd>, answers: seq<Reply>, rd: nat, rddata: Reply,
                    a: nat): Sys {
    Sys(Regs(s, Waiting(a), l, c), pushed, answers, rd, rddata, [Reading(a)])
  }

  /** While it is served; `more` and `zeros` are the commands and answers since then, `rd` of which are read. */
  function Serving(ap: nat, s: State, b: Bus, l: Link, more: seq<Cmd>, zeros: seq<Reply>, rd: nat, rddata: Reply,
                   asked: seq<Access>): Sys {
    Sys(Regs(s, b, l, Known(ap, b.addr)), [Select(ap), READ_CSW] + more, [ZERO, CSW] + zeros, 2 + rd, rddata, asked)
  }

  /** The states of the run. */
  function Early(ap: nat, a: nat, n: nat): Sys
    requires n <= 9
  {
    match n
    case 0 => Sys(Regs(Disabled, Taken(INVALID).(ready := true), Counted(0, 0, false, 0, READ), Blank(ap)), [], [], 0,
                  ZERO, [])
    case 1 => Enabling(WriteDpSelect, Counted(0, 0, false, 0, READ), Blank(ap), [], [], 0, ZERO, a)
    case 2 => Enabling(CacheApCsw, Sending(1, 0, 0, Select(ap)), Blank(ap), [], [], 0, ZERO, a)
    case 3 => Enabling(ReadApCsw, Sending(2, 0, 0, READ_CSW), Blank(ap), [Select(ap)], [], 0, ZERO, a)
    case 4 => Enabling(ReadApCsw, Counted(2, 0, false, 0, READ_CSW), Blank(ap), [Select(ap), READ_CSW], [ZERO], 0,
                       ZERO, a)
    case 5 => Enabling(ReadApCsw, Counted(2, 0, true, 0, READ_CSW), Blank(ap), [Select(ap), READ_CSW], [ZERO, CSW], 1,
                       ZERO, a)
    case 6 => Enabling(ReadApCsw, Counted(2, 1, true, 0, READ_CSW), Blank(ap), [Select(ap), READ_CSW], [ZERO, CSW], 2,
                       CSW, a)
    case 7 => Enabling(ReadApCsw, Counted(2, 2, false, 18, READ_CSW), Blank(ap), [Select(ap), READ_CSW], [ZERO, CSW],
                       2, CSW, a)
    case 8 => Enabling(Idle, Counted(2, 2, false, 18, READ_CSW), Known(ap, INVALID), [Select(ap), READ_CSW],
                       [ZERO, CSW], 2, CSW, a)
    case 9 => Sys(Regs(SetTar, Taken(a), Counted(2, 2, false, 18, READ_CSW), Known(ap, INVALID)),
                  [Select(ap), READ_CSW], [ZERO, CSW], 2, CSW, [Reading(a)])
  }

  function Late(ap: nat, a: nat, n: nat): Sys
    requires 9 < n <= 19
  {
    var tar := ApWrite(AP_TAR, a);
    match n
    case 10 => Serving(ap, AccessDrw, Taken(a), Sending(3, 2, 18, tar), [], [], 0, CSW, [Reading(a)])
    case 11 => Serving(ap, AhbResp, Taken(a), Sending(4, 2, 18, READ), [tar], [], 0, CSW, [Reading(a)])
    case 12 => Serving(ap, AhbResp, Taken(a), Counted(4, 2, false, 18, READ), [tar, READ], [ZERO], 0, CSW, [Reading(a)])
    case 13 => Serving(ap, AhbResp, Taken(a), Counted(4, 2, true, 18, READ), [tar, READ], [ZERO, ZERO], 1, ZERO,
                       [Reading(a)])
    case 14 => Serving(ap, AhbResp, Taken(a), Counted(4, 3, true, 0, READ), [tar, READ], [ZERO, ZERO], 2, ZERO,
                       [Reading(a)])
    case 15 => Serving(ap, AhbResp, Taken(a), Counted(4, 4, false, 0, READ), [tar, READ], [ZERO, ZERO], 2, ZERO,
                       [Reading(a)])
    case 16 => Serving(ap, Idle, Taken(a).(ready := true), Counted(4, 4, false, 0, READ), [tar, READ], [ZERO, ZERO],
                       2, ZERO, [Reading(a)])
    case 17 => Serving(ap, Idle, Waiting(a), Counted(4, 4, false, 0, READ), [tar, READ], [ZERO, ZERO], 2, ZERO,
                       [Reading(a), Reading(a)])
    case 18 => Serving(ap, AccessDrw, Taken(a), Counted(4, 4, false, 0, READ), [tar, READ], [ZERO, ZERO], 2, ZERO,
                       [Reading(a), Reading(a)])
    case 19 => Serving(ap, AhbResp, Taken(a), Sending(5, 4, 0, READ), [tar, READ], [ZERO, ZERO], 2, ZERO,
                       [Reading(a), Reading(a)])
  }

  function Through(ap: nat, a: nat, n: nat): Sys
    requires n <= 19
  {
    if n <= 9 then Early(ap, a, n) else Late(ap, a, n)
  }

  /** Its clocks: two requests, and the commands answered as they come. */
  function Script(a: nat, n: nat): Tick {
    Tick(true, false, n == 4 || n == 5 || n == 12 || n == 13,
         if n == 0 || n == 16 then Request(false, a, 2) else Quiet, 0,
         if n == 3 || n == 11 || n == 12 then Answer(ZERO) else if n == 4 then Answer(CSW) else Wait)
  }

  predicate Goes(ap: nat, a: nat, n: nat)
    requires n < 19
  {
    InSequence(Found(ap), Through(ap, a, n), Script(a, n), Through(ap, a, n + 1))
  }

  predicate Word(a: nat) { a % 4 == 0 && a < 0xFFFF_FFF0 }

  lemma Begins(ap: nat, a: nat)
    requires Word(a) && ap < 0x100
    ensures Goes(ap, a, 0) && Goes(ap, a, 1)
  {
  }

  lemma AsksCsw(ap: nat, a: nat)
    requires Word(a) && ap < 0x100
    ensures Goes(ap, a, 2) && Goes(ap, a, 3)
  {
  }

  lemma CswAnswered(ap: nat)
    ensures Answers(ap, After(ap, Found(ap).target, [Select(ap)]), READ_CSW, CSW.word)
  {
    OneMore(ap, Found(ap).target, [], Select(ap));
    assert [] + [Select(ap)] == [Select(ap)];
  }

  lemma AnswersCsw(ap: nat, a: nat)
    requires Word(a) && ap < 0x100
    ensures Goes(ap, a, 4)
  {
    var y := Through(ap, a, 4);
    CswAnswered(ap);
    assert y.pushed[..1] == [Select(ap)] && y.pushed[1] == READ_CSW && |y.answers| == 1;
  }

  lemma TakesCsw(ap: nat, a: nat)
    requires Word(a) && ap < 0x100
    ensures Goes(ap, a, 5) && Goes(ap, a, 6)
  {
  }

  lemma FindsCsw(ap: nat, a: nat)
    requires Word(a) && ap < 0x100
    ensures Goes(ap, a, 7) && Goes(ap, a, 8)
  {
  }

  lemma SendsRead(ap: nat, a: nat)
    requires Word(a) && ap < 0x100
    ensures Goes(ap, a, 9) && Goes(ap, a, 10)
  {
  }

  lemma FirstAnswer(ap: nat, a: nat)
    requires Word(a) && ap < 0x100
    ensures Goes(ap, a, 11) && Goes(ap, a, 12)
  {
  }

  lemma TakesAnswers(ap: nat, a: nat)
    requires Word(a) && ap < 0x100
    ensures Goes(ap, a, 13) && Goes(ap, a, 14)
  {
  }

  lemma Ends(ap: nat, a: nat)
    requires Word(a) && ap < 0x100
    ensures Goes(ap, a, 15) && Goes(ap, a, 16)
  {
  }

  lemma ReadsAgain(ap: nat, a: nat)
    requires Word(a) && ap < 0x100
    ensures Goes(ap, a, 17) && Goes(ap, a, 18)
  {
  }

  lemma TwoReads(ap: nat, a: nat)
    requires Word(a) && ap < 0x100
    ensures Accesses(ap, Found(ap).target, [Select(ap), READ_CSW, ApWrite(AP_TAR, a), READ, READ]) ==
            [Reading(a), Reading(a + 4)]
  {
    var t := Found(ap).target;
    var c := [Select(ap), READ_CSW, ApWrite(AP_TAR, a), READ];
    SelRoundTrip(Sel(ap, 0, 0, 0));
    OneMore(ap, t, [], Select(ap));
    OneMore(ap, t, [Select(ap)], READ_CSW);
    OneMore(ap, t, [Select(ap), READ_CSW], ApWrite(AP_TAR, a));
    OneMore(ap, t, [Select(ap), READ_CSW, ApWrite(AP_TAR, a)], READ);
    OneMore(ap, t, c, READ);
    assert [] + [Select(ap)] == [Select(ap)] && [Select(ap)] + [READ_CSW] == [Select(ap), READ_CSW];
    assert [Select(ap), READ_CSW] + [ApWrite(AP_TAR, a)] == [Select(ap), READ_CSW, ApWrite(AP_TAR, a)];
    assert [Select(ap), READ_CSW, ApWrite(AP_TAR, a)] + [READ] == c &&
      c + [READ] == [Select(ap), READ_CSW, ApWrite(AP_TAR, a), READ, READ];
    var v := Apply(ap, After(ap, t, [Select(ap), READ_CSW]), ApWrite(AP_TAR, a));
    assert v == Target(Sel(ap, 0, 0, 0), INC_SINGLE, WIDTH_WORD, a);
    assert Bytes(WIDTH_WORD) == 4;
  }

  lemma FirstHalf(ap: nat, a: nat, n: nat)
    requires Word(a) && ap < 0x100 && n < 9
    ensures Goes(ap, a, n)
  {
    if n < 2 { Begins(ap, a); }
    else if n < 4 { AsksCsw(ap, a); }
    else if n == 4 { AnswersCsw(ap, a); }
    else if n < 7 { TakesCsw(ap, a); }
    else { FindsCsw(ap, a); }
  }

  lemma SecondHalf(ap: nat, a: nat, n: nat)
    requires Word(a) && ap < 0x100 && 9 <= n < 19
    ensures Goes(ap, a, n)
  {
    if n < 11 { SendsRead(ap, a); }
    else if n < 13 { FirstAnswer(ap, a); }
    else if n < 15 { TakesAnswers(ap, a); }
    else if n < 17 { Ends(ap, a); }
    else { ReadsAgain(ap, a); }
  }

  /** For every such address there is a run in sequential mode, from reset, that is asked to read it twice and
      reads the address after it instead. */
  lemma SecondReadRun(ap: nat, a: nat) returns (states: seq<Sys>, ticks: seq<Tick>)
    requires Word(a) && ap < 0x100
    ensures IsSequentialRun(Found(ap), states, ticks)
    ensures var y := states[|ticks|];
      y.asked == [Reading(a), Reading(a)] && Accesses(ap, Found(ap).target, Issued(y)) == [Reading(a), Reading(a + 4)]
  {
    states := seq(20, n requires 0 <= n < 20 => Through(ap, a, n));
    ticks := seq(19, n requires 0 <= n < 19 => Script(a, n));
    forall i | 0 <= i < 19 ensures InSequence(Found(ap), states[i], ticks[i], states[i + 1]) {
      if i < 9 { FirstHalf(ap, a, i); } else { SecondHalf(ap, a, i); }
    }
    assert Issued(Through(ap, a, 19)) == [Select(ap), READ_CSW, ApWrite(AP_TAR, a), READ, READ];
    TwoReads(ap, a);
  }
}
