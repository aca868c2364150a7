/** The bridge's mark for no cached TAR is also an address: what that does to a run's first transfer, and exactly
    when. */
module BridgeLimits {
  import opened Adiv5
  import opened DebugBridge
  import opened BridgeSystem
  import opened BridgeKnowledge
  import opened BridgePreserve
  import opened BridgeTheorems

  /** Where an access goes that relies on a cached TAR when the target's is `tar`. */
  function Missed(cached: nat, tar: nat, a: Access): Access {
    a.(addr := if a.addr == cached then tar else tar / 16 * 16 + a.addr % 16)
  }

  function ToGo(s: State): nat {
    match s case SelectApBank0 => 4 case SetCsw => 3 case SetTar => 2 case SelectApBank1 => 1 case _ => 0
  }

  /** The access the target is made in the end when the bridge is on its way to one. */
  function PathEnd(ap: nat, r: Regs, v: Target, i: In): Effect
    requires Accessing(r.state) && !r.bus.ready
    decreases ToGo(r.state)
  {
    if r.state == AccessDrw || r.state == AccessBd then EffectOf(ap, v, Command(r, i))
    else PathEnd(ap, r.(state := Onward(r), cache := CacheSent(r, i)), Apply(ap, v, Command(r, i)), i)
  }

  /** What stays true on the way to an access that never sets TAR. */
  predicate Straying(r: Regs, cached: nat) {
    && r.cache.tar == cached && r.state != SetTar
    && (r.state == SelectApBank0 || r.state == SetCsw ==> r.bus.addr == cached)
    && (r.state == SelectApBank1 || r.state == AccessBd ==> r.bus.addr != cached)
  }

  lemma LowBits(addr: nat)
    requires addr % 4 == 0
    ensures addr / 4 % 4 * 4 == addr % 16
  {
  }

  /** The access at its end: `v` is the target with its TAR as cached, `tar` where it really is. */
  lemma StraysTo(ap: nat, r: Regs, v: Target, i: In, tar: nat)
    requires Knows(ap, r.state, r.cache, v) && OnPath(r.state, r.bus, r.cache, v) && Straying(r, v.tar)
    requires r.state == AccessDrw || r.state == AccessBd
    ensures EffectOf(ap, v.(tar := tar), Command(r, i)) == Some(Missed(v.tar, tar, Wanted(r.bus)))
  {
    if r.state == AccessBd {
      BankedCommand(ap, v.(tar := tar), r.bus.addr / 4 % 4, r.bus.wnr, r.bus.data);
      LowBits(r.bus.addr);
    }
  }

  /** A command before it. */
  lemma StraysOn(ap: nat, r: Regs, v: Target, i: In, tar: nat)
    requires Knows(ap, r.state, r.cache, v) && OnPath(r.state, r.bus, r.cache, v) && Straying(r, v.tar)
    requires Accessing(r.state) && r.state != AccessDrw && r.state != AccessBd
    ensures var c := Command(r, i);
      && EffectOf(ap, v.(tar := tar), c) == None && Apply(ap, v.(tar := tar), c) == Apply(ap, v, c).(tar := tar)
      && Apply(ap, v, c).tar == v.tar && Straying(r.(state := Onward(r), cache := CacheSent(r, i)), v.tar)
  {
  }

  lemma {:induction false} Arrives(ap: nat, r: Regs, v: Target, i: In)
    requires Knows(ap, r.state, r.cache, v) && OnPath(r.state, r.bus, r.cache, v) && Accessing(r.state) && i.apsel == ap
    ensures PathEnd(ap, r, v, i) == Some(Wanted(r.bus))
    decreases ToGo(r.state)
  {
    SendsKnows(ap, r, v, i);
    if r.state != AccessDrw && r.state != AccessBd {
      Arrives(ap, r.(state := Onward(r), cache := CacheSent(r, i)), Apply(ap, v, Command(r, i)), i);
    }
  }

  lemma {:induction false} GoesAstray(ap: nat, r: Regs, v: Target, i: In, tar: nat)
    requires Knows(ap, r.state, r.cache, v) && OnPath(r.state, r.bus, r.cache, v) && Accessing(r.state) && i.apsel == ap
    requires Straying(r, v.tar)
    ensures PathEnd(ap, r, v.(tar := tar), i) == Some(Missed(v.tar, tar, Wanted(r.bus)))
    decreases ToGo(r.state)
  {
    if r.state == AccessDrw || r.state == AccessBd { StraysTo(ap, r, v, i, tar); }
    else {
      StraysOn(ap, r, v, i, tar);
      SendsKnows(ap, r, v, i);
      GoesAstray(ap, r.(state := Onward(r), cache := CacheSent(r, i)), Apply(ap, v, Command(r, i)), i, tar);
    }
  }

  /** No TAR is cached, and the bridge has decided how to make the access asked for. */
  predicate Unset(ap: nat, r: Regs, v: Target) {
    && Knows(ap, Idle, r.cache, v) && r.cache.tar == INVALID
    && Askable(r.bus) && !r.bus.ready && (r.bus.wnr || r.cache.csw.inc == 0)
    && r.state == Decide(r.bus, r.cache)
  }

  lemma UnsetEnds(ap: nat, r: Regs, v: Target, i: In)
    requires Unset(ap, r, v) && i.apsel == ap
    ensures Accessing(r.state)
    ensures PathEnd(ap, r, v, i) ==
      Some(if Marked(r.cache.csw.width, r.bus.addr, r.bus.size) then Missed(INVALID, v.tar, Wanted(r.bus))
           else Wanted(r.bus))
  {
    if Marked(r.cache.csw.width, r.bus.addr, r.bus.size) {
      Decides(ap, r.bus, r.cache, v.(tar := INVALID));
      GoesAstray(ap, r, v.(tar := INVALID), i, v.tar);
      assert v.(tar := INVALID).(tar := v.tar) == v;
    } else {
      Decides(ap, r.bus, r.cache, v);
      Arrives(ap, r, v, i);
    }
  }

  /** An access the marker stands for is right only where TAR is in its sixteen bytes, or for a byte on it. */
  lemma MissedWhen(tar: nat, a: Access)
    requires a.addr == INVALID || (a.size == WIDTH_WORD && a.addr / 16 == INVALID / 16)
    ensures Missed(INVALID, tar, a) == a <==> if a.addr == INVALID then tar == INVALID else tar / 16 == INVALID / 16
  {
  }

  /** With no TAR cached, the access made is the one asked for wherever the target's TAR is, exactly when the
      marker does not stand for it: when it is not the last byte, nor a word of the last sixteen bytes for which
      CSW already has the width. */
  lemma MarkerIsAnAddress(ap: nat, r: Regs, v: Target, i: In)
    requires Unset(ap, r, v) && i.apsel == ap
    ensures Accessing(r.state)
    ensures (forall tar: nat :: tar < WORD_END ==> PathEnd(ap, r, v.(tar := tar), i) == Some(Wanted(r.bus))) <==>
            !Marked(r.cache.csw.width, r.bus.addr, r.bus.size)
  {
    UnsetEnds(ap, r, v, i);
    forall tar: nat | tar < WORD_END
      ensures PathEnd(ap, r, v.(tar := tar), i) ==
        Some(if Marked(r.cache.csw.width, r.bus.addr, r.bus.size) then Missed(INVALID, tar, Wanted(r.bus))
             else Wanted(r.bus))
    {
      UnsetEnds(ap, r, v.(tar := tar), i);
    }
    if Marked(r.cache.csw.width, r.bus.addr, r.bus.size) {
      MissedWhen(0, Wanted(r.bus));
      assert PathEnd(ap, r, v.(tar := 0), i) == Some(Missed(INVALID, 0, Wanted(r.bus)));
    }
  }

  // ---------- in runs it matters to the first transfer only

  /** Every run, whatever the first transfer. */
  predicate IsFreeRun(w: World, states: seq<Sys>, ticks: seq<Tick>) {
    && WorldOk(w)
    && |states| == |ticks| + 1 && AtStart(states[0])
    && forall i :: 0 <= i < |ticks| ==>
         Clocked(w, states[i], ticks[i]) && ModeOk(states[i], ticks[i]) &&
           states[i + 1] == SysNext(states[i], ticks[i], w.ap)
  }

  /** The same target with its TAR at the marker's value, which the bridge can not tell apart. */
  function Parked(w: World): World { w.(target := w.target.(tar := INVALID)) }

  lemma {:induction false} TarBlind(ap: nat, t: Target, tar: nat, cmds: seq<Cmd>)
    ensures After(ap, t.(tar := tar), cmds).(tar := 0) == After(ap, t, cmds).(tar := 0)
  {
    if cmds != [] { TarBlind(ap, t, tar, cmds[..|cmds| - 1]); }
  }

  lemma AnswersBlind(ap: nat, t: Target, u: Target, c: Cmd, word: nat)
    requires t.(tar := 0) == u.(tar := 0)
    ensures Answers(ap, t, c, word) == Answers(ap, u, c, word)
  {
    assert t.sel == u.(tar := 0).sel && t.inc == u.(tar := 0).inc && t.width == u.(tar := 0).width;
  }

  lemma ParkedTick(w: World, y: Sys, k: Tick)
    requires Clocked(w, y, k) && ModeOk(y, k)
    ensures TickOk(Parked(w), y, k)
  {
    if k.answer.Answer? {
      TarBlind(w.ap, w.target, INVALID, y.pushed[..|y.answers|]);
      AnswersBlind(w.ap, TargetAt(w, y, |y.answers|), TargetAt(Parked(w), y, |y.answers|), y.pushed[|y.answers|],
                   k.answer.reply.word);
    }
  }

  lemma ParkedRun(w: World, states: seq<Sys>, ticks: seq<Tick>)
    requires IsFreeRun(w, states, ticks)
    ensures IsRun(Parked(w), states, ticks)
  {
    forall i | 0 <= i < |ticks|
      ensures TickOk(Parked(w), states[i], ticks[i]) && states[i + 1] == SysNext(states[i], ticks[i], Parked(w).ap)
    {
      ParkedTick(w, states[i], ticks[i]);
    }
  }

  /** At most one transfer was asked for, and the marker stands for that. */
  predicate First(w: World, y: Sys) {
    |y.asked| <= 1 && (y.asked != [] ==> Marked(w.target.width, y.asked[0].addr, y.asked[0].size))
  }

  /** TAR is never set before the first access, which goes where TAR was. */
  predicate Stray(w: World, y: Sys) {
    var p := Parked(w);
    if Accesses(p.ap, p.target, Issued(y)) == [] then
      && Accesses(w.ap, w.target, Issued(y)) == []
      && Virtual(w, y) == Virtual(p, y).(tar := w.target.tar)
      && Virtual(p, y).tar == INVALID && Straying(y.b, INVALID)
      && (Between(y.b.state) ==> Virtual(p, y).width == w.target.width)
    else
      y.asked != [] && Accesses(w.ap, w.target, Issued(y)) == [Missed(INVALID, w.target.tar, y.asked[0])]
  }

  /** Setting up leaves TAR alone, wherever it is. */
  lemma Roams(ap: nat, r: Regs, v: Target, i: In, tar: nat)
    requires Knows(ap, r.state, r.cache, v) && Between(r.state) && Sends(r.state) && i.apsel == ap
    ensures var c := Command(r, i);
      && EffectOf(ap, v.(tar := tar), c) == None && Apply(ap, v.(tar := tar), c) == Apply(ap, v, c).(tar := tar)
      && Apply(ap, v, c).tar == v.tar && Apply(ap, v, c).width == v.width && CacheSent(r, i).tar == r.cache.tar
      && Between(Onward(r))
  {
    if r.state == UpdateApCsw { SendsUpdate(ap, r, v, i); } else { SendsSetup(ap, r, v, i); }
  }

  /** Deciding on an access the marker stands for. */
  lemma DecidesAstray(b: Bus, c: Cache)
    requires c.tar == INVALID && Askable(b) && Marked(c.csw.width, b.addr, b.size)
    ensures Decide(b, c) != SetTar && (Decide(b, c) == SelectApBank0 || Decide(b, c) == SetCsw ==> b.addr == INVALID)
    ensures Decide(b, c) == SelectApBank1 || Decide(b, c) == AccessBd ==> b.addr != INVALID
  {
  }

  lemma RestStrays(r: Regs, i: In)
    requires !SendsNow(r, i) && Straying(r, INVALID) && Heard(r, i)
    requires Accessing(r.state) ==> i.request.Quiet?
    requires r.state == Idle && r.bus.pending ==>
      i.request.Quiet? && Askable(r.bus) && Marked(r.cache.csw.width, r.bus.addr, r.bus.size)
    ensures Straying(Step(r, i), INVALID)
  {
    TarRests(r, i);
    if r.state == Idle && r.bus.pending { DecidesAstray(r.bus, r.cache); }
  }

  lemma StrayRests(w: World, y: Sys, k: Tick)
    requires Standing(Parked(w), y) && TickOk(Parked(w), y, k) && Stray(w, y) && First(w, y)
    requires Accesses(w.ap, Parked(w).target, Issued(y)) == [] && !Now(y, k, w.ap)
    ensures Stray(w, SysNext(y, k, w.ap))
  {
    var p := Parked(w);
    VirtualStep(p, y, k);
    StateStep(p, y, k);
    RestStrays(y.b, Input(y, k, w.ap));
  }

  /** A command before the way to the access. */
  lemma StrayRoams(w: World, y: Sys, k: Tick)
    requires Standing(Parked(w), y) && TickOk(Parked(w), y, k) && Stray(w, y)
    requires Accesses(w.ap, Parked(w).target, Issued(y)) == [] && Now(y, k, w.ap) && Between(y.b.state)
    ensures Stray(w, SysNext(y, k, w.ap))
  {
    var p, i := Parked(w), Input(y, k, w.ap);
    VirtualStep(w, y, k);
    VirtualStep(p, y, k);
    SendsCache(y.b, i);
    Roams(w.ap, y.b, Virtual(p, y), i, w.target.tar);
  }

  /** A command on the way, the access not yet among them. */
  lemma StraySends(w: World, y: Sys, k: Tick)
    requires Standing(Parked(w), y) && TickOk(Parked(w), y, k) && Stray(w, y)
    requires Accesses(w.ap, Parked(w).target, Issued(y)) == [] && Now(y, k, w.ap) && Accessing(y.b.state)
    requires y.b.state != AccessDrw && y.b.state != AccessBd
    ensures Stray(w, SysNext(y, k, w.ap))
  {
    var p, i := Parked(w), Input(y, k, w.ap);
    VirtualStep(w, y, k);
    VirtualStep(p, y, k);
    SendsCache(y.b, i);
    StraysOn(w.ap, y.b, Virtual(p, y), i, w.target.tar);
    SendsKnows(w.ap, y.b, Virtual(p, y), i);
  }

  /** The access itself. */
  lemma StrayLands(w: World, y: Sys, k: Tick)
    requires Standing(Parked(w), y) && TickOk(Parked(w), y, k) && Stray(w, y) && First(w, SysNext(y, k, w.ap))
    requires Accesses(w.ap, Parked(w).target, Issued(y)) == [] && Now(y, k, w.ap)
    requires y.b.state == AccessDrw || y.b.state == AccessBd
    ensures Stray(w, SysNext(y, k, w.ap))
  {
    VirtualStep(w, y, k);
    AccessStep(Parked(w), y, k);
    StraysTo(w.ap, y.b, Virtual(Parked(w), y), Input(y, k, w.ap), w.target.tar);
  }

  lemma NoneBlind(ap: nat, t: Target, u: Target, c: Cmd)
    requires t.(tar := 0) == u.(tar := 0)
    ensures EffectOf(ap, t, c) == None <==> EffectOf(ap, u, c) == None
  {
    assert t.sel == u.(tar := 0).sel;
  }

  /** Nothing more is accessed until the next transfer. */
  lemma NothingMore(w: World, y: Sys, k: Tick)
    requires Standing(Parked(w), y) && TickOk(Parked(w), y, k) && !Accessing(y.b.state)
    ensures Accesses(w.ap, w.target, Issued(SysNext(y, k, w.ap))) == Accesses(w.ap, w.target, Issued(y))
  {
    var p := Parked(w);
    VirtualStep(w, y, k);
    if Now(y, k, w.ap) {
      SendsKnows(w.ap, y.b, Virtual(p, y), Input(y, k, w.ap));
      TarBlind(w.ap, w.target, INVALID, Issued(y));
      NoneBlind(w.ap, Virtual(w, y), Virtual(p, y), Command(y.b, Input(y, k, w.ap)));
    }
  }

  /** Once the only transfer's access is made it waits for its answer, or is over. */
  lemma AfterAccess(r: Regs, asked: seq<Access>, acc: seq<Access>)
    requires Handed(r.state, r.bus, asked, acc) && acc != [] && |asked| == 1
    ensures !Accessing(r.state) && !r.bus.latch
  {
  }

  lemma AskedStays(y: Sys, k: Tick, ap: nat)
    requires !y.b.bus.latch && y.asked != [] && |SysNext(y, k, ap).asked| <= 1
    ensures SysNext(y, k, ap).asked == y.asked
  {
  }

  lemma StrayStays(w: World, y: Sys, k: Tick)
    requires Standing(Parked(w), y) && TickOk(Parked(w), y, k) && Stray(w, y) && First(w, y) &&
             First(w, SysNext(y, k, w.ap))
    requires Accesses(w.ap, Parked(w).target, Issued(y)) != []
    ensures Stray(w, SysNext(y, k, w.ap))
  {
    AfterAccess(y.b, y.asked, Accesses(w.ap, Parked(w).target, Issued(y)));
    AccessStep(Parked(w), y, k);
    NothingMore(w, y, k);
    AskedStays(y, k, w.ap);
  }

  lemma StrayStep(w: World, y: Sys, k: Tick)
    requires SysInv(Parked(w), y) && TickOk(Parked(w), y, k) && Stray(w, y) && First(w, y) &&
             First(w, SysNext(y, k, w.ap))
    ensures Stray(w, SysNext(y, k, w.ap))
  {
    Stands(Parked(w), y);
    if Accesses(w.ap, Parked(w).target, Issued(y)) != [] { StrayStays(w, y, k); }
    else if !Now(y, k, w.ap) { StrayRests(w, y, k); }
    else if y.b.state == AccessDrw || y.b.state == AccessBd { StrayLands(w, y, k); }
    else if Between(y.b.state) { StrayRoams(w, y, k); }
    else { StraySends(w, y, k); }
  }

  lemma FirstBefore(w: World, y: Sys, k: Tick)
    requires First(w, SysNext(y, k, w.ap))
    ensures First(w, y)
  {
  }

  lemma {:induction false} StrayRun(w: World, states: seq<Sys>, ticks: seq<Tick>, i: nat)
    requires IsFreeRun(w, states, ticks) && IsRun(Parked(w), states, ticks) && i < |states| && First(w, states[i])
    ensures Stray(w, states[i])
  {
    if i > 0 {
      assert states[i - 1 + 1] == SysNext(states[i - 1], ticks[i - 1], w.ap);
      FirstBefore(w, states[i - 1], ticks[i - 1]);
      StrayRun(w, states, ticks, i - 1);
      RunInv(Parked(w), states, ticks, i - 1);
      StrayStep(w, states[i - 1], ticks[i - 1]);
    }
  }

  /** A transfer asked for keeps its address and size. */
  lemma {:induction false} FirstKept(w: World, states: seq<Sys>, ticks: seq<Tick>, j: nat, i: nat)
    requires IsFreeRun(w, states, ticks) && j <= i < |states| && states[j].asked != []
    ensures states[i].asked != []
    ensures states[i].asked[0].addr == states[j].asked[0].addr && states[i].asked[0].size == states[j].asked[0].size
    decreases i
  {
    if j < i {
      FirstKept(w, states, ticks, j, i - 1);
      assert states[i - 1 + 1] == SysNext(states[i - 1], ticks[i - 1], w.ap);
    }
  }

  /** A run up to its first transfer, when the marker does not stand for that. */
  lemma UnmarkedRun(w: World, states: seq<Sys>, ticks: seq<Tick>, i: nat)
    requires IsFreeRun(w, states, ticks) && i < |states| && states[i].asked != []
    requires !Marked(w.target.width, states[i].asked[0].addr, states[i].asked[0].size)
    ensures IsRun(w, states[..i + 1], ticks[..i])
  {
    forall j | 0 <= j < i
      ensures TickOk(w, states[j], ticks[j]) && states[j + 1] == SysNext(states[j], ticks[j], w.ap)
    {
      if ticks[j].request.Request? && states[j].asked == [] { FirstKept(w, states, ticks, j + 1, i); }
    }
  }

  /** In every run the first transfer's access is the one asked for, or the one at the target's own TAR if the
      marker stands for it; so it is right exactly when the marker does not, or TAR happens to be there. */
  lemma FirstTransfer(w: World, states: seq<Sys>, ticks: seq<Tick>, i: nat)
    requires IsFreeRun(w, states, ticks) && i < |ticks|
    requires !states[i].b.bus.ready && states[i + 1].b.bus.ready && |states[i].asked| == 1
    ensures var a, acc := states[i].asked[0], Accesses(w.ap, w.target, states[i].pushed);
      && acc == [if Marked(w.target.width, a.addr, a.size) then Missed(INVALID, w.target.tar, a) else a]
      && (acc == [a] <==>
            Marked(w.target.width, a.addr, a.size) ==>
              if a.addr == INVALID then w.target.tar == INVALID else w.target.tar / 16 == INVALID / 16)
  {
    var a := states[i].asked[0];
    ParkedRun(w, states, ticks);
    RunInv(Parked(w), states, ticks, i);
    EndsAnswered(Parked(w), states[i], ticks[i]);
    if Marked(w.target.width, a.addr, a.size) {
      StrayRun(w, states, ticks, i);
      MissedWhen(w.target.tar, a);
    } else {
      UnmarkedRun(w, states, ticks, i);
      RunInv(w, states[..i + 1], ticks[..i], i);
      Transparent(w, states[..i + 1], ticks[..i], i);
      SameCount(w, states[i].pushed);
    }
  }

  lemma {:induction false} AsMany(ap: nat, t: Target, tar: nat, cmds: seq<Cmd>)
    ensures |Accesses(ap, t.(tar := tar), cmds)| == |Accesses(ap, t, cmds)|
  {
    if cmds != [] {
      var front := cmds[..|cmds| - 1];
      AsMany(ap, t, tar, front);
      TarBlind(ap, t, tar, front);
      NoneBlind(ap, After(ap, t.(tar := tar), front), After(ap, t, front), cmds[|cmds| - 1]);
    }
  }

  lemma SameCount(w: World, cmds: seq<Cmd>)
    ensures |Accesses(w.ap, w.target, cmds)| == |Accesses(w.ap, Parked(w).target, cmds)|
  {
    AsMany(w.ap, w.target, INVALID, cmds);
  }
}
