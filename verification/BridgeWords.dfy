/** The words the bridge writes to SELECT and CSW, bit by bit, and that it sends no command it could do without. */
module BridgeWords {
  import opened Adiv5
  import opened DebugBridge
  import opened BridgeSystem
  import opened BridgeKnowledge
  import opened BridgePreserve
  import opened BridgeTheorems

  // ---------- the words written

  /** `word` is the CSW found with bit 31 set, but for bits 5:4 and 2:0. */
  predicate Carries(found: nat, word: nat) {
    word / 64 == 0x200_0000 + found / 64 % 0x200_0000 && word / 8 % 2 == found / 8 % 2
  }

  /** The cached CSW is the one found but for the fields the bridge sets. */
  predicate Kept(found: nat, c: Csw) {
    c.high == 0x200_0000 + found / 64 % 0x200_0000 && c.bit3 == found / 8 % 2
  }

  /** CSW is the second register read or written, and the answer to that is what is cached. */
  predicate Found(y: Sys) {
    match y.b.state
    case Disabled => |Issued(y)| == 0 && !y.b.cache.init
    case WriteDpSelect =>
      if y.b.cache.init then |y.answers| >= 2 && Kept(y.answers[1].word, y.b.cache.csw) else |Issued(y)| == 0
    case CacheApCsw => |Issued(y)| == 1
    case ReadApCsw => |Issued(y)| == 2
    case _ => |y.answers| >= 2 && Kept(y.answers[1].word, y.b.cache.csw)
  }

  /** Command n is a SELECT or a CSW write with the word it should have, if it writes either. */
  predicate WordOk(w: World, answers: seq<Reply>, cmds: seq<Cmd>, n: nat)
    requires n < |cmds|
  {
    var c, v := cmds[n], After(w.ap, w.target, cmds[..n]);
    && (!c.ap ==>
          && !c.read && c.addr * 4 == SELECT_OFFSET
          && c.data / 0x100_0000 == w.ap && c.data / 16 % 16 <= 1 && c.data % 16 == 0)
    && (c.ap && !c.read && v.sel.apsel == w.ap && Offset(v, c) == CSW_OFFSET ==>
          && |answers| >= 2 && Carries(answers[1].word, c.data)
          && (c.data / 16 % 4 == v.inc || c.data % 8 == v.width))
  }

  lemma SelectWord(s: Sel)
    requires SelFits(s)
    ensures SelWord(s) / 0x100_0000 == s.apsel && SelWord(s) / 16 % 16 == s.apbank && SelWord(s) % 16 == s.dpbank
  {
    SelRoundTrip(s);
    assert WordSel(SelWord(s)).apsel == s.apsel && WordSel(SelWord(s)).apbank == s.apbank;
    assert WordSel(SelWord(s)).dpbank == s.dpbank;
  }

  lemma CswParts(c: Csw)
    requires CswFits(c)
    ensures var w := CswWord(c); w / 64 == c.high && w / 16 % 4 == c.inc && w / 8 % 2 == c.bit3 && w % 8 == c.width
  {
    CswRoundTrip(c);
    var w := CswWord(c);
    assert WordCsw(w).high == c.high && WordCsw(w).inc == c.inc;
    assert WordCsw(w).bit3 == c.bit3 && WordCsw(w).width == c.width;
  }

  /** A CSW write carries what is cached, with one field changed. */
  lemma CswSent(ap: nat, r: Regs, v: Target, i: In, found: nat)
    requires Knows(ap, r.state, r.cache, v) && OnPath(r.state, r.bus, r.cache, v) && r.cache.init
    requires Kept(found, r.cache.csw) && (r.state == SetCsw || r.state == UpdateApCsw)
    ensures var d := Command(r, i).data; Carries(found, d) && (d / 16 % 4 == v.inc || d % 8 == v.width)
    ensures Kept(found, CacheSent(r, i).csw)
  {
    CswParts(if r.state == SetCsw then r.cache.csw.(width := r.bus.size)
             else r.cache.csw.(inc := if i.sequential then 1 else 0));
  }

  lemma SelectSent(ap: nat, r: Regs, v: Target, i: In)
    requires Knows(ap, r.state, r.cache, v) && OnPath(r.state, r.bus, r.cache, v) && i.apsel == ap
    requires r.state == WriteDpSelect || r.state == SelectApBank0 || r.state == SelectApBank1
    ensures var d := Command(r, i).data; d / 0x100_0000 == ap && d / 16 % 16 <= 1 && d % 16 == 0
  {
    SelectWord(if r.state == WriteDpSelect then Sel(i.apsel, r.cache.sel.res, 0, 0)
               else r.cache.sel.(apbank := if r.state == SelectApBank0 then 0 else 1, dpbank := 0));
  }

  /** The states that write neither. */
  lemma OtherSent(ap: nat, r: Regs, v: Target, i: In)
    requires Knows(ap, r.state, r.cache, v) && OnPath(r.state, r.bus, r.cache, v)
    requires r.state == CacheApCsw || r.state == SetTar || r.state == AccessDrw || r.state == AccessBd
    ensures var c := Command(r, i); c.ap && (c.read || Offset(v, c) != CSW_OFFSET)
  {
  }

  lemma NewWordOk(w: World, y: Sys, k: Tick)
    requires SysInv(w, y) && Found(y) && Now(y, k, w.ap)
    ensures WordOk(w, y.answers, Issued(y) + [Command(y.b, Input(y, k, w.ap))], |Issued(y)|)
  {
    var r, v, i := y.b, Virtual(w, y), Input(y, k, w.ap);
    assert (Issued(y) + [Command(r, i)])[..|Issued(y)|] == Issued(y);
    match r.state
    case WriteDpSelect | SelectApBank0 | SelectApBank1 => SelectSent(w.ap, r, v, i);
    case SetCsw | UpdateApCsw => CswSent(w.ap, r, v, i, y.answers[1].word);
    case _ => OtherSent(w.ap, r, v, i);
  }

  predicate Words(y: Sys) { forall n :: 0 <= n < |y.answers| ==> y.answers[n].word < WORD_END }

  /** {1'b1, resp.data[30:0]} */
  lemma EnabledKept(word: nat)
    requires word < WORD_END
    ensures Kept(word, Enabled(word))
  {
  }

  lemma WordsStep(w: World, y: Sys, k: Tick)
    requires Words(y) && Clocked(w, y, k)
    ensures Words(SysNext(y, k, w.ap))
  {
  }

  lemma FoundSends(w: World, y: Sys, k: Tick)
    requires SysInv(w, y) && Found(y) && Now(y, k, w.ap) && TickOk(w, y, k)
    ensures Found(SysNext(y, k, w.ap))
  {
    IssuedStep(y, k, w.ap);
    SendsCache(y.b, Input(y, k, w.ap));
    if y.b.state == SetCsw || y.b.state == UpdateApCsw {
      CswSent(w.ap, y.b, Virtual(w, y), Input(y, k, w.ap), y.answers[1].word);
    }
  }

  lemma FoundRests(w: World, y: Sys, k: Tick)
    requires SysInv(w, y) && Found(y) && Words(y) && !Now(y, k, w.ap) && TickOk(w, y, k)
    ensures Found(SysNext(y, k, w.ap))
  {
    IssuedStep(y, k, w.ap);
    if y.b.state == ReadApCsw && Complete(y.b.link) {
      CompleteMeansAnswered(y);
      EnabledKept(y.answers[1].word);
    } else {
      QuietCache(y.b, Input(y, k, w.ap));
    }
  }

  predicate AllWordsOk(w: World, y: Sys) {
    forall n :: 0 <= n < |Issued(y)| ==> WordOk(w, y.answers, Issued(y), n)
  }

  /** A word once right stays so. */
  lemma OldWordOk(w: World, y: Sys, y': Sys, n: nat)
    requires n < |Issued(y)| && Issued(y) <= Issued(y') && y.answers <= y'.answers && WordOk(w, y.answers, Issued(y), n)
    ensures WordOk(w, y'.answers, Issued(y'), n)
  {
    assert Issued(y')[..n] == Issued(y)[..n];
  }

  lemma AllWordsStep(w: World, y: Sys, k: Tick)
    requires SysInv(w, y) && Found(y) && AllWordsOk(w, y) && TickOk(w, y, k)
    ensures AllWordsOk(w, SysNext(y, k, w.ap))
  {
    var y' := SysNext(y, k, w.ap);
    IssuedStep(y, k, w.ap);
    forall n | 0 <= n < |Issued(y')| ensures WordOk(w, y'.answers, Issued(y'), n) {
      if n < |Issued(y)| {
        OldWordOk(w, y, y', n);
      } else {
        NewWordOk(w, y, k);
        assert y.answers <= y'.answers;
      }
    }
  }

  /** The second command reads CSW. */
  predicate ReadsCswSecond(w: World, cmds: seq<Cmd>) {
    |cmds| >= 2 ==>
      var c, v := cmds[1], After(w.ap, w.target, cmds[..1]);
      c.ap && c.read && v.sel.apsel == w.ap && Offset(v, c) == CSW_OFFSET
  }

  lemma SecondStep(w: World, y: Sys, k: Tick)
    requires SysInv(w, y) && Found(y) && ReadsCswSecond(w, Issued(y)) && Now(y, k, w.ap)
    ensures ReadsCswSecond(w, Issued(y) + [Command(y.b, Input(y, k, w.ap))])
  {
    var cmds := Issued(y) + [Command(y.b, Input(y, k, w.ap))];
    if |Issued(y)| >= 2 { assert cmds[..1] == Issued(y)[..1]; }
    else if |Issued(y)| == 1 { assert cmds[..1] == Issued(y); }
  }

  lemma SecondKept(w: World, y: Sys, k: Tick)
    requires SysInv(w, y) && Found(y) && ReadsCswSecond(w, Issued(y))
    ensures ReadsCswSecond(w, Issued(SysNext(y, k, w.ap)))
  {
    Stands(w, y);
    IssuedStep(y, k, w.ap);
    if Now(y, k, w.ap) { SecondStep(w, y, k); }
  }

  predicate WordsOk(w: World, y: Sys) { Found(y) && Words(y) && AllWordsOk(w, y) && ReadsCswSecond(w, Issued(y)) }

  lemma WordsOkStep(w: World, y: Sys, k: Tick)
    requires SysInv(w, y) && TickOk(w, y, k) && WordsOk(w, y)
    ensures WordsOk(w, SysNext(y, k, w.ap))
  {
    WordsStep(w, y, k);
    if Now(y, k, w.ap) { FoundSends(w, y, k); } else { FoundRests(w, y, k); }
    AllWordsStep(w, y, k);
    SecondKept(w, y, k);
  }

  lemma {:induction false} WordsInv(w: World, states: seq<Sys>, ticks: seq<Tick>, i: nat)
    requires IsRun(w, states, ticks) && i < |states|
    ensures WordsOk(w, states[i])
  {
    if i > 0 {
      WordsInv(w, states, ticks, i - 1);
      RunInv(w, states, ticks, i - 1);
      assert TickOk(w, states[i - 1], ticks[i - 1]) && states[i - 1 + 1] == SysNext(states[i - 1], ticks[i - 1], w.ap);
      WordsOkStep(w, states[i - 1], ticks[i - 1]);
    }
  }

  /** In every run each word written to SELECT names the access port, bank 0 or 1 and DP bank 0; and each word written
      to CSW is the one found there with bit 31 set and only bits 5:4 and 2:0 changed, and only one of those fields at
      a time. */
  lemma WordsWritten(w: World, states: seq<Sys>, ticks: seq<Tick>, i: nat, n: nat)
    requires IsRun(w, states, ticks) && i < |states| && n < |Issued(states[i])|
    ensures var c, v := Issued(states[i])[n], After(w.ap, w.target, Issued(states[i])[..n]);
      && (!c.ap ==>
            && !c.read && c.addr * 4 == SELECT_OFFSET
            && c.data / 0x100_0000 == w.ap && c.data / 16 % 16 <= 1 && c.data % 16 == 0)
      && (c.ap && !c.read && v.sel.apsel == w.ap && Offset(v, c) == CSW_OFFSET ==>
            && |states[i].answers| >= 2
            && c.data / 64 == 0x200_0000 + states[i].answers[1].word / 64 % 0x200_0000
            && c.data / 8 % 2 == states[i].answers[1].word / 8 % 2
            && (c.data / 16 % 4 == v.inc || c.data % 8 == v.width))
  {
    WordsInv(w, states, ticks, i);
    assert WordOk(w, states[i].answers, Issued(states[i]), n);
  }

  /** And the word found is the answer to the second command, a read of CSW. */
  lemma FoundIsCsw(w: World, states: seq<Sys>, ticks: seq<Tick>, i: nat)
    requires IsRun(w, states, ticks) && i < |states| && |Issued(states[i])| >= 2
    ensures var c, v := Issued(states[i])[1], After(w.ap, w.target, Issued(states[i])[..1]);
      c.ap && c.read && v.sel.apsel == w.ap && Offset(v, c) == CSW_OFFSET
  {
    WordsInv(w, states, ticks, i);
  }

  // ---------- no command wasted

  /** What makes each command on the way to an access worth sending. */
  predicate Needed(r: Regs) {
    match r.state
    case SelectApBank0 => r.cache.sel.apbank != 0
    case SelectApBank1 => r.cache.sel.apbank != 1
    case SetCsw => r.cache.csw.width != r.bus.size
    case SetTar => r.cache.tar != r.bus.addr
    case _ => true
  }

  lemma NeededStep(r: Regs, i: In)
    requires Needed(r) && (Accessing(r.state) ==> !r.bus.ready) &&
             (Accessing(r.state) || r.bus.pending ==> i.request.Quiet?)
    requires r.link.check ==> i.rdstat == STAT_OK
    ensures Needed(Step(r, i))
  {
  }

  lemma {:induction false} NeededInv(w: World, states: seq<Sys>, ticks: seq<Tick>, i: nat)
    requires IsRun(w, states, ticks) && i < |states|
    ensures Needed(states[i].b)
  {
    if i > 0 {
      NeededInv(w, states, ticks, i - 1);
      RunInv(w, states, ticks, i - 1);
      var y, k := states[i - 1], ticks[i - 1];
      assert TickOk(w, y, k) && states[i - 1 + 1] == SysNext(y, k, w.ap);
      NeededStep(y.b, Input(y, k, w.ap));
    }
  }

  /** In every run each command on the way to an access changes what the bridge knows of the target: the access is
      commanded alone when bank, width and TAR already serve it. */
  lemma NoneWasted(w: World, states: seq<Sys>, ticks: seq<Tick>, i: nat)
    requires IsRun(w, states, ticks) && i < |ticks| && Now(states[i], ticks[i], w.ap) && Accessing(states[i].b.state)
    ensures states[i + 1].b.state == AhbResp || states[i + 1].b.cache != states[i].b.cache
  {
    NeededInv(w, states, ticks, i);
    RunInv(w, states, ticks, i);
    var y, k := states[i], ticks[i];
    assert TickOk(w, y, k) && states[i + 1] == SysNext(y, k, w.ap);
    SendsCache(y.b, Input(y, k, w.ap));
  }
}
