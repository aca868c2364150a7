/** What holds of the bridge however it is used, in any mode and whatever it is answered: its counters never alias,
    errors are signalled, and every transfer ends. */
module BridgeFlow {
  import opened Adiv5
  import opened DebugBridge
  import opened BridgeSystem
  import opened BridgeKnowledge

  /** Runs of the bridge and its FIFOs: any requests in any mode, and any target that answers each command once,
      well or not. */
  predicate IsFlow(ap: nat, states: seq<Sys>, ticks: seq<Tick>) {
    && |states| == |ticks| + 1 && AtStart(states[0])
    && forall i :: 0 <= i < |ticks| ==> Flows(states[i], ticks[i]) && states[i + 1] == SysNext(states[i], ticks[i], ap)
  }

  // ---------- counters and errors

  /** STAT is sticky, and a transfer that ends in error is on its way out with no command in flight. */
  predicate Sticky(y: Sys)
    requires Received(y) <= |y.answers|
  {
    && (y.b.link.stat == STAT_OK <==> forall n :: 0 <= n < Received(y) ==> y.answers[n].stat == STAT_OK)
    && (y.b.state == AhbErrorWait ==> y.b.bus.error && y.b.link.stat != STAT_OK && Complete(y.b.link))
  }

  predicate FlowOk(y: Sys) {
    && Counts(y) && Sticky(y)
    && (y.b.state == Disabled || y.b.state == AhbErrorWait ==> !y.b.link.wren)
  }

  lemma WrenStep(r: Regs, i: In)
    requires r.state == Disabled || r.state == AhbErrorWait ==> !r.link.wren
    ensures var r' := Step(r, i); r'.state == Disabled || r'.state == AhbErrorWait ==> !r'.link.wren
  {
  }

  lemma StatStep(y: Sys, k: Tick, ap: nat)
    requires Counts(y) && Flows(y, k) && Counts(SysNext(y, k, ap))
    requires y.b.link.stat == STAT_OK <==> forall n :: 0 <= n < Received(y) ==> y.answers[n].stat == STAT_OK
    ensures var y' := SysNext(y, k, ap);
      y'.b.link.stat == STAT_OK <==> forall n :: 0 <= n < Received(y') ==> y'.answers[n].stat == STAT_OK
  {
    AnswerStep(y, k, ap);
    var y' := SysNext(y, k, ap);
    assert y.b.link.check ==> y'.answers[Received(y)] == y.rddata;
    assert forall n :: 0 <= n < Received(y) ==> y'.answers[n] == y.answers[n];
  }

  /** Nothing is taken in once every command is answered. */
  lemma NothingToTake(y: Sys)
    requires Counts(y) && Complete(y.b.link)
    ensures !y.b.link.check && |y.answers| == |Issued(y)| == |y.pushed| == y.rd
  {
    CompleteMeansAnswered(y);
  }

  lemma ErrorStep(r: Regs, i: In)
    requires Complete(r.link) ==> !r.link.check
    requires r.state == AhbErrorWait ==> r.bus.error && r.link.stat != STAT_OK && Complete(r.link)
    ensures var r' := Step(r, i);
      r'.state == AhbErrorWait ==> r'.bus.error && r'.link.stat != STAT_OK && Complete(r'.link)
  {
  }

  lemma FlowStep(y: Sys, k: Tick, ap: nat)
    requires FlowOk(y) && Flows(y, k)
    ensures FlowOk(SysNext(y, k, ap))
  {
    CountStep(y, k, ap);
    WrenStep(y.b, Input(y, k, ap));
    StatStep(y, k, ap);
    if Complete(y.b.link) { NothingToTake(y); }
    ErrorStep(y.b, Input(y, k, ap));
  }

  lemma {:induction false} FlowInv(ap: nat, states: seq<Sys>, ticks: seq<Tick>, i: nat)
    requires IsFlow(ap, states, ticks) && i < |states|
    ensures FlowOk(states[i])
  {
    if i > 0 {
      FlowInv(ap, states, ticks, i - 1);
      assert Flows(states[i - 1], ticks[i - 1]) && states[i - 1 + 1] == SysNext(states[i - 1], ticks[i - 1], ap);
      FlowStep(states[i - 1], ticks[i - 1], ap);
    }
  }

  /** However it is used and answered, at most seven commands await a response, so the three-bit counters are equal
      exactly when every command has been answered and the answer taken in. */
  lemma CountersNeverAlias(ap: nat, states: seq<Sys>, ticks: seq<Tick>, i: nat)
    requires IsFlow(ap, states, ticks) && i < |states|
    ensures var y := states[i];
      && 0 <= Received(y) <= |Issued(y)| <= Received(y) + 7
      && Received(y) <= |y.answers|
      && (Complete(y.b.link) <==> Received(y) == |Issued(y)|)
      && (Received(y) > 0 ==> y.b.link.resp == y.answers[Received(y) - 1].word)
  {
    FlowInv(ap, states, ticks, i);
    CompleteMeansAnswered(states[i]);
  }

  lemma EndsHow(r: Regs, i: In)
    requires !r.bus.ready && NextBus(r, i).ready
    requires r.state == AhbErrorWait ==> r.bus.error && r.link.stat != STAT_OK && Complete(r.link)
    ensures Complete(r.link) && (NextBus(r, i).error <==> r.link.stat != STAT_OK)
    ensures NextBus(r, i).error ==> r.bus.error
  {
  }

  /** A transfer ends once every command has been answered, and with an error, signalled for two clocks, exactly
      when one of the answers since reset was not good. */
  lemma ErrorsSignalled(ap: nat, states: seq<Sys>, ticks: seq<Tick>, i: nat)
    requires IsFlow(ap, states, ticks) && i < |ticks| && !states[i].b.bus.ready && states[i + 1].b.bus.ready
    ensures var y, y' := states[i], states[i + 1];
      && |y.answers| == |y.pushed| == |Issued(y)|
      && (y'.b.bus.error <==> exists n :: 0 <= n < |y.answers| && y.answers[n].stat != STAT_OK)
      && (y'.b.bus.error ==> y.b.bus.error)
  {
    FlowInv(ap, states, ticks, i);
    var y, k := states[i], ticks[i];
    assert states[i + 1] == SysNext(y, k, ap);
    EndsHow(y.b, Input(y, k, ap));
    NothingToTake(y);
  }

  // ---------- every transfer ends

  /** Where the state machine can be while a transfer waits, is under way, or none is in hand. */
  predicate Control(r: Regs) {
    var (s, b) := (r.state, r.bus);
    && (if b.ready then !b.pending && Between(s)
        else if b.pending then Between(s)
        else Accessing(s) || s == AhbResp || s == AhbErrorWait)
    && (if r.cache.init then s != Disabled && s != CacheApCsw && s != ReadApCsw
        else s == Disabled || s == WriteDpSelect || s == CacheApCsw || s == ReadApCsw)
  }

  lemma ControlStep(r: Regs, i: In)
    requires Control(r) && (i.request.Request? ==> r.bus.ready)
    ensures Control(Step(r, i))
  {
  }

  /** The bus waits for the bridge. */
  predicate Patient(states: seq<Sys>, ticks: seq<Tick>) {
    |states| == |ticks| + 1 && forall i :: 0 <= i < |ticks| ==> ticks[i].request.Request? ==> states[i].b.bus.ready
  }

  lemma {:induction false} ControlInv(ap: nat, states: seq<Sys>, ticks: seq<Tick>, i: nat)
    requires IsFlow(ap, states, ticks) && Patient(states, ticks) && i < |states|
    ensures Control(states[i].b)
  {
    if i > 0 {
      ControlInv(ap, states, ticks, i - 1);
      assert states[i - 1 + 1] == SysNext(states[i - 1], ticks[i - 1], ap);
      ControlStep(states[i - 1].b, Input(states[i - 1], ticks[i - 1], ap));
    }
  }

  /** A clock on which queue, target and response FIFO move whenever they can, and the mode stays as it is. */
  predicate Prompt(y: Sys, k: Tick, sequential: bool) {
    && k.request.Quiet? && k.sequential == sequential && !k.full
    && (k.rden <==> y.rd < |y.answers|) && (k.answer.Answer? <==> |y.answers| < |y.pushed|)
  }

  /** How many states there are still to go through. */
  function Rank(r: Regs, sequential: bool): nat {
    match r.state
    case Disabled => 14
    case WriteDpSelect => if r.cache.init then 9 else 13
    case CacheApCsw => 12
    case ReadApCsw => 11
    case Idle => if sequential != Odd(r.cache.csw.inc) then 10 else 7
    case UpdateApCsw => 8
    case SelectApBank0 => 6
    case SetCsw => 5
    case SetTar | SelectApBank1 => 4
    case AccessDrw | AccessBd => 3
    case AhbResp => 2
    case AhbErrorWait => 1
    case IrqScan => 0
  }

  /** Moves of commands and responses still to come before the bridge has taken in every answer. */
  function Traffic(y: Sys): int {
    4 * |Issued(y)| - |y.pushed| - |y.answers| - y.rd - Received(y)
  }

  lemma TrafficFlows(y: Sys, k: Tick, ap: nat, sequential: bool)
    requires FlowOk(y) && Flows(y, k) && Prompt(y, k, sequential)
    ensures 0 <= Traffic(y)
    ensures Traffic(SysNext(y, k, ap)) <= Traffic(y) + (if Now(y, k, ap) then 4 else 0)
    ensures !Now(y, k, ap) && !Complete(y.b.link) ==> Traffic(SysNext(y, k, ap)) < Traffic(y)
  {
    IssuedStep(y, k, ap);
    AnswerStep(y, k, ap);
    CompleteMeansAnswered(y);
  }

  /** On a prompt clock the transfer ends, a state is left behind, or answers are awaited. */
  lemma RankFalls(r: Regs, i: In, sequential: bool)
    requires i.request.Quiet? && i.sequential == sequential && !i.full && !r.bus.ready && Control(r)
    ensures var r' := Step(r, i);
      || r'.bus.ready
      || Rank(r', sequential) < Rank(r, sequential)
      || (!SendsNow(r, i) && Rank(r', sequential) == Rank(r, sequential) && !Complete(r.link))
  {
  }

  /** The clocks a transfer may still take. */
  function Remaining(y: Sys, sequential: bool): int { 5 * Rank(y.b, sequential) + Traffic(y) }

  lemma RemainingFalls(y: Sys, k: Tick, ap: nat, sequential: bool)
    requires FlowOk(y) && Control(y.b) && Flows(y, k) && Prompt(y, k, sequential) && !y.b.bus.ready
    ensures 0 <= Remaining(y, sequential)
    ensures var y' := SysNext(y, k, ap); y'.b.bus.ready || Remaining(y', sequential) < Remaining(y, sequential)
  {
    TrafficFlows(y, k, ap, sequential);
    RankFalls(y.b, Input(y, k, ap), sequential);
  }

  lemma RemainingBounded(y: Sys, sequential: bool)
    requires FlowOk(y)
    ensures 0 <= Remaining(y, sequential) <= 92
  {
  }

  lemma OneLess(ap: nat, states: seq<Sys>, ticks: seq<Tick>, i: nat, sequential: bool)
    requires IsFlow(ap, states, ticks) && Patient(states, ticks) && i < |ticks|
    requires Prompt(states[i], ticks[i], sequential) && !states[i].b.bus.ready && !states[i + 1].b.bus.ready
    ensures Remaining(states[i + 1], sequential) < Remaining(states[i], sequential)
  {
    FlowInv(ap, states, ticks, i);
    ControlInv(ap, states, ticks, i);
    assert Flows(states[i], ticks[i]) && states[i + 1] == SysNext(states[i], ticks[i], ap);
    RemainingFalls(states[i], ticks[i], ap, sequential);
  }

  lemma {:induction false} Descends(f: seq<int>, k: nat, i: nat)
    requires k <= i < |f| && forall j {:trigger f[j]} :: k <= j < i ==> f[j + 1] < f[j]
    ensures f[i] + (i - k) <= f[k]
    decreases i
  {
    if i > k {
      Descends(f, k, i - 1);
      assert f[i - 1 + 1] < f[i - 1];
    }
  }

  lemma StillRemaining(ap: nat, states: seq<Sys>, ticks: seq<Tick>, k: nat, i: nat, sequential: bool)
    requires IsFlow(ap, states, ticks) && Patient(states, ticks) && k <= i < |states|
    requires forall j :: k <= j < i ==> Prompt(states[j], ticks[j], sequential)
    requires forall j :: k <= j <= i ==> !states[j].b.bus.ready
    ensures Remaining(states[i], sequential) + (i - k) <= Remaining(states[k], sequential)
  {
    var f := seq(|states|, j requires 0 <= j < |states| => Remaining(states[j], sequential));
    forall j | k <= j < i ensures f[j + 1] < f[j] {
      OneLess(ap, states, ticks, j, sequential);
    }
    Descends(f, k, i);
  }

  /** Whatever was asked and however it was answered, if queue, target and response FIFO keep moving a transfer in
      hand ends within 93 clocks. */
  lemma EveryTransferEnds(ap: nat, states: seq<Sys>, ticks: seq<Tick>, k: nat, sequential: bool)
    requires IsFlow(ap, states, ticks) && Patient(states, ticks) && k + 93 < |states|
    requires forall j :: k <= j < k + 93 ==> Prompt(states[j], ticks[j], sequential)
    ensures exists j :: k <= j <= k + 93 && states[j].b.bus.ready
  {
    if forall j :: k <= j <= k + 93 ==> !states[j].b.bus.ready {
      StillRemaining(ap, states, ticks, k, k + 93, sequential);
      FlowInv(ap, states, ticks, k);
      FlowInv(ap, states, ticks, k + 93);
      RemainingBounded(states[k], sequential);
      RemainingBounded(states[k + 93], sequential);
    }
  }

  // ---------- what a bad response leaves

  /** A response that is not good makes the cached TAR unknown, unless a command that sets it goes out on the same
      clock: the next access there sets it first. */
  lemma FailureForgetsTar(ap: nat, states: seq<Sys>, ticks: seq<Tick>, i: nat)
    requires IsFlow(ap, states, ticks) && i < |ticks| && states[i].b.link.check && states[i].rddata.stat != STAT_OK
    ensures Received(states[i + 1]) == Received(states[i]) + 1
    ensures 0 <= Received(states[i]) < |states[i].answers| && states[i].answers[Received(states[i])].stat != STAT_OK
    ensures states[i + 1].b.cache.tar == INVALID ||
            (Now(states[i], ticks[i], ap) && (states[i].b.state == SetTar || states[i].b.state == AccessDrw))
  {
    FlowInv(ap, states, ticks, i);
    assert Flows(states[i], ticks[i]) && states[i + 1] == SysNext(states[i], ticks[i], ap);
    AnswerStep(states[i], ticks[i], ap);
  }

  // ---------- a full queue is not written

  /** No command goes out on the clock after one on which the queue was full. */
  lemma HoldsWhenFull(ap: nat, states: seq<Sys>, ticks: seq<Tick>, i: nat)
    requires IsFlow(ap, states, ticks) && i < |ticks| && ticks[i].full
    ensures !states[i + 1].b.link.wren
  {
    FlowInv(ap, states, ticks, i);
    assert states[i + 1] == SysNext(states[i], ticks[i], ap);
  }
}
