/** The simulator's GPIO link: the two ends verilator_utils/GPIOServer.cpp and verilator_utils/GPIOClient.cpp send
    each other their changed outputs. */
module GpioLink {
  /** A uint64_t, low bit first. */
  type Signals = w: seq<bool> | |w| == 64 witness seq(64, _ => false)

  const FLUSH: nat := 0xFF

  function Command(i: nat, level: bool): nat { if level then i % 128 + 128 else i % 128 }

  /** The commands for the signals below `n` that differ. */
  function Changes(was: Signals, now: Signals, n: nat): (s: seq<nat>)
    requires n <= 31
    ensures |s| <= n
    ensures forall k :: 0 <= k < |s| ==> s[k] != FLUSH
  {
    if n == 0 then []
    else Changes(was, now, n - 1) + (if was[n - 1] != now[n - 1] then [Command(n - 1, now[n - 1])] else [])
  }

  function Inverted(w: Signals): Signals { seq(64, i requires 0 <= i < 64 => !w[i]) }

  /** What a command does to the receiver's word. */
  function Apply(w: Signals, cmd: nat, count: nat): Signals {
    var off := cmd % 128;
    if off < count && off < 64 then w[off := cmd / 128 % 2 == 1] else w
  }

  function ApplyAll(w: Signals, cmds: seq<nat>, count: nat): Signals
    decreases cmds
  {
    if cmds == [] then w else ApplyAll(Apply(w, cmds[0], count), cmds[1..], count)
  }

  /** The bytes one poll consumes: up to and including a flush, or all there are. */
  function Polled(cmds: seq<nat>): (n: nat)
    ensures n <= |cmds|
    decreases cmds
  {
    if cmds == [] then 0 else if cmds[0] == FLUSH then 1 else 1 + Polled(cmds[1..])
  }

  /** One end of the link. The client closes an update with a flush byte, the server does not. `count` is
      input_cnt and output_cnt; `1 << i` is an int in the source, so signals 0 to 30 are its range. */
  class GpioEnd {
    const client: bool
    const count: nat
    var output: Signals
    var init: bool

    constructor (client: bool, count: nat, output: Signals)
      requires count <= 31
      ensures this.client == client && this.count == count && this.output == output && !init
    {
      this.client, this.count, this.output, init := client, count, output, false;
    }

    /** GPIOClient.cpp:48-78 and GPIOServer.cpp:16-43. */
    method SendOutputs(now: Signals) returns (data: seq<nat>)
      requires count <= 31
      modifies this`output
      ensures data == Update(old(output), now, count, client) && output == now
      ensures |data| <= count + 1
    {
      data := [];
      if now != output {
        for i := 0 to count
          invariant data == Changes(output, now, i)
        {
          if now[i] != output[i] {
            if now[i] { data := data + [i % 128 + 128]; } else { data := data + [i % 128]; }
          }
        }
        if client { data := data + [FLUSH]; }
        output := now;
      }
    }

    /** GPIOClient.cpp:81-121 and GPIOServer.cpp:45-89: send what changed, then apply what has arrived. */
    method Poll(input: Signals, now: Signals, arrived: seq<nat>)
      returns (input': Signals, data: seq<nat>, rest: seq<nat>)
      requires count <= 31
      modifies this
      ensures data == Update(if old(init) then old(output) else Inverted(now), now, count, client)
      ensures output == now && init
      ensures rest == arrived[Polled(arrived)..] && input' == ApplyAll(input, arrived[..Polled(arrived)], count)
      ensures UpToFlush(arrived, arrived[..|arrived| - |rest|])
    {
      if !init {
        output := Inverted(now);
        data := SendOutputs(now);
        init := true;
      } else {
        data := SendOutputs(now);
      }
      input', rest := Receive(input, arrived);
      PolledIs(arrived);
    }

    method Receive(input: Signals, arrived: seq<nat>) returns (input': Signals, rest: seq<nat>)
      requires count <= 31
      ensures rest == arrived[Polled(arrived)..] && input' == ApplyAll(input, arrived[..Polled(arrived)], count)
    {
      input', rest := input, arrived;
      ghost var used := 0;
      while rest != []
        invariant used <= |arrived| && rest == arrived[used..]
        invariant input' == ApplyAll(input, arrived[..used], count)
        invariant Polled(arrived) == used + Polled(rest)
        decreases |rest|
      {
        var cmd := rest[0];
        assert Polled(rest) == if cmd == FLUSH then 1 else 1 + Polled(rest[1..]);
        ApplyLast(input, arrived[..used], cmd, count);
        assert arrived[..used + 1] == arrived[..used] + [cmd];
        rest := rest[1..];
        used := used + 1;
        if cmd == FLUSH {
          assert used == Polled(arrived);
          break;
        }
        var off := cmd % 128;
        if off < count {
          if cmd / 128 % 2 == 1 { input' := input'[off := true]; } else { input' := input'[off := false]; }
        }
      }
      assert used == Polled(arrived);
    }
  }

  /** What one poll takes of the bytes that have arrived: all of them if none is a flush, or else those up to and
      with the first that is. */
  predicate UpToFlush(arrived: seq<nat>, used: seq<nat>) {
    && used <= arrived && (forall k :: 0 <= k < |used| - 1 ==> used[k] != FLUSH)
    && (if FLUSH in arrived then used != [] && used[|used| - 1] == FLUSH else used == arrived)
  }

  lemma {:induction false} PolledIs(arrived: seq<nat>)
    ensures UpToFlush(arrived, arrived[..Polled(arrived)])
    decreases arrived
  {
    if arrived != [] && arrived[0] != FLUSH {
      PolledIs(arrived[1..]);
      var used, less := arrived[..Polled(arrived)], arrived[1..][..Polled(arrived[1..])];
      assert used == [arrived[0]] + less;
      assert FLUSH in arrived <==> FLUSH in arrived[1..];
    }
  }

  /** A poll applies the update before a flush, and leaves what follows for the next. */
  lemma PollsOneUpdate(input: Signals, a: seq<nat>, b: seq<nat>, count: nat)
    requires FLUSH !in a && count <= 31
    ensures var arrived := a + [FLUSH] + b;
      && arrived[Polled(arrived)..] == b
      && ApplyAll(input, arrived[..Polled(arrived)], count) == ApplyAll(input, a, count)
  {
    var arrived := a + [FLUSH] + b;
    PolledIs(arrived);
    assert arrived[|a|] == FLUSH && Polled(arrived) == |a| + 1;
    assert arrived[..|a| + 1] == a + [FLUSH];
    Flushed(input, a, count);
  }

  function Update(was: Signals, now: Signals, count: nat, client: bool): (data: seq<nat>)
    requires count <= 31
    ensures |data| <= count + 1
  {
    if now == was then [] else Changes(was, now, count) + (if client then [FLUSH] else [])
  }

  lemma {:induction false} ApplyLast(w: Signals, cmds: seq<nat>, cmd: nat, count: nat)
    ensures ApplyAll(w, cmds + [cmd], count) == Apply(ApplyAll(w, cmds, count), cmd, count)
    decreases cmds
  {
    if cmds == [] {
      assert cmds + [cmd] == [cmd];
    } else {
      assert (cmds + [cmd])[1..] == cmds[1..] + [cmd];
      ApplyLast(Apply(w, cmds[0], count), cmds[1..], cmd, count);
    }
  }

  lemma {:induction false} ApplyConcat(w: Signals, a: seq<nat>, b: seq<nat>, count: nat)
    ensures ApplyAll(w, a + b, count) == ApplyAll(ApplyAll(w, a, count), b, count)
    decreases a
  {
    if a == [] {
      assert a + b == b;
    } else {
      assert (a + b)[1..] == a[1..] + b;
      ApplyConcat(Apply(w, a[0], count), a[1..], b, count);
    }
  }

  // ---------- convergence

  predicate Agree(a: Signals, b: Signals, count: nat)
    requires count <= 31
  {
    forall i :: 0 <= i < count ==> a[i] == b[i]
  }

  /** The commands for the changes below n put exactly those signals right. */
  lemma {:induction false} ChangesApplied(w: Signals, was: Signals, now: Signals, n: nat, count: nat)
    requires n <= count <= 31
    ensures var r := ApplyAll(w, Changes(was, now, n), count);
      forall i :: 0 <= i < 64 ==> r[i] == if i < n && was[i] != now[i] then now[i] else w[i]
  {
    if n > 0 {
      ChangesApplied(w, was, now, n - 1, count);
      if was[n - 1] != now[n - 1] {
        ApplyLast(w, Changes(was, now, n - 1), Command(n - 1, now[n - 1]), count);
        CommandDecodes(n - 1, now[n - 1]);
      } else {
        assert Changes(was, now, n) == Changes(was, now, n - 1);
      }
    }
  }

  /** An update's commands are for signals that differ, at the level they have now, lowest first. */
  lemma {:induction false} CommandsOnlyForChanges(was: Signals, now: Signals, n: nat, k: nat)
    requires n <= 31 && k < |Changes(was, now, n)|
    ensures IsChange(was, now, n, Changes(was, now, n)[k])
    ensures forall j :: 0 <= j < k ==> Changes(was, now, n)[j] % 128 < Changes(was, now, n)[k] % 128
    decreases n
  {
    var before := Changes(was, now, n - 1);
    if k < |before| {
      CommandsOnlyForChanges(was, now, n - 1, k);
    } else {
      CommandDecodes(n - 1, now[n - 1]);
      forall j | 0 <= j < k ensures before[j] % 128 < n - 1 {
        CommandsOnlyForChanges(was, now, n - 1, j);
      }
    }
  }

  /** A command for one of the first n signals, that differs. */
  predicate IsChange(was: Signals, now: Signals, n: nat, cmd: nat)
    requires n <= 31
  {
    var i := cmd % 128;
    i < n && was[i] != now[i] && now[i] == (cmd >= 128)
  }

  /** And every signal that differs has one. */
  lemma {:induction false} CommandForEachChange(was: Signals, now: Signals, n: nat, i: nat)
    requires i < n <= 31 && was[i] != now[i]
    ensures Command(i, now[i]) in Changes(was, now, n)
    decreases n
  {
    if i < n - 1 { CommandForEachChange(was, now, n - 1, i); }
  }

  lemma CommandDecodes(i: nat, level: bool)
    requires i < 31
    ensures Command(i, level) % 128 == i && (Command(i, level) / 128 % 2 == 1) == level == (Command(i, level) >= 128)
  {
  }

  /** A flush byte changes no signal. */
  lemma Flushed(w: Signals, cmds: seq<nat>, count: nat)
    requires count <= 31
    ensures ApplyAll(w, cmds + [FLUSH], count) == ApplyAll(w, cmds, count)
  {
    ApplyLast(w, cmds, FLUSH, count);
  }

  lemma UpdateGives(w: Signals, was: Signals, now: Signals, count: nat, client: bool)
    requires count <= 31 && now != was
    ensures ApplyAll(w, Update(was, now, count, client), count) == ApplyAll(w, Changes(was, now, count), count)
  {
    var cmds := Changes(was, now, count);
    if client { Flushed(w, cmds, count); } else { assert cmds + [] == cmds; }
  }

  lemma UpdateApplied(w: Signals, was: Signals, now: Signals, count: nat, client: bool)
    requires count <= 31 && Agree(w, was, count)
    ensures Agree(ApplyAll(w, Update(was, now, count, client), count), now, count)
  {
    if now != was {
      ChangesApplied(w, was, now, count, count);
      UpdateGives(w, was, now, count, client);
    }
  }

  /** The first update names every signal, so it is right whatever the receiver had. */
  lemma FirstUpdateApplied(w: Signals, now: Signals, count: nat, client: bool)
    requires count <= 31
    ensures Agree(ApplyAll(w, Update(Inverted(now), now, count, client), count), now, count)
  {
    assert Inverted(now)[0] != now[0];
    ChangesApplied(w, Inverted(now), now, count, count);
    UpdateGives(w, Inverted(now), now, count, client);
  }

  /** One direction of the link: the sender's cached outputs, the bytes on their way and the receiver's word. */
  datatype Wire = Wire(output: Signals, init: bool, channel: seq<nat>, input: Signals)

  /** The sender polls with its outputs at `now`; or the receiver does when `ready` of the bytes have arrived. */
  datatype Event = Send(now: Signals) | Receive(ready: nat)

  function WireNext(y: Wire, e: Event, count: nat, client: bool): Wire
    requires count <= 31
  {
    match e
    case Send(now) =>
      Wire(now, true, y.channel + Update(if y.init then y.output else Inverted(now), now, count, client), y.input)
    case Receive(ready) =>
      var got := if ready <= |y.channel| then y.channel[..ready] else y.channel;
      Wire(y.output, y.init, y.channel[Polled(got)..], ApplyAll(y.input, got[..Polled(got)], count))
  }

  function Run(y: Wire, events: seq<Event>, count: nat, client: bool): Wire
    requires count <= 31
    decreases events
  {
    if events == [] then y else Run(WireNext(y, events[0], count, client), events[1..], count, client)
  }

  predicate WireOk(y: Wire, count: nat)
    requires count <= 31
  {
    if y.init then Agree(ApplyAll(y.input, y.channel, count), y.output, count) else y.channel == []
  }

  lemma WireStep(y: Wire, e: Event, count: nat, client: bool)
    requires count <= 31 && WireOk(y, count)
    ensures WireOk(WireNext(y, e, count, client), count)
  {
    match e
    case Send(now) =>
      var w := ApplyAll(y.input, y.channel, count);
      var u := Update(if y.init then y.output else Inverted(now), now, count, client);
      ApplyConcat(y.input, y.channel, u, count);
      if y.init { UpdateApplied(w, y.output, now, count, client); } else { FirstUpdateApplied(w, now, count, client); }
    case Receive(ready) =>
      var got := if ready <= |y.channel| then y.channel[..ready] else y.channel;
      assert y.channel == got[..Polled(got)] + y.channel[Polled(got)..];
      ApplyConcat(y.input, got[..Polled(got)], y.channel[Polled(got)..], count);
  }

  lemma {:induction false} RunOk(y: Wire, events: seq<Event>, count: nat, client: bool)
    requires count <= 31 && WireOk(y, count)
    ensures WireOk(Run(y, events, count, client), count)
    decreases events
  {
    if events != [] {
      WireStep(y, events[0], count, client);
      RunOk(WireNext(y, events[0], count, client), events[1..], count, client);
    }
  }

  /** However output changes, polls and deliveries interleave, once the sender has polled the bytes on their way
      would bring the receiver's signals to the sender's; so whenever none are, both ends agree. */
  lemma Converges(output: Signals, input: Signals, events: seq<Event>, count: nat, client: bool)
    requires count <= 31
    ensures var y := Run(Wire(output, false, [], input), events, count, client);
      y.init ==>
        && Agree(ApplyAll(y.input, y.channel, count), y.output, count)
        && (y.channel == [] ==> Agree(y.input, y.output, count))
  {
    RunOk(Wire(output, false, [], input), events, count, client);
  }

  // ---------- no update of the client's is skipped

  /** The wire, the outputs of every update the client has sent, and how many flushes the server has met. */
  datatype Link = Link(y: Wire, updates: seq<Signals>, taken: nat)

  function Flushes(bytes: seq<nat>): nat {
    if bytes == [] then 0 else Flushes(bytes[..|bytes| - 1]) + (if bytes[|bytes| - 1] == FLUSH then 1 else 0)
  }

  /** What the sender sends and the receiver takes on an event. */
  function Sent(y: Wire, now: Signals, count: nat): seq<nat>
    requires count <= 31
  {
    Update(if y.init then y.output else Inverted(now), now, count, true)
  }

  function Got(y: Wire, ready: nat): seq<nat> {
    var got := if ready <= |y.channel| then y.channel[..ready] else y.channel;
    got[..Polled(got)]
  }

  function LinkNext(l: Link, e: Event, count: nat): Link
    requires count <= 31
  {
    var y' := WireNext(l.y, e, count, true);
    match e
    case Send(now) => Link(y', if Sent(l.y, now, count) != [] then l.updates + [now] else l.updates, l.taken)
    case Receive(ready) => Link(y', l.updates, l.taken + Flushes(Got(l.y, ready)))
  }

  /** Applying the bytes before any flush on its way gives the outputs of the update it closes. */
  predicate ClosesUpdate(l: Link, count: nat, n: nat)
    requires count <= 31 && n < |l.y.channel|
  {
    var j := l.taken + Flushes(l.y.channel[..n]);
    l.y.channel[n] == FLUSH ==>
      j < |l.updates| && Agree(ApplyAll(l.y.input, l.y.channel[..n], count), l.updates[j], count)
  }

  predicate LinkOk(l: Link, count: nat)
    requires count <= 31
  {
    && WireOk(l.y, count) && l.taken + Flushes(l.y.channel) == |l.updates|
    && forall n :: 0 <= n < |l.y.channel| ==> ClosesUpdate(l, count, n)
  }

  lemma {:induction false} FlushesConcat(a: seq<nat>, b: seq<nat>)
    ensures Flushes(a + b) == Flushes(a) + Flushes(b)
    decreases b
  {
    if b == [] {
      assert a + b == a;
    } else {
      assert (a + b)[..|a + b| - 1] == a + b[..|b| - 1];
      FlushesConcat(a, b[..|b| - 1]);
    }
  }

  lemma {:induction false} NoFlushes(s: seq<nat>)
    requires forall k :: 0 <= k < |s| ==> s[k] != FLUSH
    ensures Flushes(s) == 0
  {
    if s != [] { NoFlushes(s[..|s| - 1]); }
  }

  lemma OneFlush(s: seq<nat>)
    requires s != [] && s[|s| - 1] == FLUSH && forall k :: 0 <= k < |s| - 1 ==> s[k] != FLUSH
    ensures Flushes(s) == 1
  {
    NoFlushes(s[..|s| - 1]);
  }

  /** The changes an update sends make the receiver's word the outputs now, whatever is on the way before them. */
  lemma ChangesLand(y: Wire, now: Signals, count: nat)
    requires count <= 31 && WireOk(y, count) && Sent(y, now, count) != []
    ensures var c := Changes(if y.init then y.output else Inverted(now), now, count);
      Sent(y, now, count) == c + [FLUSH] && Agree(ApplyAll(y.input, y.channel + c, count), now, count)
  {
    var was := if y.init then y.output else Inverted(now);
    var w := ApplyAll(y.input, y.channel, count);
    ApplyConcat(y.input, y.channel, Changes(was, now, count), count);
    ChangesApplied(w, was, now, count, count);
  }

  /** A flush on its way before an update closes what it did. */
  lemma EarlierCloses(l: Link, l': Link, more: seq<nat>, now: Signals, count: nat, n: nat)
    requires count <= 31 && n < |l.y.channel| && ClosesUpdate(l, count, n) && l'.y.channel == l.y.channel + more
    requires l'.y.input == l.y.input && l'.taken == l.taken && l'.updates == l.updates + [now]
    ensures ClosesUpdate(l', count, n)
  {
    assert l'.y.channel[..n] == l.y.channel[..n];
  }

  /** Its own closes it. */
  lemma OwnCloses(l: Link, l': Link, before: seq<nat>, now: Signals, count: nat)
    requires count <= 31 && l'.y.channel == before + [FLUSH] && Agree(ApplyAll(l.y.input, before, count), now, count)
    requires l'.y.input == l.y.input && l'.updates == l.updates + [now] && l'.taken + Flushes(before) == |l.updates|
    ensures ClosesUpdate(l', count, |before|)
  {
    assert l'.y.channel[..|before|] == before;
  }

  /** What an update adds: its changes, which hold no flush, and one. */
  lemma SendAdds(l: Link, now: Signals, count: nat) returns (c: seq<nat>)
    requires count <= 31 && LinkOk(l, count) && Sent(l.y, now, count) != []
    ensures forall k :: 0 <= k < |c| ==> c[k] != FLUSH
    ensures var l' := LinkNext(l, Send(now), count);
      && l'.y.channel == l.y.channel + c + [FLUSH] && l'.taken + Flushes(l'.y.channel) == |l'.updates|
      && Flushes(l.y.channel + c) == Flushes(l.y.channel)
    ensures Agree(ApplyAll(l.y.input, l.y.channel + c, count), now, count)
  {
    c := Changes(if l.y.init then l.y.output else Inverted(now), now, count);
    ChangesLand(l.y, now, count);
    NoFlushes(c);
    FlushesConcat(l.y.channel, c);
    assert l.y.channel + c + [FLUSH] == l.y.channel + (c + [FLUSH]);
    FlushesConcat(l.y.channel + c, [FLUSH]);
    OneFlush([FLUSH]);
  }

  lemma LinkSends(l: Link, now: Signals, count: nat)
    requires count <= 31 && LinkOk(l, count) && Sent(l.y, now, count) != []
    ensures LinkOk(LinkNext(l, Send(now), count), count)
  {
    var l' := LinkNext(l, Send(now), count);
    WireStep(l.y, Send(now), count, true);
    var c := SendAdds(l, now, count);
    var m := |l.y.channel|;
    OwnCloses(l, l', l.y.channel + c, now, count);
    assert l'.y.channel == l.y.channel + (c + [FLUSH]);
    forall n | 0 <= n < |l'.y.channel| ensures ClosesUpdate(l', count, n) {
      if n < m {
        assert ClosesUpdate(l, count, n);
        EarlierCloses(l, l', c + [FLUSH], now, count, n);
      } else if n < m + |c| {
        assert l'.y.channel[n] == c[n - m];
      }
    }
  }

  /** A flush still on its way closes the update it did. */
  lemma StillCloses(l: Link, l': Link, used: seq<nat>, count: nat, n: nat)
    requires count <= 31 && l.y.channel == used + l'.y.channel && n < |l'.y.channel|
    requires l'.y.input == ApplyAll(l.y.input, used, count)
    requires l'.updates == l.updates && l'.taken == l.taken + Flushes(used)
    requires ClosesUpdate(l, count, |used| + n)
    ensures ClosesUpdate(l', count, n)
  {
    assert l.y.channel[..|used| + n] == used + l'.y.channel[..n];
    FlushesConcat(used, l'.y.channel[..n]);
    ApplyConcat(l.y.input, used, l'.y.channel[..n], count);
  }

  lemma LinkReceives(l: Link, ready: nat, count: nat)
    requires count <= 31 && LinkOk(l, count)
    ensures LinkOk(LinkNext(l, Receive(ready), count), count)
  {
    var l', used := LinkNext(l, Receive(ready), count), Got(l.y, ready);
    WireStep(l.y, Receive(ready), count, true);
    assert l.y.channel == used + l'.y.channel;
    FlushesConcat(used, l'.y.channel);
    forall n | 0 <= n < |l'.y.channel| ensures ClosesUpdate(l', count, n) {
      StillCloses(l, l', used, count, n);
    }
  }

  lemma LinkStep(l: Link, e: Event, count: nat)
    requires count <= 31 && LinkOk(l, count)
    ensures LinkOk(LinkNext(l, e, count), count)
  {
    match e
    case Send(now) =>
      if Sent(l.y, now, count) != [] {
        LinkSends(l, now, count);
      } else {
        WireStep(l.y, e, count, true);
        var l' := LinkNext(l, e, count);
        assert l'.y.channel == l.y.channel;
        forall n | 0 <= n < |l'.y.channel| ensures ClosesUpdate(l', count, n) { assert ClosesUpdate(l, count, n); }
      }
    case Receive(ready) => LinkReceives(l, ready, count);
  }

  function LinkRun(l: Link, events: seq<Event>, count: nat): Link
    requires count <= 31
    decreases events
  {
    if events == [] then l else LinkRun(LinkNext(l, events[0], count), events[1..], count)
  }

  lemma {:induction false} LinkRunOk(l: Link, events: seq<Event>, count: nat)
    requires count <= 31 && LinkOk(l, count)
    ensures LinkOk(LinkRun(l, events, count), count)
    decreases events
  {
    if events != [] {
      LinkStep(l, events[0], count);
      LinkRunOk(LinkNext(l, events[0], count), events[1..], count);
    }
  }

  /** However changes, polls and deliveries interleave, each of the server's polls meets one flush at most, and the
      poll that meets the next leaves its signals at the client's outputs of that very update: none is skipped. Once
      nothing is on its way it has met them all. */
  lemma EveryUpdateSeen(output: Signals, input: Signals, events: seq<Event>, ready: nat, count: nat)
    requires count <= 31
    ensures var l := LinkRun(Link(Wire(output, false, [], input), [], 0), events, count);
      var l' := LinkNext(l, Receive(ready), count);
      && l.taken <= l'.taken <= l.taken + 1
      && (l'.taken > l.taken ==> l.taken < |l.updates| && Agree(l'.y.input, l.updates[l.taken], count))
      && (l'.y.channel == [] ==> l'.taken == |l.updates|)
  {
    LinkRunOk(Link(Wire(output, false, [], input), [], 0), events, count);
    var l := LinkRun(Link(Wire(output, false, [], input), [], 0), events, count);
    LinkReceives(l, ready, count);
    PollSees(l, ready, count);
  }

  lemma FlushesTaken(got: seq<nat>, used: seq<nat>)
    requires UpToFlush(got, used)
    ensures if used != [] && used[|used| - 1] == FLUSH then Flushes(used) == 1 && Flushes(used[..|used| - 1]) == 0
            else Flushes(used) == 0
  {
    if used != [] && used[|used| - 1] == FLUSH {
      OneFlush(used);
      NoFlushes(used[..|used| - 1]);
    } else {
      assert forall k :: 0 <= k < |used| ==> used[k] != FLUSH;
      NoFlushes(used);
    }
  }

  lemma PollMeets(l: Link, used: seq<nat>, rest: seq<nat>, count: nat)
    requires count <= 31 && LinkOk(l, count) && l.y.channel == used + rest
    requires used != [] && used[|used| - 1] == FLUSH && Flushes(used[..|used| - 1]) == 0
    ensures l.taken < |l.updates| && Agree(ApplyAll(l.y.input, used, count), l.updates[l.taken], count)
  {
    var n := |used| - 1;
    assert ClosesUpdate(l, count, n);
    assert l.y.channel[..n] == used[..n] && used == used[..n] + [FLUSH];
    Flushed(l.y.input, used[..n], count);
  }

  lemma PollSees(l: Link, ready: nat, count: nat)
    requires count <= 31 && LinkOk(l, count)
    ensures var l' := LinkNext(l, Receive(ready), count);
      && l.taken <= l'.taken <= l.taken + 1
      && (l'.taken > l.taken ==> l.taken < |l.updates| && Agree(l'.y.input, l.updates[l.taken], count))
  {
    var got := if ready <= |l.y.channel| then l.y.channel[..ready] else l.y.channel;
    var used := Got(l.y, ready);
    PolledIs(got);
    FlushesTaken(got, used);
    if used != [] && used[|used| - 1] == FLUSH {
      var rest := l.y.channel[|used|..];
      assert l.y.channel == used + rest;
      PollMeets(l, used, rest, count);
    }
  }

  /** Whatever bytes arrive, no signal beyond input_cnt changes. */
  lemma {:induction false} NothingBeyond(w: Signals, cmds: seq<nat>, count: nat, i: nat)
    requires count <= i < 64
    ensures ApplyAll(w, cmds, count)[i] == w[i]
    decreases cmds
  {
    if cmds != [] { NothingBeyond(Apply(w, cmds[0], count), cmds[1..], count, i); }
  }
}
