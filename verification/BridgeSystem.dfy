/** The bridge on its bus and its command queue: every AHB transfer becomes exactly one access of the target's
    memory, at the transfer's address and size. */
module BridgeSystem {
  import opened Adiv5
  import opened DebugBridge

  /** A response: its data and its status, which need not be STAT_OK. */
  datatype Reply = Reply(word: nat, stat: nat)
  datatype Answer = Wait | Answer(reply: Reply)

  /** The inputs of one clock: the target may execute its next command and answer. */
  datatype Tick = Tick(sequential: bool, full: bool, rden: bool, request: Request, hwdata: nat, answer: Answer)

  /** `pushed` is every command written to the FIFO and `answers` every response to them, of which `rd` have
      been read; `rddata` is the response FIFO's output register. For the proofs, `asked` lists the AHB
      transfers accepted. */
  datatype Sys = Sys(b: Regs, pushed: seq<Cmd>, answers: seq<Reply>, rd: nat, rddata: Reply, asked: seq<Access>)

  /** The commands issued: those pushed and the one on its way. */
  function Issued(y: Sys): seq<Cmd> {
    y.pushed + (if y.b.link.wren then [y.b.link.wrdata] else [])
  }

  function Input(y: Sys, k: Tick, ap: nat): In {
    In(k.sequential, ap, k.full, k.rden, y.rddata.word, y.rddata.stat, k.request, k.hwdata)
  }

  /** The transfers accepted: a write's data arrives the clock after its address. */
  function AskedNext(asked: seq<Access>, r: Regs, i: In): seq<Access> {
    (if r.bus.latch && asked != [] then asked[|asked| - 1 := asked[|asked| - 1].(data := i.hwdata)] else asked)
    + (match i.request case Quiet => [] case Request(write, addr, size) => [Access(write, addr, size, 0)])
  }

  function SysNext(y: Sys, k: Tick, ap: nat): Sys {
    Sys(Step(y.b, Input(y, k, ap)),
        Issued(y),
        if k.answer.Answer? then y.answers + [k.answer.reply] else y.answers,
        if k.rden then y.rd + 1 else y.rd,
        if k.rden && y.rd < |y.answers| then y.answers[y.rd] else y.rddata,
        AskedNext(y.asked, y.b, Input(y, k, ap)))
  }

  /** What surrounds the bridge: the access port `ap` of a target that starts as `target`. */
  datatype World = World(ap: nat, target: Target)

  /** The target once it has executed n of the commands. */
  function TargetAt(w: World, y: Sys, n: nat): Target
    requires n <= |y.pushed|
  {
    After(w.ap, w.target, y.pushed[..n])
  }

  predicate Aligned(addr: nat, size: nat) {
    (size == 1 ==> addr % 2 == 0) && (size == 2 ==> addr % 4 == 0)
  }

  /** The accesses that take the marker for no cached TAR for a TAR of their own, with CSW set to `width`. */
  predicate Marked(width: nat, addr: nat, size: nat) {
    addr == 0xFFFF_FFFF || (size == width == WIDTH_WORD && addr / 16 == 0x0FFF_FFFF)
  }

  /** Aligned accesses of at most a word, when the bridge is ready. */
  predicate RequestOk(y: Sys, q: Request) {
    q.Request? ==> y.b.bus.ready && q.size <= 2 && q.addr < WORD_END && Aligned(q.addr, q.size)
  }

  /** A read of CSW answers the target's CSW, whatever its other fields. */
  predicate Answers(ap: nat, t: Target, c: Cmd, word: nat) {
    c.ap && c.read && t.sel.apsel == ap && Offset(t, c) == CSW_OFFSET ==>
      WordCsw(word).inc == t.inc && WordCsw(word).width == t.width
  }

  /** The response FIFO is read when it holds something, and commands are answered once and in order. */
  predicate Flows(y: Sys, k: Tick) {
    (k.rden ==> y.rd < |y.answers|) && (k.answer.Answer? ==> |y.answers| < |y.pushed|)
  }

  /** Responses are good, a read of CSW answers the target's CSW, and the bus waits while the bridge holds
      HREADYOUT low. */
  predicate Clocked(w: World, y: Sys, k: Tick) {
    && Flows(y, k)
    && (k.answer.Answer? ==>
          && k.answer.reply.word < WORD_END && k.answer.reply.stat == STAT_OK
          && Answers(w.ap, TargetAt(w, y, |y.answers|), y.pushed[|y.answers|], k.answer.reply.word))
    && RequestOk(y, k.request)
  }

  /** Sequential mode is off while a read is in hand. */
  predicate ModeOk(y: Sys, k: Tick) {
    !y.b.bus.ready && !y.b.bus.wnr ==> !k.sequential
  }

  /** The first transfer of a run is not one the marker stands for, unless the target's TAR happens to be the
      marker's own value. */
  predicate FirstOk(w: World, y: Sys, q: Request) {
    q.Request? && y.asked == [] ==> w.target.tar == INVALID || !Marked(w.target.width, q.addr, q.size)
  }

  predicate TickOk(w: World, y: Sys, k: Tick) {
    Clocked(w, y, k) && ModeOk(y, k) && FirstOk(w, y, k.request)
  }

  predicate OutOfReset(b: Regs) {
    && b.state == Disabled && b.bus.ready && !b.bus.pending && !b.bus.latch
    && b.link.sent == 0 && b.link.recvd == 0 && !b.link.check && b.link.stat == STAT_OK && !b.link.wren
    && !b.cache.init && b.cache.tar == INVALID && SelFits(b.cache.sel)
  }

  /** Nothing sent or asked for yet; the response FIFO's output register holds anything. */
  predicate AtStart(y: Sys) {
    OutOfReset(y.b) && y.pushed == [] && y.answers == [] && y.rd == 0 && y.asked == []
  }
}
