/** How often a stream retransmits, whatever the other side and the network do. */
module TcpRetransmit {
  import opened TcpScript
  import opened TcpStream

  /** A call of the stream handler with the clocks it reads. */
  datatype Call = Call(input: Input, env: Env)

  /** The stream has ended or expired and is not called again. */
  predicate Over(c: Ctx) {
    c.book.ended || c.book.expired
  }

  /** Call n leads from context n to context n + 1. */
  ghost predicate CallAt(cfg: Script, ctxs: seq<Ctx>, calls: seq<Call>, n: nat)
    requires n < |calls| && |ctxs| == |calls| + 1
  {
    ctxs[n + 1] == if Over(ctxs[n]) then ctxs[n] else Proc(cfg, ctxs[n], calls[n].input, calls[n].env).ctx
  }

  /** The contexts of a stream that starts as peer p and handles calls, with any packets at any time. */
  ghost predicate IsCalled(cfg: Script, p: Peer, ctxs: seq<Ctx>, calls: seq<Call>) {
    && |ctxs| == |calls| + 1 && ctxs[0] == InitCtx(p)
    && forall n: nat {:trigger CallAt(cfg, ctxs, calls, n)} :: n < |calls| ==> CallAt(cfg, ctxs, calls, n)
  }

  /** The call reads a packet that acknowledges something new or moves recv. */
  predicate Progresses(cfg: Script, c: Ctx, i: Input) {
    i.Packet? && MakesProgress(cfg, c.core, i.p)
  }

  /** None of the calls m .. n makes progress. */
  ghost predicate Fruitless(cfg: Script, ctxs: seq<Ctx>, calls: seq<Call>, m: nat, n: nat)
    requires n <= |calls| && |ctxs| == |calls| + 1
  {
    forall i: nat {:trigger FruitlessAt(cfg, ctxs, calls, i)} :: m <= i < n ==> FruitlessAt(cfg, ctxs, calls, i)
  }

  ghost predicate FruitlessAt(cfg: Script, ctxs: seq<Ctx>, calls: seq<Call>, i: nat)
    requires i < |calls| && |ctxs| == |calls| + 1
  {
    !Progresses(cfg, ctxs[i], calls[i].input)
  }

  /** The counter is within its limit. Wherever a change of state resets it without a packet, it is zero already. */
  ghost predicate Counted(cfg: Script, c: Ctx) {
    var k := c.core;
    && c.book.same <= MAX_SAME_STATE
    && c.book.same <= c.book.retx
    && (Over(c) || c.book.same == 0 || match k.st
        case SYN_SENT => k.tx.ackd < k.tx.next || !k.rx.gotSyn
        case SYN_RECEIVED => k.tx.ackd != k.tx.next
        case ESTABLISHED => !OwnTurn(cfg, k) || cfg.ActionAt(k.act).len != 0
        case FIN_WAIT => k.tx.ackd != k.tx.next
        case TIME_WAIT => false
        case _ => true)
  }

  /** One call, with any packet: the counters move together unless the packet makes progress, and a stream that is
      not over has a timer pending. */
  lemma CallCounts(cfg: Script, c: Ctx, i: Input, e: Env)
    requires Counted(cfg, c) && !Over(c)
    ensures var c' := Proc(cfg, c, i, e).ctx;
            && Counted(cfg, c')
            && c.book.retx <= c'.book.retx <= c.book.retx + 1
            && (!Progresses(cfg, c, i) ==> c'.book.retx - c.book.retx == c'.book.same - c.book.same)
            && (c'.book.armed || Over(c'))
            && (c'.book.ended ==> c'.core.st == c.core.st && ((i.Packet? && i.p.rst) || EndsHere(c.core.st)))
  {
    var c0 := c.(book := c.book.(armed := false));
    assert Counted(cfg, c0);
    if i.Packet? && i.p.rst {
      ResetCounts(cfg, c, i, e);
    } else {
      CallCountsOn(cfg, c0, i, e);
    }
  }

  /** A RST ends the stream and changes no counter. */
  lemma ResetCounts(cfg: Script, c: Ctx, i: Input, e: Env)
    requires Counted(cfg, c) && !Over(c) && i.Packet? && i.p.rst
    ensures var c' := Proc(cfg, c, i, e).ctx;
            && Counted(cfg, c') && c'.book.ended && c'.core.st == c.core.st
            && c'.book.retx == c.book.retx && c'.book.same == c.book.same
  {}

  /** What reading a packet leaves alone. */
  lemma InKeeps(cfg: Script, c: Ctx, p: Segment)
    requires !p.rst
    ensures var b, b' := c.book, ProcIn(cfg, c, p).book;
            && b'.retx == b.retx && b'.ended == b.ended && b'.expired == b.expired
            && ProcIn(cfg, c, p).core.st == c.core.st
            && b'.same == if MakesProgress(cfg, c.core, p) then 0 else b.same
  {}

  /** The rest of the call, once the pending timer is removed. */
  lemma CallCountsOn(cfg: Script, c: Ctx, i: Input, e: Env)
    requires Counted(cfg, c) && !Over(c) && (i.Packet? ==> !i.p.rst)
    ensures var c' := (if i.Tick? then ProcOut(cfg, c, e) else ProcOut(cfg, ProcIn(cfg, c, i.p), e)).ctx;
            && Counted(cfg, c')
            && c.book.retx <= c'.book.retx <= c.book.retx + 1
            && (!Progresses(cfg, c, i) ==> c'.book.retx - c.book.retx == c'.book.same - c.book.same)
            && (c'.book.armed || Over(c'))
            && (c'.book.ended ==> c'.core.st == c.core.st && EndsHere(c.core.st))
  {
    hide Counted, ProcIn, ProcOut, MakesProgress;
    if i.Tick? {
      OutCounts(cfg, c, e);
    } else {
      InCounts(cfg, c, i.p);
      InKeeps(cfg, c, i.p);
      OutCounts(cfg, ProcIn(cfg, c, i.p), e);
    }
  }

  lemma InCounts(cfg: Script, c: Ctx, p: Segment)
    requires Counted(cfg, c) && !Over(c) && !p.rst
    ensures Counted(cfg, ProcIn(cfg, c, p))
  {
    if !MakesProgress(cfg, c.core, p) {
      assert ProcIn(cfg, c, p).core.tx == c.core.tx;
      assert ProcIn(cfg, c, p).core.act == c.core.act;
    }
  }

  /** What a call does to the counters once the packet is read. */
  ghost predicate Tallied(cfg: Script, c: Ctx, c': Ctx) {
    && Counted(cfg, c')
    && c.book.retx <= c'.book.retx <= c.book.retx + 1
    && c'.book.retx - c.book.retx == c'.book.same - c.book.same
    && (c'.book.armed || Over(c'))
    && (c'.book.ended ==> c'.core.st == c.core.st && EndsHere(c.core.st))
  }

  /** The states in which a stream ends by itself. LISTEN is the server's answer to a packet that is not a SYN. */
  predicate EndsHere(st: State) {
    st == LISTEN || st == LAST_ACK || st == TIME_WAIT
  }

  lemma HandshakeCounts(cfg: Script, c: Ctx, e: Env)
    requires Counted(cfg, c) && !Over(c)
    requires c.core.st == CLOSED || c.core.st == LISTEN || c.core.st == SYN_SENT || c.core.st == SYN_RECEIVED
    ensures Tallied(cfg, c, ProcOut(cfg, c, e).ctx)
  {
  }

  lemma EstablishedCounts(cfg: Script, c: Ctx, e: Env)
    requires Counted(cfg, c) && !Over(c) && c.core.st == ESTABLISHED && OwnTurn(cfg, c.core)
    ensures Tallied(cfg, c, ProcOut(cfg, c, e).ctx)
  {
  }

  lemma OtherStatesCount(cfg: Script, c: Ctx, e: Env)
    requires Counted(cfg, c) && !Over(c)
    requires c.core.st == ESTABLISHED ==> !OwnTurn(cfg, c.core)
    requires c.core.st != CLOSED && c.core.st != LISTEN && c.core.st != SYN_SENT && c.core.st != SYN_RECEIVED
    ensures Tallied(cfg, c, ProcOut(cfg, c, e).ctx)
  {
  }

  lemma OutCounts(cfg: Script, c: Ctx, e: Env)
    requires Counted(cfg, c) && !Over(c)
    ensures Tallied(cfg, c, ProcOut(cfg, c, e).ctx)
  {
    match c.core.st
    case CLOSED => HandshakeCounts(cfg, c, e);
    case LISTEN => HandshakeCounts(cfg, c, e);
    case SYN_SENT => HandshakeCounts(cfg, c, e);
    case SYN_RECEIVED => HandshakeCounts(cfg, c, e);
    case ESTABLISHED =>
      if OwnTurn(cfg, c.core) {
        EstablishedCounts(cfg, c, e);
      } else {
        OtherStatesCount(cfg, c, e);
      }
    case _ => OtherStatesCount(cfg, c, e);
  }

  lemma StartCounts(cfg: Script, p: Peer)
    ensures Counted(cfg, InitCtx(p))
  {}

  lemma {:induction false} CallsCount(cfg: Script, p: Peer, ctxs: seq<Ctx>, calls: seq<Call>, n: nat)
    requires IsCalled(cfg, p, ctxs, calls) && n <= |calls|
    ensures Counted(cfg, ctxs[n])
  {
    hide Proc, Counted;
    if n == 0 {
      StartCounts(cfg, p);
    } else {
      CallsCount(cfg, p, ctxs, calls, n - 1);
      assert CallAt(cfg, ctxs, calls, n - 1);
      if !Over(ctxs[n - 1]) {
        CallCounts(cfg, ctxs[n - 1], calls[n - 1].input, calls[n - 1].env);
      }
    }
  }

  lemma {:induction false} FruitlessCalls(cfg: Script, p: Peer, ctxs: seq<Ctx>, calls: seq<Call>, m: nat, n: nat)
    requires IsCalled(cfg, p, ctxs, calls) && m <= n <= |calls| && Fruitless(cfg, ctxs, calls, m, n)
    ensures ctxs[n].book.retx - ctxs[m].book.retx == ctxs[n].book.same - ctxs[m].book.same
    ensures ctxs[m].book.retx <= ctxs[n].book.retx
  {
    if m < n {
      FruitlessCalls(cfg, p, ctxs, calls, m, n - 1);
      CallsCount(cfg, p, ctxs, calls, n - 1);
      FruitlessCall(cfg, p, ctxs, calls, m, n - 1, n);
    }
  }

  lemma FruitlessCall(cfg: Script, p: Peer, ctxs: seq<Ctx>, calls: seq<Call>, m: nat, i: nat, n: nat)
    requires IsCalled(cfg, p, ctxs, calls) && m <= i < n <= |calls| && Fruitless(cfg, ctxs, calls, m, n)
    requires Counted(cfg, ctxs[i])
    ensures ctxs[i + 1].book.retx - ctxs[i].book.retx == ctxs[i + 1].book.same - ctxs[i].book.same
    ensures ctxs[i].book.retx <= ctxs[i + 1].book.retx
  {
    assert CallAt(cfg, ctxs, calls, i) && FruitlessAt(cfg, ctxs, calls, i);
    if !Over(ctxs[i]) {
      CallCounts(cfg, ctxs[i], calls[i].input, calls[i].env);
    }
  }

  /** Whatever packets arrive, a stream retransmits at most MAX_SAME_STATE times between two packets that make
      progress. */
  lemma AtMostTenRetransmissions(cfg: Script, p: Peer, ctxs: seq<Ctx>, calls: seq<Call>, m: nat, n: nat)
    requires IsCalled(cfg, p, ctxs, calls) && m <= n <= |calls| && Fruitless(cfg, ctxs, calls, m, n)
    ensures ctxs[m].book.retx <= ctxs[n].book.retx <= ctxs[m].book.retx + 10
    ensures ctxs[n].book.same <= 10
  {
    CallsCount(cfg, p, ctxs, calls, m);
    CallsCount(cfg, p, ctxs, calls, n);
    FruitlessCalls(cfg, p, ctxs, calls, m, n);
  }

  /** At the limit, a call that makes no progress transmits nothing and expires the stream, unless the other side
      resets it. */
  lemma ThenItExpires(cfg: Script, c: Ctx, i: Input, e: Env)
    requires c.book.same == MAX_SAME_STATE && !Over(c) && !Progresses(cfg, c, i)
    ensures var o := Proc(cfg, c, i, e);
            && o.pkt == []
            && o.ctx.book.retx == c.book.retx
            && if i.Packet? && i.p.rst then o.ctx.book.ended else o.ctx.book.expired
  {
  }

  lemma {:induction false} OverForGood(cfg: Script, p: Peer, ctxs: seq<Ctx>, calls: seq<Call>, m: nat, n: nat)
    requires IsCalled(cfg, p, ctxs, calls) && m <= n <= |calls| && Over(ctxs[m])
    ensures ctxs[n] == ctxs[m]
  {
    if m < n {
      OverForGood(cfg, p, ctxs, calls, m, n - 1);
      assert CallAt(cfg, ctxs, calls, n - 1);
    }
  }

  /** A stream at its limit is over after the next call without progress, and never retransmits again. */
  lemma ExhaustedStreamsEnd(cfg: Script, p: Peer, ctxs: seq<Ctx>, calls: seq<Call>, m: nat, n: nat)
    requires IsCalled(cfg, p, ctxs, calls) && m < n <= |calls|
    requires ctxs[m].book.same == MAX_SAME_STATE && FruitlessAt(cfg, ctxs, calls, m)
    ensures Over(ctxs[n]) && ctxs[n] == ctxs[m + 1] && ctxs[n].book.retx == ctxs[m].book.retx
  {
    assert CallAt(cfg, ctxs, calls, m);
    if !Over(ctxs[m]) {
      ThenItExpires(cfg, ctxs[m], calls[m].input, calls[m].env);
    }
    OverForGood(cfg, p, ctxs, calls, m + 1, n);
  }
}
