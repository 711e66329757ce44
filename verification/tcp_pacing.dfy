/** When an end transmits, and what, in numbers. */
module TcpPacing {
  import opened TcpScript
  import opened TcpStream
  import opened TcpSystem
  import opened TcpInvariant
  import opened TcpTransmit
  import opened TcpRuns
  import opened TcpTheorems
  import opened Words

  /** p is the peer of the current action, which has bytes. k is where the call starts from. */
  ghost predicate Speaking(cfg: Script, p: Peer, k: Core) {
    k.st == ESTABLISHED && k.act < |cfg.actions| && cfg.actions[k.act].peer == p && cfg.actions[k.act].len > 0
  }

  /** The sequence number of the first byte that peer p sends. */
  function FirstSeq(p: Peer): nat {
    if p == Client then 100 else 201
  }

  /** The sequence number behind the last byte of action i. */
  ghost function EndSeq(cfg: Script, p: Peer, i: nat): nat
    requires i < |cfg.actions|
  {
    FirstSeq(p) + cfg.actions[i].beg + cfg.actions[i].len
  }

  /** There are bytes of the action to send, and at most 300000 wait to be acknowledged. */
  ghost predicate WindowOpen(cfg: Script, p: Peer, k: Core)
    requires k.act < |cfg.actions|
  {
    k.tx.ackd <= k.tx.next <= k.tx.ackd + 300_000 && k.tx.next < EndSeq(cfg, p, k.act)
  }

  /** The segment with the bytes of action i from that sequence number on, 1460 of them or all that are left. */
  ghost predicate Carries(cfg: Script, p: Peer, i: nat, ackNo: u32, from: u32, seg: Segment)
    requires i < |cfg.actions|
  {
    && FirstSeq(p) <= from < EndSeq(cfg, p, i)
    && var at, left := from - FirstSeq(p), EndSeq(cfg, p, i) - from;
       var n := if left > 1460 then 1460 else left;
       && at + n <= |cfg.Content(p)|
       && seg == Segment(false, true, false, false, from, ackNo, cfg.Content(p)[at..at + n], 0)
  }

  lemma SpeakingMarks(cfg: Script, x: Core, k: Core)
    requires cfg.Valid() && Pair(cfg, x, k) && Speaking(cfg, k.peer, k)
    ensures k.act < cfg.Last() && EndSeq(cfg, k.peer, k.act) == Mark(cfg, k.peer, k.act + 1) && k.rx.mss == 1460
    ensures WindowOpen(cfg, k.peer, k) <==> MaySend(cfg, k)
    ensures !MaySend(cfg, k) ==> Sending(cfg, k.peer, k.act, k.tx)
  {
    assert k.act < cfg.Last();
    assert cfg.Contiguous(k.act);
    RemainingIs(cfg, k);
  }

  /** What sending from there on comes to. */
  lemma SendsFrom(cfg: Script, k: Core, b: Book)
    requires cfg.Valid() && EndOk(cfg, k) && Speaking(cfg, k.peer, k) && k.act < cfg.Last() && k.rx.mss == 1460
    requires EndSeq(cfg, k.peer, k.act) == Mark(cfg, k.peer, k.act + 1)
    requires Sending(cfg, k.peer, k.act, k.tx) && k.tx.next < k.tx.ackable
    ensures var o := SendData(cfg, k, b);
            && |o.pkt| == 1 && Carries(cfg, k.peer, k.act, k.rx.recv, k.tx.next, o.pkt[0])
            && o.ctx.core == Beyond(k, |o.pkt[0].payload|)
            && o.ctx.book == b.(moreData := k.tx.next + 1460 < EndSeq(cfg, k.peer, k.act), armed := true)
  {
    SendDataIs(cfg, k, b);
    RemainingIs(cfg, k);
    NextSegment(cfg, k, SendData(cfg, k, b).pkt[0], NextSize(cfg, k));
  }

  lemma SpeaksNext(cfg: Script, x: Core, k: Core, b: Book, e: Env)
    requires cfg.Valid() && Pair(cfg, x, k) && Speaking(cfg, k.peer, k) && WindowOpen(cfg, k.peer, k)
    requires e.full && b.same != 10
    ensures var o := ProcOut(cfg, Ctx(k, b), e);
            && |o.pkt| == 1 && Carries(cfg, k.peer, k.act, k.rx.recv, k.tx.next, o.pkt[0])
            && o.ctx.core.tx.next == k.tx.next + |o.pkt[0].payload|
            && o.ctx.book == b.(moreData := k.tx.next + 1460 < EndSeq(cfg, k.peer, k.act), armed := true)
            && o.ctx.core.tx.ackable == EndSeq(cfg, k.peer, k.act)
  {
    SpeakingMarks(cfg, x, k);
    NextIs(cfg, k, b, e);
    BeginsAt(cfg, x, k);
    hide Pair, ProcOut, MaySend, SendData, Begin, Link, Carries, Sending, EndOk, EndSeq;
    SendsFrom(cfg, Begin(cfg, k), b);
  }

  lemma NextIs(cfg: Script, k: Core, b: Book, e: Env)
    requires Speaking(cfg, k.peer, k) && MaySend(cfg, k) && e.full && b.same != 10
    ensures ProcOut(cfg, Ctx(k, b), e) == SendData(cfg, Begin(cfg, k), b)
  {
    hide MaySend, SendData, Begin;
  }

  lemma BeginsAt(cfg: Script, x: Core, k: Core)
    requires cfg.Valid() && Pair(cfg, x, k) && Speaking(cfg, k.peer, k) && WindowOpen(cfg, k.peer, k)
    requires k.act < cfg.Last() && EndSeq(cfg, k.peer, k.act) == Mark(cfg, k.peer, k.act + 1)
    ensures var y := Begin(cfg, k);
            && EndOk(cfg, y) && Sending(cfg, k.peer, k.act, y.tx)
            && y == k.(tx := k.tx.(ackable := EndSeq(cfg, k.peer, k.act)))
  {
    BeginOk(cfg, x, k);
    RemainingIs(cfg, k);
  }

  /** What a call does that has nothing new to send: it goes back to what is not acknowledged when the timer has run
      out, but not right after data that did not fit into one segment, nor while the other side makes progress and its
      own bucket is not full. */
  ghost predicate GoesBack(b: Book, e: Env) {
    !b.moreData && (b.progress ==> e.otherFull) && e.timedOut
  }

  lemma AgainIs(cfg: Script, k: Core, b: Book, e: Env)
    requires Speaking(cfg, k.peer, k) && !MaySend(cfg, k) && e.full && b.same != 10
    ensures var o := ProcOut(cfg, Ctx(k, b), e);
            if GoesBack(b, e) then o == SendData(cfg, Rewind(k), Retransmit(b))
            else o.pkt == [] && o.ctx.core == k
                 && o.ctx.book == b.(armed := true, moreData := false,
                                     progress := b.progress && (b.moreData || e.otherFull))
  {
    hide MaySend, SendData;
  }

  lemma SpeaksAgain(cfg: Script, x: Core, k: Core, b: Book, e: Env)
    requires cfg.Valid() && Pair(cfg, x, k) && Speaking(cfg, k.peer, k) && !WindowOpen(cfg, k.peer, k)
    requires e.full && b.same != 10
    ensures var o := ProcOut(cfg, Ctx(k, b), e);
            if GoesBack(b, e) then
              && |o.pkt| == 1 && Carries(cfg, k.peer, k.act, k.rx.recv, k.tx.ackd, o.pkt[0])
              && o.ctx.book == b.(same := b.same + 1, retx := b.retx + 1, armed := true,
                                  moreData := k.tx.ackd + 1460 < EndSeq(cfg, k.peer, k.act))
              && o.ctx.core.tx.next == k.tx.ackd + |o.pkt[0].payload|
            else o.pkt == [] && o.ctx.core == k
                 && o.ctx.book == b.(armed := true, moreData := false,
                                     progress := b.progress && (b.moreData || e.otherFull))
  {
    SpeakingMarks(cfg, x, k);
    AgainIs(cfg, k, b, e);
    RewindOk(cfg, x, k);
    assert EndOk(cfg, Rewind(k));
    hide Pair, ProcOut, MaySend, SendData, WindowOpen, Carries, Sending, EndOk, EndSeq;
    if GoesBack(b, e) {
      SendsFrom(cfg, Rewind(k), Retransmit(b));
    }
  }

  /** In every run, an end whose turn it is sends the next segment of its action in every call that finds the bucket
      full, as long as at most 300000 bytes wait to be acknowledged; otherwise it sends nothing new, and goes back to
      the first byte not acknowledged exactly when GoesBack says so. */
  lemma SendsWhileWindowOpen(cfg: Script, states: seq<Sys>, steps: seq<Step>, n: nat, p: Peer, k: Core, b: Book, e: Env)
    requires IsRun(cfg, states, steps) && n <= |steps| && cfg.Valid()
    requires Deciding(cfg, states[n], p, k) && Speaking(cfg, p, k) && e.full && b.same != 10
    ensures var o := ProcOut(cfg, Ctx(k, b), e);
            if WindowOpen(cfg, p, k) then |o.pkt| == 1 && Carries(cfg, p, k.act, k.rx.recv, k.tx.next, o.pkt[0])
            else if GoesBack(b, e) then |o.pkt| == 1 && Carries(cfg, p, k.act, k.rx.recv, k.tx.ackd, o.pkt[0])
            else o.pkt == []
  {
    hide Inv, Pair, Deciding, Carries, ProcOut, Apply;
    RunOk(cfg, states, steps, n);
    DecidingOk(cfg, states[n], p, k);
    if WindowOpen(cfg, p, k) {
      SpeaksNext(cfg, states[n].End(Other(p)).core, k, b, e);
    } else {
      SpeaksAgain(cfg, states[n].End(Other(p)).core, k, b, e);
    }
  }

  /** An action of 2920 bytes of which the first half is on its way: the second half goes out at once. */
  lemma SecondHalfGoesOut(cfg: Script, k: Core, b: Book, e: Env)
    requires cfg.actions == [Action(Client, 0, 2920), Action(Client, 2920, 0)] && |cfg.clientContent| == 2920
    requires k.peer == Client && k.st == ESTABLISHED && k.act == 0 && k.tx == Tx(1560, 100, 3020, 100, 1560)
    requires k.rx.mss == 1460 && e.full && b.same != 10
    ensures var o := ProcOut(cfg, Ctx(k, b), e);
            |o.pkt| == 1 && o.pkt[0].seqNo == 1560 && o.pkt[0].payload == cfg.clientContent[1460..]
  {
    assert Remaining(cfg, k) == 1460;
  }

  // ---- the other calls ----

  /** Without tokens nothing is transmitted, whatever the state. */
  lemma NothingWithoutTokens(cfg: Script, c: Ctx, e: Env)
    requires !e.full
    ensures ProcOut(cfg, c, e).pkt == [] && ProcOut(cfg, c, e).ctx.core == c.core
    ensures ProcOut(cfg, c, e).ctx.book.same == c.book.same && ProcOut(cfg, c, e).ctx.book.retx == c.book.retx
    ensures c.book.same != 10 ==> ProcOut(cfg, c, e).ctx.book.expired == c.book.expired
  {}

  /** After ten retransmissions without progress a call only ends the stream as expired. */
  lemma ExpiresAtTen(cfg: Script, c: Ctx, e: Env)
    requires c.book.same == 10
    ensures ProcOut(cfg, c, e) == Out(Ctx(c.core, c.book.(expired := true)), [])
  {}

  /** The end whose turn it is not acknowledges what it has received, in every call that finds the bucket full; that
      counts as a retransmission unless there is new data to acknowledge. Once it has heard a FIN it answers with its
      own. */
  lemma Listens(cfg: Script, k: Core, b: Book, e: Env)
    requires k.st == ESTABLISHED && k.act < |cfg.actions| && cfg.actions[k.act].peer != k.peer
    requires e.full && b.same != 10
    ensures var o, more := ProcOut(cfg, Ctx(k, b), e), if k.rx.gotFin || b.newData then 0 else 1;
            && o.pkt == [Segment(false, true, k.rx.gotFin, false, k.tx.next, k.rx.recv, [], 0)]
            && o.ctx.core.st == (if k.rx.gotFin then LAST_ACK else ESTABLISHED)
            && o.ctx.book.same == b.same + more && o.ctx.book.retx == b.retx + more && o.ctx.book.expired == b.expired
            && (k.tx.next < 0xffff_ffff && k.rx.gotFin ==> o.ctx.core.tx.next == k.tx.next + 1)
            && (!k.rx.gotFin ==> o.ctx.core.tx.next == k.tx.next)
  {}

  /** At the closing action of its own an end sends its FIN. */
  lemma Closes(cfg: Script, k: Core, b: Book, e: Env)
    requires k.st == ESTABLISHED && k.act < |cfg.actions| && cfg.actions[k.act].peer == k.peer
    requires cfg.actions[k.act].len == 0 && e.full && b.same != 10 && k.tx.next < 0xffff_ffff
    ensures var o := ProcOut(cfg, Ctx(k, b), e);
            && o.pkt == [Segment(false, true, true, false, k.tx.next, k.rx.recv, [], 0)]
            && o.ctx.core.st == FIN_WAIT && o.ctx.core.tx.next == k.tx.next + 1
            && o.ctx.book == b.(same := 0, armed := true)
  {}

  /** The end does not go on from where it is: it sends from another sequence number than the next one, or repeats an
      ack that acknowledges nothing new. */
  predicate Retransmits(cfg: Script, k: Core, b: Book, pkt: seq<Segment>) {
    && pkt != []
    && ((k.st != CLOSED && pkt[0].seqNo != k.tx.next)
        || (k.st == ESTABLISHED && cfg.ActionAt(k.act).peer != k.peer && !pkt[0].fin && !b.newData))
  }

  /** In every run exactly those calls count as retransmissions, in both counters; and a stream expires after ten of
      them without progress, and not before. */
  lemma CountsRetransmissions(cfg: Script, states: seq<Sys>, steps: seq<Step>, n: nat, p: Peer, k: Core, b: Book,
        e: Env)
    requires IsRun(cfg, states, steps) && n <= |steps| && cfg.Valid()
    requires Deciding(cfg, states[n], p, k) && k.st != LISTEN
    ensures var o := ProcOut(cfg, Ctx(k, b), e);
            && o.ctx.book.retx == b.retx + (if Retransmits(cfg, k, b, o.pkt) then 1 else 0)
            && (Retransmits(cfg, k, b, o.pkt) ==> o.ctx.book.same == b.same + 1)
            && (!Retransmits(cfg, k, b, o.pkt) ==> o.ctx.book.same == b.same || o.ctx.core.st != k.st)
            && (o.ctx.book.expired <==> b.expired || b.same == 10)
  {
    hide Inv, Deciding, Apply, Pair, ProcOut, Retransmits;
    RunOk(cfg, states, steps, n);
    DecidingOk(cfg, states[n], p, k);
    CountsOf(cfg, states[n].End(Other(p)).core, k, b, e);
  }

  /** The same, seen from the pair of both ends. */
  ghost predicate CountsRight(cfg: Script, k: Core, b: Book, o: Out) {
    && o.ctx.book.retx == b.retx + (if Retransmits(cfg, k, b, o.pkt) then 1 else 0)
    && (Retransmits(cfg, k, b, o.pkt) ==> o.ctx.book.same == b.same + 1)
    && (!Retransmits(cfg, k, b, o.pkt) ==> o.ctx.book.same == b.same || o.ctx.core.st != k.st)
    && (o.ctx.book.expired <==> b.expired || b.same == 10)
  }

  lemma CountsOf(cfg: Script, x: Core, k: Core, b: Book, e: Env)
    requires cfg.Valid() && Pair(cfg, x, k) && k.st != LISTEN
    ensures CountsRight(cfg, k, b, ProcOut(cfg, Ctx(k, b), e))
  {
    hide Pair, CountsRight, ProcOut;
    if b.same == 10 || !e.full || k.st == LAST_ACK {
      CountsIdle(cfg, x, k, b, e);
    } else if Speaking(cfg, k.peer, k) {
      CountsSpeaking(cfg, x, k, b, e);
    } else if k.st == ESTABLISHED {
      CountsOther(cfg, x, k, b, e);
    } else {
      CountsRest(cfg, x, k, b, e);
    }
  }

  lemma CountsIdle(cfg: Script, x: Core, k: Core, b: Book, e: Env)
    requires cfg.Valid() && Pair(cfg, x, k) && k.st != LISTEN
    requires b.same == 10 || !e.full || k.st == LAST_ACK
    ensures CountsRight(cfg, k, b, ProcOut(cfg, Ctx(k, b), e))
  {
    hide Link, EndOk, CountsRight, ProcOut;
    if b.same == 10 {
      ExpiresAtTen(cfg, Ctx(k, b), e);
      CountsNothing(cfg, k, b, ProcOut(cfg, Ctx(k, b), e));
    } else if !e.full {
      NothingWithoutTokens(cfg, Ctx(k, b), e);
      CountsNothing(cfg, k, b, ProcOut(cfg, Ctx(k, b), e));
    } else {
      FinOutstanding(cfg, k);
      CountsLastAck(cfg, k, b, e);
    }
  }

  lemma CountsNothing(cfg: Script, k: Core, b: Book, o: Out)
    requires o.pkt == [] && o.ctx.book.retx == b.retx && o.ctx.book.same == b.same
    requires o.ctx.book.expired <==> b.expired || b.same == 10
    ensures CountsRight(cfg, k, b, o)
  {}

  lemma CountsLastAck(cfg: Script, k: Core, b: Book, e: Env)
    requires k.st == LAST_ACK && k.tx.next - 1 <= k.tx.ackd <= k.tx.next && e.full && b.same != 10
    ensures CountsRight(cfg, k, b, ProcOut(cfg, Ctx(k, b), e))
  {
    hide Script.Bytes;
  }

  /** Of an end that is closing at most the FIN is not acknowledged. */
  lemma FinOutstanding(cfg: Script, k: Core)
    requires EndOk(cfg, k) && Closing(k)
    ensures k.tx.next - 1 <= k.tx.ackd <= k.tx.next
  {}

  lemma CountsSpeaking(cfg: Script, x: Core, k: Core, b: Book, e: Env)
    requires cfg.Valid() && Pair(cfg, x, k) && Speaking(cfg, k.peer, k) && e.full && b.same != 10
    ensures CountsRight(cfg, k, b, ProcOut(cfg, Ctx(k, b), e))
  {
    hide Pair, ProcOut, Script.Content, Script.Offset;
    if WindowOpen(cfg, k.peer, k) {
      SpeaksNext(cfg, x, k, b, e);
    } else {
      SpeaksAgain(cfg, x, k, b, e);
    }
  }

  lemma CountsOther(cfg: Script, x: Core, k: Core, b: Book, e: Env)
    requires cfg.Valid() && Pair(cfg, x, k) && k.st == ESTABLISHED && !Speaking(cfg, k.peer, k)
    requires e.full && b.same != 10
    ensures CountsRight(cfg, k, b, ProcOut(cfg, Ctx(k, b), e))
  {
    cfg.TotalInContent(k.peer);
    if cfg.actions[k.act].peer != k.peer {
      Listens(cfg, k, b, e);
    } else {
      Closes(cfg, k, b, e);
    }
  }

  lemma CountsRest(cfg: Script, x: Core, k: Core, b: Book, e: Env)
    requires cfg.Valid() && Pair(cfg, x, k) && k.st != ESTABLISHED && k.st != LAST_ACK && k.st != LISTEN
    requires e.full && b.same != 10
    ensures CountsRight(cfg, k, b, ProcOut(cfg, Ctx(k, b), e))
  {
    hide Link, CountsRight, ProcOut;
    if k.st == FIN_WAIT {
      FinOutstanding(cfg, k);
      CountsFinWait(cfg, k, b, e);
    } else if k.st == TIME_WAIT {
      CountsTimeWait(cfg, k, b, e);
    } else if k.st == SYN_RECEIVED {
      CountsAnswering(cfg, k, b, e);
    } else {
      CountsCalling(cfg, k, b, e);
    }
  }

  lemma CountsFinWait(cfg: Script, k: Core, b: Book, e: Env)
    requires k.st == FIN_WAIT && k.tx.next - 1 <= k.tx.ackd <= k.tx.next && e.full && b.same != 10
    ensures CountsRight(cfg, k, b, ProcOut(cfg, Ctx(k, b), e))
  {
    assert ProcOut(cfg, Ctx(k, b), e) == OutFinWait(cfg, k, b, e);
    hide ProcOut, Script.Bytes;
    if k.tx.ackd == k.tx.next {
      assert OutFinWait(cfg, k, b, e).pkt != [] ==> OutFinWait(cfg, k, b, e).pkt[0].seqNo == k.tx.next;
    } else if !b.progress {
      assert OutFinWait(cfg, k, b, e).pkt[0].seqNo == k.tx.ackd;
    }
  }

  lemma CountsTimeWait(cfg: Script, k: Core, b: Book, e: Env)
    requires k.st == TIME_WAIT && e.full && b.same != 10
    ensures CountsRight(cfg, k, b, ProcOut(cfg, Ctx(k, b), e))
  {
    hide Script.Bytes;
  }

  lemma CountsCalling(cfg: Script, k: Core, b: Book, e: Env)
    requires k.st == CLOSED || (k.st == SYN_SENT && k.tx.next == 100)
    requires e.full && b.same != 10
    ensures CountsRight(cfg, k, b, ProcOut(cfg, Ctx(k, b), e))
  {
    hide Script.Bytes;
  }

  lemma CountsAnswering(cfg: Script, k: Core, b: Book, e: Env)
    requires k.st == SYN_RECEIVED && k.tx.next == 201 && 200 <= k.tx.ackd <= 201 && e.full && b.same != 10
    ensures CountsRight(cfg, k, b, ProcOut(cfg, Ctx(k, b), e))
  {
    assert ProcOut(cfg, Ctx(k, b), e) == OutSynReceived(cfg, k, b, e);
    hide ProcOut, Script.Bytes;
  }

  // ---- opening and closing ----

  /** The client calls with sequence number 99, announcing segments of 1460 bytes, until the answer has come. */
  lemma Dials(cfg: Script, k: Core, b: Book, e: Env)
    requires k.st == CLOSED || (k.st == SYN_SENT && k.tx.next == 100)
    requires e.full && b.same != 10
    ensures var o := ProcOut(cfg, Ctx(k, b), e);
            if k.st == SYN_SENT && k.tx.ackd >= 100 && k.rx.gotSyn then
              && o.ctx.core == k.(st := ESTABLISHED, tx := o.ctx.core.tx) && o.ctx.book.same == 0
              && o.pkt == if cfg.ActionAt(k.act).peer == k.peer then []
                          else [Segment(false, true, false, false, 100, k.rx.recv, [], 0)]
            else
              && o.ctx.core.st == SYN_SENT && o.ctx.core.tx.next == 100 && o.ctx.core.tx.ackd == 99
              && o.ctx.book == b.(same := o.ctx.book.same, retx := o.ctx.book.retx, armed := true)
              && o.pkt == [Segment(true, false, false, false, 99, 0, [], 1460)]
  {}

  /** The server answers with sequence number 200, until that is acknowledged. */
  lemma Answers(cfg: Script, k: Core, b: Book, e: Env)
    requires (k.st == LISTEN && k.rx.gotSyn) || (k.st == SYN_RECEIVED && k.tx.next == 201 && 200 <= k.tx.ackd <= 201)
    requires e.full && b.same != 10
    ensures var o := ProcOut(cfg, Ctx(k, b), e);
            if k.st == SYN_RECEIVED && k.tx.ackd == 201 then
              && o.ctx.core == k.(st := ESTABLISHED, tx := o.ctx.core.tx) && o.ctx.book.same == 0
              && o.pkt == if cfg.ActionAt(k.act).peer == k.peer then []
                          else [Segment(false, true, false, false, 201, k.rx.recv, [], 0)]
            else
              && o.ctx.core.st == SYN_RECEIVED && o.ctx.core.tx.next == 201 && o.ctx.core.tx.ackd == 200
              && o.pkt == [Segment(true, true, false, false, 200, k.rx.recv, [], 1460)]
  {}

  /** What an end does that has sent its FIN, in a call that finds the bucket full: it repeats the FIN exactly when
      that is not acknowledged and nothing new was heard since the last call. */
  ghost predicate EndsAs(k: Core, b: Book, o: Out) {
    if k.tx.ackd == k.tx.next then
      if k.st == LAST_ACK then o == Out(Ctx(k, b.(ended := true)), [])
      else if k.rx.gotFin then
        && o.pkt == [Segment(false, true, false, false, k.tx.next, k.rx.recv, [], 0)]
        && o.ctx.core.st == TIME_WAIT && o.ctx.core.tx.next == k.tx.next && o.ctx.book == b.(same := 0, armed := true)
      else o == Out(Ctx(k, b.(armed := true)), [])
    else
      && k.tx.ackd == k.tx.next - 1
      && if b.progress then o == Out(Ctx(k, b.(armed := true, progress := false)), [])
         else
           && o.pkt == [Segment(false, true, true, false, k.tx.next - 1, k.rx.recv, [], 0)]
           && o.ctx.core.st == k.st && o.ctx.core.tx.next == k.tx.next
           && o.ctx.book == b.(same := b.same + 1, retx := b.retx + 1, armed := true)
  }

  lemma FinIsRepeated(cfg: Script, states: seq<Sys>, steps: seq<Step>, n: nat, p: Peer, k: Core, b: Book, e: Env)
    requires IsRun(cfg, states, steps) && n <= |steps| && cfg.Valid()
    requires Deciding(cfg, states[n], p, k) && (k.st == FIN_WAIT || k.st == LAST_ACK) && e.full && b.same != 10
    ensures EndsAs(k, b, ProcOut(cfg, Ctx(k, b), e))
  {
    hide Inv, Deciding, Apply, Link, ProcOut, EndsAs;
    RunOk(cfg, states, steps, n);
    DecidingOk(cfg, states[n], p, k);
    FinOutstanding(cfg, k);
    EndsFrom(cfg, k, b, e);
  }

  lemma EndsFrom(cfg: Script, k: Core, b: Book, e: Env)
    requires (k.st == FIN_WAIT || k.st == LAST_ACK) && k.tx.next - 1 <= k.tx.ackd <= k.tx.next && e.full && b.same != 10
    ensures EndsAs(k, b, ProcOut(cfg, Ctx(k, b), e))
  {
    hide Script.ActionAt;
  }

  /** A closed connection acknowledges what it hears until its time is over. */
  lemma TimeWaits(cfg: Script, k: Core, b: Book, e: Env)
    requires k.st == TIME_WAIT && b.same != 10
    ensures var o := ProcOut(cfg, Ctx(k, b), e);
            if e.timeWaitOver then o == Out(Ctx(k, b.(ended := true)), [])
            else
              && o.ctx.core.st == TIME_WAIT && o.ctx.core.tx.next == k.tx.next && o.ctx.book == b.(armed := true)
              && o.pkt == if e.full then [Segment(false, true, false, false, k.tx.next, k.rx.recv, [], 0)] else []
  {}

  // ---- hearing ----

  /** What a packet changes beside the sequence numbers: a new ack, a SYN, the FIN when it is due and new data are
      progress, which starts the count of retransmissions anew. A RST ends the stream. */
  lemma HearsProgress(cfg: Script, c: Ctx, p: Segment)
    ensures var r, k := ProcIn(cfg, c, p), c.core;
            var heard := |r.core.rx.accepted| > |k.rx.accepted|;
            var made := (p.ack && p.ackNo > k.tx.ackd) || p.syn || (p.fin && p.seqNo == k.rx.recv) || heard;
            r.book == if p.rst then c.book.(ended := true)
                      else c.book.(same := if made then 0 else c.book.same, progress := made,
                                   newData := c.book.newData || heard)
  {
    var k := Acked(c.core, p);
    assert k.rx == c.core.rx.(gotSyn := k.rx.gotSyn, gotFin := k.rx.gotFin);
    hide Judge;
  }

  // ---- packets of no connection ----

  const RESET := Segment(false, false, false, true, 0, 0, [], 0)

  /** A packet that is not a SYN and finds no server is answered with a RST, unless it is one itself, and leaves no
      server behind. */
  lemma StraysAreReset(cfg: Script, s: Sys, e: Env)
    requires Gone(s.server) && s.toServer != [] && !s.toServer[0].syn
    ensures Apply(cfg, s, Deliver(Client, e))
         == s.(toServer := s.toServer[1..], toClient := s.toClient + if s.toServer[0].rst then [] else [RESET])
  {
    var p := s.toServer[0];
    var k := CoreIn(cfg, NewServer(s.server).core, p);
    assert !p.rst ==> k.st == LISTEN && !k.rx.gotSyn && k.tx.next == 0;
  }

  /** One that finds no client is answered with its own header turned into a RST. */
  lemma ClientResets(cfg: Script, s: Sys, e: Env)
    requires Gone(s.client) && s.toClient != []
    ensures var p := s.toClient[0];
            Apply(cfg, s, Deliver(Server, e))
            == s.(toClient := s.toClient[1..],
                  toServer := s.toServer + [Segment(false, false, false, true, p.seqNo, p.ackNo, [], 0)])
  {}

  /** A new context: nothing is sent or received, segments are cut to 536 bytes, and only the client is called. */
  lemma FreshContext(p: Peer)
    ensures InitCtx(p) == Ctx(Core(p, if p == Client then CLOSED else LISTEN, 0, Tx(0, 0, 0, 0, 0),
                                   Rx(0, 0, 536, false, false, [])),
                              Book(0, 0, false, false, false, false, false, p == Client))
  {}
}
