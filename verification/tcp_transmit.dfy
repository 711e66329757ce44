/** Transmitting keeps the two ends in agreement, and what is transmitted is sound. There is a lemma for each state an
    end transmits in; in ESTABLISHED one each for beginning an action, going on with it and going back. */
module TcpTransmit {
  import opened TcpScript
  import opened TcpStream
  import opened TcpInvariant
  import opened Words

  /** A call at y left o behind, seen from the other end x. */
  ghost predicate OutOk(cfg: Script, x: Core, y: Core, o: Out) {
    && Pair(cfg, x, o.ctx.core)
    && Grows(y, o.ctx.core)
    && o.ctx.core.rx == y.rx
    && (SynPending(y) ==> SynPending(o.ctx.core))
    && |o.pkt| <= 1
    && forall k :: 0 <= k < |o.pkt| ==>
         SegOk(cfg, o.ctx.core, o.pkt[k]) && (o.pkt[k].syn ==> SynPending(x) && !Open(y))
  }

  /** An empty ack is sound from any end whose handshake is over. */
  lemma EmptyAckOk(cfg: Script, k: Core, k': Core)
    requires cfg.Valid() && EndOk(cfg, k) && Open(k) && Grows(k, k') && k'.rx == k.rx
    ensures SegOk(cfg, k', MakeSegment(cfg, k, ACK, 0, 0))
  {
    assert k.rx.recv >= Base(Other(k.peer));
  }

  /** Sending an empty ack changes nothing in the agreement. */
  lemma SendAckOk(cfg: Script, x: Core, y: Core, b: Book)
    requires cfg.Valid() && Pair(cfg, x, y) && Open(y)
    ensures OutOk(cfg, x, y, Send(cfg, y, b, ACK, 0, 0))
  {
    var k := Send(cfg, y, b, ACK, 0, 0).ctx.core;
    assert k == y;
    EmptyAckOk(cfg, y, k);
  }

  /** The handshake states. */
  lemma OutHandshake(cfg: Script, x: Core, y: Core, b: Book, e: Env)
    requires cfg.Valid() && Pair(cfg, x, y)
    ensures y.st == CLOSED ==> OutOk(cfg, x, y, OutClosed(cfg, y, b, e))
  {
  }

  /** The handshake is over. */
  lemma EstablishOk(cfg: Script, x: Core, y: Core, b: Book)
    requires cfg.Valid() && Pair(cfg, x, y) && (y.st == SYN_SENT || y.st == SYN_RECEIVED)
    requires y.tx.ackd == y.tx.next && y.rx.gotSyn
    ensures OutOk(cfg, x, y, Wait(y.(st := ESTABLISHED), b))
    ensures OutOk(cfg, x, y, Send(cfg, y.(st := ESTABLISHED), b, ACK, 0, 0))
  {
    var y1 := y.(st := ESTABLISHED);
    assert Pair(cfg, x, y1) && Grows(y, y1);
    SendAckOk(cfg, x, y1, b);
  }

  lemma OutSynSentOk(cfg: Script, x: Core, y: Core, b: Book, e: Env)
    requires cfg.Valid() && Pair(cfg, x, y) && y.st == SYN_SENT
    ensures OutOk(cfg, x, y, OutSynSent(cfg, y, b, e))
  {
    if y.tx.ackd == y.tx.next && y.rx.gotSyn {
      EstablishOk(cfg, x, y, b.(same := 0));
    }
  }

  lemma OutSynReceivedOk(cfg: Script, x: Core, y: Core, b: Book, e: Env)
    requires cfg.Valid() && Pair(cfg, x, y) && y.st == SYN_RECEIVED
    ensures OutOk(cfg, x, y, OutSynReceived(cfg, y, b, e))
  {
    if y.tx.ackd == y.tx.next {
      EstablishOk(cfg, x, y, b.(same := 0));
    }
  }

  /** In the middle of an action, Remaining is the distance to the end of the action and there is no wrap. */
  lemma RemainingIs(cfg: Script, y: Core)
    requires cfg.Valid() && EndOk(cfg, y) && y.st == ESTABLISHED
    requires y.act < cfg.Last() && cfg.actions[y.act].peer == y.peer
    ensures Mark(cfg, y.peer, y.act + 1) < WORD - 300_000
    ensures Remaining(cfg, y) == Mark(cfg, y.peer, y.act + 1) - y.tx.next
    ensures cfg.ActionAt(y.act).len == Mark(cfg, y.peer, y.act + 1) - Mark(cfg, y.peer, y.act) > 0
  {
    assert cfg.Contiguous(y.act);
    cfg.OffsetMonotone(y.peer, y.act + 1, |cfg.actions|);
  }

  /** A FIN is sound from an end that has everything from the other side. */
  lemma FinAckOk(cfg: Script, k: Core, k': Core)
    requires cfg.Valid() && k.act == cfg.Last()
    requires RxOk(cfg, Other(k.peer), k.act, k.rx) && k.rx.gotSyn
    requires k.tx.next == Mark(cfg, k.peer, k.act)
    requires k'.peer == k.peer && k'.rx == k.rx && Closing(k')
    ensures SegOk(cfg, k', MakeSegment(cfg, k, FINACK, 0, 0))
  {
    cfg.TotalInContent(k.peer);
    cfg.TotalInContent(Other(k.peer));
  }

  /** The next segment of the current action lies in the action. */
  lemma NextSegment(cfg: Script, y: Core, seg: Segment, dataLen: u32)
    requires cfg.Valid() && EndOk(cfg, y) && y.st == ESTABLISHED
    requires Sending(cfg, y.peer, y.act, y.tx)
    requires dataLen <= y.tx.ackable - y.tx.next
    requires seg == MakeSegment(cfg, y, ACK, Sub32(y.tx.next, y.tx.first), dataLen)
    ensures DataAt(cfg, y.peer, seg, y.act)
    ensures |seg.payload| == dataLen
    ensures Base(Other(y.peer)) <= seg.ackNo
  {
    cfg.OffsetInContent(y.peer, y.act + 1);
  }

  /** Where sending dataLen more bytes of the current action leads. */
  ghost function Beyond(y: Core, dataLen: nat): Core
    requires y.tx.next + dataLen < WORD
  {
    var next := y.tx.next + dataLen;
    y.(tx := y.tx.(next := next, high := Max(y.tx.high, next)))
  }

  lemma BeyondOk(cfg: Script, x: Core, y: Core, dataLen: nat)
    requires cfg.Valid() && Pair(cfg, x, y) && y.st == ESTABLISHED
    requires Sending(cfg, y.peer, y.act, y.tx) && y.tx.next + dataLen <= y.tx.ackable
    ensures Pair(cfg, x, Beyond(y, dataLen)) && Grows(y, Beyond(y, dataLen))
  {
    hide AcceptedOk, RecvAt, Finished;
  }

  /** The size of the next segment. */
  ghost function NextSize(cfg: Script, y: Core): u32 {
    if Remaining(cfg, y) > y.rx.mss then y.rx.mss else Remaining(cfg, y)
  }

  lemma SendDataIs(cfg: Script, y: Core, b: Book)
    requires cfg.Valid() && EndOk(cfg, y) && y.st == ESTABLISHED
    requires Sending(cfg, y.peer, y.act, y.tx) && y.tx.next < y.tx.ackable
    ensures y.tx.next + NextSize(cfg, y) <= y.tx.ackable < WORD
    ensures SendData(cfg, y, b).ctx.core == Beyond(y, NextSize(cfg, y))
    ensures SendData(cfg, y, b).pkt == [MakeSegment(cfg, y, ACK, Sub32(y.tx.next, y.tx.first), NextSize(cfg, y))]
  {
    RemainingIs(cfg, y);
    assert NextSize(cfg, y) > 0;
  }

  /** Sending the next segment of the current action. */
  lemma SendDataOk(cfg: Script, x: Core, y: Core, b: Book)
    requires cfg.Valid() && Pair(cfg, x, y) && y.st == ESTABLISHED
    requires Sending(cfg, y.peer, y.act, y.tx) && y.tx.next < y.tx.ackable
    ensures OutOk(cfg, x, y, SendData(cfg, y, b))
  {
    SendDataIs(cfg, y, b);
    hide SendData, NextSize, Sending, RxOk, TxOk;
    var k, seg := SendData(cfg, y, b).ctx.core, SendData(cfg, y, b).pkt[0];
    NextSegment(cfg, y, seg, NextSize(cfg, y));
    BeyondOk(cfg, x, y, NextSize(cfg, y));
    assert DataSeg(cfg, k, seg);
  }

  /** The first segment of an action. PROX_ASSERT(outstanding_bytes == 0) holds here. */
  lemma BeginOk(cfg: Script, x: Core, y: Core)
    requires cfg.Valid() && Pair(cfg, x, y) && y.st == ESTABLISHED
    requires y.act < cfg.Last() && cfg.actions[y.act].peer == y.peer
    ensures y.tx.ackable == 0 ==> Outstanding(y) == 0
    ensures Pair(cfg, x, Begin(cfg, y)) && Grows(y, Begin(cfg, y))
    ensures Sending(cfg, y.peer, y.act, Begin(cfg, y).tx)
  {
    RemainingIs(cfg, y);
  }

  lemma RewindOk(cfg: Script, x: Core, y: Core)
    requires cfg.Valid() && Pair(cfg, x, y) && y.st == ESTABLISHED
    requires Sending(cfg, y.peer, y.act, y.tx)
    ensures Pair(cfg, x, Rewind(y)) && Grows(y, Rewind(y))
    ensures Sending(cfg, y.peer, y.act, Rewind(y).tx) && Rewind(y).tx.next < y.tx.ackable
  {
  }

  /** What came from a state that differs from y only in its sending half also comes soundly from y. */
  lemma OutFrom(cfg: Script, x: Core, y: Core, y1: Core, o: Out)
    requires OutOk(cfg, x, y1, o) && Grows(y, y1) && y1.rx == y.rx
    requires y1.tx.ackd == y.tx.ackd && y1.st == y.st
    ensures OutOk(cfg, x, y, o)
  {
  }

  /** The closing action is this end's: it sends its FIN. */
  lemma CloseOk(cfg: Script, x: Core, y: Core, b: Book)
    requires cfg.Valid() && Pair(cfg, x, y) && y.st == ESTABLISHED
    requires y.act == cfg.Last() && cfg.actions[y.act].peer == y.peer
    ensures OutOk(cfg, x, y, Send(cfg, y.(st := FIN_WAIT), b, FINACK, 0, 0))
  {
    var o := Send(cfg, y.(st := FIN_WAIT), b, FINACK, 0, 0);
    cfg.TotalInContent(y.peer);
    FinAckOk(cfg, y, o.ctx.core);
  }

  lemma SendNextOk(cfg: Script, x: Core, y: Core, b: Book)
    requires cfg.Valid() && Pair(cfg, x, y) && y.st == ESTABLISHED
    requires y.act < cfg.Last() && cfg.actions[y.act].peer == y.peer && MaySend(cfg, y)
    ensures OutOk(cfg, x, y, SendData(cfg, Begin(cfg, y), b))
  {
    RemainingIs(cfg, y);
    BeginOk(cfg, x, y);
    SendDataOk(cfg, x, Begin(cfg, y), b);
    OutFrom(cfg, x, y, Begin(cfg, y), SendData(cfg, Begin(cfg, y), b));
  }

  lemma SendAgainOk(cfg: Script, x: Core, y: Core, b: Book)
    requires cfg.Valid() && Pair(cfg, x, y) && y.st == ESTABLISHED
    requires y.act < cfg.Last() && cfg.actions[y.act].peer == y.peer && !MaySend(cfg, y)
    ensures OutOk(cfg, x, y, SendData(cfg, Rewind(y), b))
  {
    RemainingIs(cfg, y);
    RewindOk(cfg, x, y);
    SendDataOk(cfg, x, Rewind(y), b);
    OutFrom(cfg, x, y, Rewind(y), SendData(cfg, Rewind(y), b));
  }

  lemma OutEstablishedTxOk(cfg: Script, x: Core, y: Core, b: Book, e: Env)
    requires cfg.Valid() && Pair(cfg, x, y) && y.st == ESTABLISHED && OwnTurn(cfg, y)
    ensures OutOk(cfg, x, y, OutEstablishedTx(cfg, y, b, e))
  {
    if y.act == cfg.Last() {
      CloseOk(cfg, x, y, b.(same := 0));
    } else {
      assert cfg.Contiguous(y.act);
      if MaySend(cfg, y) {
        SendNextOk(cfg, x, y, b);
      } else {
        SendAgainOk(cfg, x, y, Retransmit(b));
      }
    }
  }

  /** A received FIN means that the whole script is over. */
  lemma FinMeansLast(cfg: Script, k: Core)
    requires cfg.Valid() && EndOk(cfg, k) && k.rx.gotFin
    ensures k.act == cfg.Last()
  {
    if k.act < cfg.Last() {
      cfg.OffsetMonotone(Other(k.peer), k.act + 1, |cfg.actions|);
      cfg.OffsetMonotone(Other(k.peer), k.act, |cfg.actions|);
      assert false;
    }
  }

  lemma AnswerFinOk(cfg: Script, x: Core, y: Core, b: Book)
    requires cfg.Valid() && Pair(cfg, x, y) && y.st == ESTABLISHED && !OwnTurn(cfg, y) && y.rx.gotFin
    ensures OutOk(cfg, x, y, Send(cfg, y.(st := LAST_ACK), b, FINACK, 0, 0))
  {
    FinMeansLast(cfg, y);
    cfg.TotalInContent(y.peer);
    FinAckOk(cfg, y, Send(cfg, y.(st := LAST_ACK), b, FINACK, 0, 0).ctx.core);
  }

  /** Sending the FIN again. */
  lemma SendFinAgainOk(cfg: Script, x: Core, y: Core, b: Book)
    requires cfg.Valid() && Pair(cfg, x, y) && Closing(y) && y.tx.ackd != y.tx.next
    ensures OutOk(cfg, x, y, Send(cfg, Rewind(y), b, FINACK, 0, 0))
  {
    var k := Send(cfg, Rewind(y), b, FINACK, 0, 0).ctx.core;
    cfg.TotalInContent(y.peer);
    assert k == y;
    FinAckOk(cfg, Rewind(y), k);
  }

  lemma OutEstablishedRxOk(cfg: Script, x: Core, y: Core, b: Book, e: Env)
    requires cfg.Valid() && Pair(cfg, x, y) && y.st == ESTABLISHED && !OwnTurn(cfg, y)
    ensures OutOk(cfg, x, y, OutEstablishedRx(cfg, y, b, e))
  {
    if y.rx.gotFin {
      AnswerFinOk(cfg, x, y, b);
    } else if b.newData {
      SendAckOk(cfg, x, y, b.(newData := false));
    } else {
      SendAckOk(cfg, x, y, Retransmit(b));
    }
  }

  lemma OutLastAckOk(cfg: Script, x: Core, y: Core, b: Book, e: Env)
    requires cfg.Valid() && Pair(cfg, x, y) && y.st == LAST_ACK
    ensures OutOk(cfg, x, y, OutLastAck(cfg, y, b, e))
  {
    if y.tx.ackd != y.tx.next {
      SendFinAgainOk(cfg, x, y, Retransmit(b));
    }
  }

  /** Entering TIME_WAIT. */
  lemma TimeWaitOk(cfg: Script, x: Core, y: Core, b: Book)
    requires cfg.Valid() && Pair(cfg, x, y) && y.st == FIN_WAIT && y.rx.gotFin
    ensures OutOk(cfg, x, y, Send(cfg, y.(st := TIME_WAIT), b, ACK, 0, 0))
  {
    SendAckOk(cfg, x, y.(st := TIME_WAIT), b);
  }

  lemma OutFinWaitOk(cfg: Script, x: Core, y: Core, b: Book, e: Env)
    requires cfg.Valid() && Pair(cfg, x, y) && y.st == FIN_WAIT
    ensures OutOk(cfg, x, y, OutFinWait(cfg, y, b, e))
  {
    if y.tx.ackd != y.tx.next {
      SendFinAgainOk(cfg, x, y, Retransmit(b));
    } else if y.rx.gotFin {
      TimeWaitOk(cfg, x, y, b.(same := 0));
    }
  }

  lemma OutTimeWaitOk(cfg: Script, x: Core, y: Core, b: Book, e: Env)
    requires cfg.Valid() && Pair(cfg, x, y) && y.st == TIME_WAIT
    ensures OutOk(cfg, x, y, OutTimeWait(cfg, y, b, e))
  {
    SendAckOk(cfg, x, y, b);
  }

  lemma ProcOutOk(cfg: Script, x: Core, c: Ctx, e: Env)
    requires cfg.Valid() && Pair(cfg, x, c.core) && c.core.st != LISTEN
    ensures OutOk(cfg, x, c.core, ProcOut(cfg, c, e))
  {
    var y, b := c.core, c.book;
    if b.same != MAX_SAME_STATE {
      match y.st
      case CLOSED => OutHandshake(cfg, x, y, b, e);
      case SYN_SENT => OutSynSentOk(cfg, x, y, b, e);
      case SYN_RECEIVED => OutSynReceivedOk(cfg, x, y, b, e);
      case ESTABLISHED =>
        if OwnTurn(cfg, y) {
          OutEstablishedTxOk(cfg, x, y, b, e);
        } else {
          OutEstablishedRxOk(cfg, x, y, b, e);
        }
      case LAST_ACK => OutLastAckOk(cfg, x, y, b, e);
      case FIN_WAIT => OutFinWaitOk(cfg, x, y, b, e);
      case TIME_WAIT => OutTimeWaitOk(cfg, x, y, b, e);
      case _ =>
    }
  }
}
