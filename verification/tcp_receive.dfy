/** Receiving a packet keeps the two ends in agreement. There is a phase each for its ack, its payload, its FIN and
    its SYN, and every phase leaves two ends that are linked to each other again. */
module TcpReceive {
  import opened TcpScript
  import opened TcpStream
  import opened TcpInvariant
  import opened Words

  lemma OpenHeard(cfg: Script, x: Core, y: Core)
    requires cfg.Valid() && Pair(cfg, x, y) && Open(x)
    ensures x.tx.ackd >= Base(x.peer)
    ensures y.rx.gotSyn && Synced(y) && y.st != SYN_SENT
  {
  }

  /** A SYN sets recv to where it already is, or to its first value. */
  lemma SynIn(cfg: Script, x: Core, y: Core, seg: Segment)
    requires cfg.Valid() && Pair(cfg, x, y) && SynSeg(x, seg)
    requires seg.syn && SynPending(y) && y.st != LISTEN
    ensures Pair(cfg, x, CoreIn(cfg, y, seg)) && Grows(y, CoreIn(cfg, y, seg))
    ensures SynPending(CoreIn(cfg, y, seg))
  {
    assert y.st != CLOSED;
    assert seg.ack ==> y.tx.ackable != 100;
    hide Sending, Finished;
    var y' := CoreIn(cfg, y, seg);
    assert y'.rx == y.rx.(recv := Base(x.peer), otherFirst := Base(x.peer), mss := MSS, gotSyn := true);
    assert y'.tx == y.tx.(ackd := y'.tx.ackd);
    assert y'.tx.ackd == y.tx.ackd || (y.st == SYN_SENT && y'.tx.ackd == 100);
    ActionOrder(cfg, x.peer, 0, 1);
  }

  /** An end that has not moved past an action lacks some of its bytes. */
  lemma StillBehind(cfg: Script, x: Core, y: Core)
    requires cfg.Valid() && Pair(cfg, x, y) && x.act <= y.act
    requires y.st == ESTABLISHED && Sending(cfg, y.peer, y.act, y.tx) && x.rx.gotSyn
    ensures x.rx.recv < y.tx.ackable
  {
    ActionOrder(cfg, y.peer, x.act, y.act + 1);
    ActionOrder(cfg, y.peer, y.act, y.act + 1);
  }

  /** When an ack completes an action, the other side has already moved past it. */
  lemma CompletedByPeer(cfg: Script, x: Core, y: Core)
    requires cfg.Valid() && Pair(cfg, x, y)
    requires y.st == ESTABLISHED && Sending(cfg, y.peer, y.act, y.tx)
    requires x.rx.gotSyn && x.rx.recv >= y.tx.ackable
    ensures x.act == y.act + 1
  {
    if x.act <= y.act {
      StillBehind(cfg, x, y);
    }
  }

  /** Moving past an action of one's own leaves the receiving half where it was. */
  lemma PastOwnAction(cfg: Script, q: Peer, a: nat, rx: Rx)
    requires cfg.Valid() && a < cfg.Last() && cfg.actions[a].peer != q
    requires RxOk(cfg, q, a, rx) && rx.gotSyn
    ensures RxOk(cfg, q, a + 1, rx)
  {
    ActionOrder(cfg, q, a, a + 1);
    ActionOrder(cfg, q, a + 1, a + 2);
  }

  /** An ack that ends an action of the receiver of the ack. */
  lemma AckCompletes(cfg: Script, x: Core, y: Core, seg: Segment)
    requires cfg.Valid() && Pair(cfg, x, y) && Open(x) && seg.ack
    requires Base(y.peer) <= seg.ackNo <= x.rx.recv && AckProgress(y, seg) && y.tx.ackable == seg.ackNo
    ensures y.st == ESTABLISHED && Sending(cfg, y.peer, y.act, y.tx) && x.act == y.act + 1
    ensures RxOk(cfg, x.peer, y.act + 1, y.rx)
  {
    OpenHeard(cfg, x, y);
    CompletedByPeer(cfg, x, y);
    PastOwnAction(cfg, x.peer, y.act, y.rx);
  }

  /** Its state after that. */
  lemma AckCompleted(cfg: Script, x: Core, y: Core, seg: Segment)
    requires cfg.Valid() && Pair(cfg, x, y) && Open(x) && seg.ack
    requires Base(y.peer) <= seg.ackNo <= x.rx.recv && AckProgress(y, seg) && y.tx.ackable == seg.ackNo
    ensures Pair(cfg, x, AckIn(y, seg)) && Grows(y, AckIn(y, seg)) && AckIn(y, seg).rx == y.rx
  {
    AckCompletes(cfg, x, y, seg);
    hide AcceptedOk, RecvAt;
    var y' := AckIn(y, seg);
    assert Idle(cfg, y.peer, y'.act, y'.tx);
  }

  /** An ack that ends no action. */
  lemma AckAdvances(cfg: Script, x: Core, y: Core, seg: Segment)
    requires cfg.Valid() && Pair(cfg, x, y) && Open(x) && seg.ack
    requires Base(y.peer) <= seg.ackNo <= x.rx.recv && y.tx.ackable != seg.ackNo
    ensures Pair(cfg, x, AckIn(y, seg)) && Grows(y, AckIn(y, seg)) && AckIn(y, seg).rx == y.rx
  {
    hide AcceptedOk, RecvAt;
    OpenHeard(cfg, x, y);
  }

  lemma AckPhase(cfg: Script, x: Core, y: Core, seg: Segment)
    requires cfg.Valid() && Pair(cfg, x, y) && Open(x) && seg.ack
    requires Base(y.peer) <= seg.ackNo <= x.rx.recv
    ensures Pair(cfg, x, AckIn(y, seg)) && Grows(y, AckIn(y, seg))
    ensures AckIn(y, seg).tx.ackd >= seg.ackNo
    ensures AckIn(y, seg).rx == y.rx
  {
    hide Pair, Grows;
    if AckProgress(y, seg) && y.tx.ackable == seg.ackNo {
      AckCompleted(cfg, x, y, seg);
    } else if AckProgress(y, seg) {
      AckAdvances(cfg, x, y, seg);
    } else {
      GrowsSame(y);
    }
  }

  lemma GrowsSame(k: Core)
    ensures Grows(k, k)
  {}

  lemma GrowsOn(k: Core, k1: Core, k2: Core)
    requires Grows(k, k1) && Grows(k1, k2)
    ensures Grows(k, k2)
  {}

  /** Data that starts at recv belongs to the action the receiver is at. */
  lemma DataIsCurrent(cfg: Script, x: Core, y: Core, seg: Segment, i: nat)
    requires cfg.Valid() && Pair(cfg, x, y) && Open(x)
    requires i <= x.act && DataAt(cfg, x.peer, seg, i) && seg.payload != []
    requires y.tx.ackd >= seg.ackNo && y.rx.recv == seg.seqNo
    ensures y.act == i
  {
    OpenHeard(cfg, x, y);
    var a := y.act;
    if a < i {
      ActionOrder(cfg, x.peer, a, i);
      ActionOrder(cfg, y.peer, a, i);
      assert false;
    } else if a > i {
      ActionOrder(cfg, x.peer, i, a);
      assert false;
    }
  }

  /** A payload at recv inside the current action is accepted. */
  lemma DataJudged(cfg: Script, q: Peer, y: Core, seg: Segment)
    requires cfg.Valid() && y.act < cfg.Last() && q == Other(y.peer)
    requires DataAt(cfg, q, seg, y.act) && seg.payload != []
    requires y.rx.otherFirst == Base(q) && y.rx.recv == seg.seqNo
    ensures Judge(cfg, y, seg.payload) == Good(seg.seqNo + |seg.payload| == Mark(cfg, q, y.act + 1))
  {
    assert cfg.Contiguous(y.act);
    ActionOrder(cfg, q, y.act, y.act + 1);
    cfg.OffsetMonotone(q, y.act + 1, |cfg.actions|);
    var pos := seg.seqNo - Base(q);
    assert cfg.Bytes(q, pos, |seg.payload|) == seg.payload;
  }

  lemma PrefixAppend(a: seq<byte>, b: seq<byte>, c: seq<byte>)
    requires a <= c && |a| + |b| <= |c| && b == c[|a|..|a| + |b|]
    ensures a + b <= c
  {
    assert c[..|a| + |b|] == c[..|a|] + b;
  }

  /** Accepted bytes stay a prefix of the other side's content. */
  lemma AcceptedGrows(cfg: Script, q: Peer, a: nat, rx: Rx, seg: Segment)
    requires rx.gotSyn && AcceptedOk(cfg, q, rx) && !rx.gotFin && DataAt(cfg, q, seg, a) && rx.recv == seg.seqNo
    ensures rx.accepted + seg.payload <= cfg.Content(q)
  {
    PrefixAppend(rx.accepted, seg.payload, cfg.Content(q));
  }

  /** The receiving half after a payload that ends within, or at the end of, the current action. */
  lemma DataRx(cfg: Script, q: Peer, a: nat, rx: Rx, seg: Segment, rx': Rx, a': nat)
    requires cfg.Valid() && a < cfg.Last() && cfg.actions[a].peer == q
    requires RxOk(cfg, q, a, rx) && rx.gotSyn && DataAt(cfg, q, seg, a) && rx.recv == seg.seqNo
    requires seg.seqNo + |seg.payload| < WORD
    requires rx' == rx.(recv := seg.seqNo + |seg.payload|, accepted := rx.accepted + seg.payload)
    requires a' == if rx'.recv == Mark(cfg, q, a + 1) then a + 1 else a
    ensures RxOk(cfg, q, a', rx')
  {
    cfg.OffsetMonotone(q, a + 1, |cfg.actions|);
    ActionOrder(cfg, q, a + 1, a + 2);
    assert rx.recv < Mark(cfg, q, a + 1);
    AcceptedGrows(cfg, q, a, rx, seg);
    assert AcceptedOk(cfg, q, rx');
    assert RecvAt(cfg, q, a', rx'.recv);
  }

  /** The other side's action over, the sending half stays idle. */
  lemma PastOtherAction(cfg: Script, p: Peer, st: State, a: nat, tx: Tx)
    requires cfg.Valid() && a < cfg.Last() && cfg.actions[a].peer != p
    requires TxOk(cfg, p, st, a, tx) && st != CLOSED && st != LISTEN && st != SYN_SENT
    ensures TxOk(cfg, p, st, a + 1, tx)
  {
    ActionOrder(cfg, p, a, a + 1);
  }

  lemma DataPhase(cfg: Script, x: Core, y: Core, seg: Segment, i: nat)
    requires cfg.Valid() && Pair(cfg, x, y) && Open(x)
    requires seg.payload != [] && seg.seqNo + |seg.payload| <= x.tx.high
    requires i <= x.act && DataAt(cfg, x.peer, seg, i)
    requires y.tx.ackd >= seg.ackNo >= Base(y.peer) && y.rx.recv == seg.seqNo
    ensures Judge(cfg, y, seg.payload).Good?
    ensures Pair(cfg, x, DataIn(cfg, y, seg.payload)) && Grows(y, DataIn(cfg, y, seg.payload))
  {
    OpenHeard(cfg, x, y);
    hide Idle, Sending, Finished, AcceptedOk, RecvAt, Judge;
    DataIsCurrent(cfg, x, y, seg, i);
    DataJudged(cfg, x.peer, y, seg);
    var y' := DataIn(cfg, y, seg.payload);
    DataRx(cfg, x.peer, i, y.rx, seg, y'.rx, y'.act);
    PastOtherAction(cfg, y.peer, y.st, y.act, y.tx);
  }

  /** When a FIN arrives the receiver is at the closing action. */
  lemma FinFindsLast(cfg: Script, x: Core, y: Core, seg: Segment)
    requires cfg.Valid() && Pair(cfg, x, y) && Open(x)
    requires FinSeg(cfg, x, seg) && y.tx.ackd >= seg.ackNo
    ensures y.act == cfg.Last()
    ensures seg.seqNo <= y.rx.recv <= seg.seqNo + 1
  {
    OpenHeard(cfg, x, y);
    cfg.TotalInContent(x.peer);
    cfg.TotalInContent(y.peer);
    if y.act < cfg.Last() {
      ActionOrder(cfg, x.peer, y.act, cfg.Last());
      ActionOrder(cfg, y.peer, y.act, cfg.Last());
      assert false;
    }
  }

  lemma FinPhase(cfg: Script, x: Core, y: Core, seg: Segment)
    requires cfg.Valid() && Pair(cfg, x, y) && Open(x)
    requires !seg.syn && seg.fin && FinSeg(cfg, x, seg)
    requires y.tx.ackd >= seg.ackNo >= Base(y.peer)
    ensures Pair(cfg, x, SeqIn(cfg, FlagsIn(y, seg), seg)) && Grows(y, SeqIn(cfg, FlagsIn(y, seg), seg))
  {
    OpenHeard(cfg, x, y);
    FinFindsLast(cfg, x, y, seg);
    cfg.TotalInContent(x.peer);
    var y' := SeqIn(cfg, FlagsIn(y, seg), seg);
    assert y' == y.(rx := y.rx.(recv := seg.seqNo + 1, gotFin := true));
  }

  lemma SeqPhase(cfg: Script, x: Core, y: Core, seg: Segment)
    requires cfg.Valid() && Pair(cfg, x, y) && SegOk(cfg, x, seg)
    requires !seg.syn && !seg.rst
    requires y.tx.ackd >= seg.ackNo
    ensures Pair(cfg, x, SeqIn(cfg, FlagsIn(y, seg), seg)) && Grows(y, SeqIn(cfg, FlagsIn(y, seg), seg))
  {
    if seg.fin {
      FinPhase(cfg, x, y, seg);
    } else {
      assert FlagsIn(y, seg) == y;
      if y.rx.recv == seg.seqNo && seg.payload != [] {
        var i: nat :| i <= x.act && DataAt(cfg, x.peer, seg, i);
        DataPhase(cfg, x, y, seg, i);
      }
    }
  }

  /** Reading the flags and the ack commute. */
  lemma AckThenFlags(y: Core, seg: Segment)
    ensures Acked(y, seg) == FlagsIn(AckIn(y, seg), seg)
  {}

  lemma NonSynIn(cfg: Script, x: Core, y: Core, seg: Segment)
    requires cfg.Valid() && Pair(cfg, x, y) && SegOk(cfg, x, seg)
    requires !seg.syn && !seg.rst
    ensures Pair(cfg, x, CoreIn(cfg, y, seg)) && Grows(y, CoreIn(cfg, y, seg))
  {
    assert Open(x) && seg.ack && Base(y.peer) <= seg.ackNo <= x.rx.recv && seg.mssOption == 0;
    hide Pair, Grows, SegOk, AckIn, SeqIn;
    AckPhase(cfg, x, y, seg);
    var y1 := AckIn(y, seg);
    SeqPhase(cfg, x, y1, seg);
    AckThenFlags(y, seg);
    GrowsOn(y, y1, SeqIn(cfg, FlagsIn(y1, seg), seg));
    assert Acked(y, seg) == FlagsIn(y1, seg);
    assert CoreIn(cfg, y, seg) == SeqIn(cfg, FlagsIn(y1, seg), seg);
  }
}
