/** The invariant of two scripted TCP ends over lossy first-in first-out channels. */
module TcpInvariant {
  import opened TcpScript
  import opened TcpStream
  import opened Words

  /** The sequence number of the first byte of peer p's content. */
  function Base(p: Peer): u32 {
    if p == Client then 100 else 201
  }

  ghost predicate Synced(k: Core) {
    k.st != CLOSED && k.st != LISTEN
  }

  /** The handshake is over for this end. */
  ghost predicate Open(k: Core) {
    Synced(k) && k.st != SYN_SENT && k.st != SYN_RECEIVED
  }

  /** This end has sent its FIN. */
  ghost predicate Closing(k: Core) {
    k.st == LAST_ACK || k.st == FIN_WAIT || k.st == TIME_WAIT
  }

  /** The sequence number at which the first i actions of peer p's content end. */
  ghost function Mark(cfg: Script, p: Peer, i: nat): int
    requires i <= |cfg.actions|
  {
    Base(p) + cfg.Offset(p, i)
  }

  /** Nothing of the current action is on its way. */
  ghost predicate Idle(cfg: Script, p: Peer, act: nat, tx: Tx)
    requires act < |cfg.actions|
  {
    tx.ackable == 0 && tx.next == tx.ackd == tx.high == Mark(cfg, p, act)
  }

  /** Part of the current action is sent and not all of it is acknowledged. next may lie below ackd: a late ack can
      overtake a retransmission. */
  ghost predicate Sending(cfg: Script, p: Peer, act: nat, tx: Tx)
    requires act < |cfg.actions|
  {
    && act < cfg.Last()
    && cfg.actions[act].peer == p
    && tx.ackable == Mark(cfg, p, act + 1)
    && Mark(cfg, p, act) <= tx.ackd < tx.ackable
    && Mark(cfg, p, act) <= tx.next <= tx.high <= tx.ackable
    && tx.ackd <= tx.high
  }

  /** The FIN is sent. */
  ghost predicate Finished(cfg: Script, p: Peer, act: nat, tx: Tx)
    requires act < |cfg.actions|
  {
    && act == cfg.Last() && tx.ackable == 0
    && tx.next == tx.high == Mark(cfg, p, act) + 1
    && tx.next - 1 <= tx.ackd <= tx.next
  }

  /** The sending half, state by state. */
  ghost predicate TxOk(cfg: Script, p: Peer, st: State, act: nat, tx: Tx)
    requires act < |cfg.actions|
  {
    && (st != CLOSED && st != LISTEN ==> tx.first == Base(p))
    && match st
       case CLOSED => p == Client && tx == InitCore(Client).tx && act == 0
       case LISTEN => p == Server && tx == InitCore(Server).tx && act == 0
       case SYN_SENT => p == Client && tx.ackable == 0 && act == 0 && tx.next == tx.high == 100 && 99 <= tx.ackd <= 100
       case SYN_RECEIVED =>
         p == Server && tx.ackable == 0 && tx.next == tx.high == 201 && 200 <= tx.ackd <= 201 && Mark(cfg, p, act) == 201
       case ESTABLISHED => Idle(cfg, p, act, tx) || Sending(cfg, p, act, tx)
       case CLOSE_WAIT => false
       case LAST_ACK => Finished(cfg, p, act, tx) && cfg.actions[act].peer != p
       case _ => Finished(cfg, p, act, tx) && cfg.actions[act].peer == p
  }

  /** What the state says about the SYN and FIN received. */
  ghost predicate FlagsOk(st: State, act: nat, tx: Tx, rx: Rx) {
    match st
    case CLOSED => !rx.gotSyn
    case LISTEN => !rx.gotSyn
    case SYN_SENT => (rx.gotSyn <==> tx.ackd == 100) && !rx.gotFin
    case SYN_RECEIVED => rx.gotSyn && (tx.ackd == 200 ==> rx.recv == 100 && act == 0 && !rx.gotFin)
    case ESTABLISHED => rx.gotSyn
    case CLOSE_WAIT => false
    case FIN_WAIT => rx.gotSyn
    case _ => rx.gotSyn && rx.gotFin
  }

  /** How far into the script of q, the other side, the received bytes reach. */
  ghost predicate RecvAt(cfg: Script, q: Peer, act: nat, recv: u32)
    requires act < |cfg.actions|
  {
    if act == cfg.Last() then Mark(cfg, q, act) <= recv <= Mark(cfg, q, act) + 1
    else if cfg.actions[act].peer == q then Mark(cfg, q, act) <= recv < Mark(cfg, q, act + 1)
    else recv == Mark(cfg, q, act)
  }

  /** The bytes accepted are q's content up to recv, which also counts the FIN. */
  ghost predicate AcceptedOk(cfg: Script, q: Peer, rx: Rx) {
    && rx.recv == Base(q) + |rx.accepted| + (if rx.gotFin then 1 else 0)
    && rx.accepted <= cfg.Content(q)
    && (rx.gotFin ==> |rx.accepted| == cfg.Total(q))
    && |rx.accepted| <= cfg.Total(q)
  }

  /** The receiving half. q is the other side. */
  ghost predicate RxOk(cfg: Script, q: Peer, act: nat, rx: Rx)
    requires act < |cfg.actions|
  {
    if !rx.gotSyn then rx.recv == 0 && rx.accepted == [] && act == 0 && !rx.gotFin
    else rx.otherFirst == Base(q) && rx.mss == MSS && AcceptedOk(cfg, q, rx) && RecvAt(cfg, q, act, rx.recv)
  }

  ghost predicate EndOk(cfg: Script, k: Core) {
    && k.act < |cfg.actions|
    && TxOk(cfg, k.peer, k.st, k.act, k.tx)
    && FlagsOk(k.st, k.act, k.tx, k.rx)
    && RxOk(cfg, Other(k.peer), k.act, k.rx)
  }

  /** What x has acknowledged was received, and what y received was sent. */
  ghost predicate SeqLink(p: Peer, tx: Tx, rx: Rx) {
    && (rx.gotSyn ==> rx.recv <= tx.high)
    && (tx.ackd >= Base(p) ==> rx.gotSyn && tx.ackd <= rx.recv)
  }

  /** One end is at most one action ahead of the other, and then it is the receiver of the earlier action. */
  ghost predicate ActLink(cfg: Script, i: nat, j: nat, q: Peer) {
    i <= j + 1 && (i == j + 1 ==> cfg.ActionAt(j).peer == q)
  }

  /** How far x, which sends, and y, which receives, can be apart. */
  ghost predicate Link(cfg: Script, x: Core, y: Core) {
    && SeqLink(x.peer, x.tx, y.rx)
    && (x.tx.ackd >= Base(x.peer) ==> Synced(y) && y.st != SYN_SENT)
    && ActLink(cfg, x.act, y.act, y.peer)
  }

  /** A segment that carries data lies inside action i of peer p, and could only be sent once everything before that
      action was acknowledged. */
  ghost predicate DataAt(cfg: Script, p: Peer, seg: Segment, i: nat) {
    && i < cfg.Last()
    && cfg.actions[i].peer == p
    && Base(p) + cfg.Offset(p, i) <= seg.seqNo
    && seg.seqNo + |seg.payload| <= Base(p) + cfg.Offset(p, i + 1)
    && cfg.Offset(p, i + 1) <= |cfg.Content(p)|
    && seg.payload == cfg.Content(p)[seg.seqNo - Base(p)..seg.seqNo - Base(p) + |seg.payload|]
    && seg.ackNo >= Base(Other(p)) + cfg.Offset(Other(p), i)
  }

  /** A segment with data in flight from x lies in an action x has reached. */
  ghost predicate DataSeg(cfg: Script, x: Core, seg: Segment) {
    && seg.seqNo + |seg.payload| <= x.tx.high
    && exists i: nat :: i <= x.act && DataAt(cfg, x.peer, seg, i)
  }

  /** A FIN in flight from x. x had everything from the other side when it closed. */
  ghost predicate FinSeg(cfg: Script, x: Core, seg: Segment) {
    && Closing(x) && seg.payload == []
    && seg.seqNo == Base(x.peer) + cfg.Total(x.peer)
    && seg.ackNo >= Base(Other(x.peer)) + cfg.Total(Other(x.peer))
  }

  ghost predicate SynSeg(x: Core, seg: Segment) {
    && Synced(x) && seg.seqNo == Base(x.peer) - 1 && seg.mssOption == MSS && !seg.fin && seg.payload == []
    && (seg.ack <==> x.peer == Server) && (seg.ack ==> seg.ackNo == 100)
  }

  /** A segment in flight from x. */
  ghost predicate SegOk(cfg: Script, x: Core, seg: Segment) {
    if seg.rst then !seg.syn && !seg.fin
    else if seg.syn then SynSeg(x, seg)
    else
      && Open(x) && seg.ack && seg.mssOption == 0
      && Base(Other(x.peer)) <= seg.ackNo <= x.rx.recv
      && (seg.fin ==> FinSeg(cfg, x, seg))
      && (seg.payload != [] ==> DataSeg(cfg, x, seg))
  }

  /** While a SYN is on its way to y, y has heard nothing else. */
  ghost predicate SynPending(y: Core) {
    y.rx.recv <= Base(Other(y.peer)) && (y.peer == Server ==> y.tx.ackd <= 200)
  }

  /** The channel from x to y. SYNs come first. */
  ghost predicate ChannelOk(cfg: Script, x: Core, y: Core, ch: seq<Segment>) {
    && (forall k :: 0 <= k < |ch| ==> SegOk(cfg, x, ch[k]))
    && (forall j, k :: 0 <= j < k < |ch| && ch[k].syn ==> ch[j].syn || ch[j].rst)
    && (forall k :: 0 <= k < |ch| && ch[k].syn ==> SynPending(y))
  }

  /** The two ends agree. */
  ghost predicate Pair(cfg: Script, x: Core, y: Core) {
    && x.peer == Other(y.peer)
    && EndOk(cfg, x) && EndOk(cfg, y)
    && Link(cfg, x, y) && Link(cfg, y, x)
  }

  /** x moved on to x'. */
  ghost predicate Grows(x: Core, x': Core) {
    && x'.peer == x.peer
    && x.rx.recv <= x'.rx.recv && x.act <= x'.act && x.tx.high <= x'.tx.high
    && (Synced(x) ==> Synced(x'))
    && (Open(x) ==> Open(x'))
    && (Closing(x) ==> Closing(x'))
  }

  lemma SegOkGrows(cfg: Script, x: Core, x': Core, seg: Segment)
    requires SegOk(cfg, x, seg) && Grows(x, x')
    ensures SegOk(cfg, x', seg)
  {
  }

  /** The cumulative position of an action inside the content decides which action it is. */
  lemma ActionOrder(cfg: Script, p: Peer, i: nat, j: nat)
    requires cfg.Valid()
    requires i < j <= |cfg.actions|
    ensures cfg.Offset(p, i) <= cfg.Offset(p, i + 1) <= cfg.Offset(p, j)
    ensures i < cfg.Last() && cfg.actions[i].peer == p ==> cfg.Offset(p, i) < cfg.Offset(p, i + 1)
    ensures cfg.actions[i].peer != p ==> cfg.Offset(p, i) == cfg.Offset(p, i + 1)
  {
    cfg.OffsetMonotone(p, i + 1, j);
    if i < cfg.Last() {
      assert cfg.Contiguous(i);
    }
  }
}
