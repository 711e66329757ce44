/** What one call of stream_tcp_proc does to a stream context, as functions on values. StreamCtx (tcp_endpoint.dfy)
    does the same on fields in place and is proved against these functions. */
module TcpStream {
  import opened TcpScript
  import opened Words

  /** The segment size both ends announce in their SYN. */
  const MSS: u32 := 1460
  const DEFAULT_MSS: u32 := 536
  const CLIENT_ISN: u32 := 99
  const SERVER_ISN: u32 := 200
  const RX_WINDOW: u32 := 300_000
  /** After this many retransmissions without progress the stream expires. */
  const MAX_SAME_STATE: nat := 10

  datatype State = CLOSED | LISTEN | SYN_SENT | SYN_RECEIVED | ESTABLISHED | CLOSE_WAIT | LAST_ACK | FIN_WAIT | TIME_WAIT

  /** A TCP segment. mssOption is 0 when the segment has no options. */
  datatype Segment = Segment(syn: bool, ack: bool, fin: bool, rst: bool, seqNo: u32, ackNo: u32,
                             payload: seq<byte>, mssOption: u32)

  /** The token buckets and clocks read by one call: own bucket full, other side's bucket full, retransmission timer
      past, TIME_WAIT timer past. */
  datatype Env = Env(full: bool, otherFull: bool, timedOut: bool, timeWaitOver: bool)

  /** The sending half. high is history: the highest sequence number sent so far. */
  datatype Tx = Tx(next: u32, ackd: u32, ackable: u32, first: u32, high: u32)

  /** The receiving half. accepted is history: the bytes that passed the payload comparison. */
  datatype Rx = Rx(recv: u32, otherFirst: u32, mss: u32, gotSyn: bool, gotFin: bool, accepted: seq<byte>)

  datatype Core = Core(peer: Peer, st: State, act: nat, tx: Tx, rx: Rx)

  /** Retransmission counters, flags, and whether the bundle has a timer pending. */
  datatype Book = Book(same: nat, retx: nat, expired: bool, ended: bool, newData: bool, moreData: bool, progress: bool,
                       armed: bool)

  /** The stream context. */
  datatype Ctx = Ctx(core: Core, book: Book)

  function InitCore(p: Peer): Core {
    Core(p, if p == Client then CLOSED else LISTEN, 0, Tx(0, 0, 0, 0, 0), Rx(0, 0, DEFAULT_MSS, false, false, []))
  }

  /** The client is called once right after it is made. The server is made for a packet. */
  function InitCtx(p: Peer): Ctx {
    Ctx(InitCore(p), Book(0, 0, false, false, false, false, false, p == Client))
  }

  // ---- receiving ----

  function FlagsIn(k: Core, p: Segment): Core {
    k.(rx := k.rx.(gotSyn := k.rx.gotSyn || p.syn, gotFin := k.rx.gotFin || p.fin))
  }

  predicate AckProgress(k: Core, p: Segment) {
    p.ack && p.ackNo > k.tx.ackd
  }

  /** A new cumulative ack; when it completes the current action the context moves to the next one, and what was
      about to be sent again is skipped. */
  function AckIn(k: Core, p: Segment): Core {
    if !AckProgress(k, p) then k
    else if k.tx.ackable != p.ackNo then k.(tx := k.tx.(ackd := p.ackNo))
    else k.(act := k.act + 1, tx := k.tx.(ackd := p.ackNo, next := Max(k.tx.next, p.ackNo), ackable := 0))
  }

  function Max(a: u32, b: u32): u32 {
    if a >= b then a else b
  }

  datatype Verdict = Empty | TooLong | BadPayload | Good(last: bool)

  /** The judgement on a payload that starts exactly at recv. */
  function Judge(cfg: Script, k: Core, payload: seq<byte>): (v: Verdict)
    ensures v.Good? ==> 0 < |payload| < WORD
  {
    var a := cfg.ActionAt(k.act);
    var segBeg := Sub32(k.rx.recv, k.rx.otherFirst);
    var end := Add32(a.beg, a.len);
    if payload == [] then Empty
    else if |payload| > Sub32(end, segBeg) then TooLong
    else if cfg.Bytes(a.peer, segBeg, |payload|) != payload then BadPayload
    else Good(Add32(segBeg, |payload|) == end)
  }

  function DataIn(cfg: Script, k: Core, payload: seq<byte>): Core {
    match Judge(cfg, k, payload)
    case Good(last) =>
      k.(act := if last then k.act + 1 else k.act,
         rx := k.rx.(recv := Add32(k.rx.recv, |payload|), accepted := k.rx.accepted + payload))
    case _ => k
  }

  predicate DataProgress(cfg: Script, k: Core, p: Segment) {
    !p.syn && !p.fin && k.rx.recv == p.seqNo && Judge(cfg, k, p.payload).Good?
  }

  predicate SeqProgress(cfg: Script, k: Core, p: Segment) {
    p.syn || (p.fin && k.rx.recv == p.seqNo) || DataProgress(cfg, k, p)
  }

  function SeqIn(cfg: Script, k: Core, p: Segment): Core {
    if p.syn then k.(rx := k.rx.(recv := Add32(p.seqNo, 1), otherFirst := Add32(p.seqNo, 1)))
    else if k.rx.recv != p.seqNo then k
    else if p.fin then k.(rx := k.rx.(recv := Add32(p.seqNo, 1)))
    else DataIn(cfg, k, p.payload)
  }

  function OptionsIn(k: Core, p: Segment): Core {
    if p.mssOption != 0 then k.(rx := k.rx.(mss := p.mssOption)) else k
  }

  /** The state just before the sequence number of p is looked at. */
  function Acked(k: Core, p: Segment): Core {
    AckIn(FlagsIn(k, p), p)
  }

  predicate MakesProgress(cfg: Script, k: Core, p: Segment) {
    !p.rst && (AckProgress(k, p) || SeqProgress(cfg, Acked(k, p), p))
  }

  function CoreIn(cfg: Script, k: Core, p: Segment): Core {
    OptionsIn(SeqIn(cfg, Acked(k, p), p), p)
  }

  function ProcIn(cfg: Script, c: Ctx, p: Segment): Ctx {
    if p.rst then Ctx(FlagsIn(c.core, p), c.book.(ended := true))
    else
      var made := MakesProgress(cfg, c.core, p);
      Ctx(CoreIn(cfg, c.core, p),
          c.book.(same := if made then 0 else c.book.same, progress := made,
                  newData := c.book.newData || DataProgress(cfg, Acked(c.core, p), p)))
  }

  // ---- sending ----

  /** What a call leaves behind: the context, and the packet to transmit if there is one. */
  datatype Out = Out(ctx: Ctx, pkt: seq<Segment>)

  datatype Kind = RST | SYN | SYNACK | ACK | FINACK

  /** The header fields and payload of create_tcp_pkt. */
  function MakeSegment(cfg: Script, k: Core, kind: Kind, dataBeg: u32, dataLen: u32): Segment {
    var isSyn := kind == SYN || kind == SYNACK;
    var hasAck := kind != RST && kind != SYN;
    Segment(isSyn, hasAck, kind == FINACK, kind == RST, k.tx.next, if hasAck then k.rx.recv else 0,
            cfg.Bytes(cfg.ActionAt(k.act).peer, dataBeg, dataLen), if isSyn then MSS else 0)
  }

  /** The sequence effects of create_tcp_pkt. */
  function Sent(k: Core, kind: Kind, dataLen: u32): Core {
    var seqLen := if dataLen != 0 then dataLen else if kind == ACK then 0 else 1;
    var next := Add32(k.tx.next, seqLen);
    k.(tx := k.tx.(next := next, high := Max(k.tx.high, next),
                   first := if kind == SYN || kind == SYNACK then Add32(k.tx.ackd, 1) else k.tx.first))
  }

  /** A call that transmits nothing and waits for a timer. */
  function Wait(k: Core, b: Book): Out {
    Out(Ctx(k, b.(armed := true)), [])
  }

  /** A call that transmits a segment and waits for a timer. */
  function Send(cfg: Script, k: Core, b: Book, kind: Kind, dataBeg: u32, dataLen: u32): Out {
    Out(Ctx(Sent(k, kind, dataLen), b.(armed := true)), [MakeSegment(cfg, k, kind, dataBeg, dataLen)])
  }

  function Retransmit(b: Book): Book {
    b.(same := b.same + 1, retx := b.retx + 1)
  }

  function Rewind(k: Core): Core {
    k.(tx := k.tx.(next := k.tx.ackd))
  }

  function Start(k: Core, st: State, isn: u32): Core {
    k.(st := st, tx := k.tx.(next := isn, ackd := isn))
  }

  function OutClosed(cfg: Script, k: Core, b: Book, e: Env): Out {
    if !e.full then Wait(k, b) else Send(cfg, Start(k, SYN_SENT, CLIENT_ISN), b, SYN, 0, 0)
  }

  function OutListen(cfg: Script, k: Core, b: Book, e: Env): Out {
    if !e.full then Wait(k, b)
    else if !k.rx.gotSyn then Send(cfg, k, b.(ended := true), RST, 0, 0)
    else Send(cfg, Start(k, SYN_RECEIVED, SERVER_ISN), b, SYNACK, 0, 0)
  }

  predicate OwnTurn(cfg: Script, k: Core) {
    cfg.ActionAt(k.act).peer == k.peer
  }

  function OutSynSent(cfg: Script, k: Core, b: Book, e: Env): Out {
    if !e.full then Wait(k, b)
    else if k.tx.ackd < k.tx.next || !k.rx.gotSyn then OutClosed(cfg, k, Retransmit(b), e)
    else
      var k1, b1 := k.(st := ESTABLISHED), b.(same := 0);
      if OwnTurn(cfg, k) then Wait(k1, b1) else Send(cfg, k1, b1, ACK, 0, 0)
  }

  function OutSynReceived(cfg: Script, k: Core, b: Book, e: Env): Out {
    if !e.full then Wait(k, b)
    else if k.tx.ackd == k.tx.next then
      var k1, b1 := k.(st := ESTABLISHED), b.(same := 0);
      if OwnTurn(cfg, k) then Wait(k1, b1) else Send(cfg, k1, b1, ACK, 0, 0)
    else Send(cfg, Rewind(k), Retransmit(b), SYNACK, 0, 0)
  }

  function Outstanding(k: Core): u32 {
    Sub32(k.tx.next, k.tx.ackd)
  }

  /** How much of the current action lies at and after next. */
  function Remaining(cfg: Script, k: Core): u32 {
    var a := cfg.ActionAt(k.act);
    Sub32(a.len, Sub32(Sub32(k.tx.next, k.tx.first), a.beg))
  }

  function SendData(cfg: Script, k: Core, b: Book): Out {
    var remaining := Remaining(cfg, k);
    Send(cfg, k, b.(moreData := remaining > k.rx.mss), ACK, Sub32(k.tx.next, k.tx.first),
         if remaining > k.rx.mss then k.rx.mss else remaining)
  }

  /** The end of the current action becomes the sequence number whose ack completes it. */
  function Begin(cfg: Script, k: Core): Core {
    if k.tx.ackable != 0 then k else k.(tx := k.tx.(ackable := Add32(k.tx.next, cfg.ActionAt(k.act).len)))
  }

  predicate MaySend(cfg: Script, k: Core) {
    Outstanding(k) <= RX_WINDOW && Remaining(cfg, k) != 0
  }

  function OutEstablishedTx(cfg: Script, k: Core, b: Book, e: Env): Out {
    if !e.full then Wait(k, b)
    else if cfg.ActionAt(k.act).len == 0 then Send(cfg, k.(st := FIN_WAIT), b.(same := 0), FINACK, 0, 0)
    else if MaySend(cfg, k) then SendData(cfg, Begin(cfg, k), b)
    else if b.moreData then Wait(k, b.(moreData := false))
    else if b.progress && !e.otherFull then Wait(k, b.(progress := false))
    else if !e.timedOut then Wait(k, b)
    else SendData(cfg, Rewind(k), Retransmit(b))
  }

  function OutEstablishedRx(cfg: Script, k: Core, b: Book, e: Env): Out {
    if !e.full then Wait(k, b)
    else if k.rx.gotFin then Send(cfg, k.(st := LAST_ACK), b, FINACK, 0, 0)
    else if b.newData then Send(cfg, k, b.(newData := false), ACK, 0, 0)
    else Send(cfg, k, Retransmit(b), ACK, 0, 0)
  }

  function OutCloseWait(cfg: Script, k: Core, b: Book, e: Env): Out {
    if !e.full then Wait(k, b) else Send(cfg, k.(st := LAST_ACK), b, FINACK, 0, 0)
  }

  function OutLastAck(cfg: Script, k: Core, b: Book, e: Env): Out {
    if k.tx.ackd == k.tx.next then Out(Ctx(k, b.(ended := true)), [])
    else if !e.full then Wait(k, b)
    else if b.progress then Wait(k, b.(progress := false))
    else Send(cfg, Rewind(k), Retransmit(b), FINACK, 0, 0)
  }

  function OutFinWait(cfg: Script, k: Core, b: Book, e: Env): Out {
    if !e.full then Wait(k, b)
    else if k.tx.ackd == k.tx.next then
      if k.rx.gotFin then Send(cfg, k.(st := TIME_WAIT), b.(same := 0), ACK, 0, 0) else Wait(k, b)
    else if b.progress then Wait(k, b.(progress := false))
    else Send(cfg, Rewind(k), Retransmit(b), FINACK, 0, 0)
  }

  function OutTimeWait(cfg: Script, k: Core, b: Book, e: Env): Out {
    if e.timeWaitOver then Out(Ctx(k, b.(ended := true)), [])
    else if !e.full then Wait(k, b)
    else Send(cfg, k, b, ACK, 0, 0)
  }

  function ProcOut(cfg: Script, c: Ctx, e: Env): Out {
    var k, b := c.core, c.book;
    if b.same == MAX_SAME_STATE then Out(Ctx(k, b.(expired := true)), [])
    else match k.st
      case CLOSED => OutClosed(cfg, k, b, e)
      case LISTEN => OutListen(cfg, k, b, e)
      case SYN_SENT => OutSynSent(cfg, k, b, e)
      case SYN_RECEIVED => OutSynReceived(cfg, k, b, e)
      case ESTABLISHED => if OwnTurn(cfg, k) then OutEstablishedTx(cfg, k, b, e) else OutEstablishedRx(cfg, k, b, e)
      case CLOSE_WAIT => OutCloseWait(cfg, k, b, e)
      case LAST_ACK => OutLastAck(cfg, k, b, e)
      case FIN_WAIT => OutFinWait(cfg, k, b, e)
      case TIME_WAIT => OutTimeWait(cfg, k, b, e)
  }

  datatype Input = Tick | Packet(p: Segment)

  /** One call of the stream handler. The bundle's pending timer is removed first. */
  function Proc(cfg: Script, c: Ctx, i: Input, e: Env): Out {
    var c0 := c.(book := c.book.(armed := false));
    match i
    case Tick => ProcOut(cfg, c0, e)
    case Packet(p) =>
      var c1 := ProcIn(cfg, c0, p);
      if p.rst then Out(c1, []) else ProcOut(cfg, c1, e)
  }

  /** The stream takes no further part: ended, expired, or a server side that no packet has created yet. */
  predicate Gone(c: Ctx) {
    c.book.ended || c.book.expired || c.core.st == LISTEN
  }
}
