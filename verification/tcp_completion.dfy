/** Playing a script to its end while everything arrives in order: data, acks, both FINs and the last ack. TcpRecovery
    (tcp_recovery.dfy) gets there from everywhere else. */
module TcpCompletion {
  import opened TcpScript
  import opened TcpStream
  import opened TcpSystem
  import opened TcpInvariant
  import opened TcpReceive
  import opened TcpTransmit
  import opened TcpRuns
  import opened Words

  /** All buckets full, and the retransmission timer past, but not the one of TIME_WAIT. */
  const READY := Env(true, true, true, false)
  const LATER := Env(true, true, true, true)

  /** Nothing over, and a timer pending. */
  ghost predicate Live(b: Book) {
    !b.ended && !b.expired && b.armed
  }

  /** And not at the limit of retransmissions. */
  ghost predicate Alive(b: Book) {
    Live(b) && b.same < MAX_SAME_STATE
  }

  ghost predicate Plain(seg: Segment) {
    !seg.syn && !seg.fin && !seg.rst && seg.ack && seg.mssOption == 0
  }

  /** Nothing is outstanding. */
  ghost predicate Quiet(k: Core) {
    k.tx.ackd == k.tx.next
  }

  /** An ack of a leaves nothing outstanding: it is where sending goes on, or the end of the current action. */
  ghost predicate Settles(tx: Tx, a: u32) {
    tx.next == a || tx.ackable == a
  }

  /** seg is on its way from f to t, is all that t lacks, and acknowledges all that t has sent. Either it has data of
      f's current action, or f has answered t's data and has nothing to say itself. */
  ghost predicate InOrder(cfg: Script, f: Core, t: Core, seg: Segment) {
    && f.st == ESTABLISHED && t.st == ESTABLISHED && !f.rx.gotFin && !t.rx.gotFin
    && Plain(seg) && seg.ackNo == f.rx.recv && Settles(t.tx, f.rx.recv)
    && seg.seqNo == t.rx.recv == f.tx.ackd && f.tx.next == seg.seqNo + |seg.payload|
    && f.act < |cfg.actions|
    && if seg.payload == [] then !OwnTurn(cfg, f) && t.tx.ackd < f.rx.recv
       else f.act < cfg.Last() && DataAt(cfg, f.peer, seg, f.act)
  }

  /** The state of t after it has read such a segment. */
  ghost predicate HasHeard(cfg: Script, f: Core, t: Core, t1: Core) {
    Pair(cfg, f, t1) && t1.st == ESTABLISHED && !t1.rx.gotFin && Quiet(t1) && t1.tx.next == f.rx.recv
    && t1.rx.recv == f.tx.next
  }

  lemma HeardAck(cfg: Script, f: Core, t: Core, seg: Segment)
    requires cfg.Valid() && Pair(cfg, f, t) && SegOk(cfg, f, seg) && InOrder(cfg, f, t, seg)
    ensures var y1 := AckIn(t, seg);
            && Pair(cfg, f, y1) && Acked(t, seg) == y1 && y1.rx == t.rx && y1.st == ESTABLISHED && Quiet(y1)
            && y1.tx.next == f.rx.recv
  {
    AckPhase(cfg, f, t, seg);
  }

  lemma Heard(cfg: Script, f: Core, t: Core, seg: Segment)
    requires cfg.Valid() && Pair(cfg, f, t) && SegOk(cfg, f, seg) && InOrder(cfg, f, t, seg)
    ensures HasHeard(cfg, f, t, CoreIn(cfg, t, seg)) && MakesProgress(cfg, t, seg)
    ensures seg.payload == [] ==> OwnTurn(cfg, CoreIn(cfg, t, seg))
    ensures seg.payload != [] ==> DataProgress(cfg, Acked(t, seg), seg)
  {
    HeardAck(cfg, f, t, seg);
    var y1 := AckIn(t, seg);
    if seg.payload == [] {
      AnswersOnly(cfg, f, y1);
      assert CoreIn(cfg, t, seg) == y1;
    } else {
      DataPhase(cfg, f, y1, seg, f.act);
      assert CoreIn(cfg, t, seg) == DataIn(cfg, y1, seg.payload);
    }
  }

  /** An end that has nothing to say answers one that has. */
  lemma AnswersOnly(cfg: Script, f: Core, t: Core)
    requires cfg.Valid() && Pair(cfg, f, t) && f.st == ESTABLISHED && t.st == ESTABLISHED && Quiet(t)
    requires t.tx.next == f.rx.recv && !OwnTurn(cfg, f)
    ensures OwnTurn(cfg, t) && t.act == f.act
  {
    if t.act < f.act {
      assert cfg.ActionAt(t.act).peer == t.peer;
      ActionOrder(cfg, t.peer, t.act, f.act);
    }
  }

  /** k has sent its FIN: nothing else is on its way, and nothing else was. */
  function Closed(k: Core): Core {
    k.(st := FIN_WAIT, tx := k.tx.(next := Add32(k.tx.next, 1), high := Add32(k.tx.next, 1)))
  }

  function FinSegment(k: Core): Segment {
    Segment(false, true, true, false, k.tx.next, k.rx.recv, [], 0)
  }

  function AckSegment(k: Core): Segment {
    Segment(false, true, false, false, k.tx.next, k.rx.recv, [], 0)
  }

  /** An end with everything acknowledged whose turn it is may send. */
  lemma MaySpeak(cfg: Script, f: Core, k: Core, b: Book)
    requires cfg.Valid() && Pair(cfg, f, k) && k.st == ESTABLISHED && Quiet(k) && b.same < MAX_SAME_STATE
    requires k.act < cfg.Last() && cfg.actions[k.act].peer == k.peer
    ensures ProcOut(cfg, Ctx(k, b), READY) == SendData(cfg, Begin(cfg, k), b)
  {
    RemainingIs(cfg, k);
  }

  /** It sends the next data of its action. */
  lemma SpeaksData(cfg: Script, f: Core, k: Core, b: Book)
    requires cfg.Valid() && Pair(cfg, f, k) && k.st == ESTABLISHED && Quiet(k) && b.same < MAX_SAME_STATE
    requires !b.ended && !b.expired
    requires k.act < cfg.Last() && cfg.actions[k.act].peer == k.peer
    ensures var o := ProcOut(cfg, Ctx(k, b), READY);
            && |o.pkt| == 1 && Alive(o.ctx.book)
            && var k', seg := o.ctx.core, o.pkt[0];
               && k'.peer == k.peer && k'.st == ESTABLISHED && k'.act == k.act && k'.rx == k.rx
               && k'.tx.ackd == k.tx.ackd && k'.tx.next == k.tx.next + |seg.payload| && seg.payload != []
               && Plain(seg) && seg.seqNo == k.tx.next && seg.ackNo == k.rx.recv && DataAt(cfg, k.peer, seg, k.act)
  {
    hide ProcOut, Link;
    MaySpeak(cfg, f, k, b);
    BeginOk(cfg, f, k);
    var y := Begin(cfg, k);
    RemainingIs(cfg, y);
    var n := if Remaining(cfg, y) > y.rx.mss then y.rx.mss else Remaining(cfg, y);
    NextSegment(cfg, y, MakeSegment(cfg, y, ACK, Sub32(y.tx.next, y.tx.first), n), n);
  }

  /** And at the closing action it sends its FIN. */
  lemma SpeaksFin(cfg: Script, f: Core, k: Core, b: Book)
    requires cfg.Valid() && Pair(cfg, f, k) && k.st == ESTABLISHED && b.same < MAX_SAME_STATE
    requires k.act == cfg.Last() && cfg.actions[k.act].peer == k.peer
    ensures ProcOut(cfg, Ctx(k, b), READY) == Out(Ctx(Closed(k), b.(same := 0, armed := true)), [FinSegment(k)])
    ensures Quiet(k)
  {
    cfg.TotalInContent(k.peer);
  }

  /** An end whose turn it is not answers data with an ack. */
  lemma SpeaksAck(cfg: Script, k: Core, b: Book)
    requires k.st == ESTABLISHED && !OwnTurn(cfg, k) && !k.rx.gotFin && Quiet(k) && k.tx.next <= k.tx.high
    requires b.same < MAX_SAME_STATE && b.newData
    ensures ProcOut(cfg, Ctx(k, b), READY) == Out(Ctx(k, b.(newData := false, armed := true)), [AckSegment(k)])
  {
  }

  /** f's FIN is on its way, is all that t lacks, and acknowledges all that t has sent. */
  ghost predicate FinInOrder(f: Core, t: Core, seg: Segment) {
    && f.st == FIN_WAIT && t.st == ESTABLISHED && !f.rx.gotFin && !t.rx.gotFin
    && seg == Segment(false, true, true, false, t.rx.recv, f.rx.recv, [], 0)
    && Settles(t.tx, f.rx.recv) && f.tx.ackd == seg.seqNo && f.tx.next == seg.seqNo + 1
  }

  /** How much an end has not yet sent. */
  function Unsent(cfg: Script, k: Core): int {
    Base(k.peer) + cfg.Total(k.peer) - k.tx.next
  }

  function Data(seg: Segment): int {
    if seg.payload == [] then 0 else 1
  }

  /** t can go on: it has everything from f, and it has something to say or something to answer. */
  ghost predicate CanGoOn(cfg: Script, f: Core, k: Core, b: Book) {
    && f.st == ESTABLISHED && k.st == ESTABLISHED && !f.rx.gotFin && !k.rx.gotFin && Quiet(k)
    && k.tx.next == f.rx.recv && Settles(f.tx, k.rx.recv)
    && b.same < MAX_SAME_STATE && !b.ended && !b.expired
    && (OwnTurn(cfg, k) || (b.newData && f.tx.ackd < k.rx.recv))
  }

  /** What t then leaves behind: the next segment in order, or its FIN. */
  lemma GoesOn(cfg: Script, f: Core, k: Core, b: Book)
    requires cfg.Valid() && Pair(cfg, f, k) && CanGoOn(cfg, f, k, b)
    ensures var o := ProcOut(cfg, Ctx(k, b), READY);
            && |o.pkt| == 1 && Alive(o.ctx.book)
            && (FinInOrder(o.ctx.core, f, o.pkt[0]) ||
                (InOrder(cfg, o.ctx.core, f, o.pkt[0])
                 && Unsent(cfg, o.ctx.core) == Unsent(cfg, k) - |o.pkt[0].payload|))
  {
    hide ProcOut;
    if !OwnTurn(cfg, k) {
      SpeaksAck(cfg, k, b);
    } else if k.act < cfg.Last() {
      SpeaksData(cfg, f, k, b);
    } else {
      SpeaksFin(cfg, f, k, b);
    }
  }

  /** What t leaves behind after it has read a segment that is in order. */
  lemma Answers(cfg: Script, f: Core, t: Ctx, seg: Segment)
    requires cfg.Valid() && Pair(cfg, f, t.core) && SegOk(cfg, f, seg) && InOrder(cfg, f, t.core, seg) && Live(t.book)
    ensures var o := Proc(cfg, t, Packet(seg), READY);
            && |o.pkt| == 1 && Alive(o.ctx.book)
            && (FinInOrder(o.ctx.core, f, o.pkt[0])
                || (InOrder(cfg, o.ctx.core, f, o.pkt[0])
                    && 2 * Unsent(cfg, o.ctx.core) + Data(o.pkt[0]) < 2 * Unsent(cfg, t.core) + Data(seg)))
  {
    Heard(cfg, f, t.core, seg);
    var c1 := ProcIn(cfg, t.(book := t.book.(armed := false)), seg);
    assert c1.core == CoreIn(cfg, t.core, seg);
    assert c1.book.same == 0 && !c1.book.ended && !c1.book.expired && (seg.payload != [] ==> c1.book.newData);
    assert Proc(cfg, t, Packet(seg), READY) == ProcOut(cfg, c1, READY);
    GoesOn(cfg, f, c1.core, c1.book);
  }

  // ---- closing ----

  function FinAck(seqNo: u32, ackNo: u32): Segment {
    Segment(false, true, true, false, seqNo, ackNo, [], 0)
  }

  function PureAck(seqNo: u32, ackNo: u32): Segment {
    Segment(false, true, false, false, seqNo, ackNo, [], 0)
  }

  /** t has answered f's FIN with its own, which is on its way. */
  ghost predicate FinAnswered(f: Core, t: Core, seg: Segment) {
    && f.st == FIN_WAIT && t.st == LAST_ACK && !f.rx.gotFin
    && seg == FinAck(f.rx.recv, f.tx.next) && t.rx.recv == f.tx.next
    && t.tx.ackd == f.rx.recv && t.tx.next == f.rx.recv as int + 1
  }

  /** f acknowledges the FIN of t, and waits. */
  ghost predicate LastAckFlies(f: Core, t: Core, seg: Segment) {
    && f.st == TIME_WAIT && t.st == LAST_ACK
    && seg == PureAck(t.rx.recv, t.tx.next) && t.tx.ackd < t.tx.next
  }

  /** t has read f's FIN. */
  lemma HeardFin(cfg: Script, f: Core, t: Core, seg: Segment)
    requires cfg.Valid() && Pair(cfg, f, t) && SegOk(cfg, f, seg) && FinInOrder(f, t, seg)
    ensures var t1 := CoreIn(cfg, t, seg);
            && t1.st == ESTABLISHED && !OwnTurn(cfg, t1) && t1.rx.gotFin && t1.rx.recv == f.tx.next
            && t1.tx.ackd == t1.tx.next == t1.tx.high == f.rx.recv && f.rx.recv as int + 1 < WORD
            && MakesProgress(cfg, t, seg)
  {
    AckPhase(cfg, f, t, seg);
    var y1 := AckIn(t, seg);
    FinFindsLast(cfg, f, y1, seg);
    assert CoreIn(cfg, t, seg) == y1.(rx := y1.rx.(recv := seg.seqNo + 1, gotFin := true));
    cfg.TotalInContent(t.peer);
  }

  lemma HearsFin(cfg: Script, f: Core, t: Ctx, seg: Segment)
    requires cfg.Valid() && Pair(cfg, f, t.core) && SegOk(cfg, f, seg) && FinInOrder(f, t.core, seg) && Live(t.book)
    ensures var o := Proc(cfg, t, Packet(seg), READY);
            |o.pkt| == 1 && Alive(o.ctx.book) && FinAnswered(f, o.ctx.core, o.pkt[0])
  {
    hide Pair, SegOk, CoreIn, MakesProgress, DataProgress;
    HeardFin(cfg, f, t.core, seg);
    var c1 := ProcIn(cfg, t.(book := t.book.(armed := false)), seg);
    assert Proc(cfg, t, Packet(seg), READY) == ProcOut(cfg, c1, READY);
    assert ProcOut(cfg, c1, READY) == OutEstablishedRx(cfg, c1.core, c1.book, READY);
  }

  lemma HearsAnswer(cfg: Script, f: Ctx, t: Core, seg: Segment)
    requires cfg.Valid() && Pair(cfg, t, f.core) && SegOk(cfg, t, seg) && FinAnswered(f.core, t, seg) && Live(f.book)
    ensures var o := Proc(cfg, f, Packet(seg), READY);
            |o.pkt| == 1 && Alive(o.ctx.book) && LastAckFlies(o.ctx.core, t, o.pkt[0])
  {
    var y1 := AckIn(f.core, seg);
    assert y1.tx.ackd == y1.tx.next == f.core.tx.next && y1.act == f.core.act;
    var c0 := f.(book := f.book.(armed := false));
    var c1 := ProcIn(cfg, c0, seg);
    assert c1.core == y1.(rx := y1.rx.(recv := seg.seqNo + 1, gotFin := true));
    assert c1.book.same == 0 && !c1.book.ended && !c1.book.expired;
    assert Proc(cfg, f, Packet(seg), READY) == ProcOut(cfg, c1, READY);
    assert ProcOut(cfg, c1, READY) == OutFinWait(cfg, c1.core, c1.book, READY);
  }

  lemma HearsLastAck(cfg: Script, f: Core, t: Ctx, seg: Segment)
    requires cfg.Valid() && Pair(cfg, f, t.core) && SegOk(cfg, f, seg) && LastAckFlies(f, t.core, seg) && Live(t.book)
    ensures var o := Proc(cfg, t, Packet(seg), READY);
            o.pkt == [] && o.ctx.core.st == LAST_ACK && o.ctx.book.ended
  {
    var y1 := AckIn(t.core, seg);
    assert y1.tx.ackd == y1.tx.next == t.core.tx.next && y1.st == LAST_ACK;
    var c0 := t.(book := t.book.(armed := false));
    var c1 := ProcIn(cfg, c0, seg);
    assert c1.core == y1 && c1.book.same == 0;
    assert Proc(cfg, t, Packet(seg), READY) == ProcOut(cfg, c1, READY);
    assert ProcOut(cfg, c1, READY) == OutLastAck(cfg, c1.core, c1.book, READY);
  }

  lemma WaitsItOut(cfg: Script, f: Ctx)
    requires f.core.st == TIME_WAIT && Alive(f.book)
    ensures var o := Proc(cfg, f, Tick, LATER); o.pkt == [] && o.ctx.core == f.core && o.ctx.book.ended
  {
  }

  // ---- steps of the system ----

  /** Nothing but one segment from peer p is on its way. */
  ghost predicate OnlyFrom(s: Sys, p: Peer) {
    |s.From(p)| == 1 && s.From(Other(p)) == [] && Live(s.client.book) && Live(s.server.book)
  }

  ghost predicate Playing(cfg: Script, s: Sys, p: Peer) {
    OnlyFrom(s, p) && InOrder(cfg, s.End(p).core, s.End(Other(p)).core, s.From(p)[0])
  }

  ghost predicate ClosingOne(s: Sys, p: Peer) {
    OnlyFrom(s, p) && FinInOrder(s.End(p).core, s.End(Other(p)).core, s.From(p)[0])
  }

  ghost predicate ClosingBoth(s: Sys, p: Peer) {
    OnlyFrom(s, p) && FinAnswered(s.End(Other(p)).core, s.End(p).core, s.From(p)[0])
  }

  ghost predicate ClosingLast(s: Sys, p: Peer) {
    OnlyFrom(s, p) && LastAckFlies(s.End(p).core, s.End(Other(p)).core, s.From(p)[0]) && Alive(s.End(p).book)
  }

  /** Both ends have ended after closing, and nothing is on its way. */
  ghost predicate Complete(s: Sys) {
    && s.client.book.ended && s.server.book.ended && Closing(s.client.core) && Closing(s.server.core)
    && s.toServer == [] && s.toClient == []
  }

  lemma PlayOn(cfg: Script, s: Sys, p: Peer)
    requires cfg.Valid() && Inv(cfg, s) && Playing(cfg, s, p)
    ensures var s' := Apply(cfg, s, Deliver(p, READY));
            ClosingOne(s', Other(p)) ||
            (Playing(cfg, s', Other(p))
             && 2 * (Unsent(cfg, s'.client.core) + Unsent(cfg, s'.server.core)) + Data(s'.From(Other(p))[0])
                < 2 * (Unsent(cfg, s.client.core) + Unsent(cfg, s.server.core)) + Data(s.From(p)[0]))
  {
    hide Proc, Unsent, EndOk, Link, SegOk;
    Answers(cfg, s.End(p).core, s.End(Other(p)), s.From(p)[0]);
  }

  /** The FIN of one end is answered by the other's. */
  lemma CloseAnswered(cfg: Script, s: Sys, p: Peer)
    requires cfg.Valid() && Inv(cfg, s) && ClosingOne(s, p)
    ensures ClosingBoth(Apply(cfg, s, Deliver(p, READY)), Other(p))
  {
    hide Proc, EndOk, Link, SegOk;
    HearsFin(cfg, s.End(p).core, s.End(Other(p)), s.From(p)[0]);
  }

  /** And that by the last ack. */
  lemma CloseAcked(cfg: Script, s: Sys, p: Peer)
    requires cfg.Valid() && Inv(cfg, s) && ClosingBoth(s, p)
    ensures ClosingLast(Apply(cfg, s, Deliver(p, READY)), Other(p))
  {
    hide Proc, EndOk, Link, SegOk;
    HearsAnswer(cfg, s.End(Other(p)), s.End(p).core, s.From(p)[0]);
  }

  lemma LastTwoSteps(cfg: Script, s: Sys, p: Peer)
    requires cfg.Valid() && Inv(cfg, s) && ClosingLast(s, p)
    ensures Complete(Apply(cfg, Apply(cfg, s, Deliver(p, READY)), Timer(p, LATER)))
  {
    hide Proc, EndOk, Link, SegOk;
    HearsLastAck(cfg, s.End(p).core, s.End(Other(p)), s.From(p)[0]);
    var s1 := Apply(cfg, s, Deliver(p, READY));
    assert s1.From(p) == [] && s1.From(Other(p)) == [] && s1.End(p) == s.End(p) && s1.End(Other(p)).book.ended;
    WaitsItOut(cfg, s1.End(p));
  }

  /** Nothing is on its way, everything is acknowledged, and it is p's turn. */
  ghost predicate ToSpeak(cfg: Script, s: Sys, p: Peer) {
    var k, t := s.End(p).core, s.End(Other(p)).core;
    && s.toServer == [] && s.toClient == [] && Alive(s.End(p).book) && Live(s.End(Other(p)).book)
    && k.st == ESTABLISHED && t.st == ESTABLISHED && !k.rx.gotFin && !t.rx.gotFin
    && Quiet(k) && k.tx.next == t.rx.recv && Settles(t.tx, k.rx.recv)
    && k.act < |cfg.actions| && OwnTurn(cfg, k)
  }

  lemma Speak(cfg: Script, s: Sys, p: Peer)
    requires cfg.Valid() && Inv(cfg, s) && ToSpeak(cfg, s, p)
    ensures var s' := Apply(cfg, s, Timer(p, READY)); Playing(cfg, s', p) || ClosingOne(s', p)
  {
    hide ProcOut, Unsent, EndOk, Link;
    var c := s.End(p);
    GoesOn(cfg, s.End(Other(p)).core, c.core, c.book.(armed := false));
    assert Proc(cfg, c, Tick, READY) == ProcOut(cfg, Ctx(c.core, c.book.(armed := false)), READY);
  }

  // ---- the handshake ----

  const FRESH := Book(0, 0, false, false, false, false, false, true)
  const HEARD := Book(0, 0, false, false, false, false, true, true)

  function SynSent(): Core {
    Core(Client, SYN_SENT, 0, Tx(100, 99, 0, 100, 100), Rx(0, 0, DEFAULT_MSS, false, false, []))
  }

  function SynReceived(): Core {
    Core(Server, SYN_RECEIVED, 0, Tx(201, 200, 0, 201, 201), Rx(100, 100, MSS, true, false, []))
  }

  function ClientReady(): Core {
    Core(Client, ESTABLISHED, 0, Tx(100, 100, 0, 100, 100), Rx(201, 201, MSS, true, false, []))
  }

  function ServerReady(): Core {
    Core(Server, ESTABLISHED, 0, Tx(201, 201, 0, 201, 201), Rx(100, 100, MSS, true, false, []))
  }

  const SYN_SEGMENT := Segment(true, false, false, false, 99, 0, [], MSS)
  const SYNACK_SEGMENT := Segment(true, true, false, false, 200, 100, [], MSS)

  lemma ClientCalls(cfg: Script)
    ensures Proc(cfg, InitCtx(Client), Tick, READY) == Out(Ctx(SynSent(), FRESH), [SYN_SEGMENT])
  {
  }

  lemma ServerAnswers(cfg: Script)
    ensures Proc(cfg, InitCtx(Server), Packet(SYN_SEGMENT), READY) == Out(Ctx(SynReceived(), HEARD), [SYNACK_SEGMENT])
  {
    var c1 := ProcIn(cfg, InitCtx(Server), SYN_SEGMENT);
    assert c1.core == Core(Server, LISTEN, 0, Tx(0, 0, 0, 0, 0), Rx(100, 100, MSS, true, false, []));
    assert c1.book == HEARD.(armed := false);
  }

  lemma ClientConnects(cfg: Script)
    ensures Proc(cfg, Ctx(SynSent(), FRESH), Packet(SYNACK_SEGMENT), READY) ==
              Out(Ctx(ClientReady(), HEARD), if cfg.ActionAt(0).peer == Client then [] else [PureAck(100, 201)])
  {
    var c1 := ProcIn(cfg, Ctx(SynSent(), FRESH.(armed := false)), SYNACK_SEGMENT);
    assert c1.core == ClientReady().(st := SYN_SENT);
    assert c1.book == HEARD.(armed := false);
  }

  lemma ServerConnects(cfg: Script)
    requires cfg.ActionAt(0).peer == Server
    ensures Proc(cfg, Ctx(SynReceived(), HEARD), Packet(PureAck(100, 201)), READY) == Out(Ctx(ServerReady(), HEARD), [])
  {
    var c1 := ProcIn(cfg, Ctx(SynReceived(), HEARD.(armed := false)), PureAck(100, 201));
    assert c1.core == ServerReady().(st := SYN_RECEIVED);
    assert c1.book == HEARD.(armed := false);
    assert ProcOut(cfg, c1, READY) == OutSynReceived(cfg, c1.core, c1.book, READY);
  }

  /** The state after the first two steps: the server has answered the client's SYN. */
  lemma FirstTwoSteps(cfg: Script)
    ensures Apply(cfg, Apply(cfg, Init(), Timer(Client, READY)), Deliver(Client, READY))
         == Sys(Ctx(SynSent(), FRESH), Ctx(SynReceived(), HEARD), [], [SYNACK_SEGMENT])
  {
    ClientCalls(cfg);
    var s1 := Apply(cfg, Init(), Timer(Client, READY));
    assert s1 == Sys(Ctx(SynSent(), FRESH), InitCtx(Server), [SYN_SEGMENT], []);
    ServerAnswers(cfg);
    assert NewServer(s1.server) == InitCtx(Server);
  }

  /** And after the third: the client is connected, the server waits to hear so. */
  lemma FirstSteps(cfg: Script)
    ensures var s := Apply(cfg, Apply(cfg, Apply(cfg, Init(), Timer(Client, READY)), Deliver(Client, READY)),
          Deliver(Server, READY));
            s == Sys(Ctx(ClientReady(), HEARD), Ctx(SynReceived(), HEARD),
                     if cfg.ActionAt(0).peer == Client then [] else [PureAck(100, 201)], [])
  {
    FirstTwoSteps(cfg);
    ClientConnects(cfg);
  }

  // ---- the client speaks first ----

  /** The client's first data also tell the server that the client is connected. */
  ghost predicate FirstInOrder(cfg: Script, f: Core, seg: Segment) {
    && f.peer == Client && f.st == ESTABLISHED && !f.rx.gotFin && f.act == 0 && f.rx.recv == 201
    && Plain(seg) && seg.ackNo == 201 && seg.seqNo == f.tx.ackd == 100 && seg.payload != []
    && f.tx.next == 100 + |seg.payload| && 0 < cfg.Last() && DataAt(cfg, Client, seg, 0)
  }

  /** The server reads them, and is connected. */
  lemma HeardFirst(cfg: Script, f: Core, t: Core, seg: Segment)
    requires cfg.Valid() && t == SynReceived() && Pair(cfg, f, t) && SegOk(cfg, f, seg) && FirstInOrder(cfg, f, seg)
    ensures var t1 := CoreIn(cfg, t, seg);
            && Pair(cfg, f, t1) && t1.st == SYN_RECEIVED && !t1.rx.gotFin && Quiet(t1) && t1.tx.next == 201
            && t1.rx.recv == f.tx.next && MakesProgress(cfg, t, seg)
  {
    NonSynIn(cfg, f, t, seg);
    AckPhase(cfg, f, t, seg);
    var y1 := AckIn(t, seg);
    assert Acked(t, seg) == y1 && Quiet(y1);
    DataPhase(cfg, f, y1, seg, 0);
  }

  lemma AnswersFirst(cfg: Script, f: Core, t: Ctx, seg: Segment)
    requires cfg.Valid() && t.core == SynReceived() && Pair(cfg, f, t.core) && SegOk(cfg, f, seg)
        && FirstInOrder(cfg, f, seg)
    requires Live(t.book)
    ensures var o := Proc(cfg, t, Packet(seg), READY);
            var k := o.ctx.core;
            && Alive(o.ctx.book) && k.st == ESTABLISHED && !k.rx.gotFin && Quiet(k) && k.tx.next == 201
                && k.rx.recv == f.tx.next
            && k.act < |cfg.actions|
            && if OwnTurn(cfg, k) then o.pkt == []
               else o.pkt == [PureAck(201, k.rx.recv)] && InOrder(cfg, k, f, o.pkt[0])
  {
    HeardFirst(cfg, f, t.core, seg);
    var c1 := ProcIn(cfg, t.(book := t.book.(armed := false)), seg);
    assert c1.core == CoreIn(cfg, t.core, seg) && c1.book.same == 0 && !c1.book.ended && !c1.book.expired;
    assert Proc(cfg, t, Packet(seg), READY) == ProcOut(cfg, c1, READY);
    assert ProcOut(cfg, c1, READY) == OutSynReceived(cfg, c1.core, c1.book, READY);
  }

  lemma FirstAnswered(cfg: Script, s: Sys)
    requires cfg.Valid() && Inv(cfg, s) && Live(s.client.book) && s.server.core == SynReceived() && Live(s.server.book)
    requires s.toClient == []
    requires |s.toServer| == 1 && FirstInOrder(cfg, s.client.core, s.toServer[0])
    ensures var s' := Apply(cfg, s, Deliver(Client, READY)); Playing(cfg, s', Server) || ToSpeak(cfg, s', Server)
  {
    AnswersFirst(cfg, s.client.core, s.server, s.toServer[0]);
  }

  function ServerFinished(): Core {
    Core(Server, ESTABLISHED, 0, Tx(201, 201, 0, 201, 201), Rx(101, 100, MSS, true, true, []))
  }

  // ---- what can come of a state ----

  ghost function After(cfg: Script, s: Sys, steps: seq<Step>): Sys
    decreases |steps|
  {
    if steps == [] then s else After(cfg, Apply(cfg, s, steps[0]), steps[1..])
  }

  ghost predicate Reaches(cfg: Script, s: Sys, t: Sys) {
    exists steps :: After(cfg, s, steps) == t
  }

  /** The script can be played to its end. */
  ghost predicate CanEnd(cfg: Script, s: Sys) {
    exists t :: Reaches(cfg, s, t) && Complete(t)
  }

  lemma {:induction false} AfterBoth(cfg: Script, s: Sys, first: seq<Step>, second: seq<Step>)
    ensures After(cfg, s, first + second) == After(cfg, After(cfg, s, first), second)
    decreases |first|
  {
    hide Apply;
    if first == [] {
      assert first + second == second;
    } else {
      AfterBoth(cfg, Apply(cfg, s, first[0]), first[1..], second);
      assert (first + second)[1..] == first[1..] + second;
    }
  }

  lemma Join(cfg: Script, r: Sys, s: Sys, t: Sys)
    requires Reaches(cfg, r, s) && Reaches(cfg, s, t)
    ensures Reaches(cfg, r, t)
  {
    hide Apply;
    var first :| After(cfg, r, first) == s;
    var second :| After(cfg, s, second) == t;
    AfterBoth(cfg, r, first, second);
  }

  lemma Onward(cfg: Script, s: Sys, t: Sys)
    requires Reaches(cfg, s, t) && CanEnd(cfg, t)
    ensures CanEnd(cfg, s)
  {
    hide Reaches, Complete;
    var u :| Reaches(cfg, t, u) && Complete(u);
    Join(cfg, s, t, u);
  }

  /** One step. */
  lemma Then(cfg: Script, s: Sys, step: Step)
    requires cfg.Valid() && Inv(cfg, s)
    ensures var t := Apply(cfg, s, step);
            Inv(cfg, t) && Reaches(cfg, s, t) && (CanEnd(cfg, t) ==> CanEnd(cfg, s))
  {
    hide Apply, Inv, CanEnd;
    var t := Apply(cfg, s, step);
    ApplyOk(cfg, s, step);
    assert After(cfg, s, [step]) == After(cfg, t, []) == t;
    if CanEnd(cfg, t) {
      Onward(cfg, s, t);
    }
  }

  ghost function Final(states: seq<Sys>): Sys
    requires states != []
  {
    states[|states| - 1]
  }

  /** One more step of a run. */
  lemma Do(cfg: Script, states: seq<Sys>, steps: seq<Step>, step: Step) returns (states': seq<Sys>, steps': seq<Step>)
    requires IsRun(cfg, states, steps)
    ensures IsRun(cfg, states', steps') && steps' == steps + [step]
    ensures states' == states + [Apply(cfg, Final(states), step)]
  {
    hide Apply;
    steps' := steps + [step];
    states' := states + [Apply(cfg, Final(states), step)];
    forall k: nat | k < |steps'|
      ensures StepAt(cfg, states', steps', k)
    {
      assert k < |steps| ==> StepAt(cfg, states, steps, k);
    }
  }

  /** And as many as one likes. */
  lemma {:induction false} GoOn(cfg: Script, states: seq<Sys>, steps: seq<Step>, more: seq<Step>)
        returns (states': seq<Sys>)
    requires IsRun(cfg, states, steps)
    ensures IsRun(cfg, states', steps + more) && states <= states'
    ensures Final(states') == After(cfg, Final(states), more)
    decreases |more|
  {
    hide Apply, IsRun;
    if more == [] {
      assert steps + more == steps;
      states' := states;
    } else {
      var steps1;
      states', steps1 := Do(cfg, states, steps, more[0]);
      states' := GoOn(cfg, states', steps1, more[1..]);
      assert steps1 + more[1..] == steps + more;
    }
  }

  lemma Ended(cfg: Script, s: Sys)
    requires Complete(s)
    ensures CanEnd(cfg, s)
  {
    hide Complete;
    assert After(cfg, s, []) == s;
  }

  // ---- to the end of the script ----

  /** The last ack is on its way. */
  lemma FinishLast(cfg: Script, s: Sys, p: Peer)
    requires cfg.Valid() && Inv(cfg, s) && ClosingLast(s, p)
    ensures CanEnd(cfg, s)
  {
    hide Apply, Inv, ClosingLast, CanEnd, Reaches;
    var s1 := Apply(cfg, s, Deliver(p, READY));
    Then(cfg, s, Deliver(p, READY));
    Then(cfg, s1, Timer(p, LATER));
    LastTwoSteps(cfg, s, p);
    Ended(cfg, Apply(cfg, s1, Timer(p, LATER)));
  }

  /** Both FINs have been sent, and one answers the other. */
  lemma FinishBoth(cfg: Script, s: Sys, p: Peer)
    requires cfg.Valid() && Inv(cfg, s) && ClosingBoth(s, p)
    ensures CanEnd(cfg, s)
  {
    hide Apply, Inv, ClosingBoth, ClosingLast, CanEnd, Reaches;
    Then(cfg, s, Deliver(p, READY));
    CloseAcked(cfg, s, p);
    FinishLast(cfg, Apply(cfg, s, Deliver(p, READY)), Other(p));
  }

  /** One FIN is on its way. */
  lemma FinishOne(cfg: Script, s: Sys, p: Peer)
    requires cfg.Valid() && Inv(cfg, s) && ClosingOne(s, p)
    ensures CanEnd(cfg, s)
  {
    hide Apply, Inv, ClosingOne, ClosingBoth, CanEnd, Reaches;
    Then(cfg, s, Deliver(p, READY));
    CloseAnswered(cfg, s, p);
    FinishBoth(cfg, Apply(cfg, s, Deliver(p, READY)), Other(p));
  }

  ghost function Measure(cfg: Script, s: Sys, p: Peer): int
    requires s.From(p) != []
  {
    2 * (Unsent(cfg, s.client.core) + Unsent(cfg, s.server.core)) + Data(s.From(p)[0])
  }

  /** No end has sent more than the script has it say. */
  lemma MeasureIsNat(cfg: Script, s: Sys, p: Peer)
    requires cfg.Valid() && Inv(cfg, s) && Playing(cfg, s, p)
    ensures Measure(cfg, s, p) >= 0
  {
    UnsentIsNat(cfg, s.client.core);
    UnsentIsNat(cfg, s.server.core);
  }

  lemma UnsentIsNat(cfg: Script, k: Core)
    requires cfg.Valid() && EndOk(cfg, k) && k.st == ESTABLISHED
    ensures Unsent(cfg, k) >= 0
  {
    cfg.OffsetMonotone(k.peer, k.act, |cfg.actions|);
    cfg.OffsetMonotone(k.peer, k.act + 1, |cfg.actions|);
  }

  /** Segment by segment, until one end closes. */
  lemma {:induction false} FinishPlaying(cfg: Script, s: Sys, p: Peer)
    requires cfg.Valid() && Inv(cfg, s) && Playing(cfg, s, p)
    ensures CanEnd(cfg, s)
    decreases Measure(cfg, s, p)
  {
    hide Apply, Inv, InOrder, FinInOrder, CanEnd, Reaches, Unsent;
    var t, q := Apply(cfg, s, Deliver(p, READY)), Other(p);
    Then(cfg, s, Deliver(p, READY));
    PlayOn(cfg, s, p);
    MeasureIsNat(cfg, s, p);
    if ClosingOne(t, q) {
      FinishOne(cfg, t, q);
    } else {
      FinishPlaying(cfg, t, q);
    }
  }

  /** It is the turn of one end to speak. */
  lemma FinishSpeaking(cfg: Script, s: Sys, p: Peer)
    requires cfg.Valid() && Inv(cfg, s) && ToSpeak(cfg, s, p)
    ensures CanEnd(cfg, s)
  {
    hide Apply, Inv, Playing, ClosingOne, ToSpeak, CanEnd, Reaches;
    var t := Apply(cfg, s, Timer(p, READY));
    Then(cfg, s, Timer(p, READY));
    Speak(cfg, s, p);
    if Playing(cfg, t, p) {
      FinishPlaying(cfg, t, p);
    } else {
      FinishOne(cfg, t, p);
    }
  }

  // ---- the two ends need not be at the same action ----

  /** The server says one byte, then the client closes. */
  function Hello(): Script {
    Script([Action(Server, 0, 1), Action(Client, 0, 0)], [], [7])
  }

  lemma HelloIsValid()
    ensures Hello().Valid()
  {
    assert Hello().Offset(Server, 2) == 1;
    assert Hello().Contiguous(0);
  }

  const HELLO := Segment(false, true, false, false, 201, 100, [7], 0)

  /** The server speaks. */
  lemma HelloSpeaks()
    ensures var o := Proc(Hello(), Ctx(ServerReady(), HEARD), Tick, READY); o.ctx.core.act == 0 && o.pkt == [HELLO]
  {
    assert Remaining(Hello(), ServerReady()) == 1;
    assert Hello().Bytes(Server, 0, 1) == [7];
  }

  /** The client hears the byte and closes. */
  lemma HelloCloses()
    ensures Proc(Hello(), Ctx(ClientReady(), HEARD), Packet(HELLO), READY).ctx.core.st == FIN_WAIT
  {
    assert Hello().Bytes(Server, 0, 1) == [7];
    assert Judge(Hello(), ClientReady(), [7]) == Good(true);
  }

  /** A run in which the client has sent its FIN while the server is still at its own data action, waiting for the
      ack. */
  lemma CloseBeforeOtherEndKnows() returns (states: seq<Sys>, steps: seq<Step>)
    ensures Hello().Valid() && IsRun(Hello(), states, steps)
    ensures Final(states).client.core.st == FIN_WAIT && Final(states).server.core.act < Hello().Last()
  {
    HelloIsValid();
    states, steps := HelloConnects();
    HelloSpeaks();
    states, steps := Do(Hello(), states, steps, Timer(Server, READY));
    HelloCloses();
    states, steps := Do(Hello(), states, steps, Deliver(Server, READY));
  }

  lemma HelloConnects() returns (states: seq<Sys>, steps: seq<Step>)
    ensures IsRun(Hello(), states, steps)
    ensures Final(states) == Sys(Ctx(ClientReady(), HEARD), Ctx(ServerReady(), HEARD), [], [])
  {
    FirstSteps(Hello());
    ServerConnects(Hello());
    states, steps := [Init()], [];
    states, steps := Do(Hello(), states, steps, Timer(Client, READY));
    states, steps := Do(Hello(), states, steps, Deliver(Client, READY));
    states, steps := Do(Hello(), states, steps, Deliver(Server, READY));
    states, steps := Do(Hello(), states, steps, Deliver(Client, READY));
  }
}
