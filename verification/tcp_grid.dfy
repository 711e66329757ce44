/** Every data segment runs from one multiple of the segment size inside its action to the next. */
module TcpGrid {
  import opened TcpScript
  import opened TcpStream
  import opened TcpSystem
  import opened TcpInvariant
  import opened TcpTransmit
  import opened TcpRuns
  import opened Words

  /** pos lies inside action i of peer p, a multiple of the segment size from its start. */
  ghost predicate GridIn(cfg: Script, p: Peer, pos: int, i: nat) {
    && i < cfg.Last()
    && cfg.actions[i].peer == p
    && cfg.Offset(p, i) <= pos < cfg.Offset(p, i + 1)
    && (pos - cfg.Offset(p, i)) % MSS == 0
  }

  /** A position in p's content at which a segment may start, or everything past the content. */
  ghost predicate OnGrid(cfg: Script, p: Peer, pos: int) {
    pos >= cfg.Total(p) || exists i: nat :: GridIn(cfg, p, pos, i)
  }

  ghost predicate SeqOnGrid(cfg: Script, p: Peer, s: u32) {
    s >= Base(p) ==> OnGrid(cfg, p, s - Base(p))
  }

  ghost predicate CoreOnGrid(cfg: Script, k: Core) {
    && SeqOnGrid(cfg, k.peer, k.tx.ackd)
    && SeqOnGrid(cfg, k.peer, k.tx.next)
    && SeqOnGrid(cfg, Other(k.peer), k.rx.recv)
  }

  ghost predicate SegOnGrid(cfg: Script, p: Peer, seg: Segment) {
    && (seg.ack && !seg.rst ==> SeqOnGrid(cfg, Other(p), seg.ackNo))
    && (seg.syn ==> seg.seqNo == Base(p) - 1)
    && (seg.fin ==> seg.seqNo >= Base(p) + cfg.Total(p))
    && (seg.payload != [] && !seg.rst ==> Whole(cfg, p, seg.seqNo - Base(p), |seg.payload|))
  }

  /** n bytes at pos are a whole segment of action i: full size, or up to the end of the action. */
  ghost predicate Fragment(cfg: Script, p: Peer, pos: int, n: int, i: nat) {
    && GridIn(cfg, p, pos, i)
    && n == (if cfg.Offset(p, i + 1) - pos > MSS then MSS else cfg.Offset(p, i + 1) - pos)
  }

  ghost predicate Whole(cfg: Script, p: Peer, pos: int, n: int) {
    exists i: nat :: Fragment(cfg, p, pos, n, i)
  }

  /** The start of every action is on the grid. */
  lemma {:induction false} GridAtAction(cfg: Script, p: Peer, i: nat)
    requires cfg.Valid() && i <= cfg.Last()
    ensures OnGrid(cfg, p, cfg.Offset(p, i))
    decreases |cfg.actions| - i
  {
    if i == cfg.Last() {
      cfg.TotalInContent(p);
    } else if cfg.actions[i].peer == p {
      ActionOrder(cfg, p, i, i + 1);
      assert GridIn(cfg, p, cfg.Offset(p, i), i);
    } else {
      GridAtAction(cfg, p, i + 1);
    }
  }

  /** The action a position inside an action belongs to is unique. */
  lemma GridHere(cfg: Script, p: Peer, pos: int, a: nat)
    requires cfg.Valid() && a < cfg.Last() && OnGrid(cfg, p, pos)
    requires cfg.Offset(p, a) <= pos < cfg.Offset(p, a + 1)
    ensures GridIn(cfg, p, pos, a)
  {
    cfg.OffsetMonotone(p, a + 1, |cfg.actions|);
    var i: nat :| GridIn(cfg, p, pos, i);
    if i < a {
      cfg.OffsetMonotone(p, i + 1, a);
    } else if a < i {
      cfg.OffsetMonotone(p, a + 1, i);
    }
    ActionOrder(cfg, p, a, a + 1);
  }

  /** A whole segment ends on the grid. */
  lemma WholeEnd(cfg: Script, p: Peer, pos: int, n: int)
    requires cfg.Valid() && Whole(cfg, p, pos, n)
    ensures OnGrid(cfg, p, pos + n) && 0 <= pos && pos + n <= cfg.Total(p)
  {
    var i: nat :| Fragment(cfg, p, pos, n, i);
    cfg.OffsetMonotone(p, i + 1, |cfg.actions|);
    if cfg.Offset(p, i + 1) - pos > MSS {
      assert GridIn(cfg, p, pos + MSS, i);
    } else {
      GridAtAction(cfg, p, i + 1);
    }
  }

  /** No position on the grid lies strictly inside a whole segment. */
  lemma WholeHasNoGrid(cfg: Script, p: Peer, pos: int, n: int, r: int)
    requires cfg.Valid() && Whole(cfg, p, pos, n) && OnGrid(cfg, p, r)
    ensures r <= pos || pos + n <= r
  {
    var i: nat :| Fragment(cfg, p, pos, n, i);
    if pos < r < pos + n {
      GridHere(cfg, p, r, i);
      assert false;
    }
  }

  lemma GridStart(cfg: Script, p: Peer)
    requires cfg.Valid()
    ensures OnGrid(cfg, p, 0)
  {
    GridAtAction(cfg, p, 0);
  }

  lemma ReadOnGrid(cfg: Script, k: Core, seg: Segment)
    requires cfg.Valid() && CoreOnGrid(cfg, k) && SegOnGrid(cfg, Other(k.peer), seg) && !seg.rst
    ensures CoreOnGrid(cfg, CoreIn(cfg, k, seg))
  {
    var q := Other(k.peer);
    GridStart(cfg, q);
    if seg.payload != [] {
      WholeEnd(cfg, q, seg.seqNo - Base(q), |seg.payload|);
    }
  }

  /** The next segment of the current action is whole. */
  lemma SendDataOnGrid(cfg: Script, k: Core, b: Book)
    requires cfg.Valid() && EndOk(cfg, k) && CoreOnGrid(cfg, k) && k.st == ESTABLISHED
    requires Sending(cfg, k.peer, k.act, k.tx) && k.tx.next < k.tx.ackable
    ensures var o := SendData(cfg, k, b);
            CoreOnGrid(cfg, o.ctx.core) && |o.pkt| == 1 && SegOnGrid(cfg, k.peer, o.pkt[0])
  {
    RemainingIs(cfg, k);
    var p := k.peer;
    var pos := k.tx.next - Base(p);
    GridHere(cfg, p, pos, k.act);
    var n := if Remaining(cfg, k) > MSS then MSS else Remaining(cfg, k);
    assert Fragment(cfg, p, pos, n, k.act);
    WholeEnd(cfg, p, pos, n);
  }

  ghost predicate OutOnGrid(cfg: Script, p: Peer, o: Out) {
    CoreOnGrid(cfg, o.ctx.core) && forall i :: 0 <= i < |o.pkt| ==> SegOnGrid(cfg, p, o.pkt[i])
  }

  /** A segment without data. */
  lemma PlainOnGrid(cfg: Script, k: Core, b: Book, kind: Kind)
    requires CoreOnGrid(cfg, k)
    requires kind != ACK ==> SeqOnGrid(cfg, k.peer, Add32(k.tx.next, 1))
    requires kind == SYN || kind == SYNACK ==> k.tx.next == Base(k.peer) - 1
    requires kind == FINACK ==> k.tx.next >= Base(k.peer) + cfg.Total(k.peer)
    ensures OutOnGrid(cfg, k.peer, Send(cfg, k, b, kind, 0, 0))
  {
    var seg := MakeSegment(cfg, k, kind, 0, 0);
    assert seg.payload == [];
  }

  lemma SendNextOnGrid(cfg: Script, k: Core, b: Book)
    requires cfg.Valid() && EndOk(cfg, k) && CoreOnGrid(cfg, k) && k.st == ESTABLISHED
    requires k.act < cfg.Last() && cfg.actions[k.act].peer == k.peer && MaySend(cfg, k)
    ensures OutOnGrid(cfg, k.peer, SendData(cfg, Begin(cfg, k), b))
  {
    RemainingIs(cfg, k);
    assert EndOk(cfg, Begin(cfg, k));
    SendDataOnGrid(cfg, Begin(cfg, k), b);
  }

  lemma SendAgainOnGrid(cfg: Script, k: Core, b: Book)
    requires cfg.Valid() && EndOk(cfg, k) && CoreOnGrid(cfg, k) && k.st == ESTABLISHED
    requires k.act < cfg.Last() && cfg.actions[k.act].peer == k.peer && !MaySend(cfg, k)
    ensures OutOnGrid(cfg, k.peer, SendData(cfg, Rewind(k), b))
  {
    RemainingIs(cfg, k);
    assert EndOk(cfg, Rewind(k));
    SendDataOnGrid(cfg, Rewind(k), b);
  }

  lemma EstablishedOnGrid(cfg: Script, k: Core, b: Book, e: Env)
    requires cfg.Valid() && EndOk(cfg, k) && CoreOnGrid(cfg, k) && k.st == ESTABLISHED && OwnTurn(cfg, k)
    ensures OutOnGrid(cfg, k.peer, OutEstablishedTx(cfg, k, b, e))
  {
    if k.act == cfg.Last() {
      cfg.TotalInContent(k.peer);
      PlainOnGrid(cfg, k.(st := FIN_WAIT), b.(same := 0), FINACK);
    } else {
      assert cfg.Contiguous(k.act);
      if MaySend(cfg, k) {
        SendNextOnGrid(cfg, k, b);
      } else {
        SendAgainOnGrid(cfg, k, Retransmit(b));
      }
    }
  }

  lemma ListeningOnGrid(cfg: Script, k: Core, b: Book, e: Env)
    requires cfg.Valid() && EndOk(cfg, k) && CoreOnGrid(cfg, k) && k.st == ESTABLISHED && !OwnTurn(cfg, k)
    ensures OutOnGrid(cfg, k.peer, OutEstablishedRx(cfg, k, b, e))
  {
    if k.rx.gotFin {
      FinMeansLast(cfg, k);
      cfg.TotalInContent(k.peer);
      PlainOnGrid(cfg, k.(st := LAST_ACK), b, FINACK);
    } else {
      PlainOnGrid(cfg, k, b.(newData := false), ACK);
      PlainOnGrid(cfg, k, Retransmit(b), ACK);
    }
  }

  lemma ClosingOnGrid(cfg: Script, c: Ctx, e: Env)
    requires cfg.Valid() && EndOk(cfg, c.core) && CoreOnGrid(cfg, c.core) && Closing(c.core)
    ensures OutOnGrid(cfg, c.core.peer, ProcOut(cfg, c, e))
  {
    hide Idle, Sending, AcceptedOk;
    var k, b := c.core, c.book;
    cfg.TotalInContent(k.peer);
    if k.tx.ackd != k.tx.next {
      PlainOnGrid(cfg, Rewind(k), Retransmit(b), FINACK);
    }
    PlainOnGrid(cfg, k.(st := TIME_WAIT), b.(same := 0), ACK);
    PlainOnGrid(cfg, k, b, ACK);
  }

  lemma ConnectOnGrid(cfg: Script, c: Ctx, e: Env)
    requires cfg.Valid() && EndOk(cfg, c.core) && CoreOnGrid(cfg, c.core)
    requires c.core.st == CLOSED || c.core.st == SYN_SENT
    ensures OutOnGrid(cfg, c.core.peer, ProcOut(cfg, c, e))
  {
    var k, b := c.core, c.book;
    GridStart(cfg, Client);
    PlainOnGrid(cfg, Start(k, SYN_SENT, CLIENT_ISN), b, SYN);
    PlainOnGrid(cfg, Start(k, SYN_SENT, CLIENT_ISN), Retransmit(b), SYN);
    PlainOnGrid(cfg, k.(st := ESTABLISHED), b.(same := 0), ACK);
  }

  lemma AcceptOnGrid(cfg: Script, c: Ctx, e: Env)
    requires cfg.Valid() && CoreOnGrid(cfg, c.core) && c.core.peer == Server
    requires c.core.st == LISTEN || (c.core.st == SYN_RECEIVED && EndOk(cfg, c.core))
    requires c.core.st == LISTEN ==> c.core.tx.next == 0
    ensures OutOnGrid(cfg, Server, ProcOut(cfg, c, e))
  {
    var k, b := c.core, c.book;
    GridStart(cfg, Server);
    PlainOnGrid(cfg, Start(k, SYN_RECEIVED, SERVER_ISN), b, SYNACK);
    if k.st == LISTEN {
      PlainOnGrid(cfg, k, b.(ended := true), RST);
    } else {
      PlainOnGrid(cfg, k.(st := ESTABLISHED), b.(same := 0), ACK);
      if k.tx.ackd != k.tx.next {
        PlainOnGrid(cfg, Rewind(k), Retransmit(b), SYNACK);
      }
    }
  }

  lemma ProcOutOnGrid(cfg: Script, c: Ctx, e: Env)
    requires cfg.Valid() && EndOk(cfg, c.core) && CoreOnGrid(cfg, c.core)
    ensures OutOnGrid(cfg, c.core.peer, ProcOut(cfg, c, e))
  {
    match c.core.st
    case CLOSED => ConnectOnGrid(cfg, c, e);
    case SYN_SENT => ConnectOnGrid(cfg, c, e);
    case LISTEN => AcceptOnGrid(cfg, c, e);
    case SYN_RECEIVED => AcceptOnGrid(cfg, c, e);
    case ESTABLISHED =>
      if OwnTurn(cfg, c.core) {
        EstablishedOnGrid(cfg, c.core, c.book, e);
      } else {
        ListeningOnGrid(cfg, c.core, c.book, e);
      }
    case CLOSE_WAIT =>
    case _ => ClosingOnGrid(cfg, c, e);
  }

  // ---- runs ----

  ghost predicate ChannelOnGrid(cfg: Script, p: Peer, ch: seq<Segment>) {
    forall i :: 0 <= i < |ch| ==> SegOnGrid(cfg, p, ch[i])
  }

  ghost predicate GridInv(cfg: Script, s: Sys) {
    && CoreOnGrid(cfg, s.client.core)
    && CoreOnGrid(cfg, s.server.core)
    && ChannelOnGrid(cfg, Client, s.toServer)
    && ChannelOnGrid(cfg, Server, s.toClient)
  }

  /** The oldest packet on its way to an end that is not gone is read. */
  lemma ReadByEnd(cfg: Script, s: Sys, p: Peer)
    requires cfg.Valid() && Inv(cfg, s) && GridInv(cfg, s) && !Gone(s.End(p))
    requires s.From(Other(p)) != [] && !s.From(Other(p))[0].rst
    ensures var k := CoreIn(cfg, s.End(p).core, s.From(Other(p))[0]);
            EndOk(cfg, k) && CoreOnGrid(cfg, k) && k.peer == p
  {
    var c := s.End(p);
    ReadOk(cfg, s.End(Other(p)).core, c.core, s.From(Other(p)), s.From(p));
    assert SegOnGrid(cfg, Other(p), s.From(Other(p))[0]);
    ReadOnGrid(cfg, c.core, s.From(Other(p))[0]);
  }

  lemma TickOnGrid(cfg: Script, s: Sys, p: Peer, e: Env)
    requires cfg.Valid() && Inv(cfg, s) && GridInv(cfg, s) && !Gone(s.End(p))
    ensures OutOnGrid(cfg, p, Proc(cfg, s.End(p), Tick, e))
  {
    var c := s.End(p);
    ProcOutOnGrid(cfg, c.(book := c.book.(armed := false)), e);
  }

  /** A call at an end that is not gone. */
  lemma CallOnGrid(cfg: Script, s: Sys, p: Peer, i: Input, e: Env)
    requires cfg.Valid() && Inv(cfg, s) && GridInv(cfg, s) && !Gone(s.End(p))
    requires i.Packet? ==> s.From(Other(p)) != [] && i.p == s.From(Other(p))[0]
    ensures OutOnGrid(cfg, p, Proc(cfg, s.End(p), i, e))
  {
    if i.Tick? {
      TickOnGrid(cfg, s, p, e);
    } else if i.p.rst {
      ResetOnGrid(cfg, s, p, i.p, e);
    } else {
      hide Inv, GridInv, ProcOut, CoreIn, MakesProgress, DataProgress, EndOk, CoreOnGrid, OutOnGrid;
      ReadByEnd(cfg, s, p);
      var c := s.End(p);
      ProcOutOnGrid(cfg, ProcIn(cfg, c.(book := c.book.(armed := false)), i.p), e);
    }
  }

  lemma ResetOnGrid(cfg: Script, s: Sys, p: Peer, seg: Segment, e: Env)
    requires Inv(cfg, s) && GridInv(cfg, s) && seg.rst
    ensures OutOnGrid(cfg, p, Proc(cfg, s.End(p), Packet(seg), e))
  {}

  lemma AcceptedOnGrid(cfg: Script, y: Ctx, seg: Segment, e: Env)
    requires cfg.Valid() && SegOnGrid(cfg, Client, seg)
    requires y.core.peer == Server
    ensures OutOnGrid(cfg, Server, Accepted(cfg, y, seg, e))
  {
    var c0 := NewServer(y);
    if !seg.rst {
      ReadOnGrid(cfg, c0.core, seg);
      var c1 := ProcIn(cfg, c0, seg);
      assert c1.core.st == LISTEN;
      AcceptOnGrid(cfg, c1, e.(full := true));
    }
  }

  lemma DeliverOnGrid(cfg: Script, s: Sys, from: Peer, e: Env)
    requires cfg.Valid() && Inv(cfg, s) && GridInv(cfg, s)
    ensures GridInv(cfg, Apply(cfg, s, Deliver(from, e)))
  {
    hide Pair, ChannelOk;
    var ch := s.From(from);
    if ch != [] {
      assert SegOnGrid(cfg, from, ch[0]);
      if !Gone(s.End(Other(from))) {
        CallOnGrid(cfg, s, Other(from), Packet(ch[0]), e);
      } else if from == Client {
        AcceptedOnGrid(cfg, s.server, ch[0], e);
      }
    }
  }

  lemma ApplyOnGrid(cfg: Script, s: Sys, step: Step)
    requires cfg.Valid() && Inv(cfg, s) && GridInv(cfg, s)
    ensures GridInv(cfg, Apply(cfg, s, step))
  {
    hide Proc, Inv;
    match step
    case Timer(p, e) =>
      if !Gone(s.End(p)) && s.End(p).book.armed {
        CallOnGrid(cfg, s, p, Tick, e);
      }
    case Deliver(from, e) => DeliverOnGrid(cfg, s, from, e);
    case Lose(from, i) =>
  }

  lemma InitOnGrid(cfg: Script)
    requires cfg.Valid()
    ensures GridInv(cfg, Init())
  {
  }

  lemma {:induction false} RunOnGrid(cfg: Script, states: seq<Sys>, steps: seq<Step>, n: nat)
    requires cfg.Valid() && IsRun(cfg, states, steps) && n <= |steps|
    ensures GridInv(cfg, states[n])
  {
    hide GridInv, Apply, Inv;
    if n == 0 {
      InitOnGrid(cfg);
    } else {
      RunOnGrid(cfg, states, steps, n - 1);
      RunOk(cfg, states, steps, n - 1);
      assert StepAt(cfg, states, steps, n - 1);
      ApplyOnGrid(cfg, states[n - 1], steps[n - 1]);
    }
  }
}
