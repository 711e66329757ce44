/** What every run of two scripted TCP ends guarantees. */
module TcpTheorems {
  import opened TcpScript
  import opened TcpStream
  import opened TcpSystem
  import opened TcpInvariant
  import opened TcpReceive
  import opened TcpTransmit
  import opened TcpRuns
  import opened TcpGrid
  import opened TcpRetransmit
  import opened Words

  /** An end that is closing has every byte of the script, and so has the other end. */
  lemma ClosedMeansComplete(cfg: Script, x: Core, y: Core)
    requires cfg.Valid() && Pair(cfg, x, y) && Closing(x)
    ensures x.rx.accepted == cfg.Scripted(y.peer)
    ensures y.rx.accepted == cfg.Scripted(x.peer)
  {
    cfg.TotalInContent(x.peer);
    cfg.TotalInContent(y.peer);
    assert x.rx.recv >= Mark(cfg, y.peer, cfg.Last());
    assert y.rx.recv >= x.tx.ackd >= Mark(cfg, x.peer, cfg.Last());
  }

  /** Safety of the close: when either end has sent its FIN, each end has accepted exactly what the script has the
      other say. */
  lemma SafeClose(cfg: Script, states: seq<Sys>, steps: seq<Step>, n: nat)
    requires IsRun(cfg, states, steps) && n <= |steps|
    requires cfg.Valid()
    ensures var s := states[n];
            Closing(s.client.core) || Closing(s.server.core) ==>
              s.client.core.rx.accepted == cfg.Scripted(Server) && s.server.core.rx.accepted == cfg.Scripted(Client)
  {
    RunOk(cfg, states, steps, n);
    var s := states[n];
    if Closing(s.client.core) {
      ClosedMeansComplete(cfg, s.client.core, s.server.core);
    } else if Closing(s.server.core) {
      ClosedMeansComplete(cfg, s.server.core, s.client.core);
    }
  }

  /** At all times each end has accepted a prefix of what the script has the other say. */
  lemma OnlyScriptedBytes(cfg: Script, states: seq<Sys>, steps: seq<Step>, n: nat, p: Peer)
    requires IsRun(cfg, states, steps) && n <= |steps|
    requires cfg.Valid()
    ensures states[n].End(p).core.rx.accepted <= cfg.Scripted(Other(p))
  {
    RunOk(cfg, states, steps, n);
    cfg.TotalInContent(Other(p));
  }

  /** k is the state from which some call at end p decides what to transmit: the timer's call, or the call for the
      packet that is next to arrive. */
  ghost predicate Deciding(cfg: Script, s: Sys, p: Peer, k: Core) {
    && !Gone(s.End(p))
    && var ch := s.From(Other(p));
       (k == s.End(p).core || (ch != [] && !ch[0].rst && k == CoreIn(cfg, s.End(p).core, ch[0])))
  }

  lemma DecidingOk(cfg: Script, s: Sys, p: Peer, k: Core)
    requires cfg.Valid() && Inv(cfg, s) && Deciding(cfg, s, p, k)
    ensures Pair(cfg, s.End(Other(p)).core, k) && k.peer == p
  {
    if k != s.End(p).core {
      ReadOk(cfg, s.End(Other(p)).core, s.End(p).core, s.From(Other(p)), s.From(p));
    }
  }

  /** The step delivers a RST to end p. */
  predicate ResetsEnd(s: Sys, step: Step, p: Peer) {
    step.Deliver? && step.sender == Other(p) && s.From(step.sender) != [] && s.From(step.sender)[0].rst
  }

  lemma EndsInStep(cfg: Script, s: Sys, step: Step, p: Peer)
    requires Counted(cfg, s.End(p)) && !Gone(s.End(p)) && !ResetsEnd(s, step, p)
    ensures Apply(cfg, s, step).End(p).book.ended ==> Closing(Apply(cfg, s, step).End(p).core)
  {
    match step
    case Timer(q, e) =>
      if q == p && s.End(p).book.armed {
        CallCounts(cfg, s.End(p), Tick, e);
      }
    case Deliver(from, e) =>
      if from == Other(p) && s.From(from) != [] {
        CallCounts(cfg, s.End(p), Packet(s.From(from)[0]), e);
      }
    case Lose(from, i) =>
  }

  /** Without a RST a stream ends only after it has closed. */
  lemma EndsOnlyWhenClosed(cfg: Script, states: seq<Sys>, steps: seq<Step>, n: nat, p: Peer)
    requires IsRun(cfg, states, steps) && n < |steps|
    requires !Gone(states[n].End(p)) && !ResetsEnd(states[n], steps[n], p)
    ensures states[n + 1].End(p).book.ended ==> Closing(states[n + 1].End(p).core)
  {
    NeverForgotten(cfg, states, steps, n, p);
    assert StepAt(cfg, states, steps, n);
    EndsInStep(cfg, states[n], steps[n], p);
  }

  /** The two ends are at most one action apart, the one ahead is the receiver of the earlier action, and neither
      runs off the script. */
  lemma CurActionInScript(cfg: Script, states: seq<Sys>, steps: seq<Step>, n: nat, p: Peer)
    requires IsRun(cfg, states, steps) && n <= |steps|
    requires cfg.Valid()
    ensures var s := states[n];
            var i, j := s.End(p).core.act, s.End(Other(p)).core.act;
            && i < |cfg.actions|
            && i <= j + 1
            && (i == j + 1 ==> cfg.actions[j].peer == Other(p) && cfg.actions[j].len > 0)
  {
    RunOk(cfg, states, steps, n);
    var j := states[n].End(Other(p)).core.act;
    assert j < cfg.Last() ==> cfg.Contiguous(j);
  }

  lemma OtherEndOf(cfg: Script, x: Core, y: Core)
    requires cfg.Valid() && Pair(cfg, x, y) && Closing(x)
    ensures x.act == cfg.Last()
    ensures y.act == cfg.Last() <==> y.tx.ackable == 0
    ensures y.act < cfg.Last() ==> x.st == FIN_WAIT && y.act == cfg.Last() - 1
  {
    if y.act < cfg.Last() {
      ActionOrder(cfg, y.peer, y.act, cfg.Last());
      assert x.rx.recv >= Mark(cfg, y.peer, cfg.Last()) > Mark(cfg, y.peer, y.act);
    }
  }

  /** The closing end may be ahead of the other by the ack of its last data. Otherwise both are at the closing
      action. */
  lemma WhereTheOtherEndIs(cfg: Script, states: seq<Sys>, steps: seq<Step>, n: nat, p: Peer)
    requires IsRun(cfg, states, steps) && n <= |steps|
    requires cfg.Valid() && Closing(states[n].End(p).core)
    ensures var s := states[n];
            var k, k' := s.End(p).core, s.End(Other(p)).core;
            && k.act == cfg.Last()
            && (k'.act == cfg.Last() <==> k'.tx.ackable == 0)
            && (k'.act < cfg.Last() ==> k.st == FIN_WAIT && k'.act == cfg.Last() - 1)
  {
    RunOk(cfg, states, steps, n);
    OtherEndOf(cfg, states[n].End(p).core, states[n].End(Other(p)).core);
  }

  /** What is acknowledged was received, and what was received was sent. */
  lemma AckedReceivedSent(cfg: Script, states: seq<Sys>, steps: seq<Step>, n: nat, p: Peer)
    requires IsRun(cfg, states, steps) && n <= |steps|
    requires cfg.Valid()
    ensures var s := states[n];
            var x, y := s.End(p).core, s.End(Other(p)).core;
            && (y.rx.gotSyn ==> Base(p) <= y.rx.recv <= x.tx.high)
            && (x.tx.ackd >= Base(p) ==> y.rx.gotSyn && x.tx.ackd <= y.rx.recv)
  {
    RunOk(cfg, states, steps, n);
  }

  lemma SenderSound(cfg: Script, x: Core, k: Core)
    requires cfg.Valid() && Pair(cfg, x, k)
    requires k.st == ESTABLISHED && k.act < cfg.Last() && cfg.actions[k.act].peer == k.peer
    ensures k.tx.next < k.tx.ackd ==> !MaySend(cfg, k)
    ensures k.tx.ackable == 0 ==> Outstanding(k) == 0 && MaySend(cfg, k)
    ensures !MaySend(cfg, k) ==> 0 < Remaining(cfg, Rewind(k)) <= cfg.ActionAt(k.act).len
  {
    RemainingIs(cfg, k);
    if !MaySend(cfg, k) {
      RewindOk(cfg, x, k);
      RemainingIs(cfg, Rewind(k));
    }
  }

  /** In an action of its own, an end never sends while a late ack has overtaken a retransmission, because its count
      of outstanding bytes has wrapped. Its assertion on that count holds, and whatever it retransmits is not empty. */
  lemma SenderIsSound(cfg: Script, states: seq<Sys>, steps: seq<Step>, n: nat, p: Peer, k: Core)
    requires IsRun(cfg, states, steps) && n <= |steps|
    requires cfg.Valid() && Deciding(cfg, states[n], p, k)
    requires k.st == ESTABLISHED && OwnTurn(cfg, k) && cfg.ActionAt(k.act).len != 0
    ensures k.tx.next < k.tx.ackd ==> !MaySend(cfg, k)
    ensures k.tx.ackable == 0 ==> Outstanding(k) == 0 && MaySend(cfg, k)
    ensures !MaySend(cfg, k) ==> 0 < Remaining(cfg, Rewind(k)) <= cfg.ActionAt(k.act).len
  {
    RunOk(cfg, states, steps, n);
    DecidingOk(cfg, states[n], p, k);
    assert k.act < cfg.Last();
    SenderSound(cfg, states[n].End(Other(p)).core, k);
  }

  /** Only an end whose turn it is transmits data. */
  lemma NoDataOtherwise(cfg: Script, k: Core, b: Book, e: Env)
    requires cfg.Valid() && k.act < |cfg.actions|
    requires k.st == ESTABLISHED && OwnTurn(cfg, k) ==> k.act == cfg.Last()
    ensures forall seg :: seg in ProcOut(cfg, Ctx(k, b), e).pkt ==> seg.payload == []
  {
    match k.st
    case ESTABLISHED =>
    case _ =>
  }

  /** Every byte transmitted is the byte the script has at that position of the current action. */
  lemma SendsOnlyCurrentAction(cfg: Script, states: seq<Sys>, steps: seq<Step>, n: nat, p: Peer, k: Core, b: Book,
        e: Env)
    requires IsRun(cfg, states, steps) && n <= |steps|
    requires cfg.Valid() && Deciding(cfg, states[n], p, k)
    ensures forall seg :: seg in ProcOut(cfg, Ctx(k, b), e).pkt && seg.payload != [] ==>
              DataAt(cfg, p, seg, k.act) && |seg.payload| <= MSS
  {
    RunOk(cfg, states, steps, n);
    DecidingOk(cfg, states[n], p, k);
    if k.st == ESTABLISHED && OwnTurn(cfg, k) && k.act < cfg.Last() {
      DataInAction(cfg, states[n].End(Other(p)).core, k, b, e);
    } else {
      NoDataOtherwise(cfg, k, b, e);
    }
  }

  /** What the end whose turn it is transmits, if anything. */
  function NextData(cfg: Script, k: Core): Segment {
    var k1 := if MaySend(cfg, k) then Begin(cfg, k) else Rewind(k);
    var n := if Remaining(cfg, k1) > k1.rx.mss then k1.rx.mss else Remaining(cfg, k1);
    MakeSegment(cfg, k1, ACK, Sub32(k1.tx.next, k1.tx.first), n)
  }

  lemma OnlyNextData(cfg: Script, k: Core, b: Book, e: Env)
    requires k.st == ESTABLISHED && OwnTurn(cfg, k) && cfg.ActionAt(k.act).len != 0
    ensures ProcOut(cfg, Ctx(k, b), e).pkt == [] || ProcOut(cfg, Ctx(k, b), e).pkt == [NextData(cfg, k)]
  {
  }

  lemma DataInAction(cfg: Script, x: Core, k: Core, b: Book, e: Env)
    requires cfg.Valid() && Pair(cfg, x, k)
    requires k.st == ESTABLISHED && k.act < cfg.Last() && cfg.actions[k.act].peer == k.peer
    ensures forall seg :: seg in ProcOut(cfg, Ctx(k, b), e).pkt ==>
              DataAt(cfg, k.peer, seg, k.act) && |seg.payload| <= MSS
  {
    RemainingIs(cfg, k);
    OnlyNextData(cfg, k, b, e);
    NextDataInAction(cfg, x, k);
  }

  lemma NextDataInAction(cfg: Script, x: Core, k: Core)
    requires cfg.Valid() && Pair(cfg, x, k)
    requires k.st == ESTABLISHED && k.act < cfg.Last() && cfg.actions[k.act].peer == k.peer
    ensures DataAt(cfg, k.peer, NextData(cfg, k), k.act) && |NextData(cfg, k).payload| <= MSS
  {
    hide AcceptedOk, RecvAt, Finished, DataAt;
    RemainingIs(cfg, k);
    BeginOk(cfg, x, k);
    var k1 := if MaySend(cfg, k) then Begin(cfg, k) else Rewind(k);
    if !MaySend(cfg, k) {
      RewindOk(cfg, x, k);
    }
    RemainingIs(cfg, k1);
    var n := if Remaining(cfg, k1) > MSS then MSS else Remaining(cfg, k1);
    NextSegment(cfg, k1, NextData(cfg, k), n);
  }

  /** A payload that arrives in order is never too long and never differs from the script. */
  lemma ReceiverNeverRefuses(cfg: Script, states: seq<Sys>, steps: seq<Step>, n: nat, p: Peer)
    requires IsRun(cfg, states, steps) && n <= |steps|
    requires cfg.Valid() && !Gone(states[n].End(p)) && states[n].From(Other(p)) != []
    ensures var seg := states[n].From(Other(p))[0];
            var k := Acked(states[n].End(p).core, seg);
            !seg.syn && !seg.fin && !seg.rst && k.rx.recv == seg.seqNo ==>
              Judge(cfg, k, seg.payload).Empty? || Judge(cfg, k, seg.payload).Good?
  {
    RunOk(cfg, states, steps, n);
    var s := states[n];
    var x, y, seg := s.End(Other(p)).core, s.End(p).core, s.From(Other(p))[0];
    if !seg.syn && !seg.fin && !seg.rst && seg.payload != [] {
      AckPhase(cfg, x, y, seg);
      assert Acked(y, seg) == AckIn(y, seg);
      var i: nat :| i <= x.act && DataAt(cfg, x.peer, seg, i);
      if AckIn(y, seg).rx.recv == seg.seqNo {
        DataPhase(cfg, x, AckIn(y, seg), seg, i);
      }
    }
  }

  /** The bytes of seg are all new or all old to a receiver at recv. */
  ghost predicate AllNewOrAllOld(seg: Segment, recv: u32) {
    seg.payload != [] && !seg.rst ==> recv <= seg.seqNo || seg.seqNo + |seg.payload| <= recv
  }

  /** seg carries a full segment of some action, or the rest of it. */
  ghost predicate CarriesWhole(cfg: Script, p: Peer, seg: Segment) {
    seg.payload != [] && !seg.rst ==> Whole(cfg, p, seg.seqNo - Base(p), |seg.payload|)
  }

  /** No data segment in flight straddles the receiver's position. */
  lemma SegmentsNeverStraddle(cfg: Script, states: seq<Sys>, steps: seq<Step>, n: nat, p: Peer, i: nat)
    requires IsRun(cfg, states, steps) && n <= |steps|
    requires cfg.Valid() && i < |states[n].From(p)|
    requires states[n].End(Other(p)).core.rx.gotSyn
    ensures CarriesWhole(cfg, p, states[n].From(p)[i])
    ensures AllNewOrAllOld(states[n].From(p)[i], states[n].End(Other(p)).core.rx.recv)
  {
    hide Inv, GridInv, CarriesWhole, AllNewOrAllOld, Apply;
    RunOk(cfg, states, steps, n);
    RunOnGrid(cfg, states, steps, n);
    InFlightOnGrid(cfg, states[n], p, i);
    ReceiverOnGrid(cfg, states[n], p);
    NoStraddle(cfg, p, states[n].From(p)[i], states[n].End(Other(p)).core.rx.recv);
  }

  lemma InFlightOnGrid(cfg: Script, s: Sys, p: Peer, i: nat)
    requires GridInv(cfg, s) && i < |s.From(p)|
    ensures SegOnGrid(cfg, p, s.From(p)[i])
  {
  }

  lemma ReceiverOnGrid(cfg: Script, s: Sys, p: Peer)
    requires Inv(cfg, s) && GridInv(cfg, s) && s.End(Other(p)).core.rx.gotSyn
    ensures s.End(Other(p)).core.rx.recv >= Base(p) && OnGrid(cfg, p, s.End(Other(p)).core.rx.recv - Base(p))
  {
  }

  lemma NoStraddle(cfg: Script, p: Peer, seg: Segment, recv: u32)
    requires cfg.Valid() && SegOnGrid(cfg, p, seg) && recv >= Base(p) && OnGrid(cfg, p, recv - Base(p))
    ensures CarriesWhole(cfg, p, seg) && AllNewOrAllOld(seg, recv)
  {
    if seg.payload != [] && !seg.rst {
      WholeHasNoGrid(cfg, p, seg.seqNo - Base(p), |seg.payload|, recv - Base(p));
    }
  }

  /** In every run each end keeps to the retransmission limit, and one that is not gone has a timer pending. */
  lemma {:induction false} NeverForgotten(cfg: Script, states: seq<Sys>, steps: seq<Step>, n: nat, p: Peer)
    requires IsRun(cfg, states, steps) && n <= |steps|
    ensures Counted(cfg, states[n].End(p)) && (!Gone(states[n].End(p)) ==> states[n].End(p).book.armed)
  {
    if n > 0 {
      NeverForgotten(cfg, states, steps, n - 1, p);
      assert StepAt(cfg, states, steps, n - 1);
      CallsInStep(cfg, states[n - 1], steps[n - 1], p);
    }
  }

  lemma CallsInStep(cfg: Script, s: Sys, step: Step, p: Peer)
    requires Counted(cfg, s.End(p)) && (!Gone(s.End(p)) ==> s.End(p).book.armed)
    ensures var c := Apply(cfg, s, step).End(p);
            Counted(cfg, c) && (!Gone(c) ==> c.book.armed)
  {
    var c := s.End(p);
    match step
    case Timer(q, e) =>
      if !Gone(c) {
        CallCounts(cfg, c, Tick, e);
      }
    case Deliver(from, e) =>
      if s.From(from) != [] && p == Other(from) {
        if !Gone(c) {
          CallCounts(cfg, c, Packet(s.From(from)[0]), e);
        } else if p == Server {
          CallCounts(cfg, NewServer(c), Packet(s.From(from)[0]), e.(full := true));
        }
      }
    case Lose(from, i) =>
  }
}
