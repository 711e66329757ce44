/** Whatever has been lost or sent in vain, the script can still be played to its end. */
module TcpRecovery {
  import opened TcpScript
  import opened TcpStream
  import opened TcpSystem
  import opened TcpInvariant
  import opened TcpTransmit
  import opened TcpRuns
  import opened TcpTheorems
  import opened TcpCompletion
  import opened Words

  /** The bucket is not full: packets are read, and nothing is transmitted. */
  const BLOCKED := Env(false, true, true, false)

  /** Nothing is on its way. */
  predicate Silent(s: Sys) {
    s.toServer == [] && s.toClient == []
  }

  /** What is on its way from p is lost. */
  lemma {:induction false} LoseFrom(cfg: Script, s: Sys, p: Peer)
    requires cfg.Valid() && Inv(cfg, s)
    ensures var t := s.WithFrom(p, []);
            Inv(cfg, t) && Reaches(cfg, s, t) && (CanEnd(cfg, t) ==> CanEnd(cfg, s))
    decreases |s.From(p)|
  {
    hide Inv, CanEnd;
    var t, s1 := s.WithFrom(p, []), Apply(cfg, s, Lose(p, 0));
    if s.From(p) == [] {
      assert After(cfg, s, []) == s == t;
    } else {
      Then(cfg, s, Lose(p, 0));
      LoseFrom(cfg, s1, p);
      assert s1.WithFrom(p, []) == t;
      Join(cfg, s, s1, t);
    }
  }

  // ---- an end in LAST_ACK whose FIN is acknowledged has ended ----

  ghost predicate Tidy(c: Ctx) {
    Gone(c) || c.core.st != LAST_ACK || c.core.tx.ackd != c.core.tx.next
  }

  /** Closing from ESTABLISHED leaves the FIN to be acknowledged. */
  lemma OpenTidy(cfg: Script, c: Ctx, e: Env)
    requires cfg.Valid() && EndOk(cfg, c.core) && c.core.st == ESTABLISHED
    ensures Tidy(ProcOut(cfg, c, e).ctx)
  {
    hide RxOk, Judge;
    if c.core.act < cfg.Last() {
    } else {
      cfg.TotalInContent(c.core.peer);
    }
  }

  lemma OutTidy(cfg: Script, c: Ctx, e: Env)
    requires cfg.Valid() && EndOk(cfg, c.core)
    ensures Tidy(ProcOut(cfg, c, e).ctx)
  {
    if c.core.st == ESTABLISHED {
      OpenTidy(cfg, c, e);
    } else if c.core.st == LAST_ACK {
      LastAckTidy(cfg, c, e);
    } else {
      OthersTidy(cfg, c, e);
    }
  }

  lemma LastAckTidy(cfg: Script, c: Ctx, e: Env)
    requires cfg.Valid() && EndOk(cfg, c.core) && c.core.st == LAST_ACK
    ensures Tidy(ProcOut(cfg, c, e).ctx)
  {
    cfg.TotalInContent(c.core.peer);
  }

  lemma OthersTidy(cfg: Script, c: Ctx, e: Env)
    requires c.core.st != ESTABLISHED && c.core.st != LAST_ACK && c.core.st != CLOSE_WAIT
    ensures ProcOut(cfg, c, e).ctx.core.st != LAST_ACK
  {}

  lemma CallTidy(cfg: Script, s: Sys, p: Peer, i: Input, e: Env)
    requires cfg.Valid() && Inv(cfg, s) && !Gone(s.End(p))
    requires i.Packet? ==> s.From(Other(p)) != [] && i.p == s.From(Other(p))[0]
    ensures Tidy(Proc(cfg, s.End(p), i, e).ctx)
  {
    var c := s.End(p);
    var c0 := c.(book := c.book.(armed := false));
    if i.Tick? {
      OutTidy(cfg, c0, e);
    } else if !i.p.rst {
      ReadOk(cfg, s.End(Other(p)).core, c.core, s.From(Other(p)), s.From(p));
      OutTidy(cfg, ProcIn(cfg, c0, i.p), e);
    }
  }

  lemma AcceptTidy(cfg: Script, y: Ctx, seg: Segment, e: Env)
    ensures Tidy(Accepted(cfg, y, seg, e).ctx)
  {
    var c := NewServer(y);
    assert !seg.rst ==> CoreIn(cfg, c.core, seg).st == LISTEN;
  }

  lemma StepTidy(cfg: Script, s: Sys, step: Step, p: Peer)
    requires cfg.Valid() && Inv(cfg, s) && Tidy(s.End(p))
    ensures Tidy(Apply(cfg, s, step).End(p))
  {
    hide Proc, Inv, Tidy;
    match step
    case Timer(q, e) =>
      if q == p && !Gone(s.End(p)) {
        CallTidy(cfg, s, p, Tick, e);
      }
    case Deliver(from, e) =>
      if s.From(from) != [] && p == Other(from) {
        if !Gone(s.End(p)) {
          CallTidy(cfg, s, p, Packet(s.From(from)[0]), e);
        } else if p == Server {
          AcceptTidy(cfg, s.server, s.From(from)[0], e);
        }
      }
    case Lose(from, i) =>
  }

  lemma {:induction false} RunTidy(cfg: Script, states: seq<Sys>, steps: seq<Step>, n: nat, p: Peer)
    requires cfg.Valid() && IsRun(cfg, states, steps) && n <= |steps|
    ensures Tidy(states[n].End(p))
  {
    if n > 0 {
      RunTidy(cfg, states, steps, n - 1, p);
      RunOk(cfg, states, steps, n - 1);
      assert StepAt(cfg, states, steps, n - 1);
      StepTidy(cfg, states[n - 1], steps[n - 1], p);
    }
  }

  // ---- an end that has something to say gets a segment of it on its way ----

  /** k speaks, and all it has said and t has not heard may be lost. */
  ghost predicate Speaker(cfg: Script, t: Core, k: Core) {
    && k.st == ESTABLISHED && k.act < cfg.Last() && OwnTurn(cfg, k) && k.tx.ackd == t.rx.recv
  }

  /** A segment with what t lacks next. */
  ghost predicate Next(cfg: Script, k: Core, seg: Segment) {
    && Plain(seg) && seg.payload != [] && seg.seqNo == k.tx.ackd && seg.ackNo == k.rx.recv
    && DataAt(cfg, k.peer, seg, k.act) && k.tx.next == seg.seqNo + |seg.payload|
  }

  /** k is k0, but for where it goes on sending. */
  ghost predicate SameButNext(k0: Core, k: Core) {
    && k.peer == k0.peer && k.st == k0.st && k.act == k0.act && k.rx == k0.rx && k.tx.ackd == k0.tx.ackd
  }

  /** Sending the next data of the action from next on. */
  lemma SendsNext(cfg: Script, t: Core, k: Core, b: Book)
    requires cfg.Valid() && Pair(cfg, t, k) && k.st == ESTABLISHED && Sending(cfg, k.peer, k.act, k.tx)
    requires k.tx.next < k.tx.ackable
    ensures var o := SendData(cfg, k, b);
            && |o.pkt| == 1 && SameButNext(k, o.ctx.core) && o.ctx.core.tx.next > k.tx.next
            && o.ctx.core.tx.ackable == k.tx.ackable
            && o.ctx.book.ended == b.ended && o.ctx.book.expired == b.expired && o.ctx.book.armed
            && o.ctx.book.same == b.same
            && (k.tx.next == k.tx.ackd ==> Next(cfg, o.ctx.core, o.pkt[0]))
  {
    SendDataIs(cfg, k, b);
    RemainingIs(cfg, k);
    NextSegment(cfg, k, SendData(cfg, k, b).pkt[0], NextSize(cfg, k));
  }

  /** How far the action goes beyond next, and whether the stream still waits for more data to be sent. */
  ghost function Left(c: Ctx): int {
    2 * (c.core.tx.ackable - c.core.tx.next) + if c.book.moreData then 1 else 0
  }

  /** What a call makes of a speaker: a segment with what the other end lacks next is on its way, or the call comes
      nearer to that. */
  ghost predicate Nearer(cfg: Script, c: Ctx, o: Out) {
    && SameButNext(c.core, o.ctx.core) && Live(o.ctx.book) && |o.pkt| <= 1
    && ((|o.pkt| == 1 && Next(cfg, o.ctx.core, o.pkt[0])) || (Alive(o.ctx.book) && 0 <= Left(o.ctx) < Left(c)))
  }

  lemma BeginsNearer(cfg: Script, t: Core, k: Core, b: Book)
    requires cfg.Valid() && Pair(cfg, t, k) && Speaker(cfg, t, k) && k.tx.ackable == 0
    requires b.same < MAX_SAME_STATE && !b.ended && !b.expired
    ensures Nearer(cfg, Ctx(k, b), ProcOut(cfg, Ctx(k, b), READY))
  {
    RemainingIs(cfg, k);
    BeginOk(cfg, t, k);
    assert ProcOut(cfg, Ctx(k, b), READY) == SendData(cfg, Begin(cfg, k), b);
    SendsNext(cfg, t, Begin(cfg, k), b);
  }

  lemma SendsNearer(cfg: Script, t: Core, k: Core, b: Book)
    requires cfg.Valid() && Pair(cfg, t, k) && Speaker(cfg, t, k) && k.tx.ackable != 0 && MaySend(cfg, k)
    requires b.same < MAX_SAME_STATE && !b.ended && !b.expired
    ensures Nearer(cfg, Ctx(k, b), ProcOut(cfg, Ctx(k, b), READY))
  {
    RemainingIs(cfg, k);
    assert Sending(cfg, k.peer, k.act, k.tx);
    assert ProcOut(cfg, Ctx(k, b), READY) == SendData(cfg, k, b);
    SendsNext(cfg, t, k, b);
    SendDataIs(cfg, k, b);
  }

  lemma RewindsNearer(cfg: Script, t: Core, k: Core, b: Book)
    requires cfg.Valid() && Pair(cfg, t, k) && Speaker(cfg, t, k) && k.tx.ackable != 0 && !MaySend(cfg, k)
    requires b.same < MAX_SAME_STATE && !b.ended && !b.expired
    ensures Nearer(cfg, Ctx(k, b), ProcOut(cfg, Ctx(k, b), READY))
  {
    RemainingIs(cfg, k);
    assert Sending(cfg, k.peer, k.act, k.tx);
    if b.moreData {
      assert ProcOut(cfg, Ctx(k, b), READY) == Wait(k, b.(moreData := false));
    } else {
      assert ProcOut(cfg, Ctx(k, b), READY) == SendData(cfg, Rewind(k), Retransmit(b));
      RewindOk(cfg, t, k);
      SendsNext(cfg, t, Rewind(k), Retransmit(b));
    }
  }

  lemma TickNearer(cfg: Script, t: Core, k: Core, b: Book)
    requires cfg.Valid() && Pair(cfg, t, k) && Speaker(cfg, t, k)
    requires b.same < MAX_SAME_STATE && !b.ended && !b.expired
    ensures Nearer(cfg, Ctx(k, b), ProcOut(cfg, Ctx(k, b), READY))
  {
    hide Pair, Nearer, ProcOut, MaySend, Speaker;
    if k.tx.ackable == 0 {
      BeginsNearer(cfg, t, k, b);
    } else if MaySend(cfg, k) {
      SendsNearer(cfg, t, k, b);
    } else {
      RewindsNearer(cfg, t, k, b);
    }
  }

  /** p is to speak, and nothing is on its way. */
  ghost predicate Turn(cfg: Script, s: Sys, p: Peer) {
    && Silent(s) && Alive(s.End(p).book) && Live(s.End(Other(p)).book)
    && Speaker(cfg, s.End(Other(p)).core, s.End(p).core)
  }

  /** p has spoken, and nothing has happened to the other end. */
  ghost predicate Spoke(cfg: Script, s0: Sys, s: Sys, p: Peer) {
    && s.End(Other(p)) == s0.End(Other(p)) && SameButNext(s0.End(p).core, s.End(p).core) && Live(s.End(p).book)
    && s.From(Other(p)) == [] && |s.From(p)| == 1 && Next(cfg, s.End(p).core, s.From(p)[0])
  }

  lemma SpeakStep(cfg: Script, s: Sys, p: Peer)
    requires cfg.Valid() && Inv(cfg, s) && Turn(cfg, s, p)
    ensures var s' := Apply(cfg, s, Timer(p, READY));
            Spoke(cfg, s, s', p) ||
            (Turn(cfg, s'.WithFrom(p, []), p)
             && SameButNext(s.End(p).core, s'.End(p).core) && s'.End(Other(p)) == s.End(Other(p))
             && 0 <= Left(s'.End(p)) < Left(s.End(p)))
  {
    hide Apply, ProcOut, Inv, Pair, Next;
    var c := s.End(p);
    PairOf(cfg, s, Other(p));
    TickNearer(cfg, s.End(Other(p)).core, c.core, c.book.(armed := false));
    assert Proc(cfg, c, Tick, READY) == ProcOut(cfg, Ctx(c.core, c.book.(armed := false)), READY);
    TimerAlone(cfg, s, p, READY);
  }

  /** The segment gets on its way. */
  lemma {:induction false} GetSegment(cfg: Script, s: Sys, p: Peer) returns (t: Sys)
    requires cfg.Valid() && Inv(cfg, s) && Turn(cfg, s, p)
    ensures Inv(cfg, t) && Reaches(cfg, s, t) && Spoke(cfg, s, t, p)
    decreases Left(s.End(p))
  {
    hide Apply, Inv, Next, Turn, SameButNext, Proc, Reaches, CanEnd;
    t := Apply(cfg, s, Timer(p, READY));
    Then(cfg, s, Timer(p, READY));
    SpeakStep(cfg, s, p);
    if !Spoke(cfg, s, t, p) {
      var s1, s2 := t, t.WithFrom(p, []);
      LoseFrom(cfg, s1, p);
      t := GetSegment(cfg, s2, p);
      SpokeOn(cfg, s, s1, t, p);
      Join(cfg, s, s1, s2);
      Join(cfg, s, s2, t);
    }
  }

  lemma SpokeOn(cfg: Script, s0: Sys, s1: Sys, s: Sys, p: Peer)
    requires Spoke(cfg, s1.WithFrom(p, []), s, p)
    requires SameButNext(s0.End(p).core, s1.End(p).core) && s1.End(Other(p)) == s0.End(Other(p))
    ensures Spoke(cfg, s0, s, p)
  {}

  // ---- both ends established ----

  /** k may speak: what t has heard is acknowledged, and what k sends will acknowledge all that t has sent. */
  ghost predicate Ready(cfg: Script, t: Core, k: Core) {
    k.st == ESTABLISHED && OwnTurn(cfg, k) && k.tx.ackd == t.rx.recv && Settles(t.tx, k.rx.recv)
  }

  /** k may speak once t has told it what it has heard. */
  ghost predicate Owes(cfg: Script, t: Core, k: Core) {
    !OwnTurn(cfg, t) && OwnTurn(cfg, k) && k.tx.ackd < t.rx.recv && t.tx.next == t.tx.ackd == t.tx.high == k.rx.recv
  }

  /** An end that is not closing has sent no more than its bytes. */
  lemma NoFinSent(cfg: Script, k: Core)
    requires cfg.Valid() && EndOk(cfg, k) && !Closing(k)
    ensures k.tx.high <= Base(k.peer) + cfg.Total(k.peer)
  {
    hide RxOk;
    cfg.TotalInContent(k.peer);
    cfg.OffsetMonotone(k.peer, k.act, cfg.Last());
    if k.act < cfg.Last() {
      cfg.OffsetMonotone(k.peer, k.act + 1, cfg.Last());
    }
  }

  lemma NoFinYet(cfg: Script, x: Core, y: Core)
    requires cfg.Valid() && Pair(cfg, x, y) && x.st == ESTABLISHED && y.st == ESTABLISHED
    ensures !x.rx.gotFin
  {
    hide RecvAt;
    NoFinSent(cfg, y);
  }

  /** x is an action ahead, and it is its turn. */
  lemma AheadSpeaks(cfg: Script, x: Core, y: Core)
    requires cfg.Valid() && Pair(cfg, x, y) && x.st == ESTABLISHED && y.st == ESTABLISHED
    requires x.act == y.act + 1 && OwnTurn(cfg, x)
    ensures Ready(cfg, y, x)
  {
    ActionOrder(cfg, y.peer, y.act, x.act);
    ActionOrder(cfg, x.peer, y.act, x.act);
  }

  /** x speaks, and y is not an action behind. */
  lemma SpeakerOrOwed(cfg: Script, x: Core, y: Core)
    requires cfg.Valid() && Pair(cfg, x, y) && x.st == ESTABLISHED && y.st == ESTABLISHED
    requires OwnTurn(cfg, x) && !OwnTurn(cfg, y)
    ensures Ready(cfg, y, x) || Owes(cfg, y, x)
  {
    assert Idle(cfg, y.peer, y.act, y.tx);
    assert x.tx.ackd <= y.rx.recv;
  }

  /** Of two ends with an established connection one may speak, or could if the other told it what it has heard. */
  lemma WhoSpeaks(cfg: Script, x: Core, y: Core)
    requires cfg.Valid() && Pair(cfg, x, y) && x.st == ESTABLISHED && y.st == ESTABLISHED
    ensures Ready(cfg, y, x) || Ready(cfg, x, y) || Owes(cfg, y, x) || Owes(cfg, x, y)
  {
    if OwnTurn(cfg, x) && OwnTurn(cfg, y) {
      if x.act == y.act + 1 {
        AheadSpeaks(cfg, x, y);
      } else {
        AheadSpeaks(cfg, y, x);
      }
    } else if OwnTurn(cfg, x) {
      SpeakerOrOwed(cfg, x, y);
    } else {
      SpeakerOrOwed(cfg, y, x);
    }
  }

  /** t tells k what it has heard. */
  lemma Tells(cfg: Script, t: Ctx)
    requires t.core.st == ESTABLISHED && !OwnTurn(cfg, t.core) && !t.core.rx.gotFin && t.core.tx.next <= t.core.tx.high
    requires Alive(t.book)
    ensures var o := Proc(cfg, t, Tick, READY);
            o.ctx.core == t.core && Live(o.ctx.book) && o.pkt == [AckSegment(t.core)]
  {}

  /** And k takes note. */
  lemma TakesNote(cfg: Script, k: Ctx, seg: Segment)
    requires k.core.st == ESTABLISHED && Live(k.book) && Plain(seg) && seg.payload == [] && seg.ackNo > k.core.tx.ackd
    ensures var o := Proc(cfg, k, Packet(seg), BLOCKED);
            o.ctx.core == AckIn(k.core, seg) && Alive(o.ctx.book) && o.pkt == []
  {
    assert Acked(k.core, seg) == AckIn(k.core, seg);
    assert Judge(cfg, Acked(k.core, seg), []).Empty?;
  }

  /** Nothing is on its way, and p may speak. */
  ghost predicate ReadyAt(cfg: Script, s: Sys, p: Peer) {
    && Silent(s) && Alive(s.End(p).book) && Live(s.End(Other(p)).book) && s.End(Other(p)).core.st == ESTABLISHED
    && Ready(cfg, s.End(Other(p)).core, s.End(p).core)
  }

  ghost predicate BothOpen(s: Sys) {
    Silent(s) && s.client.core.st == ESTABLISHED && s.server.core.st == ESTABLISHED
  }

  /** After the two steps k may speak. */
  lemma NoteReady(cfg: Script, t: Core, k: Core)
    requires cfg.Valid() && Pair(cfg, t, k) && t.st == ESTABLISHED && k.st == ESTABLISHED && Owes(cfg, t, k)
    requires Pair(cfg, t, AckIn(k, AckSegment(t)))
    ensures AckIn(k, AckSegment(t)).st == ESTABLISHED && Ready(cfg, t, AckIn(k, AckSegment(t)))
  {
    var k1 := AckIn(k, AckSegment(t));
    assert k1.tx.ackd == t.rx.recv;
    WhoSpeaks(cfg, t, k1);
  }

  lemma PairOf(cfg: Script, s: Sys, p: Peer)
    requires Inv(cfg, s)
    ensures Pair(cfg, s.End(p).core, s.End(Other(p)).core) && s.End(p).core.peer == p
  {}

  /** What a timer that is handled does while nothing is on its way. */
  lemma TimerAlone(cfg: Script, s: Sys, p: Peer, e: Env)
    requires Silent(s) && !Gone(s.End(p)) && s.End(p).book.armed
    ensures var s', o := Apply(cfg, s, Timer(p, e)), Proc(cfg, s.End(p), Tick, e);
            s'.End(p) == o.ctx && s'.End(Other(p)) == s.End(Other(p)) && s'.From(p) == o.pkt && s'.From(Other(p)) == []
  {
    assert [] + Proc(cfg, s.End(p), Tick, e).pkt == Proc(cfg, s.End(p), Tick, e).pkt;
  }

  /** What the delivery of a segment from p does. */
  lemma DeliverIs(cfg: Script, s: Sys, p: Peer, e: Env)
    requires s.From(p) != [] && !Gone(s.End(Other(p)))
    ensures var s', o := Apply(cfg, s, Deliver(p, e)), Proc(cfg, s.End(Other(p)), Packet(s.From(p)[0]), e);
            && s'.End(Other(p)) == o.ctx && s'.End(p) == s.End(p)
            && s'.From(Other(p)) == s.From(Other(p)) + o.pkt && s'.From(p) == s.From(p)[1..]
  {}

  lemma TellStep(cfg: Script, s: Sys, p: Peer)
    requires cfg.Valid() && Inv(cfg, s) && BothOpen(s) && Alive(s.End(p).book) && Live(s.End(Other(p)).book)
    requires Owes(cfg, s.End(p).core, s.End(Other(p)).core)
    ensures var s1 := Apply(cfg, s, Timer(p, READY)); var s2 := Apply(cfg, s1, Deliver(p, BLOCKED));
            && Silent(s2) && s2.End(p).core == s.End(p).core && Live(s2.End(p).book) && Alive(s2.End(Other(p)).book)
            && s2.End(Other(p)).core == AckIn(s.End(Other(p)).core, AckSegment(s.End(p).core))
  {
    hide Proc, Apply, AckIn, Inv, Pair, AckSegment, OwnTurn, Owes, Plain;
    var t, k := s.End(p), s.End(Other(p));
    PairOf(cfg, s, p);
    NoFinYet(cfg, t.core, k.core);
    TellEffect(cfg, s, p);
    var s1 := Apply(cfg, s, Timer(p, READY));
    TakesNote(cfg, k, s1.From(p)[0]);
    DeliverIs(cfg, s1, p, BLOCKED);
  }

  lemma TellEffect(cfg: Script, s: Sys, p: Peer)
    requires BothOpen(s) && Alive(s.End(p).book) && !s.End(p).core.rx.gotFin
    requires Owes(cfg, s.End(p).core, s.End(Other(p)).core)
    ensures var s1, seg := Apply(cfg, s, Timer(p, READY)), AckSegment(s.End(p).core);
            && s1.End(p).core == s.End(p).core && Live(s1.End(p).book) && s1.End(Other(p)) == s.End(Other(p))
            && s1.From(p) == [seg] && s1.From(Other(p)) == []
            && Plain(seg) && seg.payload == [] && seg.ackNo > s.End(Other(p)).core.tx.ackd
  {
    hide Proc, Apply;
    Tells(cfg, s.End(p));
    TimerAlone(cfg, s, p, READY);
  }

  /** What p says is in order. */
  lemma SpokeInOrder(cfg: Script, s0: Sys, s: Sys, p: Peer)
    requires cfg.Valid() && Inv(cfg, s0) && Inv(cfg, s) && ReadyAt(cfg, s0, p) && Spoke(cfg, s0, s, p)
    ensures Playing(cfg, s, p)
  {
    NoFinYet(cfg, s.End(p).core, s.End(Other(p)).core);
    NoFinYet(cfg, s.End(Other(p)).core, s.End(p).core);
  }

  lemma ReadyToSpeak(cfg: Script, s: Sys, p: Peer)
    requires cfg.Valid() && Inv(cfg, s) && ReadyAt(cfg, s, p)
    ensures s.End(p).core.act < cfg.Last() ==> Turn(cfg, s, p)
    ensures s.End(p).core.act >= cfg.Last() ==> ToSpeak(cfg, s, p)
  {
    NoFinYet(cfg, s.End(p).core, s.End(Other(p)).core);
    NoFinYet(cfg, s.End(Other(p)).core, s.End(p).core);
  }

  lemma FinishReady(cfg: Script, s: Sys, p: Peer)
    requires cfg.Valid() && Inv(cfg, s) && ReadyAt(cfg, s, p)
    ensures CanEnd(cfg, s)
  {
    hide CanEnd, Reaches, ToSpeak, Turn, Playing, Spoke, Inv;
    ReadyToSpeak(cfg, s, p);
    if s.End(p).core.act < cfg.Last() {
      var t := GetSegment(cfg, s, p);
      SpokeInOrder(cfg, s, t, p);
      FinishPlaying(cfg, t, p);
      Onward(cfg, s, t);
    } else {
      FinishSpeaking(cfg, s, p);
    }
  }

  /** p tells the other end what it has heard. */
  lemma FinishOwed(cfg: Script, s: Sys, p: Peer)
    requires cfg.Valid() && Inv(cfg, s) && BothOpen(s) && Alive(s.End(p).book) && Live(s.End(Other(p)).book)
    requires Owes(cfg, s.End(p).core, s.End(Other(p)).core)
    ensures CanEnd(cfg, s)
  {
    hide CanEnd, Reaches, Apply, Ready, Owes;
    var s1 := Apply(cfg, s, Timer(p, READY));
    var s2 := Apply(cfg, s1, Deliver(p, BLOCKED));
    Then(cfg, s, Timer(p, READY));
    Then(cfg, s1, Deliver(p, BLOCKED));
    TellStep(cfg, s, p);
    NoteReady(cfg, s.End(p).core, s.End(Other(p)).core);
    FinishReady(cfg, s2, Other(p));
  }

  /** From two established ends to the end of the script. */
  lemma FinishOpen(cfg: Script, s: Sys)
    requires cfg.Valid() && Inv(cfg, s) && BothOpen(s) && Alive(s.client.book) && Alive(s.server.book)
    ensures CanEnd(cfg, s)
  {
    hide CanEnd, Reaches, Ready, Owes;
    WhoSpeaks(cfg, s.client.core, s.server.core);
    if Ready(cfg, s.server.core, s.client.core) {
      FinishReady(cfg, s, Client);
    } else if Ready(cfg, s.client.core, s.server.core) {
      FinishReady(cfg, s, Server);
    } else if Owes(cfg, s.server.core, s.client.core) {
      FinishOwed(cfg, s, Server);
    } else {
      FinishOwed(cfg, s, Client);
    }
  }

  // ---- one end is closing ----

  /** An end that has heard the other's FIN answers it. */
  lemma AnswersFin(cfg: Script, f: Core, t: Ctx)
    requires cfg.Valid() && Pair(cfg, f, t.core) && f.st == FIN_WAIT && t.core.st == ESTABLISHED && t.core.rx.gotFin
    requires Alive(t.book)
    ensures var o := Proc(cfg, t, Tick, READY);
            |o.pkt| == 1 && Live(o.ctx.book) && FinAnswered(f, o.ctx.core, o.pkt[0])
  {
    var k := t.core;
    cfg.TotalInContent(f.peer);
    cfg.TotalInContent(k.peer);
    FinHeardAtLast(cfg, f, k);
    assert Proc(cfg, t, Tick, READY) == OutEstablishedRx(cfg, k, t.book.(armed := false), READY);
  }

  /** An end that has not got to the closing action has not heard the FIN. */
  lemma NoFinBeforeLast(cfg: Script, f: Core, k: Core)
    requires cfg.Valid() && Pair(cfg, f, k) && f.st == FIN_WAIT && k.st == ESTABLISHED && k.act < cfg.Last()
    ensures !k.rx.gotFin
  {
    ActionOrder(cfg, f.peer, k.act, cfg.Last());
  }

  /** An end that has heard a FIN is at the closing action. */
  lemma FinHeardAtLast(cfg: Script, f: Core, k: Core)
    requires cfg.Valid() && Pair(cfg, f, k) && f.st == FIN_WAIT && k.st == ESTABLISHED && k.rx.gotFin
    ensures k.act == cfg.Last() && !OwnTurn(cfg, k) && !f.rx.gotFin
  {
    if k.act < cfg.Last() {
      NoFinBeforeLast(cfg, f, k);
    }
  }

  /** An end whose FIN has not been heard sends it again, in its second call at the latest. */
  lemma FinAgain(cfg: Script, f: Ctx, t: Core)
    requires cfg.Valid() && Pair(cfg, t, f.core) && f.core.st == FIN_WAIT && t.st == ESTABLISHED && !t.rx.gotFin
    requires Alive(f.book)
    ensures var o := Proc(cfg, f, Tick, READY);
            if f.book.progress then o.pkt == [] && o.ctx.core == f.core && Alive(o.ctx.book) && !o.ctx.book.progress
            else |o.pkt| == 1 && Live(o.ctx.book) && FinInOrder(o.ctx.core, t, o.pkt[0])
  {
    FinUnheard(cfg, f.core, t);
    cfg.TotalInContent(f.core.peer);
    assert Proc(cfg, f, Tick, READY) == OutFinWait(cfg, f.core, f.book.(armed := false), READY);
  }

  lemma FinUnheard(cfg: Script, f: Core, t: Core)
    requires cfg.Valid() && Pair(cfg, t, f) && f.st == FIN_WAIT && t.st == ESTABLISHED && !t.rx.gotFin
    ensures !f.rx.gotFin && f.tx.ackd == f.tx.next - 1 == t.rx.recv && Settles(t.tx, f.rx.recv)
  {
    cfg.TotalInContent(f.peer);
    cfg.TotalInContent(t.peer);
    if t.act < cfg.Last() {
      ActionOrder(cfg, t.peer, t.act, cfg.Last());
      ActionOrder(cfg, f.peer, t.act, cfg.Last());
    }
  }

  /** The FIN of an end in LAST_ACK. */
  function OwnFin(t: Core): Segment {
    FinAck(Sub32(t.tx.next, 1), t.rx.recv)
  }

  /** Where the sending half of an end in LAST_ACK is. */
  lemma LastAckTx(cfg: Script, f: Core, t: Core)
    requires cfg.Valid() && Pair(cfg, f, t) && t.st == LAST_ACK && t.tx.ackd != t.tx.next
    ensures t.tx.ackd + 1 == t.tx.next == t.tx.high < WORD
  {
    cfg.TotalInContent(t.peer);
  }

  /** So does an end that has answered a FIN. */
  lemma AnswerAgain(cfg: Script, f: Core, t: Ctx)
    requires cfg.Valid() && Pair(cfg, f, t.core) && t.core.st == LAST_ACK && t.core.tx.ackd != t.core.tx.next
    requires Alive(t.book)
    ensures var o := Proc(cfg, t, Tick, READY);
            && o.ctx.core == t.core
            && if t.book.progress then o.pkt == [] && Alive(o.ctx.book) && !o.ctx.book.progress
               else Live(o.ctx.book) && o.pkt == [OwnFin(t.core)]
  {
    hide Pair;
    LastAckTx(cfg, f, t.core);
    assert Proc(cfg, t, Tick, READY) == OutLastAck(cfg, t.core, t.book.(armed := false), READY);
  }

  /** The answer, heard once more, is acknowledged. */
  lemma HearsAgain(cfg: Script, f: Ctx, t: Core)
    requires cfg.Valid() && Pair(cfg, t, f.core) && f.core.st == FIN_WAIT && t.st == LAST_ACK
    requires t.tx.ackd != t.tx.next && Alive(f.book)
    ensures var o := Proc(cfg, f, Packet(OwnFin(t)), READY);
            |o.pkt| == 1 && Alive(o.ctx.book) && LastAckFlies(o.ctx.core, t, o.pkt[0])
  {
    var seg := OwnFin(t);
    cfg.TotalInContent(t.peer);
    cfg.TotalInContent(f.core.peer);
    var c1 := ProcIn(cfg, f.(book := f.book.(armed := false)), seg);
    assert c1.core == f.core.(tx := f.core.tx.(ackd := f.core.tx.next),
                              rx := f.core.rx.(recv := t.tx.next, gotFin := true));
    assert Proc(cfg, f, Packet(seg), READY) == OutFinWait(cfg, c1.core, c1.book, READY);
  }

  /** An end in TIME_WAIT acknowledges again. */
  lemma AcksAgain(cfg: Script, f: Ctx, t: Core)
    requires cfg.Valid() && Pair(cfg, t, f.core) && f.core.st == TIME_WAIT && t.st == LAST_ACK
    requires t.tx.ackd != t.tx.next && Alive(f.book)
    ensures var o := Proc(cfg, f, Tick, READY);
            |o.pkt| == 1 && Alive(o.ctx.book) && LastAckFlies(o.ctx.core, t, o.pkt[0])
  {
    cfg.TotalInContent(t.peer);
    cfg.TotalInContent(f.core.peer);
  }

  // ---- from a closing end to the end of the script ----

  ghost predicate Ends(s: Sys, p: Peer, f: State, t: State) {
    && Silent(s) && Alive(s.End(p).book) && Alive(s.End(Other(p)).book)
    && s.End(p).core.st == f && s.End(Other(p)).core.st == t
  }

  /** p in TIME_WAIT. */
  lemma FinishWaiting(cfg: Script, s: Sys, p: Peer)
    requires cfg.Valid() && Inv(cfg, s) && Ends(s, p, TIME_WAIT, LAST_ACK) && Tidy(s.End(Other(p)))
    ensures CanEnd(cfg, s)
  {
    hide CanEnd, Reaches, Apply, Proc, Inv, Pair;
    PairOf(cfg, s, Other(p));
    AcksAgain(cfg, s.End(p), s.End(Other(p)).core);
    TimerAlone(cfg, s, p, READY);
    Then(cfg, s, Timer(p, READY));
    FinishLast(cfg, Apply(cfg, s, Timer(p, READY)), p);
  }

  /** The end in LAST_ACK waits once. */
  lemma AnswerWaits(cfg: Script, s: Sys, p: Peer)
    requires cfg.Valid() && Inv(cfg, s) && Ends(s, p, FIN_WAIT, LAST_ACK) && Tidy(s.End(Other(p)))
    requires s.End(Other(p)).book.progress
    ensures var s1 := Apply(cfg, s, Timer(Other(p), READY));
            Ends(s1, p, FIN_WAIT, LAST_ACK) && Tidy(s1.End(Other(p))) && !s1.End(Other(p)).book.progress
  {
    var q := Other(p);
    PairOf(cfg, s, p);
    AnswerAgain(cfg, s.End(p).core, s.End(q));
    hide Inv, Apply, Proc, Pair;
    TimerAlone(cfg, s, q, READY);
  }

  /** Or sends its FIN. */
  lemma AnswerSent(cfg: Script, s: Sys, p: Peer)
    requires cfg.Valid() && Inv(cfg, s) && Ends(s, p, FIN_WAIT, LAST_ACK) && Tidy(s.End(Other(p)))
    requires !s.End(Other(p)).book.progress
    ensures var s1, t := Apply(cfg, s, Timer(Other(p), READY)), s.End(Other(p)).core;
            && s1.End(p) == s.End(p) && s1.End(Other(p)).core == t && Live(s1.End(Other(p)).book)
            && s1.From(Other(p)) == [OwnFin(t)] && s1.From(p) == []
  {
    var q := Other(p);
    PairOf(cfg, s, p);
    hide Inv, Apply, Proc, Pair, OwnFin;
    AnswerAgain(cfg, s.End(p).core, s.End(q));
    TimerAlone(cfg, s, q, READY);
  }

  /** And that is acknowledged. */
  lemma AnswerHeard(cfg: Script, s: Sys, p: Peer)
    requires cfg.Valid() && Inv(cfg, s) && Ends(s, p, FIN_WAIT, LAST_ACK) && Tidy(s.End(Other(p)))
    requires !s.End(Other(p)).book.progress
    ensures var s1 := Apply(cfg, s, Timer(Other(p), READY));
            ClosingLast(Apply(cfg, s1, Deliver(Other(p), READY)), p)
  {
    var q := Other(p);
    var s1 := Apply(cfg, s, Timer(q, READY));
    AnswerSent(cfg, s, p);
    PairOf(cfg, s, q);
    HearsAgain(cfg, s.End(p), s.End(q).core);
    hide Inv, Apply, Proc, Pair, Tidy, LastAckFlies, OwnFin;
    DeliverIs(cfg, s1, q, READY);
  }

  /** p in FIN_WAIT, the other end in LAST_ACK, which sends its FIN once more. */
  lemma {:induction false} FinishAnswered(cfg: Script, s: Sys, p: Peer)
    requires cfg.Valid() && Inv(cfg, s) && Ends(s, p, FIN_WAIT, LAST_ACK) && Tidy(s.End(Other(p)))
    ensures CanEnd(cfg, s)
    decreases s.End(Other(p)).book.progress
  {
    hide CanEnd, Reaches, Inv, Apply, Tidy, Ends, ClosingLast;
    var q := Other(p);
    var s1 := Apply(cfg, s, Timer(q, READY));
    Then(cfg, s, Timer(q, READY));
    if s.End(q).book.progress {
      AnswerWaits(cfg, s, p);
      FinishAnswered(cfg, s1, p);
    } else {
      AnswerHeard(cfg, s, p);
      Then(cfg, s1, Deliver(q, READY));
      FinishLast(cfg, Apply(cfg, s1, Deliver(q, READY)), p);
    }
  }

  /** p in FIN_WAIT, the other end established, and it has heard the FIN. */
  lemma FinishHeard(cfg: Script, s: Sys, p: Peer)
    requires cfg.Valid() && Inv(cfg, s) && Silent(s) && Live(s.End(p).book) && s.End(p).core.st == FIN_WAIT
    requires var t := s.End(Other(p)); Alive(t.book) && t.core.st == ESTABLISHED && t.core.rx.gotFin
    ensures CanEnd(cfg, s)
  {
    hide CanEnd, Reaches, Inv, Apply, Proc, Pair;
    var q := Other(p);
    PairOf(cfg, s, p);
    AnswersFin(cfg, s.End(p).core, s.End(q));
    TimerAlone(cfg, s, q, READY);
    Then(cfg, s, Timer(q, READY));
    FinishBoth(cfg, Apply(cfg, s, Timer(q, READY)), q);
  }

  /** p in FIN_WAIT, the other end established: it has heard the FIN, or hears it once more. */
  lemma {:induction false} FinishClosing(cfg: Script, s: Sys, p: Peer)
    requires cfg.Valid() && Inv(cfg, s) && Ends(s, p, FIN_WAIT, ESTABLISHED)
    ensures CanEnd(cfg, s)
    decreases s.End(p).book.progress
  {
    hide CanEnd, Reaches, Inv, Apply, Proc, Pair;
    if s.End(Other(p)).core.rx.gotFin {
      FinishHeard(cfg, s, p);
    } else {
      PairOf(cfg, s, Other(p));
      FinAgain(cfg, s.End(p), s.End(Other(p)).core);
      TimerAlone(cfg, s, p, READY);
      Then(cfg, s, Timer(p, READY));
      if s.End(p).book.progress {
        FinishClosing(cfg, Apply(cfg, s, Timer(p, READY)), p);
      } else {
        FinishOne(cfg, Apply(cfg, s, Timer(p, READY)), p);
      }
    }
  }

  // ---- the handshake is not over ----

  /** A server that has not heard that the client is connected has heard nothing but its SYN. */
  lemma ServerWaits(cfg: Script, x: Core, y: Core)
    requires cfg.Valid() && Pair(cfg, x, y) && y.st == SYN_RECEIVED && y.tx.ackd == 200
    ensures y == SynReceived()
    ensures x.peer == Client && x.act == 0 && x.tx.ackd <= 100 && x.rx.recv <= 201
  {
    NothingHappened(cfg, x, y);
  }

  lemma ClientWaits(cfg: Script, x: Core, y: Core)
    requires cfg.Valid() && Pair(cfg, x, y) && x.st == SYN_SENT && y.st != LISTEN
    ensures y == SynReceived()
    ensures x.tx == Tx(100, x.tx.ackd, 0, 100, 100) && x.act == 0 && !x.rx.gotFin
    ensures x.rx.gotSyn ==> x == ClientReady().(st := SYN_SENT)
  {
    assert y.tx.ackd < 201;
    ServerWaits(cfg, x, y);
  }

  /** The SYN and ACK are sent again, and heard. */
  lemma SendsSynAck(cfg: Script, t: Ctx)
    requires t.core == SynReceived() && Alive(t.book)
    ensures var o := Proc(cfg, t, Tick, READY);
            o.ctx.core == SynReceived() && Live(o.ctx.book) && o.pkt == [SYNACK_SEGMENT]
  {
    assert Proc(cfg, t, Tick, READY) == OutSynReceived(cfg, t.core, t.book.(armed := false), READY);
  }

  lemma HearsSynAck(cfg: Script, c: Ctx)
    requires c.core.peer == Client && c.core.st == SYN_SENT && c.core.tx == Tx(100, c.core.tx.ackd, 0, 100, 100)
    requires c.core.tx.ackd < 100 && c.core.act == 0 && !c.core.rx.gotFin && c.core.rx.accepted == [] && Live(c.book)
    ensures var o := Proc(cfg, c, Packet(SYNACK_SEGMENT), BLOCKED);
            o.ctx.core == ClientReady().(st := SYN_SENT) && Alive(o.ctx.book) && o.pkt == []
  {
    var c1 := ProcIn(cfg, c.(book := c.book.(armed := false)), SYNACK_SEGMENT);
    assert c1.core == ClientReady().(st := SYN_SENT);
  }

  /** A client that has heard them is connected. */
  lemma Connects(cfg: Script, c: Ctx)
    requires c.core == ClientReady().(st := SYN_SENT) && Alive(c.book)
    ensures var o := Proc(cfg, c, Tick, READY);
            o.ctx.core == ClientReady() && Alive(o.ctx.book) && |o.pkt| <= 1
  {
    assert Proc(cfg, c, Tick, READY) == OutSynSent(cfg, c.core, c.book.(armed := false), READY);
  }

  /** The client is connected, or has closed, and the server has heard nothing of it. */
  ghost predicate HalfOpen(s: Sys) {
    && Silent(s) && s.server.core == SynReceived() && Live(s.server.book) && Alive(s.client.book)
    && (s.client.core.st == ESTABLISHED || s.client.core.st == FIN_WAIT)
  }

  /** The server speaks first, and is told that the client is connected. */
  lemma HearsConnected(cfg: Script, t: Ctx)
    requires t.core == SynReceived() && Live(t.book) && cfg.ActionAt(0).peer == Server
    ensures var o := Proc(cfg, t, Packet(PureAck(100, 201)), READY);
            o.ctx.core == ServerReady() && Alive(o.ctx.book) && o.pkt == []
  {
    var c1 := ProcIn(cfg, t.(book := t.book.(armed := false)), PureAck(100, 201));
    assert c1.core == ServerReady().(st := SYN_RECEIVED);
    assert Proc(cfg, t, Packet(PureAck(100, 201)), READY) == OutSynReceived(cfg, c1.core, c1.book, READY);
  }

  /** A client with no data closes, and the server hears that first. */
  lemma HearsFinFirst(cfg: Script, t: Ctx)
    requires t.core == SynReceived() && Live(t.book) && cfg.ActionAt(0).peer == Client
    ensures var o := Proc(cfg, t, Packet(FinAck(100, 201)), READY);
            o.ctx.core == ServerFinished() && Alive(o.ctx.book) && |o.pkt| == 1
  {
    var c1 := ProcIn(cfg, t.(book := t.book.(armed := false)), FinAck(100, 201));
    assert c1.core == ServerFinished().(st := SYN_RECEIVED);
    assert Proc(cfg, t, Packet(FinAck(100, 201)), READY) == OutSynReceived(cfg, c1.core, c1.book, READY);
  }

  /** The client's FIN is on its way to a server that has heard nothing. */
  ghost predicate FinFlies(cfg: Script, s: Sys) {
    && s.toServer == [FinAck(100, 201)] && s.toClient == [] && s.client.core.st == FIN_WAIT && Live(s.client.book)
    && s.server.core == SynReceived() && Live(s.server.book) && cfg.ActionAt(0).peer == Client
  }

  lemma FinishFinFlies(cfg: Script, s: Sys)
    requires cfg.Valid() && Inv(cfg, s) && FinFlies(cfg, s)
    ensures CanEnd(cfg, s)
  {
    hide CanEnd, Reaches, Inv, Apply, Proc;
    var s1 := Apply(cfg, s, Deliver(Client, READY));
    HearsFinFirst(cfg, s.server);
    DeliverIs(cfg, s, Client, READY);
    Then(cfg, s, Deliver(Client, READY));
    LoseFrom(cfg, s1, Server);
    FinishHeard(cfg, s1.WithFrom(Server, []), Client);
  }

  /** A client that has closed at once sends its FIN again, in its second call at the latest. */
  lemma FinFirstAgain(cfg: Script, f: Ctx, t: Core)
    requires cfg.Valid() && Pair(cfg, f.core, t) && f.core.st == FIN_WAIT && t == SynReceived() && Alive(f.book)
    ensures cfg.ActionAt(0).peer == Client
    ensures var o := Proc(cfg, f, Tick, READY);
            && o.ctx.core.st == FIN_WAIT
            && if f.book.progress then o.pkt == [] && Alive(o.ctx.book) && !o.ctx.book.progress
               else Live(o.ctx.book) && o.pkt == [FinAck(100, 201)]
  {
    ServerWaits(cfg, f.core, t);
    assert Proc(cfg, f, Tick, READY) == OutFinWait(cfg, f.core, f.book.(armed := false), READY);
  }

  lemma {:induction false} FinishClosedAtOnce(cfg: Script, s: Sys)
    requires cfg.Valid() && Inv(cfg, s) && HalfOpen(s) && s.client.core.st == FIN_WAIT
    ensures CanEnd(cfg, s)
    decreases s.client.book.progress
  {
    hide CanEnd, Reaches, Inv, Apply, Proc, Pair;
    PairOf(cfg, s, Client);
    FinFirstAgain(cfg, s.client, s.server.core);
    TimerAlone(cfg, s, Client, READY);
    Then(cfg, s, Timer(Client, READY));
    if s.client.book.progress {
      FinishClosedAtOnce(cfg, Apply(cfg, s, Timer(Client, READY)));
    } else {
      FinishFinFlies(cfg, Apply(cfg, s, Timer(Client, READY)));
    }
  }

  /** What a connected client is while the server waits. */
  lemma HalfOpenClient(cfg: Script, x: Core, y: Core)
    requires cfg.Valid() && Pair(cfg, x, y) && x.st == ESTABLISHED && y == SynReceived()
    ensures x.peer == Client && x.act == 0 && x.tx.ackd == 100 && x.rx.recv == 201 && !x.rx.gotFin
    ensures !OwnTurn(cfg, x) ==> AckSegment(x) == PureAck(100, 201) && x.tx.next <= x.tx.high
    ensures OwnTurn(cfg, x) && cfg.Last() == 0 ==> FinSegment(x) == FinAck(100, 201)
  {
    ServerWaits(cfg, x, y);
  }

  /** The client has nothing to say yet. */
  lemma FinishServerFirst(cfg: Script, s: Sys)
    requires cfg.Valid() && Inv(cfg, s) && HalfOpen(s) && s.client.core.st == ESTABLISHED
    requires cfg.ActionAt(0).peer == Server
    ensures CanEnd(cfg, s)
  {
    hide CanEnd, Reaches, Apply, Proc, Inv, Pair;
    var s1 := Apply(cfg, s, Timer(Client, READY));
    PairOf(cfg, s, Client);
    HalfOpenClient(cfg, s.client.core, s.server.core);
    Tells(cfg, s.client);
    TimerAlone(cfg, s, Client, READY);
    Then(cfg, s, Timer(Client, READY));
    HearsConnected(cfg, s.server);
    DeliverIs(cfg, s1, Client, READY);
    Then(cfg, s1, Deliver(Client, READY));
    FinishReady(cfg, Apply(cfg, s1, Deliver(Client, READY)), Server);
  }

  lemma SpokeFirst(cfg: Script, s0: Sys, s: Sys)
    requires cfg.Valid() && Inv(cfg, s0) && HalfOpen(s0) && s0.client.core.st == ESTABLISHED
    requires Spoke(cfg, s0, s, Client) && 0 < cfg.Last()
    ensures FirstInOrder(cfg, s.client.core, s.toServer[0])
  {
    HalfOpenClient(cfg, s0.client.core, s0.server.core);
  }

  /** The client has data. */
  lemma FinishClientFirst(cfg: Script, s: Sys)
    requires cfg.Valid() && Inv(cfg, s) && HalfOpen(s) && s.client.core.st == ESTABLISHED
    requires cfg.ActionAt(0).peer == Client && 0 < cfg.Last()
    ensures CanEnd(cfg, s)
  {
    hide CanEnd, Reaches, Apply, Inv, Pair, Next, FirstInOrder, Playing, ToSpeak;
    PairOf(cfg, s, Client);
    HalfOpenClient(cfg, s.client.core, s.server.core);
    var t := GetSegment(cfg, s, Client);
    SpokeFirst(cfg, s, t);
    FirstAnswered(cfg, t);
    var t1 := Apply(cfg, t, Deliver(Client, READY));
    Then(cfg, t, Deliver(Client, READY));
    if ToSpeak(cfg, t1, Server) {
      FinishSpeaking(cfg, t1, Server);
    } else {
      FinishPlaying(cfg, t1, Server);
    }
    Onward(cfg, s, t);
  }

  /** The client closes at once. */
  lemma FinishEmpty(cfg: Script, s: Sys)
    requires cfg.Valid() && Inv(cfg, s) && HalfOpen(s) && s.client.core.st == ESTABLISHED
    requires cfg.ActionAt(0).peer == Client && 0 == cfg.Last()
    ensures CanEnd(cfg, s)
  {
    hide CanEnd, Reaches, Apply, Inv, Pair, ProcOut;
    PairOf(cfg, s, Client);
    PairOf(cfg, s, Server);
    HalfOpenClient(cfg, s.client.core, s.server.core);
    SpeaksFin(cfg, s.server.core, s.client.core, s.client.book.(armed := false));
    assert Proc(cfg, s.client, Tick, READY) == ProcOut(cfg, Ctx(s.client.core, s.client.book.(armed := false)), READY);
    TimerAlone(cfg, s, Client, READY);
    Then(cfg, s, Timer(Client, READY));
    FinishFinFlies(cfg, Apply(cfg, s, Timer(Client, READY)));
  }

  lemma FinishHalfOpen(cfg: Script, s: Sys)
    requires cfg.Valid() && Inv(cfg, s) && HalfOpen(s)
    ensures CanEnd(cfg, s)
  {
    hide CanEnd, Inv;
    if s.client.core.st == FIN_WAIT {
      FinishClosedAtOnce(cfg, s);
    } else if cfg.ActionAt(0).peer == Server {
      FinishServerFirst(cfg, s);
    } else if 0 < cfg.Last() {
      FinishClientFirst(cfg, s);
    } else {
      FinishEmpty(cfg, s);
    }
  }

  /** Only the client's SYN has been heard. */
  ghost predicate Calling(s: Sys) {
    Silent(s) && s.client.core.st == SYN_SENT && !Gone(s.server) && Alive(s.client.book) && Live(s.server.book)
  }

  lemma FinishConnecting(cfg: Script, s: Sys)
    requires cfg.Valid() && Inv(cfg, s) && Calling(s) && s.client.core.rx.gotSyn
    ensures CanEnd(cfg, s)
  {
    hide CanEnd, Reaches, Apply, Proc;
    var s1 := Apply(cfg, s, Timer(Client, READY));
    ClientWaits(cfg, s.client.core, s.server.core);
    Connects(cfg, s.client);
    TimerAlone(cfg, s, Client, READY);
    Then(cfg, s, Timer(Client, READY));
    LoseFrom(cfg, s1, Client);
    FinishHalfOpen(cfg, s1.WithFrom(Client, []));
  }

  lemma FinishCalling(cfg: Script, s: Sys)
    requires cfg.Valid() && Inv(cfg, s) && Calling(s) && Alive(s.server.book)
    ensures CanEnd(cfg, s)
  {
    if s.client.core.rx.gotSyn {
      FinishConnecting(cfg, s);
    } else {
      FinishUnheard(cfg, s);
    }
  }

  /** The client has not heard the SYN and ACK. */
  lemma FinishUnheard(cfg: Script, s: Sys)
    requires cfg.Valid() && Inv(cfg, s) && Calling(s) && Alive(s.server.book) && !s.client.core.rx.gotSyn
    ensures CanEnd(cfg, s)
  {
    hide CanEnd, Reaches, Apply, Proc;
    var s1 := Apply(cfg, s, Timer(Server, READY));
    ClientWaits(cfg, s.client.core, s.server.core);
    SendsSynAck(cfg, s.server);
    TimerAlone(cfg, s, Server, READY);
    Then(cfg, s, Timer(Server, READY));
    HearsSynAck(cfg, s.client);
    DeliverIs(cfg, s1, Server, BLOCKED);
    Then(cfg, s1, Deliver(Server, BLOCKED));
    FinishConnecting(cfg, Apply(cfg, s1, Deliver(Server, BLOCKED)));
  }

  // ---- there is no server ----

  /** No server has answered the client, and there is none, or none any more. */
  ghost predicate Dialing(s: Sys) {
    Gone(s.server) && !Gone(s.client) && Alive(s.client.book) && !s.client.core.rx.gotSyn
  }

  /** The client sends its SYN, for the first time or again. */
  lemma Dials(cfg: Script, x: Ctx, y: Core)
    requires cfg.Valid() && Pair(cfg, x.core, y) && x.core.peer == Client && !x.core.rx.gotSyn && Alive(x.book)
    ensures var o := Proc(cfg, x, Tick, READY);
            && o.ctx.core == Core(Client, SYN_SENT, 0, Tx(100, 99, 0, 100, 100), x.core.rx)
            && Live(o.ctx.book) && o.pkt == [SYN_SEGMENT]
  {
    assert x.core.st == CLOSED || x.core.st == SYN_SENT;
  }

  /** A new server answers it. */
  lemma NewServerAnswers(cfg: Script, s: Sys)
    requires cfg.Valid() && Inv(cfg, s) && Gone(s.server) && s.toServer == [SYN_SEGMENT] && s.toClient == []
    requires s.client.core.st == SYN_SENT
    ensures var s1 := Apply(cfg, s, Deliver(Client, READY));
            && s1.client == s.client && s1.server.core == SynReceived() && Live(s1.server.book)
            && s1.toServer == [] && s1.toClient == [SYNACK_SEGMENT]
  {
    hide Proc;
    NothingHappened(cfg, s.client.core, s.server.core);
    NewServerIs(cfg, s.server, SYN_SEGMENT, READY);
    NewServerWaits(cfg, s.server);
    assert READY == READY.(full := true);
  }

  lemma NewServerWaits(cfg: Script, y: Ctx)
    ensures Accepted(cfg, y, SYN_SEGMENT, READY).ctx.book.armed
  {
    assert CoreIn(cfg, NewServer(y).core, SYN_SEGMENT).st == LISTEN;
  }

  lemma FinishDialing(cfg: Script, s: Sys)
    requires cfg.Valid() && Inv(cfg, s) && Silent(s) && Dialing(s)
    ensures CanEnd(cfg, s)
  {
    hide CanEnd, Reaches, Apply, Proc, Inv, Pair;
    var s1 := Apply(cfg, s, Timer(Client, READY));
    var s2 := Apply(cfg, s1, Deliver(Client, READY));
    PairOf(cfg, s, Client);
    Dials(cfg, s.client, s.server.core);
    Unheard(cfg, s.client.core, s.server.core);
    TimerAlone(cfg, s, Client, READY);
    Then(cfg, s, Timer(Client, READY));
    NewServerAnswers(cfg, s1);
    Then(cfg, s1, Deliver(Client, READY));
    HearsSynAck(cfg, s2.client);
    DeliverIs(cfg, s2, Server, BLOCKED);
    Then(cfg, s2, Deliver(Server, BLOCKED));
    FinishConnecting(cfg, Apply(cfg, s2, Deliver(Server, BLOCKED)));
  }

  lemma Unheard(cfg: Script, x: Core, y: Core)
    requires cfg.Valid() && Pair(cfg, x, y) && x.peer == Client && !x.rx.gotSyn
    ensures !x.rx.gotFin && x.rx.accepted == []
  {}

  // ---- the server has moved on ----

  /** A server that has heard that the client is connected is so too. */
  lemma ServerGoesOn(cfg: Script, t: Ctx)
    requires t.core.st == SYN_RECEIVED && t.core.tx.ackd == t.core.tx.next && Alive(t.book)
    ensures var o := Proc(cfg, t, Tick, READY);
            o.ctx.core.st == ESTABLISHED && Alive(o.ctx.book) && |o.pkt| <= 1
  {
    assert Proc(cfg, t, Tick, READY) == OutSynReceived(cfg, t.core, t.book.(armed := false), READY);
  }

  // ---- from anywhere ----

  /** A FIN heard was sent. */
  lemma FinWasSent(cfg: Script, x: Core, y: Core)
    requires cfg.Valid() && Pair(cfg, x, y) && x.rx.gotFin
    ensures Closing(y)
  {
    hide RecvAt;
    if !Closing(y) {
      NoFinSent(cfg, y);
    }
  }

  /** Of two closing ends one is in LAST_ACK. */
  lemma OneAnswers(cfg: Script, x: Core, y: Core)
    requires cfg.Valid() && Pair(cfg, x, y) && Closing(x) && Closing(y)
    ensures x.st == LAST_ACK <==> y.st != LAST_ACK
  {}

  /** An end has heard a FIN only from one that is closing, and that is closing the other way. */
  lemma ClosingPairs(cfg: Script, x: Core, y: Core)
    requires cfg.Valid() && Pair(cfg, x, y)
    ensures x.rx.gotFin ==> Closing(y)
    ensures Closing(x) && Closing(y) ==> (x.st == LAST_ACK <==> y.st != LAST_ACK)
  {
    hide Pair, Closing;
    if x.rx.gotFin {
      FinWasSent(cfg, x, y);
    }
    if Closing(x) && Closing(y) {
      OneAnswers(cfg, x, y);
    }
  }

  /** The states two ends can be in together. */
  lemma StatesTogether(cfg: Script, x: Core, y: Core)
    requires cfg.Valid() && Pair(cfg, x, y) && x.peer == Client && y.st != LISTEN
    ensures x.st == SYN_SENT || x.st == ESTABLISHED || Closing(x)
    ensures y.st == SYN_RECEIVED || y.st == ESTABLISHED || Closing(y)
    ensures x.st == SYN_SENT || y.st == SYN_RECEIVED ==>
              !Closing(y) && (x.st == SYN_SENT || x.st == ESTABLISHED || x.st == FIN_WAIT)
    ensures x.st == SYN_SENT ==> y.st == SYN_RECEIVED && y.tx.ackd == 200
    ensures y.st == SYN_RECEIVED ==> y.tx.next == 201 && (y.tx.ackd == 200 ==> y == SynReceived())
    ensures x.st == ESTABLISHED && Closing(y) ==> y.st == FIN_WAIT
    ensures y.st == ESTABLISHED && Closing(x) ==> x.st == FIN_WAIT
    ensures Closing(x) && Closing(y) ==> (x.st == LAST_ACK <==> y.st != LAST_ACK)
  {
    ClosingPairs(cfg, x, y);
    ClosingPairs(cfg, y, x);
    if x.st == SYN_SENT {
      ClientWaits(cfg, x, y);
    } else if y.st == SYN_RECEIVED && y.tx.ackd == 200 {
      ServerWaits(cfg, x, y);
    }
  }

  /** Neither end is gone, nor at the limit. */
  ghost predicate Willing(s: Sys) {
    !Gone(s.client) && !Gone(s.server) && Alive(s.client.book) && Alive(s.server.book)
  }

  /** Both ends have got through the handshake. */
  lemma FinishConnected(cfg: Script, s: Sys)
    requires cfg.Valid() && Inv(cfg, s) && Silent(s) && Willing(s) && Tidy(s.client) && Tidy(s.server)
    requires Open(s.client.core) && Open(s.server.core)
    ensures CanEnd(cfg, s)
  {
    hide CanEnd, Inv, Pair, Tidy;
    PairOf(cfg, s, Client);
    StatesTogether(cfg, s.client.core, s.server.core);
    if s.client.core.st == ESTABLISHED && s.server.core.st == ESTABLISHED {
      FinishOpen(cfg, s);
    } else {
      var p := if s.server.core.st == ESTABLISHED || s.server.core.st == LAST_ACK then Client else Server;
      if s.End(Other(p)).core.st == ESTABLISHED {
        FinishClosing(cfg, s, p);
      } else if s.End(p).core.st == FIN_WAIT {
        FinishAnswered(cfg, s, p);
      } else {
        FinishWaiting(cfg, s, p);
      }
    }
  }

  /** The server has heard that the client is connected, and has not moved on. */
  lemma FinishServerHeard(cfg: Script, s: Sys)
    requires cfg.Valid() && Inv(cfg, s) && Silent(s) && Willing(s) && Tidy(s.client)
    requires s.server.core.st == SYN_RECEIVED && s.server.core.tx.ackd == 201
    ensures CanEnd(cfg, s)
  {
    hide CanEnd, Reaches, Apply, Proc;
    var s1 := Apply(cfg, s, Timer(Server, READY));
    StatesTogether(cfg, s.client.core, s.server.core);
    ServerGoesOn(cfg, s.server);
    TimerAlone(cfg, s, Server, READY);
    Then(cfg, s, Timer(Server, READY));
    LoseFrom(cfg, s1, Server);
    FinishConnected(cfg, s1.WithFrom(Server, []));
  }

  lemma FinishSilent(cfg: Script, s: Sys)
    requires cfg.Valid() && Inv(cfg, s) && Silent(s) && Willing(s) && Tidy(s.client) && Tidy(s.server)
    ensures CanEnd(cfg, s)
  {
    hide CanEnd, Tidy;
    StatesTogether(cfg, s.client.core, s.server.core);
    if s.client.core.st == SYN_SENT {
      FinishCalling(cfg, s);
    } else if s.server.core.st != SYN_RECEIVED {
      FinishConnected(cfg, s);
    } else if s.server.core.tx.ackd == 200 {
      FinishHalfOpen(cfg, s);
    } else {
      FinishServerHeard(cfg, s);
    }
  }

  /** Nothing can have been heard from a server that no packet has created. */
  lemma NoServerYet(cfg: Script, x: Core, y: Core)
    requires cfg.Valid() && Pair(cfg, x, y) && x.peer == Client && y.st == LISTEN
    ensures !x.rx.gotSyn
  {}

  /** The client is there, below the limit; so is the server, or the client has not heard of any. */
  ghost predicate Hopeful(s: Sys) {
    && !Gone(s.client) && s.client.book.same < MAX_SAME_STATE
    && (s.server.core.st == LISTEN || if Gone(s.server) then !s.client.core.rx.gotSyn
                                      else s.server.book.same < MAX_SAME_STATE)
  }

  /** Whatever is on its way may be lost. */
  lemma FinishAnyhow(cfg: Script, s: Sys)
    requires cfg.Valid() && Inv(cfg, s) && Hopeful(s) && Tidy(s.client) && Tidy(s.server) && s.client.book.armed
    requires !Gone(s.server) ==> s.server.book.armed
    ensures CanEnd(cfg, s)
  {
    hide CanEnd, Reaches, Inv, Tidy, Pair;
    LoseFrom(cfg, s, Client);
    var s1 := s.WithFrom(Client, []);
    LoseFrom(cfg, s1, Server);
    var s2 := s1.WithFrom(Server, []);
    if Gone(s.server) {
      PairOf(cfg, s, Client);
      if s.server.core.st == LISTEN {
        NoServerYet(cfg, s.client.core, s.server.core);
      }
      FinishDialing(cfg, s2);
    } else {
      FinishSilent(cfg, s2);
    }
  }

  /** The main result: from every state of every run in which the client is there and below the limit of
      retransmissions, and so is the server, or the client has not heard of any server yet, the run can go on so that
      both ends end after closing, and each has accepted exactly what the script has the other say. */
  lemma CanComplete(cfg: Script, states: seq<Sys>, steps: seq<Step>) returns (states': seq<Sys>, steps': seq<Step>)
    requires cfg.Valid() && IsRun(cfg, states, steps) && Hopeful(Final(states))
    ensures IsRun(cfg, states', steps') && steps <= steps' && states <= states' && Complete(Final(states'))
    ensures Final(states').client.core.rx.accepted == cfg.Scripted(Server)
    ensures Final(states').server.core.rx.accepted == cfg.Scripted(Client)
  {
    hide Inv, Tidy, Apply;
    var n := |steps|;
    RunOk(cfg, states, steps, n);
    NeverForgotten(cfg, states, steps, n, Client);
    NeverForgotten(cfg, states, steps, n, Server);
    RunTidy(cfg, states, steps, n, Client);
    RunTidy(cfg, states, steps, n, Server);
    FinishAnyhow(cfg, Final(states));
    var end :| Reaches(cfg, Final(states), end) && Complete(end);
    var more :| After(cfg, Final(states), more) == end;
    steps' := steps + more;
    states' := GoOn(cfg, states, steps, more);
    SafeClose(cfg, states', steps', |steps'|);
  }

  /** Every valid script has a run to its end. */
  lemma EveryScriptCompletes(cfg: Script) returns (states: seq<Sys>, steps: seq<Step>)
    requires cfg.Valid()
    ensures IsRun(cfg, states, steps) && Complete(Final(states))
    ensures Final(states).client.core.rx.accepted == cfg.Scripted(Server)
    ensures Final(states).server.core.rx.accepted == cfg.Scripted(Client)
  {
    states, steps := CanComplete(cfg, [Init()], []);
  }
}
