/** Every run of two scripted TCP ends keeps the invariant: whatever timer goes off, whatever packet is delivered, to
    an end that is there or to one that is gone, and whatever is lost. */
module TcpRuns {
  import opened TcpScript
  import opened TcpStream
  import opened TcpSystem
  import opened TcpInvariant
  import opened TcpReceive
  import opened TcpTransmit

  ghost predicate Inv(cfg: Script, s: Sys) {
    && s.client.core.peer == Client
    && s.server.core.peer == Server
    && Pair(cfg, s.client.core, s.server.core)
    && ChannelOk(cfg, s.client.core, s.server.core, s.toServer)
    && ChannelOk(cfg, s.server.core, s.client.core, s.toClient)
  }

  /** Both channels after y has transmitted. */
  lemma ChannelsAfter(cfg: Script, x: Core, y: Core, o: Out, xy: seq<Segment>, yx: seq<Segment>)
    requires OutOk(cfg, x, y, o)
    requires ChannelOk(cfg, x, y, xy) && ChannelOk(cfg, y, x, yx)
    ensures ChannelOk(cfg, x, o.ctx.core, xy)
    ensures ChannelOk(cfg, o.ctx.core, x, yx + o.pkt)
  {
    var y' := o.ctx.core;
    forall k | 0 <= k < |yx|
      ensures SegOk(cfg, y', yx[k])
    {
      SegOkGrows(cfg, y, y', yx[k]);
    }
  }

  /** The rest of the channel after its oldest packet is gone, or any packet is lost. */
  lemma ChannelMinus(cfg: Script, x: Core, y: Core, ch: seq<Segment>, i: nat)
    requires ChannelOk(cfg, x, y, ch) && i < |ch|
    ensures ChannelOk(cfg, x, y, ch[..i] + ch[i + 1..])
  {
    var ch' := ch[..i] + ch[i + 1..];
    assert forall k :: 0 <= k < |ch'| ==> ch'[k] == ch[if k < i then k else k + 1];
  }

  /** The end that receives moved on without touching what a pending SYN depends on, and the peer's view follows. */
  lemma ChannelsAfterIn(cfg: Script, x: Core, y: Core, y': Core, xy: seq<Segment>, yx: seq<Segment>)
    requires Grows(y, y') && (forall k :: 0 <= k < |xy| && xy[k].syn ==> SynPending(y'))
    requires ChannelOk(cfg, x, y, xy) && ChannelOk(cfg, y, x, yx)
    ensures ChannelOk(cfg, x, y', xy) && ChannelOk(cfg, y', x, yx)
  {
    forall k | 0 <= k < |yx|
      ensures SegOk(cfg, y', yx[k])
    {
      SegOkGrows(cfg, y, y', yx[k]);
    }
  }

  /** A packet from x is read by y. */
  lemma ReadOk(cfg: Script, x: Core, y: Core, xy: seq<Segment>, yx: seq<Segment>)
    requires cfg.Valid() && Pair(cfg, x, y) && y.st != LISTEN && xy != [] && !xy[0].rst
    requires ChannelOk(cfg, x, y, xy) && ChannelOk(cfg, y, x, yx)
    ensures var y1 := CoreIn(cfg, y, xy[0]);
            Pair(cfg, x, y1) && Grows(y, y1) && ChannelOk(cfg, x, y1, xy[1..]) && ChannelOk(cfg, y1, x, yx)
  {
    hide CoreIn, Pair, Grows;
    ChannelMinus(cfg, x, y, xy, 0);
    assert xy[..0] + xy[1..] == xy[1..];
    if xy[0].syn {
      SynIn(cfg, x, y, xy[0]);
    } else {
      NonSynIn(cfg, x, y, xy[0]);
    }
    ChannelsAfterIn(cfg, x, y, CoreIn(cfg, y, xy[0]), xy[1..], yx);
  }

  /** A packet from x is handled by y. */
  lemma HandledOk(cfg: Script, x: Core, c: Ctx, e: Env, xy: seq<Segment>, yx: seq<Segment>)
    requires cfg.Valid() && Pair(cfg, x, c.core) && c.core.st != LISTEN && xy != [] && !xy[0].rst
    requires ChannelOk(cfg, x, c.core, xy) && ChannelOk(cfg, c.core, x, yx)
    ensures var o := Proc(cfg, c, Packet(xy[0]), e);
            Pair(cfg, x, o.ctx.core) && o.ctx.core.peer == c.core.peer
            && ChannelOk(cfg, x, o.ctx.core, xy[1..]) && ChannelOk(cfg, o.ctx.core, x, yx + o.pkt)
  {
    ReadOk(cfg, x, c.core, xy, yx);
    var c1 := ProcIn(cfg, c.(book := c.book.(armed := false)), xy[0]);
    var y1 := CoreIn(cfg, c.core, xy[0]);
    assert c1.core == y1;
    ProcOutOk(cfg, x, c1, e);
    ChannelsAfter(cfg, x, y1, ProcOut(cfg, c1, e), xy[1..], yx);
  }

  /** A RST from x ends y and changes nothing else. */
  lemma RstOk(cfg: Script, x: Core, c: Ctx, e: Env, xy: seq<Segment>, yx: seq<Segment>)
    requires xy != [] && xy[0].rst && ChannelOk(cfg, x, c.core, xy)
    ensures var o := Proc(cfg, c, Packet(xy[0]), e);
            o.ctx.core == c.core && yx + o.pkt == yx && ChannelOk(cfg, x, c.core, xy[1..])
  {
    ChannelMinus(cfg, x, c.core, xy, 0);
    assert xy[..0] + xy[1..] == xy[1..];
    assert FlagsIn(c.core, xy[0]) == c.core;
  }

  lemma TimerOk(cfg: Script, x: Core, c: Ctx, e: Env, xy: seq<Segment>, yx: seq<Segment>)
    requires cfg.Valid() && Pair(cfg, x, c.core) && c.core.st != LISTEN
    requires ChannelOk(cfg, x, c.core, xy) && ChannelOk(cfg, c.core, x, yx)
    ensures var o := Proc(cfg, c, Tick, e);
            Pair(cfg, x, o.ctx.core) && o.ctx.core.peer == c.core.peer
            && ChannelOk(cfg, x, o.ctx.core, xy) && ChannelOk(cfg, o.ctx.core, x, yx + o.pkt)
  {
    var c0 := c.(book := c.book.(armed := false));
    ProcOutOk(cfg, x, c0, e);
    ChannelsAfter(cfg, x, c.core, ProcOut(cfg, c0, e), xy, yx);
  }

  /** A RST can be added to any channel. */
  lemma ChannelPlusRst(cfg: Script, x: Core, y: Core, ch: seq<Segment>, seg: Segment)
    requires ChannelOk(cfg, x, y, ch) && seg.rst && !seg.syn && !seg.fin
    ensures ChannelOk(cfg, x, y, ch + [seg])
  {
  }

  /** While the client's SYN is on its way, neither end has got anywhere. */
  lemma NothingHappened(cfg: Script, x: Core, y: Core)
    requires cfg.Valid() && Pair(cfg, x, y) && x.peer == Client && Synced(x) && SynPending(y)
    ensures !Open(y) && y.st != CLOSED && y.st != SYN_SENT && y.tx.high <= 201
    ensures x.act == 0 && x.tx.ackd <= 100 && x.rx.recv <= 201
  {
    cfg.ActionsMoveBytes(x.act);
  }

  /** What a new server side makes of its first packet. */
  function Accepted(cfg: Script, y: Ctx, seg: Segment, e: Env): Out {
    Proc(cfg, NewServer(y), Packet(seg), e.(full := true))
  }

  lemma NewServerIs(cfg: Script, y: Ctx, seg: Segment, e: Env)
    requires seg.syn && !seg.rst && !seg.fin && !seg.ack && seg.seqNo == 99 && seg.mssOption == MSS
    requires y.core.tx.high <= 201
    ensures var o := Accepted(cfg, y, seg, e);
            && o.ctx.core == Core(Server, SYN_RECEIVED, 0, Tx(201, 200, 0, 201, 201), Rx(100, 100, MSS, true, false, []))
            && o.pkt == [Segment(true, true, false, false, 200, 100, [], MSS)]
            && !Gone(o.ctx)
  {
    var k := NewServer(y).core;
    var k1 := CoreIn(cfg, k, seg);
    assert k1 == k.(rx := Rx(100, 100, MSS, true, false, []));
    assert cfg.Bytes(cfg.ActionAt(0).peer, 0, 0) == [];
  }

  lemma AcceptOk(cfg: Script, x: Core, y: Ctx, e: Env, xy: seq<Segment>, yx: seq<Segment>)
    requires cfg.Valid() && Pair(cfg, x, y.core) && x.peer == Client
    requires xy != [] && xy[0].syn && !xy[0].rst
    requires ChannelOk(cfg, x, y.core, xy) && ChannelOk(cfg, y.core, x, yx)
    ensures var o := Accepted(cfg, y, xy[0], e);
            Pair(cfg, x, o.ctx.core) && o.ctx.core.peer == Server && !Gone(o.ctx)
            && ChannelOk(cfg, x, o.ctx.core, xy[1..]) && ChannelOk(cfg, o.ctx.core, x, yx + o.pkt)
  {
    hide DataSeg, FinSeg;
    NothingHappened(cfg, x, y.core);
    NewServerIs(cfg, y, xy[0], e);
    var o := Accepted(cfg, y, xy[0], e);
    var k := o.ctx.core;
    ActionOrder(cfg, Client, 0, 1);
    assert Pair(cfg, x, k);
    assert SynSeg(k, o.pkt[0]) && SynPending(x) && SynPending(k);
    assert forall i :: 0 <= i < |yx| ==> yx[i].rst || yx[i].syn;
    assert forall i :: 0 <= i < |yx| ==> SegOk(cfg, k, yx[i]);
  }

  lemma RefuseOk(cfg: Script, y: Ctx, seg: Segment, e: Env)
    requires !seg.syn || seg.rst
    ensures var o := Accepted(cfg, y, seg, e);
            Gone(o.ctx) && (o.pkt == [] || (|o.pkt| == 1 && o.pkt[0].rst && !o.pkt[0].syn && !o.pkt[0].fin))
  {
    var k := CoreIn(cfg, NewServer(y).core, seg);
    assert !seg.rst ==> k.st == LISTEN && !k.rx.gotSyn;
  }

  lemma GoneClientOk(cfg: Script, s: Sys, e: Env)
    requires cfg.Valid() && Inv(cfg, s) && s.toClient != [] && Gone(s.client)
    ensures Inv(cfg, Apply(cfg, s, Deliver(Server, e)))
  {
    var ch := s.toClient;
    ChannelMinus(cfg, s.server.core, s.client.core, ch, 0);
    assert ch[..0] + ch[1..] == ch[1..];
    ChannelPlusRst(cfg, s.client.core, s.server.core, s.toServer, Reset(ch[0]));
    assert Apply(cfg, s, Deliver(Server, e)) == Sys(s.client, s.server, s.toServer + [Reset(ch[0])], ch[1..]);
  }

  lemma GoneServerAccepts(cfg: Script, s: Sys, e: Env)
    requires cfg.Valid() && Inv(cfg, s) && s.toServer != [] && Gone(s.server)
    requires s.toServer[0].syn && !s.toServer[0].rst
    ensures Inv(cfg, Apply(cfg, s, Deliver(Client, e)))
  {
    hide Pair, ChannelOk, Proc;
    var ch := s.toServer;
    AcceptOk(cfg, s.client.core, s.server, e, ch, s.toClient);
    var o := Accepted(cfg, s.server, ch[0], e);
    assert Apply(cfg, s, Deliver(Client, e)) == Sys(s.client, o.ctx, ch[1..], s.toClient + o.pkt);
  }

  lemma GoneServerRefuses(cfg: Script, s: Sys, e: Env)
    requires cfg.Valid() && Inv(cfg, s) && s.toServer != [] && Gone(s.server)
    requires !s.toServer[0].syn || s.toServer[0].rst
    ensures Inv(cfg, Apply(cfg, s, Deliver(Client, e)))
  {
    hide Pair, ChannelOk, Proc;
    var ch := s.toServer;
    var o := Accepted(cfg, s.server, ch[0], e);
    RefuseOk(cfg, s.server, ch[0], e);
    ChannelMinus(cfg, s.client.core, s.server.core, ch, 0);
    assert ch[..0] + ch[1..] == ch[1..];
    assert Apply(cfg, s, Deliver(Client, e)) == Sys(s.client, s.server, ch[1..], s.toClient + o.pkt);
    if o.pkt == [] {
      assert s.toClient + o.pkt == s.toClient;
    } else {
      assert o.pkt == [o.pkt[0]];
      ChannelPlusRst(cfg, s.server.core, s.client.core, s.toClient, o.pkt[0]);
    }
  }

  lemma GoneServerOk(cfg: Script, s: Sys, e: Env)
    requires cfg.Valid() && Inv(cfg, s) && s.toServer != [] && Gone(s.server)
    ensures Inv(cfg, Apply(cfg, s, Deliver(Client, e)))
  {
    if s.toServer[0].syn && !s.toServer[0].rst {
      GoneServerAccepts(cfg, s, e);
    } else {
      GoneServerRefuses(cfg, s, e);
    }
  }

  lemma DeliverOk(cfg: Script, s: Sys, from: Peer, e: Env)
    requires cfg.Valid() && Inv(cfg, s)
    ensures Inv(cfg, Apply(cfg, s, Deliver(from, e)))
  {
    var ch := s.From(from);
    if ch != [] {
      var x, y := s.End(from), s.End(Other(from));
      if Gone(y) {
        if from == Server {
          GoneClientOk(cfg, s, e);
        } else {
          GoneServerOk(cfg, s, e);
        }
      } else if ch[0].rst {
        RstOk(cfg, x.core, y, e, ch, s.From(Other(from)));
      } else {
        HandledOk(cfg, x.core, y, e, ch, s.From(Other(from)));
      }
    }
  }

  lemma ApplyOk(cfg: Script, s: Sys, step: Step)
    requires cfg.Valid() && Inv(cfg, s)
    ensures Inv(cfg, Apply(cfg, s, step))
  {
    match step
    case Timer(p, e) =>
      if !Gone(s.End(p)) && s.End(p).book.armed {
        TimerOk(cfg, s.End(Other(p)).core, s.End(p), e, s.From(Other(p)), s.From(p));
      }
    case Deliver(from, e) => DeliverOk(cfg, s, from, e);
    case Lose(from, i) =>
      if i < |s.From(from)| {
        ChannelMinus(cfg, s.End(from).core, s.End(Other(from)).core, s.From(from), i);
      }
  }

  lemma InitOk(cfg: Script)
    requires cfg.Valid()
    ensures Inv(cfg, Init())
  {
  }

  lemma {:induction false} RunOk(cfg: Script, states: seq<Sys>, steps: seq<Step>, n: nat)
    requires cfg.Valid() && IsRun(cfg, states, steps) && n <= |steps|
    ensures Inv(cfg, states[n])
  {
    if n == 0 {
      InitOk(cfg);
    } else {
      RunOk(cfg, states, steps, n - 1);
      assert StepAt(cfg, states, steps, n - 1);
      ApplyOk(cfg, states[n - 1], steps[n - 1]);
    }
  }
}
