/** Two stream contexts that run one script over lossy first-in first-out channels. */
module TcpSystem {
  import opened TcpScript
  import opened TcpStream

  datatype Sys = Sys(client: Ctx, server: Ctx, toServer: seq<Segment>, toClient: seq<Segment>) {

    function End(p: Peer): Ctx {
      if p == Client then client else server
    }

    /** What is in flight from peer p. */
    function From(p: Peer): seq<Segment> {
      if p == Client then toServer else toClient
    }

    function WithEnd(p: Peer, c: Ctx): Sys {
      if p == Client then this.(client := c) else this.(server := c)
    }

    function WithFrom(p: Peer, ch: seq<Segment>): Sys {
      if p == Client then this.(toServer := ch) else this.(toClient := ch)
    }

    /** Peer p made a call that left o behind. */
    function Answer(p: Peer, o: Out): Sys {
      WithEnd(p, o.ctx).WithFrom(p, From(p) + o.pkt)
    }
  }

  /** A timer of one end goes off, the oldest packet from one end is delivered, or a packet from one end is lost. */
  datatype Step =
    | Timer(p: Peer, env: Env)
    | Deliver(sender: Peer, env: Env)
    | Lose(sender: Peer, index: nat)

  function Init(): Sys {
    Sys(InitCtx(Client), InitCtx(Server), [], [])
  }

  /** A new server side, made for a packet that belongs to no connection. The highest sequence number ever sent is
      history and carries over. */
  function NewServer(previous: Ctx): Ctx {
    var c := InitCtx(Server);
    c.(core := c.core.(tx := c.core.tx.(high := previous.core.tx.high)))
  }

  /** The client's answer to a segment that belongs to no connection: the same headers with only the RST flag. */
  function Reset(p: Segment): Segment {
    Segment(false, false, false, true, p.seqNo, p.ackNo, [], 0)
  }

  /** A packet reaches an end that is gone. The client resets it. The server makes a new context, whose buckets start
      full; when that context ends at once it is freed, and only the packet it sent remains. */
  function DeliverToGone(cfg: Script, s: Sys, to: Peer, p: Segment, e: Env): Sys {
    if to == Client then s.WithFrom(Client, s.toServer + [Reset(p)])
    else
      var o := Proc(cfg, NewServer(s.server), Packet(p), e.(full := true));
      if Gone(o.ctx) then s.WithFrom(Server, s.toClient + o.pkt) else s.Answer(Server, o)
  }

  function Apply(cfg: Script, s: Sys, step: Step): Sys {
    match step
    case Timer(p, e) =>
      if Gone(s.End(p)) || !s.End(p).book.armed then s else s.Answer(p, Proc(cfg, s.End(p), Tick, e))
    case Deliver(from, e) =>
      if s.From(from) == [] then s
      else
        var p := s.From(from)[0];
        var s1 := s.WithFrom(from, s.From(from)[1..]);
        var to := Other(from);
        if Gone(s.End(to)) then DeliverToGone(cfg, s1, to, p, e)
        else s1.Answer(to, Proc(cfg, s.End(to), Packet(p), e))
    case Lose(from, i) =>
      if i >= |s.From(from)| then s
      else s.WithFrom(from, s.From(from)[..i] + s.From(from)[i + 1..])
  }

  /** Step n of a run leads from state n to state n + 1. A step that is not enabled changes nothing. */
  ghost predicate StepAt(cfg: Script, states: seq<Sys>, steps: seq<Step>, n: nat)
    requires n < |steps| && |states| == |steps| + 1
  {
    states[n + 1] == Apply(cfg, states[n], steps[n])
  }

  /** The states of a run of steps. */
  ghost predicate IsRun(cfg: Script, states: seq<Sys>, steps: seq<Step>) {
    && |states| == |steps| + 1 && states[0] == Init()
    && forall n: nat {:trigger StepAt(cfg, states, steps, n)} :: n < |steps| ==> StepAt(cfg, states, steps, n)
  }

  /** Every sequence of steps is a run. */
  lemma {:induction false} RunExists(cfg: Script, steps: seq<Step>) returns (states: seq<Sys>)
    ensures IsRun(cfg, states, steps)
  {
    if steps == [] {
      states := [Init()];
    } else {
      var n := |steps| - 1;
      var before := RunExists(cfg, steps[..n]);
      states := before + [Apply(cfg, before[n], steps[n])];
      forall k: nat | k < |steps|
        ensures StepAt(cfg, states, steps, k)
      {
        assert k < n ==> StepAt(cfg, before, steps[..n], k);
      }
    }
  }
}
