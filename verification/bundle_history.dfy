/** What the statistics of the bundle pool count, told by the history of its streams. */
module BundleHistory {
  import opened Bundle
  import opened BundleRuns

  // ---- events ----

  /** A bundle is opened by the client; a stream starts, ends after some retransmissions, or expires; a call of a stream
      handler has retransmitted n segments. */
  datatype Event =
    | Opened
    | Started(proto: Proto)
    | Ended(proto: Proto, retx: nat)
    | Expired(proto: Proto)
    | Resent(n: nat)

  ghost function HowMany(h: seq<Event>, which: Event -> bool): nat {
    if h == [] then 0 else HowMany(h[..|h| - 1], which) + if which(h[|h| - 1]) then 1 else 0
  }

  ghost function AllResent(h: seq<Event>): nat {
    if h == [] then 0 else AllResent(h[..|h| - 1]) + if h[|h| - 1].Resent? then h[|h| - 1].n else 0
  }

  predicate StartedAs(e: Event, proto: Proto) {
    e.Started? && e.proto == proto
  }

  predicate ExpiredAs(e: Event, proto: Proto) {
    e.Expired? && e.proto == proto
  }

  /** A TCP stream that ended without, or with, retransmissions. */
  predicate EndedTcp(e: Event, resent: bool) {
    e.Ended? && e.proto == TCP && (e.retx > 0 <==> resent)
  }

  predicate EndedUdp(e: Event) {
    e.Ended? && e.proto == UDP
  }

  ghost function NumStarted(h: seq<Event>, proto: Proto): nat {
    HowMany(h, e => StartedAs(e, proto))
  }

  ghost function NumExpired(h: seq<Event>, proto: Proto): nat {
    HowMany(h, e => ExpiredAs(e, proto))
  }

  ghost function NumEndedTcp(h: seq<Event>, resent: bool): nat {
    HowMany(h, e => EndedTcp(e, resent))
  }

  ghost function NumOpened(h: seq<Event>): nat {
    HowMany(h, (e: Event) => e.Opened?)
  }

  /** Every counter is the number of the events it is named for. */
  ghost predicate Tells(s: Stats, h: seq<Event>) {
    && s.bundlesCreated == NumOpened(h)
    && s.tcpCreated == NumStarted(h, TCP) && s.udpCreated == NumStarted(h, UDP)
    && s.tcpFinished == NumEndedTcp(h, false) && s.tcpFinishedRetx == NumEndedTcp(h, true)
    && s.udpFinished == HowMany(h, EndedUdp)
    && s.tcpExpired == NumExpired(h, TCP) && s.udpExpired == NumExpired(h, UDP)
    && s.tcpRetx == AllResent(h)
  }

  lemma OneMoreOf(h: seq<Event>, e: Event, which: Event -> bool)
    ensures HowMany(h + [e], which) == HowMany(h, which) + if which(e) then 1 else 0
  {
    assert (h + [e])[..|h|] == h;
  }

  /** One more event moves the one counter it is for. */
  lemma OneMoreEvent(s: Stats, h: seq<Event>, e: Event, s': Stats)
    requires Tells(s, h)
    requires s' == match e
             case Opened => s.(bundlesCreated := s.bundlesCreated + 1)
             case Started(TCP) => s.(tcpCreated := s.tcpCreated + 1)
             case Started(UDP) => s.(udpCreated := s.udpCreated + 1)
             case Ended(TCP, retx) =>
               if retx == 0 then s.(tcpFinished := s.tcpFinished + 1) else s.(tcpFinishedRetx := s.tcpFinishedRetx + 1)
             case Ended(UDP, retx) => s.(udpFinished := s.udpFinished + 1)
             case Expired(TCP) => s.(tcpExpired := s.tcpExpired + 1)
             case Expired(UDP) => s.(udpExpired := s.udpExpired + 1)
             case Resent(n) => s.(tcpRetx := s.tcpRetx + n)
    ensures Tells(s', h + [e])
  {
    OneMoreOf(h, e, (e: Event) => e.Opened?);
    OneMoreOf(h, e, e => StartedAs(e, TCP));
    OneMoreOf(h, e, e => StartedAs(e, UDP));
    OneMoreOf(h, e, e => EndedTcp(e, false));
    OneMoreOf(h, e, e => EndedTcp(e, true));
    OneMoreOf(h, e, EndedUdp);
    OneMoreOf(h, e, e => ExpiredAs(e, TCP));
    OneMoreOf(h, e, e => ExpiredAs(e, UDP));
    assert (h + [e])[..|h|] == h;
  }

  // ---- the streams of a bundle ----

  /** The first stream after idx that has something to play; the number of streams when there is none. */
  ghost function NextToPlay(streams: seq<StreamCfg>, idx: nat): (r: nat)
    requires idx < |streams|
    ensures idx < r <= |streams|
    ensures forall j :: idx < j < r ==> streams[j].empty
    ensures r < |streams| ==> !streams[r].empty
    decreases |streams| - idx
  {
    if idx + 1 == |streams| || !streams[idx + 1].empty then idx + 1 else NextToPlay(streams, idx + 1)
  }

  /** Stream idx ends; the empty ones behind it start and end, up to the next to play. */
  ghost function Played(streams: seq<StreamCfg>, idx: nat, retx: nat): seq<Event>
    requires idx < |streams|
    decreases |streams| - idx
  {
    [Ended(streams[idx].proto, retx)] +
    if idx + 1 == |streams| then []
    else [Started(streams[idx + 1].proto)] + if streams[idx + 1].empty then Played(streams, idx + 1, 0) else []
  }

  /** The bundle is in a stream of its configuration. */
  predicate Playing(cfgs: Cfgs, b: Bundle) {
    b.cfg < |cfgs| && b.idx < |cfgs[b.cfg]|
  }

  ghost predicate InRange(cfgs: Cfgs, p: Pool) {
    && (forall k :: 0 <= k < |p.occur| ==> p.occur[k] < |cfgs|)
    && (forall i :: 0 <= i < |p.bundles| && i !in p.free ==> Playing(cfgs, p.bundles[i]))
  }

  /** What happens to a stream that may have ended. */
  ghost function Passed(cfgs: Cfgs, b: Bundle): seq<Event>
    requires Playing(cfgs, b)
  {
    if b.ctx.ended then Played(cfgs[b.cfg], b.idx, b.ctx.retx) else []
  }

  /** Where a bundle is after that; the number of its streams when it has left. */
  ghost function Position(cfgs: Cfgs, b: Bundle): nat
    requires Playing(cfgs, b)
  {
    if b.ctx.ended then NextToPlay(cfgs[b.cfg], b.idx) else b.idx
  }

  ghost predicate Told(cfgs: Cfgs, p: Pool, h: seq<Event>) {
    InRange(cfgs, p) && Tells(p.stats, h)
  }

  lemma AdvanceTells(cfgs: Cfgs, p: Pool, i: nat, m: Move, h: seq<Event>)
    requires Told(cfgs, p, h) && i < |p.bundles| && i !in p.free && p.bundles[i].ctx.ended
    requires HasNext(cfgs, p.bundles[i]) && Usable(p.hash - {p.bundles[i].tuple}, m.slot, |p.entries|)
    ensures var b, (p', slot), streams := p.bundles[i], Advance(cfgs, p, i, m), cfgs[p.bundles[i].cfg];
            && Told(cfgs, p', (h + [Ended(streams[b.idx].proto, b.ctx.retx)]) + [Started(streams[b.idx + 1].proto)])
            && slot == m.slot && |p'.bundles| == |p.bundles| && p'.free == p.free
            && p'.bundles[i] == Bundle(m.tuple, b.timer, b.cfg, b.idx + 1, Ctx(streams[b.idx + 1].empty, false, 0))
  {
    hide Tells, Usable;
    var b, streams, p' := p.bundles[i], cfgs[p.bundles[i].cfg], Advance(cfgs, p, i, m).0;
    var s1 := CountFinished(p.stats, streams[b.idx].proto, b.ctx.retx);
    OneMoreEvent(p.stats, h, Ended(streams[b.idx].proto, b.ctx.retx), s1);
    OneMoreEvent(s1, h + [Ended(streams[b.idx].proto, b.ctx.retx)], Started(streams[b.idx + 1].proto), p'.stats);
  }

  lemma FinishTells(cfgs: Cfgs, p: Pool, i: nat, h: seq<Event>)
    requires Told(cfgs, p, h) && i < |p.bundles| && i !in p.free
    ensures var b := p.bundles[i];
            Told(cfgs, Finish(cfgs, p, i), h + [Ended(cfgs[b.cfg][b.idx].proto, b.ctx.retx)])
    ensures i in Finish(cfgs, p, i).free
  {
    hide Tells;
    var b, p' := p.bundles[i], Finish(cfgs, p, i);
    OneMoreEvent(p.stats, h, Ended(cfgs[b.cfg][b.idx].proto, b.ctx.retx), p'.stats);
  }

  /** Iterate passes the streams that have ended and no other, and frees the bundle exactly when there is none left to
      play. */
  lemma {:induction false} IterateTells(cfgs: Cfgs, p: Pool, i: nat, moves: nat -> Move, ret: int, h: seq<Event>)
    requires Told(cfgs, p, h) && i < |p.bundles| && i !in p.free && MovesOk(cfgs, p, i, moves) && ret >= 0
    ensures var (p', r), b := Iterate(cfgs, p, i, moves, ret), p.bundles[i];
            && Told(cfgs, p', h + Passed(cfgs, b))
            && (r < 0 <==> Position(cfgs, b) == |cfgs[b.cfg]|) && (r < 0 <==> i in p'.free)
            && (r >= 0 && !b.ctx.ended ==> p' == p && r == ret)
            && (r >= 0 && b.ctx.ended ==>
                  var idx := Position(cfgs, b);
                  && p'.bundles[i] == Bundle(moves(idx).tuple, b.timer, b.cfg, idx, Ctx(false, false, 0))
                  && r == moves(idx).slot)
    decreases if p.bundles[i].cfg < |cfgs| then |cfgs[p.bundles[i].cfg]| - p.bundles[i].idx else 0
  {
    hide Told, Finish, Advance;
    var b := p.bundles[i];
    assert Playing(cfgs, b) by { InRangeOf(cfgs, p, h); }
    if !b.ctx.ended {
      assert h + [] == h;
    } else if !HasNext(cfgs, b) {
      FinishTells(cfgs, p, i, h);
      assert Passed(cfgs, b) == [Ended(cfgs[b.cfg][b.idx].proto, b.ctx.retx)];
    } else {
      var m, streams := moves(b.idx + 1), cfgs[b.cfg];
      AdvanceTells(cfgs, p, i, m, h);
      var p1 := Advance(cfgs, p, i, m).0;
      var e0, e1 := Ended(streams[b.idx].proto, b.ctx.retx), Started(streams[b.idx + 1].proto);
      IterateTells(cfgs, p1, i, moves, m.slot, (h + [e0]) + [e1]);
      var rest := Passed(cfgs, p1.bundles[i]);
      assert ((h + [e0]) + [e1]) + rest == h + ([e0] + ([e1] + rest));
    }
  }

  lemma InRangeOf(cfgs: Cfgs, p: Pool, h: seq<Event>)
    requires Told(cfgs, p, h)
    ensures InRange(cfgs, p) && Tells(p.stats, h)
  {}

  // ---- one operation ----

  /** A packet for the bundle, or its timer: what the handler is called on and what it leaves. An expired stream is
      counted as nothing else, and takes its bundle along. */
  ghost function DataEvents(cfgs: Cfgs, b: Bundle, h: Handled): seq<Event>
    requires Playing(cfgs, b)
  {
    var idx, streams := Position(cfgs, b), cfgs[b.cfg];
    Passed(cfgs, b) +
    if idx == |streams| then []
    else if h.ctx.expired then [Expired(streams[idx].proto)]
    else
      var before := if b.ctx.ended then 0 else b.ctx.retx;
      [Resent(if h.ctx.retx >= before then h.ctx.retx - before else 0)] + Passed(cfgs, b.(idx := idx, ctx := h.ctx))
  }

  lemma ExpireTells(cfgs: Cfgs, p: Pool, i: nat, ctx: Ctx, h: seq<Event>)
    requires Told(cfgs, p, h) && i < |p.bundles| && i !in p.free
    ensures var b := p.bundles[i];
            && Playing(cfgs, b)
            && Told(cfgs, Expire(cfgs, p.(bundles := p.bundles[i := b.(ctx := ctx)]), i),
                    h + [Expired(cfgs[b.cfg][b.idx].proto)])
  {
    hide Tells;
    var b := p.bundles[i];
    var p1 := p.(bundles := p.bundles[i := b.(ctx := ctx)]);
    OneMoreEvent(p.stats, h, Expired(cfgs[b.cfg][b.idx].proto), Expire(cfgs, p1, i).stats);
  }

  lemma HandleTells(cfgs: Cfgs, p: Pool, i: nat, h: Handled, past: seq<Event>)
    requires Told(cfgs, p, past) && i < |p.bundles| && i !in p.free
    ensures var b, p' := p.bundles[i], Handle(p, i, h);
            && Told(cfgs, p', past + [Resent(if h.ctx.retx >= b.ctx.retx then h.ctx.retx - b.ctx.retx else 0)])
            && |p'.bundles| == |p.bundles| && p'.free == p.free
            && p'.bundles[i] == b.(ctx := h.ctx, timer := b.timer || h.rearm)
  {
    hide Tells;
    var b, p' := p.bundles[i], Handle(p, i, h);
    OneMoreEvent(p.stats, past, Resent(if h.ctx.retx >= b.ctx.retx then h.ctx.retx - b.ctx.retx else 0), p'.stats);
  }

  /** Setting or clearing the timer of a bundle is no event. */
  lemma TimerTells(cfgs: Cfgs, p: Pool, i: nat, h: seq<Event>)
    requires Told(cfgs, p, h) && i < |p.bundles|
    ensures Told(cfgs, Unschedule(p, i), h) && Told(cfgs, HeapAdd(p, i), h)
    ensures var p' := Unschedule(p, i);
            && |p'.bundles| == |p.bundles| && p'.free == p.free
            && p'.bundles[i] == p.bundles[i].(timer := false)
  {
    hide Tells;
  }

  lemma SamePassed(cfgs: Cfgs, b: Bundle, b': Bundle)
    requires Playing(cfgs, b) && b' == b.(timer := b'.timer, tuple := b'.tuple)
    ensures Passed(cfgs, b') == Passed(cfgs, b) && Position(cfgs, b') == Position(cfgs, b)
  {}

  /** The handler has been called on bundle i, in the stream it is in, and has not left it expired. */
  lemma HandledTells(cfgs: Cfgs, p: Pool, i: nat, h: Handled, after: nat -> Move, past: seq<Event>)
    requires Told(cfgs, p, past) && i < |p.bundles| && i !in p.free && MovesOk(cfgs, Handle(p, i, h), i, after)
    ensures var (p', ret), b := Iterate(cfgs, Handle(p, i, h), i, after, 0), p.bundles[i];
            && Playing(cfgs, b)
            && var resent := Resent(if h.ctx.retx >= b.ctx.retx then h.ctx.retx - b.ctx.retx else 0);
               var now := past + ([resent] + Passed(cfgs, b.(ctx := h.ctx)));
            Told(cfgs, if ret > 0 then HeapAdd(Unschedule(p', i), i) else p', now)
  {
    hide Told, Unschedule, Handle, MovesOk, Iterate, HeapAdd, Passed, Position;
    InRangeOf(cfgs, p, past);
    HandleTells(cfgs, p, i, h, past);
    var b, p1 := p.bundles[i], Handle(p, i, h);
    var resent := Resent(if h.ctx.retx >= b.ctx.retx then h.ctx.retx - b.ctx.retx else 0);
    IterateTells(cfgs, p1, i, after, 0, past + [resent]);
    SamePassed(cfgs, b.(ctx := h.ctx), p1.bundles[i]);
    var (p2, ret) := Iterate(cfgs, p1, i, after, 0);
    var rest := Passed(cfgs, b.(ctx := h.ctx));
    assert (past + [resent]) + rest == past + ([resent] + rest);
    if ret > 0 {
      TimerTells(cfgs, p2, i, past + ([resent] + rest));
      TimerTells(cfgs, Unschedule(p2, i), i, past + ([resent] + rest));
    }
  }

  lemma DataTells(cfgs: Cfgs, p: Pool, i: nat, before: nat -> Move, h: Handled, after: nat -> Move, past: seq<Event>)
    requires Told(cfgs, p, past) && i < |p.bundles| && i !in p.free && DataOk(cfgs, p, i, before, h, after)
    ensures Playing(cfgs, p.bundles[i])
    ensures Told(cfgs, ProcData(cfgs, p, i, before, h, after), past + DataEvents(cfgs, p.bundles[i], h))
  {
    hide Told, Unschedule, Handle, Expire, MovesOk, Iterate, HeapAdd, Passed;
    InRangeOf(cfgs, p, past);
    TimerTells(cfgs, p, i, past);
    var b, p0 := p.bundles[i], Unschedule(p, i);
    IterateTells(cfgs, p0, i, before, 0, past);
    SamePassed(cfgs, b, p0.bundles[i]);
    var (p1, ret) := Iterate(cfgs, p0, i, before, 0);
    var now := past + Passed(cfgs, b);
    if ret < 0 {
      assert DataEvents(cfgs, b, h) == Passed(cfgs, b);
    } else if h.ctx.expired {
      ExpireTells(cfgs, p1, i, h.ctx, now);
      assert now + DataEvents(cfgs, b, h)[|Passed(cfgs, b)|..] == past + DataEvents(cfgs, b, h);
    } else {
      HandledTells(cfgs, p1, i, h, after, now);
      SamePassed(cfgs, p1.bundles[i].(ctx := h.ctx), b.(idx := p1.bundles[i].idx, ctx := h.ctx));
      assert now + DataEvents(cfgs, b, h)[|Passed(cfgs, b)|..] == past + DataEvents(cfgs, b, h);
    }
  }

  /** What an operation means for the streams, in the state it starts from. */
  ghost function OpEvents(cfgs: Cfgs, p: Pool, op: Op): seq<Event>
    requires Tables(p) && Enabled(cfgs, p, op) && InRange(cfgs, p) && Fitting(cfgs, op)
  {
    match op
    case OpConnect(k, tuple, slot) =>
      if Usable(p.hash, slot, |p.entries|) then [Opened, Started(cfgs[p.occur[k]][0].proto)] else []
    case OpAccept(cfg, tuple, slot) =>
      if p.free != [] && Usable(p.hash, slot, |p.entries|) then [Started(cfgs[cfg][0].proto)] else []
    case OpData(tuple, before, h, after) => DataEvents(cfgs, p.bundles[Conn(p, tuple)], h)
    case OpTimer(i, before, h, after) => PoppedIsActive(p, i); DataEvents(cfgs, p.bundles[i], h)
  }

  /** Every configuration has a stream, and the server accepts for configurations that there are. */
  ghost predicate Fitting(cfgs: Cfgs, op: Op) {
    (forall c :: 0 <= c < |cfgs| ==> cfgs[c] != []) && (op.OpAccept? ==> op.cfg < |cfgs|)
  }

  lemma ConnectTells(cfgs: Cfgs, p: Pool, k: nat, tuple: Tuple, slot: int, h: seq<Event>)
    requires Tables(p) && Told(cfgs, p, h) && Enabled(cfgs, p, OpConnect(k, tuple, slot))
    requires Fitting(cfgs, OpConnect(k, tuple, slot))
    ensures Told(cfgs, Connect(cfgs, p, k, tuple, slot), h + OpEvents(cfgs, p, OpConnect(k, tuple, slot)))
  {
    hide Tells, Usable;
    var first, p' := cfgs[p.occur[k]][0], Connect(cfgs, p, k, tuple, slot);
    PopFree(p);
    if Usable(p.hash, slot, |p.entries|) {
      var s1 := p.stats.(bundlesCreated := p.stats.bundlesCreated + 1);
      OneMoreEvent(p.stats, h, Opened, s1);
      OneMoreEvent(s1, h + [Opened], Started(first.proto), p'.stats);
      assert (h + [Opened]) + [Started(first.proto)] == h + [Opened, Started(first.proto)];
    } else {
      assert h + [] == h;
    }
  }

  lemma AcceptTells(cfgs: Cfgs, p: Pool, cfg: nat, tuple: Tuple, slot: int, h: seq<Event>)
    requires Tables(p) && Told(cfgs, p, h) && Enabled(cfgs, p, OpAccept(cfg, tuple, slot))
    requires Fitting(cfgs, OpAccept(cfg, tuple, slot))
    ensures Told(cfgs, Accept(cfgs, p, cfg, tuple, slot), h + OpEvents(cfgs, p, OpAccept(cfg, tuple, slot)))
  {
    hide Tells, Usable;
    if p.free != [] {
      PopFree(p);
    }
    if p.free != [] && Usable(p.hash, slot, |p.entries|) {
      OneMoreEvent(p.stats, h, Started(cfgs[cfg][0].proto), Accept(cfgs, p, cfg, tuple, slot).stats);
    } else {
      assert h + [] == h;
    }
  }

  lemma ApplyTells(cfgs: Cfgs, p: Pool, op: Op, h: seq<Event>)
    requires Tables(p) && Told(cfgs, p, h) && Enabled(cfgs, p, op) && Fitting(cfgs, op)
    ensures Told(cfgs, Apply(cfgs, p, op), h + OpEvents(cfgs, p, op))
  {
    hide Told, Fitting, ProcData, Connect, Accept, DataOk, DataEvents, Tables;
    match op
    case OpConnect(k, tuple, slot) => ConnectTells(cfgs, p, k, tuple, slot, h);
    case OpAccept(cfg, tuple, slot) => AcceptTells(cfgs, p, cfg, tuple, slot, h);
    case OpData(tuple, before, handled, after) => DataTells(cfgs, p, Conn(p, tuple), before, handled, after, h);
    case OpTimer(i, before, handled, after) =>
      PoppedIsActive(p, i);
      PoppedTells(cfgs, p, i, h);
      DataTells(cfgs, HeapDel(p, i), i, before, handled, after, h);
      SameEvents(cfgs, p.bundles[i], HeapDel(p, i).bundles[i], handled);
  }

  lemma PoppedTells(cfgs: Cfgs, p: Pool, i: nat, h: seq<Event>)
    requires Told(cfgs, p, h) && i < |p.bundles| && i !in p.free
    ensures Told(cfgs, HeapDel(p, i), h) && Playing(cfgs, p.bundles[i])
  {
    hide Tells;
  }

  lemma SameEvents(cfgs: Cfgs, b: Bundle, b': Bundle, h: Handled)
    requires Playing(cfgs, b) && b' == b.(timer := b'.timer)
    ensures DataEvents(cfgs, b', h) == DataEvents(cfgs, b, h)
  {
    SamePassed(cfgs, b, b');
    var idx := Position(cfgs, b);
    if idx < |cfgs[b.cfg]| {
      SamePassed(cfgs, b.(idx := idx, ctx := h.ctx), b'.(idx := idx, ctx := h.ctx));
    }
  }

  // ---- runs ----

  ghost predicate AllInRange(cfgs: Cfgs, states: seq<Pool>, ops: seq<Op>, n: nat)
    requires n <= |ops| < |states|
  {
    (forall k :: 0 <= k <= n ==> InRange(cfgs, states[k])) && forall k :: 0 <= k < n ==> Fitting(cfgs, ops[k])
  }

  /** The events of the first n operations, in order. */
  ghost function History(cfgs: Cfgs, states: seq<Pool>, ops: seq<Op>, n: nat): seq<Event>
    requires IsRun(cfgs, states, ops) && n <= |ops| && AllInRange(cfgs, states, ops, n)
  {
    if n == 0 then [] else History(cfgs, states, ops, n - 1) + OpEvents(cfgs, states[n - 1], ops[n - 1])
  }

  /** In every run of a new pool each counter is the number of its events: a stream is counted as created when it
      starts, as expired when its handler left it so, and as finished, by protocol and with or without
      retransmissions, when it has ended. The streams of a bundle are played in order, each of them once. */
  lemma {:induction false} StatsTellHistory(cfgs: Cfgs, states: seq<Pool>, ops: seq<Op>, start: seq<nat>, n: nat)
    requires IsRun(cfgs, states, ops) && Created(states[0], start) && n <= |ops|
    requires forall k :: 0 <= k < |start| ==> start[k] < |cfgs|
    requires forall k :: 0 <= k < |ops| ==> Fitting(cfgs, ops[k])
    ensures AllInRange(cfgs, states, ops, n)
    ensures Tells(states[n].stats, History(cfgs, states, ops, n))
  {
    hide Tells, Apply;
    if n == 0 {
      CreatedTells(cfgs, states[0], start);
    } else {
      StatsTellHistory(cfgs, states, ops, start, n - 1);
      ApplyTells(cfgs, states[n - 1], ops[n - 1], History(cfgs, states, ops, n - 1));
    }
  }

  lemma CreatedTells(cfgs: Cfgs, p: Pool, start: seq<nat>)
    requires Created(p, start) && forall k :: 0 <= k < |start| ==> start[k] < |cfgs|
    ensures Told(cfgs, p, [])
  {
    AllFree(p, start);
  }

  /** A TCP stream that expires counts as expired and as nothing else, whatever its retransmissions. */
  lemma ExpiredIsNotFinished(before: nat -> Move, after: nat -> Move, retx: nat, ended: bool)
    ensures var p' := ProcData(TwoStreams(), OneBundle(), 0, before, Handled(Ctx(ended, true, retx), false), after);
            p'.stats == Stats(1, 0, 0, 0, 1, 0, 1, 0, 0) && p'.free == [0] && p'.hash == map[]
  {}

  /** A TCP stream that has ended counts by whether it was retransmitted, and the next one of its bundle as created. */
  lemma EndedIsFinished(before: nat -> Move, retx: nat)
    ensures var h := Handled(Ctx(true, false, retx), false);
            var p' := ProcData(TwoStreams(), OneBundle(), 0, before, h, _ => Move(6, 0));
            p'.stats == if retx == 0 then Stats(1, 1, 0, 0, 2, 0, 0, 0, 0) else Stats(1, 0, 1, 0, 2, 0, 0, 0, retx)
  {
    var h := Handled(Ctx(true, false, retx), false);
    var p1 := Handle(OneBundle(), 0, h);
    var p2 := Advance(TwoStreams(), p1, 0, Move(6, 0)).0;
    assert p1.hash - {5} == map[];
    assert Iterate(TwoStreams(), p2, 0, _ => Move(6, 0), 0) == (p2, 0);
  }

  // ---- entering the tables ----

  /** No connection has the slot, and the table has it. */
  ghost predicate Offered(p: Pool, slot: int) {
    0 <= slot < |p.entries| && forall t :: t in p.hash ==> p.hash[t] != slot
  }

  /** What a client opens: the bundle on top of the stack starts the first stream of the configuration drawn, without a
      timer, and its tuple leads to it. When the table has no room, bundle and configuration are given back. */
  lemma ConnectIs(cfgs: Cfgs, p: Pool, k: nat, tuple: Tuple, slot: int)
    requires FreeList(p.free, |p.bundles|) && p.weighted && p.free != [] && k < |p.occur|
    requires p.occur[k] < |cfgs| && cfgs[p.occur[k]] != []
    ensures var i, p' := p.free[|p.free| - 1], Connect(cfgs, p, k, tuple, slot);
            && p'.bundles
            == p.bundles[i := Bundle(tuple, false, p.occur[k], 0, Ctx(cfgs[p.occur[k]][0].empty, false, 0))]
            && p'.heap == p.heap
            && if Offered(p, slot) then
                 && p'.free + [i] == p.free && multiset(p'.occur + [p.occur[k]]) == multiset(p.occur)
                 && p'.hash == p.hash[tuple := slot] && p'.entries == p.entries[slot := i]
               else
                 && p'.free == p.free && multiset(p'.occur) == multiset(p.occur)
                 && p'.hash == p.hash && p'.entries == p.entries && p'.stats == p.stats
  {
    hide TakeCfg, Fresh;
    var i, b := p.free[|p.free| - 1], Fresh(cfgs, p.occur[k], tuple);
    assert p.free == p.free[..|p.free| - 1] + [i];
    PutBack(p.occur, k);
    FreshIs(cfgs, p.occur[k], tuple);
    assert p.bundles[i := b][i := b] == p.bundles[i := b];
    assert Offered(p, slot) <==> Usable(p.hash, slot, |p.entries|);
  }

  lemma FreshIs(cfgs: Cfgs, cfg: nat, tuple: Tuple)
    requires cfg < |cfgs| && cfgs[cfg] != []
    ensures Fresh(cfgs, cfg, tuple) == Bundle(tuple, false, cfg, 0, Ctx(cfgs[cfg][0].empty, false, 0))
  {}

  lemma PutBack(occur: seq<nat>, k: nat)
    requires k < |occur|
    ensures multiset(TakeCfg(occur, k) + [occur[k]]) == multiset(occur)
  {
    forall c: nat
      ensures multiset(TakeCfg(occur, k) + [occur[k]])[c] == multiset(occur)[c]
    {
      TakeCfgCount(occur, k, c);
      AppendCount(TakeCfg(occur, k), occur[k], c);
    }
  }

  /** What the server accepts: the same for the configuration of the packet. Without a free bundle, or room, nothing
      happens. */
  lemma AcceptIs(cfgs: Cfgs, p: Pool, cfg: nat, tuple: Tuple, slot: int)
    requires FreeList(p.free, |p.bundles|) && !p.weighted && cfg < |cfgs| && cfgs[cfg] != []
    ensures var p' := Accept(cfgs, p, cfg, tuple, slot);
            if p.free == [] || !Offered(p, slot) then p' == p
            else
              var i := p.free[|p.free| - 1];
              && p'.bundles == p.bundles[i := Bundle(tuple, false, cfg, 0, Ctx(cfgs[cfg][0].empty, false, 0))]
              && p'.heap == p.heap && p'.occur == p.occur && p'.free + [i] == p.free
              && p'.hash == p.hash[tuple := slot] && p'.entries == p.entries[slot := i]
  {
    assert p.free != [] ==> p.free == p.free[..|p.free| - 1] + [p.free[|p.free| - 1]];
    assert Offered(p, slot) <==> Usable(p.hash, slot, |p.entries|);
  }
}
