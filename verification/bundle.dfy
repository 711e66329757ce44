/** The bundle pool of the layer 4 generator, as a value; BundlePool keeps it in arrays. */
module Bundle {

  datatype Proto = TCP | UDP

  /** A stream of a configuration. A UDP stream without actions has ended as soon as it starts. */
  datatype StreamCfg = StreamCfg(proto: Proto, empty: bool)

  /** Each bundle configuration is a sequence of at least one stream. */
  type Cfgs = seq<seq<StreamCfg>>

  type Tuple = nat

  /** What the stream handlers report through the context of the current stream. */
  datatype Ctx = Ctx(ended: bool, expired: bool, retx: nat)

  /** timer says whether the bundle's reference into the timer heap is set. */
  datatype Bundle = Bundle(tuple: Tuple, timer: bool, cfg: nat, idx: nat, ctx: Ctx)

  datatype Stats = Stats(bundlesCreated: nat, tcpFinished: nat, tcpFinishedRetx: nat, udpFinished: nat,
                         tcpCreated: nat, udpCreated: nat, tcpExpired: nat, udpExpired: nat, tcpRetx: nat)

  /** free is the stack of free bundles, occur the configurations left to choose from (only used when weighted). hash
      gives the slot of a tuple and entries the bundle of a slot. heap holds the number of a bundle for each of its
      elements. */
  datatype Pool = Pool(free: seq<nat>, weighted: bool, occur: seq<nat>, hash: map<Tuple, nat>, entries: seq<nat>,
                       heap: multiset<nat>, bundles: seq<Bundle>, stats: Stats)

  /** How a bundle moves to its next stream: the tuple finally drawn, and the slot offered for it. A slot that cannot
      be used stands for a full table. */
  datatype Move = Move(tuple: Tuple, slot: int)

  function Stream(cfgs: Cfgs, b: Bundle): StreamCfg {
    if b.cfg < |cfgs| && b.idx < |cfgs[b.cfg]| then cfgs[b.cfg][b.idx] else StreamCfg(UDP, true)
  }

  predicate Usable(hash: map<Tuple, nat>, slot: int, size: nat) {
    0 <= slot < size && slot !in hash.Values
  }

  // ---- statistics ----

  function CountCreated(s: Stats, proto: Proto): Stats {
    if proto == TCP then s.(tcpCreated := s.tcpCreated + 1) else s.(udpCreated := s.udpCreated + 1)
  }

  function CountFinished(s: Stats, proto: Proto, retx: nat): Stats {
    if proto == UDP then s.(udpFinished := s.udpFinished + 1)
    else if retx == 0 then s.(tcpFinished := s.tcpFinished + 1)
    else s.(tcpFinishedRetx := s.tcpFinishedRetx + 1)
  }

  function CountExpired(s: Stats, proto: Proto): Stats {
    if proto == TCP then s.(tcpExpired := s.tcpExpired + 1) else s.(udpExpired := s.udpExpired + 1)
  }

  /** created - finished - expired */
  function Balance(s: Stats, proto: Proto): int {
    if proto == TCP then s.tcpCreated - s.tcpFinished - s.tcpFinishedRetx - s.tcpExpired
    else s.udpCreated - s.udpFinished - s.udpExpired
  }

  /** The figure the display shows as active. */
  function Displayed(s: Stats): int {
    s.tcpCreated + s.udpCreated - (s.tcpFinishedRetx + s.tcpFinished + s.udpFinished + s.udpExpired + s.tcpExpired)
  }

  // ---- pool ----

  /** Give back a bundle, and its configuration when they are weighted. */
  function Put(p: Pool, i: nat): Pool
    requires i < |p.bundles|
  {
    p.(free := p.free + [i], occur := if p.weighted then p.occur + [p.bundles[i].cfg] else p.occur)
  }

  /** Take the configuration at position k; the last one moves into its place. */
  function TakeCfg(occur: seq<nat>, k: nat): seq<nat>
    requires k < |occur|
  {
    occur[k := occur[|occur| - 1]][..|occur| - 1]
  }

  function Fresh(cfgs: Cfgs, cfg: nat, tuple: Tuple): Bundle {
    var b := Bundle(tuple, false, cfg, 0, Ctx(false, false, 0));
    b.(ctx := Ctx(Stream(cfgs, b).empty, false, 0))
  }

  /** A connection enters the tables. */
  function Enter(p: Pool, i: nat, b: Bundle, slot: nat): Pool
    requires i < |p.bundles| && slot < |p.entries|
  {
    p.(bundles := p.bundles[i := b], hash := p.hash[b.tuple := slot], entries := p.entries[slot := i])
  }

  /** The client opens a connection on the bundle on top of the stack, with the configuration at position k. tuple is
      the first one drawn that is not in use. */
  function Connect(cfgs: Cfgs, p: Pool, k: nat, tuple: Tuple, slot: int): (r: Pool)
    requires p.free != [] && k < |p.occur| && p.free[|p.free| - 1] < |p.bundles|
    ensures |r.bundles| == |p.bundles|
  {
    var i := p.free[|p.free| - 1];
    var b := Fresh(cfgs, p.occur[k], tuple);
    var p1 := p.(free := p.free[..|p.free| - 1], occur := TakeCfg(p.occur, k), bundles := p.bundles[i := b]);
    if !Usable(p.hash, slot, |p.entries|) then Put(p1, i)
    else
      var p2 := Enter(p1, i, b, slot);
      p2.(stats := CountCreated(p2.stats, Stream(cfgs, b).proto).(bundlesCreated := p.stats.bundlesCreated + 1))
  }

  /** The server accepts a packet of an unknown tuple for configuration cfg. */
  function Accept(cfgs: Cfgs, p: Pool, cfg: nat, tuple: Tuple, slot: int): (r: Pool)
    requires p.free != [] ==> p.free[|p.free| - 1] < |p.bundles|
    ensures |r.bundles| == |p.bundles|
  {
    if p.free == [] then p
    else
      var i := p.free[|p.free| - 1];
      var p1 := p.(free := p.free[..|p.free| - 1]);
      if !Usable(p.hash, slot, |p.entries|) then Put(p1, i)
      else
        var b := Fresh(cfgs, cfg, tuple);
        var p2 := Enter(p1, i, b, slot);
        p2.(stats := CountCreated(p2.stats, Stream(cfgs, b).proto))
  }

  // ---- one bundle ----

  /** heap_add: one more element for the bundle. */
  function HeapAdd(p: Pool, i: nat): Pool
    requires i < |p.bundles|
  {
    p.(heap := p.heap + multiset{i}, bundles := p.bundles[i := p.bundles[i].(timer := true)])
  }

  /** heap_del: the element the bundle refers to goes. */
  function HeapDel(p: Pool, i: nat): Pool
    requires i < |p.bundles|
  {
    p.(heap := p.heap - multiset{i}, bundles := p.bundles[i := p.bundles[i].(timer := false)])
  }

  /** A pending timer is cancelled. */
  function Unschedule(p: Pool, i: nat): Pool
    requires i < |p.bundles|
  {
    if p.bundles[i].timer then HeapDel(p, i) else p
  }

  /** The bundle leaves the hash table, loses its timer, and is given back. */
  function Leave(p: Pool, i: nat): Pool
    requires i < |p.bundles|
  {
    Put(Unschedule(p.(hash := p.hash - {p.bundles[i].tuple}), i), i)
  }

  /** The current stream is over and there is another one. -1 when the new tuple finds no room. */
  function Advance(cfgs: Cfgs, p: Pool, i: nat, m: Move): (Pool, int)
    requires i < |p.bundles|
  {
    var b := p.bundles[i];
    var b1 := b.(idx := b.idx + 1, tuple := m.tuple);
    var b2 := b1.(ctx := Ctx(Stream(cfgs, b1).empty, false, 0));
    var hash := p.hash - {b.tuple};
    var stats := CountFinished(p.stats, Stream(cfgs, b).proto, b.ctx.retx);
    var p1 := p.(bundles := p.bundles[i := b2], hash := hash, stats := stats);
    if !Usable(hash, m.slot, |p.entries|) then (p1, -1)
    else (Enter(p1, i, b2, m.slot).(stats := CountCreated(stats, Stream(cfgs, b2).proto)), m.slot)
  }

  function Finish(cfgs: Cfgs, p: Pool, i: nat): Pool
    requires i < |p.bundles|
  {
    var b := p.bundles[i];
    Leave(p.(stats := CountFinished(p.stats, Stream(cfgs, b).proto, b.ctx.retx)), i)
  }

  predicate HasNext(cfgs: Cfgs, b: Bundle) {
    b.cfg < |cfgs| && b.idx + 1 < |cfgs[b.cfg]|
  }

  /** Past streams that have ended. The result is that of the last move, 0 when there was none, and -1 when the
      bundle is gone. moves[k] is the move to stream k. */
  function Iterate(cfgs: Cfgs, p: Pool, i: nat, moves: nat -> Move, ret: int): (r: (Pool, int))
    requires i < |p.bundles|
    ensures |r.0.bundles| == |p.bundles| && |r.0.entries| == |p.entries|
    decreases if p.bundles[i].cfg < |cfgs| then |cfgs[p.bundles[i].cfg]| - p.bundles[i].idx else 0
  {
    var b := p.bundles[i];
    if !b.ctx.ended then (p, ret)
    else if !HasNext(cfgs, b) then (Finish(cfgs, p, i), -1)
    else
      var (p1, slot) := Advance(cfgs, p, i, moves(b.idx + 1));
      if slot < 0 then (p1, -1) else Iterate(cfgs, p1, i, moves, slot)
  }

  function Expire(cfgs: Cfgs, p: Pool, i: nat): Pool
    requires i < |p.bundles|
  {
    Leave(p.(stats := CountExpired(p.stats, Stream(cfgs, p.bundles[i]).proto)), i)
  }

  /** What the stream handler did: the context it left, and whether it asked for a timer. */
  datatype Handled = Handled(ctx: Ctx, rearm: bool)

  /** The stream handler was called on bundle i: its context and the retransmissions counted. */
  function Called(p: Pool, i: nat, ctx: Ctx): Pool
    requires i < |p.bundles|
  {
    var was := p.bundles[i].ctx.retx;
    p.(bundles := p.bundles[i := p.bundles[i].(ctx := ctx)],
       stats := p.stats.(tcpRetx := p.stats.tcpRetx + if ctx.retx >= was then ctx.retx - was else 0))
  }

  /** And the timer it asked for. */
  function Handle(p: Pool, i: nat, h: Handled): Pool
    requires i < |p.bundles|
  {
    var p1 := Called(p, i, h.ctx);
    if h.rearm then HeapAdd(p1, i) else p1
  }

  /** bundle_proc_data: a packet for bundle i, or its timer. -1 when the bundle is gone before the handler is called
      or expires. */
  function ProcData(cfgs: Cfgs, p: Pool, i: nat, before: nat -> Move, h: Handled, after: nat -> Move): (r: Pool)
    requires i < |p.bundles|
    ensures |r.bundles| == |p.bundles|
  {
    var (p1, ret) := Iterate(cfgs, Unschedule(p, i), i, before, 0);
    if ret < 0 then p1
    else if h.ctx.expired then
      Expire(cfgs, p1.(bundles := p1.bundles[i := p1.bundles[i].(ctx := h.ctx)]), i)
    else
      var (p2, ret2) := Iterate(cfgs, Handle(p1, i, h), i, after, 0);
      if ret2 > 0 then HeapAdd(Unschedule(p2, i), i) else p2
  }

  // ---- the invariant ----

  ghost predicate FreeList(free: seq<nat>, n: nat) {
    && (forall k :: 0 <= k < |free| ==> free[k] < n)
    && (forall j, k :: 0 <= j < k < |free| ==> free[j] != free[k])
  }

  /** Bundle i can be found by its tuple. */
  ghost predicate Found(p: Pool, i: nat)
    requires i < |p.bundles|
  {
    var t := p.bundles[i].tuple;
    t in p.hash && p.hash[t] < |p.entries| && p.entries[p.hash[t]] == i
  }

  /** The bundle that tuple t finds is active and has that tuple. */
  ghost predicate Owned(p: Pool, t: Tuple)
    requires t in p.hash
  {
    && p.hash[t] < |p.entries|
    && var i := p.entries[p.hash[t]];
       (i < |p.bundles| && i !in p.free && p.bundles[i].tuple == t)
  }

  /** A bundle has one element in the timer heap when its reference is set, and none otherwise. */
  ghost predicate Timers(p: Pool) {
    forall i: nat :: p.heap[i] == if i < |p.bundles| && p.bundles[i].timer then 1 else 0
  }

  ghost predicate Tables(p: Pool) {
    && FreeList(p.free, |p.bundles|)
    && (forall i :: 0 <= i < |p.bundles| && i !in p.free ==> Found(p, i))
    && (forall t :: t in p.hash ==> Owned(p, t))
    && Timers(p) && (forall i :: 0 <= i < |p.bundles| && i in p.free ==> !p.bundles[i].timer)
  }

  /** 1 or 2 for the protocol of an active bundle's current stream, 0 for a free bundle. */
  ghost function Code(cfgs: Cfgs, p: Pool, i: nat): int
    requires i < |p.bundles|
  {
    if i in p.free then 0 else if Stream(cfgs, p.bundles[i]).proto == TCP then 1 else 2
  }

  ghost function Protos(cfgs: Cfgs, p: Pool): (r: seq<int>)
    ensures |r| == |p.bundles| && forall i :: 0 <= i < |r| ==> r[i] == Code(cfgs, p, i)
  {
    seq(|p.bundles|, i requires 0 <= i < |p.bundles| => Code(cfgs, p, i))
  }

  /** The configuration an active bundle holds, plus one; 0 for a free bundle. */
  ghost function HeldBy(p: Pool, i: nat): int
    requires i < |p.bundles|
  {
    if i in p.free then 0 else p.bundles[i].cfg + 1
  }

  ghost function Held(p: Pool): (r: seq<int>)
    ensures |r| == |p.bundles| && forall i :: 0 <= i < |r| ==> r[i] == HeldBy(p, i)
  {
    seq(|p.bundles|, i requires 0 <= i < |p.bundles| => HeldBy(p, i))
  }

  /** How often v occurs in s. */
  ghost function Count(s: seq<int>, v: int): nat {
    multiset(s)[v]
  }

  ghost predicate Balanced(cfgs: Cfgs, p: Pool) {
    Balance(p.stats, TCP) == Count(Protos(cfgs, p), 1) && Balance(p.stats, UDP) == Count(Protos(cfgs, p), 2)
  }

  /** The configurations left and those held make up what the pool was created with. */
  ghost predicate Conserved(p: Pool, all: multiset<nat>) {
    p.weighted ==> forall c: nat :: Count(p.occur, c) + Count(Held(p), c + 1) == all[c]
  }

  ghost predicate Inv(cfgs: Cfgs, p: Pool, all: multiset<nat>) {
    Tables(p) && Balanced(cfgs, p) && Conserved(p, all)
  }
}
