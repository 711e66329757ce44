/** The server side of the layer 4 generator, as a value; ServerTask keeps it in arrays. */
module Server {
  import opened FQueue

  const MAX_PKT_BURST: nat := 64

  /** What becomes of a packet: it is sent as a reply (0), kept by its stream (OUT_HANDLED), or dropped
      (OUT_DISCARD). */
  datatype Out = Reply | Handled | Discard

  datatype Tx = Tx(m: Mbuf, out: Out)

  datatype HandleState = HANDLE_QUEUED | HANDLE_SCHEDULED

  /** Which handler set the cancelled flag; Nobody when it is not set. */
  datatype Owner = Nobody | Queued | Scheduled

  /** Accepted packets: the queue, its capacity, and the burst taken from it last, without what was transmitted. */
  datatype Rx = Rx(waiting: seq<Mbuf>, cap: nat, burst: seq<Mbuf>)

  /** Buffers for packets that timed-out streams send. The memory pool numbers the buffers it gives out. */
  datatype Pool = Pool(ready: seq<Mbuf>, issued: nat)

  datatype Flag = Flag(state: HandleState, owner: Owner, outSaved: Out, mbufSaved: Mbuf)

  /** History: packets that fqueue_put took, and those it had no room for; what was decided about accepted packets, and
      what the queued handler passed to tx_pkt; buffers in which a timed-out stream left a packet, and those the
      scheduled handler passed to tx_pkt; tokens granted. */
  datatype Log = Log(accepted: seq<Mbuf>, rejected: seq<Mbuf>, decided: seq<Tx>, queueTx: seq<Tx>, replies: seq<Mbuf>,
                     timerTx: seq<Mbuf>, granted: nat)

  datatype State = State(rx: Rx, pool: Pool, flag: Flag, tokens: nat, log: Log)

  /** The wire size of the reply in a buffer. */
  type Size = Mbuf -> nat

  function Min(a: int, b: int): int {
    if a <= b then a else b
  }

  /** The decisions about ms. */
  function Txs(ms: seq<Mbuf>, out: nat -> Out): (r: seq<Tx>)
    ensures |r| == |ms| && forall k :: 0 <= k < |r| ==> r[k] == Tx(ms[k], out(k))
  {
    seq(|ms|, k requires 0 <= k < |ms| => Tx(ms[k], out(k)))
  }

  // ---- the queued handler ----

  /** A new burst is taken from the queue when the last one is done. */
  function Fetch(rx: Rx): Rx {
    if rx.burst != [] then rx
    else
      var n := Min(|rx.waiting|, MAX_PKT_BURST);
      rx.(waiting := rx.waiting[n..], burst := rx.waiting[..n])
  }

  /** Where the main loop stops that starts at packet j: the packet a reply to which there are no tokens for, or the end
      of the burst; and the tokens that are left. */
  function Decide(burst: seq<Mbuf>, verdict: nat -> Out, size: Size, tokens: nat, j: nat): (r: (nat, nat))
    requires j <= |burst|
    ensures j <= r.0 <= |burst| && r.1 <= tokens
    decreases |burst| - j
  {
    if j == |burst| then (j, tokens)
    else if verdict(j) != Reply then Decide(burst, verdict, size, tokens, j + 1)
    else if size(burst[j]) > tokens then (j, tokens)
    else Decide(burst, verdict, size, tokens - size(burst[j]), j + 1)
  }

  /** The verdict on each packet of a burst: the first one may have been decided before. */
  function Verdict(held: bool, saved: Out, verdict: nat -> Out): nat -> Out {
    (j: nat) => if held && j == 0 then saved else verdict(j)
  }

  /** The packets up to k are transmitted; when there are more, the reply to packet k is held back. The decisions from j
      on are new. */
  function Stop(s: State, j: nat, k: nat, tokens: nat, out: nat -> Out): State
    requires j <= k <= |s.rx.burst|
  {
    var burst := s.rx.burst;
    var txs := Txs(burst[..k], out);
    s.(rx := s.rx.(burst := burst[k..]), tokens := tokens,
       flag := s.flag.(owner := if k < |burst| then Queued else Nobody,
                       outSaved := if k < |burst| then Reply else s.flag.outSaved),
       log := s.log.(queueTx := s.log.queueTx + txs,
                     decided := s.log.decided + txs[j..] + if k < |burst| then [Tx(burst[k], Reply)] else []))
  }

  /** handle_gen_queued. verdict(j) is what becomes of packet j of the burst when it is looked at. */
  function HandleQueued(s: State, size: Size, verdict: nat -> Out): (r: (State, bool)) {
    var s1 := s.(rx := Fetch(s.rx));
    var burst, held := s1.rx.burst, s.flag.owner != Nobody;
    if held && (burst == [] || size(burst[0]) > s.tokens) then (s1, false)
    else
      var j, tokens := if held then 1 else 0, if held then s.tokens - size(burst[0]) else s.tokens;
      var out := Verdict(held, s.flag.outSaved, verdict);
      var (k, left) := Decide(burst, out, size, tokens, j);
      (Stop(s1, j, k, left, out), k == |burst|)
  }

  // ---- the scheduled handler ----

  /** The used buffers, at the front, are replaced. */
  function Refill(p: Pool): Pool {
    if |p.ready| >= MAX_PKT_BURST then p
    else
      var n := MAX_PKT_BURST - |p.ready|;
      Pool(seq(n, i => p.issued + i) + p.ready, p.issued + n)
  }

  /** How many buffers the streams of the due timers fill, from due timer i and buffer n on, the tokens that are left,
      and whether that is because tokens ran out. */
  function CallBack(ready: seq<Mbuf>, due: seq<bool>, size: Size, tokens: nat, i: nat, n: nat): (r: (nat, nat, bool))
    requires i <= |due| && n <= |ready|
    ensures n <= r.0 <= |ready| && r.1 <= tokens && (r.2 ==> r.0 < |ready|)
    decreases |due| - i
  {
    if i == |due| || n == |ready| then (n, tokens, false)
    else if !due[i] then CallBack(ready, due, size, tokens, i + 1, n)
    else if size(ready[n]) > tokens then (n, tokens, true)
    else CallBack(ready, due, size, tokens - size(ready[n]), i + 1, n + 1)
  }

  /** The first n buffers are transmitted; when tokens ran out, the next one is kept for later. */
  function Leave(s: State, n: nat, tokens: nat, short: bool): State
    requires n <= |s.pool.ready| && (short ==> n < |s.pool.ready|)
  {
    var ready := s.pool.ready;
    var n' := if short then n + 1 else n;
    s.(pool := s.pool.(ready := ready[n'..]), tokens := tokens,
       flag := if short then s.flag.(owner := Scheduled, outSaved := Reply, mbufSaved := ready[n]) else s.flag,
       log := s.log.(timerTx := s.log.timerTx + ready[..n], replies := s.log.replies + ready[..n']))
  }

  /** The saved packet goes first, when there are tokens for it now. */
  function Resume(s: State, size: Size): State
    requires s.flag.owner != Nobody ==> size(s.flag.mbufSaved) <= s.tokens
  {
    if s.flag.owner == Nobody then s
    else
      s.(tokens := s.tokens - size(s.flag.mbufSaved), flag := s.flag.(owner := Nobody),
         log := s.log.(timerTx := s.log.timerTx + [s.flag.mbufSaved]))
  }

  /** handle_gen_scheduled. due are the bundles whose timers have run out, each with whether its stream then has a
      packet to send; those that are not reached stay in the heap. room says whether the memory pool has enough
      buffers. */
  function HandleScheduled(s: State, size: Size, due: seq<bool>, room: bool): (r: (State, bool)) {
    if s.flag.owner != Nobody && size(s.flag.mbufSaved) > s.tokens then (s, false)
    else
      var s1 := Resume(s, size);
      if |s1.pool.ready| < MAX_PKT_BURST && !room then (s1, false)
      else
        var s2 := s1.(pool := Refill(s1.pool));
        var (n, left, short) := CallBack(s2.pool.ready, due, size, s2.tokens, 0, 0);
        (Leave(s2, n, left, short), !short)
  }

  // ---- one call ----

  /** Packets the queue has no room for are dropped at once. */
  function Enqueue(s: State, mbufs: seq<Mbuf>): State
    requires |s.rx.waiting| <= s.rx.cap
  {
    var n := Min(|mbufs|, s.rx.cap - |s.rx.waiting|);
    s.(rx := s.rx.(waiting := s.rx.waiting + mbufs[..n]),
       log := s.log.(accepted := s.log.accepted + mbufs[..n], rejected := s.log.rejected + mbufs[n..]))
  }

  function Grant(s: State, grant: nat): State {
    s.(tokens := s.tokens + grant, log := s.log.(granted := s.log.granted + grant))
  }

  datatype Call = Call(mbufs: seq<Mbuf>, grant: nat, verdict: nat -> Out, due: seq<bool>, room: bool)

  function QueuedFirst(s: State, size: Size, c: Call): State {
    var (s1, ok) := HandleQueued(s, size, c.verdict);
    if !ok then s1
    else
      var (s2, ok2) := HandleScheduled(s1, size, c.due, c.room);
      if ok2 then s2 else s2.(flag := s2.flag.(state := HANDLE_SCHEDULED))
  }

  function ScheduledFirst(s: State, size: Size, c: Call): State {
    var (s1, ok) := HandleScheduled(s, size, c.due, c.room);
    if !ok then s1
    else
      var (s2, ok2) := HandleQueued(s1, size, c.verdict);
      if ok2 then s2 else s2.(flag := s2.flag.(state := HANDLE_QUEUED))
  }

  /** handle_gen_bulk */
  function HandleBulk(s: State, size: Size, c: Call): State
    requires |s.rx.waiting| <= s.rx.cap
  {
    var s1 := Enqueue(Grant(s, c.grant), c.mbufs);
    if s.flag.state == HANDLE_QUEUED then QueuedFirst(s1, size, c) else ScheduledFirst(s1, size, c)
  }

  // ---- the invariant ----

  ghost function Mbufs(txs: seq<Tx>): (r: seq<Mbuf>)
    ensures |r| == |txs| && forall k :: 0 <= k < |r| ==> r[k] == txs[k].m
  {
    seq(|txs|, k requires 0 <= k < |txs| => txs[k].m)
  }

  /** The tokens that transmitting txs costs: only replies cost any. */
  ghost function Paid(txs: seq<Tx>, size: Size): nat {
    if txs == [] then 0
    else Paid(txs[..|txs| - 1], size) + if txs[|txs| - 1].out == Reply then size(txs[|txs| - 1].m) else 0
  }

  ghost function Sizes(ms: seq<Mbuf>, size: Size): nat {
    if ms == [] then 0 else Sizes(ms[..|ms| - 1], size) + size(ms[|ms| - 1])
  }

  ghost predicate Distinct(s: seq<Mbuf>) {
    forall j, k :: 0 <= j < k < |s| ==> s[j] != s[k]
  }

  ghost predicate AllBelow(s: seq<Mbuf>, n: nat) {
    forall k :: 0 <= k < |s| ==> s[k] < n
  }

  /** Accepted packets that have not been passed to tx_pkt, oldest first. */
  ghost function Pending(s: State): seq<Mbuf> {
    s.rx.burst + s.rx.waiting
  }

  /** Accepted packets are those transmitted, in order, followed by those pending. Each is decided once, and transmitted
      with that decision; a decision may be ahead by the reply held back. */
  ghost predicate QueueBooks(s: State) {
    && s.log.accepted == Mbufs(s.log.queueTx) + Pending(s)
    && (s.flag.owner == Queued ==> s.rx.burst != [] && s.flag.outSaved == Reply)
    && s.log.decided == s.log.queueTx + if s.flag.owner == Queued then [Tx(s.rx.burst[0], Reply)] else []
  }

  /** Packets of timed-out streams are transmitted in order, and no buffer is used twice. */
  ghost predicate TimerBooks(s: State) {
    && s.log.replies == s.log.timerTx + (if s.flag.owner == Scheduled then [s.flag.mbufSaved] else [])
    && Distinct(s.log.replies + s.pool.ready) && AllBelow(s.log.replies + s.pool.ready, s.pool.issued)
  }

  /** Every token is left, or was spent on a packet that has been transmitted. */
  ghost predicate TokenBooks(s: State, size: Size) {
    s.log.granted == s.tokens + Paid(s.log.queueTx, size) + Sizes(s.log.timerTx, size)
  }

  ghost predicate Bounded(s: State) {
    |s.rx.waiting| <= s.rx.cap && |s.rx.burst| <= MAX_PKT_BURST && |s.pool.ready| <= MAX_PKT_BURST
  }

  ghost predicate Inv(s: State, size: Size) {
    Bounded(s) && QueueBooks(s) && TimerBooks(s) && TokenBooks(s, size)
  }

  /** Between calls the state tells whose turn it is to resume. */
  ghost predicate Turn(s: State) {
    && (s.flag.owner == Queued ==> s.flag.state == HANDLE_QUEUED)
    && (s.flag.owner == Scheduled ==> s.flag.state == HANDLE_SCHEDULED)
  }
}
