/** What every run of the layer 4 server keeps, and when packets are transmitted. */
module ServerRuns {
  import opened FQueue
  import opened Server

  // ---- sums ----

  lemma PaidOne(txs: seq<Tx>, t: Tx, size: Size)
    ensures Paid(txs + [t], size) == Paid(txs, size) + if t.out == Reply then size(t.m) else 0
  {
    assert (txs + [t])[..|txs|] == txs;
  }

  lemma {:induction false} PaidAppend(txs: seq<Tx>, more: seq<Tx>, size: Size)
    ensures Paid(txs + more, size) == Paid(txs, size) + Paid(more, size)
  {
    if more == [] {
      assert txs + more == txs;
    } else {
      var n := |more| - 1;
      PaidAppend(txs, more[..n], size);
      assert txs + more == (txs + more[..n]) + [more[n]];
      PaidOne(txs + more[..n], more[n], size);
    }
  }

  lemma SizesOne(ms: seq<Mbuf>, m: Mbuf, size: Size)
    ensures Sizes(ms + [m], size) == Sizes(ms, size) + size(m)
  {
    assert (ms + [m])[..|ms|] == ms;
  }

  lemma {:induction false} SizesAppend(ms: seq<Mbuf>, more: seq<Mbuf>, size: Size)
    ensures Sizes(ms + more, size) == Sizes(ms, size) + Sizes(more, size)
  {
    if more == [] {
      assert ms + more == ms;
    } else {
      var n := |more| - 1;
      SizesAppend(ms, more[..n], size);
      assert ms + more == (ms + more[..n]) + [more[n]];
      SizesOne(ms + more[..n], more[n], size);
    }
  }

  // ---- the queued handler ----

  lemma OneMore(burst: seq<Mbuf>, out: nat -> Out, size: Size, j: nat)
    requires j < |burst|
    ensures Txs(burst[..j + 1], out) == Txs(burst[..j], out) + [Tx(burst[j], out(j))]
    ensures Paid(Txs(burst[..j + 1], out), size)
         == Paid(Txs(burst[..j], out), size) + if out(j) == Reply then size(burst[j]) else 0
  {
    assert Txs(burst[..j + 1], out) == Txs(burst[..j], out) + [Tx(burst[j], out(j))];
    PaidOne(Txs(burst[..j], out), Tx(burst[j], out(j)), size);
  }

  lemma PaidMore(burst: seq<Mbuf>, out: nat -> Out, size: Size, j: nat)
    requires j < |burst|
    ensures Paid(Txs(burst[..j + 1], out), size)
         == Paid(Txs(burst[..j], out), size) + if out(j) == Reply then size(burst[j]) else 0
  {
    OneMore(burst, out, size, j);
  }

  lemma PaidFirst(burst: seq<Mbuf>, out: nat -> Out, size: Size)
    requires burst != [] && out(0) == Reply
    ensures Paid(Txs(burst[..1], out), size) == size(burst[0])
  {
    OneMore(burst, out, size, 0);
  }

  /** The main loop spends exactly what the replies it lets through cost, and stops early only at a reply it cannot
      pay. */
  lemma {:induction false} DecideIs(burst: seq<Mbuf>, out: nat -> Out, size: Size, tokens: nat, j: nat, total: nat)
    requires j <= |burst| && total == tokens + Paid(Txs(burst[..j], out), size)
    ensures var (k, left) := Decide(burst, out, size, tokens, j);
            && total == left + Paid(Txs(burst[..k], out), size)
            && (k < |burst| ==> out(k) == Reply && size(burst[k]) > left)
    decreases |burst| - j
  {
    hide Txs, Paid;
    if j == |burst| {
    } else {
      PaidMore(burst, out, size, j);
      if out(j) != Reply {
        DecideIs(burst, out, size, tokens, j + 1, total);
      } else if size(burst[j]) <= tokens {
        DecideIs(burst, out, size, tokens - size(burst[j]), j + 1, total);
      }
    }
  }

  /** Fetching takes the oldest packets, and only when the last burst is done. */
  lemma FetchOk(s: State, size: Size)
    requires Inv(s, size)
    ensures var s1 := s.(rx := Fetch(s.rx)); Inv(s1, size) && Pending(s1) == Pending(s)
  {}

  /** What stopping at packet k does to the books. */
  lemma StopQueueBooks(s: State, j: nat, k: nat, tokens: nat, out: nat -> Out)
    requires QueueBooks(s) && s.flag.owner != Scheduled && j <= k <= |s.rx.burst|
    requires j == (if s.flag.owner == Queued then 1 else 0) && (j == 1 ==> out(0) == Reply)
    ensures QueueBooks(Stop(s, j, k, tokens, out))
  {
    var burst, r := s.rx.burst, Stop(s, j, k, tokens, out);
    var txs := Txs(burst[..k], out);
    assert Mbufs(s.log.queueTx + txs) == Mbufs(s.log.queueTx) + burst[..k];
    assert burst + s.rx.waiting == burst[..k] + (burst[k..] + s.rx.waiting);
    assert s.log.decided + txs[j..] == s.log.queueTx + txs;
  }

  lemma StopTimerBooks(s: State, j: nat, k: nat, tokens: nat, out: nat -> Out)
    requires TimerBooks(s) && s.flag.owner != Scheduled && j <= k <= |s.rx.burst|
    ensures TimerBooks(Stop(s, j, k, tokens, out))
  {}

  lemma StopTokenBooks(s: State, j: nat, k: nat, tokens: nat, out: nat -> Out, size: Size)
    requires TokenBooks(s, size) && j <= k <= |s.rx.burst|
    requires s.tokens == tokens + Paid(Txs(s.rx.burst[..k], out), size)
    ensures TokenBooks(Stop(s, j, k, tokens, out), size)
  {
    PaidAppend(s.log.queueTx, Txs(s.rx.burst[..k], out), size);
  }

  /** The packets the queued handler looks at, and what it does with each. */
  function Looked(s: State): seq<Mbuf> {
    Fetch(s.rx).burst
  }

  function Outs(s: State, verdict: nat -> Out): nat -> Out {
    Verdict(s.flag.owner != Nobody, s.flag.outSaved, verdict)
  }

  /** What the queued handler has to do: it transmits the first k packets of the burst, each with its verdict, and pays
      for the replies among them; either these are all, or the next one is a reply there are no tokens for. */
  ghost predicate QueuedOutcome(s: State, s': State, ok: bool, k: nat, out: nat -> Out, size: Size) {
    var burst := Looked(s);
    && k <= |burst| && s'.rx == Fetch(s.rx).(burst := burst[k..])
    && s'.log.queueTx == s.log.queueTx + Txs(burst[..k], out)
    && s.tokens == s'.tokens + Paid(Txs(burst[..k], out), size)
    && (if ok then k == |burst| && s'.flag.owner == Nobody
        else k < |burst| && s'.flag.owner == Queued && out(k) == Reply && size(burst[k]) > s'.tokens)
  }

  /** What the queued handler leaves alone. */
  ghost predicate QueuedFrame(s: State, s': State) {
    && s'.pool == s.pool && s'.flag.state == s.flag.state
    && s'.log == s.log.(queueTx := s'.log.queueTx, decided := s'.log.decided)
  }

  /** How many packets one call of the queued handler transmits. */
  ghost function Passed(s: State, s': State): int {
    |s'.log.queueTx| - |s.log.queueTx|
  }

  ghost predicate QueuedKeeps(s: State, s': State, ok: bool, verdict: nat -> Out, size: Size) {
    && Inv(s', size) && QueuedFrame(s, s') && Passed(s, s') >= 0
    && QueuedOutcome(s, s', ok, Passed(s, s'), Outs(s, verdict), size)
  }

  lemma StopKeeps(s: State, j: nat, k: nat, tokens: nat, verdict: nat -> Out, size: Size)
    requires Inv(s, size) && s.flag.owner != Scheduled && Looked(s) == s.rx.burst
    requires j <= k <= |s.rx.burst| && j == if s.flag.owner == Queued then 1 else 0
    requires s.tokens == tokens + Paid(Txs(s.rx.burst[..k], Outs(s, verdict)), size)
    requires j == 1 ==> Outs(s, verdict)(0) == Reply
    requires k < |s.rx.burst| ==> Outs(s, verdict)(k) == Reply && size(s.rx.burst[k]) > tokens
    ensures QueuedKeeps(s, Stop(s, j, k, tokens, Outs(s, verdict)), k == |s.rx.burst|, verdict, size)
  {
    hide QueueBooks, TimerBooks, TokenBooks, Txs, Paid;
    StopQueueBooks(s, j, k, tokens, Outs(s, verdict));
    StopTimerBooks(s, j, k, tokens, Outs(s, verdict));
    StopTokenBooks(s, j, k, tokens, Outs(s, verdict), size);
  }

  lemma QueuedAnew(s: State, size: Size, verdict: nat -> Out)
    requires Inv(s, size) && s.flag.owner == Nobody && Looked(s) == s.rx.burst
    ensures var (s', ok) := HandleQueued(s, size, verdict); QueuedKeeps(s, s', ok, verdict, size)
  {
    hide QueueBooks, TimerBooks, TokenBooks;
    var burst, out := s.rx.burst, Outs(s, verdict);
    DecideIs(burst, out, size, s.tokens, 0, s.tokens);
    var (k, left) := Decide(burst, out, size, s.tokens, 0);
    StopKeeps(s, 0, k, left, verdict, size);
  }

  lemma QueuedAgainIs(s: State, size: Size, verdict: nat -> Out)
    requires s.flag.owner == Queued && s.rx.burst != [] && size(s.rx.burst[0]) <= s.tokens
    ensures var (k, left) := Decide(s.rx.burst, Outs(s, verdict), size, s.tokens - size(s.rx.burst[0]), 1);
            HandleQueued(s, size, verdict) == (Stop(s, 1, k, left, Outs(s, verdict)), k == |s.rx.burst|)
  {}

  lemma QueuedAgain(s: State, size: Size, verdict: nat -> Out)
    requires Inv(s, size) && s.flag.owner == Queued && size(s.rx.burst[0]) <= s.tokens
    ensures var (s', ok) := HandleQueued(s, size, verdict); QueuedKeeps(s, s', ok, verdict, size)
  {
    assert s.flag.outSaved == Reply && s.rx.burst != [];
    QueuedAgainIs(s, size, verdict);
    hide QueueBooks, TimerBooks, TokenBooks, Txs, Paid, HandleQueued, Decide, Stop, QueuedKeeps;
    var burst, out := s.rx.burst, Outs(s, verdict);
    PaidFirst(burst, out, size);
    var tokens := s.tokens - size(burst[0]);
    DecideIs(burst, out, size, tokens, 1, s.tokens);
    var (k, left) := Decide(burst, out, size, tokens, 1);
    StopKeeps(s, 1, k, left, verdict, size);
  }

  lemma QueuedStuck(s: State, size: Size, verdict: nat -> Out)
    requires Inv(s, size) && s.flag.owner == Queued && size(s.rx.burst[0]) > s.tokens
    ensures var (s', ok) := HandleQueued(s, size, verdict); QueuedKeeps(s, s', ok, verdict, size)
  {
    assert s.log.queueTx + Txs([], Outs(s, verdict)) == s.log.queueTx;
  }

  /** The queued handler, called by a task whose flag is not the other handler's. */
  lemma HandleQueuedOk(s: State, size: Size, verdict: nat -> Out)
    requires Inv(s, size) && s.flag.owner != Scheduled
    ensures var (s', ok) := HandleQueued(s, size, verdict); QueuedKeeps(s, s', ok, verdict, size)
  {
    if s.flag.owner == Nobody {
      FetchOk(s, size);
      QueuedAnew(s.(rx := Fetch(s.rx)), size, verdict);
    } else if size(s.rx.burst[0]) <= s.tokens {
      QueuedAgain(s, size, verdict);
    } else {
      QueuedStuck(s, size, verdict);
    }
  }

  // ---- the scheduled handler ----

  /** How many of the due timers from i on leave a packet to send. */
  function Count(due: seq<bool>, i: nat): nat
    requires i <= |due|
    decreases |due| - i
  {
    if i == |due| then 0 else (if due[i] then 1 else 0) + Count(due, i + 1)
  }

  lemma SizesMore(ready: seq<Mbuf>, n: nat, size: Size)
    requires n < |ready|
    ensures Sizes(ready[..n + 1], size) == Sizes(ready[..n], size) + size(ready[n])
  {
    assert ready[..n + 1] == ready[..n] + [ready[n]];
    SizesOne(ready[..n], ready[n], size);
  }

  /** The callbacks spend exactly what the packets cost, and stop early only for lack of buffers or tokens. */
  lemma {:induction false} CallBackIs(ready: seq<Mbuf>, due: seq<bool>, size: Size, tokens: nat, i: nat, n: nat,
        total: nat)
    requires i <= |due| && n <= |ready| && total == tokens + Sizes(ready[..n], size)
    ensures var (n', left, short) := CallBack(ready, due, size, tokens, i, n);
            && total == left + Sizes(ready[..n'], size)
            && (if short then n' < |ready| && n' < n + Count(due, i) && size(ready[n']) > left
                else n' == Min(|ready|, n + Count(due, i)))
    decreases |due| - i
  {
    hide Sizes;
    if i < |due| && n < |ready| {
      if !due[i] {
        CallBackIs(ready, due, size, tokens, i + 1, n, total);
      } else if size(ready[n]) <= tokens {
        SizesMore(ready, n, size);
        CallBackIs(ready, due, size, tokens - size(ready[n]), i + 1, n + 1, total);
      }
    }
  }

  /** Buffers not used yet are kept, behind as many new ones as were used. */
  lemma RefillOk(s: State, size: Size)
    requires Inv(s, size)
    ensures var p, n := Refill(s.pool), MAX_PKT_BURST - |s.pool.ready|;
            && |p.ready| == MAX_PKT_BURST && p.ready[n..] == s.pool.ready
            && (forall k :: 0 <= k < n ==> p.ready[k] !in s.log.replies + s.pool.ready)
    ensures Inv(s.(pool := Refill(s.pool)), size)
  {
    var p, n := Refill(s.pool), MAX_PKT_BURST - |s.pool.ready|;
    RefillDistinct(s.log.replies, p.ready[..n], s.pool.ready, s.pool.issued);
    assert p.ready == p.ready[..n] + s.pool.ready;
  }

  lemma RefillDistinct(before: seq<Mbuf>, added: seq<Mbuf>, after: seq<Mbuf>, issued: nat)
    requires Distinct(before + after) && AllBelow(before + after, issued)
    requires forall k :: 0 <= k < |added| ==> added[k] == issued + k
    ensures Distinct(before + (added + after)) && AllBelow(before + (added + after), issued + |added|)
  {
    var s, t := before + after, before + (added + after);
    forall j, k | 0 <= j < k < |t|
      ensures t[j] != t[k]
    {
      var b, f := |before|, |added|;
      assert (k < b ==> t[k] == s[k]) && (j < b ==> t[j] == s[j]);
      assert (k >= b + f ==> t[k] == s[k - f]) && (j >= b + f ==> t[j] == s[j - f]);
    }
    forall k | 0 <= k < |t|
      ensures t[k] < issued + |added|
    {
      var b, f := |before|, |added|;
      assert (k < b ==> t[k] == s[k]) && (k >= b + f ==> t[k] == s[k - f]);
    }
  }

  /** The packet that was held back. */
  function Saved(s: State): seq<Mbuf> {
    if s.flag.owner == Scheduled then [s.flag.mbufSaved] else []
  }

  lemma ResumeOk(s: State, size: Size)
    requires Inv(s, size) && s.flag.owner != Queued
    requires s.flag.owner == Scheduled ==> size(s.flag.mbufSaved) <= s.tokens
    ensures Inv(Resume(s, size), size) && s.tokens == Resume(s, size).tokens + Sizes(Saved(s), size)
    ensures Resume(s, size).log.timerTx == s.log.timerTx + Saved(s) && Resume(s, size).flag.owner == Nobody
  {
    if s.flag.owner == Scheduled {
      SizesOne(s.log.timerTx, s.flag.mbufSaved, size);
      SizesOne([], s.flag.mbufSaved, size);
      assert [] + [s.flag.mbufSaved] == [s.flag.mbufSaved];
    }
  }

  lemma LeaveTimerBooks(s: State, n: nat, tokens: nat, short: bool)
    requires TimerBooks(s) && s.flag.owner == Nobody && n <= |s.pool.ready| && (short ==> n < |s.pool.ready|)
    ensures TimerBooks(Leave(s, n, tokens, short))
  {
    var ready, n' := s.pool.ready, if short then n + 1 else n;
    assert (s.log.replies + ready[..n']) + ready[n'..] == s.log.replies + ready;
    assert short ==> s.log.timerTx + ready[..n] + [ready[n]] == s.log.timerTx + ready[..n'];
  }

  lemma LeaveQueueBooks(s: State, n: nat, tokens: nat, short: bool)
    requires QueueBooks(s) && s.flag.owner == Nobody && n <= |s.pool.ready| && (short ==> n < |s.pool.ready|)
    ensures QueueBooks(Leave(s, n, tokens, short))
  {}

  lemma LeaveTokenBooks(s: State, n: nat, tokens: nat, short: bool, size: Size)
    requires TokenBooks(s, size) && n <= |s.pool.ready| && (short ==> n < |s.pool.ready|)
    requires s.tokens == tokens + Sizes(s.pool.ready[..n], size)
    ensures TokenBooks(Leave(s, n, tokens, short), size)
  {
    SizesAppend(s.log.timerTx, s.pool.ready[..n], size);
  }

  /** What the scheduled handler has to do once the memory pool has filled up the buffers: the first n of them are
      transmitted and paid for. Either all due timers are served, as far as buffers go, or the next packet is one there
      are no tokens for. */
  ghost predicate CalledBack(s: State, s': State, ok: bool, n: nat, due: seq<bool>, size: Size) {
    var ready := Refill(s.pool).ready;
    && n <= |ready| && s'.log.timerTx == s.log.timerTx + Saved(s) + ready[..n]
    && s.tokens == s'.tokens + Sizes(Saved(s), size) + Sizes(ready[..n], size)
    && (if ok then n == Min(MAX_PKT_BURST, Count(due, 0)) && s'.flag.owner == Nobody && s'.pool.ready == ready[n..]
        else n < Min(MAX_PKT_BURST, Count(due, 0)) && s'.flag.owner == Scheduled && s'.flag.mbufSaved == ready[n]
             && size(ready[n]) > s'.tokens && s'.pool.ready == ready[n + 1..])
  }

  /** The saved packet cannot be paid for yet. */
  ghost predicate StaysStuck(s: State, s': State, size: Size) {
    s' == s && s.flag.owner == Scheduled && size(s.flag.mbufSaved) > s.tokens
  }

  /** The saved packet is transmitted, and there are too few buffers to go on. */
  ghost predicate LacksBuffers(s: State, s': State, room: bool, size: Size) {
    && |s.pool.ready| < MAX_PKT_BURST && !room && s'.pool == s.pool && s'.flag.owner == Nobody
    && s'.log.timerTx == s.log.timerTx + Saved(s) && s.tokens == s'.tokens + Sizes(Saved(s), size)
  }

  ghost predicate ScheduledOutcome(s: State, s': State, ok: bool, due: seq<bool>, room: bool, size: Size) {
    || (!ok && StaysStuck(s, s', size))
    || (!ok && LacksBuffers(s, s', room, size))
    || (exists n: nat :: CalledBack(s, s', ok, n, due, size))
  }

  /** What the scheduled handler leaves alone. */
  ghost predicate ScheduledFrame(s: State, s': State) {
    && s'.rx == s.rx && s'.flag.state == s.flag.state
    && s'.log == s.log.(timerTx := s'.log.timerTx, replies := s'.log.replies)
  }

  ghost predicate ScheduledKeeps(s: State, s': State, ok: bool, due: seq<bool>, room: bool, size: Size) {
    && Inv(s', size) && ScheduledFrame(s, s') && s'.flag.owner != Queued && (ok ==> s'.flag.owner == Nobody)
    && ScheduledOutcome(s, s', ok, due, room, size)
  }

  /** The callbacks fill the first n buffers, and have left tokens. */
  ghost predicate Filled(s: State, n: nat, left: nat, short: bool, due: seq<bool>, size: Size) {
    && n <= |s.pool.ready| && s.tokens == left + Sizes(s.pool.ready[..n], size)
    && (if short then n < Min(|s.pool.ready|, Count(due, 0)) && size(s.pool.ready[n]) > left
        else n == Min(|s.pool.ready|, Count(due, 0)))
  }

  lemma CallBackOk(s: State, size: Size, due: seq<bool>)
    requires Inv(s, size) && s.flag.owner == Nobody
    ensures var (n, left, short) := CallBack(s.pool.ready, due, size, s.tokens, 0, 0);
            Filled(s, n, left, short, due, size) && Inv(Leave(s, n, left, short), size)
  {
    hide QueueBooks, TimerBooks, TokenBooks;
    CallBackIs(s.pool.ready, due, size, s.tokens, 0, 0, s.tokens);
    var (n, left, short) := CallBack(s.pool.ready, due, size, s.tokens, 0, 0);
    LeaveQueueBooks(s, n, left, short);
    LeaveTimerBooks(s, n, left, short);
    LeaveTokenBooks(s, n, left, short, size);
  }

  /** The state in which the callbacks start. */
  function Refilled(s: State, size: Size): State
    requires s.flag.owner != Nobody ==> size(s.flag.mbufSaved) <= s.tokens
  {
    var s1 := Resume(s, size);
    s1.(pool := Refill(s1.pool))
  }

  /** r is s with the saved packet transmitted and the buffers filled up. */
  ghost predicate IsRefilled(s: State, r: State, size: Size) {
    && r.pool == Refill(s.pool) && |r.pool.ready| == MAX_PKT_BURST && ScheduledFrame(s, r)
    && r.log.timerTx == s.log.timerTx + Saved(s) && s.tokens == r.tokens + Sizes(Saved(s), size)
  }

  lemma RefilledOk(s: State, size: Size)
    requires Inv(s, size) && s.flag.owner != Queued
    requires s.flag.owner == Scheduled ==> size(s.flag.mbufSaved) <= s.tokens
    ensures Inv(Refilled(s, size), size) && IsRefilled(s, Refilled(s, size), size)
    ensures Refilled(s, size).flag.owner == Nobody
  {
    ResumeOk(s, size);
    RefillOk(Resume(s, size), size);
  }

  lemma ServedOutcome(s: State, r: State, n: nat, left: nat, short: bool, due: seq<bool>, size: Size)
    requires IsRefilled(s, r, size) && r.flag.owner == Nobody && Filled(r, n, left, short, due, size)
    ensures var s' := Leave(r, n, left, short);
            && CalledBack(s, s', !short, n, due, size) && ScheduledFrame(s, s')
            && s'.flag.owner == if short then Scheduled else Nobody
  {
    hide Refill, Sizes, Count;
  }

  lemma ServedIs(s: State, size: Size, due: seq<bool>, room: bool)
    requires |s.pool.ready| >= MAX_PKT_BURST || room
    requires s.flag.owner != Nobody ==> size(s.flag.mbufSaved) <= s.tokens
    ensures var r := Refilled(s, size);
            var (n, left, short) := CallBack(r.pool.ready, due, size, r.tokens, 0, 0);
            HandleScheduled(s, size, due, room) == (Leave(r, n, left, short), !short)
  {}

  lemma ScheduledServed(s: State, size: Size, due: seq<bool>, room: bool)
    requires Inv(s, size) && s.flag.owner != Queued && (|s.pool.ready| >= MAX_PKT_BURST || room)
    requires s.flag.owner == Scheduled ==> size(s.flag.mbufSaved) <= s.tokens
    ensures var (s', ok) := HandleScheduled(s, size, due, room); ScheduledKeeps(s, s', ok, due, room, size)
  {
    hide Inv, HandleScheduled, CallBack, Refilled, Refill, Leave, IsRefilled, Filled, CalledBack, ScheduledFrame, Sizes;
    var r := Refilled(s, size);
    var (n, left, short) := CallBack(r.pool.ready, due, size, r.tokens, 0, 0);
    ServedIs(s, size, due, room);
    RefilledOk(s, size);
    CallBackOk(r, size, due);
    ServedOutcome(s, r, n, left, short, due, size);
    assert CalledBack(s, Leave(r, n, left, short), !short, n, due, size);
  }

  /** Not even the first timer is looked at. */
  ghost predicate StopsFirst(s: State, size: Size, room: bool) {
    (s.flag.owner == Scheduled && size(s.flag.mbufSaved) > s.tokens) || (|s.pool.ready| < MAX_PKT_BURST && !room)
  }

  lemma ScheduledStopped(s: State, size: Size, due: seq<bool>, room: bool)
    requires Inv(s, size) && s.flag.owner != Queued
    requires StopsFirst(s, size, room)
    ensures var (s', ok) := HandleScheduled(s, size, due, room); ScheduledKeeps(s, s', ok, due, room, size)
  {
    hide QueueBooks, TimerBooks, TokenBooks, CalledBack, Refill, Count, CallBack, Leave;
    if s.flag.owner == Nobody || size(s.flag.mbufSaved) <= s.tokens {
      ResumeOk(s, size);
      assert LacksBuffers(s, Resume(s, size), room, size);
    } else {
      assert StaysStuck(s, s, size);
    }
  }

  /** The scheduled handler, called by a task whose flag is not the other handler's. */
  lemma HandleScheduledOk(s: State, size: Size, due: seq<bool>, room: bool)
    requires Inv(s, size) && s.flag.owner != Queued
    ensures var (s', ok) := HandleScheduled(s, size, due, room); ScheduledKeeps(s, s', ok, due, room, size)
  {
    hide QueueBooks, TimerBooks, TokenBooks, HandleScheduled, ScheduledKeeps;
    if StopsFirst(s, size, room) {
      ScheduledStopped(s, size, due, room);
    } else {
      ScheduledServed(s, size, due, room);
    }
  }

  // ---- one call ----

  /** What has happened stays so. */
  ghost predicate Grows(s: State, t: State) {
    && s.log.accepted <= t.log.accepted && s.log.rejected <= t.log.rejected
    && s.log.decided <= t.log.decided && s.log.queueTx <= t.log.queueTx
    && s.log.replies <= t.log.replies && s.log.timerTx <= t.log.timerTx && s.log.granted <= t.log.granted
  }

  lemma GrowsOn(s: State, t: State, u: State)
    requires Grows(s, t) && Grows(t, u)
    ensures Grows(s, u)
  {}

  lemma HandleQueuedGrows(s: State, size: Size, verdict: nat -> Out)
    ensures Grows(s, HandleQueued(s, size, verdict).0)
  {}

  lemma HandleScheduledGrows(s: State, size: Size, due: seq<bool>, room: bool)
    ensures Grows(s, HandleScheduled(s, size, due, room).0)
  {}

  lemma EnqueueOk(s: State, size: Size, mbufs: seq<Mbuf>)
    requires Inv(s, size)
    ensures Inv(Enqueue(s, mbufs), size) && Grows(s, Enqueue(s, mbufs))
  {
    var n := Min(|mbufs|, s.rx.cap - |s.rx.waiting|);
    assert Mbufs(s.log.queueTx) + (s.rx.burst + (s.rx.waiting + mbufs[..n]))
        == Mbufs(s.log.queueTx) + (s.rx.burst + s.rx.waiting) + mbufs[..n];
  }

  lemma QueuedFirstOk(s: State, size: Size, c: Call)
    requires Inv(s, size) && Turn(s) && s.flag.state == HANDLE_QUEUED
    ensures var s' := QueuedFirst(s, size, c); Inv(s', size) && Turn(s') && Grows(s, s')
  {
    HandleQueuedOk(s, size, c.verdict);
    HandleQueuedGrows(s, size, c.verdict);
    var (s1, ok) := HandleQueued(s, size, c.verdict);
    if ok {
      HandleScheduledOk(s1, size, c.due, c.room);
      HandleScheduledGrows(s1, size, c.due, c.room);
    }
  }

  lemma ScheduledFirstOk(s: State, size: Size, c: Call)
    requires Inv(s, size) && Turn(s) && s.flag.state == HANDLE_SCHEDULED
    ensures var s' := ScheduledFirst(s, size, c); Inv(s', size) && Turn(s') && Grows(s, s')
  {
    HandleScheduledOk(s, size, c.due, c.room);
    HandleScheduledGrows(s, size, c.due, c.room);
    var (s1, ok) := HandleScheduled(s, size, c.due, c.room);
    if ok {
      HandleQueuedOk(s1, size, c.verdict);
      HandleQueuedGrows(s1, size, c.verdict);
    }
  }

  /** The state at the beginning of a call, when tokens have been added and packets received. */
  function Received(s: State, c: Call): State
    requires |s.rx.waiting| <= s.rx.cap
  {
    Enqueue(Grant(s, c.grant), c.mbufs)
  }

  lemma ReceivedOk(s: State, size: Size, c: Call)
    requires Inv(s, size) && Turn(s)
    ensures Inv(Received(s, c), size) && Turn(Received(s, c)) && Grows(s, Received(s, c))
  {
    EnqueueOk(Grant(s, c.grant), size, c.mbufs);
  }

  /** The handler that set the flag is the first one called, and the only one that finds it set. */
  lemma HandleBulkOk(s: State, size: Size, c: Call)
    requires Inv(s, size) && Turn(s)
    ensures var s' := HandleBulk(s, size, c); Inv(s', size) && Turn(s') && Grows(s, s')
  {
    ReceivedOk(s, size, c);
    if s.flag.state == HANDLE_QUEUED {
      QueuedFirstOk(Received(s, c), size, c);
    } else {
      ScheduledFirstOk(Received(s, c), size, c);
    }
  }

  // ---- enough tokens and buffers ----

  ghost predicate AtMost(size: Size, big: nat) {
    forall m :: size(m) <= big
  }

  lemma {:induction false} PaidAtMost(txs: seq<Tx>, size: Size, big: nat)
    requires AtMost(size, big)
    ensures Paid(txs, size) <= |txs| * big
  {
    if txs != [] {
      PaidAtMost(txs[..|txs| - 1], size, big);
    }
  }

  lemma {:induction false} SizesAtMost(ms: seq<Mbuf>, size: Size, big: nat)
    requires AtMost(size, big)
    ensures Sizes(ms, size) <= |ms| * big
  {
    if ms != [] {
      SizesAtMost(ms[..|ms| - 1], size, big);
    }
  }

  /** Tokens for a burst of the largest packets let the queued handler finish. */
  lemma QueuedFinishes(s: State, size: Size, verdict: nat -> Out, big: nat)
    requires Inv(s, size) && s.flag.owner != Scheduled && AtMost(size, big) && s.tokens >= MAX_PKT_BURST * big
    ensures var (s', ok) := HandleQueued(s, size, verdict);
            ok && s.tokens <= s'.tokens + MAX_PKT_BURST * big
  {
    hide QueueBooks, TimerBooks, TokenBooks, HandleQueued, Txs, Paid;
    HandleQueuedOk(s, size, verdict);
    var (s', ok) := HandleQueued(s, size, verdict);
    var burst, out, k := Looked(s), Outs(s, verdict), Passed(s, s');
    PaidAtMost(Txs(burst[..k], out), size, big);
    BurstAtMost(k, big);
    if !ok {
      assert k < |burst| <= MAX_PKT_BURST;
      BurstAtMost(k + 1, big);
    }
  }

  lemma BurstAtMost(k: nat, big: nat)
    requires k <= MAX_PKT_BURST
    ensures k * big <= MAX_PKT_BURST * big
    ensures k > 0 ==> (k - 1) * big + big <= MAX_PKT_BURST * big
  {}

  lemma SavedAtMost(s: State, size: Size, big: nat)
    requires AtMost(size, big)
    ensures Sizes(Saved(s), size) <= big
  {
    SizesAtMost(Saved(s), size, big);
  }

  lemma ReadyAtMost(ready: seq<Mbuf>, n: nat, size: Size, big: nat)
    requires AtMost(size, big) && n <= |ready| && n <= MAX_PKT_BURST
    ensures Sizes(ready[..n], size) <= MAX_PKT_BURST * big
    ensures n < |ready| && n < MAX_PKT_BURST ==> Sizes(ready[..n], size) + size(ready[n]) <= MAX_PKT_BURST * big
  {
    SizesAtMost(ready[..n], size, big);
    BurstAtMost(n, big);
    if n < MAX_PKT_BURST {
      BurstAtMost(n + 1, big);
    }
  }

  lemma CalledBackAll(s: State, s': State, ok: bool, n: nat, due: seq<bool>, size: Size, big: nat)
    requires CalledBack(s, s', ok, n, due, size)
    requires AtMost(size, big) && s.tokens >= MAX_PKT_BURST * big + big
    ensures ok && s.tokens <= s'.tokens + MAX_PKT_BURST * big + big
  {
    SavedAtMost(s, size, big);
    ReadyAtMost(Refill(s.pool).ready, n, size, big);
  }

  /** Tokens for one more than that, and buffers, let the scheduled handler finish. */
  lemma ScheduledFinishes(s: State, size: Size, due: seq<bool>, room: bool, big: nat)
    requires Inv(s, size) && s.flag.owner != Queued && AtMost(size, big) && s.tokens >= MAX_PKT_BURST * big + big
    requires room || |s.pool.ready| >= MAX_PKT_BURST
    ensures var (s', ok) := HandleScheduled(s, size, due, room);
            ok && s.tokens <= s'.tokens + MAX_PKT_BURST * big + big
  {
    HandleScheduledOk(s, size, due, room);
    var (s', ok) := HandleScheduled(s, size, due, room);
    assert ScheduledOutcome(s, s', ok, due, room, size);
    assert !LacksBuffers(s, s', room, size);
    if exists n: nat :: CalledBack(s, s', ok, n, due, size) {
      var n: nat :| CalledBack(s, s', ok, n, due, size);
      CalledBackAll(s, s', ok, n, due, size, big);
    } else {
      SavedAtMost(s, size, big);
    }
  }

  /** Tokens for a full burst and for as many timers, and one packet more, each of the largest size; and buffers. */
  ghost predicate Funded(c: Call, big: nat) {
    c.room && Paying(c, big)
  }

  /** The tokens alone. */
  ghost predicate Paying(c: Call, big: nat) {
    c.grant >= 2 * MAX_PKT_BURST * big + big
  }

  /** After such a call nothing is held back: the whole burst is transmitted, and every packet of a timed-out stream. */
  ghost predicate Flushed(s: State, s': State) {
    && s'.flag.owner == Nobody && s'.rx == Fetch(s.rx).(burst := [])
    && Mbufs(s'.log.queueTx) == Mbufs(s.log.queueTx) + Looked(s)
    && s'.log.timerTx == s'.log.replies
  }

  lemma HandledAll(s: State, s': State, size: Size, verdict: nat -> Out)
    requires QueuedKeeps(s, s', true, verdict, size)
    ensures Mbufs(s'.log.queueTx) == Mbufs(s.log.queueTx) + Looked(s) && s'.rx == Fetch(s.rx).(burst := [])
  {}

  lemma NothingHeldBack(s: State, size: Size)
    requires Inv(s, size) && s.flag.owner == Nobody
    ensures s.log.timerTx == s.log.replies
  {}

  lemma FundedQueuedFirst(s: State, size: Size, c: Call, big: nat)
    requires Inv(s, size) && Turn(s) && s.flag.state == HANDLE_QUEUED
    requires AtMost(size, big) && s.tokens >= 2 * MAX_PKT_BURST * big + big && c.room
    ensures Flushed(s, QueuedFirst(s, size, c))
  {
    hide QueueBooks, TimerBooks, TokenBooks;
    QueuedFinishes(s, size, c.verdict, big);
    HandleQueuedOk(s, size, c.verdict);
    var s1 := HandleQueued(s, size, c.verdict).0;
    HandledAll(s, s1, size, c.verdict);
    ScheduledFinishes(s1, size, c.due, c.room, big);
    HandleScheduledOk(s1, size, c.due, c.room);
    NothingHeldBack(HandleScheduled(s1, size, c.due, c.room).0, size);
  }

  lemma FundedScheduledFirst(s: State, size: Size, c: Call, big: nat)
    requires Inv(s, size) && Turn(s) && s.flag.state == HANDLE_SCHEDULED
    requires AtMost(size, big) && s.tokens >= 2 * MAX_PKT_BURST * big + big && c.room
    ensures Flushed(s, ScheduledFirst(s, size, c))
  {
    hide QueueBooks, TimerBooks, TokenBooks;
    ScheduledFinishes(s, size, c.due, c.room, big);
    HandleScheduledOk(s, size, c.due, c.room);
    var s1 := HandleScheduled(s, size, c.due, c.room).0;
    FundedQueuedLast(s1, size, c.verdict, big);
    assert s1.rx == s.rx && s1.log.queueTx == s.log.queueTx;
  }

  lemma FundedQueuedLast(s: State, size: Size, verdict: nat -> Out, big: nat)
    requires Inv(s, size) && s.flag.owner == Nobody && AtMost(size, big) && s.tokens >= MAX_PKT_BURST * big
    ensures var (s', ok) := HandleQueued(s, size, verdict); ok && Flushed(s, s')
  {
    hide QueueBooks, TimerBooks, TokenBooks;
    QueuedFinishes(s, size, verdict, big);
    HandleQueuedOk(s, size, verdict);
    var s' := HandleQueued(s, size, verdict).0;
    HandledAll(s, s', size, verdict);
    NothingHeldBack(s', size);
  }

  /** Enough granted tokens and buffers drain the pending burst, and the reply held back. */
  lemma FundedFlushes(s: State, size: Size, c: Call, big: nat)
    requires Inv(s, size) && Turn(s) && AtMost(size, big) && Funded(c, big)
    ensures Flushed(Received(s, c), HandleBulk(s, size, c))
  {
    ReceivedOk(s, size, c);
    if s.flag.state == HANDLE_QUEUED {
      FundedQueuedFirst(Received(s, c), size, c, big);
    } else {
      FundedScheduledFirst(Received(s, c), size, c, big);
    }
  }

  // ---- runs ----

  ghost predicate StepAt(states: seq<State>, calls: seq<Call>, size: Size, i: nat)
    requires i < |calls| && i + 1 < |states|
  {
    |states[i].rx.waiting| <= states[i].rx.cap && states[i + 1] == HandleBulk(states[i], size, calls[i])
  }

  /** states are those between the calls of handle_gen_bulk, from a valid one on. */
  ghost predicate IsRun(states: seq<State>, calls: seq<Call>, size: Size) {
    && |states| == |calls| + 1 && Inv(states[0], size) && Turn(states[0])
    && forall i {:trigger StepAt(states, calls, size, i)} :: 0 <= i < |calls| ==> StepAt(states, calls, size, i)
  }

  /** The state of a task before any packet is received. */
  function Created(cap: nat): State {
    State(Rx([], cap, []), Pool([], 0), Flag(HANDLE_QUEUED, Nobody, Reply, 0), 0, Log([], [], [], [], [], [], 0))
  }

  lemma CreatedOk(cap: nat, size: Size)
    ensures Inv(Created(cap), size) && Turn(Created(cap))
  {}

  lemma StepOk(states: seq<State>, calls: seq<Call>, size: Size, i: nat)
    requires i < |calls| && i + 1 < |states| && StepAt(states, calls, size, i)
    requires Inv(states[i], size) && Turn(states[i])
    ensures Inv(states[i + 1], size) && Turn(states[i + 1]) && Grows(states[i], states[i + 1])
  {
    HandleBulkOk(states[i], size, calls[i]);
  }

  lemma {:induction false} RunOk(states: seq<State>, calls: seq<Call>, size: Size, i: nat)
    requires IsRun(states, calls, size) && i < |states|
    ensures Inv(states[i], size) && Turn(states[i])
  {
    if i > 0 {
      RunOk(states, calls, size, i - 1);
      StepOk(states, calls, size, i - 1);
    }
  }

  /** In every run: accepted packets leave in the order in which they came, each with the one decision made about it;
      no buffer is used twice; what is transmitted costs no more than the tokens granted. */
  lemma ExactlyOnce(states: seq<State>, calls: seq<Call>, size: Size, i: nat)
    requires IsRun(states, calls, size) && i < |states|
    ensures var log := states[i].log;
            && Mbufs(log.queueTx) <= log.accepted && log.queueTx <= log.decided && |log.decided| <= |log.queueTx| + 1
            && log.timerTx <= log.replies && |log.replies| <= |log.timerTx| + 1 && Distinct(log.replies)
            && Paid(log.queueTx, size) + Sizes(log.timerTx, size) <= log.granted
  {
    RunOk(states, calls, size, i);
    var s := states[i];
    assert forall k :: 0 <= k < |s.log.replies| ==> (s.log.replies + s.pool.ready)[k] == s.log.replies[k];
  }

  lemma {:induction false} RunGrows(states: seq<State>, calls: seq<Call>, size: Size, m: nat, n: nat)
    requires IsRun(states, calls, size) && m <= n < |states|
    ensures Grows(states[m], states[n])
  {
    if m == n {
      assert Grows(states[m], states[n]);
    } else {
      hide Inv, Turn, StepAt, Grows;
      RunGrows(states, calls, size, m, n - 1);
      RunOk(states, calls, size, n - 1);
      StepOk(states, calls, size, n - 1);
      GrowsOn(states[m], states[n - 1], states[n]);
    }
  }

  /** How many of the calls from m up to n are funded. */
  ghost function Funds(calls: seq<Call>, big: nat, m: nat, n: nat): nat
    requires m <= n <= |calls|
  {
    if m == n then 0 else Funds(calls, big, m, n - 1) + if Funded(calls[n - 1], big) then 1 else 0
  }

  /** Packets that have left the queue. */
  ghost function Taken(s: State): nat {
    |s.log.queueTx| + |s.rx.burst|
  }

  /** The queued handler takes a full burst, or all there is, when the last one is done. */
  lemma QueuedTakes(s: State, s': State, ok: bool, verdict: nat -> Out, size: Size)
    requires Inv(s, size) && QueuedKeeps(s, s', ok, verdict, size)
    ensures Taken(s') == if s.rx.burst == [] then Min(Taken(s) + MAX_PKT_BURST, |s.log.accepted|) else Taken(s)
  {}

  /** What one call does to the packets taken from the queue. */
  ghost predicate Advances(s: State, s': State) {
    && Taken(s') >= Taken(s)
    && (s.rx.burst == [] && s'.rx.burst != [] ==> Taken(s') >= Min(Taken(s) + MAX_PKT_BURST, |s.log.accepted|))
  }

  lemma QueuedFirstAdvances(s: State, size: Size, c: Call)
    requires Inv(s, size) && Turn(s) && s.flag.state == HANDLE_QUEUED
    ensures Advances(s, QueuedFirst(s, size, c))
  {
    hide QueueBooks, TimerBooks, TokenBooks;
    HandleQueuedOk(s, size, c.verdict);
    var (s1, ok) := HandleQueued(s, size, c.verdict);
    QueuedTakes(s, s1, ok, c.verdict, size);
    if ok {
      HandleScheduledOk(s1, size, c.due, c.room);
    }
  }

  lemma ScheduledFirstAdvances(s: State, size: Size, c: Call)
    requires Inv(s, size) && Turn(s) && s.flag.state == HANDLE_SCHEDULED
    ensures Advances(s, ScheduledFirst(s, size, c))
  {
    hide QueueBooks, TimerBooks, TokenBooks;
    HandleScheduledOk(s, size, c.due, c.room);
    var (s1, ok) := HandleScheduled(s, size, c.due, c.room);
    if ok {
      HandleQueuedOk(s1, size, c.verdict);
      var (s2, ok2) := HandleQueued(s1, size, c.verdict);
      QueuedTakes(s1, s2, ok2, c.verdict, size);
    }
  }

  lemma CallAdvances(s: State, size: Size, c: Call)
    requires Inv(s, size) && Turn(s)
    ensures Advances(s, HandleBulk(s, size, c))
  {
    ReceivedOk(s, size, c);
    if s.flag.state == HANDLE_QUEUED {
      QueuedFirstAdvances(Received(s, c), size, c);
    } else {
      ScheduledFirstAdvances(Received(s, c), size, c);
    }
  }

  /** The first a packets accepted are all transmitted, or as many as f funded calls transmit at least: t, and a full
      burst for each call but the first. */
  ghost predicate Through(s: State, a: nat, t: nat, f: nat) {
    && Taken(s) >= Min(a, t + MAX_PKT_BURST * (f - if s.rx.burst == [] then 1 else 0))
    && (f > 0 ==> |s.log.queueTx| >= Min(a, t + MAX_PKT_BURST * (f - 1)))
  }

  lemma CallThrough(s: State, size: Size, c: Call, big: nat, a: nat, t: nat, f: nat)
    requires Inv(s, size) && Turn(s) && AtMost(size, big) && Through(s, a, t, f) && a <= |s.log.accepted|
    ensures Through(HandleBulk(s, size, c), a, t, if Funded(c, big) then f + 1 else f)
  {
    hide QueueBooks, TimerBooks, TokenBooks, HandleBulk;
    HandleBulkOk(s, size, c);
    CallAdvances(s, size, c);
    if Funded(c, big) {
      FundedFlushes(s, size, c, big);
      FlushTakes(s, HandleBulk(s, size, c), size, c);
    }
  }

  lemma FlushTakes(s: State, s': State, size: Size, c: Call)
    requires Inv(s, size) && Turn(s) && Flushed(Received(s, c), s')
    ensures s'.rx.burst == [] && Taken(s') == |s'.log.queueTx|
    ensures Taken(s') >= if s.rx.burst == [] then Min(Taken(s) + MAX_PKT_BURST, |s.log.accepted|) else Taken(s)
  {
    ReceivedOk(s, size, c);
    var r := Received(s, c);
    assert |Mbufs(s'.log.queueTx)| == |Mbufs(r.log.queueTx)| + |Looked(r)|;
  }

  lemma {:induction false} RunThrough(states: seq<State>, calls: seq<Call>, size: Size, big: nat, m: nat, n: nat)
    requires IsRun(states, calls, size) && AtMost(size, big) && m <= n < |states|
    ensures Through(states[n], |states[m].log.accepted|, Taken(states[m]), Funds(calls, big, m, n))
  {
    if m == n {
      RunOk(states, calls, size, m);
    } else {
      RunThrough(states, calls, size, big, m, n - 1);
      RunGrows(states, calls, size, m, n - 1);
      ThroughStep(states, calls, size, big, |states[m].log.accepted|, Taken(states[m]), Funds(calls, big, m, n - 1), n - 1);
    }
  }

  lemma ThroughStep(states: seq<State>, calls: seq<Call>, size: Size, big: nat, a: nat, t: nat, f: nat, i: nat)
    requires IsRun(states, calls, size) && AtMost(size, big) && i < |calls| && a <= |states[i].log.accepted|
    requires Through(states[i], a, t, f)
    ensures Through(states[i + 1], a, t, if Funded(calls[i], big) then f + 1 else f)
  {
    RunOk(states, calls, size, i);
    assert StepAt(states, calls, size, i);
    CallThrough(states[i], size, calls[i], big, a, t, f);
  }

  /** A packet of a timed-out stream waits for one such call at most. */
  lemma {:induction false} RepliesDelivered(states: seq<State>, calls: seq<Call>, size: Size, big: nat, m: nat, n: nat)
    requires IsRun(states, calls, size) && AtMost(size, big) && m <= n < |states|
    requires Funds(calls, big, m, n) > 0
    ensures states[m].log.replies <= states[n].log.timerTx
  {
    RunGrows(states, calls, size, m, n);
    RunGrows(states, calls, size, n - 1, n);
    if Funded(calls[n - 1], big) {
      RunOk(states, calls, size, n - 1);
      assert StepAt(states, calls, size, n - 1);
      FundedFlushes(states[n - 1], size, calls[n - 1], big);
    } else {
      RepliesDelivered(states, calls, size, big, m, n - 1);
    }
  }

  /** Whatever happens in between, f calls with enough tokens and buffers transmit the burst that is under way and f - 1
      full ones, or every packet that was waiting; and a packet of a timed-out stream that was held back. */
  lemma Delivered(states: seq<State>, calls: seq<Call>, size: Size, big: nat, m: nat, n: nat)
    requires IsRun(states, calls, size) && AtMost(size, big) && m <= n < |states|
    requires Funds(calls, big, m, n) > 0
    ensures |states[n].log.queueTx|
            >= Min(|states[m].log.accepted|, Taken(states[m]) + MAX_PKT_BURST * (Funds(calls, big, m, n) - 1))
    ensures MAX_PKT_BURST * (Funds(calls, big, m, n) - 1) >= |states[m].rx.waiting|
            ==> states[m].log.accepted <= Mbufs(states[n].log.queueTx)
    ensures states[m].log.replies <= states[n].log.timerTx
  {
    RepliesDelivered(states, calls, size, big, m, n);
    RunThrough(states, calls, size, big, m, n);
    RunOk(states, calls, size, m);
    RunOk(states, calls, size, n);
    RunGrows(states, calls, size, m, n);
  }

  // ---- where the code falls short ----

  /** It is the scheduled handler's turn, and it needs buffers to begin. */
  ghost predicate Starved(s: State) {
    s.flag.state == HANDLE_SCHEDULED && |s.pool.ready| < MAX_PKT_BURST
  }

  lemma StarvedCall(s: State, size: Size, c: Call)
    requires Inv(s, size) && Turn(s) && Starved(s) && !c.room
    ensures var s' := HandleBulk(s, size, c);
            Starved(s') && s'.log.queueTx == s.log.queueTx && s'.rx == Received(s, c).rx
            && s'.log.accepted == Received(s, c).log.accepted
  {
    ReceivedOk(s, size, c);
    hide QueueBooks, TimerBooks, TokenBooks;
    assert HandleBulk(s, size, c) == HandleScheduled(Received(s, c), size, c.due, false).0;
  }

  /** From then on, and for as long as the memory pool has no buffers, no received packet is answered, though answers
      need none and whatever tokens there are. */
  lemma {:induction false} QueueWaitsForBuffers(states: seq<State>, calls: seq<Call>, size: Size, m: nat, n: nat)
    requires IsRun(states, calls, size) && m <= n < |states|
    requires Starved(states[m]) && forall i :: m <= i < n ==> !calls[i].room
    ensures Starved(states[n]) && states[n].log.queueTx == states[m].log.queueTx
  {
    if m < n {
      QueueWaitsForBuffers(states, calls, size, m, n - 1);
      RunOk(states, calls, size, n - 1);
      assert StepAt(states, calls, size, n - 1);
      StarvedCall(states[n - 1], size, calls[n - 1]);
    }
  }

  /** Every packet that is looked at, of those that wait after the new ones have come, is passed to tx_pkt. */
  ghost predicate Answers(s: State, s': State) {
    Mbufs(s'.log.queueTx) == Mbufs(s.log.queueTx) + Looked(s)
  }

  lemma QueuedAnswers(s: State, size: Size, c: Call, big: nat)
    requires Inv(s, size) && Turn(s) && s.flag.state == HANDLE_QUEUED
    requires AtMost(size, big) && s.tokens >= 2 * MAX_PKT_BURST * big + big
    ensures Answers(s, QueuedFirst(s, size, c))
  {
    hide QueueBooks, TimerBooks, TokenBooks;
    QueuedFinishes(s, size, c.verdict, big);
    HandleQueuedOk(s, size, c.verdict);
    var s1 := HandleQueued(s, size, c.verdict).0;
    HandledAll(s, s1, size, c.verdict);
    HandleScheduledOk(s1, size, c.due, c.room);
  }

  lemma ScheduledAnswers(s: State, size: Size, c: Call, big: nat)
    requires Inv(s, size) && Turn(s) && s.flag.state == HANDLE_SCHEDULED && (c.room || !Starved(s))
    requires AtMost(size, big) && s.tokens >= 2 * MAX_PKT_BURST * big + big
    ensures Answers(s, ScheduledFirst(s, size, c))
  {
    hide QueueBooks, TimerBooks, TokenBooks;
    ScheduledFinishes(s, size, c.due, c.room, big);
    HandleScheduledOk(s, size, c.due, c.room);
    var s1 := HandleScheduled(s, size, c.due, c.room).0;
    FundedQueuedLast(s1, size, c.verdict, big);
    assert s1.rx == s.rx && s1.log.queueTx == s.log.queueTx;
  }

  /** When there are tokens for everything, the packets that wait are answered if and only if it is not the scheduled
      handler's turn, or that handler has its buffers, or the memory pool does. */
  lemma AnsweredUnlessStarved(s: State, size: Size, c: Call, big: nat)
    requires Inv(s, size) && Turn(s) && AtMost(size, big) && Paying(c, big) && Looked(Received(s, c)) != []
    ensures Answers(Received(s, c), HandleBulk(s, size, c)) <==> !Starved(s) || c.room
  {
    hide QueueBooks, TimerBooks, TokenBooks, QueuedFirst, ScheduledFirst;
    ReceivedOk(s, size, c);
    if s.flag.state == HANDLE_QUEUED {
      QueuedAnswers(Received(s, c), size, c, big);
    } else if !Starved(s) || c.room {
      ScheduledAnswers(Received(s, c), size, c, big);
    } else {
      StarvedCall(s, size, c);
      assert |Mbufs(s.log.queueTx) + Looked(Received(s, c))| > |Mbufs(s.log.queueTx)|;
    }
  }

  /** So in every run, whatever tokens are granted from then on: nothing is answered if and only if the memory pool has
      no buffers in any call. */
  lemma {:induction false} AnsweredOnceThereIsRoom(states: seq<State>, calls: seq<Call>, size: Size, big: nat, m: nat,
        n: nat)
    requires IsRun(states, calls, size) && AtMost(size, big) && m <= n < |states|
    requires Starved(states[m]) && Looked(states[m]) != [] && forall i :: m <= i < n ==> Paying(calls[i], big)
    ensures states[n].log.queueTx == states[m].log.queueTx <==> forall i :: m <= i < n ==> !calls[i].room
    decreases n - m
  {
    hide Inv, Turn, HandleBulk;
    if m < n {
      RunOk(states, calls, size, m);
      assert StepAt(states, calls, size, m);
      if calls[m].room {
        AnsweredUnlessStarved(states[m], size, calls[m], big);
        RunGrows(states, calls, size, m + 1, n);
        AnswersGrow(states[m], states[m + 1], calls[m]);
      } else {
        StarvedCall(states[m], size, calls[m]);
        AnsweredOnceThereIsRoom(states, calls, size, big, m + 1, n);
      }
    }
  }

  lemma AnswersGrow(s: State, s': State, c: Call)
    requires |s.rx.waiting| <= s.rx.cap && Looked(s) != [] && Answers(Received(s, c), s')
    ensures |s'.log.queueTx| > |s.log.queueTx|
  {
    assert |Mbufs(s'.log.queueTx)| == |Mbufs(s.log.queueTx)| + |Looked(Received(s, c))|;
  }

  /** A call in which the memory pool has no buffers and no timer runs out. */
  function Dry(mbufs: seq<Mbuf>, grant: nat): Call {
    Call(mbufs, grant, (j: nat) => Reply, [], false)
  }

  /** A new server whose memory pool has no buffers after its first call. */
  function NoBuffers(cap: nat, grant: nat): State {
    State(Rx([], cap, []), Pool([], 0), Flag(HANDLE_SCHEDULED, Nobody, Reply, 0), grant,
          Log([], [], [], [], [], [], grant))
  }

  lemma FirstCallStarves(cap: nat, size: Size, grant: nat)
    ensures HandleBulk(Created(cap), size, Dry([], grant)) == NoBuffers(cap, grant) && Starved(NoBuffers(cap, grant))
  {}

  /** The second call brings a packet. */
  lemma SecondCallAccepts(cap: nat, size: Size, grant: nat)
    requires cap > 0
    ensures var s := HandleBulk(NoBuffers(cap, grant), size, Dry([0], grant));
            Starved(s) && s.log.accepted == [0] && s.log.queueTx == []
  {}

  lemma PacketAccepted(cap: nat, size: Size, grant: nat) returns (states: seq<State>, calls: seq<Call>)
    requires cap > 0
    ensures IsRun(states, calls, size) && states[0] == Created(cap) && calls == [Dry([], grant), Dry([0], grant)]
    ensures Starved(states[2]) && states[2].log.accepted == [0] && states[2].log.queueTx == []
  {
    CreatedOk(cap, size);
    FirstCallStarves(cap, size, grant);
    SecondCallAccepts(cap, size, grant);
    hide HandleBulk, Inv, Turn, Starved;
    calls := [Dry([], grant), Dry([0], grant)];
    states := [Created(cap), NoBuffers(cap, grant), HandleBulk(NoBuffers(cap, grant), size, calls[1])];
    assert StepAt(states, calls, size, 0) && StepAt(states, calls, size, 1);
  }

  /** A run in which the server accepts a packet and does not answer it in n calls, however many tokens each grants. */
  lemma {:induction false} PacketUnanswered(cap: nat, size: Size, grant: nat, n: nat)
        returns (states: seq<State>, calls: seq<Call>)
    requires cap > 0
    ensures IsRun(states, calls, size) && states[0] == Created(cap) && |calls| == n + 2
    ensures forall i :: 0 <= i < |calls| ==> calls[i].grant == grant && calls[i].due == []
    ensures Starved(states[n + 2]) && states[n + 2].log.accepted == [0] && states[n + 2].log.queueTx == []
  {
    hide HandleBulk, QueueBooks, TimerBooks, TokenBooks, Turn;
    if n == 0 {
      states, calls := PacketAccepted(cap, size, grant);
    } else {
      states, calls := PacketUnanswered(cap, size, grant, n - 1);
      RunOk(states, calls, size, n + 1);
      StarvedCall(states[n + 1], size, Dry([], grant));
      ExtendRun(states, calls, size, Dry([], grant));
      states, calls := states + [HandleBulk(states[n + 1], size, Dry([], grant))], calls + [Dry([], grant)];
    }
  }

  lemma ExtendRun(states: seq<State>, calls: seq<Call>, size: Size, c: Call)
    requires IsRun(states, calls, size) && Inv(states[|calls|], size)
    ensures IsRun(states + [HandleBulk(states[|calls|], size, c)], calls + [c], size)
  {
    hide HandleBulk, QueueBooks, TimerBooks, TokenBooks;
    var states', calls' := states + [HandleBulk(states[|calls|], size, c)], calls + [c];
    forall i | 0 <= i < |calls'|
      ensures StepAt(states', calls', size, i)
    {
      assert i < |calls| ==> StepAt(states, calls, size, i);
    }
  }

  // ---- which packets are accepted ----

  lemma QueuedLeaves(s: State, size: Size, verdict: nat -> Out)
    ensures var s' := HandleQueued(s, size, verdict).0;
            s'.log.accepted == s.log.accepted && s'.log.rejected == s.log.rejected && s'.rx.cap == s.rx.cap
  {}

  lemma ScheduledLeaves(s: State, size: Size, due: seq<bool>, room: bool)
    ensures var s' := HandleScheduled(s, size, due, room).0;
            s'.log.accepted == s.log.accepted && s'.log.rejected == s.log.rejected && s'.rx.cap == s.rx.cap
  {}

  /** What a call accepts: the first packets of its burst, as many as there are free places, and no more are dropped. */
  ghost predicate AcceptsFirst(s: State, c: Call, s': State) {
    var n := |s'.log.accepted| - |s.log.accepted|;
    && 0 <= n <= |c.mbufs| && |s.rx.waiting| + n <= s.rx.cap && (n < |c.mbufs| ==> |s.rx.waiting| + n == s.rx.cap)
    && s'.log.accepted == s.log.accepted + c.mbufs[..n] && s'.log.rejected == s.log.rejected + c.mbufs[n..]
    && s'.rx.cap == s.rx.cap
  }

  lemma CallAccepts(s: State, size: Size, c: Call)
    requires |s.rx.waiting| <= s.rx.cap
    ensures AcceptsFirst(s, c, HandleBulk(s, size, c))
  {
    hide HandleQueued, HandleScheduled;
    var r := Received(s, c);
    assert AcceptsFirst(s, c, r);
    QueuedLeaves(r, size, c.verdict);
    ScheduledLeaves(r, size, c.due, c.room);
    QueuedLeaves(HandleScheduled(r, size, c.due, c.room).0, size, c.verdict);
    ScheduledLeaves(HandleQueued(r, size, c.verdict).0, size, c.due, c.room);
  }

  /** In every run of a server with a queue of cap packets each call accepts a prefix of its burst and drops the rest,
      and drops a packet only when with those before it in its burst cap packets are waiting: those accepted that are
      neither transmitted nor in the burst being answered. */
  lemma DroppedOnlyWhenFull(states: seq<State>, calls: seq<Call>, size: Size, cap: nat, i: nat)
    requires IsRun(states, calls, size) && states[0] == Created(cap) && i < |calls|
    ensures var s, s', mbufs := states[i], states[i + 1], calls[i].mbufs;
            var waiting, n := |s.log.accepted| - |s.log.queueTx| - |s.rx.burst|, |s'.log.accepted| - |s.log.accepted|;
            && 0 <= n <= |mbufs| && waiting >= 0 && waiting + n <= cap && (n < |mbufs| ==> waiting + n == cap)
            && s'.log.accepted == s.log.accepted + mbufs[..n] && s'.log.rejected == s.log.rejected + mbufs[n..]
    ensures states[i].rx.cap == cap
  {
    hide HandleBulk, TimerBooks, TokenBooks, Turn, Created;
    RunOk(states, calls, size, i);
    CapStays(states, calls, size, cap, i);
    assert StepAt(states, calls, size, i);
    CallAccepts(states[i], size, calls[i]);
    assert |Mbufs(states[i].log.queueTx)| == |states[i].log.queueTx|;
  }

  lemma {:induction false} CapStays(states: seq<State>, calls: seq<Call>, size: Size, cap: nat, i: nat)
    requires IsRun(states, calls, size) && states[0] == Created(cap) && i <= |calls|
    ensures states[i].rx.cap == cap
  {
    hide HandleBulk;
    if i > 0 {
      CapStays(states, calls, size, cap, i - 1);
      assert StepAt(states, calls, size, i - 1);
      CallAccepts(states[i - 1], size, calls[i - 1]);
    }
  }

  /** Two packets come when there is room for one: the first is accepted, the second dropped. */
  lemma OneOfTwoFits(s: State, size: Size, c: Call)
    requires s.rx.waiting == [1, 2] && s.rx.cap == 3 && c.mbufs == [3, 4]
    ensures var log := HandleBulk(s, size, c).log;
            log.accepted == s.log.accepted + [3] && log.rejected == s.log.rejected + [4]
  {
    CallAccepts(s, size, c);
    assert [3, 4][..1] == [3] && [3, 4][1..] == [4];
  }

  // ---- what the handlers take ----

  /** A new burst is the oldest 64 packets waiting, or all of them. */
  lemma BurstIs(s: State, size: Size, verdict: nat -> Out)
    requires s.rx.burst == []
    ensures var s' := HandleQueued(s, size, verdict).0;
            var n := |s.rx.waiting| - |s'.rx.waiting|;
            && 0 <= n <= 64 && (n < 64 ==> s'.rx.waiting == []) && s'.rx.waiting == s.rx.waiting[n..]
            && |s'.rx.burst| <= n && s'.rx.burst == s.rx.waiting[n - |s'.rx.burst|..n]
  {
    hide Decide, Txs;
    var s1 := s.(rx := Fetch(s.rx));
    assert s.rx.waiting[..0] == [];
  }

  /** The scheduled handler works on 64 buffers: those left and as many new ones as are missing. */
  lemma BuffersAre(s: State, size: Size)
    requires Inv(s, size)
    ensures var p, n := Refill(s.pool), 64 - |s.pool.ready|;
            && n >= 0 && |p.ready| == 64 && p.ready[n..] == s.pool.ready && p.issued == s.pool.issued + n
            && forall k :: 0 <= k < n ==> p.ready[k] == s.pool.issued + k
  {}

  /** Three packets that are answered, dropped and answered, with replies of 100 bytes: only the replies cost tokens,
      and a reply that cannot be paid is held back. */
  lemma OnlyRepliesCost(s: State, verdict: nat -> Out)
    requires s.flag.owner == Nobody && s.rx.burst == [7, 8, 9]
    requires verdict(0) == Reply && verdict(1) == Discard && verdict(2) == Reply
    ensures var (s', ok), t := HandleQueued(s, _ => 100, verdict), s.tokens;
            && s'.tokens == (if t >= 200 then t - 200 else if t >= 100 then t - 100 else t)
            && s'.rx.burst == (if t >= 200 then [] else if t >= 100 then [9] else [7, 8, 9]) && (ok <==> t >= 200)
  {
    var out := Verdict(false, s.flag.outSaved, verdict);
    assert Decide([7, 8, 9], out, _ => 100, s.tokens, 3) == (3, s.tokens);
  }
}
