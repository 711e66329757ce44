/** The layer 4 server task as the program keeps it: the two handlers over its arrays and flags, each call of which is a
    call of Server. */
module ServerTask {
  import opened Words
  import opened FQueue
  import opened Server
  import ServerRuns

  /** What tx_pkt is given: packets, and what becomes of each. */
  ghost function Sent(ms: seq<Mbuf>, outs: seq<Out>): (r: seq<Tx>)
    requires |outs| <= |ms|
    ensures |r| == |outs| && forall k :: 0 <= k < |r| ==> r[k] == Tx(ms[k], outs[k])
  {
    seq(|outs|, k requires 0 <= k < |outs| => Tx(ms[k], outs[k]))
  }

  /** The main loop has got from packet j, with log0 and t0 tokens, to packet k, with log and t tokens. */
  ghost predicate Reached(burst: seq<Mbuf>, out: nat -> Out, size: Size, j: nat, log0: Log, t0: nat, k: nat, log: Log,
        t: nat) {
    && j <= k <= |burst| && Decide(burst, out, size, t, k) == Decide(burst, out, size, t0, j)
    && log == log0.(decided := log0.decided + Txs(burst[..k], out)[j..])
  }

  lemma ReachedMore(burst: seq<Mbuf>, out: nat -> Out, size: Size, j: nat, log0: Log, t0: nat, k: nat, log: Log, t: nat)
    requires Reached(burst, out, size, j, log0, t0, k, log, t) && k < |burst|
    requires out(k) != Reply || size(burst[k]) <= t
    ensures Reached(burst, out, size, j, log0, t0, k + 1, log.(decided := log.decided + [Tx(burst[k], out(k))]),
                    if out(k) == Reply then t - size(burst[k]) else t)
  {
    ServerRuns.OneMore(burst, out, size, k);
  }

  /** The loop has ended at packet k, with log and t tokens. */
  ghost predicate Ended(burst: seq<Mbuf>, out: nat -> Out, size: Size, j: nat, log0: Log, t0: nat, k: nat, log: Log,
        t: nat) {
    && j <= k <= |burst| && Decide(burst, out, size, t0, j) == (k, t)
    && log == log0.(decided := log0.decided + Txs(burst[..k], out)[j..]
                               + if k < |burst| then [Tx(burst[k], Reply)] else [])
  }

  lemma ReachedEnd(burst: seq<Mbuf>, out: nat -> Out, size: Size, j: nat, log0: Log, t0: nat, k: nat, log: Log, t: nat)
    requires Reached(burst, out, size, j, log0, t0, k, log, t)
    ensures k == |burst| ==> Ended(burst, out, size, j, log0, t0, k, log, t)
    ensures k < |burst| && out(k) == Reply && size(burst[k]) > t
            ==> Ended(burst, out, size, j, log0, t0, k, log.(decided := log.decided + [Tx(burst[k], Reply)]), t)
  {}

  /** The callbacks have got to due timer i and buffer n, with log and t tokens. */
  ghost predicate Called(ready: seq<Mbuf>, due: seq<bool>, size: Size, log0: Log, t0: nat, i: nat, n: nat, log: Log,
        t: nat) {
    && i <= |due| && n <= |ready| && CallBack(ready, due, size, t, i, n) == CallBack(ready, due, size, t0, 0, 0)
    && log == log0.(replies := log0.replies + ready[..n])
  }

  lemma CalledMore(ready: seq<Mbuf>, due: seq<bool>, size: Size, log0: Log, t0: nat, i: nat, n: nat, log: Log, t: nat)
    requires Called(ready, due, size, log0, t0, i, n, log, t) && i < |due| && due[i] && n < |ready|
    ensures size(ready[n]) > t ==> CallBack(ready, due, size, t0, 0, 0) == (n, t, true)
    ensures size(ready[n]) <= t
            ==> Called(ready, due, size, log0, t0, i + 1, n + 1, log.(replies := log.replies + [ready[n]]),
                       t - size(ready[n]))
  {
    assert ready[..n + 1] == ready[..n] + [ready[n]];
  }

  /** The reply held back is paid for. */
  ghost function Unheld(s: State, size: Size): State
    requires s.flag.owner != Nobody ==> s.rx.burst != [] && size(s.rx.burst[0]) <= s.tokens
  {
    if s.flag.owner == Nobody then s
    else s.(tokens := s.tokens - size(s.rx.burst[0]), flag := s.flag.(owner := Nobody))
  }

  lemma QueuedIs(s: State, size: Size, verdict: nat -> Out)
    requires s.flag.owner != Nobody ==> s.rx.burst != []
    ensures var s1, held := s.(rx := Server.Fetch(s.rx)), s.flag.owner != Nobody;
            var burst, out, j := s1.rx.burst, Verdict(held, s.flag.outSaved, verdict), if held then 1 else 0;
            if held && size(burst[0]) > s.tokens then Server.HandleQueued(s, size, verdict) == (s1, false)
            else
              var s2 := Unheld(s1, size);
              var (k, left) := Decide(burst, out, size, s2.tokens, j);
              Server.HandleQueued(s, size, verdict) == (Stop(s2, j, k, left, out), k == |burst|)
  {}

  class GenServer {
    const queue: FastQueue
    const size: Size
    var handleState: HandleState
    const curMbufs: array<Mbuf>
    var beg: nat
    var end: nat
    var cancelled: bool
    var outSaved: Out
    var mbufSaved: Mbuf
    const newMbufs: array<Mbuf>
    var nNew: nat
    var bytesNow: nat
    /** The memory pool numbers the buffers it gives out. */
    var issued: nat

    ghost var owner: Owner
    ghost var log: Log

    ghost function Repr(): set<object> {
      {this, queue, queue.entries, curMbufs, newMbufs}
    }

    ghost predicate Shape()
      reads this, queue
    {
      && queue.Valid()
      && curMbufs != newMbufs && curMbufs != queue.entries && newMbufs != queue.entries
      && curMbufs.Length == MAX_PKT_BURST == newMbufs.Length
      && beg <= end <= MAX_PKT_BURST && nNew <= MAX_PKT_BURST && (cancelled <==> owner != Nobody)
    }

    ghost function RxView(): Rx
      requires Shape()
      reads this, queue, queue.entries, curMbufs
    {
      Rx(queue.Contents(), queue.mask as nat, curMbufs[beg..end])
    }

    ghost function PoolView(): Pool
      requires Shape()
      reads this, queue, newMbufs
    {
      Pool(newMbufs[MAX_PKT_BURST - nNew..], issued)
    }

    ghost function FlagView(): Flag
      reads this
    {
      Flag(handleState, owner, outSaved, mbufSaved)
    }

    ghost function View(): State
      requires Shape()
      reads this, queue, queue.entries, curMbufs, newMbufs
    {
      State(RxView(), PoolView(), FlagView(), bytesNow, log)
    }

    ghost predicate Valid()
      reads Repr()
    {
      Shape() && Inv(View(), size)
    }

    constructor (queueSize: u32, size: Size)
      requires queueSize > 0 && WORD % queueSize as int == 0
      ensures Valid() && fresh(Repr()) && this.size == size
      ensures View() == ServerRuns.Created(queueSize as nat - 1)
    {
      var q := new FastQueue(queueSize, 0);
      queue := q;
      this.size := size;
      handleState := HANDLE_QUEUED;
      curMbufs := new Mbuf[MAX_PKT_BURST](_ => 0);
      newMbufs := new Mbuf[MAX_PKT_BURST](_ => 0);
      beg, end, nNew, bytesNow, issued := 0, 0, 0, 0, 0;
      cancelled, outSaved, mbufSaved, owner := false, Reply, 0, Nobody;
      log := Log([], [], [], [], [], [], 0);
      new;
      assert View() == ServerRuns.Created(queueSize as nat - 1);
      ServerRuns.CreatedOk(queueSize as nat - 1, size);
    }

    // ---- tokens ----

    /** token_time_take */
    method TakeTokens(m: Mbuf) returns (ok: bool)
      modifies `bytesNow
      ensures ok <==> size(m) <= old(bytesNow)
      ensures bytesNow == old(bytesNow) - if ok then size(m) else 0
    {
      ok := size(m) <= bytesNow;
      if ok {
        bytesNow := bytesNow - size(m);
      }
    }

    // ---- the queued handler ----

    /** A new burst is taken from the queue when the last one is done. */
    method Fetch()
      requires Shape()
      modifies `beg, `end, queue`cons, curMbufs
      ensures Shape() && View() == old(View()).(rx := Server.Fetch(old(RxView())))
    {
      if beg == end {
        var n := queue.Get(curMbufs, MAX_PKT_BURST);
        end := n;
        beg := 0;
      }
    }

    /** tx_pkt of the first packets of the burst. */
    method TxPkt(outs: seq<Out>)
      requires Shape() && |outs| <= end - beg
      modifies `log, `beg
      ensures Shape()
      ensures View() == old(View()).(rx := old(RxView()).(burst := old(RxView()).burst[|outs|..]),
                           log := old(log).(queueTx := old(log).queueTx + Sent(old(RxView()).burst, outs)))
    {
      log := log.(queueTx := log.queueTx + Sent(curMbufs[beg..end], outs));
      beg := beg + |outs|;
    }

    /** There are no tokens for the reply decided last: the packets before it are transmitted. */
    method HoldBack(outs: seq<Out>)
      requires Shape() && |outs| <= end - beg
      modifies `cancelled, `owner, `outSaved, `log, `beg
      ensures Shape()
      ensures View() == old(View()).(rx := old(RxView()).(burst := old(RxView()).burst[|outs|..]),
                           flag := old(FlagView()).(owner := Queued, outSaved := Reply),
                           log := old(log).(queueTx := old(log).queueTx + Sent(old(RxView()).burst, outs)))
    {
      outSaved := Reply;
      cancelled := true;
      owner := Queued;
      TxPkt(outs);
    }

    /** One packet of the burst. */
    method DecideOne(m: Mbuf, out: Out) returns (ok: bool)
      modifies `bytesNow, `log
      ensures ok == (out != Reply || size(m) <= old(bytesNow))
      ensures bytesNow == if out == Reply && ok then old(bytesNow) - size(m) else old(bytesNow)
      ensures log == old(log).(decided := old(log).decided + [Tx(m, out)])
    {
      log := log.(decided := log.decided + [Tx(m, out)]);
      ok := true;
      if out == Reply {
        ok := TakeTokens(m);
      }
    }

    /** Packet k of the burst, in the main loop that started at packet j with log0 and t0 tokens. */
    method DecideNext(k: nat, out: nat -> Out, ghost j: nat, ghost log0: Log, ghost t0: nat) returns (ok: bool)
      requires beg <= end <= curMbufs.Length && k < end - beg
      requires Reached(curMbufs[beg..end], out, size, j, log0, t0, k, log, bytesNow)
      modifies `bytesNow, `log
      ensures ok ==> Reached(curMbufs[beg..end], out, size, j, log0, t0, k + 1, log, bytesNow)
      ensures !ok ==> Ended(curMbufs[beg..end], out, size, j, log0, t0, k, log, bytesNow)
    {
      ghost var burst := curMbufs[beg..end];
      if out(k) != Reply || size(burst[k]) <= bytesNow {
        ReachedMore(burst, out, size, j, log0, t0, k, log, bytesNow);
      } else {
        ReachedEnd(burst, out, size, j, log0, t0, k, log, bytesNow);
      }
      ok := DecideOne(curMbufs[beg + k], out(k));
    }

    /** The main loop of handle_gen_queued, from packet |outs0| of the burst on. It stops at a reply for which there are
        no tokens. */
    method DecideEach(outs0: seq<Out>, out: nat -> Out) returns (outs: seq<Out>, ok: bool)
      requires beg <= end <= curMbufs.Length && |outs0| <= end - beg
      requires forall k :: 0 <= k < |outs0| ==> outs0[k] == out(k)
      modifies `bytesNow, `log
      ensures |outs0| <= |outs| <= end - beg && forall k :: 0 <= k < |outs| ==> outs[k] == out(k)
      ensures ok == (|outs| == end - beg)
      ensures Ended(curMbufs[beg..end], out, size, |outs0|, old(log), old(bytesNow), |outs|, log, bytesNow)
    {
      outs, ok := outs0, true;
      ghost var burst := curMbufs[beg..end];
      while |outs| < end - beg
        invariant ok && Reached(burst, out, size, |outs0|, old(log), old(bytesNow), |outs|, log, bytesNow)
        invariant forall k :: 0 <= k < |outs| ==> outs[k] == out(k)
        decreases end - beg - |outs|
      {
        ok := DecideNext(|outs|, out, |outs0|, old(log), old(bytesNow));
        if !ok {
          return;
        }
        outs := outs + [out(|outs|)];
      }
      ReachedEnd(burst, out, size, |outs0|, old(log), old(bytesNow), |outs|, log, bytesNow);
    }

    method DecideAll(outs0: seq<Out>, out: nat -> Out) returns (ok: bool)
      requires Shape() && owner == Nobody && |outs0| <= end - beg
      requires forall k :: 0 <= k < |outs0| ==> outs0[k] == out(k)
      modifies `bytesNow, `cancelled, `owner, `outSaved, `log, `beg
      ensures Shape()
      ensures var burst := old(RxView()).burst;
              var (k, left) := Decide(burst, out, size, old(bytesNow), |outs0|);
              ok == (k == |burst|) && View() == Stop(old(View()), |outs0|, k, left, out)
    {
      var outs;
      outs, ok := DecideEach(outs0, out);
      assert Sent(RxView().burst, outs) == Txs(RxView().burst[..|outs|], out);
      if ok {
        TxPkt(outs);
      } else {
        HoldBack(outs);
      }
    }

    /** The packet that was held back goes first, when there are tokens for it now. */
    method ResumeQueued() returns (ok: bool, outs: seq<Out>)
      requires Shape() && (cancelled ==> beg < end)
      modifies `bytesNow, `cancelled, `owner
      ensures Shape()
      ensures ok == (old(cancelled) ==> size(old(RxView()).burst[0]) <= old(bytesNow))
      ensures !ok ==> View() == old(View())
      ensures ok ==> View() == Unheld(old(View()), size) && outs == if old(cancelled) then [outSaved] else []
    {
      ok, outs := true, [];
      if cancelled {
        ok := TakeTokens(curMbufs[beg]);
        if ok {
          outs := [outSaved];
          cancelled := false;
          owner := Nobody;
        }
      }
    }

    /** handle_gen_queued */
    method HandleQueued(verdict: nat -> Out) returns (ok: bool)
      requires Shape() && (cancelled ==> beg < end)
      modifies `beg, `end, queue`cons, curMbufs, `bytesNow, `cancelled, `owner, `outSaved, `log
      ensures Shape() && (View(), ok) == Server.HandleQueued(old(View()), size, verdict)
      ensures ServerRuns.Grows(old(View()), View())
    {
      ServerRuns.HandleQueuedGrows(View(), size, verdict);
      QueuedIs(View(), size, verdict);
      var out := Verdict(cancelled, outSaved, verdict);
      Fetch();
      var outs;
      ok, outs := ResumeQueued();
      if !ok {
        return;
      }
      ok := DecideAll(outs, out);
    }

    // ---- the scheduled handler ----

    /** The saved packet goes first, when there are tokens for it now. */
    method ResumeScheduled() returns (ok: bool)
      requires Shape()
      modifies `bytesNow, `cancelled, `owner, `log
      ensures Shape() && ok == (old(cancelled) ==> size(mbufSaved) <= old(bytesNow))
      ensures View() == if ok then Resume(old(View()), size) else old(View())
    {
      ok := true;
      if cancelled {
        ok := TakeTokens(mbufSaved);
        if ok {
          cancelled := false;
          owner := Nobody;
          log := log.(timerTx := log.timerTx + [mbufSaved]);
        }
      }
    }

    /** refill_mbufs: the buffers used up, at the front, are replaced. room says whether the memory pool has enough. */
    method RefillMbufs(room: bool) returns (ok: bool)
      requires Shape()
      modifies `nNew, `issued, newMbufs
      ensures Shape() && ok == (old(nNew) == MAX_PKT_BURST || room)
      ensures ok ==> nNew == MAX_PKT_BURST && View() == old(View()).(pool := Refill(old(PoolView())))
      ensures !ok ==> View() == old(View())
    {
      if nNew == MAX_PKT_BURST {
        return true;
      }
      if !room {
        return false;
      }
      var n := MAX_PKT_BURST - nNew;
      ghost var kept := newMbufs[n..];
      var i := 0;
      while i < n
        invariant nNew == old(nNew) && issued == old(issued)
        invariant 0 <= i <= n && newMbufs[n..] == kept
        invariant forall k :: 0 <= k < i ==> newMbufs[k] == issued + k
      {
        newMbufs[i] := issued + i;
        i := i + 1;
      }
      assert newMbufs[..] == newMbufs[..n] + kept;
      issued := issued + n;
      nNew := MAX_PKT_BURST;
      ok := true;
    }

    /** tx_pkt of the first n new buffers. */
    method TxPktNew(n: nat)
      requires Shape() && n <= nNew
      modifies `log, `nNew
      ensures Shape() && nNew == old(nNew) - n
      ensures View() == old(View()).(pool := old(PoolView()).(ready := old(PoolView()).ready[n..]),
                           log := old(log).(timerTx := old(log).timerTx + old(PoolView()).ready[..n]))
    {
      log := log.(timerTx := log.timerTx + newMbufs[MAX_PKT_BURST - nNew..MAX_PKT_BURST - nNew + n]);
      nNew := nNew - n;
    }

    /** The next new buffer is kept for later. */
    method Keep(m: Mbuf)
      requires Shape() && nNew > 0
      modifies `cancelled, `owner, `outSaved, `mbufSaved, `nNew
      ensures Shape()
      ensures View() == old(View()).(pool := old(PoolView()).(ready := old(PoolView()).ready[1..]),
                           flag := old(FlagView()).(owner := Scheduled, outSaved := Reply, mbufSaved := m))
    {
      outSaved := Reply;
      cancelled := true;
      owner := Scheduled;
      mbufSaved := m;
      nNew := nNew - 1;
    }

    /** There are no tokens for new buffer n: it is kept, and those before it are transmitted. */
    method SaveMbuf(n: nat)
      requires Shape() && n < nNew == MAX_PKT_BURST
      modifies `cancelled, `owner, `outSaved, `mbufSaved, `log, `nNew
      ensures Shape()
      ensures View() == old(View()).(pool := old(PoolView()).(ready := old(PoolView()).ready[n + 1..]),
                           flag := old(FlagView()).(owner := Scheduled, outSaved := Reply,
                             mbufSaved := old(PoolView()).ready[n]),
                           log := old(log).(timerTx := old(log).timerTx + old(PoolView()).ready[..n]))
    {
      ghost var ready := PoolView().ready;
      assert ready[n] == newMbufs[n] && ready[n..][1..] == ready[n + 1..];
      var m := newMbufs[n];
      TxPktNew(n);
      Keep(m);
    }

    /** The stream of due timer i leaves a packet in new buffer n. */
    method FillOne(due: seq<bool>, i: nat, n: nat, ghost log0: Log, ghost t0: nat) returns (ok: bool)
      requires i < |due| && due[i] && n < newMbufs.Length
      requires Called(newMbufs[..], due, size, log0, t0, i, n, log, bytesNow)
      modifies `bytesNow, `log
      ensures ok ==> Called(newMbufs[..], due, size, log0, t0, i + 1, n + 1, log, bytesNow)
      ensures !ok ==> CallBack(newMbufs[..], due, size, t0, 0, 0) == (n, bytesNow, true)
                      && log == log0.(replies := log0.replies + newMbufs[..n + 1])
    {
      CalledMore(newMbufs[..], due, size, log0, t0, i, n, log, bytesNow);
      assert newMbufs[..n + 1] == newMbufs[..n] + [newMbufs[n]];
      log := log.(replies := log.replies + [newMbufs[n]]);
      ok := TakeTokens(newMbufs[n]);
    }

    /** The loop of handle_gen_scheduled: the buffers filled, and whether tokens lasted. */
    method FillEach(due: seq<bool>) returns (n: nat, ok: bool)
      requires nNew == MAX_PKT_BURST == newMbufs.Length
      modifies `bytesNow, `log
      ensures n <= nNew && (!ok ==> n < nNew)
      ensures CallBack(newMbufs[..], due, size, old(bytesNow), 0, 0) == (n, bytesNow, !ok)
      ensures log == old(log).(replies := old(log).replies + newMbufs[..if ok then n else n + 1])
    {
      n, ok := 0, true;
      var i := 0;
      while i < |due| && n < nNew
        invariant ok && i <= |due| && n <= nNew
        invariant Called(newMbufs[..], due, size, old(log), old(bytesNow), i, n, log, bytesNow)
      {
        if due[i] {
          ok := FillOne(due, i, n, old(log), old(bytesNow));
          if !ok {
            return;
          }
          n := n + 1;
        }
        i := i + 1;
      }
    }

    /** handle_gen_scheduled. due are the bundles whose timers have run out, each with whether its stream then has a
        packet to send; those that are not reached stay in the heap. */
    method HandleScheduled(due: seq<bool>, room: bool) returns (ok: bool)
      requires Shape()
      modifies `bytesNow, `cancelled, `owner, `outSaved, `mbufSaved, `log, `nNew, `issued, newMbufs
      ensures Shape() && (View(), ok) == Server.HandleScheduled(old(View()), size, due, room)
      ensures ServerRuns.Grows(old(View()), View())
    {
      ServerRuns.HandleScheduledGrows(View(), size, due, room);
      ok := ResumeScheduled();
      if !ok {
        return;
      }
      ok := RefillMbufs(room);
      if !ok {
        return;
      }
      ok := CallBackAll(due);
    }

    method CallBackAll(due: seq<bool>) returns (ok: bool)
      requires Shape() && nNew == MAX_PKT_BURST
      modifies `bytesNow, `cancelled, `owner, `outSaved, `mbufSaved, `log, `nNew
      ensures Shape()
      ensures var (n, left, short) := CallBack(old(PoolView()).ready, due, size, old(bytesNow), 0, 0);
              ok == !short && View() == Leave(old(View()), n, left, short)
    {
      assert newMbufs[0..] == newMbufs[..];
      var n;
      n, ok := FillEach(due);
      if ok {
        TxPktNew(n);
      } else {
        SaveMbuf(n);
      }
    }

    // ---- one call ----

    /** Packets the queue has no room for are dropped at once. */
    method Enqueue(mbufs: seq<Mbuf>) returns (n: u32)
      requires Shape() && |mbufs| < WORD
      modifies `log, queue`prod, queue.entries
      ensures Shape() && View() == Server.Enqueue(old(View()), mbufs)
      ensures var waiting, cap := |old(View()).rx.waiting|, View().rx.cap;
              && n as int <= |mbufs| && waiting + n as int <= cap && (n as int < |mbufs| ==> waiting + n as int == cap)
      ensures log == old(log).(accepted := old(log).accepted + mbufs[..n], rejected := old(log).rejected + mbufs[n..])
    {
      n := queue.Put(mbufs);
      log := log.(accepted := log.accepted + mbufs[..n], rejected := log.rejected + mbufs[n..]);
    }

    /** token_time_update and fqueue_put, at the start of a call. */
    method Receive(mbufs: seq<Mbuf>, grant: nat)
      requires Shape() && |mbufs| < WORD
      modifies `bytesNow, `log, queue`prod, queue.entries
      ensures Shape() && View() == Server.Enqueue(Server.Grant(old(View()), grant), mbufs)
    {
      bytesNow := bytesNow + grant;
      log := log.(granted := log.granted + grant);
      var n := Enqueue(mbufs);
    }

    method SetState(st: HandleState)
      requires Shape()
      modifies `handleState
      ensures Shape() && View() == old(View()).(flag := old(FlagView()).(state := st))
    {
      handleState := st;
    }

    method QueuedFirst(verdict: nat -> Out, due: seq<bool>, room: bool, ghost c: Call)
      requires Valid() && owner != Scheduled && c.verdict == verdict && c.due == due && c.room == room
      modifies `handleState, `beg, `end, queue`cons, curMbufs, `bytesNow, `cancelled, `owner, `outSaved, `log
      modifies `mbufSaved, `nNew, `issued, newMbufs
      ensures Shape() && View() == Server.QueuedFirst(old(View()), size, c)
    {
      var ok := HandleQueued(verdict);
      if ok {
        ok := HandleScheduled(due, room);
        if !ok {
          SetState(HANDLE_SCHEDULED);
        }
      }
    }

    method ScheduledFirst(verdict: nat -> Out, due: seq<bool>, room: bool, ghost c: Call)
      requires Valid() && owner != Queued && c.verdict == verdict && c.due == due && c.room == room
      modifies `handleState, `beg, `end, queue`cons, curMbufs, `bytesNow, `cancelled, `owner, `outSaved, `log
      modifies `mbufSaved, `nNew, `issued, newMbufs
      ensures Shape() && View() == Server.ScheduledFirst(old(View()), size, c)
    {
      ServerRuns.HandleScheduledOk(View(), size, due, room);
      var ok := HandleScheduled(due, room);
      if ok {
        ok := HandleQueued(verdict);
        if !ok {
          SetState(HANDLE_QUEUED);
        }
      }
    }

    /** handle_gen_bulk. Whichever handler set the cancelled flag is the first to run. */
    method HandleBulk(mbufs: seq<Mbuf>, grant: nat, verdict: nat -> Out, due: seq<bool>, room: bool)
      requires Valid() && Turn(View()) && |mbufs| < WORD
      modifies Repr()
      ensures Valid() && Turn(View()) && ServerRuns.Grows(old(View()), View())
      ensures View() == Server.HandleBulk(old(View()), size, Call(mbufs, grant, verdict, due, room))
    {
      ghost var s, c := View(), Call(mbufs, grant, verdict, due, room);
      ServerRuns.HandleBulkOk(s, size, c);
      ServerRuns.ReceivedOk(s, size, c);
      Receive(mbufs, grant);
      if handleState == HANDLE_QUEUED {
        QueuedFirst(verdict, due, room, c);
      } else {
        ScheduledFirst(verdict, due, room, c);
      }
    }
  }
}
