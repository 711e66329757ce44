/** What the bundle pool keeps through every run. */
module BundleRuns {
  import opened Bundle
  import opened Division
  import opened Draws

  // ---- counting ----

  lemma CountUpdate(s: seq<int>, i: nat, x: int, v: int)
    requires i < |s|
    ensures Count(s[i := x], v) == Count(s, v) - One(s[i] == v) + One(x == v)
  {
  }

  function One(b: bool): int {
    if b then 1 else 0
  }

  /** p' differs from p in no other bundle than i, and in the freedom of no other. */
  ghost predicate OnlyAt(p: Pool, p': Pool, i: nat) {
    && |p'.bundles| == |p.bundles| && i < |p.bundles|
    && forall k :: 0 <= k < |p.bundles| && k != i ==> p'.bundles[k] == p.bundles[k] && (k in p'.free <==> k in p.free)
  }

  lemma ProtosAt(cfgs: Cfgs, p: Pool, p': Pool, i: nat)
    requires OnlyAt(p, p', i)
    ensures Protos(cfgs, p') == Protos(cfgs, p)[i := Code(cfgs, p', i)]
  {
    forall k | 0 <= k < |p.bundles| && k != i
      ensures Code(cfgs, p', k) == Code(cfgs, p, k)
    {
    }
  }

  lemma HeldAt(p: Pool, p': Pool, i: nat)
    requires OnlyAt(p, p', i)
    ensures Held(p') == Held(p)[i := HeldBy(p', i)]
  {
    forall k | 0 <= k < |p.bundles| && k != i
      ensures HeldBy(p', k) == HeldBy(p, k)
    {
    }
  }

  /** The statistics stay balanced when they change as the protocol of bundle i does. */
  lemma BalancedAt(cfgs: Cfgs, p: Pool, p': Pool, i: nat)
    requires OnlyAt(p, p', i) && Balanced(cfgs, p)
    requires Balance(p'.stats, TCP) - Balance(p.stats, TCP) == One(Code(cfgs, p', i) == 1) - One(Code(cfgs, p, i) == 1)
    requires Balance(p'.stats, UDP) - Balance(p.stats, UDP) == One(Code(cfgs, p', i) == 2) - One(Code(cfgs, p, i) == 2)
    ensures Balanced(cfgs, p')
  {
    ProtosAt(cfgs, p, p', i);
    CountUpdate(Protos(cfgs, p), i, Code(cfgs, p', i), 1);
    CountUpdate(Protos(cfgs, p), i, Code(cfgs, p', i), 2);
  }

  /** What is left changes against what bundle i holds. */
  ghost predicate Trades(p: Pool, p': Pool, i: nat, c: nat)
    requires i < |p.bundles| == |p'.bundles|
  {
    Count(p'.occur, c) - Count(p.occur, c) == One(HeldBy(p, i) == c + 1) - One(HeldBy(p', i) == c + 1)
  }

  lemma ConservedAt(p: Pool, p': Pool, i: nat, all: multiset<nat>)
    requires OnlyAt(p, p', i) && Conserved(p, all) && p'.weighted == p.weighted
    requires p.weighted ==> forall c: nat :: Trades(p, p', i, c)
    ensures Conserved(p', all)
  {
    HeldAt(p, p', i);
    if p.weighted {
      forall c: nat
        ensures Count(p'.occur, c) + Count(Held(p'), c + 1) == all[c]
      {
        CountUpdate(Held(p), i, HeldBy(p', i), c + 1);
        assert Trades(p, p', i, c);
      }
    }
  }

  // ---- entering and leaving the tables ----

  /** The tables hold for every bundle but i, which is neither free nor found. */
  ghost predicate TablesBut(p: Pool, i: nat) {
    && i < |p.bundles| && i !in p.free
    && FreeList(p.free, |p.bundles|)
    && (forall k :: 0 <= k < |p.bundles| && k !in p.free && k != i ==> Found(p, k))
    && (forall t :: t in p.hash ==> Owned(p, t) && p.entries[p.hash[t]] != i)
    && Timers(p) && (forall k :: 0 <= k < |p.bundles| && k in p.free ==> !p.bundles[k].timer)
  }

  ghost function Pop(p: Pool): Pool
    requires p.free != []
  {
    p.(free := p.free[..|p.free| - 1])
  }

  lemma PopFree(p: Pool)
    requires FreeList(p.free, |p.bundles|) && p.free != []
    ensures var i := p.free[|p.free| - 1];
            && FreeList(Pop(p).free, |p.bundles|) && i < |p.bundles| && i !in Pop(p).free
            && (forall k :: k in p.free <==> k in Pop(p).free || k == i)
            && Pop(p).free + [i] == p.free
  {
    assert p.free == Pop(p).free + [p.free[|p.free| - 1]];
  }

  lemma PopTables(p: Pool)
    requires Tables(p) && p.free != []
    ensures TablesBut(Pop(p), p.free[|p.free| - 1])
  {
    PopFree(p);
    forall t | t in p.hash
      ensures Owned(Pop(p), t) && p.entries[p.hash[t]] != p.free[|p.free| - 1]
    {
      assert Owned(p, t);
    }
    forall k | 0 <= k < |p.bundles| && k !in p.free
      ensures Found(Pop(p), k)
    {
      assert Found(p, k);
    }
  }

  /** An active bundle is taken out of the hash table. */
  lemma DropTables(p: Pool, i: nat, b: Bundle)
    requires Tables(p) && i < |p.bundles| && i !in p.free && b.timer == p.bundles[i].timer
    ensures TablesBut(p.(hash := p.hash - {p.bundles[i].tuple}, bundles := p.bundles[i := b]), i)
  {
    var p' := p.(hash := p.hash - {p.bundles[i].tuple}, bundles := p.bundles[i := b]);
    assert Found(p, i);
    forall t | t in p'.hash
      ensures Owned(p', t) && p'.entries[p'.hash[t]] != i
    {
      assert Owned(p, t);
    }
    forall k | 0 <= k < |p.bundles| && k !in p.free && k != i
      ensures Found(p', k)
    {
      assert Found(p, k);
    }
  }

  /** The bundle is entered under a tuple not in use. */
  lemma EnterTables(p: Pool, i: nat, b: Bundle, slot: nat)
    requires TablesBut(p, i) && Usable(p.hash, slot, |p.entries|) && b.tuple !in p.hash
    requires b.timer == p.bundles[i].timer
    ensures Tables(Enter(p, i, b, slot)) && OnlyAt(p, Enter(p, i, b, slot), i)
  {
    var p' := Enter(p, i, b, slot);
    assert forall t :: t in p.hash ==> p.hash[t] in p.hash.Values;
    forall t | t in p'.hash
      ensures Owned(p', t)
    {
      if t != b.tuple {
        assert Owned(p, t);
      }
    }
    forall k | 0 <= k < |p.bundles| && k !in p'.free
      ensures Found(p', k)
    {
      if k != i {
        assert Found(p, k);
      }
    }
  }

  /** The bundle is given back. */
  lemma PutTables(p: Pool, i: nat)
    requires TablesBut(p, i) && !p.bundles[i].timer
    ensures Tables(Put(p, i)) && OnlyAt(p, Put(p, i), i) && i in Put(p, i).free
  {
    var p' := Put(p, i);
    assert forall k :: k in p'.free <==> k in p.free || k == i;
    forall t | t in p'.hash
      ensures Owned(p', t)
    {
      assert Owned(p, t);
    }
    forall k | 0 <= k < |p.bundles| && k !in p'.free
      ensures Found(p', k)
    {
      assert Found(p, k);
    }
  }

  /** Changing anything but the tuple of an active bundle, and its timer with the heap, leaves the tables alone. */
  lemma SameTables(p: Pool, p': Pool, i: nat)
    requires i < |p.bundles| && Tables(p) && i !in p.free && Timers(p')
    requires p'.free == p.free && p'.hash == p.hash && p'.entries == p.entries
    requires |p'.bundles| == |p.bundles| && p'.bundles == p.bundles[i := p'.bundles[i]]
    requires p'.bundles[i].tuple == p.bundles[i].tuple
    ensures Tables(p') && OnlyAt(p, p', i)
  {
    assert forall t :: t in p.hash ==> Owned(p, t);
    forall k | 0 <= k < |p.bundles| && k !in p'.free
      ensures Found(p', k)
    {
      assert Found(p, k);
    }
  }

  // ---- the operations ----

  /** Changing a bundle that stays active with the same stream, and no statistics but the retransmissions. */
  lemma SameInv(cfgs: Cfgs, p: Pool, p': Pool, i: nat, all: multiset<nat>)
    requires i < |p.bundles| && Inv(cfgs, p, all) && i !in p.free && Timers(p')
    requires p'.free == p.free && p'.hash == p.hash && p'.entries == p.entries
    requires p'.occur == p.occur && p'.weighted == p.weighted && p'.stats == p.stats.(tcpRetx := p'.stats.tcpRetx)
    requires |p'.bundles| == |p.bundles| && p'.bundles == p.bundles[i := p'.bundles[i]]
    requires p'.bundles[i] == p.bundles[i].(timer := p'.bundles[i].timer, ctx := p'.bundles[i].ctx)
    ensures Inv(cfgs, p', all)
  {
    SameTables(p, p', i);
    BalancedAt(cfgs, p, p', i);
    assert forall c: nat :: Trades(p, p', i, c);
    ConservedAt(p, p', i, all);
  }

  /** A free configuration is taken, or put back. */
  lemma TakeCfgCount(occur: seq<nat>, k: nat, c: nat)
    requires k < |occur|
    ensures Count(TakeCfg(occur, k), c) == Count(occur, c) - One(occur[k] == c)
  {
    var last := |occur| - 1;
    var swapped := occur[k := occur[last]];
    CountUpdate(occur, k, occur[last], c);
    assert swapped == swapped[..last] + [occur[last]];
  }

  lemma AppendCount(s: seq<int>, x: int, c: int)
    ensures Count(s + [x], c) == Count(s, c) + One(x == c)
  {
  }

  lemma ConnectTables(cfgs: Cfgs, p: Pool, k: nat, tuple: Tuple, slot: int)
    requires Tables(p) && p.free != [] && k < |p.occur| && tuple !in p.hash
    ensures var i, p' := p.free[|p.free| - 1], Connect(cfgs, p, k, tuple, slot); Tables(p') && OnlyAt(p, p', i)
    ensures var i, p' := p.free[|p.free| - 1], Connect(cfgs, p, k, tuple, slot);
            i in p'.free <==> !Usable(p.hash, slot, |p.entries|)
  {
    PopTables(p);
    PopFree(p);
    var i := p.free[|p.free| - 1];
    var b := Fresh(cfgs, p.occur[k], tuple);
    var p1 := Pop(p).(occur := TakeCfg(p.occur, k), bundles := p.bundles[i := b]);
    TouchBut(Pop(p), p1, i);
    var p' := Connect(cfgs, p, k, tuple, slot);
    if Usable(p.hash, slot, |p.entries|) {
      EnterTables(p1, i, b, slot);
      assert p' == Enter(p1, i, b, slot).(stats := p'.stats);
      SameButStats(Enter(p1, i, b, slot), p'.stats);
    } else {
      PutTables(p1, i);
    }
  }

  lemma ConnectInv(cfgs: Cfgs, p: Pool, k: nat, tuple: Tuple, slot: int, all: multiset<nat>)
    requires Inv(cfgs, p, all) && p.weighted && p.free != [] && k < |p.occur| && tuple !in p.hash
    ensures Inv(cfgs, Connect(cfgs, p, k, tuple, slot), all)
  {
    ConnectTables(cfgs, p, k, tuple, slot);
    var i, p' := p.free[|p.free| - 1], Connect(cfgs, p, k, tuple, slot);
    hide Tables, Usable;
    BalancedAt(cfgs, p, p', i);
    forall c: nat
      ensures Trades(p, p', i, c)
    {
      TakeCfgCount(p.occur, k, c);
      AppendCount(TakeCfg(p.occur, k), p.occur[k], c);
    }
    ConservedAt(p, p', i, all);
  }

  /** The bundle that is neither free nor found may change. */
  lemma TouchBut(p: Pool, p': Pool, i: nat)
    requires TablesBut(p, i) && |p'.bundles| == |p.bundles| && p'.bundles == p.bundles[i := p'.bundles[i]]
    requires p'.free == p.free && p'.hash == p.hash && p'.entries == p.entries && Timers(p')
    ensures TablesBut(p', i)
  {
    assert forall t :: t in p.hash ==> Owned(p, t);
    forall k | 0 <= k < |p.bundles| && k !in p.free && k != i
      ensures Found(p', k)
    {
      assert Found(p, k);
    }
  }

  lemma SameButStats(p: Pool, stats: Stats)
    requires Tables(p)
    ensures Tables(p.(stats := stats))
  {
    var p' := p.(stats := stats);
    assert forall t :: t in p.hash ==> Owned(p, t);
    assert forall k :: 0 <= k < |p.bundles| && k !in p.free ==> Found(p, k);
    assert forall t :: t in p.hash ==> Owned(p', t);
    assert forall k :: 0 <= k < |p.bundles| && k !in p.free ==> Found(p', k);
  }

  lemma AcceptInv(cfgs: Cfgs, p: Pool, cfg: nat, tuple: Tuple, slot: int, all: multiset<nat>)
    requires Inv(cfgs, p, all) && !p.weighted && tuple !in p.hash
    ensures Inv(cfgs, Accept(cfgs, p, cfg, tuple, slot), all)
  {
    if p.free != [] {
      PopTables(p);
      PopFree(p);
      var i := p.free[|p.free| - 1];
      var p' := Accept(cfgs, p, cfg, tuple, slot);
      if Usable(p.hash, slot, |p.entries|) {
        var b := Fresh(cfgs, cfg, tuple);
        EnterTables(Pop(p), i, b, slot);
        SameButStats(Enter(Pop(p), i, b, slot), p'.stats);
        BalancedAt(cfgs, p, p', i);
      } else {
        assert p' == p;
      }
    }
  }

  lemma HeapAddTimers(p: Pool, i: nat)
    requires Timers(p) && i < |p.bundles| && !p.bundles[i].timer
    ensures Timers(HeapAdd(p, i))
  {}

  lemma UnscheduleTimers(p: Pool, i: nat)
    requires Timers(p) && i < |p.bundles|
    ensures Timers(Unschedule(p, i)) && !Unschedule(p, i).bundles[i].timer && Unschedule(p, i).heap[i] == 0
  {}

  /** A bundle that leaves, with its last stream counted. */
  lemma LeaveInv(cfgs: Cfgs, p: Pool, i: nat, stats: Stats, all: multiset<nat>)
    requires Inv(cfgs, p, all) && i < |p.bundles| && i !in p.free
    requires Balance(stats, TCP) == Balance(p.stats, TCP) - One(Code(cfgs, p, i) == 1)
    requires Balance(stats, UDP) == Balance(p.stats, UDP) - One(Code(cfgs, p, i) == 2)
    ensures Inv(cfgs, Leave(p.(stats := stats), i), all)
  {
    var p' := Leave(p.(stats := stats), i);
    LeaveTables(p, i, stats);
    BalancedAt(cfgs, p, p', i);
    forall c: nat
      ensures p.weighted ==> Trades(p, p', i, c)
    {
      AppendCount(p.occur, p.bundles[i].cfg, c);
    }
    ConservedAt(p, p', i, all);
  }

  lemma LeaveTables(p: Pool, i: nat, stats: Stats)
    requires Tables(p) && i < |p.bundles| && i !in p.free
    ensures var p' := Leave(p.(stats := stats), i); Tables(p') && OnlyAt(p, p', i) && i in p'.free
  {
    UnscheduleTimers(p, i);
    var p0 := Unschedule(p, i);
    SameTables(p, p0, i);
    DropTables(p0, i, p0.bundles[i]);
    var p1 := p0.(hash := p0.hash - {p0.bundles[i].tuple});
    assert p1.bundles == p1.bundles[i := p0.bundles[i]];
    var p2 := p1.(stats := stats);
    TouchBut(p1, p2, i);
    PutTables(p2, i);
    assert Leave(p.(stats := stats), i) == Put(p2, i);
  }

  lemma AdvanceTables(cfgs: Cfgs, p: Pool, i: nat, m: Move)
    requires Tables(p) && i < |p.bundles| && i !in p.free
    requires m.tuple !in p.hash - {p.bundles[i].tuple} && Usable(p.hash - {p.bundles[i].tuple}, m.slot, |p.entries|)
    ensures Tables(Advance(cfgs, p, i, m).0) && OnlyAt(p, Advance(cfgs, p, i, m).0, i)
  {
    var p' := Advance(cfgs, p, i, m).0;
    DropTables(p, i, p'.bundles[i]);
    var p1 := p.(hash := p.hash - {p.bundles[i].tuple}, bundles := p.bundles[i := p'.bundles[i]]);
    EnterTables(p1, i, p'.bundles[i], m.slot);
    SameButStats(Enter(p1, i, p'.bundles[i], m.slot), p'.stats);
    assert p' == Enter(p1, i, p'.bundles[i], m.slot).(stats := p'.stats);
  }

  lemma AdvanceLoses(cfgs: Cfgs, p: Pool, i: nat, m: Move)
    requires Tables(p) && i < |p.bundles| && i !in p.free && m.tuple !in p.hash - {p.bundles[i].tuple}
    requires !Usable(p.hash - {p.bundles[i].tuple}, m.slot, |p.entries|)
    ensures var p' := Advance(cfgs, p, i, m).0;
            !Tables(p') && forall t :: t in p'.hash ==> p'.entries[p'.hash[t]] != i
  {
    var p' := Advance(cfgs, p, i, m).0;
    DropTables(p, i, p'.bundles[i]);
    assert !Found(p', i);
  }

  /** Moving to the next stream keeps the invariant exactly when the new tuple finds room. Otherwise the bundle is
      neither free nor found. */
  lemma AdvanceInv(cfgs: Cfgs, p: Pool, i: nat, m: Move, all: multiset<nat>)
    requires Inv(cfgs, p, all) && i < |p.bundles| && i !in p.free && HasNext(cfgs, p.bundles[i])
    requires m.tuple !in p.hash - {p.bundles[i].tuple}
    ensures var (p', slot) := Advance(cfgs, p, i, m);
            && p'.free == p.free
            && (Inv(cfgs, p', all) <==> Usable(p.hash - {p.bundles[i].tuple}, m.slot, |p.entries|))
            && (slot >= 0 <==> Usable(p.hash - {p.bundles[i].tuple}, m.slot, |p.entries|))
            && (slot < 0 ==> i !in p'.free && forall t :: t in p'.hash ==> p'.entries[p'.hash[t]] != i)
  {
    var (p', slot) := Advance(cfgs, p, i, m);
    if slot >= 0 {
      AdvanceTables(cfgs, p, i, m);
      hide Tables;
      BalancedAt(cfgs, p, p', i);
      assert forall c: nat :: Trades(p, p', i, c);
      ConservedAt(p, p', i, all);
    } else {
      AdvanceLoses(cfgs, p, i, m);
    }
  }

  /** Every move of Iterate draws a tuple not in use and finds room. */
  ghost predicate MovesOk(cfgs: Cfgs, p: Pool, i: nat, moves: nat -> Move)
    requires i < |p.bundles|
    decreases if p.bundles[i].cfg < |cfgs| then |cfgs[p.bundles[i].cfg]| - p.bundles[i].idx else 0
  {
    var b := p.bundles[i];
    b.ctx.ended && HasNext(cfgs, b) ==>
      var m := moves(b.idx + 1);
      && m.tuple !in p.hash - {b.tuple}
      && Usable(p.hash - {b.tuple}, m.slot, |p.entries|)
      && MovesOk(cfgs, Advance(cfgs, p, i, m).0, i, moves)
  }

  lemma FinishInv(cfgs: Cfgs, p: Pool, i: nat, all: multiset<nat>)
    requires Inv(cfgs, p, all) && i < |p.bundles| && i !in p.free
    ensures Inv(cfgs, Finish(cfgs, p, i), all) && i in Finish(cfgs, p, i).free
  {
    var b := p.bundles[i];
    LeaveInv(cfgs, p, i, CountFinished(p.stats, Stream(cfgs, b).proto, b.ctx.retx), all);
  }

  lemma {:induction false} IterateInv(cfgs: Cfgs, p: Pool, i: nat, moves: nat -> Move, ret: int, all: multiset<nat>)
    requires Inv(cfgs, p, all) && i < |p.bundles| && i !in p.free && MovesOk(cfgs, p, i, moves)
    ensures var (p', r) := Iterate(cfgs, p, i, moves, ret);
            && Inv(cfgs, p', all)
            && (ret >= 0 ==> (r < 0 <==> i in p'.free))
            && (i !in p'.free ==> p'.bundles[i].timer == p.bundles[i].timer)
    decreases if p.bundles[i].cfg < |cfgs| then |cfgs[p.bundles[i].cfg]| - p.bundles[i].idx else 0
  {
    hide Inv, Finish;
    var b := p.bundles[i];
    if b.ctx.ended {
      if HasNext(cfgs, b) {
        var m := moves(b.idx + 1);
        AdvanceInv(cfgs, p, i, m, all);
        IterateInv(cfgs, Advance(cfgs, p, i, m).0, i, moves, m.slot, all);
      } else {
        FinishInv(cfgs, p, i, all);
        assert Iterate(cfgs, p, i, moves, ret) == (Finish(cfgs, p, i), -1);
      }
    }
  }

  /** The state in which the stream handler is called. */
  ghost function BeforeHandler(cfgs: Cfgs, p: Pool, i: nat, before: nat -> Move): (Pool, int)
    requires i < |p.bundles|
  {
    Iterate(cfgs, Unschedule(p, i), i, before, 0)
  }

  /** The moves before and after the stream handler is called all find room. */
  ghost predicate DataOk(cfgs: Cfgs, p: Pool, i: nat, before: nat -> Move, h: Handled, after: nat -> Move)
    requires i < |p.bundles|
  {
    && MovesOk(cfgs, Unschedule(p, i), i, before)
    && var (p1, ret) := BeforeHandler(cfgs, p, i, before);
       (ret >= 0 && !h.ctx.expired ==> MovesOk(cfgs, Handle(p1, i, h), i, after))
  }

  lemma UnscheduleInv(cfgs: Cfgs, p: Pool, i: nat, all: multiset<nat>)
    requires Inv(cfgs, p, all) && i < |p.bundles| && i !in p.free
    ensures Inv(cfgs, Unschedule(p, i), all) && Unschedule(p, i).free == p.free
    ensures |Unschedule(p, i).bundles| == |p.bundles| && !Unschedule(p, i).bundles[i].timer
  {
    UnscheduleTimers(p, i);
    SameInv(cfgs, p, Unschedule(p, i), i, all);
  }

  lemma HeapAddInv(cfgs: Cfgs, p: Pool, i: nat, all: multiset<nat>)
    requires Inv(cfgs, p, all) && i < |p.bundles| && i !in p.free && !p.bundles[i].timer
    ensures Inv(cfgs, HeapAdd(p, i), all)
  {
    HeapAddTimers(p, i);
    SameInv(cfgs, p, HeapAdd(p, i), i, all);
  }

  /** A timer that had been pending is not any more when the handler is called, so that the one it asks for is the only
      one. */
  lemma HandleInv(cfgs: Cfgs, p: Pool, i: nat, h: Handled, all: multiset<nat>)
    requires Inv(cfgs, p, all) && i < |p.bundles| && i !in p.free && !p.bundles[i].timer
    ensures Inv(cfgs, Handle(p, i, h), all) && Handle(p, i, h).free == p.free
    ensures |Handle(p, i, h).bundles| == |p.bundles|
  {
    CalledInv(cfgs, p, i, h.ctx, all);
    if h.rearm {
      hide Inv;
      HeapAddInv(cfgs, Called(p, i, h.ctx), i, all);
    }
  }

  lemma CalledInv(cfgs: Cfgs, p: Pool, i: nat, ctx: Ctx, all: multiset<nat>)
    requires Inv(cfgs, p, all) && i < |p.bundles| && i !in p.free
    ensures Inv(cfgs, Called(p, i, ctx), all)
  {
    var p' := Called(p, i, ctx);
    assert p'.bundles == p.bundles[i := p'.bundles[i]];
    SameInv(cfgs, p, p', i, all);
  }

  lemma ExpireInv(cfgs: Cfgs, p: Pool, i: nat, ctx: Ctx, all: multiset<nat>)
    requires Inv(cfgs, p, all) && i < |p.bundles| && i !in p.free
    ensures Inv(cfgs, Expire(cfgs, p.(bundles := p.bundles[i := p.bundles[i].(ctx := ctx)]), i), all)
  {
    var p1 := p.(bundles := p.bundles[i := p.bundles[i].(ctx := ctx)]);
    SameInv(cfgs, p, p1, i, all);
    LeaveInv(cfgs, p1, i, CountExpired(p1.stats, Stream(cfgs, p1.bundles[i]).proto), all);
  }

  lemma ProcDataInv(cfgs: Cfgs, p: Pool, i: nat, before: nat -> Move, h: Handled, after: nat -> Move,
        all: multiset<nat>)
    requires Inv(cfgs, p, all) && i < |p.bundles| && i !in p.free && DataOk(cfgs, p, i, before, h, after)
    ensures Inv(cfgs, ProcData(cfgs, p, i, before, h, after), all)
  {
    hide Inv, Handle, Expire, Unschedule;
    UnscheduleInv(cfgs, p, i, all);
    var (p1, ret) := BeforeHandler(cfgs, p, i, before);
    IterateInv(cfgs, Unschedule(p, i), i, before, 0, all);
    if ret >= 0 {
      if h.ctx.expired {
        ExpireInv(cfgs, p1, i, h.ctx, all);
      } else {
        HandledInv(cfgs, p1, i, h, after, all);
      }
    }
  }

  /** The part of ProcData after the stream handler, when the stream has not expired. */
  lemma HandledInv(cfgs: Cfgs, p: Pool, i: nat, h: Handled, after: nat -> Move, all: multiset<nat>)
    requires Inv(cfgs, p, all) && i < |p.bundles| && i !in p.free && !p.bundles[i].timer
    requires MovesOk(cfgs, Handle(p, i, h), i, after)
    ensures var (p3, ret) := Iterate(cfgs, Handle(p, i, h), i, after, 0);
            Inv(cfgs, p3, all) && (ret > 0 ==> Inv(cfgs, HeapAdd(Unschedule(p3, i), i), all))
  {
    hide Inv, Handle;
    var p2 := Handle(p, i, h);
    HandleInv(cfgs, p, i, h, all);
    IterateInv(cfgs, p2, i, after, 0, all);
    var (p3, ret) := Iterate(cfgs, p2, i, after, 0);
    if ret > 0 {
      UnscheduleInv(cfgs, p3, i, all);
      HeapAddInv(cfgs, Unschedule(p3, i), i, all);
    }
  }

  // ---- runs ----

  /** A packet is for the connection of its tuple; a timer is that of some element of the heap. */
  datatype Op =
    | OpConnect(k: nat, tuple: Tuple, slot: int)
    | OpAccept(cfg: nat, tuple: Tuple, slot: int)
    | OpData(tuple: Tuple, before: nat -> Move, h: Handled, after: nat -> Move)
    | OpTimer(i: nat, before: nat -> Move, h: Handled, after: nat -> Move)

  /** The bundle that a packet finds. */
  ghost function Conn(p: Pool, t: Tuple): nat
    requires Tables(p) && t in p.hash
    ensures Conn(p, t) < |p.bundles| && Conn(p, t) !in p.free
  {
    assert Owned(p, t);
    p.entries[p.hash[t]]
  }

  /** What the heap gives out belongs to an active bundle. */
  lemma PoppedIsActive(p: Pool, i: nat)
    requires Tables(p) && i in p.heap
    ensures i < |p.bundles| && i !in p.free && p.bundles[i].timer && i !in HeapDel(p, i).heap
  {}

  /** A connection is opened or accepted under a tuple not in use; a packet belongs to a connection, and a timer has run
      out; the moves find room. */
  ghost predicate Enabled(cfgs: Cfgs, p: Pool, op: Op)
    requires Tables(p)
  {
    match op
    case OpConnect(k, tuple, slot) => p.weighted && p.free != [] && k < |p.occur| && tuple !in p.hash
    case OpAccept(cfg, tuple, slot) => !p.weighted && tuple !in p.hash
    case OpData(tuple, before, h, after) => tuple in p.hash && DataOk(cfgs, p, Conn(p, tuple), before, h, after)
    case OpTimer(i, before, h, after) =>
      i in p.heap && (i < |p.bundles| ==> DataOk(cfgs, HeapDel(p, i), i, before, h, after))
  }

  ghost function Apply(cfgs: Cfgs, p: Pool, op: Op): Pool
    requires Tables(p) && Enabled(cfgs, p, op)
  {
    match op
    case OpConnect(k, tuple, slot) => Connect(cfgs, p, k, tuple, slot)
    case OpAccept(cfg, tuple, slot) => Accept(cfgs, p, cfg, tuple, slot)
    case OpData(tuple, before, h, after) => ProcData(cfgs, p, Conn(p, tuple), before, h, after)
    case OpTimer(i, before, h, after) => PoppedIsActive(p, i); ProcData(cfgs, HeapDel(p, i), i, before, h, after)
  }

  /** The states of a run: each follows from the one before by an enabled operation. */
  ghost predicate IsRun(cfgs: Cfgs, states: seq<Pool>, ops: seq<Op>) {
    && |states| == |ops| + 1
    && forall n :: 0 <= n < |ops| ==>
         Tables(states[n]) && Enabled(cfgs, states[n], ops[n]) && states[n + 1] == Apply(cfgs, states[n], ops[n])
  }

  lemma ApplyInv(cfgs: Cfgs, p: Pool, op: Op, all: multiset<nat>)
    requires Inv(cfgs, p, all) && Enabled(cfgs, p, op)
    ensures Inv(cfgs, Apply(cfgs, p, op), all)
  {
    match op
    case OpConnect(k, tuple, slot) => ConnectInv(cfgs, p, k, tuple, slot, all);
    case OpAccept(cfg, tuple, slot) => AcceptInv(cfgs, p, cfg, tuple, slot, all);
    case OpData(tuple, before, h, after) => ProcDataInv(cfgs, p, Conn(p, tuple), before, h, after, all);
    case OpTimer(i, before, h, after) =>
      PoppedIsActive(p, i);
      UnscheduleInv(cfgs, p, i, all);
      ProcDataInv(cfgs, HeapDel(p, i), i, before, h, after, all);
  }

  /** In every run the bundles split into free and found ones, tuples are distinct, each bundle is in the timer heap at
      most once and a free one never, the statistics are balanced and the configurations conserved. */
  lemma {:induction false} RunInv(cfgs: Cfgs, states: seq<Pool>, ops: seq<Op>, all: multiset<nat>, n: nat)
    requires IsRun(cfgs, states, ops) && Inv(cfgs, states[0], all) && n <= |ops|
    ensures Inv(cfgs, states[n], all)
  {
    if n > 0 {
      RunInv(cfgs, states, ops, all, n - 1);
      ApplyInv(cfgs, states[n - 1], ops[n - 1], all);
    }
  }

  /** A pool as it is created: every bundle free, no connections, the configurations in start to choose from. */
  ghost predicate Created(p: Pool, start: seq<nat>) {
    && FreeList(p.free, |p.bundles|) && |p.free| == |p.bundles|
    && p.hash == map[] && p.heap == multiset{} && p.occur == start
    && p.stats == Stats(0, 0, 0, 0, 0, 0, 0, 0, 0)
    && forall i :: 0 <= i < |p.bundles| ==> !p.bundles[i].timer
  }

  /** A list of n different numbers below n contains all of them. */
  lemma {:induction false} FullFreeList(free: seq<nat>, rest: set<nat>, i: nat)
    requires forall j, k :: 0 <= j < k < |free| ==> free[j] != free[k]
    requires (forall k :: 0 <= k < |free| ==> free[k] in rest) && |free| == |rest| && i in rest
    ensures i in free
  {
    if free != [] {
      var n := |free| - 1;
      if free[n] != i {
        FullFreeList(free[..n], rest - {free[n]}, i);
      }
    }
  }

  lemma AllFree(p: Pool, start: seq<nat>)
    requires Created(p, start)
    ensures forall i :: 0 <= i < |p.bundles| ==> i in p.free
  {
    var n := |p.bundles|;
    RangeSize(0, n);
    forall i | 0 <= i < n
      ensures i in p.free
    {
      FullFreeList(p.free, (set k: nat | k < n && Within(0, n, k)), i);
    }
  }

  lemma CreatedInv(cfgs: Cfgs, p: Pool, start: seq<nat>)
    requires Created(p, start)
    ensures Inv(cfgs, p, multiset(start))
  {
    var n := |p.bundles|;
    AllFree(p, start);
    assert forall i :: 0 <= i < n ==> Code(cfgs, p, i) == 0 && HeldBy(p, i) == 0;
    forall c: nat
      ensures Count(p.occur, c) + Count(Held(p), c + 1) == multiset(start)[c]
    {
      assert c + 1 !in Held(p);
    }
    assert 1 !in Protos(cfgs, p) && 2 !in Protos(cfgs, p);
  }

  /** The main result over runs of a newly created pool. */
  lemma PoolAgrees(cfgs: Cfgs, states: seq<Pool>, ops: seq<Op>, start: seq<nat>, n: nat)
    requires IsRun(cfgs, states, ops) && Created(states[0], start) && n <= |ops|
    ensures Tables(states[n]) && Displayed(states[n].stats) == |states[n].bundles| - |states[n].free|
    ensures Balanced(cfgs, states[n]) && Conserved(states[n], multiset(start))
    ensures |states[n].heap| + |states[n].free| <= |states[n].bundles|
    ensures states[n].weighted && |start| >= |states[n].bundles| && states[n].free != [] ==> states[n].occur != []
  {
    CreatedInv(cfgs, states[0], start);
    RunInv(cfgs, states, ops, multiset(start), n);
    DisplayIsTrue(cfgs, states[n], multiset(start));
    HeapFits(states[n]);
    if states[n].weighted && |start| >= |states[n].bundles| {
      ConfigurationsSuffice(cfgs, states[n], start);
    }
  }

  // ---- what the invariant means ----

  lemma {:induction false} ZerosAreFree(s: seq<int>, free: seq<nat>)
    requires FreeList(free, |s|) && forall i :: 0 <= i < |s| ==> (s[i] == 0 <==> i in free)
    ensures Count(s, 0) == |free|
    decreases |free|
  {
    if free == [] {
      assert 0 !in s;
    } else {
      var f, rest := free[|free| - 1], free[..|free| - 1];
      assert free == rest + [f];
      CountUpdate(s, f, 1, 0);
      ZerosAreFree(s[f := 1], rest);
    }
  }

  lemma {:induction false} ThreeCodes(s: seq<int>)
    requires forall i :: 0 <= i < |s| ==> 0 <= s[i] <= 2
    ensures Count(s, 0) + Count(s, 1) + Count(s, 2) == |s|
  {
    if s != [] {
      var n := |s| - 1;
      ThreeCodes(s[..n]);
      assert s == s[..n] + [s[n]];
      AppendCount(s[..n], s[n], 0);
      AppendCount(s[..n], s[n], 1);
      AppendCount(s[..n], s[n], 2);
    }
  }

  /** The displayed figure is the number of active bundles. */
  lemma DisplayIsTrue(cfgs: Cfgs, p: Pool, all: multiset<nat>)
    requires Inv(cfgs, p, all)
    ensures Displayed(p.stats) == |p.bundles| - |p.free|
  {
    ZerosAreFree(Protos(cfgs, p), p.free);
    ThreeCodes(Protos(cfgs, p));
  }

  /** Two sequences that agree on how often each positive number occurs have equally many positive numbers. */
  lemma SamePositives(s: seq<int>, t: seq<int>)
    requires forall i :: 0 <= i < |s| ==> s[i] >= 0
    requires forall i :: 0 <= i < |t| ==> t[i] >= 0
    requires forall v :: v > 0 ==> Count(s, v) == Count(t, v)
    ensures |s| - Count(s, 0) == |t| - Count(t, 0)
  {
    var m, n := multiset(s)[0 := 0], multiset(t)[0 := 0];
    forall v
      ensures m[v] == n[v]
    {
      if v < 0 {
        assert v !in s && v !in t;
      } else if v > 0 {
        assert Count(s, v) == Count(t, v);
      }
    }
    assert m == n;
    assert |m| == |multiset(s)| - Count(s, 0);
    assert |n| == |multiset(t)| - Count(t, 0);
  }

  ghost function Shift(s: seq<nat>): (r: seq<int>)
    ensures |r| == |s| && forall i :: 0 <= i < |s| ==> r[i] == s[i] + 1
  {
    seq(|s|, i requires 0 <= i < |s| => s[i] + 1)
  }

  lemma {:induction false} ShiftCount(s: seq<nat>, c: nat)
    ensures Count(Shift(s), c + 1) == Count(s, c) && Count(Shift(s), 0) == 0
  {
    if s != [] {
      var n := |s| - 1;
      ShiftCount(s[..n], c);
      assert s == s[..n] + [s[n]];
      assert Shift(s) == Shift(s[..n]) + [s[n] + 1];
      AppendCount(s[..n], s[n], c);
      AppendCount(Shift(s[..n]), s[n] + 1, c + 1);
      AppendCount(Shift(s[..n]), s[n] + 1, 0);
    }
  }

  lemma CountConcat(s: seq<int>, t: seq<int>, v: int)
    ensures Count(s + t, v) == Count(s, v) + Count(t, v)
  {
  }

  /** A pool created with at least as many configurations as bundles never lacks one for a free bundle. */
  lemma ConfigurationsSuffice(cfgs: Cfgs, p: Pool, start: seq<nat>)
    requires Inv(cfgs, p, multiset(start)) && p.weighted && |start| >= |p.bundles|
    ensures |p.occur| - |p.free| == |start| - |p.bundles|
    ensures p.free != [] ==> p.occur != []
  {
    var s := Shift(p.occur) + Held(p);
    var t := Shift(start);
    forall v | v > 0
      ensures Count(s, v) == Count(t, v)
    {
      var c: nat := v - 1;
      CountConcat(Shift(p.occur), Held(p), v);
      ShiftCount(p.occur, c);
      ShiftCount(start, c);
      assert Count(p.occur, c) + Count(Held(p), c + 1) == multiset(start)[c];
    }
    SamePositives(s, t);
    CountConcat(Shift(p.occur), Held(p), 0);
    ShiftCount(p.occur, 0);
    ShiftCount(start, 0);
    ZerosAreFree(Held(p), p.free);
  }

  lemma {:induction false} SmallHeap(heap: multiset<nat>, n: nat)
    requires forall i: nat :: heap[i] <= if i < n then 1 else 0
    ensures |heap| <= n
  {
    if n == 0 {
      assert heap == multiset{};
    } else {
      SmallHeap(heap[n - 1 := 0], n - 1);
    }
  }

  /** A heap for as many elements as there are bundles is never full when an active bundle asks for a timer. */
  lemma HeapFits(p: Pool)
    requires Tables(p)
    ensures |p.heap| + |p.free| <= |p.bundles|
  {
    forall i: nat
      ensures (p.heap + multiset(p.free))[i] <= if i < |p.bundles| then 1 else 0
    {
      OnceFree(p.free, i);
    }
    SmallHeap(p.heap + multiset(p.free), |p.bundles|);
  }

  lemma {:induction false} OnceFree(free: seq<nat>, i: nat)
    requires forall j, k :: 0 <= j < k < |free| ==> free[j] != free[k]
    ensures multiset(free)[i] == if i in free then 1 else 0
  {
    if free != [] {
      var n := |free| - 1;
      OnceFree(free[..n], i);
      assert free == free[..n] + [free[n]];
    }
  }

  // ---- timers and moves ----

  /** The result of the loop over ended streams is the slot of the last move. */
  lemma {:induction false} LastMove(cfgs: Cfgs, p: Pool, i: nat, moves: nat -> Move, ret: int)
    requires i < |p.bundles| && ret >= 0
    ensures var (p', r) := Iterate(cfgs, p, i, moves, ret);
            r >= 0 ==>
              && p'.bundles[i].idx >= p.bundles[i].idx && p'.bundles[i].timer == p.bundles[i].timer
              && r == if p'.bundles[i].idx == p.bundles[i].idx then ret else moves(p'.bundles[i].idx).slot
    decreases if p.bundles[i].cfg < |cfgs| then |cfgs[p.bundles[i].cfg]| - p.bundles[i].idx else 0
  {
    var b := p.bundles[i];
    if b.ctx.ended && HasNext(cfgs, b) {
      var (p1, slot) := Advance(cfgs, p, i, moves(b.idx + 1));
      if slot >= 0 {
        LastMove(cfgs, p1, i, moves, slot);
      }
    }
  }

  lemma TimerInHeap(p: Pool, i: nat)
    requires Timers(p) && i < |p.bundles|
    ensures i in p.heap <==> p.bundles[i].timer
  {}

  /** What is left to do after the handler's own moves. */
  ghost function Reschedule(p: Pool, i: nat, ret: int): Pool
    requires i < |p.bundles|
  {
    if ret > 0 then HeapAdd(Unschedule(p, i), i) else p
  }

  /** Bundle i has got from stream idx to the one it is in. */
  ghost predicate MovedFrom(p: Pool, i: nat, idx: nat, rearm: bool, after: nat -> Move)
    requires i < |p.bundles|
  {
    && p.bundles[i].idx >= idx
    && (p.bundles[i].timer <==> rearm || (p.bundles[i].idx > idx && after(p.bundles[i].idx).slot != 0))
  }

  lemma RescheduleMoved(p: Pool, i: nat, ret: nat, idx: nat, rearm: bool, after: nat -> Move)
    requires i < |p.bundles| && p.bundles[i].idx >= idx && p.bundles[i].timer == rearm
    requires ret == if p.bundles[i].idx == idx then 0 else after(p.bundles[i].idx).slot
    ensures MovedFrom(Reschedule(p, i, ret), i, idx, rearm, after)
  {}

  lemma HandleFields(p: Pool, i: nat, h: Handled)
    requires i < |p.bundles|
    ensures var b, b' := p.bundles[i], Handle(p, i, h).bundles[i];
            b'.idx == b.idx && b'.timer == (b.timer || h.rearm)
  {}

  lemma HandledTimer(cfgs: Cfgs, p: Pool, i: nat, h: Handled, after: nat -> Move, all: multiset<nat>)
    requires Inv(cfgs, p, all) && i < |p.bundles| && i !in p.free && !p.bundles[i].timer
    requires MovesOk(cfgs, Handle(p, i, h), i, after)
    ensures var (p3, ret) := Iterate(cfgs, Handle(p, i, h), i, after, 0);
            && (ret < 0 ==> i in p3.free)
            && (ret >= 0 ==> MovedFrom(Reschedule(p3, i, ret), i, p.bundles[i].idx, h.rearm, after))
  {
    HandleInv(cfgs, p, i, h, all);
    HandleFields(p, i, h);
    hide Inv, MovesOk, Iterate, Handle, Reschedule, MovedFrom;
    IterateInv(cfgs, Handle(p, i, h), i, after, 0, all);
    LastMove(cfgs, Handle(p, i, h), i, after, 0);
    var (p3, ret) := Iterate(cfgs, Handle(p, i, h), i, after, 0);
    if ret >= 0 {
      RescheduleMoved(p3, i, ret, p.bundles[i].idx, h.rearm, after);
    }
  }

  lemma ProcDataIs(cfgs: Cfgs, p: Pool, i: nat, before: nat -> Move, h: Handled, after: nat -> Move)
    requires i < |p.bundles|
    ensures var p', (p1, ret) := ProcData(cfgs, p, i, before, h, after), BeforeHandler(cfgs, p, i, before);
            if ret < 0 then p' == p1
            else if h.ctx.expired then i in p'.free
            else
              var (p3, ret3) := Iterate(cfgs, Handle(p1, i, h), i, after, 0);
              p' == Reschedule(p3, i, ret3)
  {}

  /** A bundle that is still active afterwards has a timer pending exactly when the handler asked for one, or the bundle
      moved on after the handler and the slot of its last tuple is not 0. */
  lemma MovedIsRescheduled(cfgs: Cfgs, p: Pool, i: nat, before: nat -> Move, h: Handled, after: nat -> Move,
        all: multiset<nat>)
    requires Inv(cfgs, p, all) && i < |p.bundles| && i !in p.free && DataOk(cfgs, p, i, before, h, after)
    ensures var p', idx := ProcData(cfgs, p, i, before, h, after), BeforeHandler(cfgs, p, i, before).0.bundles[i].idx;
            i !in p'.free ==>
              && p'.bundles[i].idx >= idx
              && (i in p'.heap <==> h.rearm || (p'.bundles[i].idx > idx && after(p'.bundles[i].idx).slot != 0))
  {
    ProcDataInv(cfgs, p, i, before, h, after, all);
    TimerInHeap(ProcData(cfgs, p, i, before, h, after), i);
    ProcDataIs(cfgs, p, i, before, h, after);
    UnscheduleInv(cfgs, p, i, all);
    hide Inv, Unschedule, ProcData, Iterate, Reschedule, Handle;
    var (p1, ret) := BeforeHandler(cfgs, p, i, before);
    IterateInv(cfgs, Unschedule(p, i), i, before, 0, all);
    if ret >= 0 && !h.ctx.expired {
      HandledTimer(cfgs, p1, i, h, after, all);
      var (p3, ret3) := Iterate(cfgs, Handle(p1, i, h), i, after, 0);
      FreeAfter(p3, i, ret3);
    }
  }

  lemma FreeAfter(p: Pool, i: nat, ret: int)
    requires i < |p.bundles|
    ensures Reschedule(p, i, ret).free == p.free
  {}

  // ---- where the code falls short ----

  function TwoStreams(): Cfgs {
    [[StreamCfg(TCP, false), StreamCfg(TCP, false)]]
  }

  /** One bundle, in its first stream, with tuple 5 in slot 1. */
  function OneBundle(): Pool {
    Pool([], true, [], map[5 := 1], [0, 0], multiset{}, [Bundle(5, false, 0, 0, Ctx(false, false, 0))],
         Stats(1, 0, 0, 0, 1, 0, 0, 0, 0))
  }

  lemma OneBundleTables()
    ensures Tables(OneBundle())
  {
    assert Found(OneBundle(), 0) && Owned(OneBundle(), 5);
  }

  lemma OneBundleBalanced()
    ensures Balanced(TwoStreams(), OneBundle())
  {
    assert Protos(TwoStreams(), OneBundle()) == [1];
  }

  lemma OneCount(c: nat)
    ensures Count([], c) + Count([1], c + 1) == multiset{0}[c]
  {}

  lemma OneBundleConserved()
    ensures Conserved(OneBundle(), multiset{0})
  {
    assert Held(OneBundle()) == [1];
    forall c: nat
      ensures Count(OneBundle().occur, c) + Count(Held(OneBundle()), c + 1) == multiset{0}[c]
    {
      OneCount(c);
    }
  }

  lemma OneBundleOk()
    ensures Inv(TwoStreams(), OneBundle(), multiset{0})
  {
    hide Tables, Balanced, Conserved, OneBundle;
    OneBundleTables();
    OneBundleBalanced();
    OneBundleConserved();
  }

  /** The stream ends, the handler asks for no timer, and the next tuple is 6. */
  lemma OneMove(slot: int)
    ensures var b := Bundle(6, false, 0, 1, Ctx(false, false, 0));
            var (p', r) := Iterate(TwoStreams(), Handle(OneBundle(), 0, ENDED), 0, _ => Move(6, slot), 0);
            && p'.bundles == [b] && p'.heap == multiset{} && p'.free == []
            && (slot == 0 ==> p'.hash == map[6 := 0] && p'.entries[0] == 0 && r == 0)
            && (slot == -1 ==> p'.hash == map[] && r == -1)
  {
    var p1 := Handle(OneBundle(), 0, ENDED);
    var (p2, r) := Advance(TwoStreams(), p1, 0, Move(6, slot));
    assert p1.bundles == [Bundle(5, false, 0, 0, Ctx(true, false, 0))];
    assert p2.bundles == [Bundle(6, false, 0, 1, Ctx(false, false, 0))];
    assert p1.hash - {5} == map[];
    if slot == 0 {
      assert Iterate(TwoStreams(), p2, 0, _ => Move(6, slot), 0) == (p2, 0);
    }
  }

  const ENDED := Handled(Ctx(true, false, 0), false)

  /** A move onto slot 0: the bundle is active and has a stream to play, and no timer will ever make it. */
  lemma SlotZeroIsForgotten(before: nat -> Move)
    ensures var p' := ProcData(TwoStreams(), OneBundle(), 0, before, ENDED, _ => Move(6, 0));
            0 !in p'.free && Found(p', 0) && p'.bundles[0].idx == 1 && !p'.bundles[0].ctx.ended && p'.heap == multiset{}
  {
    OneMove(0);
  }

  /** A move that finds no room: the bundle is neither free nor found, and has no timer. */
  lemma NoRoomLosesBundle(before: nat -> Move)
    ensures var p' := ProcData(TwoStreams(), OneBundle(), 0, before, ENDED, _ => Move(6, -1));
            0 !in p'.free && p'.hash == map[] && p'.heap == multiset{} && !Tables(p')
  {
    OneMove(-1);
    assert !Found(ProcData(TwoStreams(), OneBundle(), 0, before, ENDED, _ => Move(6, -1)), 0);
  }

  // ---- the weighted choice ----

  lemma DrawsOf(n: nat, q: nat, k: nat, r: nat)
    requires 0 < n <= RAND_MAX && q == RAND_MAX / n && k < n
    ensures Pick(n, r) == k <==> k * q <= r < (k + 1) * q
  {
    assert q > 0;
    if k * q <= r < (k + 1) * q {
      assert r / q == k by {
        DivIs(r, q, k);
      }
      assert (k + 1) * q <= n * q by {
        MulMonotone(k + 1, n, q);
      }
    }
  }

  /** Every position is chosen by the same number of the raw draws 0 .. RAND_MAX. */
  lemma EachPositionEqually(n: nat, k: nat)
    requires 0 < n <= RAND_MAX && k < n
    ensures |set r: nat | r <= RAND_MAX && Pick(n, r) == k| == RAND_MAX / n
  {
    var q := RAND_MAX / n;
    forall r: nat
      ensures Pick(n, r) == k <==> k * q <= r < (k + 1) * q
    {
      DrawsOf(n, q, k, r);
    }
    MulMonotone(k + 1, n, q);
    assert n * q <= RAND_MAX;
    var lo, hi := k * q, (k + 1) * q;
    assert (set r: nat | r <= RAND_MAX && Pick(n, r) == k) == (set r: nat | r < hi && Within(lo, hi, r));
    RangeSize(lo, hi);
  }
}
