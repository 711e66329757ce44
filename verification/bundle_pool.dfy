/** The bundle pool as the program keeps it: counters and arrays that every operation updates in place. First the loop
    that fills the pool with configurations in proportion to their weights, then the class. */
module BundlePool {
  import opened B = Bundle
  import opened BundleRuns
  import opened Division
  import opened Draws

  /** How often configuration c is among the first i entries of a pool filled in turns. */
  ghost function Turn(occur: seq<nat>, cur: nat, j: nat, c: nat): nat {
    if c >= |occur| then 0 else if c < cur then occur[c] else if c == cur then j else 0
  }

  function Sum(s: seq<nat>): nat {
    if s == [] then 0 else Sum(s[..|s| - 1]) + s[|s| - 1]
  }

  lemma {:induction false} SumMonotone(s: seq<nat>, i: nat)
    requires i <= |s|
    ensures Sum(s[..i]) <= Sum(s)
    decreases |s|
  {
    if i < |s| {
      SumMonotone(s[..|s| - 1], i);
      assert s[..|s| - 1][..i] == s[..i];
    } else {
      assert s[..i] == s;
    }
  }

  lemma SumStep(s: seq<nat>, i: nat)
    requires i < |s|
    ensures Sum(s[..i + 1]) == Sum(s[..i]) + s[i]
  {
    assert s[..i + 1][..i] == s[..i];
  }

  /** When the weights up to cur make up the total, later ones are zero. */
  lemma NothingLeft(s: seq<nat>, cur: nat, c: nat)
    requires cur < c < |s| && Sum(s[..cur + 1]) >= Sum(s)
    ensures s[c] == 0
  {
    SumStep(s, c);
    SumMonotone(s[..c], cur + 1);
    assert s[..c][..cur + 1] == s[..cur + 1];
    SumMonotone(s, c + 1);
  }

  /** The pool size: the first multiple of the total weight that is at least n. */
  function PoolSize(n: nat, tot: nat): nat
    requires tot > 0
  {
    Rounds(n, tot) * tot
  }

  function Rounds(n: nat, tot: nat): nat
    requires tot > 0
  {
    (n + (tot - 1)) / tot
  }

  lemma Quotient(k: nat, q: nat)
    requires q > 0
    ensures k * q / q == k
  {
    ModIs(k * q, q, k, 0);
  }

  /** Weights that add up to zero are zero. */
  lemma ZeroSum(s: seq<nat>, i: nat, c: nat)
    requires c < i <= |s| && Sum(s[..i]) == 0
    ensures s[c] == 0
  {
    SumStep(s, c);
    SumMonotone(s[..i], c + 1);
    assert s[..i][..c + 1] == s[..c + 1];
  }

  /** One entry more in the turn of x. */
  lemma CountPush(s: seq<nat>, x: nat, c: nat)
    ensures Count(s + [x], c) == Count(s, c) + (if x == c then 1 else 0)
  {
  }

  /** Where the filling stands: after q full rounds, at entry j of configuration cur. */
  ghost predicate Filled(occur: seq<nat>, res: seq<nat>, q: nat, cur: nat, j: nat) {
    && cur < |occur| && j <= occur[cur]
    && |res| == q * Sum(occur) + Sum(occur[..cur]) + j
    && (forall c: nat :: c < |occur| ==> Count(res, c) == q * occur[c] + Turn(occur, cur, j, c))
    && (forall k :: 0 <= k < |res| ==> res[k] < |occur|)
  }

  /** The turn of cur is over and the next one begins. */
  lemma NextTurn(occur: seq<nat>, res: seq<nat>, q: nat, cur: nat)
    requires cur < |occur| && Filled(occur, res, q, cur, occur[cur])
    ensures cur + 1 < |occur| ==> Filled(occur, res, q, cur + 1, 0)
    ensures cur + 1 == |occur| ==> Filled(occur, res, q + 1, 0, 0)
  {
    SumStep(occur, cur);
    if cur + 1 == |occur| {
      assert occur[..cur + 1] == occur;
      forall c: nat | c < |occur|
        ensures Count(res, c) == (q + 1) * occur[c] + Turn(occur, 0, 0, c)
      {
        Distribute(q, 1, occur[c]);
      }
      Distribute(q, 1, Sum(occur));
    }
  }

  lemma OneMoreEntry(occur: seq<nat>, res: seq<nat>, q: nat, cur: nat, j: nat)
    requires Filled(occur, res, q, cur, j) && j < occur[cur]
    ensures Filled(occur, res + [cur], q, cur, j + 1)
  {
    forall c: nat | c < |occur|
      ensures Count(res + [cur], c) == q * occur[c] + Turn(occur, cur, j + 1, c)
    {
      CountPush(res, cur, c);
    }
  }

  lemma RoundsEqual(q: nat, rounds: nat, tot: nat, done: nat)
    requires tot > 0 && q * tot + done == rounds * tot && done <= tot
    ensures (done == 0 && rounds == q) || (done == tot && rounds == q + 1)
  {
    if done == tot {
      Distribute(q, 1, tot);
      Quotient(q + 1, tot);
    } else {
      ModIs(rounds * tot, tot, q, done);
    }
    ModIs(rounds * tot, tot, rounds, 0);
  }

  /** No configuration has begun its turn, or all have had theirs. */
  lemma TurnsOver(occur: seq<nat>, cur: nat, j: nat, c: nat)
    requires cur < |occur| && j <= occur[cur] && c < |occur|
    ensures Sum(occur[..cur]) + j <= Sum(occur)
    ensures Sum(occur[..cur]) + j == 0 ==> Turn(occur, cur, j, c) == 0
    ensures Sum(occur[..cur]) + j == Sum(occur) ==> Turn(occur, cur, j, c) == occur[c]
  {
    SumStep(occur, cur);
    SumMonotone(occur, cur + 1);
    if Sum(occur[..cur]) == 0 && c < cur {
      ZeroSum(occur, cur, c);
    }
    if Sum(occur[..cur]) + j == Sum(occur) && c > cur {
      NothingLeft(occur, cur, c);
    }
  }

  /** Whole rounds of weight w, with the last one just finished or not begun. */
  lemma RoundsOf(q: nat, rounds: nat, turn: nat, w: nat)
    requires (rounds == q && turn == 0) || (rounds == q + 1 && turn == w)
    ensures q * w + turn == rounds * w
  {
    Distribute(q, 1, w);
  }

  /** After a whole number of rounds every configuration has had its weight in each. */
  lemma WholeRounds(occur: seq<nat>, res: seq<nat>, q: nat, cur: nat, j: nat, rounds: nat, c: nat)
    requires Filled(occur, res, q, cur, j) && |res| == rounds * Sum(occur) && Sum(occur) > 0 && c < |occur|
    ensures Count(res, c) == rounds * occur[c]
  {
    hide Sum, Turn, Count;
    TurnsOver(occur, cur, j, c);
    RoundsEqual(q, rounds, Sum(occur), Sum(occur[..cur]) + j);
    RoundsOf(q, rounds, Turn(occur, cur, j, c), occur[c]);
  }

  /** What the filled pool has to show. */
  lemma FillDone(n: nat, occur: seq<nat>, res: seq<nat>, q: nat, cur: nat, j: nat)
    requires Filled(occur, res, q, cur, j) && Sum(occur) > 0 && |res| == PoolSize(n, Sum(occur))
    ensures |res| >= n
    ensures forall c: nat :: c < |occur| ==> Count(res, c) == |res| / Sum(occur) * occur[c]
  {
    var tot, rounds := Sum(occur), Rounds(n, Sum(occur));
    RoundedUp(n, tot);
    Quotient(rounds, tot);
    var k := |res| / tot;
    assert k == rounds;
    forall c: nat | c < |occur|
      ensures Count(res, c) == k * occur[c]
    {
      WholeRounds(occur, res, q, cur, j, rounds, c);
    }
  }

  /** Some weight is positive. */
  lemma {:induction false} SomeWeight(occur: seq<nat>) returns (z: nat)
    requires Sum(occur) > 0
    ensures z < |occur| && occur[z] > 0
  {
    var n := |occur| - 1;
    if occur[n] > 0 {
      z := n;
    } else {
      z := SomeWeight(occur[..n]);
    }
  }

  function Steps(cur: nat, z: nat, n: nat): int {
    if z >= cur then z - cur else z - cur + n
  }

  /** The part of bundle_ctx_pool_create that fills occur. The filled pool has configuration c exactly (size / total)
      * occur[c] times. */
  method FillOccur(n: nat, occur: seq<nat>) returns (res: seq<nat>)
    requires Sum(occur) > 0
    ensures |res| == PoolSize(n, Sum(occur)) >= n
    ensures forall c: nat :: c < |occur| ==> Count(res, c) == |res| / Sum(occur) * occur[c]
    ensures forall k :: 0 <= k < |res| ==> res[k] < |occur|
  {
    var tot := Sum(occur);
    var size := PoolSize(n, tot);
    ghost var z := SomeWeight(occur);
    res := [];
    var cur, j := 0, 0;
    ghost var q := 0;
    while |res| < size
      invariant |res| <= size
      invariant Filled(occur, res, q, cur, j)
    {
      while j >= occur[cur]
        invariant Filled(occur, res, q, cur, j)
        decreases (if j > 0 then |occur| + 1 else 0) + Steps(cur, z, |occur|)
      {
        NextTurn(occur, res, q, cur);
        cur := cur + 1;
        if cur == |occur| {
          cur := 0;
          q := q + 1;
        }
        j := 0;
      }
      OneMoreEntry(occur, res, q, cur, j);
      res := res + [cur];
      j := j + 1;
    }
    FillDone(n, occur, res, q, cur, j);
  }

  /** The configurations to choose from: none for a server. */
  method Configurations(n: nat, weights: seq<nat>) returns (pool: seq<nat>)
    requires weights != [] ==> Sum(weights) > 0
    ensures weights == [] ==> pool == []
    ensures weights != [] ==> Proportional(pool, n, weights)
  {
    pool := [];
    if weights != [] {
      pool := FillOccur(n, weights);
    }
  }

  /** The pool is large enough and holds each configuration in proportion to its weight. */
  ghost predicate Proportional(pool: seq<nat>, n: nat, weights: seq<nat>)
    requires Sum(weights) > 0
  {
    && |pool| == PoolSize(n, Sum(weights)) >= n
    && forall c: nat :: c < |weights| ==> Count(pool, c) == |pool| / Sum(weights) * weights[c]
  }

  lemma RoundedUp(n: nat, tot: nat)
    requires tot > 0
    ensures PoolSize(n, tot) >= n
  {
    var m := n + (tot - 1);
    assert m == m / tot * tot + m % tot;
  }

  /** While a bundle is active the stack of free bundles is not full. */
  lemma RoomForFree(p: Pool, i: nat)
    requires Tables(p) && i < |p.bundles| && i !in p.free
    ensures |p.free| < |p.bundles|
  {
    var h := Held(p);
    ZerosAreFree(h, p.free);
    CountUpdate(h, i, 0, 0);
    var m := multiset(h[i := 0]);
    assert |m[0 := 0]| == |m| - m[0];
  }

  /** The pool that bundle_ctx_pool_create leaves behind. */
  ghost function NewPool(n: nat, entries: nat, weighted: bool, pool: seq<nat>, none: B.Bundle): Pool {
    Pool(seq(n, i => i), weighted, pool, map[], seq(entries, _ => 0), multiset{}, seq(n, _ => none),
         Stats(0, 0, 0, 0, 0, 0, 0, 0, 0))
  }

  lemma NewPoolCreated(cfgs: Cfgs, n: nat, entries: nat, weighted: bool, pool: seq<nat>, none: B.Bundle)
    requires !none.timer
    ensures var p := NewPool(n, entries, weighted, pool, none); Created(p, pool) && Inv(cfgs, p, multiset(pool))
  {
    CreatedInv(cfgs, NewPool(n, entries, weighted, pool, none), pool);
  }

  class BundleCtxPool {
    const cfgs: Cfgs
    const weighted: bool
    const freeBundles: array<nat>
    var nFree: nat
    const occur: array<nat>
    var nOccur: nat
    var hash: map<Tuple, nat>
    const hashEntries: array<nat>
    /** The timer heap, as the bundles its elements refer to. */
    var heap: multiset<nat>
    const bundles: array<B.Bundle>
    var stats: Stats
    /** The configurations the pool was created with. */
    ghost const start: seq<nat>

    ghost function Repr(): set<object> {
      {this, freeBundles, occur, hashEntries, bundles}
    }

    ghost predicate Shape()
      reads this
    {
      && freeBundles != occur && freeBundles != hashEntries && occur != hashEntries
      && nFree <= freeBundles.Length == bundles.Length
      && nOccur <= occur.Length
    }

    ghost function View(): Pool
      requires Shape()
      reads this, Repr()
    {
      Pool(freeBundles[..nFree], weighted, occur[..nOccur], hash, hashEntries[..], heap, bundles[..], stats)
    }

    /** Everything Inv says, and enough configurations for all bundles. */
    ghost predicate Valid()
      reads this, Repr()
    {
      && Shape()
      && Inv(cfgs, View(), multiset(start))
      && (weighted ==> |start| == occur.Length >= bundles.Length)
    }

    ghost predicate Active(i: nat)
      requires Shape()
      reads this, Repr()
    {
      i < bundles.Length && i !in View().free
    }

    /** Bundle i could be given back. */
    ghost predicate Room()
      reads this
    {
      nFree < freeBundles.Length && (weighted ==> nOccur < occur.Length)
    }

    lemma ActiveHasRoom(i: nat)
      requires Valid() && Active(i)
      ensures Room()
    {
      RoomForFree(View(), i);
      if weighted {
        ConfigurationsSuffice(cfgs, View(), start);
      }
    }

    /** bundle_ctx_pool_create. weights are the occurrences of the configurations, none for a server. */
    constructor (cfgs: Cfgs, n: nat, entries: nat, weights: seq<nat>)
      requires weights != [] ==> Sum(weights) > 0
      ensures Valid() && Created(View(), start) && fresh(Repr())
      ensures this.cfgs == cfgs && bundles.Length == n && hashEntries.Length == entries
      ensures weighted <==> weights != []
      ensures weighted ==> Proportional(start, n, weights)
    {
      var pool := Configurations(n, weights);
      var none := B.Bundle(0, false, 0, 0, Ctx(false, false, 0));
      this.cfgs, weighted, start := cfgs, weights != [], pool;
      freeBundles := new nat[n](i => i);
      nFree := n;
      occur := new nat[|pool|](i requires 0 <= i < |pool| => pool[i]);
      nOccur := |pool|;
      hash, heap := map[], multiset{};
      hashEntries := new nat[entries](_ => 0);
      bundles := new B.Bundle[n](_ => none);
      stats := Stats(0, 0, 0, 0, 0, 0, 0, 0, 0);
      new;
      hide Inv, Created, Sum, PoolSize;
      ghost var v := NewPool(n, entries, weights != [], pool, none);
      assert View() == v by {
        assert freeBundles[..nFree] == v.free;
        assert occur[..nOccur] == v.occur;
        assert hashEntries[..] == v.entries;
        assert bundles[..] == v.bundles;
      }
      NewPoolCreated(cfgs, n, entries, weights != [], pool, none);
    }

    // ---- single steps ----

    /** bundle_ctx_pool_put */
    method Put(i: nat)
      requires Shape() && i < bundles.Length && Room()
      modifies `nFree, `nOccur, freeBundles, occur
      ensures Shape() && View() == B.Put(old(View()), i)
    {
      if weighted {
        occur[nOccur] := bundles[i].cfg;
        nOccur := nOccur + 1;
      }
      freeBundles[nFree] := i;
      nFree := nFree + 1;
    }

    /** bundle_ctx_get_cfg. draws are the values rand_r will give, the one numbered stop is the first to be accepted. */
    method GetCfg(draws: nat -> nat, stop: nat) returns (k: nat, c: nat)
      requires Shape() && 0 < nOccur <= RAND_MAX
      requires Pick(nOccur, draws(stop)) >= 0 && forall j: nat :: j < stop ==> Pick(nOccur, draws(j)) < 0
      modifies `nOccur, occur
      ensures k < old(nOccur) && k == Pick(old(nOccur), draws(stop))
      ensures Shape() && c == old(occur[k]) && nOccur == old(nOccur) - 1
      ensures View() == old(View()).(occur := B.TakeCfg(old(View()).occur, k))
    {
      var j := 0;
      var rand := draws(0);
      while rand >= RAND_MAX / nOccur * nOccur
        invariant j <= stop && rand == draws(j)
        decreases stop - j
      {
        assert Pick(nOccur, draws(j)) < 0;
        j := j + 1;
        rand := draws(j);
      }
      assert j == stop by {
        PickBelow(nOccur, rand);
      }
      PickBelow(nOccur, rand);
      k := rand / (RAND_MAX / nOccur);
      c := occur[k];
      nOccur := nOccur - 1;
      occur[k] := occur[nOccur];
    }

    method Enter(i: nat, b: B.Bundle, slot: nat)
      requires Shape() && i < bundles.Length && slot < hashEntries.Length
      modifies `hash, hashEntries, bundles
      ensures Shape() && View() == B.Enter(old(View()), i, b, slot)
    {
      bundles[i] := b;
      hash := hash[b.tuple := slot];
      hashEntries[slot] := i;
    }

    /** heap_add, which asserts that the bundle has no element yet. */
    method HeapAdd(i: nat)
      requires Shape() && i < bundles.Length && !bundles[i].timer
      modifies `heap, bundles
      ensures Shape() && View() == B.HeapAdd(old(View()), i)
    {
      heap := heap + multiset{i};
      bundles[i] := bundles[i].(timer := true);
    }

    /** heap_del, which asserts that the bundle has an element, and that it is in the heap. */
    method HeapDel(i: nat)
      requires Shape() && i < bundles.Length && bundles[i].timer && i in heap
      modifies `heap, bundles
      ensures Shape() && View() == B.HeapDel(old(View()), i)
    {
      bundles[i] := bundles[i].(timer := false);
      heap := heap - multiset{i};
    }

    /** heap_pop: some element, chosen by the priorities. */
    method HeapPop(i: nat)
      requires Valid() && i in heap
      modifies `heap, bundles
      ensures Valid() && Active(i) && View() == B.HeapDel(old(View()), i)
    {
      PoppedIsActive(View(), i);
      UnscheduleInv(cfgs, View(), i, multiset(start));
      HeapDel(i);
    }

    /** bundle_cleanup */
    method Unschedule(i: nat)
      requires Shape() && i < bundles.Length && (bundles[i].timer ==> i in heap)
      modifies `heap, bundles
      ensures Shape() && View() == B.Unschedule(old(View()), i)
    {
      if bundles[i].timer {
        HeapDel(i);
      }
    }

    /** rte_hash_del_key, bundle_cleanup and bundle_ctx_pool_put */
    method Leave(i: nat)
      requires Shape() && i < bundles.Length && Room() && (bundles[i].timer ==> i in heap)
      modifies `hash, `heap, `nFree, `nOccur, freeBundles, occur, bundles
      ensures Shape() && View() == B.Leave(old(View()), i)
    {
      hash := hash - {bundles[i].tuple};
      Unschedule(i);
      Put(i);
    }

    /** The body of the loop of bundle_iterate_streams for a bundle that has another stream. The slot of the old
        tuple still tells which bundle it is. */
    method Advance(i: nat, m: Move) returns (slot: int)
      requires Shape() && i < bundles.Length && Found(View(), i)
      modifies `hash, `stats, hashEntries, bundles
      ensures Shape() && (View(), slot) == B.Advance(cfgs, old(View()), i, m)
    {
      var b := bundles[i];
      var was := hash[b.tuple];
      stats := CountFinished(stats, Stream(cfgs, b).proto, b.ctx.retx);
      var b1 := b.(idx := b.idx + 1, tuple := m.tuple);
      var b2 := b1.(ctx := Ctx(Stream(cfgs, b1).empty, false, 0));
      bundles[i] := b2;
      hash := hash - {b.tuple};
      if Usable(hash, m.slot, hashEntries.Length) {
        hash := hash[m.tuple := m.slot];
        hashEntries[m.slot] := hashEntries[was];
        stats := CountCreated(stats, Stream(cfgs, b2).proto);
        slot := m.slot;
      } else {
        slot := -1;
      }
      ghost var p := B.Advance(cfgs, old(View()), i, m).0;
      assert bundles[..] == p.bundles && hashEntries[..] == p.entries;
    }

    // ---- operations ----

    /** bundle_ctx_pool_get for a pool that has a free bundle. */
    method Get() returns (i: nat)
      requires Shape() && nFree > 0
      modifies `nFree
      ensures Shape() && i == old(View()).free[old(nFree) - 1]
      ensures View() == old(View()).(free := old(View()).free[..old(nFree) - 1])
    {
      nFree := nFree - 1;
      i := freeBundles[nFree];
    }

    /** The end of the loop body of handle_gen_bulk_client: the new bundle i is entered, or given back when there is
        no room. */
    method EnterNew(i: nat, b: B.Bundle, slot: int)
      requires Shape() && i < bundles.Length && Room() && bundles[i] == b
      modifies Repr()
      ensures Shape() && View() == (var p := old(View());
        if !Usable(p.hash, slot, |p.entries|) then B.Put(p, i)
        else B.Enter(p, i, b, slot).(stats := 
                 CountCreated(p.stats, Stream(cfgs, b).proto).(bundlesCreated := p.stats.bundlesCreated + 1)))
    {
      if Usable(hash, slot, hashEntries.Length) {
        Enter(i, b, slot);
        stats := CountCreated(stats, Stream(cfgs, b).proto).(bundlesCreated := stats.bundlesCreated + 1);
      } else {
        Put(i);
      }
    }

    /** The loop body of handle_gen_bulk_client up to bundle_proc_data, on the arrays alone. */
    method ConnectSteps(draws: nat -> nat, stop: nat, tuple: Tuple, slot: int) returns (k: nat)
      requires Shape() && weighted && nFree > 0 && 0 < nOccur <= RAND_MAX && freeBundles[nFree - 1] < bundles.Length
      requires Pick(nOccur, draws(stop)) >= 0 && forall j: nat :: j < stop ==> Pick(nOccur, draws(j)) < 0
      modifies Repr()
      ensures Shape() && k < old(nOccur) && k == Pick(old(nOccur), draws(stop))
      ensures View() == B.Connect(cfgs, old(View()), k, tuple, slot)
    {
      var i := Get();
      var c;
      k, c := GetCfg(draws, stop);
      var b := Fresh(cfgs, c, tuple);
      bundles[i] := b;
      EnterNew(i, b, slot);
    }

    /** A client opens a connection. tuple is the first one created that is not in use. A pool in use never lacks a
        configuration. */
    method Connect(draws: nat -> nat, stop: nat, tuple: Tuple, slot: int) returns (k: nat)
      requires Valid() && weighted && nFree > 0 && nOccur <= RAND_MAX && tuple !in hash
      requires nOccur > 0 ==> Pick(nOccur, draws(stop)) >= 0 && forall j: nat :: j < stop ==> Pick(nOccur, draws(j)) < 0
      modifies Repr()
      ensures Valid() && old(nOccur) > 0 && k < old(nOccur) && k == Pick(old(nOccur), draws(stop))
      ensures View() == B.Connect(cfgs, old(View()), k, tuple, slot)
    {
      ghost var p := View();
      ConfigurationsSuffice(cfgs, p, start);
      assert freeBundles[nFree - 1] == p.free[|p.free| - 1];
      k := ConnectSteps(draws, stop, tuple, slot);
      ConnectInv(cfgs, p, k, tuple, slot, multiset(start));
    }

    /** The part of handle_gen_queued that accepts a connection, on the arrays alone. */
    method AcceptSteps(cfg: nat, tuple: Tuple, slot: int)
      requires Shape() && !weighted && (nFree > 0 ==> freeBundles[nFree - 1] < bundles.Length)
      modifies Repr()
      ensures Shape() && View() == B.Accept(cfgs, old(View()), cfg, tuple, slot)
    {
      if nFree == 0 {
        return;
      }
      var i := Get();
      if Usable(hash, slot, hashEntries.Length) {
        var b := Fresh(cfgs, cfg, tuple);
        Enter(i, b, slot);
        stats := CountCreated(stats, Stream(cfgs, b).proto);
      } else {
        Put(i);
      }
    }

    /** A connection is accepted. The first packet's tuple becomes that of the bundle. */
    method Accept(cfg: nat, tuple: Tuple, slot: int)
      requires Valid() && !weighted && tuple !in hash
      modifies Repr()
      ensures Valid() && View() == B.Accept(cfgs, old(View()), cfg, tuple, slot)
    {
      ghost var p := View();
      AcceptInv(cfgs, p, cfg, tuple, slot, multiset(start));
      assert nFree > 0 ==> freeBundles[nFree - 1] == p.free[|p.free| - 1];
      assert nFree > 0 ==> freeBundles[nFree - 1] < bundles.Length;
      hide Inv, B.Accept;
      AcceptSteps(cfg, tuple, slot);
    }

    /** The last stream of the bundle has ended. */
    method Finish(i: nat)
      requires Valid() && Active(i)
      modifies Repr()
      ensures Valid() && View() == B.Finish(cfgs, old(View()), i)
    {
      ActiveHasRoom(i);
      var b := bundles[i];
      var stats1 := CountFinished(stats, Stream(cfgs, b).proto, b.ctx.retx);
      LeaveInv(cfgs, View(), i, stats1, multiset(start));
      TimerInHeap(View(), i);
      hide Inv, B.Leave;
      stats := stats1;
      Leave(i);
    }

    /** One turn of the loop of bundle_iterate_streams that moves to the next stream. */
    method MoveOn(i: nat, moves: nat -> Move) returns (slot: nat)
      requires Valid() && Active(i) && MovesOk(cfgs, View(), i, moves)
      requires bundles[i].ctx.ended && HasNext(cfgs, bundles[i])
      modifies Repr()
      ensures Valid() && Active(i) && MovesOk(cfgs, View(), i, moves)
      ensures bundles[i].cfg == old(bundles[i].cfg) && bundles[i].idx == old(bundles[i].idx) + 1
      ensures bundles[i].timer == old(bundles[i].timer)
      ensures forall ret :: B.Iterate(cfgs, old(View()), i, moves, ret) == B.Iterate(cfgs, View(), i, moves, slot)
    {
      ghost var p := View();
      var m := moves(bundles[i].idx + 1);
      AdvanceInv(cfgs, p, i, m, multiset(start));
      assert Found(p, i);
      hide Inv, B.Advance;
      slot := Advance(i, m);
      assert View() == B.Advance(cfgs, p, i, m).0;
    }

    /** bundle_iterate_streams */
    method Iterate(i: nat, moves: nat -> Move) returns (ret: int)
      requires Valid() && Active(i) && MovesOk(cfgs, View(), i, moves)
      modifies Repr()
      ensures Valid() && (View(), ret) == B.Iterate(cfgs, old(View()), i, moves, 0)
      ensures ret >= 0 ==> Active(i) && bundles[i].timer == old(bundles[i].timer)
    {
      ret := 0;
      while bundles[i].ctx.ended
        invariant Valid() && Active(i) && MovesOk(cfgs, View(), i, moves) && ret >= 0
        invariant bundles[i].timer == old(bundles[i].timer)
        invariant B.Iterate(cfgs, View(), i, moves, ret) == B.Iterate(cfgs, old(View()), i, moves, 0)
        decreases if bundles[i].cfg < |cfgs| then |cfgs[bundles[i].cfg]| - bundles[i].idx else 0
      {
        if HasNext(cfgs, bundles[i]) {
          ret := MoveOn(i, moves);
        } else {
          Finish(i);
          return -1;
        }
      }
    }

    method Expire(i: nat)
      requires Valid() && Active(i)
      modifies Repr()
      ensures Valid() && View() == B.Expire(cfgs, old(View()), i)
    {
      ActiveHasRoom(i);
      var stats1 := CountExpired(stats, Stream(cfgs, bundles[i]).proto);
      LeaveInv(cfgs, View(), i, stats1, multiset(start));
      TimerInHeap(View(), i);
      hide Inv, B.Leave;
      stats := stats1;
      Leave(i);
    }

    /** The stream handler has been called and the bundle has not expired: a timer is added if it asked for one. */
    method Handle(i: nat, h: Handled)
      requires Valid() && Active(i) && !bundles[i].timer
      modifies `stats, `heap, bundles
      ensures Valid() && Active(i) && View() == B.Handle(old(View()), i, h)
    {
      CalledInv(cfgs, View(), i, h.ctx, multiset(start));
      SetCalled(i, h.ctx);
      if h.rearm {
        HeapAddInv(cfgs, View(), i, multiset(start));
        HeapAdd(i);
      }
    }

    /** The stream handler leaves its context, and its retransmissions are counted. */
    method SetCalled(i: nat, ctx: Ctx)
      requires Shape() && i < bundles.Length
      modifies `stats, bundles
      ensures Shape() && View() == Called(old(View()), i, ctx)
    {
      var was := bundles[i].ctx.retx;
      bundles[i] := bundles[i].(ctx := ctx);
      stats := stats.(tcpRetx := stats.tcpRetx + if ctx.retx >= was then ctx.retx - was else 0);
    }

    /** bundle_proc_data. h is what the stream handler does when it is called. Wherever it adds a timer, none is
        pending. */
    method ProcData(i: nat, before: nat -> Move, h: Handled, after: nat -> Move)
      requires Valid() && Active(i) && DataOk(cfgs, View(), i, before, h, after)
      modifies Repr()
      ensures Valid() && View() == B.ProcData(cfgs, old(View()), i, before, h, after)
    {
      hide Inv, B.Iterate, B.Handle, B.Expire;
      Cancel(i);
      var ret := Iterate(i, before);
      if ret < 0 {
        return;
      }
      if h.ctx.expired {
        SetCtx(i, h.ctx);
        Expire(i);
        return;
      }
      Handle(i, h);
      ret := Iterate(i, after);
      if ret > 0 {
        Cancel(i);
        HeapAddInv(cfgs, View(), i, multiset(start));
        HeapAdd(i);
      }
    }

    /** A pending timer of an active bundle is cancelled. */
    method Cancel(i: nat)
      requires Valid() && Active(i)
      modifies `heap, bundles
      ensures Valid() && Active(i) && !bundles[i].timer && View() == B.Unschedule(old(View()), i)
    {
      UnscheduleInv(cfgs, View(), i, multiset(start));
      Unschedule(i);
    }

    /** A timer runs out. */
    method ProcTimer(i: nat, before: nat -> Move, h: Handled, after: nat -> Move)
      requires Valid() && i in heap
      requires i < bundles.Length ==> DataOk(cfgs, B.HeapDel(View(), i), i, before, h, after)
      modifies Repr()
      ensures Valid() && i < bundles.Length
      ensures View() == B.ProcData(cfgs, B.HeapDel(old(View()), i), i, before, h, after)
    {
      HeapPop(i);
      ProcData(i, before, h, after);
    }

    /** The stream handler leaves a new context. */
    method SetCtx(i: nat, ctx: Ctx)
      requires Valid() && Active(i)
      modifies bundles
      ensures Valid()
      ensures View() == old(View()).(bundles := old(View()).bundles[i := old(View()).bundles[i].(ctx := ctx)])
    {
      ghost var p := View();
      ghost var p1 := p.(bundles := p.bundles[i := p.bundles[i].(ctx := ctx)]);
      SameInv(cfgs, p, p1, i, multiset(start));
      bundles[i] := bundles[i].(ctx := ctx);
      assert View() == p1;
    }
  }

  /** An accepted draw chooses a position below n. */
  lemma PickBelow(n: nat, r: nat)
    requires 0 < n <= RAND_MAX
    ensures Pick(n, r) < n && (Pick(n, r) < 0 <==> r >= RAND_MAX / n * n)
  {
    var q := RAND_MAX / n;
    assert r == r / q * q + r % q;
    if r / q >= n {
      MulMonotone(n, r / q, q);
    }
  }
}
