/** Early loss detection: a table with the queue id last received at each position, from which lost packets are
    counted. There are s positions and q queue ids, and indices and entries are words below s * q. */
module Eld {
  import opened Division

  predicate Sizes(s: nat, q: nat) {
    s >= 2 && q >= 2
  }

  /** s times q */
  function Product(s: nat, q: nat): nat {
    if s == 0 then 0 else Product(s - 1, q) + q
  }

  lemma {:induction false} ProductIs(s: nat, q: nat)
    ensures Product(s, q) == s * q
  {
    if s > 0 {
      ProductIs(s - 1, q);
      Distribute(s - 1, 1, q);
    }
  }

  function Word(s: nat, q: nat): (w: nat)
    requires Sizes(s, q)
    ensures w > s && w > q
  {
    WordLarge(s, q);
    Product(s, q)
  }

  lemma WordLarge(s: nat, q: nat)
    requires Sizes(s, q)
    ensures Product(s, q) >= 2 * s && Product(s, q) >= 2 * q
  {
    ProductIs(s, q);
    MulMonotone(2, s, q);
    MulMonotone(2, q, s);
  }

  /** What an entry holds after a reset: the word -1. */
  function Never(s: nat, q: nat): nat
    requires Sizes(s, q)
  {
    Word(s, q) - 1
  }

  /** Subtraction of words. */
  function Minus(s: nat, q: nat, a: int, b: int): (r: nat)
    requires Sizes(s, q)
    ensures r < Word(s, q)
  {
    (a - b) % Word(s, q)
  }

  function Qid(s: nat, idx: nat): nat
    requires s > 0
  {
    idx / s
  }

  function Pos(s: nat, idx: nat): (p: nat)
    requires s > 0
    ensures p < s
  {
    idx % s
  }

  // ---- the operations on the table e ----

  /** early_loss_detect_add: how many packets are found lost. */
  function AddLoss(s: nat, q: nat, e: seq<nat>, idx: nat): nat
    requires Sizes(s, q) && |e| == s
  {
    var was := e[Pos(s, idx)];
    if Qid(s, idx) != was then Minus(s, q, Minus(s, q, Qid(s, idx), was), 1) % q else 0
  }

  function AddTo(s: nat, e: seq<nat>, idx: nat): seq<nat>
    requires s > 0 && |e| == s
  {
    e[Pos(s, idx) := Qid(s, idx)]
  }

  /** What the first loop of early_loss_detect_count_remaining_loss adds for an entry, and what the second does. */
  function FirstLoop(s: nat, q: nat, entry: nat, qid: nat): nat
    requires Sizes(s, q)
  {
    if Minus(s, q, qid, entry) != 0 then Minus(s, q, Minus(s, q, qid, entry), 1) % q else 0
  }

  function SecondLoop(s: nat, q: nat, entry: nat, qid: nat): nat
    requires Sizes(s, q)
  {
    if Minus(s, q, entry, qid) != 1 then Minus(s, q, qid, entry) % q else 0
  }

  function FirstSum(s: nat, q: nat, e: seq<nat>, qid: nat, lo: nat, hi: nat): nat
    requires Sizes(s, q) && lo <= hi <= |e|
    decreases hi - lo
  {
    if lo == hi then 0 else FirstSum(s, q, e, qid, lo, hi - 1) + FirstLoop(s, q, e[hi - 1], qid)
  }

  function SecondSum(s: nat, q: nat, e: seq<nat>, qid: nat, hi: nat): nat
    requires Sizes(s, q) && hi <= |e|
  {
    if hi == 0 then 0 else SecondSum(s, q, e, qid, hi - 1) + SecondLoop(s, q, e[hi - 1], qid)
  }

  /** Where the first loop begins: after the last packet, or at 0 when that was on the last position. */
  function Begin(s: nat, idx: nat): (p: nat)
    requires s > 0
    ensures p < s
  {
    (idx + 1) % s
  }

  /** early_loss_detect_count_remaining_loss: losses not found yet when idx was the last packet. */
  function Remaining(s: nat, q: nat, e: seq<nat>, idx: nat): nat
    requires Sizes(s, q) && |e| == s
  {
    (FirstSum(s, q, e, Qid(s, idx), Begin(s, idx), s) + SecondSum(s, q, e, Qid(s, idx), Pos(s, idx))) % Word(s, q)
  }

  // ---- runs ----

  /** Packets arrive in order, some are lost. */
  ghost predicate Increasing(s: nat, q: nat, ids: seq<nat>)
    requires Sizes(s, q)
  {
    && (forall k :: 0 <= k < |ids| ==> ids[k] < Word(s, q))
    && (forall j, k :: 0 <= j < k < |ids| ==> ids[j] < ids[k])
  }

  /** The table after a reset and the packets ids. */
  ghost function Table(s: nat, q: nat, ids: seq<nat>): (e: seq<nat>)
    requires Sizes(s, q)
    ensures |e| == s
  {
    if ids == [] then seq(s, _ => Never(s, q)) else AddTo(s, Table(s, q, ids[..|ids| - 1]), ids[|ids| - 1])
  }

  /** The losses found on the way. */
  ghost function Found(s: nat, q: nat, ids: seq<nat>): nat
    requires Sizes(s, q)
  {
    if ids == [] then 0
    else Found(s, q, ids[..|ids| - 1]) + AddLoss(s, q, Table(s, q, ids[..|ids| - 1]), ids[|ids| - 1])
  }

  // ---- what entries mean ----

  /** The queue id of the last packet at a position, -1 when there was none. */
  ghost function Last(s: nat, q: nat, entry: nat): int
    requires Sizes(s, q)
  {
    if entry == Never(s, q) then -1 else entry
  }

  /** No entry is newer than packet idx, which is in the table. */
  ghost predicate UpTo(s: nat, q: nat, e: seq<nat>, idx: nat)
    requires Sizes(s, q)
  {
    && |e| == s && idx < Word(s, q) && e[Pos(s, idx)] == Qid(s, idx)
    && forall i :: 0 <= i < s ==> EntryOk(s, q, e[i], i, idx)
  }

  /** Packets up to idx have this queue id at most at position i. */
  ghost function Newest(s: nat, i: nat, idx: nat): int
    requires s > 0
  {
    if i <= Pos(s, idx) then Qid(s, idx) else Qid(s, idx) - 1
  }

  ghost predicate EntryOk(s: nat, q: nat, entry: nat, i: nat, idx: nat)
    requires Sizes(s, q)
  {
    (entry == Never(s, q) || entry < q) && Last(s, q, entry) <= Newest(s, i, idx)
  }

  lemma QidBelow(s: nat, q: nat, idx: nat)
    requires Sizes(s, q) && idx < Word(s, q)
    ensures Qid(s, idx) < q && idx == Qid(s, idx) * s + Pos(s, idx)
  {
    ProductIs(s, q);
    DivMod(idx, s);
    if Qid(s, idx) >= q {
      MulMonotone(q, Qid(s, idx), s);
    }
  }

  /** Masking a difference of words leaves the difference of the queue ids they stand for. */
  lemma Masked(s: nat, q: nat, qid: nat, entry: nat, d: int)
    requires Sizes(s, q) && (entry == Never(s, q) || entry < q)
    ensures (qid - entry - d) % Word(s, q) % q == (qid - Last(s, q, entry) - d) % q
  {
    var x, w := qid - entry - d, Word(s, q);
    var k := x / w;
    DivMod(x, w);
    ProductIs(s, q);
    Associate(k, s, q);
    SameMod(x % w, k * s, q);
    if entry == Never(s, q) {
      SameMod(qid - entry - d, s, q);
    }
  }

  lemma OneMore(s: nat, q: nat, qid: nat, entry: nat)
    requires Sizes(s, q)
    ensures Minus(s, q, Minus(s, q, qid, entry), 1) == (qid - entry - 1) % Word(s, q)
  {
    var x, w := qid - entry, Word(s, q);
    DivMod(x, w);
    SameMod(x % w - 1, x / w, w);
  }

  lemma ModZero(x: int, w: nat)
    requires -(w as int) < x < w
    ensures x % w == 0 <==> x == 0
  {
    if x < 0 {
      SameMod(x, 1, w);
      SmallMod(x + w, w);
    }
  }

  /** An entry is the queue id itself exactly when the difference is zero. */
  lemma ZeroDifference(s: nat, q: nat, qid: nat, entry: nat)
    requires Sizes(s, q) && qid < q && (entry == Never(s, q) || entry < q)
    ensures Minus(s, q, qid, entry) == 0 <==> Last(s, q, entry) == qid
  {
    var w := Word(s, q);
    WordLarge(s, q);
    ModZero(qid - entry, w);
    assert Minus(s, q, qid, entry) == (qid - entry) % w;
  }

  lemma DifferenceMod(x: int, q: nat)
    requires q > 0 && -(q as int) <= x < q
    ensures x % q == if x >= 0 then x else x + q
  {
    if x >= 0 {
      SmallMod(x, q);
    } else {
      SameMod(x, 1, q);
      SmallMod(x + q, q);
    }
  }

  /** The losses found when a packet arrives are those since the last one at its position; an older packet than that is
      taken for one a whole round of queue ids later. */
  lemma AddIs(s: nat, q: nat, e: seq<nat>, idx: nat)
    requires Sizes(s, q) && |e| == s && idx < Word(s, q)
    requires e[Pos(s, idx)] == Never(s, q) || e[Pos(s, idx)] < q
    ensures var last := Last(s, q, e[Pos(s, idx)]);
            AddLoss(s, q, e, idx) == if last == Qid(s, idx) then 0
                                     else if last < Qid(s, idx) then Qid(s, idx) - last - 1
                                     else Qid(s, idx) + q - last - 1
  {
    var qid, entry := Qid(s, idx), e[Pos(s, idx)];
    QidBelow(s, q, idx);
    WordLarge(s, q);
    OneMore(s, q, qid, entry);
    Masked(s, q, qid, entry, 1);
    DifferenceMod(qid - Last(s, q, entry) - 1, q);
  }

  lemma FirstLoopIs(s: nat, q: nat, entry: nat, qid: nat)
    requires Sizes(s, q) && qid < q && (entry == Never(s, q) || entry < q)
    ensures var last := Last(s, q, entry);
            FirstLoop(s, q, entry, qid) == if last == qid then 0
                                           else if last < qid then qid - last - 1
                                           else qid + q - last - 1
  {
    ZeroDifference(s, q, qid, entry);
    OneMore(s, q, qid, entry);
    Masked(s, q, qid, entry, 1);
    DifferenceMod(qid - Last(s, q, entry) - 1, q);
  }

  /** Nothing has been seen at the position for all q queue ids, so that their number does not fit. */
  predicate Overflows(s: nat, q: nat, entry: nat, qid: nat)
    requires Sizes(s, q)
  {
    qid == q - 1 && entry == Never(s, q)
  }

  lemma SecondLoopIs(s: nat, q: nat, entry: nat, qid: nat)
    requires Sizes(s, q) && qid < q && (entry == Never(s, q) || entry < q)
    ensures var last := Last(s, q, entry);
            SecondLoop(s, q, entry, qid) == if Overflows(s, q, entry, qid) || last == qid + 1 then 0
                                            else if last <= qid then qid - last
                                            else qid + q - last
  {
    var w := Word(s, q);
    WordLarge(s, q);
    DifferenceMod(entry - qid, w);
    Masked(s, q, qid, entry, 0);
    if Overflows(s, q, entry, qid) {
      SameMod(0, 1, q);
    } else {
      DifferenceMod(qid - Last(s, q, entry), q);
    }
  }

  // ---- sums over the table ----

  /** How many packets up to idx were received at the first hi positions, if none overtook another. */
  ghost function Seen(s: nat, q: nat, e: seq<nat>, hi: nat): int
    requires Sizes(s, q) && hi <= |e|
  {
    if hi == 0 then 0 else Seen(s, q, e, hi - 1) + Last(s, q, e[hi - 1]) + 1
  }

  /** The packets up to idx that belong to positions lo .. hi and came after the last one seen there. */
  ghost function Missing(s: nat, q: nat, e: seq<nat>, idx: nat, lo: nat, hi: nat): int
    requires Sizes(s, q) && lo <= hi <= |e|
    decreases hi - lo
  {
    if lo == hi then 0 else Missing(s, q, e, idx, lo, hi - 1) + Newest(s, hi - 1, idx) - Last(s, q, e[hi - 1])
  }

  /** Positions among the first hi for which the second loop overflows. */
  ghost function Uncounted(s: nat, q: nat, e: seq<nat>, qid: nat, hi: nat): nat
    requires Sizes(s, q) && hi <= |e|
  {
    if hi == 0 then 0 else Uncounted(s, q, e, qid, hi - 1) + if Overflows(s, q, e[hi - 1], qid) then 1 else 0
  }

  lemma {:induction false} MissingSplit(s: nat, q: nat, e: seq<nat>, idx: nat, lo: nat, mid: nat, hi: nat)
    requires Sizes(s, q) && lo <= mid <= hi <= |e|
    ensures Missing(s, q, e, idx, lo, hi) == Missing(s, q, e, idx, lo, mid) + Missing(s, q, e, idx, mid, hi)
    decreases hi - mid
  {
    if mid < hi {
      MissingSplit(s, q, e, idx, lo, mid, hi - 1);
    }
  }

  /** Up to idx there are idx + 1 packets in all. */
  lemma {:induction false} MissingIs(s: nat, q: nat, e: seq<nat>, idx: nat, hi: nat)
    requires Sizes(s, q) && hi <= |e| == s
    ensures Missing(s, q, e, idx, 0, hi) ==
              hi * Qid(s, idx) + (if hi <= Pos(s, idx) then hi else Pos(s, idx) + 1) - Seen(s, q, e, hi)
  {
    if hi > 0 {
      MissingIs(s, q, e, idx, hi - 1);
      Distribute(hi - 1, 1, Qid(s, idx));
    }
  }

  lemma AllMissing(s: nat, q: nat, e: seq<nat>, idx: nat)
    requires Sizes(s, q) && |e| == s && idx < Word(s, q)
    ensures Missing(s, q, e, idx, 0, s) == idx + 1 - Seen(s, q, e, s)
  {
    MissingIs(s, q, e, idx, s);
    QidBelow(s, q, idx);
    Swap(s, Qid(s, idx));
  }

  /** The first loop is right about the positions after that of the last packet. */
  lemma {:induction false} FirstSumIs(s: nat, q: nat, e: seq<nat>, idx: nat, lo: nat, hi: nat)
    requires Sizes(s, q) && UpTo(s, q, e, idx) && Pos(s, idx) < lo <= hi <= s
    ensures FirstSum(s, q, e, Qid(s, idx), lo, hi) == Missing(s, q, e, idx, lo, hi)
    decreases hi - lo
  {
    if lo < hi {
      FirstSumIs(s, q, e, idx, lo, hi - 1);
      QidBelow(s, q, idx);
      assert EntryOk(s, q, e[hi - 1], hi - 1, idx);
      FirstLoopIs(s, q, e[hi - 1], Qid(s, idx));
    }
  }

  lemma Times(q: nat, u: nat)
    ensures q * (u + 1) == q * u + q
  {
  }

  /** The second loop is right about the positions before it, but for overflows. */
  lemma {:induction false} SecondSumIs(s: nat, q: nat, e: seq<nat>, idx: nat, hi: nat)
    requires Sizes(s, q) && UpTo(s, q, e, idx) && hi <= Pos(s, idx)
    ensures SecondSum(s, q, e, Qid(s, idx), hi)
         == Missing(s, q, e, idx, 0, hi) - q * Uncounted(s, q, e, Qid(s, idx), hi)
  {
    if hi > 0 {
      SecondSumIs(s, q, e, idx, hi - 1);
      QidBelow(s, q, idx);
      assert EntryOk(s, q, e[hi - 1], hi - 1, idx);
      SecondLoopIs(s, q, e[hi - 1], Qid(s, idx));
      Times(q, Uncounted(s, q, e, Qid(s, idx), hi - 1));
    }
  }

  // ---- runs ----

  lemma {:induction false} SeenUpdate(s: nat, q: nat, e: seq<nat>, p: nat, x: nat, hi: nat)
    requires Sizes(s, q) && p < |e| && hi <= |e|
    ensures Seen(s, q, e[p := x], hi) == Seen(s, q, e, hi) + if p < hi then Last(s, q, x) - Last(s, q, e[p]) else 0
  {
    if hi > 0 {
      SeenUpdate(s, q, e, p, x, hi - 1);
    }
  }

  lemma {:induction false} NothingSeen(s: nat, q: nat, e: seq<nat>, hi: nat)
    requires Sizes(s, q) && hi <= |e| && forall i :: 0 <= i < |e| ==> e[i] == Never(s, q)
    ensures Seen(s, q, e, hi) == 0
  {
    if hi > 0 {
      NothingSeen(s, q, e, hi - 1);
    }
  }

  /** A later packet makes nothing older, and is newer than what its position can have seen. */
  lemma NewestGrows(s: nat, i: nat, a: nat, b: nat)
    requires i < s && a < b
    ensures Newest(s, i, a) <= Newest(s, i, b) && (i == Pos(s, b) ==> Newest(s, i, a) < Qid(s, b))
  {
    var x, y := Qid(s, a), Qid(s, b);
    DivMod(a, s);
    DivMod(b, s);
    Distribute(y, 1, s);
    if y < x {
      MulMonotone(y + 1, x, s);
    }
  }

  lemma {:induction false} TableUpTo(s: nat, q: nat, ids: seq<nat>)
    requires Sizes(s, q) && Increasing(s, q, ids) && ids != []
    ensures UpTo(s, q, Table(s, q, ids), ids[|ids| - 1])
  {
    var n := |ids| - 1;
    var e, idx := Table(s, q, ids[..n]), ids[n];
    QidBelow(s, q, idx);
    if n > 0 {
      TableUpTo(s, q, ids[..n]);
    }
    forall i | 0 <= i < s
      ensures EntryOk(s, q, AddTo(s, e, idx)[i], i, idx)
    {
      if n > 0 && i != Pos(s, idx) {
        assert EntryOk(s, q, e[i], i, ids[n - 1]);
        NewestGrows(s, i, ids[n - 1], idx);
      }
    }
  }

  /** When packet idx arrives, its position has seen older packets at most. */
  lemma PositionIsOlder(s: nat, q: nat, ids: seq<nat>)
    requires Sizes(s, q) && Increasing(s, q, ids) && ids != []
    ensures var n := |ids| - 1; var entry := Table(s, q, ids[..n])[Pos(s, ids[n])];
            (entry == Never(s, q) || entry < q) && Last(s, q, entry) < Qid(s, ids[n])
  {
    var n := |ids| - 1;
    var e, idx := Table(s, q, ids[..n]), ids[n];
    if n > 0 {
      TableUpTo(s, q, ids[..n]);
      assert EntryOk(s, q, e[Pos(s, idx)], Pos(s, idx), ids[n - 1]);
      NewestGrows(s, Pos(s, idx), ids[n - 1], idx);
    }
  }

  /** Found losses and received packets make up what the table has seen. */
  lemma {:induction false} FoundIs(s: nat, q: nat, ids: seq<nat>)
    requires Sizes(s, q) && Increasing(s, q, ids)
    ensures Found(s, q, ids) + |ids| == Seen(s, q, Table(s, q, ids), s)
  {
    if ids == [] {
      NothingSeen(s, q, Table(s, q, ids), s);
    } else {
      var n := |ids| - 1;
      var e, idx := Table(s, q, ids[..n]), ids[n];
      FoundIs(s, q, ids[..n]);
      PositionIsOlder(s, q, ids);
      AddIs(s, q, e, idx);
      SeenUpdate(s, q, e, Pos(s, idx), Qid(s, idx), s);
      QidBelow(s, q, idx);
      WordLarge(s, q);
    }
  }

  /** What is missing up to idx, where the position of idx itself misses nothing. */
  lemma MissingAround(s: nat, q: nat, e: seq<nat>, idx: nat)
    requires Sizes(s, q) && UpTo(s, q, e, idx)
    ensures Missing(s, q, e, idx, 0, Pos(s, idx)) + Missing(s, q, e, idx, Pos(s, idx) + 1, s)
          == idx + 1 - Seen(s, q, e, s)
  {
    var p := Pos(s, idx);
    AllMissing(s, q, e, idx);
    MissingSplit(s, q, e, idx, 0, p, s);
    MissingSplit(s, q, e, idx, p, p + 1, s);
    QidBelow(s, q, idx);
    WordLarge(s, q);
    assert Missing(s, q, e, idx, p, p) == 0;
  }

  lemma BeginIs(s: nat, idx: nat)
    requires s > 0
    ensures Begin(s, idx) == if Pos(s, idx) == s - 1 then 0 else Pos(s, idx) + 1
  {
    var p, k := Pos(s, idx), Qid(s, idx);
    DivMod(idx, s);
    if p == s - 1 {
      Distribute(k, 1, s);
      SameMod(0, k + 1, s);
    } else {
      SameMod(p + 1, k, s);
      SmallMod(p + 1, s);
    }
  }

  lemma {:induction false} UncountedIsZero(s: nat, q: nat, e: seq<nat>, qid: nat, hi: nat)
    requires Sizes(s, q) && hi <= |e|
    ensures Uncounted(s, q, e, qid, hi) == 0 <==> qid != q - 1 || forall i :: 0 <= i < hi ==> e[i] != Never(s, q)
  {
    if hi > 0 {
      UncountedIsZero(s, q, e, qid, hi - 1);
    }
  }

  /** All losses are accounted for: those found on the way and the remaining ones are the packets up to the last that
      were not received. This holds, when the last packet is not on the last position, exactly when its queue id is
      not the largest or every earlier position has seen a packet. */
  lemma LossesConserved(s: nat, q: nat, ids: seq<nat>)
    requires Sizes(s, q) && Increasing(s, q, ids) && ids != [] && Pos(s, ids[|ids| - 1]) != s - 1
    ensures var idx, e := ids[|ids| - 1], Table(s, q, ids);
            Found(s, q, ids) + Remaining(s, q, e, idx) == idx + 1 - |ids| <==>
            Qid(s, idx) <= q - 2 || forall i :: 0 <= i < Pos(s, idx) ==> e[i] != Never(s, q)
  {
    var idx, e := ids[|ids| - 1], Table(s, q, ids);
    TableUpTo(s, q, ids);
    FoundIs(s, q, ids);
    RemainingIs(s, q, e, idx);
    UncountedIsZero(s, q, e, Qid(s, idx), Pos(s, idx));
    QidBelow(s, q, idx);
    NoMultiple(q, Uncounted(s, q, e, Qid(s, idx), Pos(s, idx)));
  }

  lemma NoMultiple(q: nat, u: nat)
    requires q > 0
    ensures q * u >= 0 && (q * u == 0 <==> u == 0)
  {
  }

  lemma RemainingIs(s: nat, q: nat, e: seq<nat>, idx: nat)
    requires Sizes(s, q) && UpTo(s, q, e, idx) && Pos(s, idx) != s - 1
    ensures Remaining(s, q, e, idx) == idx + 1 - Seen(s, q, e, s) - q * Uncounted(s, q, e, Qid(s, idx), Pos(s, idx))
  {
    var p, qid := Pos(s, idx), Qid(s, idx);
    BeginIs(s, idx);
    FirstSumIs(s, q, e, idx, p + 1, s);
    SecondSumIs(s, q, e, idx, p);
    MissingAround(s, q, e, idx);
    SeenSomething(s, q, e, idx);
    var sum, z := FirstSum(s, q, e, qid, p + 1, s) + SecondSum(s, q, e, qid, p), q * Uncounted(s, q, e, qid, p);
    NoMultiple(q, Uncounted(s, q, e, qid, p));
    assert sum == idx + 1 - Seen(s, q, e, s) - z;
    SmallMod(sum, Word(s, q));
  }

  /** The last packet has been seen. */
  lemma {:induction false} SeenAtLeast(s: nat, q: nat, e: seq<nat>, hi: nat)
    requires Sizes(s, q) && hi <= |e|
    ensures Seen(s, q, e, hi) >= 0 && forall i :: 0 <= i < hi && e[i] != Never(s, q) ==> Seen(s, q, e, hi) >= 1
  {
    if hi > 0 {
      SeenAtLeast(s, q, e, hi - 1);
    }
  }

  lemma SeenSomething(s: nat, q: nat, e: seq<nat>, idx: nat)
    requires Sizes(s, q) && UpTo(s, q, e, idx)
    ensures Seen(s, q, e, s) >= 1
  {
    SeenAtLeast(s, q, e, s);
    QidBelow(s, q, idx);
    WordLarge(s, q);
  }

  // ---- the last position ----

  /** The packets among those missing at the first hi positions that came before queue id qid. */
  ghost function Again(s: nat, q: nat, e: seq<nat>, qid: nat, hi: nat): nat
    requires Sizes(s, q) && hi <= |e|
  {
    if hi == 0 then 0
    else Again(s, q, e, qid, hi - 1) + if Last(s, q, e[hi - 1]) < qid then qid - Last(s, q, e[hi - 1]) - 1 else 0
  }

  /** With the last packet on the last position the first loop goes over the whole table once more. */
  lemma {:induction false} TwiceCounted(s: nat, q: nat, e: seq<nat>, idx: nat, hi: nat)
    requires Sizes(s, q) && UpTo(s, q, e, idx) && Pos(s, idx) == s - 1 && hi <= s
    ensures FirstSum(s, q, e, Qid(s, idx), 0, hi) == Again(s, q, e, Qid(s, idx), hi) <= hi * (q - 1)
    ensures Again(s, q, e, Qid(s, idx), hi) == 0 <==> forall i :: 0 <= i < hi ==> Last(s, q, e[i]) >= Qid(s, idx) - 1
  {
    if hi > 0 {
      TwiceCounted(s, q, e, idx, hi - 1);
      QidBelow(s, q, idx);
      assert EntryOk(s, q, e[hi - 1], hi - 1, idx);
      FirstLoopIs(s, q, e[hi - 1], Qid(s, idx));
      Distribute(hi - 1, 1, q - 1);
    }
  }

  lemma {:induction false} FewUncounted(s: nat, q: nat, e: seq<nat>, qid: nat, hi: nat)
    requires Sizes(s, q) && hi <= |e|
    ensures Uncounted(s, q, e, qid, hi) <= hi
  {
    if hi > 0 {
      FewUncounted(s, q, e, qid, hi - 1);
    }
  }

  /** With the last packet on the last position, the losses are right exactly when what is counted again is as much as
      what is not counted at all. Below the largest queue id that is when every position has seen one of its last two
      packets. */
  lemma LastPositionCountsTwice(s: nat, q: nat, ids: seq<nat>)
    requires Sizes(s, q) && Increasing(s, q, ids) && ids != [] && Pos(s, ids[|ids| - 1]) == s - 1
    ensures var idx, e := ids[|ids| - 1], Table(s, q, ids);
            Found(s, q, ids) + Remaining(s, q, e, idx) == idx + 1 - |ids| <==>
            Again(s, q, e, Qid(s, idx), s) == q * Uncounted(s, q, e, Qid(s, idx), s - 1)
    ensures var idx, e := ids[|ids| - 1], Table(s, q, ids);
            Qid(s, idx) <= q - 2 ==>
              (Found(s, q, ids) + Remaining(s, q, e, idx) == idx + 1 - |ids| <==>
               forall i :: 0 <= i < s ==> Last(s, q, e[i]) >= Qid(s, idx) - 1)
  {
    var idx, e := ids[|ids| - 1], Table(s, q, ids);
    TableUpTo(s, q, ids);
    FoundIs(s, q, ids);
    TwiceCounted(s, q, e, idx, s);
    UncountedIsZero(s, q, e, Qid(s, idx), s - 1);
    NoMultiple(q, Uncounted(s, q, e, Qid(s, idx), s - 1));
    RemainingAtEnd(s, q, e, idx);
  }

  /** Adding x changes nothing only when x is nothing. */
  lemma ModSame(c: nat, x: int, w: nat)
    requires c < w && -(w as int) < x < w
    ensures (c + x) % w == c <==> x == 0
  {
    if c + x < 0 {
      SameMod(c + x, 1, w);
      SmallMod(c + x + w, w);
    } else if c + x < w {
      SmallMod(c + x, w);
    } else {
      SameMod(c + x - w, 1, w);
      SmallMod(c + x - w, w);
    }
  }

  lemma RemainingAtEnd(s: nat, q: nat, e: seq<nat>, idx: nat)
    requires Sizes(s, q) && UpTo(s, q, e, idx) && Pos(s, idx) == s - 1
    ensures Remaining(s, q, e, idx) == idx + 1 - Seen(s, q, e, s) <==>
              Again(s, q, e, Qid(s, idx), s) == q * Uncounted(s, q, e, Qid(s, idx), s - 1)
  {
    var p, qid := Pos(s, idx), Qid(s, idx);
    var c, u := idx + 1 - Seen(s, q, e, s), Uncounted(s, q, e, qid, s - 1);
    BeginIs(s, idx);
    SecondSumIs(s, q, e, idx, p);
    MissingAround(s, q, e, idx);
    SeenSomething(s, q, e, idx);
    TwiceCounted(s, q, e, idx, s);
    FewUncounted(s, q, e, qid, p);
    EndBounds(s, q, u);
    NoMultiple(q, u);
    ModSame(c, Again(s, q, e, qid, s) - q * u, Word(s, q));
  }

  lemma EndBounds(s: nat, q: nat, u: nat)
    requires Sizes(s, q) && u <= s - 1
    ensures s * (q - 1) < Word(s, q) && q * u < Word(s, q)
  {
    ProductIs(s, q);
    Times(s, q - 1);
    MulMonotone(u, s - 1, q);
    Swap(q, u);
    Distribute(s - 1, 1, q);
  }

  /** A measurement is right. */
  ghost predicate CountsRight(s: nat, q: nat, ids: seq<nat>)
    requires Sizes(s, q) && ids != []
  {
    var idx, e := ids[|ids| - 1], Table(s, q, ids);
    if Pos(s, idx) != s - 1 then Qid(s, idx) <= q - 2 || forall i :: 0 <= i < Pos(s, idx) ==> e[i] != Never(s, q)
    else Again(s, q, e, Qid(s, idx), s) == q * Uncounted(s, q, e, Qid(s, idx), s - 1)
  }

  // ---- where the code falls short ----

  lemma MinusIs(s: nat, q: nat, a: int, b: int)
    requires Sizes(s, q) && -(Word(s, q) as int) <= a - b < Word(s, q)
    ensures Minus(s, q, a, b) == if a >= b then a - b else a - b + Word(s, q)
  {
    var w := Word(s, q);
    if a >= b {
      SmallMod(a - b, w);
    } else {
      SameMod(a - b, 1, w);
      SmallMod(a - b + w, w);
    }
  }

  /** The table that packet 4 leaves, of three positions and two queue ids. */
  lemma OverflowTable()
    ensures Word(3, 2) == 6 && Table(3, 2, [4]) == [5, 1, 5] && Found(3, 2, [4]) == 1
  {
    ProductIs(3, 2);
    assert [4][..0] == [];
    assert Table(3, 2, []) == [5, 5, 5];
    MinusIs(3, 2, 1, 5);
    MinusIs(3, 2, 2, 1);
  }

  /** Three positions and two queue ids: only packet 4 arrives, and of the four lost ones two are counted. */
  lemma OverflowNotCounted()
    ensures Found(3, 2, [4]) + Remaining(3, 2, Table(3, 2, [4]), 4) == 2
  {
    OverflowTable();
    hide Table, Found, Word;
    var e := [5, 1, 5];
    MinusIs(3, 2, 1, 5);
    MinusIs(3, 2, 2, 1);
    MinusIs(3, 2, 5, 1);
    assert FirstSum(3, 2, e, 1, 2, 2) == 0 && FirstSum(3, 2, e, 1, 2, 3) == 1;
    assert SecondSum(3, 2, e, 1, 0) == 0 && SecondSum(3, 2, e, 1, 1) == 0;
    SmallMod(1, Word(3, 2));
  }

  lemma LastPositionTable()
    ensures Word(2, 3) == 6 && Table(2, 3, [3]) == [5, 1] && Found(2, 3, [3]) == 1
  {
    ProductIs(2, 3);
    assert [3][..0] == [];
    assert Table(2, 3, []) == [5, 5];
    MinusIs(2, 3, 1, 5);
    MinusIs(2, 3, 2, 1);
  }

  /** Two positions and three queue ids: only packet 3, on the last position, arrives, and for the three lost ones four
      are counted. */
  lemma LastPositionCountedAgain()
    ensures Found(2, 3, [3]) + Remaining(2, 3, Table(2, 3, [3]), 3) == 4
  {
    LastPositionTable();
    hide Table, Found, Word;
    var e := [5, 1];
    MinusIs(2, 3, 1, 5);
    MinusIs(2, 3, 2, 1);
    MinusIs(2, 3, 5, 1);
    MinusIs(2, 3, 1, 1);
    assert FirstSum(2, 3, e, 1, 0, 1) == 1 && FirstSum(2, 3, e, 1, 0, 2) == 1;
    assert SecondSum(2, 3, e, 1, 0) == 0 && SecondSum(2, 3, e, 1, 1) == 2;
    SmallMod(3, Word(2, 3));
  }
}
