/** The sampler: a search tree, the linear scan it replaces, and the draws each index gets. */
module Cdf {
  import opened Words
  import opened Division
  import opened Draws

  // ---- powers of two ----

  predicate Pow2(p: nat) {
    p == 1 || (p > 1 && p % 2 == 0 && Pow2(p / 2))
  }

  /** There is one power of two from a up to below 2a. */
  lemma {:induction false} OnlyPow2(a: nat, b: nat)
    requires Pow2(a) && Pow2(b) && b <= a < 2 * b
    ensures a == b
  {
    if b > 1 {
      OnlyPow2(a / 2, b / 2);
    }
  }

  lemma DoublePow2(p: nat)
    requires p > 0
    ensures Pow2(2 * p) <==> Pow2(p)
  {
    assert 2 * p / 2 == p;
  }

  // ---- the tree: node c has children 2c and 2c + 1, nodes p and above are leaves ----

  /** The first leaf below node c. */
  ghost function Lo(p: nat, c: nat): (l: nat)
    requires 1 <= c < 2 * p
    ensures p <= l && c <= l
    decreases 2 * p - c
  {
    if c >= p then c else Lo(p, 2 * c)
  }

  /** The last leaf below node c. */
  ghost function Hi(p: nat, c: nat): (h: nat)
    requires 1 <= c < 2 * p
    ensures p <= h < 2 * p && c <= h
    decreases 2 * p - c
  {
    if c >= p then c else Hi(p, 2 * c + 1)
  }

  /** Neighbours on one level have neighbouring leaves. */
  lemma {:induction false} Neighbours(p: nat, c: nat)
    requires Pow2(p) && 1 <= c && c + 1 < 2 * p && !Pow2(c + 1)
    ensures Hi(p, c) + 1 == Lo(p, c + 1)
    decreases 2 * p - c
  {
    if c < p {
      DoublePow2(c + 1);
      Neighbours(p, 2 * c + 1);
    }
  }

  /** The leaves of the left child come just before those of the right child. */
  lemma Siblings(p: nat, c: nat)
    requires Pow2(p) && 1 <= c < p
    ensures Hi(p, 2 * c) + 1 == Lo(p, 2 * c + 1)
  {
    Neighbours(p, 2 * c);
  }

  lemma {:induction false} LoBelow(p: nat, c: nat)
    requires Pow2(p) && 1 <= c < 2 * p
    ensures Lo(p, c) <= Hi(p, c)
    decreases 2 * p - c
  {
    if c < p {
      Siblings(p, c);
      LoBelow(p, 2 * c);
      LoBelow(p, 2 * c + 1);
    }
  }

  lemma {:induction false} LoOfPow2(p: nat, c: nat)
    requires Pow2(p) && Pow2(c) && c <= p
    ensures Lo(p, c) == p
    decreases p - c
  {
    if c < p {
      DoublePow2(c);
      if 2 * c > p {
        OnlyPow2(p, c);
      }
      LoOfPow2(p, 2 * c);
    }
  }

  lemma {:induction false} HiOfPow2(p: nat, c: nat)
    requires Pow2(p) && 1 <= c < 2 * p && Pow2(c + 1)
    ensures Hi(p, c) == 2 * p - 1
    decreases 2 * p - c
  {
    DoublePow2(p);
    if c < p {
      DoublePow2(c + 1);
      HiOfPow2(p, 2 * c + 1);
    } else {
      if c + 1 < 2 * p {
        OnlyPow2(c + 1, p);
      }
    }
  }

  /** Below the root are all leaves. */
  lemma WholeTree(p: nat)
    requires Pow2(p)
    ensures Lo(p, 1) == p && Hi(p, 1) == 2 * p - 1
  {
    LoOfPow2(p, 1);
    HiOfPow2(p, 1);
  }

  lemma TwoHalves(c: nat, n: nat, h: nat)
    requires n == 2 * h
    ensures 2 * c * h == c * n && (2 * c + 1) * h == c * n + h && (2 * c + 2) * h == (c + 1) * n
  {
  }

  /** The leaves below node c, when there are n of them. */
  ghost predicate Spans(p: nat, c: nat, n: nat) {
    Pow2(n) && 1 <= c < 2 * p && p <= c * n && (c + 1) * n <= 2 * p
  }

  lemma {:induction false} Span(p: nat, c: nat, n: nat)
    requires Spans(p, c, n)
    ensures Lo(p, c) == c * n && Hi(p, c) == c * n + n - 1
    decreases 2 * p - c
  {
    if c >= p {
      OneLeaf(p, c, n);
    } else {
      SpanHalves(p, c, n);
      Span(p, 2 * c, n / 2);
      Span(p, 2 * c + 1, n / 2);
    }
  }

  lemma SpanHalves(p: nat, c: nat, n: nat)
    requires Spans(p, c, n) && c < p
    ensures n == 2 * (n / 2) && Spans(p, 2 * c, n / 2) && Spans(p, 2 * c + 1, n / 2)
    ensures 2 * c * (n / 2) == c * n && (2 * c + 1) * (n / 2) == c * n + n / 2
  {
    assert n != 1;
    TwoHalves(c, n, n / 2);
  }

  lemma OneLeaf(p: nat, c: nat, n: nat)
    requires n > 0 && c >= p > 0 && (c + 1) * n <= 2 * p
    ensures n == 1
  {}

  /** The tree e over 2p elements: every inner node holds the last leaf of its left child. */
  ghost predicate NodeOk(e: seq<u32>, p: nat, i: nat)
    requires 1 <= i < p && |e| == 2 * p
  {
    e[i] == e[Hi(p, 2 * i)]
  }

  ghost predicate IsTree(e: seq<u32>, p: nat) {
    && Pow2(p) && |e| == 2 * p
    && forall i :: 1 <= i < p ==> NodeOk(e, p, i)
  }

  /** The leaf at which the descent for draw r ends. */
  ghost function Descend(e: seq<u32>, p: nat, r: nat, c: nat): (l: nat)
    requires 1 <= c < 2 * p && |e| == 2 * p
    ensures p <= l < 2 * p
    decreases 2 * p - c
  {
    if c >= p then c else Descend(e, p, r, if r > e[c] then 2 * c + 1 else 2 * c)
  }

  /** The first element from i that is at least r, and hi when there is none before. */
  ghost function Scan(e: seq<u32>, r: nat, i: nat, hi: nat): (l: nat)
    requires i <= hi < |e|
    ensures i <= l <= hi && (l < hi ==> r <= e[l]) && forall k :: i <= k < l ==> e[k] < r
    decreases hi - i
  {
    if i == hi || r <= e[i] then i else Scan(e, r, i + 1, hi)
  }

  ghost predicate Ascending(e: seq<u32>, lo: nat, hi: nat) {
    hi < |e| && forall j, k :: lo <= j <= k <= hi ==> e[j] <= e[k]
  }

  lemma {:induction false} ScanIs(e: seq<u32>, r: nat, i: nat, hi: nat, l: nat)
    requires i <= l <= hi < |e| && (l < hi ==> r <= e[l]) && forall k :: i <= k < l ==> e[k] < r
    ensures Scan(e, r, i, hi) == l
  {
    var s := Scan(e, r, i, hi);
    if s != l {
      assert false;
    }
  }

  /** A linear scan of two neighbouring ranges is one of the first when that holds a large enough element. */
  lemma ScanLeft(e: seq<u32>, r: nat, lo: nat, mid: nat, hi: nat)
    requires lo <= mid <= hi < |e| && r <= e[mid]
    ensures Scan(e, r, lo, hi) == Scan(e, r, lo, mid)
  {
    ScanIs(e, r, lo, hi, Scan(e, r, lo, mid));
  }

  lemma ScanRight(e: seq<u32>, r: nat, lo: nat, mid: nat, hi: nat)
    requires lo <= mid < hi < |e| && Ascending(e, lo, hi) && e[mid] < r
    ensures Scan(e, r, lo, hi) == Scan(e, r, mid + 1, hi)
  {
    ScanIs(e, r, lo, hi, Scan(e, r, mid + 1, hi));
  }

  lemma AscendingParts(e: seq<u32>, lo: nat, mid: nat, hi: nat)
    requires lo <= mid < hi && Ascending(e, lo, hi)
    ensures Ascending(e, lo, mid) && Ascending(e, mid + 1, hi)
  {}

  lemma LeafNode(e: seq<u32>, p: nat, r: nat, c: nat)
    requires p <= c < 2 * p == |e|
    ensures Lo(p, c) == Hi(p, c) == c && Descend(e, p, r, c) == Scan(e, r, c, c) == c
  {}

  /** The leaves below an inner node, and the way the descent goes from it. */
  lemma InnerNode(e: seq<u32>, p: nat, r: nat, c: nat)
    requires IsTree(e, p) && 1 <= c < p
    ensures var lo, mid, hi := Lo(p, c), Hi(p, 2 * c), Hi(p, c);
            && lo == Lo(p, 2 * c) <= mid < hi == Hi(p, 2 * c + 1) && mid + 1 == Lo(p, 2 * c + 1)
            && Descend(e, p, r, c) == Descend(e, p, r, if r > e[mid] then 2 * c + 1 else 2 * c)
  {
    Siblings(p, c);
    LoBelow(p, 2 * c);
    LoBelow(p, 2 * c + 1);
    assert NodeOk(e, p, c);
  }

  /** On ascending leaves the descent finds what a linear scan of the leaves below the node finds. */
  lemma {:induction false} DescendIsScan(e: seq<u32>, p: nat, r: nat, c: nat)
    requires IsTree(e, p) && 1 <= c < 2 * p && Ascending(e, Lo(p, c), Hi(p, c))
    ensures Lo(p, c) <= Hi(p, c) && Descend(e, p, r, c) == Scan(e, r, Lo(p, c), Hi(p, c))
    decreases 2 * p - c
  {
    hide Scan, Descend, Ascending, NodeOk, Pow2, Lo, Hi;
    if c >= p {
      LeafNode(e, p, r, c);
    } else {
      InnerNode(e, p, r, c);
      var lo, mid, hi := Lo(p, c), Hi(p, 2 * c), Hi(p, c);
      AscendingParts(e, lo, mid, hi);
      if r > e[mid] {
        DescendIsScan(e, p, r, 2 * c + 1);
        ScanRight(e, r, lo, mid, hi);
      } else {
        DescendIsScan(e, p, r, 2 * c);
        ScanLeft(e, r, lo, mid, hi);
      }
    }
  }

  /** Draw 0 goes left at every node, whatever the leaves hold. */
  lemma {:induction false} ZeroGoesLeft(e: seq<u32>, p: nat, c: nat)
    requires 1 <= c < 2 * p && |e| == 2 * p
    ensures Descend(e, p, 0, c) == Lo(p, c)
    decreases 2 * p - c
  {
    if c < p {
      ZeroGoesLeft(e, p, 2 * c);
    }
  }

  // ---- the leaves ----

  function Sum(w: seq<u32>): (s: nat) {
    if w == [] then 0 else Sum(w[..|w| - 1]) + w[|w| - 1]
  }

  /** The cumulative weight of the first k. */
  ghost function Prefix(w: seq<u32>, k: nat): nat
    requires k <= |w|
  {
    Sum(w[..k])
  }

  lemma PrefixStep(w: seq<u32>, k: nat)
    requires k < |w|
    ensures Prefix(w, k + 1) == Prefix(w, k) + w[k]
  {
    assert w[..k + 1][..k] == w[..k];
  }

  lemma {:induction false} PrefixMonotone(w: seq<u32>, j: nat, k: nat)
    requires j <= k <= |w|
    ensures Prefix(w, j) <= Prefix(w, k)
    decreases k - j
  {
    if j < k {
      PrefixStep(w, k - 1);
      PrefixMonotone(w, j, k - 1);
    }
  }

  lemma WholePrefix(w: seq<u32>)
    ensures Prefix(w, |w|) == Sum(w)
  {
    assert w[..|w|] == w;
  }

  /** How many draws one unit of weight gets. */
  function Multiplier(total: nat): nat
    requires total > 0
  {
    var m := RAND_MAX / total;
    if m * total == RAND_MAX then m - 1 else m
  }

  lemma MultiplierOk(total: nat)
    requires 0 < total < RAND_MAX
    ensures 1 <= Multiplier(total) && Multiplier(total) * total < RAND_MAX
  {
    var m := RAND_MAX / total;
    assert RAND_MAX == m * total + RAND_MAX % total;
    if m * total == RAND_MAX {
      assert m >= 2 by {
        if m <= 1 {
          MulMonotone(m, 1, total);
        }
      }
      assert (m - 1) * total == m * total - total;
    }
  }

  /** One below the cumulative share of the draws, as a 32-bit word: a share of nothing wraps to the largest word. */
  function LastDraw(share: nat): u32
    requires share < WORD
  {
    if share == 0 then WORD - 1 else share - 1
  }

  /** The elements after cdf_setup for at least two weights. */
  ghost predicate Ready(e: seq<u32>, p: nat, w: seq<u32>) {
    2 <= |w| <= p < 2 * |w| && 0 < Sum(w) < RAND_MAX && IsTree(e, p) && LeavesAre(e, p, w)
  }

  /** Each weight's leaf is the last draw of its share, and the spare leaves are the largest draw. */
  ghost predicate LeavesAre(e: seq<u32>, p: nat, w: seq<u32>) {
    && |w| <= p && |e| == 2 * p && 0 < Sum(w) < RAND_MAX
    && (forall j :: p <= j < p + |w| ==> e[j] == Leaf(w, j - p))
    && (forall k :: p + |w| <= k < 2 * p ==> e[k] == RAND_MAX)
  }

  /** The leaf of weight k. */
  ghost function Leaf(w: seq<u32>, k: nat): u32
    requires k < |w| && 0 < Sum(w) < RAND_MAX
  {
    ShareBelow(w, k + 1);
    LastDraw(Share(w, k + 1))
  }

  /** The draws up to weight k, and how they grow. */
  ghost function Share(w: seq<u32>, k: nat): nat
    requires k <= |w| && Sum(w) > 0
  {
    Multiplier(Sum(w)) * Prefix(w, k)
  }

  lemma ShareBelow(w: seq<u32>, k: nat)
    requires k <= |w| && 0 < Sum(w) < RAND_MAX
    ensures Share(w, k) < RAND_MAX
  {
    MultiplierOk(Sum(w));
    PrefixMonotone(w, k, |w|);
    WholePrefix(w);
    MulMonotone(Prefix(w, k), Sum(w), Multiplier(Sum(w)));
  }

  lemma ShareStep(w: seq<u32>, k: nat)
    requires k < |w| && Sum(w) > 0
    ensures Share(w, k + 1) == Share(w, k) + Multiplier(Sum(w)) * w[k]
  {
    PrefixStep(w, k);
    Distribute(Multiplier(Sum(w)), Prefix(w, k), w[k]);
  }

  lemma Distribute(m: nat, a: nat, b: nat)
    ensures m * (a + b) == m * a + m * b
  {
  }

  lemma ShareMonotone(w: seq<u32>, j: nat, k: nat)
    requires j <= k <= |w| && 0 < Sum(w) < RAND_MAX
    ensures Share(w, j) <= Share(w, k)
  {
    PrefixMonotone(w, j, k);
    MulMonotone(Prefix(w, j), Prefix(w, k), Multiplier(Sum(w)));
  }

  // ---- what a draw selects ----

  /** The linear scan of cumulative weights: the first index from k whose share reaches beyond draw r. */
  ghost function Select(w: seq<u32>, r: nat, k: nat): (i: nat)
    requires k <= |w| && Sum(w) > 0
    ensures k <= i <= |w| && (i < |w| ==> r < Share(w, i + 1)) && forall j :: k < j <= i ==> Share(w, j) <= r
    decreases |w| - k
  {
    if k == |w| || r < Share(w, k + 1) then k else Select(w, r, k + 1)
  }

  /** The index cdf_sample returns for draw r. */
  ghost function Sampled(e: seq<u32>, p: nat, r: nat): nat
    requires p > 0 && |e| == 2 * p
  {
    Descend(e, p, r, 1) - p
  }

  lemma FirstShare(w: seq<u32>, k: nat)
    requires 0 < Sum(w) < RAND_MAX && 1 <= k <= |w| && w[0] > 0
    ensures Share(w, k) > 0
  {
    MultiplierOk(Sum(w));
    assert w[..1][..0] == [];
    PrefixStep(w, 0);
    PrefixMonotone(w, 1, k);
    MulMonotone(1, Prefix(w, k), Multiplier(Sum(w)));
  }

  lemma LeafIs(e: seq<u32>, p: nat, w: seq<u32>, k: nat)
    requires Ready(e, p, w) && w[0] > 0 && k < |w|
    ensures e[p + k] == Share(w, k + 1) - 1 && Share(w, k + 1) < RAND_MAX
  {
    assert e[p + k] == Leaf(w, k);
    FirstShare(w, k + 1);
    ShareBelow(w, k + 1);
  }

  lemma LeavesAscend(e: seq<u32>, p: nat, w: seq<u32>)
    requires Ready(e, p, w) && w[0] > 0
    ensures Ascending(e, p, 2 * p - 1)
  {
    forall j, k | p <= j <= k <= 2 * p - 1
      ensures e[j] <= e[k]
    {
      if j < p + |w| {
        LeafIs(e, p, w, j - p);
        if k < p + |w| {
          LeafIs(e, p, w, k - p);
          ShareMonotone(w, j - p + 1, k - p + 1);
        }
      }
    }
  }

  /** The descent refines the linear scan for every draw below the last share. */
  lemma DescentIsLinearScan(e: seq<u32>, p: nat, w: seq<u32>, r: nat)
    requires Ready(e, p, w) && w[0] > 0 && r < Share(w, |w|)
    ensures Sampled(e, p, r) == Select(w, r, 0) < |w|
  {
    WholeTree(p);
    LeavesAscend(e, p, w);
    DescendIsScan(e, p, r, 1);
    var i := Select(w, r, 0);
    assert i < |w|;
    forall k | p <= k <= p + i
      ensures e[k] < r <==> k < p + i
    {
      LeafIs(e, p, w, k - p);
    }
    ScanIs(e, r, p, 2 * p - 1, p + i);
  }

  /** The draw past the last share, when no weight of zero is in the way: it ends one past the last index when there are
      spare leaves. */
  ghost function PastLast(p: nat, w: seq<u32>): nat
    requires w != []
  {
    if |w| < p then |w| else |w| - 1
  }

  lemma LastDrawPositive(e: seq<u32>, p: nat, w: seq<u32>)
    requires Ready(e, p, w) && w[0] > 0
    ensures Sampled(e, p, Share(w, |w|)) == PastLast(p, w)
  {
    WholeTree(p);
    LeavesAscend(e, p, w);
    var r := Share(w, |w|);
    DescendIsScan(e, p, r, 1);
    ShareBelow(w, |w|);
    forall k | p <= k < p + |w|
      ensures e[k] < r
    {
      LeafIs(e, p, w, k - p);
      ShareMonotone(w, k - p + 1, |w|);
    }
    ScanIs(e, r, p, 2 * p - 1, p + PastLast(p, w));
  }

  // ---- the first weights are zero ----

  /** The first m leaves are the smallest block, of a power of two, that holds a weight above zero; the first half of
      them are of weight zero. */
  ghost predicate ZeroHalf(p: nat, w: seq<u32>, m: nat) {
    && Pow2(m) && 2 <= m <= p < 2 * |w| && Prefix(w, m / 2) == 0 && (m <= |w| ==> Prefix(w, m) > 0)
  }

  lemma {:induction false} HalfOf(a: nat, b: nat)
    requires Pow2(a) && Pow2(b) && a < b
    ensures 2 * a <= b
  {
    if a > 1 {
      HalfOf(a / 2, b / 2);
    }
  }

  /** There is such a block. */
  lemma {:induction false} SomeZeroHalf(p: nat, w: seq<u32>, k: nat) returns (m: nat)
    requires Pow2(p) && Pow2(k) && 1 <= k < p < 2 * |w| && k <= |w| <= p && Sum(w) > 0 && Prefix(w, k) == 0
    ensures ZeroHalf(p, w, m)
    decreases p - k
  {
    DoublePow2(k);
    HalfOf(k, p);
    WholePrefix(w);
    if 2 * k <= |w| && Prefix(w, 2 * k) == 0 {
      assert 2 * k < p;
      m := SomeZeroHalf(p, w, 2 * k);
    } else {
      m := 2 * k;
    }
  }

  /** The leaf of weight k, from the first weight above zero on. */
  lemma LeafFrom(e: seq<u32>, p: nat, w: seq<u32>, k: nat)
    requires Ready(e, p, w) && k < |w|
    ensures Share(w, k + 1) < RAND_MAX && e[p + k] == if Prefix(w, k + 1) == 0 then WORD - 1 else Share(w, k + 1) - 1
    ensures Prefix(w, k + 1) > 0 ==> Share(w, k + 1) > 0
  {
    assert e[p + k] == Leaf(w, k);
    ShareBelow(w, k + 1);
    MultiplierOk(Sum(w));
    if Prefix(w, k + 1) > 0 {
      MulMonotone(1, Multiplier(Sum(w)), Prefix(w, k + 1));
    }
  }

  /** The last leaf of the first k, for a power of two k up to p / 2. */
  lemma BlockEnd(e: seq<u32>, p: nat, w: seq<u32>, m: nat, k: nat)
    requires Ready(e, p, w) && ZeroHalf(p, w, m) && Pow2(k) && m <= k < p
    ensures k <= |w| && e[p + k - 1] == Share(w, k) - 1 && Share(w, k) >= Share(w, m)
  {
    HalfOf(k, p);
    PrefixMonotone(w, m, k);
    LeafFrom(e, p, w, k - 1);
    ShareMonotone(w, m, k);
  }

  /** Below a node whose leaves all hold the largest word the descent goes left all the way. */
  lemma AllLeft(e: seq<u32>, p: nat, r: nat, c: nat)
    requires IsTree(e, p) && 1 <= c < 2 * p && Lo(p, c) <= Hi(p, c)
    requires forall k :: Lo(p, c) <= k <= Hi(p, c) ==> e[k] == WORD - 1
    requires r < WORD
    ensures Descend(e, p, r, c) == Lo(p, c)
  {
    DescendIsScan(e, p, r, c);
  }

  /** Node c on the left edge of the tree, with n leaves below it. */
  ghost predicate Edge(p: nat, c: nat, n: nat) {
    Pow2(n) && 1 <= c < p && c * n == p
  }

  /** Its leaves, and its left child. */
  lemma EdgeHalf(p: nat, c: nat, n: nat)
    requires Edge(p, c, n)
    ensures n == 2 * (n / 2) && Pow2(n / 2) && 1 <= n / 2 && n <= p && (n / 2 > 1 ==> Edge(p, 2 * c, n / 2))
    ensures Lo(p, c) == Lo(p, 2 * c) == p && Hi(p, c) == p + n - 1 && Hi(p, 2 * c) == p + n / 2 - 1
  {
    assert n != 1;
    EdgeSpans(p, c, n);
    SpanHalves(p, c, n);
    Span(p, c, n);
    Span(p, 2 * c, n / 2);
    if n / 2 > 1 {
      MulMonotone(2, n / 2, 2 * c);
    }
  }

  lemma EdgeSpans(p: nat, c: nat, n: nat)
    requires Edge(p, c, n)
    ensures Spans(p, c, n) && n <= p
  {
    assert (c + 1) * n == p + n;
    MulMonotone(1, c, n);
  }

  /** The draws below the share of the block end at the very first leaf. */
  lemma {:induction false} ZeroSpine(e: seq<u32>, p: nat, w: seq<u32>, m: nat, r: nat, c: nat, n: nat)
    requires Ready(e, p, w) && ZeroHalf(p, w, m) && Edge(p, c, n) && m <= n
    requires r < RAND_MAX && (m == p || (m <= |w| && r < Share(w, m)))
    ensures Descend(e, p, r, c) == p
    decreases n
  {
    hide Edge, Ready, Descend, Lo, Hi, Share, Prefix;
    EdgeHalf(p, c, n);
    assert IsTree(e, p) by {
      IsReady(e, p, w);
    }
    InnerNode(e, p, r, c);
    if n == m {
      ZeroLeaves(e, p, w, m);
      AllLeft(e, p, r, 2 * c);
    } else {
      HalfOf(m, n);
      BlockEnd(e, p, w, m, n / 2);
      ZeroSpine(e, p, w, m, r, 2 * c, n / 2);
    }
  }

  lemma IsReady(e: seq<u32>, p: nat, w: seq<u32>)
    requires Ready(e, p, w)
    ensures IsTree(e, p) && |e| == 2 * p && 2 <= |w| <= p && 0 < Sum(w) < RAND_MAX
  {}

  lemma ZeroLeaves(e: seq<u32>, p: nat, w: seq<u32>, m: nat)
    requires Ready(e, p, w) && ZeroHalf(p, w, m)
    ensures forall k :: p <= k <= p + m / 2 - 1 ==> e[k] == WORD - 1
  {
    forall k | p <= k <= p + m / 2 - 1
      ensures e[k] == WORD - 1
    {
      PrefixMonotone(w, k - p + 1, m / 2);
      LeafFrom(e, p, w, k - p);
    }
  }

  /** Other draws end where a linear scan of the leaves past the block does. */
  lemma {:induction false} PastZeros(e: seq<u32>, p: nat, w: seq<u32>, m: nat, r: nat, c: nat, n: nat)
    requires Ready(e, p, w) && ZeroHalf(p, w, m) && Edge(p, c, n) && m < n && m <= |w|
    requires Share(w, m) <= r && Ascending(e, p + m - 1, 2 * p - 1)
    ensures n <= p == |e| / 2 && Descend(e, p, r, c) == Scan(e, r, p + m, p + n - 1)
    decreases n
  {
    hide Edge, Ready, Descend, Lo, Hi, Share, Prefix, Scan, IsTree, Pow2, Sum;
    var h, mid := n / 2, p + n / 2 - 1;
    EdgeHalf(p, c, n);
    IsReady(e, p, w);
    HalfOf(m, n);
    InnerNode(e, p, r, c);
    BlockEnd(e, p, w, m, h);
    if r > e[mid] {
      DescendIsScan(e, p, r, 2 * c + 1);
      if m < h {
        ScanRight(e, r, p + m, mid, p + n - 1);
      }
    } else {
      PastZeros(e, p, w, m, r, 2 * c, h);
      ScanLeft(e, r, p + m, mid, p + n - 1);
    }
  }

  lemma LeavesAscendFrom(e: seq<u32>, p: nat, w: seq<u32>, m: nat)
    requires Ready(e, p, w) && 1 <= m <= |w| && Prefix(w, m) > 0
    ensures Ascending(e, p + m - 1, 2 * p - 1)
  {
    forall j, k | p + m - 1 <= j <= k <= 2 * p - 1
      ensures e[j] <= e[k]
    {
      if j < p + |w| {
        PrefixMonotone(w, m, j - p + 1);
        LeafFrom(e, p, w, j - p);
        if k < p + |w| {
          PrefixMonotone(w, m, k - p + 1);
          LeafFrom(e, p, w, k - p);
          ShareMonotone(w, j - p + 1, k - p + 1);
        }
      }
    }
  }

  /** When the first weight is zero, index 0 gets every draw of the block, and all draws when the block is the whole
      tree; every other draw gets the index a linear scan gives it. */
  lemma ZeroTakesBlock(e: seq<u32>, p: nat, w: seq<u32>, m: nat, r: nat)
    requires Ready(e, p, w) && ZeroHalf(p, w, m) && r <= Share(w, |w|)
    ensures m <= |w| || m == p
    ensures Sampled(e, p, r) == if m == p || r < Share(w, m) then 0
                                else if r < Share(w, |w|) then Select(w, r, 0) else PastLast(p, w)
  {
    ShareBelow(w, |w|);
    if m < p {
      HalfOf(m, p);
    }
    if m == p || r < Share(w, m) {
      assert Edge(p, 1, p);
      ZeroSpine(e, p, w, m, r, 1, p);
    } else {
      LeavesAscendFrom(e, p, w, m);
      PastZeros(e, p, w, m, r, 1, p);
      ScanPast(e, p, w, m, r);
    }
  }

  lemma ScanPast(e: seq<u32>, p: nat, w: seq<u32>, m: nat, r: nat)
    requires Ready(e, p, w) && 1 <= m <= |w| && m < p && Prefix(w, m) > 0 && Share(w, m) <= r <= Share(w, |w|)
    ensures Scan(e, r, p + m, 2 * p - 1) == p + if r < Share(w, |w|) then Select(w, r, 0) else PastLast(p, w)
  {
    hide Share, Prefix, Scan, IsTree;
    ShareBelow(w, |w|);
    var l := if r < Share(w, |w|) then Select(w, r, 0) else PastLast(p, w);
    if r < Share(w, |w|) && l < m {
      ShareMonotone(w, l + 1, m);
    }
    forall k | p + m <= k < p + l
      ensures e[k] < r
    {
      PrefixMonotone(w, m, k - p + 1);
      LeafFrom(e, p, w, k - p);
      ShareMonotone(w, k - p + 1, |w|);
    }
    if l < |w| {
      PrefixMonotone(w, m, if l < m then m else l + 1);
      LeafFrom(e, p, w, l);
    }
    ScanIs(e, r, p + m, 2 * p - 1, p + l);
  }

  /** The one draw past the last share that cdf_sample accepts: it gives index 0 when the first half of the leaves are
      of weight zero. */
  lemma LastDrawAccepted(e: seq<u32>, p: nat, w: seq<u32>)
    requires Ready(e, p, w)
    ensures Sampled(e, p, Share(w, |w|)) == if Prefix(w, p / 2) == 0 then 0 else PastLast(p, w)
  {
    assert w[..1][..0] == [];
    PrefixStep(w, 0);
    if w[0] > 0 {
      PrefixMonotone(w, 1, p / 2);
      LastDrawPositive(e, p, w);
    } else {
      var m := SomeZeroHalf(p, w, 1);
      ZeroTakesBlock(e, p, w, m, Share(w, |w|));
      ShareMonotone(w, if m <= |w| then m else 0, |w|);
      if m < p {
        HalfOf(m, p);
        PrefixMonotone(w, m, p / 2);
      }
    }
  }

  /** Draw r selects index k exactly when it lies in the k-th share. */
  lemma SelectIs(w: seq<u32>, r: nat, k: nat)
    requires 0 < Sum(w) < RAND_MAX && k < |w|
    ensures Select(w, r, 0) == k <==> Share(w, k) <= r < Share(w, k + 1)
  {
    var i := Select(w, r, 0);
    assert w[..0] == [];
    assert Share(w, 0) == 0;
    if i < k {
      ShareMonotone(w, i + 1, k);
    }
  }

  /** The draws below the last share for which cdf_sample returns k. */
  ghost function DrawsFor(e: seq<u32>, p: nat, w: seq<u32>, k: nat): set<nat>
    requires p > 0 && |e| == 2 * p && Sum(w) > 0
  {
    set r: nat | r < Share(w, |w|) && Sampled(e, p, r) == k
  }

  lemma DrawsOfIndex(e: seq<u32>, p: nat, w: seq<u32>, k: nat)
    requires Ready(e, p, w) && w[0] > 0 && k < |w|
    ensures |DrawsFor(e, p, w, k)| == Multiplier(Sum(w)) * w[k]
  {
    var lo, hi := Share(w, k), Share(w, k + 1);
    ShareMonotone(w, k, k + 1);
    ShareMonotone(w, k + 1, |w|);
    forall r: nat | r < Share(w, |w|)
      ensures Sampled(e, p, r) == k <==> lo <= r < hi
    {
      DescentIsLinearScan(e, p, w, r);
      SelectIs(w, r, k);
    }
    assert DrawsFor(e, p, w, k) == (set r: nat | r < hi && Within(lo, hi, r));
    RangeSize(lo, hi);
    ShareStep(w, k);
  }

  lemma MultiplierValue(total: nat)
    requires 0 < total < RAND_MAX
    ensures Multiplier(total) == 0x7fff_fffe / total
  {
    var m := 0x7fff_fffe / total;
    DivMod(0x7fff_fffe, total);
    assert (m + 1) * total == m * total + total;
    if m * total + total > RAND_MAX {
      DivIs(RAND_MAX, total, m);
    } else {
      assert (m + 2) * total == m * total + 2 * total;
      DivIs(RAND_MAX, total, m + 1);
    }
  }

  /** The draws used, 0 to below the last share, are as many as the largest multiple of all weights below the largest
      raw draw. */
  lemma LargestMultiple(w: seq<u32>)
    requires 0 < Sum(w) < 0x7fff_ffff
    ensures Share(w, |w|) % Sum(w) == 0 && Share(w, |w|) < 0x7fff_ffff <= Share(w, |w|) + Sum(w)
  {
    var total := Sum(w);
    var m := 0x7fff_fffe / total;
    MultiplierValue(total);
    WholePrefix(w);
    DivMod(0x7fff_fffe, total);
    SameMod(0, m, total);
    SmallMod(0, total);
  }

  /** Each index gets exactly its share of the draws, for all indices, if and only if the first weight is not zero. */
  lemma SharesAreExact(e: seq<u32>, p: nat, w: seq<u32>)
    requires Ready(e, p, w)
    ensures (forall k :: 0 <= k < |w| ==> |DrawsFor(e, p, w, k)| == 0x7fff_fffe / Sum(w) * w[k]) <==> w[0] > 0
  {
    MultiplierValue(Sum(w));
    if w[0] > 0 {
      forall k | 0 <= k < |w|
        ensures |DrawsFor(e, p, w, k)| == 0x7fff_fffe / Sum(w) * w[k]
      {
        DrawsOfIndex(e, p, w, k);
      }
    } else {
      ZeroFirstWeight(e, p, w);
    }
  }

  /** A first weight of zero still gets draw 0. */
  lemma ZeroFirstWeight(e: seq<u32>, p: nat, w: seq<u32>)
    requires Ready(e, p, w) && w[0] == 0
    ensures |DrawsFor(e, p, w, 0)| > 0 && Multiplier(Sum(w)) * w[0] == 0
  {
    WholeTree(p);
    ZeroGoesLeft(e, p, 1);
    MultiplierOk(Sum(w));
    WholePrefix(w);
    MulMonotone(1, Sum(w), Multiplier(Sum(w)));
    Swap(Sum(w), Multiplier(Sum(w)));
    assert 0 in DrawsFor(e, p, w, 0);
  }

  /** How many draws that is, when the first half of a block of m leaves is of weight zero. */
  lemma ZeroTakes(e: seq<u32>, p: nat, w: seq<u32>, m: nat)
    requires Ready(e, p, w) && ZeroHalf(p, w, m)
    ensures m < p ==> m <= |w|
    ensures |DrawsFor(e, p, w, 0)| == Share(w, if m == p then |w| else m)
  {
    if m < p {
      HalfOf(m, p);
    }
    var hi := Share(w, if m == p then |w| else m);
    ShareMonotone(w, if m == p then |w| else m, |w|);
    forall r: nat | r < Share(w, |w|)
      ensures Sampled(e, p, r) == 0 <==> r < hi
    {
      ZeroTakesBlock(e, p, w, m, r);
      SelectIs(w, r, 0);
      ShareMonotone(w, 1, if m <= |w| then m else 1);
    }
    assert DrawsFor(e, p, w, 0) == (set r: nat | r < hi && Within(0, hi, r));
    RangeSize(0, hi);
  }

  /** The elements after cdf_setup for the weights 0 and 1. */
  const ZERO_ONE: seq<u32> := [0, WORD - 1, WORD - 1, RAND_MAX - 2]

  lemma ZeroOneReady()
    ensures Ready(ZERO_ONE, 2, [0, 1])
  {
    var w: seq<u32> := [0, 1];
    assert w[..1] == [0] && w[..2] == w && [0][..0] == [];
    assert Sum([0]) == 0 && Sum(w) == 1;
    assert Multiplier(1) == RAND_MAX - 1;
    assert Share(w, 1) == 0 && Share(w, 2) == RAND_MAX - 1;
    assert Leaf(w, 0) == WORD - 1 && Leaf(w, 1) == RAND_MAX - 2;
    assert NodeOk(ZERO_ONE, 2, 1);
  }

  /** With weights 0 and 1 every draw gives index 0, the one without weight. */
  lemma ZeroTakesAll(r: nat)
    requires r <= RAND_MAX
    ensures Ready(ZERO_ONE, 2, [0, 1]) && Sampled(ZERO_ONE, 2, r) == 0
  {
    ZeroOneReady();
    assert Descend(ZERO_ONE, 2, r, 1) == Descend(ZERO_ONE, 2, r, 2) == 2;
  }

  /** With weights 1 and 2 index 0 gets the first third of the draws. */
  lemma OneThird(e: seq<u32>, p: nat, r: nat)
    requires Ready(e, p, [1, 2]) && r < 2_147_483_646
    ensures Share([1, 2], 2) == 2_147_483_646 && Sampled(e, p, r) == if r < 715_827_882 then 0 else 1
  {
    var w: seq<u32> := [1, 2];
    assert w[..1] == [1] && w[..2] == w && [1][..0] == [];
    MultiplierValue(3);
    DescentIsLinearScan(e, p, w, r);
  }
}
