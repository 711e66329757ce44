/** The sampler as the program keeps it: one array that holds first the weights and then the search
    tree. */
module CdfTree {
  import opened Words
  import opened Division
  import opened Draws
  import opened C = Cdf

  const TOP_BIT: u32 := 0x8000_0000

  ghost function Exp2(n: nat): nat {
    if n == 0 then 1 else 2 * Exp2(n - 1)
  }

  lemma {:induction false} Exp2IsPow2(n: nat)
    ensures Exp2(n) > 0 && Pow2(Exp2(n))
  {
    if n > 0 {
      Exp2IsPow2(n - 1);
      DoublePow2(Exp2(n - 1));
    }
  }

  lemma TopBit()
    ensures Pow2(TOP_BIT)
  {
    assert Exp2(8) == 0x100;
    assert Exp2(16) == 0x1_0000;
    assert Exp2(24) == 0x100_0000;
    assert Exp2(31) == TOP_BIT;
    Exp2IsPow2(31);
  }

  /** s & val for a power of two s. */
  predicate BitSet(val: u32, s: u32)
    requires s > 0
  {
    val / s % 2 == 1
  }

  lemma TopBitOf(val: u32, s: u32)
    requires s > 0 && val as int < 2 * s as int
    ensures BitSet(val, s) <==> s <= val
  {
    var k := if s <= val then 1 else 0;
    DivIs(val, s, k);
  }

  /** round_pow2: the smallest power of two that is at least val, 0 when that does not fit in 32 bits. */
  method RoundPow2(val: u32) returns (ret: u32)
    requires val > 0
    ensures ret == 0 <==> val > TOP_BIT
    ensures ret != 0 ==> Pow2(ret) && val <= ret && ret as int < 2 * val as int
  {
    var s: u32 := TOP_BIT;
    TopBit();
    while !BitSet(val, s)
      invariant 0 < s <= TOP_BIT && Pow2(s) && val as int < 2 * s as int
      invariant s == TOP_BIT || 2 * s as int <= TOP_BIT
      decreases s
    {
      TopBitOf(val, s);
      s := s / 2;
    }
    TopBitOf(val, s);
    if s == TOP_BIT && s != val {
      return 0;
    }
    ret := val;
    if s != ret {
      DoublePow2(s);
      ret := s * 2;
    }
  }

  class CdfSampler {
    var randMax: u32
    var firstChild: u32
    const elems: array<u32>

    /** The weights added so far. */
    ghost function Added(): seq<u32>
      reads this, elems
      requires Filling()
    {
      elems[firstChild..randMax]
    }

    /** Weights can be added. elems[0] is the number of weights announced. */
    ghost predicate Filling()
      reads this, elems
    {
      && 1 <= firstChild && Pow2(firstChild) && elems.Length == 2 * firstChild as int
      && firstChild <= randMax && randMax as int <= elems.Length
      && 1 <= elems[0] <= firstChild && (firstChild as int) < 2 * elems[0] as int
    }

    /** Draws can be made. */
    ghost predicate Sampling()
      reads this, elems
    {
      && 1 <= firstChild && Pow2(firstChild) && elems.Length == 2 * firstChild as int
      && elems[0] as int == elems.Length
    }

    /** cdf_create for at most 2^30 weights, whose tree fits in 32 bits. */
    constructor (nVals: u32)
      requires 1 <= nVals <= TOP_BIT / 2
      ensures Filling() && Added() == [] && elems[0] == nVals && fresh(elems)
    {
      var p := RoundPow2(nVals);
      HalfTopBit(p);
      elems := new u32[2 * p](_ => 0);
      randMax, firstChild := p, p;
      new;
      elems[0] := nVals;
    }

    /** cdf_add */
    method Add(len: u32)
      requires Filling() && randMax as int < elems.Length < WORD
      modifies this`randMax, elems
      ensures Filling() && Added() == old(Added()) + [len] && elems[0] == old(elems[0])
    {
      elems[randMax] := len;
      randMax := randMax + 1;
    }

    /** get_r_max */
    method GetRMax(start: u32) returns (r: u32)
      requires Sampling() && 1 <= start && start as int < elems.Length < WORD
      ensures r == elems[Hi(firstChild, start)]
    {
      HalfTopBit(firstChild);
      var cur := start;
      var rightChild := 2 * cur + 1;
      while rightChild < elems[0]
        invariant 1 <= cur && cur as int < elems.Length && rightChild == 2 * cur + 1
        invariant Hi(firstChild, cur) == Hi(firstChild, start)
        decreases elems.Length - cur as int
      {
        cur := rightChild;
        rightChild := 2 * cur + 1;
      }
      r := elems[cur];
    }

    /** The total weight. */
    method Total(firstLeaf: u32, lastLeaf: u32) returns (total: u32)
      requires 1 <= firstLeaf <= lastLeaf && lastLeaf as int <= elems.Length && Sum(elems[firstLeaf..lastLeaf]) < WORD
      ensures total == Sum(elems[firstLeaf..lastLeaf])
    {
      total := 0;
      ghost var w := elems[firstLeaf..lastLeaf];
      var i := firstLeaf;
      while i < lastLeaf
        invariant firstLeaf <= i <= lastLeaf && total == Prefix(w, i - firstLeaf)
      {
        PrefixStep(w, i - firstLeaf);
        PrefixMonotone(w, i - firstLeaf + 1, |w|);
        WholePrefix(w);
        total := Add32(total, elems[i]);
        i := i + 1;
      }
      WholePrefix(w);
    }

    /** The weights become the last draws of each share. */
    method FillLeaves(multiplier: u32, firstLeaf: u32, lastLeaf: u32, ghost w: seq<u32>)
      requires Filling() && firstLeaf == firstChild && lastLeaf == randMax && elems.Length < WORD
      requires w == Added() && 0 < Sum(w) < RAND_MAX && multiplier == Multiplier(Sum(w))
      modifies elems
      ensures forall j: int :: firstLeaf <= j < lastLeaf ==> elems[j] == Leaf(w, j - firstLeaf)
      ensures elems[0] == old(elems[0])
    {
      var total: u32 := 0;
      var i := firstLeaf;
      while i < lastLeaf
        invariant firstLeaf <= i <= lastLeaf && total == Share(w, i - firstLeaf) && elems[0] == old(elems[0])
        invariant forall j: int :: i <= j < lastLeaf ==> elems[j] == w[j - firstLeaf]
        invariant forall j: int :: firstLeaf <= j < i ==> elems[j] == Leaf(w, j - firstLeaf)
      {
        NextTotal(w, i - firstLeaf, multiplier);
        total := Add32(total, Sub32(Mul32(elems[i], multiplier), 1));
        elems[i] := total;
        total := Add32(total, 1);
        i := i + 1;
      }
    }

    /** The leaves without a weight take the largest draw. */
    method FillSpare(lastLeaf: u32)
      requires 1 <= lastLeaf && lastLeaf as int <= elems.Length < WORD
      modifies elems
      ensures forall j :: 0 <= j < lastLeaf as int ==> elems[j] == old(elems[j])
      ensures forall j :: lastLeaf as int <= j < elems.Length ==> elems[j] == RAND_MAX
    {
      var i := lastLeaf;
      while i as int < elems.Length
        invariant lastLeaf <= i && i as int <= elems.Length
        invariant forall j :: 0 <= j < lastLeaf as int ==> elems[j] == old(elems[j])
        invariant forall j :: lastLeaf as int <= j < i as int ==> elems[j] == RAND_MAX
      {
        elems[i] := RAND_MAX;
        i := i + 1;
      }
    }

    /** The tree is built one level at a time, from the parents of the leaves up to the root. */
    method BuildTree(first: u32, last: u32)
      requires Sampling() && elems.Length < WORD && 2 <= first == firstChild && last as int == elems.Length - 1
      modifies elems
      ensures IsTree(elems[..], firstChild) && elems[0] == old(elems[0])
      ensures forall j :: firstChild as int <= j < elems.Length ==> elems[j] == old(elems[j])
    {
      ghost var p := firstChild as int;
      var firstLeaf, lastLeaf := first, last;
      var more := true;
      while more
        invariant elems[0] == old(elems[0])
        invariant 1 <= firstLeaf <= first && Pow2(firstLeaf) && lastLeaf as int == 2 * firstLeaf as int - 1
        invariant firstLeaf == 1 <==> !more
        invariant forall i: int {:trigger NodeOk(elems[..], p, i)} :: firstLeaf <= i < first ==> NodeOk(elems[..], p, i)
        invariant forall j :: p <= j < elems.Length ==> elems[j] == old(elems[j])
        decreases firstLeaf
      {
        var firstParent, lastParent := firstLeaf / 2, lastLeaf / 2;
        ghost var before := elems[..];
        BuildLevel(firstParent, lastParent);
        forall i: int | firstLeaf <= i < first
          ensures NodeOk(elems[..], p, i)
        {
          assert NodeOk(before, p, i);
        }
        firstLeaf := firstParent;
        lastLeaf := lastParent;
        more := firstParent != lastParent;
      }
    }

    /** One level: the nodes from firstParent to lastParent. */
    method BuildLevel(firstParent: u32, lastParent: u32)
      requires Sampling() && elems.Length < WORD && 1 <= firstParent <= lastParent < firstChild
      modifies elems
      ensures elems[0] == old(elems[0])
      ensures forall j :: lastParent as int < j < elems.Length ==> elems[j] == old(elems[j])
      ensures forall i: int {:trigger NodeOk(elems[..], firstChild, i)} :: firstParent <= i <= lastParent ==>
                NodeOk(elems[..], firstChild, i)
    {
      var i := firstParent;
      while i <= lastParent
        invariant firstParent <= i && i as int <= lastParent as int + 1 && elems[0] == old(elems[0])
        invariant forall j :: lastParent as int < j < elems.Length ==> elems[j] == old(elems[j])
        invariant forall j: int {:trigger NodeOk(elems[..], firstChild, j)} :: firstParent <= j < i ==>
                    NodeOk(elems[..], firstChild, j)
      {
        var m := GetRMax(i * 2);
        ghost var before := elems[..];
        elems[i] := m;
        forall j: int | firstParent <= j <= i
          ensures NodeOk(elems[..], firstChild, j)
        {
          assert j < i ==> NodeOk(before, firstChild, j);
        }
        i := i + 1;
      }
    }

    /** cdf_setup: false when not all announced weights were added, and then nothing changes. */
    method Setup() returns (ok: bool)
      requires Filling() && elems.Length < WORD
      requires 1 < elems[0] as int == |Added()| ==> 0 < Sum(Added()) < RAND_MAX
      modifies this`randMax, this`firstChild, elems
      ensures firstChild == old(firstChild)
      ensures ok <==> old(elems[0]) == 1 || old(|Added()|) == old(elems[0]) as int
      ensures !ok ==> elems[..] == old(elems[..]) && randMax == old(randMax)
      ensures ok ==> Sampling()
      ensures old(elems[0]) == 1 ==> randMax == RAND_MAX && elems[..] == [2, RAND_MAX]
      ensures ok && old(elems[0]) > 1 ==>
                var w := old(Added());
                && Ready(elems[..], firstChild, w) && randMax == Share(w, |w|)
                && randMax as int % Sum(w) == 0 && randMax < 0x7fff_ffff && randMax as int + Sum(w) >= 0x7fff_ffff
    {
      if elems[0] == 1 {
        randMax := RAND_MAX;
        elems[1] := RAND_MAX;
        elems[0] := 2;
        return true;
      }
      var lastLeaf := randMax;
      var firstLeaf := RoundPow2(elems[0]);
      OnlyPow2(if firstLeaf < firstChild then firstChild else firstLeaf, if firstLeaf < firstChild then firstLeaf
            else firstChild);
      if lastLeaf - firstLeaf != elems[0] {
        return false;
      }
      ghost var w := Added();
      var total := Total(firstLeaf, lastLeaf);
      ok := true;
      SetupTree(firstLeaf, lastLeaf, total, w);
      LargestMultiple(w);
    }

    /** How many draws one unit of weight gets, and all weights. */
    method Multiply(total: u32) returns (multiplier: u32, max: u32)
      requires 0 < total as int < RAND_MAX
      ensures multiplier as int == Multiplier(total as int) && max as int == Multiplier(total as int) * total as int
    {
      multiplier := RAND_MAX / total;
      if Mul32(multiplier, total) == RAND_MAX {
        multiplier := multiplier - 1;
      }
      MultiplierIs(total);
      max := Mul32(multiplier, total);
    }

    /** The part of cdf_setup that changes the elements. */
    method SetupTree(firstLeaf: u32, lastLeaf: u32, total: u32, ghost w: seq<u32>)
      requires Filling() && elems.Length < WORD && firstLeaf == firstChild && lastLeaf == randMax
      requires w == Added() && |w| == elems[0] as int >= 2 && 0 < Sum(w) < RAND_MAX && total == Sum(w)
      modifies this`randMax, this`firstChild, elems
      ensures firstChild == old(firstChild) && Sampling()
      ensures Ready(elems[..], firstChild, w) && randMax == Share(w, |w|)
    {
      var multiplier, max := Multiply(total);
      FillAll(multiplier, firstLeaf, lastLeaf, w);
      randMax := max;
      firstChild := firstLeaf;
      BuildAll(firstLeaf, w);
      WholePrefix(w);
    }

    /** The tree above the leaves. */
    method BuildAll(firstLeaf: u32, ghost w: seq<u32>)
      requires 2 <= |w| && firstLeaf == firstChild <= TOP_BIT && (firstLeaf as int) < 2 * |w|
      requires Pow2(firstLeaf) && elems.Length < WORD
      requires LeavesAre(elems[..], firstChild, w)
      modifies elems
      ensures Sampling() && Ready(elems[..], firstChild, w)
    {
      var p := RoundPow2(firstLeaf);
      OnlyPow2(p, firstLeaf);
      elems[0] := p * 2;
      hide Sum, Leaf;
      BuildTree(firstLeaf, p * 2 - 1);
    }

    /** All leaves get their draws. */
    method FillAll(multiplier: u32, firstLeaf: u32, lastLeaf: u32, ghost w: seq<u32>)
      requires Filling() && elems.Length < WORD && firstLeaf == firstChild && lastLeaf == randMax
      requires w == Added() && |w| == elems[0] as int && 0 < Sum(w) < RAND_MAX
      requires multiplier as int == Multiplier(Sum(w))
      modifies elems
      ensures LeavesAre(elems[..], firstChild, w)
    {
      FillLeaves(multiplier, firstLeaf, lastLeaf, w);
      FillSpare(lastLeaf);
    }

    /** cdf_sample. draws are the values rand_r will give, the one numbered stop is the first to be accepted. */
    method Sample(draws: nat -> u32, stop: nat) returns (index: u32)
      requires Sampling() && elems.Length < WORD
      requires draws(stop) <= randMax && forall j: nat :: j < stop ==> draws(j) > randMax
      ensures index == Sampled(elems[..], firstChild, draws(stop))
    {
      HalfTopBit(firstChild);
      var j := 0;
      var rand := draws(0);
      while rand > randMax
        invariant j <= stop && rand == draws(j)
        decreases stop - j
      {
        j := j + 1;
        rand := draws(j);
      }
      var cur: u32 := 1;
      while true
        invariant 1 <= cur && cur as int < elems.Length
        invariant Descend(elems[..], firstChild, rand, cur) == Descend(elems[..], firstChild, rand, 1)
        decreases elems.Length - cur as int
      {
        var leftChild: u32, rightChild: u32 := cur * 2, cur * 2 + 1;
        if rightChild < elems[0] {
          cur := if rand > elems[cur] then rightChild else leftChild;
        } else if leftChild < elems[0] {
          cur := leftChild;
        } else {
          return cur - firstChild;
        }
      }
    }
  }

  lemma MultiplierIs(total: u32)
    requires 0 < total as int < RAND_MAX
    ensures var m := RAND_MAX / total as int; m < WORD && Mul32(m, total) == m * total as int
    ensures Multiplier(total) < WORD && Mul32(Multiplier(total), total) == Multiplier(total) * total as int
  {
    MultiplierOk(total);
    var m := RAND_MAX / total as int;
    assert RAND_MAX == m * total as int + RAND_MAX % total as int;
    MulMonotone(1, total, m);
    DivIs(m * total as int, WORD, 0);
    DivIs(Multiplier(total) * total as int, WORD, 0);
  }

  /** uint32_t multiplication. */
  function Mul32(a: u32, b: u32): u32 {
    a as int * b as int % WORD
  }

  /** Subtracting one before the sum and adding it after cancels out, also when the share is nothing. */
  lemma WrapsBack(a: u32, x: u32, m: u32, b: nat)
    requires b == a as int + m as int * x as int && b < RAND_MAX
    ensures var leaf := Add32(a, Sub32(Mul32(x, m), 1)); leaf == LastDraw(b) && Add32(leaf, 1) as int == b
  {
    var share := b - a as int;
    DivIs(share, WORD, 0);
    assert Mul32(x, m) == share;
  }

  /** One step of the cumulative sums, and what is stored on the way. */
  lemma NextTotal(w: seq<u32>, k: nat, multiplier: u32)
    requires k < |w| && 0 < Sum(w) < RAND_MAX && multiplier == Multiplier(Sum(w))
    ensures Share(w, k) < RAND_MAX && Share(w, k + 1) < RAND_MAX
    ensures var leaf := Add32(Share(w, k), Sub32(Mul32(w[k], multiplier), 1));
            leaf == LastDraw(Share(w, k + 1)) && Add32(leaf, 1) == Share(w, k + 1)
  {
    ShareBelow(w, k);
    ShareBelow(w, k + 1);
    ShareStep(w, k);
    WrapsBack(Share(w, k), w[k], multiplier, Share(w, k + 1));
  }

  lemma HalfTopBit(p: nat)
    requires Pow2(p) && p < TOP_BIT
    ensures p <= TOP_BIT / 2
  {
    TopBit();
    DoublePow2(p);
    if 2 * p > TOP_BIT {
      OnlyPow2(TOP_BIT, p);
    }
  }
}
