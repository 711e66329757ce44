/** When header fields that count up in lockstep repeat. */
module Ranges {
  import opened Division
  import opened Words

  // ---- greatest common divisor and least common multiple ----

  function Gcd(a: nat, b: nat): nat
    decreases b
  {
    if b == 0 then a else Gcd(b, a % b)
  }

  predicate Divides(d: nat, t: nat)
    requires d > 0
  {
    t % d == 0
  }

  lemma DividesIs(d: nat, t: nat, k: nat)
    requires d > 0 && t == k * d
    ensures Divides(d, t) && t / d == k
  {
    assert (k + 1) * d == k * d + d;
    DivIs(t, d, k);
  }

  lemma {:induction false} Bezout(a: nat, b: nat) returns (x: int, y: int)
    ensures a * x + b * y == Gcd(a, b)
    decreases b
  {
    if b == 0 {
      x, y := 1, 0;
    } else {
      var u, v := Bezout(b, a % b);
      var k := a / b;
      x, y := v, u - k * v;
      assert a == k * b + a % b;
      assert a * v == (k * b) * v + (a % b) * v;
      assert b * (u - k * v) == b * u - (k * b) * v;
    }
  }

  /** What divides b and r divides k * b + r. */
  lemma MultiplesAdd(g: nat, a: nat, k: nat, b: nat, r: nat)
    requires g > 0 && Divides(g, b) && Divides(g, r) && a == k * b + r
    ensures Divides(g, a)
  {
    var m, n := b / g, r / g;
    DivMod(b, g);
    DivMod(r, g);
    Associate(k, m, g);
    Distribute(k * m, n, g);
    DividesIs(g, a, k * m + n);
  }

  lemma EuclidStep(a: nat, b: nat) returns (k: nat, r: nat)
    requires b > 0
    ensures a == k * b + r && r < b && Gcd(a, b) == Gcd(b, r)
  {
    DivMod(a, b);
    k, r := a / b, a % b;
  }

  lemma {:induction false} GcdDivides(a: nat, b: nat)
    requires a > 0 || b > 0
    ensures Gcd(a, b) > 0 && Divides(Gcd(a, b), a) && Divides(Gcd(a, b), b)
    decreases b
  {
    if b > 0 {
      var k, r := EuclidStep(a, b);
      GcdDivides(b, r);
      MultiplesAdd(Gcd(a, b), a, k, b, r);
    } else {
      DividesIs(a, a, 1);
      DividesIs(a, 0, 0);
    }
  }

  function Lcm(a: nat, b: nat): nat
    requires a > 0 && b > 0
  {
    GcdDivides(a, b);
    a / Gcd(a, b) * b
  }

  /** a = g * a' and b = g * b', and the least common multiple is g * a' * b'. */
  lemma LcmParts(a: nat, b: nat) returns (g: nat, a': nat, b': nat)
    requires a > 0 && b > 0
    ensures g == Gcd(a, b) > 0 && a' > 0 && b' > 0
    ensures a == a' * g && b == b' * g && Lcm(a, b) == a' * b && Lcm(a, b) == a * b' && Lcm(a, b) > 0
  {
    GcdDivides(a, b);
    g := Gcd(a, b);
    a', b' := a / g, b / g;
    DivMod(a, g);
    DivMod(b, g);
    Associate(a', g, b');
    Swap(g, b');
    PositiveParts(a', g);
    PositiveParts(b', g);
    MulMonotone(1, a', b);
  }

  lemma PositiveParts(x: nat, g: nat)
    requires x * g > 0
    ensures x > 0
  {
  }

  /** Multiples of the least common multiple are exactly the common multiples. */
  lemma LcmIs(a: nat, b: nat, t: nat)
    requires a > 0 && b > 0
    ensures Lcm(a, b) > 0 && (Divides(Lcm(a, b), t) <==> Divides(a, t) && Divides(b, t))
  {
    var g, a', b' := LcmParts(a, b);
    var l := Lcm(a, b);
    if Divides(l, t) {
      var k := t / l;
      DivMod(t, l);
      Associate(k, a', b);
      DividesIs(b, t, k * a');
      Swap(a, b');
      Associate(k, b', a);
      DividesIs(a, t, k * b');
    }
    if Divides(a, t) && Divides(b, t) {
      CommonMultiple(a, b, t, g, a', b');
    }
  }

  lemma QuotientIs(a: nat, t: nat)
    requires a > 0 && Divides(a, t)
    ensures t == t / a * a
  {}

  lemma CommonMultiple(a: nat, b: nat, t: nat, g: nat, a': nat, b': nat)
    requires a > 0 && b > 0 && Divides(a, t) && Divides(b, t)
    requires g == Gcd(a, b) > 0 && a == a' * g && b == b' * g && Lcm(a, b) == a' * b && Lcm(a, b) > 0
    ensures Divides(Lcm(a, b), t)
  {
    hide Divides, Gcd, Lcm;
    var m, n := t / a, t / b;
    var x, y := Bezout(a, b);
    var l, z := Lcm(a, b), n * x + m * y;
    QuotientIs(a, t);
    QuotientIs(b, t);
    BezoutScaled(a, b, g, m, n, x, y, t);
    Regroup(a, b, g, a', l, z);
    Cancel(t, l * z, g);
    FactorSign(l, z);
    DividesIs(l, t, z);
  }

  lemma Regroup(a: nat, b: nat, g: nat, a': nat, l: nat, z: int)
    requires a == a' * g && l == a' * b
    ensures (a * b) * z == (l * z) * g
  {
    assert (a' * g) * b == l * g;
    assert (l * g) * z == (l * z) * g;
  }

  lemma FactorSign(l: nat, z: int)
    requires l > 0 && (l * z >= 0 || z * l >= 0)
    ensures z >= 0
  {
  }

  lemma BezoutScaled(a: nat, b: nat, g: nat, m: nat, n: nat, x: int, y: int, t: nat)
    requires a * x + b * y == g && t == m * a && t == n * b
    ensures t * g == (a * b) * (n * x + m * y)
  {
    assert t * g == t * (a * x) + t * (b * y);
    assert t * (a * x) == (n * b) * (a * x) == (a * b) * (n * x);
    assert t * (b * y) == (m * a) * (b * y) == (a * b) * (m * y);
    assert (a * b) * (n * x + m * y) == (a * b) * (n * x) + (a * b) * (m * y);
  }

  lemma Cancel(x: int, y: int, g: nat)
    requires g > 0 && x * g == y * g
    ensures x == y
  {
    var d := if x > y then x - y else y - x;
    assert d * g == 0;
    if d > 0 {
      MulMonotone(1, d, g);
    }
  }

  /** The fold of get_n_range_flows. */
  function LcmOf(sizes: seq<nat>): (l: nat)
    requires forall j :: 0 <= j < |sizes| ==> sizes[j] > 0
    ensures l > 0
  {
    if sizes == [] then 1
    else
      LcmIs(sizes[|sizes| - 1], LcmOf(sizes[..|sizes| - 1]), 0);
      Lcm(sizes[|sizes| - 1], LcmOf(sizes[..|sizes| - 1]))
  }

  lemma {:induction false} LcmOfIs(sizes: seq<nat>, t: nat)
    requires forall j :: 0 <= j < |sizes| ==> sizes[j] > 0
    ensures Divides(LcmOf(sizes), t) <==> forall j :: 0 <= j < |sizes| ==> Divides(sizes[j], t)
  {
    if sizes != [] {
      var n := |sizes| - 1;
      LcmOfIs(sizes[..n], t);
      LcmIs(sizes[n], LcmOf(sizes[..n]), t);
      assert forall j :: 0 <= j < n ==> sizes[..n][j] == sizes[j];
    }
  }

  /** A divisor of a positive number is not larger. */
  lemma DividesSmaller(d: nat, t: nat)
    requires d > 0 && t > 0 && Divides(d, t)
    ensures d <= t
  {
    var k := t / d;
    assert t == k * d + t % d;
    if k > 0 {
      MulMonotone(1, k, d);
    }
  }

  // ---- one range ----

  /** A field of len bytes at offset that takes the values min .. max. The program uses as many bytes as max needs,
      so that a range of zeros has none. */
  datatype Range = Range(min: u32, max: u32, offset: nat, len: nat) {
    ghost predicate Valid() {
      min <= max && len <= 4
    }

    function Size(): (n: nat)
      requires Valid()
      ensures n > 0
    {
      max - min + 1
    }
  }

  /** The body of the loop of task_gen_apply_ranges. */
  function Next(r: Range, v: u32): u32
    requires r.min <= v <= r.max
  {
    if v == r.max then r.min else v + 1
  }

  /** The value t packets after v. */
  function ValueAt(r: Range, v: u32, t: nat): (x: u32)
    requires r.Valid() && r.min <= v <= r.max
    ensures r.min <= x <= r.max
  {
    r.min + (v - r.min + t) % r.Size()
  }

  lemma ModStep(x: nat, n: nat)
    requires n > 0
    ensures (x + 1) % n == if x % n == n - 1 then 0 else x % n + 1
  {
    var k := x / n;
    assert x == k * n + x % n;
    if x % n == n - 1 {
      assert x + 1 == (k + 1) * n;
      DividesIs(n, x + 1, k + 1);
    } else {
      assert (k + 1) * n == k * n + n;
      DivIs(x + 1, n, k);
    }
  }

  lemma NextIs(r: Range, v: u32, t: nat)
    requires r.Valid() && r.min <= v <= r.max
    ensures Next(r, ValueAt(r, v, t)) == ValueAt(r, v, t + 1)
  {
    ModStep(v - r.min + t, r.Size());
  }

  /** The value of a range goes up by one from packet to packet, and from its largest value back to its smallest. */
  lemma CountsUp(r: Range, v: u32, t: nat)
    requires r.Valid() && r.min <= v <= r.max
    ensures ValueAt(r, v, 0) == v
    ensures ValueAt(r, v, t + 1) as int == if ValueAt(r, v, t) == r.max then r.min else ValueAt(r, v, t) as int + 1
  {
    SmallMod(v - r.min, r.Size());
    NextIs(r, v, t);
  }

  lemma SameRemainder(x: nat, d: nat, n: nat)
    requires n > 0
    ensures (x + d) % n == x % n <==> Divides(n, d)
  {
    if (x + d) % n == x % n {
      DifferenceDivides(x, d, n);
    }
    if Divides(n, d) {
      DivMod(d, n);
      SameMod(x, d / n, n);
    }
  }

  lemma DifferenceDivides(x: nat, d: nat, n: nat)
    requires n > 0 && (x + d) % n == x % n
    ensures Divides(n, d)
  {
    var a, b := x / n, (x + d) / n;
    DivMod(x, n);
    DivMod(x + d, n);
    MulDifference(b, a, n);
    FactorSign(n, b - a);
    DividesIs(n, d, b - a);
  }

  // ---- all ranges ----

  ghost predicate AllValid(rs: seq<Range>) {
    forall j :: 0 <= j < |rs| ==> rs[j].Valid()
  }

  ghost predicate InRanges(rs: seq<Range>, vs: seq<u32>) {
    |vs| == |rs| && forall j :: 0 <= j < |rs| ==> rs[j].min <= vs[j] <= rs[j].max
  }

  ghost function ValuesAt(rs: seq<Range>, vs: seq<u32>, t: nat): (r: seq<u32>)
    requires AllValid(rs) && InRanges(rs, vs)
    ensures InRanges(rs, r) && forall j :: 0 <= j < |rs| ==> r[j] == ValueAt(rs[j], vs[j], t)
  {
    seq(|rs|, j requires 0 <= j < |rs| => ValueAt(rs[j], vs[j], t))
  }

  function SizesOf(rs: seq<Range>): (ns: seq<nat>)
    requires AllValid(rs)
    ensures |ns| == |rs| && forall j :: 0 <= j < |rs| ==> ns[j] == rs[j].Size()
  {
    seq(|rs|, j requires 0 <= j < |rs| => rs[j].Size())
  }

  /** How many packets it takes until all values repeat. */
  function Period(rs: seq<Range>): (l: nat)
    requires AllValid(rs)
    ensures l > 0
  {
    LcmOf(SizesOf(rs))
  }

  lemma ValuesStart(rs: seq<Range>, vs: seq<u32>)
    requires AllValid(rs) && InRanges(rs, vs)
    ensures ValuesAt(rs, vs, 0) == vs
  {
    forall j | 0 <= j < |rs|
      ensures ValueAt(rs[j], vs[j], 0) == vs[j]
    {
      SmallMod(vs[j] - rs[j].min, rs[j].Size());
    }
  }

  /** The values have the least common multiple of the sizes as their exact period: they are the same d packets later
      if and only if it divides d. */
  lemma PeriodIsExact(rs: seq<Range>, vs: seq<u32>, t: nat, d: nat)
    requires AllValid(rs) && InRanges(rs, vs)
    ensures ValuesAt(rs, vs, t + d) == ValuesAt(rs, vs, t) <==> Divides(Period(rs), d)
  {
    var ns := SizesOf(rs);
    LcmOfIs(ns, d);
    forall j | 0 <= j < |rs|
      ensures ValueAt(rs[j], vs[j], t + d) == ValueAt(rs[j], vs[j], t) <==> Divides(ns[j], d)
    {
      SameRemainder(vs[j] - rs[j].min + t, d, ns[j]);
    }
    if ValuesAt(rs, vs, t + d) == ValuesAt(rs, vs, t) {
      assert forall j :: 0 <= j < |rs| ==> ValuesAt(rs, vs, t + d)[j] == ValuesAt(rs, vs, t)[j];
    }
  }

  /** t, moved beyond t0 by m, is t0 + j moved by k, where m and k are whole periods. */
  lemma WithinPeriod(t0: nat, t: nat, l: nat) returns (m: nat, k: nat, j: nat)
    requires l > 0
    ensures Divides(l, m) && Divides(l, k) && j < l && t + m == t0 + j + k
  {
    m := t0 * l;
    MulMonotone(1, l, t0);
    DividesIs(l, m, t0);
    var u := t + m - t0;
    j := u % l;
    k := u / l * l;
    DividesIs(l, k, u / l);
  }

  /** Any value vector to come occurs among the L that follow t0. */
  lemma OccursInPeriod(rs: seq<Range>, vs: seq<u32>, t0: nat, t: nat) returns (j: nat)
    requires AllValid(rs) && InRanges(rs, vs)
    ensures j < Period(rs) && ValuesAt(rs, vs, t0 + j) == ValuesAt(rs, vs, t)
  {
    var l := Period(rs);
    var m, k;
    m, k, j := WithinPeriod(t0, t, l);
    PeriodIsExact(rs, vs, t, m);
    PeriodIsExact(rs, vs, t0 + j, k);
  }
}
