/** Rings: the n elements from position c on of a buffer e that wraps around. */
module Ring {
  import opened Division

  lemma ModStep(x: nat, k: nat, s: nat)
    requires s > 0 && x % s + k < s
    ensures (x + k) % s == x % s + k
  {
    ModIs(x + k, s, x / s, x % s + k);
  }

  /** Positions that agree modulo the size stay so. */
  lemma Congruent(c: nat, d: nat, k: nat, s: nat)
    requires s > 0 && c % s == d % s
    ensures (c + k) % s == (d + k) % s
  {
    var r := c % s;
    assert c == c / s * s + r && d == d / s * s + r;
    SameMod(r + k, c / s, s);
    SameMod(r + k, d / s, s);
  }

  /** Different counts below the size are different places. */
  lemma DifferentPlaces(c: nat, j: nat, k: nat, s: nat)
    requires s > 0 && j < k < j + s
    ensures (c + j) % s != (c + k) % s
  {
    var x, y := c + j, c + k;
    if x % s == y % s {
      assert y - x == (y / s - x / s) * s;
      var d := y / s - x / s;
      if d <= 0 {
        MulMonotone(0, -d, s);
      } else {
        MulMonotone(1, d, s);
      }
    }
  }

  ghost function Place<T>(e: seq<T>, c: nat, k: nat): T
    requires |e| > 0
  {
    e[(c + k) % |e|]
  }

  /** The n elements from position c on. */
  ghost function Slots<T>(e: seq<T>, c: nat, n: nat): (r: seq<T>)
    requires |e| > 0
    ensures |r| == n && forall k :: 0 <= k < n ==> r[k] == Place(e, c, k)
  {
    seq(n, k requires k >= 0 => Place(e, c, k))
  }

  lemma PutOne<T>(e: seq<T>, c: nat, n: nat, x: T)
    requires n < |e|
    ensures Slots(e[(c + n) % |e| := x], c, n + 1) == Slots(e, c, n) + [x]
  {
    var e' := e[(c + n) % |e| := x];
    forall k | 0 <= k < n
      ensures Place(e', c, k) == Place(e, c, k)
    {
      DifferentPlaces(c, k, n, |e|);
    }
  }

  lemma SameStart<T>(e: seq<T>, c: nat, d: nat, n: nat)
    requires |e| > 0 && c % |e| == d % |e|
    ensures Slots(e, c, n) == Slots(e, d, n)
  {
    forall k | 0 <= k < n
      ensures Place(e, c, k) == Place(e, d, k)
    {
      Congruent(c, d, k, |e|);
    }
  }

  lemma DropFirst<T>(e: seq<T>, c: nat, n: nat)
    requires |e| > 0 && n > 0
    ensures Slots(e, c + 1, n - 1) == Slots(e, c, n)[1..]
  {
    var rest := Slots(e, c, n)[1..];
    forall k | 0 <= k < n - 1
      ensures Slots(e, c + 1, n - 1)[k] == rest[k]
    {
      assert rest[k] == Place(e, c, k + 1);
    }
  }

  /** A block of elements written from slot b on is appended. */
  lemma PutBlock<T>(e: seq<T>, e': seq<T>, c: nat, n: nat, b: nat, ms: seq<T>)
    requires |e| == |e'| > 0 && n + |ms| <= |e| && b == (c + n) % |e| && b + |ms| <= |e|
    requires forall k :: 0 <= k < |e| ==> e'[k] == if b <= k < b + |ms| then ms[k - b] else e[k]
    ensures Slots(e', c, n + |ms|) == Slots(e, c, n) + ms
  {
    var s := |e|;
    forall k | 0 <= k < n + |ms|
      ensures Place(e', c, k) == if k < n then Place(e, c, k) else ms[k - n]
    {
      if k >= n {
        ModStep(c + n, k - n, s);
      } else {
        var at := (c + k) % s;
        if b <= at < b + |ms| {
          ModStep(c + n, at - b, s);
          DifferentPlaces(c, k, n + (at - b), s);
        }
      }
    }
  }
}
