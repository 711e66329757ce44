/** Raw random draws and how many of them fall in a range. */
module Draws {

  /** The largest value of rand_r. */
  const RAND_MAX: nat := 0x7fff_ffff

  /** The position chosen by raw draw r among n, or none when the draw is rejected. */
  function Pick(n: nat, r: nat): int
    requires 0 < n <= RAND_MAX
  {
    if r >= RAND_MAX / n * n then -1 else r / (RAND_MAX / n)
  }

  predicate Within(lo: nat, hi: nat, r: nat) {
    lo <= r < hi
  }

  lemma {:induction false} RangeSize(lo: nat, hi: nat)
    requires lo <= hi
    ensures |set r: nat | r < hi && Within(lo, hi, r)| == hi - lo
    decreases hi - lo
  {
    var s := set r: nat | r < hi && Within(lo, hi, r);
    if lo < hi {
      var h := hi - 1;
      RangeSize(lo, h);
      assert s == (set r: nat | r < h && Within(lo, h, r)) + {h};
    } else {
      assert s == {};
    }
  }
}
