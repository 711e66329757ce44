/** The step search of ETSI GS NFV-TST 009 (clause 12.3), and bisection over speeds. */
module RateSearch {

  // ---- the search over steps 0 .. n - 1 ----

  /** TST009_L and TST009_R */
  datatype Window = Window(l: nat, r: nat)

  function Middle(w: Window): nat {
    (w.l + w.r) / 2
  }

  function Max(a: int, b: int): int {
    if a >= b then a else b
  }

  /** new_speed after the middle step passed or failed. */
  function Shrink(w: Window, success: bool): Window {
    if success then Window(Middle(w) + 1, w.r) else Window(w.l, Max(Middle(w) - 1, w.l))
  }

  /** The last window, and the number of probes to get there. The loop ends when both sides of the window meet. */
  ghost function StepSearch(pass: nat -> bool, w: Window): (Window, nat)
    requires w.l <= w.r
    decreases w.r - w.l
  {
    if w.l == w.r then (w, 0)
    else
      var (last, probes) := StepSearch(pass, Shrink(w, pass(Middle(w))));
      (last, probes + 1)
  }

  function Log2(n: nat): nat {
    if n < 2 then 0 else 1 + Log2(n / 2)
  }

  lemma {:induction false} Log2Monotone(m: nat, n: nat)
    requires m <= n
    ensures Log2(m) <= Log2(n)
  {
    if m >= 2 {
      Log2Monotone(m / 2, n / 2);
    }
  }

  function Power2(k: nat): nat {
    if k == 0 then 1 else 2 * Power2(k - 1)
  }

  lemma {:induction false} Log2Is(n: nat)
    requires n > 0
    ensures Power2(Log2(n)) <= n < Power2(Log2(n) + 1)
  {
    if n >= 2 {
      Log2Is(n / 2);
    }
  }

  /** The search makes at most the binary logarithm of the number of steps, rounded down, probes. */
  lemma {:induction false} FewProbes(pass: nat -> bool, w: Window)
    requires w.l <= w.r
    ensures StepSearch(pass, w).1 <= Log2(w.r - w.l + 1)
    decreases w.r - w.l
  {
    if w.l < w.r {
      var w1 := Shrink(w, pass(Middle(w)));
      FewProbes(pass, w1);
      Log2Monotone(w1.r - w1.l + 1, (w.r - w.l + 1) / 2);
    }
  }

  /** Steps below t pass and the others fail. */
  ghost predicate Threshold(pass: nat -> bool, t: nat, n: nat) {
    t <= n && forall m: nat :: m < n ==> (pass(m) <==> m < t)
  }

  /** The threshold stays within the window: everything below it passes, everything above it fails. */
  ghost predicate Around(t: nat, w: Window) {
    w.l <= t <= w.r + 1
  }

  lemma {:induction false} EndsAtThreshold(pass: nat -> bool, w: Window, t: nat, n: nat)
    requires w.l <= w.r < n && Threshold(pass, t, n) && Around(t, w)
    ensures var last := StepSearch(pass, w).0; last.l == last.r < n && Around(t, last)
    decreases w.r - w.l
  {
    if w.l < w.r {
      EndsAtThreshold(pass, Shrink(w, pass(Middle(w))), t, n);
    }
  }

  /** The number of steps up to the highest one that passed a probe: 0 when none did. */
  ghost function Reported(pass: nat -> bool, n: nat): nat
    requires n > 0
  {
    StepSearch(pass, Window(0, n - 1)).0.l
  }

  /** The search from w on probes step x, when the steps up to x pass and the others fail. */
  predicate Probed(w: Window, x: int)
    decreases w.r - w.l
  {
    && w.l < w.r
    && var m := Middle(w);
       x == m || (x > m && Probed(Shrink(w, true), x)) || (x < m && Probed(Shrink(w, false), x))
  }

  lemma {:induction false} EndsAtProbed(pass: nat -> bool, w: Window, t: nat, n: nat)
    requires w.l <= w.r < n && Threshold(pass, t, n) && Around(t, w)
    ensures StepSearch(pass, w).0.l == t <==> t == w.l || Probed(w, t - 1)
    decreases w.r - w.l
  {
    if w.l < w.r {
      EndsAtProbed(pass, Shrink(w, pass(Middle(w))), t, n);
    }
  }

  /** The main result: the highest probe that passed is the last step that passes, or the one before it, and it is
      found within log2(n) probes. It is the last one exactly when no step passes or the last one is probed. */
  lemma ReportedIsClose(pass: nat -> bool, t: nat, n: nat)
    requires n > 0 && Threshold(pass, t, n)
    ensures Reported(pass, n) < n && t - 1 <= Reported(pass, n) <= t
    ensures Reported(pass, n) == t <==> t == 0 || Probed(Window(0, n - 1), t - 1)
    ensures StepSearch(pass, Window(0, n - 1)).1 <= Log2(n)
  {
    EndsAtThreshold(pass, Window(0, n - 1), t, n);
    EndsAtProbed(pass, Window(0, n - 1), t, n);
    FewProbes(pass, Window(0, n - 1));
  }

  /** The right end of a window is never probed. */
  lemma {:induction false} RightEndNotProbed(w: Window)
    ensures !Probed(w, w.r)
    decreases w.r - w.l
  {
    if w.l < w.r {
      RightEndNotProbed(Shrink(w, true));
    }
  }

  /** The top step is never probed, so that it is not reported even when all steps pass. */
  lemma TopStepNeverReported(pass: nat -> bool, n: nat)
    requires n > 0 && Threshold(pass, n, n)
    ensures Reported(pass, n) == n - 1
  {
    RightEndNotProbed(Window(0, n - 1));
    ReportedIsClose(pass, n, n);
  }

  /** It is not only the top step: of eight steps those numbered 0, 2 and 4 are not probed either. */
  lemma EightSteps(pass: nat -> bool, t: nat)
    requires Threshold(pass, t, 8)
    ensures Reported(pass, 8) == t <==> t !in {1, 3, 5, 8}
  {
    assert Probed(Window(1, 2), t - 1) <==> t == 2;
    assert Probed(Window(0, 2), t - 1) <==> t == 2;
    assert Probed(Window(6, 7), t - 1) <==> t == 7;
    assert Probed(Window(4, 7), t - 1) <==> t == 6 || t == 7;
    ReportedIsClose(pass, t, 8);
  }

  /** The window after k probes, if the loop goes on that long. */
  ghost function After(pass: nat -> bool, w: Window, k: nat): Window {
    if k == 0 then w else var v := After(pass, w, k - 1); Shrink(v, pass(Middle(v)))
  }

  lemma {:induction false} StuckWindow(pass: nat -> bool, k: nat)
    requires pass(0) && k > 0
    ensures After(pass, Window(0, 0), k) == Window(1, 0)
  {
    if k > 1 {
      StuckWindow(pass, k - 1);
    }
  }

  /** With a single step the loop, which probes before it looks at the window, ends after the first probe when the
      step fails and never when it passes. */
  lemma OneStepNeedsFailure(pass: nat -> bool)
    ensures (exists k: nat :: k > 0 && var w := After(pass, Window(0, 0), k); w.l == w.r) <==> !pass(0)
  {
    if pass(0) {
      forall k: nat | k > 0
        ensures After(pass, Window(0, 0), k) == Window(1, 0)
      {
        StuckWindow(pass, k);
      }
    } else {
      assert After(pass, Window(0, 0), 0) == Window(0, 0);
      assert After(pass, Window(0, 0), 1) == Window(0, 0);
    }
  }

  // ---- bisection over speeds ----

  /** minspeed and maxspeed */
  datatype Bounds = Bounds(min: real, max: real)

  /** new_speed for the bisection. */
  function Narrow(b: Bounds, speed: real, success: bool): Bounds {
    if success then b.(min := speed) else b.(max := speed)
  }

  function Halfway(b: Bounds): real {
    (b.min + b.max) / 2.0
  }

  /** A lower speed does not fail when a higher one passes. */
  ghost predicate Monotone(pass: real -> bool) {
    forall a: real, b: real :: a <= b && pass(b) ==> pass(a)
  }

  /** How often a width of at most n times the accuracy is halved before it is at most the accuracy. */
  function Halvings(n: nat): nat {
    if n < 2 then 0 else 1 + Halvings((n + 1) / 2)
  }

  lemma {:induction false} HalvingsIs(n: nat)
    requires n > 0
    ensures n <= Power2(Halvings(n)) < 2 * n
  {
    if n >= 2 {
      HalvingsIs((n + 1) / 2);
    }
  }
}
