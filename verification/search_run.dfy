/** The searches as the program runs them: each probe updates the bounds, and the loop ends when these meet or are
    close enough. */
module RateSearchRun {
  import opened RateSearch
  import opened Wrappers

  class FlowSizeTest {
    const n: nat
    var tst009L: nat
    var tst009R: nat
    var tst009m: nat
    var minspeed: real
    var maxspeed: real
    const accuracy: real

    ghost function View(): Window
      reads this
    {
      Window(tst009L, tst009R)
    }

    ghost function Speeds(): Bounds
      reads this
    {
      Bounds(minspeed, maxspeed)
    }

    constructor (n: nat, accuracy: real)
      ensures this.n == n && this.accuracy == accuracy
    {
      this.n, this.accuracy := n, accuracy;
      tst009L, tst009R, tst009m, minspeed, maxspeed := 0, 0, 0, 0.0, 0.0;
    }

    /** get_start_speed_and_init for the step search. */
    method StartSteps() returns (step: nat)
      requires n > 0
      modifies this
      ensures View() == Window(0, n - 1) && step == tst009m == Middle(View())
    {
      tst009L := 0;
      tst009R := n - 1;
      tst009m := (tst009L + tst009R) / 2;
      step := tst009m;
    }

    /** new_speed for the step search. */
    method NewStep(success: bool) returns (step: nat)
      requires tst009m == Middle(View())
      modifies this
      ensures View() == Shrink(old(View()), success) && step == tst009m == Middle(View())
    {
      if success {
        tst009L := tst009m + 1;
      } else {
        tst009R := Max(tst009m - 1, tst009L);
      }
      tst009m := (tst009L + tst009R) / 2;
      step := tst009m;
    }

    /** The search loop of run over steps. With a single step it only ends when that fails. best is the last step
        that passed, the one whose data are reported. */
    method RunSteps(pass: nat -> bool) returns (best: Option<nat>, attempts: nat)
      requires n >= 1 && (n == 1 ==> !pass(0))
      modifies this
      ensures best == if Reported(pass, n) == 0 then None else Some(Reported(pass, n) - 1)
      ensures attempts == if n == 1 then 1 else StepSearch(pass, Window(0, n - 1)).1
    {
      best, attempts := None, 0;
      var step := StartSteps();
      ghost var whole := StepSearch(pass, Window(0, n - 1));
      var done := false;
      while !done
        invariant tst009L <= tst009R && tst009m == step == Middle(View())
        invariant done ==> tst009L == tst009R
        invariant !done ==> tst009L < tst009R || (n == 1 && attempts == 0 && View() == Window(0, 0))
        invariant best == if tst009L == 0 then None else Some(tst009L - 1)
        invariant n == 1 ==> View() == Window(0, 0) && attempts == if done then 1 else 0
        invariant StepSearch(pass, View()).0 == whole.0
        invariant n > 1 ==> StepSearch(pass, View()).1 + attempts == whole.1
        decreases tst009R - tst009L, !done
      {
        attempts := attempts + 1;
        var success := pass(step);
        if success {
          best := Some(step);
        }
        step := NewStep(success);
        done := tst009L == tst009R;
      }
    }

    /** get_start_speed_and_init for the bisection. */
    method StartSpeeds(startspeed: real) returns (speed: real)
      modifies this
      ensures Speeds() == Bounds(0.0, startspeed) && speed == startspeed
    {
      minspeed := 0.0;
      maxspeed := startspeed;
      speed := startspeed;
    }

    method NewSpeed(speed: real, success: bool) returns (next: real)
      modifies this
      ensures Speeds() == Narrow(old(Speeds()), speed, success) && next == Halfway(Speeds())
    {
      if success {
        minspeed := speed;
      } else {
        maxspeed := speed;
      }
      next := (minspeed + maxspeed) / 2.0;
    }

    /** The search loop of run over speeds. It ends within accuracy of the threshold: best passed, and nothing more
        than the accuracy above it does, up to the start speed. rounds times the accuracy is at least the start
        speed. */
    method RunSpeeds(pass: real -> bool, startspeed: real, ghost rounds: nat)
        returns (best: Option<real>, attempts: nat)
      requires Monotone(pass) && accuracy > 0.0 && 0.0 <= startspeed <= Times(rounds, accuracy)
      modifies this
      ensures best.Some? ==> pass(best.value) && best.value <= startspeed
      ensures forall s: real :: s <= startspeed && pass(s) ==> s <= (if best.Some? then best.value else 0.0) + accuracy
      ensures attempts <= 1 + Halvings(rounds)
    {
      best, attempts := None, 0;
      var speed := StartSpeeds(startspeed);
      ghost var left := rounds;
      ghost var start := true;
      var done := false;
      while !done
        invariant start ==>
                    attempts == 0 && !done && left == rounds && Speeds() == Bounds(0.0, startspeed) && speed == startspeed
        invariant !start ==> attempts + Halvings(left) <= 1 + Halvings(rounds) && speed == Halfway(Speeds())
        invariant 0.0 <= minspeed <= maxspeed <= startspeed && maxspeed - minspeed <= Times(left, accuracy)
        invariant (if best.Some? then best.value == minspeed && pass(minspeed) else minspeed == 0.0)
        invariant forall s: real :: s <= startspeed && pass(s) ==> s <= maxspeed
        invariant done <==> !start && maxspeed - minspeed <= accuracy
        decreases start, left
      {
        attempts := attempts + 1;
        var success := pass(speed);
        if success {
          best := Some(speed);
        }
        ghost var width := maxspeed - minspeed;
        ghost var was := speed;
        speed := NewSpeed(speed, success);
        if !start {
          assert maxspeed - minspeed == width / 2.0;
          HalfTheWidth(left, width, accuracy);
          left := (left + 1) / 2;
        }
        start := false;
        done := maxspeed - minspeed <= accuracy;
      }
    }

    /** The loop of run with a fixed increment: up to the first speed that fails, which is number stop. */
    method RunIncrements(pass: real -> bool, startspeed: real, step: real, ghost stop: nat)
          returns (best: Option<real>, attempts: nat)
      requires !pass(Increment(startspeed, step, stop))
          && forall k: nat :: k < stop ==> pass(Increment(startspeed, step, k))
      ensures attempts == stop + 1
      ensures best == if stop == 0 then None else Some(Increment(startspeed, step, stop - 1))
    {
      best, attempts := None, 1;
      var speed := startspeed;
      while pass(speed)
        invariant 1 <= attempts <= stop + 1 && speed == Increment(startspeed, step, attempts - 1)
        invariant best == if attempts == 1 then None else Some(Increment(startspeed, step, attempts - 2))
        decreases stop + 1 - attempts
      {
        best := Some(speed);
        speed := speed + step;
        attempts := attempts + 1;
      }
    }
  }

  ghost function Increment(startspeed: real, step: real, k: nat): real {
    if k == 0 then startspeed else Increment(startspeed, step, k - 1) + step
  }

  /** n times a */
  ghost function Times(n: nat, a: real): real {
    if n == 0 then 0.0 else Times(n - 1, a) + a
  }

  lemma {:induction false} IncrementIs(startspeed: real, step: real, k: nat)
    ensures Increment(startspeed, step, k) == startspeed + k as real * step
  {
    if k > 0 {
      IncrementIs(startspeed, step, k - 1);
      assert k as real * step == (k - 1) as real * step + step;
    }
  }

  lemma {:induction false} TimesIs(n: nat, a: real)
    ensures Times(n, a) == n as real * a
  {
    if n > 0 {
      TimesIs(n - 1, a);
      assert n as real * a == (n - 1) as real * a + a;
    }
  }

  lemma {:induction false} HalfTimes(n: nat, a: real)
    requires a >= 0.0
    ensures Times(n, a) / 2.0 <= Times((n + 1) / 2, a)
  {
    if n >= 2 {
      HalfTimes(n - 2, a);
      assert Times(n, a) == Times(n - 2, a) + a + a;
    } else if n == 1 {
      assert Times(1, a) == Times(0, a) + a;
    }
  }

  lemma HalfTheWidth(n: nat, width: real, accuracy: real)
    requires accuracy > 0.0 && accuracy < width <= Times(n, accuracy)
    ensures n >= 2 && width / 2.0 <= Times((n + 1) / 2, accuracy)
  {
    HalfTimes(n, accuracy);
    assert Times(1, accuracy) == Times(0, accuracy) + accuracy;
  }
}
