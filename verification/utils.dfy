/**
 * The counter animation: a timer that adds a fixed increment to a running
 * value every frame, clamps it at the target and shows its floor each time.
 * The timer becomes a loop; each iteration is one tick, and the result lists
 * the numbers the element shows, in order.
 */
module Utils {

  /** The default length of the animation in milliseconds. */
  const DEFAULT_DURATION: real := 2000.0
  /** The timer period in milliseconds. */
  const FRAME_INTERVAL: real := 16.0

  /** The number of frames the duration spans, `duration / 16`. */
  function Frames(duration: real): real
  {
    duration / FRAME_INTERVAL
  }

  /** `target / (duration / 16)`, added once per tick. */
  function Increment(target: int, duration: real): real
    requires duration > 0.0
  {
    target as real / Frames(duration)
  }

  /** The running value after `k` ticks, before any clamping. */
  function Running(target: int, duration: real, k: nat): real
    requires duration > 0.0
  {
    if k == 0 then 0.0 else Running(target, duration, k - 1) + Increment(target, duration)
  }

  /** `k` equal increments add up to `k` times the increment. */
  lemma {:induction false} RunningIsProduct(target: int, duration: real, k: nat)
    requires duration > 0.0
    ensures Running(target, duration, k) == (k as real) * Increment(target, duration)
  {
    if k > 0 {
      RunningIsProduct(target, duration, k - 1);
    }
  }

  /** With a positive target, `k` increments reach the target exactly when `k` covers all the frames. */
  lemma ReachesTarget(target: int, duration: real, k: nat)
    requires duration > 0.0 && target > 0
    ensures Running(target, duration, k) >= target as real <==> k as real >= Frames(duration)
  {
    RunningIsProduct(target, duration, k);
    var n, inc := Frames(duration), Increment(target, duration);
    assert inc * n == target as real;
    ScaledReach(target as real, n, inc, k as real);
  }

  /** For `inc = t / n` with `t, n > 0`: `k * inc >= t` exactly when `k >= n`. */
  lemma ScaledReach(t: real, n: real, inc: real, k: real)
    requires t > 0.0 && n > 0.0 && inc * n == t
    ensures k * inc >= t <==> k >= n
  {
    assert k * inc * n == k * t;
    if k * inc >= t {
      assert k * inc * n >= t * n;
      assert (k - n) * t >= 0.0;
    } else {
      assert k * inc * n < t * n;
      assert (k - n) * t < 0.0;
    }
  }

  /** With a target at or below zero and at least one frame, the first increment already reaches it. */
  lemma FirstTickReaches(target: int, duration: real)
    requires duration > 0.0 && target <= 0
    requires target == 0 || duration >= FRAME_INTERVAL
    ensures Increment(target, duration) >= target as real
    ensures target == 0 ==> Increment(target, duration) == 0.0
  {
    var n, t, inc := Frames(duration), target as real, Increment(target, duration);
    assert inc * n == t;
    if target < 0 {
      assert n >= 1.0;
      assert (inc - t) * n == t * (1.0 - n);
    }
  }

  /**
   * Runs the animation towards `target` over `duration` milliseconds and returns
   * the numbers shown, one per tick. When the target is negative and the
   * duration shorter than one frame, the running value moves away from the
   * target and the timer never stops; that case is excluded.
   */
  method AnimateNumber(target: int, duration: real) returns (shown: seq<int>)
    requires duration > 0.0
    requires target >= 0 || duration >= FRAME_INTERVAL
    ensures |shown| >= 1 && shown[|shown| - 1] == target
    ensures forall k :: 0 <= k < |shown| - 1 ==> shown[k] == Running(target, duration, k + 1).Floor
    ensures forall k :: 0 <= k < |shown| ==> shown[k] <= target
    ensures target >= 0 ==> forall k :: 0 <= k < |shown| ==> 0 <= shown[k]
    ensures forall j, k :: 0 <= j <= k < |shown| ==> shown[j] <= shown[k]
    ensures target <= 0 ==> |shown| == 1
    ensures target > 0 ==> ((|shown| - 1) as real) < Frames(duration) <= |shown| as real
  {
    var increment := Increment(target, duration);
    var current := 0.0;
    var done := false;
    shown := [];
    ghost var n := Frames(duration);
    ghost var bound := n.Floor + 1;
    if target <= 0 {
      FirstTickReaches(target, duration);
    }
    while !done
      invariant current == if done then target as real else Running(target, duration, |shown|)
      invariant !done && |shown| > 0 ==> current < target as real
      invariant target <= 0 ==> |shown| <= 1 && (|shown| > 0 ==> done)
      invariant target > 0 && !done ==> (|shown| as real) < n
      invariant target > 0 && done ==> ((|shown| - 1) as real) < n <= |shown| as real
      invariant done ==> |shown| >= 1 && shown[|shown| - 1] == target
      invariant ShowsRunning(shown, target, duration, if done then |shown| - 1 else |shown|)
      decreases if done then 0 else bound - |shown|
    {
      ghost var prev := shown;
      current := current + increment;
      if target > 0 {
        ReachesTarget(target, duration, |prev| + 1);
      }
      if current >= target as real {
        current := target as real;
        done := true;
      }
      shown := shown + [current.Floor];
      assert forall k :: 0 <= k < |prev| ==> shown[k] == prev[k];
    }
    ShownInOrder(shown, target, duration);
  }

  /** The first `count` numbers shown are the floors of the running value, still short of the target. */
  ghost predicate ShowsRunning(shown: seq<int>, target: int, duration: real, count: int)
    requires duration > 0.0
  {
    forall k :: 0 <= k < count && k < |shown| ==>
      shown[k] == Running(target, duration, k + 1).Floor && Running(target, duration, k + 1) < target as real
  }

  /**
   * A run of floors of the running value followed by the target is bounded by
   * the target and non-decreasing (non-negative too, for a non-negative target).
   */
  lemma ShownInOrder(shown: seq<int>, target: int, duration: real)
    requires duration > 0.0
    requires |shown| >= 1 && shown[|shown| - 1] == target
    requires ShowsRunning(shown, target, duration, |shown| - 1)
    requires target <= 0 ==> |shown| == 1
    ensures forall k :: 0 <= k < |shown| ==> shown[k] <= target
    ensures target >= 0 ==> forall k :: 0 <= k < |shown| ==> 0 <= shown[k]
    ensures forall j, k :: 0 <= j <= k < |shown| ==> shown[j] <= shown[k]
  {
    if target > 0 {
      forall k | 0 <= k < |shown| - 1
        ensures 0 <= shown[k] <= target
        ensures k + 1 < |shown| - 1 ==> shown[k] <= shown[k + 1]
      {
        RunningGrows(target, duration, k + 1);
      }
      forall j, k | 0 <= j <= k < |shown|
        ensures shown[j] <= shown[k]
      {
        ShownStep(shown, target, duration, j, k);
      }
    }
  }

  lemma {:induction false} ShownStep(shown: seq<int>, target: int, duration: real, j: nat, k: nat)
    requires duration > 0.0 && target > 0
    requires |shown| >= 1 && shown[|shown| - 1] == target
    requires ShowsRunning(shown, target, duration, |shown| - 1)
    requires j <= k < |shown|
    ensures shown[j] <= shown[k]
    decreases k - j
  {
    if j < k {
      ShownStep(shown, target, duration, j + 1, k);
      if j + 1 < |shown| - 1 {
        RunningGrows(target, duration, j + 1);
      }
    }
  }

  /** With a non-negative target the running value never decreases. */
  lemma RunningGrows(target: int, duration: real, k: nat)
    requires duration > 0.0 && target >= 0
    ensures 0.0 <= Running(target, duration, k) <= Running(target, duration, k + 1)
  {
    RunningIsProduct(target, duration, k);
    assert Increment(target, duration) >= 0.0;
  }

  /** With the default duration a positive target is first reached on the 125th tick: 124 ticks fall short. */
  lemma DefaultDurationTicks(target: int)
    requires target > 0
    ensures Running(target, DEFAULT_DURATION, 124) < target as real <= Running(target, DEFAULT_DURATION, 125)
  {
    ReachesTarget(target, DEFAULT_DURATION, 124);
    ReachesTarget(target, DEFAULT_DURATION, 125);
  }
}
