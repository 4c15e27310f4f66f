/** The determinate-progress arithmetic of the loading indicator: mapping a
    percentage to one of the 61 progress frames, and the ease-out
    interpolation that turns a jump between two frames into ten steps.
    Floating-point values are modelled as exact reals. */
module Progress {

  /** Index of the last progress frame: the ring is drawn in 61 frames,
      0 (empty) to 60 (full circle). */
  const LastFrame: int := 60

  /** Number of intermediate frames `updateProgress` queues. */
  const Steps: int := 10

  /** Swift's `Int(x)` conversion: truncation toward zero. */
  function Trunc(x: real): (r: int)
    ensures 0.0 <= x ==> 0 <= r && r as real <= x < r as real + 1.0
    ensures x < 0.0 ==> r <= 0 && x <= r as real && (r as real) - 1.0 < x
  {
    if x >= 0.0 then x.Floor else -((-x).Floor)
  }

  /** `getCurrentFrameIndex`: clamp the percentage to [0, 100] and truncate
      60 * p / 100. */
  function FrameIndexFor(percentage: real): (r: int)
    ensures 0 <= r <= LastFrame
    ensures percentage < 0.0 ==> r == 0
    ensures percentage > 100.0 ==> r == LastFrame
    ensures 0.0 <= percentage <= 100.0 ==>
              r as real <= 60.0 * percentage / 100.0 < r as real + 1.0
  {
    if percentage < 0.0 then 0
    else if percentage > 100.0 then LastFrame
    else Trunc(60.0 * percentage / 100.0)
  }

  /** The percentage at which frame `i` starts to be shown. */
  function FrameStart(i: int): real
  {
    100.0 * i as real / 60.0
  }

  /** A percentage in [0, 100] selects frame `i` exactly when it lies in
      [FrameStart(i), FrameStart(i + 1)); 100 itself selects frame 60. */
  lemma FrameIndexCharacterization(percentage: real, i: int)
    requires 0.0 <= percentage <= 100.0
    requires 0 <= i <= LastFrame
    ensures FrameIndexFor(percentage) == i <==>
              FrameStart(i) <= percentage && (percentage < FrameStart(i + 1) || i == LastFrame)
  {
    var x := 60.0 * percentage / 100.0;
    var r := FrameIndexFor(percentage);
    assert FrameStart(i) <= percentage <==> i as real <= x;
    assert percentage < FrameStart(i + 1) <==> x < (i + 1) as real;
    if i == LastFrame && FrameStart(i) <= percentage {
      assert percentage == 100.0;
      assert x == 60.0;
    }
  }

  /** Raising the percentage never moves the ring backwards. */
  lemma FrameIndexMonotone(p: real, q: real)
    requires p <= q
    ensures FrameIndexFor(p) <= FrameIndexFor(q)
  {
    if 0.0 <= p && q <= 100.0 {
      var a, b := 60.0 * p / 100.0, 60.0 * q / 100.0;
      assert a <= b;
      assert FrameIndexFor(p) as real <= a;
      assert b < FrameIndexFor(q) as real + 1.0;
    }
  }

  /** The exact percentage at which a frame starts selects that frame. */
  lemma FrameStartSelectsFrame(i: int)
    requires 0 <= i <= LastFrame
    ensures FrameIndexFor(FrameStart(i)) == i
  {
    var x := 60.0 * FrameStart(i) / 100.0;
    assert x == i as real;
  }

  /** Step `s` of the ease-out quadratic in `updateProgress`: with
      t = (0.3 / 10 * s) / 0.3 and c = target - b, the frame
      `Int(b - c * t * (t - 2))`. */
  function EaseStep(b: int, target: int, s: int): int
  {
    var t := (0.3 / 10.0 * s as real) / 0.3;
    var c := target as real - b as real;
    Trunc(b as real - c * t * (t - 2.0))
  }

  /** An integer reference for the same step: b plus (target - b) scaled by
      s * (20 - s) / 100, rounded down. */
  function EaseStepExact(b: int, target: int, s: int): int
  {
    (100 * b + (target - b) * (s * (20 - s))) / 100
  }

  /** The eased position of step `s`, as a real. */
  lemma EaseValue(b: int, target: int, s: int)
    ensures var t := (0.3 / 10.0 * s as real) / 0.3;
            b as real - (target as real - b as real) * t * (t - 2.0)
            == (100 * b + (target - b) * (s * (20 - s))) as real / 100.0
  {
    var t := (0.3 / 10.0 * s as real) / 0.3;
    assert t == s as real / 10.0;
    var c := target as real - b as real;
    calc {
      b as real - c * t * (t - 2.0);
      b as real - c * (s as real / 10.0) * (s as real / 10.0 - 2.0);
      b as real + c * ((s * (20 - s)) as real) / 100.0;
      (100 * b + (target - b) * (s * (20 - s))) as real / 100.0;
    }
  }

  /** Truncating n / 100 for a non-negative integer n is integer division. */
  lemma TruncHundredth(n: int)
    requires 0 <= n
    ensures Trunc(n as real / 100.0) == n / 100
  {
    var q, m := n / 100, n % 100;
    assert n == 100 * q + m;
    assert n as real / 100.0 == q as real + m as real / 100.0;
    assert q as real <= n as real / 100.0 < q as real + 1.0;
  }

  /** The weight s * (20 - s) of step s grows from 0 to 100 over s = 0..10. */
  lemma WeightBounds(s1: int, s2: int)
    requires 0 <= s1 <= s2 <= Steps
    ensures 0 <= s1 * (20 - s1) <= s2 * (20 - s2) <= 100
  {
    assert s2 * (20 - s2) - s1 * (20 - s1) == (s2 - s1) * (20 - s1 - s2);
    assert 100 - s2 * (20 - s2) == (10 - s2) * (10 - s2);
  }

  /** Multiplying by a non-negative factor keeps order. */
  lemma MulMonotone(d: int, x: int, y: int)
    requires 0 <= d && x <= y
    ensures d * x <= d * y
  {
    assert d * y - d * x == d * (y - x);
  }

  /** (target - b) * w moves monotonically with w, towards target - b. */
  lemma ScaledDistance(d: int, w1: int, w2: int)
    requires 0 <= w1 <= w2 <= 100
    ensures 0 <= d ==> 0 <= d * w1 <= d * w2 <= 100 * d
    ensures d < 0 ==> 100 * d <= d * w2 <= d * w1 <= 0
  {
    if 0 <= d {
      MulMonotone(d, 0, w1);
      MulMonotone(d, w1, w2);
      MulMonotone(d, w2, 100);
    } else {
      MulMonotone(-d, 0, w1);
      MulMonotone(-d, w1, w2);
      MulMonotone(-d, w2, 100);
    }
  }

  /** For frames that are not negative the Float formula of the source
      and the integer reference agree on every step. */
  lemma EaseStepMatchesExact(b: int, target: int, s: int)
    requires 0 <= b && 0 <= target
    requires 0 <= s <= Steps
    ensures EaseStep(b, target, s) == EaseStepExact(b, target, s)
  {
    EaseValue(b, target, s);
    WeightBounds(s, s);
    ScaledDistance(target - b, s * (20 - s), s * (20 - s));
    TruncHundredth(100 * b + (target - b) * (s * (20 - s)));
  }

  /** Every step lies between the current frame and the target. */
  lemma EaseStepBetween(b: int, target: int, s: int)
    requires 0 <= b && 0 <= target
    requires 0 <= s <= Steps
    ensures var r := EaseStep(b, target, s);
            (b <= target ==> b <= r <= target) && (target <= b ==> target <= r <= b)
  {
    EaseStepMatchesExact(b, target, s);
    var w := s * (20 - s);
    WeightBounds(s, s);
    ScaledDistance(target - b, w, w);
    var n := 100 * b + (target - b) * w;
    if b <= target {
      assert 100 * b <= n <= 100 * target;
    } else {
      assert 100 * target <= n <= 100 * b;
    }
  }

  /** The tenth step lands exactly on the target (t = 1 makes
      t * (t - 2) equal to -1). */
  lemma EaseStepLands(b: int, target: int)
    ensures EaseStep(b, target, Steps) == target
  {
    EaseValue(b, target, Steps);
    var n := 100 * target;
    assert (100 * b + (target - b) * (Steps * (20 - Steps))) == n;
    assert n as real / 100.0 == target as real;
  }

  /** Later steps are never further from the target than earlier ones. */
  lemma EaseStepMonotone(b: int, target: int, s1: int, s2: int)
    requires 0 <= b && 0 <= target
    requires 0 <= s1 <= s2 <= Steps
    ensures b <= target ==> EaseStep(b, target, s1) <= EaseStep(b, target, s2)
    ensures target <= b ==> EaseStep(b, target, s2) <= EaseStep(b, target, s1)
  {
    EaseStepMatchesExact(b, target, s1);
    EaseStepMatchesExact(b, target, s2);
    var w1, w2 := s1 * (20 - s1), s2 * (20 - s2);
    WeightBounds(s1, s2);
    ScaledDistance(target - b, w1, w2);
    var n1, n2 := 100 * b + (target - b) * w1, 100 * b + (target - b) * w2;
    if b <= target {
      assert n1 <= n2;
    } else {
      assert n2 <= n1;
    }
  }

  /** The queue `updateProgress` builds: steps 1..10 of the ease-out from
      frame `b` to frame `target`. */
  function Interpolate(b: int, target: int): (q: seq<int>)
    ensures |q| == Steps
  {
    seq(Steps, i => EaseStep(b, target, i + 1))
  }

  /** The queue always has ten entries, ends on the target, stays between
      the current frame and the target, and moves monotonically towards the
      target. */
  lemma InterpolateProperties(b: int, target: int)
    requires 0 <= b && 0 <= target
    ensures var q := Interpolate(b, target);
            q[Steps - 1] == target &&
            (forall i :: 0 <= i < Steps ==>
               (b <= target ==> b <= q[i] <= target) && (target <= b ==> target <= q[i] <= b)) &&
            (forall i, j :: 0 <= i <= j < Steps ==>
               (b <= target ==> q[i] <= q[j]) && (target <= b ==> q[j] <= q[i]))
  {
    var q := Interpolate(b, target);
    EaseStepLands(b, target);
    forall i | 0 <= i < Steps
      ensures (b <= target ==> b <= q[i] <= target) && (target <= b ==> target <= q[i] <= b)
    {
      EaseStepBetween(b, target, i + 1);
    }
    forall i, j | 0 <= i <= j < Steps
      ensures (b <= target ==> q[i] <= q[j]) && (target <= b ==> q[j] <= q[i])
    {
      EaseStepMonotone(b, target, i + 1, j + 1);
    }
  }

  /** Between two frames of the ring the whole queue stays on the ring. */
  lemma InterpolateInRange(b: int, target: int)
    requires 0 <= b <= LastFrame && 0 <= target <= LastFrame
    ensures forall i :: 0 <= i < Steps ==> 0 <= Interpolate(b, target)[i] <= LastFrame
  {
    InterpolateProperties(b, target);
  }

  /** Worked values: a full sweep from 0 to 60 and the clamped inputs. */
  lemma FullSweepFromZero()
    ensures Interpolate(0, 60) == [11, 21, 30, 38, 45, 50, 54, 57, 59, 60]
  {
    EaseStepMatchesExact(0, 60, 1);
    EaseStepMatchesExact(0, 60, 2);
    EaseStepMatchesExact(0, 60, 3);
    EaseStepMatchesExact(0, 60, 4);
    EaseStepMatchesExact(0, 60, 5);
    EaseStepMatchesExact(0, 60, 6);
    EaseStepMatchesExact(0, 60, 7);
    EaseStepMatchesExact(0, 60, 8);
    EaseStepMatchesExact(0, 60, 9);
    EaseStepMatchesExact(0, 60, 10);
  }
}
