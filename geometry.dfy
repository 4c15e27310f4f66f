/** The frame descriptors the indicator caches, and the generators that
    build the progress ring, the dot and line wait animations and the reload
    icon. A descriptor keeps the geometry of a frame (arc angles, arrow
    vertices); rasterising it is not modelled. */
module Geometry {
  import opened Progress

  /** An angle of `degrees` * pi / 180 + `radians`: whole-degree rotations
      and the radian drift of the line style stay exact without pi. */
  datatype Angle = Angle(degrees: real, radians: real)

  /** An arc stroked clockwise between two angles given in whole degrees. */
  datatype Arc = Arc(startDegrees: int, endDegrees: int)

  datatype Point = Point(x: real, y: real)

  /** One frame of the progress ring: the static outer ring and the inner
      arc that shows the progress. */
  datatype ProgressFrame = ProgressFrame(ring: Arc, fill: Arc)

  /** One frame of the dot wait animation: the bundled bitmap
      `waitIndicatorGraphic-<resource>@2x.png`. */
  datatype DotFrame = DotFrame(resource: nat)

  /** One frame of the line wait animation: the arc from `start` to `end`. */
  datatype LineFrame = LineFrame(start: Angle, end: Angle)

  /** The reload icon: a three-quarter arc and a solid arrowhead. */
  datatype ReloadFrame = ReloadFrame(center: Point, radius: real, arc: Arc, arrow: seq<Point>)

  /** The settings of an indicator that shape the line wait animation. */
  datatype LineConfig = LineConfig(lineLength: real, lavaLamp: bool, moreBubbly: bool, kinetic: real)

  /** The accumulators the line wait generator carries from frame to frame:
      `driftingLength`, `driftingSteps` and `referenceLength`. */
  datatype Drift = Drift(length: real, steps: real, reference: real)

  /** A power function on reals (`pow`), supplied from outside the model. */
  type Power = (real, real) -> real

  const ProgressFrameCount: int := LastFrame + 1
  const LineFrameCount: int := 60
  const DotFrameCount: int := 30

  // ---------------------------------------------------------------------------
  // Progress ring

  /** Frame `i` of the ring: a full outer circle, and an inner arc from
      12 o'clock (-90 degrees) sweeping 6 * i degrees clockwise. */
  function ProgressFrameAt(i: int): ProgressFrame
  {
    ProgressFrame(Arc(0, 360), Arc(-90, -90 + 6 * i))
  }

  /** The 61 frames `prepareImagesForProgress` renders. */
  function ProgressFrames(): (frames: seq<ProgressFrame>)
    ensures |frames| == ProgressFrameCount
  {
    seq(ProgressFrameCount, i => ProgressFrameAt(i))
  }

  function Sweep(a: Arc): int
  {
    a.endDegrees - a.startDegrees
  }

  /** Which frame a progress descriptor is, read back from its inner sweep. */
  function FrameOfProgress(f: ProgressFrame): int
  {
    Sweep(f.fill) / 6
  }

  /** Every cached frame has the full outer ring and an inner arc that starts
      at 12 o'clock and sweeps 6 degrees per frame: frame 0 is empty and frame
      60 is a full circle. The frame index can be read back from the sweep,
      so no two frames are alike. */
  lemma ProgressFramesShape()
    ensures var frames := ProgressFrames();
            Sweep(frames[0].fill) == 0 && Sweep(frames[LastFrame].fill) == 360 &&
            forall i :: 0 <= i < ProgressFrameCount ==>
              frames[i].ring == Arc(0, 360) && frames[i].fill.startDegrees == -90 &&
              Sweep(frames[i].fill) == 6 * i && FrameOfProgress(frames[i]) == i
  {
  }

  /** The frame shown for a percentage in [0, 100] fills the ring to the
      percentage's share of 360 degrees, rounded down to a 6-degree step. */
  lemma ProgressFrameForPercentage(percentage: real)
    requires 0.0 <= percentage <= 100.0
    ensures var sweep := Sweep(ProgressFrames()[FrameIndexFor(percentage)].fill);
            sweep as real <= 3.6 * percentage < sweep as real + 6.0
  {
    var i := FrameIndexFor(percentage);
    assert Sweep(ProgressFrames()[i].fill) == 6 * i;
    assert i as real <= 60.0 * percentage / 100.0 < i as real + 1.0;
    assert 3.6 * percentage == 6.0 * (60.0 * percentage / 100.0);
  }

  // ---------------------------------------------------------------------------
  // Dot wait animation

  /** The 30 bundled bitmaps of the dot style, in order. */
  function DotFrames(): (frames: seq<DotFrame>)
    ensures |frames| == DotFrameCount
    ensures forall i :: 0 <= i < DotFrameCount ==> frames[i].resource == i
  {
    seq(DotFrameCount, i requires 0 <= i => DotFrame(i))
  }

  // ---------------------------------------------------------------------------
  // Line wait animation

  /** The accumulators before the first frame: `driftingSteps` starts at
      0.2 for the bubbly style and at 0.04 otherwise. */
  function InitialDrift(moreBubbly: bool): Drift
  {
    Drift(0.0, if moreBubbly then 0.2 else 0.04, 0.0)
  }

  /** The update of the accumulators at frame `i` when the lava lamp is on:
      frames 0..30 grow the drift, frames 31..59 shrink it. */
  function DriftStep(d: Drift, i: int, moreBubbly: bool, pow: Power): Drift
  {
    if i <= 30 then
      if !moreBubbly then Drift(d.length + d.steps, d.steps + 0.001, d.reference)
      else
        var steps := d.steps + 0.01;
        Drift(d.length + pow(steps, 1.3), steps, d.reference)
    else
      if !moreBubbly then Drift(d.length - d.steps, d.steps - 0.001, d.reference)
      else
        var reference := d.reference + pow(d.steps, 5.88);
        Drift(d.length - reference, d.steps, reference)
  }

  /** The accumulators after frames 0..n-1 have been generated with the lava
      lamp on. */
  function DriftAfter(moreBubbly: bool, pow: Power, n: nat): Drift
  {
    if n == 0 then InitialDrift(moreBubbly)
    else DriftStep(DriftAfter(moreBubbly, pow, n - 1), n - 1, moreBubbly, pow)
  }

  /** `lengthToUse` at frame `i`: zero without the lava lamp, otherwise the
      drift after the frame's update (divided by 7 for the bubbly style). */
  function DriftAt(cfg: LineConfig, pow: Power, i: nat): real
  {
    if !cfg.lavaLamp then 0.0
    else
      var d := DriftAfter(cfg.moreBubbly, pow, i + 1);
      if cfg.moreBubbly then d.length / 7.0 else d.length
  }

  /** `kineticToUse`: the kinetic energy, doubled for the bubbly style. */
  function KineticToUse(cfg: LineConfig): real
  {
    if cfg.moreBubbly then cfg.kinetic * 2.0 else cfg.kinetic
  }

  /** Frame `i` of the line animation: rotated 6 * i degrees and pushed
      forward by the drift; the arc spans 2 * pi * lineLength, shortened by
      the drift times the kinetic energy. */
  function LineFrameAt(cfg: LineConfig, pow: Power, i: nat): LineFrame
  {
    var drift := DriftAt(cfg, pow, i);
    LineFrame(Angle(6.0 * i as real, drift),
              Angle(6.0 * i as real + 360.0 * cfg.lineLength, drift - drift * KineticToUse(cfg)))
  }

  /** The 60 frames `prepareImagesForWaitStyleLine` renders. */
  function LineWaitFrames(cfg: LineConfig, pow: Power): (frames: seq<LineFrame>)
    ensures |frames| == LineFrameCount
  {
    seq(LineFrameCount, i requires 0 <= i => LineFrameAt(cfg, pow, i))
  }

  /** The angle from a line frame's start to its end. */
  function LineSweep(f: LineFrame): Angle
  {
    Angle(f.end.degrees - f.start.degrees, f.end.radians - f.start.radians)
  }

  /** One frame's update of the drift accumulators with the lava lamp on. */
  method AdvanceDrift(length: real, steps: real, reference: real, i: int, moreBubbly: bool, pow: Power)
    returns (length': real, steps': real, reference': real)
    ensures Drift(length', steps', reference') == DriftStep(Drift(length, steps, reference), i, moreBubbly, pow)
  {
    length', steps', reference' := length, steps, reference;
    if i <= 30 {
      if !moreBubbly {
        length' := length' + steps';
        steps' := steps' + 0.001;
      } else {
        steps' := steps' + 0.01;
        length' := length' + pow(steps', 1.3);
      }
    } else {
      if !moreBubbly {
        length' := length' - steps';
        steps' := steps' - 0.001;
      } else {
        reference' := reference' + pow(steps', 5.88);
        length' := length' - reference';
      }
    }
  }

  /** The generator of the line wait animation, step by step as the source
      runs it: the drift accumulators are updated frame after frame. */
  method BuildLineWaitFrames(cfg: LineConfig, pow: Power) returns (images: seq<LineFrame>)
    ensures images == LineWaitFrames(cfg, pow)
  {
    var driftingLength: real := 0.0;
    var driftingSteps: real := 0.04;
    var referenceLength: real := 0.0;
    var lengthToUse: real := 0.0;
    var kineticToUse := cfg.kinetic;
    if cfg.moreBubbly {
      driftingSteps := 0.2;
      kineticToUse := kineticToUse * 2.0;
    } else {
      driftingSteps := 0.04;
    }
    images := [];
    var i := 0;
    while i < LineFrameCount
      invariant 0 <= i <= LineFrameCount
      invariant |images| == i
      invariant forall j :: 0 <= j < i ==> images[j] == LineFrameAt(cfg, pow, j)
      invariant Drift(driftingLength, driftingSteps, referenceLength) ==
                  if cfg.lavaLamp then DriftAfter(cfg.moreBubbly, pow, i) else InitialDrift(cfg.moreBubbly)
      invariant !cfg.lavaLamp ==> lengthToUse == 0.0
      invariant kineticToUse == KineticToUse(cfg)
    {
      if cfg.lavaLamp {
        driftingLength, driftingSteps, referenceLength :=
          AdvanceDrift(driftingLength, driftingSteps, referenceLength, i, cfg.moreBubbly, pow);
        if !cfg.moreBubbly {
          lengthToUse := driftingLength;
        } else {
          lengthToUse := driftingLength / 7.0;
        }
        assert Drift(driftingLength, driftingSteps, referenceLength) == DriftAfter(cfg.moreBubbly, pow, i + 1);
      }
      assert lengthToUse == DriftAt(cfg, pow, i);
      var degree := 6.0 * i as real;
      var startDegree := Angle(degree, lengthToUse);
      var endDegree := Angle(startDegree.degrees + 360.0 * cfg.lineLength,
                             startDegree.radians - lengthToUse * kineticToUse);
      assert LineFrame(startDegree, endDegree) == LineFrameAt(cfg, pow, i);
      images := images + [LineFrame(startDegree, endDegree)];
      i := i + 1;
    }
  }

  /** Each line frame is rotated 6 degrees further than the one before; with
      the lava lamp off there is no drift, so every arc starts on its base
      rotation and spans exactly 2 * pi * lineLength. */
  lemma LineWaitShape(cfg: LineConfig, pow: Power)
    ensures var frames := LineWaitFrames(cfg, pow);
            forall i :: 0 <= i < LineFrameCount ==>
              frames[i].start.degrees == 6.0 * i as real &&
              (!cfg.lavaLamp ==> frames[i].start.radians == 0.0 &&
                                 LineSweep(frames[i]) == Angle(360.0 * cfg.lineLength, 0.0))
  {
  }

  /** One growing step of the standard drift, in closed form. */
  lemma RisingStepArithmetic(d: Drift, m: nat)
    requires d.steps == 0.04 + 0.001 * m as real
    requires d.length == 0.04 * m as real + 0.0005 * (m * (m - 1)) as real
    ensures d.steps + 0.001 == 0.04 + 0.001 * (m + 1) as real
    ensures d.length + d.steps == 0.04 * (m + 1) as real + 0.0005 * ((m + 1) * m) as real
  {
    var t := m * (m - 1);
    assert (m + 1) * m == t + 2 * m;
    assert ((m + 1) * m) as real == t as real + 2.0 * m as real;
  }

  /** One shrinking step of the standard drift, in closed form. */
  lemma FallingStepArithmetic(d: Drift, j: nat)
    requires d.steps == 0.071 - 0.001 * j as real
    requires d.length == 1.705 - 0.071 * j as real + 0.0005 * (j * (j - 1)) as real
    ensures d.steps - 0.001 == 0.071 - 0.001 * (j + 1) as real
    ensures d.length - d.steps == 1.705 - 0.071 * (j + 1) as real + 0.0005 * ((j + 1) * j) as real
  {
    var t := j * (j - 1);
    assert (j + 1) * j == t + 2 * j;
    assert ((j + 1) * j) as real == t as real + 2.0 * j as real;
  }

  /** Standard lava-lamp drift while it grows (frames 0..30): the step is
      0.04 + 0.001 * n and the drift the sum of the steps so far. */
  lemma {:induction false} StandardDriftRising(pow: Power, n: nat)
    requires n <= 31
    ensures DriftAfter(false, pow, n).steps == 0.04 + 0.001 * n as real
    ensures DriftAfter(false, pow, n).length == 0.04 * n as real + 0.0005 * (n * (n - 1)) as real
  {
    if n > 0 {
      var m: nat := n - 1;
      StandardDriftRising(pow, m);
      var d := DriftAfter(false, pow, m);
      assert DriftAfter(false, pow, n) == DriftStep(d, m, false, pow);
      RisingStepArithmetic(d, m);
    }
  }

  /** Standard lava-lamp drift while it shrinks (frames 31..59), k frames
      after the peak of 1.705 reached at frame 30. */
  lemma {:induction false} StandardDriftFalling(pow: Power, k: nat)
    requires k <= 29
    ensures DriftAfter(false, pow, 31 + k).steps == 0.071 - 0.001 * k as real
    ensures DriftAfter(false, pow, 31 + k).length == 1.705 - 0.071 * k as real + 0.0005 * (k * (k - 1)) as real
  {
    if k == 0 {
      StandardDriftRising(pow, 31 + k);
    } else {
      var j: nat := k - 1;
      StandardDriftFalling(pow, j);
      var d := DriftAfter(false, pow, 31 + j);
      assert DriftAfter(false, pow, 31 + k) == DriftStep(d, 31 + j, false, pow);
      FallingStepArithmetic(d, j);
    }
  }

  /** While the standard drift grows it stays between 0 and its peak. */
  lemma StandardDriftRisingBounds(pow: Power, n: nat)
    requires 1 <= n <= 31
    ensures 0.04 <= DriftAfter(false, pow, n).length <= 1.705
    ensures n == 31 ==> DriftAfter(false, pow, n).length == 1.705
  {
    StandardDriftRising(pow, n);
    MulMonotone(n, n - 1, 30);
    MulMonotone(30, n, 31);
  }

  /** While the standard drift shrinks it stays between 0.052 (after the
      last frame) and its peak. */
  lemma StandardDriftFallingBounds(pow: Power, k: nat)
    requires k <= 29
    ensures 0.052 <= DriftAfter(false, pow, 31 + k).length <= 1.705
    ensures k == 29 ==> DriftAfter(false, pow, 31 + k).length == 0.052
  {
    StandardDriftFalling(pow, k);
    var len := DriftAfter(false, pow, 31 + k).length;
    MulMonotone(k, k - 1, 142);
    MulMonotone(29 - k, 0, 114 - k);
    assert k * (k - 1) == 29 * 28 - 57 * (29 - k) + (29 - k) * (29 - k);
    assert (29 - k) * (114 - k) == 114 * (29 - k) - k * (29 - k);
    assert len - 0.052 == 0.0005 * ((29 - k) * (114 - k)) as real;
  }

  /** With the lava lamp on in the standard style the drift of every frame
      is positive and never more than its peak of 1.705 radians (frame 30);
      at the last frame it has come back down to 0.052. */
  lemma StandardDriftBounds(cfg: LineConfig, pow: Power, i: nat)
    requires cfg.lavaLamp && !cfg.moreBubbly
    requires i < LineFrameCount
    ensures 0.04 <= DriftAt(cfg, pow, i) <= 1.705
    ensures i == 30 ==> DriftAt(cfg, pow, i) == 1.705
    ensures i == LineFrameCount - 1 ==> DriftAt(cfg, pow, i) == 0.052
  {
    if i + 1 <= 31 {
      StandardDriftRisingBounds(pow, i + 1);
    } else {
      StandardDriftFallingBounds(pow, i + 1 - 31);
    }
  }

  // ---------------------------------------------------------------------------
  // Reload icon

  /** The reload icon for a canvas of `width` x `height` and the static
      `reloadLineWidth` and `reloadArrowRatio`: a three-quarter arc from 0 to
      270 degrees and an arrowhead of side lineWidth * arrowRatio at the top,
      pointing right. */
  function ReloadFrameFor(width: real, height: real, lineWidth: real, arrowRatio: real): ReloadFrame
  {
    var side := lineWidth * arrowRatio;
    var center := Point(width / 2.0, height / 2.0);
    ReloadFrame(center, width / 2.0 - side / 2.0, Arc(0, 270),
                [Point(center.x, 0.0), Point(center.x + side * 0.866, side / 2.0), Point(center.x, side)])
  }

  function DistanceSquared(p: Point, q: Point): real
  {
    (p.x - q.x) * (p.x - q.x) + (p.y - q.y) * (p.y - q.y)
  }

  /** The arrowhead is equilateral up to the 0.866 approximation of
      sqrt(3) / 2: every squared side is within 0.01% of side^2. Its base
      stands on the vertical through the centre and its tip points right.
      On a square canvas the midpoint of the base is the top of the arc's
      circle, where the arc ends, and the tip is level with it. */
  lemma ReloadArrowShape(width: real, height: real, lineWidth: real, arrowRatio: real)
    requires 0.0 < lineWidth && 0.0 < arrowRatio
    ensures var f := ReloadFrameFor(width, height, lineWidth, arrowRatio);
            var side := lineWidth * arrowRatio;
            |f.arrow| == 3 && Sweep(f.arc) == 270 &&
            f.arrow[0].x == f.arrow[2].x == f.center.x && f.arrow[2].y - f.arrow[0].y == side &&
            f.arrow[1].x > f.center.x &&
            (width == height ==>
               (f.arrow[0].y + f.arrow[2].y) / 2.0 == f.center.y - f.radius &&
               f.arrow[1].y == f.center.y - f.radius) &&
            forall a, b :: 0 <= a < b < 3 ==>
              side * side * 0.9999 <= DistanceSquared(f.arrow[a], f.arrow[b]) <= side * side
  {
    var f := ReloadFrameFor(width, height, lineWidth, arrowRatio);
    var side := lineWidth * arrowRatio;
    assert 0.0 < side;
    ArrowSides(f.center.x, side);
  }

  /** The squared sides of the arrowhead with apex column `cx`. */
  lemma ArrowSides(cx: real, side: real)
    requires 0.0 < side
    ensures var a, b, c := Point(cx, 0.0), Point(cx + side * 0.866, side / 2.0), Point(cx, side);
            var sq := side * side;
            DistanceSquared(a, c) == sq &&
            DistanceSquared(a, b) == 0.999956 * sq && DistanceSquared(b, c) == 0.999956 * sq &&
            0.0 < sq && b.x > cx
  {
    var sq := side * side;
    assert (side * 0.866) * (side * 0.866) == 0.749956 * sq;
    assert (side / 2.0) * (side / 2.0) == 0.25 * sq;
    assert (side / 2.0 - side) * (side / 2.0 - side) == 0.25 * sq;
  }
}
