# LiquidLoadingIndicator in Dafny

A model of the WatchKit loading indicator `LiquidLoadingIndicator`, with its
properties proved. The indicator shows a waiting spinner (bundled dot
bitmaps or a generated line arc), a determinate progress ring, or a reload
icon. The model covers the part of the class with logic in it:

- **Frame index.** A percentage is clamped and truncated to one of the 61
  progress frames (module `Progress`).
- **Interpolation.** `updateProgress` eases from the displayed frame to the
  target in exactly ten steps (`Progress`).
- **Frame generation.** These functions produce what the static caches hold
  (module `Geometry`):
  - the 61 progress-ring frames;
  - the 30 dot frames;
  - the 60 line-wait frames, including the lava-lamp drift recurrence;
  - the reload icon.

  A frame is a descriptor of its geometry: arc angles and arrow vertices.
  Pixels are not modelled.
- **Caches and driver.** These are classes in module `Indicator`:
  - `FrameCache` holds the static caches, which are filled once and emptied
    on request.
  - `LoadingIndicator` holds the progress driver's state: the displayed
    frame `currentProgressFrame`, the queue `frames`, `isFirstProgressUpdate`,
    and the repeating timer.
  - The image view is the weak `image` reference. `hasImage` says whether it
    is set. Every call on it is skipped when it is absent.
  - Whatever the view is told to show is appended to the ghost sequence
    `emitted`.
  - The timer is a token with a ghost set of still-scheduled timers. A tick
    is a call of `NextFrame` with the token of a scheduled timer.

Floating-point values (`Float`, `CGFloat`) are exact reals. `Int(x)` is
truncation toward zero (`Progress.Trunc`). An angle is written
`Angle(degrees, radians)`, meaning degrees·π/180 + radians. This keeps the
whole-degree rotations and the radian drift of the line style exact without π.

Facts about the code as written that the model keeps:

- A percentage maps to a frame by truncation, not rounding: 50.9% shows
  frame 30. Each interpolation step is truncated as well.
- `showProgress` does not cancel a running progress timer. `hide` stops only
  the view's own animation, so queued progress frames keep arriving after
  `hide`.
- `clearWaitImage(type:)` clears the cache of the indicator's own style and
  never looks at its argument.
- With the lava lamp on in the standard style, the drift grows for 31 frames
  (0..30) and peaks at 1.705 rad. The comment at line 123 ("peaks at
  1.6349994") matches 30 growing frames. After frame 59 the drift is 0.052,
  not 0.
- `updateProgress` indexes the progress cache without checking it. A cache
  emptied by `clearProgressImage` while an image view is attached makes that
  index fail (see "Left out").

## Model

| member | source | states |
|---|---|---|
| `Progress.Trunc` | Sources/LiquidLoadingIndicator/Classes/LiquidLoadingIndicator.swift:392 | `Int(x)` truncates toward zero: the result is x rounded toward 0, with the same sign |
| `Progress.FrameIndexFor` | Sources/LiquidLoadingIndicator/Classes/LiquidLoadingIndicator.swift:385-393 | the frame is always in 0..60: 0 below 0%, 60 above 100%, otherwise the integer part of 60·p/100 |
| `Progress.FrameIndexCharacterization` | Sources/LiquidLoadingIndicator/Classes/LiquidLoadingIndicator.swift:385-393 | a percentage in [0, 100] selects frame i if and only if it lies in [100i/60, 100(i+1)/60), with 100 selecting frame 60 |
| `Progress.FrameIndexMonotone` | Sources/LiquidLoadingIndicator/Classes/LiquidLoadingIndicator.swift:385-393 | a larger percentage never selects an earlier frame |
| `Progress.FrameStartSelectsFrame` | Sources/LiquidLoadingIndicator/Classes/LiquidLoadingIndicator.swift:385-393 | the percentage 100i/60 selects frame i, for every frame i (a right inverse) |
| `Progress.EaseStep` | Sources/LiquidLoadingIndicator/Classes/LiquidLoadingIndicator.swift:325-330 | step s of the ease-out: with t = (0.3/10·s)/0.3 and c = target − b, the frame `Int(b − c·t·(t−2))`, truncated toward zero (its properties are the `EaseStep*` rows below) |
| `Progress.EaseValue` | Sources/LiquidLoadingIndicator/Classes/LiquidLoadingIndicator.swift:325-330 | with t = (0.3/10·s)/0.3, b − c·t·(t−2) equals b + c·s(20−s)/100 exactly |
| `Progress.EaseStepMatchesExact` | Sources/LiquidLoadingIndicator/Classes/LiquidLoadingIndicator.swift:324-331 | for non-negative frames, step s agrees with the integer reference ⌊(100b + (target−b)·s(20−s))/100⌋ |
| `Progress.EaseStepBetween` | Sources/LiquidLoadingIndicator/Classes/LiquidLoadingIndicator.swift:324-331 | every step lies between the displayed frame and the target, inclusive |
| `Progress.EaseStepLands` | Sources/LiquidLoadingIndicator/Classes/LiquidLoadingIndicator.swift:324-331 | step 10 equals the target exactly, for any start and target |
| `Progress.EaseStepMonotone` | Sources/LiquidLoadingIndicator/Classes/LiquidLoadingIndicator.swift:324-331 | later steps are never further from the target: non-decreasing towards a larger target, non-increasing towards a smaller one |
| `Progress.Interpolate` | Sources/LiquidLoadingIndicator/Classes/LiquidLoadingIndicator.swift:324-331 | the queue has exactly 10 entries, whatever the distance |
| `Progress.InterpolateProperties` | Sources/LiquidLoadingIndicator/Classes/LiquidLoadingIndicator.swift:321-331 | the queue ends on the target, stays between start and target, and is monotone towards the target |
| `Progress.InterpolateInRange` | Sources/LiquidLoadingIndicator/Classes/LiquidLoadingIndicator.swift:321-331 | between two frames of the ring every queued frame is in 0..60 |
| `Progress.FullSweepFromZero` | Sources/LiquidLoadingIndicator/Classes/LiquidLoadingIndicator.swift:321-331 | from frame 0 to frame 60 the queue is 11, 21, 30, 38, 45, 50, 54, 57, 59, 60 |
| `Geometry.ProgressFrameAt` | Sources/LiquidLoadingIndicator/Classes/LiquidLoadingIndicator.swift:198-221 | progress frame i: the full outer ring from 0 to 360°, and an inner arc from −90° (12 o'clock) to −90° + 6i° (shape proved in `ProgressFramesShape`) |
| `Geometry.ProgressFrames` | Sources/LiquidLoadingIndicator/Classes/LiquidLoadingIndicator.swift:196 | the progress cache is built from exactly 61 frames |
| `Geometry.ProgressFramesShape` | Sources/LiquidLoadingIndicator/Classes/LiquidLoadingIndicator.swift:196-227 | every frame has the full outer ring, and an inner arc that starts at 12 o'clock and sweeps 6i degrees. Frame 0 is empty, frame 60 is a full circle, and the index can be read back from the sweep |
| `Geometry.ProgressFrameForPercentage` | Sources/LiquidLoadingIndicator/Classes/LiquidLoadingIndicator.swift:209-211 | the frame shown for p in [0, 100] sweeps 3.6·p degrees, rounded down to a 6-degree step |
| `Geometry.DotFrames` | Sources/LiquidLoadingIndicator/Classes/LiquidLoadingIndicator.swift:94-97 | the dot animation is the 30 bundled bitmaps `waitIndicatorGraphic-0..29`, in order |
| `Geometry.InitialDrift` | Sources/LiquidLoadingIndicator/Classes/LiquidLoadingIndicator.swift:111-124 | before the first frame the drift and reference lengths are 0 and the step is 0.2 for the bubbly style, 0.04 otherwise |
| `Geometry.DriftStep` | Sources/LiquidLoadingIndicator/Classes/LiquidLoadingIndicator.swift:129-146 | one frame's update of the accumulators with the lava lamp on: frames 0..30 grow the drift (by the step, then the step rises by 0.001; or the step rises by 0.01 and the drift by pow(step, 1.3)), later frames shrink it (mirror image; or the reference grows by pow(step, 5.88) and is subtracted) |
| `Geometry.AdvanceDrift` | Sources/LiquidLoadingIndicator/Classes/LiquidLoadingIndicator.swift:129-146 | the source's in-place update of `driftingLength`, `driftingSteps` and `referenceLength`, branch by branch, produces exactly `DriftStep` of the old values |
| `Geometry.DriftAfter` | Sources/LiquidLoadingIndicator/Classes/LiquidLoadingIndicator.swift:128-146 | the accumulators after frames 0..n−1, by applying `DriftStep` n times to `InitialDrift` (closed forms in `StandardDriftRising`/`StandardDriftFalling`) |
| `Geometry.DriftAt` | Sources/LiquidLoadingIndicator/Classes/LiquidLoadingIndicator.swift:148-152 | `lengthToUse` at frame i: 0 without the lava lamp, else the drift after frame i's update, divided by 7 for the bubbly style |
| `Geometry.KineticToUse` | Sources/LiquidLoadingIndicator/Classes/LiquidLoadingIndicator.swift:117-121 | the kinetic energy, doubled for the bubbly style |
| `Geometry.LineFrameAt` | Sources/LiquidLoadingIndicator/Classes/LiquidLoadingIndicator.swift:155-158 | line frame i starts at 6i° plus the drift and ends 360·`circleLineLength`° further, minus drift·kinetic (shape proved in `LineWaitShape`) |
| `Geometry.LineWaitFrames` | Sources/LiquidLoadingIndicator/Classes/LiquidLoadingIndicator.swift:128 | the line animation has exactly 60 frames |
| `Geometry.BuildLineWaitFrames` | Sources/LiquidLoadingIndicator/Classes/LiquidLoadingIndicator.swift:111-179 | the generator loop, which updates the drift accumulators frame by frame, produces exactly the 60 frames of `LineWaitFrames` |
| `Geometry.LineWaitShape` | Sources/LiquidLoadingIndicator/Classes/LiquidLoadingIndicator.swift:155-158 | frame i has base rotation 6i degrees. With the lava lamp off the drift is 0, so every arc starts on its base rotation and spans exactly 2π·`circleLineLength` |
| `Geometry.StandardDriftRising` | Sources/LiquidLoadingIndicator/Classes/LiquidLoadingIndicator.swift:130-133 | in the standard lava lamp, after n ≤ 31 frames the step is 0.04 + 0.001n and the drift is 0.04n + 0.0005n(n−1) |
| `Geometry.StandardDriftFalling` | Sources/LiquidLoadingIndicator/Classes/LiquidLoadingIndicator.swift:138-141 | k frames after the peak, the step is 0.071 − 0.001k and the drift is 1.705 − 0.071k + 0.0005k(k−1) |
| `Geometry.StandardDriftRisingBounds` | Sources/LiquidLoadingIndicator/Classes/LiquidLoadingIndicator.swift:130-133 | while the drift grows it stays in [0.04, 1.705], reaching 1.705 at frame 30 |
| `Geometry.StandardDriftFallingBounds` | Sources/LiquidLoadingIndicator/Classes/LiquidLoadingIndicator.swift:138-141 | while the drift shrinks it stays in [0.052, 1.705], ending at 0.052 |
| `Geometry.StandardDriftBounds` | Sources/LiquidLoadingIndicator/Classes/LiquidLoadingIndicator.swift:128-152 | every frame of the standard lava lamp is pushed forward by a drift in [0.04, 1.705] rad: 1.705 at frame 30, 0.052 at frame 59 |
| `Geometry.ReloadFrameFor` | Sources/LiquidLoadingIndicator/Classes/LiquidLoadingIndicator.swift:239-259 | the reload icon: centre (w/2, h/2), radius w/2 − side/2, arc 0..270°, arrowhead (cx, 0), (cx + 0.866·side, side/2), (cx, side) with side = lineWidth·arrowRatio (shape proved in `ReloadArrowShape`) |
| `Geometry.ReloadArrowShape` | Sources/LiquidLoadingIndicator/Classes/LiquidLoadingIndicator.swift:239-261 | the reload arc sweeps 270°. The arrowhead's base stands on the vertical through the centre and is `side` tall, and its tip points right. On a square canvas the midpoint of the base is the top of the arc's circle, where the 270° arc ends, and the tip is level with it. Every squared side is within 0.01% of side² (0.866 ≈ √3/2) |
| `Indicator.PushedFrames` | Sources/LiquidLoadingIndicator/Classes/LiquidLoadingIndicator.swift:363-370 | the frames `setProgressImage` pushes while a queue is consumed: a frame is pushed unless it is already displayed, except the first update after `showProgress` (properties in `PushedFramesShape`) |
| `Indicator.PushedFramesAppend` | Sources/LiquidLoadingIndicator/Classes/LiquidLoadingIndicator.swift:348-356 | consuming a queue and then one more frame pushes what the two parts push, continuing from the frame displayed in between |
| `Indicator.PushedFramesShape` | Sources/LiquidLoadingIndicator/Classes/LiquidLoadingIndicator.swift:363-370 | only queued frames are pushed. None is pushed twice in a row or re-pushed while displayed (after the first update), and the last push is the last queued frame. Nothing is pushed exactly when the queue only repeats the displayed frame |
| `Indicator.FrameCache.constructor` | Sources/LiquidLoadingIndicator/Classes/LiquidLoadingIndicator.swift:16-35 | all caches start empty. `reloadLineWidth` is 4 and `reloadArrowRatio` is 3 |
| `Indicator.LoadingIndicator.constructor` | Sources/LiquidLoadingIndicator/Classes/LiquidLoadingIndicator.swift:21-54 | a new indicator shows frame 0 with an empty queue and no timer, line length 0.9, lava lamp off, kinetic energy 1.1 and opacity 0 |
| `Indicator.LoadingIndicator.SetLineLength` | Sources/LiquidLoadingIndicator/Classes/LiquidLoadingIndicator.swift:64-66 | sets `circleLineLength` and nothing else |
| `Indicator.LoadingIndicator.EnableLavaLamp` | Sources/LiquidLoadingIndicator/Classes/LiquidLoadingIndicator.swift:68-71 | turns the lava lamp on with the given bubbliness and changes nothing else |
| `Indicator.LoadingIndicator.DisableLavaLamp` | Sources/LiquidLoadingIndicator/Classes/LiquidLoadingIndicator.swift:73-76 | turns the lava lamp and the bubbly style off and changes nothing else |
| `Indicator.LoadingIndicator.SetKinetic` | Sources/LiquidLoadingIndicator/Classes/LiquidLoadingIndicator.swift:78-80 | sets the kinetic energy and nothing else |
| `Indicator.LoadingIndicator.PrepareImagesForWaitStyleDot` | Sources/LiquidLoadingIndicator/Classes/LiquidLoadingIndicator.swift:91-100 | afterwards the dot cache holds the 30 frames. Rendering happens only if the cache was empty |
| `Indicator.LoadingIndicator.PrepareImagesForWaitStyleLine` | Sources/LiquidLoadingIndicator/Classes/LiquidLoadingIndicator.swift:102-184 | an empty line cache gets the 60 frames built from this indicator's settings. A filled one is left as it is, even if the settings have changed, and is not rendered again |
| `Indicator.LoadingIndicator.PrepareImagesForWait` | Sources/LiquidLoadingIndicator/Classes/LiquidLoadingIndicator.swift:82-89 | fills the cache of the indicator's style, and only that one: the dot cache becomes the 30 frames; an empty line cache gets the 60 frames built from this indicator's settings and a filled one is kept. Rendering happens only if that cache was empty |
| `Indicator.LoadingIndicator.PrepareImagesForProgress` | Sources/LiquidLoadingIndicator/Classes/LiquidLoadingIndicator.swift:186-232 | afterwards the progress cache is the 61 frames. Rendering happens only if the cache was empty, so a second call renders nothing |
| `Indicator.LoadingIndicator.PrepareImagesForReload` | Sources/LiquidLoadingIndicator/Classes/LiquidLoadingIndicator.swift:234-267 | an empty reload cache gets the icon for the canvas and the static reload settings. A filled one is kept and not rendered again |
| `Indicator.LoadingIndicator.ClearWaitImage` | Sources/LiquidLoadingIndicator/Classes/LiquidLoadingIndicator.swift:395-402 | empties the wait cache of the indicator's own style, whatever `type` is passed. The other wait cache is untouched |
| `Indicator.LoadingIndicator.ClearReloadImage` | Sources/LiquidLoadingIndicator/Classes/LiquidLoadingIndicator.swift:404-406 | empties the reload cache unconditionally |
| `Indicator.LoadingIndicator.ClearProgressImage` | Sources/LiquidLoadingIndicator/Classes/LiquidLoadingIndicator.swift:408-410 | empties the progress cache unconditionally |
| `Indicator.LoadingIndicator.ClearTimer` | Sources/LiquidLoadingIndicator/Classes/LiquidLoadingIndicator.swift:358-361 | afterwards no timer is held, and the one that was held is no longer scheduled |
| `Indicator.LoadingIndicator.SetProgressImage` | Sources/LiquidLoadingIndicator/Classes/LiquidLoadingIndicator.swift:363-370 | the frame is displayed afterwards and the first-update flag is clear. The view receives progress frame `toFrame` exactly when an image is attached and either it is the first update or the frame was not displayed |
| `Indicator.LoadingIndicator.UpdateProgressImage` | Sources/LiquidLoadingIndicator/Classes/LiquidLoadingIndicator.swift:348-356 | on a non-empty queue: the head is shown and exactly the head is removed. The timer is disarmed exactly when the queue becomes empty, and the driver invariant is kept |
| `Indicator.LoadingIndicator.NextFrame` | Sources/LiquidLoadingIndicator/Classes/LiquidLoadingIndicator.swift:344-346 | a tick of a scheduled timer consumes the head of the queue. By the invariant the queue is never empty when a scheduled timer fires |
| `Indicator.LoadingIndicator.UpdateProgress` | Sources/LiquidLoadingIndicator/Classes/LiquidLoadingIndicator.swift:319-342 | the queue becomes steps 2..10 of the ease-out to the target, ending on the target, and step 1 is shown at once. The previous timer is no longer scheduled, and exactly one fresh timer is |
| `Indicator.LoadingIndicator.ShowProgress` | Sources/LiquidLoadingIndicator/Classes/LiquidLoadingIndicator.swift:300-317 | fills the progress cache and blanks the view. The start frame is then always pushed, even if it equals the frame displayed before. Afterwards it is the displayed frame, the first-update flag is clear, and the view is opaque |
| `Indicator.LoadingIndicator.DrainQueue` | Sources/LiquidLoadingIndicator/Classes/LiquidLoadingIndicator.swift:344-356 | ticking until the queue is empty consumes it in order. The view receives exactly the queued frames that were not already displayed, and no timer is left |
| `Indicator.LoadingIndicator.RunUpdateProgress` | Sources/LiquidLoadingIndicator/Classes/LiquidLoadingIndicator.swift:319-356 | a progress update run to completion ends on the target frame with no timer scheduled, having shown exactly the eased frames that changed the display |
| `Indicator.LoadingIndicator.ShowWait` | Sources/LiquidLoadingIndicator/Classes/LiquidLoadingIndicator.swift:269-283 | fills the wait cache of the indicator's style exactly as `prepareImagesForWait` does, leaving the other wait cache as it was, then shows and starts that animation with full opacity. A cached line animation is rotated 6i° at frame i, whichever indicator rendered it |
| `Indicator.LoadingIndicator.ShowReload` | Sources/LiquidLoadingIndicator/Classes/LiquidLoadingIndicator.swift:285-298 | fills the reload cache exactly as `prepareImagesForReload` does (an empty one gets the icon for the canvas and static settings, a filled one is kept), then stops any animation and shows the icon with full opacity |
| `Indicator.LoadingIndicator.Hide` | Sources/LiquidLoadingIndicator/Classes/LiquidLoadingIndicator.swift:372-383 | stops the view's animation and sets opacity 0. The progress queue and timer are not touched |
| `Indicator.LoadingIndicator.Teardown` | Sources/LiquidLoadingIndicator/Classes/LiquidLoadingIndicator.swift:412-415 | on tear-down no timer is held, and the one that was held is no longer scheduled |

## Left out

- Rasterising is not modelled. This covers `UIGraphicsBeginImageContext`, `UIBezierPath`, stroking and filling, clearing the context between frames, and line caps and joins. A frame is its geometry only.
- Arc radii, line widths and colours are not modelled, except for the reload icon's radius. `setLineWidth`, `setLineColor`, `progressLineWidthOuter`/`Inner` and the progress and reload colours only affect them.
- Loading the dot bitmaps from the bundle is file I/O and is not modelled. A dot frame names its resource index. The crash on a missing resource (the force-unwraps at line 96) is not modelled.
- The durations are not modelled: the 1-second animated images, the 0.3-second opacity animations, and the 0.033-second timer interval. Only the final opacity is recorded, and whether a host controller animates it makes no difference to that value.
- Timer scheduling and the weak `self` capture are not modelled. A tick is an explicit `NextFrame` call with the token of a scheduled timer.
- The weak references can be released by the host at any time. The model fixes, per indicator, whether an image view is attached. The `controller` reference only affects the opacity animation, which is not modelled.
- Floating-point rounding is not modelled. The model uses exact reals. In particular `0.3 / 10 * s / 0.3` is exactly `s / 10`, and `Int` of NaN or of an out-of-range value is not considered.
- `pow` in the bubbly lava-lamp drift (lines 136 and 143) is a function value given to the indicator. Its numeric behaviour is not modelled, so no bounds are proved for the bubbly drift.
- `Indicator.LoadingIndicator.SetProgressImage`: requires `toFrame` in 0..60 even when no image view is attached, where the source would accept any frame. Both callers only pass frames in that range.
- `Indicator.LoadingIndicator.SetProgressImage`: requires `hasImage ==> caches.progress != []`. The source indexes the progress cache unchecked, and traps when an image view is attached and the cache was emptied by `clearProgressImage`; that trap is not modelled.
- `Indicator.LoadingIndicator.UpdateProgressImage`: requires `hasImage ==> caches.progress != []`. The source indexes the progress cache unchecked, and traps when an image view is attached and the cache was emptied by `clearProgressImage`; that trap is not modelled.
- `Indicator.LoadingIndicator.NextFrame`: requires `hasImage ==> caches.progress != []`. The source indexes the progress cache unchecked, and traps when an image view is attached and the cache was emptied by `clearProgressImage`; that trap is not modelled.
- `Indicator.LoadingIndicator.UpdateProgress`: requires `hasImage ==> caches.progress != []`. The source indexes the progress cache unchecked, and traps when an image view is attached and the cache was emptied by `clearProgressImage`; that trap is not modelled.
- `Indicator.LoadingIndicator.DrainQueue`: requires `hasImage ==> caches.progress != []`. The source indexes the progress cache unchecked, and traps when an image view is attached and the cache was emptied by `clearProgressImage`; that trap is not modelled.
- `Indicator.LoadingIndicator.RunUpdateProgress`: requires `hasImage ==> caches.progress != []`. The source indexes the progress cache unchecked, and traps when an image view is attached and the cache was emptied by `clearProgressImage`; that trap is not modelled.
- `Indicator.LoadingIndicator.Teardown`: the driver invariant is not re-established, because the indicator is gone afterwards.
