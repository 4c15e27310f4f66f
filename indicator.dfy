/** The loading indicator itself: the process-wide frame caches, and the
    per-indicator driver that shows a style and steps the progress ring
    through its queued frames on a repeating timer.

    The image view is a weak reference the host may or may not have set
    (`hasImage`); every call on it is skipped when it is absent. What the
    view is asked to show is recorded in the ghost sequence `emitted`. The
    repeating timer is a token (`timer`) together with the ghost set of
    timers that are still scheduled (`liveTimers`); a tick of the timer is a
    call of `NextFrame` with that token. */
module Indicator {
  import opened Wrappers
  import opened Progress
  import opened Geometry

  /** `EMTLoadingIndicatorWaitStyle`. */
  datatype WaitStyle = Dot | Line

  /** What the image view is told to show. */
  datatype Picture =
    | Blank
    | ProgressImage(frame: ProgressFrame)
    | DotAnimation(dots: seq<DotFrame>)
    | LineAnimation(lines: seq<LineFrame>)
    | ReloadImage(reload: ReloadFrame)

  // ---------------------------------------------------------------------------
  // Which queued frames reach the image view

  /** The frames `setProgressImage` pushes while the queue `q` is consumed,
      starting from the flag `first` and the displayed frame `current`: a
      frame is pushed unless it is already displayed, except that the first
      update after `showProgress` is always pushed. */
  function PushedFrames(first: bool, current: int, q: seq<int>): seq<int>
    decreases |q|
  {
    if q == [] then []
    else (if first || current != q[0] then [q[0]] else []) + PushedFrames(false, q[0], q[1..])
  }

  /** The displayed frame once `q` has been consumed from `current`. */
  function LastFrameOf(current: int, q: seq<int>): int
  {
    if q == [] then current else q[|q| - 1]
  }

  /** Consuming an eased queue ends on its target. */
  lemma InterpolateLast(b: int, target: int)
    ensures var q := Interpolate(b, target); LastFrameOf(q[0], q[1..]) == target
  {
    EaseStepLands(b, target);
  }

  /** Consuming a queue in two parts pushes what consuming each part does. */
  lemma {:induction false} PushedFramesAppend(first: bool, current: int, q: seq<int>, x: int)
    ensures PushedFrames(first, current, q + [x]) ==
            PushedFrames(first, current, q) + PushedFrames(first && q == [], LastFrameOf(current, q), [x])
    decreases |q|
  {
    if q != [] {
      assert (q + [x])[0] == q[0];
      assert (q + [x])[1..] == q[1..] + [x];
      PushedFramesAppend(false, q[0], q[1..], x);
      assert LastFrameOf(q[0], q[1..]) == LastFrameOf(current, q);
    }
  }

  /** What reaches the image view: only frames of the queue, in order, never
      the same frame twice in a row, never the displayed frame again after
      the first update, and always ending on the last queued frame. Nothing is
      pushed exactly when the queue only repeats the displayed frame after
      the first update. */
  lemma {:induction false} PushedFramesShape(first: bool, current: int, q: seq<int>)
    ensures var p := PushedFrames(first, current, q);
            (forall i :: 0 <= i < |p| ==> p[i] in q) &&
            (forall i :: 0 <= i < |p| - 1 ==> p[i] != p[i + 1]) &&
            (!first && p != [] ==> p[0] != current) &&
            (p != [] ==> p[|p| - 1] == q[|q| - 1]) &&
            (p == [] <==> q == [] || (!first && forall i :: 0 <= i < |q| ==> q[i] == current))
    decreases |q|
  {
    if q != [] {
      var rest := PushedFrames(false, q[0], q[1..]);
      PushedFramesShape(false, q[0], q[1..]);
      var p := PushedFrames(first, current, q);
      forall i | 0 <= i < |p|
        ensures p[i] in q
      {
        if first || current != q[0] {
          if i > 0 { assert p[i] == rest[i - 1]; assert rest[i - 1] in q[1..]; }
        } else {
          assert p[i] == rest[i];
          assert rest[i] in q[1..];
        }
      }
      if rest == [] {
        assert forall i :: 1 <= i < |q| ==> q[i] == q[0] by {
          forall i | 1 <= i < |q| ensures q[i] == q[0] { assert q[1..][i - 1] == q[i]; }
        }
      } else {
        assert q[1..][|q[1..]| - 1] == q[|q| - 1];
      }
      if !first && forall i :: 0 <= i < |q| ==> q[i] == current {
        assert current == q[0];
        assert forall i :: 0 <= i < |q[1..]| ==> q[1..][i] == q[0];
      }
    }
  }

  /** The pictures the image view receives when `frames` are pushed. */
  function ProgressPictures(frames: seq<int>): (pictures: seq<Picture>)
    ensures |pictures| == |frames|
  {
    seq(|frames|, i requires 0 <= i < |frames| => ProgressImage(ProgressFrameAt(frames[i])))
  }

  lemma ProgressPicturesAppend(a: seq<int>, b: seq<int>)
    ensures ProgressPictures(a + b) == ProgressPictures(a) + ProgressPictures(b)
  {
  }

  // ---------------------------------------------------------------------------
  // The process-wide caches

  /** The static image caches every indicator shares, and the static reload
      icon settings. `generations` counts how often a sequence of frames has
      been rendered into a cache. */
  class FrameCache {
    var dotWait: Option<seq<DotFrame>>
    var lineWait: Option<seq<LineFrame>>
    var progress: seq<ProgressFrame>
    var reload: Option<ReloadFrame>
    var reloadLineWidth: real
    var reloadArrowRatio: real
    ghost var generations: nat

    /** A cache is either empty or holds a complete sequence. The line
        frames depend on the settings of the indicator that rendered them,
        but frame i is always rotated 6 * i degrees. */
    ghost predicate Valid()
      reads this
    {
      (progress == [] || progress == ProgressFrames()) &&
      (dotWait.Some? ==> dotWait.value == DotFrames()) &&
      (lineWait.Some? ==>
         |lineWait.value| == LineFrameCount &&
         forall i :: 0 <= i < LineFrameCount ==> lineWait.value[i].start.degrees == 6.0 * i as real)
    }

    constructor ()
      ensures Valid()
      ensures dotWait == None && lineWait == None && progress == [] && reload == None
      ensures reloadLineWidth == 4.0 && reloadArrowRatio == 3.0
      ensures generations == 0
    {
      dotWait, lineWait, progress, reload := None, None, [], None;
      reloadLineWidth, reloadArrowRatio := 4.0, 3.0;
      generations := 0;
    }
  }

  // ---------------------------------------------------------------------------
  // The indicator

  class LoadingIndicator {
    const caches: FrameCache
    /** Whether the weak `WKInterfaceImage` reference is set. */
    const hasImage: bool
    const width: real
    const height: real
    const style: WaitStyle
    /** The `pow` the bubbly lava-lamp drift is computed with. */
    const pow: Power

    var lineLength: real
    var lavaLamp: bool
    var moreBubbly: bool
    var kinetic: real

    var currentProgressFrame: int
    var frames: seq<int>
    var isFirstProgressUpdate: bool
    var timer: Option<nat>
    var timersCreated: nat
    ghost var liveTimers: set<nat>

    var animating: bool
    var alpha: real
    ghost var emitted: seq<Picture>

    /** The driver invariant: the displayed frame and every queued frame
        are frames of the ring, the timer is armed exactly while frames are
        queued, and it is the only timer still scheduled. */
    ghost predicate Valid()
      reads this, caches
    {
      caches.Valid() &&
      0 <= currentProgressFrame <= LastFrame &&
      (forall i :: 0 <= i < |frames| ==> 0 <= frames[i] <= LastFrame) &&
      (timer.Some? <==> frames != []) &&
      liveTimers == (if timer.Some? then {timer.value} else {}) &&
      (timer.Some? ==> timer.value < timersCreated)
    }

    /** The settings the line wait animation is generated from. */
    function LineSettings(): LineConfig
      reads this
    {
      LineConfig(lineLength, lavaLamp, moreBubbly, kinetic)
    }

    /** The pictures the view receives while the queue `q` is consumed from
        the given flag and displayed frame. */
    ghost function Shown(first: bool, current: int, q: seq<int>): seq<Picture>
    {
      if hasImage then ProgressPictures(PushedFrames(first, current, q)) else []
    }

    /** Showing the head of a queue and then the rest shows the queue. */
    lemma ShownCons(first: bool, start: int, q: seq<int>)
      requires q != []
      ensures Shown(first, start, q) == Shown(first, start, [q[0]]) + Shown(false, q[0], q[1..])
    {
      assert [q[0]][1..] == [];
      assert PushedFrames(first, start, [q[0]]) + PushedFrames(false, q[0], q[1..]) == PushedFrames(first, start, q);
      ProgressPicturesAppend(PushedFrames(first, start, [q[0]]), PushedFrames(false, q[0], q[1..]));
    }

    /** Pictures shown for the head of a queue and then for its rest add up
        to the pictures shown for the whole queue. */
    lemma ShownSplit(first: bool, start: int, q: seq<int>, e0: seq<Picture>, e1: seq<Picture>, e2: seq<Picture>)
      requires q != []
      requires e1 == e0 + Shown(first, start, [q[0]])
      requires e2 == e1 + Shown(false, q[0], q[1..])
      ensures e2 == e0 + Shown(first, start, q)
    {
      ShownCons(first, start, q);
    }

    constructor (caches: FrameCache, hasImage: bool, width: real, height: real,
                 style: WaitStyle, pow: Power)
      requires caches.Valid()
      ensures Valid()
      ensures this.caches == caches && this.hasImage == hasImage && this.style == style
      ensures this.width == width && this.height == height && this.pow == pow
      ensures LineSettings() == LineConfig(0.9, false, false, 1.1)
      ensures currentProgressFrame == 0 && frames == [] && !isFirstProgressUpdate
      ensures timer == None && liveTimers == {} && timersCreated == 0
      ensures !animating && alpha == 0.0 && emitted == []
    {
      this.caches := caches;
      this.hasImage := hasImage;
      this.width := width;
      this.height := height;
      this.style := style;
      this.pow := pow;
      lineLength, lavaLamp, moreBubbly, kinetic := 0.9, false, false, 1.1;
      currentProgressFrame, frames, isFirstProgressUpdate := 0, [], false;
      timer, timersCreated, liveTimers := None, 0, {};
      animating, alpha, emitted := false, 0.0, [];
    }

    // -------------------------------------------------------------------------
    // Settings

    method SetLineLength(size: real)
      modifies this`lineLength
      ensures lineLength == size
    {
      lineLength := size;
    }

    method EnableLavaLamp(moreBubbly: bool)
      modifies this`lavaLamp, this`moreBubbly
      ensures lavaLamp && this.moreBubbly == moreBubbly
    {
      lavaLamp := true;
      this.moreBubbly := moreBubbly;
    }

    method DisableLavaLamp()
      modifies this`lavaLamp, this`moreBubbly
      ensures !lavaLamp && !moreBubbly
    {
      lavaLamp := false;
      moreBubbly := false;
    }

    method SetKinetic(energy: real)
      modifies this`kinetic
      ensures kinetic == energy
    {
      kinetic := energy;
    }

    // -------------------------------------------------------------------------
    // Filling and clearing the caches

    /** Renders the 30 dot frames only if the dot cache is empty. */
    method PrepareImagesForWaitStyleDot()
      requires caches.Valid()
      modifies caches`dotWait, caches`generations
      ensures caches.Valid()
      ensures caches.dotWait == Some(DotFrames())
      ensures caches.generations == old(caches.generations) + (if old(caches.dotWait).None? then 1 else 0)
    {
      if caches.dotWait.None? {
        caches.dotWait := Some(DotFrames());
        caches.generations := caches.generations + 1;
      }
    }

    /** Renders the 60 line frames from this indicator's settings only if the
        line cache is empty; a filled cache keeps the frames it was built
        with, whatever the settings are now. */
    method PrepareImagesForWaitStyleLine()
      requires caches.Valid()
      modifies caches`lineWait, caches`generations
      ensures caches.Valid()
      ensures caches.lineWait ==
                if old(caches.lineWait).None? then Some(LineWaitFrames(LineSettings(), pow))
                else old(caches.lineWait)
      ensures caches.generations == old(caches.generations) + (if old(caches.lineWait).None? then 1 else 0)
    {
      if caches.lineWait.None? {
        var images := BuildLineWaitFrames(LineSettings(), pow);
        LineWaitShape(LineSettings(), pow);
        caches.lineWait := Some(images);
        caches.generations := caches.generations + 1;
      }
    }

    /** Fills the wait cache of this indicator's style. */
    method PrepareImagesForWait()
      requires caches.Valid()
      modifies caches`dotWait, caches`lineWait, caches`generations
      ensures caches.Valid()
      ensures style == Dot ==> caches.dotWait == Some(DotFrames()) && caches.lineWait == old(caches.lineWait)
      ensures style == Line ==> caches.dotWait == old(caches.dotWait) &&
                                caches.lineWait ==
                                  if old(caches.lineWait).None? then Some(LineWaitFrames(LineSettings(), pow))
                                  else old(caches.lineWait)
      ensures caches.generations ==
                old(caches.generations) +
                (if (style == Dot && old(caches.dotWait).None?) || (style == Line && old(caches.lineWait).None?)
                 then 1 else 0)
    {
      if style == Dot {
        PrepareImagesForWaitStyleDot();
      } else {
        PrepareImagesForWaitStyleLine();
      }
    }

    /** Renders the 61 progress frames only if the progress cache is empty. */
    method PrepareImagesForProgress()
      requires caches.Valid()
      modifies caches`progress, caches`generations
      ensures caches.Valid()
      ensures caches.progress == ProgressFrames()
      ensures caches.generations == old(caches.generations) + (if old(caches.progress) == [] then 1 else 0)
    {
      if |caches.progress| == 0 {
        caches.progress := ProgressFrames();
        caches.generations := caches.generations + 1;
      }
    }

    /** Renders the reload icon only if there is none. */
    method PrepareImagesForReload()
      requires caches.Valid()
      modifies caches`reload, caches`generations
      ensures caches.Valid()
      ensures caches.reload ==
                if old(caches.reload).None?
                then Some(ReloadFrameFor(width, height, caches.reloadLineWidth, caches.reloadArrowRatio))
                else old(caches.reload)
      ensures caches.generations == old(caches.generations) + (if old(caches.reload).None? then 1 else 0)
    {
      if caches.reload.None? {
        caches.reload := Some(ReloadFrameFor(width, height, caches.reloadLineWidth, caches.reloadArrowRatio));
        caches.generations := caches.generations + 1;
      }
    }

    /** Empties the wait cache of this indicator's own style; the argument
        is not consulted. */
    method ClearWaitImage(kind: WaitStyle)
      requires caches.Valid()
      modifies caches`dotWait, caches`lineWait
      ensures caches.Valid()
      ensures caches.dotWait == if style == Dot then None else old(caches.dotWait)
      ensures caches.lineWait == if style == Line then None else old(caches.lineWait)
    {
      if style == Dot {
        caches.dotWait := None;
      } else if style == Line {
        caches.lineWait := None;
      }
    }

    method ClearReloadImage()
      modifies caches`reload
      ensures caches.reload == None
    {
      caches.reload := None;
    }

    method ClearProgressImage()
      requires caches.Valid()
      modifies caches`progress
      ensures caches.Valid()
      ensures caches.progress == []
    {
      caches.progress := [];
    }

    // -------------------------------------------------------------------------
    // The progress driver

    /** Cancels the timer, if one is armed. */
    method ClearTimer()
      modifies this`timer, this`liveTimers
      ensures timer == None
      ensures liveTimers == old(liveTimers) - (if old(timer).Some? then {old(timer).value} else {})
    {
      if timer.Some? {
        liveTimers := liveTimers - {timer.value};
      }
      timer := None;
    }

    /** Shows frame `toFrame`, unless it is displayed already and this is not
        the first update after `showProgress`. Either way the frame is the
        displayed one afterwards. */
    method SetProgressImage(toFrame: int)
      requires caches.Valid()
      requires 0 <= toFrame <= LastFrame
      requires hasImage ==> caches.progress != []
      modifies this`currentProgressFrame, this`isFirstProgressUpdate, this`emitted
      ensures currentProgressFrame == toFrame && !isFirstProgressUpdate
      ensures emitted ==
                old(emitted) + Shown(old(isFirstProgressUpdate), old(currentProgressFrame), [toFrame])
    {
      if !isFirstProgressUpdate && currentProgressFrame == toFrame {
        return;
      }
      isFirstProgressUpdate := false;
      currentProgressFrame := toFrame;
      if hasImage {
        emitted := emitted + [ProgressImage(caches.progress[currentProgressFrame])];
        assert caches.progress[toFrame] == ProgressFrameAt(toFrame);
      }
      assert PushedFrames(old(isFirstProgressUpdate), old(currentProgressFrame), [toFrame]) == [toFrame];
    }

    /** Consumes the head of the queue: shows it, removes exactly it, and
        disarms the timer once the queue is empty. */
    method UpdateProgressImage()
      requires Valid()
      requires frames != []
      requires hasImage ==> caches.progress != []
      modifies this`currentProgressFrame, this`isFirstProgressUpdate, this`emitted
      modifies this`frames, this`timer, this`liveTimers
      ensures Valid()
      ensures frames == old(frames)[1..]
      ensures currentProgressFrame == old(frames)[0] && !isFirstProgressUpdate
      ensures emitted ==
                old(emitted) + Shown(old(isFirstProgressUpdate), old(currentProgressFrame), [old(frames)[0]])
      ensures timer == if frames == [] then None else old(timer)
      ensures timersCreated == old(timersCreated)
    {
      var toFrame := frames[0];
      SetProgressImage(toFrame);
      frames := frames[1..];
      if |frames| == 0 {
        ClearTimer();
      }
    }

    /** A tick of the scheduled timer `token`. Only a timer still scheduled
        can fire, so the queue is never empty here. */
    method NextFrame(token: nat)
      requires Valid()
      requires token in liveTimers
      requires hasImage ==> caches.progress != []
      modifies this`currentProgressFrame, this`isFirstProgressUpdate, this`emitted
      modifies this`frames, this`timer, this`liveTimers
      ensures Valid()
      ensures frames == old(frames)[1..]
      ensures currentProgressFrame == old(frames)[0] && !isFirstProgressUpdate
      ensures emitted ==
                old(emitted) + Shown(old(isFirstProgressUpdate), old(currentProgressFrame), [old(frames)[0]])
      ensures timer == if frames == [] then None else old(timer)
      ensures timersCreated == old(timersCreated)
    {
      UpdateProgressImage();
    }

    /** Moves the ring towards `percentage`: queues the ten eased frames from
        the displayed frame to the target, cancels any previous timer before
        scheduling a fresh one, and shows the first queued frame at once. */
    method UpdateProgress(percentage: real)
      requires Valid()
      requires hasImage ==> caches.progress != []
      modifies this`currentProgressFrame, this`isFirstProgressUpdate, this`emitted
      modifies this`frames, this`timer, this`timersCreated, this`liveTimers
      ensures Valid()
      ensures var q := Interpolate(old(currentProgressFrame), FrameIndexFor(percentage));
              frames == q[1..] && currentProgressFrame == q[0] &&
              emitted == old(emitted) + Shown(old(isFirstProgressUpdate), old(currentProgressFrame), [q[0]])
      ensures |frames| == Steps - 1 && frames[Steps - 2] == FrameIndexFor(percentage)
      ensures !isFirstProgressUpdate
      ensures timersCreated == old(timersCreated) + 1
      ensures timer == Some(old(timersCreated)) && liveTimers == {old(timersCreated)}
      ensures old(timer).Some? ==> old(timer).value !in liveTimers
    {
      var toFrame := FrameIndexFor(percentage);
      InterpolateProperties(currentProgressFrame, toFrame);
      InterpolateInRange(currentProgressFrame, toFrame);
      frames := [];
      frames := Interpolate(currentProgressFrame, toFrame);
      ClearTimer();
      timer := Some(timersCreated);
      liveTimers := liveTimers + {timersCreated};
      timersCreated := timersCreated + 1;
      UpdateProgressImage();
    }

    /** Shows the progress ring at `startPercentage`: fills the progress
        cache, blanks the view, and forces the start frame to be pushed even
        if it is the frame displayed before. The queue and the timer are left
        as they are. */
    method ShowProgress(startPercentage: real)
      requires Valid()
      modifies caches`progress, caches`generations
      modifies this`currentProgressFrame, this`isFirstProgressUpdate, this`emitted, this`alpha
      ensures Valid()
      ensures caches.progress == ProgressFrames()
      ensures caches.generations == old(caches.generations) + (if old(caches.progress) == [] then 1 else 0)
      ensures currentProgressFrame == FrameIndexFor(startPercentage) && !isFirstProgressUpdate
      ensures emitted == old(emitted) +
                (if hasImage then [Blank, ProgressImage(ProgressFrameAt(FrameIndexFor(startPercentage)))] else [])
      ensures alpha == if hasImage then 1.0 else old(alpha)
    {
      PrepareImagesForProgress();
      if hasImage {
        emitted := emitted + [Blank];
      }
      currentProgressFrame := 0;
      isFirstProgressUpdate := true;
      var startFrame := FrameIndexFor(startPercentage);
      SetProgressImage(startFrame);
      assert PushedFrames(true, 0, [startFrame]) == [startFrame];
      if hasImage {
        alpha := 1.0;
      }
    }

    /** The timer ticking until the queue is exhausted, one tick per call:
        every queued frame is consumed in order, the view receives exactly
        those that were not already displayed, and no timer is left
        scheduled. */
    method DrainQueue()
      requires Valid()
      requires hasImage ==> caches.progress != []
      modifies this`currentProgressFrame, this`isFirstProgressUpdate, this`emitted
      modifies this`frames, this`timer, this`liveTimers
      ensures Valid()
      ensures frames == [] && timer == None && liveTimers == {}
      ensures currentProgressFrame == LastFrameOf(old(currentProgressFrame), old(frames))
      ensures isFirstProgressUpdate == (old(isFirstProgressUpdate) && old(frames) == [])
      ensures emitted == old(emitted) + Shown(old(isFirstProgressUpdate), old(currentProgressFrame), old(frames))
      decreases |frames|
    {
      if timer.Some? {
        ghost var f0, c0, q0, e0 := isFirstProgressUpdate, currentProgressFrame, frames, emitted;
        assert LastFrameOf(q0[0], q0[1..]) == LastFrameOf(c0, q0);
        NextFrame(timer.value);
        ghost var e1 := emitted;
        DrainQueue();
        ShownSplit(f0, c0, q0, e0, e1, emitted);
      }
    }

    /** A whole progress update as the timer runs it: `updateProgress`
        followed by ticks of its timer until the queue is exhausted. The ring
        ends on the target frame with no timer left, and the view has received
        exactly the eased frames that were not already displayed. */
    method RunUpdateProgress(percentage: real)
      requires Valid()
      requires hasImage ==> caches.progress != []
      modifies this`currentProgressFrame, this`isFirstProgressUpdate, this`emitted
      modifies this`frames, this`timer, this`timersCreated, this`liveTimers
      ensures Valid()
      ensures currentProgressFrame == FrameIndexFor(percentage) && !isFirstProgressUpdate
      ensures frames == [] && timer == None && liveTimers == {}
      ensures emitted == old(emitted) +
                Shown(old(isFirstProgressUpdate), old(currentProgressFrame),
                      Interpolate(old(currentProgressFrame), FrameIndexFor(percentage)))
    {
      ghost var first, start, e0 := isFirstProgressUpdate, currentProgressFrame, emitted;
      ghost var q := Interpolate(start, FrameIndexFor(percentage));
      InterpolateLast(start, FrameIndexFor(percentage));
      UpdateProgress(percentage);
      ghost var e1 := emitted;
      DrainQueue();
      ShownSplit(first, start, q, e0, e1, emitted);
    }

    // -------------------------------------------------------------------------
    // Showing and hiding

    /** Shows the looping wait animation of this indicator's style. */
    method ShowWait()
      requires Valid()
      modifies caches`dotWait, caches`lineWait, caches`generations
      modifies this`emitted, this`animating, this`alpha
      ensures Valid()
      ensures style == Dot ==> caches.dotWait == Some(DotFrames()) && caches.lineWait == old(caches.lineWait)
      ensures style == Line ==> caches.dotWait == old(caches.dotWait) &&
                                caches.lineWait ==
                                  if old(caches.lineWait).None? then Some(LineWaitFrames(LineSettings(), pow))
                                  else old(caches.lineWait)
      ensures caches.generations ==
                old(caches.generations) +
                (if (style == Dot && old(caches.dotWait).None?) || (style == Line && old(caches.lineWait).None?)
                 then 1 else 0)
      ensures emitted == old(emitted) +
                (if !hasImage then []
                 else if style == Dot then [DotAnimation(DotFrames())]
                 else [LineAnimation(caches.lineWait.value)])
      ensures animating == (hasImage || old(animating))
      ensures alpha == if hasImage then 1.0 else old(alpha)
    {
      PrepareImagesForWait();
      if hasImage {
        var picture := if style == Dot then DotAnimation(caches.dotWait.value)
                       else LineAnimation(caches.lineWait.value);
        emitted := emitted + [picture];
        animating := true;
        alpha := 1.0;
      }
    }

    /** Shows the still reload icon. */
    method ShowReload()
      requires Valid()
      modifies caches`reload, caches`generations
      modifies this`emitted, this`animating, this`alpha
      ensures Valid()
      ensures caches.reload ==
                if old(caches.reload).None?
                then Some(ReloadFrameFor(width, height, caches.reloadLineWidth, caches.reloadArrowRatio))
                else old(caches.reload)
      ensures caches.generations == old(caches.generations) + (if old(caches.reload).None? then 1 else 0)
      ensures emitted == old(emitted) + (if hasImage then [ReloadImage(caches.reload.value)] else [])
      ensures animating == (!hasImage && old(animating))
      ensures alpha == if hasImage then 1.0 else old(alpha)
    {
      PrepareImagesForReload();
      if hasImage {
        animating := false;
        emitted := emitted + [ReloadImage(caches.reload.value)];
        alpha := 1.0;
      }
    }

    /** Stops the view's animation and fades it out; the progress timer is
        not touched. */
    method Hide()
      modifies this`animating, this`alpha
      ensures animating == (!hasImage && old(animating))
      ensures alpha == if hasImage then 0.0 else old(alpha)
    {
      if hasImage {
        animating := false;
        alpha := 0.0;
      }
    }

    /** Tear-down (`deinit`): no timer is left scheduled. */
    method Teardown()
      modifies this`timer, this`liveTimers, this`animating
      ensures timer == None
      ensures liveTimers == old(liveTimers) - (if old(timer).Some? then {old(timer).value} else {})
      ensures animating == (!hasImage && old(animating))
    {
      ClearTimer();
      if hasImage {
        animating := false;
      }
    }
  }
}
