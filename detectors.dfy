/** The detector worker (`trackstormsbot/detectors.py`): the scale factor
    from detection-frame to camera coordinates, the three post-processors
    that turn raw model output into camera-space boxes, and one iteration of
    the `detect` loop with its frame-rate window and its sleep.

    The camera, the resize and the inference model are not modelled: one
    iteration receives what `get_frame` and the post-processor produced
    (`None` when the camera had no frame), and the clock readings. */
module Detectors {
  import opened Common

  /** The second half of the published snapshot: `[]` for the face
      detectors, a gesture label for the gesture recogniser. */
  datatype Labels = NoLabels | Gesture(name: string)

  /** `(camera width / detection width, camera height / detection height)`. */
  function ScaleFactor(cameraSize: (int, int), detFrameSize: (int, int)): (f: (real, real))
    requires detFrameSize.0 != 0 && detFrameSize.1 != 0
    ensures f.0 * detFrameSize.0 as real == cameraSize.0 as real
    ensures f.1 * detFrameSize.1 as real == cameraSize.1 as real
  {
    (cameraSize.0 as real / detFrameSize.0 as real, cameraSize.1 as real / detFrameSize.1 as real)
  }

  /** A box in detection-frame coordinates scaled to camera coordinates,
      each coordinate truncated by `int()`. */
  function ScaleBox(b: Box, f: (real, real)): Box
  {
    Box(Trunc(b.x as real * f.0), Trunc(b.y as real * f.1), Trunc(b.w as real * f.0), Trunc(b.h as real * f.1))
  }

  /** A non-negative product loses less than one when truncated. */
  lemma TruncOfProduct(a: real, c: real)
    requires a >= 0.0 && c >= 0.0
    ensures a * c - 1.0 < Trunc(a * c) as real <= a * c
  {
    assert a * c >= 0.0;
    TruncBounds(a * c);
  }

  /** Scaling a box with non-negative coordinates and factors truncates
      each exact product by less than one pixel. */
  lemma ScaleBoxIsTruncatedProduct(b: Box, f: (real, real))
    requires b.x >= 0 && b.y >= 0 && b.w >= 0 && b.h >= 0 && f.0 >= 0.0 && f.1 >= 0.0
    ensures var s := ScaleBox(b, f);
      b.x as real * f.0 - 1.0 < s.x as real <= b.x as real * f.0 &&
      b.y as real * f.1 - 1.0 < s.y as real <= b.y as real * f.1 &&
      b.w as real * f.0 - 1.0 < s.w as real <= b.w as real * f.0 &&
      b.h as real * f.1 - 1.0 < s.h as real <= b.h as real * f.1
  {
    TruncOfProduct(b.x as real, f.0);
    TruncOfProduct(b.y as real, f.1);
    TruncOfProduct(b.w as real, f.0);
    TruncOfProduct(b.h as real, f.1);
  }

  /** `CascadeDetector.detection_post_process`: every box scaled, none
      added, dropped or reordered, and no labels. */
  function CascadePostProcess(detections: seq<Box>, f: (real, real)): (r: (seq<Box>, Labels))
    ensures |r.0| == |detections| && r.1 == NoLabels
    ensures forall i :: 0 <= i < |detections| ==> r.0[i] == ScaleBox(detections[i], f)
  {
    (seq(|detections|, i requires 0 <= i < |detections| => ScaleBox(detections[i], f)), NoLabels)
  }

  /** A 640x480 camera and a 320x200 detection frame give the factors
      (2.0, 2.4), and the box (10, 10, 20, 20) becomes (20, 24, 40, 48). */
  lemma CascadeExample()
    ensures ScaleFactor((640, 480), (320, 200)) == (2.0, 2.4)
    ensures CascadePostProcess([Box(10, 10, 20, 20)], ScaleFactor((640, 480), (320, 200))).0 == [Box(20, 24, 40, 48)]
  {
    var f := ScaleFactor((640, 480), (320, 200));
    assert f == (2.0, 2.4);
    assert Trunc(10.0 * 2.4) == 24 && Trunc(20.0 * 2.4) == 48;
  }

  /** The camera-space box of one YuNet output row `[x, y, w, h, ...]`. */
  function RowBox(row: seq<real>, f: (real, real)): Box
    requires |row| >= 4
  {
    Box(Trunc(row[0] * f.0), Trunc(row[1] * f.1), Trunc(row[2] * f.0), Trunc(row[3] * f.1))
  }

  /** The boxes of the rows that give one, in row order: a row too short to
      index raises inside the `try` and is skipped. */
  function YuNetBoxes(rows: seq<seq<real>>, f: (real, real)): seq<Box>
    decreases |rows|
  {
    if rows == [] then []
    else
      var last := rows[|rows| - 1];
      YuNetBoxes(rows[..|rows| - 1], f) + (if |last| >= 4 then [RowBox(last, f)] else [])
  }

  /** The rows long enough to index `[0..3]`, in order. */
  function WellFormedRows(rows: seq<seq<real>>): (r: seq<seq<real>>)
    ensures |r| <= |rows|
    ensures forall i :: 0 <= i < |r| ==> |r[i]| >= 4 && r[i] in rows
    decreases |rows|
  {
    if rows == [] then []
    else
      var last := rows[|rows| - 1];
      WellFormedRows(rows[..|rows| - 1]) + (if |last| >= 4 then [last] else [])
  }

  /** Rows that raise are skipped and nothing else is: the boxes are the
      well-formed rows scaled one by one, in order. */
  lemma {:induction false} YuNetBoxesSkipShortRows(rows: seq<seq<real>>, f: (real, real))
    ensures |YuNetBoxes(rows, f)| == |WellFormedRows(rows)|
    ensures forall i :: 0 <= i < |WellFormedRows(rows)| ==>
      YuNetBoxes(rows, f)[i] == RowBox(WellFormedRows(rows)[i], f)
    decreases |rows|
  {
    if rows != [] {
      var front := rows[..|rows| - 1];
      YuNetBoxesSkipShortRows(front, f);
      var boxes, kept := YuNetBoxes(front, f), WellFormedRows(front);
      var last := rows[|rows| - 1];
      if |last| >= 4 {
        assert YuNetBoxes(rows, f) == boxes + [RowBox(last, f)];
        assert WellFormedRows(rows) == kept + [last];
      } else {
        assert YuNetBoxes(rows, f) == boxes;
        assert WellFormedRows(rows) == kept;
      }
    }
  }

  /** Skipping rows never adds boxes: at most one box per row. */
  lemma {:induction false} YuNetBoxesAtMostRows(rows: seq<seq<real>>, f: (real, real))
    ensures |YuNetBoxes(rows, f)| <= |rows|
    decreases |rows|
  {
    if rows != [] {
      YuNetBoxesAtMostRows(rows[..|rows| - 1], f);
    }
  }

  /** When every row is well formed, the boxes are the rows scaled one by one, in order. */
  lemma {:induction false} YuNetBoxesOfWellFormedRows(rows: seq<seq<real>>, f: (real, real))
    requires forall i :: 0 <= i < |rows| ==> |rows[i]| >= 4
    ensures |YuNetBoxes(rows, f)| == |rows|
    ensures forall i :: 0 <= i < |rows| ==> YuNetBoxes(rows, f)[i] == RowBox(rows[i], f)
    decreases |rows|
  {
    if rows != [] {
      var front := rows[..|rows| - 1];
      assert forall i :: 0 <= i < |front| ==> front[i] == rows[i];
      YuNetBoxesOfWellFormedRows(front, f);
    }
  }

  /** `YuNetDetector.detection_post_process`: the boxes of the face rows
      (none when the model reports `None`), and no labels. */
  method YuNetPostProcess(faces: Option<seq<seq<real>>>, f: (real, real)) returns (processed: seq<Box>, labels: Labels)
    ensures processed == YuNetBoxes(if faces.Some? then faces.value else [], f)
    ensures faces.None? ==> processed == []
    ensures labels == NoLabels
  {
    var rows := if faces.Some? then faces.value else [];
    processed := [];
    var i := 0;
    while i < |rows|
      invariant 0 <= i <= |rows|
      invariant processed == YuNetBoxes(rows[..i], f)
    {
      var detection := rows[i];
      assert rows[..i + 1][..i] == rows[..i];
      if |detection| >= 4 {
        processed := processed + [RowBox(detection, f)];
      }
      i := i + 1;
    }
    assert rows[..|rows|] == rows;
    labels := NoLabels;
  }

  /** Mediapipe's `relative_bounding_box`: fractions of the detection frame. */
  datatype RelativeBox = RelativeBox(xmin: real, ymin: real, width: real, height: real)

  /** A relative box in camera coordinates as the source computes it:
      fraction times detection size times scale factor, truncated. */
  function RelativeToBox(b: RelativeBox, detFrameSize: (int, int), f: (real, real)): Box
  {
    Box(Trunc(b.xmin * detFrameSize.0 as real * f.0), Trunc(b.ymin * detFrameSize.1 as real * f.1),
        Trunc(b.width * detFrameSize.0 as real * f.0), Trunc(b.height * detFrameSize.1 as real * f.1))
  }

  /** A fraction of the detection size times the factor from it to the
      camera size is that fraction of the camera size. */
  lemma FractionCancels(v: real, det: int, factor: real, camera: int)
    requires factor * det as real == camera as real
    ensures v * det as real * factor == v * camera as real
  {
    assert v * det as real * factor == v * (factor * det as real);
  }

  /** With a scale factor that maps the detection size onto the camera size
      (as `ScaleFactor` does), the detection size cancels: each coordinate is
      the relative value times the camera size, truncated. */
  lemma RelativeBoxIsFractionOfCamera(b: RelativeBox, cameraSize: (int, int), detFrameSize: (int, int), f: (real, real))
    requires f.0 * detFrameSize.0 as real == cameraSize.0 as real
    requires f.1 * detFrameSize.1 as real == cameraSize.1 as real
    ensures RelativeToBox(b, detFrameSize, f) ==
      Box(Trunc(b.xmin * cameraSize.0 as real), Trunc(b.ymin * cameraSize.1 as real),
          Trunc(b.width * cameraSize.0 as real), Trunc(b.height * cameraSize.1 as real))
  {
    FractionCancels(b.xmin, detFrameSize.0, f.0, cameraSize.0);
    FractionCancels(b.ymin, detFrameSize.1, f.1, cameraSize.1);
    FractionCancels(b.width, detFrameSize.0, f.0, cameraSize.0);
    FractionCancels(b.height, detFrameSize.1, f.1, cameraSize.1);
    var r := RelativeToBox(b, detFrameSize, f);
    assert r.x == Trunc(b.xmin * cameraSize.0 as real);
    assert r.y == Trunc(b.ymin * cameraSize.1 as real);
    assert r.w == Trunc(b.width * cameraSize.0 as real);
    assert r.h == Trunc(b.height * cameraSize.1 as real);
  }

  /** `MediapipeDetector.detection_post_process`: one camera-space box per
      detected face, in order (none when the model reports `None`), and no labels. */
  method MediapipePostProcess(faces: Option<seq<RelativeBox>>, detFrameSize: (int, int), f: (real, real))
    returns (processed: seq<Box>, labels: Labels)
    ensures var found := if faces.Some? then faces.value else [];
      |processed| == |found| &&
      forall i :: 0 <= i < |found| ==> processed[i] == RelativeToBox(found[i], detFrameSize, f)
    ensures labels == NoLabels
  {
    var found := if faces.Some? then faces.value else [];
    processed := [];
    var i := 0;
    while i < |found|
      invariant 0 <= i <= |found|
      invariant |processed| == i
      invariant forall k :: 0 <= k < i ==> processed[k] == RelativeToBox(found[k], detFrameSize, f)
    {
      processed := processed + [RelativeToBox(found[i], detFrameSize, f)];
      i := i + 1;
    }
    labels := NoLabels;
  }

  /** The frame-rate window of the `detect` loop: the frames counted since
      the window opened, the time it opened, and the last estimate. */
  datatype FpsWindow = FpsWindow(frameCount: nat, fpsTimer: real, fps: real)

  /** Counting one processed frame. Exactly when the camera's (truncated)
      frame rate is positive and divides the new count, the estimate becomes
      the count over the window's duration and the window restarts;
      otherwise only the count moves. A window of zero duration divides by zero. */
  function FpsStep(w: FpsWindow, cameraFps: int, now: real): (r: Result<FpsWindow>)
    ensures r.Err? ==> r.error == ZeroDivisionError
    ensures !(cameraFps > 0 && (w.frameCount + 1) % cameraFps == 0) ==>
      r == Ok(FpsWindow(w.frameCount + 1, w.fpsTimer, w.fps))
    ensures cameraFps > 0 && (w.frameCount + 1) % cameraFps == 0 ==>
      (r.Err? <==> now == w.fpsTimer) &&
      (r.Ok? ==> r.value.frameCount == 0 && r.value.fpsTimer == now &&
                 r.value.fps * (now - w.fpsTimer) == (w.frameCount + 1) as real)
  {
    var count := w.frameCount + 1;
    if cameraFps > 0 && count % cameraFps == 0 then
      if now - w.fpsTimer == 0.0 then Err(ZeroDivisionError)
      else Ok(FpsWindow(0, now, count as real / (now - w.fpsTimer)))
    else Ok(FpsWindow(count, w.fpsTimer, w.fps))
  }

  /** The window after processing frames at the given times, in order. */
  function FpsRun(w: FpsWindow, cameraFps: int, times: seq<real>): Result<FpsWindow>
    decreases |times|
  {
    if times == [] then Ok(w)
    else
      match FpsRun(w, cameraFps, times[..|times| - 1])
      case Err(e) => Err(e)
      case Ok(w1) => FpsStep(w1, cameraFps, times[|times| - 1])
  }

  /** Frame m of a window opened at `t0`, with a positive camera rate n. */
  lemma FpsStepInWindow(t0: real, fps0: real, n: int, m: int, now: real)
    requires 0 < m <= n
    ensures m < n ==> FpsStep(FpsWindow(m - 1, t0, fps0), n, now) == Ok(FpsWindow(m, t0, fps0))
    ensures m == n && now != t0 ==>
      FpsStep(FpsWindow(m - 1, t0, fps0), n, now) == Ok(FpsWindow(0, now, n as real / (now - t0)))
  {
    if m < n {
      assert m % n == m;
    } else {
      assert m % n == 0;
    }
  }

  /** Feeding a fresh window fewer than N frames (N the camera's positive
      rate) only counts them; the N-th frame sets the estimate to N over
      the time since the window opened and restarts the window. */
  lemma {:induction false} FpsWindowBoundary(t0: real, fps0: real, n: int, times: seq<real>)
    requires n > 0 && |times| <= n
    ensures |times| < n ==> FpsRun(FpsWindow(0, t0, fps0), n, times) == Ok(FpsWindow(|times|, t0, fps0))
    ensures |times| == n && times[n - 1] != t0 ==>
      FpsRun(FpsWindow(0, t0, fps0), n, times) == Ok(FpsWindow(0, times[n - 1], n as real / (times[n - 1] - t0)))
    decreases |times|
  {
    if times != [] {
      var m := |times|;
      FpsWindowBoundary(t0, fps0, n, times[..m - 1]);
      assert FpsRun(FpsWindow(0, t0, fps0), n, times[..m - 1]) == Ok(FpsWindow(m - 1, t0, fps0));
      assert FpsRun(FpsWindow(0, t0, fps0), n, times) == FpsStep(FpsWindow(m - 1, t0, fps0), n, times[m - 1]);
      FpsStepInWindow(t0, fps0, n, m, times[m - 1]);
    }
  }

  /** A camera rate of zero or less (the camera's initial `-1`) never
      updates the estimate: frames are only counted. */
  lemma {:induction false} FpsWithoutCameraRateNeverUpdates(w: FpsWindow, cameraFps: int, times: seq<real>)
    requires cameraFps <= 0
    ensures FpsRun(w, cameraFps, times) == Ok(FpsWindow(w.frameCount + |times|, w.fpsTimer, w.fps))
    decreases |times|
  {
    if times != [] {
      FpsWithoutCameraRateNeverUpdates(w, cameraFps, times[..|times| - 1]);
    }
  }

  /** `max(0, 1 / rate - elapsed)`: never negative; with a negative rate
      (the default `-1`) it is 0; with a positive rate it tops the
      iteration up to at least `1 / rate`; a zero rate divides by zero. */
  function SleepDuration(rate: real, elapsed: real): (r: Result<real>)
    ensures r.Err? <==> rate == 0.0
    ensures r.Err? ==> r.error == ZeroDivisionError
    ensures r.Ok? ==> r.value >= 0.0
    ensures r.Ok? && rate < 0.0 && elapsed >= 0.0 ==> r.value == 0.0
    ensures r.Ok? && rate > 0.0 && elapsed >= 0.0 ==> r.value <= 1.0 / rate && elapsed + r.value >= 1.0 / rate
  {
    if rate == 0.0 then Err(ZeroDivisionError)
    else
      var remaining := 1.0 / rate - elapsed;
      Ok(if remaining > 0.0 then remaining else 0.0)
  }

  /** How one iteration of the `detect` loop ends. */
  datatype StepOutcome =
    | Skipped                 // no frame: `continue` without sleeping
    | Slept(duration: real)   // the iteration finished and sleeps this long
    | Raised(error: Error)    // the exception ends the loop and its thread

  /** `Detector`: the published snapshot `(detections, labels)` of the
      last iteration, the frame-rate estimate, and the constants fixed at
      construction. `frameCount` and `fpsTimer` are the local variables of
      `detect`, kept here so that one iteration can be a method. */
  class Detector<T> {
    const rate: real
    const detFrameSize: (int, int)
    const frameScaleFactor: (real, real)
    var detections: seq<T>
    var labels: Labels
    var fps: real
    var lastDetectionTime: real
    var frameCount: nat
    var fpsTimer: real

    constructor (cameraSize: (int, int), rate: real, detFrameSize: (int, int))
      requires detFrameSize.0 != 0 && detFrameSize.1 != 0
      ensures this.rate == rate && this.detFrameSize == detFrameSize
      ensures frameScaleFactor == ScaleFactor(cameraSize, detFrameSize)
      ensures Read() == ([], NoLabels) && fps == 1.0 && lastDetectionTime == 0.0
    {
      this.rate := rate;
      this.detFrameSize := detFrameSize;
      detections := [];
      labels := NoLabels;
      fps := 1.0;
      frameScaleFactor := (cameraSize.0 as real / detFrameSize.0 as real, cameraSize.1 as real / detFrameSize.1 as real);
      lastDetectionTime := 0.0;
      frameCount := 0;
      fpsTimer := 0.0;
    }

    /** `read()`: the snapshot the last finished iteration published. */
    function Read(): (r: (seq<T>, Labels))
      reads this
      ensures r.0 == detections && r.1 == labels
    {
      (detections, labels)
    }

    function Window(): FpsWindow
      reads this
    {
      FpsWindow(frameCount, fpsTimer, fps)
    }

    /** The start of `detect`: an empty window opened at `now`. */
    method BeginDetect(now: real)
      modifies this`frameCount, this`fpsTimer
      ensures Window() == FpsWindow(0, now, old(fps))
    {
      frameCount := 0;
      fpsTimer := now;
    }

    /** One iteration of the `detect` loop. `cycle` is `None` when the
        camera had no frame, otherwise what inference and post-processing
        gave (or the exception they raised); `start` is the clock at the top
        of the iteration and `now` the clock after post-processing. */
    method Step(cycle: Option<Result<(seq<T>, Labels)>>, reportedCameraFps: real, start: real, now: real)
      returns (outcome: StepOutcome)
      modifies this
      ensures cycle.None? ==> outcome == Skipped && unchanged(this)
      ensures cycle.Some? && cycle.value.Err? ==> outcome == Raised(cycle.value.error) && unchanged(this)
      ensures cycle.Some? && cycle.value.Ok? ==>
        Read() == cycle.value.value &&
        match FpsStep(old(Window()), Trunc(reportedCameraFps), now)
        case Err(e) =>
          outcome == Raised(e) && Window() == old(Window()).(frameCount := old(frameCount) + 1) &&
          lastDetectionTime == old(lastDetectionTime)
        case Ok(w) =>
          Window() == w && lastDetectionTime == now &&
          outcome == match SleepDuration(rate, now - start)
                     case Ok(d) => Slept(d)
                     case Err(e) => Raised(e)
    {
      if cycle.None? {
        return Skipped;
      }
      if cycle.value.Err? {
        return Raised(cycle.value.error);
      }

      detections, labels := cycle.value.value.0, cycle.value.value.1;

      frameCount := frameCount + 1;
      var cameraFps := Trunc(reportedCameraFps);
      if cameraFps > 0 && frameCount % cameraFps == 0 {
        if now - fpsTimer == 0.0 {
          return Raised(ZeroDivisionError);
        }
        fps := frameCount as real / (now - fpsTimer);
        frameCount := 0;
        fpsTimer := now;
      }

      lastDetectionTime := now;

      if rate == 0.0 {
        return Raised(ZeroDivisionError);
      }
      var remaining := 1.0 / rate - (now - start);
      outcome := Slept(if remaining > 0.0 then remaining else 0.0);
    }
  }
}
