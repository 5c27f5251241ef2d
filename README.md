# TrackstormsBot tracking core in Dafny

TrackstormsBot is a camera robot that keeps a face (or a hand) in the middle
of its picture by turning two Build HAT motors, and lights the eyes of a
distance sensor on a pointing gesture. This project models the decision and
bookkeeping code that sits between the camera and model libraries and the
motor drivers, and proves what that code promises:

- `motor_control.dfy` — the packaged controller, `trackstormsbot/controller.py`.
  Each axis stores the last direction it was commanded in (`Movement`). One
  `move_to_middle` call compares the detection middle with the frame middle
  through a band of `frame_middle * tolerance`. It sends a `pwm` only to an
  axis whose direction changes. `stop` stops both axes, and `set_eyes` applies
  the same emit-on-change rule to the four eye values. Each decision is a pure
  function (`Band`, `AxisUpdate`, `MoveTransition`, `StopTransition`,
  `EyesUpdate`). The classes `MotorController` and `DistanceSensorController`
  update their fields step by step, as the Python does. They are proved to
  agree with those functions. Motor commands are appended to a `log` field.
- `rate_limited_control.dfy` — the root-level controller, `controller.py`. It adds
  a `rate` and a `_last_command` time. A call within `1 / rate` of the last
  command is ignored, and `stop` also stamps the time. Time is the explicit
  parameter `now`. A run of calls (`Run`) shows that accepted moves are at
  least `1 / rate` apart. At 10 commands per second, at most 5 calls in half
  a second are accepted.
- `detectors.dfy` — `trackstormsbot/detectors.py`. It covers the scale factor
  from detection-frame to camera coordinates and the Cascade, YuNet and
  Mediapipe post-processors. It also covers the frame-rate window, the sleep
  computation, and one iteration of the `detect` loop as `Detector.Step`.
- `gesture_recognisers.dfy` — `trackstormsbot/gesture_recognisers.py`. It
  covers how landmarks are gathered, `_preprocess_landmarks` (translation to
  the first landmark, flattening, max-abs normalisation, with its unguarded
  `ValueError` and `ZeroDivisionError`), the `[0, 0]` prefix of the classifier
  input, and `_get_gesture_label`.
- `utils.dfy` — `calculate_middle_xywh`.
- `common.dfy`, `hardware.dfy` — shared definitions: `Result`/`Error` for the
  Python exceptions, `int()` as truncation toward zero, and the command log.

Floats are modelled as `real`. `int(x)` is truncation toward zero (`Trunc`).
Python's `// 2` is Dafny's `/ 2`, since both floor for a positive divisor.
The camera, the inference models, the threads and the clock are not
modelled. They become parameters: the post-processed result of a frame, the
classifier's class index, and `now`/`start` times.

Behaviour of the code that the model keeps:
- `detect` has no `try` around inference and post-processing
  (`trackstormsbot/detectors.py:66-67`). A raised exception ends the loop,
  and `Step` returns `Raised`.
- The `detect` loop divides by `rate` unguarded (`trackstormsbot/detectors.py:80`).
  A rate of 0 raises `ZeroDivisionError` after the snapshot is published.
- A zero normalisation denominator is not guarded
  (`trackstormsbot/gesture_recognisers.py:81-82`). See `PreprocessedErrors`.
- `stop` keeps `_target` (`SameTargetAfterStopIsNoOp`). If a target vanishes
  and comes back with exactly the same middle, the motors stay stopped.
- For the 640x480 camera and 320x200 detection frame, the box (10, 10, 20, 20)
  scales to (20, 24, 40, 48): 10 * 2.4 = 24 (`CascadeExample`).

## Model

| member | source | states |
|---|---|---|
| `Common.Trunc` | trackstormsbot/detectors.py:117-121 | the definition of `int()` on a float: the floor for a non-negative value, minus the floor of the negation otherwise; its properties are `TruncBounds` |
| `Common.TruncBounds` | trackstormsbot/detectors.py:117-121 | `int()` of a float truncates toward zero: the result has the float's sign and lies within 1 of it, never further from 0 |
| `MotorControl.Band` | trackstormsbot/controller.py:31-48 | the detection lies below the band iff its coordinate is less than `centre - tol`; for `tol >= 0` it lies above iff greater than `centre + tol`, and inside iff `|target - centre| <= tol`, both boundaries included |
| `MotorControl.HorizontalMovement` | trackstormsbot/controller.py:32-54 | the horizontal axis only ever takes 'stop', 'left' or 'right' |
| `MotorControl.VerticalMovement` | trackstormsbot/controller.py:57-75 | the vertical axis only ever takes 'stop', 'up' or 'down' |
| `MotorControl.Duty` | trackstormsbot/controller.py:39-75 | 'right'/'up' send `-speed/100`, 'left'/'down' send `speed/100`, 'stop' sends 0 |
| `MotorControl.AxisUpdate` | trackstormsbot/controller.py:33-54 | the axis always ends in the desired movement; a command is sent iff that differs from the current one, and it is the `pwm` of the desired movement; the commands are those `Emitted` names for the change |
| `MotorControl.MoveTransition` | trackstormsbot/controller.py:20-77 | a repeated target changes nothing and sends nothing; otherwise each axis takes its band's movement, the target is recorded, and a `pwm` goes to each axis whose movement changed, horizontal first; well-formed axis states stay well formed |
| `MotorControl.StopTransition` | trackstormsbot/controller.py:83-93 | both axes end 'stop', the target is kept, and `pwm(0)` goes only to axes that were moving |
| `MotorControl.AtMostOneCommandPerMotor` | trackstormsbot/controller.py:31-75 | one call sends at most two commands, only `pwm`, never two to the same motor |
| `MotorControl.RepeatedTargetIsNoOp` | trackstormsbot/controller.py:28-29 | a second call with the same target sends nothing and changes nothing |
| `MotorControl.SameBandsSendNothing` | trackstormsbot/controller.py:31-77 | a new target in the same bands as the previous one sends nothing; only the stored target changes |
| `MotorControl.StopRightRightSendsOnce` | trackstormsbot/controller.py:32-39 | stop, then right, then right again sends exactly one `pwm(-0.12)` |
| `MotorControl.DefaultBandExamples` | trackstormsbot/controller.py:20-75 | with a frame middle of (320, 240) and tolerance 0.2: x = 300, 256 and 384 stop, x = 255 and 200 turn right, x = 385 and 450 turn left; y = 100 tilts up, y = 300 tilts down |
| `MotorControl.StopIsIdempotent` | trackstormsbot/controller.py:83-93 | a second `stop` sends nothing |
| `MotorControl.SameTargetAfterStopIsNoOp` | trackstormsbot/controller.py:28-93 | after `stop`, sending the previous target again is a no-op, leaving both axes stopped |
| `MotorControl.MotorController.constructor` | trackstormsbot/controller.py:11-18 | both axes 'stop', target (0, 0), nothing sent |
| `MotorControl.MotorController.MoveToMiddle` | trackstormsbot/controller.py:20-77 | the fields and the appended commands are exactly those of `MoveTransition` on the old fields; axis states stay well formed |
| `MotorControl.MotorController.TrackHorizontally` | trackstormsbot/controller.py:31-54 | `_x_movement` becomes the horizontal band's movement, and the log gains the `pwm` for it only when it changed |
| `MotorControl.MotorController.TrackVertically` | trackstormsbot/controller.py:56-75 | `_y_movement` becomes the vertical band's movement, and the log gains the `pwm` for it only when it changed |
| `MotorControl.MotorController.ToPosition` | trackstormsbot/controller.py:79-81 | exactly two position commands, x motor then y motor, and nothing else changes |
| `MotorControl.MotorController.Stop` | trackstormsbot/controller.py:83-93 | the fields and the appended commands are exactly those of `StopTransition` on the old fields |
| `MotorControl.EyesUpdate` | trackstormsbot/controller.py:108-112 | the eyes end at the new values; `eyes` is sent, once, iff the values differ from the stored ones |
| `MotorControl.EyesEmitOnlyOnChange` | trackstormsbot/controller.py:97-112 | the first `set_eyes(0, 0, 0, 0)` after construction sends nothing, and repeating any `set_eyes` sends nothing |
| `MotorControl.DistanceSensorController.constructor` | trackstormsbot/controller.py:99-101 | the stored eye values start at (0, 0, 0, 0) and nothing is sent |
| `MotorControl.DistanceSensorController.SetEyes` | trackstormsbot/controller.py:108-112 | the stored values and appended commands are exactly those of `EyesUpdate` |
| `RateLimitedControl.RateMoveTransition` | controller.py:17-72 | a repeated target is a no-op at any time (checked first); a positive rate rejects a call before `last + 1/rate` with state and log unchanged; an accepted call acts as the packaged controller and sets the last command time to `now` |
| `RateLimitedControl.RateStopTransition` | controller.py:80-93 | both axes 'stop', target kept, `pwm(0)` only to moving axes, and the last command time becomes `now` even if nothing was sent |
| `RateLimitedControl.RateDisabledMatchesPackaged` | controller.py:5-22 | with `rate <= 0` the controller moves and commands exactly as the packaged one |
| `RateLimitedControl.StopDelaysNextMove` | controller.py:80-93 | a `move_to_middle` less than `1/rate` after a `stop` is rejected |
| `RateLimitedControl.RejectedCallCatchesUp` | controller.py:22-23 | a rejected call leaves no trace: the next allowed call with the same target acts as if it never happened and records the target |
| `RateLimitedControl.RateBound` | controller.py:22-72 | over any run of calls in time order with a positive rate, consecutive accepted moves are at least `1/rate` apart, the first at least `1/rate` after the previous command |
| `RateLimitedControl.TenPerSecondAcceptsAtMostFiveInHalfASecond` | controller.py:22-23 | at rate 10, calls in time order within half a second are accepted at most 5 times |
| `RateLimitedControl.MotorController.constructor` | controller.py:5-15 | both axes 'stop', `_last_command = 0`, target (0, 0), the given rate |
| `RateLimitedControl.MotorController.MoveToMiddle` | controller.py:17-72 | the fields and the appended commands are exactly those of `RateMoveTransition` |
| `RateLimitedControl.MotorController.TrackHorizontally` | controller.py:25-48 | `_x_movement` becomes the horizontal band's movement, and the log gains the `pwm` for it only when it changed |
| `RateLimitedControl.MotorController.TrackVertically` | controller.py:50-69 | `_y_movement` becomes the vertical band's movement, and the log gains the `pwm` for it only when it changed |
| `RateLimitedControl.MotorController.ToPosition` | controller.py:74-77 | exactly two position commands, x then y, nothing else changes |
| `RateLimitedControl.MotorController.Stop` | controller.py:80-93 | the fields and the appended commands are exactly those of `RateStopTransition` |
| `Detectors.ScaleFactor` | trackstormsbot/detectors.py:22-26 | each factor times the detection size gives the camera size |
| `Detectors.ScaleBox` | trackstormsbot/detectors.py:117-121 | the definition of one Cascade box in camera coordinates: each coordinate times its axis factor, truncated |
| `Detectors.ScaleBoxIsTruncatedProduct` | trackstormsbot/detectors.py:116-121 | for non-negative boxes and factors, each scaled coordinate is the exact product truncated by less than one pixel |
| `Detectors.CascadePostProcess` | trackstormsbot/detectors.py:116-122 | as many boxes as detections, in the same order, each scaled; no labels |
| `Detectors.CascadeExample` | trackstormsbot/detectors.py:116-122 | a 640x480 camera and 320x200 detection frame give factors (2.0, 2.4) and map (10, 10, 20, 20) to (20, 24, 40, 48) |
| `Detectors.RowBox` | trackstormsbot/detectors.py:160-163 | the definition of the box of one YuNet row: entries 0-3 times their axis factors, truncated |
| `Detectors.YuNetBoxes` | trackstormsbot/detectors.py:157-166 | the definition of the YuNet result: rows in order, each too-short row skipped, each other row mapped by `RowBox` |
| `Detectors.WellFormedRows` | trackstormsbot/detectors.py:159-166 | the rows that do not raise, in order: at most as many as the rows, each one of them and each of length at least 4 |
| `Detectors.YuNetBoxesSkipShortRows` | trackstormsbot/detectors.py:157-166 | for any mix of rows, the boxes are exactly the well-formed rows mapped by `RowBox`, in order: rows that raise are skipped and nothing else is |
| `Detectors.YuNetBoxesAtMostRows` | trackstormsbot/detectors.py:157-166 | skipping rows that raise never adds boxes: at most one box per row |
| `Detectors.YuNetBoxesOfWellFormedRows` | trackstormsbot/detectors.py:158-164 | when no row raises, the boxes are the rows scaled one by one, in order |
| `Detectors.YuNetPostProcess` | trackstormsbot/detectors.py:156-168 | the loop yields the boxes of the rows that do not raise, in order; none when the model reports `None`; no labels |
| `Detectors.RelativeToBox` | trackstormsbot/detectors.py:186-193 | the definition of one Mediapipe box: each relative coordinate times the detection size and the axis factor, truncated |
| `Detectors.RelativeBoxIsFractionOfCamera` | trackstormsbot/detectors.py:186-193 | with any scale factor that maps the detection size onto the camera size (as `ScaleFactor`'s does), each coordinate is the relative value times the camera size, truncated |
| `Detectors.MediapipePostProcess` | trackstormsbot/detectors.py:183-196 | one box per detected face, in order, each the relative box times detection size times factor, truncated; none for `None`; no labels |
| `Detectors.FpsStep` | trackstormsbot/detectors.py:69-75 | the count goes up by one; exactly when the camera rate is positive and divides the new count, the estimate becomes count over the window's duration and the window restarts at `now` (a zero duration raises); otherwise the estimate and timer are unchanged |
| `Detectors.FpsWindowBoundary` | trackstormsbot/detectors.py:69-75 | from a fresh window and a positive camera rate N, fewer than N frames only count; the N-th frame sets the estimate to N over the time since the window opened and resets the count |
| `Detectors.FpsWithoutCameraRateNeverUpdates` | trackstormsbot/detectors.py:71-72 | a camera rate of zero or less never changes the estimate, whatever the frames |
| `Detectors.SleepDuration` | trackstormsbot/detectors.py:80 | the sleep is never negative; 0 for a negative rate; for a positive rate at most `1/rate` and enough to make the iteration last `1/rate`; a zero rate raises |
| `Detectors.Detector.constructor` | trackstormsbot/detectors.py:13-27 | the snapshot starts `([], [])`, the estimate at 1, and the scale factor is fixed from the camera and detection sizes |
| `Detectors.Detector.Read` | trackstormsbot/detectors.py:37-38 | returns the published detections and labels as one pair |
| `Detectors.Detector.BeginDetect` | trackstormsbot/detectors.py:53-55 | the loop opens an empty window at the current time |
| `Detectors.Detector.Step` | trackstormsbot/detectors.py:56-80 | no frame: skip with nothing changed; a raised inference: nothing changed and the loop ends; otherwise the snapshot becomes the new result, the window moves by `FpsStep`, and the iteration sleeps `SleepDuration` (or raises) |
| `GestureRecognisers.GestureLabel` | trackstormsbot/gesture_recognisers.py:86-87 | a negative index gives 'None', indices 0-2 give 'open', 'close', 'point', a larger index raises `IndexError` |
| `GestureRecognisers.OffsetsFrom` | trackstormsbot/gesture_recognisers.py:76-78 | the appended x, y offsets of each point from the base, in order; two entries per point |
| `GestureRecognisers.Offsets` | trackstormsbot/gesture_recognisers.py:73-78 | no landmarks give no offsets; n landmarks give `2*(n-1)` offsets from the first |
| `GestureRecognisers.OffsetsFromEntry` | trackstormsbot/gesture_recognisers.py:76-78 | the flattened offsets alternate x and y offsets of each point from the base |
| `GestureRecognisers.OffsetsLayout` | trackstormsbot/gesture_recognisers.py:74-78 | n landmarks give `2*(n-1)` offsets; entries `2(i-1)` and `2(i-1)+1` are `x[i]-x[0]` and `y[i]-y[0]` |
| `GestureRecognisers.MaxAbs` | trackstormsbot/gesture_recognisers.py:81 | the result bounds the absolute value of every entry and equals that of one of them |
| `GestureRecognisers.Normalise` | trackstormsbot/gesture_recognisers.py:82 | normalisation keeps the length of the vector, and each entry times the maximum gives back the offset |
| `GestureRecognisers.Preprocessed` | trackstormsbot/gesture_recognisers.py:72-84 | the definition of what `_preprocess_landmarks` returns or raises: `ValueError` for no offsets, `ZeroDivisionError` for an all-zero maximum, else the offsets normalised; its properties are `PreprocessedErrors`, `PreprocessedRange`, `TranslationInvariant`, `ScaleInvariant` |
| `GestureRecognisers.PreprocessLandmarks` | trackstormsbot/gesture_recognisers.py:72-84 | the loop's result (or exception) is `Preprocessed`: the offsets normalised by their largest absolute value |
| `GestureRecognisers.PreprocessedErrors` | trackstormsbot/gesture_recognisers.py:81-82 | fewer than two landmarks raise `ValueError`; otherwise `ZeroDivisionError` is raised iff all landmarks coincide |
| `GestureRecognisers.PreprocessedRange` | trackstormsbot/gesture_recognisers.py:81-82 | a successful result has `2*(n-1)` entries in `[-1, 1]`, at least one of them `1` or `-1` |
| `GestureRecognisers.TranslationInvariant` | trackstormsbot/gesture_recognisers.py:75-82 | moving all landmarks by one vector changes neither the offsets nor the result |
| `GestureRecognisers.ScaleInvariant` | trackstormsbot/gesture_recognisers.py:75-82 | scaling all landmarks about the first by a positive factor scales the offsets and leaves the result unchanged |
| `GestureRecognisers.ClassifierInput` | trackstormsbot/gesture_recognisers.py:26 | the classifier sees `[0, 0]` followed by the preprocessed values |
| `GestureRecognisers.ClassifierInputLength` | trackstormsbot/gesture_recognisers.py:26 | for n landmarks the classifier input has `2*n` values |
| `GestureRecognisers.PixelOf` | trackstormsbot/gesture_recognisers.py:62-63 | the definition of one landmark in camera pixels: fraction times detection size times axis factor, truncated |
| `GestureRecognisers.HandPoints` | trackstormsbot/gesture_recognisers.py:61-63 | one pixel point per landmark of a hand, in order |
| `GestureRecognisers.AllHandPoints` | trackstormsbot/gesture_recognisers.py:59-63 | the definition of the gathered landmarks: each hand's points after the previous hands' |
| `GestureRecognisers.Recognised` | trackstormsbot/gesture_recognisers.py:65-70 | no landmarks give 'None' without the classifier; otherwise preprocessing errors propagate, or the label is that of the classifier's index on the prefixed vector |
| `GestureRecognisers.RecogniserPostProcess` | trackstormsbot/gesture_recognisers.py:58-70 | the nested loops gather every hand's landmarks in order; the result pairs them with `Recognised`'s label, and no hand gives `([], 'None')` |
| `GestureRecognisers.AppendHandPoints` | trackstormsbot/gesture_recognisers.py:61-63 | the inner loop appends exactly `HandPoints` of one hand to what was gathered before, in order |
| `Utils.CalculateMiddleXywh` | trackstormsbot/utils.py:4-6 | for non-negative sizes the middle lies inside the box; twice its offset from the corner is the size rounded down to even |
| `Utils.FloorDiv2` | trackstormsbot/utils.py:6 | `n // 2` is the largest q with `2q <= n`, for negative n too |
| `Utils.MiddleTranslates` | trackstormsbot/utils.py:6 | shifting the box shifts the middle alike; each coordinate of the middle depends only on its own axis |
| `Utils.MiddleExamples` | trackstormsbot/utils.py:6 | (10, 20, 7, 8) has middle (13, 24); (5, 5, -3, 0) has middle (3, 5) |

## Left out

- Threads, `start`/`stop` of the detector and the `_stopped` flag: one
  iteration of `detect` is `Detector.Step`. The `while` loop around it and its
  concurrency are not modelled. How callers may use the result after `Raised`
  is not modelled either.
- The clock: each `time.time()` read is a parameter. `Detector.Step` uses one
  instant `now` for all reads after inference. The rate-limited controller
  uses one `now` for both reads inside `move_to_middle`. `time.sleep` is
  represented only by the duration `Step` returns.
- `cv2` (resize, grayscale, histogram equalisation), the cascade, YuNet and
  Mediapipe models, and the TFLite interpreter with its `argmax`. These are
  foreign calls: their outputs are inputs here. The classifier is a function
  from the input vector to a class index.
- The base `Detector.model_detection` / `detection_post_process` hooks,
  `get_frame` and `_last_detection_time`'s readers: these are identity or
  I/O. The few lines in them are covered by `Step` and its inputs.
- Build HAT `Motor` and `DistanceSensor`. They appear only as the commands in
  `log`, and driver calls are assumed not to raise. The source sets the
  movement field before it calls `pwm`, so a raising `pwm` would leave the
  field changed with no command sent; the model does not capture that.
  `get_distance` is a sensor read and is not modelled.
- `Detectors.Detector.Step`: the post-processors take the scale factor as a
  parameter, and `Step` receives an already post-processed result. Nothing
  in the model ties that result to the detector's own `frameScaleFactor`,
  which the source always uses.
- Floating point: floats are reals, so neither IEEE rounding nor NaN and
  infinity are modelled. A YuNet row "raises" only when it is too short to
  index.
- `Detectors.Detector.constructor`: it requires a non-zero detection frame
  size, where the code would raise `ZeroDivisionError` while constructing.
- `camera.py` and `run.py` are not part of this model. Nor is the
  orchestration loop, including the `detection_size=` argument that `run.py`
  passes but the packaged `move_to_middle` does not accept. The drawing
  helpers and logging/printing are left out too.
