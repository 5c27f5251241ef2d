/** The gesture recogniser (`trackstormsbot/gesture_recognisers.py`): hand
    landmarks are scaled to camera pixels, translated so that the first
    landmark is the origin, flattened, normalised by the largest absolute
    offset, prefixed with the base point `[0, 0]` and classified; the class
    index becomes a label.

    The hand-landmark network and the keypoint classifier are not
    modelled: the landmarks are an input, and the classifier is a function
    parameter giving the class index (the `argmax` of the network's output)
    for an input vector. */
module GestureRecognisers {
  import opened Common
  import opened Detectors

  /** A landmark in camera pixels. */
  type Point = (int, int)

  /** A hand landmark as the hand model reports it: fractions of the detection frame. */
  datatype NormalizedLandmark = NormalizedLandmark(x: real, y: real)

  /** `MediapipeRecogniser.GESTURE_LABELS`. */
  const GestureLabels: seq<string> := ["open", "close", "point"]

  /** `_get_gesture_label`: a class index names its gesture, a negative index
      (no hand) is 'None', and an index past the list raises. */
  function GestureLabel(gesture: int): (r: Result<string>)
    ensures gesture < 0 ==> r == Ok("None")
    ensures 0 <= gesture < |GestureLabels| ==> r == Ok(GestureLabels[gesture])
    ensures gesture >= |GestureLabels| ==> r == Err(IndexError)
    ensures r.Ok? ==> r.value in {"open", "close", "point", "None"}
  {
    if gesture >= 0 then
      if gesture < |GestureLabels| then Ok(GestureLabels[gesture]) else Err(IndexError)
    else Ok("None")
  }

  /** `abs` on the integer offsets, agreeing with `Abs` on reals. */
  function IntAbs(n: int): (a: nat)
    ensures a as real == Abs(n as real)
  {
    if n < 0 then -n else n
  }

  /** The offsets of `points` from `base`, flattened as x, y, x, y, ... */
  function OffsetsFrom(base: Point, points: seq<Point>): (r: seq<int>)
    ensures |r| == 2 * |points|
    decreases |points|
  {
    if points == [] then []
    else
      var last := points[|points| - 1];
      OffsetsFrom(base, points[..|points| - 1]) + [last.0 - base.0, last.1 - base.1]
  }

  /** The offsets of every landmark after the first from the first. */
  function Offsets(landmarks: seq<Point>): (r: seq<int>)
    ensures landmarks == [] ==> r == []
    ensures landmarks != [] ==> |r| == 2 * (|landmarks| - 1)
  {
    if landmarks == [] then [] else OffsetsFrom(landmarks[0], landmarks[1..])
  }

  /** Entry `k` of the flattened offsets is the x offset of point `k / 2`
      when `k` is even and its y offset when `k` is odd. */
  lemma {:induction false} OffsetsFromEntry(base: Point, points: seq<Point>, k: int)
    requires 0 <= k < 2 * |points|
    ensures |OffsetsFrom(base, points)| == 2 * |points|
    ensures OffsetsFrom(base, points)[k] ==
      if k % 2 == 0 then points[k / 2].0 - base.0 else points[k / 2].1 - base.1
    decreases |points|
  {
    var front := points[..|points| - 1];
    if k < 2 * |front| {
      OffsetsFromEntry(base, front, k);
      assert front[k / 2] == points[k / 2];
    }
  }

  /** For n landmarks there are `2 * (n - 1)` offsets; entries `2 * (i - 1)`
      and `2 * (i - 1) + 1` are landmark i's offsets from landmark 0. */
  lemma OffsetsLayout(landmarks: seq<Point>)
    requires |landmarks| > 0
    ensures |Offsets(landmarks)| == 2 * (|landmarks| - 1)
    ensures forall i :: 1 <= i < |landmarks| ==>
      Offsets(landmarks)[2 * (i - 1)] == landmarks[i].0 - landmarks[0].0 &&
      Offsets(landmarks)[2 * (i - 1) + 1] == landmarks[i].1 - landmarks[0].1
  {
    var points := landmarks[1..];
    forall i | 1 <= i < |landmarks|
      ensures Offsets(landmarks)[2 * (i - 1)] == landmarks[i].0 - landmarks[0].0
      ensures Offsets(landmarks)[2 * (i - 1) + 1] == landmarks[i].1 - landmarks[0].1
    {
      OffsetsFromEntry(landmarks[0], points, 2 * (i - 1));
      OffsetsFromEntry(landmarks[0], points, 2 * (i - 1) + 1);
      assert points[i - 1] == landmarks[i];
    }
  }

  /** `max(map(abs, s))` of a non-empty list. */
  function MaxAbs(s: seq<int>): (m: nat)
    requires |s| > 0
    ensures forall i :: 0 <= i < |s| ==> IntAbs(s[i]) <= m
    ensures exists i :: 0 <= i < |s| && IntAbs(s[i]) == m
    decreases |s|
  {
    if |s| == 1 then IntAbs(s[0])
    else
      var front := MaxAbs(s[..|s| - 1]);
      var last := IntAbs(s[|s| - 1]);
      if front >= last then front else last
  }

  /** `map(lambda x: x / m, s)`. */
  function Normalise(s: seq<int>, m: int): (r: seq<real>)
    requires m != 0
    ensures |r| == |s|
    ensures forall i :: 0 <= i < |s| ==> r[i] * m as real == s[i] as real
  {
    seq(|s|, i requires 0 <= i < |s| => s[i] as real / m as real)
  }

  /** What `_preprocess_landmarks` returns or raises: `max` of no offsets
      (fewer than two landmarks) raises `ValueError`, all-zero offsets make
      the division raise `ZeroDivisionError`; neither case is guarded. */
  function Preprocessed(landmarks: seq<Point>): Result<seq<real>>
  {
    var offsets := Offsets(landmarks);
    if offsets == [] then Err(ValueError)
    else
      var m := MaxAbs(offsets);
      if m == 0 then Err(ZeroDivisionError) else Ok(Normalise(offsets, m))
  }

  /** `_preprocess_landmarks`: the landmarks' offsets from the first, built
      by appending in a loop, then normalised. */
  method PreprocessLandmarks(landmarks: seq<Point>) returns (r: Result<seq<real>>)
    ensures r == Preprocessed(landmarks)
  {
    var processed: seq<int> := [];
    if |landmarks| > 0 {
      var base := landmarks[0];
      var i := 1;
      while i < |landmarks|
        invariant 1 <= i <= |landmarks|
        invariant processed == OffsetsFrom(base, landmarks[1..i])
      {
        assert landmarks[1..i + 1][..i - 1] == landmarks[1..i];
        processed := processed + [landmarks[i].0 - base.0];
        processed := processed + [landmarks[i].1 - base.1];
        i := i + 1;
      }
      assert landmarks[1..|landmarks|] == landmarks[1..];
    }

    if processed == [] {
      return Err(ValueError);
    }
    var maxValue := MaxAbs(processed);
    if maxValue == 0 {
      return Err(ZeroDivisionError);
    }
    r := Ok(Normalise(processed, maxValue));
  }

  /** Entry `k` of the offsets of `landmarks`, read off the landmark it comes from. */
  lemma OffsetAt(landmarks: seq<Point>, k: int)
    requires 0 <= k < 2 * (|landmarks| - 1)
    ensures 0 <= k / 2 && k / 2 + 1 < |landmarks|
    ensures |Offsets(landmarks)| == 2 * (|landmarks| - 1)
    ensures Offsets(landmarks)[k] ==
      if k % 2 == 0 then landmarks[k / 2 + 1].0 - landmarks[0].0 else landmarks[k / 2 + 1].1 - landmarks[0].1
  {
    OffsetsFromEntry(landmarks[0], landmarks[1..], k);
    assert landmarks[1..][k / 2] == landmarks[k / 2 + 1];
  }

  /** Fewer than two landmarks raise `ValueError`; otherwise the division
      raises exactly when every landmark coincides with the first. */
  lemma PreprocessedErrors(landmarks: seq<Point>)
    ensures |landmarks| <= 1 ==> Preprocessed(landmarks) == Err(ValueError)
    ensures |landmarks| > 1 ==>
      (Preprocessed(landmarks) == Err(ZeroDivisionError) <==> forall i :: 0 <= i < |landmarks| ==> landmarks[i] == landmarks[0])
    ensures |landmarks| > 1 ==> Preprocessed(landmarks) != Err(ValueError)
  {
    if |landmarks| > 1 {
      OffsetsLayout(landmarks);
      var offsets := Offsets(landmarks);
      if forall i :: 0 <= i < |landmarks| ==> landmarks[i] == landmarks[0] {
        forall k | 0 <= k < |offsets|
          ensures IntAbs(offsets[k]) == 0
        {
          OffsetAt(landmarks, k);
          assert landmarks[k / 2 + 1] == landmarks[0];
        }
        assert MaxAbs(offsets) == 0;
      } else {
        var i :| 0 <= i < |landmarks| && landmarks[i] != landmarks[0];
        assert offsets[2 * (i - 1)] != 0 || offsets[2 * (i - 1) + 1] != 0;
      }
    } else if |landmarks| == 1 {
      assert landmarks[1..] == [];
    }
  }

  /** Multiplying by a positive number keeps a quotient's side of 1 and -1. */
  lemma ScaledPastUnit(q: real, m: real)
    requires m > 0.0
    ensures q > 1.0 ==> q * m > m
    ensures q < -1.0 ==> q * m < -m
  {
    if q > 1.0 {
      assert q * m - m == (q - 1.0) * m;
    } else if q < -1.0 {
      assert -m - q * m == (-1.0 - q) * m;
    }
  }

  lemma NormalisedBound(a: int, m: int)
    requires m > 0 && IntAbs(a) <= m
    ensures -1.0 <= a as real / m as real <= 1.0
  {
    var q := a as real / m as real;
    assert -(m as real) <= a as real <= m as real;
    assert q * m as real == a as real;
    ScaledPastUnit(q, m as real);
  }

  lemma NormalisedUnit(a: int, m: int)
    requires m > 0 && IntAbs(a) == m
    ensures a as real / m as real == 1.0 || a as real / m as real == -1.0
  {
    if a < 0 {
      assert a as real == -(m as real);
    } else {
      assert a as real == m as real;
    }
  }

  /** A successful result has `2 * (n - 1)` entries, all in `[-1, 1]`, and at
      least one of them is `1` or `-1`. */
  lemma PreprocessedRange(landmarks: seq<Point>)
    requires Preprocessed(landmarks).Ok?
    ensures var v := Preprocessed(landmarks).value;
      |v| == 2 * (|landmarks| - 1) &&
      (forall i :: 0 <= i < |v| ==> -1.0 <= v[i] <= 1.0) &&
      (exists i :: 0 <= i < |v| && (v[i] == 1.0 || v[i] == -1.0))
  {
    var offsets := Offsets(landmarks);
    var m := MaxAbs(offsets);
    var v := Normalise(offsets, m);
    assert Preprocessed(landmarks).value == v;
    forall i | 0 <= i < |v|
      ensures -1.0 <= v[i] <= 1.0
    {
      assert v[i] == offsets[i] as real / m as real;
      NormalisedBound(offsets[i], m);
    }
    var j :| 0 <= j < |offsets| && IntAbs(offsets[j]) == m;
    assert v[j] == offsets[j] as real / m as real;
    NormalisedUnit(offsets[j], m);
  }

  /** Every landmark moved by `(dx, dy)`. */
  function Translate(landmarks: seq<Point>, dx: int, dy: int): (r: seq<Point>)
    ensures |r| == |landmarks|
  {
    seq(|landmarks|, i requires 0 <= i < |landmarks| => (landmarks[i].0 + dx, landmarks[i].1 + dy))
  }

  /** Moving every landmark by the same amount leaves the offsets, and so
      the preprocessed vector or its error, unchanged. */
  lemma TranslationInvariant(landmarks: seq<Point>, dx: int, dy: int)
    ensures Offsets(Translate(landmarks, dx, dy)) == Offsets(landmarks)
    ensures Preprocessed(Translate(landmarks, dx, dy)) == Preprocessed(landmarks)
  {
    var moved := Translate(landmarks, dx, dy);
    if |landmarks| > 0 {
      forall k | 0 <= k < |Offsets(landmarks)|
        ensures Offsets(moved)[k] == Offsets(landmarks)[k]
      {
        OffsetAt(landmarks, k);
        OffsetAt(moved, k);
        assert moved[k / 2 + 1] == (landmarks[k / 2 + 1].0 + dx, landmarks[k / 2 + 1].1 + dy);
      }
    }
  }

  /** `p` pushed away from `b` by the factor `k`; `b` itself stays put. */
  function ScalePoint(b: Point, p: Point, k: int): (r: Point)
    ensures p == b ==> r == b
  {
    (b.0 + k * (p.0 - b.0), b.1 + k * (p.1 - b.1))
  }

  /** Every landmark pushed away from the first one by the factor `k`. */
  function ScaleAbout(landmarks: seq<Point>, k: int): (r: seq<Point>)
    requires |landmarks| > 0
    ensures |r| == |landmarks| && r[0] == landmarks[0]
  {
    seq(|landmarks|, i requires 0 <= i < |landmarks| => ScalePoint(landmarks[0], landmarks[i], k))
  }

  /** Each entry multiplied by `k`. */
  function Scaled(s: seq<int>, k: int): (r: seq<int>)
    ensures |r| == |s|
  {
    seq(|s|, i requires 0 <= i < |s| => k * s[i])
  }

  lemma AbsOfScaled(a: int, k: int)
    requires k > 0
    ensures IntAbs(k * a) == k * IntAbs(a)
  {
    if a < 0 {
      assert k * a == -(k * -a);
    }
  }

  lemma ScaledOrder(a: int, b: int, k: int)
    requires k > 0 && a >= b
    ensures k * a >= k * b
  {
    assert k * a - k * b == k * (a - b);
  }

  /** Scaling every entry by `k > 0` scales the largest absolute value by `k`. */
  lemma {:induction false} MaxAbsScaled(s: seq<int>, k: int)
    requires |s| > 0 && k > 0
    ensures MaxAbs(Scaled(s, k)) == k * MaxAbs(s)
    decreases |s|
  {
    var t := Scaled(s, k);
    var n := |s|;
    AbsOfScaled(s[n - 1], k);
    assert t[n - 1] == k * s[n - 1];
    if n == 1 {
      assert MaxAbs(t) == IntAbs(t[0]);
    } else {
      var front := s[..n - 1];
      assert Scaled(front, k) == t[..n - 1];
      MaxAbsScaled(front, k);
      var a, b := MaxAbs(front), IntAbs(s[n - 1]);
      if a >= b {
        ScaledOrder(a, b, k);
      } else {
        ScaledOrder(b, a, k);
      }
    }
  }

  lemma DivCancel(a: int, m: int, k: int)
    requires m != 0 && k > 0
    ensures (k * a) as real / (k * m) as real == a as real / m as real
  {
    var q := a as real / m as real;
    assert a as real == q * m as real;
    assert (k * a) as real == k as real * a as real;
    assert (k * m) as real == k as real * m as real;
    assert (k * a) as real == q * (k * m) as real;
  }

  /** One scaled landmark's offset from the (unmoved) first landmark. */
  lemma ScaledOffsetAt(landmarks: seq<Point>, k: int, j: int)
    requires |landmarks| > 0 && 0 <= j < 2 * (|landmarks| - 1)
    ensures Offsets(ScaleAbout(landmarks, k))[j] == k * Offsets(landmarks)[j]
  {
    var scaled := ScaleAbout(landmarks, k);
    OffsetAt(landmarks, j);
    OffsetAt(scaled, j);
    var i := j / 2 + 1;
    var b, p := landmarks[0], landmarks[i];
    var dx, dy := p.0 - b.0, p.1 - b.1;
    assert scaled[i] == ScalePoint(b, p, k) == (b.0 + k * dx, b.1 + k * dy);
  }

  /** Scaling the landmarks about the first scales each offset. */
  lemma OffsetsOfScaleAbout(landmarks: seq<Point>, k: int)
    requires |landmarks| > 0
    ensures Offsets(ScaleAbout(landmarks, k)) == Scaled(Offsets(landmarks), k)
  {
    var scaled := ScaleAbout(landmarks, k);
    var offsets := Offsets(landmarks);
    forall j | 0 <= j < |offsets|
      ensures Offsets(scaled)[j] == Scaled(offsets, k)[j]
    {
      ScaledOffsetAt(landmarks, k, j);
    }
  }

  lemma NormaliseScaled(s: seq<int>, m: int, k: int)
    requires m != 0 && k > 0
    ensures Normalise(Scaled(s, k), k * m) == Normalise(s, m)
  {
    forall j | 0 <= j < |s|
      ensures Normalise(Scaled(s, k), k * m)[j] == Normalise(s, m)[j]
    {
      DivCancel(s[j], m, k);
    }
  }

  /** Scaling all landmarks about the first by a positive factor scales every
      offset and the maximum alike, so the preprocessed vector (or its error)
      does not change. */
  lemma ScaleInvariant(landmarks: seq<Point>, k: int)
    requires |landmarks| > 0 && k > 0
    ensures Offsets(ScaleAbout(landmarks, k)) == Scaled(Offsets(landmarks), k)
    ensures Preprocessed(ScaleAbout(landmarks, k)) == Preprocessed(landmarks)
  {
    var offsets := Offsets(landmarks);
    var scaled := Offsets(ScaleAbout(landmarks, k));
    OffsetsOfScaleAbout(landmarks, k);
    if offsets != [] {
      MaxAbsScaled(offsets, k);
      var m := MaxAbs(offsets);
      assert MaxAbs(scaled) == k * m;
      if m != 0 {
        ScaledOrder(m, 1, k);
        NormaliseScaled(offsets, m, k);
        assert Preprocessed(ScaleAbout(landmarks, k)) == Ok(Normalise(scaled, k * m));
      } else {
        assert k * m == 0;
      }
    }
  }

  /** `KeyPointClassifier.__call__` input: the base point `[0, 0]` followed
      by the preprocessed landmarks. */
  function ClassifierInput(processed: seq<real>): (r: seq<real>)
    ensures |r| == |processed| + 2
    ensures r[0] == 0.0 && r[1] == 0.0 && r[2..] == processed
  {
    [0.0, 0.0] + processed
  }

  /** For n landmarks the classifier sees a vector of `2 * n` values. */
  lemma ClassifierInputLength(landmarks: seq<Point>)
    requires Preprocessed(landmarks).Ok?
    ensures |ClassifierInput(Preprocessed(landmarks).value)| == 2 * |landmarks|
  {
    PreprocessedRange(landmarks);
  }

  /** A hand landmark in camera pixels: fraction times detection size times scale factor, truncated. */
  function PixelOf(lm: NormalizedLandmark, detFrameSize: (int, int), f: (real, real)): Point
  {
    (Trunc(lm.x * detFrameSize.0 as real * f.0), Trunc(lm.y * detFrameSize.1 as real * f.1))
  }

  /** The pixels of one hand's landmarks, in order. */
  function HandPoints(hand: seq<NormalizedLandmark>, detFrameSize: (int, int), f: (real, real)): (r: seq<Point>)
    ensures |r| == |hand|
    decreases |hand|
  {
    if hand == [] then []
    else HandPoints(hand[..|hand| - 1], detFrameSize, f) + [PixelOf(hand[|hand| - 1], detFrameSize, f)]
  }

  /** The pixels of all hands' landmarks, hand after hand. */
  function AllHandPoints(hands: seq<seq<NormalizedLandmark>>, detFrameSize: (int, int), f: (real, real)): seq<Point>
    decreases |hands|
  {
    if hands == [] then []
    else AllHandPoints(hands[..|hands| - 1], detFrameSize, f) + HandPoints(hands[|hands| - 1], detFrameSize, f)
  }

  /** The label flow of `detection_post_process`: no landmarks leave the
      gesture at `-1` without calling the classifier; otherwise the
      classifier sees `[0, 0]` and the preprocessed landmarks, and an error
      of preprocessing or labelling propagates. */
  function Recognised(landmarks: seq<Point>, classifier: seq<real> -> int): (r: Result<string>)
    ensures landmarks == [] ==> r == Ok("None")
    ensures landmarks != [] && Preprocessed(landmarks).Err? ==> r == Err(Preprocessed(landmarks).error)
    ensures landmarks != [] && Preprocessed(landmarks).Ok? ==>
      r == GestureLabel(classifier(ClassifierInput(Preprocessed(landmarks).value)))
  {
    if landmarks == [] then GestureLabel(-1)
    else
      match Preprocessed(landmarks)
      case Err(e) => Err(e)
      case Ok(p) => GestureLabel(classifier(ClassifierInput(p)))
  }

  /** The inner loop of `detection_post_process`: each landmark of one hand
      appended in pixels, in order. */
  method AppendHandPoints(landmarks: seq<Point>, hand: seq<NormalizedLandmark>, detFrameSize: (int, int), f: (real, real))
    returns (r: seq<Point>)
    ensures r == landmarks + HandPoints(hand, detFrameSize, f)
  {
    r := landmarks;
    var j := 0;
    while j < |hand|
      invariant 0 <= j <= |hand|
      invariant r == landmarks + HandPoints(hand[..j], detFrameSize, f)
    {
      assert hand[..j + 1][..j] == hand[..j];
      r := r + [PixelOf(hand[j], detFrameSize, f)];
      j := j + 1;
    }
    assert hand[..|hand|] == hand;
  }

  /** `MediapipeRecogniser.detection_post_process`: the landmarks of every
      hand in camera pixels, gathered in nested loops, and the gesture label;
      with no hand the result is `([], 'None')`. */
  method RecogniserPostProcess(hands: Option<seq<seq<NormalizedLandmark>>>, detFrameSize: (int, int),
                               f: (real, real), classifier: seq<real> -> int)
    returns (r: Result<(seq<Point>, Labels)>)
    ensures var landmarks := AllHandPoints(if hands.Some? then hands.value else [], detFrameSize, f);
      r == match Recognised(landmarks, classifier)
           case Ok(g) => Ok((landmarks, Gesture(g)))
           case Err(e) => Err(e)
    ensures AllHandPoints(if hands.Some? then hands.value else [], detFrameSize, f) == [] ==>
      r == Ok(([], Gesture("None")))
  {
    var found := if hands.Some? then hands.value else [];
    var landmarks: seq<Point> := [];
    var i := 0;
    while i < |found|
      invariant 0 <= i <= |found|
      invariant landmarks == AllHandPoints(found[..i], detFrameSize, f)
    {
      landmarks := AppendHandPoints(landmarks, found[i], detFrameSize, f);
      assert found[..i + 1][..i] == found[..i];
      i := i + 1;
    }
    assert found[..|found|] == found;

    var gesture := -1;
    if |landmarks| > 0 {
      var processed := PreprocessLandmarks(landmarks);
      if processed.Err? {
        return Err(processed.error);
      }
      gesture := classifier(ClassifierInput(processed.value));
    }
    var name := GestureLabel(gesture);
    if name.Err? {
      return Err(name.error);
    }
    r := Ok((landmarks, Gesture(name.value)));
  }
}
