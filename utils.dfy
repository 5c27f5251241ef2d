/** `calculate_middle_xywh` (`trackstormsbot/utils.py`): the integer centre
    of a detection box, which the controller receives as the detection
    middle. Python's `//` by 2 floors, which for a positive divisor agrees
    with Dafny's Euclidean `/`. */
module Utils {
  import opened Common

  /** `(x + w // 2, y + h // 2)`. For a box of non-negative size the middle
      lies inside the box, at most half a pixel left of and above the exact
      centre. */
  function CalculateMiddleXywh(detection: Box): (middle: (int, int))
    ensures detection.w >= 0 ==> detection.x <= middle.0 <= detection.x + detection.w
    ensures detection.h >= 0 ==> detection.y <= middle.1 <= detection.y + detection.h
    ensures 2 * (middle.0 - detection.x) == (if detection.w % 2 == 0 then detection.w else detection.w - 1)
    ensures 2 * (middle.1 - detection.y) == (if detection.h % 2 == 0 then detection.h else detection.h - 1)
  {
    (detection.x + FloorDiv2(detection.w), detection.y + FloorDiv2(detection.h))
  }

  /** Python's `n // 2`: the largest integer q with 2 * q <= n. */
  function FloorDiv2(n: int): (q: int)
    ensures 2 * q <= n < 2 * q + 2
  {
    n / 2
  }

  /** Shifting the box shifts the middle by the same amount on that axis
      only: the horizontal middle depends on x and w alone, the vertical
      one on y and h alone. */
  lemma MiddleTranslates(detection: Box, dx: int, dy: int)
    ensures var moved := CalculateMiddleXywh(detection.(x := detection.x + dx, y := detection.y + dy));
      moved == (CalculateMiddleXywh(detection).0 + dx, CalculateMiddleXywh(detection).1 + dy)
    ensures CalculateMiddleXywh(detection.(y := 0, h := 0)).0 == CalculateMiddleXywh(detection).0
    ensures CalculateMiddleXywh(detection.(x := 0, w := 0)).1 == CalculateMiddleXywh(detection).1
  {
  }

  /** The middle of the box (10, 20, 7, 8) is (13, 24), and that of
      (5, 5, -3, 0) is (3, 5), as Python's floor division gives. */
  lemma MiddleExamples()
    ensures CalculateMiddleXywh(Box(10, 20, 7, 8)) == (13, 24)
    ensures CalculateMiddleXywh(Box(5, 5, -3, 0)) == (3, 5)
  {
  }
}
