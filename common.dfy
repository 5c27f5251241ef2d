/** Definitions shared by every part of the tracking robot's model: the
    exceptions the Python code can raise, Python's `int()` on a float, and the
    `(x, y, w, h)` bounding box that detectors publish and the controller
    consumes. */
module Common {

  /** The Python exceptions the modelled code can raise without catching. */
  datatype Error =
    | ZeroDivisionError   // `a / 0`
    | ValueError          // `max([])`
    | IndexError          // a list index past its end

  /** The outcome of an operation that may raise. */
  datatype Result<T> = Ok(value: T) | Err(error: Error)

  /** A value or Python's `None`. */
  datatype Option<T> = None | Some(value: T)

  /** An axis-aligned box `(x, y, w, h)` in pixel coordinates. */
  datatype Box = Box(x: int, y: int, w: int, h: int)

  function Abs(r: real): real
  {
    if r < 0.0 then -r else r
  }

  /** Python's `int(r)` on a finite float: truncation toward zero. */
  function Trunc(r: real): int
  {
    if r >= 0.0 then r.Floor else -((-r).Floor)
  }

  /** `int()` keeps the sign and moves toward zero by less than one. */
  lemma TruncBounds(r: real)
    ensures r >= 0.0 ==> Trunc(r) >= 0 && Trunc(r) as real <= r < Trunc(r) as real + 1.0
    ensures r < 0.0 ==> Trunc(r) <= 0 && Trunc(r) as real - 1.0 < r <= Trunc(r) as real
  {
  }
}
