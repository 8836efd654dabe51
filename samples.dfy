/** The value types shared by the capture path and the display: one sample
    pair (a QPointF holding the reference and effect amplitudes) and the
    history length of the capture ring. */
module Samples {

  /** One instant's (reference, effect) pair. The source stores it as a
      QPointF; the model idealises its coordinates as real numbers. */
  datatype Point = Point(x: real, y: real)

  /** A value-initialised QPointF: both coordinates zero. */
  const Origin: Point := Point(0.0, 0.0)

  /** Number of pairs kept in the capture ring and in the snapshot. */
  const MemSize: nat := 64 * 1024

  /** A buffer of `n` value-initialised pairs, as `std::vector::resize` leaves it. */
  function Zeros(n: nat): (s: seq<Point>)
    ensures |s| == n
    ensures forall k | 0 <= k < n :: s[k] == Origin
  {
    seq(n, _ => Origin)
  }
}
