/** The `CGPoint` arithmetic the shape geometry is written in: scaling by a
    scalar from either side and component-wise addition and subtraction.
    Coordinates are exact reals; `CGFloat` rounding is not modelled. */
module Points {

  datatype Point = Point(x: real, y: real)

  /** `CGPoint.zero`. */
  const Zero: Point := Point(0.0, 0.0)

  /** `point * scalar`: both coordinates scaled by the same factor (its laws
      are `ScaleLaws`). */
  function Scale(p: Point, k: real): Point
  {
    Point(p.x * k, p.y * k)
  }

  /** `scalar * point`: the operand order is flipped, the result is not. */
  function ScaleLeft(k: real, p: Point): (r: Point)
    ensures r == Scale(p, k)
  {
    Point(p.x * k, p.y * k)
  }

  /** `left - right`, coordinate by coordinate. */
  function Sub(p: Point, q: Point): Point
  {
    Point(p.x - q.x, p.y - q.y)
  }

  /** `left + right`, coordinate by coordinate (undone by `Sub`, see
      `AddSubInverse`). */
  function Add(p: Point, q: Point): Point
  {
    Point(p.x + q.x, p.y + q.y)
  }

  /** Subtraction undoes addition and the other way round, and `Zero` is the
      unit of both; so `Sub(q, p)` is the unique offset that carries `p` to `q`. */
  lemma AddSubInverse(p: Point, q: Point)
    ensures Sub(Add(p, q), q) == p
    ensures Add(Sub(p, q), q) == p
    ensures Add(p, Sub(q, p)) == q
    ensures Add(p, Zero) == p && Sub(p, Zero) == p
  {
  }

  /** Scaling distributes over the component-wise operations, and scaling
      twice multiplies the factors. */
  lemma ScaleLaws(p: Point, q: Point, j: real, k: real)
    ensures Scale(Add(p, q), k) == Add(Scale(p, k), Scale(q, k))
    ensures Scale(Sub(p, q), k) == Sub(Scale(p, k), Scale(q, k))
    ensures Scale(Scale(p, j), k) == Scale(p, j * k)
    ensures Add(Scale(p, j), Scale(p, k)) == Scale(p, j + k)
    ensures Scale(p, 1.0) == p && Scale(p, 0.0) == Zero
  {
  }

  /** Flipping the operands of a difference negates it, so scaling either
      difference by `-k` gives the other one scaled by `k`. */
  lemma SubAntisymmetric(p: Point, q: Point, k: real)
    ensures Sub(p, q) == Scale(Sub(q, p), -1.0)
    ensures Scale(Sub(p, q), -k) == Scale(Sub(q, p), k)
  {
  }
}
