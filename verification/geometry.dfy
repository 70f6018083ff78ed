/** The direction function `Math.toDegrees(atan2(dy, dx))`, taken as a parameter
    rather than computed. A `Heading` is any function with the properties
    `atan2` has in exact arithmetic that the rule chains depend on: its values
    lie in (-180, 180], opposite directions differ by exactly 180, and
    reflecting a direction left-to-right (negating dx) turns h into 180 - h
    for directions in the lower half-plane (dy >= 0, image y grows downwards)
    and into -180 - h otherwise. */
module Geometry {

  function Abs(v: real): (r: real)
    ensures r >= 0.0 && (r == v || r == -v)
  {
    if v < 0.0 then -v else v
  }

  /** The non-zero offsets (dy1, dx1) and (dy2, dx2) point in opposite directions. */
  predicate Opposite(dy1: real, dx1: real, dy2: real, dx2: real)
  {
    dy1 * dx2 == dx1 * dy2 && dy1 * dy2 + dx1 * dx2 < 0.0
  }

  /** What negating dx does to a heading of a non-zero offset. */
  function ReflectionSum(dy: real): real
  {
    if dy < 0.0 then -180.0 else 180.0
  }

  ghost predicate IsHeading(h: (real, real) -> real)
  {
    && (forall dy, dx :: -180.0 < h(dy, dx) <= 180.0)
    && (forall dy1, dx1, dy2, dx2 {:trigger Opposite(dy1, dx1, dy2, dx2)} ::
          Opposite(dy1, dx1, dy2, dx2) ==> Abs(h(dy1, dx1) - h(dy2, dx2)) == 180.0)
    && (forall dy, dx1, dx2 {:trigger h(dy, dx1), h(dy, dx2)} ::
          dx2 == -dx1 && (dy != 0.0 || dx1 != 0.0) ==> h(dy, dx1) + h(dy, dx2) == ReflectionSum(dy))
  }

  /** A heading rounded to the nearest of the four axis directions; it shows
      that the properties asked of a heading can all be met. */
  function AxisHeading(dy: real, dx: real): real
  {
    if dy > 0.0 then 90.0
    else if dy < 0.0 then -90.0
    else if dx < 0.0 then 180.0
    else 0.0
  }

  lemma AxisHeadingIsHeading()
    ensures IsHeading(AxisHeading)
  {
    forall dy1, dx1, dy2, dx2 | Opposite(dy1, dx1, dy2, dx2)
      ensures Abs(AxisHeading(dy1, dx1) - AxisHeading(dy2, dx2)) == 180.0
    {
      assert dy1 * (dy1 * dy2 + dx1 * dx2) == dy2 * (dy1 * dy1 + dx1 * dx1);
      if dy1 == 0.0 {
        assert dx1 * dx2 < 0.0;
        assert dy2 == 0.0;
      } else {
        assert dy1 * dy1 > 0.0;
      }
    }
  }

  type Heading = h: (real, real) -> real | IsHeading(h)
    ghost witness (AxisHeadingIsHeading(); AxisHeading)

  /** Every heading lies in (-180, 180]. */
  lemma HeadingInRange(h: Heading, dy: real, dx: real)
    ensures -180.0 < h(dy, dx) <= 180.0
  {
  }

  /** Offsets in opposite directions have headings exactly 180 apart. */
  lemma OppositeHeadings(h: Heading, dy1: real, dx1: real, dy2: real, dx2: real)
    requires Opposite(dy1, dx1, dy2, dx2)
    ensures h(dy1, dx1) - h(dy2, dx2) == 180.0 || h(dy2, dx2) - h(dy1, dx1) == 180.0
  {
    assert Abs(h(dy1, dx1) - h(dy2, dx2)) == 180.0;
  }
}
