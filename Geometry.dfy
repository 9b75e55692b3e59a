/** Zoom and the mapping between canvas pixels and page coordinates.

    The zoom level moves from 1.0 in steps of 0.25 between 0.5 and 3.0.
    Every such value is an exact binary fraction, so it is kept here as a
    whole number of quarters; `ZoomLevel` gives back the level itself and
    the guards compare that level, as the inspector does. Pages are
    rendered at twice the zoom level. Coordinates are exact reals: rounding
    of floating point is not modelled, but Python's `int()` truncation
    when marks are drawn is. */
module Geometry {

  /** Zoom levels, in quarters: 1.0, 0.5 and 3.0. */
  const InitialZoom: int := 4
  const MinZoom: int := 2
  const MaxZoom: int := 12

  /** Pages are rendered at `RenderScale * zoom` pixels per page unit. */
  const RenderScale: real := 2.0

  /** The radius of a drawn mark at zoom 1.0. */
  const MarkRadius: real := 15.0

  function ZoomLevel(quarters: int): real
  {
    quarters as real / 4.0
  }

  /** The zoom after the zoom-in button: one quarter more while below 3.0. */
  function ZoomedIn(quarters: int): (r: int)
    ensures r == quarters + 1 <==> quarters < MaxZoom
    ensures r == quarters <==> quarters >= MaxZoom
  {
    if ZoomLevel(quarters) < 3.0 then quarters + 1 else quarters
  }

  /** The zoom after the zoom-out button: one quarter less while above 0.5. */
  function ZoomedOut(quarters: int): (r: int)
    ensures r == quarters - 1 <==> quarters > MinZoom
    ensures r == quarters <==> quarters <= MinZoom
  {
    if ZoomLevel(quarters) > 0.5 then quarters - 1 else quarters
  }

  /** Both buttons keep the zoom within [0.5, 3.0]. */
  lemma ZoomStepsStayInRange(quarters: int)
    requires MinZoom <= quarters <= MaxZoom
    ensures MinZoom <= ZoomedIn(quarters) <= MaxZoom
    ensures MinZoom <= ZoomedOut(quarters) <= MaxZoom
  {
  }

  /** Zooming out undoes zooming in, and the other way round, away from the
      ends of the range. */
  lemma ZoomStepsAreInverse(quarters: int)
    requires MinZoom <= quarters <= MaxZoom
    ensures quarters < MaxZoom ==> ZoomedOut(ZoomedIn(quarters)) == quarters
    ensures quarters > MinZoom ==> ZoomedIn(ZoomedOut(quarters)) == quarters
  {
  }

  /** Python's `int()` on a real: truncation toward zero. */
  function Trunc(v: real): (t: int)
    ensures 0.0 <= v ==> 0 <= t && t as real <= v < t as real + 1.0
    ensures v < 0.0 ==> t <= 0 && t as real - 1.0 < v <= t as real
  {
    if v >= 0.0 then v.Floor else -((-v).Floor)
  }

  /** A canvas coordinate of a click, as a page coordinate (the division by
      twice the zoom level in the click handlers). */
  function CanvasToPage(c: real, quarters: int): (p: real)
    requires quarters > 0
    ensures p * (RenderScale * ZoomLevel(quarters)) == c
  {
    c / (RenderScale * ZoomLevel(quarters))
  }

  /** A page coordinate, as the canvas pixel a mark is drawn at: the
      coordinate scaled by twice the zoom level, truncated toward zero. */
  function PageToPixel(p: real, quarters: int): (px: int)
    ensures var v := p * (RenderScale * ZoomLevel(quarters));
      && (0.0 <= v ==> 0 <= px && px as real <= v < px as real + 1.0)
      && (v < 0.0 ==> px <= 0 && px as real - 1.0 < v <= px as real)
  {
    Trunc(p * ZoomLevel(quarters) * RenderScale)
  }

  /** The pixel radius of a drawn mark, `int(15 * zoom)`. */
  function MarkSize(quarters: int): (size: int)
    requires quarters >= 0
    ensures size == (15 * quarters) / 4
  {
    var v := MarkRadius * ZoomLevel(quarters);
    var n := 15 * quarters;
    assert v == (n / 4) as real + (n % 4) as real / 4.0;
    Trunc(v)
  }

  /** A mark placed by a click at a whole canvas pixel is drawn back at that
      very pixel while the zoom stays the same. */
  lemma DrawnWhereClicked(c: int, quarters: int)
    requires quarters > 0
    ensures PageToPixel(CanvasToPage(c as real, quarters), quarters) == c
  {
    var p := CanvasToPage(c as real, quarters);
    assert p * ZoomLevel(quarters) * RenderScale == c as real;
  }

  /** After a change of zoom, a mark made at canvas pixel `c` is drawn at
      `c` scaled by the ratio of the new zoom to the old one. */
  lemma DrawnScaledByZoom(c: real, clicked: int, shown: int)
    requires clicked > 0
    ensures PageToPixel(CanvasToPage(c, clicked), shown) == Trunc(c * shown as real / clicked as real)
  {
    var p := CanvasToPage(c, clicked);
    assert p == c * 2.0 / clicked as real;
    assert p * ZoomLevel(shown) * RenderScale == c * shown as real / clicked as real;
  }
}
