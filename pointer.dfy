/**
 * Pointer input shared by the drawing components: the points a mouse or
 * touch event carries, the canvas element's bounding rectangle, and the rule
 * for which touch point a touch event is read from.
 */
module Pointer {
  import opened Wrappers

  /** A position in CSS pixels (client or offset coordinates) or in canvas
      pixels. Browser coordinates are doubles; they are modelled as reals. */
  datatype Point = Point(x: real, y: real)

  /** The canvas element's `getBoundingClientRect()`. */
  datatype ClientRect = ClientRect(left: real, top: real, width: real, height: real)

  /** A pointer event as the handlers read it. A mouse event carries its
      client position and its offset from the target (`nativeEvent.offsetX/Y`);
      a touch event carries its active touches and its changed touches, each
      as client positions, and has no client position of its own. */
  datatype PointerEvent =
    | Mouse(client: Point, offset: Point)
    | Touch(touches: seq<Point>, changedTouches: seq<Point>)

  /** The touch point a touch handler reads: the first active touch, else the
      first changed touch (a `touchend` has no active touches left), else
      none at all. */
  function TouchPoint(touches: seq<Point>, changedTouches: seq<Point>): (r: Option<Point>)
    ensures r.None? <==> |touches| == 0 && |changedTouches| == 0
    ensures |touches| > 0 ==> r == Some(touches[0])
    ensures |touches| == 0 && |changedTouches| > 0 ==> r == Some(changedTouches[0])
  {
    if |touches| > 0 then Some(touches[0])
    else if |changedTouches| > 0 then Some(changedTouches[0])
    else None
  }
}
