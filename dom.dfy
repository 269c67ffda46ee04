/**
  * The browser records the engine reads: points, rectangles and the payloads of
  * mouse, wheel, touch and gesture events, reduced to the fields the core uses.
  */
module Dom {
  import opened Wrappers

  /** A pair of coordinates, `[number, number]` in the source. */
  datatype Point = Point(x: real, y: real)

  /**
    * A rectangle `{ x, y, width, height }` (a DOMRect or the engine's own
    * `Bounds`). As for a DOMRect, `left` and `top` are the smaller edges.
    */
  datatype Bounds = Bounds(x: real, y: real, width: real, height: real) {

    function Left(): (l: real)
      ensures width >= 0.0 ==> l == x
      ensures l <= x && l <= x + width
    {
      if width < 0.0 then x + width else x
    }

    function Top(): (t: real)
      ensures height >= 0.0 ==> t == y
      ensures t <= y && t <= y + height
    {
      if height < 0.0 then y + height else y
    }
  }

  /** `MouseEvent`: only the pointer position is read. */
  datatype MouseEvent = MouseEvent(client: Point)

  /**
    * `WheelEvent`: deltas, `deltaMode` (0 pixel, 1 line, 2 page), the zoom
    * modifier and the legacy `wheelDeltaY` field, absent on some browsers.
    */
  datatype WheelEvent = WheelEvent(
    client: Point,
    deltaX: real,
    deltaY: real,
    deltaMode: int,
    ctrlKey: bool,
    wheelDeltaY: Option<real>)

  /** `TouchEvent`: the client positions of the touches still on the surface. */
  datatype TouchEvent = TouchEvent(touches: seq<Point>)

  /** A native (Safari) gesture event: its position and rotation in degrees. */
  datatype GestureEvent = GestureEvent(client: Point, rotation: real)
}
