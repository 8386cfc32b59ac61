/** Bounds of an element and positions of the secondary handles, computed
    from the element and the live body-drag session (if any). */
module Geometry {
  import opened Elements

  /** A body drag in progress: the dragged element's id and the position
      the input layer reports for the dragged node. For a line that
      position is an offset from the origin; for every other type it is
      the new top-left corner. */
  datatype DragSession = DragSession(id: Id, target: Point)

  datatype Box = Box(x: real, y: real, width: real, height: real)

  /** The four rectangle edges that carry a resize handle. */
  datatype Edge = Top | Bottom | Left | Right

  /** Side length of a (square) resize handle; a handle is placed by its
      top-left corner, half a side before the point it marks. */
  const HandleSize: real := 8.0

  /** Blank space kept between a line and its outline on every side. */
  const LineMargin: real := 2.0

  /** Estimated glyph width and line height of text at font size 30. */
  const CharWidth: real := 18.0
  const TextHeight: real := 36.0

  function Min(a: real, b: real): real { if a <= b then a else b }
  function Max(a: real, b: real): real { if a <= b then b else a }
  function Abs(a: real): real { if a < 0.0 then -a else a }

  predicate IsDragged(e: Element, drag: Option<DragSession>) {
    drag.Some? && drag.value.id == e.id
  }

  /** Point p lies in box b at least m away from each side. */
  predicate Encloses(b: Box, p: Point, m: real) {
    b.x + m <= p.x <= b.x + b.width - m && b.y + m <= p.y <= b.y + b.height - m
  }

  /** Where a box-anchored element is shown: at the drag target while it is
      being dragged, else at its stored corner. */
  function LiveCorner(e: Element, drag: Option<DragSession>): Point
    requires !e.Line?
  {
    if IsDragged(e, drag) then drag.value.target else Point(e.x, e.y)
  }

  /** The offset a body drag currently applies to a line's endpoints. */
  function LineOffset(e: Element, drag: Option<DragSession>): Point {
    if IsDragged(e, drag) then drag.value.target else Point(0.0, 0.0)
  }

  function LiveStart(l: Element, drag: Option<DragSession>): Point
    requires l.Line?
  {
    Point(l.x1 + LineOffset(l, drag).x, l.y1 + LineOffset(l, drag).y)
  }

  function LiveEnd(l: Element, drag: Option<DragSession>): Point
    requires l.Line?
  {
    Point(l.x2 + LineOffset(l, drag).x, l.y2 + LineOffset(l, drag).y)
  }

  /** The outline box drawn for hover and selection. */
  function Bounds(e: Element, drag: Option<DragSession>): (b: Box)
    ensures e.Text? ==>
      Point(b.x, b.y) == LiveCorner(e, drag) &&
      b.width == |e.text| as real * CharWidth && b.height == TextHeight
    ensures e.Rectangle? || e.Image? ==>
      b == Box(LiveCorner(e, drag).x, LiveCorner(e, drag).y, e.width, e.height)
    ensures e.Line? ==>
      var s, t := LiveStart(e, drag), LiveEnd(e, drag);
      Encloses(b, s, LineMargin) && Encloses(b, t, LineMargin) &&
      b.width == Abs(t.x - s.x) + 2.0 * LineMargin && b.width >= 2.0 * LineMargin &&
      b.height == Abs(t.y - s.y) + 2.0 * LineMargin && b.height >= 2.0 * LineMargin
  {
    match e
    case Text(_, _, _, _, _, _, _) =>
      var c := LiveCorner(e, drag);
      Box(c.x, c.y, |e.text| as real * CharWidth, TextHeight)
    case Rectangle(_, _, _, _, _, _, _, _, _) =>
      var c := LiveCorner(e, drag);
      Box(c.x, c.y, e.width, e.height)
    case Line(_, _, _, _, _, _, _, _) =>
      var off := LineOffset(e, drag);
      var nx1, ny1, nx2, ny2 := e.x1 + off.x, e.y1 + off.y, e.x2 + off.x, e.y2 + off.y;
      var minX, maxX := Min(nx1, nx2), Max(nx1, nx2);
      var minY, maxY := Min(ny1, ny2), Max(ny1, ny2);
      Box(minX - 2.0, minY - 2.0, maxX - minX + 4.0, maxY - minY + 4.0)
    case Image(_, _, _, _, _, _, _, _, _, _) =>
      var c := LiveCorner(e, drag);
      Box(c.x, c.y, e.width, e.height)
  }

  /** Centre of a line endpoint handle (a circle), following a body drag. */
  function LineHandle(l: Element, drag: Option<DragSession>, isStart: bool): (p: Point)
    requires l.Line?
    ensures p == if isStart then LiveStart(l, drag) else LiveEnd(l, drag)
    ensures Encloses(Bounds(l, drag), p, LineMargin)
  {
    if isStart then
      Point(if IsDragged(l, drag) then l.x1 + drag.value.target.x else l.x1,
            if IsDragged(l, drag) then l.y1 + drag.value.target.y else l.y1)
    else
      Point(if IsDragged(l, drag) then l.x2 + drag.value.target.x else l.x2,
            if IsDragged(l, drag) then l.y2 + drag.value.target.y else l.y2)
  }

  /** Top-left corner of a rectangle's edge handle, following a body drag:
      the handle's centre is the midpoint of its edge of the outline box. */
  function EdgeHandle(r: Element, drag: Option<DragSession>, edge: Edge): (p: Point)
    requires r.Rectangle?
    ensures
      var b, c := Bounds(r, drag), Point(p.x + HandleSize / 2.0, p.y + HandleSize / 2.0);
      match edge
      case Top => c == Point(b.x + b.width / 2.0, b.y)
      case Bottom => c == Point(b.x + b.width / 2.0, b.y + b.height)
      case Left => c == Point(b.x, b.y + b.height / 2.0)
      case Right => c == Point(b.x + b.width, b.y + b.height / 2.0)
  {
    var cx := if IsDragged(r, drag) then drag.value.target.x else r.x;
    var cy := if IsDragged(r, drag) then drag.value.target.y else r.y;
    match edge
    case Top => Point(cx + r.width / 2.0 - 4.0, cy - 4.0)
    case Bottom => Point(cx + r.width / 2.0 - 4.0, cy + r.height - 4.0)
    case Left => Point(cx - 4.0, cy + r.height / 2.0 - 4.0)
    case Right => Point(cx + r.width - 4.0, cy + r.height / 2.0 - 4.0)
  }
}
