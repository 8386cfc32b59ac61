/** The pure half of the drag/resize engine: the element a placement
    creates, the patches a body drag and an endpoint drag commit, and one
    step of the rectangle edge-resize state machine. */
module Interaction {
  import opened Elements
  import opened Geometry

  /** Defaults of a newly placed element. */
  const DefaultText: string := "Sample Text"
  const DefaultStartTime: real := 0.0
  const DefaultEndTime: real := 10.0

  /** A rectangle edge drag never commits a height or width at or below
      this value. */
  const MinSize: real := 5.0

  /** The element a stage click creates with tool `t` at `at`; None when
      the image tool is active but no upload is staged. */
  function Placement(t: ElementType, at: Point, id: Id, upload: Option<Upload>): (n: Option<Element>)
    ensures n.Some? <==> (t != ImageType || upload.Some?)
    ensures n.Some? ==>
      n.value.id == id && n.value.Kind() == t && Anchor(n.value) == at &&
      n.value.startTime == DefaultStartTime && n.value.endTime == DefaultEndTime
    ensures n.Some? && t == TextType ==> n.value.text == DefaultText && n.value.alignment == AlignLeft
    ensures n.Some? && t == RectangleType ==>
      n.value.width == 100.0 && n.value.height == 50.0 &&
      n.value.cornerRadius == 0.0 && n.value.borderWidth == 1.0
    ensures n.Some? && t == LineType ==>
      n.value.x2 - n.value.x1 == 50.0 && n.value.y2 - n.value.y1 == 50.0 && n.value.width == 2.0
    ensures n.Some? && t == ImageType ==>
      var u := upload.value;
      n.value.src == Some(u.src) && n.value.width == u.width && n.value.height == u.height &&
      n.value.filename == u.filename && n.value.filepath == u.filepath
  {
    match t
    case TextType =>
      Some(Text(id, 0.0, 10.0, at.x, at.y, "Sample Text", AlignLeft))
    case RectangleType =>
      Some(Rectangle(id, 0.0, 10.0, at.x, at.y, 100.0, 50.0, 0.0, 1.0))
    case LineType =>
      Some(Line(id, 0.0, 10.0, at.x, at.y, at.x + 50.0, at.y + 50.0, 2.0))
    case ImageType =>
      if upload.Some? then
        var u := upload.value;
        Some(Image(id, 0.0, 10.0, at.x, at.y, u.width, u.height, Some(u.src), u.filename, u.filepath))
      else None
  }

  /** What a body drag commits when it ends at `endPos`: a line treats the
      position as an offset added to both endpoints, every other type takes
      it as its new top-left corner. */
  function DragEndPatch(e: Element, endPos: Point): (p: Patch)
    ensures var m := Merge(e, p);
      e.Line? ==>
        m.x1 == e.x1 + endPos.x && m.y1 == e.y1 + endPos.y &&
        m.x2 - m.x1 == e.x2 - e.x1 && m.y2 - m.y1 == e.y2 - e.y1 &&
        m == e.(x1 := m.x1, y1 := m.y1, x2 := m.x2, y2 := m.y2)
    ensures var m := Merge(e, p);
      !e.Line? ==> Anchor(m) == endPos && !m.Line? && m == e.(x := endPos.x, y := endPos.y)
  {
    if e.Line? then
      NoChange.(x1 := Some(e.x1 + endPos.x), y1 := Some(e.y1 + endPos.y),
                x2 := Some(e.x2 + endPos.x), y2 := Some(e.y2 + endPos.y))
    else
      NoChange.(x := Some(endPos.x), y := Some(endPos.y))
  }

  /** Where the dragged node is left after a body drag ends: at rest for
      the committed element. A line's node goes back to the origin, so that
      its next drag again reports an offset from the line's committed
      coordinates; any other node stays on the committed corner. */
  function DragEndTarget(e: Element, endPos: Point): (t: Point)
    ensures t == NodeAtRest(Merge(e, DragEndPatch(e, endPos)))
    ensures e.Line? ==> t == Point(0.0, 0.0)
  {
    if e.Line? then Point(0.0, 0.0) else endPos
  }

  /** Where an element's dragged node sits between drags: a line's node at
      the origin (its endpoints carry the coordinates), any other node at
      the element's corner. */
  function NodeAtRest(e: Element): Point {
    if e.Line? then Point(0.0, 0.0) else Anchor(e)
  }

  /** Ending a drag does not make the outline jump: the committed element,
      with the session closed or with its node where the drag end leaves
      it, has the outline the live drag showed at the end position. */
  lemma DragEndKeepsOutline(e: Element, endPos: Point)
    ensures var m := Merge(e, DragEndPatch(e, endPos));
      Bounds(m, None) == Bounds(e, Some(DragSession(e.id, endPos))) &&
      Bounds(m, Some(DragSession(e.id, DragEndTarget(e, endPos)))) == Bounds(e, Some(DragSession(e.id, endPos)))
  {
  }

  /** Two successive body drags, in which the pointer moves the node by
      `m1` and then by `m2` from where the previous drag left it, move the
      element by `m1 + m2`: a line's two endpoints both, any other element's
      corner. Offsets never compound. */
  lemma DragsCompose(e: Element, m1: Point, m2: Point)
    ensures var start := NodeAtRest(e);
      var end1 := Point(start.x + m1.x, start.y + m1.y);
      var once := Merge(e, DragEndPatch(e, end1));
      var node := DragEndTarget(e, end1);
      var end2 := Point(node.x + m2.x, node.y + m2.y);
      var twice := Merge(once, DragEndPatch(once, end2));
      (e.Line? ==>
         twice == e.(x1 := e.x1 + (m1.x + m2.x), y1 := e.y1 + (m1.y + m2.y),
                     x2 := e.x2 + (m1.x + m2.x), y2 := e.y2 + (m1.y + m2.y))) &&
      (!e.Line? ==> twice == e.(x := e.x + (m1.x + m2.x), y := e.y + (m1.y + m2.y)))
  {
  }

  /** What dragging a line endpoint handle to `pos` commits. */
  function EndpointPatch(isStart: bool, pos: Point): (p: Patch)
    ensures forall l: Element {:trigger Merge(l, p)} :: l.Line? ==>
      Merge(l, p) == if isStart then l.(x1 := pos.x, y1 := pos.y) else l.(x2 := pos.x, y2 := pos.y)
  {
    if isStart then NoChange.(x1 := Some(pos.x), y1 := Some(pos.y))
    else NoChange.(x2 := Some(pos.x), y2 := Some(pos.y))
  }

  /** The outcome of one edge-handle move: the patch to commit (None when
      the resize is rejected) and where the handle node is put back. */
  datatype ResizeStep = ResizeStep(commit: Option<Patch>, handle: Point)

  /** The size the dragged edge would give the rectangle. */
  function ProposedSize(r: Element, edge: Edge, pos: Point): real
    requires r.Rectangle?
  {
    match edge
    case Top => r.height + (r.y - pos.y)
    case Bottom => pos.y - r.y
    case Left => r.width + (r.x - pos.x)
    case Right => pos.x - r.x
  }

  /** Rectangle `r` with its box replaced and every other field kept. */
  function WithBox(r: Element, x: real, y: real, width: real, height: real): Element
    requires r.Rectangle?
  {
    Rectangle(r.id, r.startTime, r.endTime, x, y, width, height, r.cornerRadius, r.borderWidth)
  }

  /** One move of an edge handle of rectangle `r` to `pos`. */
  function EdgeDrag(r: Element, edge: Edge, pos: Point): (s: ResizeStep)
    requires r.Rectangle?
    ensures s.commit.Some? <==> ProposedSize(r, edge, pos) > MinSize
    ensures s.commit.Some? ==>
      var m := Merge(r, s.commit.value);
      match edge
      case Top => m == WithBox(r, r.x, pos.y, r.width, m.height) && m.height > MinSize &&
                  m.y + m.height == r.y + r.height
      case Bottom => m == WithBox(r, r.x, r.y, r.width, m.height) && m.height > MinSize &&
                     m.y + m.height == pos.y
      case Left => m == WithBox(r, pos.x, r.y, m.width, r.height) && m.width > MinSize &&
                   m.x + m.width == r.x + r.width
      case Right => m == WithBox(r, r.x, r.y, m.width, r.height) && m.width > MinSize &&
                    m.x + m.width == pos.x
    ensures match edge
      case Top => s.handle == Point(r.x + r.width / 2.0,
                                    if s.commit.Some? then pos.y else r.y + r.height - MinSize)
      case Bottom => s.handle == Point(r.x + r.width / 2.0,
                                       if s.commit.Some? then pos.y else r.y + MinSize)
      case Left => s.handle == Point(if s.commit.Some? then pos.x else r.x + r.width - MinSize,
                                     r.y + r.height / 2.0)
      case Right => s.handle == Point(if s.commit.Some? then pos.x else r.x + MinSize,
                                      r.y + r.height / 2.0)
  {
    match edge
    case Top =>
      var newHeight := r.height + (r.y - pos.y);
      var constrainedY := if newHeight > 5.0 then pos.y else r.y - (5.0 - r.height);
      ResizeStep(if newHeight > 5.0 then Some(NoChange.(y := Some(pos.y), height := Some(newHeight))) else None,
                 Point(r.x + r.width / 2.0, constrainedY))
    case Bottom =>
      var bottomHeight := pos.y - r.y;
      var constrainedY := if bottomHeight > 5.0 then pos.y else r.y + 5.0;
      ResizeStep(if bottomHeight > 5.0 then Some(NoChange.(height := Some(bottomHeight))) else None,
                 Point(r.x + r.width / 2.0, constrainedY))
    case Left =>
      var newWidth := r.width + (r.x - pos.x);
      var constrainedX := if newWidth > 5.0 then pos.x else r.x - (5.0 - r.width);
      ResizeStep(if newWidth > 5.0 then Some(NoChange.(x := Some(pos.x), width := Some(newWidth))) else None,
                 Point(constrainedX, r.y + r.height / 2.0))
    case Right =>
      var rightWidth := pos.x - r.x;
      var constrainedX := if rightWidth > 5.0 then pos.x else r.x + 5.0;
      ResizeStep(if rightWidth > 5.0 then Some(NoChange.(width := Some(rightWidth))) else None,
                 Point(constrainedX, r.y + r.height / 2.0))
  }

  /** A drag-move event that reports an edge handle at the position where
      it is drawn still moves its edge: the handle is drawn by its top-left
      corner, half a side before the edge, while a move reads the reported
      position as the edge itself. So the top and left edges move out by half a side and the
      bottom and right edges move in by half a side, as far as the floor
      allows. */
  lemma HandleAtRestShiftsEdge(r: Element, edge: Edge)
    requires r.Rectangle?
    ensures var h := HandleSize / 2.0;
      var f := Apply(r, EdgeDrag(r, edge, EdgeHandle(r, None, edge)));
      match edge
      case Top => f == if r.height + h > MinSize then WithBox(r, r.x, r.y - h, r.width, r.height + h) else r
      case Bottom => f == if r.height - h > MinSize then WithBox(r, r.x, r.y, r.width, r.height - h) else r
      case Left => f == if r.width + h > MinSize then WithBox(r, r.x - h, r.y, r.width + h, r.height) else r
      case Right => f == if r.width - h > MinSize then WithBox(r, r.x, r.y, r.width - h, r.height) else r
  {
  }

  /** The rectangle after a step: merged with the commit, or as it was. */
  function Apply(r: Element, s: ResizeStep): Element {
    if s.commit.Some? then Merge(r, s.commit.value) else r
  }

  /** A pointer event delivered to an edge handle. */
  datatype EdgeMove = EdgeMove(edge: Edge, pos: Point)

  /** The selected rectangle after a series of edge-handle moves, each
      applied to the copy the previous one left. */
  function ResizeSeries(r: Element, moves: seq<EdgeMove>): (f: Element)
    requires r.Rectangle?
    ensures f.Rectangle? && f.id == r.id
    decreases |moves|
  {
    if moves == [] then r
    else ResizeSeries(Apply(r, EdgeDrag(r, moves[0].edge, moves[0].pos)), moves[1..])
  }

  /** Whatever the series of moves, each dimension either keeps its initial
      value or was last set by a commit, so it is above the floor; nothing
      but the box changes. */
  lemma {:induction false} ResizeSeriesRespectsFloor(r: Element, moves: seq<EdgeMove>)
    requires r.Rectangle?
    ensures var f := ResizeSeries(r, moves);
      (f.width == r.width || f.width > MinSize) &&
      (f.height == r.height || f.height > MinSize) &&
      f.cornerRadius == r.cornerRadius && f.borderWidth == r.borderWidth &&
      f.startTime == r.startTime && f.endTime == r.endTime
    decreases |moves|
  {
    if moves != [] {
      var next := Apply(r, EdgeDrag(r, moves[0].edge, moves[0].pos));
      ResizeSeriesRespectsFloor(next, moves[1..]);
    }
  }

  /** A rectangle that starts above the floor stays above it. */
  lemma ResizeSeriesKeepsMinimum(r: Element, moves: seq<EdgeMove>)
    requires r.Rectangle? && r.width > MinSize && r.height > MinSize
    ensures ResizeSeries(r, moves).width > MinSize && ResizeSeries(r, moves).height > MinSize
  {
    ResizeSeriesRespectsFloor(r, moves);
  }
}
