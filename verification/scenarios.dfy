/** Client of the editor: a rectangle resize, a line endpoint and body
    drag, an import, and a placement undone by a delete, checked against
    the handlers' contracts alone. */
module Scenarios {
  import opened Elements
  import opened Geometry
  import opened Interaction
  import opened Interchange
  import opened EditorState

  /** Place a rectangle at (50,50); a right-edge drag to x = 500 commits
      width 450, one to x = 52 is rejected; deleting it empties the scene. */
  method RectangleScenario() {
    var ed := new Editor();
    ed.ToggleTool(RectangleType);
    ed.StageClick(Some(Point(50.0, 50.0)));
    assert |ed.elements| == 1 && ed.tool == None;
    var r := ed.elements[0];
    assert r.Rectangle? && r.x == 50.0 && r.width == 100.0 && ed.selected == Some(r);

    var handle := ed.RectangleEdgeDrag(r, Right, Point(500.0, 70.0));
    assert ed.elements[0] == Merge(r, EdgeDrag(r, Right, Point(500.0, 70.0)).commit.value);
    assert ed.elements[0].width == 450.0 && ed.elements[0].x == 50.0;
    assert handle == Point(500.0, 75.0);

    var before := ed.elements;
    handle := ed.RectangleEdgeDrag(r, Right, Point(52.0, 70.0));
    assert ed.elements == before && ed.elements[0].width == 450.0;
    assert handle == Point(55.0, 75.0);

    ed.DeleteElement(r.id);
    assert ed.elements == [] && ed.selected == None;
  }

  /** Drag the end handle of a line from (60,60) to (100,100): only the end
      point moves. Then a body drag by (5,-5) moves both ends. */
  method LineScenario() {
    var ed := new Editor();
    ed.ToggleTool(LineType);
    ed.StageClick(Some(Point(10.0, 10.0)));
    var l := ed.elements[0];
    assert l.Line? && l.x1 == 10.0 && l.y1 == 10.0 && l.x2 == 60.0 && l.y2 == 60.0;

    ed.LineEndpointDrag(l, false, Point(100.0, 100.0));
    var l2 := ed.elements[0];
    assert l2 == Merge(l, EndpointPatch(false, Point(100.0, 100.0)));
    assert l2.x1 == 10.0 && l2.y1 == 10.0 && l2.x2 == 100.0 && l2.y2 == 100.0;
    assert ed.selected == Some(l2);

    ed.DragStart(l2, Point(0.0, 0.0));
    ed.DragMove(l2, Point(5.0, -5.0));
    assert Bounds(l2, ed.dragged) == Box(13.0, 3.0, 94.0, 94.0);
    var target := ed.DragEnd(l2, Point(5.0, -5.0));
    assert target == Point(0.0, 0.0) && ed.dragged == None;
    assert ed.elements[0] == Merge(l2, DragEndPatch(l2, Point(5.0, -5.0)));
    assert ed.elements[0].x1 == 15.0 && ed.elements[0].y2 == 95.0;
  }

  /** Importing one image record with no size gives a 100 x 100 image
      carrying the placeholder; an object instead of an array changes
      nothing. */
  method ImportScenario() {
    var ed := new Editor();
    var rec := Record(Image(7, 0.0, 10.0, 0.0, 0.0, 0.0, 0.0, None, "", ""), false, false);
    var first := ed.nextId;
    var alert := ed.ImportJSON(Parsed(JArray([rec])));
    assert alert == Imported(1) && |ed.elements| == 1;
    var e := ed.elements[0];
    assert e == ImportRecord(rec, first);
    assert e.width == 100.0 && e.height == 100.0;
    assert e.src == Some(QuestionSign) && e.filename == "question-sign.png";

    var before := ed.elements;
    alert := ed.ImportJSON(Parsed(JNotArray));
    assert alert == ExpectedArray && ed.elements == before;
  }

  /** On any consistent editor, placing an element with the active tool
      (the image tool only with an upload staged) and deleting it again
      gives back the scene and leaves nothing selected. */
  method PlaceThenDelete(ed: Editor, t: ElementType, at: Point)
    requires ed.Valid() && ed.tool == Some(t) && (t != ImageType || ed.imageUpload.Some?)
    modifies ed
    ensures ed.Valid() && ed.elements == old(ed.elements) && ed.selected == None && ed.tool == None
  {
    ed.StageClick(Some(at));
    var n := ed.selected.value;
    assert !HasId(old(ed.elements), n.id);
    ed.DeleteElement(n.id);
    RemoveAppended(old(ed.elements), n);
  }
}
