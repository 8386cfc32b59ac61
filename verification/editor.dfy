/** The editing session: the state slots of the App component and the
    handlers that step them. Each handler acts atomically on the current
    state. */
module EditorState {
  import opened Elements
  import opened Geometry
  import opened Interaction
  import opened Interchange

  /** The selected copy after an update: merged only when it is the
      updated element. */
  function MergeSelected(sel: Option<Element>, id: Id, p: Patch): Option<Element> {
    if sel.Some? && sel.value.id == id then Some(Merge(sel.value, p)) else sel
  }

  /** `file.webkitRelativePath || file.name` */
  function UploadPath(name: string, relativePath: string): string {
    if relativePath == "" then name else relativePath
  }

  class Editor {
    var elements: seq<Element>
    var selected: Option<Element>
    var hovered: Option<Element>
    var dragged: Option<DragSession>
    var tool: Option<ElementType>
    var imageUpload: Option<Upload>
    /** Stands in for generateId: every id handed out so far is below it. */
    var nextId: Id

    /** Ids are unique in the scene and none of them will be handed out
        again; a selected element is one of the scene's. */
    ghost predicate Valid()
      reads this
    {
      Distinct(elements) && (forall i :: 0 <= i < |elements| ==> elements[i].id < nextId) &&
      (selected.Some? ==> selected.value in elements)
    }

    constructor ()
      ensures Valid()
      ensures elements == [] && selected == None && hovered == None && dragged == None
      ensures tool == None && imageUpload == None
    {
      elements, selected, hovered, dragged := [], None, None, None;
      tool, imageUpload, nextId := None, None, 0;
    }

    /** handleStageClick: with a tool and a pointer position, place the
        tool's element, select it and clear the tool; otherwise deselect. */
    method StageClick(pos: Option<Point>)
      requires Valid()
      modifies this
      ensures Valid()
      ensures hovered == old(hovered) && dragged == old(dragged)
      ensures old(tool).None? || pos.None? ==>
        selected == None && elements == old(elements) && tool == old(tool) &&
        imageUpload == old(imageUpload) && nextId == old(nextId)
      ensures old(tool).Some? && pos.Some? ==>
        var n := Placement(old(tool).value, pos.value, old(nextId), old(imageUpload));
        if n.Some? then
          elements == old(elements) + [n.value] && selected == n && tool == None &&
          nextId == old(nextId) + 1 &&
          imageUpload == (if old(tool) == Some(ImageType) then None else old(imageUpload))
        else
          elements == old(elements) && selected == old(selected) && tool == old(tool) &&
          imageUpload == old(imageUpload) && nextId == old(nextId)
    {
      if tool.Some? && pos.Some? {
        var n := Placement(tool.value, pos.value, nextId, imageUpload);
        if n.Some? {
          if tool.value == ImageType {
            imageUpload := None;
          }
          elements := elements + [n.value];
          selected := n;
          tool := None;
          nextId := nextId + 1;
        }
      } else {
        selected := None;
      }
    }

    /** A toolbar button: choosing the active tool again clears it. Only
        the text, rectangle and line buttons toggle; the image tool is set
        by a staged upload (StageUpload). */
    method ToggleTool(t: ElementType)
      requires t != ImageType
      modifies this`tool
      ensures tool == if old(tool) == Some(t) then None else Some(t)
    {
      tool := if tool == Some(t) then None else Some(t);
    }

    /** handleElementClick: only a rendered element of the scene can be
        clicked. */
    method Select(e: Element)
      requires Valid() && e in elements
      modifies this`selected
      ensures Valid()
      ensures selected == Some(e)
    {
      selected := Some(e);
    }

    /** handleElementMouseEnter */
    method MouseEnter(e: Element)
      modifies this`hovered
      ensures hovered == Some(e)
    {
      hovered := Some(e);
    }

    /** handleElementMouseLeave */
    method MouseLeave()
      modifies this`hovered
      ensures hovered == None
    {
      hovered := None;
    }

    /** updateElement: merge the patch into the element with that id, and
        into the selected copy when it is that element. */
    method UpdateElement(id: Id, p: Patch)
      requires Valid()
      modifies this`elements, this`selected
      ensures Valid()
      ensures elements == UpdateElements(old(elements), id, p)
      ensures selected == MergeSelected(old(selected), id, p)
    {
      UpdateKeepsDistinct(elements, id, p);
      if selected.Some? {
        UpdateKeepsMember(elements, id, p, selected.value);
      }
      elements := UpdateElements(elements, id, p);
      if selected.Some? && selected.value.id == id {
        selected := Some(Merge(selected.value, p));
      }
    }

    /** handleElementDragStart: open a drag session and drop the hover
        outline. A session already open is replaced without a commit. */
    method DragStart(e: Element, pos: Point)
      modifies this`dragged, this`hovered
      ensures dragged == Some(DragSession(e.id, pos)) && hovered == None
    {
      dragged := Some(DragSession(e.id, pos));
      hovered := None;
    }

    /** handleElementDragMove: follow the pointer, but only for the element
        the session is about. */
    method DragMove(e: Element, pos: Point)
      modifies this`dragged
      ensures old(dragged).Some? && old(dragged).value.id == e.id ==>
        dragged == Some(DragSession(e.id, pos))
      ensures !(old(dragged).Some? && old(dragged).value.id == e.id) ==> dragged == old(dragged)
    {
      if dragged.Some? && dragged.value.id == e.id {
        dragged := Some(DragSession(e.id, pos));
      }
    }

    /** handleElementDragEnd: commit the drag and close the session; the
        result is where the dragged node is left. */
    method DragEnd(e: Element, endPos: Point) returns (target: Point)
      requires Valid()
      modifies this`elements, this`selected, this`dragged
      ensures Valid()
      ensures elements == UpdateElements(old(elements), e.id, DragEndPatch(e, endPos))
      ensures selected == MergeSelected(old(selected), e.id, DragEndPatch(e, endPos))
      ensures dragged == None
      ensures target == DragEndTarget(e, endPos)
    {
      UpdateElement(e.id, DragEndPatch(e, endPos));
      target := DragEndTarget(e, endPos);
      dragged := None;
    }

    /** handleLineEndpointDrag: every move of an endpoint handle commits
        that endpoint at once. */
    method LineEndpointDrag(l: Element, isStart: bool, pos: Point)
      requires Valid()
      modifies this`elements, this`selected
      ensures Valid()
      ensures elements == UpdateElements(old(elements), l.id, EndpointPatch(isStart, pos))
      ensures selected == MergeSelected(old(selected), l.id, EndpointPatch(isStart, pos))
    {
      UpdateElement(l.id, EndpointPatch(isStart, pos));
    }

    /** handleRectangleEdgeDrag: commit the resize when it keeps the
        dimension above the floor; the result is where the handle node is
        put back. */
    method RectangleEdgeDrag(r: Element, edge: Edge, pos: Point) returns (handle: Point)
      requires Valid() && r.Rectangle?
      modifies this`elements, this`selected
      ensures Valid()
      ensures var s := EdgeDrag(r, edge, pos);
        handle == s.handle &&
        if s.commit.Some? then
          elements == UpdateElements(old(elements), r.id, s.commit.value) &&
          selected == MergeSelected(old(selected), r.id, s.commit.value)
        else
          elements == old(elements) && selected == old(selected)
    {
      var s := EdgeDrag(r, edge, pos);
      if s.commit.Some? {
        UpdateElement(r.id, s.commit.value);
      }
      handle := s.handle;
    }

    /** deleteElement: drop every element with that id and clear the
        selection, whatever it was. */
    method DeleteElement(id: Id)
      requires Valid()
      modifies this`elements, this`selected
      ensures Valid()
      ensures elements == Remove(old(elements), id) && selected == None
    {
      RemoveKeepsDistinct(elements, id);
      elements := Remove(elements, id);
      selected := None;
    }

    /** The state change of handleImageUpload once the image has decoded:
        stage it and switch to the image tool. */
    method StageUpload(src: Src, naturalWidth: real, naturalHeight: real, name: string, relativePath: string)
      modifies this`imageUpload, this`tool
      ensures imageUpload == Some(Upload(src, naturalWidth, naturalHeight, name, UploadPath(name, relativePath)))
      ensures tool == Some(ImageType)
    {
      imageUpload := Some(Upload(src, naturalWidth, naturalHeight, name, UploadPath(name, relativePath)));
      tool := Some(ImageType);
    }

    /** The state change of handleImageReplacement once the image has
        decoded: when an image is selected, replace its payload, size and
        names together. */
    method ReplaceSelectedImage(src: Src, naturalWidth: real, naturalHeight: real, name: string, relativePath: string)
      requires Valid()
      modifies this`elements, this`selected
      ensures Valid()
      ensures var p := NoChange.(src := Some(src), width := Some(naturalWidth), height := Some(naturalHeight),
                                 filename := Some(name), filepath := Some(UploadPath(name, relativePath)));
        if old(selected).Some? && old(selected).value.Image? then
          elements == UpdateElements(old(elements), old(selected).value.id, p) &&
          selected == Some(Merge(old(selected).value, p))
        else
          elements == old(elements) && selected == old(selected)
    {
      if selected.Some? && selected.value.Image? {
        UpdateElement(selected.value.id,
          NoChange.(src := Some(src), width := Some(naturalWidth), height := Some(naturalHeight),
                    filename := Some(name), filepath := Some(UploadPath(name, relativePath))));
      }
    }

    /** exportToJSON, up to serialisation: the array to be written. */
    method ExportJSON() returns (doc: seq<Element>)
      ensures |doc| == |elements|
      ensures forall i :: 0 <= i < |elements| ==> StripSrc(elements[i]) == doc[i]
    {
      doc := Export(elements);
    }

    /** handleJSONFileUpload once the file has been read: reject anything
        but a parsed array; otherwise append one freshly identified element
        per record after the existing ones and report how many. */
    method ImportJSON(file: ImportFile) returns (alert: ImportAlert)
      requires Valid()
      modifies this`elements, this`nextId
      ensures Valid()
      ensures !(file.Parsed? && file.value.JArray?) ==>
        elements == old(elements) && nextId == old(nextId) &&
        alert == (if file.NotJsonFile? then SelectJsonFile
                  else if file.Unparseable? then ParseError else ExpectedArray)
      ensures file.Parsed? && file.value.JArray? ==>
        var recs := file.value.records;
        alert == Imported(|recs|) &&
        elements == old(elements) + ImportRecords(recs, old(nextId)) &&
        nextId == old(nextId) + |recs|
    {
      match file
      case NotJsonFile =>
        alert := SelectJsonFile;
      case Unparseable =>
        alert := ParseError;
      case Parsed(JNotArray) =>
        alert := ExpectedArray;
      case Parsed(JArray(recs)) =>
        var added := ImportRecords(recs, nextId);
        ghost var before := elements;
        elements := elements + added;
        nextId := nextId + |recs|;
        forall i, j | 0 <= i < j < |elements| ensures elements[i].id != elements[j].id {
          if j >= |before| {
            assert elements[j] == added[j - |before|];
            if i >= |before| {
              assert elements[i] == added[i - |before|];
            }
          }
        }
        alert := Imported(|recs|);
    }
  }
}
