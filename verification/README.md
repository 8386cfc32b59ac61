# Scene editor core, in Dafny

This project models the element-manipulation engine of a 2D scene editor.
All of it is the `App` component in `src/App.jsx`. Users place text,
rectangle, line and image elements on a 640×480 canvas. They edit the
elements' attributes, drag them, move line endpoints and resize rectangles
by their edge handles. The scene is exported to, and imported from, an
array of element records.

The model has five modules and a client, one file each:

- `elements.dfy` (`Elements`): the element variants and the `updates`
  patch that attribute edits carry. It also has the field merge
  `{ ...el, ...updates }` and the two list transforms of the scene store.
  These are the update-by-id map and the delete-by-id filter.
- `geometry.dfy` (`Geometry`): the outline box of an element, and the
  positions of the line-endpoint and rectangle-edge handles. Both are
  computed from the element and the live body-drag session, which is
  passed in explicitly.
- `interaction.dfy` (`Interaction`): the element a stage click places and
  the patch a body drag commits at its end. Also the patch an endpoint
  drag commits, and one step of the rectangle edge-resize state machine
  (commit or reject, then re-pin the handle). A lemma follows any series
  of edge moves.
- `interchange.dfy` (`Interchange`): the export transform, which strips
  image payloads. Also the import transform, which gives fresh ids,
  substitutes the placeholder image and defaults the size.
- `editor.dfy` (`EditorState`): class `Editor`. Its fields are the
  component's state slots (`elements`, `selected`, `hovered`, `dragged`,
  `tool`, `imageUpload`), plus an id counter that replaces the random id
  generator. There is one method per handler. `Valid()` states that ids
  are distinct and below the counter, and that a selected element is one
  of the scene's. Every method preserves it.
- `scenarios.dfy` (`Scenarios`): client methods that drive an `Editor`
  through a rectangle resize, a line endpoint drag and body drag, and an
  import. They assert the outcomes from the methods' contracts alone.

Coordinates are `real`, so `width / 2` is exact. Ids are natural numbers
drawn from the editor's counter, not the source's
`element_<time>_<random>` strings.

Three behaviours of the code are worth stating:

- Delete clears the selection unconditionally, not only when the deleted
  element was selected.
- Import replaces an image's width or height with 100 when it is zero as
  well as when it is missing.
- The edge-drag handler reads the handle node's reported position as the
  edge itself. It re-pins the node at the midpoint on the other axis,
  without the 4-unit offset the handle is drawn with. On the dragged axis
  the node goes to the new edge after a commit, and to the clamp 5 units
  inside the box after a rejection. The
  rendered handle is placed 4 units before the edge (its top-left
  corner). The model keeps both as written. `HandleAtRestShiftsEdge`
  states the consequence: a drag-move event that reports the handle
  where it is already drawn still moves the top and left edges out by 4 and the bottom and right
  edges in by 4, as far as the size floor allows.

The position an edge drag receives is whatever the drag layer reports
for the handle node. The model takes it as given.

## Model

| member | source | states |
|---|---|---|
| `Elements.Merge` | src/App.jsx:150 | a merge keeps the element's id and variant, an empty patch changes nothing, and the time fields take the patch's value when it has one |
| `Elements.MergeIdempotent` | src/App.jsx:150 | merging the same updates twice equals merging them once |
| `Elements.WithId` | src/App.jsx:453-456 | re-identifying an element keeps every field but the id, so also its variant and its anchor point |
| `Elements.WithIdRestores` | src/App.jsx:453-456 | giving a re-identified element its old id back restores it exactly |
| `Elements.UpdateElements` | src/App.jsx:149-151 | an update keeps length, order, every id and every variant; elements with another id are unchanged; those with the id are the merge |
| `Elements.UpdateKeepsMember` | src/App.jsx:148-155 | an element of the list is still in it after an update, merged exactly when it carries the id; so the selected copy, merged alongside the list, stays one of the scene's elements |
| `Elements.UpdateAbsentId` | src/App.jsx:149-151 | updating an id no element carries leaves the list unchanged |
| `Elements.UpdateKeepsDistinct` | src/App.jsx:149-151 | an update keeps ids pairwise distinct |
| `Elements.Remove` | src/App.jsx:302 | the result holds no element with the id, and holds every element of the old list that has another id, and nothing else |
| `Elements.RemoveDistributes` | src/App.jsx:302 | deleting from a concatenation deletes from each part in place, so survivors keep their order |
| `Elements.RemoveAbsent` | src/App.jsx:302 | deleting an id no element carries leaves the list unchanged |
| `Elements.RemoveAppended` | src/App.jsx:301-304 | placing an element with a fresh id and then deleting it gives back the previous scene |
| `Elements.RemoveKeepsDistinct` | src/App.jsx:302 | deleting keeps ids pairwise distinct |
| `Geometry.Bounds` | src/App.jsx:307-352 | text: 18 per character by 36 at the live corner; rectangle and image: their box at the live corner; line: contains both drag-offset endpoints with margin 2, width is abs(x2-x1)+4 and height is abs(y2-y1)+4, both at least 4 |
| `Geometry.LineHandle` | src/App.jsx:609-662 | an endpoint handle sits on the drag-offset endpoint, inside the line's outline with its margin |
| `Geometry.EdgeHandle` | src/App.jsx:689-791 | each edge handle's centre is the midpoint of that edge of the rectangle's outline box, following a body drag |
| `Interaction.Placement` | src/App.jsx:56-119 | an element is made iff the tool is not image or an upload is staged; it has the given id, the tool's type, the click point as anchor and times 0 and 10; rectangle 100×50 with corner radius 0 and border 1; line end 50 right and 50 below its start, stroke 2; text "Sample Text" left-aligned; an image takes the upload's payload, size and names |
| `Interaction.DragEndPatch` | src/App.jsx:175-195 | a line's commit adds the end position as an offset to both endpoints, keeping its direction vector and every other field; any other element's commit sets exactly its x,y to the end position |
| `Interaction.DragEndTarget` | src/App.jsx:187-188 | the dragged node is left at rest for the committed element: a line's at (0,0), where its endpoints carry the coordinates, any other on its new corner |
| `Interaction.DragEndKeepsOutline` | src/App.jsx:172-198 | ending a drag does not make the outline jump: the committed element, with the session closed or with the node where the drag end leaves it, has the outline shown live at the end position |
| `Interaction.DragsCompose` | src/App.jsx:172-198 | two successive body drags, the node starting each where the previous one left it, move an element by the sum of the two pointer moves: both endpoints of a line, the corner of any other element |
| `Interaction.EndpointPatch` | src/App.jsx:205-217 | on a line, a start-handle drag writes only x1,y1 and an end-handle drag writes only x2,y2 |
| `Interaction.EdgeDrag` | src/App.jsx:234-297 | a resize commits iff the proposed size exceeds 5. A committed top or left resize keeps the opposite edge (y+height, x+width) fixed. A committed bottom or right resize keeps y or x, and puts the edge at the handle node's reported position. A commit changes only the box. The handle is re-pinned to the midpoint on the other axis. On rejection it is clamped to y+height-5, y+5, x+width-5 or x+5 |
| `Interaction.HandleAtRestShiftsEdge` | src/App.jsx:231-298 | a drag-move event reporting a handle at the position it is drawn at, 4 before its edge, still resizes: top and left grow by 4, bottom and right shrink by 4 when that stays above 5 |
| `Interaction.ResizeSeries` | src/App.jsx:231-298 | any series of edge moves leaves a rectangle with the same id |
| `Interaction.ResizeSeriesRespectsFloor` | src/App.jsx:237-289 | after any series of edge moves, each dimension either keeps its initial value or is above 5; corner radius, border and times are untouched |
| `Interaction.ResizeSeriesKeepsMinimum` | src/App.jsx:237-289 | a rectangle larger than 5 in both dimensions stays so under any series of edge moves |
| `Interchange.StripSrc` | src/App.jsx:413-417 | export of an image drops only its payload, any other element is written as it is |
| `Interchange.Export` | src/App.jsx:412-418 | export keeps length and order, leaves non-images unchanged, and gives each image no payload; putting the payload back yields the original |
| `Interchange.SizeOrDefault` | src/App.jsx:464-465 | a missing or zero size becomes 100, a present non-zero one is kept |
| `Interchange.ImportRecord` | src/App.jsx:453-468 | the imported element has the fresh id and the record's type. A non-image equals the record apart from the id. An image carries the placeholder payload and the names "question-sign.png", keeps position and times, and has its size defaulted |
| `Interchange.ImportRecords` | src/App.jsx:451-469 | one element per record, in order, the i-th with id first+i |
| `Interchange.Reparse` | src/App.jsx:442 | reading back an exported array yields one record per element, with every field present |
| `Interchange.ExportImportRoundTrip` | src/App.jsx:412-469 | export then import yields one element per original, in order, with fresh ids. Non-images are equal apart from the id. Images carry the placeholder payload and names, with position, times and non-zero size kept |
| `EditorState.Editor.constructor` | src/App.jsx:37-42 | the editor starts with no elements, no selection, hover, drag session, tool or staged upload |
| `EditorState.Editor.StageClick` | src/App.jsx:53-130 | with a tool and a position, a placed element is appended, selected and gets the next id. The tool is cleared, and an image placement consumes the staged upload. A failed image placement changes nothing. Without a tool or position, only the selection is cleared. Ids stay distinct |
| `EditorState.Editor.ToggleTool` | src/App.jsx:841-858 | only the text, rectangle and line buttons toggle: choosing the active tool clears it, choosing another sets it |
| `EditorState.Editor.Select` | src/App.jsx:133-136 | only an element of the scene can be clicked; it becomes the selection, which stays one of the scene's elements |
| `EditorState.Editor.MouseEnter` | src/App.jsx:139-141 | entering an element sets the hover cursor to it |
| `EditorState.Editor.MouseLeave` | src/App.jsx:143-145 | leaving an element clears the hover cursor |
| `EditorState.Editor.UpdateElement` | src/App.jsx:148-155 | the list becomes the update by id; the selected copy is merged only when its id matches; ids stay distinct and the selection stays in the scene |
| `EditorState.Editor.DragStart` | src/App.jsx:158-162 | a drag session opens for the element at the reported position and the hover cursor is cleared |
| `EditorState.Editor.DragMove` | src/App.jsx:165-169 | the session follows the pointer only when it is about the same element, otherwise it is unchanged |
| `EditorState.Editor.DragEnd` | src/App.jsx:172-199 | the drag-end patch is committed by id (and to the selected copy), the session is closed, and the node is left where the drag-end target says |
| `EditorState.Editor.LineEndpointDrag` | src/App.jsx:202-218 | each endpoint move commits that endpoint by id at once |
| `EditorState.Editor.RectangleEdgeDrag` | src/App.jsx:231-298 | the resize step's commit, when there is one, is applied by id; a rejected step leaves list and selection unchanged; the handle goes where the step says |
| `EditorState.Editor.DeleteElement` | src/App.jsx:301-304 | the list becomes the delete-by-id filter and the selection is cleared; ids stay distinct |
| `EditorState.Editor.StageUpload` | src/App.jsx:362-369 | a decoded upload is staged with its file path falling back to the file name, and the image tool becomes active |
| `EditorState.Editor.ReplaceSelectedImage` | src/App.jsx:384-398 | when an image is selected, its payload, size and names are replaced together by id and in the selected copy; otherwise nothing changes |
| `EditorState.Editor.ExportJSON` | src/App.jsx:410-418 | the exported array has one record per element, each the element with any image payload stripped |
| `EditorState.Editor.ImportJSON` | src/App.jsx:436-487 | a wrong file type, a parse error or a non-array top level is reported and changes nothing. An array appends one freshly identified element per record after the existing ones, and reports that count. Ids stay distinct |
| `Scenarios.PlaceThenDelete` | src/App.jsx:53-130 | on any consistent editor with a tool active (the image tool with an upload staged), placing an element and deleting it (delete handler at src/App.jsx:301-304) gives back the scene, with nothing selected and the tool cleared |

## Left out

- Rendering: the Konva/React tree, `ImageElement` and every cursor-style assignment are presentation. This includes the two drag-end handlers of the secondary handles, which only reset the cursor.
- Browser I/O: `FileReader`, image decoding, the hidden file inputs and the download link are left out. The model starts from the decoded upload (`StageUpload`, `ReplaceSelectedImage`) and from the file's parse outcome (`ImportJSON`).
- JSON text: parsing and stringifying are not modelled. `Reparse` stands for reading back an exported array.
- User alerts: they become the returned `ImportAlert`. The error logged to the console is dropped.
- Id generation: `Date.now()` and `Math.random()` are replaced by a counter. Ids are numbers, not strings.
- Floating point: coordinates are exact reals. IEEE rounding, `parseFloat` of form input and NaN are not modelled. In the source, a NaN width is also replaced by 100 on import.
- Text width: the width estimate counts characters of a `seq<char>`, not UTF-16 code units.
- The `{0,0,0,0}` default branch of the bounds computation is left out. It cannot be reached with four variants.
- Import records: a record of unknown type, or one missing fields other than an image's width and height, has no counterpart. A record is always a complete element of one of the four variants. A `null` record is not modelled either: reading its `type` throws a TypeError, which the surrounding catch reports with the parse-error alert, and nothing is appended (src/App.jsx:459, 478-480).
- Elements.Merge: its contract states only id, variant and times. The effect on geometry fields is stated where a patch is built (`DragEndPatch`, `EndpointPatch`, `EdgeDrag`). A field the variant does not have (say `x1` on a rectangle) is ignored, where the source would add an inert extra property. Patches cannot write `id` or `type`.
- Drag session: it keeps the element id and the last reported node position, not the node itself. A second drag start replaces an open session without committing it.
- Framework timing: the stale closures from hook dependency lists and React's batched state updates are not modelled. Each handler acts atomically on the current state.
