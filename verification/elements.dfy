/** The scene's data model: the four element variants, the partial-field
    updates the editor merges into them, and the two list transforms the
    scene store applies (update by id and delete by id). */
module Elements {

  datatype Option<+T> = None | Some(value: T)

  /** Element identifiers. The editor draws them from a counter, so two
      distinct elements never share one. */
  type Id = nat

  datatype Point = Point(x: real, y: real)

  datatype Alignment = AlignLeft | AlignCenter | AlignRight

  /** An image payload: a data URL read from a file, or the placeholder
      asset bundled with the application. */
  datatype Src = DataUrl(url: string) | QuestionSign

  /** The `type` tag of an element; the active tool takes the same values. */
  datatype ElementType = TextType | RectangleType | LineType | ImageType

  /** An image read from disk and staged for placement or replacement. */
  datatype Upload = Upload(src: Src, width: real, height: real, filename: string, filepath: string)

  datatype Element =
    | Text(id: Id, startTime: real, endTime: real,
           x: real, y: real, text: string, alignment: Alignment)
    | Rectangle(id: Id, startTime: real, endTime: real,
                x: real, y: real, width: real, height: real,
                cornerRadius: real, borderWidth: real)
    | Line(id: Id, startTime: real, endTime: real,
           x1: real, y1: real, x2: real, y2: real, width: real)
    | Image(id: Id, startTime: real, endTime: real,
            x: real, y: real, width: real, height: real,
            src: Option<Src>, filename: string, filepath: string)
  {
    function Kind(): ElementType {
      match this
      case Text(_, _, _, _, _, _, _) => TextType
      case Rectangle(_, _, _, _, _, _, _, _, _) => RectangleType
      case Line(_, _, _, _, _, _, _, _) => LineType
      case Image(_, _, _, _, _, _, _, _, _, _) => ImageType
    }
  }

  /** The element with its id replaced and every other field kept. */
  function WithId(e: Element, id: Id): (r: Element)
    ensures r.id == id && r.Kind() == e.Kind() && Anchor(r) == Anchor(e)
    ensures r == e.(id := id)
  {
    match e
    case Text(_, st, et, x, y, t, a) => Text(id, st, et, x, y, t, a)
    case Rectangle(_, st, et, x, y, w, h, cr, bw) => Rectangle(id, st, et, x, y, w, h, cr, bw)
    case Line(_, st, et, x1, y1, x2, y2, w) => Line(id, st, et, x1, y1, x2, y2, w)
    case Image(_, st, et, x, y, w, h, src, fname, fpath) => Image(id, st, et, x, y, w, h, src, fname, fpath)
  }

  /** Giving an element back its own id restores it: nothing but the id
      was changed. */
  lemma WithIdRestores(e: Element, id: Id)
    ensures WithId(WithId(e, id), e.id) == e
  {
  }

  /** The point an element is placed at: its top-left corner, or the start
      point of a line. */
  function Anchor(e: Element): Point {
    if e.Line? then Point(e.x1, e.y1) else Point(e.x, e.y)
  }

  /** The `updates` object of an attribute edit: each field is either
      written (Some) or left alone (None). */
  datatype Patch = Patch(
    x: Option<real>, y: Option<real>,
    x1: Option<real>, y1: Option<real>, x2: Option<real>, y2: Option<real>,
    width: Option<real>, height: Option<real>,
    cornerRadius: Option<real>, borderWidth: Option<real>,
    startTime: Option<real>, endTime: Option<real>,
    text: Option<string>, alignment: Option<Alignment>,
    src: Option<Src>, filename: Option<string>, filepath: Option<string>)

  const NoChange: Patch := Patch(None, None, None, None, None, None, None, None, None,
                                 None, None, None, None, None, None, None, None)

  function Pick<T>(o: Option<T>, current: T): T {
    if o.Some? then o.value else current
  }

  /** `{ ...el, ...updates }`: the fields the patch writes replace the
      element's, every other field keeps its value. */
  function Merge(e: Element, p: Patch): (r: Element)
    ensures r.id == e.id && r.Kind() == e.Kind()
    ensures p == NoChange ==> r == e
    ensures r.startTime == Pick(p.startTime, e.startTime) && r.endTime == Pick(p.endTime, e.endTime)
  {
    match e
    case Text(id, st, et, x, y, t, a) =>
      Text(id, Pick(p.startTime, st), Pick(p.endTime, et), Pick(p.x, x), Pick(p.y, y),
           Pick(p.text, t), Pick(p.alignment, a))
    case Rectangle(id, st, et, x, y, w, h, cr, bw) =>
      Rectangle(id, Pick(p.startTime, st), Pick(p.endTime, et), Pick(p.x, x), Pick(p.y, y),
                Pick(p.width, w), Pick(p.height, h), Pick(p.cornerRadius, cr), Pick(p.borderWidth, bw))
    case Line(id, st, et, x1, y1, x2, y2, w) =>
      Line(id, Pick(p.startTime, st), Pick(p.endTime, et), Pick(p.x1, x1), Pick(p.y1, y1),
           Pick(p.x2, x2), Pick(p.y2, y2), Pick(p.width, w))
    case Image(id, st, et, x, y, w, h, src, fname, fpath) =>
      Image(id, Pick(p.startTime, st), Pick(p.endTime, et), Pick(p.x, x), Pick(p.y, y),
            Pick(p.width, w), Pick(p.height, h),
            if p.src.Some? then p.src else src, Pick(p.filename, fname), Pick(p.filepath, fpath))
  }

  /** Merging the same patch twice is the same as merging it once. */
  lemma MergeIdempotent(e: Element, p: Patch)
    ensures Merge(Merge(e, p), p) == Merge(e, p)
  {
  }

  predicate HasId(es: seq<Element>, id: Id) {
    exists i :: 0 <= i < |es| && es[i].id == id
  }

  /** No two elements of the scene share an id. */
  ghost predicate Distinct(es: seq<Element>) {
    forall i, j :: 0 <= i < j < |es| ==> es[i].id != es[j].id
  }

  /** `prev.map(el => el.id === elementId ? { ...el, ...updates } : el)` */
  function UpdateElements(es: seq<Element>, id: Id, p: Patch): (r: seq<Element>)
    ensures |r| == |es|
    ensures forall i :: 0 <= i < |es| ==> r[i].id == es[i].id && r[i].Kind() == es[i].Kind()
    ensures forall i :: 0 <= i < |es| && es[i].id != id ==> r[i] == es[i]
    ensures forall i :: 0 <= i < |es| && es[i].id == id ==> r[i] == Merge(es[i], p)
  {
    if es == [] then []
    else [if es[0].id == id then Merge(es[0], p) else es[0]] + UpdateElements(es[1..], id, p)
  }

  /** An element of the list is still in it after an update: merged when it
      carries the id, as it was otherwise. */
  lemma UpdateKeepsMember(es: seq<Element>, id: Id, p: Patch, s: Element)
    requires s in es
    ensures (if s.id == id then Merge(s, p) else s) in UpdateElements(es, id, p)
  {
    var k :| 0 <= k < |es| && es[k] == s;
    assert UpdateElements(es, id, p)[k] == (if s.id == id then Merge(s, p) else s);
  }

  /** Updating an id that no element carries leaves the list as it was. */
  lemma UpdateAbsentId(es: seq<Element>, id: Id, p: Patch)
    requires !HasId(es, id)
    ensures UpdateElements(es, id, p) == es
  {
  }

  /** An update keeps the ids, so it keeps them distinct. */
  lemma UpdateKeepsDistinct(es: seq<Element>, id: Id, p: Patch)
    requires Distinct(es)
    ensures Distinct(UpdateElements(es, id, p))
  {
  }

  /** `prev.filter(el => el.id !== elementId)` */
  function Remove(es: seq<Element>, id: Id): (r: seq<Element>)
    ensures |r| <= |es|
    ensures forall e :: e in r ==> e in es && e.id != id
    ensures forall e :: e in es && e.id != id ==> e in r
  {
    if es == [] then []
    else if es[0].id == id then Remove(es[1..], id)
    else [es[0]] + Remove(es[1..], id)
  }

  /** Deleting keeps the survivors in their order: filtering a concatenation
      filters each part in place. */
  lemma {:induction false} RemoveDistributes(a: seq<Element>, b: seq<Element>, id: Id)
    ensures Remove(a + b, id) == Remove(a, id) + Remove(b, id)
  {
    if a == [] {
      assert a + b == b;
    } else {
      assert (a + b)[1..] == a[1..] + b;
      RemoveDistributes(a[1..], b, id);
    }
  }

  /** Deleting an id that no element carries leaves the list as it was. */
  lemma {:induction false} RemoveAbsent(es: seq<Element>, id: Id)
    requires !HasId(es, id)
    ensures Remove(es, id) == es
  {
    if es != [] {
      assert !HasId(es[1..], id) by {
        forall i | 0 <= i < |es[1..]| ensures es[1..][i].id != id {
          assert es[1..][i] == es[i + 1];
        }
      }
      RemoveAbsent(es[1..], id);
      assert [es[0]] + es[1..] == es;
    }
  }

  /** Deleting a freshly appended element gives back the scene before it. */
  lemma RemoveAppended(es: seq<Element>, n: Element)
    requires !HasId(es, n.id)
    ensures Remove(es + [n], n.id) == es
  {
    RemoveDistributes(es, [n], n.id);
    RemoveAbsent(es, n.id);
    assert Remove([n], n.id) == [];
  }

  /** Deleting from a scene with distinct ids keeps the ids distinct. */
  lemma {:induction false} RemoveKeepsDistinct(es: seq<Element>, id: Id)
    requires Distinct(es)
    ensures Distinct(Remove(es, id))
  {
    if es != [] {
      var tail := es[1..];
      assert Distinct(tail) by {
        forall i, j | 0 <= i < j < |tail| ensures tail[i].id != tail[j].id {
          assert tail[i] == es[i + 1] && tail[j] == es[j + 1];
        }
      }
      RemoveKeepsDistinct(tail, id);
      if es[0].id != id {
        var rest := Remove(tail, id);
        forall e | e in rest ensures e.id != es[0].id {
          var k :| 0 <= k < |tail| && tail[k] == e;
          assert es[k + 1] == e;
        }
        var r := [es[0]] + rest;
        forall i, j | 0 <= i < j < |r| ensures r[i].id != r[j].id {
          if i == 0 {
            assert r[j] == rest[j - 1] && r[j] in rest;
          } else {
            assert r[i] == rest[i - 1] && r[j] == rest[j - 1];
          }
        }
      }
    }
  }
}
