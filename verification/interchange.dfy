/** The element-list transforms of export and import: export strips image
    payloads; import gives every record a fresh id and swaps image payloads
    for the bundled placeholder. */
module Interchange {
  import opened Elements

  /** File name and path written into every imported image. */
  const PlaceholderName: string := "question-sign.png"

  /** Size given to an imported image whose width or height is missing or
      zero. */
  const DefaultImageSize: real := 100.0

  /** The record export writes for one element. */
  function StripSrc(e: Element): (r: Element)
    ensures r.id == e.id && r.Kind() == e.Kind()
    ensures !e.Image? ==> r == e
    ensures e.Image? ==> (r.src == None &&
      r == Image(e.id, e.startTime, e.endTime, e.x, e.y, e.width, e.height, None, e.filename, e.filepath))
  {
    if e.Image? then e.(src := None) else e
  }

  /** The array export serialises. */
  function Export(es: seq<Element>): (r: seq<Element>)
    ensures |r| == |es|
    ensures forall i :: 0 <= i < |es| && !es[i].Image? ==> r[i] == es[i]
    ensures forall i :: 0 <= i < |es| && es[i].Image? ==>
      r[i].Image? && r[i].src == None && Merge(r[i], NoChange.(src := es[i].src)) == es[i]
  {
    if es == [] then [] else [StripSrc(es[0])] + Export(es[1..])
  }

  /** One parsed element record. A record read from a file may lack a
      width or a height; the flags say whether the field was present (when
      absent, the body's value is meaningless). */
  datatype Record = Record(body: Element, hasWidth: bool, hasHeight: bool)

  /** The parsed top-level value of an import document. */
  datatype JsonValue = JArray(records: seq<Record>) | JNotArray

  /** What the file picker and JSON parser hand to the import. */
  datatype ImportFile = NotJsonFile | Unparseable | Parsed(value: JsonValue)

  /** The message the import reports to the user. */
  datatype ImportAlert = SelectJsonFile | ParseError | ExpectedArray | Imported(count: nat)

  /** `if (!v) v = 100`: a missing or zero size becomes the default. */
  function SizeOrDefault(present: bool, v: real): (s: real)
    ensures s == DefaultImageSize || (present && s == v && v != 0.0)
    ensures present && v != 0.0 ==> s == v
  {
    if !present || v == 0.0 then DefaultImageSize else v
  }

  /** The element an import builds from one record. */
  function ImportRecord(rec: Record, id: Id): (e: Element)
    ensures e.id == id && e.Kind() == rec.body.Kind()
    ensures !rec.body.Image? ==> e == WithId(rec.body, id)
    ensures rec.body.Image? ==>
      var b := rec.body;
      e.src == Some(QuestionSign) && e.filename == PlaceholderName && e.filepath == PlaceholderName &&
      e.width == SizeOrDefault(rec.hasWidth, b.width) && e.height == SizeOrDefault(rec.hasHeight, b.height) &&
      e.x == b.x && e.y == b.y && e.startTime == b.startTime && e.endTime == b.endTime
  {
    var b := rec.body;
    match b
    case Image(_, st, et, x, y, w, h, _, _, _) =>
      Image(id, st, et, x, y, SizeOrDefault(rec.hasWidth, w), SizeOrDefault(rec.hasHeight, h),
            Some(QuestionSign), PlaceholderName, PlaceholderName)
    case _ => WithId(b, id)
  }

  /** `importedData.map(...)`, with ids drawn from `first` upwards. */
  function ImportRecords(recs: seq<Record>, first: Id): (r: seq<Element>)
    ensures |r| == |recs|
    ensures forall i :: 0 <= i < |recs| ==> r[i].id == first + i
    ensures forall i :: 0 <= i < |recs| ==> r[i] == ImportRecord(recs[i], first + i)
  {
    if recs == [] then [] else [ImportRecord(recs[0], first)] + ImportRecords(recs[1..], first + 1)
  }

  /** The records JSON.parse yields for an exported array: every field the
      export wrote is present. */
  function Reparse(exported: seq<Element>): (recs: seq<Record>)
    ensures |recs| == |exported|
    ensures forall i :: 0 <= i < |exported| ==> recs[i] == Record(exported[i], true, true)
  {
    if exported == [] then [] else [Record(exported[0], true, true)] + Reparse(exported[1..])
  }

  /** Exporting a scene and importing the result gives one element per
      original, in order, with fresh ids; non-image elements are otherwise
      equal; images keep position, times and non-zero size but carry the
      placeholder payload and names. */
  lemma ExportImportRoundTrip(es: seq<Element>, first: Id)
    ensures var r := ImportRecords(Reparse(Export(es)), first);
      |r| == |es| &&
      (forall i :: 0 <= i < |es| ==> r[i].id == first + i && r[i].Kind() == es[i].Kind()) &&
      (forall i :: 0 <= i < |es| && !es[i].Image? ==> r[i] == WithId(es[i], first + i)) &&
      (forall i :: 0 <= i < |es| && es[i].Image? ==>
         r[i] == Image(first + i, es[i].startTime, es[i].endTime, es[i].x, es[i].y,
                       SizeOrDefault(true, es[i].width), SizeOrDefault(true, es[i].height),
                       Some(QuestionSign), PlaceholderName, PlaceholderName))
  {
  }
}
