/**
 * What `_process_image` makes of one `object` element: its class id and
 * ASCII name from the label table, its two flags, and its box clamped to the
 * fixed image and normalised. `ProcessedObjects` is the whole loop over an
 * annotation's objects, as a function.
 */
module Annotation {
  import opened Wrappers
  import opened Text
  import opened Types

  /** Python's truth value of an ElementTree element: having child elements. */
  predicate Truthy(e: FlagElement)
  {
    e.subElements > 0
  }

  /**
   * `int(obj.find(tag).text) if obj.find(tag) else 0`: the element's value
   * when the found element tests true, 0 otherwise.
   */
  function FlagValue(found: Option<FlagElement>): (v: int)
    ensures v != 0 ==> found.Some? && Truthy(found.value) && v == found.value.value
    ensures found.Some? && Truthy(found.value) ==> v == found.value.value
  {
    if found.Some? && Truthy(found.value) then found.value.value else 0
  }

  /** A missing element always gives 0. */
  lemma MissingFlagIsZero()
    ensures FlagValue(None) == 0
  {
  }

  /**
   * A leaf element such as `<difficult>1</difficult>` has no children, so it
   * tests false and its text is never read.
   */
  lemma LeafFlagIsZero(value: int)
    ensures FlagValue(Some(FlagElement(value, 0))) == 0
  {
  }

  /** Python's `min(a, b)`: `b` only when it is strictly smaller. */
  function MinOf(a: real, b: real): real
  {
    if b < a then b else a
  }

  /** Python's `max(a, b)`: `b` only when it is strictly larger. */
  function MaxOf(a: real, b: real): real
  {
    if b > a then b else a
  }

  /** `max(min(v, dim), 0)`: the coordinate forced into `[0, dim]`. */
  function Clamp(v: real, dim: int): (c: real)
    requires dim > 0
    ensures 0.0 <= c <= dim as real
    ensures 0.0 <= v <= dim as real ==> c == v
    ensures v > dim as real ==> c == dim as real
    ensures v < 0.0 ==> c == 0.0
  {
    MaxOf(MinOf(v, dim as real), 0.0)
  }

  /**
   * A clamped coordinate divided by its dimension: a fraction in `[0, 1]`
   * that scales back to the raw value whenever that was in range.
   */
  function Normalize(v: real, dim: int): (n: real)
    requires dim > 0
    ensures 0.0 <= n <= 1.0
    ensures 0.0 <= v <= dim as real ==> n * dim as real == v
    ensures v >= dim as real ==> n == 1.0
    ensures v <= 0.0 ==> n == 0.0
  {
    var c := Clamp(v, dim);
    assert v >= dim as real ==> c == dim as real;
    c / dim as real
  }

  /** The tuple `_process_image` appends: `(ymin, xmin, ymax, xmax)`, normalised. */
  function NormalizedBox(b: BndBox, shape: Shape): (t: seq<real>)
    requires ValidShape(shape)
    ensures |t| == 4
    ensures forall k :: 0 <= k < 4 ==> 0.0 <= t[k] <= 1.0
  {
    [Normalize(b.ymin, shape.height), Normalize(b.xmin, shape.width),
     Normalize(b.ymax, shape.height), Normalize(b.xmax, shape.width)]
  }

  /** The test `ymax > 500 or xmax > 500`, made on the clamped values. */
  predicate OversizeWarning(b: BndBox, shape: Shape): (w: bool)
    requires ValidShape(shape)
    ensures w ==> shape.height > 500 || shape.width > 500
  {
    Clamp(b.ymax, shape.height) > 500.0 || Clamp(b.xmax, shape.width) > 500.0
  }

  /** With the image no larger than 500 pixels either way the warning never fires. */
  lemma OversizeWarningNeverFires(b: BndBox, shape: Shape)
    requires ValidShape(shape) && shape.height <= 500 && shape.width <= 500
    ensures !OversizeWarning(b, shape)
  {
  }

  /** The names `_process_image` accepts: in the table, with an id, encodable as ASCII. */
  predicate Recognized(name: string, table: LabelTable)
  {
    name in table && |table[name]| > 0 && IsAscii(name)
  }

  /** The exception raised for a name that is not recognized, in the order the lookups happen. */
  function LabelError(name: string, table: LabelTable): Error
  {
    if name !in table then UnknownLabel(name)
    else if |table[name]| == 0 then EmptyLabelEntry(name)
    else NonAsciiLabel(name)
  }

  /** What one `object` contributes to each of the five lists. */
  datatype Entry = Entry(box: seq<real>, classId: int, text: seq<byte>, difficult: int, truncated: int)

  function ObjectEntry(o: AnnObject, table: LabelTable, shape: Shape): (r: Result<Entry, Error>)
    requires ValidShape(shape)
    ensures r.Ok? <==> Recognized(o.name, table)
    ensures r.Err? ==> r.error == LabelError(o.name, table)
    ensures r.Ok? ==> |r.value.box| == 4 && r.value.classId == table[o.name][0]
                      && CharsOf(r.value.text) == o.name
  {
    if !Recognized(o.name, table) then Err(LabelError(o.name, table))
    else Ok(Entry(NormalizedBox(o.bndbox, shape), table[o.name][0], EncodeAscii(o.name),
                  FlagValue(o.difficult), FlagValue(o.truncated)))
  }

  /** The five parallel lists `_process_image` returns besides the image. */
  datatype Lists = Lists(
    bboxes: seq<seq<real>>,
    labels: seq<int>,
    labelsText: seq<seq<byte>>,
    difficult: seq<int>,
    truncated: seq<int>)

  predicate Parallel(l: Lists, n: nat)
  {
    |l.bboxes| == n && |l.labels| == n && |l.labelsText| == n
    && |l.difficult| == n && |l.truncated| == n
  }

  function Append(l: Lists, e: Entry): Lists
  {
    Lists(l.bboxes + [e.box], l.labels + [e.classId], l.labelsText + [e.text],
          l.difficult + [e.difficult], l.truncated + [e.truncated])
  }

  /**
   * The loop over `root.findall('object')`: one entry per object, in order,
   * or the exception raised by the first object that has none.
   */
  function ProcessedObjects(objs: seq<AnnObject>, table: LabelTable, shape: Shape): (r: Result<Lists, Error>)
    requires ValidShape(shape)
    ensures r.Ok? ==> Parallel(r.value, |objs|)
    decreases |objs|
  {
    if objs == [] then Ok(Lists([], [], [], [], []))
    else
      match ProcessedObjects(objs[..|objs| - 1], table, shape)
      case Err(e) => Err(e)
      case Ok(l) =>
        match ObjectEntry(objs[|objs| - 1], table, shape)
        case Err(e) => Err(e)
        case Ok(entry) => Ok(Append(l, entry))
  }

  /**
   * The lists are built exactly when every name is recognized, and then
   * entry `i` of each list comes from object `i`: its normalised box, its
   * class id, its name in ASCII and its two flags.
   */
  lemma {:induction false} ProcessedObjectsOk(objs: seq<AnnObject>, table: LabelTable, shape: Shape)
    requires ValidShape(shape)
    ensures ProcessedObjects(objs, table, shape).Ok? <==>
      forall i :: 0 <= i < |objs| ==> Recognized(objs[i].name, table)
    ensures ProcessedObjects(objs, table, shape).Ok? ==>
      var l := ProcessedObjects(objs, table, shape).value;
      Parallel(l, |objs|) &&
      forall i :: 0 <= i < |objs| ==>
        && l.bboxes[i] == NormalizedBox(objs[i].bndbox, shape)
        && l.labels[i] == table[objs[i].name][0]
        && l.labelsText[i] == EncodeAscii(objs[i].name)
        && l.difficult[i] == FlagValue(objs[i].difficult)
        && l.truncated[i] == FlagValue(objs[i].truncated)
    decreases |objs|
  {
    if objs != [] {
      var init := objs[..|objs| - 1];
      ProcessedObjectsOk(init, table, shape);
      assert forall i :: 0 <= i < |init| ==> init[i] == objs[i];
    }
  }

  /**
   * A failure is the exception of the first object whose name is not
   * recognized; every object before it was.
   */
  lemma {:induction false} ProcessedObjectsErr(objs: seq<AnnObject>, table: LabelTable, shape: Shape)
    requires ValidShape(shape)
    ensures ProcessedObjects(objs, table, shape).Err? ==>
      exists k :: 0 <= k < |objs|
        && (forall j :: 0 <= j < k ==> Recognized(objs[j].name, table))
        && !Recognized(objs[k].name, table)
        && ProcessedObjects(objs, table, shape).error == LabelError(objs[k].name, table)
    decreases |objs|
  {
    if objs != [] {
      var init := objs[..|objs| - 1];
      ProcessedObjectsErr(init, table, shape);
      ProcessedObjectsOk(init, table, shape);
      assert forall i :: 0 <= i < |init| ==> init[i] == objs[i];
      if ProcessedObjects(init, table, shape).Err? {
        var k :| 0 <= k < |init|
          && (forall j :: 0 <= j < k ==> Recognized(init[j].name, table))
          && !Recognized(init[k].name, table)
          && ProcessedObjects(init, table, shape).error == LabelError(init[k].name, table);
        assert objs[k] == init[k];
      }
    }
  }

  /** Once an object fails, the lists of any longer run of objects fail with the same exception. */
  lemma {:induction false} ProcessedObjectsErrPersists(objs: seq<AnnObject>, k: nat, table: LabelTable, shape: Shape)
    requires ValidShape(shape) && k <= |objs|
    requires ProcessedObjects(objs[..k], table, shape).Err?
    ensures ProcessedObjects(objs, table, shape) == ProcessedObjects(objs[..k], table, shape)
    decreases |objs| - k
  {
    if k < |objs| {
      assert objs[..k + 1][..k] == objs[..k];
      ProcessedObjectsErrPersists(objs, k + 1, table, shape);
    } else {
      assert objs[..k] == objs;
    }
  }
}
