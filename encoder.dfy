/**
 * `_convert_to_example`: transpose the boxes into four coordinate lists and
 * assemble the record with its fixed geometry and format fields.
 */
module Encoder {
  import opened Wrappers
  import opened Text
  import opened Types

  /**
   * The record's fields, named after its feature keys (`image/height`,
   * `image/object/bbox/xmin`, ..., `image/encoded`).
   */
  datatype Example = Example(
    height: int,
    width: int,
    channels: int,
    shape: seq<int>,
    bboxXmin: seq<real>,
    bboxXmax: seq<real>,
    bboxYmin: seq<real>,
    bboxYmax: seq<real>,
    bboxLabel: seq<int>,
    bboxLabelText: seq<seq<byte>>,
    bboxDifficult: seq<int>,
    bboxTruncated: seq<int>,
    format: seq<byte>,
    encoded: seq<byte>)

  /** `b'JPEG'`. */
  const JPEG_FORMAT: seq<byte> := [74, 80, 69, 71]

  /** The four lists filled by `zip([xmin, ymin, xmax, ymax], b)`, under those names. */
  datatype Columns = Columns(xmin: seq<real>, ymin: seq<real>, xmax: seq<real>, ymax: seq<real>)

  /**
   * The loop over `bboxes`: component `k` of every box goes to the `k`-th
   * list, and a box without exactly four components stops it.
   */
  function Transposed(bboxes: seq<seq<real>>): (r: Result<Columns, Error>)
    ensures r.Ok? ==> |r.value.xmin| == |r.value.ymin| == |r.value.xmax| == |r.value.ymax| == |bboxes|
    decreases |bboxes|
  {
    if bboxes == [] then Ok(Columns([], [], [], []))
    else
      var last := bboxes[|bboxes| - 1];
      match Transposed(bboxes[..|bboxes| - 1])
      case Err(e) => Err(e)
      case Ok(c) =>
        if |last| != 4 then Err(BoxArity(|bboxes| - 1))
        else Ok(Columns(c.xmin + [last[0]], c.ymin + [last[1]], c.xmax + [last[2]], c.ymax + [last[3]]))
  }

  /**
   * Transposition succeeds exactly when every box has four components, keeps
   * the order of the boxes, and puts component `k` of box `i` at index `i`
   * of the `k`-th list.
   */
  lemma {:induction false} TransposedOk(bboxes: seq<seq<real>>)
    ensures Transposed(bboxes).Ok? <==> forall i :: 0 <= i < |bboxes| ==> |bboxes[i]| == 4
    ensures Transposed(bboxes).Ok? ==>
      var c := Transposed(bboxes).value;
      forall i :: 0 <= i < |bboxes| ==>
        c.xmin[i] == bboxes[i][0] && c.ymin[i] == bboxes[i][1]
        && c.xmax[i] == bboxes[i][2] && c.ymax[i] == bboxes[i][3]
    decreases |bboxes|
  {
    if bboxes != [] {
      var init := bboxes[..|bboxes| - 1];
      TransposedOk(init);
      assert forall i :: 0 <= i < |init| ==> init[i] == bboxes[i];
    }
  }

  /** A failed transposition names the first box that has not four components. */
  lemma {:induction false} TransposedErr(bboxes: seq<seq<real>>)
    ensures Transposed(bboxes).Err? ==> Transposed(bboxes).error.BoxArity?
    ensures Transposed(bboxes).Err? ==>
      var k := Transposed(bboxes).error.index;
      && k < |bboxes| && |bboxes[k]| != 4
      && forall j :: 0 <= j < k ==> |bboxes[j]| == 4
    decreases |bboxes|
  {
    if bboxes != [] {
      var init := bboxes[..|bboxes| - 1];
      TransposedErr(init);
      TransposedOk(init);
      assert forall i :: 0 <= i < |init| ==> init[i] == bboxes[i];
    }
  }

  /** Once a box fails, transposing a longer list fails with the same box. */
  lemma {:induction false} TransposedErrPersists(bboxes: seq<seq<real>>, k: nat)
    requires k <= |bboxes|
    requires Transposed(bboxes[..k]).Err?
    ensures Transposed(bboxes) == Transposed(bboxes[..k])
    decreases |bboxes| - k
  {
    if k < |bboxes| {
      assert bboxes[..k + 1][..k] == bboxes[..k];
      TransposedErrPersists(bboxes, k + 1);
    } else {
      assert bboxes[..k] == bboxes;
    }
  }

  /**
   * `_convert_to_example` as a function. The list transposed from component
   * 0 is the one stored under `image/object/bbox/xmin`, and so on in the
   * order of the `zip`.
   */
  function ExampleOf(imageData: seq<byte>, labels: seq<int>, labelsText: seq<seq<byte>>,
                     bboxes: seq<seq<real>>, difficult: seq<int>, truncated: seq<int>,
                     shape: Shape): (r: Result<Example, Error>)
    ensures r.Err? ==> r.error.BoxArity?
    ensures r.Err? ==> r.error.index < |bboxes| && |bboxes[r.error.index]| != 4
    ensures r.Ok? ==> r.value.encoded == imageData && CharsOf(r.value.format) == "JPEG"
  {
    TransposedErr(bboxes);
    match Transposed(bboxes)
    case Err(e) => Err(e)
    case Ok(c) =>
      Ok(Example(shape.height, shape.width, shape.channels,
                 [shape.height, shape.width, shape.channels],
                 c.xmin, c.xmax, c.ymin, c.ymax,
                 labels, labelsText, difficult, truncated,
                 JPEG_FORMAT, imageData))
  }

  /**
   * The record has the fixed geometry, the format `JPEG`, the image bytes
   * and the label and flag lists as given; its coordinate lists are the
   * transposed boxes.
   */
  lemma ExampleOfSpec(imageData: seq<byte>, labels: seq<int>, labelsText: seq<seq<byte>>,
                      bboxes: seq<seq<real>>, difficult: seq<int>, truncated: seq<int>,
                      shape: Shape)
    ensures var r := ExampleOf(imageData, labels, labelsText, bboxes, difficult, truncated, shape);
      && (r.Ok? <==> forall i :: 0 <= i < |bboxes| ==> |bboxes[i]| == 4)
      && (r.Ok? ==>
           && r.value.height == shape.height && r.value.width == shape.width
           && r.value.channels == shape.channels
           && r.value.shape == [shape.height, shape.width, shape.channels]
           && CharsOf(r.value.format) == "JPEG"
           && r.value.encoded == imageData
           && r.value.bboxLabel == labels && r.value.bboxLabelText == labelsText
           && r.value.bboxDifficult == difficult && r.value.bboxTruncated == truncated
           && |r.value.bboxXmin| == |r.value.bboxYmin| == |bboxes|
           && |r.value.bboxXmax| == |r.value.bboxYmax| == |bboxes|
           && forall i :: 0 <= i < |bboxes| ==>
                && r.value.bboxXmin[i] == bboxes[i][0] && r.value.bboxYmin[i] == bboxes[i][1]
                && r.value.bboxXmax[i] == bboxes[i][2] && r.value.bboxYmax[i] == bboxes[i][3])
      && (r.Err? ==> r.error.BoxArity?)
  {
    TransposedOk(bboxes);
    TransposedErr(bboxes);
  }

  /** The loop of `_convert_to_example`: assert four components, append each to its list. */
  method ConvertToExample(imageData: seq<byte>, labels: seq<int>, labelsText: seq<seq<byte>>,
                          bboxes: seq<seq<real>>, difficult: seq<int>, truncated: seq<int>,
                          shape: Shape) returns (r: Result<Example, Error>)
    ensures r == ExampleOf(imageData, labels, labelsText, bboxes, difficult, truncated, shape)
  {
    var xmin: seq<real> := [];
    var ymin: seq<real> := [];
    var xmax: seq<real> := [];
    var ymax: seq<real> := [];
    var i := 0;
    while i < |bboxes|
      invariant 0 <= i <= |bboxes|
      invariant Transposed(bboxes[..i]) == Ok(Columns(xmin, ymin, xmax, ymax))
    {
      var b := bboxes[i];
      assert bboxes[..i + 1][..i] == bboxes[..i];
      if |b| != 4 {
        TransposedErrPersists(bboxes, i + 1);
        return Err(BoxArity(i));
      }
      xmin, ymin, xmax, ymax := xmin + [b[0]], ymin + [b[1]], xmax + [b[2]], ymax + [b[3]];
      i := i + 1;
    }
    assert bboxes[..i] == bboxes;
    r := Ok(Example(shape.height, shape.width, shape.channels,
                    [shape.height, shape.width, shape.channels],
                    xmin, xmax, ymin, ymax,
                    labels, labelsText, difficult, truncated,
                    JPEG_FORMAT, imageData));
  }
}
