/**
 * `_process_image`: find the image and the annotation of one example, read
 * the image bytes and turn the annotation's objects into five parallel lists.
 */
module Loader {
  import opened Wrappers
  import opened Text
  import opened Types
  import opened Paths
  import opened Annotation

  /**
   * The dataset on disk, as the converter reads it: image files by path,
   * annotation files by path (already parsed into their `object` elements)
   * and directory listings by path.
   */
  datatype InputTree = InputTree(
    images: map<string, seq<byte>>,
    annotations: map<string, seq<AnnObject>>,
    listings: map<string, seq<string>>)

  /** What `_process_image` returns: the image bytes and the five lists. */
  datatype Loaded = Loaded(imageData: seq<byte>, lists: Lists)

  /** `_process_image` as a function of the dataset. */
  function LoadedExample(input: InputTree, directory: string, name: string, dataset: string,
                         table: LabelTable, shape: Shape): (r: Result<Loaded, Error>)
    requires ValidShape(shape)
    ensures r.Ok? ==>
      && ImagePath(directory, name, dataset) in input.images
      && AnnotationPath(directory, name, dataset) in input.annotations
      && r.value.imageData == input.images[ImagePath(directory, name, dataset)]
      && Parallel(r.value.lists, |input.annotations[AnnotationPath(directory, name, dataset)]|)
  {
    var imagePath := ImagePath(directory, name, dataset);
    var annotationPath := AnnotationPath(directory, name, dataset);
    if imagePath !in input.images then Err(ImageNotFound(imagePath))
    else if annotationPath !in input.annotations then Err(AnnotationNotFound(annotationPath))
    else
      match ProcessedObjects(input.annotations[annotationPath], table, shape)
      case Err(e) => Err(e)
      case Ok(l) => Ok(Loaded(input.images[imagePath], l))
  }

  /**
   * The image is read before the annotation, so a missing image is reported
   * even when the annotation is missing too; with the image present a missing
   * annotation is reported next, and otherwise the error is that of the
   * object loop. A loaded example carries the bytes of the image file and one
   * list entry per object of the annotation.
   */
  lemma LoadedExampleSpec(input: InputTree, directory: string, name: string, dataset: string,
                          table: LabelTable, shape: Shape)
    requires ValidShape(shape)
    ensures var imagePath := ImagePath(directory, name, dataset);
      var annotationPath := AnnotationPath(directory, name, dataset);
      var r := LoadedExample(input, directory, name, dataset, table, shape);
      && (imagePath !in input.images ==> r == Err(ImageNotFound(imagePath)))
      && (imagePath in input.images && annotationPath !in input.annotations ==>
           r == Err(AnnotationNotFound(annotationPath)))
      && (imagePath in input.images && annotationPath in input.annotations ==>
           var objs := ProcessedObjects(input.annotations[annotationPath], table, shape);
           (r.Err? <==> objs.Err?) && (r.Err? ==> r.error == objs.error))
      && (r.Ok? <==>
           imagePath in input.images && annotationPath in input.annotations
           && forall i :: 0 <= i < |input.annotations[annotationPath]| ==>
                Recognized(input.annotations[annotationPath][i].name, table))
      && (r.Ok? ==> r.value.imageData == input.images[imagePath]
                    && r.value.lists == ProcessedObjects(input.annotations[annotationPath], table, shape).value
                    && Parallel(r.value.lists, |input.annotations[annotationPath]|))
  {
    var annotationPath := AnnotationPath(directory, name, dataset);
    if annotationPath in input.annotations {
      ProcessedObjectsOk(input.annotations[annotationPath], table, shape);
    }
  }

  /**
   * The loop of `_process_image`, appending to five lists per object and
   * stopping at the first object whose label cannot be looked up.
   */
  method ProcessImage(input: InputTree, directory: string, name: string, dataset: string,
                      table: LabelTable, shape: Shape) returns (r: Result<Loaded, Error>)
    requires ValidShape(shape)
    ensures r == LoadedExample(input, directory, name, dataset, table, shape)
  {
    var filename: string;
    if dataset == "training" {
      filename := JoinPath(directory, [DIRECTORY_IMAGES, dataset, PrefixBefore(name, '-'), name + ".jpg"]);
    } else {
      filename := JoinPath(directory, [DIRECTORY_IMAGES, dataset, name + ".jpg"]);
    }
    if filename !in input.images {
      return Err(ImageNotFound(filename));
    }
    var imageData := input.images[filename];
    filename := JoinPath(directory, [DIRECTORY_ANNOTATIONS, dataset, name + ".xml"]);
    if filename !in input.annotations {
      return Err(AnnotationNotFound(filename));
    }
    var objs := input.annotations[filename];

    var bboxes: seq<seq<real>> := [];
    var labels: seq<int> := [];
    var labelsText: seq<seq<byte>> := [];
    var difficult: seq<int> := [];
    var truncated: seq<int> := [];
    var i := 0;
    while i < |objs|
      invariant 0 <= i <= |objs|
      invariant ProcessedObjects(objs[..i], table, shape)
             == Ok(Lists(bboxes, labels, labelsText, difficult, truncated))
    {
      var obj := objs[i];
      assert objs[..i + 1][..i] == objs[..i];
      ghost var before := Lists(bboxes, labels, labelsText, difficult, truncated);
      var labelName := obj.name;
      if labelName !in table || |table[labelName]| == 0 || !IsAscii(labelName) {
        assert ProcessedObjects(objs[..i + 1], table, shape) == Err(LabelError(labelName, table));
        ProcessedObjectsErrPersists(objs, i + 1, table, shape);
        if labelName !in table {
          return Err(UnknownLabel(labelName));
        } else if |table[labelName]| == 0 {
          return Err(EmptyLabelEntry(labelName));
        } else {
          return Err(NonAsciiLabel(labelName));
        }
      }
      labels := labels + [table[labelName][0]];
      labelsText := labelsText + [EncodeAscii(labelName)];

      if obj.difficult.Some? && Truthy(obj.difficult.value) {
        difficult := difficult + [obj.difficult.value.value];
      } else {
        difficult := difficult + [0];
      }
      if obj.truncated.Some? && Truthy(obj.truncated.value) {
        truncated := truncated + [obj.truncated.value.value];
      } else {
        truncated := truncated + [0];
      }

      var bbox := obj.bndbox;
      var ymin := MaxOf(MinOf(bbox.ymin, shape.height as real), 0.0);
      var xmin := MaxOf(MinOf(bbox.xmin, shape.width as real), 0.0);
      var ymax := MaxOf(MinOf(bbox.ymax, shape.height as real), 0.0);
      var xmax := MaxOf(MinOf(bbox.xmax, shape.width as real), 0.0);
      var box := [ymin / shape.height as real, xmin / shape.width as real,
                  ymax / shape.height as real, xmax / shape.width as real];
      bboxes := bboxes + [box];
      ghost var entry := Entry(box, table[labelName][0], EncodeAscii(labelName),
                               difficult[i], truncated[i]);
      assert ObjectEntry(obj, table, shape) == Ok(entry);
      assert Lists(bboxes, labels, labelsText, difficult, truncated) == Append(before, entry);
      i := i + 1;
    }
    assert objs[..i] == objs;
    r := Ok(Loaded(imageData, Lists(bboxes, labels, labelsText, difficult, truncated)));
  }
}
