/**
 * `_add_to_tfrecord` and `run`: convert every listed example of a split and
 * write the records to one output file, or do nothing when that file
 * already exists.
 */
module Driver {
  import opened Wrappers
  import opened Text
  import opened Types
  import opened Paths
  import opened Annotation
  import opened Loader
  import opened Encoder

  /** The record `_add_to_tfrecord` writes for example `name`, as a function. */
  function ExampleFor(input: InputTree, datasetDir: string, dataset: string, name: string,
                      table: LabelTable, shape: Shape): (r: Result<Example, Error>)
    requires ValidShape(shape)
  {
    match LoadedExample(input, datasetDir, name, dataset, table, shape)
    case Err(e) => Err(e)
    case Ok(ld) =>
      ExampleOf(ld.imageData, ld.lists.labels, ld.lists.labelsText, ld.lists.bboxes,
                ld.lists.difficult, ld.lists.truncated, shape)
  }

  /**
   * The record of one example, stated against its annotation: it exists
   * exactly when the image and the annotation do and every label name is
   * recognized; every list has one entry per object; and, because the boxes
   * are built as `(ymin, xmin, ymax, xmax)` but stored through
   * `[xmin, ymin, xmax, ymax]`, the list stored as `xmin` holds the
   * normalised y-minima, `ymin` the x-minima, `xmax` the y-maxima and
   * `ymax` the x-maxima. A box of the wrong size never occurs: every failure
   * is the loader's.
   */
  lemma {:induction false} RecordOfAnnotation(input: InputTree, datasetDir: string, dataset: string,
                                              name: string, table: LabelTable, shape: Shape)
    requires ValidShape(shape)
    ensures var r := ExampleFor(input, datasetDir, dataset, name, table, shape);
      var ip := ImagePath(datasetDir, name, dataset);
      var ap := AnnotationPath(datasetDir, name, dataset);
      && (r.Err? ==> !r.error.BoxArity?)
      && (r.Err? ==> var ld := LoadedExample(input, datasetDir, name, dataset, table, shape);
           ld.Err? && r.error == ld.error)
      && (r.Ok? <==>
           ip in input.images && ap in input.annotations
           && forall i :: 0 <= i < |input.annotations[ap]| ==>
                Recognized(input.annotations[ap][i].name, table))
      && (r.Ok? ==>
           var objs := input.annotations[ap];
           var ex := r.value;
           && ex.encoded == input.images[ip]
           && |ex.bboxXmin| == |objs| && |ex.bboxYmin| == |objs|
           && |ex.bboxXmax| == |objs| && |ex.bboxYmax| == |objs|
           && |ex.bboxLabel| == |objs| && |ex.bboxLabelText| == |objs|
           && |ex.bboxDifficult| == |objs| && |ex.bboxTruncated| == |objs|
           && forall i :: 0 <= i < |objs| ==>
                && ex.bboxXmin[i] == Normalize(objs[i].bndbox.ymin, shape.height)
                && ex.bboxYmin[i] == Normalize(objs[i].bndbox.xmin, shape.width)
                && ex.bboxXmax[i] == Normalize(objs[i].bndbox.ymax, shape.height)
                && ex.bboxYmax[i] == Normalize(objs[i].bndbox.xmax, shape.width)
                && ex.bboxLabel[i] == table[objs[i].name][0]
                && CharsOf(ex.bboxLabelText[i]) == objs[i].name
                && ex.bboxDifficult[i] == FlagValue(objs[i].difficult)
                && ex.bboxTruncated[i] == FlagValue(objs[i].truncated))
  {
    var ip := ImagePath(datasetDir, name, dataset);
    var ap := AnnotationPath(datasetDir, name, dataset);
    LoadedExampleSpec(input, datasetDir, name, dataset, table, shape);
    var ld := LoadedExample(input, datasetDir, name, dataset, table, shape);
    if ap in input.annotations {
      ProcessedObjectsErr(input.annotations[ap], table, shape);
    }
    if ld.Ok? {
      var objs := input.annotations[ap];
      var l := ld.value.lists;
      ProcessedObjectsOk(objs, table, shape);
      assert forall i :: 0 <= i < |l.bboxes| ==> |l.bboxes[i]| == 4;
      ExampleOfSpec(ld.value.imageData, l.labels, l.labelsText, l.bboxes, l.difficult, l.truncated, shape);
      forall i | 0 <= i < |objs|
        ensures CharsOf(l.labelsText[i]) == objs[i].name
      {
        CharsOfEncodeAscii(objs[i].name);
      }
    }
  }

  /**
   * A label name missing from the table, after names that are all
   * recognized, ends the conversion of the example with the `KeyError` of
   * that name.
   */
  lemma UnknownLabelAbortsRecord(input: InputTree, datasetDir: string, dataset: string,
                                 name: string, table: LabelTable, shape: Shape, k: nat)
    requires ValidShape(shape)
    requires ImagePath(datasetDir, name, dataset) in input.images
    requires AnnotationPath(datasetDir, name, dataset) in input.annotations
    requires var objs := input.annotations[AnnotationPath(datasetDir, name, dataset)];
      k < |objs| && objs[k].name !in table
      && forall j :: 0 <= j < k ==> Recognized(objs[j].name, table)
    ensures var objs := input.annotations[AnnotationPath(datasetDir, name, dataset)];
      ExampleFor(input, datasetDir, dataset, name, table, shape) == Err(UnknownLabel(objs[k].name))
  {
    var objs := input.annotations[AnnotationPath(datasetDir, name, dataset)];
    RecordOfAnnotation(input, datasetDir, dataset, name, table, shape);
    LoadedExampleSpec(input, datasetDir, name, dataset, table, shape);
    ProcessedObjectsErr(objs, table, shape);
    var first :| 0 <= first < |objs|
      && (forall j :: 0 <= j < first ==> Recognized(objs[j].name, table))
      && !Recognized(objs[first].name, table)
      && ProcessedObjects(objs, table, shape).error == LabelError(objs[first].name, table);
    assert first == k;
  }

  /** Every coordinate of a record lies in `[0, 1]`, however far out the raw box was. */
  lemma RecordCoordinatesInUnitRange(input: InputTree, datasetDir: string, dataset: string,
                                     name: string, table: LabelTable, shape: Shape)
    requires ValidShape(shape)
    ensures var r := ExampleFor(input, datasetDir, dataset, name, table, shape);
      r.Ok? ==>
        && (forall i :: 0 <= i < |r.value.bboxXmin| ==> 0.0 <= r.value.bboxXmin[i] <= 1.0)
        && (forall i :: 0 <= i < |r.value.bboxYmin| ==> 0.0 <= r.value.bboxYmin[i] <= 1.0)
        && (forall i :: 0 <= i < |r.value.bboxXmax| ==> 0.0 <= r.value.bboxXmax[i] <= 1.0)
        && (forall i :: 0 <= i < |r.value.bboxYmax| ==> 0.0 <= r.value.bboxYmax[i] <= 1.0)
  {
    RecordOfAnnotation(input, datasetDir, dataset, name, table, shape);
  }

  /**
   * Two objects on a 500 by 500 image, the first with `<difficult>1</difficult>`,
   * the second with the box (xmin 10, ymin 10, xmax 600, ymax 450): the
   * clamped x-maximum 1.0 is stored as `ymax`, the y-maximum 0.9 as `xmax`,
   * and the leaf `difficult` element reads as 0.
   */
  lemma TwoObjectRecord()
    ensures var first := AnnObject("bib", Some(FlagElement(1, 0)), None, BndBox(0.0, 0.0, 100.0, 200.0));
      var second := AnnObject("bib", None, None, BndBox(10.0, 10.0, 600.0, 450.0));
      var input := InputTree(
        map[ImagePath("data", "img", "validation") := [255, 216]],
        map[AnnotationPath("data", "img", "validation") := [first, second]],
        map[]);
      var r := ExampleFor(input, "data", "validation", "img", map["bib" := [1]], IMAGE_SHAPE);
      && r.Ok?
      && r.value.bboxXmax[1] == 0.9 && r.value.bboxYmax[1] == 1.0
      && r.value.bboxXmin[1] == 0.02 && r.value.bboxYmin[1] == 0.02
      && r.value.bboxDifficult == [0, 0] && r.value.bboxTruncated == [0, 0]
      && r.value.bboxLabel == [1, 1]
  {
    var first := AnnObject("bib", Some(FlagElement(1, 0)), None, BndBox(0.0, 0.0, 100.0, 200.0));
    var second := AnnObject("bib", None, None, BndBox(10.0, 10.0, 600.0, 450.0));
    var input := InputTree(
      map[ImagePath("data", "img", "validation") := [255, 216]],
      map[AnnotationPath("data", "img", "validation") := [first, second]],
      map[]);
    var table := map["bib" := [1]];
    assert Recognized("bib", table);
    RecordOfAnnotation(input, "data", "validation", "img", table, IMAGE_SHAPE);
    var r := ExampleFor(input, "data", "validation", "img", table, IMAGE_SHAPE);
    assert |r.value.bboxDifficult| == 2 && |r.value.bboxTruncated| == 2 && |r.value.bboxLabel| == 2;
    assert Normalize(450.0, 500) == 0.9;
    assert Normalize(600.0, 500) == 1.0;
    assert Normalize(10.0, 500) == 0.02;
  }

  /**
   * Records appended one result at a time until the first failure: the
   * records written and that failure, if there was one.
   */
  function Collected(rs: seq<Result<Example, Error>>): (out: (seq<Example>, Option<Error>))
    ensures |out.0| <= |rs|
    ensures out.1.None? ==> |out.0| == |rs|
    decreases |rs|
  {
    if rs == [] then ([], None)
    else
      var before := Collected(rs[..|rs| - 1]);
      if before.1.Some? then before
      else
        match rs[|rs| - 1]
        case Err(e) => (before.0, Some(e))
        case Ok(ex) => (before.0 + [ex], None)
  }

  /**
   * What is collected is the successful results in order, up to just before
   * the first failure, whose error is reported; there is no failure exactly
   * when every result succeeds.
   */
  lemma {:induction false} CollectedSpec(rs: seq<Result<Example, Error>>)
    ensures var out := Collected(rs);
      && (forall i :: 0 <= i < |out.0| ==> rs[i] == Ok(out.0[i]))
      && (out.1.Some? ==> |out.0| < |rs| && rs[|out.0|] == Err(out.1.value))
      && (out.1.None? <==> forall i :: 0 <= i < |rs| ==> rs[i].Ok?)
    decreases |rs|
  {
    if rs != [] {
      var init := rs[..|rs| - 1];
      CollectedSpec(init);
      assert forall i :: 0 <= i < |init| ==> init[i] == rs[i];
    }
  }

  /** Once a result fails, collecting a longer list ends in the same state. */
  lemma {:induction false} CollectedErrPersists(rs: seq<Result<Example, Error>>, k: nat)
    requires k <= |rs|
    requires Collected(rs[..k]).1.Some?
    ensures Collected(rs) == Collected(rs[..k])
    decreases |rs| - k
  {
    if k < |rs| {
      assert rs[..k + 1][..k] == rs[..k];
      CollectedErrPersists(rs, k + 1);
    } else {
      assert rs[..k] == rs;
    }
  }

  /** A success after successes is appended to what was collected. */
  lemma CollectedSnoc(rs: seq<Result<Example, Error>>, k: nat)
    requires k < |rs| && Collected(rs[..k]).1.None? && rs[k].Ok?
    ensures Collected(rs[..k + 1]) == (Collected(rs[..k]).0 + [rs[k].value], None)
  {
    assert rs[..k + 1][..k] == rs[..k];
  }

  /** Appending to one file in two steps appends the concatenation. */
  lemma AppendTwice(m: map<string, seq<Example>>, k: string, done: seq<Example>, extra: seq<Example>)
    requires k in m
    ensures var m1 := m[k := m[k] + done];
      m1[k := m1[k] + extra] == m[k := m[k] + (done + extra)]
  {
    assert (m[k] + done) + extra == m[k] + (done + extra);
  }

  /** The record (or the error) of each identifier, in listing order. */
  function RecordsFor(input: InputTree, datasetDir: string, dataset: string, ids: seq<string>,
                      table: LabelTable, shape: Shape): (rs: seq<Result<Example, Error>>)
    requires ValidShape(shape)
    ensures |rs| == |ids|
  {
    seq(|ids|, i requires 0 <= i < |ids| => ExampleFor(input, datasetDir, dataset, ids[i], table, shape))
  }

  /** The loop of `run` over the identifiers, as a function. */
  function Converted(input: InputTree, datasetDir: string, dataset: string, ids: seq<string>,
                     table: LabelTable, shape: Shape): (out: (seq<Example>, Option<Error>))
    requires ValidShape(shape)
  {
    Collected(RecordsFor(input, datasetDir, dataset, ids, table, shape))
  }

  /**
   * The file holds the records of the identifiers in listing order; it is
   * complete exactly when every identifier converts, and otherwise stops
   * just before the first identifier that fails, whose error ends the run.
   */
  lemma ConvertedSpec(input: InputTree, datasetDir: string, dataset: string,
                      ids: seq<string>, table: LabelTable, shape: Shape)
    requires ValidShape(shape)
    ensures var out := Converted(input, datasetDir, dataset, ids, table, shape);
      && |out.0| <= |ids|
      && (forall i :: 0 <= i < |out.0| ==>
            ExampleFor(input, datasetDir, dataset, ids[i], table, shape) == Ok(out.0[i]))
      && (out.1.Some? ==>
            |out.0| < |ids|
            && ExampleFor(input, datasetDir, dataset, ids[|out.0|], table, shape) == Err(out.1.value))
      && (out.1.None? <==>
            forall i :: 0 <= i < |ids| ==> ExampleFor(input, datasetDir, dataset, ids[i], table, shape).Ok?)
  {
    CollectedSpec(RecordsFor(input, datasetDir, dataset, ids, table, shape));
  }

  /** How `run` ends. */
  datatype RunOutcome =
    | Skipped              // the output file already existed
    | Finished(count: nat) // every listed example was written
    | Failed(error: Error) // an exception ended the run

  /**
   * The file system as `run` sees it: the dataset it reads, which never
   * changes, the directories, and the record files the writer produces
   * (each as the records appended to it).
   */
  class Disk {
    const input: InputTree
    var dirs: set<string>
    var records: map<string, seq<Example>>

    constructor (input: InputTree, dirs: set<string>, records: map<string, seq<Example>>)
      ensures this.input == input && this.dirs == dirs && this.records == records
    {
      this.input := input;
      this.dirs := dirs;
      this.records := records;
    }

    /** `tf.gfile.Exists`. */
    predicate Exists(path: string)
      reads this
    {
      path in dirs || path in records
      || path in input.images || path in input.annotations || path in input.listings
    }

    /** `_add_to_tfrecord`: convert one example and append its record to the open file. */
    method AddToTfrecord(datasetDir: string, dataset: string, name: string, table: LabelTable,
                         shape: Shape, tfFilename: string) returns (r: Result<Example, Error>)
      requires ValidShape(shape) && tfFilename in records
      modifies this
      ensures dirs == old(dirs)
      ensures r == ExampleFor(input, datasetDir, dataset, name, table, shape)
      ensures records == if r.Ok? then old(records)[tfFilename := old(records)[tfFilename] + [r.value]]
                         else old(records)
    {
      var loaded := ProcessImage(input, datasetDir, name, dataset, table, shape);
      if loaded.Err? {
        return Err(loaded.error);
      }
      var l := loaded.value.lists;
      r := ConvertToExample(loaded.value.imageData, l.labels, l.labelsText, l.bboxes,
                            l.difficult, l.truncated, shape);
      if r.Ok? {
        records := records[tfFilename := records[tfFilename] + [r.value]];
      }
    }

    /**
     * The body of the `with` block of `run`: append the record of each
     * identifier to the open file, stopping at the first failure.
     */
    method WriteRecords(datasetDir: string, dataset: string, filenames: seq<string>,
                        table: LabelTable, shape: Shape, tfFilename: string) returns (failure: Option<Error>)
      requires ValidShape(shape) && tfFilename in records
      modifies this
      ensures dirs == old(dirs)
      ensures var out := Converted(input, datasetDir, dataset, filenames, table, shape);
        records == old(records)[tfFilename := old(records)[tfFilename] + out.0] && failure == out.1
    {
      ghost var results := RecordsFor(input, datasetDir, dataset, filenames, table, shape);
      assert results[..0] == [];
      assert records[tfFilename] + [] == records[tfFilename];
      assert records == records[tfFilename := records[tfFilename] + []];
      var i := 0;
      while i < |filenames|
        invariant 0 <= i <= |filenames|
        invariant Collected(results[..i]).1.None?
        invariant records == old(records)[tfFilename := old(records)[tfFilename] + Collected(results[..i]).0]
        invariant dirs == old(dirs)
      {
        ghost var done := Collected(results[..i]).0;
        var r := AddToTfrecord(datasetDir, dataset, filenames[i], table, shape, tfFilename);
        assert r == results[i];
        if r.Err? {
          assert results[..i + 1][..i] == results[..i];
          CollectedErrPersists(results, i + 1);
          return Some(r.error);
        }
        CollectedSnoc(results, i);
        AppendTwice(old(records), tfFilename, done, [r.value]);
        i := i + 1;
      }
      assert results[..i] == results;
      failure := None;
    }

    /**
     * `run`: create the output directory, stop if the output file exists,
     * list the split's annotations and write one record per identifier
     * until the list ends or an example fails. A failure leaves the records
     * written so far in the file.
     */
    method Run(datasetDir: string, outputDir: string, name: string, dataset: string,
               table: LabelTable, shape: Shape) returns (outcome: RunOutcome)
      requires ValidShape(shape)
      modifies this
      ensures dirs == if old(Exists(outputDir)) then old(dirs) else old(dirs) + {outputDir}
      ensures old(Exists(OutputFilename(outputDir, dataset, name))) ==>
        outcome == Skipped && records == old(records)
      ensures !old(Exists(OutputFilename(outputDir, dataset, name)))
              && AnnotationDir(datasetDir, dataset) !in input.listings ==>
        outcome == Failed(ListingNotFound(AnnotationDir(datasetDir, dataset))) && records == old(records)
      ensures !old(Exists(OutputFilename(outputDir, dataset, name)))
              && AnnotationDir(datasetDir, dataset) in input.listings ==>
        var out := Converted(input, datasetDir, dataset,
                             Identifiers(input.listings[AnnotationDir(datasetDir, dataset)]), table, shape);
        && records == old(records)[OutputFilename(outputDir, dataset, name) := out.0]
        && outcome == if out.1.None? then Finished(|out.0|) else Failed(out.1.value)
    {
      if !Exists(outputDir) {
        dirs := dirs + {outputDir};
      }
      var tfFilename := OutputFilename(outputDir, dataset, name);
      OutputFilenameInDirectory(outputDir, dataset, name);
      if Exists(tfFilename) {
        return Skipped;
      }
      var path := JoinPath(datasetDir, [DIRECTORY_ANNOTATIONS, dataset]);
      if path !in input.listings {
        return Failed(ListingNotFound(path));
      }
      var filenames := Identifiers(input.listings[path]);

      records := records[tfFilename := []];
      ghost var atOpen := records;
      var failure := WriteRecords(datasetDir, dataset, filenames, table, shape, tfFilename);
      ghost var written := Converted(input, datasetDir, dataset, filenames, table, shape).0;
      assert atOpen[tfFilename] + written == written;
      outcome := if failure.None? then Finished(|filenames|) else Failed(failure.value);
    }

    /**
     * Running twice has the effect of running once: a second run finds the
     * output file and skips, unless the first never opened it because the
     * annotation directory is missing, in which case it fails the same way.
     */
    method RunTwice(datasetDir: string, outputDir: string, name: string, dataset: string,
                    table: LabelTable, shape: Shape) returns (first: RunOutcome, second: RunOutcome)
      requires ValidShape(shape)
      modifies this
      ensures dirs == if old(Exists(outputDir)) then old(dirs) else old(dirs) + {outputDir}
      ensures second == Skipped || (second == first && first == Failed(ListingNotFound(AnnotationDir(datasetDir, dataset))))
      ensures old(Exists(OutputFilename(outputDir, dataset, name))) ==> records == old(records)
      ensures !old(Exists(OutputFilename(outputDir, dataset, name))) ==>
        records == if AnnotationDir(datasetDir, dataset) in input.listings
                   then old(records)[OutputFilename(outputDir, dataset, name) :=
                          Converted(input, datasetDir, dataset,
                                    Identifiers(input.listings[AnnotationDir(datasetDir, dataset)]), table, shape).0]
                   else old(records)
    {
      OutputFilenameInDirectory(outputDir, dataset, name);
      first := Run(datasetDir, outputDir, name, dataset, table, shape);
      second := Run(datasetDir, outputDir, name, dataset, table, shape);
    }
  }
}
