/**
 * The file names the converter builds: where the image and the annotation of
 * one example live, the name of the output file, and the identifiers taken
 * from a directory listing.
 */
module Paths {
  import opened Text

  const DIRECTORY_ANNOTATIONS: string := "Annotations/"
  const DIRECTORY_IMAGES: string := "JPEGImages/"

  /**
   * The image of example `name`: the training split keeps its images in one
   * sub-directory per identifier prefix (the part before the first `-`).
   */
  function ImagePath(directory: string, name: string, dataset: string): string
  {
    if dataset == "training" then
      JoinPath(directory, [DIRECTORY_IMAGES, dataset, PrefixBefore(name, '-'), name + ".jpg"])
    else
      JoinPath(directory, [DIRECTORY_IMAGES, dataset, name + ".jpg"])
  }

  /** The annotation of example `name`, laid out the same way for every split. */
  function AnnotationPath(directory: string, name: string, dataset: string): string
  {
    JoinPath(directory, [DIRECTORY_ANNOTATIONS, dataset, name + ".xml"])
  }

  /** The directory whose listing names the examples of a split. */
  function AnnotationDir(directory: string, dataset: string): string
  {
    JoinPath(directory, [DIRECTORY_ANNOTATIONS, dataset])
  }

  /** `'%s/%s_%s.tfrecord' % (output_dir, name, dataset)`. */
  function OutputFilename(outputDir: string, dataset: string, name: string): (f: string)
    ensures outputDir + "/" <= f
    ensures EndsWith(f, "_" + dataset + ".tfrecord")
  {
    outputDir + "/" + name + "_" + dataset + ".tfrecord"
  }

  /** `[fn.split('.')[0] for fn in entries]`: each entry up to its first `.`. */
  function Identifiers(entries: seq<string>): (ids: seq<string>)
    ensures |ids| == |entries|
    ensures forall i :: 0 <= i < |entries| ==>
      ids[i] <= entries[i] && '.' !in ids[i] && (ids[i] == entries[i] || entries[i][|ids[i]|] == '.')
  {
    seq(|entries|, i requires 0 <= i < |entries| => PrefixBefore(entries[i], '.'))
  }

  /** Regrouping a concatenation of six strings. */
  lemma ConcatRegroup(a: string, b: string, c: string, d: string, e: string, f: string)
    ensures a + b + c + d + (e + f) == a + b + c + d + e + f
  {
  }

  /** The images directory of a split: `directory/JPEGImages/dataset`. */
  lemma SplitImageDir(directory: string, dataset: string)
    requires '/' !in dataset && dataset != ""
    ensures Join(Join(directory, DIRECTORY_IMAGES), dataset)
         == WithSlash(directory) + "JPEGImages/" + dataset
  {
    var d1 := Join(directory, DIRECTORY_IMAGES);
    JoinRelative(directory, DIRECTORY_IMAGES);
    JoinRelative(d1, dataset);
  }

  /**
   * With plain components the training image is at
   * `directory/JPEGImages/training/<prefix>/<name>.jpg`.
   */
  lemma TrainingImagePathLayout(directory: string, name: string)
    requires '/' !in name && PrefixBefore(name, '-') != ""
    ensures ImagePath(directory, name, "training") ==
      WithSlash(directory) + "JPEGImages/" + "training" + "/" + PrefixBefore(name, '-') + "/" + name + ".jpg"
  {
    var prefix := PrefixBefore(name, '-');
    var file := name + ".jpg";
    var d2 := Join(Join(directory, DIRECTORY_IMAGES), "training");
    var w := WithSlash(directory) + "JPEGImages/" + "training";
    SplitImageDir(directory, "training");
    assert d2 == w;
    assert prefix[0] == name[0];
    JoinRelative(d2, prefix);
    var d3 := Join(d2, prefix);
    assert d3[|d3| - 1] == prefix[|prefix| - 1] == name[|prefix| - 1];
    JoinRelative(d3, file);
    JoinPathUnfold4(directory, DIRECTORY_IMAGES, "training", prefix, file);
    calc {
      ImagePath(directory, name, "training");
      JoinPath(directory, [DIRECTORY_IMAGES, "training", prefix, file]);
      Join(d3, file);
      d3 + "/" + file;
      d2 + "/" + prefix + "/" + file;
      w + "/" + prefix + "/" + (name + ".jpg");
      { ConcatRegroup(w, "/", prefix, "/", name, ".jpg"); }
      w + "/" + prefix + "/" + name + ".jpg";
    }
  }

  /**
   * Every other split keeps its images flat:
   * `directory/JPEGImages/<dataset>/<name>.jpg`.
   */
  lemma OtherImagePathLayout(directory: string, name: string, dataset: string)
    requires (name == [] || name[0] != '/')
    requires '/' !in dataset && dataset != "" && dataset != "training"
    ensures ImagePath(directory, name, dataset) ==
      WithSlash(directory) + "JPEGImages/" + dataset + "/" + name + ".jpg"
  {
    var d2 := Join(Join(directory, DIRECTORY_IMAGES), dataset);
    SplitImageDir(directory, dataset);
    JoinRelative(d2, name + ".jpg");
    JoinPathUnfold(directory, DIRECTORY_IMAGES, dataset, name + ".jpg");
  }

  /**
   * A training identifier that starts with `-` has an empty prefix, and the
   * image then sits directly in the training directory.
   */
  lemma ImagePathEmptyPrefix(directory: string, name: string)
    requires |name| > 0 && name[0] == '-'
    ensures ImagePath(directory, name, "training") ==
      WithSlash(directory) + "JPEGImages/" + "training" + "/" + name + ".jpg"
  {
    assert PrefixBefore(name, '-') == "";
    var d2 := Join(Join(directory, DIRECTORY_IMAGES), "training");
    JoinRelative(directory, DIRECTORY_IMAGES);
    JoinPathUnfold4(directory, DIRECTORY_IMAGES, "training", "", name + ".jpg");
  }

  /** The annotation path is the same slash-separated path for every split. */
  lemma AnnotationPathLayout(directory: string, name: string, dataset: string)
    requires name == [] || name[0] != '/'
    requires '/' !in dataset && dataset != ""
    ensures AnnotationPath(directory, name, dataset) ==
      WithSlash(directory) + "Annotations/" + dataset + "/" + name + ".xml"
  {
    JoinRelative(directory, DIRECTORY_ANNOTATIONS);
    JoinPathUnfold(directory, DIRECTORY_ANNOTATIONS, dataset, name + ".xml");
  }

  /**
   * Listing an annotation `stem.xml` and taking its identifier leads back to
   * that same file, provided the stem has no `.` of its own.
   */
  lemma IdentifierFindsAnnotation(directory: string, dataset: string, stem: string)
    requires '.' !in stem && (stem == [] || stem[0] != '/')
    ensures Identifiers([stem + ".xml"]) == [stem]
    ensures AnnotationPath(directory, Identifiers([stem + ".xml"])[0], dataset)
         == Join(AnnotationDir(directory, dataset), stem + ".xml")
  {
    var entry := stem + ".xml";
    assert entry[|stem|] == '.';
    PrefixBeforeUnique(entry, '.', stem);
    JoinPathUnfold(directory, DIRECTORY_ANNOTATIONS, dataset, entry);
  }

  /** A listing entry with two dots loses everything from its first dot. */
  lemma IdentifierStopsAtFirstDot()
    ensures Identifiers(["img.v2.xml"]) == ["img"]
  {
    PrefixBeforeUnique("img.v2.xml", '.', "img");
  }

  /**
   * The output file lies in the output directory and carries the
   * `.tfrecord` extension; it is never the directory itself.
   */
  lemma OutputFilenameInDirectory(outputDir: string, dataset: string, name: string)
    ensures var f := OutputFilename(outputDir, dataset, name);
      f[..|outputDir| + 1] == outputDir + "/"
      && f[|f| - 9..] == ".tfrecord"
      && f != outputDir
  {
  }

  /**
   * Within one output directory, names without `_` give distinct files for
   * distinct (name, split) pairs, so one split's run never skips because of
   * another's output.
   */
  lemma OutputFilenameInjective(outputDir: string, dataset1: string, name1: string,
                                dataset2: string, name2: string)
    requires '_' !in name1 && '_' !in name2
    requires OutputFilename(outputDir, dataset1, name1) == OutputFilename(outputDir, dataset2, name2)
    ensures name1 == name2 && dataset1 == dataset2
  {
    var f := OutputFilename(outputDir, dataset1, name1);
    var k := |outputDir| + 1;
    var m1 := name1 + "_" + dataset1;
    var m2 := name2 + "_" + dataset2;
    assert f == (outputDir + "/") + m1 + ".tfrecord";
    assert f == (outputDir + "/") + m2 + ".tfrecord";
    assert m1 == f[k..|f| - 9];
    assert m2 == f[k..|f| - 9];
    assert m1[|name1|] == '_' && m2[|name2|] == '_';
    PrefixBeforeUnique(m1, '_', name1);
    PrefixBeforeUnique(m2, '_', name2);
    assert dataset1 == m1[|name1| + 1..] && dataset2 == m2[|name2| + 1..];
  }
}
