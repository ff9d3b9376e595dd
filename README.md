# Verified model of the BIB-to-TFRecords converter

This project models the per-example transform of `datasets/bib_to_tfrecords.py`,
a script that turns an image dataset with Pascal-VOC-style XML annotations into one
TFRecord file per split. It covers:

- the **loader** (`_process_image`): it picks the image and annotation paths, reads the image
  bytes, and turns each `object` element into parallel list entries. Each entry gets the
  class id from the label table, the ASCII label name, the `difficult`/`truncated` flags, and
  a box clamped to the fixed image and normalised in `(ymin, xmin, ymax, xmax)` order;
- the **encoder** (`_convert_to_example`): it splits the 4-tuples into four coordinate lists
  through `zip([xmin, ymin, xmax, ymax], b)` and builds the record's fields;
- the **driver** (`_add_to_tfrecord`, `_get_output_filename`, `run`): it names the output
  file, skips when that file exists, derives identifiers from the annotation listing, and
  appends one record per identifier.

The image geometry `IMAGE_SHAPE` is a parameter (`Types.Shape`, with positive height and
width); `Types.IMAGE_SHAPE` holds the script's `[500, 500, 3]`. The label table
`BIB_LABELS` is a parameter `map<string, seq<int>>`. The dataset on disk is a value
(`Loader.InputTree`): images and parsed annotations by path, and listings by directory.
The output side is a class (`Driver.Disk`) whose directories and record files `run` updates.
Coordinates are exact `real`s.

Behaviour kept as the code has it, where it differs from its docstrings or from what a reader would expect:

- **Axes are swapped in the record.** The `_convert_to_example` docstring
  (`datasets/bib_to_tfrecords.py:132-133`) says each box is `[xmin, ymin, xmax, ymax]`, but
  the boxes are built as `(ymin, xmin, ymax, xmax)` (lines 116-119) and stored through
  `[xmin, ymin, xmax, ymax]` (line 145). So `image/object/bbox/xmin` holds the normalised
  y-minima, and so on (`Driver.RecordOfAnnotation`). In a two-object example (second box
  xmin 10, ymin 10, xmax 600, ymax 450, on 500×500) the record has `bbox_xmax[1] == 0.9`
  and `bbox_ymax[1] == 1.0` (`Driver.TwoObjectRecord`).
- **Flags use the element's truth value.** `if obj.find('difficult'):` tests an ElementTree
  element, which is true only when the element has child elements. A leaf
  `<difficult>1</difficult>` therefore yields 0. Only a found element that has children
  contributes `int(text)` (`Annotation.FlagValue`, `Annotation.LeafFlagIsZero`). So in that
  two-object example, a leaf `<difficult>1</difficult>` on the first object gives
  `bbox_difficult == [0, 0]`, not `[1, 0]`.
- **Identifiers stop at the first `.`.** An identifier is the listing entry up to its first
  `.`, so `img.v2.xml` becomes `img` (`Paths.IdentifierStopsAtFirstDot`).
- **One output file.** The code writes a single file per split, with no sharding.
- **Partial files stay.** A failure part-way leaves the records written so far in the
  output file, and a later run then skips because that file exists (`Driver.Disk.Run`).
- **Path joining follows `posixpath.join`.** An absolute component replaces everything
  before it, and an empty training prefix (an identifier starting with `-`) does not add a
  sub-directory level (`Text.Join`, `Paths.ImagePathEmptyPrefix`).

## Model

| member | source | states |
|---|---|---|
| `Text.PrefixBefore` | datasets/bib_to_tfrecords.py:79 | `s.split(sep)[0]` is a prefix of `s` that has no `sep` and is either all of `s` or followed by `sep` |
| `Text.PrefixBeforeUnique` | datasets/bib_to_tfrecords.py:79 | those three properties determine the split prefix uniquely |
| `Text.CharsOfEncodeAscii` | datasets/bib_to_tfrecords.py:98 | `label.encode('ascii')` has one byte per character, and decoding it gives the label name back |
| `Paths.ImagePath` | datasets/bib_to_tfrecords.py:78-81 | definition: the image path joined with `os.path.join`, with a prefix directory only for `training`; its layout is stated by `Paths.TrainingImagePathLayout`, `Paths.OtherImagePathLayout` and `Paths.ImagePathEmptyPrefix` |
| `Paths.TrainingImagePathLayout` | datasets/bib_to_tfrecords.py:78-79 | a training image is at `dir/JPEGImages/training/<prefix before first '-'>/<name>.jpg` |
| `Paths.OtherImagePathLayout` | datasets/bib_to_tfrecords.py:80-81 | any other split's image is at `dir/JPEGImages/<dataset>/<name>.jpg`, with no prefix directory |
| `Paths.ImagePathEmptyPrefix` | datasets/bib_to_tfrecords.py:79 | a training identifier starting with `-` has its image directly in `JPEGImages/training/` |
| `Paths.AnnotationPath` | datasets/bib_to_tfrecords.py:85 | definition: the annotation path joined with `os.path.join`; its layout is stated by `Paths.AnnotationPathLayout` |
| `Paths.AnnotationPathLayout` | datasets/bib_to_tfrecords.py:85 | the annotation is at `dir/Annotations/<dataset>/<name>.xml` for every split |
| `Paths.AnnotationDir` | datasets/bib_to_tfrecords.py:201 | definition: the directory `run` lists; `Paths.IdentifierFindsAnnotation` states that a listed entry leads back to its annotation |
| `Paths.Identifiers` | datasets/bib_to_tfrecords.py:202 | one identifier per listing entry: the entry up to, not including, its first `.` |
| `Paths.IdentifierFindsAnnotation` | datasets/bib_to_tfrecords.py:201-202 | the identifier of a listed `stem.xml` (stem without `.`) leads back to that same annotation file |
| `Paths.IdentifierStopsAtFirstDot` | datasets/bib_to_tfrecords.py:202 | `img.v2.xml` gives the identifier `img` |
| `Paths.OutputFilename` | datasets/bib_to_tfrecords.py:182-183 | the name starts with `output_dir/` and ends with `_<dataset>.tfrecord` |
| `Paths.OutputFilenameInDirectory` | datasets/bib_to_tfrecords.py:182-183 | the output file is `output_dir/…` with the `.tfrecord` extension and is never the directory itself |
| `Paths.OutputFilenameInjective` | datasets/bib_to_tfrecords.py:182-183 | for names without `_`, distinct (name, split) pairs give distinct output files in one directory |
| `Annotation.FlagValue` | datasets/bib_to_tfrecords.py:100-107 | a flag is non-zero only if the element was found, tests true and has that value; a found, true element gives its value |
| `Annotation.MissingFlagIsZero` | datasets/bib_to_tfrecords.py:100-107 | a missing `difficult`/`truncated` element gives 0 |
| `Annotation.LeafFlagIsZero` | datasets/bib_to_tfrecords.py:100-101 | an element with no children (`<difficult>1</difficult>`) tests false and gives 0, whatever its text |
| `Annotation.Clamp` | datasets/bib_to_tfrecords.py:110-113 | `max(min(v, dim), 0)` lies in `[0, dim]`, equals `v` when `v` is in range, and is `dim` above it and 0 below it |
| `Annotation.Normalize` | datasets/bib_to_tfrecords.py:110-119 | a normalised coordinate lies in `[0, 1]`, scales back to the raw value when in range, and is 1 or 0 when out of range |
| `Annotation.NormalizedBox` | datasets/bib_to_tfrecords.py:116-119 | each appended box has exactly four components, all in `[0, 1]` |
| `Annotation.OversizeWarning` | datasets/bib_to_tfrecords.py:114 | the warning test on clamped coordinates can only be true when the image is more than 500 pixels high or wide |
| `Annotation.OversizeWarningNeverFires` | datasets/bib_to_tfrecords.py:114-115 | on a shape at most 500×500 the test `ymax > 500 or xmax > 500` on clamped values is never true |
| `Annotation.ObjectEntry` | datasets/bib_to_tfrecords.py:96-120 | one object gives an entry iff its name is recognized; otherwise the error is the one raised by the first failing lookup; an entry has a 4-component box, the first class id `BIB_LABELS[name][0]`, and the name's ASCII bytes |
| `Annotation.ProcessedObjects` | datasets/bib_to_tfrecords.py:90-121 | when the loop finishes, the five lists all have one entry per `object` element |
| `Annotation.ProcessedObjectsOk` | datasets/bib_to_tfrecords.py:95-121 | the loop finishes iff every name is in the table, has an id and is ASCII; then entry `i` is object `i`'s box, `BIB_LABELS[name][0]`, encoded name and flags |
| `Annotation.ProcessedObjectsErr` | datasets/bib_to_tfrecords.py:96-98 | a failure is the KeyError, IndexError or encoding error of the first unrecognized name, all earlier names being recognized |
| `Loader.LoadedExample` | datasets/bib_to_tfrecords.py:66-121 | a loaded example means the image and the annotation both exist; it carries the image file's bytes and five lists with one entry per object; `Loader.LoadedExampleSpec` states which error is reported |
| `Loader.LoadedExampleSpec` | datasets/bib_to_tfrecords.py:78-98 | a missing image is reported first, then a missing annotation; with both present the error is the object loop's lookup error; loading succeeds iff both files exist and all names are recognized (reading the image as raw bytes, see "Left out"); then it returns the image bytes and the loop's five lists, one entry per object |
| `Loader.ProcessImage` | datasets/bib_to_tfrecords.py:66-121 | the imperative loop computes exactly `LoadedExample`: the same paths, errors and five lists |
| `Encoder.Transposed` | datasets/bib_to_tfrecords.py:138-146 | after the loop the four coordinate lists each have one entry per box |
| `Encoder.TransposedOk` | datasets/bib_to_tfrecords.py:142-146 | transposition succeeds iff every box has 4 components, and then the `k`-th list's `i`-th entry is `bboxes[i][k]`, boxes in order |
| `Encoder.TransposedErr` | datasets/bib_to_tfrecords.py:143 | the assertion fails at the first box that does not have 4 components |
| `Encoder.ExampleOf` | datasets/bib_to_tfrecords.py:124-164 | a failure names a box without four components; a record carries the image bytes and the format `JPEG`; `Encoder.ExampleOfSpec` states the full record |
| `Encoder.ExampleOfSpec` | datasets/bib_to_tfrecords.py:148-163 | the record has height, width, channels and shape from `IMAGE_SHAPE`, format `JPEG`, the image bytes, and the label and flag lists as given; `xmin`/`ymin`/`xmax`/`ymax` are components 0/1/2/3 |
| `Encoder.ConvertToExample` | datasets/bib_to_tfrecords.py:124-164 | the imperative loop builds exactly the record `ExampleOf` describes, or fails at the same box |
| `Driver.ExampleFor` | datasets/bib_to_tfrecords.py:167-179 | definition: `_process_image` followed by `_convert_to_example`; what it returns is stated by `Driver.RecordOfAnnotation` |
| `Driver.RecordOfAnnotation` | datasets/bib_to_tfrecords.py:175-178 | every failure is the loader's error, never a box of the wrong size; a record exists iff image and annotation exist and all names are recognized; all eight lists have one entry per object; `xmin` holds normalised ymin, `ymin` xmin, `xmax` ymax, `ymax` xmax; no arity failure occurs |
| `Driver.UnknownLabelAbortsRecord` | datasets/bib_to_tfrecords.py:96-97 | with both files present, a label name missing from `BIB_LABELS` after recognized names ends the example with the `KeyError` of that name |
| `Driver.RecordCoordinatesInUnitRange` | datasets/bib_to_tfrecords.py:110-120 | every stored coordinate lies in `[0, 1]` |
| `Driver.TwoObjectRecord` | datasets/bib_to_tfrecords.py:145-157 | in the two-object example the x-maximum 600 clamps to 1.0 stored as `ymax`, 450 becomes 0.9 stored as `xmax`, and both flag lists are `[0, 0]` |
| `Driver.Collected` | datasets/bib_to_tfrecords.py:206-211 | appending results until the first failure never writes more records than results, and all of them when none fails |
| `Driver.CollectedSpec` | datasets/bib_to_tfrecords.py:206-211 | the written records are the results in order up to the first failure, whose error is reported; there is no failure iff all succeed |
| `Driver.Converted` | datasets/bib_to_tfrecords.py:206-211 | definition: the loop of `run` as `Driver.Collected` over the identifiers' results; what it writes is stated by `Driver.ConvertedSpec` |
| `Driver.ConvertedSpec` | datasets/bib_to_tfrecords.py:206-211 | the output file holds the records of the identifiers in listing order, up to just before the first identifier that fails |
| `Driver.Disk.AddToTfrecord` | datasets/bib_to_tfrecords.py:167-179 | one example's record is appended to the open file; on failure nothing is written |
| `Driver.Disk.WriteRecords` | datasets/bib_to_tfrecords.py:206-211 | the file receives the converted records of all identifiers, or those before the first failure, which is returned |
| `Driver.Disk.Run` | datasets/bib_to_tfrecords.py:186-216 | the output directory is created if missing; an existing output file means a skip with nothing changed; a missing listing fails before any file is opened; otherwise the file holds the converted records |
| `Driver.Disk.RunTwice` | datasets/bib_to_tfrecords.py:196-199 | a second run skips (or repeats a listing failure) and leaves the directories and records the first run left |

## Left out

- File and directory I/O: reading image bytes, `os.listdir` and its order, and `tf.gfile` are replaced by the `InputTree` value and the `Disk` fields. The listing order is taken as given.
- `Loader.LoadedExampleSpec`: reading an existing image always yields its raw bytes. This is the behaviour of `tf.gfile.FastGFile(filename, 'r').read()` (line 83) under Python 2. Under Python 3 the `'r'` text mode decodes the file as UTF-8, which fails on any JPEG (first byte 0xFF). That decode error is not modelled.
- Paths are compared as plain strings, not normalised: `out//bib_training.tfrecord` and `out/bib_training.tfrecord` are different keys in the model, though they name one file. Repeated `/`, `.`/`..` components and symbolic links are not modelled, so `Disk.Exists` can miss a file that `tf.gfile.Exists` finds.
- `tf.gfile.MakeDirs` creates missing parent directories; the model records only the output directory itself.
- XML parsing with ElementTree: an annotation is its list of parsed `object` elements. Malformed XML and a missing `name`, `bndbox` or coordinate element (an AttributeError in the source) are not modelled.
- Text-to-number conversion: `float(...)` of the coordinates and `int(...)` of a flag's text are given as already converted, so a flag text that is not an integer does not raise.
- Floating point: division and comparison are exact on reals; IEEE rounding, NaN and infinities are not modelled.
- TensorFlow and the `dataset_utils` helpers (`tf.train.Example`, `SerializeToString`, `TFRecordWriter`): a record is the `Encoder.Example` value and a record file is the sequence of records appended to it.
- Console output: the progress lines, the skip and completion messages, and the debug `print(name)`. Only the warning test itself is modelled, as `Annotation.OversizeWarning`.
- The contents of `BIB_LABELS` (in `datasets/bib_common`, which is not part of this model): the table is a parameter.
- `os.path.join` is modelled with POSIX semantics only.
- Default arguments: `run`'s `name='bib'` and `dataset='training'` (line 186) and `_process_image`'s `dataset='training'` (line 66) are not modelled; every caller passes all arguments explicitly.
- The `assert` in `_convert_to_example` is assumed enabled. Under `python -O` it is dropped and `zip` would silently truncate.
- Sharding, claimed by the module docstring, does not happen in the code and is not modelled.
