/**
 * The data the converter works on: the fixed image geometry, one parsed
 * `object` element of an annotation, the label table and the errors that
 * abort a conversion.
 */
module Types {
  import opened Wrappers

  /** `IMAGE_SHAPE`: height, width and channels, in that order. */
  datatype Shape = Shape(height: int, width: int, channels: int)

  /** Dividing by the dimensions needs them positive. */
  predicate ValidShape(s: Shape)
  {
    s.height > 0 && s.width > 0
  }

  /** The value `IMAGE_SHAPE` has in the converter. */
  const IMAGE_SHAPE: Shape := Shape(500, 500, 3)

  /**
   * A `difficult` or `truncated` child element as `obj.find` returns it:
   * `value` is `int(element.text)` and `subElements` is the number of child
   * elements it has, which is what its Python truth value depends on.
   */
  datatype FlagElement = FlagElement(value: int, subElements: nat)

  /** The four raw pixel coordinates of `bndbox`, after `float(...)`. */
  datatype BndBox = BndBox(xmin: real, ymin: real, xmax: real, ymax: real)

  /** One `object` element of an annotation. */
  datatype AnnObject = AnnObject(
    name: string,
    difficult: Option<FlagElement>,
    truncated: Option<FlagElement>,
    bndbox: BndBox)

  /** `BIB_LABELS`: label name to a tuple whose first entry is the class id. */
  type LabelTable = map<string, seq<int>>

  /** The exceptions that end a conversion. */
  datatype Error =
    | ImageNotFound(path: string)       // FastGFile(...).read() on a missing image
    | AnnotationNotFound(path: string)  // ET.parse on a missing annotation
    | ListingNotFound(path: string)     // os.listdir on a missing directory
    | UnknownLabel(name: string)        // KeyError from BIB_LABELS[label]
    | EmptyLabelEntry(name: string)     // IndexError from BIB_LABELS[label][0]
    | NonAsciiLabel(name: string)       // UnicodeEncodeError from label.encode('ascii')
    | BoxArity(index: nat)              // AssertionError: box `index` has not 4 components
}
