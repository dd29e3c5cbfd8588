/**
 * The YOLO-to-COCO annotation converter (`create_coco_annotations` in
 * gen_annotations.py).
 *
 * The two directories the converter reads become plain inputs:
 *  - `entries`: the names `os.listdir` returns for the image directory;
 *  - `sizes`: for each name that PIL can open, the image's `(width, height)`;
 *    a name without an entry is one on which `Image.open` raises;
 *  - `labels`: for each label file that exists in the label directory, the
 *    lines iterating over it yields; a missing key is a missing file.
 * An exception that escapes the converter is a `Failure` naming its cause.
 * Coordinates are exact reals.
 */
module Annotations {
  import opened Wrappers
  import opened PyText
  import opened Sorting

  // ---------------------------------------------------------------------------
  // The COCO document
  // ---------------------------------------------------------------------------

  datatype Size = Size(width: nat, height: nat)

  datatype ImageRecord = ImageRecord(id: int, fileName: string, height: nat, width: nat, dateCaptured: string)

  /** `[x, y, w, h]` in pixels, `(x, y)` being the top-left corner. */
  datatype BBox = BBox(x: real, y: real, width: real, height: real)

  datatype Annotation = Annotation(
    id: nat,
    imageId: int,
    categoryId: int,
    bbox: BBox,
    area: real,
    segmentation: seq<seq<real>>,
    isCrowd: nat)

  datatype Category = Category(id: nat, name: string, supercategory: string)

  datatype Info = Info(year: nat, version: string, description: string, contributor: string, dateCreated: string)

  datatype License = License(id: nat, name: string, url: string)

  datatype Document = Document(
    info: Info,
    licenses: seq<License>,
    categories: seq<Category>,
    images: seq<ImageRecord>,
    annotations: seq<Annotation>)

  /** One YOLO label line: a category and a box in coordinates normalised to the image. */
  datatype LabelLine = LabelLine(category: real, xCenter: real, yCenter: real, width: real, height: real)

  /** The exceptions that abort a conversion. */
  datatype ConvertError =
    | UnreadableImage(fileName: string)          // `Image.open` raises
    | BadImageId(fileName: string)               // `int(...)` of the stem raises
    | MalformedLine(labelFile: string, line: nat) // the 5-way unpacking or a `float` raises

  /** What the converter has accumulated so far: images, annotations and the next annotation id. */
  datatype Progress = Progress(images: seq<ImageRecord>, annotations: seq<Annotation>, nextId: nat)

  const CategoryCount: nat := 80
  const DateCaptured := "2024"
  const DatasetInfo := Info(2024, "1.0", "COCO128 Dataset", "Generated", "2024")
  const DatasetLicenses := [License(1, "Attribution-NonCommercial", "http://creativecommons.org/licenses/by-nc-sa/2.0/")]

  /** The first `n` categories of the fixed list: category `i` is named `str(i)`. */
  function CategoryList(n: nat): (cs: seq<Category>)
    ensures |cs| == n
    ensures forall i :: 0 <= i < n ==> cs[i] == Category(i, Decimal(i), "none")
  {
    if n == 0 then [] else CategoryList(n - 1) + [Category(n - 1, Decimal(n - 1), "none")]
  }

  function Categories(): seq<Category> {
    CategoryList(CategoryCount)
  }

  // ---------------------------------------------------------------------------
  // File names
  // ---------------------------------------------------------------------------

  predicate IsImageFile(name: string) {
    EndsWith(name, ".jpg")
  }

  /** `int(name.split('.')[0])`: the text before the first dot read as an integer, or `None` where that raises. */
  function ImageId(name: string): (id: Option<int>)
    ensures id == ParseInt(name[..IndexOf(name, '.')])
  {
    var stem := FirstField(name, '.');
    assert stem == name[..IndexOf(name, '.')];
    ParseInt(stem)
  }

  /** The extension `.jpg` cannot overlap with itself. */
  lemma JpgNoSelfOverlap()
    ensures NoSelfOverlap(".jpg")
  {
    var p := ".jpg";
    forall k | 0 < k < |p|
      ensures p[k..] != p[..|p| - k]
    {
      assert p[k..][0] != '.';
    }
  }

  /**
   * `name.replace('.jpg', '.txt')`: a name of the same length, and the label file
   * of an image file ends in `.txt`.
   */
  function LabelFileName(name: string): (txt: string)
    ensures |txt| == |name|
    ensures IsImageFile(name) ==> EndsWith(txt, ".txt")
  {
    if IsImageFile(name) then
      JpgNoSelfOverlap();
      ReplaceAllSuffix(name, ".jpg", ".txt");
      ReplaceAll(name, ".jpg", ".txt")
    else ReplaceAll(name, ".jpg", ".txt")
  }

  // ---------------------------------------------------------------------------
  // One label line
  // ---------------------------------------------------------------------------

  /** `map(f, xs)` consumed to the end, or `None` where one call of `f` raises. */
  function MapAll<A, B>(f: A -> Option<B>, xs: seq<A>): (ys: Option<seq<B>>)
    ensures ys.Some? ==> |ys.value| == |xs|
  {
    if xs == [] then Some([])
    else
      match MapAll(f, xs[..|xs| - 1])
      case None => None
      case Some(vs) =>
        match f(xs[|xs| - 1])
        case None => None
        case Some(v) => Some(vs + [v])
  }

  /** The map succeeds exactly when every call does, and then holds each call's value in place. */
  lemma {:induction false} MapAllEach<A, B>(f: A -> Option<B>, xs: seq<A>)
    ensures MapAll(f, xs).Some? <==> forall i :: 0 <= i < |xs| ==> f(xs[i]).Some?
    ensures MapAll(f, xs).Some? ==> forall i :: 0 <= i < |xs| ==> MapAll(f, xs).value[i] == f(xs[i]).value
  {
    if xs != [] {
      var n := |xs| - 1;
      MapAllEach(f, xs[..n]);
      assert forall i :: 0 <= i < n ==> xs[..n][i] == xs[i];
    }
  }

  /** `map(float, tokens)` consumed to the end, or `None` where a `float` raises. */
  function ParseFloats(tokens: seq<string>): (values: Option<seq<real>>)
    ensures values.Some? ==> |values.value| == |tokens|
  {
    MapAll(ParseFloat, tokens)
  }

  /** `map(float, line.strip().split())` unpacked into five names, or `None` where that raises. */
  function ParseLabelLine(line: string): Option<LabelLine> {
    var tokens := Split(Strip(line));
    if |tokens| != 5 then None
    else
      match ParseFloats(tokens)
      case None => None
      case Some(v) => Some(LabelLine(v[0], v[1], v[2], v[3], v[4]))
  }

  /**
   * The corner box in pixels of a YOLO box: its centre is the normalised centre
   * scaled to the image, and its sides are the normalised sides scaled likewise.
   */
  function CocoBox(l: LabelLine, size: Size): (b: BBox)
    ensures b.x + b.width / 2.0 == l.xCenter * size.width as real
    ensures b.y + b.height / 2.0 == l.yCenter * size.height as real
    ensures b.width == l.width * size.width as real && b.height == l.height * size.height as real
  {
    var w := size.width as real;
    var h := size.height as real;
    BBox((l.xCenter - l.width / 2.0) * w, (l.yCenter - l.height / 2.0) * h, l.width * w, l.height * h)
  }

  /** The YOLO box of a corner box, for an image with both sides positive. */
  function YoloOf(category: real, b: BBox, size: Size): LabelLine
    requires size.width > 0 && size.height > 0
  {
    var w := size.width as real;
    var h := size.height as real;
    LabelLine(category, (b.x + b.width / 2.0) / w, (b.y + b.height / 2.0) / h, b.width / w, b.height / h)
  }

  /**
   * The annotation record the converter builds for one label line: the pixel box,
   * the category truncated to an integer, the box's area, no segmentation, not a crowd.
   */
  function MakeAnnotation(id: nat, imageId: int, l: LabelLine, size: Size): (a: Annotation)
    ensures a.id == id && a.imageId == imageId
    ensures a.categoryId == Truncate(l.category) && a.bbox == CocoBox(l, size)
    ensures a.segmentation == [] && a.isCrowd == 0
  {
    var b := CocoBox(l, size);
    Annotation(id, imageId, Truncate(l.category), b, b.width * b.height, [], 0)
  }

  /** The area of an annotation is the normalised area scaled by the image's pixel count. */
  lemma AnnotationArea(id: nat, imageId: int, l: LabelLine, size: Size)
    ensures MakeAnnotation(id, imageId, l, size).area == l.width * l.height * (size.width * size.height) as real
  {
    var w := size.width as real;
    var h := size.height as real;
    assert (l.width * w) * (l.height * h) == l.width * l.height * (w * h);
  }

  // ---------------------------------------------------------------------------
  // The conversion, as a specification
  // ---------------------------------------------------------------------------

  /** `f` applied to every element, keeping each outcome, failed or not. */
  function EachOutcome<A, B>(f: A -> Option<B>, xs: seq<A>): (ys: seq<Option<B>>)
    ensures |ys| == |xs|
  {
    if xs == [] then [] else EachOutcome(f, xs[..|xs| - 1]) + [f(xs[|xs| - 1])]
  }

  /** Outcome `k` is the call on element `k`. */
  lemma {:induction false} EachOutcomeAt<A, B>(f: A -> Option<B>, xs: seq<A>, k: nat)
    requires k < |xs|
    ensures EachOutcome(f, xs)[k] == f(xs[k])
  {
    if k < |xs| - 1 {
      EachOutcomeAt(f, xs[..|xs| - 1], k);
    }
  }

  /** Every line of a label file, parsed. */
  function ParseLines(lines: seq<string>): (parsed: seq<Option<LabelLine>>)
    ensures |parsed| == |lines|
  {
    EachOutcome(ParseLabelLine, lines)
  }

  /**
   * Annotating the parsed lines of one label file, one after the other; the
   * first line that did not parse aborts the conversion.
   */
  function AddLines(p: Progress, imageId: int, labelFile: string, parsed: seq<Option<LabelLine>>, size: Size): Result<Progress, ConvertError> {
    if parsed == [] then Success(p)
    else
      match AddLines(p, imageId, labelFile, parsed[..|parsed| - 1], size)
      case Failure(e) => Failure(e)
      case Success(q) =>
        match parsed[|parsed| - 1]
        case None => Failure(MalformedLine(labelFile, |parsed| - 1))
        case Some(l) =>
          Success(Progress(q.images, q.annotations + [MakeAnnotation(q.nextId, imageId, l, size)], q.nextId + 1))
  }

  /** One directory entry: skipped unless it is a `.jpg` file. */
  function AddImage(p: Progress, name: string, sizes: map<string, Size>, labels: map<string, seq<string>>): Result<Progress, ConvertError> {
    if !IsImageFile(name) then Success(p)
    else if name !in sizes then Failure(UnreadableImage(name))
    else
      match ImageId(name)
      case None => Failure(BadImageId(name))
      case Some(id) =>
        var size := sizes[name];
        var q := Progress(p.images + [ImageRecord(id, name, size.height, size.width, DateCaptured)], p.annotations, p.nextId);
        var labelFile := LabelFileName(name);
        if labelFile in labels then AddLines(q, id, labelFile, ParseLines(labels[labelFile]), size) else Success(q)
  }

  /** The entries processed in the order given. */
  function Scan(names: seq<string>, sizes: map<string, Size>, labels: map<string, seq<string>>): Result<Progress, ConvertError> {
    if names == [] then Success(Progress([], [], 0))
    else
      match Scan(names[..|names| - 1], sizes, labels)
      case Failure(e) => Failure(e)
      case Success(p) => AddImage(p, names[|names| - 1], sizes, labels)
  }

  /** The whole conversion: the entries in sorted order, then the document. */
  function Convert(entries: seq<string>, sizes: map<string, Size>, labels: map<string, seq<string>>): Result<Document, ConvertError> {
    match Scan(Sort(entries), sizes, labels)
    case Failure(e) => Failure(e)
    case Success(p) => Success(Document(DatasetInfo, DatasetLicenses, Categories(), p.images, p.annotations))
  }

  // ---------------------------------------------------------------------------
  // The conversion, as the converter performs it
  // ---------------------------------------------------------------------------

  lemma ParseLinesAt(lines: seq<string>, k: nat)
    requires k < |lines|
    ensures ParseLines(lines)[k] == ParseLabelLine(lines[k])
  {
    EachOutcomeAt(ParseLabelLine, lines, k);
  }

  lemma {:induction false} AddLinesFailurePersists(p: Progress, imageId: int, labelFile: string, parsed: seq<Option<LabelLine>>, size: Size, k: nat)
    requires k <= |parsed| && AddLines(p, imageId, labelFile, parsed[..k], size).Failure?
    ensures AddLines(p, imageId, labelFile, parsed, size) == AddLines(p, imageId, labelFile, parsed[..k], size)
    decreases |parsed|
  {
    if k < |parsed| {
      assert parsed[..|parsed| - 1][..k] == parsed[..k];
      AddLinesFailurePersists(p, imageId, labelFile, parsed[..|parsed| - 1], size, k);
    } else {
      assert parsed[..k] == parsed;
    }
  }

  lemma {:induction false} ScanFailurePersists(names: seq<string>, sizes: map<string, Size>, labels: map<string, seq<string>>, k: nat)
    requires k <= |names| && Scan(names[..k], sizes, labels).Failure?
    ensures Scan(names, sizes, labels) == Scan(names[..k], sizes, labels)
    decreases |names|
  {
    if k < |names| {
      assert names[..|names| - 1][..k] == names[..k];
      ScanFailurePersists(names[..|names| - 1], sizes, labels, k);
    } else {
      assert names[..k] == names;
    }
  }

  /** One more parsed line that did parse: one more annotation, with the next id. */
  lemma AddLinesStep(p: Progress, imageId: int, labelFile: string, parsed: seq<Option<LabelLine>>, j: nat, size: Size, q: Progress, l: LabelLine)
    requires j < |parsed| && AddLines(p, imageId, labelFile, parsed[..j], size) == Success(q) && parsed[j] == Some(l)
    ensures AddLines(p, imageId, labelFile, parsed[..j + 1], size) == Success(Progress(q.images, q.annotations + [MakeAnnotation(q.nextId, imageId, l, size)], q.nextId + 1))
  {
    assert parsed[..j + 1][..j] == parsed[..j];
  }

  /** A line that did not parse, after lines that did, is the error of the whole file. */
  lemma AddLinesStopsAt(p: Progress, imageId: int, labelFile: string, parsed: seq<Option<LabelLine>>, j: nat, size: Size)
    requires j < |parsed| && AddLines(p, imageId, labelFile, parsed[..j], size).Success? && parsed[j].None?
    ensures AddLines(p, imageId, labelFile, parsed, size) == Failure(MalformedLine(labelFile, j))
  {
    assert parsed[..j + 1][..j] == parsed[..j];
    AddLinesFailurePersists(p, imageId, labelFile, parsed, size, j + 1);
  }

  /** One more directory entry. */
  lemma ScanStep(names: seq<string>, i: nat, sizes: map<string, Size>, labels: map<string, seq<string>>, p: Progress)
    requires i < |names| && Scan(names[..i], sizes, labels) == Success(p)
    ensures Scan(names[..i + 1], sizes, labels) == AddImage(p, names[i], sizes, labels)
  {
    assert names[..i + 1][..i] == names[..i];
  }

  /** `map(float, line.strip().split())` unpacked, for line `j` of a label file. */
  method ReadLabelLine(lines: seq<string>, j: nat) returns (parsed: Option<LabelLine>)
    requires j < |lines|
    ensures parsed == ParseLines(lines)[j]
  {
    ParseLinesAt(lines, j);
    parsed := ParseLabelLine(lines[j]);
  }

  /**
   * The inner loop of `create_coco_annotations`: one annotation per line of an
   * existing label file, each taking the next annotation id.
   */
  method AnnotateLines(start: Progress, imageId: int, txtFile: string, lines: seq<string>, size: Size)
    returns (r: Result<Progress, ConvertError>)
    ensures r == AddLines(start, imageId, txtFile, ParseLines(lines), size)
  {
    ghost var parsed := ParseLines(lines);
    var annotations := start.annotations;
    var annotationId := start.nextId;
    var j := 0;
    while j < |lines|
      invariant j <= |lines|
      invariant AddLines(start, imageId, txtFile, parsed[..j], size) == Success(Progress(start.images, annotations, annotationId))
    {
      var parsedLine := ReadLabelLine(lines, j);
      if parsedLine.None? {
        AddLinesStopsAt(start, imageId, txtFile, parsed, j, size);
        return Failure(MalformedLine(txtFile, j));
      }
      var l := parsedLine.value;
      AddLinesStep(start, imageId, txtFile, parsed, j, size, Progress(start.images, annotations, annotationId), l);
      annotations := annotations + [MakeAnnotation(annotationId, imageId, l, size)];
      annotationId := annotationId + 1;
      j := j + 1;
    }
    assert parsed[..j] == parsed;
    r := Success(Progress(start.images, annotations, annotationId));
  }

  /**
   * The body of the outer loop of `create_coco_annotations` for one directory
   * entry: skip it unless it is a `.jpg` file, otherwise read its size and id,
   * record the image and annotate its label file when there is one.
   */
  method AddImageFile(p: Progress, imgFile: string, sizes: map<string, Size>, labels: map<string, seq<string>>)
    returns (r: Result<Progress, ConvertError>)
    ensures r == AddImage(p, imgFile, sizes, labels)
  {
    if !IsImageFile(imgFile) {
      return Success(p);
    }
    if imgFile !in sizes {
      return Failure(UnreadableImage(imgFile));
    }
    var size := sizes[imgFile];
    var parsedId := ImageId(imgFile);
    if parsedId.None? {
      return Failure(BadImageId(imgFile));
    }
    var imageId := parsedId.value;
    var withImage := Progress(p.images + [ImageRecord(imageId, imgFile, size.height, size.width, DateCaptured)], p.annotations, p.nextId);
    var txtFile := LabelFileName(imgFile);
    if txtFile in labels {
      r := AnnotateLines(withImage, imageId, txtFile, labels[txtFile], size);
    } else {
      r := Success(withImage);
    }
  }

  /** The outer loop of `create_coco_annotations`, over names already sorted. */
  method ScanNames(names: seq<string>, sizes: map<string, Size>, labels: map<string, seq<string>>)
    returns (r: Result<Progress, ConvertError>)
    ensures r == Scan(names, sizes, labels)
  {
    var progress := Progress([], [], 0);
    var i := 0;
    while i < |names|
      invariant i <= |names|
      invariant Scan(names[..i], sizes, labels) == Success(progress)
    {
      ScanStep(names, i, sizes, labels, progress);
      var next := AddImageFile(progress, names[i], sizes, labels);
      if next.Failure? {
        ScanFailurePersists(names, sizes, labels, i + 1);
        return Failure(next.error);
      }
      progress := next.value;
      i := i + 1;
    }
    assert names[..i] == names;
    r := Success(progress);
  }

  /** `create_coco_annotations`: the entries in sorted order, each `.jpg` file with its label file. */
  method CreateCocoAnnotations(entries: seq<string>, sizes: map<string, Size>, labels: map<string, seq<string>>)
    returns (r: Result<Document, ConvertError>)
    ensures r == Convert(entries, sizes, labels)
  {
    var scanned := ScanNames(Sort(entries), sizes, labels);
    if scanned.Failure? {
      return Failure(scanned.error);
    }
    var progress := scanned.value;
    r := Success(Document(DatasetInfo, DatasetLicenses, Categories(), progress.images, progress.annotations));
  }
}
