/**
 * What the converter promises about the document it builds: contiguous
 * annotation ids, one image per `.jpg` entry in sorted order, one annotation
 * per label line, annotations owned by images, the box conversion, the fixed
 * categories, and exactly which inputs abort the conversion.
 */
module AnnotationFacts {
  import opened Wrappers
  import opened PyText
  import opened Sorting
  import opened Annotations

  // ---------------------------------------------------------------------------
  // Reference definitions
  // ---------------------------------------------------------------------------

  /** The `.jpg` entries among `names`, in order. */
  function ImageFiles(names: seq<string>): seq<string> {
    if names == [] then []
    else ImageFiles(names[..|names| - 1]) + (if IsImageFile(names[|names| - 1]) then [names[|names| - 1]] else [])
  }

  /** The file names of the image records, in order. */
  function FileNames(images: seq<ImageRecord>): (names: seq<string>)
    ensures |names| == |images|
    ensures forall i :: 0 <= i < |images| ==> names[i] == images[i].fileName
  {
    if images == [] then [] else FileNames(images[..|images| - 1]) + [images[|images| - 1].fileName]
  }

  /** The number of lines of the label files of the `.jpg` entries among `names`. */
  function LabelLineCount(names: seq<string>, labels: map<string, seq<string>>): nat {
    if names == [] then 0
    else
      var name := names[|names| - 1];
      LabelLineCount(names[..|names| - 1], labels)
        + (if IsImageFile(name) && LabelFileName(name) in labels then |labels[LabelFileName(name)]| else 0)
  }

  predicate HasMalformedLine(lines: seq<string>) {
    exists k :: 0 <= k < |lines| && ParseLabelLine(lines[k]).None?
  }

  /** A directory entry on which the converter raises. */
  predicate Faulty(name: string, sizes: map<string, Size>, labels: map<string, seq<string>>) {
    && IsImageFile(name)
    && (|| name !in sizes
        || ImageId(name).None?
        || (LabelFileName(name) in labels && HasMalformedLine(labels[LabelFileName(name)])))
  }

  function ImageIds(images: seq<ImageRecord>): set<int> {
    set r | r in images :: r.id
  }

  /** An image record as the converter writes it for an entry it could read. */
  predicate ImageRead(r: ImageRecord, sizes: map<string, Size>) {
    && r.fileName in sizes
    && ImageId(r.fileName) == Some(r.id)
    && r.width == sizes[r.fileName].width
    && r.height == sizes[r.fileName].height
    && r.dateCaptured == "2024"
  }

  predicate AnnotationShape(a: Annotation) {
    a.area == a.bbox.width * a.bbox.height && a.segmentation == [] && a.isCrowd == 0
  }

  /**
   * What holds of the converter's state between two entries: the counter is
   * the number of annotations and annotation `k` has id `k`; every image was
   * read from its file; every annotation has the fixed shape and belongs to
   * an image already recorded.
   */
  predicate Consistent(p: Progress, sizes: map<string, Size>) {
    && p.nextId == |p.annotations|
    && (forall k :: 0 <= k < |p.annotations| ==> p.annotations[k].id == k)
    && (forall k :: 0 <= k < |p.images| ==> ImageRead(p.images[k], sizes))
    && (forall k :: 0 <= k < |p.annotations| ==> AnnotationShape(p.annotations[k]))
    && (forall k :: 0 <= k < |p.annotations| ==> p.annotations[k].imageId in ImageIds(p.images))
  }

  /** The annotations of parsed label lines, numbered from `start`: line `k` becomes annotation `start + k`. */
  function LineAnnotations(ls: seq<LabelLine>, start: nat, imageId: int, size: Size): (annotations: seq<Annotation>)
    ensures |annotations| == |ls|
    ensures forall k :: 0 <= k < |ls| ==> annotations[k] == MakeAnnotation(start + k, imageId, ls[k], size)
  {
    if ls == [] then []
    else LineAnnotations(ls[..|ls| - 1], start, imageId, size) + [MakeAnnotation(start + |ls| - 1, imageId, ls[|ls| - 1], size)]
  }

  /**
   * The annotations of the label file of an image record, numbered from `start`,
   * each with the record's id and size; none when there is no label file.
   */
  function ImageAnnotations(r: ImageRecord, labels: map<string, seq<string>>, start: nat): seq<Annotation> {
    var labelFile := LabelFileName(r.fileName);
    if labelFile !in labels then []
    else
      match MapAll(ParseLabelLine, labels[labelFile])
      case None => []
      case Some(ls) => LineAnnotations(ls, start, r.id, Size(r.width, r.height))
  }

  /**
   * Line `k` of a label file that parses throughout gives annotation `start + k` of its
   * image: the line's box and category, the record's id and its size.
   */
  lemma ImageAnnotationsLines(r: ImageRecord, labels: map<string, seq<string>>, start: nat)
    requires LabelFileName(r.fileName) in labels && MapAll(ParseLabelLine, labels[LabelFileName(r.fileName)]).Some?
    ensures var lines := labels[LabelFileName(r.fileName)];
      && |ImageAnnotations(r, labels, start)| == |lines|
      && forall k :: 0 <= k < |lines| ==>
           && ParseLabelLine(lines[k]).Some?
           && ImageAnnotations(r, labels, start)[k] == MakeAnnotation(start + k, r.id, ParseLabelLine(lines[k]).value, Size(r.width, r.height))
  {
    MapAllEach(ParseLabelLine, labels[LabelFileName(r.fileName)]);
  }

  /** The annotations of the label files of the images, image after image, numbered from 0. */
  function AnnotationsOf(images: seq<ImageRecord>, labels: map<string, seq<string>>): seq<Annotation> {
    if images == [] then []
    else
      var before := AnnotationsOf(images[..|images| - 1], labels);
      before + ImageAnnotations(images[|images| - 1], labels, |before|)
  }

  // ---------------------------------------------------------------------------
  // Single fields
  // ---------------------------------------------------------------------------

  /** The corner box converts back to the YOLO box it came from, for an image of positive size. */
  lemma CocoBoxRoundTrip(l: LabelLine, size: Size)
    requires size.width > 0 && size.height > 0
    ensures YoloOf(l.category, CocoBox(l, size), size) == l
  {
    var b := CocoBox(l, size);
    var w := size.width as real;
    var h := size.height as real;
    assert (b.x + b.width / 2.0) / w == l.xCenter;
    assert (b.y + b.height / 2.0) / h == l.yCenter;
  }

  /** The 80 fixed categories: category `k` has id `k` and is named by the decimal string `int` reads back as `k`. */
  lemma CategoriesFixed()
    ensures |Categories()| == 80
    ensures forall k :: 0 <= k < 80 ==>
      && Categories()[k].id == k && Categories()[k].supercategory == "none"
      && Categories()[k].name == Decimal(k) && ParseInt(Categories()[k].name) == Some(k)
  {
    forall k | 0 <= k < 80
      ensures ParseInt(Decimal(k)) == Some(k)
    {
      ParseIntDecimal(k);
    }
  }

  /** The image id of `<digits>.<anything>` is the number the digits denote. */
  lemma ImageIdOfDigits(stem: string, rest: string)
    requires stem != [] && AllDigits(stem)
    ensures ImageId(stem + "." + rest) == Some(DigitsValue(stem))
  {
    var name := stem + "." + rest;
    var first := FirstField(name, '.');
    assert name[|stem|] == '.';
    assert forall i :: 0 <= i < |stem| ==> name[i] == stem[i];
    assert first == stem;
    ParseIntDigits(stem);
  }

  /** A file whose name does not start with a number, such as `img1.jpg`, has no image id: `int()` raises. */
  lemma ImageIdOfWord()
    ensures ImageId("img1.jpg") == None
  {
    var name := "img1.jpg";
    IndexOfAbsent("img1", '.');
    IndexOfPrefix("img1", ".jpg", '.');
    assert name == "img1" + ".jpg" && name[..4] == "img1";
    ParseIntRejectsWord();
  }

  /**
   * A file named by a number, with or without leading zeros, gets that number
   * as id: ids are not checked for uniqueness, so `7.jpg` and `007.jpg` both
   * get id 7.
   */
  lemma ImageIdIgnoresLeadingZeros(k: nat, n: nat, extension: string)
    ensures ImageId(Zeros(k) + Decimal(n) + "." + extension) == Some(n)
  {
    var d := Decimal(n);
    var stem := Zeros(k) + d;
    assert AllDigits(stem) by {
      forall i | 0 <= i < |stem| ensures IsDigit(stem[i]) {
        if i >= k { assert stem[i] == d[i - k]; }
      }
    }
    ImageIdOfDigits(stem, extension);
    ZerosValue(k, d);
    DecimalValue(n);
  }

  /** For a stem without a dot, the label file of `<stem>.jpg` is `<stem>.txt`. */
  lemma LabelFileNameOfStem(stem: string)
    requires forall i :: 0 <= i < |stem| ==> stem[i] != '.'
    ensures LabelFileName(stem + ".jpg") == stem + ".txt"
  {
    var s := stem + ".jpg" + "";
    assert s == stem + ".jpg";
    forall i | 0 <= i < |stem|
      ensures !OccursAt(s, ".jpg", i)
    {
      assert s[i] == stem[i];
    }
    ReplaceAllFirst(stem, ".jpg", ".txt", "");
    assert stem + ".txt" + "" == stem + ".txt";
  }

  /**
   * A centred label on a 400 x 300 image: the corner is the centre minus
   * half the size, so x is (0.5 - 0.1) * 400 = 160.
   */
  lemma CenteredBoxExample()
    ensures var a := MakeAnnotation(0, 1, LabelLine(0.0, 0.5, 0.5, 0.2, 0.4), Size(400, 300));
      a.bbox == BBox(160.0, 90.0, 80.0, 120.0) && a.area == 9600.0 && a.categoryId == 0
  {
  }

  /** `replace` rewrites every occurrence, not only the extension. */
  lemma LabelFileNameReplacesEvery()
    ensures LabelFileName("a.jpg.jpg") == "a.txt.txt"
  {
  }

  /**
   * A label line parses exactly when, stripped and split, it has five words that
   * read as decimal numbers, and then the fields are, in order, the category and
   * the normalised box.
   */
  lemma LabelLineFields(line: string)
    ensures var fields := Split(Strip(line));
      ParseLabelLine(line).Some? <==> |fields| == 5 && forall i :: 0 <= i < 5 ==> ParseFloat(fields[i]).Some?
    ensures var fields := Split(Strip(line));
      ParseLabelLine(line).Some? ==>
        ParseLabelLine(line).value == LabelLine(
          ParseFloat(fields[0]).value, ParseFloat(fields[1]).value, ParseFloat(fields[2]).value,
          ParseFloat(fields[3]).value, ParseFloat(fields[4]).value)
  {
    MapAllEach(ParseFloat, Split(Strip(line)));
  }

  // ---------------------------------------------------------------------------
  // One label file
  // ---------------------------------------------------------------------------

  /**
   * A label file that parses adds one annotation per line, in order: line `k`
   * gets id `nextId + k`, the image's id and the box of that line; nothing
   * else changes.
   */
  lemma {:induction false} AddLinesSucceeds(p: Progress, imageId: int, labelFile: string, parsed: seq<Option<LabelLine>>, size: Size)
    requires AddLines(p, imageId, labelFile, parsed, size).Success?
    ensures var q := AddLines(p, imageId, labelFile, parsed, size).value;
      && q.images == p.images
      && q.nextId == p.nextId + |parsed|
      && |q.annotations| == |p.annotations| + |parsed|
      && q.annotations[..|p.annotations|] == p.annotations
      && forall k :: 0 <= k < |parsed| ==>
           parsed[k].Some? && q.annotations[|p.annotations| + k] == MakeAnnotation(p.nextId + k, imageId, parsed[k].value, size)
  {
    if parsed != [] {
      var n := |parsed| - 1;
      AddLinesSucceeds(p, imageId, labelFile, parsed[..n], size);
      var q := AddLines(p, imageId, labelFile, parsed, size).value;
      var q' := AddLines(p, imageId, labelFile, parsed[..n], size).value;
      assert q.annotations == q'.annotations + [MakeAnnotation(q'.nextId, imageId, parsed[n].value, size)];
      forall k | 0 <= k < |parsed|
        ensures parsed[k].Some? && q.annotations[|p.annotations| + k] == MakeAnnotation(p.nextId + k, imageId, parsed[k].value, size)
      {
        if k < n {
          assert parsed[..n][k] == parsed[k];
        }
      }
    }
  }

  /** Annotating lines that all parsed adds exactly their annotations, numbered from the counter. */
  lemma {:induction false} AddParsedLines(p: Progress, imageId: int, labelFile: string, parsed: seq<Option<LabelLine>>, ls: seq<LabelLine>, size: Size)
    requires |ls| == |parsed| && forall k :: 0 <= k < |parsed| ==> parsed[k] == Some(ls[k])
    ensures AddLines(p, imageId, labelFile, parsed, size)
      == Success(Progress(p.images, p.annotations + LineAnnotations(ls, p.nextId, imageId, size), p.nextId + |parsed|))
  {
    if parsed == [] {
      assert p.annotations + [] == p.annotations;
    } else {
      var n := |parsed| - 1;
      AddParsedLines(p, imageId, labelFile, parsed[..n], ls[..n], size);
      var before := LineAnnotations(ls[..n], p.nextId, imageId, size);
      var a := MakeAnnotation(p.nextId + n, imageId, ls[n], size);
      assert p.annotations + (before + [a]) == (p.annotations + before) + [a];
    }
  }

  /** The map of `f` fails exactly when one outcome does, and otherwise holds every outcome's value in place. */
  lemma {:induction false} MapAllEachOutcome<A, B>(f: A -> Option<B>, xs: seq<A>)
    ensures (forall k :: 0 <= k < |xs| ==> EachOutcome(f, xs)[k].Some?) ==> MapAll(f, xs).Some?
    ensures MapAll(f, xs).Some? ==> forall k :: 0 <= k < |xs| ==> EachOutcome(f, xs)[k] == Some(MapAll(f, xs).value[k])
  {
    var outcomes := EachOutcome(f, xs);
    forall k | 0 <= k < |xs| ensures outcomes[k] == f(xs[k]) {
      EachOutcomeAt(f, xs, k);
    }
    MapAllEach(f, xs);
    if MapAll(f, xs).Some? {
      var vs := MapAll(f, xs).value;
      assert forall k :: 0 <= k < |xs| ==> outcomes[k] == Some(vs[k]);
      assert forall k :: 0 <= k < |xs| ==> EachOutcome(f, xs)[k].Some?;
    } else {
      var i :| 0 <= i < |xs| && f(xs[i]).None?;
      assert outcomes[i].None?;
      assert !(forall k :: 0 <= k < |xs| ==> EachOutcome(f, xs)[k].Some?);
      assert !MapAll(f, xs).Some?;
    }
  }

  /** Lines parsed one by one with `parse` convert exactly when `parse` accepts them all. */
  lemma AddMappedLinesSucceed(parse: string -> Option<LabelLine>, p: Progress, imageId: int, labelFile: string, lines: seq<string>, size: Size)
    ensures AddLines(p, imageId, labelFile, EachOutcome(parse, lines), size).Success? <==> MapAll(parse, lines).Some?
  {
    MapAllEachOutcome(parse, lines);
    AddLinesFails(p, imageId, labelFile, EachOutcome(parse, lines), size);
  }

  /** A label file converts exactly when every line parses. */
  lemma AddLinesParsesAll(p: Progress, imageId: int, labelFile: string, lines: seq<string>, size: Size)
    ensures AddLines(p, imageId, labelFile, ParseLines(lines), size).Success? <==> MapAll(ParseLabelLine, lines).Some?
  {
    AddMappedLinesSucceed(ParseLabelLine, p, imageId, labelFile, lines, size);
  }

  /** Annotating lines parsed one by one with `parse`, when `parse` accepts them all. */
  lemma AddMappedLines(parse: string -> Option<LabelLine>, p: Progress, imageId: int, labelFile: string, lines: seq<string>, size: Size)
    requires MapAll(parse, lines).Some?
    ensures AddLines(p, imageId, labelFile, EachOutcome(parse, lines), size)
      == Success(Progress(p.images, p.annotations + LineAnnotations(MapAll(parse, lines).value, p.nextId, imageId, size), p.nextId + |lines|))
  {
    MapAllEachOutcome(parse, lines);
    AddParsedLines(p, imageId, labelFile, EachOutcome(parse, lines), MapAll(parse, lines).value, size);
  }

  /** A label file whose lines all parse adds the annotations of its parsed lines, numbered from the counter, and nothing else. */
  lemma AddLinesAnnotations(p: Progress, imageId: int, labelFile: string, lines: seq<string>, size: Size)
    requires MapAll(ParseLabelLine, lines).Some?
    ensures AddLines(p, imageId, labelFile, ParseLines(lines), size)
      == Success(Progress(p.images, p.annotations + LineAnnotations(MapAll(ParseLabelLine, lines).value, p.nextId, imageId, size), p.nextId + |lines|))
  {
    AddMappedLines(ParseLabelLine, p, imageId, labelFile, lines, size);
  }

  /**
   * A label file aborts the conversion exactly when one of its lines does not
   * parse, and the error names the first such line.
   */
  lemma {:induction false} AddLinesFails(p: Progress, imageId: int, labelFile: string, parsed: seq<Option<LabelLine>>, size: Size)
    ensures AddLines(p, imageId, labelFile, parsed, size).Failure? <==> exists k :: 0 <= k < |parsed| && parsed[k].None?
    ensures AddLines(p, imageId, labelFile, parsed, size).Failure? ==>
      exists k :: && 0 <= k < |parsed| && parsed[k].None?
                  && (forall j :: 0 <= j < k ==> parsed[j].Some?)
                  && AddLines(p, imageId, labelFile, parsed, size).error == MalformedLine(labelFile, k)
  {
    if parsed != [] {
      var n := |parsed| - 1;
      AddLinesFails(p, imageId, labelFile, parsed[..n], size);
      assert forall k :: 0 <= k < n ==> parsed[..n][k] == parsed[k];
    }
  }

  // ---------------------------------------------------------------------------
  // One directory entry
  // ---------------------------------------------------------------------------

  /** An entry aborts the conversion exactly when it is faulty, whatever came before it. */
  lemma AddImageFails(p: Progress, name: string, sizes: map<string, Size>, labels: map<string, seq<string>>)
    ensures AddImage(p, name, sizes, labels).Failure? <==> Faulty(name, sizes, labels)
  {
    if IsImageFile(name) && name in sizes && ImageId(name).Some? && LabelFileName(name) in labels {
      var id := ImageId(name).value;
      var size := sizes[name];
      var lines := labels[LabelFileName(name)];
      var q := Progress(p.images + [ImageRecord(id, name, size.height, size.width, DateCaptured)], p.annotations, p.nextId);
      AddLinesFails(q, id, LabelFileName(name), ParseLines(lines), size);
      forall k | 0 <= k < |lines| {
        ParseLinesAt(lines, k);
      }
    }
  }

  /** Annotating the lines of an image already recorded keeps the converter's state consistent. */
  lemma {:induction false} AddLinesPreserves(p: Progress, imageId: int, labelFile: string, parsed: seq<Option<LabelLine>>, size: Size, sizes: map<string, Size>)
    requires Consistent(p, sizes) && imageId in ImageIds(p.images)
    requires AddLines(p, imageId, labelFile, parsed, size).Success?
    ensures Consistent(AddLines(p, imageId, labelFile, parsed, size).value, sizes)
  {
    if parsed != [] {
      var n := |parsed| - 1;
      AddLinesPreserves(p, imageId, labelFile, parsed[..n], size, sizes);
      AddLinesSucceeds(p, imageId, labelFile, parsed[..n], size);
      var q := AddLines(p, imageId, labelFile, parsed[..n], size).value;
      var a := MakeAnnotation(q.nextId, imageId, parsed[n].value, size);
      assert AddLines(p, imageId, labelFile, parsed, size).value == Progress(q.images, q.annotations + [a], q.nextId + 1);
      assert AnnotationShape(a);
    }
  }

  /**
   * A successful entry that is not a `.jpg` changes nothing; a `.jpg` entry
   * appends its image record, then one annotation per line of its label file,
   * or none when it has no label file.
   */
  lemma AddImageRecords(p: Progress, name: string, sizes: map<string, Size>, labels: map<string, seq<string>>)
    requires AddImage(p, name, sizes, labels).Success?
    ensures !IsImageFile(name) ==> AddImage(p, name, sizes, labels).value == p
    ensures IsImageFile(name) ==> name in sizes && ImageId(name).Some?
    ensures IsImageFile(name) && name in sizes && ImageId(name).Some? ==>
      var q := AddImage(p, name, sizes, labels).value;
      var size := sizes[name];
      var labelFile := LabelFileName(name);
      && q.images == p.images + [ImageRecord(ImageId(name).value, name, size.height, size.width, "2024")]
      && q.nextId == p.nextId + (if labelFile in labels then |labels[labelFile]| else 0)
      && |q.annotations| == |p.annotations| + (if labelFile in labels then |labels[labelFile]| else 0)
      && q.annotations[..|p.annotations|] == p.annotations
  {
    if IsImageFile(name) {
      var id := ImageId(name).value;
      var size := sizes[name];
      var q := Progress(p.images + [ImageRecord(id, name, size.height, size.width, DateCaptured)], p.annotations, p.nextId);
      var labelFile := LabelFileName(name);
      if labelFile in labels {
        AddLinesSucceeds(q, id, labelFile, ParseLines(labels[labelFile]), size);
      }
    }
  }

  /** A `.jpg` entry that converts adds the annotations of its label file, numbered from the counter, to those before. */
  lemma AddImageAnnotations(p: Progress, name: string, sizes: map<string, Size>, labels: map<string, seq<string>>)
    requires AddImage(p, name, sizes, labels).Success? && IsImageFile(name)
    ensures var q := AddImage(p, name, sizes, labels).value;
      && name in sizes && ImageId(name).Some?
      && q.images == p.images + [ImageRecord(ImageId(name).value, name, sizes[name].height, sizes[name].width, "2024")]
      && (LabelFileName(name) in labels ==> MapAll(ParseLabelLine, labels[LabelFileName(name)]).Some?)
      && q.annotations == p.annotations + ImageAnnotations(q.images[|q.images| - 1], labels, p.nextId)
  {
    var id := ImageId(name).value;
    var size := sizes[name];
    var r := ImageRecord(id, name, size.height, size.width, DateCaptured);
    var q0 := Progress(p.images + [r], p.annotations, p.nextId);
    assert Size(r.width, r.height) == size;
    var labelFile := LabelFileName(name);
    if labelFile in labels {
      AddLinesParsesAll(q0, id, labelFile, labels[labelFile], size);
      AddLinesAnnotations(q0, id, labelFile, labels[labelFile], size);
    }
  }

  /** Processing an entry keeps the converter's state consistent. */
  lemma AddImagePreserves(p: Progress, name: string, sizes: map<string, Size>, labels: map<string, seq<string>>)
    requires Consistent(p, sizes) && AddImage(p, name, sizes, labels).Success?
    ensures Consistent(AddImage(p, name, sizes, labels).value, sizes)
  {
    if IsImageFile(name) {
      var id := ImageId(name).value;
      var size := sizes[name];
      var r := ImageRecord(id, name, size.height, size.width, DateCaptured);
      var q := Progress(p.images + [r], p.annotations, p.nextId);
      assert ImageIds(q.images) == ImageIds(p.images) + {id};
      assert Consistent(q, sizes);
      var labelFile := LabelFileName(name);
      if labelFile in labels {
        AddLinesPreserves(q, id, labelFile, ParseLines(labels[labelFile]), size, sizes);
      }
    }
  }

  // ---------------------------------------------------------------------------
  // The whole directory
  // ---------------------------------------------------------------------------

  /** Between any two entries, the converter's state is consistent. */
  lemma {:induction false} ScanConsistent(names: seq<string>, sizes: map<string, Size>, labels: map<string, seq<string>>)
    requires Scan(names, sizes, labels).Success?
    ensures Consistent(Scan(names, sizes, labels).value, sizes)
  {
    if names != [] {
      var n := |names| - 1;
      ScanConsistent(names[..n], sizes, labels);
      AddImagePreserves(Scan(names[..n], sizes, labels).value, names[n], sizes, labels);
    }
  }

  /** One image record per `.jpg` entry, in the order of the entries. */
  lemma {:induction false} ScanImages(names: seq<string>, sizes: map<string, Size>, labels: map<string, seq<string>>)
    requires Scan(names, sizes, labels).Success?
    ensures FileNames(Scan(names, sizes, labels).value.images) == ImageFiles(names)
  {
    if names != [] {
      var n := |names| - 1;
      ScanImages(names[..n], sizes, labels);
      var p := Scan(names[..n], sizes, labels).value;
      var name := names[n];
      if IsImageFile(name) {
        var id := ImageId(name).value;
        var size := sizes[name];
        var images := p.images + [ImageRecord(id, name, size.height, size.width, DateCaptured)];
        assert images[..|images| - 1] == p.images;
        var labelFile := LabelFileName(name);
        if labelFile in labels {
          AddLinesSucceeds(Progress(images, p.annotations, p.nextId), id, labelFile, ParseLines(labels[labelFile]), size);
        }
      }
    }
  }

  /** One annotation per line of the label file of each `.jpg` entry. */
  lemma {:induction false} ScanAnnotationCount(names: seq<string>, sizes: map<string, Size>, labels: map<string, seq<string>>)
    requires Scan(names, sizes, labels).Success?
    ensures |Scan(names, sizes, labels).value.annotations| == LabelLineCount(names, labels)
  {
    if names != [] {
      var n := |names| - 1;
      ScanAnnotationCount(names[..n], sizes, labels);
      var p := Scan(names[..n], sizes, labels).value;
      var name := names[n];
      if IsImageFile(name) && LabelFileName(name) in labels {
        var id := ImageId(name).value;
        var size := sizes[name];
        var q := Progress(p.images + [ImageRecord(id, name, size.height, size.width, DateCaptured)], p.annotations, p.nextId);
        AddLinesSucceeds(q, id, LabelFileName(name), ParseLines(labels[LabelFileName(name)]), size);
      }
    }
  }

  /** The annotations are those of the image records' label files, image after image, numbered from 0. */
  lemma {:induction false} ScanAnnotations(names: seq<string>, sizes: map<string, Size>, labels: map<string, seq<string>>)
    requires Scan(names, sizes, labels).Success?
    ensures var p := Scan(names, sizes, labels).value;
      p.annotations == AnnotationsOf(p.images, labels)
  {
    if names != [] {
      var n := |names| - 1;
      ScanAnnotations(names[..n], sizes, labels);
      ScanConsistent(names[..n], sizes, labels);
      var p := Scan(names[..n], sizes, labels).value;
      if IsImageFile(names[n]) {
        AddImageAnnotations(p, names[n], sizes, labels);
        var q := AddImage(p, names[n], sizes, labels).value;
        assert q.images[..|q.images| - 1] == p.images;
      }
    }
  }

  /** The conversion aborts exactly when some entry is faulty. */
  lemma {:induction false} ScanFails(names: seq<string>, sizes: map<string, Size>, labels: map<string, seq<string>>)
    ensures Scan(names, sizes, labels).Failure? <==> exists k :: 0 <= k < |names| && Faulty(names[k], sizes, labels)
  {
    if names != [] {
      var n := |names| - 1;
      ScanFails(names[..n], sizes, labels);
      assert forall k :: 0 <= k < n ==> names[..n][k] == names[k];
      if Scan(names[..n], sizes, labels).Success? {
        AddImageFails(Scan(names[..n], sizes, labels).value, names[n], sizes, labels);
      }
    }
  }

  // ---------------------------------------------------------------------------
  // The document
  // ---------------------------------------------------------------------------

  /** How often a name occurs among the `.jpg` entries: as often as among all entries if it is a `.jpg` name, else never. */
  lemma {:induction false} ImageFilesCount(names: seq<string>)
    ensures forall x :: multiset(ImageFiles(names))[x] == if IsImageFile(x) then multiset(names)[x] else 0
  {
    if names != [] {
      var n := |names| - 1;
      ImageFilesCount(names[..n]);
      assert names == names[..n] + [names[n]];
    }
  }

  /** The `.jpg` entries of a permutation are a permutation of the `.jpg` entries. */
  lemma ImageFilesPermutation(a: seq<string>, b: seq<string>)
    requires multiset(a) == multiset(b)
    ensures multiset(ImageFiles(a)) == multiset(ImageFiles(b))
  {
    ImageFilesCount(a);
    ImageFilesCount(b);
  }

  /** Every kept entry is an entry. */
  lemma {:induction false} ImageFilesIn(names: seq<string>, k: nat)
    requires k < |ImageFiles(names)|
    ensures exists i :: 0 <= i < |names| && names[i] == ImageFiles(names)[k]
  {
    var n := |names| - 1;
    var before := ImageFiles(names[..n]);
    if k < |before| {
      ImageFilesIn(names[..n], k);
      var i :| 0 <= i < n && names[..n][i] == before[k];
      assert names[i] == ImageFiles(names)[k];
    } else {
      assert names[n] == ImageFiles(names)[k];
    }
  }

  /** Keeping the `.jpg` entries of a sorted list keeps it sorted. */
  lemma {:induction false} ImageFilesSorted(names: seq<string>)
    requires Sorted(names)
    ensures Sorted(ImageFiles(names))
  {
    if names != [] {
      var n := |names| - 1;
      assert Sorted(names[..n]) by {
        assert forall i :: 0 <= i < n ==> names[..n][i] == names[i];
      }
      ImageFilesSorted(names[..n]);
      var before := ImageFiles(names[..n]);
      if IsImageFile(names[n]) && before != [] {
        ImageFilesIn(names[..n], |before| - 1);
        var i :| 0 <= i < n && names[..n][i] == before[|before| - 1];
        SortedBelowLater(names, i, n);
      }
    }
  }

  /**
   * The document's images are the `.jpg` entries of the directory, each once,
   * in sorted order, each read from its file.
   */
  lemma ConvertImages(entries: seq<string>, sizes: map<string, Size>, labels: map<string, seq<string>>)
    requires Convert(entries, sizes, labels).Success?
    ensures var d := Convert(entries, sizes, labels).value;
      && Sorted(FileNames(d.images))
      && multiset(FileNames(d.images)) == multiset(ImageFiles(entries))
      && forall k :: 0 <= k < |d.images| ==> ImageRead(d.images[k], sizes)
  {
    var names := Sort(entries);
    ScanImages(names, sizes, labels);
    ScanConsistent(names, sizes, labels);
    ImageFilesSorted(names);
    ImageFilesPermutation(names, entries);
  }

  lemma MultisetRemove(s: seq<string>, i: nat)
    requires i < |s|
    ensures multiset(s[..i] + s[i + 1..]) == multiset(s) - multiset{s[i]}
  {
    assert s == s[..i] + [s[i]] + s[i + 1..];
    assert multiset(s) == multiset(s[..i]) + multiset{s[i]} + multiset(s[i + 1..]);
  }

  lemma {:induction false} LabelLineCountAppend(a: seq<string>, b: seq<string>, labels: map<string, seq<string>>)
    ensures LabelLineCount(a + b, labels) == LabelLineCount(a, labels) + LabelLineCount(b, labels)
  {
    if b != [] {
      var n := |b| - 1;
      assert (a + b)[..|a + b| - 1] == a + b[..n];
      LabelLineCountAppend(a, b[..n], labels);
    } else {
      assert a + b == a;
    }
  }

  /** Taking one entry out of the list takes its label lines out of the count. */
  lemma LabelLineCountRemove(b: seq<string>, i: nat, labels: map<string, seq<string>>)
    requires i < |b|
    ensures LabelLineCount(b, labels) == LabelLineCount(b[..i] + b[i + 1..], labels) + LabelLineCount([b[i]], labels)
  {
    assert b == b[..i] + [b[i]] + b[i + 1..];
    LabelLineCountAppend(b[..i], [b[i]], labels);
    LabelLineCountAppend(b[..i] + [b[i]], b[i + 1..], labels);
    LabelLineCountAppend(b[..i], b[i + 1..], labels);
  }

  /** The number of label lines does not depend on the order of the entries. */
  lemma {:induction false} LabelLineCountPermutation(a: seq<string>, b: seq<string>, labels: map<string, seq<string>>)
    requires multiset(a) == multiset(b)
    ensures LabelLineCount(a, labels) == LabelLineCount(b, labels)
    decreases |a|
  {
    if a == [] {
      assert |b| == |multiset(b)| == 0;
    } else {
      var n := |a| - 1;
      assert a[n] in multiset(b);
      var i :| 0 <= i < |b| && b[i] == a[n];
      MultisetRemove(a, n);
      MultisetRemove(b, i);
      assert a[..n] + a[n + 1..] == a[..n];
      LabelLineCountPermutation(a[..n], b[..i] + b[i + 1..], labels);
      LabelLineCountRemove(a, n, labels);
      LabelLineCountRemove(b, i, labels);
    }
  }

  /**
   * The document's annotations have ids 0, 1, ... in order, one per label line
   * of the images, each of the fixed shape and owned by one of the images;
   * the metadata and the categories are the fixed ones.
   */
  lemma ConvertAnnotations(entries: seq<string>, sizes: map<string, Size>, labels: map<string, seq<string>>)
    requires Convert(entries, sizes, labels).Success?
    ensures var d := Convert(entries, sizes, labels).value;
      && d.info == DatasetInfo && d.licenses == DatasetLicenses && d.categories == Categories()
      && |d.annotations| == LabelLineCount(entries, labels)
      && (forall k :: 0 <= k < |d.annotations| ==> d.annotations[k].id == k)
      && (forall k :: 0 <= k < |d.annotations| ==> AnnotationShape(d.annotations[k]))
      && (forall k :: 0 <= k < |d.annotations| ==> d.annotations[k].imageId in ImageIds(d.images))
      && d.annotations == AnnotationsOf(d.images, labels)
  {
    ScanConsistent(Sort(entries), sizes, labels);
    ScanAnnotations(Sort(entries), sizes, labels);
    ScanAnnotationCount(Sort(entries), sizes, labels);
    LabelLineCountPermutation(Sort(entries), entries, labels);
  }

  /** A permutation of the entries has a faulty entry when the entries have one. */
  lemma FaultyInPermutation(a: seq<string>, b: seq<string>, sizes: map<string, Size>, labels: map<string, seq<string>>)
    requires multiset(a) == multiset(b)
    requires exists k :: 0 <= k < |a| && Faulty(a[k], sizes, labels)
    ensures exists k :: 0 <= k < |b| && Faulty(b[k], sizes, labels)
  {
    var k :| 0 <= k < |a| && Faulty(a[k], sizes, labels);
    assert a[k] in multiset(b);
    var j :| 0 <= j < |b| && b[j] == a[k];
  }

  /** The conversion aborts exactly when some entry of the directory is faulty. */
  lemma ConvertFails(entries: seq<string>, sizes: map<string, Size>, labels: map<string, seq<string>>)
    ensures Convert(entries, sizes, labels).Failure? <==> exists k :: 0 <= k < |entries| && Faulty(entries[k], sizes, labels)
  {
    var names := Sort(entries);
    ScanFails(names, sizes, labels);
    if exists k :: 0 <= k < |names| && Faulty(names[k], sizes, labels) {
      FaultyInPermutation(names, entries, sizes, labels);
    }
    if exists k :: 0 <= k < |entries| && Faulty(entries[k], sizes, labels) {
      FaultyInPermutation(entries, names, sizes, labels);
    }
  }
}
