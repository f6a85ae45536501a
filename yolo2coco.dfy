/** yolo2coco.py: a YOLO dataset (`<split>/images`, `<split>/labels`) to
    COCO instances files, `annotations/instances_<split>2014.json`, with the
    images copied to `images/<split>2014`. */
module YoloToCoco {
  import opened Common
  import opened Rounding
  import opened Geometry
  import opened Paths
  import opened Records

  /** A file of an `images` directory: its name, and the size PIL reports,
      None when PIL cannot open it. */
  datatype ImageFile = ImageFile(name: string, size: Option<Size>)

  /** A split directory: the listing of `images`, None when it is absent,
      and the files of `labels` (none when that directory is absent). */
  datatype SplitDir = SplitDir(images: Option<seq<ImageFile>>, labels: seq<LabelFile>)

  /** The dataset root: the split directories present, by name. */
  type Dataset = map<string, SplitDir>

  /** `annotations/instances_<folder>.json` with a split's records, and the
      files copied to `images/<folder>`. */
  datatype SplitWrite = SplitWrite(split: string, folder: string, data: CocoData, copied: seq<string>)

  /** The counters and lists of one split: the records so far, the copied
      files, and `image_id` and `annotation_id`, the ids the next image and
      the next annotation get. */
  datatype SplitState = SplitState(images: seq<CocoImage>, annotations: seq<CocoAnnotation>, copied: seq<string>,
                                   imageId: int, annotationId: int)

  /** `{id: i, name: class_names[i]}` for each class, in the given order. */
  function Categories(classNames: seq<string>): seq<CocoCategory>
  {
    seq(|classNames|, i requires 0 <= i < |classNames| => CocoCategory(i, classNames[i]))
  }

  /** Category ids are the positions in `class_names`, from 0. */
  lemma CategoriesEnumerate(classNames: seq<string>)
    ensures |Categories(classNames)| == |classNames|
    ensures forall i :: 0 <= i < |classNames| ==> Categories(classNames)[i].id == i
    ensures forall c :: c in Categories(classNames) ==> 0 <= c.id < |classNames| && c.name == classNames[c.id]
  {
  }

  // ---------------------------------------------------------------------
  // lines of a label file

  /** Only lines of exactly five fields are read. */
  predicate Accepted(parts: seq<Token>)
  {
    |parts| == 5
  }

  /** int() succeeds on field 0 and float() on fields 1 to 4. */
  predicate Parses(parts: seq<Token>)
    requires Accepted(parts)
  {
    parts[0].asInt.Some? && parts[1].asReal.Some? && parts[2].asReal.Some? && parts[3].asReal.Some? && parts[4].asReal.Some?
  }

  function BoxOf(parts: seq<Token>): NormBox
    requires Accepted(parts) && Parses(parts)
  {
    NormBox(parts[1].asReal.value, parts[2].asReal.value, parts[3].asReal.value, parts[4].asReal.value)
  }

  /** One label line of the image `imageId`: None when skipped, else the
      annotation `annotationId` it yields. */
  function LineAnnotation(parts: seq<Token>, size: Size, imageId: int, annotationId: int): Result<Option<CocoAnnotation>>
  {
    if !Accepted(parts) then Ok(None)
    else if !Parses(parts) then Err(ValueError)
    else
      var abs := YoloToCocoAbsolute(BoxOf(parts), size);
      Ok(Some(CocoAnnotation(annotationId, imageId, parts[0].asInt.value, RoundBox(abs), abs.w * abs.h)))
  }

  function AddLine(size: Size, st: SplitState, parts: seq<Token>): Result<SplitState>
  {
    match LineAnnotation(parts, size, st.imageId, st.annotationId)
    case Err(e) => Err(e)
    case Ok(None) => Ok(st)
    case Ok(Some(a)) => Ok(st.(annotations := st.annotations + [a], annotationId := st.annotationId + 1))
  }

  function LineStep(size: Size): (SplitState, seq<Token>) -> Result<SplitState>
  {
    (st, parts) => AddLine(size, st, parts)
  }

  /** The lines with exactly five fields, in file order. */
  function AcceptedLines(lines: seq<seq<Token>>): seq<seq<Token>>
  {
    if lines == [] then []
    else
      var parts := lines[|lines| - 1];
      AcceptedLines(lines[..|lines| - 1]) + (if Accepted(parts) then [parts] else [])
  }

  /** The loop over the lines of a label file. */
  method ConvertLines(size: Size, init: SplitState, lines: seq<seq<Token>>) returns (r: Result<SplitState>)
    ensures r == FoldResult(LineStep(size), init, lines)
  {
    var st := init;
    for j := 0 to |lines|
      invariant FoldResult(LineStep(size), init, lines[..j]) == Ok(st)
    {
      FoldStep(LineStep(size), init, lines, j);
      var parts := lines[j];
      if |parts| == 5 {
        if parts[0].asInt.None? || parts[1].asReal.None? || parts[2].asReal.None? || parts[3].asReal.None? || parts[4].asReal.None? {
          FoldErrPersists(LineStep(size), init, lines, j + 1);
          return Err(ValueError);
        }
        var abs := YoloToCocoAbsolute(BoxOf(parts), size);
        var annotation := CocoAnnotation(st.annotationId, st.imageId, parts[0].asInt.value, RoundBox(abs), abs.w * abs.h);
        var converted := LineAnnotation(parts, size, st.imageId, st.annotationId);
        assert converted.Ok? && converted.value.Some? && converted.value.value.area == annotation.area;
        assert LineAnnotation(parts, size, st.imageId, st.annotationId) == Ok(Some(annotation));
        st := st.(annotations := st.annotations + [annotation], annotationId := st.annotationId + 1);
      }
    }
    FoldWhole(LineStep(size), init, lines);
    r := Ok(st);
  }

  /** A label file converts iff int() and float() succeed on the fields of
      every line with exactly five fields; the others are skipped unread. */
  lemma {:induction false} LinesOkIffAcceptedLinesParse(size: Size, st: SplitState, lines: seq<seq<Token>>)
    ensures FoldResult(LineStep(size), st, lines).Ok? <==>
      forall j :: 0 <= j < |lines| && Accepted(lines[j]) ==> Parses(lines[j])
    decreases |lines|
  {
    if lines != [] {
      var n := |lines| - 1;
      var prefix := lines[..n];
      LinesOkIffAcceptedLinesParse(size, st, prefix);
      assert forall j :: 0 <= j < n ==> prefix[j] == lines[j];
    }
  }

  /** Every line with exactly five fields yields one annotation, numbered on
      from `annotation_id`, for the current image; nothing else changes. */
  lemma {:induction false} LinesFollowAcceptedLines(size: Size, st: SplitState, lines: seq<seq<Token>>)
    requires FoldResult(LineStep(size), st, lines).Ok?
    ensures var r := FoldResult(LineStep(size), st, lines).value;
      && r.images == st.images && r.copied == st.copied && r.imageId == st.imageId
      && r.annotationId == st.annotationId + |AcceptedLines(lines)|
      && |r.annotations| == |st.annotations| + |AcceptedLines(lines)|
      && r.annotations[..|st.annotations|] == st.annotations
      && forall k :: 0 <= k < |AcceptedLines(lines)| ==>
           LineAnnotation(AcceptedLines(lines)[k], size, st.imageId, st.annotationId + k) ==
             Ok(Some(r.annotations[|st.annotations| + k]))
    decreases |lines|
  {
    if lines != [] {
      var n := |lines| - 1;
      LinesFollowAcceptedLines(size, st, lines[..n]);
      var before := FoldResult(LineStep(size), st, lines[..n]).value;
      assert before.annotations[..|st.annotations|] == st.annotations;
    }
  }

  /** The accepted lines are lines of the file. */
  lemma {:induction false} AcceptedLinesAreLines(lines: seq<seq<Token>>)
    ensures forall parts :: parts in AcceptedLines(lines) ==> parts in lines && Accepted(parts)
    decreases |lines|
  {
    if lines != [] {
      var n := |lines| - 1;
      AcceptedLinesAreLines(lines[..n]);
      assert forall parts :: parts in lines[..n] ==> parts in lines;
    }
  }

  /** The annotation of an accepted line: its category is the class field
      as int() reads it, with no range check against `class_names`; its
      bbox the rounded absolute box; its area the product of the unrounded
      width and height. */
  lemma LineAnnotationFields(parts: seq<Token>, size: Size, imageId: int, annotationId: int)
    requires Accepted(parts) && Parses(parts)
    ensures LineAnnotation(parts, size, imageId, annotationId).Ok?
    ensures var a := LineAnnotation(parts, size, imageId, annotationId).value;
      var n := BoxOf(parts);
      && a.Some?
      && a.value.id == annotationId && a.value.imageId == imageId
      && a.value.categoryId == parts[0].asInt.value
      && a.value.bbox == RoundBox(YoloToCocoAbsolute(n, size))
      && a.value.area == (n.bw * size.width as real) * (n.bh * size.height as real)
  {
  }

  /** The area is not the product of the rounded bbox sides: a box 0.25
      wide in a 2-pixel image has area 0.25 but bbox width round(0.5) = 0. */
  lemma AreaIsNotRoundedProduct()
    ensures var parts := [Token("0", None, Some(0)), Token("0.5", Some(0.5), None), Token("0.5", Some(0.5), None),
                          Token("0.25", Some(0.25), None), Token("0.5", Some(0.5), None)];
      && LineAnnotation(parts, Size(2, 2), 1, 1).Ok?
      && LineAnnotation(parts, Size(2, 2), 1, 1).value == Some(CocoAnnotation(1, 1, 0, PixelBox(1, 0, 0, 1), 0.5))
  {
    assert Round(0.75) == 1 by { RoundUnique(0.75, 1); }
    assert Round(0.5) == 0 by { RoundUnique(0.5, 0); }
    assert Round(1.0) == 1 by { RoundOfInteger(1); }
  }

  /** No clamping and no drop gate: a box reaching past the left edge keeps
      its negative `x`, and a class field outside `class_names` is kept. */
  lemma NoClampExample()
    ensures var parts := [Token("99", None, Some(99)), Token("0.0", Some(0.0), None), Token("0.5", Some(0.5), None),
                          Token("0.5", Some(0.5), None), Token("0.5", Some(0.5), None)];
      && LineAnnotation(parts, Size(4, 4), 1, 1).Ok?
      && LineAnnotation(parts, Size(4, 4), 1, 1).value == Some(CocoAnnotation(1, 1, 99, PixelBox(-1, 1, 2, 2), 4.0))
  {
    assert Round(-1.0) == -1 by { RoundOfInteger(-1); }
    assert Round(1.0) == 1 by { RoundOfInteger(1); }
    assert Round(2.0) == 2 by { RoundOfInteger(2); }
  }

  // ---------------------------------------------------------------------
  // images of a split

  /** The label file of an image: `<stem>.txt`. */
  function LabelOf(labels: seq<LabelFile>, name: string): Option<LabelFile>
  {
    FindLabel(labels, Stem(name) + ".txt")
  }

  /** One file of the `images` listing: PIL must open it; it is recorded
      with id `image_id`, its label lines are converted when its label file
      exists, and it is copied. */
  function AddImage(labels: seq<LabelFile>, st: SplitState, image: ImageFile): Result<SplitState>
  {
    match image.size
    case None => Err(UnreadableImage)
    case Some(size) =>
      var recorded := st.(images := st.images + [CocoImage(st.imageId, image.name, size.width, size.height)]);
      var labelled := match LabelOf(labels, image.name)
        case None => Ok(recorded)
        case Some(labelFile) => FoldResult(LineStep(size), recorded, labelFile.lines);
      match labelled
      case Err(e) => Err(e)
      case Ok(done) => Ok(done.(copied := done.copied + [image.name], imageId := done.imageId + 1))
  }

  function ImageStep(labels: seq<LabelFile>): (SplitState, ImageFile) -> Result<SplitState>
  {
    (st, image) => AddImage(labels, st, image)
  }

  /** Both counters start at 1. */
  const InitState := SplitState([], [], [], 1, 1)

  /** The image loop of one split. */
  function ConvertedSplit(labels: seq<LabelFile>, images: seq<ImageFile>): Result<SplitState>
  {
    FoldResult(ImageStep(labels), InitState, images)
  }

  /** The body of the image loop. */
  method ConvertImage(labels: seq<LabelFile>, st: SplitState, image: ImageFile) returns (r: Result<SplitState>)
    ensures r == AddImage(labels, st, image)
  {
    if image.size.None? {
      return Err(UnreadableImage);
    }
    var size := image.size.value;
    var next := st.(images := st.images + [CocoImage(st.imageId, image.name, size.width, size.height)]);
    var labelFile := FindLabel(labels, Stem(image.name) + ".txt");
    if labelFile.Some? {
      var converted := ConvertLines(size, next, labelFile.value.lines);
      if converted.Err? {
        return Err(converted.error);
      }
      next := converted.value;
    }
    r := Ok(next.(copied := next.copied + [image.name], imageId := next.imageId + 1));
  }

  method ConvertSplit(labels: seq<LabelFile>, images: seq<ImageFile>) returns (r: Result<SplitState>)
    ensures r == ConvertedSplit(labels, images)
  {
    var st := InitState;
    for i := 0 to |images|
      invariant FoldResult(ImageStep(labels), InitState, images[..i]) == Ok(st)
    {
      FoldStep(ImageStep(labels), InitState, images, i);
      var next := ConvertImage(labels, st, images[i]);
      if next.Err? {
        FoldErrPersists(ImageStep(labels), InitState, images, i + 1);
        return Err(next.error);
      }
      st := next.value;
    }
    FoldWhole(ImageStep(labels), InitState, images);
    r := Ok(st);
  }

  /** PIL opens the image, and the label lines parse when its label file exists. */
  predicate ImageConverts(labels: seq<LabelFile>, image: ImageFile)
  {
    && image.size.Some?
    && (LabelOf(labels, image.name).Some? ==>
          var lines := LabelOf(labels, image.name).value.lines;
          forall j :: 0 <= j < |lines| && Accepted(lines[j]) ==> Parses(lines[j]))
  }

  lemma AddImageOkIff(labels: seq<LabelFile>, st: SplitState, image: ImageFile)
    ensures AddImage(labels, st, image).Ok? <==> ImageConverts(labels, image)
  {
    if image.size.Some? && LabelOf(labels, image.name).Some? {
      var recorded := st.(images := st.images + [CocoImage(st.imageId, image.name, image.size.value.width, image.size.value.height)]);
      LinesOkIffAcceptedLinesParse(image.size.value, recorded, LabelOf(labels, image.name).value.lines);
    }
  }

  /** A split converts iff every file of its `images` listing does. */
  lemma {:induction false} SplitOkIff(labels: seq<LabelFile>, images: seq<ImageFile>)
    ensures ConvertedSplit(labels, images).Ok? <==> forall i :: 0 <= i < |images| ==> ImageConverts(labels, images[i])
    decreases |images|
  {
    if images != [] {
      var n := |images| - 1;
      var prefix := images[..n];
      SplitOkIff(labels, prefix);
      assert forall i :: 0 <= i < n ==> prefix[i] == images[i];
      if ConvertedSplit(labels, prefix).Ok? {
        AddImageOkIff(labels, ConvertedSplit(labels, prefix).value, images[n]);
      }
    }
  }

  /** One image appends its record and its copy and moves `image_id` on. */
  lemma AddImageAppends(labels: seq<LabelFile>, st: SplitState, image: ImageFile)
    requires AddImage(labels, st, image).Ok?
    ensures image.size.Some?
    ensures var r := AddImage(labels, st, image).value;
      && r.images == st.images + [CocoImage(st.imageId, image.name, image.size.value.width, image.size.value.height)]
      && r.copied == st.copied + [image.name]
      && r.imageId == st.imageId + 1
  {
    var size := image.size.value;
    var recorded := st.(images := st.images + [CocoImage(st.imageId, image.name, size.width, size.height)]);
    match LabelOf(labels, image.name)
    case None =>
    case Some(labelFile) =>
      LinesFollowAcceptedLines(size, recorded, labelFile.lines);
  }

  /** Image ids count the listing from 1: the k-th file of the listing,
      labelled or not, is the image with id k + 1, with the size PIL reports. */
  lemma {:induction false} ImagesFollowListing(labels: seq<LabelFile>, images: seq<ImageFile>)
    requires ConvertedSplit(labels, images).Ok?
    ensures var st := ConvertedSplit(labels, images).value;
      && st.imageId == |images| + 1
      && |st.images| == |images| && |st.copied| == |images|
      && forall k :: 0 <= k < |images| ==>
           && images[k].size.Some?
           && st.images[k] == CocoImage(k + 1, images[k].name, images[k].size.value.width, images[k].size.value.height)
           && st.copied[k] == images[k].name
    decreases |images|
  {
    if images != [] {
      var n := |images| - 1;
      var prefix := images[..n];
      ImagesFollowListing(labels, prefix);
      AddImageAppends(labels, ConvertedSplit(labels, prefix).value, images[n]);
      assert forall k :: 0 <= k < n ==> prefix[k] == images[k];
    }
  }

  // ---------------------------------------------------------------------
  // what a split's records satisfy

  /** The annotation `a` comes from a line of the label file of the image it
      names, converted with that image's size and the annotation's ids. */
  predicate FromLabelLine(labels: seq<LabelFile>, images: seq<CocoImage>, a: CocoAnnotation)
  {
    && 1 <= a.imageId <= |images|
    && var image := images[a.imageId - 1];
       && LabelOf(labels, image.fileName).Some?
       && exists parts :: parts in LabelOf(labels, image.fileName).value.lines &&
            LineAnnotation(parts, Size(image.width, image.height), a.imageId, a.id) == Ok(Some(a))
  }

  /** Ids count from 1 in both lists; each annotation names an image already
      recorded, in non-decreasing order, and comes from its label file. */
  predicate SplitWellFormed(labels: seq<LabelFile>, st: SplitState)
  {
    && st.imageId == |st.images| + 1
    && st.annotationId == |st.annotations| + 1
    && (forall k :: 0 <= k < |st.images| ==> st.images[k].id == k + 1)
    && (forall k :: 0 <= k < |st.annotations| ==> st.annotations[k].id == k + 1)
    && (forall k, l :: 0 <= k < l < |st.annotations| ==> st.annotations[k].imageId <= st.annotations[l].imageId)
    && (forall k :: 0 <= k < |st.annotations| ==> FromLabelLine(labels, st.images, st.annotations[k]))
  }

  /** Appending an image record keeps the earlier annotations' sources. */
  lemma FromLabelLineKept(labels: seq<LabelFile>, images: seq<CocoImage>, more: seq<CocoImage>, a: CocoAnnotation)
    requires FromLabelLine(labels, images, a)
    ensures FromLabelLine(labels, images + more, a)
  {
    assert (images + more)[a.imageId - 1] == images[a.imageId - 1];
  }

  /** The j-th annotation a label file adds names the newest image, is
      numbered on from `annotationId`, and comes from a line of that file. */
  lemma NewAnnotationFromLine(labels: seq<LabelFile>, st: SplitState, labelFile: LabelFile, size: Size, j: nat)
    requires |st.images| > 0 && st.imageId == |st.images|
    requires st.images[|st.images| - 1] == CocoImage(st.imageId, st.images[|st.images| - 1].fileName, size.width, size.height)
    requires LabelOf(labels, st.images[|st.images| - 1].fileName) == Some(labelFile)
    requires FoldResult(LineStep(size), st, labelFile.lines).Ok?
    requires j < |AcceptedLines(labelFile.lines)|
    ensures var r := FoldResult(LineStep(size), st, labelFile.lines).value;
      && |st.annotations| + j < |r.annotations|
      && var a := r.annotations[|st.annotations| + j];
         && a.id == st.annotationId + j && a.imageId == st.imageId
         && FromLabelLine(labels, r.images, a)
  {
    var lines := labelFile.lines;
    LinesFollowAcceptedLines(size, st, lines);
    AcceptedLinesAreLines(lines);
    var r := FoldResult(LineStep(size), st, lines).value;
    var parts := AcceptedLines(lines)[j];
    assert parts in AcceptedLines(lines);
    var a := r.annotations[|st.annotations| + j];
    assert LineAnnotation(parts, size, st.imageId, st.annotationId + j) == Ok(Some(a));
    assert Parses(parts);
    LineAnnotationFields(parts, size, st.imageId, st.annotationId + j);
    var image := r.images[a.imageId - 1];
    assert image == st.images[|st.images| - 1];
    assert Size(image.width, image.height) == size;
    assert parts in LabelOf(labels, image.fileName).value.lines;
  }

  /** The lines of the newest image's label file keep the split well formed. */
  lemma LinesKeepWellFormed(labels: seq<LabelFile>, st: SplitState, labelFile: LabelFile, size: Size)
    requires |st.images| > 0 && st.imageId == |st.images|
    requires st.images[|st.images| - 1] == CocoImage(st.imageId, st.images[|st.images| - 1].fileName, size.width, size.height)
    requires LabelOf(labels, st.images[|st.images| - 1].fileName) == Some(labelFile)
    requires st.annotationId == |st.annotations| + 1
    requires forall k :: 0 <= k < |st.images| ==> st.images[k].id == k + 1
    requires forall k :: 0 <= k < |st.annotations| ==> st.annotations[k].id == k + 1
    requires forall k, l :: 0 <= k < l < |st.annotations| ==> st.annotations[k].imageId <= st.annotations[l].imageId
    requires forall k :: 0 <= k < |st.annotations| ==>
      FromLabelLine(labels, st.images, st.annotations[k]) && st.annotations[k].imageId <= st.imageId
    requires FoldResult(LineStep(size), st, labelFile.lines).Ok?
    ensures var r := FoldResult(LineStep(size), st, labelFile.lines).value;
      && r.images == st.images && r.copied == st.copied && r.imageId == st.imageId
      && r.annotationId == |r.annotations| + 1
      && (forall k :: 0 <= k < |r.annotations| ==> r.annotations[k].id == k + 1)
      && (forall k, l :: 0 <= k < l < |r.annotations| ==> r.annotations[k].imageId <= r.annotations[l].imageId)
      && (forall k :: 0 <= k < |r.annotations| ==> FromLabelLine(labels, r.images, r.annotations[k]) && r.annotations[k].imageId <= r.imageId)
  {
    var lines := labelFile.lines;
    LinesFollowAcceptedLines(size, st, lines);
    var r := FoldResult(LineStep(size), st, lines).value;
    var m := |st.annotations|;
    forall k | m <= k < |r.annotations|
      ensures r.annotations[k].id == k + 1 && r.annotations[k].imageId == st.imageId
      ensures FromLabelLine(labels, r.images, r.annotations[k])
    {
      NewAnnotationFromLine(labels, st, labelFile, size, k - m);
    }
    AppendedAnnotationsKeep(labels, st.images, st.imageId, st.annotations, r.annotations);
  }

  /** Annotations appended for the newest image, numbered on and coming from
      its label file, keep the ids consecutive, the image ids in order and
      every annotation's source. */
  lemma AppendedAnnotationsKeep(labels: seq<LabelFile>, images: seq<CocoImage>, imageId: int,
                                before: seq<CocoAnnotation>, after: seq<CocoAnnotation>)
    requires |before| <= |after| && after[..|before|] == before
    requires forall k :: 0 <= k < |before| ==> before[k].id == k + 1
    requires forall k, l :: 0 <= k < l < |before| ==> before[k].imageId <= before[l].imageId
    requires forall k :: 0 <= k < |before| ==> FromLabelLine(labels, images, before[k]) && before[k].imageId <= imageId
    requires forall k :: |before| <= k < |after| ==>
      after[k].id == k + 1 && after[k].imageId == imageId && FromLabelLine(labels, images, after[k])
    ensures forall k :: 0 <= k < |after| ==> after[k].id == k + 1
    ensures forall k, l :: 0 <= k < l < |after| ==> after[k].imageId <= after[l].imageId
    ensures forall k :: 0 <= k < |after| ==> FromLabelLine(labels, images, after[k]) && after[k].imageId <= imageId
  {
    var m := |before|;
    forall k | 0 <= k < m
      ensures after[k] == before[k]
    {
      assert after[..m][k] == after[k];
    }
  }

  /** Every image keeps the split well formed; the only errors are an image
      PIL cannot open and a field int() or float() rejects. */
  lemma AddImageKeepsWellFormed(labels: seq<LabelFile>, st: SplitState, image: ImageFile)
    requires SplitWellFormed(labels, st)
    ensures AddImage(labels, st, image).Ok? ==> SplitWellFormed(labels, AddImage(labels, st, image).value)
    ensures AddImage(labels, st, image).Err? ==> AddImage(labels, st, image).error in {UnreadableImage, ValueError}
  {
    match image.size
    case None =>
    case Some(size) =>
      var recorded := st.(images := st.images + [CocoImage(st.imageId, image.name, size.width, size.height)]);
      forall k | 0 <= k < |st.annotations|
        ensures FromLabelLine(labels, recorded.images, st.annotations[k]) && st.annotations[k].imageId <= recorded.imageId
      {
        FromLabelLineKept(labels, st.images, [CocoImage(st.imageId, image.name, size.width, size.height)], st.annotations[k]);
      }
      match LabelOf(labels, image.name)
      case None =>
      case Some(labelFile) =>
        if FoldResult(LineStep(size), recorded, labelFile.lines).Ok? {
          LinesKeepWellFormed(labels, recorded, labelFile, size);
        } else {
          LinesErrorIsValueError(size, recorded, labelFile.lines);
        }
  }

  /** The only error of the line loop is ValueError. */
  lemma {:induction false} LinesErrorIsValueError(size: Size, st: SplitState, lines: seq<seq<Token>>)
    ensures FoldResult(LineStep(size), st, lines).Err? ==> FoldResult(LineStep(size), st, lines).error == ValueError
    decreases |lines|
  {
    if lines != [] {
      LinesErrorIsValueError(size, st, lines[..|lines| - 1]);
    }
  }

  /** A converted split is well formed; it fails only on an image PIL
      cannot open or a field int() or float() rejects. */
  lemma SplitWellFormedResult(labels: seq<LabelFile>, images: seq<ImageFile>)
    ensures ConvertedSplit(labels, images).Ok? ==> SplitWellFormed(labels, ConvertedSplit(labels, images).value)
    ensures ConvertedSplit(labels, images).Err? ==> ConvertedSplit(labels, images).error in {UnreadableImage, ValueError}
  {
    var inv := (st: SplitState) => SplitWellFormed(labels, st);
    var allowed := (e: Error) => e in {UnreadableImage, ValueError};
    forall st, image | image in images && inv(st)
      ensures if ImageStep(labels)(st, image).Ok? then inv(ImageStep(labels)(st, image).value)
              else allowed(ImageStep(labels)(st, image).error)
    {
      AddImageKeepsWellFormed(labels, st, image);
    }
    FoldPreserves(ImageStep(labels), InitState, images, inv, allowed);
  }

  // ---------------------------------------------------------------------
  // the run over the splits

  /** A split whose `images` directory is missing makes os.listdir raise. */
  function AddSplit(d: Dataset, classNames: seq<string>, writes: seq<SplitWrite>, split: string): Result<seq<SplitWrite>>
  {
    if split !in d || d[split].images.None? then Err(FileNotFound)
    else
      match ConvertedSplit(d[split].labels, d[split].images.value)
      case Err(e) => Err(e)
      case Ok(st) =>
        Ok(writes + [SplitWrite(split, split + "2014", CocoData(Categories(classNames), st.images, st.annotations), st.copied)])
  }

  function SplitStep(d: Dataset, classNames: seq<string>): (seq<SplitWrite>, string) -> Result<seq<SplitWrite>>
  {
    (writes, split) => AddSplit(d, classNames, writes, split)
  }

  /** The instances files written, one per split, in the order given. */
  function ConvertedSplits(d: Dataset, splits: seq<string>, classNames: seq<string>): Result<seq<SplitWrite>>
  {
    FoldResult(SplitStep(d, classNames), [], splits)
  }

  method Convert(d: Dataset, splits: seq<string>, classNames: seq<string>) returns (r: Result<seq<SplitWrite>>)
    ensures r == ConvertedSplits(d, splits, classNames)
  {
    var categories := seq(|classNames|, i requires 0 <= i < |classNames| => CocoCategory(i, classNames[i]));
    assert categories == Categories(classNames);
    var writes: seq<SplitWrite> := [];
    for k := 0 to |splits|
      invariant FoldResult(SplitStep(d, classNames), [], splits[..k]) == Ok(writes)
    {
      FoldStep(SplitStep(d, classNames), [], splits, k);
      var split := splits[k];
      if split !in d || d[split].images.None? {
        FoldErrPersists(SplitStep(d, classNames), [], splits, k + 1);
        return Err(FileNotFound);
      }
      var st := ConvertSplit(d[split].labels, d[split].images.value);
      if st.Err? {
        FoldErrPersists(SplitStep(d, classNames), [], splits, k + 1);
        return Err(st.error);
      }
      writes := writes + [SplitWrite(split, split + "2014", CocoData(categories, st.value.images, st.value.annotations), st.value.copied)];
    }
    FoldWhole(SplitStep(d, classNames), [], splits);
    r := Ok(writes);
  }

  /** The run converts iff every split has an `images` directory and every
      file listed there converts. */
  lemma {:induction false} ConvertsIff(d: Dataset, splits: seq<string>, classNames: seq<string>)
    ensures ConvertedSplits(d, splits, classNames).Ok? <==>
      forall k :: 0 <= k < |splits| ==>
        && splits[k] in d && d[splits[k]].images.Some?
        && forall i :: 0 <= i < |d[splits[k]].images.value| ==> ImageConverts(d[splits[k]].labels, d[splits[k]].images.value[i])
    decreases |splits|
  {
    if splits != [] {
      var n := |splits| - 1;
      var prefix := splits[..n];
      ConvertsIff(d, prefix, classNames);
      assert forall k :: 0 <= k < n ==> prefix[k] == splits[k];
      var split := splits[n];
      if split in d && d[split].images.Some? {
        SplitOkIff(d[split].labels, d[split].images.value);
      }
    }
  }

  /** The k-th file written is `instances_<split>2014.json` of the k-th
      split, listing every class and that split's records, with ids counted
      afresh from 1 in each split. */
  lemma {:induction false} WritesPerSplit(d: Dataset, splits: seq<string>, classNames: seq<string>)
    requires ConvertedSplits(d, splits, classNames).Ok?
    ensures |ConvertedSplits(d, splits, classNames).value| == |splits|
    ensures forall k :: 0 <= k < |splits| ==>
      var w := ConvertedSplits(d, splits, classNames).value[k];
      && w.split == splits[k] && w.folder == splits[k] + "2014"
      && splits[k] in d && d[splits[k]].images.Some?
      && var st := ConvertedSplit(d[splits[k]].labels, d[splits[k]].images.value);
         && st.Ok?
         && w.data == CocoData(Categories(classNames), st.value.images, st.value.annotations)
         && w.copied == st.value.copied
    decreases |splits|
  {
    if splits != [] {
      WritesPerSplit(d, splits[..|splits| - 1], classNames);
    }
  }

  /** Every file written is well formed: the k-th image record is the k-th
      file of the split's listing with id k + 1, every file is copied, and
      the annotations are numbered from 1, each from a line of its image's
      label file. */
  lemma WritesWellFormed(d: Dataset, splits: seq<string>, classNames: seq<string>, k: nat)
    requires ConvertedSplits(d, splits, classNames).Ok? && k < |splits|
    ensures |ConvertedSplits(d, splits, classNames).value| == |splits|
    ensures splits[k] in d && d[splits[k]].images.Some?
    ensures var w := ConvertedSplits(d, splits, classNames).value[k];
      var listing := d[splits[k]].images.value;
      && |w.data.images| == |listing| && w.copied == seq(|listing|, i requires 0 <= i < |listing| => listing[i].name)
      && (forall i :: 0 <= i < |listing| ==>
            listing[i].size.Some? &&
            w.data.images[i] == CocoImage(i + 1, listing[i].name, listing[i].size.value.width, listing[i].size.value.height))
      && (forall i :: 0 <= i < |w.data.annotations| ==> w.data.annotations[i].id == i + 1)
      && (forall i :: 0 <= i < |w.data.annotations| ==> FromLabelLine(d[splits[k]].labels, w.data.images, w.data.annotations[i]))
  {
    WritesPerSplit(d, splits, classNames);
    var split := splits[k];
    ImagesFollowListing(d[split].labels, d[split].images.value);
    SplitWellFormedResult(d[split].labels, d[split].images.value);
  }
}
