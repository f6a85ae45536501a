/** yolo2voc.py: a YOLO dataset (`<split>/images`, `<split>/labels`) to a
    VOC dataset (`JPEGImages`, `Annotations`, `ImageSets/Main`,
    `classes.txt`). */
module YoloToVoc {
  import opened Common
  import opened Geometry
  import opened Paths
  import opened Ordering
  import opened Records

  /** A file of an `images` directory: its name, and the (width, height)
      cv2.imread reports, or None when it cannot decode the file. */
  datatype ImageFile = ImageFile(name: string, decoded: Option<Size>)

  /** A split directory: the listings of its `images` and `labels`
      subdirectories, None for one that is absent. */
  datatype SplitDir = SplitDir(images: Option<seq<ImageFile>>, labels: Option<seq<LabelFile>>)

  /** The dataset root: the split directories present, by name. */
  type Dataset = map<string, SplitDir>

  const Splits: seq<string> := ["train", "val", "test"]

  /** What one split contributes: its `ImageSets/Main/<split>.txt` lines,
      the files copied to `JPEGImages`, and the XML files written. */
  datatype SplitOutput = SplitOutput(split: string, imageSet: seq<string>, copied: seq<string>, annotations: seq<VocFile>)

  /** The whole output: `classes.txt` and the converted splits in order. */
  datatype VocDataset = VocDataset(classes: seq<string>, splits: seq<SplitOutput>)

  // ---------------------------------------------------------------------
  // classes.txt

  /** The `labels` listing of a split, when the split and it both exist. */
  function LabelsOf(d: Dataset, split: string): Option<seq<LabelFile>>
  {
    if split in d then d[split].labels else None
  }

  function FirstToken(parts: seq<Token>): set<string>
  {
    if |parts| > 0 then {parts[0].text} else {}
  }

  function LineClasses(lines: seq<seq<Token>>): set<string>
  {
    if lines == [] then {}
    else LineClasses(lines[..|lines| - 1]) + FirstToken(lines[|lines| - 1])
  }

  function FileClasses(files: seq<LabelFile>): set<string>
  {
    if files == [] then {}
    else
      var f := files[|files| - 1];
      FileClasses(files[..|files| - 1]) + (if EndsWith(f.name, ".txt") then LineClasses(f.lines) else {})
  }

  function SplitClasses(d: Dataset, splits: seq<string>): set<string>
  {
    if splits == [] then {}
    else
      SplitClasses(d, splits[..|splits| - 1]) +
        match LabelsOf(d, splits[|splits| - 1])
        case Some(files) => FileClasses(files)
        case None => {}
  }

  /** A `.txt` label file with a non-empty line whose first field is `c`. */
  predicate FileHasClass(f: LabelFile, c: string)
  {
    EndsWith(f.name, ".txt") && exists j :: 0 <= j < |f.lines| && |f.lines[j]| > 0 && f.lines[j][0].text == c
  }

  /** A split whose `labels` directory holds such a file. */
  predicate SplitHasClass(d: Dataset, split: string, c: string)
  {
    LabelsOf(d, split).Some? &&
      exists i :: 0 <= i < |LabelsOf(d, split).value| && FileHasClass(LabelsOf(d, split).value[i], c)
  }

  lemma {:induction false} LineClassesAreFirstTokens(lines: seq<seq<Token>>, c: string)
    ensures c in LineClasses(lines) <==> exists j :: 0 <= j < |lines| && |lines[j]| > 0 && lines[j][0].text == c
    decreases |lines|
  {
    if lines != [] {
      var n := |lines| - 1;
      var prefix := lines[..n];
      LineClassesAreFirstTokens(prefix, c);
      if c in LineClasses(lines) {
        if c in LineClasses(prefix) {
          var j :| 0 <= j < |prefix| && |prefix[j]| > 0 && prefix[j][0].text == c;
          assert lines[j] == prefix[j];
        } else {
          assert |lines[n]| > 0 && lines[n][0].text == c;
        }
      }
      if exists j :: 0 <= j < |lines| && |lines[j]| > 0 && lines[j][0].text == c {
        var j :| 0 <= j < |lines| && |lines[j]| > 0 && lines[j][0].text == c;
        if j < n {
          assert prefix[j] == lines[j];
        }
      }
    }
  }

  lemma {:induction false} FileClassesAreFirstTokens(files: seq<LabelFile>, c: string)
    ensures c in FileClasses(files) <==> exists i :: 0 <= i < |files| && FileHasClass(files[i], c)
    decreases |files|
  {
    if files != [] {
      var n := |files| - 1;
      var prefix := files[..n];
      FileClassesAreFirstTokens(prefix, c);
      LineClassesAreFirstTokens(files[n].lines, c);
      if c in FileClasses(files) {
        if c in FileClasses(prefix) {
          var i :| 0 <= i < |prefix| && FileHasClass(prefix[i], c);
          assert files[i] == prefix[i];
        } else {
          assert FileHasClass(files[n], c);
        }
      }
      if exists i :: 0 <= i < |files| && FileHasClass(files[i], c) {
        var i :| 0 <= i < |files| && FileHasClass(files[i], c);
        if i < n {
          assert prefix[i] == files[i];
        }
      }
    }
  }

  /** The class tokens are exactly the first fields of the non-empty lines
      of the `.txt` files in the `labels` directories of the splits. */
  lemma {:induction false} SplitClassesAreFirstTokens(d: Dataset, splits: seq<string>, c: string)
    ensures c in SplitClasses(d, splits) <==> exists k :: 0 <= k < |splits| && SplitHasClass(d, splits[k], c)
    decreases |splits|
  {
    if splits != [] {
      var n := |splits| - 1;
      var prefix := splits[..n];
      SplitClassesAreFirstTokens(d, prefix, c);
      if LabelsOf(d, splits[n]).Some? {
        FileClassesAreFirstTokens(LabelsOf(d, splits[n]).value, c);
      }
      if c in SplitClasses(d, splits) {
        if c in SplitClasses(d, prefix) {
          var k :| 0 <= k < |prefix| && SplitHasClass(d, prefix[k], c);
          assert splits[k] == prefix[k];
        } else {
          assert SplitHasClass(d, splits[n], c);
        }
      }
      if exists k :: 0 <= k < |splits| && SplitHasClass(d, splits[k], c) {
        var k :| 0 <= k < |splits| && SplitHasClass(d, splits[k], c);
        if k < n {
          assert prefix[k] == splits[k];
        }
      }
    }
  }

  /** The innermost loop: the first fields of the lines of one file. */
  method AddLineClasses(tokens: set<string>, lines: seq<seq<Token>>) returns (r: set<string>)
    ensures r == tokens + LineClasses(lines)
  {
    r := tokens;
    for j := 0 to |lines|
      invariant r == tokens + LineClasses(lines[..j])
    {
      assert lines[..j + 1][..j] == lines[..j];
      var parts := lines[j];
      if |parts| > 0 {
        r := r + {parts[0].text};
      }
    }
    assert lines[..|lines|] == lines;
  }

  /** The loop over the files of one `labels` directory. */
  method AddFileClasses(tokens: set<string>, files: seq<LabelFile>) returns (r: set<string>)
    ensures r == tokens + FileClasses(files)
  {
    r := tokens;
    for i := 0 to |files|
      invariant r == tokens + FileClasses(files[..i])
    {
      assert files[..i + 1][..i] == files[..i];
      var file := files[i];
      if EndsWith(file.name, ".txt") {
        r := AddLineClasses(r, file.lines);
      }
    }
    assert files[..|files|] == files;
  }

  /** Collects the class tokens of every split, then sorts them as
      `sorted(list(classes))` does. */
  method CollectClasses(d: Dataset) returns (classes: seq<string>)
    ensures StrictlySorted(classes, StringLt)
    ensures forall c :: c in classes <==> c in SplitClasses(d, Splits)
  {
    var tokens: set<string> := {};
    for k := 0 to |Splits|
      invariant tokens == SplitClasses(d, Splits[..k])
    {
      assert Splits[..k + 1][..k] == Splits[..k];
      var split := Splits[k];
      if split in d && d[split].labels.Some? {
        tokens := AddFileClasses(tokens, d[split].labels.value);
      }
    }
    assert Splits[..|Splits|] == Splits;
    StringLtIsStrictTotalOrder();
    classes := SortSet(tokens, StringLt);
  }

  // ---------------------------------------------------------------------
  // label lines to VOC objects

  /** A line the converter uses: five fields or more. */
  predicate Accepted(parts: seq<Token>)
  {
    |parts| >= 5
  }

  /** float() succeeds on fields 1 to 4. */
  predicate Parses(parts: seq<Token>)
    requires Accepted(parts)
  {
    parts[1].asReal.Some? && parts[2].asReal.Some? && parts[3].asReal.Some? && parts[4].asReal.Some?
  }

  function BoxOf(parts: seq<Token>): NormBox
    requires Accepted(parts) && Parses(parts)
  {
    NormBox(parts[1].asReal.value, parts[2].asReal.value, parts[3].asReal.value, parts[4].asReal.value)
  }

  /** One label line: None when skipped, else the object it yields. */
  function LineObject(parts: seq<Token>, size: Size): Result<Option<VocObject>>
  {
    if !Accepted(parts) then Ok(None)
    else if !Parses(parts) then Err(ValueError)
    else Ok(Some(VocObject(parts[0].text, YoloToVocCorners(BoxOf(parts), size))))
  }

  function AppendLine(size: Size, objects: seq<VocObject>, parts: seq<Token>): Result<seq<VocObject>>
  {
    match LineObject(parts, size)
    case Err(e) => Err(e)
    case Ok(None) => Ok(objects)
    case Ok(Some(o)) => Ok(objects + [o])
  }

  function LineStep(size: Size): (seq<VocObject>, seq<Token>) -> Result<seq<VocObject>>
  {
    (objects, parts) => AppendLine(size, objects, parts)
  }

  /** The objects of an annotation, from the lines of its label file. */
  function Objects(lines: seq<seq<Token>>, size: Size): Result<seq<VocObject>>
  {
    FoldResult(LineStep(size), [], lines)
  }

  /** The lines with five fields or more, in file order. */
  function AcceptedLines(lines: seq<seq<Token>>): seq<seq<Token>>
  {
    if lines == [] then []
    else
      var parts := lines[|lines| - 1];
      AcceptedLines(lines[..|lines| - 1]) + (if Accepted(parts) then [parts] else [])
  }

  /** The label-line loop: one object per accepted line. */
  method ConvertLines(lines: seq<seq<Token>>, size: Size) returns (r: Result<seq<VocObject>>)
    ensures r == Objects(lines, size)
  {
    var objects: seq<VocObject> := [];
    for j := 0 to |lines|
      invariant FoldResult(LineStep(size), [], lines[..j]) == Ok(objects)
    {
      FoldStep(LineStep(size), [], lines, j);
      var parts := lines[j];
      if |parts| >= 5 {
        if parts[1].asReal.None? || parts[2].asReal.None? || parts[3].asReal.None? || parts[4].asReal.None? {
          FoldErrPersists(LineStep(size), [], lines, j + 1);
          return Err(ValueError);
        }
        var box := NormBox(parts[1].asReal.value, parts[2].asReal.value, parts[3].asReal.value, parts[4].asReal.value);
        objects := objects + [VocObject(parts[0].text, YoloToVocCorners(box, size))];
      }
    }
    FoldWhole(LineStep(size), [], lines);
    r := Ok(objects);
  }

  /** A label file converts iff float() succeeds on fields 1 to 4 of every
      line with five fields or more; the others are skipped unread. */
  lemma {:induction false} ObjectsOkIffAcceptedLinesParse(lines: seq<seq<Token>>, size: Size)
    ensures Objects(lines, size).Ok? <==>
      forall j :: 0 <= j < |lines| && Accepted(lines[j]) ==> Parses(lines[j])
    decreases |lines|
  {
    if lines != [] {
      var n := |lines| - 1;
      var prefix := lines[..n];
      ObjectsOkIffAcceptedLinesParse(prefix, size);
      assert forall j :: 0 <= j < n ==> prefix[j] == lines[j];
    }
  }

  /** No validity gate: every accepted line yields exactly one object, named
      by the raw class field, its corners the clamped conversion of fields 1
      to 4, within the image. */
  lemma {:induction false} ObjectsFollowAcceptedLines(lines: seq<seq<Token>>, size: Size)
    requires Objects(lines, size).Ok?
    ensures |Objects(lines, size).value| == |AcceptedLines(lines)|
    ensures forall k :: 0 <= k < |AcceptedLines(lines)| ==>
      var parts := AcceptedLines(lines)[k];
      var o := Objects(lines, size).value[k];
      && Accepted(parts) && Parses(parts)
      && o.name == parts[0].text
      && o.box == YoloToVocCorners(BoxOf(parts), size)
      && 0 <= o.box.xmin && 0 <= o.box.ymin && o.box.xmax <= size.width && o.box.ymax <= size.height
    decreases |lines|
  {
    if lines != [] {
      var n := |lines| - 1;
      ObjectsFollowAcceptedLines(lines[..n], size);
    }
  }

  // ---------------------------------------------------------------------
  // images of a split

  /** An image that gets an XML file: an image extension, a label file of
      the same stem, and a decodable image. */
  predicate GetsXml(labels: seq<LabelFile>, image: ImageFile)
  {
    IsImageFileName(image.name) && FindLabel(labels, Stem(image.name) + ".txt").Some? && image.decoded.Some?
  }

  function AddImage(labels: seq<LabelFile>, out: SplitOutput, image: ImageFile): Result<SplitOutput>
  {
    if !IsImageFileName(image.name) then Ok(out)
    else
      var stem := Stem(image.name);
      var listed := out.(imageSet := out.imageSet + [stem], copied := out.copied + [image.name]);
      match FindLabel(labels, stem + ".txt")
      case None => Ok(listed)
      case Some(labelFile) =>
        match image.decoded
        case None => Ok(listed)
        case Some(size) =>
          match Objects(labelFile.lines, size)
          case Err(e) => Err(e)
          case Ok(objects) =>
            Ok(listed.(annotations := listed.annotations + [VocFile(stem, VocAnnotation(image.name, size, objects))]))
  }

  function ImageStep(labels: seq<LabelFile>): (SplitOutput, ImageFile) -> Result<SplitOutput>
  {
    (out, image) => AddImage(labels, out, image)
  }

  /** The output of one split whose `images` and `labels` both exist. */
  function ConvertedSplit(split: string, images: seq<ImageFile>, labels: seq<LabelFile>): Result<SplitOutput>
  {
    FoldResult(ImageStep(labels), SplitOutput(split, [], [], []), images)
  }

  /** The names in the listing with an image extension, in listing order. */
  function ImageNames(images: seq<ImageFile>): seq<string>
  {
    if images == [] then []
    else
      var image := images[|images| - 1];
      ImageNames(images[..|images| - 1]) + (if IsImageFileName(image.name) then [image.name] else [])
  }

  /** The images of the listing that get an XML file, in listing order. */
  function XmlImages(images: seq<ImageFile>, labels: seq<LabelFile>): seq<ImageFile>
  {
    if images == [] then []
    else
      var image := images[|images| - 1];
      XmlImages(images[..|images| - 1], labels) + (if GetsXml(labels, image) then [image] else [])
  }

  /** The image loop of one split. */
  method ConvertSplit(split: string, images: seq<ImageFile>, labels: seq<LabelFile>) returns (r: Result<SplitOutput>)
    ensures r == ConvertedSplit(split, images, labels)
  {
    var init := SplitOutput(split, [], [], []);
    var out := init;
    for i := 0 to |images|
      invariant FoldResult(ImageStep(labels), init, images[..i]) == Ok(out)
    {
      FoldStep(ImageStep(labels), init, images, i);
      var image := images[i];
      if IsImageFileName(image.name) {
        var stem := Stem(image.name);
        out := out.(imageSet := out.imageSet + [stem], copied := out.copied + [image.name]);
        var labelFile := FindLabel(labels, stem + ".txt");
        if labelFile.Some? && image.decoded.Some? {
          var objects := ConvertLines(labelFile.value.lines, image.decoded.value);
          if objects.Err? {
            FoldErrPersists(ImageStep(labels), init, images, i + 1);
            return Err(objects.error);
          }
          var xml := VocFile(stem, VocAnnotation(image.name, image.decoded.value, objects.value));
          out := out.(annotations := out.annotations + [xml]);
        }
      }
    }
    FoldWhole(ImageStep(labels), init, images);
    r := Ok(out);
  }

  /** One image fails only when it gets an XML file and its label file
      does not convert. */
  lemma AddImageOkIff(labels: seq<LabelFile>, out: SplitOutput, image: ImageFile)
    ensures AddImage(labels, out, image).Ok? <==>
      (GetsXml(labels, image) ==> Objects(FindLabel(labels, Stem(image.name) + ".txt").value.lines, image.decoded.value).Ok?)
  {
  }

  /** A split converts iff every image that gets an XML file has a label
      file whose accepted lines all parse. */
  lemma {:induction false} ConvertedSplitOkIff(split: string, images: seq<ImageFile>, labels: seq<LabelFile>)
    ensures ConvertedSplit(split, images, labels).Ok? <==>
      forall i :: 0 <= i < |images| && GetsXml(labels, images[i]) ==>
        Objects(FindLabel(labels, Stem(images[i].name) + ".txt").value.lines, images[i].decoded.value).Ok?
    decreases |images|
  {
    if images != [] {
      var n := |images| - 1;
      var prefix, image := images[..n], images[n];
      ConvertedSplitOkIff(split, prefix, labels);
      if ConvertedSplit(split, prefix, labels).Ok? {
        var pre := ConvertedSplit(split, prefix, labels).value;
        assert ConvertedSplit(split, images, labels) == AddImage(labels, pre, image);
        AddImageOkIff(labels, pre, image);
      }
      if ConvertedSplit(split, images, labels).Ok? {
        forall i | 0 <= i < |images| && GetsXml(labels, images[i])
          ensures Objects(FindLabel(labels, Stem(images[i].name) + ".txt").value.lines, images[i].decoded.value).Ok?
        {
          if i < n {
            assert images[i] == prefix[i];
          }
        }
      } else if ConvertedSplit(split, prefix, labels).Err? {
        var i :| 0 <= i < n && GetsXml(labels, prefix[i]) &&
          !Objects(FindLabel(labels, Stem(prefix[i].name) + ".txt").value.lines, prefix[i].decoded.value).Ok?;
        assert images[i] == prefix[i];
      }
    }
  }

  /** Every file with an image extension is copied and listed by its stem in
      the split list, in listing order, whether or not it gets an XML file. */
  lemma {:induction false} SplitListsEveryImage(split: string, images: seq<ImageFile>, labels: seq<LabelFile>)
    requires ConvertedSplit(split, images, labels).Ok?
    ensures ConvertedSplit(split, images, labels).value.split == split
    ensures ConvertedSplit(split, images, labels).value.copied == ImageNames(images)
    ensures |ConvertedSplit(split, images, labels).value.imageSet| == |ImageNames(images)|
    ensures forall k :: 0 <= k < |ImageNames(images)| ==>
      ConvertedSplit(split, images, labels).value.imageSet[k] == Stem(ImageNames(images)[k])
    decreases |images|
  {
    if images != [] {
      SplitListsEveryImage(split, images[..|images| - 1], labels);
    }
  }

  /** An XML file is written exactly for the images with an image extension,
      a label file and a decodable image, in listing order; it records the
      image's name and size and is named by the image's stem. */
  lemma {:induction false} XmlExactlyForLabelledReadableImages(split: string, images: seq<ImageFile>, labels: seq<LabelFile>)
    requires ConvertedSplit(split, images, labels).Ok?
    ensures |ConvertedSplit(split, images, labels).value.annotations| == |XmlImages(images, labels)|
    ensures forall k :: 0 <= k < |XmlImages(images, labels)| ==>
      var image := XmlImages(images, labels)[k];
      var xml := ConvertedSplit(split, images, labels).value.annotations[k];
      && GetsXml(labels, image)
      && xml.stem == Stem(image.name)
      && xml.annotation.fileName == image.name
      && Some(xml.annotation.size) == image.decoded
      && Objects(FindLabel(labels, xml.stem + ".txt").value.lines, xml.annotation.size) == Ok(xml.annotation.objects)
    decreases |images|
  {
    if images != [] {
      var n := |images| - 1;
      var prefix, image := images[..n], images[n];
      XmlExactlyForLabelledReadableImages(split, prefix, labels);
      var pre := ConvertedSplit(split, prefix, labels).value;
      var out := ConvertedSplit(split, images, labels).value;
      assert AddImage(labels, pre, image) == Ok(out);
      assert XmlImages(images, labels) == XmlImages(prefix, labels) + (if GetsXml(labels, image) then [image] else []);
      if GetsXml(labels, image) {
        var size := image.decoded.value;
        var objects := Objects(FindLabel(labels, Stem(image.name) + ".txt").value.lines, size).value;
        assert out.annotations == pre.annotations + [VocFile(Stem(image.name), VocAnnotation(image.name, size, objects))];
      } else {
        assert out.annotations == pre.annotations;
      }
    }
  }

  // ---------------------------------------------------------------------
  // splits

  /** A split that is converted: it, its `images` and its `labels` exist. */
  predicate Present(d: Dataset, split: string)
  {
    split in d && d[split].images.Some? && d[split].labels.Some?
  }

  function AddSplit(d: Dataset, outs: seq<SplitOutput>, split: string): Result<seq<SplitOutput>>
  {
    if !Present(d, split) then Ok(outs)
    else
      match ConvertedSplit(split, d[split].images.value, d[split].labels.value)
      case Err(e) => Err(e)
      case Ok(o) => Ok(outs + [o])
  }

  function SplitStep(d: Dataset): (seq<SplitOutput>, string) -> Result<seq<SplitOutput>>
  {
    (outs, split) => AddSplit(d, outs, split)
  }

  /** The converted splits, in the order train, val, test. */
  function ConvertedSplits(d: Dataset): Result<seq<SplitOutput>>
  {
    FoldResult(SplitStep(d), [], Splits)
  }

  function PresentSplits(d: Dataset, splits: seq<string>): seq<string>
  {
    if splits == [] then []
    else
      var split := splits[|splits| - 1];
      PresentSplits(d, splits[..|splits| - 1]) + (if Present(d, split) then [split] else [])
  }

  /** A split is converted iff it and both its subdirectories exist; the
      others are skipped without a trace. */
  lemma {:induction false} ConvertsExactlyPresentSplits(d: Dataset, splits: seq<string>)
    requires FoldResult(SplitStep(d), [], splits).Ok?
    ensures |FoldResult(SplitStep(d), [], splits).value| == |PresentSplits(d, splits)|
    ensures forall k :: 0 <= k < |PresentSplits(d, splits)| ==>
      var split := PresentSplits(d, splits)[k];
      && Present(d, split)
      && Ok(FoldResult(SplitStep(d), [], splits).value[k]) == ConvertedSplit(split, d[split].images.value, d[split].labels.value)
    decreases |splits|
  {
    if splits != [] {
      ConvertsExactlyPresentSplits(d, splits[..|splits| - 1]);
    }
  }

  /** The whole conversion: classes.txt, then each present split in turn. */
  method Convert(d: Dataset) returns (r: Result<VocDataset>)
    ensures r.Ok? <==> ConvertedSplits(d).Ok?
    ensures r.Err? ==> r.error == ConvertedSplits(d).error
    ensures r.Ok? ==> r.value.splits == ConvertedSplits(d).value
    ensures r.Ok? ==> StrictlySorted(r.value.classes, StringLt)
    ensures r.Ok? ==> forall c :: c in r.value.classes <==> c in SplitClasses(d, Splits)
  {
    var classes := CollectClasses(d);
    var outs: seq<SplitOutput> := [];
    for k := 0 to |Splits|
      invariant FoldResult(SplitStep(d), [], Splits[..k]) == Ok(outs)
    {
      FoldStep(SplitStep(d), [], Splits, k);
      var split := Splits[k];
      if split in d && d[split].images.Some? && d[split].labels.Some? {
        var out := ConvertSplit(split, d[split].images.value, d[split].labels.value);
        if out.Err? {
          FoldErrPersists(SplitStep(d), [], Splits, k + 1);
          return Err(out.error);
        }
        outs := outs + [out.value];
      }
    }
    FoldWhole(SplitStep(d), [], Splits);
    r := Ok(VocDataset(classes, outs));
  }
}
