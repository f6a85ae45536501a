/** voc2yolo.py: a VOC dataset (`Annotations`, `JPEGImages`,
    `ImageSets/Main/<split>.txt`) to a YOLO dataset (`<split>/images`,
    `<split>/labels`, `classes.txt`). */
module VocToYolo {
  import opened Common
  import opened Geometry
  import opened Ordering
  import opened Records

  /** The VOC root: the files of `Annotations` as read, the files of
      `JPEGImages`, and the `ImageSets/Main/<split>.txt` files present, as
      lists of stripped lines. */
  datatype VocRoot = VocRoot(xmls: seq<VocXml>, jpegs: seq<string>, splitLists: map<string, seq<string>>)

  const Splits: seq<string> := ["train", "val", "test"]

  /** What one split gets: the images copied to `<split>/images` and the
      label files written to `<split>/labels`. */
  datatype SplitOutput = SplitOutput(split: string, copied: seq<string>, labels: seq<YoloLabels>)

  // ---------------------------------------------------------------------
  // classes.txt

  /** The object names of every file of `Annotations`, whatever its name. */
  function AllNames(xmls: seq<VocXml>): set<string>
  {
    if xmls == [] then {}
    else AllNames(xmls[..|xmls| - 1]) + ObjectNames(xmls[|xmls| - 1].objects)
  }

  /** A name is in the set iff some object of some annotation file carries it. */
  lemma {:induction false} AllNamesAreObjectNames(xmls: seq<VocXml>, c: string)
    ensures c in AllNames(xmls) <==>
      exists i, j :: 0 <= i < |xmls| && 0 <= j < |xmls[i].objects| && xmls[i].objects[j].name == c
    decreases |xmls|
  {
    if xmls != [] {
      var n := |xmls| - 1;
      AllNamesAreObjectNames(xmls[..n], c);
      ObjectNamesAreNames(xmls[n].objects, c);
      if c in AllNames(xmls[..n]) {
        var i, j :| 0 <= i < n && 0 <= j < |xmls[..n][i].objects| && xmls[..n][i].objects[j].name == c;
        assert xmls[i] == xmls[..n][i];
      }
      if exists i, j :: 0 <= i < |xmls| && 0 <= j < |xmls[i].objects| && xmls[i].objects[j].name == c {
        var i, j :| 0 <= i < |xmls| && 0 <= j < |xmls[i].objects| && xmls[i].objects[j].name == c;
        if i < n {
          assert xmls[..n][i] == xmls[i];
        }
      }
    }
  }

  /** The class loop over `Annotations`, then `sorted(list(class_set))`. */
  method CollectClasses(xmls: seq<VocXml>) returns (classes: seq<string>)
    ensures StrictlySorted(classes, StringLt)
    ensures forall c :: c in classes <==> c in AllNames(xmls)
  {
    var names: set<string> := {};
    for i := 0 to |xmls|
      invariant names == AllNames(xmls[..i])
    {
      assert xmls[..i + 1][..i] == xmls[..i];
      names := AddObjectNames(names, xmls[i].objects);
    }
    assert xmls[..|xmls|] == xmls;
    StringLtIsStrictTotalOrder();
    classes := SortSet(names, StringLt);
  }

  /** The class list is determined by the names: any two lists the class
      loop can produce are equal. */
  lemma ClassListUnique(a: seq<string>, b: seq<string>, xmls: seq<VocXml>)
    requires StrictlySorted(a, StringLt) && forall c :: c in a <==> c in AllNames(xmls)
    requires StrictlySorted(b, StringLt) && forall c :: c in b <==> c in AllNames(xmls)
    ensures a == b
  {
    StringLtIsStrictTotalOrder();
    SortedUnique(a, b, StringLt);
  }

  // ---------------------------------------------------------------------
  // one object

  /** float() succeeds on the four `bndbox` fields. */
  predicate CornersParse(o: VocObjectText)
  {
    o.xmin.asReal.Some? && o.ymin.asReal.Some? && o.xmax.asReal.Some? && o.ymax.asReal.Some?
  }

  function CornersOf(o: VocObjectText): RealCorners
    requires CornersParse(o)
  {
    RealCorners(o.xmin.asReal.value, o.ymin.asReal.value, o.xmax.asReal.value, o.ymax.asReal.value)
  }

  /** One `object`: `class_list.index(name)`, float() of the corners, then
      the division by the image sides. */
  function ObjectLine(classes: seq<string>, w: int, h: int, o: VocObjectText): Result<YoloLine>
  {
    match IndexOf(classes, o.name)
    case Err(e) => Err(e)
    case Ok(classId) =>
      if !CornersParse(o) then Err(ValueError)
      else if w == 0 || h == 0 then Err(ZeroDivision)
      else Ok(YoloLine(classId, VocToYoloBox(CornersOf(o), w, h)))
  }

  function AddLine(classes: seq<string>, w: int, h: int, lines: seq<YoloLine>, o: VocObjectText): Result<seq<YoloLine>>
  {
    match ObjectLine(classes, w, h, o)
    case Err(e) => Err(e)
    case Ok(line) => Ok(lines + [line])
  }

  function LineStep(classes: seq<string>, w: int, h: int): (seq<YoloLine>, VocObjectText) -> Result<seq<YoloLine>>
  {
    (lines, o) => AddLine(classes, w, h, lines, o)
  }

  /** The lines of a label file, one per object. */
  function Lines(classes: seq<string>, w: int, h: int, objects: seq<VocObjectText>): Result<seq<YoloLine>>
  {
    FoldResult(LineStep(classes, w, h), [], objects)
  }

  /** The loop over the objects of an annotation. */
  method ConvertObjects(classes: seq<string>, w: int, h: int, objects: seq<VocObjectText>) returns (r: Result<seq<YoloLine>>)
    ensures r == Lines(classes, w, h, objects)
  {
    var lines: seq<YoloLine> := [];
    for j := 0 to |objects|
      invariant FoldResult(LineStep(classes, w, h), [], objects[..j]) == Ok(lines)
    {
      FoldStep(LineStep(classes, w, h), [], objects, j);
      var o := objects[j];
      var classId := IndexOf(classes, o.name);
      if classId.Err? {
        FoldErrPersists(LineStep(classes, w, h), [], objects, j + 1);
        return Err(classId.error);
      }
      if o.xmin.asReal.None? || o.ymin.asReal.None? || o.xmax.asReal.None? || o.ymax.asReal.None? {
        FoldErrPersists(LineStep(classes, w, h), [], objects, j + 1);
        return Err(ValueError);
      }
      var xmin, ymin, xmax, ymax := o.xmin.asReal.value, o.ymin.asReal.value, o.xmax.asReal.value, o.ymax.asReal.value;
      if w == 0 || h == 0 {
        FoldErrPersists(LineStep(classes, w, h), [], objects, j + 1);
        return Err(ZeroDivision);
      }
      var xCenter := (xmin + xmax) / 2.0 / w as real;
      var yCenter := (ymin + ymax) / 2.0 / h as real;
      var bw := (xmax - xmin) / w as real;
      var bh := (ymax - ymin) / h as real;
      lines := lines + [YoloLine(classId.value, NormBox(xCenter, yCenter, bw, bh))];
    }
    FoldWhole(LineStep(classes, w, h), [], objects);
    r := Ok(lines);
  }

  /** The objects convert iff each name is in the class list, each corner
      parses, and, when there is an object at all, both sides are nonzero. */
  lemma {:induction false} LinesOkIff(classes: seq<string>, w: int, h: int, objects: seq<VocObjectText>)
    ensures Lines(classes, w, h, objects).Ok? <==>
      && (forall j :: 0 <= j < |objects| ==> objects[j].name in classes && CornersParse(objects[j]))
      && (|objects| > 0 ==> w != 0 && h != 0)
    decreases |objects|
  {
    if objects != [] {
      var n := |objects| - 1;
      var prefix := objects[..n];
      LinesOkIff(classes, w, h, prefix);
      assert forall j :: 0 <= j < n ==> prefix[j] == objects[j];
    }
  }

  /** Exactly one line per object, in XML order, with no clamping and no
      dropping: the class id is the name's position in the class list, and
      the box the normalized centre and size of the corners. */
  lemma {:induction false} LinesFollowObjects(classes: seq<string>, w: int, h: int, objects: seq<VocObjectText>)
    requires Lines(classes, w, h, objects).Ok?
    ensures |Lines(classes, w, h, objects).value| == |objects|
    ensures |objects| > 0 ==> w != 0 && h != 0
    ensures forall k :: 0 <= k < |objects| ==>
      var line := Lines(classes, w, h, objects).value[k];
      && 0 <= line.classId < |classes|
      && classes[line.classId] == objects[k].name
      && CornersParse(objects[k])
      && line.box == VocToYoloBox(CornersOf(objects[k]), w, h)
    decreases |objects|
  {
    if objects != [] {
      LinesFollowObjects(classes, w, h, objects[..|objects| - 1]);
    }
  }

  /** With the class list of a sorted, duplicate-free list, the class id of
      each line is the number of classes sorting before its name. */
  lemma ClassIdIsRank(classes: seq<string>, w: int, h: int, objects: seq<VocObjectText>, k: nat, c: nat)
    requires StrictlySorted(classes, StringLt)
    requires Lines(classes, w, h, objects).Ok? && k < |objects| && c < |classes|
    ensures |Lines(classes, w, h, objects).value| == |objects|
    ensures StringLt(classes[c], objects[k].name) <==> c < Lines(classes, w, h, objects).value[k].classId
  {
    LinesFollowObjects(classes, w, h, objects);
    StringLtIsStrictTotalOrder();
    SortedPositionsFollowOrder(classes, StringLt, c, Lines(classes, w, h, objects).value[k].classId);
  }

  // ---------------------------------------------------------------------
  // images of a split

  /** One line of the split list: its `.jpg` is copied and its `.xml` read,
      both of which must exist; int() of the size fields; then one label
      line per object. */
  function AddImage(root: VocRoot, classes: seq<string>, out: SplitOutput, name: string): Result<SplitOutput>
  {
    if name + ".jpg" !in root.jpegs then Err(FileNotFound)
    else
      match FindXml(root.xmls, name + ".xml")
      case None => Err(FileNotFound)
      case Some(xml) =>
        if xml.width.asInt.None? || xml.height.asInt.None? then Err(ValueError)
        else
          match Lines(classes, xml.width.asInt.value, xml.height.asInt.value, xml.objects)
          case Err(e) => Err(e)
          case Ok(lines) => Ok(out.(copied := out.copied + [name + ".jpg"], labels := out.labels + [YoloLabels(name, lines)]))
  }

  function ImageStep(root: VocRoot, classes: seq<string>): (SplitOutput, string) -> Result<SplitOutput>
  {
    (out, name) => AddImage(root, classes, out, name)
  }

  function ConvertedSplit(root: VocRoot, classes: seq<string>, split: string, names: seq<string>): Result<SplitOutput>
  {
    FoldResult(ImageStep(root, classes), SplitOutput(split, [], []), names)
  }

  /** The body of the image loop. */
  method ConvertImage(root: VocRoot, classes: seq<string>, out: SplitOutput, name: string) returns (r: Result<SplitOutput>)
    ensures r == AddImage(root, classes, out, name)
  {
    if name + ".jpg" !in root.jpegs {
      return Err(FileNotFound);
    }
    var xml := FindXml(root.xmls, name + ".xml");
    if xml.None? {
      return Err(FileNotFound);
    }
    if xml.value.width.asInt.None? || xml.value.height.asInt.None? {
      return Err(ValueError);
    }
    var lines := ConvertObjects(classes, xml.value.width.asInt.value, xml.value.height.asInt.value, xml.value.objects);
    if lines.Err? {
      return Err(lines.error);
    }
    r := Ok(out.(copied := out.copied + [name + ".jpg"], labels := out.labels + [YoloLabels(name, lines.value)]));
  }

  method ConvertSplit(root: VocRoot, classes: seq<string>, split: string, names: seq<string>) returns (r: Result<SplitOutput>)
    ensures r == ConvertedSplit(root, classes, split, names)
  {
    var init := SplitOutput(split, [], []);
    var out := init;
    for i := 0 to |names|
      invariant FoldResult(ImageStep(root, classes), init, names[..i]) == Ok(out)
    {
      FoldStep(ImageStep(root, classes), init, names, i);
      var next := ConvertImage(root, classes, out, names[i]);
      if next.Err? {
        FoldErrPersists(ImageStep(root, classes), init, names, i + 1);
        return Err(next.error);
      }
      out := next.value;
    }
    FoldWhole(ImageStep(root, classes), init, names);
    r := Ok(out);
  }

  /** Every listed name has its `.jpg` and `.xml`, integer size fields, and
      objects that convert; there is no skip path. */
  predicate ImageConverts(root: VocRoot, classes: seq<string>, name: string)
  {
    && name + ".jpg" in root.jpegs
    && FindXml(root.xmls, name + ".xml").Some?
    && var xml := FindXml(root.xmls, name + ".xml").value;
       && xml.width.asInt.Some? && xml.height.asInt.Some?
       && Lines(classes, xml.width.asInt.value, xml.height.asInt.value, xml.objects).Ok?
  }

  lemma {:induction false} SplitOkIff(root: VocRoot, classes: seq<string>, split: string, names: seq<string>)
    ensures ConvertedSplit(root, classes, split, names).Ok? <==>
      forall i :: 0 <= i < |names| ==> ImageConverts(root, classes, names[i])
    decreases |names|
  {
    if names != [] {
      var n := |names| - 1;
      var prefix := names[..n];
      SplitOkIff(root, classes, split, prefix);
      assert forall i :: 0 <= i < n ==> prefix[i] == names[i];
    }
  }

  /** Each listed name, in order, has its image copied and a label file
      holding the lines of its annotation's objects. */
  lemma {:induction false} SplitListsEveryImage(root: VocRoot, classes: seq<string>, split: string, names: seq<string>)
    requires ConvertedSplit(root, classes, split, names).Ok?
    ensures var out := ConvertedSplit(root, classes, split, names).value;
      && out.split == split && |out.copied| == |names| && |out.labels| == |names|
      && forall i :: 0 <= i < |names| ==>
           && ImageConverts(root, classes, names[i])
           && out.copied[i] == names[i] + ".jpg"
           && var xml := FindXml(root.xmls, names[i] + ".xml").value;
              out.labels[i] == YoloLabels(names[i], Lines(classes, xml.width.asInt.value, xml.height.asInt.value, xml.objects).value)
    decreases |names|
  {
    if names != [] {
      var n := |names| - 1;
      var prefix := names[..n];
      SplitListsEveryImage(root, classes, split, prefix);
      assert forall i :: 0 <= i < n ==> prefix[i] == names[i];
    }
  }

  // ---------------------------------------------------------------------
  // the run over the splits

  /** A split whose list file is missing makes open() raise. */
  function AddSplit(root: VocRoot, classes: seq<string>, outs: seq<SplitOutput>, split: string): Result<seq<SplitOutput>>
  {
    if split !in root.splitLists then Err(FileNotFound)
    else
      match ConvertedSplit(root, classes, split, root.splitLists[split])
      case Err(e) => Err(e)
      case Ok(out) => Ok(outs + [out])
  }

  function SplitStep(root: VocRoot, classes: seq<string>): (seq<SplitOutput>, string) -> Result<seq<SplitOutput>>
  {
    (outs, split) => AddSplit(root, classes, outs, split)
  }

  function ConvertedSplits(root: VocRoot, classes: seq<string>): Result<seq<SplitOutput>>
  {
    FoldResult(SplitStep(root, classes), [], Splits)
  }

  /** The whole conversion: `classes.txt`, then the three splits. */
  method Convert(root: VocRoot) returns (classes: seq<string>, r: Result<seq<SplitOutput>>)
    ensures StrictlySorted(classes, StringLt)
    ensures forall c :: c in classes <==> c in AllNames(root.xmls)
    ensures r == ConvertedSplits(root, classes)
  {
    classes := CollectClasses(root.xmls);
    var outs: seq<SplitOutput> := [];
    for k := 0 to |Splits|
      invariant FoldResult(SplitStep(root, classes), [], Splits[..k]) == Ok(outs)
    {
      FoldStep(SplitStep(root, classes), [], Splits, k);
      var split := Splits[k];
      if split !in root.splitLists {
        FoldErrPersists(SplitStep(root, classes), [], Splits, k + 1);
        return classes, Err(FileNotFound);
      }
      var out := ConvertSplit(root, classes, split, root.splitLists[split]);
      if out.Err? {
        FoldErrPersists(SplitStep(root, classes), [], Splits, k + 1);
        return classes, Err(out.error);
      }
      outs := outs + [out.value];
    }
    FoldWhole(SplitStep(root, classes), [], Splits);
    r := Ok(outs);
  }

  /** The run converts iff all three list files exist and every name they
      list converts. */
  lemma {:induction false} ConvertsIff(root: VocRoot, classes: seq<string>, splits: seq<string>)
    ensures FoldResult(SplitStep(root, classes), [], splits).Ok? <==>
      forall k :: 0 <= k < |splits| ==>
        && splits[k] in root.splitLists
        && forall i :: 0 <= i < |root.splitLists[splits[k]]| ==> ImageConverts(root, classes, root.splitLists[splits[k]][i])
    decreases |splits|
  {
    if splits != [] {
      var n := |splits| - 1;
      var prefix := splits[..n];
      ConvertsIff(root, classes, prefix);
      assert forall k :: 0 <= k < n ==> prefix[k] == splits[k];
      if splits[n] in root.splitLists {
        SplitOkIff(root, classes, splits[n], root.splitLists[splits[n]]);
      }
    }
  }

  /** With the class list of all annotation files, list.index never raises:
      every object of an annotation file names a class. */
  lemma ObjectNamesAreClasses(root: VocRoot, classes: seq<string>, xml: VocXml, o: VocObjectText)
    requires forall c :: c in classes <==> c in AllNames(root.xmls)
    requires xml in root.xmls && o in xml.objects
    ensures IndexOf(classes, o.name).Ok?
  {
    var i :| 0 <= i < |root.xmls| && root.xmls[i] == xml;
    var j :| 0 <= j < |xml.objects| && xml.objects[j] == o;
    AllNamesAreObjectNames(root.xmls, o.name);
  }

  /** So an annotation's objects convert iff their corners parse and, when
      there is one, neither side is 0. */
  lemma LinesOkWithClassList(root: VocRoot, classes: seq<string>, xml: VocXml, w: int, h: int)
    requires forall c :: c in classes <==> c in AllNames(root.xmls)
    requires xml in root.xmls
    ensures Lines(classes, w, h, xml.objects).Ok? <==>
      && (forall j :: 0 <= j < |xml.objects| ==> CornersParse(xml.objects[j]))
      && (|xml.objects| > 0 ==> w != 0 && h != 0)
  {
    forall j | 0 <= j < |xml.objects|
      ensures xml.objects[j].name in classes
    {
      ObjectNamesAreClasses(root, classes, xml, xml.objects[j]);
    }
    LinesOkIff(classes, w, h, xml.objects);
  }

  /** Each split's list gives the split's output, in the order train, val, test. */
  lemma {:induction false} OutputsPerSplit(root: VocRoot, classes: seq<string>, splits: seq<string>)
    requires FoldResult(SplitStep(root, classes), [], splits).Ok?
    ensures |FoldResult(SplitStep(root, classes), [], splits).value| == |splits|
    ensures forall k :: 0 <= k < |splits| ==>
      && splits[k] in root.splitLists
      && ConvertedSplit(root, classes, splits[k], root.splitLists[splits[k]]).Ok?
      && FoldResult(SplitStep(root, classes), [], splits).value[k] ==
           ConvertedSplit(root, classes, splits[k], root.splitLists[splits[k]]).value
    decreases |splits|
  {
    if splits != [] {
      OutputsPerSplit(root, classes, splits[..|splits| - 1]);
    }
  }
}
