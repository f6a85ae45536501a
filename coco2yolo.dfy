/** coco2yolo.py: a COCO dataset (`annotations/instances_<split>.json` for
    `train2014` and `val2014`) to YOLO label files (`<split>/labels`) and
    `classes.txt`. */
module CocoToYolo {
  import opened Common
  import opened Geometry
  import opened Paths
  import opened Ordering
  import opened Records
  import opened Dicts

  /** The COCO root: the instances files present, by COCO split name. */
  datatype CocoRoot = CocoRoot(jsons: map<string, CocoJson>)

  /** The COCO split read for each YOLO split, in the order of the dict
      literal. */
  const SplitNames: seq<(string, string)> := [("train2014", "train"), ("val2014", "val")]

  /** The label files written to `<split>/labels`. */
  datatype SplitOutput = SplitOutput(split: string, labels: seq<YoloLabels>)

  /** `classes.txt` and the converted splits in order. */
  datatype YoloOutput = YoloOutput(classes: seq<string>, splits: seq<SplitOutput>)

  // ---------------------------------------------------------------------
  // categories

  /** `coco.cats`: category id to name, a later entry for an id replacing
      an earlier one. */
  function CategoryDict(categories: seq<CocoCategory>): Dict
  {
    PutAll([], categories)
  }

  /** `sorted(coco.cats.keys())`. */
  function SortedIds(categories: seq<CocoCategory>): seq<int>
  {
    PutAllKeepsKeys([], categories);
    IntLtIsStrictTotalOrder();
    SortSeq(Keys(CategoryDict(categories)), IntLt)
  }

  /** The names of `ids` in `d`, in order. */
  function NamesOf(d: Dict, ids: seq<int>): seq<string>
    requires forall id :: id in ids ==> id in Keys(d)
  {
    if ids == [] then [] else [Get(d, ids[0]).value] + NamesOf(d, ids[1..])
  }

  /** `[coco.cats[cat_id]['name'] for cat_id in sorted(coco.cats.keys())]`. */
  function ClassList(categories: seq<CocoCategory>): seq<string>
  {
    NamesOf(CategoryDict(categories), SortedIds(categories))
  }

  /** The sorted ids are the category ids of the file, each once, ascending. */
  lemma SortedIdsAreCategoryIds(categories: seq<CocoCategory>)
    ensures StrictlySorted(SortedIds(categories), IntLt)
    ensures forall id :: id in SortedIds(categories) <==> exists i :: 0 <= i < |categories| && categories[i].id == id
  {
    forall id
      ensures id in SortedIds(categories) <==> exists i :: 0 <= i < |categories| && categories[i].id == id
    {
      PutAllGet([], categories, id);
    }
  }

  lemma {:induction false} NamesOfPositions(d: Dict, ids: seq<int>)
    requires forall id :: id in ids ==> id in Keys(d)
    ensures |NamesOf(d, ids)| == |ids|
    ensures forall i :: 0 <= i < |ids| ==> Get(d, ids[i]) == Some(NamesOf(d, ids)[i])
    decreases |ids|
  {
    if ids != [] {
      assert forall id :: id in ids[1..] ==> id in ids;
      NamesOfPositions(d, ids[1..]);
    }
  }

  /** `classes.txt`: line i names the i-th smallest category id, with the
      name the last train entry for that id gives. */
  lemma ClassListByAscendingId(categories: seq<CocoCategory>)
    ensures |ClassList(categories)| == |SortedIds(categories)|
    ensures forall i :: 0 <= i < |SortedIds(categories)| ==>
      LastName(categories, SortedIds(categories)[i]) == Some(ClassList(categories)[i])
  {
    var ids := SortedIds(categories);
    NamesOfPositions(CategoryDict(categories), ids);
    forall i | 0 <= i < |ids|
      ensures LastName(categories, ids[i]) == Some(ClassList(categories)[i])
    {
      PutAllGet([], categories, ids[i]);
    }
  }

  /** `sorted(coco.cats.keys()).index(category_id)`: defined exactly for the
      file's category ids, dense from 0, and following the order of the ids. */
  lemma ClassIdIsDenseRank(categories: seq<CocoCategory>, a: int, b: int)
    ensures IndexOf(SortedIds(categories), a).Ok? <==> exists i :: 0 <= i < |categories| && categories[i].id == a
    ensures IndexOf(SortedIds(categories), a).Ok? ==> IndexOf(SortedIds(categories), a).value < |SortedIds(categories)|
    ensures IndexOf(SortedIds(categories), a).Ok? && IndexOf(SortedIds(categories), b).Ok? ==>
      (a < b <==> IndexOf(SortedIds(categories), a).value < IndexOf(SortedIds(categories), b).value)
  {
    var ids := SortedIds(categories);
    SortedIdsAreCategoryIds(categories);
    IntLtIsStrictTotalOrder();
    if IndexOf(ids, a).Ok? && IndexOf(ids, b).Ok? {
      SortedPositionsFollowOrder(ids, IntLt, IndexOf(ids, a).value, IndexOf(ids, b).value);
    }
  }

  /** Every position of the sorted ids is the index of the id there. */
  lemma ClassIdsAreDense(categories: seq<CocoCategory>, i: nat)
    requires i < |SortedIds(categories)|
    ensures IndexOf(SortedIds(categories), SortedIds(categories)[i]) == Ok(i)
  {
    SortedIdsAreCategoryIds(categories);
    IntLtIsStrictTotalOrder();
    SortedIndexIsPosition(SortedIds(categories), IntLt, i);
  }

  // ---------------------------------------------------------------------
  // annotations of one image

  /** One annotation of the list: skipped unless it is the image's; its
      class id is its category's index among the split's sorted ids; then
      the divisions by the image sides. */
  function AnnotationLine(ids: seq<int>, image: CocoImage, a: CocoAnnotationIn): Result<YoloLine>
  {
    match IndexOf(ids, a.categoryId)
    case Err(e) => Err(e)
    case Ok(classId) =>
      if image.width == 0 || image.height == 0 then Err(ZeroDivision)
      else Ok(YoloLine(classId, CocoToYoloBox(a.bbox, image.width, image.height)))
  }

  function AddLine(ids: seq<int>, image: CocoImage, lines: seq<YoloLine>, a: CocoAnnotationIn): Result<seq<YoloLine>>
  {
    if a.imageId != image.id then Ok(lines)
    else
      match AnnotationLine(ids, image, a)
      case Err(e) => Err(e)
      case Ok(line) => Ok(lines + [line])
  }

  function LineStep(ids: seq<int>, image: CocoImage): (seq<YoloLine>, CocoAnnotationIn) -> Result<seq<YoloLine>>
  {
    (lines, a) => AddLine(ids, image, lines, a)
  }

  /** The lines of an image's label file. */
  function Lines(ids: seq<int>, image: CocoImage, annotations: seq<CocoAnnotationIn>): Result<seq<YoloLine>>
  {
    FoldResult(LineStep(ids, image), [], annotations)
  }

  /** `coco.loadAnns(coco.getAnnIds(imgIds=id))`: the annotations of the
      image, in list order. */
  function ImageAnnotations(image: CocoImage, annotations: seq<CocoAnnotationIn>): seq<CocoAnnotationIn>
  {
    if annotations == [] then []
    else
      var a := annotations[|annotations| - 1];
      ImageAnnotations(image, annotations[..|annotations| - 1]) + (if a.imageId == image.id then [a] else [])
  }

  /** The loop over the annotations of one image. */
  method ConvertAnnotations(ids: seq<int>, image: CocoImage, annotations: seq<CocoAnnotationIn>) returns (r: Result<seq<YoloLine>>)
    ensures r == Lines(ids, image, annotations)
  {
    var lines: seq<YoloLine> := [];
    for j := 0 to |annotations|
      invariant FoldResult(LineStep(ids, image), [], annotations[..j]) == Ok(lines)
    {
      FoldStep(LineStep(ids, image), [], annotations, j);
      var a := annotations[j];
      if a.imageId == image.id {
        var classId := IndexOf(ids, a.categoryId);
        if classId.Err? {
          FoldErrPersists(LineStep(ids, image), [], annotations, j + 1);
          return Err(classId.error);
        }
        if image.width == 0 || image.height == 0 {
          FoldErrPersists(LineStep(ids, image), [], annotations, j + 1);
          return Err(ZeroDivision);
        }
        var xCenter := (a.bbox.x + a.bbox.w / 2.0) / image.width as real;
        var yCenter := (a.bbox.y + a.bbox.h / 2.0) / image.height as real;
        var bw := a.bbox.w / image.width as real;
        var bh := a.bbox.h / image.height as real;
        lines := lines + [YoloLine(classId.value, NormBox(xCenter, yCenter, bw, bh))];
      }
    }
    FoldWhole(LineStep(ids, image), [], annotations);
    r := Ok(lines);
  }

  /** An image's annotations convert iff each names one of the split's
      categories and, when there is one, neither image side is 0. */
  lemma {:induction false} LinesOkIff(ids: seq<int>, image: CocoImage, annotations: seq<CocoAnnotationIn>)
    ensures Lines(ids, image, annotations).Ok? <==>
      && (forall j :: 0 <= j < |annotations| && annotations[j].imageId == image.id ==> annotations[j].categoryId in ids)
      && (|ImageAnnotations(image, annotations)| > 0 ==> image.width != 0 && image.height != 0)
    decreases |annotations|
  {
    if annotations != [] {
      var n := |annotations| - 1;
      var prefix := annotations[..n];
      LinesOkIff(ids, image, prefix);
      assert forall j :: 0 <= j < n ==> prefix[j] == annotations[j];
    }
  }

  /** One line per annotation of the image, in list order, with no dropping:
      the class id is the category's index among the sorted ids, and the
      box is the one yolo2coco's unrounded conversion maps back to `bbox`. */
  lemma {:induction false} LinesFollowAnnotations(ids: seq<int>, image: CocoImage, annotations: seq<CocoAnnotationIn>)
    requires Lines(ids, image, annotations).Ok?
    ensures |Lines(ids, image, annotations).value| == |ImageAnnotations(image, annotations)|
    ensures forall k :: 0 <= k < |ImageAnnotations(image, annotations)| ==>
      var a := ImageAnnotations(image, annotations)[k];
      var line := Lines(ids, image, annotations).value[k];
      && a.imageId == image.id
      && IndexOf(ids, a.categoryId) == Ok(line.classId)
      && image.width != 0 && image.height != 0
      && YoloToCocoAbsolute(line.box, SizeOf(image)) == a.bbox
    decreases |annotations|
  {
    if annotations != [] {
      var n := |annotations| - 1;
      var prefix := annotations[..n];
      LinesFollowAnnotations(ids, image, prefix);
      var a := annotations[n];
      var before := ImageAnnotations(image, prefix);
      var lines := Lines(ids, image, prefix).value;
      var all := ImageAnnotations(image, annotations);
      var out := Lines(ids, image, annotations).value;
      if a.imageId == image.id {
        assert all == before + [a];
        assert out == lines + [AnnotationLine(ids, image, a).value];
      } else {
        assert all == before;
        assert out == lines;
      }
      forall k | 0 <= k < |before|
        ensures all[k] == before[k] && out[k] == lines[k]
      {
      }
    }
  }

  function SizeOf(image: CocoImage): Size
  {
    Size(image.width, image.height)
  }

  // ---------------------------------------------------------------------
  // images of a split

  /** Every image gets its label file `<stem>.txt`, empty or not. */
  function AddImage(ids: seq<int>, annotations: seq<CocoAnnotationIn>, labels: seq<YoloLabels>, image: CocoImage): Result<seq<YoloLabels>>
  {
    match Lines(ids, image, annotations)
    case Err(e) => Err(e)
    case Ok(lines) => Ok(labels + [YoloLabels(Stem(image.fileName), lines)])
  }

  function ImageStep(ids: seq<int>, annotations: seq<CocoAnnotationIn>): (seq<YoloLabels>, CocoImage) -> Result<seq<YoloLabels>>
  {
    (labels, image) => AddImage(ids, annotations, labels, image)
  }

  /** The label files of one split, class ids indexed by that split's own
      categories. */
  function ConvertedSplit(json: CocoJson): Result<seq<YoloLabels>>
  {
    FoldResult(ImageStep(SortedIds(json.categories), json.annotations), [], json.images)
  }

  method ConvertSplit(json: CocoJson) returns (r: Result<seq<YoloLabels>>)
    ensures r == ConvertedSplit(json)
  {
    var ids := SortedIds(json.categories);
    var step := ImageStep(ids, json.annotations);
    var labels: seq<YoloLabels> := [];
    for i := 0 to |json.images|
      invariant FoldResult(step, [], json.images[..i]) == Ok(labels)
    {
      FoldStep(step, [], json.images, i);
      var image := json.images[i];
      var lines := ConvertAnnotations(ids, image, json.annotations);
      if lines.Err? {
        FoldErrPersists(step, [], json.images, i + 1);
        return Err(lines.error);
      }
      labels := labels + [YoloLabels(Stem(image.fileName), lines.value)];
    }
    FoldWhole(step, [], json.images);
    r := Ok(labels);
  }

  /** One label file per image, in the order of the JSON, named by the
      image's stem, holding one line per annotation of the image. */
  lemma LabelsFollowImages(json: CocoJson)
    requires ConvertedSplit(json).Ok?
    ensures |ConvertedSplit(json).value| == |json.images|
    ensures forall i :: 0 <= i < |json.images| ==>
      var image := json.images[i];
      && Lines(SortedIds(json.categories), image, json.annotations).Ok?
      && ConvertedSplit(json).value[i] == YoloLabels(Stem(image.fileName), Lines(SortedIds(json.categories), image, json.annotations).value)
  {
    ImagesFollowListing(SortedIds(json.categories), json.annotations, json.images);
  }

  lemma {:induction false} ImagesFollowListing(ids: seq<int>, annotations: seq<CocoAnnotationIn>, images: seq<CocoImage>)
    requires FoldResult(ImageStep(ids, annotations), [], images).Ok?
    ensures |FoldResult(ImageStep(ids, annotations), [], images).value| == |images|
    ensures forall i :: 0 <= i < |images| ==>
      && Lines(ids, images[i], annotations).Ok?
      && FoldResult(ImageStep(ids, annotations), [], images).value[i] ==
           YoloLabels(Stem(images[i].fileName), Lines(ids, images[i], annotations).value)
    decreases |images|
  {
    if images != [] {
      var n := |images| - 1;
      ImagesFollowListing(ids, annotations, images[..n]);
      assert forall i :: 0 <= i < n ==> images[..n][i] == images[i];
    }
  }

  /** A split converts iff every annotation of every image names one of the
      split's own categories and every image with annotations has nonzero
      sides. */
  lemma SplitOkIff(json: CocoJson)
    ensures ConvertedSplit(json).Ok? <==>
      forall i :: 0 <= i < |json.images| ==> Lines(SortedIds(json.categories), json.images[i], json.annotations).Ok?
  {
    ImagesOkIff(SortedIds(json.categories), json.annotations, json.images);
  }

  lemma {:induction false} ImagesOkIff(ids: seq<int>, annotations: seq<CocoAnnotationIn>, images: seq<CocoImage>)
    ensures FoldResult(ImageStep(ids, annotations), [], images).Ok? <==>
      forall i :: 0 <= i < |images| ==> Lines(ids, images[i], annotations).Ok?
    decreases |images|
  {
    if images != [] {
      var n := |images| - 1;
      var prefix := images[..n];
      ImagesOkIff(ids, annotations, prefix);
      var step := ImageStep(ids, annotations);
      assert FoldResult(step, [], images).Ok? <==>
        FoldResult(step, [], prefix).Ok? && Lines(ids, images[n], annotations).Ok?;
      if FoldResult(step, [], images).Ok? {
        forall i | 0 <= i < |images|
          ensures Lines(ids, images[i], annotations).Ok?
        {
          if i < n {
            assert images[i] == prefix[i];
          }
        }
      } else if FoldResult(step, [], prefix).Err? {
        var i :| 0 <= i < n && !Lines(ids, prefix[i], annotations).Ok?;
        assert images[i] == prefix[i];
      }
    }
  }

  /** The class id of a val annotation is its index among val's category
      ids, not among train's: here `classes.txt` puts "a" on line 0, but
      the val annotation of category 2 ("b") gets class id 0. */
  lemma ClassIdUsesCurrentSplit(train: seq<CocoCategory>, val: seq<CocoCategory>)
    requires train == [CocoCategory(1, "a"), CocoCategory(2, "b")]
    requires val == [CocoCategory(2, "b")]
    ensures |ClassList(train)| == 2 && ClassList(train)[0] == "a"
    ensures AnnotationLine(SortedIds(val), CocoImage(1, "x.jpg", 10, 10), CocoAnnotationIn(1, 2, RealBox(0.0, 0.0, 5.0, 5.0))) ==
      Ok(YoloLine(0, NormBox(0.25, 0.25, 0.5, 0.5)))
  {
    TrainExampleClasses(train);
    ValExampleIds(val);
    ExampleBox();
  }

  lemma TrainExampleClasses(train: seq<CocoCategory>)
    requires |train| == 2 && train[0] == CocoCategory(1, "a") && train[1] == CocoCategory(2, "b")
    ensures |ClassList(train)| == 2 && ClassList(train)[0] == "a"
  {
    var ids: seq<int> := [1, 2];
    forall id
      ensures id in ids <==> exists i :: 0 <= i < |train| && train[i].id == id
    {
      if id == 1 {
        assert train[0].id == id;
      } else if id == 2 {
        assert train[1].id == id;
      }
    }
    SortedIdsAre(train, ids);
    ClassListByAscendingId(train);
    FirstExampleName(train);
  }

  lemma FirstExampleName(train: seq<CocoCategory>)
    requires |train| == 2 && train[0] == CocoCategory(1, "a") && train[1] == CocoCategory(2, "b")
    ensures LastName(train, 1) == Some("a")
  {
    assert train[..1][..0] == [] && train[..1] == [train[0]];
  }

  lemma ValExampleIds(val: seq<CocoCategory>)
    requires val == [CocoCategory(2, "b")]
    ensures SortedIds(val) == [2]
  {
    var ids: seq<int> := [2];
    assert forall id :: id in ids <==> exists i :: 0 <= i < |val| && val[i].id == id by {
      assert val[0].id == 2;
    }
    SortedIdsAre(val, ids);
  }

  /** A strictly ascending list of exactly the file's category ids is the
      sorted id list. */
  lemma SortedIdsAre(categories: seq<CocoCategory>, ids: seq<int>)
    requires StrictlySorted(ids, IntLt)
    requires forall id :: id in ids <==> exists i :: 0 <= i < |categories| && categories[i].id == id
    ensures SortedIds(categories) == ids
  {
    SortedIdsAreCategoryIds(categories);
    IntLtIsStrictTotalOrder();
    SortedUnique(SortedIds(categories), ids, IntLt);
  }

  lemma ExampleBox()
    ensures CocoToYoloBox(RealBox(0.0, 0.0, 5.0, 5.0), 10, 10) == NormBox(0.25, 0.25, 0.5, 0.5)
  {
    var n := CocoToYoloBox(RealBox(0.0, 0.0, 5.0, 5.0), 10, 10);
    assert n.xc == (0.0 + 5.0 / 2.0) / 10.0 == 0.25;
    assert n.bw == 5.0 / 10.0 == 0.5;
  }

  // ---------------------------------------------------------------------
  // the run

  function AddSplit(root: CocoRoot, outs: seq<SplitOutput>, names: (string, string)): Result<seq<SplitOutput>>
  {
    if names.0 !in root.jsons then Err(FileNotFound)
    else
      match ConvertedSplit(root.jsons[names.0])
      case Err(e) => Err(e)
      case Ok(labels) => Ok(outs + [SplitOutput(names.1, labels)])
  }

  function SplitStep(root: CocoRoot): (seq<SplitOutput>, (string, string)) -> Result<seq<SplitOutput>>
  {
    (outs, names) => AddSplit(root, outs, names)
  }

  /** `classes.txt` from the train file, which must exist, then each split. */
  function Converted(root: CocoRoot): Result<YoloOutput>
  {
    if "train2014" !in root.jsons then Err(FileNotFound)
    else
      match FoldResult(SplitStep(root), [], SplitNames)
      case Err(e) => Err(e)
      case Ok(outs) => Ok(YoloOutput(ClassList(root.jsons["train2014"].categories), outs))
  }

  method Convert(root: CocoRoot) returns (r: Result<YoloOutput>)
    ensures r == Converted(root)
  {
    if "train2014" !in root.jsons {
      return Err(FileNotFound);
    }
    var classes := ClassList(root.jsons["train2014"].categories);
    var outs: seq<SplitOutput> := [];
    for k := 0 to |SplitNames|
      invariant FoldResult(SplitStep(root), [], SplitNames[..k]) == Ok(outs)
    {
      FoldStep(SplitStep(root), [], SplitNames, k);
      var names := SplitNames[k];
      if names.0 !in root.jsons {
        FoldErrPersists(SplitStep(root), [], SplitNames, k + 1);
        return Err(FileNotFound);
      }
      var labels := ConvertSplit(root.jsons[names.0]);
      if labels.Err? {
        FoldErrPersists(SplitStep(root), [], SplitNames, k + 1);
        return Err(labels.error);
      }
      outs := outs + [SplitOutput(names.1, labels.value)];
    }
    FoldWhole(SplitStep(root), [], SplitNames);
    r := Ok(YoloOutput(classes, outs));
  }

  /** The run converts iff both instances files exist and both splits
      convert; the outputs are `train` then `val`. */
  lemma ConvertedSplits(root: CocoRoot)
    ensures Converted(root).Ok? <==>
      && "train2014" in root.jsons && "val2014" in root.jsons
      && ConvertedSplit(root.jsons["train2014"]).Ok? && ConvertedSplit(root.jsons["val2014"]).Ok?
    ensures Converted(root).Ok? ==>
      Converted(root).value == YoloOutput(ClassList(root.jsons["train2014"].categories),
                                          [SplitOutput("train", ConvertedSplit(root.jsons["train2014"]).value),
                                           SplitOutput("val", ConvertedSplit(root.jsons["val2014"]).value)])
  {
    var step := SplitStep(root);
    assert SplitNames[0] == ("train2014", "train") && SplitNames[1] == ("val2014", "val");
    assert SplitNames[..0] == [] && SplitNames[..2] == SplitNames;
    FoldStep(step, [], SplitNames, 0);
    assert FoldResult(step, [], SplitNames[..1]) == AddSplit(root, [], ("train2014", "train"));
    FoldStep(step, [], SplitNames, 1);
    if FoldResult(step, [], SplitNames[..1]).Ok? {
      var outs := FoldResult(step, [], SplitNames[..1]).value;
      assert FoldResult(step, [], SplitNames) == AddSplit(root, outs, ("val2014", "val"));
    }
  }
}
