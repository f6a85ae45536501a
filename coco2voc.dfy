/** coco2voc.py: a COCO dataset (`annotations/instances_<split>2014.json`,
    `images/<split>2014`) to a VOC dataset (`JPEGImages`, `Annotations`,
    `ImageSets/Main/<split>.txt`, `classes.txt`), for the splits `train`
    and `val`. */
module CocoToVoc {
  import opened Common
  import opened Rounding
  import opened Geometry
  import opened Paths
  import opened Ordering
  import opened Records
  import opened Dicts

  /** The COCO root: the instances files present, by split, and the files
      of each split's image folder. */
  datatype CocoRoot = CocoRoot(jsons: map<string, CocoJson>, imageDirs: map<string, seq<string>>)

  const CocoSplits: seq<string> := ["train", "val"]

  /** What one split contributes: its `ImageSets/Main/<split>.txt` lines,
      the files copied to `JPEGImages`, and the XML files written. */
  datatype SplitOutput = SplitOutput(split: string, imageSet: seq<string>, copied: seq<string>, annotations: seq<VocFile>)

  /** The whole output: `classes.txt` and the converted splits in order. */
  datatype VocOutput = VocOutput(classes: seq<string>, splits: seq<SplitOutput>)

  /** The files of `images/<split>2014`, none when it is absent. */
  function ImageFiles(root: CocoRoot, split: string): seq<string>
  {
    if split in root.imageDirs then root.imageDirs[split] else []
  }

  function SizeOf(image: CocoImage): Size
  {
    Size(image.width, image.height)
  }

  // ---------------------------------------------------------------------
  // objects of one image

  /** The corners of an annotation within its image. */
  function CornersOf(image: CocoImage, a: CocoAnnotationIn): Corners
  {
    CocoToVocCorners(a.bbox, SizeOf(image))
  }

  /** An annotation that becomes an object of `image`: it names the image,
      and its clamped box passes the drop gate. */
  predicate Joins(image: CocoImage, a: CocoAnnotationIn)
  {
    a.imageId == image.id && !Degenerate(CornersOf(image, a))
  }

  /** One annotation of the list: skipped unless it joins the image; then
      its category must be in the map. */
  function AddObject(categories: Dict, image: CocoImage, objects: seq<VocObject>, a: CocoAnnotationIn): Result<seq<VocObject>>
  {
    if a.imageId != image.id then Ok(objects)
    else
      var c := CornersOf(image, a);
      if Degenerate(c) then Ok(objects)
      else
        match Get(categories, a.categoryId)
        case None => Err(KeyError)
        case Some(name) => Ok(objects + [VocObject(name, c)])
  }

  function ObjectStep(categories: Dict, image: CocoImage): (seq<VocObject>, CocoAnnotationIn) -> Result<seq<VocObject>>
  {
    (objects, a) => AddObject(categories, image, objects, a)
  }

  /** The objects of an image's XML file. */
  function Objects(categories: Dict, image: CocoImage, annotations: seq<CocoAnnotationIn>): Result<seq<VocObject>>
  {
    FoldResult(ObjectStep(categories, image), [], annotations)
  }

  /** The annotations that join `image`, in list order. */
  function Joined(image: CocoImage, annotations: seq<CocoAnnotationIn>): seq<CocoAnnotationIn>
  {
    if annotations == [] then []
    else
      var a := annotations[|annotations| - 1];
      Joined(image, annotations[..|annotations| - 1]) + (if Joins(image, a) then [a] else [])
  }

  /** The loop over all annotations for one image. */
  method ConvertObjects(categories: Dict, image: CocoImage, annotations: seq<CocoAnnotationIn>) returns (r: Result<seq<VocObject>>)
    ensures r == Objects(categories, image, annotations)
  {
    var objects: seq<VocObject> := [];
    for j := 0 to |annotations|
      invariant FoldResult(ObjectStep(categories, image), [], annotations[..j]) == Ok(objects)
    {
      FoldStep(ObjectStep(categories, image), [], annotations, j);
      var a := annotations[j];
      if a.imageId == image.id {
        var xmin := Max(0, Round(a.bbox.x));
        var ymin := Max(0, Round(a.bbox.y));
        var xmax := Min(image.width, Round(a.bbox.x + a.bbox.w));
        var ymax := Min(image.height, Round(a.bbox.y + a.bbox.h));
        if xmin < xmax && ymin < ymax {
          var name := Get(categories, a.categoryId);
          if name.None? {
            FoldErrPersists(ObjectStep(categories, image), [], annotations, j + 1);
            return Err(KeyError);
          }
          objects := objects + [VocObject(name.value, Corners(xmin, ymin, xmax, ymax))];
        }
      }
    }
    FoldWhole(ObjectStep(categories, image), [], annotations);
    r := Ok(objects);
  }

  /** An image's objects convert iff every annotation that joins it names a
      category of the map; otherwise the lookup raises KeyError. */
  lemma {:induction false} ObjectsOkIff(categories: Dict, image: CocoImage, annotations: seq<CocoAnnotationIn>)
    ensures Objects(categories, image, annotations).Ok? <==>
      forall j :: 0 <= j < |annotations| && Joins(image, annotations[j]) ==> annotations[j].categoryId in Keys(categories)
    ensures Objects(categories, image, annotations).Err? ==> Objects(categories, image, annotations).error == KeyError
    decreases |annotations|
  {
    if annotations != [] {
      var n := |annotations| - 1;
      var prefix := annotations[..n];
      ObjectsOkIff(categories, image, prefix);
      assert forall j :: 0 <= j < n ==> prefix[j] == annotations[j];
    }
  }

  /** The objects are the joined annotations in list order, each named by
      its category in the map, with its clamped corners. */
  lemma {:induction false} ObjectsFollowJoined(categories: Dict, image: CocoImage, annotations: seq<CocoAnnotationIn>)
    requires Objects(categories, image, annotations).Ok?
    ensures |Objects(categories, image, annotations).value| == |Joined(image, annotations)|
    ensures forall k :: 0 <= k < |Joined(image, annotations)| ==>
      var a := Joined(image, annotations)[k];
      && Get(categories, a.categoryId).Some?
      && Objects(categories, image, annotations).value[k] == VocObject(Get(categories, a.categoryId).value, CornersOf(image, a))
    decreases |annotations|
  {
    if annotations != [] {
      ObjectsFollowJoined(categories, image, annotations[..|annotations| - 1]);
    }
  }

  /** The joined annotations are the annotations of the list that name the
      image and pass the drop gate. */
  lemma {:induction false} JoinedAreJoins(image: CocoImage, annotations: seq<CocoAnnotationIn>)
    ensures forall a :: a in Joined(image, annotations) <==> a in annotations && Joins(image, a)
    decreases |annotations|
  {
    if annotations != [] {
      var n := |annotations| - 1;
      JoinedAreJoins(image, annotations[..n]);
      assert annotations == annotations[..n] + [annotations[n]];
    }
  }

  /** Every object written lies inside its image with positive extent. */
  lemma ObjectsInsideImage(categories: Dict, image: CocoImage, annotations: seq<CocoAnnotationIn>)
    requires Objects(categories, image, annotations).Ok?
    ensures forall o :: o in Objects(categories, image, annotations).value ==> InsideImage(o.box, SizeOf(image))
  {
    ObjectsFollowJoined(categories, image, annotations);
    JoinedAreJoins(image, annotations);
    var objects := Objects(categories, image, annotations).value;
    forall o | o in objects
      ensures InsideImage(o.box, SizeOf(image))
    {
      var k :| 0 <= k < |objects| && objects[k] == o;
      assert Joined(image, annotations)[k] in Joined(image, annotations);
    }
  }

  // ---------------------------------------------------------------------
  // images of one split

  /** One image: copied (its file must exist), listed by stem, and given
      an XML file with its JSON size and its objects. */
  function AddImage(files: seq<string>, categories: Dict, annotations: seq<CocoAnnotationIn>,
                    out: SplitOutput, image: CocoImage): Result<SplitOutput>
  {
    if image.fileName !in files then Err(FileNotFound)
    else
      match Objects(categories, image, annotations)
      case Err(e) => Err(e)
      case Ok(objects) =>
        var stem := Stem(image.fileName);
        Ok(out.(imageSet := out.imageSet + [stem], copied := out.copied + [image.fileName],
                annotations := out.annotations + [VocFile(stem, VocAnnotation(image.fileName, SizeOf(image), objects))]))
  }

  function ImageStep(files: seq<string>, categories: Dict, annotations: seq<CocoAnnotationIn>): (SplitOutput, CocoImage) -> Result<SplitOutput>
  {
    (out, image) => AddImage(files, categories, annotations, out, image)
  }

  /** The image loop of a split, looking names up in `categories`. */
  function ConvertedSplit(split: string, json: CocoJson, files: seq<string>, categories: Dict): Result<SplitOutput>
  {
    FoldResult(ImageStep(files, categories, json.annotations), SplitOutput(split, [], [], []), json.images)
  }

  method ConvertSplit(split: string, json: CocoJson, files: seq<string>, categories: Dict) returns (r: Result<SplitOutput>)
    ensures r == ConvertedSplit(split, json, files, categories)
  {
    var step := ImageStep(files, categories, json.annotations);
    var init := SplitOutput(split, [], [], []);
    var out := init;
    for i := 0 to |json.images|
      invariant FoldResult(step, init, json.images[..i]) == Ok(out)
    {
      FoldStep(step, init, json.images, i);
      var image := json.images[i];
      if image.fileName !in files {
        FoldErrPersists(step, init, json.images, i + 1);
        return Err(FileNotFound);
      }
      var objects := ConvertObjects(categories, image, json.annotations);
      if objects.Err? {
        FoldErrPersists(step, init, json.images, i + 1);
        return Err(objects.error);
      }
      var stem := Stem(image.fileName);
      out := out.(imageSet := out.imageSet + [stem], copied := out.copied + [image.fileName],
                  annotations := out.annotations + [VocFile(stem, VocAnnotation(image.fileName, Size(image.width, image.height), objects.value))]);
    }
    FoldWhole(step, init, json.images);
    r := Ok(out);
  }

  /** A split converts iff every image's file exists in the image folder
      and every annotation joining it names a category of the map. */
  lemma {:induction false} SplitOkIff(split: string, json: CocoJson, files: seq<string>, categories: Dict)
    ensures ConvertedSplit(split, json, files, categories).Ok? <==>
      forall i :: 0 <= i < |json.images| ==>
        json.images[i].fileName in files && Objects(categories, json.images[i], json.annotations).Ok?
    decreases |json.images|
  {
    if json.images != [] {
      var n := |json.images| - 1;
      var shorter := json.(images := json.images[..n]);
      SplitOkIff(split, shorter, files, categories);
      assert forall i :: 0 <= i < n ==> shorter.images[i] == json.images[i];
    }
  }

  /** Every image of the JSON, in order, is copied, listed by its name
      without extension, and written to `<stem>.xml` with its JSON size and
      the objects that join it. */
  lemma {:induction false} SplitListsEveryImage(split: string, json: CocoJson, files: seq<string>, categories: Dict)
    requires ConvertedSplit(split, json, files, categories).Ok?
    ensures var out := ConvertedSplit(split, json, files, categories).value;
      && out.split == split
      && |out.imageSet| == |json.images| && |out.copied| == |json.images| && |out.annotations| == |json.images|
      && forall i :: 0 <= i < |json.images| ==>
           var image := json.images[i];
           && out.imageSet[i] == Stem(image.fileName)
           && out.copied[i] == image.fileName
           && Objects(categories, image, json.annotations).Ok?
           && out.annotations[i] == VocFile(Stem(image.fileName), VocAnnotation(image.fileName, SizeOf(image),
                                                                                 Objects(categories, image, json.annotations).value))
  {
    ImagesListed(split, files, categories, json.annotations, json.images);
    ImagesAnnotated(split, files, categories, json.annotations, json.images);
  }

  /** A converted image appends its stem, its file name and its XML file. */
  lemma AddImageValue(files: seq<string>, categories: Dict, annotations: seq<CocoAnnotationIn>,
                      out: SplitOutput, image: CocoImage)
    requires AddImage(files, categories, annotations, out, image).Ok?
    ensures Objects(categories, image, annotations).Ok?
    ensures var stem := Stem(image.fileName);
      AddImage(files, categories, annotations, out, image).value ==
        out.(imageSet := out.imageSet + [stem], copied := out.copied + [image.fileName],
             annotations := out.annotations + [VocFile(stem, VocAnnotation(image.fileName, SizeOf(image),
                                                                          Objects(categories, image, annotations).value))])
  {
  }

  /** The image fold is the fold of all but the last image, then that one. */
  lemma ImagesListedStep(split: string, files: seq<string>, categories: Dict,
                         annotations: seq<CocoAnnotationIn>, images: seq<CocoImage>)
    requires images != []
    requires FoldResult(ImageStep(files, categories, annotations), SplitOutput(split, [], [], []), images).Ok?
    ensures var step := ImageStep(files, categories, annotations);
      var init := SplitOutput(split, [], [], []);
      var n := |images| - 1;
      && FoldResult(step, init, images[..n]).Ok?
      && AddImage(files, categories, annotations, FoldResult(step, init, images[..n]).value, images[n]) ==
           FoldResult(step, init, images)
  {
  }

  lemma {:induction false} ImagesListed(split: string, files: seq<string>, categories: Dict,
                                        annotations: seq<CocoAnnotationIn>, images: seq<CocoImage>)
    requires FoldResult(ImageStep(files, categories, annotations), SplitOutput(split, [], [], []), images).Ok?
    ensures var out := FoldResult(ImageStep(files, categories, annotations), SplitOutput(split, [], [], []), images).value;
      && out.split == split
      && |out.imageSet| == |images| && |out.copied| == |images| && |out.annotations| == |images|
      && forall i :: 0 <= i < |images| ==> out.imageSet[i] == Stem(images[i].fileName) && out.copied[i] == images[i].fileName
    decreases |images|
  {
    if images != [] {
      var n := |images| - 1;
      var step := ImageStep(files, categories, annotations);
      var init := SplitOutput(split, [], [], []);
      ImagesListedStep(split, files, categories, annotations, images);
      ImagesListed(split, files, categories, annotations, images[..n]);
      var pre := FoldResult(step, init, images[..n]).value;
      var out := FoldResult(step, init, images).value;
      AddImageValue(files, categories, annotations, pre, images[n]);
      forall i | 0 <= i < n
        ensures out.imageSet[i] == Stem(images[i].fileName) && out.copied[i] == images[i].fileName
      {
        assert images[i] == images[..n][i];
        assert out.imageSet[i] == pre.imageSet[i] && out.copied[i] == pre.copied[i];
      }
    }
  }

  lemma {:induction false} ImagesAnnotated(split: string, files: seq<string>, categories: Dict,
                                           annotations: seq<CocoAnnotationIn>, images: seq<CocoImage>)
    requires FoldResult(ImageStep(files, categories, annotations), SplitOutput(split, [], [], []), images).Ok?
    ensures var out := FoldResult(ImageStep(files, categories, annotations), SplitOutput(split, [], [], []), images).value;
      && |out.annotations| == |images|
      && forall i :: 0 <= i < |images| ==>
           && Objects(categories, images[i], annotations).Ok?
           && out.annotations[i] == VocFile(Stem(images[i].fileName), VocAnnotation(images[i].fileName, SizeOf(images[i]),
                                                                                    Objects(categories, images[i], annotations).value))
    decreases |images|
  {
    if images != [] {
      var n := |images| - 1;
      var step := ImageStep(files, categories, annotations);
      var init := SplitOutput(split, [], [], []);
      ImagesListedStep(split, files, categories, annotations, images);
      ImagesAnnotated(split, files, categories, annotations, images[..n]);
      var pre := FoldResult(step, init, images[..n]).value;
      var out := FoldResult(step, init, images).value;
      AddImageValue(files, categories, annotations, pre, images[n]);
      forall i | 0 <= i < n
        ensures && Objects(categories, images[i], annotations).Ok?
                && out.annotations[i] == VocFile(Stem(images[i].fileName), VocAnnotation(images[i].fileName, SizeOf(images[i]),
                                                                                         Objects(categories, images[i], annotations).value))
      {
        assert images[i] == images[..n][i];
        assert out.annotations[i] == pre.annotations[i];
      }
    }
  }

  // ---------------------------------------------------------------------
  // the run over the splits

  /** The category map and the splits converted so far. */
  datatype RunState = RunState(categories: Dict, splits: seq<SplitOutput>)

  /** A split without an instances file is skipped; otherwise its
      categories are merged into the map before its images are converted. */
  function AddSplit(root: CocoRoot, run: RunState, split: string): Result<RunState>
  {
    if split !in root.jsons then Ok(run)
    else
      var json := root.jsons[split];
      var categories := PutAll(run.categories, json.categories);
      match ConvertedSplit(split, json, ImageFiles(root, split), categories)
      case Err(e) => Err(e)
      case Ok(out) => Ok(RunState(categories, run.splits + [out]))
  }

  function SplitStep(root: CocoRoot): (RunState, string) -> Result<RunState>
  {
    (run, split) => AddSplit(root, run, split)
  }

  function ConvertedRun(root: CocoRoot): Result<RunState>
  {
    FoldResult(SplitStep(root), RunState([], []), CocoSplits)
  }

  /** `classes.txt`: the distinct category names, in order of first
      occurrence among the map's values. */
  function ClassList(categories: Dict): seq<string>
  {
    Distinct(Values(categories))
  }

  function Converted(root: CocoRoot): Result<VocOutput>
  {
    match ConvertedRun(root)
    case Err(e) => Err(e)
    case Ok(run) => Ok(VocOutput(ClassList(run.categories), run.splits))
  }

  /** `categories.update(...)`, one assignment per category in list order. */
  method UpdateCategories(d: Dict, categories: seq<CocoCategory>) returns (r: Dict)
    ensures r == PutAll(d, categories)
  {
    r := d;
    for j := 0 to |categories|
      invariant r == PutAll(d, categories[..j])
    {
      assert categories[..j + 1][..j] == categories[..j];
      r := Put(r, categories[j].id, categories[j].name);
    }
    assert categories[..|categories|] == categories;
  }

  method Convert(root: CocoRoot) returns (r: Result<VocOutput>)
    ensures r == Converted(root)
  {
    var run := RunState([], []);
    for k := 0 to |CocoSplits|
      invariant FoldResult(SplitStep(root), RunState([], []), CocoSplits[..k]) == Ok(run)
    {
      FoldStep(SplitStep(root), RunState([], []), CocoSplits, k);
      var split := CocoSplits[k];
      if split in root.jsons {
        var json := root.jsons[split];
        var categories := UpdateCategories(run.categories, json.categories);
        var out := ConvertSplit(split, json, ImageFiles(root, split), categories);
        if out.Err? {
          FoldErrPersists(SplitStep(root), RunState([], []), CocoSplits, k + 1);
          return Err(out.error);
        }
        run := RunState(categories, run.splits + [out.value]);
      }
    }
    FoldWhole(SplitStep(root), RunState([], []), CocoSplits);
    r := Ok(VocOutput(Distinct(Values(run.categories)), run.splits));
  }

  /** The categories of a split's instances file, none without one. */
  function SplitCategories(root: CocoRoot, split: string): seq<CocoCategory>
  {
    if split in root.jsons then root.jsons[split].categories else []
  }

  /** The map after train: train's categories; after val: train's merged
      with val's. */
  lemma RunCategories(root: CocoRoot)
    requires ConvertedRun(root).Ok?
    ensures ConvertedRun(root).value.categories ==
      PutAll(PutAll([], SplitCategories(root, "train")), SplitCategories(root, "val"))
  {
    assert CocoSplits[..1] == ["train"] && CocoSplits[..0] == [] && CocoSplits[..2] == CocoSplits;
    FoldStep(SplitStep(root), RunState([], []), CocoSplits, 0);
    FoldStep(SplitStep(root), RunState([], []), CocoSplits, 1);
  }

  /** The category map is the union over the splits: for an id in val's
      file the name val gives it last, else the one train gives it last. */
  lemma LaterSplitOverrides(root: CocoRoot, id: int)
    requires ConvertedRun(root).Ok?
    ensures Get(ConvertedRun(root).value.categories, id) ==
      if LastName(SplitCategories(root, "val"), id).Some? then LastName(SplitCategories(root, "val"), id)
      else LastName(SplitCategories(root, "train"), id)
  {
    RunCategories(root);
    PutAllGet(PutAll([], SplitCategories(root, "train")), SplitCategories(root, "val"), id);
    PutAllGet([], SplitCategories(root, "train"), id);
  }

  /** Train's objects are named with train's categories; val's with the
      merged map, so a val annotation may name a category only train lists. */
  lemma SplitsUseMergedMap(root: CocoRoot)
    requires ConvertedRun(root).Ok?
    ensures "train" in root.jsons ==>
      ConvertedSplit("train", root.jsons["train"], ImageFiles(root, "train"), PutAll([], SplitCategories(root, "train"))).Ok?
    ensures "val" in root.jsons ==>
      ConvertedSplit("val", root.jsons["val"], ImageFiles(root, "val"), ConvertedRun(root).value.categories).Ok?
    ensures ConvertedRun(root).value.splits ==
      (if "train" in root.jsons
       then [ConvertedSplit("train", root.jsons["train"], ImageFiles(root, "train"), PutAll([], SplitCategories(root, "train"))).value]
       else []) +
      (if "val" in root.jsons
       then [ConvertedSplit("val", root.jsons["val"], ImageFiles(root, "val"), ConvertedRun(root).value.categories).value]
       else [])
  {
    RunCategories(root);
    assert CocoSplits[..1] == ["train"] && CocoSplits[..0] == [] && CocoSplits[..2] == CocoSplits;
    FoldStep(SplitStep(root), RunState([], []), CocoSplits, 0);
    FoldStep(SplitStep(root), RunState([], []), CocoSplits, 1);
  }

  /** `classes.txt` lists each name of the map once, in the order the names
      first occur among its values. */
  lemma ClassesInFirstOccurrenceOrder(categories: Dict, i: nat, j: nat)
    ensures NoDuplicates(ClassList(categories))
    ensures forall c :: c in ClassList(categories) <==> c in Values(categories)
    ensures i < j < |ClassList(categories)| ==>
      IndexOf(Values(categories), ClassList(categories)[i]).value < IndexOf(Values(categories), ClassList(categories)[j]).value
  {
    if i < j < |ClassList(categories)| {
      DistinctInFirstOccurrenceOrder(Values(categories), i, j);
    }
  }
}
