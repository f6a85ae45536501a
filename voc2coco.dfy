/** voc2coco.py: a VOC dataset (`Annotations`, `JPEGImages`,
    `ImageSets/Main`) to COCO instances files, one per split. */
module VocToCoco {
  import opened Common
  import opened Geometry
  import opened Paths
  import opened Ordering
  import opened Records

  /** A file of `JPEGImages`: its name, and the (width, height) PIL reports,
      or None when PIL cannot identify it. */
  datatype JpegFile = JpegFile(name: string, size: Option<Size>)

  /** The VOC root: the `Annotations` listing (each file parsed), the
      `JPEGImages` listing, and the stripped lines of each split file of
      `ImageSets/Main` that exists. */
  datatype VocDataset = VocDataset(xmls: seq<VocXml>, jpegs: seq<JpegFile>, splitLists: map<string, seq<string>>)

  const Splits: seq<string> := ["train", "val", "test"]

  /** `dst_folder` for a split: images go to `images/<folder>` and the
      annotations to `instances_<folder>.json`. */
  function Folder(split: string): (r: string)
    ensures r == "train2014" <==> split == "train"
    ensures r == "train2014" || r == "val2014"
  {
    if split == "train" then "train2014" else "val2014"
  }

  // ---------------------------------------------------------------------
  // categories and cat_id_map

  function XmlNames(xmls: seq<VocXml>): set<string>
  {
    if xmls == [] then {}
    else
      var x := xmls[|xmls| - 1];
      XmlNames(xmls[..|xmls| - 1]) + (if EndsWith(x.fileName, ".xml") then ObjectNames(x.objects) else {})
  }

  /** The category names are exactly the object names of the `.xml` files
      of `Annotations`. */
  lemma {:induction false} XmlNamesAreObjectNames(xmls: seq<VocXml>, c: string)
    ensures c in XmlNames(xmls) <==>
      exists i :: 0 <= i < |xmls| && EndsWith(xmls[i].fileName, ".xml") && c in ObjectNames(xmls[i].objects)
    decreases |xmls|
  {
    if xmls != [] {
      var n := |xmls| - 1;
      XmlNamesAreObjectNames(xmls[..n], c);
      if c in XmlNames(xmls[..n]) {
        var i :| 0 <= i < n && EndsWith(xmls[..n][i].fileName, ".xml") && c in ObjectNames(xmls[..n][i].objects);
        assert xmls[i] == xmls[..n][i];
      }
      if exists i :: 0 <= i < |xmls| && EndsWith(xmls[i].fileName, ".xml") && c in ObjectNames(xmls[i].objects) {
        var i :| 0 <= i < |xmls| && EndsWith(xmls[i].fileName, ".xml") && c in ObjectNames(xmls[i].objects);
        if i < n {
          assert xmls[..n][i] == xmls[i];
        }
      }
    }
  }

  /** The category loop over `Annotations`, then `sorted(categories)`. */
  method CollectCategories(xmls: seq<VocXml>) returns (classes: seq<string>)
    ensures StrictlySorted(classes, StringLt)
    ensures forall c :: c in classes <==> c in XmlNames(xmls)
  {
    var names: set<string> := {};
    for i := 0 to |xmls|
      invariant names == XmlNames(xmls[..i])
    {
      assert xmls[..i + 1][..i] == xmls[..i];
      if EndsWith(xmls[i].fileName, ".xml") {
        names := AddObjectNames(names, xmls[i].objects);
      }
    }
    assert xmls[..|xmls|] == xmls;
    StringLtIsStrictTotalOrder();
    classes := SortSet(names, StringLt);
  }

  /** `{name: i + 1 for i, name in enumerate(classes)}`. */
  function CatIdMap(classes: seq<string>): map<string, int>
  {
    if classes == [] then map[]
    else CatIdMap(classes[..|classes| - 1])[classes[|classes| - 1] := |classes|]
  }

  lemma {:induction false} CatIdMapPositions(classes: seq<string>)
    requires NoDuplicates(classes)
    ensures forall c :: c in CatIdMap(classes) <==> c in classes
    ensures forall i :: 0 <= i < |classes| ==> CatIdMap(classes)[classes[i]] == i + 1
    decreases |classes|
  {
    if classes != [] {
      var n := |classes| - 1;
      var prefix := classes[..n];
      assert NoDuplicates(prefix) by {
        forall i, j | 0 <= i < j < |prefix|
          ensures prefix[i] != prefix[j]
        {
          assert prefix[i] == classes[i] && prefix[j] == classes[j];
        }
      }
      CatIdMapPositions(prefix);
      forall i | 0 <= i < n
        ensures classes[i] != classes[n] && prefix[i] == classes[i]
      {
      }
      assert forall c :: c in prefix ==> c in classes;
      forall c | c in classes
        ensures c in prefix || c == classes[n]
      {
        var i :| 0 <= i < |classes| && classes[i] == c;
        if i < n {
          assert prefix[i] == c;
        }
      }
    }
  }

  /** cat_id_map sends the sorted names bijectively onto 1..N, in order. */
  lemma CatIdMapIsRank(classes: seq<string>)
    requires StrictlySorted(classes, StringLt)
    ensures forall c :: c in CatIdMap(classes) <==> c in classes
    ensures forall i :: 0 <= i < |classes| ==> CatIdMap(classes)[classes[i]] == i + 1
    ensures forall c :: c in CatIdMap(classes) ==> 1 <= CatIdMap(classes)[c] <= |classes|
    ensures forall a, b :: a in CatIdMap(classes) && b in CatIdMap(classes) ==>
      (StringLt(a, b) <==> CatIdMap(classes)[a] < CatIdMap(classes)[b])
  {
    StringLtIsStrictTotalOrder();
    forall i, j | 0 <= i < j < |classes|
      ensures classes[i] != classes[j]
    {
      SortedDistinct(classes, StringLt, i, j);
    }
    CatIdMapPositions(classes);
    forall a, b | a in CatIdMap(classes) && b in CatIdMap(classes)
      ensures StringLt(a, b) <==> CatIdMap(classes)[a] < CatIdMap(classes)[b]
    {
      var i :| 0 <= i < |classes| && classes[i] == a;
      var j :| 0 <= j < |classes| && classes[j] == b;
      SortedPositionsFollowOrder(classes, StringLt, i, j);
    }
  }

  /** The `categories` list of every instances file: cat_id_map's items. */
  function CategoryList(classes: seq<string>): seq<CocoCategory>
  {
    seq(|classes|, i requires 0 <= i < |classes| => CocoCategory(i + 1, classes[i]))
  }

  // ---------------------------------------------------------------------
  // objects of one image

  /** The records of one split so far, with `ann_id`, the position in the
      split list (enumerate's `img_id`), `dst_folder` (None before its
      first assignment), and the images copied. */
  datatype SplitState = SplitState(images: seq<CocoImage>, annotations: seq<CocoAnnotation>, annId: int,
                                   position: int, folder: Option<string>, copied: seq<string>)

  /** The `bndbox` of an `object`, rounded and clamped to the image; None
      when float() rejects one of its fields. */
  function Clamped(obj: VocObjectText, size: Size): Option<Corners>
  {
    if obj.xmin.asReal.None? || obj.ymin.asReal.None? || obj.xmax.asReal.None? || obj.ymax.asReal.None? then None
    else Some(VocClampedCorners(RealCorners(obj.xmin.asReal.value, obj.ymin.asReal.value,
                                            obj.xmax.asReal.value, obj.ymax.asReal.value), size))
  }

  /** The annotation appended for a box that passes the gate: `bbox` is
      `[xmin, ymin, xmax - xmin, ymax - ymin]` and `area` its product. */
  function ObjectAnnotation(id: int, imageId: int, categoryId: int, c: Corners): CocoAnnotation
  {
    var b := CornersToPixelBox(c);
    CocoAnnotation(id, imageId, categoryId, b, (b.w * b.h) as real)
  }

  /** One `object`: rounded, clamped, dropped when degenerate, else an
      annotation with the next `ann_id`. */
  function AddObject(catIds: map<string, int>, imageId: int, size: Size, st: SplitState, obj: VocObjectText): Result<SplitState>
  {
    match Clamped(obj, size)
    case None => Err(ValueError)
    case Some(c) =>
      if Degenerate(c) then Ok(st)
      else if obj.name !in catIds then Err(KeyError)
      else Ok(st.(annotations := st.annotations + [ObjectAnnotation(st.annId, imageId, catIds[obj.name], c)],
                  annId := st.annId + 1))
  }

  function ObjectStep(catIds: map<string, int>, imageId: int, size: Size): (SplitState, VocObjectText) -> Result<SplitState>
  {
    (st, obj) => AddObject(catIds, imageId, size, st, obj)
  }

  /** The object loop of one image. */
  method AddObjects(catIds: map<string, int>, imageId: int, size: Size, st: SplitState, objects: seq<VocObjectText>)
    returns (r: Result<SplitState>)
    ensures r == FoldResult(ObjectStep(catIds, imageId, size), st, objects)
  {
    var cur := st;
    for j := 0 to |objects|
      invariant FoldResult(ObjectStep(catIds, imageId, size), st, objects[..j]) == Ok(cur)
    {
      FoldStep(ObjectStep(catIds, imageId, size), st, objects, j);
      var obj := objects[j];
      if obj.xmin.asReal.None? || obj.ymin.asReal.None? || obj.xmax.asReal.None? || obj.ymax.asReal.None? {
        FoldErrPersists(ObjectStep(catIds, imageId, size), st, objects, j + 1);
        return Err(ValueError);
      }
      var c := VocClampedCorners(RealCorners(obj.xmin.asReal.value, obj.ymin.asReal.value,
                                             obj.xmax.asReal.value, obj.ymax.asReal.value), size);
      if !(c.xmin >= c.xmax || c.ymin >= c.ymax) {
        if obj.name !in catIds {
          FoldErrPersists(ObjectStep(catIds, imageId, size), st, objects, j + 1);
          return Err(KeyError);
        }
        var b := CornersToPixelBox(c);
        cur := cur.(annotations := cur.annotations + [CocoAnnotation(cur.annId, imageId, catIds[obj.name], b, (b.w * b.h) as real)],
                    annId := cur.annId + 1);
      }
    }
    FoldWhole(ObjectStep(catIds, imageId, size), st, objects);
    r := Ok(cur);
  }

  /** The objects the loop keeps, in XML order: those whose clamped box
      passes the gate, each with that box. */
  function KeptObjects(objects: seq<VocObjectText>, size: Size): seq<VocObject>
  {
    if objects == [] then []
    else
      var obj := objects[|objects| - 1];
      KeptObjects(objects[..|objects| - 1], size) +
        match Clamped(obj, size)
        case Some(c) => if Degenerate(c) then [] else [VocObject(obj.name, c)]
        case None => []
  }

  /** float() accepts every `bndbox` field of every object. */
  predicate AllParse(objects: seq<VocObjectText>, size: Size)
  {
    forall j :: 0 <= j < |objects| ==> Clamped(objects[j], size).Some?
  }

  /** Every kept object's name is a key of cat_id_map. */
  predicate NamesMapped(kept: seq<VocObject>, catIds: map<string, int>)
  {
    forall o :: o in kept ==> o.name in catIds
  }

  /** The object loop converts iff float() accepts every `bndbox` field and
      every kept object's name is in cat_id_map. */
  lemma {:induction false} ObjectsOkIff(catIds: map<string, int>, imageId: int, size: Size, st: SplitState, objects: seq<VocObjectText>)
    ensures FoldResult(ObjectStep(catIds, imageId, size), st, objects).Ok? <==>
      AllParse(objects, size) && NamesMapped(KeptObjects(objects, size), catIds)
    decreases |objects|
  {
    if objects != [] {
      var n := |objects| - 1;
      var prefix := objects[..n];
      var last := objects[n];
      ObjectsOkIff(catIds, imageId, size, st, prefix);
      assert AllParse(objects, size) <==> AllParse(prefix, size) && Clamped(last, size).Some? by {
        assert forall j :: 0 <= j < n ==> prefix[j] == objects[j];
      }
      var before := KeptObjects(prefix, size);
      var kept := KeptObjects(objects, size);
      var more := kept[|before|..];
      assert kept == before + more;
      assert NamesMapped(kept, catIds) <==> NamesMapped(before, catIds) && NamesMapped(more, catIds) by {
        assert forall o :: o in kept <==> o in before || o in more;
      }
      match FoldResult(ObjectStep(catIds, imageId, size), st, prefix)
      case Err(_) =>
      case Ok(acc) =>
        assert FoldResult(ObjectStep(catIds, imageId, size), st, objects) == AddObject(catIds, imageId, size, acc, last);
    }
  }

  /** The annotations the object loop appends are exactly the kept objects,
      in order: the k-th has id `ann_id + k`, the image's id, the category
      cat_id_map gives its name, and its clamped box as bbox and area. */
  lemma {:induction false} ObjectsFollowKept(catIds: map<string, int>, imageId: int, size: Size, st: SplitState, objects: seq<VocObjectText>)
    requires FoldResult(ObjectStep(catIds, imageId, size), st, objects).Ok?
    ensures var r := FoldResult(ObjectStep(catIds, imageId, size), st, objects).value;
      var kept := KeptObjects(objects, size);
      && r.annId == st.annId + |kept|
      && |r.annotations| == |st.annotations| + |kept|
      && r.annotations[..|st.annotations|] == st.annotations
      && forall k :: 0 <= k < |kept| ==>
           && kept[k].name in catIds
           && r.annotations[|st.annotations| + k] == ObjectAnnotation(st.annId + k, imageId, catIds[kept[k].name], kept[k].box)
    decreases |objects|
  {
    if objects != [] {
      var n := |objects| - 1;
      var prefix := objects[..n];
      ObjectsFollowKept(catIds, imageId, size, st, prefix);
      var mid := FoldResult(ObjectStep(catIds, imageId, size), st, prefix).value;
      assert mid.annotations[..|st.annotations|] == st.annotations;
    }
  }

  /** Every kept object has a box inside the image with positive extent. */
  lemma {:induction false} KeptObjectsInsideImage(objects: seq<VocObjectText>, size: Size)
    ensures forall o :: o in KeptObjects(objects, size) ==> !Degenerate(o.box) && InsideImage(o.box, size)
    decreases |objects|
  {
    if objects != [] {
      var n := |objects| - 1;
      KeptObjectsInsideImage(objects[..n], size);
    }
  }

  // ---------------------------------------------------------------------
  // images of one split

  /** What the image loop of a split consults. */
  datatype SplitContext = SplitContext(split: string, catIds: map<string, int>, jpegs: seq<JpegFile>, xmls: seq<VocXml>)

  /** The image of `JPEGImages` named `name`, looked up as os.path.exists does. */
  function FindJpeg(jpegs: seq<JpegFile>, name: string): (r: Option<JpegFile>)
    ensures r.Some? <==> exists i :: 0 <= i < |jpegs| && jpegs[i].name == name
    ensures r.Some? ==> r.value in jpegs && r.value.name == name
  {
    if jpegs == [] then None
    else if jpegs[0].name == name then Some(jpegs[0])
    else
      var r := FindJpeg(jpegs[1..], name);
      assert forall i :: 1 <= i < |jpegs| ==> jpegs[1..][i - 1] == jpegs[i];
      r
  }

  /** One line of the split list: skipped without `<name>.jpg`; otherwise
      copied, recorded with its position as id, and its objects added when
      `<name>.xml` exists. */
  function AddImage(ctx: SplitContext, st: SplitState, base: string): Result<SplitState>
  {
    var imageId := st.position;
    var next := st.(position := st.position + 1);
    match FindJpeg(ctx.jpegs, base + ".jpg")
    case None => Ok(next)
    case Some(jpeg) =>
      var copied := next.(folder := Some(Folder(ctx.split)), copied := next.copied + [base + ".jpg"]);
      match jpeg.size
      case None => Err(UnreadableImage)
      case Some(size) =>
        var recorded := copied.(images := copied.images + [CocoImage(imageId, base + ".jpg", size.width, size.height)]);
        match FindXml(ctx.xmls, base + ".xml")
        case None => Ok(recorded)
        case Some(xml) => FoldResult(ObjectStep(ctx.catIds, imageId, size), recorded, xml.objects)
  }

  function ImageStep(ctx: SplitContext): (SplitState, string) -> Result<SplitState>
  {
    (st, base) => AddImage(ctx, st, base)
  }

  function InitState(folder: Option<string>): SplitState
  {
    SplitState([], [], 0, 0, folder, [])
  }

  /** The image loop of a split, `dst_folder` holding `folder` on entry. */
  function ConvertedSplit(ctx: SplitContext, names: seq<string>, folder: Option<string>): Result<SplitState>
  {
    FoldResult(ImageStep(ctx), InitState(folder), names)
  }

  method ConvertSplit(ctx: SplitContext, names: seq<string>, folder: Option<string>) returns (r: Result<SplitState>)
    ensures r == ConvertedSplit(ctx, names, folder)
  {
    var st := InitState(folder);
    for i := 0 to |names|
      invariant FoldResult(ImageStep(ctx), InitState(folder), names[..i]) == Ok(st)
    {
      FoldStep(ImageStep(ctx), InitState(folder), names, i);
      var base := names[i];
      var imageId := st.position;
      st := st.(position := st.position + 1);
      var jpeg := FindJpeg(ctx.jpegs, base + ".jpg");
      if jpeg.Some? {
        st := st.(folder := Some(Folder(ctx.split)), copied := st.copied + [base + ".jpg"]);
        if jpeg.value.size.None? {
          FoldErrPersists(ImageStep(ctx), InitState(folder), names, i + 1);
          return Err(UnreadableImage);
        }
        var size := jpeg.value.size.value;
        st := st.(images := st.images + [CocoImage(imageId, base + ".jpg", size.width, size.height)]);
        var xml := FindXml(ctx.xmls, base + ".xml");
        if xml.Some? {
          var added := AddObjects(ctx.catIds, imageId, size, st, xml.value.objects);
          if added.Err? {
            FoldErrPersists(ImageStep(ctx), InitState(folder), names, i + 1);
            return Err(added.error);
          }
          st := added.value;
        }
      }
    }
    FoldWhole(ImageStep(ctx), InitState(folder), names);
    r := Ok(st);
  }

  // ---------------------------------------------------------------------
  // what a split's records satisfy

  /** The object loop leaves everything but the annotations and `ann_id` alone. */
  lemma {:induction false} ObjectsKeepImages(catIds: map<string, int>, imageId: int, size: Size, st: SplitState, objects: seq<VocObjectText>)
    requires FoldResult(ObjectStep(catIds, imageId, size), st, objects).Ok?
    ensures FoldResult(ObjectStep(catIds, imageId, size), st, objects).value.(annotations := st.annotations, annId := st.annId) == st
    decreases |objects|
  {
    if objects != [] {
      ObjectsKeepImages(catIds, imageId, size, st, objects[..|objects| - 1]);
    }
  }

  /** One line of the split list adds an image record iff its `.jpg` exists. */
  lemma AddImageRecords(ctx: SplitContext, st: SplitState, base: string)
    requires AddImage(ctx, st, base).Ok?
    ensures AddImage(ctx, st, base).value.position == st.position + 1
    ensures FindJpeg(ctx.jpegs, base + ".jpg").None? ==> AddImage(ctx, st, base).value.images == st.images
    ensures FindJpeg(ctx.jpegs, base + ".jpg").Some? ==>
      var size := FindJpeg(ctx.jpegs, base + ".jpg").value.size;
      && size.Some?
      && AddImage(ctx, st, base).value.images ==
           st.images + [CocoImage(st.position, base + ".jpg", size.value.width, size.value.height)]
  {
    var next := st.(position := st.position + 1);
    match FindJpeg(ctx.jpegs, base + ".jpg")
    case None =>
    case Some(jpeg) =>
      var size := jpeg.size.value;
      var recorded := next.(folder := Some(Folder(ctx.split)), copied := next.copied + [base + ".jpg"],
                            images := next.images + [CocoImage(st.position, base + ".jpg", size.width, size.height)]);
      match FindXml(ctx.xmls, base + ".xml")
      case None =>
      case Some(xml) =>
        ObjectsKeepImages(ctx.catIds, st.position, size, recorded, xml.objects);
  }

  /** The last line of the split list is the last step of the image loop. */
  lemma ConvertedSplitLast(ctx: SplitContext, names: seq<string>, folder: Option<string>)
    requires names != []
    ensures ConvertedSplit(ctx, names, folder) ==
      match ConvertedSplit(ctx, names[..|names| - 1], folder)
      case Err(e) => Err(e)
      case Ok(st) => AddImage(ctx, st, names[|names| - 1])
  {
  }

  /** Image ids are positions in the split list: strictly increasing, each
      naming the line it came from and the `.jpg` whose size it records. */
  lemma {:induction false} ImagesArePositions(ctx: SplitContext, names: seq<string>, folder: Option<string>)
    requires ConvertedSplit(ctx, names, folder).Ok?
    ensures ConvertedSplit(ctx, names, folder).value.position == |names|
    ensures forall k :: 0 <= k < |ConvertedSplit(ctx, names, folder).value.images| ==>
      var image := ConvertedSplit(ctx, names, folder).value.images[k];
      && 0 <= image.id < |names|
      && image.fileName == names[image.id] + ".jpg"
      && FindJpeg(ctx.jpegs, image.fileName).Some?
      && FindJpeg(ctx.jpegs, image.fileName).value.size == Some(Size(image.width, image.height))
    ensures forall k, l :: 0 <= k < l < |ConvertedSplit(ctx, names, folder).value.images| ==>
      ConvertedSplit(ctx, names, folder).value.images[k].id < ConvertedSplit(ctx, names, folder).value.images[l].id
    decreases |names|
  {
    if names != [] {
      var n := |names| - 1;
      var prefix := names[..n];
      ConvertedSplitLast(ctx, names, folder);
      ImagesArePositions(ctx, prefix, folder);
      assert forall i :: 0 <= i < n ==> prefix[i] == names[i];
      AddImageRecords(ctx, ConvertedSplit(ctx, prefix, folder).value, names[n]);
    }
  }

  /** An image is recorded iff its `.jpg` exists, so a missing one leaves a
      gap in the ids. */
  lemma {:induction false} ImageRecordedIffJpeg(ctx: SplitContext, names: seq<string>, folder: Option<string>, i: nat)
    requires ConvertedSplit(ctx, names, folder).Ok? && i < |names|
    ensures FindJpeg(ctx.jpegs, names[i] + ".jpg").Some? <==>
      exists k :: 0 <= k < |ConvertedSplit(ctx, names, folder).value.images| &&
                  ConvertedSplit(ctx, names, folder).value.images[k].id == i
    decreases |names|
  {
    var n := |names| - 1;
    var prefix := names[..n];
    LastLineImages(ctx, names, folder);
    var st := ConvertedSplit(ctx, prefix, folder).value;
    var images := ConvertedSplit(ctx, names, folder).value.images;
    SplitPosition(ctx, prefix, folder);
    if i == n {
      if FindJpeg(ctx.jpegs, names[i] + ".jpg").Some? {
        assert images[|st.images|].id == i;
      } else {
        assert forall k :: 0 <= k < |st.images| ==> st.images[k].id < n by {
          ImagesArePositions(ctx, prefix, folder);
        }
        forall k | 0 <= k < |images|
          ensures images[k].id != i
        {
          assert images[k] == st.images[k];
        }
      }
    } else {
      assert prefix[i] == names[i];
      ImageRecordedIffJpeg(ctx, prefix, folder, i);
      if FindJpeg(ctx.jpegs, names[i] + ".jpg").Some? {
        var k :| 0 <= k < |st.images| && st.images[k].id == i;
        assert images[k] == st.images[k];
      }
      if exists k :: 0 <= k < |images| && images[k].id == i {
        var k :| 0 <= k < |images| && images[k].id == i;
        assert k < |st.images| && st.images[k].id == i;
      }
    }
  }

  /** The last line of a converted split adds an image record, with the
      line's position as id, iff its `.jpg` exists. */
  lemma LastLineImages(ctx: SplitContext, names: seq<string>, folder: Option<string>)
    requires names != [] && ConvertedSplit(ctx, names, folder).Ok?
    ensures ConvertedSplit(ctx, names[..|names| - 1], folder).Ok?
    ensures var st := ConvertedSplit(ctx, names[..|names| - 1], folder).value;
      var images := ConvertedSplit(ctx, names, folder).value.images;
      var base := names[|names| - 1];
      && (FindJpeg(ctx.jpegs, base + ".jpg").None? ==> images == st.images)
      && (FindJpeg(ctx.jpegs, base + ".jpg").Some? ==>
            |images| == |st.images| + 1 && images[..|st.images|] == st.images && images[|st.images|].id == st.position)
  {
    ConvertedSplitLast(ctx, names, folder);
    AddImageRecords(ctx, ConvertedSplit(ctx, names[..|names| - 1], folder).value, names[|names| - 1]);
  }

  /** An object of a split that gets an annotation: the position of its
      list line (the image's id), its name and its clamped box. */
  datatype PlacedObject = PlacedObject(imageId: int, name: string, box: Corners)

  function Placed(imageId: int, kept: seq<VocObject>): seq<PlacedObject>
  {
    seq(|kept|, k requires 0 <= k < |kept| => PlacedObject(imageId, kept[k].name, kept[k].box))
  }

  /** The kept objects of one list line: those of `<base>.xml`, when
      `<base>.jpg` exists and PIL reads it. */
  function LineObjects(ctx: SplitContext, imageId: int, base: string): seq<PlacedObject>
  {
    match FindJpeg(ctx.jpegs, base + ".jpg")
    case Some(JpegFile(_, Some(size))) =>
      (match FindXml(ctx.xmls, base + ".xml")
       case Some(xml) => Placed(imageId, KeptObjects(xml.objects, size))
       case None => [])
    case _ => []
  }

  /** The kept objects of a split list, line by line, each tagged with its
      line's position. */
  function SplitObjects(ctx: SplitContext, names: seq<string>): seq<PlacedObject>
  {
    if names == [] then []
    else SplitObjects(ctx, names[..|names| - 1]) + LineObjects(ctx, |names| - 1, names[|names| - 1])
  }

  /** One list line appends the annotations of its kept objects, numbered
      on from `ann_id`, with the line's position as image id. */
  lemma AddImageAnnotations(ctx: SplitContext, st: SplitState, base: string)
    requires AddImage(ctx, st, base).Ok?
    ensures var r := AddImage(ctx, st, base).value;
      var placed := LineObjects(ctx, st.position, base);
      && r.annId == st.annId + |placed|
      && |st.annotations| <= |r.annotations|
      && r.annotations[..|st.annotations|] == st.annotations
      && AnnotatesPlaced(r.annotations[|st.annotations|..], st.annId, ctx.catIds, placed)
  {
    var next := st.(position := st.position + 1);
    match FindJpeg(ctx.jpegs, base + ".jpg")
    case None =>
    case Some(jpeg) =>
      var size := jpeg.size.value;
      var recorded := next.(folder := Some(Folder(ctx.split)), copied := next.copied + [base + ".jpg"],
                            images := next.images + [CocoImage(st.position, base + ".jpg", size.width, size.height)]);
      match FindXml(ctx.xmls, base + ".xml")
      case None =>
      case Some(xml) =>
        var step := ObjectStep(ctx.catIds, st.position, size);
        assert AddImage(ctx, st, base) == FoldResult(step, recorded, xml.objects);
        var kept := KeptObjects(xml.objects, size);
        var placed := LineObjects(ctx, st.position, base);
        assert placed == Placed(st.position, kept);
        assert recorded.annotations == st.annotations && recorded.annId == st.annId;
        ObjectsFollowKept(ctx.catIds, st.position, size, recorded, xml.objects);
        var added := AddImage(ctx, st, base).value.annotations[|st.annotations|..];
        forall k | 0 <= k < |placed|
          ensures placed[k].name in ctx.catIds
          ensures added[k] == ObjectAnnotation(st.annId + k, placed[k].imageId, ctx.catIds[placed[k].name], placed[k].box)
        {
          assert placed[k] == PlacedObject(st.position, kept[k].name, kept[k].box);
        }
  }

  /** The last list line of a converted split appends the annotations of
      its kept objects to those of the lines before it. */
  lemma LastLineAnnotations(ctx: SplitContext, names: seq<string>, folder: Option<string>)
    requires names != [] && ConvertedSplit(ctx, names, folder).Ok?
    ensures ConvertedSplit(ctx, names[..|names| - 1], folder).Ok?
    ensures var st := ConvertedSplit(ctx, names[..|names| - 1], folder).value;
      var r := ConvertedSplit(ctx, names, folder).value;
      var placed := LineObjects(ctx, st.position, names[|names| - 1]);
      && r.annId == st.annId + |placed|
      && |st.annotations| <= |r.annotations|
      && r.annotations[..|st.annotations|] == st.annotations
      && AnnotatesPlaced(r.annotations[|st.annotations|..], st.annId, ctx.catIds, placed)
  {
    ConvertedSplitLast(ctx, names, folder);
    AddImageAnnotations(ctx, ConvertedSplit(ctx, names[..|names| - 1], folder).value, names[|names| - 1]);
  }

  /** `annotations` are the annotations of `placed`, in order, with ids
      from `firstId` and categories from `catIds`. */
  predicate AnnotatesPlaced(annotations: seq<CocoAnnotation>, firstId: int, catIds: map<string, int>, placed: seq<PlacedObject>)
  {
    && |annotations| == |placed|
    && forall k :: 0 <= k < |placed| ==>
         && placed[k].name in catIds
         && annotations[k] == ObjectAnnotation(firstId + k, placed[k].imageId, catIds[placed[k].name], placed[k].box)
  }

  /** Annotating more objects after the earlier ones extends the list. */
  lemma AnnotatesPlacedAppend(before: seq<CocoAnnotation>, after: seq<CocoAnnotation>, catIds: map<string, int>,
                              placed: seq<PlacedObject>, more: seq<PlacedObject>)
    requires AnnotatesPlaced(before, 0, catIds, placed)
    requires |before| <= |after| && after[..|before|] == before
    requires AnnotatesPlaced(after[|before|..], |before|, catIds, more)
    ensures AnnotatesPlaced(after, 0, catIds, placed + more)
  {
    var all := placed + more;
    forall k | 0 <= k < |all|
      ensures all[k].name in catIds
      ensures after[k] == ObjectAnnotation(k, all[k].imageId, catIds[all[k].name], all[k].box)
    {
      if k < |placed| {
        assert after[k] == after[..|before|][k];
      } else {
        assert all[k] == more[k - |placed|];
        assert after[k] == after[|before|..][k - |before|];
      }
    }
  }

  /** The annotations of a converted split are its kept objects, in list
      and XML order: the k-th has id k, the position of its line as
      `image_id`, cat_id_map of its name, and its clamped box as bbox and
      area; `ann_id` ends at their count. */
  lemma {:induction false} SplitAnnotationsFollowObjects(ctx: SplitContext, names: seq<string>, folder: Option<string>)
    requires ConvertedSplit(ctx, names, folder).Ok?
    ensures ConvertedSplit(ctx, names, folder).value.annId == |SplitObjects(ctx, names)|
    ensures AnnotatesPlaced(ConvertedSplit(ctx, names, folder).value.annotations, 0, ctx.catIds, SplitObjects(ctx, names))
    decreases |names|
  {
    if names != [] {
      LastLineAnnotations(ctx, names, folder);
      SplitAnnotationsFollowObjects(ctx, names[..|names| - 1], folder);
      LastLineFollowsObjects(ctx, names, folder);
    } else {
      assert ConvertedSplit(ctx, names, folder).value == InitState(folder);
    }
  }

  /** The inductive step: when the lines before the last are annotated in
      order, so is the whole list. */
  lemma LastLineFollowsObjects(ctx: SplitContext, names: seq<string>, folder: Option<string>)
    requires names != [] && ConvertedSplit(ctx, names, folder).Ok?
    requires ConvertedSplit(ctx, names[..|names| - 1], folder).Ok?
    requires var st := ConvertedSplit(ctx, names[..|names| - 1], folder).value;
      && st.annId == |SplitObjects(ctx, names[..|names| - 1])|
      && AnnotatesPlaced(st.annotations, 0, ctx.catIds, SplitObjects(ctx, names[..|names| - 1]))
    ensures ConvertedSplit(ctx, names, folder).value.annId == |SplitObjects(ctx, names)|
    ensures AnnotatesPlaced(ConvertedSplit(ctx, names, folder).value.annotations, 0, ctx.catIds, SplitObjects(ctx, names))
  {
    var n := |names| - 1;
    var prefix := names[..n];
    var st := ConvertedSplit(ctx, prefix, folder).value;
    var r := ConvertedSplit(ctx, names, folder).value;
    var more := LineObjects(ctx, n, names[n]);
    SplitPosition(ctx, prefix, folder);
    LastLineAnnotations(ctx, names, folder);
    assert SplitObjects(ctx, names) == SplitObjects(ctx, prefix) + more;
    AnnotatesPlacedAppend(st.annotations, r.annotations, ctx.catIds, SplitObjects(ctx, prefix), more);
  }

  /** The image loop moves the position on once per list line. */
  lemma {:induction false} SplitPosition(ctx: SplitContext, names: seq<string>, folder: Option<string>)
    requires ConvertedSplit(ctx, names, folder).Ok?
    ensures ConvertedSplit(ctx, names, folder).value.position == |names|
    decreases |names|
  {
    if names != [] {
      var n := |names| - 1;
      ConvertedSplitLast(ctx, names, folder);
      SplitPosition(ctx, names[..n], folder);
      AddImageRecords(ctx, ConvertedSplit(ctx, names[..n], folder).value, names[n]);
    }
  }

  /** What every annotation of a split satisfies, against the image records
      and the N categories. */
  predicate AnnotationsWellFormed(images: seq<CocoImage>, annotations: seq<CocoAnnotation>, n: int)
  {
    forall k :: 0 <= k < |annotations| ==>
      var a := annotations[k];
      && a.id == k
      && a.bbox.w > 0 && a.bbox.h > 0
      && a.area == (a.bbox.w * a.bbox.h) as real
      && 1 <= a.categoryId <= n
      && exists m :: 0 <= m < |images| && images[m].id == a.imageId
                     && InsideImage(PixelBoxToCorners(a.bbox), Size(images[m].width, images[m].height))
  }

  /** `ann_id` counts the annotations, which are well formed. */
  predicate StateWellFormed(st: SplitState, n: int)
  {
    st.annId == |st.annotations| && AnnotationsWellFormed(st.images, st.annotations, n)
  }

  /** The category map holds every name of the `.xml` files, onto 1..N. */
  predicate CatIdsCover(ctx: SplitContext, n: int)
  {
    && (forall c :: c in XmlNames(ctx.xmls) ==> c in ctx.catIds)
    && (forall c :: c in ctx.catIds ==> 1 <= ctx.catIds[c] <= n)
  }

  lemma EndsWithAppended(base: string, ext: string)
    ensures EndsWith(base + ext, ext)
  {
    assert (base + ext)[|base + ext| - |ext|..] == ext;
  }

  /** The objects of an `.xml` file found for a split line carry names in
      XmlNames. */
  lemma FoundXmlNames(xmls: seq<VocXml>, base: string, obj: VocObjectText)
    requires FindXml(xmls, base + ".xml").Some?
    requires obj in FindXml(xmls, base + ".xml").value.objects
    ensures obj.name in XmlNames(xmls)
  {
    var x := FindXml(xmls, base + ".xml").value;
    var i :| 0 <= i < |xmls| && xmls[i] == x;
    EndsWithAppended(base, ".xml");
    var j :| 0 <= j < |x.objects| && x.objects[j] == obj;
    ObjectNamesAreNames(x.objects, obj.name);
    XmlNamesAreObjectNames(xmls, obj.name);
  }

  /** The object invariant: the split's annotations are well formed and the
      last image recorded is the one the objects belong to. */
  predicate ObjectInvariant(st: SplitState, n: int, imageId: int, size: Size)
  {
    && StateWellFormed(st, n)
    && |st.images| > 0
    && st.images[|st.images| - 1].id == imageId
    && Size(st.images[|st.images| - 1].width, st.images[|st.images| - 1].height) == size
  }

  /** One object keeps the object invariant, and cannot raise KeyError when
      the category map covers its name. */
  lemma AddObjectKeeps(ctx: SplitContext, n: int, imageId: int, size: Size, st: SplitState, obj: VocObjectText)
    requires CatIdsCover(ctx, n) && obj.name in XmlNames(ctx.xmls)
    requires ObjectInvariant(st, n, imageId, size)
    ensures AddObject(ctx.catIds, imageId, size, st, obj).Ok? ==>
      ObjectInvariant(AddObject(ctx.catIds, imageId, size, st, obj).value, n, imageId, size)
    ensures AddObject(ctx.catIds, imageId, size, st, obj).Err? ==>
      AddObject(ctx.catIds, imageId, size, st, obj).error == ValueError
  {
    var r := AddObject(ctx.catIds, imageId, size, st, obj);
    if r.Ok? && r.value != st {
      var s := r.value;
      var m := |st.images| - 1;
      forall k | 0 <= k < |s.annotations|
        ensures exists m' :: 0 <= m' < |s.images| && s.images[m'].id == s.annotations[k].imageId
                  && InsideImage(PixelBoxToCorners(s.annotations[k].bbox), Size(s.images[m'].width, s.images[m'].height))
      {
        if k < |st.annotations| {
          assert s.annotations[k] == st.annotations[k];
        } else {
          assert s.images[m].id == s.annotations[k].imageId;
        }
      }
    }
  }

  /** An image keeps the well-formedness of the split's annotations, and
      raises no KeyError when the category map covers the `.xml` names. */
  lemma AddImageKeeps(ctx: SplitContext, n: int, st: SplitState, base: string)
    requires CatIdsCover(ctx, n) && StateWellFormed(st, n)
    ensures AddImage(ctx, st, base).Ok? ==> StateWellFormed(AddImage(ctx, st, base).value, n)
    ensures AddImage(ctx, st, base).Err? ==> AddImage(ctx, st, base).error != KeyError
  {
    var imageId := st.position;
    var next := st.(position := st.position + 1);
    match FindJpeg(ctx.jpegs, base + ".jpg")
    case None =>
    case Some(jpeg) =>
      match jpeg.size
      case None =>
      case Some(size) =>
        var recorded := next.(folder := Some(Folder(ctx.split)), copied := next.copied + [base + ".jpg"],
                              images := next.images + [CocoImage(imageId, base + ".jpg", size.width, size.height)]);
        assert StateWellFormed(recorded, n) by {
          forall k | 0 <= k < |recorded.annotations|
            ensures exists m :: (0 <= m < |recorded.images| && recorded.images[m].id == recorded.annotations[k].imageId
                    && InsideImage(PixelBoxToCorners(recorded.annotations[k].bbox), Size(recorded.images[m].width, recorded.images[m].height)))
          {
            var m :| 0 <= m < |st.images| && st.images[m].id == st.annotations[k].imageId
                     && InsideImage(PixelBoxToCorners(st.annotations[k].bbox), Size(st.images[m].width, st.images[m].height));
            assert recorded.images[m] == st.images[m];
          }
        }
        match FindXml(ctx.xmls, base + ".xml")
        case None =>
        case Some(xml) =>
          var step := ObjectStep(ctx.catIds, imageId, size);
          var inv := (s: SplitState) => ObjectInvariant(s, n, imageId, size);
          var allowed := (e: Error) => e == ValueError;
          forall s, obj | obj in xml.objects && inv(s)
            ensures if step(s, obj).Ok? then inv(step(s, obj).value) else allowed(step(s, obj).error)
          {
            FoundXmlNames(ctx.xmls, base, obj);
            AddObjectKeeps(ctx, n, imageId, size, s, obj);
          }
          FoldPreserves(step, recorded, xml.objects, inv, allowed);
  }

  /** Every annotation of a converted split has id equal to its position
      (so ids run 0..k-1), positive width and height, area width × height, a
      category in 1..N and an image record it lies inside; and a split never
      fails with KeyError when the category map covers the `.xml` names. */
  lemma SplitAnnotationsWellFormed(ctx: SplitContext, n: int, names: seq<string>, folder: Option<string>)
    requires CatIdsCover(ctx, n)
    ensures ConvertedSplit(ctx, names, folder).Ok? ==> StateWellFormed(ConvertedSplit(ctx, names, folder).value, n)
    ensures ConvertedSplit(ctx, names, folder).Err? ==> ConvertedSplit(ctx, names, folder).error != KeyError
  {
    var inv := (s: SplitState) => StateWellFormed(s, n);
    var allowed := (e: Error) => e != KeyError;
    forall s, base | base in names && inv(s)
      ensures if ImageStep(ctx)(s, base).Ok? then inv(ImageStep(ctx)(s, base).value) else allowed(ImageStep(ctx)(s, base).error)
    {
      AddImageKeeps(ctx, n, s, base);
    }
    FoldPreserves(ImageStep(ctx), InitState(folder), names, inv, allowed);
  }

  // ---------------------------------------------------------------------
  // the run over the splits

  /** `instances_<folder>.json` written with a split's records, and the
      images copied to `images/<Folder(split)>`. */
  datatype JsonWrite = JsonWrite(split: string, folder: string, data: CocoData, copied: seq<string>)

  function Context(ds: VocDataset, classes: seq<string>, split: string): SplitContext
  {
    SplitContext(split, CatIdMap(classes), ds.jpegs, ds.xmls)
  }

  function SplitData(classes: seq<string>, st: SplitState): CocoData
  {
    CocoData(CategoryList(classes), st.images, st.annotations)
  }

  function AddSplit(ds: VocDataset, classes: seq<string>, writes: seq<JsonWrite>, split: string): Result<seq<JsonWrite>>
  {
    if split !in ds.splitLists then Ok(writes)
    else
      match ConvertedSplit(Context(ds, classes, split), ds.splitLists[split], None)
      case Err(e) => Err(e)
      case Ok(st) => Ok(writes + [JsonWrite(split, Folder(split), SplitData(classes, st), st.copied)])
  }

  function SplitStep(ds: VocDataset, classes: seq<string>): (seq<JsonWrite>, string) -> Result<seq<JsonWrite>>
  {
    (writes, split) => AddSplit(ds, classes, writes, split)
  }

  /** The instances files written, each split's records going to its own
      folder's file. */
  function ConvertedSplits(ds: VocDataset, classes: seq<string>): Result<seq<JsonWrite>>
  {
    FoldResult(SplitStep(ds, classes), [], Splits)
  }

  /** The whole conversion: the categories, then each split whose list exists. */
  method Convert(ds: VocDataset) returns (classes: seq<string>, r: Result<seq<JsonWrite>>)
    ensures StrictlySorted(classes, StringLt)
    ensures forall c :: c in classes <==> c in XmlNames(ds.xmls)
    ensures r == ConvertedSplits(ds, classes)
  {
    classes := CollectCategories(ds.xmls);
    var writes: seq<JsonWrite> := [];
    for k := 0 to |Splits|
      invariant FoldResult(SplitStep(ds, classes), [], Splits[..k]) == Ok(writes)
    {
      FoldStep(SplitStep(ds, classes), [], Splits, k);
      var split := Splits[k];
      if split in ds.splitLists {
        var st := ConvertSplit(Context(ds, classes, split), ds.splitLists[split], None);
        if st.Err? {
          FoldErrPersists(SplitStep(ds, classes), [], Splits, k + 1);
          return classes, Err(st.error);
        }
        writes := writes + [JsonWrite(split, Folder(split), SplitData(classes, st.value), st.value.copied)];
      }
    }
    FoldWhole(SplitStep(ds, classes), [], Splits);
    r := Ok(writes);
  }

  /** The last file written under `folder`: the one left on disk. */
  function FinalData(writes: seq<JsonWrite>, folder: string): Option<CocoData>
  {
    if writes == [] then None
    else if writes[|writes| - 1].folder == folder then Some(writes[|writes| - 1].data)
    else FinalData(writes[..|writes| - 1], folder)
  }

  function ListedSplits(ds: VocDataset, splits: seq<string>): seq<string>
  {
    if splits == [] then []
    else
      var split := splits[|splits| - 1];
      ListedSplits(ds, splits[..|splits| - 1]) + (if split in ds.splitLists then [split] else [])
  }

  /** Each split whose list exists is written, in order, to the instances
      file of its own folder, with records that depend on that split alone. */
  lemma {:induction false} WritesGoToSplitFolders(ds: VocDataset, classes: seq<string>, splits: seq<string>)
    requires FoldResult(SplitStep(ds, classes), [], splits).Ok?
    ensures |FoldResult(SplitStep(ds, classes), [], splits).value| == |ListedSplits(ds, splits)|
    ensures forall k :: 0 <= k < |ListedSplits(ds, splits)| ==>
      var w := FoldResult(SplitStep(ds, classes), [], splits).value[k];
      var split := ListedSplits(ds, splits)[k];
      && split in ds.splitLists
      && w.split == split
      && w.folder == Folder(split)
      && ConvertedSplit(Context(ds, classes, split), ds.splitLists[split], None).Ok?
      && w.data == SplitData(classes, ConvertedSplit(Context(ds, classes, split), ds.splitLists[split], None).value)
    decreases |splits|
  {
    if splits != [] {
      WritesGoToSplitFolders(ds, classes, splits[..|splits| - 1]);
    }
  }

  /** `test` shares `val2014` with `val` and is written after it, so the
      file left under `val2014` holds the test split's records. */
  lemma TestOverwritesVal(ds: VocDataset, classes: seq<string>)
    requires ConvertedSplits(ds, classes).Ok? && "test" in ds.splitLists
    ensures ConvertedSplit(Context(ds, classes, "test"), ds.splitLists["test"], None).Ok?
    ensures FinalData(ConvertedSplits(ds, classes).value, "val2014") ==
      Some(SplitData(classes, ConvertedSplit(Context(ds, classes, "test"), ds.splitLists["test"], None).value))
  {
    assert Splits[..|Splits| - 1] == ["train", "val"];
  }

  /** With the categories of the `.xml` files, every instances file lists
      cat_id_map's items and well-formed annotations, and no split fails
      with KeyError. */
  lemma ConvertedSplitsWellFormed(ds: VocDataset, classes: seq<string>)
    requires StrictlySorted(classes, StringLt)
    requires forall c :: c in classes <==> c in XmlNames(ds.xmls)
    ensures ConvertedSplits(ds, classes).Ok? ==> forall w :: w in ConvertedSplits(ds, classes).value ==>
      w.data.categories == CategoryList(classes) && AnnotationsWellFormed(w.data.images, w.data.annotations, |classes|)
    ensures ConvertedSplits(ds, classes).Err? ==> ConvertedSplits(ds, classes).error != KeyError
  {
    CatIdMapIsRank(classes);
    var inv := (writes: seq<JsonWrite>) => forall w :: w in writes ==>
      w.data.categories == CategoryList(classes) && AnnotationsWellFormed(w.data.images, w.data.annotations, |classes|);
    var allowed := (e: Error) => e != KeyError;
    forall writes, split | split in Splits && inv(writes)
      ensures if SplitStep(ds, classes)(writes, split).Ok? then inv(SplitStep(ds, classes)(writes, split).value)
              else allowed(SplitStep(ds, classes)(writes, split).error)
    {
      if split in ds.splitLists {
        var ctx := Context(ds, classes, split);
        assert CatIdsCover(ctx, |classes|);
        SplitAnnotationsWellFormed(ctx, |classes|, ds.splitLists[split], None);
      }
    }
    FoldPreserves(SplitStep(ds, classes), [], Splits, inv, allowed);
  }

  /** In every instances file written, the annotations are the kept objects
      of that split's list, in order, with ids from 0, the line's position
      as `image_id`, cat_id_map of the name and the clamped box. */
  lemma WritesFollowObjects(ds: VocDataset, classes: seq<string>)
    requires ConvertedSplits(ds, classes).Ok?
    ensures |ConvertedSplits(ds, classes).value| == |ListedSplits(ds, Splits)|
    ensures forall k :: 0 <= k < |ListedSplits(ds, Splits)| ==>
      var split := ListedSplits(ds, Splits)[k];
      && split in ds.splitLists
      && AnnotatesPlaced(ConvertedSplits(ds, classes).value[k].data.annotations, 0, CatIdMap(classes),
                         SplitObjects(Context(ds, classes, split), ds.splitLists[split]))
  {
    WritesGoToSplitFolders(ds, classes, Splits);
    var listed := ListedSplits(ds, Splits);
    forall k | 0 <= k < |listed|
      ensures listed[k] in ds.splitLists
      ensures AnnotatesPlaced(ConvertedSplits(ds, classes).value[k].data.annotations, 0, CatIdMap(classes),
                              SplitObjects(Context(ds, classes, listed[k]), ds.splitLists[listed[k]]))
    {
      SplitAnnotationsFollowObjects(Context(ds, classes, listed[k]), ds.splitLists[listed[k]], None);
    }
  }

  // ---------------------------------------------------------------------
  // as written: `dst_folder` is assigned inside the image loop and read
  // after it, so it keeps its value from an earlier split

  /** `dst_folder` and the files written so far. */
  datatype RunState = RunState(folder: Option<string>, writes: seq<JsonWrite>)

  function AddSplitAsWritten(ds: VocDataset, classes: seq<string>, run: RunState, split: string): Result<RunState>
  {
    if split !in ds.splitLists then Ok(run)
    else
      match ConvertedSplit(Context(ds, classes, split), ds.splitLists[split], run.folder)
      case Err(e) => Err(e)
      case Ok(st) =>
        match st.folder
        case None => Err(UnboundLocal)
        case Some(f) => Ok(RunState(st.folder, run.writes + [JsonWrite(split, f, SplitData(classes, st), st.copied)]))
  }

  function SplitStepAsWritten(ds: VocDataset, classes: seq<string>): (RunState, string) -> Result<RunState>
  {
    (run, split) => AddSplitAsWritten(ds, classes, run, split)
  }

  /** The split loop as the script has it. */
  function ConvertedSplitsAsWritten(ds: VocDataset, classes: seq<string>): Result<RunState>
  {
    FoldResult(SplitStepAsWritten(ds, classes), RunState(None, []), Splits)
  }

  /** Some line of the split list has its `.jpg`, so the image loop assigns
      `dst_folder`. */
  predicate CopiesAnImage(jpegs: seq<JpegFile>, names: seq<string>)
  {
    exists i :: 0 <= i < |names| && FindJpeg(jpegs, names[i] + ".jpg").Some?
  }

  /** `dst_folder` on entry changes nothing but what the line leaves in it
      when its `.jpg` is missing. */
  lemma AddImageFolder(ctx: SplitContext, st: SplitState, folder: Option<string>, base: string)
    ensures AddImage(ctx, st.(folder := folder), base) ==
      match AddImage(ctx, st, base)
      case Err(e) => Err(e)
      case Ok(s) => Ok(if FindJpeg(ctx.jpegs, base + ".jpg").Some? then s else s.(folder := folder))
  {
  }

  /** A line whose `.jpg` exists leaves the split's folder in `dst_folder`;
      any other line leaves it as it was. */
  lemma AddImageSetsFolder(ctx: SplitContext, st: SplitState, base: string)
    requires AddImage(ctx, st, base).Ok?
    ensures AddImage(ctx, st, base).value.folder ==
      if FindJpeg(ctx.jpegs, base + ".jpg").Some? then Some(Folder(ctx.split)) else st.folder
  {
    var next := st.(position := st.position + 1);
    match FindJpeg(ctx.jpegs, base + ".jpg")
    case None =>
    case Some(jpeg) =>
      var size := jpeg.size.value;
      var recorded := next.(folder := Some(Folder(ctx.split)), copied := next.copied + [base + ".jpg"],
                            images := next.images + [CocoImage(st.position, base + ".jpg", size.width, size.height)]);
      match FindXml(ctx.xmls, base + ".xml")
      case None =>
      case Some(xml) =>
        ObjectsKeepImages(ctx.catIds, st.position, size, recorded, xml.objects);
  }

  /** The image loop's records do not depend on `dst_folder` on entry; on
      exit it holds the split's folder once some `.jpg` was copied, else
      its value on entry. */
  lemma {:induction false} SplitFolder(ctx: SplitContext, names: seq<string>, folder: Option<string>)
    ensures ConvertedSplit(ctx, names, folder).Ok? == ConvertedSplit(ctx, names, None).Ok?
    ensures ConvertedSplit(ctx, names, folder).Err? ==>
      ConvertedSplit(ctx, names, folder).error == ConvertedSplit(ctx, names, None).error
    ensures ConvertedSplit(ctx, names, folder).Ok? ==>
      && ConvertedSplit(ctx, names, folder).value.(folder := None) == ConvertedSplit(ctx, names, None).value.(folder := None)
      && ConvertedSplit(ctx, names, folder).value.folder ==
           (if CopiesAnImage(ctx.jpegs, names) then Some(Folder(ctx.split)) else folder)
    decreases |names|
  {
    if names != [] {
      var n := |names| - 1;
      var prefix := names[..n];
      ConvertedSplitLast(ctx, names, folder);
      ConvertedSplitLast(ctx, names, None);
      SplitFolder(ctx, prefix, folder);
      assert forall i :: 0 <= i < n ==> prefix[i] == names[i];
      assert CopiesAnImage(ctx.jpegs, names) <==>
        CopiesAnImage(ctx.jpegs, prefix) || FindJpeg(ctx.jpegs, names[n] + ".jpg").Some?;
      if ConvertedSplit(ctx, prefix, folder).Ok? {
        var a := ConvertedSplit(ctx, prefix, folder).value;
        var b := ConvertedSplit(ctx, prefix, None).value;
        assert a == b.(folder := a.folder);
        AddImageFolder(ctx, b, a.folder, names[n]);
        if AddImage(ctx, a, names[n]).Ok? {
          AddImageSetsFolder(ctx, a, names[n]);
        }
      }
    }
  }

  /** When every split whose list exists copies some image, the script's
      split loop and the corrected one fail alike or write the same files. */
  lemma {:induction false} AsWrittenAgreesWhenSplitsCopy(ds: VocDataset, classes: seq<string>, splits: seq<string>)
    requires forall split :: split in splits && split in ds.splitLists ==> CopiesAnImage(ds.jpegs, ds.splitLists[split])
    ensures FoldResult(SplitStepAsWritten(ds, classes), RunState(None, []), splits).Ok? ==
            FoldResult(SplitStep(ds, classes), [], splits).Ok?
    ensures FoldResult(SplitStep(ds, classes), [], splits).Err? ==>
      FoldResult(SplitStepAsWritten(ds, classes), RunState(None, []), splits).error ==
      FoldResult(SplitStep(ds, classes), [], splits).error
    ensures FoldResult(SplitStep(ds, classes), [], splits).Ok? ==>
      FoldResult(SplitStepAsWritten(ds, classes), RunState(None, []), splits).value.writes ==
      FoldResult(SplitStep(ds, classes), [], splits).value
    decreases |splits|
  {
    if splits != [] {
      var n := |splits| - 1;
      var prefix := splits[..n];
      var split := splits[n];
      assert forall x :: x in prefix ==> x in splits;
      AsWrittenAgreesWhenSplitsCopy(ds, classes, prefix);
      var asWritten := FoldResult(SplitStepAsWritten(ds, classes), RunState(None, []), prefix);
      if asWritten.Ok? && split in ds.splitLists {
        SplitFolder(Context(ds, classes, split), ds.splitLists[split], asWritten.value.folder);
      }
    }
  }

  /** The run as the script writes it agrees with `ConvertedSplits` on
      every dataset whose listed splits each copy some image. */
  lemma ConvertedSplitsAsWrittenWhenSplitsCopy(ds: VocDataset, classes: seq<string>)
    requires forall split :: split in ds.splitLists ==> CopiesAnImage(ds.jpegs, ds.splitLists[split])
    ensures ConvertedSplitsAsWritten(ds, classes).Ok? == ConvertedSplits(ds, classes).Ok?
    ensures ConvertedSplits(ds, classes).Err? ==> ConvertedSplitsAsWritten(ds, classes).error == ConvertedSplits(ds, classes).error
    ensures ConvertedSplits(ds, classes).Ok? ==> ConvertedSplitsAsWritten(ds, classes).value.writes == ConvertedSplits(ds, classes).value
  {
    AsWrittenAgreesWhenSplitsCopy(ds, classes, Splits);
  }

  /** Two splits: `train` lists `a`, whose `.jpg` exists; `val` lists `b`,
      whose `.jpg` does not. */
  function OverwriteExample(): VocDataset
  {
    VocDataset([], [JpegFile("a.jpg", Some(Size(4, 3)))], map["train" := ["a"], "val" := ["b"]])
  }

  lemma OverwriteExampleImages()
    ensures ConvertedSplit(Context(OverwriteExample(), [], "train"), OverwriteExample().splitLists["train"], None) ==
      Ok(SplitState([CocoImage(0, "a.jpg", 4, 3)], [], 0, 1, Some("train2014"), ["a.jpg"]))
    ensures forall folder: Option<string> ::
      ConvertedSplit(Context(OverwriteExample(), [], "val"), OverwriteExample().splitLists["val"], folder) ==
        Ok(SplitState([], [], 0, 1, folder, []))
  {
    var ds := OverwriteExample();
    var train := Context(ds, [], "train");
    var val := Context(ds, [], "val");
    assert ds.splitLists["train"] == ["a"] && ds.splitLists["val"] == ["b"];
    assert "a" + ".jpg" == "a.jpg" && "a" + ".xml" == "a.xml" && "b" + ".jpg" == "b.jpg";
    assert FindJpeg(ds.jpegs, "a.jpg") == Some(JpegFile("a.jpg", Some(Size(4, 3))));
    assert FindXml(ds.xmls, "a.xml") == None;
    assert FindJpeg(ds.jpegs, "b.jpg") == None;
    assert ["a"][..1] == ["a"] && ["a"][..0] == [] && ["b"][..1] == ["b"] && ["b"][..0] == [];
    assert Folder("train") == "train2014";
    var r := AddImage(train, InitState(None), "a");
    assert r.Ok?;
    assert r.value.images == [CocoImage(0, "a.jpg", 4, 3)];
    assert r.value.copied == ["a.jpg"];
    FoldStep(ImageStep(train), InitState(None), ["a"], 0);
    forall folder: Option<string>
      ensures ConvertedSplit(val, ["b"], folder) == Ok(SplitState([], [], 0, 1, folder, []))
    {
      FoldStep(ImageStep(val), InitState(folder), ["b"], 0);
    }
  }

  lemma OverwriteExampleAsWritten()
    ensures ConvertedSplitsAsWritten(OverwriteExample(), []) ==
      Ok(RunState(Some("train2014"),
                  [JsonWrite("train", "train2014", CocoData([], [CocoImage(0, "a.jpg", 4, 3)], []), ["a.jpg"]),
                   JsonWrite("val", "train2014", CocoData([], [], []), [])]))
  {
    var ds := OverwriteExample();
    OverwriteExampleImages();
    assert CategoryList([]) == [];
    var w1 := JsonWrite("train", "train2014", CocoData([], [CocoImage(0, "a.jpg", 4, 3)], []), ["a.jpg"]);
    var w2 := JsonWrite("val", "train2014", CocoData([], [], []), []);
    var step := SplitStepAsWritten(ds, []);
    var start := RunState(None, []);
    assert Splits[0] == "train" && Splits[1] == "val" && Splits[2] == "test";
    assert "test" !in ds.splitLists;
    assert Splits[..0] == [] && Splits[..3] == Splits;
    assert [] + [w1] == [w1] && [w1] + [w2] == [w1, w2];
    var afterTrain := RunState(Some("train2014"), [w1]);
    assert AddSplitAsWritten(ds, [], start, "train") == Ok(afterTrain);
    assert AddSplitAsWritten(ds, [], afterTrain, "val") == Ok(RunState(Some("train2014"), [w1, w2]));
    FoldStep(step, start, Splits, 0);
    FoldStep(step, start, Splits, 1);
    FoldStep(step, start, Splits, 2);
  }

  lemma OverwriteExampleCorrected()
    ensures ConvertedSplits(OverwriteExample(), []) ==
      Ok([JsonWrite("train", "train2014", CocoData([], [CocoImage(0, "a.jpg", 4, 3)], []), ["a.jpg"]),
          JsonWrite("val", "val2014", CocoData([], [], []), [])])
  {
    var ds := OverwriteExample();
    OverwriteExampleImages();
    assert CategoryList([]) == [];
    var w1 := JsonWrite("train", "train2014", CocoData([], [CocoImage(0, "a.jpg", 4, 3)], []), ["a.jpg"]);
    var w2 := JsonWrite("val", "val2014", CocoData([], [], []), []);
    var step := SplitStep(ds, []);
    assert Splits[0] == "train" && Splits[1] == "val" && Splits[2] == "test";
    assert "test" !in ds.splitLists;
    assert Splits[..0] == [] && Splits[..3] == Splits;
    assert [] + [w1] == [w1] && [w1] + [w2] == [w1, w2];
    assert AddSplit(ds, [], [], "train") == Ok([w1]);
    assert AddSplit(ds, [], [w1], "val") == Ok([w1, w2]);
    FoldStep(step, [], Splits, 0);
    FoldStep(step, [], Splits, 1);
    FoldStep(step, [], Splits, 2);
  }

  /** A split none of whose images exists writes its empty records under
      the previous split's folder: here `val` overwrites `train2014`, and
      the train records are lost. The corrected loop writes `val2014`. */
  lemma AsWrittenEmptySplitOverwritesPrevious()
    ensures ConvertedSplitsAsWritten(OverwriteExample(), []).Ok?
    ensures FinalData(ConvertedSplitsAsWritten(OverwriteExample(), []).value.writes, "train2014") == Some(CocoData([], [], []))
    ensures ConvertedSplits(OverwriteExample(), []).Ok?
    ensures FinalData(ConvertedSplits(OverwriteExample(), []).value, "train2014") ==
      Some(CocoData([], [CocoImage(0, "a.jpg", 4, 3)], []))
    ensures FinalData(ConvertedSplits(OverwriteExample(), []).value, "val2014") == Some(CocoData([], [], []))
  {
    OverwriteExampleAsWritten();
    OverwriteExampleCorrected();
    var w1 := JsonWrite("train", "train2014", CocoData([], [CocoImage(0, "a.jpg", 4, 3)], []), ["a.jpg"]);
    assert [w1, JsonWrite("val", "val2014", CocoData([], [], []), [])][..1] == [w1];
  }

  /** When the first split with a list has no existing image, `dst_folder`
      is never assigned and the write raises UnboundLocalError; the
      corrected loop writes empty records to `train2014`. */
  lemma AsWrittenFirstSplitWithoutImagesFails()
    ensures var ds := VocDataset([], [], map["train" := ["a"]]);
      && ConvertedSplitsAsWritten(ds, []) == Err(UnboundLocal)
      && ConvertedSplits(ds, []) == Ok([JsonWrite("train", "train2014", CocoData([], [], []), [])])
  {
    var ds := VocDataset([], [], map["train" := ["a"]]);
    var train := Context(ds, [], "train");
    assert CategoryList([]) == [];
    assert ConvertedSplit(train, ["a"], None) == Ok(SplitState([], [], 0, 1, None, [])) by {
      assert FindJpeg(ds.jpegs, "a.jpg") == None;
      assert AddImage(train, InitState(None), "a") == Ok(SplitState([], [], 0, 1, None, []));
      FoldStep(ImageStep(train), InitState(None), ["a"], 0);
      assert ["a"][..1] == ["a"] && ["a"][..0] == [];
    }
    var asWritten := SplitStepAsWritten(ds, []);
    var start := RunState(None, []);
    assert Splits[..0] == [];
    FoldStep(asWritten, start, Splits, 0);
    FoldErrPersists(asWritten, start, Splits, 1);
    var corrected := SplitStep(ds, []);
    var w := JsonWrite("train", "train2014", CocoData([], [], []), []);
    assert Splits[..3] == Splits && Splits[0] == "train" && Splits[1] == "val" && Splits[2] == "test";
    assert "val" !in ds.splitLists && "test" !in ds.splitLists && ds.splitLists["train"] == ["a"];
    assert Context(ds, [], "train") == train;
    assert SplitData([], SplitState([], [], 0, 1, None, [])) == CocoData([], [], []);
    assert [] + [w] == [w];
    assert AddSplit(ds, [], [], "train") == Ok([w]);
    FoldStep(corrected, [], Splits, 0);
    FoldStep(corrected, [], Splits, 1);
    FoldStep(corrected, [], Splits, 2);
  }
}
