/** The records the converters read and write, with text and JSON already
    parsed into fields. */
module Records {
  import opened Common
  import opened Geometry

  /** An `object` element of a VOC annotation as written: its name and its
      integer `bndbox`. */
  datatype VocObject = VocObject(name: string, box: Corners)

  /** A VOC annotation as written: `filename`, `size` and the objects, in
      document order. */
  datatype VocAnnotation = VocAnnotation(fileName: string, size: Size, objects: seq<VocObject>)

  /** `Annotations/<stem>.xml` holding an annotation. */
  datatype VocFile = VocFile(stem: string, annotation: VocAnnotation)

  /** An `object` element as read: `name` text and the four `bndbox` fields. */
  datatype VocObjectText = VocObjectText(name: string, xmin: Token, ymin: Token, xmax: Token, ymax: Token)

  /** A VOC annotation file as read: its file name in `Annotations`, the
      `size/width` and `size/height` fields, and its objects in document order. */
  datatype VocXml = VocXml(fileName: string, width: Token, height: Token, objects: seq<VocObjectText>)

  /** A COCO `categories` entry. */
  datatype CocoCategory = CocoCategory(id: int, name: string)

  /** A COCO `images` entry. */
  datatype CocoImage = CocoImage(id: int, fileName: string, width: int, height: int)

  /** A COCO `annotations` entry as written, with an integer `bbox`. */
  datatype CocoAnnotation = CocoAnnotation(id: int, imageId: int, categoryId: int, bbox: PixelBox, area: real)

  /** A COCO `annotations` entry as read: the fields the converters use. */
  datatype CocoAnnotationIn = CocoAnnotationIn(imageId: int, categoryId: int, bbox: RealBox)

  /** A COCO instances file as read. */
  datatype CocoJson = CocoJson(categories: seq<CocoCategory>, images: seq<CocoImage>, annotations: seq<CocoAnnotationIn>)

  /** A COCO instances file as written. */
  datatype CocoData = CocoData(categories: seq<CocoCategory>, images: seq<CocoImage>, annotations: seq<CocoAnnotation>)

  /** A line `class xc yc w h` of a YOLO label file. */
  datatype YoloLine = YoloLine(classId: int, box: NormBox)

  /** `labels/<stem>.txt` holding its lines. */
  datatype YoloLabels = YoloLabels(stem: string, lines: seq<YoloLine>)

  /** A file of a YOLO `labels` directory as read: its name and its lines,
      each split on whitespace. */
  datatype LabelFile = LabelFile(name: string, lines: seq<seq<Token>>)

  /** The label file named `name`, looked up as os.path.exists does. */
  function FindLabel(labels: seq<LabelFile>, name: string): (r: Option<LabelFile>)
    ensures r.Some? <==> exists i :: 0 <= i < |labels| && labels[i].name == name
    ensures r.Some? ==> r.value in labels && r.value.name == name
  {
    if labels == [] then None
    else if labels[0].name == name then Some(labels[0])
    else
      var r := FindLabel(labels[1..], name);
      assert forall i :: 1 <= i < |labels| ==> labels[1..][i - 1] == labels[i];
      r
  }

  /** The annotation file of `Annotations` named `name`, looked up as
      os.path.exists and ET.parse find it. */
  function FindXml(xmls: seq<VocXml>, name: string): (r: Option<VocXml>)
    ensures r.Some? <==> exists i :: 0 <= i < |xmls| && xmls[i].fileName == name
    ensures r.Some? ==> r.value in xmls && r.value.fileName == name
  {
    if xmls == [] then None
    else if xmls[0].fileName == name then Some(xmls[0])
    else
      var r := FindXml(xmls[1..], name);
      assert forall i :: 1 <= i < |xmls| ==> xmls[1..][i - 1] == xmls[i];
      r
  }

  /** The names of a VOC annotation's objects. */
  function ObjectNames(objects: seq<VocObjectText>): set<string>
  {
    if objects == [] then {}
    else ObjectNames(objects[..|objects| - 1]) + {objects[|objects| - 1].name}
  }

  /** A name is an object name iff some object carries it. */
  lemma {:induction false} ObjectNamesAreNames(objects: seq<VocObjectText>, c: string)
    ensures c in ObjectNames(objects) <==> exists j :: 0 <= j < |objects| && objects[j].name == c
    decreases |objects|
  {
    if objects != [] {
      var n := |objects| - 1;
      ObjectNamesAreNames(objects[..n], c);
      if c in ObjectNames(objects[..n]) {
        var j :| 0 <= j < n && objects[..n][j].name == c;
        assert objects[j] == objects[..n][j];
      }
      if exists j :: 0 <= j < |objects| && objects[j].name == c {
        var j :| 0 <= j < |objects| && objects[j].name == c;
        if j < n {
          assert objects[..n][j] == objects[j];
        }
      }
    }
  }

  /** The loop adding each object's name to a set. */
  method AddObjectNames(names: set<string>, objects: seq<VocObjectText>) returns (r: set<string>)
    ensures r == names + ObjectNames(objects)
  {
    r := names;
    for j := 0 to |objects|
      invariant r == names + ObjectNames(objects[..j])
    {
      assert objects[..j + 1][..j] == objects[..j];
      r := r + {objects[j].name};
    }
    assert objects[..|objects|] == objects;
  }
}
