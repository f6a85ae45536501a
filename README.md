# Convert_Split_Dataset in Dafny

A model of the six converters of Convert_Split_Dataset between three
object-detection annotation layouts:

- COCO: JSON instances files, `[x, y, w, h]` pixel boxes, numeric category ids;
- PASCAL VOC: one XML file per image, corner pixel boxes, split lists under
  `ImageSets/Main`;
- YOLO: one text file per image, `class xc yc w h` normalized to the image size.

Each script is one function (`yolo_to_voc`, `voc_to_coco`, `yolo_to_coco`,
`coco_to_voc`, `voc_to_yolo`, `coco_to_yolo`). The model keeps what those
functions compute and leaves out the filesystem and serialisation around it.

Inputs are already parsed:
- directory listings are sequences, in the order `os.listdir` gives them;
- "file exists" is a lookup in those listings;
- text lines are lists of whitespace-separated fields, each with what
  `float()` and `int()` make of it;
- image sizes are what PIL or cv2 report (`None` when cv2 cannot decode).

Outputs are records: the files copied, the split lists, the XML annotations,
the instances files and the label files, in the order the scripts write them.
A Python exception that ends the run is an `Err` carrying the exception kind.

Layout, one module per file:

| module | file | contents |
|---|---|---|
| `Common` | `common.dfy` | Option, Result, the exception kinds, `FoldResult` (a left fold in which the first error sticks) and its lemmas |
| `Rounding` | `rounding.dfy` | Python's `round()`, half to even |
| `Geometry` | `geometry.dfy` | the box encodings, each script's conversion, and the round trips between them |
| `Paths` | `paths.dfy` | `str.lower`, `str.endswith`, `os.path.splitext` |
| `Ordering` | `ordering.dfy` | `<` on `str`, `sorted()`, `list.index()` |
| `Dicts` | `dicts.dfy` | the insertion-ordered `int -> str` dict of the two COCO readers |
| `Records` | `records.dfy` | VOC, COCO and YOLO records, and the lookups of label and annotation files by name |
| `YoloToVoc` | `yolo2voc.dfy` | `yolo_to_voc` |
| `VocToCoco` | `voc2coco.dfy` | `voc_to_coco` |
| `YoloToCoco` | `yolo2coco.dfy` | `yolo_to_coco` |
| `CocoToVoc` | `coco2voc.dfy` | `coco_to_voc` |
| `VocToYolo` | `voc2yolo.dfy` | `voc_to_yolo` |
| `CocoToYolo` | `coco2yolo.dfy` | `coco_to_yolo` |

Every loop of a script is a `method` with a `for` loop. Each such method is
proved equal to a specification function built with `FoldResult`. The
properties of the scripts are lemmas about those functions.

Pixel values are `int`. Normalized values and JSON numbers are exact `real`.
`round` is round-half-to-even, as Python 3's built-in.

Where the repository's design description and the code disagree, the model
follows the code:
- Clamps: yolo2voc clamps the minima to `0` and the maxima to the image side
  (`max(0, ·)`, `min(W, ·)`). Only voc2coco uses the asymmetric
  `[0, W-1]` / `[0, W]` clamp.
- Drop gate: only voc2coco and coco2voc drop degenerate boxes.
- Labels: yolo2voc accepts YOLO lines of five fields or more; yolo2coco
  accepts exactly five.
- Ids: voc2coco numbers categories from 1, not 0.
- Errors: these raise and end the run:
  - a missing image: `shutil.copy` at coco2voc.py:37 and voc2yolo.py:32;
  - an image PIL cannot open, at voc2coco.py:63 and yolo2coco.py:46;
  - a missing split list or `.xml` in voc2yolo.py:25,36;
  - an unknown category: `cat_id_map[...]` at voc2coco.py:105,
    `categories[...]` at coco2voc.py:70, and `.index` at voc2yolo.py:45 and
    coco2yolo.py:34;
  - a field `float()` or `int()` cannot parse;
  - a zero image side in the two YOLO writers (voc2yolo.py:52-55,
    coco2yolo.py:36-39).
- Skips: these drop one record and go on:
  - an image with no label file, at yolo2voc.py:69-70;
  - an image cv2 cannot decode, at yolo2voc.py:73-76;
  - a label line of fewer than five fields, at yolo2voc.py:104-106;
  - a listed name with no `.jpg`, at voc2coco.py:54-55;
  - a label line without exactly five fields, at yolo2coco.py:63-64;
  - a degenerate clamped box, at voc2coco.py:97 and coco2voc.py:67.

  A missing `.xml` in voc2coco (voc2coco.py:77) and a missing label file
  in yolo2coco (yolo2coco.py:59) give an image with no annotations.
  A missing split directory skips the whole split in yolo2voc
  (yolo2voc.py:17-22,43-50), and so does a missing split list in voc2coco
  (voc2coco.py:34-35) or a missing instances file in coco2voc
  (coco2voc.py:22-23).
- Sizes: width and height are not checked to be positive. A zero side
  divides by zero in the two YOLO writers.

## Model

| member | source | states |
|---|---|---|
| `Rounding.Round` | yolo2coco.py:80-81 | the result is an integer nearest to the argument, and the even one of two equally near |
| `Rounding.RoundUnique` | yolo2coco.py:80-81 | those two properties determine `round()` completely |
| `Rounding.RoundOfInteger` | voc2coco.py:84-87 | a float holding an integer rounds to that integer |
| `Rounding.RoundMonotonic` | coco2voc.py:60-63 | rounding preserves order |
| `Geometry.YoloToVocCorners` | yolo2voc.py:115-118 | the corners are at least 0, and the maxima are at most width and height |
| `Geometry.YoloToVocExample` | yolo2voc.py:115-118 | the line `0 0.5 0.5 0.2 0.4` on a 100 x 200 image gives corners (40, 60, 60, 140) |
| `Geometry.VocClampedCorners` | voc2coco.py:90-93 | minima lie in `[0, side-1]` and maxima in `[0, side]`; a box that passes the gate lies inside the image |
| `Geometry.VocClampKeepsInteriorBox` | voc2coco.py:81-93 | an integer box that is already inside the image and not degenerate is unchanged by rounding and clamping |
| `Geometry.CornersToPixelBox` | voc2coco.py:99-106 | `[xmin, ymin, xmax-xmin, ymax-ymin]` maps back to the corners; width and height are positive iff the box passes the gate |
| `Geometry.CocoToVocCorners` | coco2voc.py:60-66 | corners lie within the image; the box passes the gate iff it has positive extent inside the image |
| `Geometry.CocoVocCocoRoundTrip` | coco2voc.py:60-63 | an integer bbox inside the image survives coco2voc and then voc2coco's bbox unchanged |
| `Geometry.VocToYoloInvertsCorners` | voc2yolo.py:52-55 | centre minus and plus half the size gives back the corners divided by the side |
| `Geometry.VocToYoloInUnitRange` | voc2yolo.py:52-55 | a box within the image normalizes to four values in `[0, 1]` |
| `Geometry.VocToYoloScaledBack` | voc2yolo.py:52-55 | scaling the normalized edges back by the sides gives the integer corners |
| `Geometry.YoloToVocOfExactCorners` | yolo2voc.py:115-118 | a box whose scaled edges are integers inside the image converts to exactly those integers |
| `Geometry.VocYoloVocRoundTrip` | voc2yolo.py:52-55 | voc2yolo then yolo2voc gives back every integer box inside the image |
| `Geometry.CocoToYoloBox` | coco2yolo.py:35-39 | yolo2coco's unrounded `abs_x, abs_y, abs_w, abs_h` of the result is the input bbox |
| `Geometry.YoloCocoYoloIdentity` | yolo2coco.py:74-77 | yolo2coco's unrounded conversion followed by coco2yolo's is the identity |
| `Geometry.CocoYoloCocoRoundTrip` | yolo2coco.py:74-81 | coco2yolo then yolo2coco's rounded bbox gives back every integer bbox |
| `Paths.LastIndex` | yolo2voc.py:59 | `str.rfind`: the position of the last occurrence of the character, or -1 when there is none |
| `Paths.StemIsSplitext` | coco2voc.py:38 | `splitext()[0]` on a POSIX path: a prefix of the name; when shorter, it is cut at the last `.`, no `/` follows, and the last component keeps a character other than `.`; when the whole name, no `.` of the last component follows a non-dot character |
| `Paths.StemDropsExtension` | coco2voc.py:38 | a name ending in one extension after a non-dot character of its last component has the name without the extension as its stem |
| `Paths.LastIndexAppend` | coco2yolo.py:31 | an extension without `/` does not move the last path separator |
| `Paths.StemKeepsDotFileInDirectory` | coco2voc.py:85 | `d/.x` is its own stem: a leading dot of the last component starts no extension |
| `Ordering.StringLtIsStrictTotalOrder` | voc2yolo.py:13 | Python's `<` on `str` is irreflexive, transitive and total |
| `Ordering.IntLtIsStrictTotalOrder` | coco2yolo.py:16 | `<` on ids is a strict total order |
| `Ordering.SortSet` | yolo2voc.py:34 | `sorted()` of a set: strictly increasing, with exactly the set's elements |
| `Ordering.SortSeq` | coco2yolo.py:16 | `sorted()` of a list without duplicates: strictly increasing, same length, same elements |
| `Ordering.SortedUnique` | voc2yolo.py:13 | two strictly sorted lists with the same elements are equal |
| `Ordering.IndexOf` | voc2yolo.py:45 | `list.index()`: the first position holding the value, or ValueError exactly when it is absent |
| `Ordering.SortedDistinct` | voc2coco.py:27 | positions of a strictly sorted list hold different elements |
| `Ordering.SortedIndexIsPosition` | coco2yolo.py:34 | in a sorted list the index of the element at position i is i |
| `Ordering.SortedPositionsFollowOrder` | coco2yolo.py:34 | in a sorted list, positions follow the order of the elements |
| `Dicts.Get` | coco2voc.py:70 | a key is found iff it is one of the keys, and its entry holds the value found |
| `Dicts.Put` | coco2voc.py:29 | the key gets the value and other keys keep theirs; an existing key keeps its place; a new key goes last; keys stay distinct |
| `Dicts.LastName` | coco2voc.py:29 | the name of the last category entry with the id, defined iff some entry has it |
| `Dicts.PutAllGet` | coco2voc.py:29 | after `update`, a key holds the last name the new categories give it, else its old value |
| `Dicts.PutAllKeepsKeys` | coco2voc.py:29 | `update` keeps the existing keys as a prefix, in order, and keeps keys distinct |
| `Dicts.Distinct` | coco2voc.py:95-96 | the distinct values, without duplicates |
| `Dicts.DistinctInFirstOccurrenceOrder` | coco2voc.py:95-96 | the distinct values appear in the order of their first occurrence |
| `Records.ObjectNamesAreNames` | voc2yolo.py:11-12 | a name is collected iff some object of the annotation carries it |
| `Records.AddObjectNames` | voc2yolo.py:11-12 | the loop adds exactly the object names to the set |
| `Records.FindLabel` | yolo2voc.py:68-70 | a label file is found iff the listing has one with that name (the same lookup serves yolo2coco.py:59) |
| `Records.FindXml` | voc2coco.py:76-77 | an `.xml` is found iff `Annotations` lists it (the same lookup serves voc2yolo.py:35-36) |
| `YoloToVoc.SplitClassesAreFirstTokens` | yolo2voc.py:14-31 | a class is collected iff it is the first field of a non-empty line of a `.txt` file in the `labels` directory of an existing split |
| `YoloToVoc.AddLineClasses` | yolo2voc.py:28-31 | the line loop adds the first fields of the non-empty lines |
| `YoloToVoc.AddFileClasses` | yolo2voc.py:24-31 | the file loop adds the classes of the `.txt` files only |
| `YoloToVoc.CollectClasses` | yolo2voc.py:14-34 | `classes.txt` is strictly sorted and holds exactly the collected first fields |
| `YoloToVoc.ConvertLines` | yolo2voc.py:102-118 | the line loop computes `Objects`: a lemma-specified fold over the lines |
| `YoloToVoc.ObjectsOkIffAcceptedLinesParse` | yolo2voc.py:104-112 | a label file converts iff `float()` succeeds on fields 1-4 of every line with five fields or more |
| `YoloToVoc.ObjectsFollowAcceptedLines` | yolo2voc.py:102-131 | one object per accepted line, in order, with no gate; its name is the raw class field; its corners are the clamped conversion, inside the image |
| `YoloToVoc.ConvertSplit` | yolo2voc.py:53-140 | the image loop computes `ConvertedSplit` |
| `YoloToVoc.ConvertedSplitOkIff` | yolo2voc.py:68-112 | a split converts iff the label file of every image that gets an XML parses |
| `YoloToVoc.SplitListsEveryImage` | yolo2voc.py:54-65 | every file with an image extension, case-insensitive, is copied and listed by its stem, in listing order, labelled or not |
| `YoloToVoc.XmlExactlyForLabelledReadableImages` | yolo2voc.py:68-140 | an XML is written exactly for image files with a label file and a decodable image, in order; it holds that file's name, size and objects |
| `YoloToVoc.ConvertsExactlyPresentSplits` | yolo2voc.py:41-50 | a split is converted iff it and its `images` and `labels` exist; the others are skipped |
| `YoloToVoc.Convert` | yolo2voc.py:13-50 | the run's classes are sorted and hold the collected classes; its splits are the converted splits, and its error is theirs |
| `VocToCoco.Folder` | voc2coco.py:58 | `train2014` exactly for `train`; every other split goes to `val2014` |
| `VocToCoco.XmlNamesAreObjectNames` | voc2coco.py:17-24 | a category is collected iff it names an object of a `.xml` file of `Annotations` |
| `VocToCoco.CollectCategories` | voc2coco.py:17-27 | the categories are strictly sorted and exactly the collected names |
| `VocToCoco.CatIdMapPositions` | voc2coco.py:27 | the map's keys are the names, and the i-th name maps to i + 1 |
| `VocToCoco.CatIdMapIsRank` | voc2coco.py:27 | `cat_id_map` maps the sorted names one-to-one onto `1..N`, preserving order |
| `VocToCoco.FindJpeg` | voc2coco.py:53-55 | a `.jpg` is found iff `JPEGImages` lists it |
| `VocToCoco.AddObjects` | voc2coco.py:81-110 | the object loop computes the fold of `AddObject`: round, clamp, gate, then `cat_id_map` and the next `ann_id` |
| `VocToCoco.ObjectsOkIff` | voc2coco.py:84-105 | an object loop converts iff `float()` accepts every `bndbox` field and every object that passes the gate has its name in `cat_id_map` |
| `VocToCoco.ObjectsFollowKept` | voc2coco.py:81-110 | the annotations appended are the objects whose clamped box passes the gate, in XML order: the k-th has id `ann_id + k`, the image's id, `cat_id_map[name]`, bbox `[xmin, ymin, xmax-xmin, ymax-ymin]` of its clamped corners and their product as area; nothing before them changes |
| `VocToCoco.KeptObjectsInsideImage` | voc2coco.py:90-97 | every object kept has a box inside the image with positive extent |
| `VocToCoco.ConvertSplit` | voc2coco.py:50-110 | the image loop computes `ConvertedSplit` |
| `VocToCoco.AddImageAnnotations` | voc2coco.py:51-110 | a list line appends the annotations of its `.xml`'s kept objects, when its `.jpg` exists and is read, numbered on from `ann_id`, with the line's position as `image_id` |
| `VocToCoco.LastLineAnnotations` | voc2coco.py:50-110 | the last line of a converted split keeps the annotations of the lines before it and appends those of its own kept objects, numbered on from `ann_id` |
| `VocToCoco.AnnotatesPlacedAppend` | voc2coco.py:81-110 | annotating more objects after the earlier ones extends the ordered annotation list, ids running on |
| `VocToCoco.LastLineFollowsObjects` | voc2coco.py:50-110 | if the lines before the last are annotated in order, so is the whole split list |
| `VocToCoco.LastLineImages` | voc2coco.py:51-73 | the last line of a converted split adds an image record, with its position as id, iff its `.jpg` exists, and keeps the records before it |
| `VocToCoco.SplitAnnotationsFollowObjects` | voc2coco.py:50-110 | a split's annotations are its kept objects in list and XML order: the k-th has id k, its line's position as `image_id`, `cat_id_map[name]` and its clamped box; `ann_id` ends at their count |
| `VocToCoco.SplitPosition` | voc2coco.py:51 | the image loop moves `img_id` on once per list line |
| `VocToCoco.ObjectsKeepImages` | voc2coco.py:81-110 | the object loop changes only the annotations and `ann_id` |
| `VocToCoco.AddImageRecords` | voc2coco.py:51-73 | each list line moves the position on; an image is recorded, with the position as id and its size, iff its `.jpg` exists |
| `VocToCoco.ImagesArePositions` | voc2coco.py:51-73 | image ids are positions in the split list, strictly increasing, each naming its `.jpg` and its size |
| `VocToCoco.ImageRecordedIffJpeg` | voc2coco.py:53-55 | the line at position i is recorded iff its `.jpg` exists, so missing files leave gaps in the ids |
| `VocToCoco.SplitAnnotationsWellFormed` | voc2coco.py:81-110 | annotation ids are exactly `0..k-1`; boxes have positive size and lie inside their image record; area is width × height; categories are in `1..N`; no KeyError when the map covers the `.xml` names |
| `VocToCoco.ConvertedSplitsWellFormed` | voc2coco.py:27-110 | with the collected categories, every file written lists `cat_id_map`'s items with well-formed annotations, and the run never raises KeyError |
| `VocToCoco.WritesGoToSplitFolders` | voc2coco.py:32-114 | in the corrected split loop, each listed split is written, in order, to the instances file of its own folder, with records from that split alone |
| `VocToCoco.WritesFollowObjects` | voc2coco.py:32-114 | in every instances file written, the annotations are the kept objects of that split's list, in order, ids from 0, with the line's position, `cat_id_map[name]` and the clamped box |
| `VocToCoco.TestOverwritesVal` | voc2coco.py:58-114 | in the corrected split loop, `test` shares `val2014` with `val` and is written after it, so the file left under `val2014` holds test's records (the script does the same whenever test copies an image, by `ConvertedSplitsAsWrittenWhenSplitsCopy`) |
| `VocToCoco.Convert` | voc2coco.py:17-114 | the categories are sorted and exactly the collected names; the result is the corrected split loop `ConvertedSplits` for them, which is the script's own result whenever every listed split copies an image |
| `VocToCoco.AddImageFolder` | voc2coco.py:53-58 | `dst_folder` on entry to a line changes nothing but what the line leaves in it when its `.jpg` is missing |
| `VocToCoco.AddImageSetsFolder` | voc2coco.py:58 | a line whose `.jpg` exists leaves the split's folder in `dst_folder`; any other line leaves it as it was |
| `VocToCoco.SplitFolder` | voc2coco.py:50-110 | a split's records and errors do not depend on `dst_folder` on entry; on exit it holds the split's folder once an image was copied, else its value on entry |
| `VocToCoco.AsWrittenAgreesWhenSplitsCopy` | voc2coco.py:32-114 | when every listed split copies some image, the script's split loop and the corrected one fail alike or write the same files |
| `VocToCoco.ConvertedSplitsAsWrittenWhenSplitsCopy` | voc2coco.py:32-114 | on such datasets the script's run equals `ConvertedSplits`: same success, same error, same files |
| `VocToCoco.OverwriteExampleAsWritten` | voc2coco.py:58-114 | on the two-split example, the as-written loop writes val's empty records under `train2014` |
| `VocToCoco.OverwriteExampleCorrected` | voc2coco.py:58-114 | on the same example, the corrected loop writes val's records under `val2014` |
| `VocToCoco.AsWrittenEmptySplitOverwritesPrevious` | voc2coco.py:58-114 | as written, the file left under `train2014` is val's empty one; corrected, it holds train's records and `val2014` holds val's |
| `VocToCoco.AsWrittenFirstSplitWithoutImagesFails` | voc2coco.py:58-114 | as written, a first split with no existing image raises UnboundLocalError; corrected, it writes empty records to `train2014` |
| `YoloToCoco.CategoriesEnumerate` | yolo2coco.py:28-29 | the categories are `class_names` in order, with ids `0..N-1` |
| `YoloToCoco.ConvertLines` | yolo2coco.py:59-93 | the line loop computes the fold of `AddLine` over the label file |
| `YoloToCoco.LinesOkIffAcceptedLinesParse` | yolo2coco.py:62-71 | a label file converts iff `int()` and `float()` succeed on every line of exactly five fields |
| `YoloToCoco.LinesFollowAcceptedLines` | yolo2coco.py:62-93 | each five-field line yields one annotation for the current image, numbered on from `annotation_id`; nothing else changes |
| `YoloToCoco.AcceptedLinesAreLines` | yolo2coco.py:61-64 | the accepted lines are lines of the file with five fields |
| `YoloToCoco.LineAnnotationFields` | yolo2coco.py:67-89 | the category is the class field verbatim; bbox is the rounded absolute box; area is `(w·W)·(h·H)` unrounded |
| `YoloToCoco.AreaIsNotRoundedProduct` | yolo2coco.py:74-89 | an annotation whose area (0.5) differs from the product of its rounded bbox sides (0) |
| `YoloToCoco.NoClampExample` | yolo2coco.py:74-87 | a box crossing the left edge keeps its negative `x`, and a class id outside `class_names` is kept |
| `YoloToCoco.ConvertImage` | yolo2coco.py:41-99 | the loop body computes `AddImage` |
| `YoloToCoco.ConvertSplit` | yolo2coco.py:32-99 | the image loop computes `ConvertedSplit` |
| `YoloToCoco.AddImageOkIff` | yolo2coco.py:46-71 | an image converts iff PIL opens it and, when it has a label file, that file parses |
| `YoloToCoco.SplitOkIff` | yolo2coco.py:39-99 | a split converts iff every listed file converts |
| `YoloToCoco.AddImageAppends` | yolo2coco.py:50-99 | an image appends its record with id `image_id` and its copy, and moves `image_id` on by one |
| `YoloToCoco.ImagesFollowListing` | yolo2coco.py:32-99 | the k-th listed file, labelled or not, is the image with id k + 1 and is copied; `image_id` is one past the count |
| `YoloToCoco.FromLabelLineKept` | yolo2coco.py:56 | appending image records keeps each annotation's source image |
| `YoloToCoco.LinesKeepWellFormed` | yolo2coco.py:59-93 | the lines of the newest image keep annotation ids consecutive from 1, each naming that image and coming from a line of its label file |
| `YoloToCoco.AppendedAnnotationsKeep` | yolo2coco.py:86-93 | annotations appended for the newest image, numbered on and from its label file, keep ids consecutive, image ids in order and every source |
| `YoloToCoco.AddImageKeepsWellFormed` | yolo2coco.py:41-99 | each image keeps the split well formed; the only errors are an unreadable image and ValueError |
| `YoloToCoco.LinesErrorIsValueError` | yolo2coco.py:67-71 | the line loop fails only with ValueError |
| `YoloToCoco.SplitWellFormedResult` | yolo2coco.py:32-99 | ids count from 1 in both lists; each annotation's `image_id` is the image appended just before it and comes from that image's label file |
| `YoloToCoco.Convert` | yolo2coco.py:22-105 | the run computes `ConvertedSplits` |
| `YoloToCoco.ConvertsIff` | yolo2coco.py:22-99 | the run converts iff every split has an `images` directory and every file listed there converts |
| `YoloToCoco.WritesPerSplit` | yolo2coco.py:22-105 | the k-th file written is `instances_<split>2014.json` of the k-th split, with every class and that split's records |
| `YoloToCoco.WritesWellFormed` | yolo2coco.py:32-105 | in every file written, the k-th image is the k-th listed file with id k + 1; every file is copied; annotations are numbered from 1 and come from their image's label file |
| `CocoToVoc.ConvertObjects` | coco2voc.py:50-80 | the join loop computes `Objects` |
| `CocoToVoc.ObjectsOkIff` | coco2voc.py:50-70 | an image's objects convert iff every annotation that joins it has a known category; otherwise KeyError |
| `CocoToVoc.ObjectsFollowJoined` | coco2voc.py:50-80 | the objects are the joined annotations in list order, named by the map, with clamped corners |
| `CocoToVoc.JoinedAreJoins` | coco2voc.py:50-67 | an annotation is joined iff it names the image and passes the drop gate |
| `CocoToVoc.ObjectsInsideImage` | coco2voc.py:60-67 | every object written has `0 <= xmin < xmax <= W` and `0 <= ymin < ymax <= H` |
| `CocoToVoc.ConvertSplit` | coco2voc.py:32-88 | the image loop computes `ConvertedSplit` |
| `CocoToVoc.SplitOkIff` | coco2voc.py:33-70 | a split converts iff every image file exists and every joined category is known |
| `CocoToVoc.SplitListsEveryImage` | coco2voc.py:32-91 | each image of the JSON, in order, is copied, listed by its stem, and written to `<stem>.xml` with its JSON size and joined objects |
| `CocoToVoc.UpdateCategories` | coco2voc.py:29 | the dict update assigns the categories in list order |
| `CocoToVoc.RunCategories` | coco2voc.py:19-29 | after both splits, the map is train's categories updated with val's |
| `CocoToVoc.LaterSplitOverrides` | coco2voc.py:19-29 | an id takes val's last name for it when val has it, else train's |
| `CocoToVoc.SplitsUseMergedMap` | coco2voc.py:20-70 | train is converted with train's categories and val with the merged map; the outputs are the splits with an instances file, in order |
| `CocoToVoc.ClassesInFirstOccurrenceOrder` | coco2voc.py:94-96 | `classes.txt` lists each name of the map once, in the order of its first occurrence among the map's values |
| `CocoToVoc.Convert` | coco2voc.py:19-97 | the run computes `Converted` |
| `VocToYolo.AllNamesAreObjectNames` | voc2yolo.py:8-12 | a class is collected iff some object of some file of `Annotations` carries it |
| `VocToYolo.CollectClasses` | voc2yolo.py:8-13 | the class list is strictly sorted and holds exactly the collected names |
| `VocToYolo.ClassListUnique` | voc2yolo.py:13 | any two lists the class loop can produce are equal |
| `VocToYolo.ConvertObjects` | voc2yolo.py:42-56 | the object loop computes `Lines` |
| `VocToYolo.LinesOkIff` | voc2yolo.py:43-55 | objects convert iff every name is a class, every corner parses, and, when there is an object, neither side is 0 |
| `VocToYolo.LinesFollowObjects` | voc2yolo.py:42-56 | one line per object, in XML order, with no clamping or dropping: the class id is the name's index and the box is the normalized centre and size |
| `VocToYolo.ClassIdIsRank` | voc2yolo.py:45 | a line's class id is the number of classes sorting before its name |
| `VocToYolo.ConvertImage` | voc2yolo.py:28-56 | the loop body computes `AddImage` |
| `VocToYolo.ConvertSplit` | voc2yolo.py:24-56 | the image loop computes `ConvertedSplit` |
| `VocToYolo.SplitOkIff` | voc2yolo.py:28-56 | a split converts iff every listed name has its `.jpg` and `.xml`, integer sizes and converting objects; there is no skip path |
| `VocToYolo.SplitListsEveryImage` | voc2yolo.py:28-56 | each listed name, in order, has its image copied and a label file holding its objects' lines |
| `VocToYolo.Convert` | voc2yolo.py:8-56 | the class list is sorted and holds exactly the collected names; the result is `ConvertedSplits` for it |
| `VocToYolo.ConvertsIff` | voc2yolo.py:24-32 | the run converts iff all three list files exist and every name they list converts |
| `VocToYolo.ObjectNamesAreClasses` | voc2yolo.py:45 | with the collected class list, `list.index` never raises for an object of an annotation file |
| `VocToYolo.LinesOkWithClassList` | voc2yolo.py:43-55 | with that class list, an annotation converts iff its corners parse and, when it has an object, neither side is 0 |
| `VocToYolo.OutputsPerSplit` | voc2yolo.py:24-56 | the k-th output is the k-th split's, in the order train, val, test |
| `CocoToYolo.SortedIdsAreCategoryIds` | coco2yolo.py:16 | the sorted ids are strictly increasing and are exactly the category ids of the file |
| `CocoToYolo.NamesOfPositions` | coco2yolo.py:16 | the i-th name looked up is the dict's value for the i-th id |
| `CocoToYolo.ClassListByAscendingId` | coco2yolo.py:15-16 | line i of `classes.txt` is the name of the i-th smallest train category id, as the last train entry for that id gives it |
| `CocoToYolo.ClassIdIsDenseRank` | coco2yolo.py:34 | the index is defined exactly for the file's category ids, lies in `0..N-1`, and preserves the order of the ids |
| `CocoToYolo.ClassIdsAreDense` | coco2yolo.py:34 | every position of the sorted ids is the index of the id there |
| `CocoToYolo.ConvertAnnotations` | coco2yolo.py:26-40 | the annotation loop computes `Lines` |
| `CocoToYolo.LinesOkIff` | coco2yolo.py:33-39 | an image's lines convert iff each annotation names one of the split's categories and, when there is one, neither side is 0 |
| `CocoToYolo.LinesFollowAnnotations` | coco2yolo.py:26-40 | one line per annotation of the image, in list order, with no dropping: the class id is the index of the category; yolo2coco's unrounded conversion maps the box back to `bbox` |
| `CocoToYolo.ConvertSplit` | coco2yolo.py:22-40 | the image loop computes `ConvertedSplit` |
| `CocoToYolo.LabelsFollowImages` | coco2yolo.py:24-40 | one label file per image of the JSON, in order, named by its stem, empty when it has no annotations |
| `CocoToYolo.SplitOkIff` | coco2yolo.py:24-40 | a split converts iff every image's lines convert |
| `CocoToYolo.TrainExampleClasses` | coco2yolo.py:15-16 | for train categories 1 "a" and 2 "b", `classes.txt` has two lines, "a" first |
| `CocoToYolo.ValExampleIds` | coco2yolo.py:22-34 | for val category 2 alone, the sorted ids are `[2]` |
| `CocoToYolo.ClassIdUsesCurrentSplit` | coco2yolo.py:22-34 | the index is taken among the current split's ids: a val annotation of category 2 gets class 0, while line 0 of `classes.txt` is "a" |
| `CocoToYolo.Convert` | coco2yolo.py:15-40 | the run computes `Converted` |
| `CocoToYolo.ConvertedSplits` | coco2yolo.py:9-22 | the run converts iff both instances files exist and both splits convert; the outputs are `train` then `val`, with train's class list |

## Left out

- Filesystem: `os.makedirs`, `shutil.copy` and file writes are left out. The copies and files are output records. Listings and existence checks are inputs.
- Serialisation: XML building, pretty-printing, `json.load` and `json.dump` are left out. So are the constant fields (`info`, `licenses`, `license`, `iscrowd`, `supercategory`) and the VOC boilerplate (`folder`, `source`, `owner`, `segmented`, `depth`, `pose`, `truncated`, `difficult`).
- Text parsing: `strip().split()`, `float()` and `int()` are given as parsed fields. IEEE-754 rounding and the `:.6f` formatting of the YOLO writers are not modelled; values are exact.
- Malformed documents: `ET.parse` errors, a missing XML element (`find()` returning None) and a JSON key missing from a record are not modelled.
- `VocToCoco.Convert`: the run is the corrected split loop, in which each split's instances file is named by its own folder. The script reads `dst_folder` after the image loop (voc2coco.py:58,113); the two agree whenever every listed split copies an image (`VocToCoco.ConvertedSplitsAsWrittenWhenSplitsCopy`), and where they differ is the one row under "## Findings". The script's own loop is `VocToCoco.ConvertedSplitsAsWritten`.
- `Paths.Stem`: models POSIX `os.path.splitext` (`/` as the only separator); the Windows variant with `\` and drive letters is not modelled.
- Case: `Paths.Lower` folds ASCII letters only; `str.lower()` on other characters is not modelled.
- Image decoding: `cv2.imread` and PIL report sizes given as inputs.
- pycocotools: `COCO()` is not modelled, and neither is its progress output.
- `CocoToYolo.ConvertedSplit` iterates the `images` list in order, one label file per entry. It does not model `coco.imgs` keeping one entry per duplicate image id, nor `getAnnIds` keying annotations by id.
- Partial output: files written before an exception are not part of an `Err` result.
- `tqdm`, `print`, `input()` and the `__main__` blocks are left out.
- `CocoToYolo.TrainExampleClasses` states only the length and the first line of `classes.txt` for its example, which is the part `ClassIdUsesCurrentSplit` needs.

## Findings

| source | as written | input that shows it | evidently intended | confidence | as-written member | corrected member |
|---|---|---|---|---|---|---|
| voc2coco.py:58-114 | `dst_folder` is assigned only inside the image loop when a `.jpg` exists, and read after the loop to name the instances file. A split none of whose listed images exists reuses the previous split's folder. If it is the first split with a list, the name is unbound and the write raises UnboundLocalError. | `train` lists `a` (with `a.jpg`), `val` lists `b` (no `b.jpg`): val's empty records overwrite `instances_train2014.json`. `train` alone listing `a` with no `.jpg` raises UnboundLocalError. | each split's records go to `instances_<Folder(split)>.json`, whatever its images | high, not executed | `VocToCoco.OverwriteExampleAsWritten`, `VocToCoco.AsWrittenEmptySplitOverwritesPrevious`, `VocToCoco.AsWrittenFirstSplitWithoutImagesFails` | `VocToCoco.WritesGoToSplitFolders`, `VocToCoco.OverwriteExampleCorrected` |
