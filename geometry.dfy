/** The three box encodings and the conversions the scripts perform between
    them. Pixel values are integers, normalized values exact reals. */
module Geometry {
  import opened Common
  import opened Rounding

  /** A VOC `bndbox`: pixel corners. */
  datatype Corners = Corners(xmin: int, ymin: int, xmax: int, ymax: int)

  /** VOC corners as read from XML text, before rounding. */
  datatype RealCorners = RealCorners(xmin: real, ymin: real, xmax: real, ymax: real)

  /** A COCO `bbox` written with integers: top-left corner, width, height. */
  datatype PixelBox = PixelBox(x: int, y: int, w: int, h: int)

  /** A COCO `bbox` as a JSON array of numbers, or before rounding. */
  datatype RealBox = RealBox(x: real, y: real, w: real, h: real)

  /** A YOLO box: centre and size as fractions of the image sides. */
  datatype NormBox = NormBox(xc: real, yc: real, bw: real, bh: real)

  /** The drop gate `xmin >= xmax or ymin >= ymax`. */
  predicate Degenerate(c: Corners)
  {
    c.xmin >= c.xmax || c.ymin >= c.ymax
  }

  /** A box with positive extent lying within the image. */
  predicate InsideImage(c: Corners, s: Size)
  {
    0 <= c.xmin < c.xmax <= s.width && 0 <= c.ymin < c.ymax <= s.height
  }

  function RealOfCorners(c: Corners): RealCorners
  {
    RealCorners(c.xmin as real, c.ymin as real, c.xmax as real, c.ymax as real)
  }

  function RealOfPixelBox(b: PixelBox): RealBox
  {
    RealBox(b.x as real, b.y as real, b.w as real, b.h as real)
  }

  /** yolo2voc: normalized centre/size to pixel corners, each rounded, the
      minima clamped below by 0 and the maxima above by the image side. */
  function YoloToVocCorners(b: NormBox, s: Size): (c: Corners)
    ensures 0 <= c.xmin && 0 <= c.ymin && c.xmax <= s.width && c.ymax <= s.height
  {
    var r := ScaledCorners(b, s);
    Corners(Max(0, Round(r.xmin)), Max(0, Round(r.ymin)), Min(s.width, Round(r.xmax)), Min(s.height, Round(r.ymax)))
  }

  /** The corners of a normalized box, scaled by the image sides. */
  function ScaledCorners(b: NormBox, s: Size): RealCorners
  {
    RealCorners((b.xc - b.bw / 2.0) * s.width as real, (b.yc - b.bh / 2.0) * s.height as real,
                (b.xc + b.bw / 2.0) * s.width as real, (b.yc + b.bh / 2.0) * s.height as real)
  }

  /** voc2coco: corners rounded, then clamped with the asymmetric bounds
      [0, side - 1] for the minima and [0, side] for the maxima. */
  function VocClampedCorners(r: RealCorners, s: Size): (c: Corners)
    ensures 0 <= c.xmin && 0 <= c.ymin && 0 <= c.xmax && 0 <= c.ymax
    ensures s.width >= 1 ==> c.xmin <= s.width - 1 && c.xmax <= s.width
    ensures s.height >= 1 ==> c.ymin <= s.height - 1 && c.ymax <= s.height
    ensures !Degenerate(c) ==> InsideImage(c, s)
  {
    Corners(Max(0, Min(Round(r.xmin), s.width - 1)),
            Max(0, Min(Round(r.ymin), s.height - 1)),
            Max(0, Min(Round(r.xmax), s.width)),
            Max(0, Min(Round(r.ymax), s.height)))
  }

  /** coco2voc: `[x, y, w, h]` to corners, each rounded, the minima clamped
      below by 0 and the maxima above by the image side. */
  function CocoToVocCorners(b: RealBox, s: Size): (c: Corners)
    ensures 0 <= c.xmin && 0 <= c.ymin && c.xmax <= s.width && c.ymax <= s.height
    ensures !Degenerate(c) <==> InsideImage(c, s)
  {
    Corners(Max(0, Round(b.x)), Max(0, Round(b.y)),
            Min(s.width, Round(b.x + b.w)), Min(s.height, Round(b.y + b.h)))
  }

  /** voc2coco: corners to `[xmin, ymin, width, height]`. */
  function CornersToPixelBox(c: Corners): (b: PixelBox)
    ensures PixelBoxToCorners(b) == c
    ensures !Degenerate(c) <==> b.w > 0 && b.h > 0
  {
    PixelBox(c.xmin, c.ymin, c.xmax - c.xmin, c.ymax - c.ymin)
  }

  function PixelBoxToCorners(b: PixelBox): Corners
  {
    Corners(b.x, b.y, b.x + b.w, b.y + b.h)
  }

  /** yolo2coco: normalized centre/size to the unrounded `abs_x, abs_y,
      abs_w, abs_h`. */
  function YoloToCocoAbsolute(n: NormBox, s: Size): RealBox
  {
    RealBox((n.xc - n.bw / 2.0) * s.width as real, (n.yc - n.bh / 2.0) * s.height as real,
            n.bw * s.width as real, n.bh * s.height as real)
  }

  /** yolo2coco: each field of the absolute box rounded. */
  function RoundBox(r: RealBox): PixelBox
  {
    PixelBox(Round(r.x), Round(r.y), Round(r.w), Round(r.h))
  }

  /** voc2yolo: corners to normalized centre/size. */
  function VocToYoloBox(c: RealCorners, w: int, h: int): NormBox
    requires w != 0 && h != 0
  {
    NormBox((c.xmin + c.xmax) / 2.0 / w as real, (c.ymin + c.ymax) / 2.0 / h as real,
            (c.xmax - c.xmin) / w as real, (c.ymax - c.ymin) / h as real)
  }

  /** In exact arithmetic the centre minus and plus half the size gives back
      the corners divided by the side: voc2yolo undoes yolo2voc's formula
      before its rounding. */
  lemma VocToYoloInvertsCorners(c: RealCorners, w: int, h: int)
    requires w != 0 && h != 0
    ensures var n := VocToYoloBox(c, w, h);
      && n.xc - n.bw / 2.0 == c.xmin / w as real && n.xc + n.bw / 2.0 == c.xmax / w as real
      && n.yc - n.bh / 2.0 == c.ymin / h as real && n.yc + n.bh / 2.0 == c.ymax / h as real
  {
  }

  /** coco2yolo: `[x, y, w, h]` to normalized centre/size; it undoes
      yolo2coco's unrounded conversion exactly. */
  function CocoToYoloBox(b: RealBox, w: int, h: int): (n: NormBox)
    requires w != 0 && h != 0
    ensures YoloToCocoAbsolute(n, Size(w, h)) == b
  {
    NormBox((b.x + b.w / 2.0) / w as real, (b.y + b.h / 2.0) / h as real,
            b.w / w as real, b.h / h as real)
  }

  /** yolo2coco's unrounded conversion followed by coco2yolo's is the identity. */
  lemma YoloCocoYoloIdentity(n: NormBox, s: Size)
    requires s.width != 0 && s.height != 0
    ensures CocoToYoloBox(YoloToCocoAbsolute(n, s), s.width, s.height) == n
  {
    var w := s.width as real;
    var h := s.height as real;
    calc {
      (n.xc - n.bw / 2.0) * w + n.bw * w / 2.0;
      n.xc * w;
    }
    assert ((n.xc - n.bw / 2.0) * w + n.bw * w / 2.0) / w == n.xc;
    assert ((n.yc - n.bh / 2.0) * h + n.bh * h / 2.0) / h == n.yc;
  }

  /** Normalizing a box that lies within the image gives values in [0, 1]. */
  lemma VocToYoloInUnitRange(c: RealCorners, w: int, h: int)
    requires 0 < w && 0 < h
    requires 0.0 <= c.xmin <= c.xmax <= w as real && 0.0 <= c.ymin <= c.ymax <= h as real
    ensures var n := VocToYoloBox(c, w, h);
      && 0.0 <= n.xc <= 1.0 && 0.0 <= n.yc <= 1.0
      && 0.0 <= n.bw <= 1.0 && 0.0 <= n.bh <= 1.0
  {
    var n := VocToYoloBox(c, w, h);
    DivideWithin((c.xmin + c.xmax) / 2.0, w as real);
    DivideWithin((c.ymin + c.ymax) / 2.0, h as real);
    DivideWithin(c.xmax - c.xmin, w as real);
    DivideWithin(c.ymax - c.ymin, h as real);
  }

  lemma DivideThenMultiply(a: real, d: real)
    requires d != 0.0
    ensures a / d * d == a
  {
  }

  lemma DivideWithin(a: real, d: real)
    requires 0.0 < d && 0.0 <= a <= d
    ensures 0.0 <= a / d <= 1.0
  {
  }

  /** VOC to YOLO and back (voc2yolo then yolo2voc) gives back every integer
      box that lies within the image, exactly. */
  lemma VocYoloVocRoundTrip(c: Corners, s: Size)
    requires 0 < s.width && 0 < s.height
    requires 0 <= c.xmin <= c.xmax <= s.width && 0 <= c.ymin <= c.ymax <= s.height
    ensures YoloToVocCorners(VocToYoloBox(RealOfCorners(c), s.width, s.height), s) == c
  {
    var n := VocToYoloBox(RealOfCorners(c), s.width, s.height);
    VocToYoloScaledBack(c, s, n);
    YoloToVocOfExactCorners(n, s, c);
  }

  /** Scaling voc2yolo's centre -/+ half size back by the side gives the corners. */
  lemma VocToYoloScaledBack(c: Corners, s: Size, n: NormBox)
    requires 0 < s.width && 0 < s.height
    requires n == VocToYoloBox(RealOfCorners(c), s.width, s.height)
    ensures ScaledCorners(n, s) == RealOfCorners(c)
  {
    VocToYoloInvertsCorners(RealOfCorners(c), s.width, s.height);
    DivideThenMultiply(c.xmin as real, s.width as real);
    DivideThenMultiply(c.xmax as real, s.width as real);
    DivideThenMultiply(c.ymin as real, s.height as real);
    DivideThenMultiply(c.ymax as real, s.height as real);
  }

  /** yolo2voc's conversion of a box whose scaled corners are integers
      within the image yields exactly those integers. */
  lemma YoloToVocOfExactCorners(n: NormBox, s: Size, c: Corners)
    requires 0 <= c.xmin && 0 <= c.ymin && c.xmax <= s.width && c.ymax <= s.height
    requires ScaledCorners(n, s) == RealOfCorners(c)
    ensures YoloToVocCorners(n, s) == c
  {
    ClampOfExactCorners(ScaledCorners(n, s), s, c);
  }

  /** Rounding and clamping corners that are already integers within the
      image leaves them unchanged. */
  lemma ClampOfExactCorners(r: RealCorners, s: Size, c: Corners)
    requires 0 <= c.xmin && 0 <= c.ymin && c.xmax <= s.width && c.ymax <= s.height
    requires r == RealOfCorners(c)
    ensures Corners(Max(0, Round(r.xmin)), Max(0, Round(r.ymin)), Min(s.width, Round(r.xmax)), Min(s.height, Round(r.ymax))) == c
  {
    RoundOfInteger(c.xmin);
    RoundOfInteger(c.ymin);
    RoundOfInteger(c.xmax);
    RoundOfInteger(c.ymax);
  }

  /** COCO to YOLO and back (coco2yolo then yolo2coco) gives back every
      integer bbox, exactly. */
  lemma CocoYoloCocoRoundTrip(b: PixelBox, s: Size)
    requires s.width != 0 && s.height != 0
    ensures RoundBox(YoloToCocoAbsolute(CocoToYoloBox(RealOfPixelBox(b), s.width, s.height), s)) == b
  {
    RoundOfInteger(b.x);
    RoundOfInteger(b.y);
    RoundOfInteger(b.w);
    RoundOfInteger(b.h);
  }

  /** COCO to VOC and back (coco2voc then voc2coco's corners-to-bbox) gives
      back every integer bbox that lies within the image. */
  lemma CocoVocCocoRoundTrip(b: PixelBox, s: Size)
    requires 0 <= b.x && 0 <= b.y && 0 < b.w && 0 < b.h
    requires b.x + b.w <= s.width && b.y + b.h <= s.height
    ensures var c := CocoToVocCorners(RealOfPixelBox(b), s);
      !Degenerate(c) && CornersToPixelBox(c) == b
  {
    RoundOfInteger(b.x);
    RoundOfInteger(b.y);
    RoundOfInteger(b.x + b.w);
    RoundOfInteger(b.y + b.h);
  }

  /** VOC to COCO (voc2coco's clamp and bbox) keeps every integer box that
      already satisfies the clamp bounds and is not degenerate. */
  lemma VocClampKeepsInteriorBox(c: Corners, s: Size)
    requires 0 <= c.xmin < c.xmax <= s.width && 0 <= c.ymin < c.ymax <= s.height
    ensures VocClampedCorners(RealOfCorners(c), s) == c
  {
    RoundOfInteger(c.xmin);
    RoundOfInteger(c.ymin);
    RoundOfInteger(c.xmax);
    RoundOfInteger(c.ymax);
  }

  /** The worked example: line `0 0.5 0.5 0.2 0.4` on a 100 x 200 image. */
  lemma YoloToVocExample()
    ensures YoloToVocCorners(NormBox(0.5, 0.5, 0.2, 0.4), Size(100, 200)) == Corners(40, 60, 60, 140)
  {
    RoundOfInteger(40);
    RoundOfInteger(60);
    RoundOfInteger(140);
  }
}
