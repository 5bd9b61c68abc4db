/** Properties of the bounding-box algebra. The reference meaning of a box
    is its pair of corners in pixel space (`Corners`): every conversion must
    leave it alone, and every geometric transform is stated by what it does
    to it. */
module BboxLemmas {
  import opened Results
  import opened Numeric
  import opened Bboxes

  // -------------------------------------------------------------------------
  // The reference meaning of a box
  // -------------------------------------------------------------------------

  /** The pixel-space (x1, y1, x2, y2) of one box. */
  function CornersOf(bx: Box, f: Format, normalized: bool, s: ImageSize): Box {
    BoxToXyxy(if normalized then DenormalizeBox(bx, s) else bx, f)
  }

  function Corners(b: BoundingBoxes): (r: seq<Box>)
    ensures |r| == |b.coords|
  {
    seq(|b.coords|, i requires 0 <= i < |b.coords| => CornersOf(b.coords[i], b.format, b.normalized, b.imageSize))
  }

  // -------------------------------------------------------------------------
  // One box
  // -------------------------------------------------------------------------

  /** Every format conversion keeps the corners of a box. */
  lemma BoxConversionKeepsCorners(bx: Box, f: Format, g: Format)
    ensures BoxToXyxy(ConvertBox(bx, f, g), g) == BoxToXyxy(bx, f)
  {
  }

  /** A box is determined by its corners, in every format. */
  lemma BoxToXyxyInjective(p: Box, q: Box, f: Format)
    requires BoxToXyxy(p, f) == BoxToXyxy(q, f)
    ensures p == q
  {
  }

  /** Scaling the axes commutes with every format conversion. */
  lemma ScaleCommutes(bx: Box, f: Format, g: Format, sx: real, sy: real)
    ensures ConvertBox(ScaleBox(bx, sx, sy), f, g) == ScaleBox(ConvertBox(bx, f, g), sx, sy)
  {
    match g
    case XYXY =>
    case XYWH =>
    case CXCYWH =>
  }

  lemma DenormalizeIsScale(bx: Box, s: ImageSize)
    ensures DenormalizeBox(bx, s) == ScaleBox(bx, s.w as real, s.h as real)
  {
  }

  lemma NormalizeIsScale(bx: Box, s: ImageSize)
    ensures NormalizeBox(bx, s) == ScaleBox(bx, 1.0 / s.w as real, 1.0 / s.h as real)
  {
  }

  lemma BoxNormalizeRoundTrip(bx: Box, s: ImageSize)
    ensures DenormalizeBox(NormalizeBox(bx, s), s) == bx
    ensures NormalizeBox(DenormalizeBox(bx, s), s) == bx
  {
  }

  // -------------------------------------------------------------------------
  // Conversions keep the meaning of every box
  // -------------------------------------------------------------------------

  /** `to_xyxy`, `to_xywh` and `to_cxcywh` never move a box. */
  lemma {:induction false} CornersConvertFormat(b: BoundingBoxes, f: Format)
    ensures Corners(ConvertFormat(b, f)) == Corners(b)
  {
    var r := ConvertFormat(b, f);
    forall i | 0 <= i < |b.coords|
      ensures Corners(r)[i] == Corners(b)[i]
    {
      var bx, s := b.coords[i], b.imageSize;
      DenormalizeIsScale(bx, s);
      DenormalizeIsScale(ConvertBox(bx, b.format, f), s);
      ScaleCommutes(bx, b.format, f, s.w as real, s.h as real);
      BoxConversionKeepsCorners(DenormalizeBox(bx, s), b.format, f);
      BoxConversionKeepsCorners(bx, b.format, f);
    }
  }

  /** `normalize` and `denormalize` never move a box. */
  lemma {:induction false} CornersNormalize(b: BoundingBoxes)
    ensures Corners(Normalize(b)) == Corners(b)
    ensures Corners(Denormalize(b)) == Corners(b)
  {
    forall i | 0 <= i < |b.coords|
      ensures Corners(Normalize(b))[i] == Corners(b)[i]
    {
      BoxNormalizeRoundTrip(b.coords[i], b.imageSize);
    }
  }

  /** `convert` never moves a box, whatever it is asked for. */
  lemma {:induction false} CornersConvert(b: BoundingBoxes, format: Option<Format>, normalized: Option<bool>)
    ensures Corners(Convert(b, format, normalized)) == Corners(b)
  {
    var boxes := if format.Some? then ConvertFormat(b, format.value) else b;
    if format.Some? {
      CornersConvertFormat(b, format.value);
    }
    CornersNormalize(boxes);
  }

  /** A box set is determined by its corners, format, normalisation and
      image size. */
  lemma {:induction false} CornersDetermine(a: BoundingBoxes, b: BoundingBoxes)
    requires a.format == b.format && a.normalized == b.normalized && a.imageSize == b.imageSize
    requires Corners(a) == Corners(b)
    ensures a == b
  {
    assert |a.coords| == |b.coords| by {
      assert |Corners(a)| == |Corners(b)|;
    }
    forall i | 0 <= i < |a.coords|
      ensures a.coords[i] == b.coords[i]
    {
      var p, q, s := a.coords[i], b.coords[i], a.imageSize;
      assert Corners(a)[i] == Corners(b)[i];
      if a.normalized {
        BoxToXyxyInjective(DenormalizeBox(p, s), DenormalizeBox(q, s), a.format);
        BoxNormalizeRoundTrip(p, s);
        BoxNormalizeRoundTrip(q, s);
      } else {
        BoxToXyxyInjective(p, q, a.format);
      }
    }
  }

  /** Converting to any format and normalisation and back returns the
      original box set. */
  lemma {:induction false} ConvertRoundTrip(b: BoundingBoxes, format: Option<Format>, normalized: Option<bool>)
    ensures Convert(Convert(b, format, normalized), Some(b.format), Some(b.normalized)) == b
  {
    var there := Convert(b, format, normalized);
    var back := Convert(there, Some(b.format), Some(b.normalized));
    CornersConvert(b, format, normalized);
    CornersConvert(there, Some(b.format), Some(b.normalized));
    CornersDetermine(back, b);
  }

  /** `denormalize` undoes `normalize` and the other way round. */
  lemma {:induction false} NormalizeRoundTrip(b: BoundingBoxes)
    ensures !b.normalized ==> Denormalize(Normalize(b)) == b
    ensures b.normalized ==> Normalize(Denormalize(b)) == b
  {
    var back := if b.normalized then Normalize(Denormalize(b)) else Denormalize(Normalize(b));
    forall i | 0 <= i < |b.coords|
      ensures back.coords[i] == b.coords[i]
    {
      BoxNormalizeRoundTrip(b.coords[i], b.imageSize);
    }
    assert back.coords == b.coords;
  }

  /** `convert_like` and `convert_like` back return the original. */
  lemma ConvertLikeRoundTrip(b: BoundingBoxes, other: BoundingBoxes)
    ensures ConvertLike(ConvertLike(b, other), b) == b
  {
    ConvertRoundTrip(b, Some(other.format), Some(other.normalized));
  }

  // -------------------------------------------------------------------------
  // Transforms, stated on the corners
  // -------------------------------------------------------------------------

  lemma ScaleScale(bx: Box, sx: real, sy: real, tx: real, ty: real)
    ensures ScaleBox(ScaleBox(bx, sx, sy), tx, ty) == ScaleBox(bx, sx * tx, sy * ty)
  {
  }

  lemma MulDivCancel(a: real, b: real)
    requires b != 0.0
    ensures b * (a / b) == a
  {
  }

  lemma DivSelf(a: real)
    requires a != 0.0
    ensures a / a == 1.0
  {
  }

  lemma BoxResizeCorners(bx: Box, f: Format, normalized: bool, s: ImageSize, size: ImageSize)
    requires s != size
    ensures var wr, hr := size.w as real / s.w as real, size.h as real / s.h as real;
      CornersOf(if normalized then bx else ScaleBox(bx, wr, hr), f, normalized, size)
        == ScaleBox(CornersOf(bx, f, normalized, s), wr, hr)
  {
    var wr, hr := size.w as real / s.w as real, size.h as real / s.h as real;
    if normalized {
      var d := DenormalizeBox(bx, s);
      DenormalizeIsScale(bx, s);
      DenormalizeIsScale(bx, size);
      ScaleScale(bx, s.w as real, s.h as real, wr, hr);
      MulDivCancel(size.w as real, s.w as real);
      MulDivCancel(size.h as real, s.h as real);
      assert ScaleBox(d, wr, hr) == DenormalizeBox(bx, size);
      ScaleCommutes(d, f, XYXY, wr, hr);
    } else {
      ScaleCommutes(bx, f, XYXY, wr, hr);
    }
  }

  /** `resize` scales the pixel corners by new size / old size, in both
      normalisation states. */
  lemma {:induction false} ResizeCorners(b: BoundingBoxes, size: ImageSize)
    ensures forall i :: 0 <= i < |b.coords| ==>
      Corners(Resize(b, size))[i]
        == ScaleBox(Corners(b)[i], size.w as real / b.imageSize.w as real, size.h as real / b.imageSize.h as real)
  {
    var r := Resize(b, size);
    var wr, hr := size.w as real / b.imageSize.w as real, size.h as real / b.imageSize.h as real;
    forall i | 0 <= i < |b.coords|
      ensures Corners(r)[i] == ScaleBox(Corners(b)[i], wr, hr)
    {
      if b.imageSize == size {
        DivSelf(size.w as real);
        DivSelf(size.h as real);
      } else {
        BoxResizeCorners(b.coords[i], b.format, b.normalized, b.imageSize, size);
      }
    }
  }

  /** Resizing to another size and back returns the original box set. */
  lemma {:induction false} ResizeRoundTrip(b: BoundingBoxes, size: ImageSize)
    ensures Resize(Resize(b, size), b.imageSize) == b
  {
    var there := Resize(b, size);
    var back := Resize(there, b.imageSize);
    ResizeCorners(b, size);
    ResizeCorners(there, b.imageSize);
    var wr, hr := size.w as real / b.imageSize.w as real, size.h as real / b.imageSize.h as real;
    var wr', hr' := b.imageSize.w as real / size.w as real, b.imageSize.h as real / size.h as real;
    assert wr * wr' == 1.0 && hr * hr' == 1.0;
    forall i | 0 <= i < |b.coords|
      ensures Corners(back)[i] == Corners(b)[i]
    {
      ScaleScale(Corners(b)[i], wr, hr, wr', hr');
    }
    CornersDetermine(back, b);
  }

  /** Flipping twice is the identity. */
  lemma {:induction false} FlipInvolution(b: BoundingBoxes)
    ensures Flipped(Flipped(b)) == b
  {
    var back := Flipped(Flipped(b));
    forall i | 0 <= i < |b.coords|
      ensures back.coords[i] == b.coords[i]
    {
    }
    assert back.coords == b.coords;
  }

  lemma DenormalizeFlip(bx: Box, f: Format, s: ImageSize)
    ensures DenormalizeBox(FlipBox(bx, f, 1.0), s) == FlipBox(DenormalizeBox(bx, s), f, s.w as real)
  {
    var w := s.w as real;
    match f
    case XYXY =>
      assert (1.0 - bx.c2) * w == w - bx.c2 * w;
      assert (1.0 - bx.c0) * w == w - bx.c0 * w;
    case XYWH =>
      assert (1.0 - (bx.c0 + bx.c2)) * w == w - (bx.c0 * w + bx.c2 * w);
    case CXCYWH =>
      assert (1.0 - bx.c0) * w == w - bx.c0 * w;
  }

  lemma BoxFlipCorners(bx: Box, f: Format, normalized: bool, s: ImageSize)
    ensures CornersOf(FlipBox(bx, f, if normalized then 1.0 else s.w as real), f, normalized, s)
         == FlipBox(CornersOf(bx, f, normalized, s), XYXY, s.w as real)
  {
    if normalized {
      DenormalizeFlip(bx, f, s);
    }
  }

  /** `horizontal_flip` mirrors the pixel corners about x = W / 2, whatever
      the format and normalisation. */
  lemma {:induction false} FlipCorners(b: BoundingBoxes)
    ensures forall i :: 0 <= i < |b.coords| ==>
      Corners(Flipped(b))[i] == FlipBox(Corners(b)[i], XYXY, b.imageSize.w as real)
  {
    forall i | 0 <= i < |b.coords|
      ensures Corners(Flipped(b))[i] == FlipBox(Corners(b)[i], XYXY, b.imageSize.w as real)
    {
      BoxFlipCorners(b.coords[i], b.format, b.normalized, b.imageSize);
    }
  }

  /** An XYXY box within [0, W] × [0, H]. */
  predicate InsideBox(x: Box, h: real, w: real) {
    && 0.0 <= x.c0 <= w && 0.0 <= x.c1 <= h
    && 0.0 <= x.c2 <= w && 0.0 <= x.c3 <= h
  }

  /** Every box of the set lies in its image, in pixel space. */
  predicate Inside(b: BoundingBoxes) {
    forall i :: 0 <= i < |b.coords| ==> InsideBox(Corners(b)[i], b.imageSize.h as real, b.imageSize.w as real)
  }

  lemma ScaleClip(c: real, k: real)
    requires k > 0.0
    ensures Clip(c, 0.0, 1.0) * k == Clip(c * k, 0.0, k)
  {
    if c < 0.0 {
      assert c * k < 0.0;
    } else if c > 1.0 {
      assert c * k > k;
    } else {
      assert c * k <= k;
    }
  }

  lemma ClipScaleFields(a: real, b: real, c: real, d: real, w: real, h: real)
    requires w > 0.0 && h > 0.0
    ensures Clip(a, 0.0, 1.0) * w == Clip(a * w, 0.0, w)
    ensures Clip(b, 0.0, 1.0) * h == Clip(b * h, 0.0, h)
    ensures Clip(c, 0.0, 1.0) * w == Clip(c * w, 0.0, w)
    ensures Clip(d, 0.0, 1.0) * h == Clip(d * h, 0.0, h)
  {
    ScaleClip(a, w);
    ScaleClip(b, h);
    ScaleClip(c, w);
    ScaleClip(d, h);
  }

  lemma ScaleOfClip(x: Box, w: real, h: real)
    ensures ScaleBox(ClipBox(x, 1.0, 1.0), w, h)
         == Box(Clip(x.c0, 0.0, 1.0) * w, Clip(x.c1, 0.0, 1.0) * h, Clip(x.c2, 0.0, 1.0) * w, Clip(x.c3, 0.0, 1.0) * h)
  {
  }

  lemma ClipOfScale(x: Box, w: real, h: real)
    ensures ClipBox(ScaleBox(x, w, h), h, w)
         == Box(Clip(x.c0 * w, 0.0, w), Clip(x.c1 * h, 0.0, h), Clip(x.c2 * w, 0.0, w), Clip(x.c3 * h, 0.0, h))
  {
  }

  /** Clipping to the unit square and then scaling equals scaling and then
      clipping to the scaled extent. */
  lemma ScaleBoxClip(x: Box, w: real, h: real)
    requires w > 0.0 && h > 0.0
    ensures ScaleBox(ClipBox(x, 1.0, 1.0), w, h) == ClipBox(ScaleBox(x, w, h), h, w)
  {
    ScaleOfClip(x, w, h);
    ClipOfScale(x, w, h);
    ClipScaleFields(x.c0, x.c1, x.c2, x.c3, w, h);
  }

  lemma DenormalizeClip(x: Box, s: ImageSize)
    ensures DenormalizeBox(ClipBox(x, 1.0, 1.0), s) == ClipBox(DenormalizeBox(x, s), s.h as real, s.w as real)
  {
    DenormalizeIsScale(ClipBox(x, 1.0, 1.0), s);
    DenormalizeIsScale(x, s);
    ScaleBoxClip(x, s.w as real, s.h as real);
  }

  /** `clamp_to_image` clamps the pixel corners to the image, whatever the
      format and normalisation. */
  lemma {:induction false} ClampCorners(b: BoundingBoxes)
    ensures forall i :: 0 <= i < |b.coords| ==>
      Corners(Clamped(b))[i] == ClipBox(Corners(b)[i], b.imageSize.h as real, b.imageSize.w as real)
  {
    var s := b.imageSize;
    var boxes := ToXyxy(b);
    var h, w := ExtentH(boxes), ExtentW(boxes);
    var clipped := seq(|boxes.coords|, i requires 0 <= i < |boxes.coords| => ClipBox(boxes.coords[i], h, w));
    var c := BoundingBoxes(clipped, boxes.format, boxes.normalized, boxes.imageSize);
    assert Clamped(b) == ConvertLike(c, b);
    CornersConvert(c, Some(b.format), Some(b.normalized));
    forall i | 0 <= i < |b.coords|
      ensures Corners(c)[i] == ClipBox(Corners(b)[i], s.h as real, s.w as real)
    {
      var bx := b.coords[i];
      if b.normalized {
        DenormalizeClip(BoxToXyxy(bx, b.format), s);
        DenormalizeIsScale(bx, s);
        DenormalizeIsScale(BoxToXyxy(bx, b.format), s);
        ScaleCommutes(bx, b.format, XYXY, s.w as real, s.h as real);
      }
    }
  }

  /** After `clamp_to_image` every box lies in the image. */
  lemma ClampInside(b: BoundingBoxes)
    ensures Inside(Clamped(b))
  {
    ClampCorners(b);
  }

  /** Clamping boxes that already lie in the image changes nothing. */
  lemma {:induction false} ClampKeepsInside(b: BoundingBoxes)
    requires Inside(b)
    ensures Clamped(b) == b
  {
    ClampCorners(b);
    forall i | 0 <= i < |b.coords|
      ensures Corners(Clamped(b))[i] == Corners(b)[i]
    {
      assert InsideBox(Corners(b)[i], b.imageSize.h as real, b.imageSize.w as real);
    }
    CornersDetermine(Clamped(b), b);
  }

  /** Clamping is idempotent. */
  lemma ClampIdempotent(b: BoundingBoxes)
    ensures Clamped(Clamped(b)) == Clamped(b)
  {
    ClampInside(b);
    ClampKeepsInside(Clamped(b));
  }

  lemma BoxShiftCorners(bx: Box, f: Format, top: int, left: int)
    ensures BoxToXyxy(ShiftBox(bx, f, top, left), f) == ShiftBox(BoxToXyxy(bx, f), XYXY, top, left)
  {
  }

  /** `crop` moves the pixel corners to the crop's origin and clamps them to
      the crop's extent, whatever the format and normalisation. */
  lemma {:induction false} CropCorners(b: BoundingBoxes, top: int, left: int, bottom: int, right: int)
    requires top < bottom && left < right
    ensures forall i :: 0 <= i < |b.coords| ==>
      Corners(Crop(b, top, left, bottom, right))[i]
        == ClipBox(ShiftBox(Corners(b)[i], XYXY, top, left), (bottom - top) as real, (right - left) as real)
  {
    var boxes := Denormalize(b);
    var shifted := seq(|boxes.coords|, i requires 0 <= i < |boxes.coords| =>
                     ShiftBox(boxes.coords[i], boxes.format, top, left));
    var moved := BoundingBoxes(shifted, boxes.format, false, ImageSize(bottom - top, right - left));
    assert Crop(b, top, left, bottom, right) == ConvertLike(Clamped(moved), b);
    CornersConvert(Clamped(moved), Some(b.format), Some(b.normalized));
    ClampCorners(moved);
    CornersNormalize(b);
    forall i | 0 <= i < |b.coords|
      ensures Corners(moved)[i] == ShiftBox(Corners(b)[i], XYXY, top, left)
    {
      assert Corners(boxes)[i] == Corners(b)[i];
      BoxShiftCorners(boxes.coords[i], b.format, top, left);
    }
  }

  /** After `crop` every box lies in the cropped image. */
  lemma CropInside(b: BoundingBoxes, top: int, left: int, bottom: int, right: int)
    requires top < bottom && left < right
    ensures Inside(Crop(b, top, left, bottom, right))
  {
    CropCorners(b, top, left, bottom, right);
  }

  // -------------------------------------------------------------------------
  // Validity
  // -------------------------------------------------------------------------

  lemma ScalePreservesOrder(a: real, b: real, k: real)
    requires k > 0.0
    ensures a <= b <==> a * k <= b * k
  {
    if a <= b {
      assert (b - a) * k >= 0.0;
    } else {
      assert (a - b) * k > 0.0;
    }
  }

  lemma ScaleMinimum(lo: real, a: real, b: real, k: real)
    requires k > 0.0
    ensures lo / k <= b - a <==> lo <= b * k - a * k
  {
    ScalePreservesOrder(lo / k, b - a, k);
    MulDivCancel(lo, k);
    assert (lo / k) * k == lo;
    assert (b - a) * k == b * k - a * k;
  }

  /** One axis of `ValidBox`, before and after scaling by `k`. */
  lemma ValidSpanScale(a: real, b: real, k: real, m: real)
    requires k > 0.0
    ensures ValidSpan(a, b, 1.0, m / k) <==> ValidSpan(a * k, b * k, k, m)
  {
    ScalePreservesOrder(0.0, a, k);
    ScalePreservesOrder(0.0, b, k);
    ScalePreservesOrder(a, 1.0, k);
    ScalePreservesOrder(b, 1.0, k);
    ScaleMinimum(m, a, b, k);
  }

  lemma ValidOfScale(x: Box, w: real, h: real, minWidth: real, minHeight: real)
    ensures ValidBox(ScaleBox(x, w, h), h, w, minWidth, minHeight)
        == (ValidSpan(x.c0 * w, x.c2 * w, w, minWidth) && ValidSpan(x.c1 * h, x.c3 * h, h, minHeight))
  {
    var d := ScaleBox(x, w, h);
    assert d.c0 == x.c0 * w && d.c1 == x.c1 * h && d.c2 == x.c2 * w && d.c3 == x.c3 * h;
    assert ValidBox(d, h, w, minWidth, minHeight)
        == (ValidSpan(d.c0, d.c2, w, minWidth) && ValidSpan(d.c1, d.c3, h, minHeight));
  }

  lemma ValidBoxScale(x: Box, w: real, h: real, minWidth: real, minHeight: real)
    requires w > 0.0 && h > 0.0
    ensures ValidBox(x, 1.0, 1.0, minWidth / w, minHeight / h)
        <==> ValidBox(ScaleBox(x, w, h), h, w, minWidth, minHeight)
  {
    ValidOfScale(x, w, h, minWidth, minHeight);
    ValidSpanScale(x.c0, x.c2, w, minWidth);
    ValidSpanScale(x.c1, x.c3, h, minHeight);
  }

  lemma ValidBoxDenormalize(x: Box, s: ImageSize, minWidth: real, minHeight: real)
    ensures ValidBox(x, 1.0, 1.0, minWidth / s.w as real, minHeight / s.h as real)
        <==> ValidBox(DenormalizeBox(x, s), s.h as real, s.w as real, minWidth, minHeight)
  {
    DenormalizeIsScale(x, s);
    ValidBoxScale(x, s.w as real, s.h as real, minWidth, minHeight);
  }

  /** `is_valid` judges the pixel corners against the image and the pixel
      minimums, whatever the format and normalisation. */
  lemma {:induction false} IsValidCorners(b: BoundingBoxes, minWidth: real, minHeight: real)
    ensures forall i :: 0 <= i < |b.coords| ==>
      IsValid(b, minWidth, minHeight)[i]
        == ValidBox(Corners(b)[i], b.imageSize.h as real, b.imageSize.w as real, minWidth, minHeight)
  {
    var s := b.imageSize;
    forall i | 0 <= i < |b.coords|
      ensures IsValid(b, minWidth, minHeight)[i]
           == ValidBox(Corners(b)[i], s.h as real, s.w as real, minWidth, minHeight)
    {
      var bx := b.coords[i];
      if b.normalized {
        ValidBoxDenormalize(BoxToXyxy(bx, b.format), s, minWidth, minHeight);
        DenormalizeIsScale(bx, s);
        DenormalizeIsScale(BoxToXyxy(bx, b.format), s);
        ScaleCommutes(bx, b.format, XYXY, s.w as real, s.h as real);
      }
    }
  }

  /** Validity does not depend on the format or the normalisation. */
  lemma {:induction false} IsValidConvertInvariant(b: BoundingBoxes, format: Option<Format>, normalized: Option<bool>,
                                                   minWidth: real, minHeight: real)
    ensures IsValid(Convert(b, format, normalized), minWidth, minHeight) == IsValid(b, minWidth, minHeight)
  {
    var c := Convert(b, format, normalized);
    CornersConvert(b, format, normalized);
    IsValidCorners(b, minWidth, minHeight);
    IsValidCorners(c, minWidth, minHeight);
    assert forall i :: 0 <= i < |b.coords| ==> Corners(c)[i] == Corners(b)[i];
  }

  /** Valid boxes lie in the image, so clamping leaves them alone. */
  lemma {:induction false} ValidBoxesUnchangedByClamp(b: BoundingBoxes, minWidth: real, minHeight: real)
    requires forall i :: 0 <= i < |b.coords| ==> IsValid(b, minWidth, minHeight)[i]
    ensures Clamped(b) == b
  {
    IsValidCorners(b, minWidth, minHeight);
    assert Inside(b);
    ClampKeepsInside(b);
  }

  // -------------------------------------------------------------------------
  // Areas, intersections and unions
  // -------------------------------------------------------------------------

  /** The area of a box is its corner width times its corner height, in
      every format. */
  lemma BoxAreaXyxy(bx: Box, f: Format)
    ensures BoxArea(BoxToXyxy(bx, f), XYXY) == BoxArea(bx, f)
  {
    var x := BoxToXyxy(bx, f);
    if f != XYXY {
      assert x.c2 - x.c0 == bx.c2 && x.c3 - x.c1 == bx.c3;
    }
  }

  /** Format conversion does not change areas. */
  lemma {:induction false} AreaConvertFormat(b: BoundingBoxes, f: Format)
    ensures Area(ConvertFormat(b, f)) == Area(b)
  {
    var c := ConvertFormat(b, f);
    forall i | 0 <= i < |b.coords|
      ensures Area(c)[i] == Area(b)[i]
    {
      var bx := b.coords[i];
      BoxConversionKeepsCorners(bx, b.format, f);
      BoxAreaXyxy(ConvertBox(bx, b.format, f), f);
      BoxAreaXyxy(bx, b.format);
    }
  }

  /** Converting to the XYXY format of a set with the same normalisation is
      a plain format conversion. */
  lemma ConvertLikeXyxy(b: BoundingBoxes, a: BoundingBoxes)
    requires a.normalized == b.normalized
    ensures ConvertLike(b, ToXyxy(a)) == ToXyxy(b)
  {
    assert ConvertFormat(b, XYXY) == ToXyxy(b);
  }

  lemma IntersectionBoxCommutes(p: Box, q: Box)
    ensures IntersectionBox(p, q) == IntersectionBox(q, p)
  {
  }

  /** For two sets with the same normalisation, `intersection` succeeds in
      either order and gives the same boxes. */
  lemma {:induction false} IntersectionCommutes(a: BoundingBoxes, b: BoundingBoxes)
    requires a.normalized == b.normalized
    ensures Intersection(a, b).Ok? <==> Intersection(b, a).Ok?
    ensures Intersection(a, b).Ok? ==> Intersection(a, b) == Intersection(b, a)
  {
    ConvertLikeXyxy(b, a);
    ConvertLikeXyxy(a, b);
    if Intersection(a, b).Ok? {
      var r, t := Intersection(a, b).value, Intersection(b, a).value;
      forall i | 0 <= i < |a.coords|
        ensures r.coords[i] == t.coords[i]
      {
        IntersectionBoxCommutes(ToXyxy(a).coords[i], ToXyxy(b).coords[i]);
      }
      assert r.coords == t.coords;
    }
  }

  /** Likewise for `union`. */
  lemma {:induction false} UnionCommutes(a: BoundingBoxes, b: BoundingBoxes)
    requires a.normalized == b.normalized
    ensures Union(a, b).Ok? <==> Union(b, a).Ok?
    ensures Union(a, b).Ok? ==> Union(a, b) == Union(b, a)
  {
    ConvertLikeXyxy(b, a);
    ConvertLikeXyxy(a, b);
    if Union(a, b).Ok? {
      var r, t := Union(a, b).value, Union(b, a).value;
      assert r.coords == t.coords;
    }
  }

  lemma MinScale(x: real, y: real, k: real)
    requires k > 0.0
    ensures Min(x * k, y * k) == Min(x, y) * k
    ensures Max(x * k, y * k) == Max(x, y) * k
  {
    if x <= y {
      assert x * k <= y * k;
    } else {
      assert y * k < x * k;
    }
  }

  /** In every format, flipping a box about x = W / 2 maps its XYXY corners
      (x1, y1, x2, y2) to (W - x2, y1, W - x1, y2). */
  lemma FlipBoxMirrors(bx: Box, f: Format, w: real)
    ensures var p, q := BoxToXyxy(bx, f), BoxToXyxy(FlipBox(bx, f, w), f);
      q == Box(w - p.c2, p.c1, w - p.c0, p.c3)
  {
  }

  /** The union of two boxes is the smallest box containing both: each of
      its sides reaches the farther of the two boxes' sides, and no farther. */
  lemma UnionBoxEncloses(p: Box, q: Box)
    ensures var r := UnionBox(p, q);
      && r.c0 <= p.c0 && r.c0 <= q.c0 && (r.c0 == p.c0 || r.c0 == q.c0)
      && r.c1 <= p.c1 && r.c1 <= q.c1 && (r.c1 == p.c1 || r.c1 == q.c1)
      && r.c2 >= p.c2 && r.c2 >= q.c2 && (r.c2 == p.c2 || r.c2 == q.c2)
      && r.c3 >= p.c3 && r.c3 >= q.c3 && (r.c3 == p.c3 || r.c3 == q.c3)
  {
  }

  /** The intersection of two boxes starts at the later of their top-left
      corners. It has a positive width exactly when their
      x-spans overlap, and then ends where the first of them ends; likewise
      its height and the y-spans. */
  lemma IntersectionBoxOverlap(p: Box, q: Box)
    ensures var r := IntersectionBox(p, q);
      && r.c0 >= p.c0 && r.c0 >= q.c0 && (r.c0 == p.c0 || r.c0 == q.c0)
      && r.c1 >= p.c1 && r.c1 >= q.c1 && (r.c1 == p.c1 || r.c1 == q.c1)
      && (r.c2 > 0.0 <==> p.c0 < q.c2 && q.c0 < p.c2 && p.c0 < p.c2 && q.c0 < q.c2)
      && (r.c3 > 0.0 <==> p.c1 < q.c3 && q.c1 < p.c3 && p.c1 < p.c3 && q.c1 < q.c3)
      && (r.c2 > 0.0 ==> r.c0 + r.c2 == Min(p.c2, q.c2))
      && (r.c3 > 0.0 ==> r.c1 + r.c3 == Min(p.c3, q.c3))
  {
  }

  /** Denormalising commutes with the union of two boxes. */
  lemma DenormalizeUnionBox(p: Box, q: Box, s: ImageSize)
    ensures DenormalizeBox(UnionBox(p, q), s) == UnionBox(DenormalizeBox(p, s), DenormalizeBox(q, s))
  {
    var w, h := s.w as real, s.h as real;
    MinScale(p.c0, q.c0, w);
    MinScale(p.c1, q.c1, h);
    MinScale(p.c2, q.c2, w);
    MinScale(p.c3, q.c3, h);
  }

  /** A side clamped at zero, computed from scaled ends, is the scaled
      clamped side. */
  lemma ClampedSideOfScaled(a: real, b: real, hi: real, lo: real, k: real)
    requires k > 0.0 && a == hi * k && b == lo * k
    ensures Max(a - b, 0.0) == Max(hi - lo, 0.0) * k
  {
    assert a - b == (hi - lo) * k;
    if hi - lo < 0.0 {
      assert (hi - lo) * k < 0.0;
    }
  }

  lemma ScaleIntersectionWidth(p: Box, q: Box, w: real, h: real)
    requires w > 0.0
    ensures IntersectionBox(ScaleBox(p, w, h), ScaleBox(q, w, h)).c2 == IntersectionBox(p, q).c2 * w
  {
    var ps, qs := ScaleBox(p, w, h), ScaleBox(q, w, h);
    MinScale(p.c0, q.c0, w);
    MinScale(p.c2, q.c2, w);
    ClampedSideOfScaled(Min(ps.c2, qs.c2), Max(ps.c0, qs.c0), Min(p.c2, q.c2), Max(p.c0, q.c0), w);
  }

  lemma ScaleIntersectionHeight(p: Box, q: Box, w: real, h: real)
    requires h > 0.0
    ensures IntersectionBox(ScaleBox(p, w, h), ScaleBox(q, w, h)).c3 == IntersectionBox(p, q).c3 * h
  {
    var ps, qs := ScaleBox(p, w, h), ScaleBox(q, w, h);
    MinScale(p.c1, q.c1, h);
    MinScale(p.c3, q.c3, h);
    ClampedSideOfScaled(Min(ps.c3, qs.c3), Max(ps.c1, qs.c1), Min(p.c3, q.c3), Max(p.c1, q.c1), h);
  }

  /** Scaling by positive factors commutes with the intersection of two
      boxes. */
  lemma ScaleIntersectionBox(p: Box, q: Box, w: real, h: real)
    requires w > 0.0 && h > 0.0
    ensures ScaleBox(IntersectionBox(p, q), w, h) == IntersectionBox(ScaleBox(p, w, h), ScaleBox(q, w, h))
  {
    MinScale(p.c0, q.c0, w);
    MinScale(p.c1, q.c1, h);
    ScaleIntersectionWidth(p, q, w, h);
    ScaleIntersectionHeight(p, q, w, h);
  }

  /** Denormalising commutes with the intersection of two boxes. */
  lemma DenormalizeIntersectionBox(p: Box, q: Box, s: ImageSize)
    ensures DenormalizeBox(IntersectionBox(p, q), s)
         == IntersectionBox(DenormalizeBox(p, s), DenormalizeBox(q, s))
  {
    DenormalizeIsScale(IntersectionBox(p, q), s);
    DenormalizeIsScale(p, s);
    DenormalizeIsScale(q, s);
    ScaleIntersectionBox(p, q, s.w as real, s.h as real);
  }

  /** The two sets `union` and `intersection` combine: the first in XYXY,
      the second converted like it; both keep their corners. */
  lemma {:induction false} PairCorners(a: BoundingBoxes, b: BoundingBoxes)
    ensures Corners(ToXyxy(a)) == Corners(a)
    ensures Corners(ConvertLike(b, ToXyxy(a))) == Corners(b)
  {
    CornersConvertFormat(a, XYXY);
    assert ConvertFormat(a, XYXY) == ToXyxy(a);
    CornersConvert(b, Some(XYXY), Some(a.normalized));
  }

  /** The absolute corners of each box of `union` are the union of the two
      boxes' absolute corners, whatever the two sets' formats and
      normalisations. */
  lemma {:induction false} UnionCorners(a: BoundingBoxes, b: BoundingBoxes)
    requires Union(a, b).Ok?
    ensures forall i :: 0 <= i < |a.coords| ==>
      Corners(Union(a, b).value)[i] == UnionBox(Corners(a)[i], Corners(b)[i])
  {
    var x, y, r := ToXyxy(a), ConvertLike(b, ToXyxy(a)), Union(a, b).value;
    PairCorners(a, b);
    forall i | 0 <= i < |a.coords|
      ensures Corners(r)[i] == UnionBox(Corners(a)[i], Corners(b)[i])
    {
      assert Corners(x)[i] == Corners(a)[i] && Corners(y)[i] == Corners(b)[i];
      assert r.coords[i] == UnionBox(x.coords[i], y.coords[i]);
      DenormalizeUnionBox(x.coords[i], y.coords[i], a.imageSize);
    }
  }

  /** Likewise, each box of `intersection` has as absolute corners the
      overlap of the two boxes' absolute corners. */
  lemma {:induction false} IntersectionCorners(a: BoundingBoxes, b: BoundingBoxes)
    requires Intersection(a, b).Ok?
    ensures forall i :: 0 <= i < |a.coords| ==>
      Corners(Intersection(a, b).value)[i]
        == BoxToXyxy(IntersectionBox(Corners(a)[i], Corners(b)[i]), XYWH)
  {
    var x, y, r := ToXyxy(a), ConvertLike(b, ToXyxy(a)), Intersection(a, b).value;
    PairCorners(a, b);
    forall i | 0 <= i < |a.coords|
      ensures Corners(r)[i] == BoxToXyxy(IntersectionBox(Corners(a)[i], Corners(b)[i]), XYWH)
    {
      assert Corners(x)[i] == Corners(a)[i] && Corners(y)[i] == Corners(b)[i];
      assert r.coords[i] == IntersectionBox(x.coords[i], y.coords[i]);
      DenormalizeIntersectionBox(x.coords[i], y.coords[i], a.imageSize);
    }
  }

  /** A box whose corners are in order: x1 <= x2 and y1 <= y2. */
  predicate OrderedBox(p: Box) {
    p.c0 <= p.c2 && p.c1 <= p.c3
  }

  /** Every box of the set has its corners in order. */
  predicate Ordered(b: BoundingBoxes) {
    forall i :: 0 <= i < |b.coords| ==> OrderedBox(BoxToXyxy(b.coords[i], b.format))
  }

  lemma MulMono(x: real, y: real, xm: real, ym: real)
    requires 0.0 <= x <= xm && 0.0 <= y <= ym
    ensures 0.0 <= x * y <= xm * ym
  {
    assert x * y <= xm * y;
    assert xm * y <= xm * ym;
  }

  lemma IntersectionBoxSides(p: Box, q: Box)
    requires OrderedBox(p) && OrderedBox(q)
    ensures var r := IntersectionBox(p, q);
      && 0.0 <= r.c2 <= p.c2 - p.c0 && r.c2 <= q.c2 - q.c0
      && 0.0 <= r.c3 <= p.c3 - p.c1 && r.c3 <= q.c3 - q.c1
  {
  }

  /** The overlap of two ordered boxes is no larger than either box. */
  lemma IntersectionBoxArea(p: Box, q: Box)
    requires OrderedBox(p) && OrderedBox(q)
    ensures 0.0 <= BoxArea(IntersectionBox(p, q), XYWH) <= BoxArea(p, XYXY)
    ensures BoxArea(IntersectionBox(p, q), XYWH) <= BoxArea(q, XYXY)
  {
    var r := IntersectionBox(p, q);
    IntersectionBoxSides(p, q);
    MulMono(r.c2, r.c3, p.c2 - p.c0, p.c3 - p.c1);
    MulMono(r.c2, r.c3, q.c2 - q.c0, q.c3 - q.c1);
  }

  /** For two compatible sets of ordered boxes, each intersection area is
      non-negative and at most the area of either box. */
  lemma {:induction false} IntersectionAreaBounds(a: BoundingBoxes, b: BoundingBoxes)
    requires a.normalized == b.normalized && |a.coords| == |b.coords| && a.imageSize == b.imageSize
    requires Ordered(a) && Ordered(b)
    ensures IntersectionArea(a, b).Ok?
    ensures forall i :: 0 <= i < |a.coords| ==>
      var inter := IntersectionArea(a, b).value[i];
      0.0 <= inter <= Area(a)[i] && inter <= Area(b)[i]
  {
    ConvertLikeXyxy(b, a);
    var r := Intersection(a, b).value;
    forall i | 0 <= i < |a.coords|
      ensures 0.0 <= Area(r)[i] <= Area(a)[i] && Area(r)[i] <= Area(b)[i]
    {
      var p, q := ToXyxy(a).coords[i], ToXyxy(b).coords[i];
      assert r.coords[i] == IntersectionBox(p, q);
      IntersectionBoxArea(p, q);
      BoxAreaXyxy(a.coords[i], a.format);
      BoxAreaXyxy(b.coords[i], b.format);
    }
  }

  /** For two compatible sets of ordered boxes, each union area is at least
      the larger area and the intersection area, and at most the sum of the
      two areas. */
  lemma {:induction false} UnionAreaBounds(a: BoundingBoxes, b: BoundingBoxes)
    requires a.normalized == b.normalized && |a.coords| == |b.coords| && a.imageSize == b.imageSize
    requires Ordered(a) && Ordered(b)
    ensures UnionArea(a, b).Ok?
    ensures forall i :: 0 <= i < |a.coords| ==>
      var u := UnionArea(a, b).value[i];
      && Max(Area(a)[i], Area(b)[i]) <= u <= Area(a)[i] + Area(b)[i]
      && IntersectionArea(a, b).value[i] <= u
  {
    IntersectionAreaBounds(a, b);
  }

  // -------------------------------------------------------------------------
  // Examples
  // -------------------------------------------------------------------------

  /** Boxes (0, 0, 2, 2) and (1, 1, 3, 3) overlap in a unit square; their
      union covers 4 + 4 - 1 = 7. */
  lemma OverlapExample()
    ensures var s := ImageSize(10, 10);
      var a := BoundingBoxes([Box(0.0, 0.0, 2.0, 2.0)], XYXY, false, s);
      var b := BoundingBoxes([Box(1.0, 1.0, 3.0, 3.0)], XYXY, false, s);
      && IntersectionArea(a, b) == Ok([1.0])
      && UnionArea(a, b) == Ok([7.0])
      && Union(a, b) == Ok(BoundingBoxes([Box(0.0, 0.0, 3.0, 3.0)], XYXY, false, s))
  {
    var s := ImageSize(10, 10);
    var a := BoundingBoxes([Box(0.0, 0.0, 2.0, 2.0)], XYXY, false, s);
    var b := BoundingBoxes([Box(1.0, 1.0, 3.0, 3.0)], XYXY, false, s);
    ConvertLikeXyxy(b, a);
    var inter := Intersection(a, b).value;
    assert inter.coords == [Box(1.0, 1.0, 1.0, 1.0)];
    assert Area(inter) == [1.0];
    assert IntersectionArea(a, b) == Ok([1.0]);
    assert Area(a) == [4.0] && Area(b) == [4.0];
    var u := UnionArea(a, b).value;
    assert u[0] == 4.0 + 4.0 - 1.0;
    assert u == [7.0];
    assert Union(a, b).value.coords == [Box(0.0, 0.0, 3.0, 3.0)];
  }

  /** A box inside the image and wide enough is valid; one reaching past the
      left edge, or narrower than the minimum, is not. */
  lemma IsValidExample()
    ensures var b := BoundingBoxes([Box(0.0, 0.0, 5.0, 5.0), Box(-1.0, 0.0, 5.0, 5.0), Box(2.0, 2.0, 2.5, 5.0)],
                                   XYXY, false, ImageSize(10, 10));
      IsValid(b, 1.0, 1.0) == [true, false, false]
  {
  }

  /** Mixing normalised and pixel sets is an error for the area operations. */
  lemma NormalizationMismatchExample()
    ensures var s := ImageSize(10, 10);
      var a := BoundingBoxes([Box(0.0, 0.0, 0.2, 0.2)], XYXY, true, s);
      var b := BoundingBoxes([Box(1.0, 1.0, 3.0, 3.0)], XYXY, false, s);
      && IntersectionArea(a, b) == Err(NormalizationMismatch)
      && UnionArea(a, b) == Err(NormalizationMismatch)
  {
  }
}
