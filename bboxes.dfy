/** A set of bounding boxes relative to one image: an N×4 coordinate tensor
    together with its format, its normalisation flag and the (H, W) size of
    the image. Coordinates are exact reals; image sizes are positive pixel
    counts. Every transform yields a new value, or the argument itself when
    it is already in the requested state. */
module Bboxes {
  import opened Results
  import opened Numeric

  /** An image dimension in pixels. */
  type Dim = n: int | 0 < n witness 1

  /** The three coordinate encodings of a box. */
  datatype Format = XYXY | XYWH | CXCYWH

  /** What the constructor accepts as a format: a format or its name. */
  datatype FormatArg = AsFormat(format: Format) | AsName(name: string)

  /** One row of the coordinate tensor. Its meaning depends on the format:
      (x1, y1, x2, y2) for XYXY, (x1, y1, w, h) for XYWH and
      (cx, cy, w, h) for CXCYWH. */
  datatype Box = Box(c0: real, c1: real, c2: real, c3: real)

  /** The (height, width) of an image. */
  datatype ImageSize = ImageSize(h: Dim, w: Dim)

  datatype BoundingBoxes = BoundingBoxes(
    coords: seq<Box>,
    format: Format,
    normalized: bool,
    imageSize: ImageSize)

  datatype BoxError =
    | UnknownFormat(name: string)
    | NotTwoDimensional(ndim: nat)
    | LastDimNotFour(last: nat)
    | CountMismatch(count1: nat, count2: nat)
    | ImageSizeMismatch(size1: ImageSize, size2: ImageSize)
    | NormalizationMismatch

  // -------------------------------------------------------------------------
  // Construction
  // -------------------------------------------------------------------------

  /** The string value of each format. */
  function FormatName(f: Format): string {
    match f
    case XYXY => "xyxy"
    case XYWH => "xywh"
    case CXCYWH => "cxcywh"
  }

  /** `BoundingBoxFormat(format)`: a format is kept, a name is looked up
      among the formats' values. */
  function ParseFormat(arg: FormatArg): (r: Result<Format, BoxError>)
    ensures arg.AsFormat? ==> r == Ok(arg.format)
    ensures arg.AsName? ==> (r.Ok? <==> exists f :: FormatName(f) == arg.name)
    ensures arg.AsName? && r.Ok? ==> FormatName(r.value) == arg.name
  {
    match arg
    case AsFormat(f) => Ok(f)
    case AsName(s) =>
      if s == FormatName(XYXY) then Ok(XYXY)
      else if s == FormatName(XYWH) then Ok(XYWH)
      else if s == FormatName(CXCYWH) then Ok(CXCYWH)
      else Err(UnknownFormat(s))
  }

  /** The shape check of the constructor: the tensor must be 2-D with a
      last dimension of 4. */
  function CheckCoordinates(shape: seq<nat>): (r: Outcome<BoxError>)
    ensures r.Pass? <==> |shape| == 2 && shape[1] == 4
    ensures |shape| != 2 ==> r == Fail(NotTwoDimensional(|shape|))
  {
    if |shape| != 2 then Fail(NotTwoDimensional(|shape|))
    else if shape[|shape| - 1] != 4 then Fail(LastDimNotFour(shape[|shape| - 1]))
    else Pass
  }

  /** The number of elements of a tensor of the given shape. */
  function Product(shape: seq<nat>): nat {
    if shape == [] then 1 else shape[0] * Product(shape[1..])
  }

  /** The rows of a row-major N×4 buffer. */
  function Rows(data: seq<real>): (r: seq<Box>)
    requires |data| % 4 == 0
    ensures |r| == |data| / 4
  {
    if data == [] then [] else [Box(data[0], data[1], data[2], data[3])] + Rows(data[4..])
  }

  /** The row-major buffer of a coordinate tensor. */
  function Flatten(coords: seq<Box>): seq<real> {
    if coords == [] then []
    else [coords[0].c0, coords[0].c1, coords[0].c2, coords[0].c3] + Flatten(coords[1..])
  }

  lemma {:induction false} FlattenRows(data: seq<real>)
    requires |data| % 4 == 0
    ensures Flatten(Rows(data)) == data
  {
    if data != [] {
      FlattenRows(data[4..]);
    }
  }

  /** The constructor: a tensor given by its shape and its row-major
      elements is checked and becomes the box set. */
  function New(shape: seq<nat>, data: seq<real>, format: FormatArg, normalized: bool,
               imageSize: ImageSize): (r: Result<BoundingBoxes, BoxError>)
    requires |data| == Product(shape)
    ensures r.Ok? <==> CheckCoordinates(shape).Pass? && ParseFormat(format).Ok?
    ensures CheckCoordinates(shape).Fail? ==> r == Err(CheckCoordinates(shape).error)
    ensures r.Ok? ==> |r.value.coords| == shape[0] && Flatten(r.value.coords) == data
    ensures r.Ok? ==> r.value.format == ParseFormat(format).value
                      && r.value.normalized == normalized && r.value.imageSize == imageSize
  {
    match CheckCoordinates(shape)
    case Fail(e) => Err(e)
    case Pass =>
      assert |data| == shape[0] * 4 by {
        assert Product(shape) == shape[0] * (shape[1] * Product(shape[2..]));
      }
      FlattenRows(data);
      match ParseFormat(format)
      case Err(e) => Err(e)
      case Ok(f) => Ok(BoundingBoxes(Rows(data), f, normalized, imageSize))
  }

  // -------------------------------------------------------------------------
  // Conversions of one box
  // -------------------------------------------------------------------------

  /** `to_xyxy` on one box: x2y2 = x1y1 + wh; from the centre,
      x1y1 = cxcy - wh / 2 first. */
  function BoxToXyxy(bx: Box, from: Format): Box {
    match from
    case XYXY => bx
    case XYWH => Box(bx.c0, bx.c1, bx.c0 + bx.c2, bx.c1 + bx.c3)
    case CXCYWH =>
      var x1, y1 := bx.c0 - bx.c2 / 2.0, bx.c1 - bx.c3 / 2.0;
      Box(x1, y1, x1 + bx.c2, y1 + bx.c3)
  }

  /** `to_xywh` on one box: wh = x2y2 - xy; from the centre,
      xy = cxcy - wh / 2. */
  function BoxToXywh(bx: Box, from: Format): Box {
    match from
    case XYXY => Box(bx.c0, bx.c1, bx.c2 - bx.c0, bx.c3 - bx.c1)
    case XYWH => bx
    case CXCYWH => Box(bx.c0 - bx.c2 / 2.0, bx.c1 - bx.c3 / 2.0, bx.c2, bx.c3)
  }

  /** `to_cxcywh` on one box: centre = xy + wh / 2. */
  function BoxToCxcywh(bx: Box, from: Format): Box {
    match from
    case XYXY =>
      var w, h := bx.c2 - bx.c0, bx.c3 - bx.c1;
      Box(bx.c0 + w / 2.0, bx.c1 + h / 2.0, w, h)
    case XYWH => Box(bx.c0 + bx.c2 / 2.0, bx.c1 + bx.c3 / 2.0, bx.c2, bx.c3)
    case CXCYWH => bx
  }

  function ConvertBox(bx: Box, from: Format, to: Format): Box {
    match to
    case XYXY => BoxToXyxy(bx, from)
    case XYWH => BoxToXywh(bx, from)
    case CXCYWH => BoxToCxcywh(bx, from)
  }

  function MapConvert(coords: seq<Box>, from: Format, to: Format): (r: seq<Box>)
    ensures |r| == |coords|
    ensures forall i :: 0 <= i < |r| ==> r[i] == ConvertBox(coords[i], from, to)
  {
    seq(|coords|, i requires 0 <= i < |coords| => ConvertBox(coords[i], from, to))
  }

  // -------------------------------------------------------------------------
  // Format conversions of a box set
  // -------------------------------------------------------------------------

  function ToXyxy(b: BoundingBoxes): (r: BoundingBoxes)
    ensures b.format == XYXY ==> r == b
    ensures r.format == XYXY && r.normalized == b.normalized && r.imageSize == b.imageSize
    ensures |r.coords| == |b.coords|
    ensures forall i :: 0 <= i < |r.coords| ==> r.coords[i] == BoxToXyxy(b.coords[i], b.format)
  {
    if b.format == XYXY then b
    else BoundingBoxes(MapConvert(b.coords, b.format, XYXY), XYXY, b.normalized, b.imageSize)
  }

  function ToXywh(b: BoundingBoxes): (r: BoundingBoxes)
    ensures b.format == XYWH ==> r == b
    ensures r.format == XYWH && r.normalized == b.normalized && r.imageSize == b.imageSize
    ensures |r.coords| == |b.coords|
    ensures forall i :: 0 <= i < |r.coords| ==> r.coords[i] == BoxToXywh(b.coords[i], b.format)
  {
    if b.format == XYWH then b
    else BoundingBoxes(MapConvert(b.coords, b.format, XYWH), XYWH, b.normalized, b.imageSize)
  }

  function ToCxcywh(b: BoundingBoxes): (r: BoundingBoxes)
    ensures b.format == CXCYWH ==> r == b
    ensures r.format == CXCYWH && r.normalized == b.normalized && r.imageSize == b.imageSize
    ensures |r.coords| == |b.coords|
    ensures forall i :: 0 <= i < |r.coords| ==> r.coords[i] == BoxToCxcywh(b.coords[i], b.format)
  {
    if b.format == CXCYWH then b
    else BoundingBoxes(MapConvert(b.coords, b.format, CXCYWH), CXCYWH, b.normalized, b.imageSize)
  }

  /** The format step of `convert`. */
  function ConvertFormat(b: BoundingBoxes, f: Format): (r: BoundingBoxes)
    ensures r.format == f && r.normalized == b.normalized && r.imageSize == b.imageSize
    ensures |r.coords| == |b.coords|
    ensures forall i :: 0 <= i < |r.coords| ==> r.coords[i] == ConvertBox(b.coords[i], b.format, f)
  {
    match f
    case XYXY => ToXyxy(b)
    case XYWH => ToXywh(b)
    case CXCYWH => ToCxcywh(b)
  }

  // -------------------------------------------------------------------------
  // Normalisation
  // -------------------------------------------------------------------------

  /** Divide by (W, H, W, H). */
  function NormalizeBox(bx: Box, s: ImageSize): Box {
    Box(bx.c0 / s.w as real, bx.c1 / s.h as real, bx.c2 / s.w as real, bx.c3 / s.h as real)
  }

  /** Multiply by (W, H, W, H). */
  function DenormalizeBox(bx: Box, s: ImageSize): Box {
    Box(bx.c0 * s.w as real, bx.c1 * s.h as real, bx.c2 * s.w as real, bx.c3 * s.h as real)
  }

  function Normalize(b: BoundingBoxes): (r: BoundingBoxes)
    ensures b.normalized ==> r == b
    ensures r.normalized && r.format == b.format && r.imageSize == b.imageSize
    ensures |r.coords| == |b.coords|
    ensures !b.normalized ==>
      forall i :: 0 <= i < |r.coords| ==> r.coords[i] == NormalizeBox(b.coords[i], b.imageSize)
  {
    if b.normalized then b
    else
      BoundingBoxes(
        seq(|b.coords|, i requires 0 <= i < |b.coords| => NormalizeBox(b.coords[i], b.imageSize)),
        b.format, true, b.imageSize)
  }

  function Denormalize(b: BoundingBoxes): (r: BoundingBoxes)
    ensures !b.normalized ==> r == b
    ensures !r.normalized && r.format == b.format && r.imageSize == b.imageSize
    ensures |r.coords| == |b.coords|
    ensures b.normalized ==>
      forall i :: 0 <= i < |r.coords| ==> r.coords[i] == DenormalizeBox(b.coords[i], b.imageSize)
  {
    if !b.normalized then b
    else
      BoundingBoxes(
        seq(|b.coords|, i requires 0 <= i < |b.coords| => DenormalizeBox(b.coords[i], b.imageSize)),
        b.format, false, b.imageSize)
  }

  /** `convert`: the format step, then the normalisation step; `None` leaves
      that aspect as it is. */
  function Convert(b: BoundingBoxes, format: Option<Format>, normalized: Option<bool>): (r: BoundingBoxes)
    ensures r.format == (if format.Some? then format.value else b.format)
    ensures r.normalized == (if normalized.Some? then normalized.value else b.normalized)
    ensures r.imageSize == b.imageSize && |r.coords| == |b.coords|
    ensures format.None? && normalized.None? ==> r == b
  {
    var boxes := if format.Some? then ConvertFormat(b, format.value) else b;
    match normalized
    case Some(true) => Normalize(boxes)
    case Some(false) => Denormalize(boxes)
    case None => boxes
  }

  /** `convert_like`: take the other set's format and normalisation. */
  function ConvertLike(b: BoundingBoxes, other: BoundingBoxes): (r: BoundingBoxes)
    ensures r.format == other.format && r.normalized == other.normalized
    ensures r.imageSize == b.imageSize && |r.coords| == |b.coords|
  {
    Convert(b, Some(other.format), Some(other.normalized))
  }

  // -------------------------------------------------------------------------
  // Transforms
  // -------------------------------------------------------------------------

  function ScaleBox(bx: Box, sx: real, sy: real): Box {
    Box(bx.c0 * sx, bx.c1 * sy, bx.c2 * sx, bx.c3 * sy)
  }

  /** `resize`: pixel coordinates are scaled by the ratio of the new size to
      the old one, normalised coordinates are kept. */
  function Resize(b: BoundingBoxes, size: ImageSize): (r: BoundingBoxes)
    ensures b.imageSize == size ==> r == b
    ensures r.imageSize == size && r.format == b.format && r.normalized == b.normalized
    ensures |r.coords| == |b.coords|
    ensures b.normalized ==> r.coords == b.coords
  {
    if b.imageSize == size then b
    else if b.normalized then BoundingBoxes(b.coords, b.format, b.normalized, size)
    else
      var hr := size.h as real / b.imageSize.h as real;
      var wr := size.w as real / b.imageSize.w as real;
      BoundingBoxes(
        seq(|b.coords|, i requires 0 <= i < |b.coords| => ScaleBox(b.coords[i], wr, hr)),
        b.format, b.normalized, size)
  }

  /** The width that `horizontal_flip` mirrors about: 1 when normalised. */
  function FlipWidth(b: BoundingBoxes): real {
    if b.normalized then 1.0 else b.imageSize.w as real
  }

  /** The height and width that clamping and validation use: (1, 1) when
      normalised. */
  function ExtentH(b: BoundingBoxes): real { if b.normalized then 1.0 else b.imageSize.h as real }
  function ExtentW(b: BoundingBoxes): real { if b.normalized then 1.0 else b.imageSize.w as real }

  /** The flip of one box about the vertical line x = W / 2. */
  function FlipBox(bx: Box, f: Format, w: real): Box {
    match f
    case XYXY => Box(w - bx.c2, bx.c1, w - bx.c0, bx.c3)
    case XYWH => Box(w - (bx.c0 + bx.c2), bx.c1, bx.c2, bx.c3)
    case CXCYWH => Box(w - bx.c0, bx.c1, bx.c2, bx.c3)
  }

  /** The value `horizontal_flip` computes. */
  function Flipped(b: BoundingBoxes): (r: BoundingBoxes)
    ensures r.format == b.format && r.normalized == b.normalized && r.imageSize == b.imageSize
    ensures |r.coords| == |b.coords|
  {
    BoundingBoxes(
      seq(|b.coords|, i requires 0 <= i < |b.coords| => FlipBox(b.coords[i], b.format, FlipWidth(b))),
      b.format, b.normalized, b.imageSize)
  }

  function Coord(bx: Box, j: int): real
    requires 0 <= j < 4
  {
    if j == 0 then bx.c0 else if j == 1 then bx.c1 else if j == 2 then bx.c2 else bx.c3
  }

  function RowAt(a: array2<real>, k: int): Box
    requires a.Length1 == 4 && 0 <= k < a.Length0
    reads a
  {
    Box(a[k, 0], a[k, 1], a[k, 2], a[k, 3])
  }

  function RowsOf(a: array2<real>): (r: seq<Box>)
    requires a.Length1 == 4
    reads a
    ensures |r| == a.Length0 && forall k :: 0 <= k < a.Length0 ==> r[k] == RowAt(a, k)
  {
    seq(a.Length0, k requires 0 <= k < a.Length0 reads a => RowAt(a, k))
  }

  /** `horizontal_flip`: the coordinate buffer is cloned and its x columns
      are updated in place. */
  method HorizontalFlip(b: BoundingBoxes) returns (r: BoundingBoxes)
    ensures r == Flipped(b)
  {
    var w := FlipWidth(b);
    var n := |b.coords|;
    var coords := new real[n, 4]((i, j) requires 0 <= i < n && 0 <= j < 4 => Coord(b.coords[i], j));
    for i := 0 to n
      invariant forall k :: 0 <= k < i ==> RowAt(coords, k) == FlipBox(b.coords[k], b.format, w)
      invariant forall k :: i <= k < n ==> RowAt(coords, k) == b.coords[k]
    {
      match b.format
      case XYXY =>
        var x1, x2 := coords[i, 0], coords[i, 2];
        coords[i, 2] := w - x1;
        coords[i, 0] := w - x2;
      case XYWH =>
        coords[i, 0] := w - (coords[i, 0] + coords[i, 2]);
      case CXCYWH =>
        coords[i, 0] := w - coords[i, 0];
    }
    var flipped := RowsOf(coords);
    r := BoundingBoxes(flipped, b.format, b.normalized, b.imageSize);
    assert r.coords == Flipped(b).coords;
  }

  function Clip(x: real, lo: real, hi: real): real { Min(Max(x, lo), hi) }

  /** An XYXY box clamped to [0, W] × [0, H]. */
  function ClipBox(bx: Box, h: real, w: real): Box {
    Box(Clip(bx.c0, 0.0, w), Clip(bx.c1, 0.0, h), Clip(bx.c2, 0.0, w), Clip(bx.c3, 0.0, h))
  }

  /** The value `clamp_to_image` computes: clamp in XYXY, then convert back
      to the set's own format and normalisation. */
  function Clamped(b: BoundingBoxes): (r: BoundingBoxes)
    ensures r.format == b.format && r.normalized == b.normalized && r.imageSize == b.imageSize
    ensures |r.coords| == |b.coords|
  {
    var boxes := ToXyxy(b);
    var h, w := ExtentH(boxes), ExtentW(boxes);
    var clipped := seq(|boxes.coords|, i requires 0 <= i < |boxes.coords| => ClipBox(boxes.coords[i], h, w));
    ConvertLike(BoundingBoxes(clipped, boxes.format, boxes.normalized, boxes.imageSize), b)
  }

  /** Row i of a four-column buffer overwritten with a box; the other rows
      are kept. */
  method SetRow(coords: array2<real>, i: nat, bx: Box)
    requires coords.Length1 == 4 && i < coords.Length0
    modifies coords
    ensures RowAt(coords, i) == bx
    ensures forall k :: 0 <= k < coords.Length0 && k != i ==> RowAt(coords, k) == old(RowAt(coords, k))
  {
    coords[i, 0] := bx.c0;
    coords[i, 1] := bx.c1;
    coords[i, 2] := bx.c2;
    coords[i, 3] := bx.c3;
  }

  /** The in-place part of `clamp_to_image`: XYXY rows are cloned into a
      buffer whose columns are clamped to [0, W], [0, H], [0, W], [0, H]. */
  method ClampColumns(rows: seq<Box>, h: real, w: real) returns (r: seq<Box>)
    ensures |r| == |rows| && forall k :: 0 <= k < |rows| ==> r[k] == ClipBox(rows[k], h, w)
  {
    var n := |rows|;
    var coords := new real[n, 4]((i, j) requires 0 <= i < n && 0 <= j < 4 => Coord(rows[i], j));
    for i := 0 to n
      invariant forall k :: 0 <= k < i ==> RowAt(coords, k) == ClipBox(rows[k], h, w)
      invariant forall k :: i <= k < n ==> RowAt(coords, k) == rows[k]
    {
      SetRow(coords, i, ClipBox(RowAt(coords, i), h, w));
    }
    r := RowsOf(coords);
  }

  /** `clamp_to_image`: clamp the XYXY columns in place, then convert back. */
  method ClampToImage(b: BoundingBoxes) returns (r: BoundingBoxes)
    ensures r == Clamped(b)
  {
    var boxes := ToXyxy(b);
    var h, w := ExtentH(boxes), ExtentW(boxes);
    var clipped := ClampColumns(boxes.coords, h, w);
    assert clipped == seq(|boxes.coords|, i requires 0 <= i < |boxes.coords| => ClipBox(boxes.coords[i], h, w));
    r := ConvertLike(BoundingBoxes(clipped, boxes.format, boxes.normalized, boxes.imageSize), b);
  }

  /** The crop origin subtracted from one box: position fields move, width
      and height fields do not. */
  function ShiftBox(bx: Box, f: Format, top: int, left: int): Box {
    match f
    case XYXY => Box(bx.c0 - left as real, bx.c1 - top as real, bx.c2 - left as real, bx.c3 - top as real)
    case XYWH => Box(bx.c0 - left as real, bx.c1 - top as real, bx.c2, bx.c3)
    case CXCYWH => Box(bx.c0 - left as real, bx.c1 - top as real, bx.c2, bx.c3)
  }

  /** `crop(top, left, bottom, right)`: in pixel space, move the origin to
      (left, top), take the crop's size as the image size, clamp to it and
      return to the caller's format and normalisation. */
  function Crop(b: BoundingBoxes, top: int, left: int, bottom: int, right: int): (r: BoundingBoxes)
    requires top < bottom && left < right
    ensures r.format == b.format && r.normalized == b.normalized
    ensures r.imageSize == ImageSize(bottom - top, right - left)
    ensures |r.coords| == |b.coords|
  {
    var boxes := Denormalize(b);
    var shifted := seq(|boxes.coords|, i requires 0 <= i < |boxes.coords| =>
                     ShiftBox(boxes.coords[i], boxes.format, top, left));
    var moved := BoundingBoxes(shifted, boxes.format, false, ImageSize(bottom - top, right - left));
    ConvertLike(Clamped(moved), b)
  }

  // -------------------------------------------------------------------------
  // Operations
  // -------------------------------------------------------------------------

  function BoxArea(bx: Box, f: Format): real {
    match f
    case XYXY => (bx.c2 - bx.c0) * (bx.c3 - bx.c1)
    case XYWH => bx.c2 * bx.c3
    case CXCYWH => bx.c2 * bx.c3
  }

  /** `area`, in the set's own units (normalised or pixels). */
  function Area(b: BoundingBoxes): (r: seq<real>)
    ensures |r| == |b.coords|
    ensures forall i :: 0 <= i < |r| ==> r[i] == BoxArea(b.coords[i], b.format)
  {
    seq(|b.coords|, i requires 0 <= i < |b.coords| => BoxArea(b.coords[i], b.format))
  }

  /** `_check_compatibility`: the same number of boxes and the same image size. */
  function CheckCompatibility(b1: BoundingBoxes, b2: BoundingBoxes): (r: Outcome<BoxError>)
    ensures r.Pass? <==> |b1.coords| == |b2.coords| && b1.imageSize == b2.imageSize
  {
    if |b1.coords| != |b2.coords| then Fail(CountMismatch(|b1.coords|, |b2.coords|))
    else if b1.imageSize != b2.imageSize then Fail(ImageSizeMismatch(b1.imageSize, b2.imageSize))
    else Pass
  }

  /** The smallest XYXY box containing two XYXY boxes. */
  function UnionBox(p: Box, q: Box): Box {
    Box(Min(p.c0, q.c0), Min(p.c1, q.c1), Max(p.c2, q.c2), Max(p.c3, q.c3))
  }

  /** The overlap of two XYXY boxes, as an XYWH box with a width and height
      clamped at zero. */
  function IntersectionBox(p: Box, q: Box): (r: Box)
    ensures r.c2 >= 0.0 && r.c3 >= 0.0
  {
    var x1, y1 := Max(p.c0, q.c0), Max(p.c1, q.c1);
    var x2, y2 := Min(p.c2, q.c2), Min(p.c3, q.c3);
    Box(x1, y1, Max(x2 - x1, 0.0), Max(y2 - y1, 0.0))
  }

  /** `union`: both sets in XYXY with the first set's normalisation; the
      result is XYXY. */
  function Union(a: BoundingBoxes, b: BoundingBoxes): (r: Result<BoundingBoxes, BoxError>)
    ensures r.Ok? <==> |a.coords| == |b.coords| && a.imageSize == b.imageSize
    ensures r.Ok? ==> r.value.format == XYXY && r.value.normalized == a.normalized
                      && r.value.imageSize == a.imageSize && |r.value.coords| == |a.coords|
  {
    var boxes1 := ToXyxy(a);
    var boxes2 := ConvertLike(b, boxes1);
    match CheckCompatibility(boxes1, boxes2)
    case Fail(e) => Err(e)
    case Pass =>
      Ok(BoundingBoxes(
        seq(|boxes1.coords|, i requires 0 <= i < |boxes1.coords| => UnionBox(boxes1.coords[i], boxes2.coords[i])),
        XYXY, boxes1.normalized, boxes1.imageSize))
  }

  /** `intersection`: both sets in XYXY with the first set's normalisation;
      the result is XYWH. */
  function Intersection(a: BoundingBoxes, b: BoundingBoxes): (r: Result<BoundingBoxes, BoxError>)
    ensures r.Ok? <==> |a.coords| == |b.coords| && a.imageSize == b.imageSize
    ensures r.Ok? ==> r.value.format == XYWH && r.value.normalized == a.normalized
                      && r.value.imageSize == a.imageSize && |r.value.coords| == |a.coords|
    ensures r.Ok? ==> forall i :: 0 <= i < |r.value.coords| ==>
                        r.value.coords[i].c2 >= 0.0 && r.value.coords[i].c3 >= 0.0
  {
    var boxes1 := ToXyxy(a);
    var boxes2 := ConvertLike(b, boxes1);
    match CheckCompatibility(boxes1, boxes2)
    case Fail(e) => Err(e)
    case Pass =>
      Ok(BoundingBoxes(
        seq(|boxes1.coords|, i requires 0 <= i < |boxes1.coords| => IntersectionBox(boxes1.coords[i], boxes2.coords[i])),
        XYWH, boxes1.normalized, boxes1.imageSize))
  }

  /** `intersection_area`: the area of the intersection, for two sets with
      the same normalisation. */
  function IntersectionArea(a: BoundingBoxes, b: BoundingBoxes): (r: Result<seq<real>, BoxError>)
    ensures a.normalized != b.normalized ==> r == Err(NormalizationMismatch)
    ensures r.Ok? <==> a.normalized == b.normalized && |a.coords| == |b.coords| && a.imageSize == b.imageSize
    ensures r.Ok? ==> |r.value| == |a.coords|
    ensures r.Ok? ==> Intersection(a, b).Ok? && r.value == Area(Intersection(a, b).value)
  {
    if a.normalized != b.normalized then Err(NormalizationMismatch)
    else
      match Intersection(a, b)
      case Err(e) => Err(e)
      case Ok(i) => Ok(Area(i))
  }

  /** `union_area`: area1 + area2 - intersection area, for two sets with the
      same normalisation. */
  function UnionArea(a: BoundingBoxes, b: BoundingBoxes): (r: Result<seq<real>, BoxError>)
    ensures a.normalized != b.normalized ==> r == Err(NormalizationMismatch)
    ensures r.Ok? <==> IntersectionArea(a, b).Ok?
    ensures r.Ok? ==> |r.value| == |a.coords|
    ensures r.Ok? ==> forall i :: 0 <= i < |r.value| ==>
                        r.value[i] == Area(a)[i] + Area(b)[i] - IntersectionArea(a, b).value[i]
  {
    if a.normalized != b.normalized then Err(NormalizationMismatch)
    else
      var area1, area2 := Area(a), Area(b);
      match IntersectionArea(a, b)
      case Err(e) => Err(e)
      case Ok(inter) =>
        Ok(seq(|inter|, i requires 0 <= i < |inter| => area1[i] + area2[i] - inter[i]))
  }

  /** One XYXY box inside [0, W] × [0, H] with at least the given width and
      height. */
  predicate ValidBox(bx: Box, h: real, w: real, minWidth: real, minHeight: real) {
    ValidSpan(bx.c0, bx.c2, w, minWidth) && ValidSpan(bx.c1, bx.c3, h, minHeight)
  }

  /** One axis of `ValidBox`: both ends in [0, extent], at least `minLength`
      apart. */
  predicate ValidSpan(lo: real, hi: real, extent: real, minLength: real) {
    && lo >= 0.0 && hi >= 0.0 && lo <= extent && hi <= extent
    && hi - lo >= minLength
  }

  /** `is_valid`: checked in XYXY; for a normalised set the minimums are
      divided by the image width and height first. */
  function IsValid(b: BoundingBoxes, minWidth: real, minHeight: real): (r: seq<bool>)
    ensures |r| == |b.coords|
  {
    var boxes := ToXyxy(b);
    var h, w := ExtentH(boxes), ExtentW(boxes);
    var mw := if boxes.normalized then minWidth / b.imageSize.w as real else minWidth;
    var mh := if boxes.normalized then minHeight / b.imageSize.h as real else minHeight;
    seq(|boxes.coords|, i requires 0 <= i < |boxes.coords| => ValidBox(boxes.coords[i], h, w, mw, mh))
  }
}
