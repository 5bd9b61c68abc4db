/** Padded batches of images (`BatchedImages`). A batch holds a B × C × H × W
    data tensor, the true (h, w) of every image and a B × H × W boolean mask
    that is true on padded pixels and false on valid ones. Tensors are nested
    sequences; dtype and device are opaque tags compared for equality. */
module Batching {
  import opened Results
  import opened Numeric

  // -------------------------------------------------------------------------
  // Data model
  // -------------------------------------------------------------------------

  /** An element type or a device, known only by identity. */
  datatype DType = DType(id: nat)
  datatype Device = Device(id: nat)

  /** A grid of h rows of w entries. */
  predicate IsGrid<T>(g: seq<seq<T>>, h: nat, w: nat) {
    |g| == h && forall r :: 0 <= r < h ==> |g[r]| == w
  }

  /** c channels of h × w grids. */
  predicate IsVolume(v: seq<seq<seq<real>>>, c: nat, h: nat, w: nat) {
    |v| == c && forall ch :: 0 <= ch < c ==> IsGrid(v[ch], h, w)
  }

  /** One input image: a tensor of any shape; its elements are recorded
      for three-dimensional (C, H, W) tensors. */
  datatype Tensor = Tensor(shape: seq<nat>, values: seq<seq<seq<real>>>, dtype: DType, device: Device) {
    predicate WellFormed() {
      |shape| == 3 ==> IsVolume(values, shape[0], shape[1], shape[2])
    }
  }

  /** A B × C × H × W data tensor. */
  datatype Data = Data(b: nat, c: nat, h: nat, w: nat, values: seq<seq<seq<seq<real>>>>,
                       dtype: DType, device: Device) {
    predicate Valid() {
      |values| == b && forall i :: 0 <= i < b ==> IsVolume(values[i], c, h, w)
    }
  }

  /** A B × H × W boolean mask. */
  datatype Mask = Mask(b: nat, h: nat, w: nat, values: seq<seq<seq<bool>>>, device: Device) {
    predicate Valid() {
      |values| == b && forall i :: 0 <= i < b ==> IsGrid(values[i], h, w)
    }
  }

  /** An (h, w) pair; `int` because sizes derived from a mask can be
      negative. */
  datatype Size = Size(h: int, w: int)

  datatype BatchedImages = BatchedImages(data: Data, imageSizes: seq<Size>, mask: Mask) {
    /** The tensors are rectangular. */
    predicate WellShaped() { data.Valid() && mask.Valid() }
  }

  /** A batch of token sequences: B × L × C data, L-long masks and the
      number of valid tokens of each item. */
  datatype BatchedSequences = BatchedSequences(data: seq<seq<seq<real>>>, sizes: seq<int>, mask: seq<seq<bool>>)

  datatype BatchError =
    | NoImages
    | NotThreeDimensional
    | ChannelMismatch
    | DTypeMismatch
    | DeviceMismatch
    | SizesMaskMismatch
    | MaskDeviceMismatch
    | DataMaskMismatch
    | IndexOutOfRange(index: int)

  // -------------------------------------------------------------------------
  // Slicing and counting
  // -------------------------------------------------------------------------

  /** The length of the Python slice `[:k]` of a sequence of length n:
      a negative k counts from the end, a k past the end stops at the end. */
  function SliceEnd(k: int, n: nat): (r: nat)
    ensures r <= n
    ensures 0 <= k <= n ==> r == k
  {
    if k >= 0 then MinInt(k, n) else MaxInt(n + k, 0)
  }

  /** The number of entries equal to v. */
  function Occurrences(row: seq<bool>, v: bool): nat {
    if |row| == 0 then 0
    else Occurrences(row[..|row| - 1], v) + (if row[|row| - 1] == v then 1 else 0)
  }

  /** The number of entries equal to v in a whole grid. */
  function GridOccurrences(g: seq<seq<bool>>, v: bool): nat {
    if |g| == 0 then 0
    else GridOccurrences(g[..|g| - 1], v) + Occurrences(g[|g| - 1], v)
  }

  /** Row-major flattening of a grid. */
  function FlattenGrid<T>(g: seq<seq<T>>): seq<T> {
    if |g| == 0 then [] else FlattenGrid(g[..|g| - 1]) + g[|g| - 1]
  }

  // -------------------------------------------------------------------------
  // Validators
  // -------------------------------------------------------------------------

  predicate AllThreeDimensional(images: seq<Tensor>) {
    forall i :: 0 <= i < |images| ==> |images[i].shape| == 3
  }

  predicate SameChannels(images: seq<Tensor>)
    requires |images| > 0 && AllThreeDimensional(images)
  {
    forall i :: 0 <= i < |images| ==> images[i].shape[0] == images[0].shape[0]
  }

  predicate SameDType(images: seq<Tensor>) {
    forall i :: 0 <= i < |images| ==> images[i].dtype == images[0].dtype
  }

  predicate SameDevice(images: seq<Tensor>) {
    forall i :: 0 <= i < |images| ==> images[i].device == images[0].device
  }

  /** `_check_images`: the checks in the order they are made. */
  function CheckImages(images: seq<Tensor>): (r: Outcome<BatchError>)
    ensures r.Pass? <==> |images| > 0 && AllThreeDimensional(images) && SameChannels(images)
                         && SameDType(images) && SameDevice(images)
    ensures r == Fail(NoImages) <==> |images| == 0
    ensures r == Fail(NotThreeDimensional) <==> |images| > 0 && !AllThreeDimensional(images)
    ensures r == Fail(ChannelMismatch) <==>
      |images| > 0 && AllThreeDimensional(images) && !SameChannels(images)
    ensures r == Fail(DTypeMismatch) <==>
      |images| > 0 && AllThreeDimensional(images) && SameChannels(images) && !SameDType(images)
  {
    if |images| == 0 then Fail(NoImages)
    else if !AllThreeDimensional(images) then Fail(NotThreeDimensional)
    else if !SameChannels(images) then Fail(ChannelMismatch)
    else if !SameDType(images) then Fail(DTypeMismatch)
    else if !SameDevice(images) then Fail(DeviceMismatch)
    else Pass
  }

  /** `_check_data_mask`: the same batch size and the same spatial size. */
  function CheckDataMask(data: Data, mask: Mask): (r: Outcome<BatchError>)
    ensures r.Pass? <==> data.b == mask.b && data.h == mask.h && data.w == mask.w
    ensures r.Fail? ==> r.error == DataMaskMismatch
  {
    if data.b != mask.b || data.h != mask.h || data.w != mask.w then Fail(DataMaskMismatch)
    else Pass
  }

  // -------------------------------------------------------------------------
  // Masks and sizes
  // -------------------------------------------------------------------------

  function Full<T>(h: nat, w: nat, v: T): (r: seq<seq<T>>)
    ensures IsGrid(r, h, w)
  {
    seq(h, _ => seq(w, _ => v))
  }

  /** `g[:h, :w] = False`. */
  function ClearRegion(g: seq<seq<bool>>, h: int, w: int): (r: seq<seq<bool>>)
    ensures |r| == |g| && forall k :: 0 <= k < |g| ==> |r[k]| == |g[k]|
  {
    seq(|g|, r requires 0 <= r < |g| =>
      seq(|g[r]|, c requires 0 <= c < |g[r]| =>
        if r < SliceEnd(h, |g|) && c < SliceEnd(w, |g[r]|) then false else g[r][c]))
  }

  /** The value `_compute_mask_from_sizes` computes. */
  function MaskOf(sizes: seq<Size>, height: nat, width: nat): (r: seq<seq<seq<bool>>>)
    ensures |r| == |sizes| && forall i :: 0 <= i < |r| ==> IsGrid(r[i], height, width)
  {
    seq(|sizes|, i requires 0 <= i < |sizes| => ClearRegion(Full(height, width, true), sizes[i].h, sizes[i].w))
  }

  /** `_compute_mask_from_sizes`: an all-true mask, then the valid region of
      each image set to false. */
  method ComputeMaskFromSizes(sizes: seq<Size>, height: nat, width: nat) returns (m: seq<seq<seq<bool>>>)
    ensures m == MaskOf(sizes, height, width)
  {
    var grids := new seq<seq<bool>>[|sizes|](_ => Full(height, width, true));
    for i := 0 to |sizes|
      invariant forall j :: 0 <= j < i ==> grids[j] == ClearRegion(Full(height, width, true), sizes[j].h, sizes[j].w)
      invariant forall j :: i <= j < |sizes| ==> grids[j] == Full(height, width, true)
    {
      grids[i] := ClearRegion(grids[i], sizes[i].h, sizes[i].w);
    }
    m := grids[..];
  }

  /** `m.sum(0).sum(0)`: the number of padded pixels of one image. */
  function PaddedCount(g: seq<seq<bool>>): nat {
    GridOccurrences(g, true)
  }

  /** One size as `_compute_sizes_from_mask` derives it: both the height and
      the width subtract the same total padded count. */
  function SizeAsWritten(g: seq<seq<bool>>, height: nat, width: nat): Size {
    Size(height - PaddedCount(g), width - PaddedCount(g))
  }

  /** The value `_compute_sizes_from_mask` computes. */
  function SizesAsWritten(mask: Mask): (r: seq<Size>)
    ensures |r| == |mask.values|
  {
    seq(|mask.values|, i requires 0 <= i < |mask.values| => SizeAsWritten(mask.values[i], mask.h, mask.w))
  }

  /** `_compute_sizes_from_mask`: one size appended per mask item. */
  method ComputeSizesFromMask(mask: Mask) returns (sizes: seq<Size>)
    ensures sizes == SizesAsWritten(mask)
  {
    sizes := [];
    for i := 0 to |mask.values|
      invariant |sizes| == i
      invariant forall j :: 0 <= j < i ==> sizes[j] == SizeAsWritten(mask.values[j], mask.h, mask.w)
    {
      var padded := PaddedCount(mask.values[i]);
      sizes := sizes + [Size(mask.h - padded, mask.w - padded)];
    }
  }

  // -------------------------------------------------------------------------
  // The constructor
  // -------------------------------------------------------------------------

  /** The checks made when `check_validity` is set: the same device, then
      `_check_data_mask`. A mask of a dtype other than bool cannot be
      represented. */
  function CheckValidity(data: Data, mask: Mask): (r: Outcome<BatchError>)
    ensures r.Pass? <==> mask.device == data.device && CheckDataMask(data, mask).Pass?
  {
    if mask.device != data.device then Fail(MaskDeviceMismatch)
    else CheckDataMask(data, mask)
  }

  function Finish(data: Data, sizes: seq<Size>, mask: Mask, checkValidity: bool): (r: Result<BatchedImages, BatchError>)
    ensures r.Ok? <==> !checkValidity || CheckValidity(data, mask).Pass?
    ensures r.Ok? ==> r.value == BatchedImages(data, sizes, mask)
  {
    if checkValidity then
      match CheckValidity(data, mask)
      case Fail(e) => Err(e)
      case Pass => Ok(BatchedImages(data, sizes, mask))
    else Ok(BatchedImages(data, sizes, mask))
  }

  /** The value `__init__` builds from the data and the optional sizes and
      mask: the missing one is derived from the other; with neither, the
      images are taken as unpadded and nothing is checked. */
  function Construct(data: Data, imageSizes: Option<seq<Size>>, mask: Option<Mask>, checkValidity: bool)
    : (r: Result<BatchedImages, BatchError>)
    ensures r.Ok? ==> r.value.data == data
    ensures imageSizes.Some? ==> (r.Ok? ==> r.value.imageSizes == imageSizes.value)
    ensures mask.Some? ==> (r.Ok? ==> r.value.mask == mask.value)
    ensures imageSizes.Some? && mask.Some? && checkValidity && imageSizes.value != SizesAsWritten(mask.value)
            ==> r == Err(SizesMaskMismatch)
    ensures (imageSizes.Some? || mask.Some?) && checkValidity && r.Ok? ==> CheckValidity(data, r.value.mask).Pass?
    // Which inputs are accepted: without validation everything is; with it,
    // exactly those whose mask passes the checks and, when both were given,
    // whose sizes are the ones the mask gives.
    ensures !checkValidity || (imageSizes.None? && mask.None?) ==> r.Ok?
    ensures mask.Some? && checkValidity ==>
      (r.Ok? <==> CheckValidity(data, mask.value).Pass?
                  && (imageSizes.Some? ==> imageSizes.value == SizesAsWritten(mask.value)))
    ensures imageSizes.Some? && mask.None? && checkValidity ==>
      (r.Ok? <==> CheckValidity(data, Mask(|imageSizes.value|, data.h, data.w,
                                           MaskOf(imageSizes.value, data.h, data.w), data.device)).Pass?)
    // A missing side is derived from the other.
    ensures imageSizes.None? && mask.Some? && r.Ok? ==> r.value.imageSizes == SizesAsWritten(mask.value)
    ensures imageSizes.Some? && mask.None? && r.Ok? ==>
      r.value.mask == Mask(|imageSizes.value|, data.h, data.w, MaskOf(imageSizes.value, data.h, data.w), data.device)
  {
    match (imageSizes, mask)
    case (None, None) =>
      Ok(BatchedImages(data, seq(data.b, _ => Size(data.h, data.w)),
                       Mask(data.b, data.h, data.w, seq(data.b, _ => Full(data.h, data.w, false)), data.device)))
    case (None, Some(m)) =>
      Finish(data, SizesAsWritten(m), m, checkValidity)
    case (Some(s), None) =>
      Finish(data, s, Mask(|s|, data.h, data.w, MaskOf(s, data.h, data.w), data.device), checkValidity)
    case (Some(s), Some(m)) =>
      if checkValidity && s != SizesAsWritten(m) then Err(SizesMaskMismatch)
      else Finish(data, s, m, checkValidity)
  }

  /** `BatchedImages.__init__`. */
  method New(data: Data, imageSizes: Option<seq<Size>>, mask: Option<Mask>, checkValidity: bool)
    returns (r: Result<BatchedImages, BatchError>)
    ensures r == Construct(data, imageSizes, mask, checkValidity)
  {
    match (imageSizes, mask)
    case (None, None) =>
      var sizes := seq(data.b, _ => Size(data.h, data.w));
      var zeros := Mask(data.b, data.h, data.w, seq(data.b, _ => Full(data.h, data.w, false)), data.device);
      return Ok(BatchedImages(data, sizes, zeros));
    case (None, Some(m)) =>
      var sizes := ComputeSizesFromMask(m);
      r := Finish(data, sizes, m, checkValidity);
    case (Some(s), None) =>
      var values := ComputeMaskFromSizes(s, data.h, data.w);
      r := Finish(data, s, Mask(|s|, data.h, data.w, values, data.device), checkValidity);
    case (Some(s), Some(m)) =>
      if checkValidity {
        var maskSizes := ComputeSizesFromMask(m);
        if s != maskSizes {
          return Err(SizesMaskMismatch);
        }
      }
      r := Finish(data, s, m, checkValidity);
  }

  // -------------------------------------------------------------------------
  // Batching
  // -------------------------------------------------------------------------

  /** The largest entry of a non-empty sequence. */
  function MaxOf(xs: seq<nat>): (m: nat)
    requires |xs| > 0
    ensures forall i :: 0 <= i < |xs| ==> xs[i] <= m
    ensures exists i :: 0 <= i < |xs| && xs[i] == m
  {
    if |xs| == 1 then xs[0]
    else
      var rest := MaxOf(xs[1..]);
      assert forall i :: 1 <= i < |xs| ==> xs[i] == xs[1..][i - 1];
      if xs[0] >= rest then xs[0] else rest
  }

  /** `canvas[:, :h, :w].copy_(image)` for an image no larger than the
      canvas. */
  function Paste(canvas: seq<seq<seq<real>>>, image: seq<seq<seq<real>>>, c: nat, h: nat, w: nat,
                 height: nat, width: nat): (r: seq<seq<seq<real>>>)
    requires IsVolume(canvas, c, height, width) && IsVolume(image, c, h, w)
    requires h <= height && w <= width
    ensures IsVolume(r, c, height, width)
  {
    seq(c, ch requires 0 <= ch < c =>
      seq(height, row requires 0 <= row < height =>
        seq(width, col requires 0 <= col < width =>
          if row < h && col < w then image[ch][row][col] else canvas[ch][row][col])))
  }

  function Canvas(c: nat, height: nat, width: nat, pad: real): (r: seq<seq<seq<real>>>)
    ensures IsVolume(r, c, height, width)
  {
    seq(c, _ => Full(height, width, pad))
  }

  function SizesOf(images: seq<Tensor>): (r: seq<Size>)
    requires AllThreeDimensional(images)
    ensures |r| == |images|
    ensures forall i :: 0 <= i < |images| ==> r[i] == Size(images[i].shape[1], images[i].shape[2])
  {
    seq(|images|, i requires 0 <= i < |images| => Size(images[i].shape[1], images[i].shape[2]))
  }

  function Heights(images: seq<Tensor>): (r: seq<nat>)
    requires AllThreeDimensional(images)
    ensures |r| == |images| && forall i :: 0 <= i < |images| ==> r[i] == images[i].shape[1]
  {
    seq(|images|, i requires 0 <= i < |images| => images[i].shape[1])
  }

  function Widths(images: seq<Tensor>): (r: seq<nat>)
    requires AllThreeDimensional(images)
    ensures |r| == |images| && forall i :: 0 <= i < |images| ==> r[i] == images[i].shape[2]
  {
    seq(|images|, i requires 0 <= i < |images| => images[i].shape[2])
  }

  /** The padded volume of image i in a batch of checked images. */
  function PaddedImage(images: seq<Tensor>, i: nat, pad: real): (r: seq<seq<seq<real>>>)
    requires CheckImages(images).Pass? && forall k :: 0 <= k < |images| ==> images[k].WellFormed()
    requires i < |images|
    ensures IsVolume(r, images[0].shape[0], MaxOf(Heights(images)), MaxOf(Widths(images)))
  {
    var c, height, width := images[0].shape[0], MaxOf(Heights(images)), MaxOf(Widths(images));
    assert images[i].WellFormed() && images[i].shape[0] == c;
    assert Heights(images)[i] == images[i].shape[1] && Widths(images)[i] == images[i].shape[2];
    Paste(Canvas(c, height, width, pad), images[i].values, c, images[i].shape[1], images[i].shape[2], height, width)
  }

  /** The value `batch` computes. */
  function Batched(images: seq<Tensor>, pad: real): (r: Result<BatchedImages, BatchError>)
    requires forall k :: 0 <= k < |images| ==> images[k].WellFormed()
    ensures r.Ok? <==> CheckImages(images).Pass?
    ensures r.Err? ==> r.error == CheckImages(images).error
    ensures r.Ok? ==> r.value.WellShaped() && r.value.data.b == r.value.mask.b == |r.value.imageSizes| == |images|
  {
    match CheckImages(images)
    case Fail(e) => Err(e)
    case Pass =>
      var c, height, width := images[0].shape[0], MaxOf(Heights(images)), MaxOf(Widths(images));
      var values := seq(|images|, i requires 0 <= i < |images| => PaddedImage(images, i, pad));
      var data := Data(|images|, c, height, width, values, images[0].dtype, images[0].device);
      Construct(data, Some(SizesOf(images)), None, false)
  }

  /** `batch[i, :, :h, :w].copy_(image)`: image i copied into the corner of
      its slot, which still holds the bare canvas; the other slots are kept. */
  method PasteInto(canvas: array<seq<seq<seq<real>>>>, images: seq<Tensor>, i: nat, pad: real)
    requires CheckImages(images).Pass? && forall k :: 0 <= k < |images| ==> images[k].WellFormed()
    requires i < |images| == canvas.Length
    requires canvas[i] == Canvas(images[0].shape[0], MaxOf(Heights(images)), MaxOf(Widths(images)), pad)
    modifies canvas
    ensures canvas[i] == PaddedImage(images, i, pad)
    ensures forall j :: 0 <= j < canvas.Length && j != i ==> canvas[j] == old(canvas[j])
  {
    var c, h, w := images[0].shape[0], images[i].shape[1], images[i].shape[2];
    assert images[i].WellFormed() && images[i].shape[0] == c;
    assert Heights(images)[i] == h && Widths(images)[i] == w;
    canvas[i] := Paste(canvas[i], images[i].values, c, h, w, MaxOf(Heights(images)), MaxOf(Widths(images)));
  }

  /** The padded images of a batch: a canvas per image filled with the
      padding value, each image then copied into its corner. */
  method PadImages(images: seq<Tensor>, pad: real) returns (values: seq<seq<seq<seq<real>>>>)
    requires CheckImages(images).Pass? && forall k :: 0 <= k < |images| ==> images[k].WellFormed()
    ensures values == seq(|images|, i requires 0 <= i < |images| => PaddedImage(images, i, pad))
  {
    var height, width := MaxOf(Heights(images)), MaxOf(Widths(images));
    var c := images[0].shape[0];
    var canvas := new seq<seq<seq<real>>>[|images|](_ => Canvas(c, height, width, pad));
    for i := 0 to |images|
      invariant forall j :: 0 <= j < i ==> canvas[j] == PaddedImage(images, j, pad)
      invariant forall j :: i <= j < |images| ==> canvas[j] == Canvas(c, height, width, pad)
    {
      PasteInto(canvas, images, i, pad);
    }
    values := canvas[..];
  }

  /** `BatchedImages.batch`: check, pad every image to the largest height
      and width, then build the batch from the sizes. */
  method Batch(images: seq<Tensor>, pad: real) returns (r: Result<BatchedImages, BatchError>)
    requires forall k :: 0 <= k < |images| ==> images[k].WellFormed()
    ensures r == Batched(images, pad)
  {
    var check := CheckImages(images);
    if check.Fail? {
      return Err(check.error);
    }
    var sizes := SizesOf(images);
    var height, width := MaxOf(Heights(images)), MaxOf(Widths(images));
    var values := PadImages(images, pad);
    var data := Data(|images|, images[0].shape[0], height, width, values, images[0].dtype, images[0].device);
    r := New(data, Some(sizes), None, false);
  }

  // -------------------------------------------------------------------------
  // Accessors and conversions
  // -------------------------------------------------------------------------

  /** `volume[:, :h, :w]`. */
  function Crop(v: seq<seq<seq<real>>>, h: int, w: int): (r: seq<seq<seq<real>>>)
    ensures |r| == |v|
    ensures forall ch :: 0 <= ch < |r| ==> |r[ch]| == SliceEnd(h, |v[ch]|)
    ensures forall ch, row :: 0 <= ch < |r| && 0 <= row < |r[ch]| ==>
      row < |v[ch]| && |r[ch][row]| == SliceEnd(w, |v[ch][row]|)
    // Every kept entry is the entry at the same place of the volume.
    ensures forall ch, row, col :: 0 <= ch < |r| && 0 <= row < |r[ch]| && 0 <= col < |r[ch][row]| ==>
      row < |v[ch]| && col < |v[ch][row]| && r[ch][row][col] == v[ch][row][col]
  {
    seq(|v|, ch requires 0 <= ch < |v| =>
      seq(SliceEnd(h, |v[ch]|), row requires 0 <= row < SliceEnd(h, |v[ch]|) =>
        v[ch][row][..SliceEnd(w, |v[ch][row]|)]))
  }

  /** `unbatch`: every image cropped to its size; fails when there are more
      sizes than images in the data. */
  function Unbatch(b: BatchedImages): (r: Result<seq<seq<seq<seq<real>>>>, BatchError>)
    ensures r.Ok? <==> |b.imageSizes| <= |b.data.values|
    ensures r.Ok? ==> |r.value| == |b.imageSizes|
  {
    if |b.imageSizes| > |b.data.values| then Err(IndexOutOfRange(|b.data.values|))
    else Ok(seq(|b.imageSizes|, i requires 0 <= i < |b.imageSizes| =>
                  Crop(b.data.values[i], b.imageSizes[i].h, b.imageSizes[i].w)))
  }

  /** Python indexing of a sequence of length n: negative indices count from
      the end. */
  function Wrap(index: int, n: nat): (r: int)
    ensures -(n as int) <= index < n <==> 0 <= r < n
    ensures 0 <= index ==> r == index
    ensures r == index || r == index + n
  {
    if index < 0 then index + n else index
  }

  /** `b[index]`: the size is looked up first, then the data. */
  function GetItem(b: BatchedImages, index: int): (r: Result<seq<seq<seq<real>>>, BatchError>)
    ensures r.Ok? <==> 0 <= Wrap(index, |b.imageSizes|) < |b.imageSizes|
                       && 0 <= Wrap(index, |b.data.values|) < |b.data.values|
  {
    var i := Wrap(index, |b.imageSizes|);
    if !(0 <= i < |b.imageSizes|) then Err(IndexOutOfRange(index))
    else
      var j := Wrap(index, |b.data.values|);
      if !(0 <= j < |b.data.values|) then Err(IndexOutOfRange(index))
      else Ok(Crop(b.data.values[j], b.imageSizes[i].h, b.imageSizes[i].w))
  }

  /** `len(b)`. */
  function Length(b: BatchedImages): (r: nat)
    ensures r == b.data.b
  {
    b.data.b
  }

  /** `replace`: new data compatible with the mask, same sizes and mask. */
  function Replace(b: BatchedImages, data: Data): (r: Result<BatchedImages, BatchError>)
    ensures r.Ok? <==> CheckDataMask(data, b.mask).Pass?
    ensures r.Err? ==> r.error == DataMaskMismatch
    ensures r.Ok? ==> r.value == BatchedImages(data, b.imageSizes, b.mask)
  {
    match CheckDataMask(data, b.mask)
    case Fail(e) => Err(e)
    case Pass => Construct(data, Some(b.imageSizes), Some(b.mask), false)
  }

  /** `flatten(2).permute(0, 2, 1)` of one C × H × W volume: H·W tokens of C
      channels each. */
  function Tokens(v: seq<seq<seq<real>>>, c: nat, h: nat, w: nat): seq<seq<real>>
    requires IsVolume(v, c, h, w)
  {
    seq(h * w, p requires 0 <= p < h * w =>
      seq(c, ch requires 0 <= ch < c => FlattenGridIndexable(v[ch], h, w, p)))
  }

  function FlattenGridIndexable(g: seq<seq<real>>, h: nat, w: nat, p: nat): real
    requires IsGrid(g, h, w) && p < h * w
  {
    FlattenGridLength(g, h, w);
    FlattenGrid(g)[p]
  }

  lemma {:induction false} FlattenGridLength<T>(g: seq<seq<T>>, h: nat, w: nat)
    requires IsGrid(g, h, w)
    ensures |FlattenGrid(g)| == h * w
  {
    if h > 0 {
      FlattenGridLength(g[..h - 1], h - 1, w);
      assert (h - 1) * w + w == h * w;
    }
  }

  lemma FlattenMaskLengths(m: Mask)
    requires m.Valid()
    ensures forall i :: 0 <= i < m.b ==> |FlattenGrid(m.values[i])| == m.h * m.w
  {
    forall i | 0 <= i < m.b
      ensures |FlattenGrid(m.values[i])| == m.h * m.w
    {
      FlattenGridLength(m.values[i], m.h, m.w);
    }
  }

  /** `to_sequences`: tokens in row-major order, the mask flattened the same
      way, and h·w valid tokens per image. */
  function ToSequences(b: BatchedImages): (r: BatchedSequences)
    requires b.WellShaped()
    ensures |r.data| == b.data.b && |r.mask| == b.mask.b && |r.sizes| == |b.imageSizes|
    ensures forall i :: 0 <= i < |r.data| ==> |r.data[i]| == b.data.h * b.data.w
    ensures forall i :: 0 <= i < |r.mask| ==> |r.mask[i]| == b.mask.h * b.mask.w
    ensures forall i :: 0 <= i < |r.sizes| ==> r.sizes[i] == b.imageSizes[i].h * b.imageSizes[i].w
  {
    var d := b.data;
    var data := seq(d.b, i requires 0 <= i < d.b => Tokens(d.values[i], d.c, d.h, d.w));
    var mask := seq(b.mask.b, i requires 0 <= i < b.mask.b => FlattenGrid(b.mask.values[i]));
    FlattenMaskLengths(b.mask);
    BatchedSequences(data, seq(|b.imageSizes|, i requires 0 <= i < |b.imageSizes| =>
                                 b.imageSizes[i].h * b.imageSizes[i].w), mask)
  }
}
