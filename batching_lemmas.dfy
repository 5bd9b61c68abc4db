/** Properties of padded image batches. */
module BatchLemmas {
  import opened Results
  import opened Numeric
  import opened Batching

  // -------------------------------------------------------------------------
  // The mask built from sizes
  // -------------------------------------------------------------------------

  /** A row whose first w entries are false when `cleared`, true elsewhere. */
  function MaskRow(width: nat, w: int, cleared: bool): seq<bool> {
    seq(width, c => !(cleared && c < w))
  }

  /** The mask grid of an image of size (h, w) padded to height × width. */
  function MaskGrid(height: nat, width: nat, h: int, w: int): seq<seq<bool>> {
    seq(height, r => MaskRow(width, w, r < h))
  }

  lemma ClearFullIsMaskGrid(height: nat, width: nat, h: int, w: int)
    ensures ClearRegion(Full(height, width, true), h, w)
         == MaskGrid(height, width, SliceEnd(h, height), SliceEnd(w, width))
  {
    var g := Full(height, width, true);
    var l := ClearRegion(g, h, w);
    var m := MaskGrid(height, width, SliceEnd(h, height), SliceEnd(w, width));
    forall r | 0 <= r < height
      ensures l[r] == m[r]
    {
      assert g[r] == seq(width, _ => true);
      assert m[r] == MaskRow(width, SliceEnd(w, width), r < SliceEnd(h, height));
      forall c | 0 <= c < width
        ensures l[r][c] == m[r][c]
      {
        assert l[r][c] == if r < SliceEnd(h, |g|) && c < SliceEnd(w, |g[r]|) then false else g[r][c];
      }
    }
  }

  /** `_compute_mask_from_sizes` sets a pixel false exactly when it lies in
      the image's slice `[:h, :w]`. */
  lemma MaskOfMeaning(sizes: seq<Size>, height: nat, width: nat)
    ensures forall i, r, c :: 0 <= i < |sizes| && 0 <= r < height && 0 <= c < width ==>
      (MaskOf(sizes, height, width)[i][r][c] == false <==>
         (r < SliceEnd(sizes[i].h, height) && c < SliceEnd(sizes[i].w, width)))
  {
  }

  /** For a size within the padded extent: false exactly on r < h and
      c < w. */
  lemma MaskOfWithinBounds(sizes: seq<Size>, height: nat, width: nat)
    requires forall i :: 0 <= i < |sizes| ==> 0 <= sizes[i].h <= height && 0 <= sizes[i].w <= width
    ensures forall i, r, c :: 0 <= i < |sizes| && 0 <= r < height && 0 <= c < width ==>
      (MaskOf(sizes, height, width)[i][r][c] == false <==> r < sizes[i].h && c < sizes[i].w)
  {
    MaskOfMeaning(sizes, height, width);
  }

  // -------------------------------------------------------------------------
  // Counting
  // -------------------------------------------------------------------------

  lemma {:induction false} OccurrencesComplement(row: seq<bool>)
    ensures Occurrences(row, true) + Occurrences(row, false) == |row|
  {
    if |row| > 0 {
      OccurrencesComplement(row[..|row| - 1]);
    }
  }

  lemma {:induction false} GridOccurrencesComplement(g: seq<seq<bool>>, height: nat, width: nat)
    requires IsGrid(g, height, width)
    ensures GridOccurrences(g, true) + GridOccurrences(g, false) == height * width
  {
    if height > 0 {
      GridOccurrencesComplement(g[..height - 1], height - 1, width);
      OccurrencesComplement(g[height - 1]);
      assert (height - 1) * width + width == height * width;
    }
  }

  lemma {:induction false} OccurrencesAppend(a: seq<bool>, b: seq<bool>, v: bool)
    ensures Occurrences(a + b, v) == Occurrences(a, v) + Occurrences(b, v)
  {
    if |b| == 0 {
      assert a + b == a;
    } else {
      assert (a + b)[..|a + b| - 1] == a + b[..|b| - 1];
      assert (a + b)[|a + b| - 1] == b[|b| - 1];
      OccurrencesAppend(a, b[..|b| - 1], v);
    }
  }

  /** Counting over a flattened grid counts over the grid. */
  lemma {:induction false} OccurrencesFlatten(g: seq<seq<bool>>, v: bool)
    ensures Occurrences(FlattenGrid(g), v) == GridOccurrences(g, v)
  {
    if |g| > 0 {
      OccurrencesFlatten(g[..|g| - 1], v);
      OccurrencesAppend(FlattenGrid(g[..|g| - 1]), g[|g| - 1], v);
    }
  }

  lemma {:induction false} MaskRowCount(width: nat, w: int, cleared: bool)
    requires w >= 0
    ensures Occurrences(MaskRow(width, w, cleared), false) == if cleared then MinInt(w, width) else 0
  {
    if width > 0 {
      assert MaskRow(width, w, cleared)[..width - 1] == MaskRow(width - 1, w, cleared);
      MaskRowCount(width - 1, w, cleared);
    }
  }

  lemma {:induction false} MaskGridCount(height: nat, width: nat, h: int, w: int)
    requires h >= 0 && 0 <= w <= width
    ensures GridOccurrences(MaskGrid(height, width, h, w), false) == MinInt(h, height) * w
  {
    if height > 0 {
      assert MaskGrid(height, width, h, w)[..height - 1] == MaskGrid(height - 1, width, h, w);
      MaskGridCount(height - 1, width, h, w);
      MaskRowCount(width, w, height - 1 < h);
      if height - 1 < h {
        assert MinInt(h, height) * w == MinInt(h, height - 1) * w + w;
      }
    }
  }

  /** The mask of an image of size (h, w) padded to height × width has h·w
      valid pixels and height·width − h·w padded ones. */
  lemma MaskCounts(height: nat, width: nat, h: int, w: int)
    requires 0 <= h <= height && 0 <= w <= width
    ensures GridOccurrences(ClearRegion(Full(height, width, true), h, w), false) == h * w
    ensures PaddedCount(ClearRegion(Full(height, width, true), h, w)) == height * width - h * w
  {
    ClearFullIsMaskGrid(height, width, h, w);
    MaskGridCount(height, width, h, w);
    GridOccurrencesComplement(MaskGrid(height, width, h, w), height, width);
  }

  // -------------------------------------------------------------------------
  // Sizes derived from a mask, as written
  // -------------------------------------------------------------------------

  /** Each derived size subtracts the whole padded count from both the
      height and the width. */
  lemma SizesFromMaskOfSizes(sizes: seq<Size>, height: nat, width: nat, device: Device)
    requires forall i :: 0 <= i < |sizes| ==> 0 <= sizes[i].h <= height && 0 <= sizes[i].w <= width
    ensures var derived := SizesAsWritten(Mask(|sizes|, height, width, MaskOf(sizes, height, width), device));
      forall i :: 0 <= i < |sizes| ==>
        var padded := height * width - sizes[i].h * sizes[i].w;
        derived[i] == Size(height - padded, width - padded)
  {
    forall i | 0 <= i < |sizes|
      ensures PaddedCount(MaskOf(sizes, height, width)[i]) == height * width - sizes[i].h * sizes[i].w
    {
      MaskCounts(height, width, sizes[i].h, sizes[i].w);
    }
  }

  /** Images that fill the whole extent get their sizes back. */
  lemma UnpaddedSizesRoundTrip(sizes: seq<Size>, height: nat, width: nat, device: Device)
    requires forall i :: 0 <= i < |sizes| ==> sizes[i] == Size(height, width)
    ensures SizesAsWritten(Mask(|sizes|, height, width, MaskOf(sizes, height, width), device)) == sizes
  {
    SizesFromMaskOfSizes(sizes, height, width, device);
  }

  /** A 1 × 1 image padded to 1 × 2 has one padded pixel, so its size is
      derived as (0, 1) rather than (1, 1); the constructor then rejects the
      sizes together with the mask built from them. */
  lemma NonSquarePaddingExample(device: Device, dtype: DType)
    ensures var sizes := [Size(1, 1)];
      var mask := Mask(1, 1, 2, MaskOf(sizes, 1, 2), device);
      var data := Data(1, 1, 1, 2, [[[[0.0, 0.0]]]], dtype, device);
      && SizesAsWritten(mask) == [Size(0, 1)]
      && Construct(data, Some(sizes), Some(mask), true) == Err(SizesMaskMismatch)
  {
    var sizes := [Size(1, 1)];
    SizesFromMaskOfSizes(sizes, 1, 2, device);
  }

  /** Whenever some image is padded and its derived size differs, the
      constructor given the sizes and the mask built from them, with
      validity checks on, rejects them. */
  lemma ConsistentPairRejected(data: Data, sizes: seq<Size>, i: nat)
    requires forall k :: 0 <= k < |sizes| ==> 0 <= sizes[k].h <= data.h && 0 <= sizes[k].w <= data.w
    requires i < |sizes|
    requires sizes[i].h != data.h - (data.h * data.w - sizes[i].h * sizes[i].w)
    ensures Construct(data, Some(sizes), Some(Mask(|sizes|, data.h, data.w, MaskOf(sizes, data.h, data.w), data.device)), true)
         == Err(SizesMaskMismatch)
  {
    var mask := Mask(|sizes|, data.h, data.w, MaskOf(sizes, data.h, data.w), data.device);
    SizesFromMaskOfSizes(sizes, data.h, data.w, data.device);
    assert SizesAsWritten(mask)[i] != sizes[i];
  }

  // -------------------------------------------------------------------------
  // The constructor
  // -------------------------------------------------------------------------

  /** With neither sizes nor mask, every image is taken at full size, and the
      all-false mask agrees with those sizes. */
  lemma DefaultsAgree(data: Data, checkValidity: bool)
    ensures Construct(data, None, None, checkValidity).Ok?
    ensures var b := Construct(data, None, None, checkValidity).value;
      && b.imageSizes == seq(data.b, _ => Size(data.h, data.w))
      && b.mask.values == MaskOf(b.imageSizes, data.h, data.w)
      && b.mask.b == data.b && b.mask.h == data.h && b.mask.w == data.w && b.mask.device == data.device
  {
    var b := Construct(data, None, None, checkValidity).value;
    var m := MaskOf(b.imageSizes, data.h, data.w);
    forall i | 0 <= i < data.b
      ensures b.mask.values[i] == m[i]
    {
      ClearFullIsMaskGrid(data.h, data.w, data.h, data.w);
      assert forall r :: 0 <= r < data.h ==> m[i][r] == Full(data.h, data.w, false)[r];
    }
  }

  /** Given sizes only, the mask is derived from them and checked against
      the data when asked. */
  lemma ConstructFromSizes(data: Data, sizes: seq<Size>, checkValidity: bool)
    ensures var r := Construct(data, Some(sizes), None, checkValidity);
      && (r.Ok? <==> !checkValidity || |sizes| == data.b)
      && (r.Ok? ==> r.value == BatchedImages(data, sizes, Mask(|sizes|, data.h, data.w, MaskOf(sizes, data.h, data.w), data.device)))
  {
  }

  // -------------------------------------------------------------------------
  // Batching
  // -------------------------------------------------------------------------

  /** `batch` produces B = len(images) items of images[0]'s channels, padded
      to the largest height and width; its sizes are the images' sizes and
      its mask is the mask of those sizes. */
  lemma BatchShape(images: seq<Tensor>, pad: real)
    requires forall k :: 0 <= k < |images| ==> images[k].WellFormed()
    requires CheckImages(images).Pass?
    ensures var b := Batched(images, pad).value;
      && b.WellShaped()
      && b.data.b == |images| && b.data.c == images[0].shape[0]
      && (forall i :: 0 <= i < |images| ==> images[i].shape[1] <= b.data.h && images[i].shape[2] <= b.data.w)
      && (exists i :: 0 <= i < |images| && images[i].shape[1] == b.data.h)
      && (exists i :: 0 <= i < |images| && images[i].shape[2] == b.data.w)
      && b.data.dtype == images[0].dtype && b.data.device == images[0].device
      && b.imageSizes == SizesOf(images)
      && b.mask == Mask(|images|, b.data.h, b.data.w, MaskOf(SizesOf(images), b.data.h, b.data.w), b.data.device)
  {
    var hs, ws := Heights(images), Widths(images);
    var height, width := MaxOf(hs), MaxOf(ws);
    var i :| 0 <= i < |hs| && hs[i] == height;
    var j :| 0 <= j < |ws| && ws[j] == width;
    assert images[i].shape[1] == height;
    assert images[j].shape[2] == width;
  }

  /** `len` of a batch is the number of images it was built from. */
  lemma BatchLength(images: seq<Tensor>, pad: real)
    requires forall k :: 0 <= k < |images| ==> images[k].WellFormed()
    ensures Batched(images, pad).Ok? ==> Length(Batched(images, pad).value) == |images|
  {
  }

  /** Inside image i's corner the batch holds the image's pixels; elsewhere
      it holds the padding value. */
  lemma BatchContents(images: seq<Tensor>, pad: real)
    requires forall k :: 0 <= k < |images| ==> images[k].WellFormed()
    requires CheckImages(images).Pass?
    ensures var b := Batched(images, pad).value;
      forall i, ch, r, c :: 0 <= i < b.data.b && 0 <= ch < b.data.c && 0 <= r < b.data.h && 0 <= c < b.data.w ==>
        b.data.values[i][ch][r][c]
          == if r < images[i].shape[1] && c < images[i].shape[2] then images[i].values[ch][r][c] else pad
  {
  }

  /** The mask of a batch is false exactly on each image's own pixels. */
  lemma BatchMask(images: seq<Tensor>, pad: real)
    requires forall k :: 0 <= k < |images| ==> images[k].WellFormed()
    requires CheckImages(images).Pass?
    ensures var b := Batched(images, pad).value;
      forall i, r, c :: 0 <= i < b.mask.b && 0 <= r < b.mask.h && 0 <= c < b.mask.w ==>
        (b.mask.values[i][r][c] == false <==> r < images[i].shape[1] && c < images[i].shape[2])
  {
    var b := Batched(images, pad).value;
    BatchShape(images, pad);
    MaskOfWithinBounds(SizesOf(images), b.data.h, b.data.w);
  }

  /** Padding an image and cropping it back to its size gives the image. */
  lemma CropPaste(image: seq<seq<seq<real>>>, c: nat, h: nat, w: nat, height: nat, width: nat, pad: real)
    requires IsVolume(image, c, h, w) && h <= height && w <= width
    ensures Crop(Paste(Canvas(c, height, width, pad), image, c, h, w, height, width), h, w) == image
  {
    var p := Paste(Canvas(c, height, width, pad), image, c, h, w, height, width);
    var q := Crop(p, h, w);
    forall ch | 0 <= ch < c
      ensures q[ch] == image[ch]
    {
      forall r | 0 <= r < h
        ensures q[ch][r] == image[ch][r]
      {
      }
    }
  }

  /** `unbatch(batch(images))` gives back the images. */
  lemma {:induction false} UnbatchBatch(images: seq<Tensor>, pad: real)
    requires forall k :: 0 <= k < |images| ==> images[k].WellFormed()
    requires CheckImages(images).Pass?
    ensures Unbatch(Batched(images, pad).value)
         == Ok(seq(|images|, i requires 0 <= i < |images| => images[i].values))
  {
    var b := Batched(images, pad).value;
    BatchShape(images, pad);
    var u := Unbatch(b).value;
    forall i | 0 <= i < |images|
      ensures u[i] == images[i].values
    {
      assert images[i].WellFormed() && images[i].shape[0] == images[0].shape[0];
      assert Heights(images)[i] == images[i].shape[1] && Widths(images)[i] == images[i].shape[2];
      CropPaste(images[i].values, images[0].shape[0], images[i].shape[1], images[i].shape[2],
                b.data.h, b.data.w, pad);
    }
    assert u == seq(|images|, i requires 0 <= i < |images| => images[i].values);
  }

  /** `b[i]` is `unbatch(b)[i]`, negative indices counting from the end. */
  lemma GetItemIsUnbatch(b: BatchedImages, index: int)
    requires |b.imageSizes| == |b.data.values|
    requires -|b.imageSizes| <= index < |b.imageSizes|
    ensures GetItem(b, index) == Ok(Unbatch(b).value[Wrap(index, |b.imageSizes|)])
  {
  }

  /** A batch with one size per data item unbatches into `len` images. */
  lemma UnbatchLength(b: BatchedImages)
    requires b.data.Valid() && |b.imageSizes| == b.data.b
    ensures Unbatch(b).Ok? && |Unbatch(b).value| == Length(b)
  {
  }

  /** Indices outside [-n, n) are an error. */
  lemma GetItemOutOfRange(b: BatchedImages, index: int)
    requires index < -|b.imageSizes| || |b.imageSizes| <= index
    ensures GetItem(b, index) == Err(IndexOutOfRange(index))
  {
  }

  // -------------------------------------------------------------------------
  // Sequences
  // -------------------------------------------------------------------------

  lemma RowMajorBound(r: nat, c: nat, h: nat, w: nat)
    requires r < h && c < w
    ensures r * w + c < h * w
  {
    assert r * w + c < (r + 1) * w;
    assert (r + 1) * w <= h * w;
  }

  lemma FlattenGridLast<T>(g: seq<seq<T>>, h: nat, w: nat, c: nat)
    requires IsGrid(g, h, w) && h > 0 && c < w
    requires |FlattenGrid(g[..h - 1])| == (h - 1) * w
    ensures FlattenGrid(g)[(h - 1) * w + c] == g[h - 1][c]
  {
  }

  lemma FlattenGridFront<T>(g: seq<seq<T>>, h: nat, k: nat)
    requires |g| == h && h > 0 && k < |FlattenGrid(g[..h - 1])|
    ensures FlattenGrid(g)[k] == FlattenGrid(g[..h - 1])[k]
  {
  }

  /** Entry (r, c) of a grid is entry r·w + c of its flattening. */
  lemma {:induction false} FlattenGridAt<T>(g: seq<seq<T>>, h: nat, w: nat, r: nat, c: nat)
    requires IsGrid(g, h, w) && r < h && c < w
    ensures |FlattenGrid(g)| == h * w
    ensures r * w + c < h * w && FlattenGrid(g)[r * w + c] == g[r][c]
  {
    FlattenGridLength(g, h, w);
    FlattenGridLength(g[..h - 1], h - 1, w);
    RowMajorBound(r, c, h, w);
    if r < h - 1 {
      FlattenGridAt(g[..h - 1], h - 1, w, r, c);
      FlattenGridFront(g, h, r * w + c);
    } else {
      FlattenGridLast(g, h, w, c);
    }
  }

  lemma TokenAt(v: seq<seq<seq<real>>>, c: nat, h: nat, w: nat, r: nat, col: nat, ch: nat)
    requires IsVolume(v, c, h, w) && r < h && col < w && ch < c
    ensures r * w + col < h * w && Tokens(v, c, h, w)[r * w + col][ch] == v[ch][r][col]
  {
    FlattenGridAt(v[ch], h, w, r, col);
  }

  /** `to_sequences` keeps the pixels in row-major order: token r·W + c of
      item i holds the channels of pixel (r, c). */
  lemma ToSequencesDataAt(b: BatchedImages, i: nat, r: nat, c: nat, ch: nat)
    requires b.WellShaped() && i < b.data.b && r < b.data.h && c < b.data.w && ch < b.data.c
    ensures r * b.data.w + c < b.data.h * b.data.w && ToSequences(b).data[i][r * b.data.w + c][ch] == b.data.values[i][ch][r][c]
  {
    var d := b.data;
    assert ToSequences(b).data[i] == Tokens(d.values[i], d.c, d.h, d.w);
    TokenAt(d.values[i], d.c, d.h, d.w, r, c, ch);
  }

  /** Mask entry r·W + c of item i is the mask of pixel (r, c). */
  lemma ToSequencesMaskAt(b: BatchedImages, i: nat, r: nat, c: nat)
    requires b.WellShaped() && i < b.mask.b && r < b.mask.h && c < b.mask.w
    ensures r * b.mask.w + c < b.mask.h * b.mask.w && ToSequences(b).mask[i][r * b.mask.w + c] == b.mask.values[i][r][c]
  {
    assert ToSequences(b).mask[i] == FlattenGrid(b.mask.values[i]);
    FlattenGridAt(b.mask.values[i], b.mask.h, b.mask.w, r, c);
  }

  /** When the mask is the one built from the sizes, each sequence's size is
      the number of valid (false) entries of its flattened mask. */
  lemma ToSequencesValidTokens(b: BatchedImages)
    requires b.WellShaped()
    requires |b.imageSizes| == b.mask.b
    requires b.mask.values == MaskOf(b.imageSizes, b.mask.h, b.mask.w)
    requires forall i :: 0 <= i < |b.imageSizes| ==> 0 <= b.imageSizes[i].h <= b.mask.h && 0 <= b.imageSizes[i].w <= b.mask.w
    ensures var s := ToSequences(b);
      forall i :: 0 <= i < |s.sizes| ==> Occurrences(s.mask[i], false) == s.sizes[i]
  {
    var s := ToSequences(b);
    forall i | 0 <= i < |s.sizes|
      ensures Occurrences(s.mask[i], false) == s.sizes[i]
    {
      OccurrencesFlatten(b.mask.values[i], false);
      MaskCounts(b.mask.h, b.mask.w, b.imageSizes[i].h, b.imageSizes[i].w);
    }
  }

  /** A batch straight from `batch` meets the conditions above. */
  lemma BatchedToSequences(images: seq<Tensor>, pad: real)
    requires forall k :: 0 <= k < |images| ==> images[k].WellFormed()
    requires CheckImages(images).Pass?
    ensures var b := Batched(images, pad).value;
      var s := ToSequences(b);
      && |s.sizes| == |images|
      && forall i :: 0 <= i < |images| ==>
           s.sizes[i] == images[i].shape[1] as int * images[i].shape[2] && Occurrences(s.mask[i], false) == s.sizes[i]
  {
    var b := Batched(images, pad).value;
    BatchShape(images, pad);
    var sizes := SizesOf(images);
    forall i | 0 <= i < |sizes|
      ensures 0 <= sizes[i].h <= b.mask.h && 0 <= sizes[i].w <= b.mask.w
    {
      assert sizes[i] == Size(images[i].shape[1], images[i].shape[2]);
    }
    ToSequencesValidTokens(b);
    var s := ToSequences(b);
    forall i | 0 <= i < |images|
      ensures s.sizes[i] == images[i].shape[1] * images[i].shape[2]
    {
      assert s.sizes[i] == sizes[i].h * sizes[i].w;
    }
  }

  /** `replace` keeps the sizes and the mask and swaps the data. */
  lemma ReplaceKeeps(b: BatchedImages, data: Data)
    requires CheckDataMask(data, b.mask).Pass?
    ensures Replace(b, data).Ok?
    ensures Replace(b, data).value.imageSizes == b.imageSizes && Replace(b, data).value.mask == b.mask
    ensures Replace(b, data).value.data == data
    ensures Unbatch(Replace(b, data).value) == Unbatch(BatchedImages(data, b.imageSizes, b.mask))
  {
  }
}
