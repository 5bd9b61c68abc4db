# DeepSight structures and configuration checks in Dafny

This project models five small, self-contained pieces of the DeepSight
computer-vision library. Each is modelled with exact arithmetic, and its
properties are proved.

- **Bounding boxes** (`Bboxes`, `BboxLemmas`). A set of N boxes has
  coordinates in one of three formats (XYXY, XYWH, CXCYWH), a `normalized`
  flag and an (H, W) image size. The model covers:
  - the constructor's shape check;
  - format conversion and normalisation, with their short-circuits;
  - `convert` and `convert_like`;
  - `resize`, `horizontal_flip`, `clamp_to_image` and `crop`;
  - `area`, `union`, `intersection`, `union_area` and `intersection_area`;
  - `is_valid`.

  `horizontal_flip` and `clamp_to_image` update a cloned coordinate buffer
  in place. They are methods over a fresh `array2<real>`, each proved equal
  to a specification function.

  Most properties are proved against one reference meaning. `Corners` gives
  the absolute XYXY corners of every box, whatever its format or
  normalisation. On corners, every conversion is the identity, every
  transform is a simple map, and two box sets with the same tags and corners
  are equal.
- **Padded image batching** (`Batching`, `BatchLemmas`). `BatchedImages`
  pads C×H×W images to a common canvas. A boolean mask marks the padding
  (true = padding). The model covers:
  - the constructor's four ways of deriving sizes and mask;
  - `batch`, `unbatch`, `__getitem__`, `__len__`, `replace` and
    `to_sequences`;
  - the validators.

  `batch`, `_compute_mask_from_sizes` and `_compute_sizes_from_mask` are
  loops in the source. They are methods here, proved equal to
  specification functions.
- **Colour-jitter argument checks** (`ColorJitter`, `ColorLemmas`). These
  cover `_check_jitter_properties` and the four ways `ColorJitter.__init__`
  calls it.
- **Coercion helpers** (`Coerce`, `CoerceLemmas`). These cover `to_2tuple`,
  `to_tuple` and `to_set` over a sum type of Python values.
- **ViT encoder configuration** (`VitConfig`, `VitConfigLemmas`). This
  covers the `EncoderConfig` defaults, the `__post_init__` checks, the
  variant table and `from_variant`.

`Results` holds the shared `Option`, `Result` and `Outcome` types. An
exception raised by the source is an `Err` or `Fail` value here, with one
error constructor per distinct raise.

### Sizes derived from a mask

`_compute_sizes_from_mask` (`src/deepsight/structures/vision/_batched_images.py:247-267`)
carries a TODO. It takes both the height and the width as the canvas extent
minus the same number: the total count of padded pixels of the item. The
model keeps this behaviour as written (`Batching.SizesAsWritten`,
`Batching.ComputeSizesFromMask`). Its consequences are proved:

- `BatchLemmas.SizesFromMaskOfSizes`: for a mask built from size (h, w) on
  an H×W canvas, the derived size is (H - (H·W - h·w), W - (H·W - h·w)).
- `BatchLemmas.UnpaddedSizesRoundTrip`: the derived size is correct only
  when nothing is padded.
- `BatchLemmas.NonSquarePaddingExample`: one 1×1 image on a 1×2 canvas is
  read back as 0×1.
- `BatchLemmas.ConsistentPairRejected`: a consistent (sizes, mask) pair is
  therefore rejected with `SizesMaskMismatch` when validity is checked.

## Model

| member | source | states |
|---|---|---|
| Bboxes.ParseFormat | src/deepsight/structures/_bboxes.py:12-30 | a format tag is accepted as is; a string is accepted exactly when it is the value of some format, and yields that format |
| Bboxes.CheckCoordinates | src/deepsight/structures/_bboxes.py:635-653 | passes exactly for a 2-dimensional shape whose last dimension is 4; a shape of another rank gives the dimensionality error |
| Bboxes.Rows | src/deepsight/structures/_bboxes.py:69-72 | the flat data viewed as rows has a quarter as many entries |
| Bboxes.FlattenRows | src/deepsight/structures/_bboxes.py:69-72 | reading the rows back in order gives the original flat data |
| Bboxes.New | src/deepsight/structures/_bboxes.py:48-76 | succeeds exactly when the shape check passes and the format parses; a shape error is the one reported; on success the set has shape[0] boxes whose row-major coordinates are the input data, in the parsed format |
| Bboxes.ToXyxy | src/deepsight/structures/_bboxes.py:110-133 | the set itself for XYXY input; otherwise every box converted to XYXY, with normalisation and image size unchanged |
| Bboxes.ToXywh | src/deepsight/structures/_bboxes.py:135-158 | the set itself for XYWH input; otherwise every box converted to XYWH, with the other fields unchanged |
| Bboxes.ToCxcywh | src/deepsight/structures/_bboxes.py:160-183 | the set itself for CXCYWH input; otherwise every box converted to CXCYWH, with the other fields unchanged |
| Bboxes.ConvertFormat | src/deepsight/structures/_bboxes.py:227-235 | the format step of `convert`: the target format, and each box converted from the old format to it |
| Bboxes.Normalize | src/deepsight/structures/_bboxes.py:185-201 | the set itself when already normalised; otherwise every box divided by (W, H, W, H) and flagged normalised |
| Bboxes.Denormalize | src/deepsight/structures/_bboxes.py:203-219 | the set itself when not normalised; otherwise every box multiplied by (W, H, W, H) and flagged absolute |
| Bboxes.Convert | src/deepsight/structures/_bboxes.py:221-246 | the requested format and normalisation, each aspect left as it was when not requested; no request gives the set itself |
| Bboxes.ConvertLike | src/deepsight/structures/_bboxes.py:248-251 | the other set's format and normalisation, with this set's image size and count |
| Bboxes.Resize | src/deepsight/structures/_bboxes.py:257-289 | the set itself for an equal size; the new size with format and normalisation kept; normalised coordinates unchanged |
| Bboxes.Flipped | src/deepsight/structures/_bboxes.py:291-309 | the flip keeps format, normalisation, image size and count |
| Bboxes.HorizontalFlip | src/deepsight/structures/_bboxes.py:291-309 | the in-place column updates on a cloned buffer give exactly `Flipped` |
| Bboxes.Clamped | src/deepsight/structures/_bboxes.py:484-503 | clamping keeps format, normalisation, image size and count |
| Bboxes.SetRow | src/deepsight/structures/_bboxes.py:497-500 | row i of the buffer becomes the given box (the clamped row, written column by column) and every other row is kept |
| Bboxes.ClampColumns | src/deepsight/structures/_bboxes.py:495-500 | every row of the buffer is clipped into [0, W] × [0, H] |
| Bboxes.ClampToImage | src/deepsight/structures/_bboxes.py:484-503 | the in-place clamps on a cloned XYXY buffer, converted back, give exactly `Clamped` |
| Bboxes.Crop | src/deepsight/structures/_bboxes.py:311-341 | the crop has the original format and normalisation, the count, and image size (bottom - top, right - left) |
| Bboxes.Area | src/deepsight/structures/_bboxes.py:347-365 | one area per box: (x2 - x1)(y2 - y1) for XYXY, w·h otherwise |
| Bboxes.CheckCompatibility | src/deepsight/structures/_bboxes.py:599-622 | passes exactly when both sets have the same count and image size |
| Bboxes.IntersectionBox | src/deepsight/structures/_bboxes.py:412-414 | the overlap of two boxes has a non-negative width and height |
| Bboxes.Union | src/deepsight/structures/_bboxes.py:389-403 | succeeds exactly when the sets are compatible; the result is XYXY with the first set's normalisation and image size, one box per pair |
| Bboxes.Intersection | src/deepsight/structures/_bboxes.py:405-420 | succeeds exactly when the sets are compatible; the result is XYWH with the first set's normalisation and image size, one box per pair, and every width and height is non-negative |
| Bboxes.IntersectionArea | src/deepsight/structures/_bboxes.py:450-467 | a normalisation mismatch is an error; otherwise succeeds exactly when the sets are compatible, and then is the area of `intersection`, one value per box |
| Bboxes.UnionArea | src/deepsight/structures/_bboxes.py:422-448 | a normalisation mismatch is an error; otherwise succeeds exactly when the intersection area does, and then each value is area1 + area2 - the intersection area |
| Bboxes.IsValid | src/deepsight/structures/_bboxes.py:505-538 | one flag per box |
| BboxLemmas.Corners | src/deepsight/structures/_bboxes.py:110-219 | the absolute XYXY corners of every box, one per box |
| BboxLemmas.BoxConversionKeepsCorners | src/deepsight/structures/_bboxes.py:110-183 | converting a box between any two formats keeps its XYXY corners |
| BboxLemmas.BoxToXyxyInjective | src/deepsight/structures/_bboxes.py:110-133 | two boxes of one format with the same XYXY corners are equal |
| BboxLemmas.ScaleCommutes | src/deepsight/structures/_bboxes.py:110-183 | format conversion commutes with scaling x and y |
| BboxLemmas.DenormalizeIsScale | src/deepsight/structures/_bboxes.py:215-217 | denormalising a box scales x by W and y by H |
| BboxLemmas.NormalizeIsScale | src/deepsight/structures/_bboxes.py:197-199 | normalising a box scales x by 1/W and y by 1/H |
| BboxLemmas.BoxNormalizeRoundTrip | src/deepsight/structures/_bboxes.py:185-219 | on one box, normalise and denormalise undo each other in both orders |
| BboxLemmas.CornersConvertFormat | src/deepsight/structures/_bboxes.py:110-183 | a format conversion keeps all corners |
| BboxLemmas.CornersNormalize | src/deepsight/structures/_bboxes.py:185-219 | normalising and denormalising keep all corners |
| BboxLemmas.CornersConvert | src/deepsight/structures/_bboxes.py:221-246 | any `convert` keeps all corners |
| BboxLemmas.CornersDetermine | src/deepsight/structures/_bboxes.py:110-219 | two sets with the same format, normalisation, image size and corners are equal |
| BboxLemmas.ConvertRoundTrip | src/deepsight/structures/_bboxes.py:221-246 | converting anywhere and back to the original format and normalisation gives the original set |
| BboxLemmas.NormalizeRoundTrip | src/deepsight/structures/_bboxes.py:185-219 | denormalize(normalize(b)) == b for an absolute set and normalize(denormalize(b)) == b for a normalised one |
| BboxLemmas.ConvertLikeRoundTrip | src/deepsight/structures/_bboxes.py:248-251 | converting like another set and then like the original gives the original |
| BboxLemmas.ScaleScale | src/deepsight/structures/_bboxes.py:279-287 | two scalings compose into one with multiplied factors |
| BboxLemmas.BoxResizeCorners | src/deepsight/structures/_bboxes.py:257-289 | resizing to a new size scales one box's corners by (W'/W, H'/H) |
| BboxLemmas.ResizeCorners | src/deepsight/structures/_bboxes.py:257-289 | resizing scales every box's corners by (W'/W, H'/H), normalised or not |
| BboxLemmas.ResizeRoundTrip | src/deepsight/structures/_bboxes.py:257-289 | resizing to a size and back to the original size gives the original set |
| BboxLemmas.FlipInvolution | src/deepsight/structures/_bboxes.py:291-309 | flipping twice is the identity |
| BboxLemmas.DenormalizeFlip | src/deepsight/structures/_bboxes.py:293 | flipping a normalised box about 1 and denormalising equals denormalising and flipping about W |
| BboxLemmas.BoxFlipCorners | src/deepsight/structures/_bboxes.py:291-309 | one box's flipped corners are its corners mirrored about W |
| BboxLemmas.FlipCorners | src/deepsight/structures/_bboxes.py:291-309 | in every format, the flip maps (x1, x2) of the absolute corners to (W - x2, W - x1) |
| BboxLemmas.FlipBoxMirrors | src/deepsight/structures/_bboxes.py:295-302 | in every format, the flip of one box maps its XYXY corners (x1, y1, x2, y2) to (W - x2, y1, W - x1, y2) |
| BboxLemmas.ScaleClip | src/deepsight/structures/_bboxes.py:494-500 | clipping into [0, 1] and scaling by k equals scaling and clipping into [0, k] |
| BboxLemmas.ClipScaleFields | src/deepsight/structures/_bboxes.py:494-500 | the same for the four coordinates of one box |
| BboxLemmas.ScaleOfClip | src/deepsight/structures/_bboxes.py:494-500 | scaling a clipped box is the box of scaled clipped coordinates |
| BboxLemmas.ClipOfScale | src/deepsight/structures/_bboxes.py:494-500 | clipping a scaled box is the box of clipped scaled coordinates |
| BboxLemmas.ScaleBoxClip | src/deepsight/structures/_bboxes.py:494-500 | for positive factors, clipping a box into the unit square and scaling equals scaling and clipping into [0, W] × [0, H] |
| BboxLemmas.DenormalizeClip | src/deepsight/structures/_bboxes.py:494-500 | clamping a normalised box and denormalising equals denormalising and clamping to the image |
| BboxLemmas.ClampCorners | src/deepsight/structures/_bboxes.py:484-503 | clamping clips every box's absolute corners into [0, W] × [0, H] |
| BboxLemmas.ClampInside | src/deepsight/structures/_bboxes.py:484-503 | after clamping, every corner lies inside the image |
| BboxLemmas.ClampKeepsInside | src/deepsight/structures/_bboxes.py:484-503 | a set already inside the image is unchanged by clamping |
| BboxLemmas.ClampIdempotent | src/deepsight/structures/_bboxes.py:484-503 | clamping twice equals clamping once |
| BboxLemmas.BoxShiftCorners | src/deepsight/structures/_bboxes.py:322-330 | subtracting (left, top) from a box shifts its XYXY corners by (left, top) in every format |
| BboxLemmas.CropCorners | src/deepsight/structures/_bboxes.py:311-341 | the crop's corners are the original corners shifted by (left, top) and clipped into the crop region |
| BboxLemmas.CropInside | src/deepsight/structures/_bboxes.py:311-341 | every cropped box lies inside the crop region |
| BboxLemmas.ValidSpanScale | src/deepsight/structures/_bboxes.py:526-536 | one axis of the validity test in normalised units, with the minimum divided by k, agrees with the test in absolute units |
| BboxLemmas.ValidOfScale | src/deepsight/structures/_bboxes.py:526-536 | the validity test of a scaled box is the per-axis test of its scaled coordinates |
| BboxLemmas.ValidBoxScale | src/deepsight/structures/_bboxes.py:526-536 | for positive factors, a box is valid in the unit square with minimums divided by (W, H) exactly when the scaled box is valid in [0, W] × [0, H] |
| BboxLemmas.ValidBoxDenormalize | src/deepsight/structures/_bboxes.py:526-536 | a normalised box passes the normalised test exactly when its denormalised box passes the absolute test |
| BboxLemmas.IsValidCorners | src/deepsight/structures/_bboxes.py:505-538 | a box is valid exactly when its absolute corners lie in [0, W] × [0, H] and it is at least min_width wide and min_height high, normalised or not |
| BboxLemmas.IsValidConvertInvariant | src/deepsight/structures/_bboxes.py:505-538 | `is_valid` gives the same flags after any `convert` |
| BboxLemmas.ValidBoxesUnchangedByClamp | src/deepsight/structures/_bboxes.py:484-538 | a set whose boxes are all valid is unchanged by clamping |
| BboxLemmas.BoxAreaXyxy | src/deepsight/structures/_bboxes.py:347-365 | a box's area is the same computed in its own format or after conversion to XYXY |
| BboxLemmas.AreaConvertFormat | src/deepsight/structures/_bboxes.py:347-365 | areas do not depend on the format |
| BboxLemmas.ConvertLikeXyxy | src/deepsight/structures/_bboxes.py:389-420 | converting like an XYXY set with the same normalisation is `to_xyxy` |
| BboxLemmas.UnionBoxEncloses | src/deepsight/structures/_bboxes.py:396-397 | the union of two boxes reaches each side of both boxes and goes no farther than the farther one |
| BboxLemmas.IntersectionBoxOverlap | src/deepsight/structures/_bboxes.py:412-414 | the overlap starts at the later top-left corner; its width is positive exactly when the x-spans overlap, and it then ends at the earlier right side; likewise for the height |
| BboxLemmas.DenormalizeUnionBox | src/deepsight/structures/_bboxes.py:396-397 | denormalising the union of two boxes is the union of the denormalised boxes |
| BboxLemmas.ScaleIntersectionWidth | src/deepsight/structures/_bboxes.py:412-414 | the clamped width of the overlap of two scaled boxes is the scaled clamped width |
| BboxLemmas.ScaleIntersectionHeight | src/deepsight/structures/_bboxes.py:412-414 | the clamped height of the overlap of two scaled boxes is the scaled clamped height |
| BboxLemmas.ScaleIntersectionBox | src/deepsight/structures/_bboxes.py:412-414 | for positive factors, the overlap of two scaled boxes is the scaled overlap |
| BboxLemmas.DenormalizeIntersectionBox | src/deepsight/structures/_bboxes.py:412-414 | denormalising the overlap of two boxes is the overlap of the denormalised boxes |
| BboxLemmas.PairCorners | src/deepsight/structures/_bboxes.py:391-392 | the two sets `union` and `intersection` combine keep the corners of the original sets |
| BboxLemmas.UnionCorners | src/deepsight/structures/_bboxes.py:389-403 | the absolute corners of each union box are the union of the two boxes' absolute corners, whatever their formats and normalisations |
| BboxLemmas.IntersectionCorners | src/deepsight/structures/_bboxes.py:405-420 | the absolute corners of each intersection box are those of the overlap of the two boxes' absolute corners, whatever their formats and normalisations |
| BboxLemmas.IntersectionBoxCommutes | src/deepsight/structures/_bboxes.py:412-414 | the intersection of two boxes does not depend on their order |
| BboxLemmas.IntersectionCommutes | src/deepsight/structures/_bboxes.py:405-420 | for equal normalisation, intersection succeeds in one order exactly when in the other, with the same result |
| BboxLemmas.UnionCommutes | src/deepsight/structures/_bboxes.py:389-403 | for equal normalisation, union succeeds in one order exactly when in the other, with the same result |
| BboxLemmas.IntersectionBoxSides | src/deepsight/structures/_bboxes.py:412-414 | for ordered boxes, the intersection's clamped sides are non-negative and no longer than either box's sides |
| BboxLemmas.IntersectionBoxArea | src/deepsight/structures/_bboxes.py:412-414 | for ordered boxes, the intersection area is between 0 and each box's area |
| BboxLemmas.IntersectionAreaBounds | src/deepsight/structures/_bboxes.py:450-467 | for compatible sets of ordered boxes, every intersection area is between 0 and both areas |
| BboxLemmas.UnionAreaBounds | src/deepsight/structures/_bboxes.py:422-448 | for compatible sets of ordered boxes, each union area is at least the larger area and the intersection area and at most the sum of the areas |
| BboxLemmas.OverlapExample | src/deepsight/structures/_bboxes.py:389-467 | two 2×2 boxes overlapping in a unit square have intersection area 1, union area 7 and union box (0, 0, 3, 3) |
| BboxLemmas.IsValidExample | src/deepsight/structures/_bboxes.py:505-538 | a 5×5 box is valid; a box with a negative x or a width below 1 is not |
| BboxLemmas.NormalizationMismatchExample | src/deepsight/structures/_bboxes.py:440-442 | union and intersection areas of a normalised and an absolute set are errors |
| Batching.SliceEnd | src/deepsight/structures/vision/_batched_images.py:175-176 | Python's `[:k]` end on an axis of length n is at most n and is k for 0 <= k <= n |
| Batching.CheckImages | src/deepsight/structures/vision/_batched_images.py:298-324 | passes exactly for a non-empty list of 3-D images with the first image's channels, dtype and device; each error is reported exactly when it is the first check to fail |
| Batching.CheckDataMask | src/deepsight/structures/vision/_batched_images.py:327-338 | passes exactly when data and mask agree in batch length, height and width |
| Batching.Full | src/deepsight/structures/vision/_batched_images.py:288-290 | a filled grid has the requested height and width |
| Batching.ClearRegion | src/deepsight/structures/vision/_batched_images.py:292-293 | clearing a top-left region keeps the grid's shape |
| Batching.MaskOf | src/deepsight/structures/vision/_batched_images.py:270-295 | one H×W grid per size |
| Batching.ComputeMaskFromSizes | src/deepsight/structures/vision/_batched_images.py:270-295 | the loop over a mask that starts all true gives exactly `MaskOf` |
| Batching.SizesAsWritten | src/deepsight/structures/vision/_batched_images.py:247-267 | one derived size per mask item |
| Batching.ComputeSizesFromMask | src/deepsight/structures/vision/_batched_images.py:247-267 | the appending loop gives exactly `SizesAsWritten` |
| Batching.CheckValidity | src/deepsight/structures/vision/_batched_images.py:80-85 | passes exactly when data and mask share a device and `CheckDataMask` passes |
| Batching.Finish | src/deepsight/structures/vision/_batched_images.py:80-89 | succeeds exactly when validity is not checked or passes, and then stores the given data, sizes and mask |
| Batching.Construct | src/deepsight/structures/vision/_batched_images.py:28-89 | keeps the data and any given sizes and mask; derives missing sizes from the mask and a missing mask from the sizes; without validation, or with neither given, always succeeds; with validation, succeeds exactly when the (given or derived) mask passes the validity checks and, when both were given, the sizes equal the ones the mask gives |
| Batching.New | src/deepsight/structures/vision/_batched_images.py:28-89 | the constructor gives exactly `Construct` |
| Batching.MaxOf | src/deepsight/structures/vision/_batched_images.py:109-110 | the maximum bounds every element and is attained |
| Batching.Paste | src/deepsight/structures/vision/_batched_images.py:119-120 | copying an image into the top-left corner keeps the canvas shape |
| Batching.Canvas | src/deepsight/structures/vision/_batched_images.py:112-117 | the padded canvas of one item has C × max-H × max-W entries |
| Batching.PaddedImage | src/deepsight/structures/vision/_batched_images.py:112-120 | each padded item has the first image's channels and the maximum height and width |
| Batching.Batched | src/deepsight/structures/vision/_batched_images.py:92-122 | succeeds exactly when the image checks pass, and otherwise reports their error |
| Batching.PasteInto | src/deepsight/structures/vision/_batched_images.py:119-120 | copying image i into its slot gives `PaddedImage` for that slot and keeps every other slot |
| Batching.PadImages | src/deepsight/structures/vision/_batched_images.py:112-120 | the loop that fills the canvas and copies each image gives every item as `PaddedImage` |
| Batching.Batch | src/deepsight/structures/vision/_batched_images.py:92-122 | `batch` gives exactly `Batched` |
| Batching.Unbatch | src/deepsight/structures/vision/_batched_images.py:173-177 | succeeds exactly when there are no more sizes than data items, with one image per size |
| Batching.Crop | src/deepsight/structures/vision/_batched_images.py:175-176 | `[:, :h, :w]` keeps every channel, the first `[:h]` rows and the first `[:w]` columns, and every kept entry is the one at the same place |
| Batching.Wrap | src/deepsight/structures/vision/_batched_images.py:219-222 | a Python index is in range exactly when it lies in [-n, n); a non-negative index is kept and a negative one is moved up by n |
| Batching.GetItem | src/deepsight/structures/vision/_batched_images.py:219-222 | succeeds exactly when the index, wrapped as Python does for negative indexes, is in range |
| Batching.Replace | src/deepsight/structures/vision/_batched_images.py:179-190 | succeeds exactly when the new data fits the mask; it then keeps sizes and mask; a misfit is the data-mask error |
| Batching.FlattenGridLength | src/deepsight/structures/vision/_batched_images.py:194-195 | flattening an h×w grid gives h·w entries |
| Batching.FlattenMaskLengths | src/deepsight/structures/vision/_batched_images.py:195 | every flattened mask item has H·W entries |
| Batching.ToSequences | src/deepsight/structures/vision/_batched_images.py:192-198 | one sequence of H·W tokens and one H·W mask row per item, and size h·w per image |
| BatchLemmas.ClearFullIsMaskGrid | src/deepsight/structures/vision/_batched_images.py:288-293 | clearing the top-left h×w of an all-true grid gives rows that are false exactly in the first w columns of the first h rows |
| BatchLemmas.MaskOfMeaning | src/deepsight/structures/vision/_batched_images.py:270-295 | mask[i][r][c] is false exactly when r and c fall inside the Python slices `[:h_i]` and `[:w_i]` |
| BatchLemmas.MaskOfWithinBounds | src/deepsight/structures/vision/_batched_images.py:270-295 | for sizes within the canvas, mask[i][r][c] is false exactly when r < h_i and c < w_i |
| BatchLemmas.OccurrencesComplement | src/deepsight/structures/vision/_batched_images.py:262-263 | the true and false counts of a row add up to its length |
| BatchLemmas.GridOccurrencesComplement | src/deepsight/structures/vision/_batched_images.py:262-263 | the true and false counts of an h×w grid add up to h·w |
| BatchLemmas.OccurrencesAppend | src/deepsight/structures/vision/_batched_images.py:262-263 | counting over a concatenation adds the counts |
| BatchLemmas.OccurrencesFlatten | src/deepsight/structures/vision/_batched_images.py:195 | counting over the flattened grid equals counting over the grid |
| BatchLemmas.MaskRowCount | src/deepsight/structures/vision/_batched_images.py:292-293 | a cleared mask row has min(w, W) false entries, an untouched row none |
| BatchLemmas.MaskGridCount | src/deepsight/structures/vision/_batched_images.py:292-293 | a mask grid has min(h, H)·w false entries |
| BatchLemmas.MaskCounts | src/deepsight/structures/vision/_batched_images.py:270-295 | the mask of size (h, w) on H×W has h·w false entries and H·W - h·w padded ones |
| BatchLemmas.SizesFromMaskOfSizes | src/deepsight/structures/vision/_batched_images.py:247-267 | for a mask built from sizes, the as-written derivation gives (H - (H·W - h·w), W - (H·W - h·w)) |
| BatchLemmas.UnpaddedSizesRoundTrip | src/deepsight/structures/vision/_batched_images.py:247-295 | for unpadded images the derived sizes are the sizes |
| BatchLemmas.NonSquarePaddingExample | src/deepsight/structures/vision/_batched_images.py:247-267 | a 1×1 image on a 1×2 canvas is read back as 0×1, so the checked constructor rejects its own mask |
| BatchLemmas.ConsistentPairRejected | src/deepsight/structures/vision/_batched_images.py:74-78 | a consistent (sizes, mask) pair whose derived height differs is rejected with the sizes-mask error |
| BatchLemmas.DefaultsAgree | src/deepsight/structures/vision/_batched_images.py:60-67 | without sizes or mask, every image is the full canvas, the mask is all false, the construction succeeds, and the mask equals the one built from those sizes |
| BatchLemmas.ConstructFromSizes | src/deepsight/structures/vision/_batched_images.py:70-73 | given only sizes, the mask is the one built from them |
| BatchLemmas.BatchShape | src/deepsight/structures/vision/_batched_images.py:106-122 | the batch has len(images) items, the first image's channels, dtype and device, and the maximum height and width |
| BatchLemmas.BatchContents | src/deepsight/structures/vision/_batched_images.py:112-120 | data[i][c][r][col] is the image's pixel inside its size and the padding value elsewhere |
| BatchLemmas.BatchMask | src/deepsight/structures/vision/_batched_images.py:106-122 | the batch's sizes are the image sizes and its mask is built from them |
| BatchLemmas.BatchLength | src/deepsight/structures/vision/_batched_images.py:215-217 | `len` of a batch is the number of images batched |
| BatchLemmas.UnbatchLength | src/deepsight/structures/vision/_batched_images.py:173-177 | a batch with one size per item unbatches into `len` images |
| BatchLemmas.CropPaste | src/deepsight/structures/vision/_batched_images.py:119-120 | cropping a pasted image back to its size gives the image |
| BatchLemmas.UnbatchBatch | src/deepsight/structures/vision/_batched_images.py:173-177 | unbatch(batch(images)) gives the images back |
| BatchLemmas.GetItemIsUnbatch | src/deepsight/structures/vision/_batched_images.py:219-222 | b[i] is unbatch(b)[i], with Python index wrapping |
| BatchLemmas.GetItemOutOfRange | src/deepsight/structures/vision/_batched_images.py:219-222 | an index outside [-n, n) is an error |
| BatchLemmas.FlattenGridLast | src/deepsight/structures/vision/_batched_images.py:194-195 | the last row starts at (h - 1)·w in the flattened grid |
| BatchLemmas.FlattenGridFront | src/deepsight/structures/vision/_batched_images.py:194-195 | the earlier rows keep their places when a row is appended |
| BatchLemmas.FlattenGridAt | src/deepsight/structures/vision/_batched_images.py:194-195 | flattening is row-major: entry r·w + c is g[r][c] |
| BatchLemmas.TokenAt | src/deepsight/structures/vision/_batched_images.py:194 | token r·w + c, channel ch, is pixel (ch, r, c) |
| BatchLemmas.ToSequencesDataAt | src/deepsight/structures/vision/_batched_images.py:192-198 | the sequences' token r·W + c of item i at channel ch is data[i][ch][r][c] |
| BatchLemmas.ToSequencesMaskAt | src/deepsight/structures/vision/_batched_images.py:192-198 | the sequences' mask entry r·W + c of item i is mask[i][r][c] |
| BatchLemmas.ToSequencesValidTokens | src/deepsight/structures/vision/_batched_images.py:192-198 | for a mask built from in-canvas sizes, each flattened mask has exactly h·w false entries, the sequence size |
| BatchLemmas.BatchedToSequences | src/deepsight/structures/vision/_batched_images.py:192-198 | a batch's sequences have H·W tokens each and sizes h_i·w_i |
| BatchLemmas.ReplaceKeeps | src/deepsight/structures/vision/_batched_images.py:179-190 | a fitting replacement succeeds, keeps sizes and mask, holds the new data, and unbatches the new data with the old sizes |
| ColorJitter.CheckJitterProperties | src/deepsight/transforms/vision/_color.py:131-159 | None gives None; a negative number is an error; an accepted range lies within the bounds and a rejected one does not; a pair is accepted exactly when within bounds and kept unchanged; a number v stands for (center - v, center + v), with the lower end raised to 0 when clipping |
| ColorJitter.CheckFactor | src/deepsight/transforms/vision/_color.py:58-60 | an accepted brightness, contrast or saturation range is 0 <= min <= max; a number is accepted exactly when non-negative and a pair exactly when 0 <= min <= max |
| ColorJitter.CheckHue | src/deepsight/transforms/vision/_color.py:61-63 | an accepted hue range lies in [-0.5, 0.5]; a number is accepted exactly when 0 <= v <= 0.5 and a pair exactly when -0.5 <= min <= max <= 0.5 |
| ColorJitter.New | src/deepsight/transforms/vision/_color.py:56-63 | succeeds exactly when all four checks pass and then holds their ranges; a brightness error is the one reported |
| ColorLemmas.ScalarRangeAroundCenter | src/deepsight/transforms/vision/_color.py:146-149 | an accepted number v gives an upper end exactly v above the centre and a lower end v below it, unless clipped to 0; the range contains a non-negative centre |
| ColorLemmas.FactorScalar | src/deepsight/transforms/vision/_color.py:58-60 | a brightness, contrast or saturation number v >= 0 is accepted as (max(0, 1 - v), 1 + v); a negative one is rejected |
| ColorLemmas.FactorPair | src/deepsight/transforms/vision/_color.py:150-159 | a factor pair is accepted, unchanged, exactly when 0 <= min <= max |
| ColorLemmas.HueScalar | src/deepsight/transforms/vision/_color.py:61-63 | a hue number is accepted exactly when 0 <= v <= 0.5, as (-v, v) |
| ColorLemmas.HuePair | src/deepsight/transforms/vision/_color.py:61-63 | a hue pair is accepted, unchanged, exactly when -0.5 <= min <= max <= 0.5 |
| ColorLemmas.Examples | src/deepsight/transforms/vision/_color.py:58-63 | hue 0.3 gives (-0.3, 0.3) and hue 0.6 is rejected; brightness 0.5 gives (0.5, 1.5) and brightness 2 gives (0, 3) |
| ColorLemmas.NewDefaults | src/deepsight/transforms/vision/_color.py:56-63 | with no arguments nothing is jittered |
| ColorLemmas.NewReportsFirstError | src/deepsight/transforms/vision/_color.py:58-63 | the checks run in order, so the brightness error is reported before the hue error |
| Coerce.ToTwoTuple | src/deepsight/utils/_misc.py:10-18 | a 2-tuple is returned as it is and another tuple is an error with its length; any other value v gives (v, v) |
| Coerce.ToTuple | src/deepsight/utils/_misc.py:21-28 | a tuple is returned as it is, another iterable gives its elements in iteration order, and anything else v gives (v,) |
| Coerce.ToSet | src/deepsight/utils/_misc.py:31-38 | a set or iterable gives exactly its elements; anything else v gives {v} |
| CoerceLemmas.ToSetOfToTuple | src/deepsight/utils/_misc.py:21-38 | `to_set` gives exactly the elements `to_tuple` lists |
| CoerceLemmas.ToTupleIdempotent | src/deepsight/utils/_misc.py:21-28 | coercing a coerced tuple changes nothing |
| CoerceLemmas.ToSetIdempotent | src/deepsight/utils/_misc.py:31-38 | coercing a coerced set, in any iteration order, changes nothing |
| CoerceLemmas.ToTwoTupleIdempotent | src/deepsight/utils/_misc.py:10-18 | coercing a coerced pair gives the same pair |
| CoerceLemmas.ToTwoTupleExamples | src/deepsight/utils/_misc.py:10-18 | (1, 2) is kept; (1, 2, 3) is rejected; 7 becomes (7, 7); a list [1, 2] is paired with itself, not unpacked |
| CoerceLemmas.ListExample | src/deepsight/utils/_misc.py:21-38 | a list keeps order and repeats as a tuple and loses both as a set |
| VitConfig.WithDefaults | src/deepsight/models/vit/_config.py:40-55 | the defaults: 3 input channels, 768-wide, 12 layers, 12 heads, qkv bias, no qk normalisation or layer scale, a class token, no register tokens, a prefix embedding, post- but not pre-normalisation |
| VitConfig.Check | src/deepsight/models/vit/_config.py:62-73 | passes exactly when num_heads divides embed_dim and register tokens are non-negative; zero heads is the division error; divisibility is checked before the register tokens |
| VitConfig.New | src/deepsight/models/vit/_config.py:36-73 | the frozen record is built, unchanged, exactly when the checks pass, and otherwise fails with their error |
| VitConfig.Name | src/deepsight/models/vit/_config.py:27-33 | each variant's string value starts with its family: `og_`, `dinov2_` or `clip_` |
| VitConfig.Parse | src/deepsight/models/vit/_config.py:23-33 | a string names a variant only when it is that variant's value |
| VitConfig.BuildEncoderConfig | src/deepsight/models/vit/_config.py:86-150 | every variant is 768-wide with 12 layers and 12 heads |
| VitConfig.FromVariant | src/deepsight/models/vit/_config.py:75-78 | every variant builds successfully, with embed_dim divisible by num_heads and no negative register tokens |
| VitConfigLemmas.FromVariantIsBuild | src/deepsight/models/vit/_config.py:75-150 | `from_variant(v)` is `_build_encoder_config(v)`, which passes the checks |
| VitConfigLemmas.HeadDimension | src/deepsight/models/vit/_config.py:62-67 | a checked configuration splits embed_dim evenly over its heads |
| VitConfigLemmas.OgVariants | src/deepsight/models/vit/_config.py:88-103 | OG variants: patch 32, image 224 or 384, everything else default |
| VitConfigLemmas.Dinov2Variants | src/deepsight/models/vit/_config.py:104-123 | DINOv2 variants: patch 14, image 518, layer scale 1e-5; only REG4 has (four) register tokens and no prefix embedding |
| VitConfigLemmas.ClipVariants | src/deepsight/models/vit/_config.py:124-150 | CLIP variants: patch 32, image 224, 256 or 384, defaults except pre-normalisation |
| VitConfigLemmas.LayerScaleAndRegisters | src/deepsight/models/vit/_config.py:104-123 | only the DINOv2 variants set a layer scale and only REG4 has register tokens |
| VitConfigLemmas.BuildInjective | src/deepsight/models/vit/_config.py:86-150 | distinct variants give distinct records |
| VitConfigLemmas.Families | src/deepsight/models/vit/_config.py:27-33 | each variant is in exactly one family, the one its value's prefix names |
| VitConfigLemmas.NameRoundTrip | src/deepsight/models/vit/_config.py:23-33 | looking up a variant's value gives the variant |
| VitConfigLemmas.CheckExamples | src/deepsight/models/vit/_config.py:62-73 | 7 heads, 0 heads or -1 register tokens are rejected with their errors; with 7 heads and -1 tokens the divisibility error wins |

## Left out

- Tensors, devices and dtypes are modelled as nested sequences with
  abstract `DType`/`Device` tags. `to(device)`, `detach`, `__str__` and
  `__repr__` are not modelled. They are device plumbing, autograd or
  printing.
- Pixel values and coordinates are exact `real`s. Floating-point rounding,
  NaN and infinity are not modelled.
- `BoundingBoxes.aspect_ratio` and `BoundingBoxes.iou` are not modelled.
  Each divides by a value plus a float epsilon, which has no exact
  counterpart, and they are not among the operations listed above.
- `BoundingBoxes.__or__` and `__and__` are not modelled. They only call
  `union` and `intersection`.
- `BoundingBoxes.__getitem__` and `__len__` are not modelled. They are
  tensor indexing.
- Bboxes: image sizes are positive integers (`Dim`). Sizes of zero or less,
  which the source does not reject, are not modelled.
- Bboxes.Crop: requires top < bottom and left < right, so that the crop
  region is an image size. The source accepts an empty or inverted region.
- Bboxes.New: takes the tensor's shape and flat data. It does not model the
  conversion of arbitrary Python objects to a float tensor.
- Bboxes.IsValid: its own contract gives only the length. The meaning of
  each flag is stated by `BboxLemmas.IsValidCorners`.
- Batching.CheckValidity: the mask's dtype check (`mask.dtype !=
  torch.bool`) is not modelled. The mask's type is boolean by construction.
- Batching: tensors with other than three dimensions carry a shape but no
  pixels. Only the dimensionality check looks at them.
- Batching.ToSequences: the `permute` to (B, H·W, C) gives a token-major
  layout. It is stated point by point (`ToSequencesDataAt`,
  `ToSequencesMaskAt`), not as one quantified equation.
- `BatchedSequences`' own constructor checks are not modelled, since
  `to_sequences` calls it with `check_validity=False`.
- `ColorJitter.__call__`, which draws random factors and adjusts the image,
  is not modelled. It is randomness and image operations outside this model.
  `get_configs` is not modelled either.
- ColorJitter.CheckJitterProperties: a tuple argument is modelled as a
  pair only. The source compares only a tuple's first two entries with the
  bounds, so a longer tuple whose first two entries are in bounds is
  accepted and returned whole, with its extra entries; an empty or
  one-entry tuple raises an `IndexError`. Neither case is modelled.
- Default arguments are not modelled as defaults; every call in the model
  passes the value explicitly. These are `min_width = 1` and
  `min_height = 1` of Bboxes.IsValid, `padding_value = 0` of
  Batching.Batched and Batching.Batch, and `check_validity = True` of
  Batching.Construct and Batching.New.
- Coerce: a Python value is a tuple, a set, another iterable or an atom.
  Strings as iterables of characters, hashability, object identity (a set
  "returned as it is" is the same set value here) and one-shot iterators
  are not modelled.
- `full_class_name` and `get_config` are not modelled. They are Python
  reflection.
- VitConfig: the `norm_layer` factory and the float fields
  `ffn_hidden_ratio` and the dropouts are not modelled. That code does not
  check them.
- The gahoi decoders, the attention wrapper, `LayerScale` and the
  `__init__` re-export files are neural-network layers or plumbing. None of
  them is part of this model.
