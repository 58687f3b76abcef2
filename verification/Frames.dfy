/** Strided image views over a byte buffer (vision/frame.hpp) and the centre crop (cvCenterCropNode.cpp). */
module Frames {
  import opened Core
  import opened TensorLayout
  import opened Tensors

  datatype PixelFormat = Gray8 | Gray16 | Bgr8 | Rgb8 | Bgra8 | Rgba8 | Float32Gray

  function PixelSize(format: PixelFormat): (bytes: Size)
    ensures bytes == 1 <==> format == Gray8
    ensures bytes == 2 <==> format == Gray16
    ensures bytes == 3 <==> format == Bgr8 || format == Rgb8
    ensures bytes == 4 <==> format == Bgra8 || format == Rgba8 || format == Float32Gray
  {
    match format
    case Gray8 => 1
    case Gray16 => 2
    case Bgr8 => 3
    case Rgb8 => 3
    case Bgra8 => 4
    case Rgba8 => 4
    case Float32Gray => 4
  }

  /** The storage is null only in a frame that was moved from or never created. */
  datatype Frame = Frame(
    storage: array?<Byte>,
    byteOffset: Size,
    byteSize: Size,
    width: Size,
    height: Size,
    rowStride: Size,
    format: PixelFormat
  ) {
    ghost predicate Valid() {
      && storage != null && storage.Length <= SIZE_MAX
      && width > 0 && height > 0
      && rowStride >= width * PixelSize(format)
      && byteSize == FrameSpan(width, height, rowStride, format)
      && byteOffset + byteSize <= storage.Length
    }
  }

  /** From the first byte of the first row to the last pixel byte of the last row. */
  function FrameSpan(width: nat, height: nat, rowStride: nat, format: PixelFormat): int {
    (height - 1) * rowStride + width * PixelSize(format)
  }

  /** Where pixel (x, y) starts in the buffer. */
  function PixelAddress(f: Frame, x: nat, y: nat): nat { f.byteOffset + y * f.rowStride + x * PixelSize(f.format) }

  lemma RowGuard(height: Size, rowStride: Size, rowBytes: Size)
    requires height > 0 && rowStride > 0
    ensures height - 1 > (SIZE_MAX - rowBytes) / rowStride <==> (height - 1) * rowStride + rowBytes > SIZE_MAX
    ensures (height - 1) * rowStride + rowBytes <= SIZE_MAX ==>
      AddSize(MulSize(height - 1, rowStride), rowBytes) == (height - 1) * rowStride + rowBytes
  {
    DivisionTest(height - 1, rowStride, SIZE_MAX - rowBytes);
    assert (height - 1) * rowStride >= 0;
  }

  function EffectiveStride(width: nat, format: PixelFormat, rowStride: nat): nat {
    if rowStride == 0 then width * PixelSize(format) else rowStride
  }

  /** Accepted exactly when every row and the whole view fit, in exact arithmetic. */
  function CreateFrame(storage: array?<Byte>, width: Size, height: Size, format: PixelFormat, rowStride: Size,
                       byteOffset: Size): (r: Result<Frame>)
    requires storage != null ==> storage.Length <= SIZE_MAX
    ensures r.Ok? <==>
      && storage != null && width > 0 && height > 0
      && EffectiveStride(width, format, rowStride) >= width * PixelSize(format)
      && byteOffset + FrameSpan(width, height, EffectiveStride(width, format, rowStride), format) <= storage.Length
    ensures r.Ok? ==>
      && r.value.Valid() && r.value.storage == storage && r.value.byteOffset == byteOffset && r.value.format == format
      && r.value.width == width && r.value.height == height
      && r.value.rowStride == EffectiveStride(width, format, rowStride)
    ensures r.Err? ==> r.status.code.InvalidArgument?
  {
    if storage == null then Rejected("frame buffer must not be empty")
    else if width == 0 || height == 0 then Rejected("frame dimensions must be greater than zero")
    else
      var pixelBytes := PixelSize(format);
      GuardedMultiply(width, pixelBytes);
      RowsBound(width, height, EffectiveStride(width, format, rowStride), format);
      if width > SIZE_MAX / pixelBytes then Rejected("frame row size overflows size_t")
      else
        var rowBytes := MulSize(width, pixelBytes);
        var stride: Size := if rowStride == 0 then rowBytes else rowStride;
        if stride < rowBytes then Rejected("frame row stride is smaller than one pixel row")
        else
          RowGuard(height, stride, rowBytes);
          if height - 1 > (SIZE_MAX - rowBytes) / stride then Rejected("frame byte size overflows size_t")
          else
            var byteSize := AddSize(MulSize(height - 1, stride), rowBytes);
            if byteOffset > storage.Length || byteSize > storage.Length - byteOffset then
              Rejected("frame view exceeds its buffer capacity")
            else Ok(Frame(storage, byteOffset, byteSize, width, height, stride, format))
  }

  lemma RowsBound(width: nat, height: nat, rowStride: nat, format: PixelFormat)
    requires width > 0 && height > 0
    ensures width * PixelSize(format) >= width
    ensures FrameSpan(width, height, rowStride, format) >= width * PixelSize(format)
  {
    MulMonotone(0, height - 1, rowStride);
  }

  /** A rectangle inside a grid of rows ends no later than the grid does. */
  lemma RectangleInside(left: nat, top: nat, width: nat, height: nat, gridWidth: nat, gridHeight: nat, stride: nat,
      size: nat)
    requires width > 0 && height > 0 && left + width <= gridWidth && top + height <= gridHeight
    ensures top * stride >= 0 && left * size >= 0 && (height - 1) * stride >= 0 && width * size <= gridWidth * size
    ensures top * stride + left * size + ((height - 1) * stride + width * size)
            <= (gridHeight - 1) * stride + gridWidth * size
  {
    MulMonotone(top + (height - 1), gridHeight - 1, stride);
    MulMonotone(left + width, gridWidth, size);
    MulMonotone(width, gridWidth, size);
    Distribute(top, height - 1, stride);
    Distribute(left, width, size);
  }

  lemma Distribute(x: int, y: int, factor: int)
    ensures (x + y) * factor == x * factor + y * factor
  {
  }

  /** Every pixel of an accepted frame lies inside the view and inside its buffer. */
  lemma PixelsAreInside(f: Frame, x: nat, y: nat)
    requires f.Valid() && x < f.width && y < f.height
    ensures f.byteOffset <= PixelAddress(f, x, y)
    ensures PixelAddress(f, x, y) + PixelSize(f.format) <= f.byteOffset + f.byteSize <= f.storage.Length
  {
    RectangleInside(x, y, 1, 1, f.width, f.height, f.rowStride, PixelSize(f.format));
  }

  // ---------------------------------------------------------------- centre crop

  /** Over the reals: rounding of doubles is not modelled, and halves of sizes below 2^53 are exact. */
  function RoundHalfToEven(value: real): nat
    requires value >= 0.0
  {
    var lower := value.Floor;
    var fraction := value - lower as real;
    if fraction < 0.5 then lower
    else if fraction > 0.5 then lower + 1
    else if lower % 2 == 0 then lower else lower + 1
  }

  /** The margin is shared out to within one pixel; of an odd one, an even part comes before. */
  predicate Centred(margin: int, before: nat) {
    -1 <= 2 * before - margin <= 1 && (margin % 2 == 1 ==> before % 2 == 0)
  }

  /** What half-even rounding of half a margin gives. */
  lemma CentringIsBalanced(margin: nat)
    ensures var before := RoundHalfToEven(margin as real / 2.0); before <= margin && Centred(margin, before)
  {
    var half := margin / 2;
    assert margin as real / 2.0 == half as real + (if margin % 2 == 0 then 0.0 else 0.5);
    assert (margin as real / 2.0).Floor == half;
  }

  function CropChannels(format: PixelFormat): nat {
    match format
    case Gray8 => 1
    case Bgr8 => 3
    case Bgra8 => 4
    case Gray16 => 0
    case Rgb8 => 0
    case Rgba8 => 0
    case Float32Gray => 0
  }

  datatype Cropped = Cropped(frame: Frame, left: nat, top: nat)

  function CenterCrop(f: Frame, width: Size, height: Size): (r: Result<Cropped>)
    requires f.storage == null || f.Valid()
    ensures r.Ok? <==>
      && f.storage != null && 0 < width <= f.width && 0 < height <= f.height
      && (f.format == Gray8 || f.format == Bgr8 || f.format == Bgra8)
    ensures r.Ok? ==> CropIsInside(f, r.value, width, height)
    ensures r.Ok? ==> Centred(f.width - width, r.value.left) && Centred(f.height - height, r.value.top)
    ensures r.Err? ==> r.status.code == InvalidArgument || r.status.code == Unsupported
    ensures r.Err? ==> (r.status.code == Unsupported <==>
      && f.storage != null && width <= f.width && height <= f.height
      && f.format != Gray8 && f.format != Bgr8 && f.format != Bgra8)
  {
    if f.storage == null || width > f.width || height > f.height then
      Rejected("cv center crop exceeds the current frame")
    else
      var channels := CropChannels(f.format);
      if channels == 0 then Err(Status(Unsupported, "cv center crop supports Gray8, Bgr8, and Bgra8 frames"))
      else CropCentre(f, width, height)
  }

  /** The crop in the middle of a frame that is large enough for it. */
  function CropCentre(f: Frame, width: Size, height: Size): (r: Result<Cropped>)
    requires f.Valid() && CropChannels(f.format) > 0 && width <= f.width && height <= f.height
    ensures r.Ok? <==> width > 0 && height > 0
    ensures r.Ok? ==> CropIsInside(f, r.value, width, height)
    ensures r.Ok? ==> Centred(f.width - width, r.value.left) && Centred(f.height - height, r.value.top)
    ensures r.Err? ==> r.status.code == InvalidArgument
  {
    CentringIsBalanced(f.width - width);
    CentringIsBalanced(f.height - height);
    CropAt(f, RoundHalfToEven((f.width - width) as real / 2.0), RoundHalfToEven((f.height - height) as real / 2.0),
           width, height)
  }

  /** The crop whose first pixel is (left, top). */
  function CropAt(f: Frame, left: nat, top: nat, width: Size, height: Size): (r: Result<Cropped>)
    requires f.Valid() && CropChannels(f.format) > 0
    requires left + width <= f.width && top + height <= f.height
    ensures r.Ok? <==> width > 0 && height > 0
    ensures r.Ok? ==> r.value.left == left && r.value.top == top && CropIsInside(f, r.value, width, height)
    ensures r.Err? ==> r.status.code == InvalidArgument
  {
    CropOffset(f, left, top, width, height);
    var byteOffset := AddSize(AddSize(f.byteOffset, MulSize(top, f.rowStride)), MulSize(left, CropChannels(f.format)));
    var view := CreateFrame(f.storage, width, height, f.format, f.rowStride, byteOffset);
    if view.Err? then view.PropagateErr() else Ok(Cropped(view.value, left, top))
  }

  /** The crop is a view of the same buffer, inside the parent's bytes, whose pixels are the parent's own. */
  ghost predicate CropIsInside(f: Frame, crop: Cropped, width: nat, height: nat) {
    && f.Valid() && crop.frame.Valid()
    && crop.frame.storage == f.storage && crop.frame.format == f.format && crop.frame.rowStride == f.rowStride
    && crop.frame.width == width && crop.frame.height == height
    && crop.left + width <= f.width && crop.top + height <= f.height
    && crop.frame.byteOffset == PixelAddress(f, crop.left, crop.top)
    && f.byteOffset <= crop.frame.byteOffset
    && crop.frame.byteOffset + crop.frame.byteSize <= f.byteOffset + f.byteSize
  }

  /** The byte offset of the crop does not wrap, and the view that starts there ends inside the parent. */
  lemma CropOffset(f: Frame, left: nat, top: nat, width: Size, height: Size)
    requires f.Valid() && left + width <= f.width && top + height <= f.height
    ensures width > 0 && height > 0 ==>
      && AddSize(AddSize(f.byteOffset, MulSize(top, f.rowStride)), MulSize(left, PixelSize(f.format)))
         == PixelAddress(f, left, top)
      && f.byteOffset <= PixelAddress(f, left, top)
      && PixelAddress(f, left, top) + FrameSpan(width, height, f.rowStride, f.format) <= f.byteOffset + f.byteSize
      && f.rowStride >= width * PixelSize(f.format)
  {
    if width > 0 && height > 0 {
      RectangleInside(left, top, width, height, f.width, f.height, f.rowStride, PixelSize(f.format));
      Unwrapped(f.byteOffset, top * f.rowStride, left * PixelSize(f.format));
    }
  }

  lemma Unwrapped(x: Size, y: nat, z: nat)
    requires x + y + z <= SIZE_MAX
    ensures ((x + y % (SIZE_MAX + 1)) % (SIZE_MAX + 1) + z % (SIZE_MAX + 1)) % (SIZE_MAX + 1) == x + y + z
  {
  }

  /** Pixel (x, y) of a crop is pixel (x + left, y + top) of the frame it was cut from. */
  lemma CropKeepsPixels(f: Frame, crop: Cropped, width: nat, height: nat, x: nat, y: nat)
    requires CropIsInside(f, crop, width, height) && x < width && y < height
    ensures PixelAddress(crop.frame, x, y) == PixelAddress(f, x + crop.left, y + crop.top)
  {
    Distribute(y, crop.top, f.rowStride);
    Distribute(x, crop.left, PixelSize(f.format));
  }
}
