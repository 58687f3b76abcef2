/**
  From pixels to a planar tensor and its normalisation (toTensorNode.cpp, normalizeNode.cpp). The
  float buffer of the tensor is an array of reals: rounding is not modelled.
 */
module Preprocess {
  import opened Core
  import opened TensorLayout
  import opened Tensors
  import opened Frames

  predicate Supported(format: PixelFormat) { format.Gray8? || format.Bgr8? || format.Bgra8? }

  /** Output channel c of a colour pixel is its byte 2 - c, blue being stored first. */
  function ChannelByte(format: PixelFormat, channel: nat): nat
    requires channel < 3
  {
    if format.Gray8? then 0 else 2 - channel
  }

  function SourceByte(f: Frame, channel: nat, x: nat, y: nat): Byte
    requires f.Valid() && Supported(f.format) && channel < 3 && x < f.width && y < f.height
    reads f.storage
  {
    PixelsAreInside(f, x, y);
    f.storage[PixelAddress(f, x, y) + ChannelByte(f.format, channel)]
  }

  /** The byte a channel of pixel (x, y) is made of: the grey byte, or byte 2 - c of the 3 or 4 of a colour pixel. */
  ghost function ChannelAddress(f: Frame, c: nat, x: nat, y: nat): int {
    var row := f.byteOffset + y * f.rowStride;
    if f.format == Gray8 then row + x
    else if f.format == Bgr8 then row + 3 * x + 2 - c
    else row + 4 * x + 2 - c
  }

  /** Element [0, c, y, x] of the tensor is that byte. */
  ghost predicate HoldsByte(f: Frame, values: seq<real>, c: nat, x: nat, y: nat)
    reads f.storage
  {
    var element, address := (c * f.height + y) * f.width + x, ChannelAddress(f, c, x, y);
    && (f.format == Gray8 || f.format == Bgr8 || f.format == Bgra8)
    && element < |values| && f.storage != null && 0 <= address < f.storage.Length
    && values[element] == f.storage[address] as real
  }

  /** All planes of a frame are in the tensor. */
  ghost predicate HoldsPlanes(f: Frame, channels: nat, values: seq<real>)
    reads f.storage
  {
    forall c: nat, x: nat, y: nat :: c < channels && x < f.width && y < f.height ==> HoldsByte(f, values, c, x, y)
  }

  lemma SampleIsHeld(f: Frame, values: seq<real>, c: nat, x: nat, y: nat)
    requires f.Valid() && Supported(f.format) && c < 3 && x < f.width && y < f.height
    requires PlanarIndex(c, x, y, f.width, f.height) < |values|
    requires values[PlanarIndex(c, x, y, f.width, f.height)] == SourceByte(f, c, x, y) as real
    ensures HoldsByte(f, values, c, x, y)
  {
    SourceByteIs(f, c, x, y);
    Factored(c, f.height, y, f.width);
  }

  lemma Factored(c: nat, height: nat, y: nat, width: nat)
    ensures (c * height + y) * width == c * (width * height) + y * width
  {
  }

  lemma SourceByteIs(f: Frame, c: nat, x: nat, y: nat)
    requires f.Valid() && Supported(f.format) && c < 3 && x < f.width && y < f.height
    ensures 0 <= ChannelAddress(f, c, x, y) < f.storage.Length
    ensures SourceByte(f, c, x, y) == f.storage[ChannelAddress(f, c, x, y)]
  {
    PixelsAreInside(f, x, y);
  }

  // ---------------------------------------------------------------- planar positions

  /** Where the loops put the sample of a channel at (x, y). */
  function PlanarIndex(channel: nat, x: nat, y: nat, width: nat, height: nat): nat {
    channel * (width * height) + y * width + x
  }

  /** The positions enumerate the tensor: in range, and no two samples share one. */
  lemma PlanarIndexIsOneToOne(channels: nat, width: nat, height: nat, c: nat, x: nat, y: nat, d: nat, u: nat, v: nat)
    requires c < channels && x < width && y < height && d < channels && u < width && v < height
    ensures PlanarIndex(c, x, y, width, height) < channels * (width * height)
    ensures PlanarIndex(c, x, y, width, height) == PlanarIndex(d, u, v, width, height) ==> c == d && x == u && y == v
  {
    PlanarParts(channels, width, height, c, x, y);
    PlanarParts(channels, width, height, d, u, v);
  }

  lemma PlanarParts(channels: nat, width: nat, height: nat, c: nat, x: nat, y: nat)
    requires c < channels && x < width && y < height
    ensures width * height > 0
    ensures var k := PlanarIndex(c, x, y, width, height);
      && k < channels * (width * height) && k / (width * height) == c
      && (k % (width * height)) / width == y && (k % (width * height)) % width == x
  {
    MulMonotone(y + 1, height, width);
    MulMonotone(c + 1, channels, width * height);
    QuotientIs(c, y * width + x, width * height);
    QuotientIs(y, x, width);
  }

  /** They are the row-major positions of the tensor's own index [0, c, y, x]. */
  lemma PlanarIndexIsTheTensorIndex(channels: Int64, height: Int64, width: Int64, c: nat, y: nat, x: nat)
    requires c < channels && y < height && x < width
    ensures Linear([0, c, y, x], [1, channels, height, width]) == PlanarIndex(c, x, y, width, height)
    ensures ByteOffset([0, c, y, x], RowMajor([1, channels, height, width], SizeOf(Float32)))
            == SizeOf(Float32) * PlanarIndex(c, x, y, width, height)
  {
    var dims: seq<Int64> := [1, channels, height, width];
    assert dims[1..] == [channels, height, width] && dims[1..][1..] == [height, width];
    assert dims[1..][1..][1..] == [width] && dims[1..][1..][1..][1..] == [];
    assert Product([width]) == width && Product([height, width]) == height * Product([width]);
    var index: Index := [0, c, y, x];
    assert index[1..] == [c, y, x] && index[1..][1..] == [y, x] && index[1..][1..][1..] == [x];
    assert Linear([x], [width]) == x && Linear([y, x], [height, width]) == y * width + x;
    assert Linear([c, y, x], [channels, height, width]) == c * (height * width) + (y * width + x);
    assert Linear(index, dims) == Linear([c, y, x], [channels, height, width]);
    RowMajorOffset(index, dims, SizeOf(Float32));
  }

  /** A buffer of the size `build` computes takes the tensor of every frame. */
  lemma TensorFitsItsBuffer(channels: Int64, height: Int64, width: Int64, capacity: Size)
    requires channels > 0 && height > 0 && width > 0 && capacity == width * height * channels * SizeOf(Float32)
    ensures var dims: seq<Int64> := [1, channels, height, width];
      Admissible(Float32, dims, []) && LayoutOf(Float32, dims, []).byteSize == capacity
  {
    var dims: seq<Int64> := [1, channels, height, width];
    assert dims[1..] == [channels, height, width] && dims[1..][1..] == [height, width];
    assert dims[1..][1..][1..] == [width] && dims[1..][1..][1..][1..] == [];
    assert Product([width]) == width && Product([height, width]) == height * Product([width]);
    assert Product([channels, height, width]) == channels * (height * width);
    assert Product(dims) == channels * (height * width);
    assert SizeOf(Float32) * (channels * (height * width)) == width * height * channels * SizeOf(Float32);
    RowMajorReach(dims, SizeOf(Float32));
  }

  // ---------------------------------------------------------------- to tensor

  predicate Accepts(f: Frame, channels: nat, width: nat, height: nat) {
    && f.storage != null && f.width == width && f.height == height && Supported(f.format)
    && (channels == 1 ==> f.format.Gray8?)
  }

  /** Row `y` of the frame has been written for all channels, up to column `x`. */
  ghost predicate Written(f: Frame, channels: nat, output: array<real>, x: nat, y: nat)
    requires f.Valid() && Supported(f.format) && channels <= 3 && output.Length == channels * (f.width * f.height)
    reads f.storage, output
  {
    forall c: nat, u: nat, v: nat :: c < channels && u < f.width && v < f.height && (v < y || (v == y && u < x)) ==>
      InPlanes(channels, f, c, u, v) &&
      output[PlanarIndex(c, u, v, f.width, f.height)] == SourceByte(f, c, u, v) as real
  }

  predicate InPlanes(channels: nat, f: Frame, c: nat, x: nat, y: nat) {
    PlanarIndex(c, x, y, f.width, f.height) < channels * (f.width * f.height)
  }

  method ToTensor(f: Frame, channels: nat, width: nat, height: nat, output: array<real>) returns (ok: bool)
    requires (f.storage == null || f.Valid()) && (channels == 1 || channels == 3) && width > 0 && height > 0
    requires output.Length == channels * (width * height)
    modifies output
    ensures ok <==> Accepts(f, channels, width, height)
    ensures ok ==> Written(f, channels, output, 0, height) && HoldsPlanes(f, channels, output[..])
    ensures !ok ==> output[..] == old(output[..])
  {
    if f.storage == null || f.width != width || f.height != height || !Supported(f.format) {
      return false;
    }
    if channels == 1 && !f.format.Gray8? {
      return false;
    }
    for y := 0 to height
      invariant Written(f, channels, output, 0, y)
    {
      for x := 0 to width
        invariant Written(f, channels, output, x, y)
      {
        WritePixel(f, channels, x, y, output);
      }
    }
    PlanesAreHeld(f, channels, output);
    ok := true;
  }

  lemma PlanesAreHeld(f: Frame, channels: nat, output: array<real>)
    requires f.Valid() && Supported(f.format) && channels <= 3 && output.Length == channels * (f.width * f.height)
    requires Written(f, channels, output, 0, f.height)
    ensures HoldsPlanes(f, channels, output[..])
  {
    forall c: nat, x: nat, y: nat | c < channels && x < f.width && y < f.height
      ensures HoldsByte(f, output[..], c, x, y)
    {
      assert InPlanes(channels, f, c, x, y);
      SampleIsHeld(f, output[..], c, x, y);
    }
  }

  /** The innermost loop: one pixel goes to its place in every plane. */
  method WritePixel(f: Frame, channels: nat, x: nat, y: nat, output: array<real>)
    requires f.Valid() && Supported(f.format) && channels <= 3 && x < f.width && y < f.height
    requires output.Length == channels * (f.width * f.height) && Written(f, channels, output, x, y)
    modifies output
    ensures Written(f, channels, output, x + 1, y)
    ensures forall c: nat :: c < channels ==> HoldsByte(f, output[..], c, x, y)
  {
    PixelsAreInside(f, x, y);
    for channel := 0 to channels
      invariant Written(f, channels, output, x, y)
      invariant forall c: nat :: c < channel ==>
        InPlanes(channels, f, c, x, y) &&
        output[PlanarIndex(c, x, y, f.width, f.height)] == SourceByte(f, c, x, y) as real
    {
      PlanarParts(channels, f.width, f.height, channel, x, y);
      forall c: nat, u: nat, v: nat | c < channels && u < f.width && v < f.height && (c != channel || u != x || v != y)
        ensures PlanarIndex(c, u, v, f.width, f.height) != PlanarIndex(channel, x, y, f.width, f.height)
      {
        PlanarIndexIsOneToOne(channels, f.width, f.height, c, u, v, channel, x, y);
      }
      output[PlanarIndex(channel, x, y, f.width, f.height)] := SourceByte(f, channel, x, y) as real;
    }
    forall c: nat | c < channels
      ensures HoldsByte(f, output[..], c, x, y)
    {
      assert InPlanes(channels, f, c, x, y);
      SampleIsHeld(f, output[..], c, x, y);
    }
  }

  // ---------------------------------------------------------------- normalisation

  datatype Normalization = Normalization(scale: real, mean: seq<real>, deviation: seq<real>) {
    /** What `build` lets through. */
    predicate Valid() {
      |mean| > 0 && |mean| == |deviation| && forall c :: 0 <= c < |deviation| ==> deviation[c] != 0.0
    }

    function Apply(channel: nat, value: real): real
      requires Valid() && channel < |mean|
    {
      (value * scale - mean[channel]) / deviation[channel]
    }
  }

  predicate Normalizable(t: Tensor, n: Normalization) {
    && t.dataType == Float32 && t.layout == Nchw && |t.dims| == 4 && t.dims[0] == 1
    && t.dims[1] == |n.mean| && t.IsContiguous()
  }

  /** The elements of one channel. */
  function PlaneSize(t: Tensor): int
    requires |t.dims| == 4
  {
    t.dims[2] as int * t.dims[3] as int
  }

  lemma PlanesOfTensor(t: Tensor)
    requires t.Valid() && |t.dims| == 4 && t.dims[0] == 1
    ensures PlaneSize(t) >= 1 && t.elementCount == t.dims[1] as int * PlaneSize(t)
  {
    var d := t.dims;
    assert d[1..][0] == d[1] && d[1..][1..][0] == d[2] && d[1..][1..][1..][0] == d[3] && d[1..][1..][1..][1..] == [];
    assert Product(d[1..][1..][1..]) == d[3] && Product(d[1..][1..]) == PlaneSize(t);
    assert Product(d[1..]) == d[1] as int * PlaneSize(t);
    MulMonotone(1, d[2] as int, d[3]);
  }

  /** The first `upTo` elements have been normalised, by the parameters of their own channel. */
  ghost predicate NormalizedUpTo(n: Normalization, before: seq<real>, after: seq<real>, planeSize: nat, upTo: nat)
    requires n.Valid() && planeSize > 0
  {
    && |after| == |before| && upTo <= |before|
    && forall k: nat :: k < upTo ==> k / planeSize < |n.mean| && after[k] == n.Apply(k / planeSize, before[k])
  }

  method Normalize(t: Tensor, n: Normalization, values: array<real>) returns (ok: bool)
    requires t.Valid() && n.Valid() && values.Length == t.elementCount
    modifies values
    ensures ok <==> Normalizable(t, n)
    ensures ok ==> PlaneSize(t) > 0 && NormalizedUpTo(n, old(values[..]), values[..], PlaneSize(t), values.Length)
    ensures !ok ==> values[..] == old(values[..])
  {
    var d := t.dims;
    if t.dataType != Float32 || t.layout != Nchw || |d| != 4 || d[0] != 1 || d[1] != |n.mean| || !t.IsContiguous() {
      return false;
    }
    PlanesOfTensor(t);
    var planeSize: nat := PlaneSize(t);
    for channel := 0 to |n.mean|
      invariant channel * planeSize <= values.Length
      invariant NormalizedUpTo(n, old(values[..]), values[..], planeSize, channel * planeSize)
      invariant values[channel * planeSize..] == old(values[..])[channel * planeSize..]
    {
      MulMonotone(channel + 1, |n.mean|, planeSize);
      NormalizePlane(n, channel, planeSize, values, old(values[..]));
    }
    ok := true;
  }

  /** The inner loop: every value of one channel is replaced once, where it stands. */
  method NormalizePlane(n: Normalization, channel: nat, planeSize: nat, values: array<real>, ghost before: seq<real>)
    requires n.Valid() && channel < |n.mean| && planeSize > 0
    requires values.Length == |before| && (channel + 1) * planeSize <= |before| && channel * planeSize <= |before|
    requires NormalizedUpTo(n, before, values[..], planeSize, channel * planeSize)
    requires values[channel * planeSize..] == before[channel * planeSize..]
    modifies values
    ensures NormalizedUpTo(n, before, values[..], planeSize, (channel + 1) * planeSize)
    ensures values[(channel + 1) * planeSize..] == before[(channel + 1) * planeSize..]
  {
    var base := channel * planeSize;
    assert (channel + 1) * planeSize == base + planeSize;
    for index := 0 to planeSize
      invariant NormalizedUpTo(n, before, values[..], planeSize, base + index)
      invariant values[base + index..] == before[base + index..]
    {
      QuotientIs(channel, index, planeSize);
      assert values[base + index] == before[base + index];
      values[base + index] := n.Apply(channel, values[base + index]);
    }
  }

  // ---------------------------------------------------------------- the chain

  /**
    Crop, planarise and normalise, as a preset chains them: the element of channel c at (x, y) is the
    affine map of the source pixel's byte 2 - c (or its grey value) at (x + left, y + top).
   */
  method Prepare(f: Frame, channels: nat, width: Size, height: Size, t: Tensor, n: Normalization, output: array<real>)
    returns (crop: Result<Cropped>, ok: bool)
    requires f.Valid() && (channels == 1 || channels == 3) && width > 0 && height > 0 && n.Valid()
    requires t.Valid() && t.dims == [1, channels, height as int, width as int] && t.layout == Nchw
    requires t.dataType == Float32 && t.IsContiguous()
    requires output.Length == t.elementCount
    modifies output
    ensures ok <==>
      width <= f.width && height <= f.height && Supported(f.format) && (channels == 1 ==> f.format.Gray8?) &&
          |n.mean| == channels
    ensures ok ==> crop.Ok? && CropIsInside(f, crop.value, width, height)
    ensures ok ==> Centred(f.width - width, crop.value.left) && Centred(f.height - height, crop.value.top)
    ensures ok ==> HoldsAllPrepared(f, crop.value, n, output[..], channels)
  {
    PlanesOfTensor(t);
    crop, ok := CropToPlanes(f, channels, width, height, output);
    if !ok {
      return;
    }
    ghost var planar := output[..];
    ok := Normalize(t, n, output);
    if ok {
      AllAreHeld(f, crop.value, n, planar, output[..], channels, width, height);
    }
  }

  /** The crop, and its planes in the tensor. */
  method CropToPlanes(f: Frame, channels: nat, width: Size, height: Size, output: array<real>)
    returns (crop: Result<Cropped>, ok: bool)
    requires f.Valid() && (channels == 1 || channels == 3) && width > 0 && height > 0
    requires output.Length == channels * (width * height)
    modifies output
    ensures ok <==>
      width <= f.width && height <= f.height && Supported(f.format) && (channels == 1 ==> f.format.Gray8?)
    ensures ok ==> crop.Ok? && CropIsInside(f, crop.value, width, height)
    ensures ok ==> Centred(f.width - width, crop.value.left) && Centred(f.height - height, crop.value.top)
    ensures ok ==> Planar(crop.value.frame, channels, output[..])
    ensures ok ==> HoldsPlanes(crop.value.frame, channels, output[..])
  {
    ok := false;
    crop := CenterCrop(f, width, height);
    if crop.Ok? {
      ok := ToTensor(crop.value.frame, channels, width, height, output);
    }
  }

  /** `mapped` is what the preset's normalisation makes of `value`. */
  ghost predicate IsNormalized(n: Normalization, c: nat, value: real, mapped: real)
    requires n.Valid() && c < |n.mean|
  {
    mapped == (value * n.scale - n.mean[c]) / n.deviation[c]
  }

  /** Element [0, c, y, x] of the result is the normalised byte of pixel (x + left, y + top). */
  ghost predicate HoldsPrepared(f: Frame, crop: Cropped, n: Normalization, values: seq<real>, c: nat, x: nat, y: nat)
    requires n.Valid()
    reads f.storage
  {
    var element := (c * crop.frame.height + y) * crop.frame.width + x;
    var address := ChannelAddress(f, c, x + crop.left, y + crop.top);
    && (f.format == Gray8 || f.format == Bgr8 || f.format == Bgra8)
    && c < |n.mean| && element < |values| && f.storage != null && 0 <= address < f.storage.Length
    && IsNormalized(n, c, f.storage[address] as real, values[element])
  }

  ghost predicate HoldsAllPrepared(f: Frame, crop: Cropped, n: Normalization, values: seq<real>, channels: nat)
    requires n.Valid()
    reads f.storage
  {
    forall c: nat, x: nat, y: nat :: c < channels && x < crop.frame.width && y < crop.frame.height ==>
      HoldsPrepared(f, crop, n, values, c, x, y)
  }

  lemma ApplyNormalizes(n: Normalization, c: nat, value: real)
    requires n.Valid() && c < |n.mean|
    ensures IsNormalized(n, c, value, n.Apply(c, value))
  {
  }

  lemma PreparedIsHeld(f: Frame, crop: Cropped, n: Normalization, values: seq<real>, channels: nat, width: nat,
                       height: nat, c: nat, x: nat, y: nat)
    requires CropIsInside(f, crop, width, height) && Supported(f.format) && channels <= 3
    requires n.Valid() && |n.mean| == channels && c < channels && x < width && y < height
    requires PreparedFrom(f, crop, n, values, channels, width, height)
    ensures HoldsPrepared(f, crop, n, values, c, x, y)
  {
    SourceByteIs(f, c, x + crop.left, y + crop.top);
    Factored(c, height, y, width);
    var value := SourceByte(f, c, x + crop.left, y + crop.top) as real;
    assert values[PlanarIndex(c, x, y, width, height)] == n.Apply(c, value);
    ApplyNormalizes(n, c, value);
  }

  lemma AllAreHeld(f: Frame, crop: Cropped, n: Normalization, planar: seq<real>, values: seq<real>,
                   channels: nat, width: nat, height: nat)
    requires CropIsInside(f, crop, width, height) && Supported(f.format) && (channels == 1 || channels == 3)
    requires |planar| == channels * (width * height) && Planar(crop.frame, channels, planar)
    requires n.Valid() && |n.mean| == channels && width * height > 0
    requires NormalizedUpTo(n, planar, values, width * height, |planar|)
    ensures HoldsAllPrepared(f, crop, n, values, channels)
  {
    PreparedElements(f, crop, n, planar, values, channels, width, height);
    forall c: nat, x: nat, y: nat | c < channels && x < width && y < height
      ensures HoldsPrepared(f, crop, n, values, c, x, y)
    {
      PreparedIsHeld(f, crop, n, values, channels, width, height, c, x, y);
    }
  }

  /** Every element is the affine map of its source pixel's byte. */
  ghost predicate PreparedFrom(f: Frame, crop: Cropped, n: Normalization, values: seq<real>,
                               channels: nat, width: nat, height: nat)
    requires CropIsInside(f, crop, width, height) && Supported(f.format) && channels <= 3
    requires n.Valid() && |n.mean| == channels
    reads f.storage
  {
    forall c: nat, x: nat, y: nat :: c < channels && x < width && y < height ==>
      && PlanarIndex(c, x, y, width, height) < |values|
      && values[PlanarIndex(c, x, y, width, height)]
         == n.Apply(c, SourceByte(f, c, x + crop.left, y + crop.top) as real)
  }

  lemma PreparedElements(f: Frame, crop: Cropped, n: Normalization, planar: seq<real>, values: seq<real>,
                         channels: nat, width: nat, height: nat)
    requires CropIsInside(f, crop, width, height) && Supported(f.format) && (channels == 1 || channels == 3)
    requires |planar| == channels * (width * height) && Planar(crop.frame, channels, planar)
    requires n.Valid() && |n.mean| == channels && width * height > 0
    requires NormalizedUpTo(n, planar, values, width * height, |planar|)
    ensures PreparedFrom(f, crop, n, values, channels, width, height)
  {
    forall c: nat, x: nat, y: nat | c < channels && x < width && y < height
      ensures PlanarIndex(c, x, y, width, height) < |values|
      ensures values[PlanarIndex(c, x, y, width, height)]
           == n.Apply(c, SourceByte(f, c, x + crop.left, y + crop.top) as real)
    {
      CroppedByte(f, crop, width, height, c, x, y);
      PreparedElement(n, planar, values, channels, width, height, c, x, y);
    }
  }

  /** All planes of a frame, as ToTensor leaves them. */
  ghost predicate Planar(f: Frame, channels: nat, values: seq<real>)
    requires f.Valid() && Supported(f.format) && channels <= 3 && |values| == channels * (f.width * f.height)
    reads f.storage
  {
    forall c: nat, x: nat, y: nat :: c < channels && x < f.width && y < f.height ==>
      InPlanes(channels, f, c, x, y) &&
          values[PlanarIndex(c, x, y, f.width, f.height)] == SourceByte(f, c, x, y) as real
  }

  lemma CroppedByte(f: Frame, crop: Cropped, width: nat, height: nat, c: nat, x: nat, y: nat)
    requires CropIsInside(f, crop, width, height) && Supported(f.format) && c < 3 && x < width && y < height
    ensures SourceByte(crop.frame, c, x, y) == SourceByte(f, c, x + crop.left, y + crop.top)
  {
    CropKeepsPixels(f, crop, width, height, x, y);
  }

  lemma PreparedElement(n: Normalization, before: seq<real>, after: seq<real>, channels: nat, width: nat, height: nat,
                        c: nat, x: nat, y: nat)
    requires n.Valid() && |n.mean| == channels && c < channels && x < width && y < height && width * height > 0
    requires |before| == channels * (width * height)
    requires NormalizedUpTo(n, before, after, width * height, |before|)
    ensures PlanarIndex(c, x, y, width, height) < |after| == |before|
    ensures after[PlanarIndex(c, x, y, width, height)] == n.Apply(c, before[PlanarIndex(c, x, y, width, height)])
  {
    PlanarParts(channels, width, height, c, x, y);
  }
}
