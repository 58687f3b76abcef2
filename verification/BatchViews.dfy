/**
  What joining samples into a batch and slicing a batch into samples mean, on views: tensors with
  their bytes spelled out (pipeline/batchTensors.hpp).
 */
module BatchViews {
  import opened Core
  import opened TensorLayout
  import opened Tensors

  const INT64_MAX: nat := 0x7FFF_FFFF_FFFF_FFFF

  datatype View = View(dataType: DataType, dims: seq<Int64>, byteStrides: seq<nat>, layout: LayoutTag,
      bytes: seq<Byte>) {
    predicate Valid() {
      && Concrete(dims) && Fits(dims, SizeOf(dataType)) && |byteStrides| == |dims|
      && |bytes| == Span(dims, byteStrides, SizeOf(dataType))
    }

    predicate IsContiguous() { Concrete(dims) && byteStrides == RowMajor(dims, SizeOf(dataType)) }
  }

  type ViewMap = map<string, View>

  function Joined(parts: seq<seq<Byte>>): seq<Byte> {
    if parts == [] then [] else parts[0] + Joined(parts[1..])
  }

  function BatchDims(dims: seq<Int64>, count: nat): seq<Int64>
    requires dims != [] && count <= INT64_MAX
  {
    [count as Int64] + dims[1..]
  }

  /** The bytes the elements of a shape take when nothing lies between them. */
  function PackedSize(t: DataType, dims: seq<Int64>): int { SizeOf(t) * Product(dims) }

  predicate HasSamples(inputs: seq<ViewMap>, name: string, sampleBytes: nat) {
    forall i :: 0 <= i < |inputs| ==> name in inputs[i] && |inputs[i][name].bytes| == sampleBytes
  }

  /** When the tensors called `name` can be joined: what is compared is the byte size, not the shape. */
  predicate Batchable(inputs: seq<ViewMap>, name: string)
    requires inputs != [] && name in inputs[0]
  {
    var first := inputs[0][name];
    && first.dims != [] && first.dims[0] == 1
    && HasSamples(inputs, name, |first.bytes|)
    && PackedSize(first.dataType, first.dims) <= |first.bytes|
  }

  function Samples(inputs: seq<ViewMap>, name: string): (parts: seq<seq<Byte>>)
    requires forall i :: 0 <= i < |inputs| ==> name in inputs[i]
    ensures |parts| == |inputs| && forall i :: 0 <= i < |inputs| ==> parts[i] == inputs[i][name].bytes
  {
    seq(|inputs|, i requires 0 <= i < |inputs| => inputs[i][name].bytes)
  }

  function BatchView(inputs: seq<ViewMap>, name: string): View
    requires 0 < |inputs| <= INT64_MAX && name in inputs[0] && Batchable(inputs, name) && inputs[0][name].Valid()
  {
    var first := inputs[0][name];
    var dims := BatchDims(first.dims, |inputs|);
    JoinedFits(inputs, name);
    View(first.dataType, dims, RowMajor(dims, SizeOf(first.dataType)), first.layout,
         Joined(Samples(inputs, name))[..PackedSize(first.dataType, dims)])
  }

  lemma {:induction false} JoinedLength(parts: seq<seq<Byte>>, size: nat)
    requires forall i :: 0 <= i < |parts| ==> |parts[i]| == size
    ensures |Joined(parts)| == |parts| * size
  {
    if parts != [] {
      JoinedLength(parts[1..], size);
      assert |parts| * size == size + (|parts| - 1) * size;
    }
  }

  lemma BatchDimsProduct(dims: seq<Int64>, count: nat, size: nat)
    requires dims != [] && dims[0] == 1 && count <= INT64_MAX
    ensures BatchDims(dims, count)[1..] == dims[1..] && Product(dims) == Product(dims[1..])
    ensures Product(BatchDims(dims, count)) == count * Product(dims)
    ensures size * Product(BatchDims(dims, count)) == count * (size * Product(dims))
  {
    MulAssociates(size, count, Product(dims));
    MulAssociates(count, size, Product(dims));
  }

  lemma JoinedFits(inputs: seq<ViewMap>, name: string)
    requires 0 < |inputs| <= INT64_MAX && name in inputs[0] && Batchable(inputs, name) && inputs[0][name].Valid()
    ensures var first := inputs[0][name]; var dims := BatchDims(first.dims, |inputs|);
      && |Joined(Samples(inputs, name))| == |inputs| * |first.bytes|
      && Concrete(dims)
      && 0 <= PackedSize(first.dataType, dims) <= |inputs| * |first.bytes|
  {
    var first := inputs[0][name];
    var size := SizeOf(first.dataType);
    JoinedLength(Samples(inputs, name), |first.bytes|);
    BatchDimsProduct(first.dims, |inputs|, size);
    ProductPositive(first.dims);
    MulGrows(|inputs|, size * Product(first.dims), |first.bytes|);
    MulGrows(|inputs|, 0, size * Product(first.dims));
    MulGrows(size, 0, Product(first.dims));
  }

  /** The batch of a list of samples, where there is one. */
  function ConcatViews(inputs: seq<ViewMap>): Option<ViewMap>
    requires |inputs| <= INT64_MAX
    requires inputs != [] ==> forall name :: name in inputs[0] ==> inputs[0][name].Valid()
  {
    if inputs != [] && forall name :: name in inputs[0] ==> Batchable(inputs, name) then
      Some(map name | name in inputs[0] :: BatchView(inputs, name))
    else None
  }

  lemma {:induction false} JoinedAppend(parts: seq<seq<Byte>>, last: seq<Byte>)
    ensures Joined(parts + [last]) == Joined(parts) + last
  {
    if parts == [] {
      assert parts + [last] == [last];
    } else {
      JoinedAppend(parts[1..], last);
      assert (parts + [last])[1..] == parts[1..] + [last];
    }
  }

  /** The layout of the batch fits the joined bytes exactly when a packed sample fits one sample's bytes. */
  lemma BatchLayout(first: View, count: nat)
    requires first.Valid() && first.dims != [] && first.dims[0] == 1
    requires 0 < count <= INT64_MAX && count * |first.bytes| <= SIZE_MAX
    ensures var dims := BatchDims(first.dims, count);
      && Concrete(dims)
      && Span(dims, RowMajor(dims, SizeOf(first.dataType)), SizeOf(first.dataType)) == PackedSize(first.dataType, dims)
      && (PackedSize(first.dataType, first.dims) <= |first.bytes| <==>
           PackedSize(first.dataType, dims) <= count * |first.bytes|)
  {
    var dims := BatchDims(first.dims, count);
    var size := SizeOf(first.dataType);
    BatchDimsProduct(first.dims, count, size);
    RowMajorReach(dims, size);
    var packed := PackedSize(first.dataType, first.dims);
    if packed <= |first.bytes| {
      MulGrows(count, packed, |first.bytes|);
    } else {
      MulGrows(count, |first.bytes| + 1, packed);
    }
  }

  // ---------------------------------------------------------------- splitting

  function SampleDims(dims: seq<Int64>): seq<Int64>
    requires dims != []
  {
    [1] + dims[1..]
  }

  /** When a batch tensor of `byteSize` bytes is cut into `count` samples. */
  predicate Splittable(t: DataType, dims: seq<Int64>, byteSize: nat, count: nat) {
    && dims != [] && dims[0] == count && count > 0
    && byteSize % count == 0
    && PackedSize(t, SampleDims(dims)) <= byteSize / count
  }

  /** The place of a sample inside the batch's bytes. */
  lemma SampleInside(byteSize: nat, count: nat, index: nat, packed: nat)
    requires index < count && byteSize % count == 0
    ensures packed <= byteSize / count ==> index * (byteSize / count) + packed <= byteSize
    ensures index * (byteSize / count) + packed > byteSize ==> packed > byteSize / count
    ensures index == count - 1 && packed > byteSize / count ==> index * (byteSize / count) + packed > byteSize
  {
    var sampleBytes := byteSize / count;
    assert byteSize == count * sampleBytes;
    Places(index, count, sampleBytes);
  }

  lemma Places(index: nat, count: nat, size: nat)
    requires index < count
    ensures index * size + size == (index + 1) * size <= count * size
  {
    MulMonotone(index + 1, count, size);
  }

  lemma SampleDimsPacked(t: DataType, dims: seq<Int64>)
    requires Concrete(dims) && dims != []
    ensures Concrete(SampleDims(dims)) && 0 <= PackedSize(t, SampleDims(dims))
    ensures PackedSize(t, dims) == dims[0] * PackedSize(t, SampleDims(dims))
    ensures Span(SampleDims(dims), RowMajor(SampleDims(dims), SizeOf(t)), SizeOf(t)) == PackedSize(t, SampleDims(dims))
  {
    RowMajorReach(SampleDims(dims), SizeOf(t));
    ProductPositive(dims[1..]);
    MulGrows(SizeOf(t), 0, Product(dims[1..]));
    MulAssociates(SizeOf(t), dims[0] as int, Product(dims[1..]));
    MulAssociates(dims[0] as int, SizeOf(t), Product(dims[1..]));
  }

  /** The sample that starts `at` bytes into a batch. */
  function PartView(batch: View, at: nat): View
    requires batch.Valid() && batch.dims != []
    requires at + PackedSize(batch.dataType, SampleDims(batch.dims)) <= |batch.bytes|
  {
    SampleDimsPacked(batch.dataType, batch.dims);
    var dims := SampleDims(batch.dims);
    View(batch.dataType, dims, RowMajor(dims, SizeOf(batch.dataType)), Any,
         batch.bytes[at..at + PackedSize(batch.dataType, dims)])
  }

  lemma SampleFits(t: DataType, dims: seq<Int64>, byteSize: nat, count: nat, index: nat)
    requires Concrete(dims) && Splittable(t, dims, byteSize, count) && index < count
    ensures index * (byteSize / count) + PackedSize(t, SampleDims(dims)) <= byteSize
  {
    SampleDimsPacked(t, dims);
    SampleInside(byteSize, count, index, PackedSize(t, SampleDims(dims)));
  }

  /** Sample `index` of a batch cut into `count` equal parts. */
  function SampleView(batch: View, count: nat, index: nat): View
    requires batch.Valid() && Splittable(batch.dataType, batch.dims, |batch.bytes|, count) && index < count
  {
    SampleFits(batch.dataType, batch.dims, |batch.bytes|, count, index);
    PartView(batch, index * (|batch.bytes| / count))
  }

  predicate AllSplittable(batch: ViewMap, count: nat) {
    forall name :: name in batch ==>
      Splittable(batch[name].dataType, batch[name].dims, |batch[name].bytes|, count)
  }

  function SampleMap(batch: ViewMap, count: nat, index: nat): ViewMap
    requires forall name :: name in batch ==> batch[name].Valid()
    requires AllSplittable(batch, count) && index < count
  {
    map name | name in batch :: SampleView(batch[name], count, index)
  }

  /** The samples of a batch, where every tensor of it can be cut. */
  function SplitViews(batch: ViewMap, count: nat): Option<seq<ViewMap>>
    requires forall name :: name in batch ==> batch[name].Valid()
  {
    if AllSplittable(batch, count) then
      Some(seq(count, i requires 0 <= i < count => SampleMap(batch, count, i)))
    else None
  }
}
