/**
  Assembling single-sample tensors into one batch and slicing a batch back into samples
  (pipeline/batchTensors.hpp), on tensors and their buffers. BatchViews says what is computed.
 */
module BatchTensors {
  import opened Core
  import opened TensorLayout
  import opened Tensors
  import opened BatchViews

  type TensorMap = map<string, Tensor>

  /** The view of a tensor in the current state of its buffer. */
  ghost predicate Means(t: Tensor, v: View)
    reads t.storage
  {
    && t.Valid() && t.dataType == v.dataType && t.dims == v.dims && t.byteStrides == v.byteStrides
    && t.layout == v.layout && t.Bytes() == v.bytes
  }

  ghost predicate MapMeans(m: TensorMap, views: ViewMap)
    reads *
  {
    m.Keys == views.Keys && forall name :: name in m ==> Means(m[name], views[name])
  }

  ghost predicate AllMean(inputs: seq<TensorMap>, views: seq<ViewMap>)
    reads *
  {
    |inputs| == |views| && forall i :: 0 <= i < |inputs| ==> MapMeans(inputs[i], views[i])
  }

  // ---------------------------------------------------------------- concatBatchTensors

  /** memcpy. */
  method CopyBytes(target: array<Byte>, at: nat, source: seq<Byte>)
    requires at + |source| <= target.Length
    modifies target
    ensures target[..at + |source|] == old(target[..at]) + source
    ensures target[at + |source|..] == old(target[at + |source|..])
  {
    for i := 0 to |source|
      invariant target[..at] == old(target[..at])
      invariant forall k :: 0 <= k < i ==> target[at + k] == source[k]
      invariant target[at + |source|..] == old(target[at + |source|..])
    {
      target[at + i] := source[i];
    }
  }

  predicate Agree(parts: seq<Option<seq<Byte>>>, size: nat) {
    forall i :: 0 <= i < |parts| ==> parts[i].Some? && |parts[i].value| == size
  }

  function Values<T>(parts: seq<Option<T>>): (values: seq<T>)
    requires forall i :: 0 <= i < |parts| ==> parts[i].Some?
    ensures |values| == |parts| && forall i :: 0 <= i < |parts| ==> values[i] == parts[i].value
  {
    seq(|parts|, i requires 0 <= i < |parts| => parts[i].value)
  }

  function Parts(views: seq<ViewMap>, name: string): seq<Option<seq<Byte>>> {
    seq(|views|, i requires 0 <= i < |views| => if name in views[i] then Some(views[i][name].bytes) else None)
  }

  lemma PartsAgree(views: seq<ViewMap>, name: string, size: nat)
    ensures Agree(Parts(views, name), size) <==> HasSamples(views, name, size)
    ensures HasSamples(views, name, size) ==> Values(Parts(views, name)) == Samples(views, name)
  {
    if HasSamples(views, name, size) {
      assert Values(Parts(views, name)) == Samples(views, name);
    } else {
      var i :| 0 <= i < |views| && !(name in views[i] && |views[i][name].bytes| == size);
      assert !(Parts(views, name)[i].Some? && |Parts(views, name)[i].value| == size);
    }
  }

  /** `parts` holds the bytes of the tensors called `name`, where there is one. */
  ghost predicate Reads(inputs: seq<TensorMap>, name: string, parts: seq<Option<seq<Byte>>>)
    reads set i | 0 <= i < |inputs| && name in inputs[i] :: inputs[i][name].storage
  {
    && |parts| == |inputs|
    && forall i :: 0 <= i < |inputs| ==>
      && (name in inputs[i] <==> parts[i].Some?)
      && (name in inputs[i] ==> inputs[i][name].Valid() && inputs[i][name].Bytes() == parts[i].value)
  }

  lemma PartsAreRead(inputs: seq<TensorMap>, views: seq<ViewMap>, name: string)
    requires AllMean(inputs, views)
    ensures Reads(inputs, name, Parts(views, name))
  {
    forall i | 0 <= i < |inputs| && name in inputs[i]
      ensures inputs[i][name].Valid() && inputs[i][name].Bytes() == views[i][name].bytes
    {
      assert MapMeans(inputs[i], views[i]) && Means(inputs[i][name], views[i][name]);
    }
    assert forall i :: 0 <= i < |inputs| ==> MapMeans(inputs[i], views[i]);
  }

  /** The inner loop: every input's bytes are copied to its own place, while names and sizes agree. */
  method CopySamples(inputs: seq<TensorMap>, name: string, sampleBytes: Size, storage: array<Byte>,
                     ghost parts: seq<Option<seq<Byte>>>)
    returns (agree: bool)
    requires Reads(inputs, name, parts) && storage.Length == |inputs| * sampleBytes
    requires forall i :: 0 <= i < |inputs| && name in inputs[i] ==> inputs[i][name].storage != storage
    modifies storage
    ensures agree <==> Agree(parts, sampleBytes)
    ensures agree ==> storage[..] == Joined(Values(parts))
  {
    for index := 0 to |inputs|
      invariant Reads(inputs, name, parts)
      invariant Agree(parts[..index], sampleBytes)
      invariant index * sampleBytes <= storage.Length
      invariant storage[..index * sampleBytes] == Joined(Values(parts[..index]))
    {
      if name !in inputs[index] || inputs[index][name].byteSize != sampleBytes {
        return false;
      }
      Places(index, |inputs|, sampleBytes);
      CopyBytes(storage, index * sampleBytes, inputs[index][name].Bytes());
      ValuesAppend(parts, index);
    }
    assert parts[..|parts|] == parts;
    assert storage[..] == storage[..|inputs| * sampleBytes];
    agree := true;
  }

  lemma ValuesAppend(parts: seq<Option<seq<Byte>>>, index: nat)
    requires index < |parts| && forall i :: 0 <= i <= index ==> parts[i].Some?
    ensures Joined(Values(parts[..index + 1])) == Joined(Values(parts[..index])) + parts[index].value
  {
    assert Values(parts[..index + 1]) == Values(parts[..index]) + [parts[index].value];
    JoinedAppend(Values(parts[..index]), parts[index].value);
  }

  /** The storage of one batch tensor, when every input has a sample of the right size for it. */
  method JoinSamples(inputs: seq<TensorMap>, name: string, sampleBytes: Size, ghost views: seq<ViewMap>)
    returns (r: Option<array<Byte>>)
    requires AllMean(inputs, views) && |inputs| <= INT64_MAX && |inputs| * sampleBytes <= SIZE_MAX
    ensures r.Some? <==> HasSamples(views, name, sampleBytes)
    ensures r.Some? ==> fresh(r.value) && r.value.Length == |inputs| * sampleBytes
    ensures r.Some? ==> r.value[..] == Joined(Samples(views, name))
  {
    ghost var parts := Parts(views, name);
    PartsAreRead(inputs, views, name);
    PartsAgree(views, name, sampleBytes);
    var batchBytes := MulSize(sampleBytes, |inputs|);
    assert batchBytes == |inputs| * sampleBytes;
    var storage := new Byte[batchBytes];
    var agree := CopySamples(inputs, name, sampleBytes, storage, parts);
    r := if agree then Some(storage) else None;
  }

  lemma BatchMeaning(views: seq<ViewMap>, name: string, t: Tensor)
    requires 0 < |views| <= INT64_MAX && name in views[0] && Batchable(views, name) && views[0][name].Valid()
    requires t.Valid() && t.byteOffset == 0 && t.storage[..] == Joined(Samples(views, name))
    requires t.dataType == views[0][name].dataType && t.layout == views[0][name].layout && t.IsContiguous()
    requires t.dims == BatchDims(views[0][name].dims, |views|)
    ensures Means(t, BatchView(views, name))
  {
    RowMajorReach(t.dims, SizeOf(t.dataType));
  }

  /**
    The joined samples of one name have a 64-bit size. The source multiplies unchecked and copies behind
    the end of its storage if this fails (WrappedSizeFallsShort), which callers must keep from: inputs may
    share one storage, so it is not the machine that does.
   */
  predicate BatchFitsMemory(views: seq<ViewMap>)
    requires views != []
  {
    forall name :: name in views[0] ==> |views| * |views[0][name].bytes| <= SIZE_MAX
  }

  /** Exactly then the storage of the batch, whose size is computed in 64 bits, is too short for its samples. */
  lemma WrappedSizeFallsShort(views: seq<ViewMap>, name: string)
    requires 0 < |views| <= INT64_MAX && name in views[0] && HasSamples(views, name, |views[0][name].bytes|)
    requires |views[0][name].bytes| <= SIZE_MAX
    ensures MulSize(|views[0][name].bytes|, |views|) < |Joined(Samples(views, name))| <==>
            |views| * |views[0][name].bytes| > SIZE_MAX
  {
    var size := |views[0][name].bytes|;
    JoinedLength(Samples(views, name), size);
  }

  /** One tensor of the batch: the body of the outer loop. */
  method ConcatOne(inputs: seq<TensorMap>, name: string, ghost views: seq<ViewMap>) returns (r: Result<Tensor>)
    requires 0 < |inputs| <= INT64_MAX && AllMean(inputs, views)
    requires name in inputs[0] && views[0][name].Valid() && |views| * |views[0][name].bytes| <= SIZE_MAX
    ensures r.Ok? <==> Batchable(views, name)
    ensures r.Ok? ==> fresh(r.value.storage) && Means(r.value, BatchView(views, name))
    ensures r.Err? ==> r.status.code.InvalidArgument?
  {
    assert Means(inputs[0][name], views[0][name]);
    var first := inputs[0][name];
    if |first.dims| == 0 || first.dims[0] != 1 {
      return Rejected("batch inference requires per-frame tensors with batch dimension 1");
    }
    var sampleBytes := first.byteSize;
    BatchLayout(views[0][name], |inputs|);
    var storage := JoinSamples(inputs, name, sampleBytes, views);
    if storage.None? {
      return Rejected("batch members must share identical tensor names and shapes");
    }
    r := Create(storage.value, 0, first.dataType, BatchDims(first.dims, |inputs|), first.layout, [], Shared);
    if r.Ok? {
      BatchMeaning(views, name, r.value);
    }
  }

  /** The batch holds what ConcatViews says: it can be built when every name of the first input can. */
  method ConcatBatchTensors(inputs: seq<TensorMap>, ghost views: seq<ViewMap>) returns (r: Result<TensorMap>)
    requires |inputs| <= INT64_MAX && AllMean(inputs, views)
    requires inputs != [] ==> BatchFitsMemory(views) && forall name :: name in views[0] ==> views[0][name].Valid()
    ensures r.Ok? <==> ConcatViews(views).Some?
    ensures r.Ok? ==> MapMeans(r.value, ConcatViews(views).value)
    ensures r.Ok? ==> forall name :: name in r.value ==> fresh(r.value[name].storage)
    ensures r.Err? ==> r.status.code.InvalidArgument?
  {
    if |inputs| == 0 {
      return Rejected("batch inference requires at least one input");
    }
    assert MapMeans(inputs[0], views[0]);
    var batch: TensorMap := map[];
    var names := inputs[0].Keys;
    while names != {}
      invariant names <= views[0].Keys && batch.Keys == views[0].Keys - names
      invariant forall name :: name in batch ==> fresh(batch[name].storage)
      invariant forall name :: name in batch ==> Batchable(views, name) && Means(batch[name], BatchView(views, name))
    {
      var name :| name in names;
      names := names - {name};
      var tensor := ConcatOne(inputs, name, views);
      if tensor.Err? {
        return tensor.PropagateErr();
      }
      batch := batch[name := tensor.value];
    }
    BatchIsComplete(views, batch);
    r := Ok(batch);
  }

  lemma BatchIsComplete(views: seq<ViewMap>, batch: TensorMap)
    requires 0 < |views| <= INT64_MAX && (forall name :: name in views[0] ==> views[0][name].Valid())
    requires batch.Keys == views[0].Keys
    requires forall name :: name in batch ==> Batchable(views, name) && Means(batch[name], BatchView(views, name))
    ensures ConcatViews(views).Some? && MapMeans(batch, ConcatViews(views).value)
  {
  }

  // ---------------------------------------------------------------- splitBatchOutputs

  function ToInt64(x: Size): Int64 { if x <= INT64_MAX then x else x - SIZE_MAX - 1 }

  predicate CanSplit(batch: Tensor, count: nat) { Splittable(batch.dataType, batch.dims, batch.byteSize, count) }

  /** A view of one sample, `at` bytes into the batch and in the batch's own storage. */
  ghost predicate IsSampleAt(view: Tensor, batch: Tensor, at: nat) {
    && batch.Valid() && batch.dims != []
    && view.Valid() && view.storage == batch.storage && view.byteOffset == batch.byteOffset + at
    && view.dataType == batch.dataType && view.dims == SampleDims(batch.dims)
    && view.IsContiguous() && view.layout == Any
  }

  /** Sample `index` of a batch tensor cut into `count`. */
  ghost predicate IsSample(view: Tensor, batch: Tensor, count: nat, index: nat)
    requires count > 0
  {
    IsSampleAt(view, batch, index * (batch.byteSize / count))
  }

  lemma PartMeans(view: Tensor, batch: Tensor, v: View, at: nat)
    requires IsSampleAt(view, batch, at) && Means(batch, v) && at + view.byteSize <= batch.byteSize
    ensures v.Valid() && view.byteSize == PackedSize(v.dataType, SampleDims(v.dims))
    ensures Means(view, PartView(v, at))
  {
    SampleDimsPacked(batch.dataType, batch.dims);
    BytesOfPart(view, batch, at);
  }

  /** A slice means the sample; by IsSampleAt it does so in the batch's own storage. */
  lemma SampleMeaning(view: Tensor, batch: Tensor, v: View, count: nat, index: nat)
    requires index < count && IsSample(view, batch, count, index) && CanSplit(batch, count) && Means(batch, v)
    ensures v.Valid() && Splittable(v.dataType, v.dims, |v.bytes|, count)
    ensures Means(view, SampleView(v, count, index))
  {
    var at := index * (batch.byteSize / count);
    SampleEnds(view, batch, count, index);
    PartMeans(view, batch, v, at);
    MeantSize(batch, v);
  }

  lemma MeantSize(batch: Tensor, v: View)
    requires Means(batch, v)
    ensures v.Valid() && |v.bytes| == batch.byteSize
  {
  }

  lemma SampleEnds(view: Tensor, batch: Tensor, count: nat, index: nat)
    requires index < count && IsSample(view, batch, count, index) && CanSplit(batch, count)
    ensures index * (batch.byteSize / count) + view.byteSize <= batch.byteSize
  {
    SampleSize(view, batch, index * (batch.byteSize / count));
    SampleInside(batch.byteSize, count, index, view.byteSize);
  }

  lemma SampleSize(view: Tensor, batch: Tensor, at: nat)
    requires IsSampleAt(view, batch, at)
    ensures view.byteSize == PackedSize(batch.dataType, SampleDims(batch.dims))
  {
    SampleDimsPacked(batch.dataType, batch.dims);
  }

  lemma BytesOfPart(part: Tensor, whole: Tensor, at: nat)
    requires part.Valid() && whole.Valid() && part.storage == whole.storage
    requires part.byteOffset == whole.byteOffset + at && at + part.byteSize <= whole.byteSize
    ensures part.Bytes() == whole.Bytes()[at..at + part.byteSize]
  {
    SliceOfSlice(whole.storage[..], whole.byteOffset, whole.byteSize, at, part.byteSize);
    assert part.Bytes() == whole.storage[..][part.byteOffset..part.byteOffset + part.byteSize];
    assert whole.Bytes() == whole.storage[..][whole.byteOffset..whole.byteOffset + whole.byteSize];
  }

  lemma SliceOfSlice<T>(s: seq<T>, offset: nat, size: nat, at: nat, length: nat)
    requires offset + size <= |s| && at + length <= size
    ensures s[offset..offset + size][at..at + length] == s[offset + at..offset + at + length]
  {
    var inner, direct := s[offset..offset + size][at..at + length], s[offset + at..offset + at + length];
    assert |inner| == |direct| && forall k :: 0 <= k < length ==> inner[k] == direct[k];
  }

  /** The shape of a sample is admissible whenever the batch is a tensor at all. */
  lemma SampleLayout(batch: Tensor)
    requires batch.Valid() && batch.dims != []
    ensures Admissible(batch.dataType, SampleDims(batch.dims), [])
    ensures LayoutOf(batch.dataType, SampleDims(batch.dims), []).byteSize ==
            PackedSize(batch.dataType, SampleDims(batch.dims))
  {
    SampleDimsPacked(batch.dataType, batch.dims);
    MulAtLeast(PackedSize(batch.dataType, SampleDims(batch.dims)), batch.dims[0] as int);
  }

  function SampleBytes(batch: Tensor): nat
    requires batch.Valid() && batch.dims != []
  {
    SampleLayout(batch);
    LayoutOf(batch.dataType, SampleDims(batch.dims), []).byteSize
  }

  /** The subview at `at` is accepted when the sample ends inside the batch. */
  method SampleAt(batch: Tensor, at: Size) returns (view: Result<Tensor>)
    requires batch.Valid() && batch.dims != []
    ensures view.Ok? <==> at + SampleBytes(batch) <= batch.byteSize
    ensures view.Ok? ==> IsSampleAt(view.value, batch, at)
    ensures view.Err? ==> view.status.code.InvalidArgument?
  {
    SampleLayout(batch);
    view := Subview(batch, at, batch.dataType, SampleDims(batch.dims), Any, []);
  }

  /** The offset of a sample does not wrap. */
  lemma SampleStart(byteSize: Size, count: Size, index: nat)
    requires index < count && byteSize % count == 0
    ensures MulSize(index, byteSize / count) == index * (byteSize / count) <= byteSize
  {
    SampleInside(byteSize, count, index, 0);
  }

  /** The samples end inside the batch when the last one does, which is when it can be split. */
  lemma SampleEnd(batch: Tensor, count: Size, index: nat)
    requires batch.Valid() && batch.dims != [] && batch.dims[0] == count > index && batch.byteSize % count == 0
    ensures CanSplit(batch, count) ==> index * (batch.byteSize / count) + SampleBytes(batch) <= batch.byteSize
    ensures index == count - 1 && index * (batch.byteSize / count) + SampleBytes(batch) <= batch.byteSize ==>
        CanSplit(batch, count)
  {
    SampleLayout(batch);
    SampleInside(batch.byteSize, count, index, SampleBytes(batch));
  }

  method SplitBatchOutputs(batchOutputs: TensorMap, batchSize: Size) returns (r: Result<seq<TensorMap>>)
    requires forall name :: name in batchOutputs ==> batchOutputs[name].Valid()
    ensures r.Ok? <==> forall name :: name in batchOutputs ==> CanSplit(batchOutputs[name], batchSize)
    ensures r.Ok? ==> |r.value| == batchSize && forall i :: 0 <= i < batchSize ==>
        IsSlice(r.value[i], batchOutputs, batchSize, i)
    ensures r.Err? ==> r.status.code.InvalidArgument?
  {
    var perSample: seq<TensorMap> := seq(batchSize, _ => map[]);
    var names := batchOutputs.Keys;
    while names != {}
      invariant names <= batchOutputs.Keys && |perSample| == batchSize
      invariant forall name :: name in batchOutputs.Keys - names ==> CanSplit(batchOutputs[name], batchSize)
      invariant forall i :: 0 <= i < batchSize ==> perSample[i].Keys == batchOutputs.Keys - names
      invariant forall i, name :: 0 <= i < batchSize && name in batchOutputs.Keys - names ==>
        IsSample(perSample[i][name], batchOutputs[name], batchSize, i)
    {
      var name :| name in names;
      var views := SplitOne(batchOutputs[name], batchSize);
      if views.Err? {
        return views.PropagateErr();
      }
      perSample := seq(batchSize, i requires 0 <= i < |perSample| && i < |views.value| =>
                         perSample[i][name := views.value[i]]);
      names := names - {name};
    }
    r := Ok(perSample);
  }

  /** The samples of one batch tensor: the body of the outer loop. */
  method SplitOne(batchTensor: Tensor, batchSize: Size) returns (r: Result<seq<Tensor>>)
    requires batchTensor.Valid()
    ensures r.Ok? <==> CanSplit(batchTensor, batchSize)
    ensures r.Ok? ==> |r.value| == batchSize
    ensures r.Ok? ==> forall i :: 0 <= i < batchSize ==> IsSample(r.value[i], batchTensor, batchSize, i)
    ensures r.Err? ==> r.status.code.InvalidArgument?
  {
    var dims := batchTensor.dims;
    if |dims| == 0 || dims[0] != ToInt64(batchSize) || batchTensor.byteSize % batchSize != 0 {
      return Rejected("batch inference output does not match the batch size");
    }
    var sampleBytes: Size := batchTensor.byteSize / batchSize;
    var views: seq<Tensor> := [];
    for index := 0 to batchSize
      invariant |views| == index
      invariant forall i :: 0 <= i < index ==> IsSample(views[i], batchTensor, batchSize, i)
      invariant index == batchSize ==> CanSplit(batchTensor, batchSize)
    {
      SampleStart(batchTensor.byteSize, batchSize, index);
      SampleEnd(batchTensor, batchSize, index);
      var view := SampleAt(batchTensor, MulSize(index, sampleBytes));
      if view.Err? {
        return view.PropagateErr();
      }
      views := views + [view.value];
    }
    r := Ok(views);
  }

  /** The slices of every tensor of a batch, as splitBatchOutputs leaves them. */
  ghost predicate IsSlice(slice: TensorMap, batch: TensorMap, count: nat, index: nat)
    requires count > 0
  {
    slice.Keys == batch.Keys && forall name :: name in batch ==> IsSample(slice[name], batch[name], count, index)
  }

  lemma BatchIsSplittable(batch: TensorMap, views: ViewMap, count: nat)
    requires MapMeans(batch, views) && forall name :: name in batch ==> CanSplit(batch[name], count)
    ensures AllSplittable(views, count) && forall name :: name in views ==> views[name].Valid()
  {
    forall name | name in views
      ensures views[name].Valid() && Splittable(views[name].dataType, views[name].dims, |views[name].bytes|, count)
    {
      assert Means(batch[name], views[name]);
    }
  }
}
