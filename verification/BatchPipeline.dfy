/**
  Pipeline::inferBatch on tensors and their buffers (pipeline/pipeline.hpp): join, one backend call, cut,
  append. What it gives means what BatchInference.InferBatch says of the views.
 */
module BatchPipeline {
  import opened Core
  import opened TensorLayout
  import opened Tensors
  import opened BatchViews
  import opened BatchInference
  import opened BatchTensors

  /** A prepared input or an inference output. */
  datatype Frame<P, C> = Frame(packet: P, tensors: TensorMap, context: C)

  /** A view whose bytes and strides fit in 64 bits, as those of every accepted tensor do. */
  ghost predicate Storable(v: View) {
    v.Valid() && |v.bytes| <= SIZE_MAX && forall i :: 0 <= i < |v.byteStrides| ==> v.byteStrides[i] <= SIZE_MAX
  }

  ghost predicate AllStorable(views: ViewMap) { forall name :: name in views ==> Storable(views[name]) }

  ghost predicate ReturnsStorable(backend: Backend) {
    forall m {:trigger backend(m)} :: backend(m).Ok? ==> AllStorable(backend(m).value)
  }

  // ---------------------------------------------------------------- the backend call

  /** What a tensor shows of its buffer. */
  function ViewOf(t: Tensor): (v: View)
    requires t.Valid()
    reads t.storage
    ensures Means(t, v)
  {
    View(t.dataType, t.dims, t.byteStrides, t.layout, t.Bytes())
  }

  /** An output of the backend in a buffer of its own. */
  method Store(v: View) returns (t: Tensor)
    requires Storable(v)
    ensures fresh(t.storage) && Means(t, v)
  {
    var storage := new Byte[|v.bytes|];
    CopyInto(storage, v.bytes);
    var strides: seq<Size> := seq(|v.byteStrides|, i requires 0 <= i < |v.byteStrides| => v.byteStrides[i]);
    assert strides == v.byteStrides;
    StoredLayout(v, strides);
    var created := Create(storage, 0, v.dataType, v.dims, v.layout, strides, Owned);
    t := created.value;
  }

  method CopyInto(storage: array<Byte>, bytes: seq<Byte>)
    requires storage.Length == |bytes|
    modifies storage
    ensures storage[..] == bytes
  {
    CopyBytes(storage, 0, bytes);
    assert storage[..] == storage[..0] + bytes;
  }

  /** The strides of a valid view are accepted as they are. */
  lemma StoredLayout(v: View, strides: seq<Size>)
    requires Storable(v) && strides == v.byteStrides
    ensures Admissible(v.dataType, v.dims, strides)
    ensures EffectiveStrides(v.dims, strides, SizeOf(v.dataType)) == v.byteStrides
    ensures LayoutOf(v.dataType, v.dims, strides).byteSize == |v.bytes|
  {
  }

  /** One call of the foreign backend: it sees what the batch means, and its outputs get buffers. */
  method CallBackend(backend: Backend, batch: TensorMap, ghost views: ViewMap) returns (r: Result<TensorMap>)
    requires ReturnsStorable(backend) && MapMeans(batch, views)
    ensures r.Ok? <==> backend(views).Ok?
    ensures r.Ok? ==> MapMeans(r.value, backend(views).value)
    ensures r.Err? ==> r.status == backend(views).status
  {
    assert forall name :: name in batch ==> Means(batch[name], views[name]);
    var seen: ViewMap := map name | name in batch :: ViewOf(batch[name]);
    assert seen == views;
    var outputs := backend(seen);
    if outputs.Err? {
      return outputs.PropagateErr();
    }
    assert AllStorable(outputs.value);
    var stored := StoreAll(outputs.value);
    r := Ok(stored);
  }

  method StoreAll(views: ViewMap) returns (stored: TensorMap)
    requires AllStorable(views)
    ensures MapMeans(stored, views)
  {
    stored := map[];
    var names := views.Keys;
    while names != {}
      invariant names <= views.Keys && stored.Keys == views.Keys - names
      invariant forall name :: name in stored ==> Means(stored[name], views[name])
    {
      var name :| name in names;
      names := names - {name};
      assert Storable(views[name]);
      var tensor := Store(views[name]);
      stored := stored[name := tensor];
    }
  }

  // ---------------------------------------------------------------- inferBatch

  function MapsOf<P, C>(inputs: seq<Frame<P, C>>): (maps: seq<TensorMap>)
    ensures |maps| == |inputs| && forall i :: 0 <= i < |inputs| ==> maps[i] == inputs[i].tensors
  {
    seq(|inputs|, i requires 0 <= i < |inputs| => inputs[i].tensors)
  }

  /** A frame shows a sample: same packet, same context, and tensors that mean its views. */
  ghost predicate Shows<P, C>(frame: Frame<P, C>, sample: Sample<P, C>)
    reads *
  {
    frame.packet == sample.packet && frame.context == sample.context && MapMeans(frame.tensors, sample.tensors)
  }

  ghost predicate AllShow<P, C>(frames: seq<Frame<P, C>>, samples: seq<Sample<P, C>>)
    reads *
  {
    |frames| == |samples| && forall i :: 0 <= i < |frames| ==> Shows(frames[i], samples[i])
  }

  lemma ShownInputs<P, C>(frames: seq<Frame<P, C>>, samples: seq<Sample<P, C>>)
    requires AllShow(frames, samples)
    ensures AllMean(MapsOf(frames), TensorsOf(samples))
    ensures frames != [] ==> AllViewsValid(samples[0].tensors)
  {
    forall i | 0 <= i < |frames|
      ensures MapMeans(MapsOf(frames)[i], TensorsOf(samples)[i])
    {
      assert Shows(frames[i], samples[i]);
    }
    if frames != [] {
      assert Shows(frames[0], samples[0]);
      forall name | name in samples[0].tensors
        ensures samples[0].tensors[name].Valid()
      {
        assert Means(frames[0].tensors[name], samples[0].tensors[name]);
      }
    }
  }

  /** Cutting the tensors succeeds exactly when cutting the views does. */
  lemma CutsAgree(batch: TensorMap, views: ViewMap, count: nat)
    requires MapMeans(batch, views)
    ensures AllViewsValid(views)
    ensures (forall name :: name in batch ==> CanSplit(batch[name], count)) <==> SplitViews(views, count).Some?
  {
    forall name | name in views
      ensures views[name].Valid()
      ensures CanSplit(batch[name], count) <==>
              Splittable(views[name].dataType, views[name].dims, |views[name].bytes|, count)
    {
      assert Means(batch[name], views[name]);
    }
    if forall name :: name in batch ==> CanSplit(batch[name], count) {
      BatchIsSplittable(batch, views, count);
    }
  }

  lemma SliceMeans(slice: TensorMap, batch: TensorMap, views: ViewMap, count: nat, index: nat)
    requires index < count && IsSlice(slice, batch, count, index) && MapMeans(batch, views)
    requires AllViewsValid(views) && AllSplittable(views, count)
    ensures MapMeans(slice, SampleMap(views, count, index))
  {
    forall name | name in slice
      ensures Means(slice[name], SampleMap(views, count, index)[name])
    {
      assert Means(batch[name], views[name]);
      SampleMeaning(slice[name], batch[name], views[name], count, index);
    }
  }

  /**
    inferBatch: its results exist exactly when those of InferBatch on the views do, carry the packets and
    contexts of the inputs in order, and mean the same; its failures have the same code.
   */
  method RunInferBatch<P, C>(backend: Backend, inputs: seq<Frame<P, C>>, ghost samples: seq<Sample<P, C>>)
    returns (r: Result<seq<Frame<P, C>>>)
    requires ReturnsStorable(backend) && ReturnsTensors(backend) && AllShow(inputs, samples) && |inputs| <= INT64_MAX
    requires inputs != [] ==> AllViewsValid(samples[0].tensors) && BatchFitsMemory(TensorsOf(samples))
    ensures r.Ok? <==> InferBatch(backend, samples).Ok?
    ensures r.Ok? ==> AllShow(r.value, InferBatch(backend, samples).value)
    ensures r.Err? ==> r.status.code == InferBatch(backend, samples).status.code
  {
    ShownInputs(inputs, samples);
    var batch := ConcatBatchTensors(MapsOf(inputs), TensorsOf(samples));
    if batch.Err? {
      return WithContext(batch.status);
    }
    ghost var joined := ConcatViews(TensorsOf(samples)).value;
    var outputs := CallBackend(backend, batch.value, joined);
    if outputs.Err? {
      return WithContext(outputs.status);
    }
    ghost var views := backend(joined).value;
    CutsAgree(outputs.value, views, |inputs|);
    MeantAreTensors(outputs.value, views);
    var perSample := SplitBatchOutputs(outputs.value, |inputs|);
    if perSample.Err? {
      return WithContext(perSample.status);
    }
    var results: seq<Frame<P, C>> := [];
    for index := 0 to |inputs|
      invariant |results| == index
      invariant forall i :: 0 <= i < index ==> results[i] == inputs[i].(tensors := perSample.value[i])
    {
      results := results + [inputs[index].(tensors := perSample.value[index])];
    }
    forall i | 0 <= i < |inputs|
      ensures Shows(results[i], InferBatch(backend, samples).value[i])
    {
      assert Shows(inputs[i], samples[i]);
      SliceMeans(perSample.value[i], outputs.value, views, |inputs|, i);
    }
    r := Ok(results);
  }

  lemma MeantAreTensors(batch: TensorMap, views: ViewMap)
    requires MapMeans(batch, views)
    ensures forall name :: name in batch ==> batch[name].Valid()
  {
    forall name | name in batch
      ensures batch[name].Valid()
    {
      assert Means(batch[name], views[name]);
    }
  }
}
