/**
  Pipeline::infer and Pipeline::inferBatch over views (pipeline/pipeline.hpp), and why the way a
  stream is cut into batches cannot be seen in the results.
 */
module BatchInference {
  import opened Core
  import opened TensorLayout
  import opened Tensors
  import opened BatchViews

  // ---------------------------------------------------------------- concat, then split

  predicate AllViewsValid(m: ViewMap) { forall name :: name in m ==> m[name].Valid() }

  /** Slices of a batch carry no layout tag. */
  function Untagged(m: ViewMap): ViewMap { map name | name in m :: m[name].(layout := Any) }

  lemma {:induction false} JoinedAt(parts: seq<seq<Byte>>, size: nat, index: nat)
    requires index < |parts| && forall i :: 0 <= i < |parts| ==> |parts[i]| == size
    ensures |Joined(parts)| == |parts| * size && index * size + size <= |parts| * size
    ensures Joined(parts)[index * size..index * size + size] == parts[index]
  {
    JoinedLength(parts, size);
    Places(index, |parts|, size);
    if index == 0 {
      assert Joined(parts)[..size] == parts[0];
    } else {
      JoinedAt(parts[1..], size, index - 1);
      JoinedLength(parts[1..], size);
      Places(index - 1, |parts| - 1, size);
      var rest := Joined(parts[1..]);
      var at := (index - 1) * size;
      assert index * size == size + at;
      assert (parts[0] + rest)[size + at..size + at + size] == rest[at..at + size];
    }
  }

  /** The batch tensor is a packed tensor of `|inputs|` samples, so it can be cut again. */
  lemma BatchCanBeCut(inputs: seq<ViewMap>, name: string)
    requires 0 < |inputs| <= INT64_MAX && name in inputs[0] && inputs[0][name].Valid() && Batchable(inputs, name)
    requires |inputs| * |inputs[0][name].bytes| <= SIZE_MAX
    ensures var first := inputs[0][name]; var batch := BatchView(inputs, name);
      && batch.Valid() && SampleDims(batch.dims) == first.dims
      && |batch.bytes| == |inputs| * PackedSize(first.dataType, first.dims)
      && Splittable(batch.dataType, batch.dims, |batch.bytes|, |inputs|)
      && |batch.bytes| / |inputs| == PackedSize(first.dataType, first.dims)
  {
    var first, batch := inputs[0][name], BatchView(inputs, name);
    var packed := PackedSize(first.dataType, first.dims);
    JoinedFits(inputs, name);
    BatchLayout(first, |inputs|);
    BatchDimsProduct(first.dims, |inputs|, SizeOf(first.dataType));
    assert SampleDims(batch.dims) == first.dims;
    ProductPositive(first.dims);
    QuotientIs(packed, 0, |inputs|);
    assert |batch.bytes| == packed * |inputs|;
  }

  /** When a sample comes back from the batch as it went in. */
  predicate SurvivesBatching(first: View, input: View) {
    input.IsContiguous() && input.dims == first.dims && input.dataType == first.dataType
  }

  lemma SurvivorSize(first: View, input: View)
    requires first.Valid() && input.Valid() && SurvivesBatching(first, input)
    ensures |input.bytes| == PackedSize(first.dataType, first.dims)
  {
    RowMajorReach(input.dims, SizeOf(input.dataType));
  }

  lemma SliceOfJoined(parts: seq<seq<Byte>>, size: nat, index: nat, bytes: seq<Byte>)
    requires index < |parts| && forall i :: 0 <= i < |parts| ==> |parts[i]| == size
    requires bytes <= Joined(parts) && |bytes| == |parts| * size
    ensures index * size + size <= |bytes| && bytes[index * size..index * size + size] == parts[index]
  {
    JoinedAt(parts, size, index);
    assert bytes == Joined(parts);
  }

  lemma BatchBytes(inputs: seq<ViewMap>, name: string)
    requires 0 < |inputs| <= INT64_MAX && name in inputs[0] && inputs[0][name].Valid() && Batchable(inputs, name)
    ensures BatchView(inputs, name).bytes <= Joined(Samples(inputs, name))
  {
    JoinedFits(inputs, name);
    var whole, bytes := Joined(Samples(inputs, name)), BatchView(inputs, name).bytes;
    assert bytes == whole[..|bytes|];
  }

  /** The batch looks like the first sample, with the number of samples for its leading dimension. */
  lemma BatchLooksLikeTheFirst(inputs: seq<ViewMap>, name: string)
    requires 0 < |inputs| <= INT64_MAX && name in inputs[0] && inputs[0][name].Valid() && Batchable(inputs, name)
    ensures var first, batch := inputs[0][name], BatchView(inputs, name);
      && batch.dataType == first.dataType && batch.layout == first.layout && batch.IsContiguous()
      && |batch.dims| == |first.dims| && batch.dims[0] == |inputs| && batch.dims[1..] == first.dims[1..]
      && batch.bytes <= Joined(Samples(inputs, name))
  {
    BatchBytes(inputs, name);
    JoinedFits(inputs, name);
  }

  /** The slice of a surviving sample holds the sample's own bytes. */
  lemma SurvivingBytes(inputs: seq<ViewMap>, name: string, index: nat, size: nat)
    requires 0 < |inputs| <= INT64_MAX && index < |inputs| && name in inputs[0] && Batchable(inputs, name)
    requires inputs[0][name].Valid() && |inputs[0][name].bytes| == |inputs[index][name].bytes| == size
    requires |BatchView(inputs, name).bytes| == |inputs| * size
    ensures var bytes := BatchView(inputs, name).bytes;
      index * size + size <= |bytes| && bytes[index * size..index * size + size] == inputs[index][name].bytes
  {
    BatchBytes(inputs, name);
    SliceOfJoined(Samples(inputs, name), size, index, BatchView(inputs, name).bytes);
  }

  /**
    Sample `index` of the joined and cut batch is the input's own tensor exactly when that tensor is
    contiguous and has the shape and type of the first one. Joining compares neither: a list it
    accepts because the byte sizes agree can come back with another shape, type or order.
   */
  lemma ConcatThenSplit(inputs: seq<ViewMap>, name: string, index: nat)
    requires 0 < |inputs| <= INT64_MAX && index < |inputs| && name in inputs[0] && Batchable(inputs, name)
    requires inputs[0][name].Valid() && inputs[index][name].Valid()
    requires |inputs| * |inputs[0][name].bytes| <= SIZE_MAX
    ensures var batch := BatchView(inputs, name);
      && batch.Valid() && Splittable(batch.dataType, batch.dims, |batch.bytes|, |inputs|)
      && (SampleView(batch, |inputs|, index) == inputs[index][name].(layout := Any)
          <==> SurvivesBatching(inputs[0][name], inputs[index][name]))
  {
    BatchCanBeCut(inputs, name);
    var first, input, batch := inputs[0][name], inputs[index][name], BatchView(inputs, name);
    var sample := SampleView(batch, |inputs|, index);
    if SurvivesBatching(first, input) {
      SurvivorSize(first, input);
      SurvivingBytes(inputs, name, index, |input.bytes|);
    }
  }

  // ---------------------------------------------------------------- infer and inferBatch

  /** A prepared input or an inference output: tensors with the packet and transform they belong to. */
  datatype Sample<P, C> = Sample(packet: P, tensors: ViewMap, context: C)

  /** Foreign code: a total function from named tensors to named tensors. */
  type Backend = ViewMap -> Result<ViewMap>

  function WithContext<T>(status: Status): (r: Result<T>)
    ensures r.Err? && r.status.code == status.code
  {
    Err(status.(message := "inference: " + status.message))
  }

  function Infer<P, C>(backend: Backend, input: Sample<P, C>): Result<Sample<P, C>> {
    var outputs := backend(input.tensors);
    if outputs.Err? then WithContext(outputs.status) else Ok(input.(tensors := outputs.value))
  }

  function TensorsOf<P, C>(inputs: seq<Sample<P, C>>): (maps: seq<ViewMap>)
    ensures |maps| == |inputs| && forall i :: 0 <= i < |inputs| ==> maps[i] == inputs[i].tensors
  {
    seq(|inputs|, i requires 0 <= i < |inputs| => inputs[i].tensors)
  }

  /** What the backend interface demands: every tensor it returns is an accepted one. */
  ghost predicate ReturnsTensors(backend: Backend) {
    forall m :: backend(m).Ok? ==> AllViewsValid(backend(m).value)
  }

  ghost function InferBatch<P, C>(backend: Backend, inputs: seq<Sample<P, C>>): Result<seq<Sample<P, C>>>
    requires ReturnsTensors(backend) && |inputs| <= INT64_MAX
    requires inputs != [] ==> AllViewsValid(inputs[0].tensors)
  {
    var batch := ConcatViews(TensorsOf(inputs));
    if batch.None? then WithContext(Status(InvalidArgument, "batch inference"))
    else
      var outputs := backend(batch.value);
      if outputs.Err? then WithContext(outputs.status)
      else
        var perSample := SplitViews(outputs.value, |inputs|);
        if perSample.None? then WithContext(Status(InvalidArgument, "batch inference"))
        else Ok(seq(|inputs|, i requires 0 <= i < |inputs| => inputs[i].(tensors := perSample.value[i])))
  }

  /** Samples with the same names, shapes and types, each packed and with batch dimension 1. */
  ghost predicate Uniform(samples: seq<ViewMap>) {
    && samples != [] && |samples| <= INT64_MAX
    && forall i :: 0 <= i < |samples| ==> Conforms(samples[0], samples[i], |samples|)
  }

  predicate Conforms(first: ViewMap, sample: ViewMap, count: nat) {
    && sample.Keys == first.Keys
    && forall name :: name in sample ==>
      && sample[name].Valid() && SurvivesBatching(first[name], sample[name])
      && sample[name].dims != [] && sample[name].dims[0] == 1
      && count * |sample[name].bytes| <= SIZE_MAX
  }

  lemma UniformCanBeJoined(samples: seq<ViewMap>)
    requires Uniform(samples)
    ensures AllViewsValid(samples[0]) && ConcatViews(samples).Some?
  {
    assert Conforms(samples[0], samples[0], |samples|);
    forall name | name in samples[0] ensures Batchable(samples, name) {
      var first := samples[0][name];
      RowMajorReach(first.dims, SizeOf(first.dataType));
      forall i | 0 <= i < |samples| ensures name in samples[i] && |samples[i][name].bytes| == |first.bytes| {
        assert Conforms(samples[0], samples[i], |samples|);
        RowMajorReach(samples[i][name].dims, SizeOf(first.dataType));
      }
    }
  }

  lemma UniformTensorSurvives(samples: seq<ViewMap>, name: string, index: nat)
    requires Uniform(samples) && index < |samples| && name in samples[0]
    ensures samples[0][name].Valid() && Batchable(samples, name) && name in samples[index]
    ensures var batch := BatchView(samples, name);
      && batch.Valid() && Splittable(batch.dataType, batch.dims, |batch.bytes|, |samples|)
      && SampleView(batch, |samples|, index) == samples[index][name].(layout := Any)
  {
    UniformCanBeJoined(samples);
    assert Conforms(samples[0], samples[0], |samples|) && Conforms(samples[0], samples[index], |samples|);
    ConcatThenSplit(samples, name, index);
  }

  lemma UniformCanBeCut(samples: seq<ViewMap>)
    requires Uniform(samples)
    ensures AllViewsValid(samples[0]) && ConcatViews(samples).Some?
    ensures AllViewsValid(ConcatViews(samples).value) && AllSplittable(ConcatViews(samples).value, |samples|)
  {
    UniformCanBeJoined(samples);
    var batch := ConcatViews(samples).value;
    forall name | name in batch
      ensures batch[name].Valid() && Splittable(batch[name].dataType, batch[name].dims, |batch[name].bytes|, |samples|)
    {
      UniformTensorSurvives(samples, name, 0);
    }
  }

  lemma UniformSurvives(samples: seq<ViewMap>, index: nat)
    requires Uniform(samples) && index < |samples|
    ensures AllViewsValid(samples[0]) && ConcatViews(samples).Some?
    ensures AllViewsValid(ConcatViews(samples).value) && AllSplittable(ConcatViews(samples).value, |samples|)
    ensures SampleMap(ConcatViews(samples).value, |samples|, index) == Untagged(samples[index])
  {
    UniformCanBeCut(samples);
    SampleHasAllNames(samples, index);
    var sample := SampleMap(ConcatViews(samples).value, |samples|, index);
    forall name | name in sample ensures sample[name] == Untagged(samples[index])[name] {
      UniformTensorSurvives(samples, name, index);
    }
  }

  lemma SampleHasAllNames(samples: seq<ViewMap>, index: nat)
    requires Uniform(samples) && index < |samples|
    ensures AllViewsValid(samples[0]) && ConcatViews(samples).Some?
    ensures AllViewsValid(ConcatViews(samples).value) && AllSplittable(ConcatViews(samples).value, |samples|)
    ensures SampleMap(ConcatViews(samples).value, |samples|, index).Keys == samples[index].Keys == samples[0].Keys
  {
    UniformCanBeCut(samples);
    assert Conforms(samples[0], samples[index], |samples|);
  }

  ghost predicate AllInfer(backend: Backend, samples: seq<ViewMap>) {
    forall i :: 0 <= i < |samples| ==> backend(samples[i]).Ok?
  }

  function Outputs(backend: Backend, samples: seq<ViewMap>): (outputs: seq<ViewMap>)
    requires AllInfer(backend, samples)
    ensures |outputs| == |samples|
  {
    seq(|samples|, i requires 0 <= i < |samples| => backend(samples[i]).value)
  }

  /**
    A backend acts sample by sample when a batch of samples it can infer one at a time gives the
    batch of the outputs it gives them one at a time.
   */
  ghost predicate SampleBySample(backend: Backend) {
    forall samples {:trigger Outputs(backend, samples)} :: Uniform(samples) && AllInfer(backend, samples) ==>
      && Uniform(Outputs(backend, samples))
      && AllViewsValid(samples[0]) && AllViewsValid(Outputs(backend, samples)[0])
      && ConcatViews(samples).Some?
      && ConcatViews(Outputs(backend, samples)).Some?
      && backend(ConcatViews(samples).value) == Ok(ConcatViews(Outputs(backend, samples)).value)
  }

  /** What `infer` gives an input, without the layout tag. */
  function InferUntagged<P, C>(backend: Backend, input: Sample<P, C>): Sample<P, C>
    requires backend(input.tensors).Ok?
  {
    var output := Infer(backend, input).value;
    output.(tensors := Untagged(output.tensors))
  }

  function InferEach<P, C>(backend: Backend, inputs: seq<Sample<P, C>>): (outputs: seq<Sample<P, C>>)
    requires AllInfer(backend, TensorsOf(inputs))
    ensures |outputs| == |inputs|
    ensures forall i :: 0 <= i < |inputs| ==>
        backend(inputs[i].tensors).Ok? && outputs[i] == InferUntagged(backend, inputs[i])
  {
    assert forall i :: 0 <= i < |inputs| ==> TensorsOf(inputs)[i] == inputs[i].tensors;
    seq(|inputs|, i requires 0 <= i < |inputs| && backend(inputs[i].tensors).Ok? => InferUntagged(backend, inputs[i]))
  }

  /** Member i of a batch gets its own packet and context and what `infer` gives input i, bytes, shape and type. */
  lemma BatchGivesEachItsOwn<P, C>(backend: Backend, inputs: seq<Sample<P, C>>)
    requires ReturnsTensors(backend) && SampleBySample(backend)
    requires Uniform(TensorsOf(inputs)) && AllInfer(backend, TensorsOf(inputs))
    ensures AllViewsValid(inputs[0].tensors)
    ensures InferBatch(backend, inputs) == Ok(InferEach(backend, inputs))
  {
    var samples := TensorsOf(inputs);
    var outputs := Outputs(backend, samples);
    UniformCanBeJoined(samples);
    var perSample := SplitViews(ConcatViews(outputs).value, |inputs|);
    forall i | 0 <= i < |inputs|
      ensures perSample.Some? && perSample.value[i] == Untagged(outputs[i])
    {
      UniformSurvives(outputs, i);
    }
    var results := InferBatch(backend, inputs).value;
    forall i | 0 <= i < |inputs| ensures results[i] == InferEach(backend, inputs)[i] {
      assert backend(samples[i]) == Ok(outputs[i]);
    }
    assert results == InferEach(backend, inputs);
  }

  // ---------------------------------------------------------------- cutting a stream

  function Total(cuts: seq<nat>): nat { if cuts == [] then 0 else cuts[0] + Total(cuts[1..]) }

  /** A way to cut a stream into batches: every batch has a member. */
  predicate Cuts(cuts: seq<nat>, length: nat) {
    Total(cuts) == length && forall i :: 0 <= i < |cuts| ==> cuts[i] > 0
  }

  /** The stream inferred batch after batch. */
  ghost function InferInBatches<P, C>(backend: Backend, inputs: seq<Sample<P, C>>, cuts: seq<nat>)
    : Result<seq<Sample<P, C>>>
    requires ReturnsTensors(backend) && Cuts(cuts, |inputs|) && |inputs| <= INT64_MAX
    requires forall i :: 0 <= i < |inputs| ==> AllViewsValid(inputs[i].tensors)
  {
    if cuts == [] then Ok([])
    else
      var first := InferBatch(backend, inputs[..cuts[0]]);
      var others := InferInBatches(backend, inputs[cuts[0]..], cuts[1..]);
      if first.Err? then first else if others.Err? then others else Ok(first.value + others.value)
  }

  lemma UniformPart(samples: seq<ViewMap>, from: nat, upTo: nat)
    requires Uniform(samples) && from < upTo <= |samples|
    ensures Uniform(samples[from..upTo])
  {
    var part := samples[from..upTo];
    forall i | 0 <= i < |part| ensures Conforms(part[0], part[i], |part|) {
      assert Conforms(samples[0], samples[from], |samples|) && Conforms(samples[0], samples[from + i], |samples|);
      forall name | name in part[i] ensures |part| * |part[i][name].bytes| <= SIZE_MAX {
        MulMonotone(|part|, |samples|, |part[i][name].bytes|);
      }
    }
  }

  /** The whole stream has the same names, shapes and types. */
  ghost predicate UniformStream<P, C>(inputs: seq<Sample<P, C>>) { inputs != [] ==> Uniform(TensorsOf(inputs)) }

  lemma StreamInputs<P, C>(inputs: seq<Sample<P, C>>)
    requires UniformStream(inputs)
    ensures |inputs| <= INT64_MAX && forall i :: 0 <= i < |inputs| ==> AllViewsValid(inputs[i].tensors)
  {
    forall i | 0 <= i < |inputs| ensures AllViewsValid(inputs[i].tensors) {
      assert Conforms(TensorsOf(inputs)[0], TensorsOf(inputs)[i], |inputs|);
    }
  }

  lemma StreamParts<P, C>(inputs: seq<Sample<P, C>>, at: nat)
    requires UniformStream(inputs) && 0 < at <= |inputs|
    ensures UniformStream(inputs[..at]) && UniformStream(inputs[at..]) && Uniform(TensorsOf(inputs[..at]))
  {
    var samples := TensorsOf(inputs);
    assert TensorsOf(inputs[..at]) == samples[0..at] && TensorsOf(inputs[at..]) == samples[at..|samples|];
    UniformPart(samples, 0, at);
    if at < |inputs| {
      UniformPart(samples, at, |samples|);
    }
  }

  lemma AllInferSplits<P, C>(backend: Backend, inputs: seq<Sample<P, C>>, at: nat)
    requires at <= |inputs|
    ensures AllInfer(backend, TensorsOf(inputs)) <==>
            AllInfer(backend, TensorsOf(inputs[..at])) && AllInfer(backend, TensorsOf(inputs[at..]))
  {
    var samples, early, late := TensorsOf(inputs), TensorsOf(inputs[..at]), TensorsOf(inputs[at..]);
    assert forall i :: 0 <= i < at ==> early[i] == samples[i];
    assert forall i :: 0 <= i < |late| ==> late[i] == samples[at + i];
    if AllInfer(backend, early) && AllInfer(backend, late) {
      forall i | 0 <= i < |samples| ensures backend(samples[i]).Ok? {
        if i >= at { assert samples[i] == late[i - at]; }
      }
    }
  }

  lemma InferEachSplits<P, C>(backend: Backend, inputs: seq<Sample<P, C>>, at: nat)
    requires AllInfer(backend, TensorsOf(inputs)) && at <= |inputs|
    requires AllInfer(backend, TensorsOf(inputs[..at])) && AllInfer(backend, TensorsOf(inputs[at..]))
    ensures InferEach(backend, inputs) == InferEach(backend, inputs[..at]) + InferEach(backend, inputs[at..])
  {
  }

  /** A batch with a sample that cannot be inferred alone fails as a whole. */
  ghost predicate FailsTogether(backend: Backend) {
    forall samples {:trigger AllInfer(backend, samples)} :: Uniform(samples) && !AllInfer(backend, samples) ==>
      AllViewsValid(samples[0]) && ConcatViews(samples).Some? && backend(ConcatViews(samples).value).Err?
  }

  /** A batch of equal names, shapes and types goes through exactly if every input can be inferred alone. */
  lemma UniformBatchIsInferredIff<P, C>(backend: Backend, inputs: seq<Sample<P, C>>)
    requires ReturnsTensors(backend) && SampleBySample(backend) && FailsTogether(backend)
    requires Uniform(TensorsOf(inputs))
    ensures AllViewsValid(inputs[0].tensors)
    ensures InferBatch(backend, inputs).Ok? <==> AllInfer(backend, TensorsOf(inputs))
  {
    UniformCanBeJoined(TensorsOf(inputs));
    if AllInfer(backend, TensorsOf(inputs)) {
      BatchGivesEachItsOwn(backend, inputs);
    }
  }

  /** A backend failure is passed on with its code, alone and for a batch; a success keeps packet and context. */
  lemma FailuresKeepTheirCode<P, C>(backend: Backend, input: Sample<P, C>, inputs: seq<Sample<P, C>>)
    requires ReturnsTensors(backend) && 0 < |inputs| <= INT64_MAX && AllViewsValid(inputs[0].tensors)
    ensures
      var outputs, r := backend(input.tensors), Infer(backend, input);
      if outputs.Ok? then r == Ok(Sample(input.packet, outputs.value, input.context))
      else r.Err? && r.status.code == outputs.status.code
    ensures
      var batch, r := ConcatViews(TensorsOf(inputs)), InferBatch(backend, inputs);
      batch.Some? && backend(batch.value).Err? ==> r.Err? && r.status.code == backend(batch.value).status.code
  {
  }

  /** Inputs that differ in a name or in a byte size fail together, whatever each would get alone. */
  lemma UnlikeInputsAreRefused<P, C>(backend: Backend, inputs: seq<Sample<P, C>>, name: string, i: nat)
    requires ReturnsTensors(backend) && i < |inputs| <= INT64_MAX && AllViewsValid(inputs[0].tensors)
    requires name in inputs[0].tensors
    requires name !in inputs[i].tensors || |inputs[i].tensors[name].bytes| != |inputs[0].tensors[name].bytes|
    ensures InferBatch(backend, inputs).Err? && InferBatch(backend, inputs).status.code == InvalidArgument
  {
    var samples := TensorsOf(inputs);
    assert samples[0] == inputs[0].tensors && samples[i] == inputs[i].tensors;
    assert !Batchable(samples, name);
  }

  /**
    However a stream is cut into batches: it goes through exactly if every input can be inferred alone,
    and then every input gets what it gets alone.
   */
  lemma {:induction false} BatchCutsDoNotMatter<P, C>(backend: Backend, inputs: seq<Sample<P, C>>, cuts: seq<nat>)
    requires ReturnsTensors(backend) && SampleBySample(backend) && FailsTogether(backend)
    requires UniformStream(inputs) && Cuts(cuts, |inputs|)
    ensures |inputs| <= INT64_MAX && forall i :: 0 <= i < |inputs| ==> AllViewsValid(inputs[i].tensors)
    ensures InferInBatches(backend, inputs, cuts).Ok? <==> AllInfer(backend, TensorsOf(inputs))
    ensures AllInfer(backend, TensorsOf(inputs)) ==>
              InferInBatches(backend, inputs, cuts) == Ok(InferEach(backend, inputs))
    decreases |cuts|
  {
    StreamInputs(inputs);
    if cuts != [] {
      var at := cuts[0];
      StreamParts(inputs, at);
      AllInferSplits(backend, inputs, at);
      BatchCutsDoNotMatter(backend, inputs[at..], cuts[1..]);
      if AllInfer(backend, TensorsOf(inputs[..at])) {
        BatchGivesEachItsOwn(backend, inputs[..at]);
        if AllInfer(backend, TensorsOf(inputs)) { InferEachSplits(backend, inputs, at); }
      }
    }
  }

  // ---------------------------------------------------------------- the contract can be met

  function PassThrough(m: ViewMap): Result<ViewMap> {
    if AllViewsValid(m) then Ok(m) else Err(Status(BackendError, "not tensors"))
  }

  /** The backend that hands its input back acts sample by sample. */
  lemma PassThroughIsSampleBySample()
    ensures ReturnsTensors(PassThrough) && SampleBySample(PassThrough) && FailsTogether(PassThrough)
  {
    forall samples | Uniform(samples) && AllInfer(PassThrough, samples)
      ensures Outputs(PassThrough, samples) == samples
      ensures AllViewsValid(samples[0]) && ConcatViews(samples).Some? && AllViewsValid(ConcatViews(samples).value)
    {
      UniformSurvives(samples, 0);
      assert Outputs(PassThrough, samples) == samples;
    }
    forall samples | Uniform(samples)
      ensures AllInfer(PassThrough, samples)
    {
      assert forall i :: 0 <= i < |samples| ==> Conforms(samples[0], samples[i], |samples|);
    }
  }
}
