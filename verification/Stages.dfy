/**
  The three stages of a pipeline and what running them one after the other means
  (pipeline.hpp). The stages themselves are arbitrary total functions.
 */
module Stages {
  import opened Core

  type Packet(!new)
  type Prepared(!new)
  type Inferred(!new)
  type Answer(!new)

  /**
    `acquires` tells which packets get as far as taking a tensor buffer from the pool; the others
    are refused by preprocessing before that.
   */
  datatype Stages = Stages(
    acquires: Packet -> bool,
    preprocess: Packet -> Result<Prepared>,
    infer: Prepared -> Result<Inferred>,
    inferBatch: seq<Prepared> -> Result<seq<Inferred>>,
    postprocess: Inferred -> Result<Answer>
  )

  /** Stage failures are passed on with their status unchanged. */
  function InferNext(st: Stages, prepared: Result<Prepared>): Result<Inferred> {
    if prepared.Ok? then st.infer(prepared.value) else prepared.PropagateErr()
  }

  function PostprocessNext(st: Stages, output: Result<Inferred>): Result<Answer> {
    if output.Ok? then st.postprocess(output.value) else output.PropagateErr()
  }

  /** Pipeline::run: the serial meaning of a packet. */
  function RunPipeline(st: Stages, p: Packet): (r: Result<Answer>)
    ensures st.preprocess(p).Err? ==> r == Err(st.preprocess(p).status)
    ensures st.preprocess(p).Ok? && st.infer(st.preprocess(p).value).Err? ==>
              r == Err(st.infer(st.preprocess(p).value).status)
    ensures st.preprocess(p).Ok? && st.infer(st.preprocess(p).value).Ok? ==>
              r == st.postprocess(st.infer(st.preprocess(p).value).value)
  {
    PostprocessNext(st, InferNext(st, st.preprocess(p)))
  }

  /** The inferBatch contract: one output per input, in the same order. */
  ghost predicate BatchContract(st: Stages) {
    forall xs :: st.inferBatch(xs).Ok? ==> |st.inferBatch(xs).value| == |xs|
  }

  ghost predicate AllInfer(st: Stages, xs: seq<Prepared>) { forall i :: 0 <= i < |xs| ==> st.infer(xs[i]).Ok? }

  /** If this batch can be inferred, every sample gets what it gets alone. */
  ghost predicate GivesEachItsOwn(st: Stages, xs: seq<Prepared>) {
    st.inferBatch(xs).Ok? ==>
      && |st.inferBatch(xs).value| == |xs|
      && forall i :: 0 <= i < |xs| ==> Ok(st.inferBatch(xs).value[i]) == st.infer(xs[i])
  }

  function CancelledResult<T>(): (r: Result<T>)
    ensures r.Err? && r.status.code == Cancelled
  {
    Err(Status(Cancelled, "task was cancelled"))
  }

  function PoolExhausted<T>(): (r: Result<T>)
    ensures r.Err? && r.status.code == ResourceExhausted
  {
    Err(Status(ResourceExhausted, "buffer pool is exhausted"))
  }
}
