/** The pipelined executor and the serial one give the same answers. */
module ExecutorEquivalence {
  import opened Core
  import opened Stages
  import Serial = SerialExecutor
  import Parallel = ParallelExecutor
  import ParallelInvariant
  import ParallelTheorems

  /**
    Take any two runs, one of each executor, over the same pipeline and the same accepted packets,
    nobody cancelling. Every task that both have delivered has the same answer in both, and the
    deliveries of one are a prefix of the deliveries of the other.
   */
  lemma SameAnswers(pc: Parallel.Config, ps: Parallel.State, sc: Serial.Config, ss: Serial.State, id: nat)
    requires Parallel.Reachable(pc, ps) && ParallelInvariant.PoolIsEnough(pc) && ParallelTheorems.NobodyCancels(ps)
    requires Serial.Reachable(sc, ss) && (forall i :: 0 <= i < |ss.tasks| ==> !Serial.Flagged(ss, i))
    requires pc.stages == sc.stages && ps.packets == ss.packets
    ensures ps.delivered <= ss.delivered || ss.delivered <= ps.delivered
    ensures id < |ps.delivered| && id < |ss.delivered| ==>
              id < |ps.tasks| && id < |ss.tasks| && ps.tasks[id].promise == ss.tasks[id].promise &&
              ps.tasks[id].promise.Some?
  {
    ParallelTheorems.PipelinedRefinesSerial(pc, ps);
    Serial.ReachableInv(sc, ss);
    if id < |ps.delivered| && id < |ss.delivered| {
      ParallelTheorems.DeliveredIsDecided(pc, ps, id);
      Serial.SerialDelivery(sc, ss, id);
    }
  }
}
