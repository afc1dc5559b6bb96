/**
 * The metric tick handler that counts every group's queued events, feeds the
 * count to the group's numEvents EWMA metric, sets the group's weight to that
 * metric's EWMA value, and publishes the totals to the global metric holder.
 */
module EventNumAndWeightMetric {
  import opened GlobalSched

  /**
   * The handler's two inner loops: the queued events of the operator chains of
   * every DAG of one group, summed.
   */
  method CountGroupEvents(executionDags: seq<ExecutionDag>) returns (groupNumEvent: nat)
    ensures groupNumEvent == SumDagEvents(executionDags)
  {
    groupNumEvent := 0;
    for d := 0 to |executionDags|
      invariant groupNumEvent == SumDagEvents(executionDags[..d])
    {
      var vertices := executionDags[d].vertices;
      ghost var before := groupNumEvent;
      for v := 0 to |vertices|
        invariant groupNumEvent == before + SumVertexEvents(vertices[..v])
      {
        assert vertices[..v + 1][..v] == vertices[..v];
        if vertices[v].OperatorChain? {
          groupNumEvent := groupNumEvent + vertices[v].numberOfEvents;
        }
      }
      assert vertices[..|vertices|] == vertices;
      assert executionDags[..d + 1][..d] == executionDags[..d];
    }
    assert executionDags[..|executionDags|] == executionDags;
  }

  class EventNumAndWeightMetricEventHandler {
    const groupInfoMap: GroupInfoMap
    const globalMetricHolder: GlobalMetrics
    /**
     * The EWMA value of a metric as a function of the samples it has received,
     * oldest first: the smoothing arithmetic of the EWMA metric is left abstract.
     */
    const ewmaOf: seq<nat> -> real

    /** Subscribing to the event bus is not modelled; the handler only keeps its collaborators. */
    constructor (groupInfoMap: GroupInfoMap, globalMetricHolder: GlobalMetrics, ewmaOf: seq<nat> -> real)
      ensures this.groupInfoMap == groupInfoMap && this.globalMetricHolder == globalMetricHolder
      ensures this.ewmaOf == ewmaOf
    {
      this.groupInfoMap := groupInfoMap;
      this.globalMetricHolder := globalMetricHolder;
      this.ewmaOf := ewmaOf;
    }

    /**
     * The body of the outer loop for one group: count its events, push the count
     * into its numEvents metric and set its weight to the resulting EWMA value.
     */
    method UpdateGroup(groupInfo: GroupInfo) returns (groupNumEvent: nat, weight: real)
      modifies groupInfo
      ensures groupNumEvent == SumDagEvents(groupInfo.executionDags)
      ensures groupInfo.numEventsSamples == old(groupInfo.numEventsSamples) + [groupNumEvent]
      ensures weight == groupInfo.weight == ewmaOf(groupInfo.numEventsSamples)
    {
      groupNumEvent := CountGroupEvents(groupInfo.executionDags);
      groupInfo.numEventsSamples := groupInfo.numEventsSamples + [groupNumEvent];
      weight := ewmaOf(groupInfo.numEventsSamples);
      groupInfo.weight := weight;
    }

    /**
     * The outer loop: updates every group in turn and returns the sum of their
     * event counts and the sum of their new weights.
     */
    method UpdateGroups(groupInfos: seq<GroupInfo>) returns (totalNumEvent: nat, totalWeight: real)
      requires DistinctGroups(groupInfos)
      modifies set g | g in groupInfos
      ensures forall j :: 0 <= j < |groupInfos| ==>
                groupInfos[j].numEventsSamples
                  == old(groupInfos[j].numEventsSamples) + [SumDagEvents(groupInfos[j].executionDags)]
      ensures forall j :: 0 <= j < |groupInfos| ==> groupInfos[j].weight == ewmaOf(groupInfos[j].numEventsSamples)
      ensures totalNumEvent == SumGroupEvents(groupInfos)
      ensures totalWeight == SumWeights(groupInfos)
    {
      totalNumEvent, totalWeight := 0, 0.0;
      ghost var weights: seq<real> := [];
      for i := 0 to |groupInfos|
        invariant totalNumEvent == SumGroupEvents(groupInfos[..i])
        invariant |weights| == i && totalWeight == SumReals(weights)
        invariant forall j :: 0 <= j < i ==>
                    groupInfos[j].numEventsSamples
                      == old(groupInfos[j].numEventsSamples) + [SumDagEvents(groupInfos[j].executionDags)]
                    && groupInfos[j].weight == weights[j] == ewmaOf(groupInfos[j].numEventsSamples)
        invariant forall j :: i <= j < |groupInfos| ==>
                    groupInfos[j].numEventsSamples == old(groupInfos[j].numEventsSamples)
      {
        assert groupInfos[..i + 1][..i] == groupInfos[..i];
        var groupNumEvent, weight := UpdateGroup(groupInfos[i]);
        totalNumEvent := totalNumEvent + groupNumEvent;
        totalWeight := totalWeight + weight;
        assert (weights + [weight])[..i] == weights;
        weights := weights + [weight];
      }
      assert groupInfos[..|groupInfos|] == groupInfos;
      SumWeightsOf(groupInfos, weights);
    }

    /**
     * One tick: every group's numEvents metric receives exactly one sample, its
     * event count; its weight becomes the metric's EWMA value after that sample;
     * the global numEvents metric receives the sum of the counts and the global
     * weight becomes the sum of the weights. The group map and DAGs are only read.
     */
    method OnNext(metricTrackEvent: MetricTrackEvent)
      requires groupInfoMap.Valid()
      modifies (set g | g in groupInfoMap.values), globalMetricHolder
      ensures forall j :: 0 <= j < |groupInfoMap.values| ==>
                groupInfoMap.values[j].numEventsSamples
                  == old(groupInfoMap.values[j].numEventsSamples) + [SumDagEvents(groupInfoMap.values[j].executionDags)]
      ensures forall j :: 0 <= j < |groupInfoMap.values| ==>
                groupInfoMap.values[j].weight == ewmaOf(groupInfoMap.values[j].numEventsSamples)
      ensures globalMetricHolder.numEventsSamples
           == old(globalMetricHolder.numEventsSamples) + [SumGroupEvents(groupInfoMap.values)]
      ensures globalMetricHolder.weight == SumWeights(groupInfoMap.values)
    {
      var totalNumEvent, totalWeight := UpdateGroups(groupInfoMap.values);
      globalMetricHolder.numEventsSamples := globalMetricHolder.numEventsSamples + [totalNumEvent];
      globalMetricHolder.weight := totalWeight;
    }
  }
}
