/** The metric tick handler that publishes the number of groups. */
module NumGroupsMetric {
  import opened GlobalSched

  class NumGroupsMetricEventHandler {
    const groupInfoMap: GroupInfoMap
    const globalMetrics: GlobalSchedGlobalMetrics

    /**
     * Handles one tick before subscribing to the event bus (the subscription is not
     * modelled), so the metric is current from the start.
     */
    constructor (groupInfoMap: GroupInfoMap, globalMetrics: GlobalSchedGlobalMetrics)
      modifies globalMetrics
      ensures this.groupInfoMap == groupInfoMap && this.globalMetrics == globalMetrics
      ensures globalMetrics.numGroups == groupInfoMap.Size()
    {
      this.groupInfoMap := groupInfoMap;
      this.globalMetrics := globalMetrics;
      new;
      OnNext(MetricTrackEvent);
    }

    /**
     * Sets the numGroups metric to the current size of the group map; the event is
     * ignored and the map is not written, so a repeated tick changes nothing.
     */
    method OnNext(metricTrackEvent: MetricTrackEvent)
      modifies globalMetrics
      ensures globalMetrics.numGroups == groupInfoMap.Size()
      ensures unchanged(groupInfoMap)
    {
      var numGroups := groupInfoMap.Size();
      globalMetrics.numGroups := numGroups;
    }
  }
}
