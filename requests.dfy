/** The metric request descriptor `collect_metric` builds for one metric. */
module Requests {
  import opened Optional
  import opened Metrics
  import opened Window

  datatype Comparison = LTE

  datatype Threshold = Threshold(comparison: Comparison, thresholdValue: real)

  datatype MetricFilter = MetricFilter(metricFilterKey: string, metricFilterValues: seq<string>, negate: bool)

  /** One entry of `Metrics=[...]`; an absent key is None. */
  datatype MetricConfig = MetricConfig(name: MetricName, threshold: Option<seq<Threshold>>, metricFilters: Option<seq<MetricFilter>>)

  datatype ResourceFilter = ResourceFilter(filterKey: string, filterValues: seq<string>)

  /** The arguments of one metric-data call. */
  datatype MetricRequest = MetricRequest(
    resourceArn: string,
    startTime: int,
    endTime: int,
    intervalPeriod: string,
    filters: seq<ResourceFilter>,
    groupings: seq<string>,
    metrics: seq<MetricConfig>)

  /** Restrict a count to contacts that came in. */
  const INBOUND_FILTER: MetricFilter := MetricFilter("INITIATION_METHOD", ["INBOUND"], false)

  /** Answered within SERVICE_LEVEL_THRESHOLD seconds. */
  const SERVICE_LEVEL_BOUND: Threshold := Threshold(LTE, SERVICE_LEVEL_THRESHOLD)

  /**
   * The metric config, built as the source does: a bare name, replaced by a
   * thresholded config for SERVICE_LEVEL, then replaced by an inbound-filtered
   * config for the two contact counts.
   */
  function MetricConfigFor(m: MetricName): (c: MetricConfig)
    ensures c.name == m
    ensures m == ServiceLevel <==> c.threshold.Some?
    ensures c.threshold.Some? ==> c.threshold.value == [Threshold(LTE, 20.0)]
    ensures (m == ContactsCreated || m == ContactsHandled) <==> c.metricFilters.Some?
    ensures c.metricFilters.Some? ==> c.metricFilters.value == [MetricFilter("INITIATION_METHOD", ["INBOUND"], false)]
    ensures c.threshold.None? || c.metricFilters.None?
  {
    var config := MetricConfig(m, None, None);
    var config := if m == ServiceLevel then MetricConfig(m, Some([SERVICE_LEVEL_BOUND]), None) else config;
    if m == ContactsCreated || m == ContactsHandled then MetricConfig(m, None, Some([INBOUND_FILTER])) else config
  }

  /** The full request for one metric over the window and the queues. */
  function BuildRequest(resourceArn: string, w: TimeWindow, queues: seq<string>, m: MetricName): (r: MetricRequest)
    ensures r.filters == [ResourceFilter("QUEUE", queues)]
    ensures r.groupings == ["QUEUE"] && r.intervalPeriod == "TOTAL"
    ensures r.startTime == w.start && r.endTime == w.end && r.resourceArn == resourceArn
    ensures r.metrics == [MetricConfigFor(m)]
  {
    MetricRequest(resourceArn, w.start, w.end, "TOTAL", [ResourceFilter("QUEUE", queues)], ["QUEUE"], [MetricConfigFor(m)])
  }

  /** Requests for different metrics differ, so each metric gets its own call. */
  lemma BuildRequestInjective(arn: string, w: TimeWindow, queues: seq<string>, m1: MetricName, m2: MetricName)
    requires BuildRequest(arn, w, queues, m1) == BuildRequest(arn, w, queues, m2)
    ensures m1 == m2
  {
    assert BuildRequest(arn, w, queues, m1).metrics[0].name == m2;
  }
}
