/** Metric names, the single-key records of the results store, and the store's shape. */
module Metrics {

  /** The four metrics the notifier collects. */
  datatype MetricName = ContactsCreated | ContactsHandled | AvgQueueAnswerTime | ServiceLevel

  /** The order in which the handler collects them. */
  const CollectionOrder: seq<MetricName> := [ContactsCreated, ContactsHandled, AvgQueueAnswerTime, ServiceLevel]

  /** Metrics whose total is a mean of the observations rather than their sum. */
  predicate IsAverage(m: MetricName) {
    m == AvgQueueAnswerTime || m == ServiceLevel
  }

  /**
   * A single-key record of a store list: `{'QUEUE_NAME': name}` or `{metric: value}`.
   */
  datatype Record = QueueName(name: string) | Metric(metric: MetricName, value: real)

  /** The key that holds the aggregated records. */
  const TOTAL: string := "total"

  /** The service-level threshold in seconds. */
  const SERVICE_LEVEL_THRESHOLD: real := 20.0

  /** The results store: queue id (or TOTAL) to its append-only list of records. */
  type Store = map<string, seq<Record>>

  /** True when `r` is a `{m: value}` record. */
  predicate HasKey(r: Record, m: MetricName) {
    r.Metric? && r.metric == m
  }
}
