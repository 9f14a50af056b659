/** One observation as the domain model records it. */
module Samples {
  import opened Wrappers
  import opened Records
  import MetricTypes
  import Values

  /** A sample: its value, metric type, period, and where it came from. */
  datatype StatsSample = StatsSample(
    value: Values.Value,
    metricType: MetricTypes.MetricType,
    period: Period,
    device: Option<Device>,
    source: Option<Source>)
}
