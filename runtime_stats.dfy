/**
  The runtime-metrics accumulator that a stage summary merges per-task metrics into.

  Its merging rules belong to a library outside this model, so the accumulator is
  kept opaque: a value records, in order, the calls made on it. Two accumulators
  are the same exactly when the same calls were made in the same order.
 */
module RuntimeMetrics {

  /** The metric names the stage summary synthesises for every task. */
  datatype RuntimeMetricName =
    | DriverCountPerTask
    | TaskElapsedTimeNanos
    | TaskQueuedTimeNanos
    | TaskScheduledTimeNanos
    | TaskBlockedTimeNanos

  datatype RuntimeUnit = NoUnit | Nano

  /** One call made on an accumulator. */
  datatype RuntimeUpdate =
    | MergedWith(other: RuntimeStats)
    | AddedMetricValue(name: RuntimeMetricName, unit: RuntimeUnit, value: int)
    | AddedMetricValueIgnoreZero(name: RuntimeMetricName, unit: RuntimeUnit, value: int)

  datatype RuntimeStats = RuntimeStats(updates: seq<RuntimeUpdate>) {

    function MergeWith(other: RuntimeStats): (r: RuntimeStats)
      ensures |r.updates| == |updates| + 1 && r.updates[..|updates|] == updates
      ensures r.updates[|updates|] == MergedWith(other)
    {
      RuntimeStats(updates + [MergedWith(other)])
    }

    function AddMetricValue(name: RuntimeMetricName, unit: RuntimeUnit, value: int): (r: RuntimeStats)
      ensures |r.updates| == |updates| + 1 && r.updates[..|updates|] == updates
      ensures r.updates[|updates|] == AddedMetricValue(name, unit, value)
    {
      RuntimeStats(updates + [AddedMetricValue(name, unit, value)])
    }

    function AddMetricValueIgnoreZero(name: RuntimeMetricName, unit: RuntimeUnit, value: int): (r: RuntimeStats)
      ensures |r.updates| == |updates| + 1 && r.updates[..|updates|] == updates
      ensures r.updates[|updates|] == AddedMetricValueIgnoreZero(name, unit, value)
    {
      RuntimeStats(updates + [AddedMetricValueIgnoreZero(name, unit, value)])
    }
  }

  /** A fresh accumulator, on which nothing has been recorded yet. */
  function Empty(): RuntimeStats {
    RuntimeStats([])
  }
}
