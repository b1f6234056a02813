/**
  The per-task statistics a task reports, as the stage summary reads them.

  Every counter is an unbounded integer: the Java `int`/`long` widths and their
  wrap-around are not modelled, and nothing is assumed non-negative, because the
  summary accepts whatever the task reports.
 */
module Operator {
  import opened RuntimeMetrics

  /** The reason a driver is blocked, identified by the name of its enum constant. */
  type BlockedReason = string

  /**
    The statistics of one operator of one pipeline. The stage summary reads only
    the operator id; every other counter is combined by the `add` operation, which
    this model takes as a parameter, so the counters are kept as named values.
   */
  datatype OperatorStats = OperatorStats(operatorId: int, metrics: map<string, int>)

  datatype PipelineStats = PipelineStats(pipelineId: int, operatorSummaries: seq<OperatorStats>)

  datatype TaskStats = TaskStats(
    totalDrivers: int,
    queuedDrivers: int,
    runningDrivers: int,
    blockedDrivers: int,
    completedDrivers: int,
    userMemoryReservationInBytes: int,
    systemMemoryReservationInBytes: int,
    totalScheduledTimeInNanos: int,
    totalCpuTimeInNanos: int,
    totalBlockedTimeInNanos: int,
    totalAllocationInBytes: int,
    rawInputDataSizeInBytes: int,
    rawInputPositions: int,
    processedInputDataSizeInBytes: int,
    processedInputPositions: int,
    outputDataSizeInBytes: int,
    outputPositions: int,
    physicalWrittenDataSizeInBytes: int,
    fullGcCount: int,
    fullGcTimeInMillis: int,
    fullyBlocked: bool,
    blockedReasons: set<BlockedReason>,
    pipelines: seq<PipelineStats>,
    runtimeStats: RuntimeStats,
    elapsedTimeInNanos: int,
    queuedTimeInNanos: int)
}
