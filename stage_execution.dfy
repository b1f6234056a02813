/**
  The execution summary of one stage: its state, the statistics aggregated from
  its task reports, the reports themselves and an optional failure cause.

  `Create` aggregates the reports in two passes, as the stage does; its
  postconditions say what every aggregated figure is in terms of the reports,
  using the definitions of the Aggregates and OperatorMerge modules.
 */
module StageExecution {
  import opened Operator
  import opened RuntimeMetrics
  import opened OperatorMerge
  import opened Tasks
  import opened Aggregates

  datatype Option<T> = None | Some(value: T)

  datatype StageExecutionState =
    | Planned | Scheduling | FinishedTaskScheduling | SchedulingSplits | Scheduled | Running
    | Finished | Canceled | Aborted | Failed
  {
    predicate IsDone() {
      match this
      case Finished | Canceled | Aborted | Failed => true
      case _ => false
    }
  }

  /** Why a stage failed; passed through untouched. */
  datatype ExecutionFailureInfo = ExecutionFailureInfo(message: string)

  /** The numeric id of the stage and the id of this execution of it. */
  datatype StageExecutionId = StageExecutionId(stageId: int, id: int)

  datatype StageGcStatistics = StageGcStatistics(
    stageId: int,
    stageExecutionId: int,
    tasks: int,
    fullGcTasks: int,
    minFullGcSec: int,
    maxFullGcSec: int,
    totalFullGcSec: int)

  datatype StageExecutionStats = StageExecutionStats(
    schedulingCompleteInMillis: int,
    totalTasks: int,
    runningTasks: int,
    completedTasks: int,
    totalLifespans: int,
    finishedLifespans: int,
    totalDrivers: int,
    queuedDrivers: int,
    runningDrivers: int,
    blockedDrivers: int,
    completedDrivers: int,
    userMemoryReservationInBytes: int,
    totalMemoryReservationInBytes: int,
    peakUserMemoryReservationInBytes: int,
    peakNodeTotalMemoryReservationInBytes: int,
    totalScheduledTimeInNanos: int,
    totalCpuTimeInNanos: int,
    retriedCpuTimeInNanos: int,
    totalBlockedTimeInNanos: int,
    fullyBlocked: bool,
    blockedReasons: set<BlockedReason>,
    totalAllocationInBytes: int,
    rawInputDataSizeInBytes: int,
    rawInputPositions: int,
    processedInputDataSizeInBytes: int,
    processedInputPositions: int,
    bufferedDataSizeInBytes: int,
    outputDataSizeInBytes: int,
    outputPositions: int,
    physicalWrittenDataSizeInBytes: int,
    gcInfo: StageGcStatistics,
    operatorSummaries: OperatorStatsMap,
    runtimeStats: RuntimeStats)
  {
    /** The figure that reports counter `c`; the full-GC counters are in `gcInfo`. */
    function CounterValue(c: Counter): int {
      match c
      case TotalDrivers => totalDrivers
      case QueuedDrivers => queuedDrivers
      case RunningDrivers => runningDrivers
      case BlockedDrivers => blockedDrivers
      case CompletedDrivers => completedDrivers
      case UserMemoryReservation => userMemoryReservationInBytes
      case TotalMemoryReservation => totalMemoryReservationInBytes
      case ScheduledTime => totalScheduledTimeInNanos
      case CpuTime => totalCpuTimeInNanos
      case BlockedTime => totalBlockedTimeInNanos
      case Allocation => totalAllocationInBytes
      case RawInputDataSize => rawInputDataSizeInBytes
      case RawInputPositions => rawInputPositions
      case ProcessedInputDataSize => processedInputDataSizeInBytes
      case ProcessedInputPositions => processedInputPositions
      case OutputDataSize => outputDataSizeInBytes
      case OutputPositions => outputPositions
      case PhysicalWrittenDataSize => physicalWrittenDataSizeInBytes
      case FullGcTasks => gcInfo.fullGcTasks
      case FullGcSec => gcInfo.totalFullGcSec
    }
  }

  datatype StageExecutionInfo = StageExecutionInfo(
    state: StageExecutionState,
    stats: StageExecutionStats,
    tasks: seq<TaskInfo>,
    failureCause: Option<ExecutionFailureInfo>)
  {
    /** A summary is final once the stage and every one of its tasks are done. */
    function IsFinal(): (r: bool)
      ensures r <==> state.IsDone() && forall i :: 0 <= i < |tasks| ==> tasks[i].state.IsDone()
    {
      state.IsDone() && AllTasksDone(tasks)
    }
  }

  // ---------------------------------------------------------------------------
  // Runtime metrics

  /** The calls the summary makes on its runtime-metrics accumulator for one task. */
  function TaskRuntimeUpdates(s: TaskStats): (us: seq<RuntimeUpdate>)
    ensures |us| == 6 && us[0] == MergedWith(s.runtimeStats)
    ensures forall i :: 1 <= i < 6 ==> !us[i].MergedWith? && us[i].unit == (if i == 1 then NoUnit else Nano)
  {
    [ MergedWith(s.runtimeStats),
      AddedMetricValue(DriverCountPerTask, NoUnit, s.totalDrivers),
      AddedMetricValue(TaskElapsedTimeNanos, Nano, s.elapsedTimeInNanos),
      AddedMetricValueIgnoreZero(TaskQueuedTimeNanos, Nano, s.queuedTimeInNanos),
      AddedMetricValue(TaskScheduledTimeNanos, Nano, s.totalScheduledTimeInNanos),
      AddedMetricValueIgnoreZero(TaskBlockedTimeNanos, Nano, s.totalBlockedTimeInNanos) ]
  }

  /** A fresh accumulator merged with the stage's own metrics, then fed every task in order. */
  function MergedRuntimeStats(stageRuntimeStats: RuntimeStats, ss: seq<TaskStats>): RuntimeStats {
    if ss == [] then Empty().MergeWith(stageRuntimeStats)
    else RuntimeStats(MergedRuntimeStats(stageRuntimeStats, ss[..|ss| - 1]).updates + TaskRuntimeUpdates(ss[|ss| - 1]))
  }

  /**
    The stage's own metrics are merged in first and kept; then every task, in
    order, contributes its metrics and its five synthesised samples.
   */
  lemma {:induction false} MergedRuntimeStatsLayout(stageRuntimeStats: RuntimeStats, ss: seq<TaskStats>)
    ensures |MergedRuntimeStats(stageRuntimeStats, ss).updates| == 1 + 6 * |ss|
    ensures MergedRuntimeStats(stageRuntimeStats, ss).updates[0] == MergedWith(stageRuntimeStats)
    ensures forall i :: 0 <= i < |ss| ==>
      MergedRuntimeStats(stageRuntimeStats, ss).updates[1 + 6 * i .. 7 + 6 * i] == TaskRuntimeUpdates(ss[i])
  {
    if ss != [] {
      var init := ss[..|ss| - 1];
      MergedRuntimeStatsLayout(stageRuntimeStats, init);
      var before := MergedRuntimeStats(stageRuntimeStats, init).updates;
      var after := MergedRuntimeStats(stageRuntimeStats, ss).updates;
      forall i | 0 <= i < |ss|
        ensures after[1 + 6 * i .. 7 + 6 * i] == TaskRuntimeUpdates(ss[i])
      {
        assert after == before + TaskRuntimeUpdates(ss[|ss| - 1]);
        if i < |init| {
          assert 7 + 6 * i <= |before|;
          assert after[1 + 6 * i .. 7 + 6 * i] == before[1 + 6 * i .. 7 + 6 * i];
          assert init[i] == ss[i];
        } else {
          assert 1 + 6 * i == |before|;
          assert after[|before|..] == TaskRuntimeUpdates(ss[i]);
        }
      }
    }
  }

  // ---------------------------------------------------------------------------
  // Aggregation

  /**
    The stage summary of `taskInfos`. A first pass classifies each report,
    accumulates retried CPU time, blocking and buffered bytes and collects the
    statistics blocks; a second pass sums the counters of the statistics blocks,
    tracks the full-GC figures, merges the operator statistics and feeds the
    runtime metrics. `add` combines two statistics of the same operator.
   */
  method Create(
    stageExecutionId: StageExecutionId,
    state: StageExecutionState,
    failureInfo: Option<ExecutionFailureInfo>,
    taskInfos: seq<TaskInfo>,
    schedulingCompleteInMillis: int,
    stageRuntimeStats: RuntimeStats,
    peakUserMemoryReservation: int,
    peakNodeTotalMemoryReservation: int,
    finishedLifespans: int,
    totalLifespans: int,
    add: (OperatorStats, OperatorStats) -> OperatorStats)
    returns (info: StageExecutionInfo)
    // The state, the reports and the failure cause are kept as given.
    ensures info.state == state && info.tasks == taskInfos && info.failureCause == failureInfo
    // Task counts: every report is counted once, as done or as running.
    ensures info.stats.totalTasks == |taskInfos|
    ensures info.stats.completedTasks == CountDone(taskInfos)
    ensures info.stats.runningTasks == CountRunning(taskInfos)
    ensures info.stats.runningTasks + info.stats.completedTasks == info.stats.totalTasks
    // Retried CPU time counts only in a finished stage, and there only failed tasks count.
    ensures info.stats.retriedCpuTimeInNanos == if state == StageExecutionState.Finished then FailedCpuTime(taskInfos) else 0
    // Blocking is judged on the tasks that are not done.
    ensures info.stats.fullyBlocked == (AllRunningFullyBlocked(taskInfos) && CountRunning(taskInfos) > 0)
    ensures info.stats.blockedReasons == RunningBlockedReasons(taskInfos)
    ensures info.stats.bufferedDataSizeInBytes == BufferedBytes(taskInfos)
    // Every additive counter is the sum of the tasks' figures.
    ensures forall c :: info.stats.CounterValue(c) == Total(StatsOf(taskInfos), c)
    // Full-GC figures, stamped with the stage's identity; the GC task count and
    // total seconds are among the counters above.
    ensures info.stats.gcInfo.stageId == stageExecutionId.stageId
    ensures info.stats.gcInfo.stageExecutionId == stageExecutionId.id
    ensures info.stats.gcInfo.tasks == |taskInfos|
    ensures info.stats.gcInfo.minFullGcSec == MinFullGcSec(StatsOf(taskInfos))
    ensures info.stats.gcInfo.maxFullGcSec == MaxFullGcSec(StatsOf(taskInfos))
    // Operator statistics merged by key; runtime metrics merged onto the stage's own.
    ensures info.stats.operatorSummaries == Merge(map[], OperatorEntries(StatsOf(taskInfos)), add)
    ensures info.stats.runtimeStats == MergedRuntimeStats(stageRuntimeStats, StatsOf(taskInfos))
    // Figures the caller tracks are passed through.
    ensures info.stats.schedulingCompleteInMillis == schedulingCompleteInMillis
    ensures info.stats.totalLifespans == totalLifespans && info.stats.finishedLifespans == finishedLifespans
    ensures info.stats.peakUserMemoryReservationInBytes == peakUserMemoryReservation
    ensures info.stats.peakNodeTotalMemoryReservationInBytes == peakNodeTotalMemoryReservation
  {
    var totalTasks := |taskInfos|;
    var runningTasks, completedTasks, retriedCpuTime, fullyBlocked, blockedReasons, bufferedDataSize, allTaskStats :=
      ClassifyTasks(state, taskInfos);

    var totals, operatorToStats, mergedRuntimeStats := SummarizeTaskStats(allTaskStats, stageRuntimeStats, add);
    SumTasksIsTotal(allTaskStats);

    var stageExecutionStats := StageExecutionStats(
      schedulingCompleteInMillis,
      totalTasks,
      runningTasks,
      completedTasks,
      totalLifespans,
      finishedLifespans,
      totals.totalDrivers,
      totals.queuedDrivers,
      totals.runningDrivers,
      totals.blockedDrivers,
      totals.completedDrivers,
      totals.userMemoryReservation,
      totals.totalMemoryReservation,
      peakUserMemoryReservation,
      peakNodeTotalMemoryReservation,
      totals.totalScheduledTime,
      totals.totalCpuTime,
      retriedCpuTime,
      totals.totalBlockedTime,
      fullyBlocked && runningTasks > 0,
      blockedReasons,
      totals.totalAllocation,
      totals.rawInputDataSize,
      totals.rawInputPositions,
      totals.processedInputDataSize,
      totals.processedInputPositions,
      bufferedDataSize,
      totals.outputDataSize,
      totals.outputPositions,
      totals.physicalWrittenDataSize,
      StageGcStatistics(
        stageExecutionId.stageId,
        stageExecutionId.id,
        totalTasks,
        totals.fullGcTaskCount,
        totals.minFullGcSec,
        totals.maxFullGcSec,
        totals.totalFullGcSec),
      operatorToStats,
      mergedRuntimeStats);

    assert forall c :: stageExecutionStats.CounterValue(c) == totals.Get(c);
    info := StageExecutionInfo(state, stageExecutionStats, taskInfos, failureInfo);

    TaskCountsPartition(taskInfos);
  }

  /**
    The first pass of the summary: count the tasks that are done and those that
    are not, add up the CPU time of failed tasks (in a finished stage only) and
    the buffered bytes, judge blocking on the tasks that are not done, and
    collect every task's statistics for the second pass.
   */
  method ClassifyTasks(state: StageExecutionState, taskInfos: seq<TaskInfo>)
    returns (runningTasks: int, completedTasks: int, retriedCpuTime: int, fullyBlocked: bool,
             blockedReasons: set<BlockedReason>, bufferedDataSize: int, allTaskStats: seq<TaskStats>)
    ensures completedTasks == CountDone(taskInfos)
    ensures runningTasks == CountRunning(taskInfos)
    ensures retriedCpuTime == if state == StageExecutionState.Finished then FailedCpuTime(taskInfos) else 0
    ensures fullyBlocked == AllRunningFullyBlocked(taskInfos)
    ensures blockedReasons == RunningBlockedReasons(taskInfos)
    ensures bufferedDataSize == BufferedBytes(taskInfos)
    ensures allTaskStats == StatsOf(taskInfos)
  {
    runningTasks := 0;
    completedTasks := 0;
    retriedCpuTime := 0;
    bufferedDataSize := 0;

    fullyBlocked := true;
    blockedReasons := {};

    allTaskStats := [];

    for i := 0 to |taskInfos|
      invariant completedTasks == CountDone(taskInfos[..i])
      invariant runningTasks == CountRunning(taskInfos[..i])
      invariant allTaskStats == StatsOf(taskInfos[..i])
      invariant retriedCpuTime == if state == StageExecutionState.Finished then FailedCpuTime(taskInfos[..i]) else 0
      invariant fullyBlocked == AllRunningFullyBlocked(taskInfos[..i])
      invariant blockedReasons == RunningBlockedReasons(taskInfos[..i])
      invariant bufferedDataSize == BufferedBytes(taskInfos[..i])
    {
      assert taskInfos[..i + 1][..i] == taskInfos[..i];
      var taskInfo := taskInfos[i];
      var taskState := taskInfo.state;
      if taskState.IsDone() {
        completedTasks := completedTasks + 1;
      } else {
        runningTasks := runningTasks + 1;
      }

      var taskStats := taskInfo.stats;
      allTaskStats := allTaskStats + [taskStats];

      if state == StageExecutionState.Finished && taskInfo.state == TaskState.Failed {
        retriedCpuTime := retriedCpuTime + taskStats.totalCpuTimeInNanos;
      }

      if !taskState.IsDone() {
        fullyBlocked := fullyBlocked && taskStats.fullyBlocked;
        blockedReasons := blockedReasons + taskStats.blockedReasons;
      }

      bufferedDataSize := bufferedDataSize + taskInfo.totalBufferedBytes;
    }
    assert taskInfos[..|taskInfos|] == taskInfos;
  }

  /**
    The second pass of the summary: add every task's figures to the running
    totals, merge its operator statistics by key and its runtime metrics onto
    the stage's own.
   */
  method SummarizeTaskStats(allTaskStats: seq<TaskStats>, stageRuntimeStats: RuntimeStats,
                            add: (OperatorStats, OperatorStats) -> OperatorStats)
    returns (totals: RunningTotals, operatorToStats: OperatorStatsMap, mergedRuntimeStats: RuntimeStats)
    ensures totals == SumTasks(allTaskStats)
    ensures operatorToStats == Merge(map[], OperatorEntries(allTaskStats), add)
    ensures mergedRuntimeStats == MergedRuntimeStats(stageRuntimeStats, allTaskStats)
  {
    totals := NoTotals();
    operatorToStats := map[];
    mergedRuntimeStats := Empty();
    mergedRuntimeStats := mergedRuntimeStats.MergeWith(stageRuntimeStats);

    for i := 0 to |allTaskStats|
      invariant totals == SumTasks(allTaskStats[..i])
      invariant operatorToStats == Merge(map[], OperatorEntries(allTaskStats[..i]), add)
      invariant mergedRuntimeStats == MergedRuntimeStats(stageRuntimeStats, allTaskStats[..i])
    {
      assert allTaskStats[..i + 1][..i] == allTaskStats[..i];
      var taskStats := allTaskStats[i];
      totals := AddTask(totals, taskStats);

      operatorToStats := MergeTaskOperators(operatorToStats, taskStats.pipelines, add);
      MergeNextTask(allTaskStats, i, add);

      mergedRuntimeStats := AddTaskRuntimeStats(mergedRuntimeStats, taskStats);
    }
    assert allTaskStats[..|allTaskStats|] == allTaskStats;
  }

  /** The runtime-metrics calls of the second pass for one task. */
  method AddTaskRuntimeStats(merged: RuntimeStats, taskStats: TaskStats) returns (r: RuntimeStats)
    ensures r.updates == merged.updates + TaskRuntimeUpdates(taskStats)
  {
    r := merged.MergeWith(taskStats.runtimeStats);
    r := r.AddMetricValue(DriverCountPerTask, NoUnit, taskStats.totalDrivers);
    r := r.AddMetricValue(TaskElapsedTimeNanos, Nano, taskStats.elapsedTimeInNanos);
    r := r.AddMetricValueIgnoreZero(TaskQueuedTimeNanos, Nano, taskStats.queuedTimeInNanos);
    r := r.AddMetricValue(TaskScheduledTimeNanos, Nano, taskStats.totalScheduledTimeInNanos);
    r := r.AddMetricValueIgnoreZero(TaskBlockedTimeNanos, Nano, taskStats.totalBlockedTimeInNanos);
  }

  /** The nested loops of the second pass: merge one task's operator statistics into `operatorToStats`. */
  method MergeTaskOperators(operatorToStats: OperatorStatsMap, pipelines: seq<PipelineStats>,
                            add: (OperatorStats, OperatorStats) -> OperatorStats)
    returns (merged: OperatorStatsMap)
    ensures merged == Merge(operatorToStats, PipelinesEntries(pipelines), add)
  {
    merged := operatorToStats;
    for q := 0 to |pipelines|
      invariant merged == Merge(operatorToStats, PipelinesEntries(pipelines[..q]), add)
    {
      PipelinesEntriesSnoc(pipelines, q);
      MergeAppend(operatorToStats, PipelinesEntries(pipelines[..q]), PipelineEntries(pipelines[q]), add);
      merged := MergePipelineOperators(merged, pipelines[q], add);
    }
    assert pipelines[..|pipelines|] == pipelines;
  }

  /** The innermost loop: merge one pipeline's operator summaries under their keys. */
  method MergePipelineOperators(operatorToStats: OperatorStatsMap, pipeline: PipelineStats,
                                add: (OperatorStats, OperatorStats) -> OperatorStats)
    returns (merged: OperatorStatsMap)
    ensures merged == Merge(operatorToStats, PipelineEntries(pipeline), add)
  {
    merged := operatorToStats;
    var operators := pipeline.operatorSummaries;
    for k := 0 to |operators|
      invariant merged == Merge(operatorToStats, PipelineEntries(pipeline)[..k], add)
    {
      var operatorStats := operators[k];
      var id := OperatorIds.OperatorId(pipeline.pipelineId, operatorStats.operatorId);
      PipelineEntriesSnoc(pipeline, k);
      MergeSnoc(operatorToStats, PipelineEntries(pipeline)[..k], EntryOf(pipeline, k), add);
      merged := merged[id := if id in merged then add(merged[id], operatorStats) else operatorStats];
    }
    assert PipelineEntries(pipeline)[..|operators|] == PipelineEntries(pipeline);
  }

  // ---------------------------------------------------------------------------
  // Properties of summaries

  /** A summary that still has a task in flight is not final, whatever the stage's state. */
  lemma IsFinalFalseWhileTaskRunning(info: StageExecutionInfo, i: nat)
    requires i < |info.tasks| && !info.tasks[i].state.IsDone()
    ensures !info.IsFinal()
  {
  }

  /**
    The summary of a stage that has no task yet: aborted if its query is done,
    planned otherwise, with zero statistics, no tasks and no failure cause.
   */
  function UnscheduledExecutionInfo(stageId: int, isQueryDone: bool): (info: StageExecutionInfo)
    ensures info.state == (if isQueryDone then StageExecutionState.Aborted else StageExecutionState.Planned)
    ensures info.tasks == [] && info.failureCause == None
    ensures info.stats == ZeroStats(stageId)
  {
    StageExecutionInfo(
      if isQueryDone then StageExecutionState.Aborted else StageExecutionState.Planned,
      ZeroStats(stageId),
      [],
      None)
  }

  /** An unscheduled stage is final exactly when its query is done. */
  lemma UnscheduledIsFinalIffQueryDone(stageId: int, isQueryDone: bool)
    ensures UnscheduledExecutionInfo(stageId, isQueryDone).IsFinal() <==> isQueryDone
  {
  }

  /** The statistics of a stage with no task: every figure zero, every collection empty. */
  function ZeroStats(stageId: int): (z: StageExecutionStats)
    ensures forall c :: z.CounterValue(c) == 0
    ensures z.totalTasks == 0 && z.runningTasks == 0 && z.completedTasks == 0
    ensures !z.fullyBlocked && z.blockedReasons == {} && z.operatorSummaries == map[]
    ensures z.gcInfo.stageId == stageId && z.runtimeStats == Empty()
    ensures z.retriedCpuTimeInNanos == 0 && z.bufferedDataSizeInBytes == 0
    ensures z.gcInfo == StageGcStatistics(stageId, 0, 0, 0, 0, 0, 0)
    ensures z.schedulingCompleteInMillis == 0 && z.totalLifespans == 0 && z.finishedLifespans == 0
    ensures z.peakUserMemoryReservationInBytes == 0 && z.peakNodeTotalMemoryReservationInBytes == 0
  {
    StageExecutionStats(
      0, 0, 0, 0, 0, 0,
      0, 0, 0, 0, 0,
      0, 0, 0, 0,
      0, 0, 0, 0,
      false, {},
      0, 0, 0, 0, 0, 0, 0, 0, 0,
      StageGcStatistics(stageId, 0, 0, 0, 0, 0, 0),
      map[],
      Empty())
  }
}
