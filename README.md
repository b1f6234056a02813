# Stage execution summary of a Presto stage

This project models how a Presto coordinator summarises one execution of a
stage from the reports of its tasks (`StageExecutionInfo`), and proves what
each figure of the summary means.

- `StageExecution.Create` is the factory `StageExecutionInfo.create`. It keeps
  the source's two passes over the task reports, which are split into helper
  methods:
  - `ClassifyTasks` is the first pass. It counts done and running tasks, adds up
    the CPU time of failed tasks when the stage is finished, and ANDs the
    fully-blocked flags of the tasks still running. It also unions their blocked
    reasons, sums the buffered output bytes and collects the statistics blocks.
  - `SummarizeTaskStats` is the second pass. It sums the driver, memory, time,
    byte and row counters and computes the full-GC figures. It merges operator
    statistics under the key `pipelineId.operatorId` and feeds the runtime
    metrics.
  - `MergeTaskOperators` and `MergePipelineOperators` are the nested loops over
    pipelines and operators.
- Each method is proved against recursive definitions over the report sequence
  (modules `Aggregates`, `OperatorMerge` and `StageExecution`). Lemmas state what
  those definitions mean:
  - exact counts and both directions of the blocking facts;
  - bounds of the GC figures;
  - what the operator map holds, the key being injective, and the merge being
    independent of task order when `add` is associative and commutative.
- `StageExecution.StageExecutionInfo.IsFinal` and
  `StageExecution.UnscheduledExecutionInfo` are the two pure members of the class.

Modules:
- `RuntimeMetrics` (`runtime_stats.dfy`): the runtime-metrics accumulator, kept as the log of calls made on it.
- `Operator` (`operator.dfy`): the task, pipeline and operator statistics.
- `Tasks` (`tasks.dfy`): task states and task reports.
- `OperatorIds` (`operator_ids.dfy`): the operator key and its injectivity.
- `Aggregates` (`aggregates.dfy`): folds over the reports and their meaning.
- `OperatorMerge` (`operator_merge.dfy`): the operator-statistics merge.
- `StageExecution` (`stage_execution.dfy`): the summary, `Create`, `IsFinal` and the unscheduled factory.

## Model

| member | source | states |
|---|---|---|
| StageExecution.Create | presto-main-base/src/main/java/com/facebook/presto/execution/StageExecutionInfo.java:58-256 | The summary keeps the state, the reports and the failure cause. It counts every task once, as done or running. Retried CPU time is the failed tasks' CPU time in a finished stage and 0 otherwise. Fully blocked holds iff some task is running and every running task is fully blocked. Blocked reasons are those of the running tasks. Every additive counter is the sum of the tasks' figures. The GC statistics carry the stage ids, min and max. The operator map is the keyed merge, and the runtime metrics are the stage's own followed by each task's. |
| StageExecution.ClassifyTasks | presto-main-base/src/main/java/com/facebook/presto/execution/StageExecutionInfo.java:120-142 | After the first pass, the done and running counts, the retried CPU time, the blocked flag and reasons, the buffered bytes and the collected statistics blocks each equal their fold over all reports |
| StageExecution.SummarizeTaskStats | presto-main-base/src/main/java/com/facebook/presto/execution/StageExecutionInfo.java:144-196 | After the second pass, the running totals are those of all tasks in order. The operator map is the merge of every task's operator entries into an empty map. The runtime metrics are the stage's metrics followed by every task's updates. |
| StageExecution.MergeTaskOperators | presto-main-base/src/main/java/com/facebook/presto/execution/StageExecutionInfo.java:184-189 | Merging one task's pipelines, one after another, gives the merge of that task's entries in pipeline order |
| StageExecution.MergePipelineOperators | presto-main-base/src/main/java/com/facebook/presto/execution/StageExecutionInfo.java:185-188 | Each operator is stored under its key if the key is new, or combined by `add` with the stored statistics; the result is the merge of the pipeline's entries in order |
| StageExecution.AddTaskRuntimeStats | presto-main-base/src/main/java/com/facebook/presto/execution/StageExecutionInfo.java:190-195 | One task appends its own metrics and then five samples, in the source's order, with the right units and ignore-zero choices |
| StageExecution.MergedRuntimeStatsLayout | presto-main-base/src/main/java/com/facebook/presto/execution/StageExecutionInfo.java:115-116 | The merged metrics have 1 + 6n calls. The first merges the stage's own metrics. Calls 6i+1 to 6i+6 are task i's updates. |
| StageExecution.StageExecutionInfo.IsFinal | presto-main-base/src/main/java/com/facebook/presto/execution/StageExecutionInfo.java:295-298 | Final iff the stage state is done and every retained task is done |
| Tasks.AllTasksDone | presto-main-base/src/main/java/com/facebook/presto/execution/StageExecutionInfo.java:297 | The `allMatch` over the tasks holds iff every task's state is done |
| StageExecution.UnscheduledExecutionInfo | presto-main-base/src/main/java/com/facebook/presto/execution/StageExecutionInfo.java:300-307 | Aborted if the query is done, planned otherwise; zero statistics for the stage id, no tasks, no failure cause |
| StageExecution.UnscheduledIsFinalIffQueryDone | presto-main-base/src/main/java/com/facebook/presto/execution/StageExecutionInfo.java:295-307 | An unscheduled stage is final exactly when its query is done |
| StageExecution.IsFinalFalseWhileTaskRunning | presto-main-base/src/main/java/com/facebook/presto/execution/StageExecutionInfo.java:295-298 | A summary with any task not done is not final, whatever the stage state |
| Aggregates.TaskCountsPartition | presto-main-base/src/main/java/com/facebook/presto/execution/StageExecutionInfo.java:71-127 | Done count plus running count is the number of reports |
| Aggregates.CountDoneIsCardinality | presto-main-base/src/main/java/com/facebook/presto/execution/StageExecutionInfo.java:122-124 | The done count is the number of positions whose task state is done |
| Aggregates.CountRunningPositiveIff | presto-main-base/src/main/java/com/facebook/presto/execution/StageExecutionInfo.java:125-127 | The running count is positive iff some task is not done |
| Aggregates.AllRunningFullyBlockedIff | presto-main-base/src/main/java/com/facebook/presto/execution/StageExecutionInfo.java:136-137 | The AND-reduced flag holds iff every task that is not done is fully blocked; done tasks do not matter |
| Aggregates.RunningBlockedReasonsIff | presto-main-base/src/main/java/com/facebook/presto/execution/StageExecutionInfo.java:136-138 | A reason is in the union iff some task that is not done reports it |
| Aggregates.FailedCpuTimeWithinTotal | presto-main-base/src/main/java/com/facebook/presto/execution/StageExecutionInfo.java:132-133 | With non-negative CPU times, the failed tasks' CPU time is between 0 and the stage's total CPU time |
| Aggregates.StatsOf | presto-main-base/src/main/java/com/facebook/presto/execution/StageExecutionInfo.java:129-130 | The collected statistics list has one entry per report, the i-th being report i's statistics |
| Aggregates.MillisToSeconds | presto-main-base/src/main/java/com/facebook/presto/execution/StageExecutionInfo.java:179 | Milliseconds become whole seconds, truncated toward zero, for both signs |
| Aggregates.SumTasksIsTotal | presto-main-base/src/main/java/com/facebook/presto/execution/StageExecutionInfo.java:145-182 | Each accumulator of the second pass equals the plain sum of its per-task figure. The GC min and max are the folds of min and max seeded at 0. |
| Aggregates.TotalMemoryCoversUserMemory | presto-main-base/src/main/java/com/facebook/presto/execution/StageExecutionInfo.java:154-157 | With non-negative system reservations, the total reservation is at least the user reservation |
| Aggregates.TotalAppend | presto-main-base/src/main/java/com/facebook/presto/execution/StageExecutionInfo.java:144-174 | A counter over two report lists joined is the sum of the counter over each |
| Aggregates.TotalGrows | presto-main-base/src/main/java/com/facebook/presto/execution/StageExecutionInfo.java:144-174 | Adding reports with non-negative figures never lowers a counter |
| Aggregates.TotalNonNegative | presto-main-base/src/main/java/com/facebook/presto/execution/StageExecutionInfo.java:144-174 | A counter over non-negative figures is non-negative |
| Aggregates.FullGcTaskCount | presto-main-base/src/main/java/com/facebook/presto/execution/StageExecutionInfo.java:177 | The full-GC task count is the number of tasks with at least one full GC, so it is at most the number of tasks |
| Aggregates.MaxFullGcSecBounds | presto-main-base/src/main/java/com/facebook/presto/execution/StageExecutionInfo.java:108-182 | The maximum is at least 0 and at least every task's seconds, and it is 0 or some task's seconds |
| Aggregates.MinFullGcSecBounds | presto-main-base/src/main/java/com/facebook/presto/execution/StageExecutionInfo.java:107-181 | The minimum is at most 0 and at most every task's seconds, and it is 0 or some task's seconds |
| Aggregates.MinFullGcSecIsZero | presto-main-base/src/main/java/com/facebook/presto/execution/StageExecutionInfo.java:107-181 | Seeded at 0, the minimum is always 0 when no task reports negative GC time |
| OperatorIds.OperatorIdInjective | presto-main-base/src/main/java/com/facebook/presto/execution/StageExecutionInfo.java:186 | Two operators share a key iff they share both the pipeline id and the operator id |
| OperatorIds.DecimalStringInjective | presto-main-base/src/main/java/com/facebook/presto/execution/StageExecutionInfo.java:186 | The decimal rendering of an int determines the int |
| OperatorIds.DigitsValueOfDigits | presto-main-base/src/main/java/com/facebook/presto/execution/StageExecutionInfo.java:186 | Reading back the decimal digits of n gives n |
| OperatorIds.JoinedWithDotInjective | presto-main-base/src/main/java/com/facebook/presto/execution/StageExecutionInfo.java:186 | Joining two dot-free strings with a dot can be undone |
| OperatorMerge.MergeAppend | presto-main-base/src/main/java/com/facebook/presto/execution/StageExecutionInfo.java:184-189 | Merging two entry lists one after the other is merging their concatenation |
| OperatorMerge.MergeFromEmpty | presto-main-base/src/main/java/com/facebook/presto/execution/StageExecutionInfo.java:187 | Merging into an empty map gives exactly the keys that occur. Under each key is the first statistics, with every later one added by `add`, never overwritten. |
| OperatorMerge.IdsOfOperatorEntries | presto-main-base/src/main/java/com/facebook/presto/execution/StageExecutionInfo.java:184-186 | A key is among the merged entries iff some operator of some pipeline of some task has it |
| OperatorMerge.OperatorSummaries | presto-main-base/src/main/java/com/facebook/presto/execution/StageExecutionInfo.java:184-189 | The stage's operator map has exactly one entry per key occurring in any task, holding the `add`-fold of that key's statistics in task, pipeline and operator order |
| OperatorMerge.ConcatMapMembership | presto-main-base/src/main/java/com/facebook/presto/execution/StageExecutionInfo.java:184-185 | An entry is in the task-by-task (or pipeline-by-pipeline) concatenation iff it is in one of the parts |
| OperatorMerge.MergeOrderIndependent | presto-main-base/src/main/java/com/facebook/presto/execution/StageExecutionInfo.java:187 | With an associative and commutative `add`, any reordering of the entries gives the same map |
| OperatorMerge.OperatorSummariesOrderIndependent | presto-main-base/src/main/java/com/facebook/presto/execution/StageExecutionInfo.java:184-189 | With an associative and commutative `add`, reordering the tasks does not change the merged operator statistics |
| OperatorIds.OperatorId | presto-main-base/src/main/java/com/facebook/presto/execution/StageExecutionInfo.java:186 | Plain definition of the key `pipelineId + "." + operatorId`; lemmas `OperatorIdSplitsAtDot` and `OperatorIdInjective` state what it determines |
| OperatorIds.OperatorIdSplitsAtDot | presto-main-base/src/main/java/com/facebook/presto/execution/StageExecutionInfo.java:186 | The key contains a dot; before its first dot is the pipeline id as written, after it the operator id as written |
| OperatorIds.DecimalString | presto-main-base/src/main/java/com/facebook/presto/execution/StageExecutionInfo.java:186 | Java's rendering of an `int` inside the string concatenation: never contains a dot, and starts with a minus sign exactly for negative values |
| OperatorMerge.Compute | presto-main-base/src/main/java/com/facebook/presto/execution/StageExecutionInfo.java:187 | Plain definition of the `compute` lambda: store the statistics if the key is absent, else store `add(stored, new)`; lemma `ComputeStep` states it |
| OperatorMerge.ComputeStep | presto-main-base/src/main/java/com/facebook/presto/execution/StageExecutionInfo.java:187 | One merge step adds the key and changes no other key; a new key gets the statistics as they are, an existing one `add` of the stored and the new statistics |
| OperatorMerge.OperatorsShareEntryIff | presto-main-base/src/main/java/com/facebook/presto/execution/StageExecutionInfo.java:184-189 | Every operator of every task has an entry in the operator map, and two operators share an entry iff they share both the pipeline id and the operator id |
| Aggregates.Contribution | presto-main-base/src/main/java/com/facebook/presto/execution/StageExecutionInfo.java:145-180 | Plain definition of what one task adds to each counter: its own field, user plus system reservation for the total reservation, 1 or 0 for the full-GC task count and whole seconds for the GC total |
| Aggregates.AddTask | presto-main-base/src/main/java/com/facebook/presto/execution/StageExecutionInfo.java:145-182 | Plain definition of one iteration of the second pass on the running totals; lemma `AddTaskAddsContribution` states it |
| Aggregates.AddTaskAddsContribution | presto-main-base/src/main/java/com/facebook/presto/execution/StageExecutionInfo.java:145-182 | One task adds its contribution to every counter and folds its GC seconds into the running minimum and maximum |
| StageExecution.ZeroStats | presto-main-base/src/main/java/com/facebook/presto/execution/StageExecutionInfo.java:304 | The statistics of a stage without tasks: every counter, task count, retried CPU time, buffered size, scheduling time, lifespan count and peak reservation zero; not blocked, no reasons, no operators, no runtime metrics; GC statistics all zero apart from the stage id |
| StageExecution.TaskRuntimeUpdates | presto-main-base/src/main/java/com/facebook/presto/execution/StageExecutionInfo.java:190-195 | Six calls per task: first the merge of the task's own metrics, then five samples, the first without a unit and the rest in nanoseconds |
| RuntimeMetrics.RuntimeStats.MergeWith | presto-main-base/src/main/java/com/facebook/presto/execution/StageExecutionInfo.java:116 | Merging records one call at the end and keeps every earlier call |
| RuntimeMetrics.RuntimeStats.AddMetricValue | presto-main-base/src/main/java/com/facebook/presto/execution/StageExecutionInfo.java:191-194 | Adding a sample records one call at the end and keeps every earlier call |
| RuntimeMetrics.RuntimeStats.AddMetricValueIgnoreZero | presto-main-base/src/main/java/com/facebook/presto/execution/StageExecutionInfo.java:193-195 | Adding a sample that ignores zero records one call at the end and keeps every earlier call |

## Left out

- `cumulativeUserMemory` and `cumulativeTotalMemory` (source lines 81-82 and 151-152) are `double` sums. Floating point is not modelled, so these two figures are absent from the summary.
- The GC average `(int) (1.0 * totalFullGcSec / fullGcCount)` and the `fullGcCount` sum that feeds only it are not modelled. They are floating-point division, which is NaN or infinite when no task had a full GC.
- `succinctDuration` is not modelled: the four times are kept as nanosecond integers rather than `Duration` values. A `Duration` rejects negative values, so when the total scheduled, CPU, retried or blocked time is negative `create` throws, while `StageExecution.Create` returns a summary.
- The split-distribution snapshot is not modelled. It is passed through untouched.
- StageExecution.Create: does not model Java `int`/`long` wrap-around on the sums or the exception `toIntExact` throws on overflow. All counters are unbounded integers.
- Aggregates.MillisToSeconds: does not model the `ArithmeticException` of `toIntExact` when the seconds exceed 32 bits.
- `RuntimeStats` is not modelled internally, because its merging rules live in another library. It is kept as the ordered log of the `mergeWith`, `addMetricValue` and `addMetricValueIgnoreZero` calls made on it.
- The internals of `OperatorStats.add` are not modelled. It is a parameter of `Create`, and only the order-independence lemmas assume it is associative and commutative.
- The operator list `ImmutableList.copyOf(operatorToStats.values())` is modelled as the map itself. The order of a `HashMap`'s values is unspecified, so the list's order is not captured.
- Jackson annotations, serialisation, the getters and the `requireNonNull` checks of the constructor are not modelled. The datatype constructor is the constructor, and the getters are its fields.
- `TaskState`, `StageExecutionState`, `BlockedReason`, `StageExecutionStats`, `StageGcStatistics` and `StageExecutionStats.zero` come from source files that are not part of this model.
  - The two state enums keep Presto's constants and their done sets.
  - A blocked reason is its constant's name.
  - `ZeroStats` gives every figure 0, every collection empty and an execution id of 0 in the GC statistics.
- The task status and output-buffer information are reduced to the two figures the summary reads: the task state and the total buffered bytes.
- The second pass's local accumulators are kept as one running-totals value (`Aggregates.RunningTotals`), updated once per task by `AddTask` rather than field by field. The updates and their order within a task are the same.
