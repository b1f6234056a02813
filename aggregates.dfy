/**
  The stage-level aggregates of a sequence of task reports, each defined as a
  fold over the sequence in report order, and what they mean.

  The first group is computed from the task reports themselves (done or
  running, retried CPU time, blocking, buffered bytes); the second from the
  reports' statistics blocks (driver, memory, time, byte and row counters, and
  the full-GC figures).
 */
module Aggregates {
  import opened Operator
  import opened Tasks

  // ---------------------------------------------------------------------------
  // Aggregates over task reports

  function CountDone(ts: seq<TaskInfo>): (n: nat)
    ensures n <= |ts|
  {
    if ts == [] then 0
    else CountDone(ts[..|ts| - 1]) + (if ts[|ts| - 1].state.IsDone() then 1 else 0)
  }

  function CountRunning(ts: seq<TaskInfo>): (n: nat)
    ensures n <= |ts|
  {
    if ts == [] then 0
    else CountRunning(ts[..|ts| - 1]) + (if ts[|ts| - 1].state.IsDone() then 0 else 1)
  }

  /** The CPU time of the tasks that failed. */
  function FailedCpuTime(ts: seq<TaskInfo>): int {
    if ts == [] then 0
    else FailedCpuTime(ts[..|ts| - 1]) + (if ts[|ts| - 1].state == Failed then ts[|ts| - 1].stats.totalCpuTimeInNanos else 0)
  }

  /** The conjunction of the fully-blocked flags of the tasks that are not done. */
  function AllRunningFullyBlocked(ts: seq<TaskInfo>): bool {
    if ts == [] then true
    else AllRunningFullyBlocked(ts[..|ts| - 1]) && (ts[|ts| - 1].state.IsDone() || ts[|ts| - 1].stats.fullyBlocked)
  }

  /** The union of the blocked reasons of the tasks that are not done. */
  function RunningBlockedReasons(ts: seq<TaskInfo>): set<BlockedReason> {
    if ts == [] then {}
    else RunningBlockedReasons(ts[..|ts| - 1]) + (if ts[|ts| - 1].state.IsDone() then {} else ts[|ts| - 1].stats.blockedReasons)
  }

  /** The bytes held in the tasks' output buffers. */
  function BufferedBytes(ts: seq<TaskInfo>): int {
    if ts == [] then 0 else BufferedBytes(ts[..|ts| - 1]) + ts[|ts| - 1].totalBufferedBytes
  }

  /** The statistics blocks of the task reports, in order. */
  function StatsOf(ts: seq<TaskInfo>): (ss: seq<TaskStats>)
    ensures |ss| == |ts|
    ensures forall i :: 0 <= i < |ts| ==> ss[i] == ts[i].stats
  {
    if ts == [] then [] else StatsOf(ts[..|ts| - 1]) + [ts[|ts| - 1].stats]
  }

  // ---------------------------------------------------------------------------
  // What the aggregates over task reports mean

  ghost function DoneIndices(ts: seq<TaskInfo>): set<nat> {
    set i: nat | i < |ts| && ts[i].state.IsDone()
  }

  /** Every task is either done or running. */
  lemma {:induction false} TaskCountsPartition(ts: seq<TaskInfo>)
    ensures CountDone(ts) + CountRunning(ts) == |ts|
  {
    if ts != [] {
      TaskCountsPartition(ts[..|ts| - 1]);
    }
  }

  /** The done count is the number of positions holding a done task. */
  lemma {:induction false} CountDoneIsCardinality(ts: seq<TaskInfo>)
    ensures CountDone(ts) == |DoneIndices(ts)|
  {
    if ts != [] {
      var n := |ts| - 1;
      var init := ts[..n];
      CountDoneIsCardinality(init);
      if ts[n].state.IsDone() {
        assert DoneIndices(ts) == DoneIndices(init) + {n};
      } else {
        assert DoneIndices(ts) == DoneIndices(init);
      }
    }
  }

  lemma {:induction false} CountRunningPositiveIff(ts: seq<TaskInfo>)
    ensures CountRunning(ts) > 0 <==> exists i :: 0 <= i < |ts| && !ts[i].state.IsDone()
  {
    if ts != [] {
      var init := ts[..|ts| - 1];
      CountRunningPositiveIff(init);
      if exists i :: 0 <= i < |init| && !init[i].state.IsDone() {
        var i :| 0 <= i < |init| && !init[i].state.IsDone();
        assert !ts[i].state.IsDone();
      }
      if exists i :: 0 <= i < |ts| && !ts[i].state.IsDone() {
        var i :| 0 <= i < |ts| && !ts[i].state.IsDone();
        if i < |init| {
          assert !init[i].state.IsDone();
        }
      }
    }
  }

  lemma {:induction false} AllRunningFullyBlockedIff(ts: seq<TaskInfo>)
    ensures AllRunningFullyBlocked(ts) <==>
      forall i :: 0 <= i < |ts| && !ts[i].state.IsDone() ==> ts[i].stats.fullyBlocked
  {
    if ts != [] {
      var init := ts[..|ts| - 1];
      AllRunningFullyBlockedIff(init);
      assert forall i :: 0 <= i < |init| ==> init[i] == ts[i];
    }
  }

  lemma {:induction false} RunningBlockedReasonsIff(ts: seq<TaskInfo>, r: BlockedReason)
    ensures r in RunningBlockedReasons(ts) <==>
      exists i :: 0 <= i < |ts| && !ts[i].state.IsDone() && r in ts[i].stats.blockedReasons
  {
    if ts != [] {
      var init := ts[..|ts| - 1];
      RunningBlockedReasonsIff(init, r);
      if r in RunningBlockedReasons(init) {
        var i :| 0 <= i < |init| && !init[i].state.IsDone() && r in init[i].stats.blockedReasons;
        assert ts[i] == init[i];
      }
      if exists i :: 0 <= i < |ts| && !ts[i].state.IsDone() && r in ts[i].stats.blockedReasons {
        var i :| 0 <= i < |ts| && !ts[i].state.IsDone() && r in ts[i].stats.blockedReasons;
        if i < |init| {
          assert ts[i] == init[i];
        }
      }
    }
  }

  // ---------------------------------------------------------------------------
  // Aggregates over statistics blocks

  /** The additive counters of a stage, each a sum of one figure per task. */
  datatype Counter =
    | TotalDrivers | QueuedDrivers | RunningDrivers | BlockedDrivers | CompletedDrivers
    | UserMemoryReservation | TotalMemoryReservation
    | ScheduledTime | CpuTime | BlockedTime
    | Allocation
    | RawInputDataSize | RawInputPositions
    | ProcessedInputDataSize | ProcessedInputPositions
    | OutputDataSize | OutputPositions
    | PhysicalWrittenDataSize
    | FullGcTasks | FullGcSec

  /**
    Java's `TimeUnit.MILLISECONDS.toSeconds`: whole seconds, the remainder
    dropped, so rounded toward zero for negative values too.
   */
  function MillisToSeconds(ms: int): (sec: int)
    ensures ms >= 0 ==> sec * 1000 <= ms < sec * 1000 + 1000
    ensures ms < 0 ==> sec * 1000 - 1000 < ms <= sec * 1000
  {
    if ms >= 0 then ms / 1000 else -((-ms) / 1000)
  }

  /** The whole seconds of full GC a task reports. */
  function GcSec(s: TaskStats): int {
    MillisToSeconds(s.fullGcTimeInMillis)
  }

  /** What one task adds to a counter. */
  function Contribution(s: TaskStats, c: Counter): int {
    match c
    case TotalDrivers => s.totalDrivers
    case QueuedDrivers => s.queuedDrivers
    case RunningDrivers => s.runningDrivers
    case BlockedDrivers => s.blockedDrivers
    case CompletedDrivers => s.completedDrivers
    case UserMemoryReservation => s.userMemoryReservationInBytes
    case TotalMemoryReservation => s.userMemoryReservationInBytes + s.systemMemoryReservationInBytes
    case ScheduledTime => s.totalScheduledTimeInNanos
    case CpuTime => s.totalCpuTimeInNanos
    case BlockedTime => s.totalBlockedTimeInNanos
    case Allocation => s.totalAllocationInBytes
    case RawInputDataSize => s.rawInputDataSizeInBytes
    case RawInputPositions => s.rawInputPositions
    case ProcessedInputDataSize => s.processedInputDataSizeInBytes
    case ProcessedInputPositions => s.processedInputPositions
    case OutputDataSize => s.outputDataSizeInBytes
    case OutputPositions => s.outputPositions
    case PhysicalWrittenDataSize => s.physicalWrittenDataSizeInBytes
    case FullGcTasks => if s.fullGcCount > 0 then 1 else 0
    case FullGcSec => GcSec(s)
  }

  function Total(ss: seq<TaskStats>, c: Counter): int {
    if ss == [] then 0 else Total(ss[..|ss| - 1], c) + Contribution(ss[|ss| - 1], c)
  }

  function MinFullGcSec(ss: seq<TaskStats>): int {
    if ss == [] then 0 else Min(MinFullGcSec(ss[..|ss| - 1]), GcSec(ss[|ss| - 1]))
  }

  function MaxFullGcSec(ss: seq<TaskStats>): int {
    if ss == [] then 0 else Max(MaxFullGcSec(ss[..|ss| - 1]), GcSec(ss[|ss| - 1]))
  }

  function Min(a: int, b: int): int { if a <= b then a else b }

  function Max(a: int, b: int): int { if a >= b then a else b }

  /**
    The counters of the second pass as one running-totals value. Each field is
    one of the source's local accumulators; `AddTask` is one iteration's worth
    of updates to them.
   */
  datatype RunningTotals = RunningTotals(
    totalDrivers: int, queuedDrivers: int, runningDrivers: int, blockedDrivers: int, completedDrivers: int,
    userMemoryReservation: int, totalMemoryReservation: int,
    totalScheduledTime: int, totalCpuTime: int, totalBlockedTime: int,
    totalAllocation: int,
    rawInputDataSize: int, rawInputPositions: int,
    processedInputDataSize: int, processedInputPositions: int,
    outputDataSize: int, outputPositions: int,
    physicalWrittenDataSize: int,
    fullGcTaskCount: int, minFullGcSec: int, maxFullGcSec: int, totalFullGcSec: int)
  {
    /** The accumulator that holds counter `c`. */
    function Get(c: Counter): int {
      match c
      case TotalDrivers => totalDrivers
      case QueuedDrivers => queuedDrivers
      case RunningDrivers => runningDrivers
      case BlockedDrivers => blockedDrivers
      case CompletedDrivers => completedDrivers
      case UserMemoryReservation => userMemoryReservation
      case TotalMemoryReservation => totalMemoryReservation
      case ScheduledTime => totalScheduledTime
      case CpuTime => totalCpuTime
      case BlockedTime => totalBlockedTime
      case Allocation => totalAllocation
      case RawInputDataSize => rawInputDataSize
      case RawInputPositions => rawInputPositions
      case ProcessedInputDataSize => processedInputDataSize
      case ProcessedInputPositions => processedInputPositions
      case OutputDataSize => outputDataSize
      case OutputPositions => outputPositions
      case PhysicalWrittenDataSize => physicalWrittenDataSize
      case FullGcTasks => fullGcTaskCount
      case FullGcSec => totalFullGcSec
    }
  }

  /**
    One task adds its contribution to every counter's accumulator and folds its
    GC seconds into the minimum and the maximum.
   */
  lemma AddTaskAddsContribution(t: RunningTotals, s: TaskStats)
    ensures forall c :: AddTask(t, s).Get(c) == t.Get(c) + Contribution(s, c)
    ensures AddTask(t, s).minFullGcSec == Min(t.minFullGcSec, GcSec(s))
    ensures AddTask(t, s).maxFullGcSec == Max(t.maxFullGcSec, GcSec(s))
  {
  }

  /** Every accumulator starts at 0, the GC minimum and maximum included. */
  function NoTotals(): RunningTotals {
    RunningTotals(0, 0, 0, 0, 0, 0, 0, 0, 0, 0, 0, 0, 0, 0, 0, 0, 0, 0, 0, 0, 0, 0)
  }

  /** The second pass's updates for one task's statistics. */
  function AddTask(t: RunningTotals, s: TaskStats): RunningTotals {
    var taskUserMemory := s.userMemoryReservationInBytes;
    var taskSystemMemory := s.systemMemoryReservationInBytes;
    var gcSec := MillisToSeconds(s.fullGcTimeInMillis);
    RunningTotals(
      t.totalDrivers + s.totalDrivers,
      t.queuedDrivers + s.queuedDrivers,
      t.runningDrivers + s.runningDrivers,
      t.blockedDrivers + s.blockedDrivers,
      t.completedDrivers + s.completedDrivers,
      t.userMemoryReservation + taskUserMemory,
      t.totalMemoryReservation + taskUserMemory + taskSystemMemory,
      t.totalScheduledTime + s.totalScheduledTimeInNanos,
      t.totalCpuTime + s.totalCpuTimeInNanos,
      t.totalBlockedTime + s.totalBlockedTimeInNanos,
      t.totalAllocation + s.totalAllocationInBytes,
      t.rawInputDataSize + s.rawInputDataSizeInBytes,
      t.rawInputPositions + s.rawInputPositions,
      t.processedInputDataSize + s.processedInputDataSizeInBytes,
      t.processedInputPositions + s.processedInputPositions,
      t.outputDataSize + s.outputDataSizeInBytes,
      t.outputPositions + s.outputPositions,
      t.physicalWrittenDataSize + s.physicalWrittenDataSizeInBytes,
      t.fullGcTaskCount + (if s.fullGcCount > 0 then 1 else 0),
      Min(t.minFullGcSec, gcSec),
      Max(t.maxFullGcSec, gcSec),
      t.totalFullGcSec + gcSec)
  }

  /** The running totals after the second pass has seen `ss`, in order. */
  function SumTasks(ss: seq<TaskStats>): RunningTotals {
    if ss == [] then NoTotals() else AddTask(SumTasks(ss[..|ss| - 1]), ss[|ss| - 1])
  }

  // ---------------------------------------------------------------------------
  // What the aggregates over statistics blocks mean

  /**
    The running totals agree with the per-counter sums: every accumulator holds
    the sum of its figure over the tasks seen, and the GC minimum and maximum
    are the folds of `Min` and `Max` from 0.
   */
  lemma {:induction false} SumTasksIsTotal(ss: seq<TaskStats>)
    ensures forall c :: SumTasks(ss).Get(c) == Total(ss, c)
    ensures SumTasks(ss).minFullGcSec == MinFullGcSec(ss)
    ensures SumTasks(ss).maxFullGcSec == MaxFullGcSec(ss)
  {
    if ss != [] {
      SumTasksIsTotal(ss[..|ss| - 1]);
    }
  }

  lemma {:induction false} TotalAppend(a: seq<TaskStats>, b: seq<TaskStats>, c: Counter)
    ensures Total(a + b, c) == Total(a, c) + Total(b, c)
  {
    if b == [] {
      assert a + b == a;
    } else {
      var b' := b[..|b| - 1];
      assert (a + b)[..|a + b| - 1] == a + b';
      TotalAppend(a, b', c);
    }
  }

  /** Adding reports whose figures are not negative never lowers a counter. */
  lemma TotalGrows(a: seq<TaskStats>, b: seq<TaskStats>, c: Counter)
    requires forall i :: 0 <= i < |b| ==> Contribution(b[i], c) >= 0
    ensures Total(a + b, c) >= Total(a, c)
  {
    TotalAppend(a, b, c);
    TotalNonNegative(b, c);
  }

  lemma {:induction false} TotalNonNegative(ss: seq<TaskStats>, c: Counter)
    requires forall i :: 0 <= i < |ss| ==> Contribution(ss[i], c) >= 0
    ensures Total(ss, c) >= 0
  {
    if ss != [] {
      TotalNonNegative(ss[..|ss| - 1], c);
    }
  }

  /** The total reservation covers the user reservation when no system reservation is negative. */
  lemma {:induction false} TotalMemoryCoversUserMemory(ss: seq<TaskStats>)
    requires forall i :: 0 <= i < |ss| ==> ss[i].systemMemoryReservationInBytes >= 0
    ensures Total(ss, TotalMemoryReservation) >= Total(ss, UserMemoryReservation)
  {
    if ss != [] {
      TotalMemoryCoversUserMemory(ss[..|ss| - 1]);
    }
  }

  /** When no task reports negative CPU time, the CPU time of failed tasks is part of the total. */
  lemma {:induction false} FailedCpuTimeWithinTotal(ts: seq<TaskInfo>)
    requires forall i :: 0 <= i < |ts| ==> ts[i].stats.totalCpuTimeInNanos >= 0
    ensures 0 <= FailedCpuTime(ts) <= Total(StatsOf(ts), CpuTime)
  {
    if ts != [] {
      FailedCpuTimeWithinTotal(ts[..|ts| - 1]);
    }
  }

  ghost function FullGcIndices(ss: seq<TaskStats>): set<nat> {
    set i: nat | i < |ss| && ss[i].fullGcCount > 0
  }

  /** The full-GC task count is the number of tasks with at least one full GC. */
  lemma {:induction false} FullGcTaskCount(ss: seq<TaskStats>)
    ensures Total(ss, FullGcTasks) == |FullGcIndices(ss)|
    ensures 0 <= Total(ss, FullGcTasks) <= |ss|
  {
    if ss != [] {
      var n := |ss| - 1;
      var init := ss[..n];
      FullGcTaskCount(init);
      assert Total(ss, FullGcTasks) == Total(init, FullGcTasks) + (if ss[n].fullGcCount > 0 then 1 else 0);
      assert forall i :: 0 <= i < n ==> init[i] == ss[i];
      if ss[n].fullGcCount > 0 {
        assert FullGcIndices(ss) == FullGcIndices(init) + {n};
        assert n !in FullGcIndices(init);
      } else {
        assert FullGcIndices(ss) == FullGcIndices(init);
      }
    }
  }

  /** The maximum is at least 0, at least every task's seconds, and is 0 or some task's seconds. */
  lemma {:induction false} MaxFullGcSecBounds(ss: seq<TaskStats>)
    ensures MaxFullGcSec(ss) >= 0
    ensures forall i :: 0 <= i < |ss| ==> GcSec(ss[i]) <= MaxFullGcSec(ss)
    ensures MaxFullGcSec(ss) == 0 || exists i :: 0 <= i < |ss| && GcSec(ss[i]) == MaxFullGcSec(ss)
  {
    if ss != [] {
      var init := ss[..|ss| - 1];
      MaxFullGcSecBounds(init);
      assert forall i :: 0 <= i < |init| ==> init[i] == ss[i];
    }
  }

  /** The minimum starts at 0: it is at most 0, at most every task's seconds, and is 0 or some task's seconds. */
  lemma {:induction false} MinFullGcSecBounds(ss: seq<TaskStats>)
    ensures MinFullGcSec(ss) <= 0
    ensures forall i :: 0 <= i < |ss| ==> MinFullGcSec(ss) <= GcSec(ss[i])
    ensures MinFullGcSec(ss) == 0 || exists i :: 0 <= i < |ss| && GcSec(ss[i]) == MinFullGcSec(ss)
  {
    if ss != [] {
      var init := ss[..|ss| - 1];
      MinFullGcSecBounds(init);
      assert forall i :: 0 <= i < |init| ==> init[i] == ss[i];
    }
  }

  /** So when no task reports negative GC time, the reported minimum is always 0. */
  lemma MinFullGcSecIsZero(ss: seq<TaskStats>)
    requires forall i :: 0 <= i < |ss| ==> ss[i].fullGcTimeInMillis >= 0
    ensures MinFullGcSec(ss) == 0
  {
    MinFullGcSecBounds(ss);
  }
}
