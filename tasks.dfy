/**
  What a stage summary knows of one task: its state, its statistics and the bytes
  currently held in its output buffers.
 */
module Tasks {
  import opened Operator

  datatype TaskState = Planned | Running | Finished | Canceled | Aborted | Failed {
    /** A task is done once it reaches a terminal state. */
    predicate IsDone() {
      match this
      case Planned | Running => false
      case Finished | Canceled | Aborted | Failed => true
    }
  }

  /**
    One task report. `state` is the task status's state and `totalBufferedBytes`
    the output buffers' total; the rest of the status and of the buffer
    information is not read by the stage summary.
   */
  datatype TaskInfo = TaskInfo(state: TaskState, stats: TaskStats, totalBufferedBytes: int)

  /** True when every task in `tasks` is done (the stream `allMatch` of the source). */
  function AllTasksDone(tasks: seq<TaskInfo>): (r: bool)
    ensures r <==> forall i :: 0 <= i < |tasks| ==> tasks[i].state.IsDone()
  {
    if tasks == [] then true
    else tasks[0].state.IsDone() && AllTasksDone(tasks[1..])
  }
}
