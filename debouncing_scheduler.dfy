/**
 * DebouncingEventLoopScheduler: outside compiled script it runs each task at once; in script
 * mode it keeps only the latest task and queues one deferred `execute` on the browser event
 * loop to run it. The event loop is modelled by `pendingExecutes`, the number of deferred
 * `execute` commands queued and not yet run; `Execute` is one of them running.
 */
module DebouncingSchedulers {
  import opened Wrappers

  type TaskId = nat

  class DebouncingEventLoopScheduler {
    /** Whether `GWT.isScript()` holds. */
    const scriptMode: bool
    /** false: `execute` as written, which clears the slot after running the task; true: the
        corrected `execute`, which takes the task out of the slot before running it. */
    const takeBeforeRun: bool
    var scheduled: Option<TaskId>
    var pendingExecutes: nat
    /** Every task run so far, in order. */
    var ran: seq<TaskId>

    /** At most one deferred `execute` is queued, exactly while a task waits in the slot. */
    ghost predicate Valid()
      reads this
    {
      pendingExecutes == (if scheduled.Some? then 1 else 0) &&
      (scheduled.Some? ==> scriptMode)
    }

    constructor (scriptMode: bool, takeBeforeRun: bool)
      ensures Valid()
      ensures this.scriptMode == scriptMode && this.takeBeforeRun == takeBeforeRun
      ensures scheduled == None && ran == []
    {
      this.scriptMode := scriptMode;
      this.takeBeforeRun := takeBeforeRun;
      scheduled := None;
      pendingExecutes := 0;
      ran := [];
    }

    /** `schedule`. Outside script the task runs at once (the tasks it schedules in turn are
        its own business); in script mode it replaces the waiting task, and only the first
        task of a batch queues a deferred `execute`. */
    method Schedule(t: TaskId)
      modifies this
      ensures !scriptMode ==>
        ran == old(ran) + [t] && scheduled == old(scheduled) && pendingExecutes == old(pendingExecutes)
      ensures scriptMode ==>
        && ran == old(ran) && scheduled == Some(t)
        && pendingExecutes == old(pendingExecutes) + (if old(scheduled).None? then 1 else 0)
      ensures old(Valid()) ==> Valid()
    {
      if !scriptMode {
        ran := ran + [t];
        return;
      }
      if scheduled == None {
        scheduled := Some(t);
        pendingExecutes := pendingExecutes + 1;
      } else {
        scheduled := Some(t);
      }
    }

    /** The calls to `schedule` a running task makes, one after another. */
    method ScheduleEach(tasks: seq<TaskId>)
      requires scriptMode
      modifies this
      ensures ran == old(ran)
      ensures tasks == [] ==> scheduled == old(scheduled) && pendingExecutes == old(pendingExecutes)
      ensures tasks != [] ==>
        && scheduled == Some(tasks[|tasks| - 1])
        && pendingExecutes == old(pendingExecutes) + (if old(scheduled).None? then 1 else 0)
    {
      for i := 0 to |tasks|
        invariant ran == old(ran)
        invariant i == 0 ==> scheduled == old(scheduled) && pendingExecutes == old(pendingExecutes)
        invariant i > 0 ==>
          && scheduled == Some(tasks[i - 1])
          && pendingExecutes == old(pendingExecutes) + (if old(scheduled).None? then 1 else 0)
      {
        Schedule(tasks[i]);
      }
    }

    /** A deferred `execute` runs: it runs the waiting task, if any, which schedules `spawned`
        on this scheduler while it runs. As written, the slot is cleared after the task
        returns, which drops what the task scheduled: no `execute` was queued for it, since
        the slot was still full when it was scheduled. */
    method Execute(spawned: seq<TaskId>)
      requires Valid() && pendingExecutes > 0
      modifies this
      ensures Valid()
      ensures ran == old(ran) + [old(scheduled).value]
      ensures !takeBeforeRun ==> scheduled == None
      ensures takeBeforeRun && spawned == [] ==> scheduled == None
      ensures takeBeforeRun && spawned != [] ==> scheduled == Some(spawned[|spawned| - 1])
    {
      pendingExecutes := pendingExecutes - 1;
      if takeBeforeRun {
        var task := scheduled;
        scheduled := None;
        if task != None {
          ran := ran + [task.value];
          ScheduleEach(spawned);
        }
      } else {
        if scheduled != None {
          ran := ran + [scheduled.value];
          ScheduleEach(spawned);
        }
        scheduled := None;
      }
    }
  }

  /** Tasks scheduled in one turn of the event loop collapse into the last one. */
  method DebounceRunsLast() returns (s: DebouncingEventLoopScheduler)
    ensures s.ran == [2] && s.scheduled == None && s.pendingExecutes == 0
  {
    s := new DebouncingEventLoopScheduler(true, false);
    s.Schedule(1);
    s.Schedule(2);
    s.Execute([]);
  }

  /** A task that schedules its successor while it runs (the next slice of an incremental
      computation). As written the successor is never run and nothing is left to run it; with
      the task taken out of the slot first, the next `execute` runs it. */
  method SuccessorScheduledWhileRunning(takeBeforeRun: bool) returns (s: DebouncingEventLoopScheduler)
    ensures !takeBeforeRun ==> s.ran == [0] && s.scheduled == None && s.pendingExecutes == 0
    ensures takeBeforeRun ==> s.ran == [0, 1] && s.scheduled == None && s.pendingExecutes == 0
  {
    s := new DebouncingEventLoopScheduler(true, takeBeforeRun);
    s.Schedule(0);
    s.Execute([1]);
    if s.pendingExecutes > 0 {
      s.Execute([]);
    }
  }
}
