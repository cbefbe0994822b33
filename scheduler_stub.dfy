/**
 * SchedulerStub: the test scheduler that queues tasks and runs them when the test calls
 * `runAll`. A task is identified by a `TaskId`; what a task schedules while it runs is given
 * by `spawns`, the part of the task's behaviour the scheduler can see.
 */
module SchedulerStubs {
  type TaskId = nat

  /** The tasks queued while `tasks` run one after another, in the order they were scheduled. */
  function Spawned(tasks: seq<TaskId>, spawns: TaskId -> seq<TaskId>): seq<TaskId>
    decreases |tasks|
  {
    if tasks == [] then [] else Spawned(tasks[..|tasks| - 1], spawns) + spawns(tasks[|tasks| - 1])
  }

  /** Running two batches one after the other queues what each batch queues, in order. */
  lemma {:induction false} SpawnedAppend(a: seq<TaskId>, b: seq<TaskId>, spawns: TaskId -> seq<TaskId>)
    ensures Spawned(a + b, spawns) == Spawned(a, spawns) + Spawned(b, spawns)
    decreases |b|
  {
    if b == [] {
      assert a + b == a;
    } else {
      var init, last := b[..|b| - 1], b[|b| - 1];
      assert (a + b)[..|a + b| - 1] == a + init;
      assert (a + b)[|a + b| - 1] == last;
      SpawnedAppend(a, init, spawns);
      calc {
        Spawned(a + b, spawns);
        Spawned(a + init, spawns) + spawns(last);
        Spawned(a, spawns) + Spawned(init, spawns) + spawns(last);
        Spawned(a, spawns) + Spawned(b, spawns);
      }
    }
  }

  /** Tasks that schedule nothing leave the queue empty. */
  lemma {:induction false} SpawnedNothing(tasks: seq<TaskId>, spawns: TaskId -> seq<TaskId>)
    requires forall t :: t in tasks ==> spawns(t) == []
    ensures Spawned(tasks, spawns) == []
    decreases |tasks|
  {
    if tasks != [] {
      SpawnedNothing(tasks[..|tasks| - 1], spawns);
    }
  }

  /** Tasks that each re-schedule themselves once (the slices of an incremental computation)
      are queued again exactly as they were: each `runAll` advances every one of them by one
      step. */
  lemma {:induction false} SelfReschedulingRequeues(tasks: seq<TaskId>, spawns: TaskId -> seq<TaskId>)
    requires forall t :: t in tasks ==> spawns(t) == [t]
    ensures Spawned(tasks, spawns) == tasks
    decreases |tasks|
  {
    if tasks != [] {
      var init := tasks[..|tasks| - 1];
      SelfReschedulingRequeues(init, spawns);
      assert tasks == init + [tasks[|tasks| - 1]];
    }
  }

  class SchedulerStub {
    var queue: seq<TaskId>
    /** Every task run so far, in order. */
    var ran: seq<TaskId>

    constructor ()
      ensures queue == [] && ran == []
    {
      queue := [];
      ran := [];
    }

    /** `schedule`: queue the task; nothing runs yet. */
    method Schedule(t: TaskId)
      modifies this
      ensures queue == old(queue) + [t] && ran == old(ran)
    {
      queue := queue + [t];
    }

    /** `runAll`: run the tasks queued so far, in order. Tasks they schedule go to a fresh
        queue and wait for the next `runAll`. */
    method RunAll(spawns: TaskId -> seq<TaskId>)
      modifies this
      ensures ran == old(ran) + old(queue)
      ensures queue == Spawned(old(queue), spawns)
    {
      var toRun := queue;
      queue := [];
      for i := 0 to |toRun|
        invariant ran == old(ran) + toRun[..i]
        invariant queue == Spawned(toRun[..i], spawns)
      {
        assert toRun[..i + 1][..i] == toRun[..i];
        ran := ran + [toRun[i]];
        // the task runs and schedules `spawns(toRun[i])` on this scheduler
        queue := queue + spawns(toRun[i]);
        assert toRun[..i + 1] == toRun[..i] + [toRun[i]];
      }
      assert toRun[..|toRun|] == toRun;
    }
  }

  /** The incremental test's rhythm: one self-rescheduling slice runs once per `runAll`. */
  method IncrementalRhythm() returns (s: SchedulerStub)
    ensures s.ran == [0, 0, 0] && s.queue == [0]
  {
    var spawns := (t: TaskId) => [t];
    s := new SchedulerStub();
    s.Schedule(0);
    s.RunAll(spawns);
    SelfReschedulingRequeues([0], spawns);
    s.RunAll(spawns);
    s.RunAll(spawns);
  }
}
