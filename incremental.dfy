/**
 * IncrementalObservable: runs an incremental task one slice at a time through a queueing
 * scheduler (slices are identical closures, so the scheduler's queue is a count), firing each
 * partial result. The task is given by the result of its n-th `execute()` and by whether it is
 * done after n executions.
 *
 * `singleChain` selects the corrected `onConnect`, which does not schedule a slice while one is
 * still queued; with `singleChain` false the node behaves as written in the source.
 */
module IncrementalObservables {
  import opened Wrappers
  import opened Observables

  class IncrementalObservable<T(==)> {
    const node: Observable<T>
    const results: nat -> Option<T>
    const doneAfter: nat -> bool
    const singleChain: bool
    /** Calls of `task.execute()` so far. */
    var executed: nat
    var completed: bool
    /** Slices of this node waiting in the scheduler's queue. */
    var queued: nat

    ghost predicate Valid()
      reads this, node
    {
      !node.connecting &&
      (singleChain ==> queued <= 1 && (completed ==> queued == 0))
    }

    constructor (results: nat -> Option<T>, doneAfter: nat -> bool, singleChain: bool)
      ensures Valid() && fresh(node)
      ensures this.results == results && this.doneAfter == doneAfter && this.singleChain == singleChain
      ensures node.cached == None && node.observers == [] && node.log == []
      ensures executed == 0 && !completed && queued == 0
    {
      node := new Observable(None);
      this.results := results;
      this.doneAfter := doneAfter;
      this.singleChain := singleChain;
      executed := 0;
      completed := false;
      queued := 0;
    }

    /** `onConnect`: schedule a slice unless the task is complete. */
    method OnConnect()
      modifies this`queued
      ensures queued == old(queued) + (if completed || (singleChain && old(queued) > 0) then 0 else 1)
    {
      if !completed && !(singleChain && queued > 0) {
        queued := queued + 1;
      }
    }

    /** One queued slice runs: nothing while neither connected nor connecting; otherwise execute
        once, fire the (possibly partial) result, then complete or schedule the next slice. */
    method RunSlice()
      requires queued > 0
      requires singleChain ==> queued <= 1 && !completed
      modifies this`executed, this`completed, this`queued, node
      ensures var live := old(node.observers) != [] || old(node.connecting);
        && executed == old(executed) + (if live then 1 else 0)
        && (live ==>
              node.cached == results(old(executed)) &&
              node.log == FireLog(old(node.log), old(node.cached), node.connecting, node.observers, node.cached))
        && (!live ==> node.cached == old(node.cached) && node.log == old(node.log))
        && completed == (old(completed) || (live && doneAfter(executed)))
        && queued == old(queued) - 1 + (if live && !doneAfter(executed) then 1 else 0)
      ensures singleChain ==> queued <= 1 && (completed ==> queued == 0)
      ensures node.observers == old(node.observers) && node.connecting == old(node.connecting)
    {
      queued := queued - 1;
      if !node.IsConnected() && !node.connecting {
        return;
      }
      var r := results(executed);
      executed := executed + 1;
      node.FireChange(r);
      if doneAfter(executed) {
        completed := true;
      } else {
        queued := queued + 1;
      }
    }

    method Subscribe(o: ObserverId)
      requires Valid()
      modifies this`queued, node
      ensures Valid()
      ensures queued == old(queued) +
        (if old(node.observers) == [] && !completed && !(singleChain && old(queued) > 0) then 1 else 0)
      ensures node.cached == old(node.cached)
      ensures node.observers == old(node.observers) + [o]
      ensures node.log == old(node.log) + [Notice(o, node.cached)]
    {
      var first := node.BeginSubscribe();
      if first {
        OnConnect();
        node.EndConnect();
      }
      node.Attach(o);
    }

    method Unsubscribe(o: ObserverId) returns (outcome: Unsubscribed)
      requires Valid()
      modifies node
      ensures Valid()
      ensures o in old(node.observers) ==> outcome == Removed(node.observers == [])
      ensures o !in old(node.observers) ==> outcome == AlreadyUnsubscribed
      ensures node.observers == RemoveFirst(old(node.observers), o)
      ensures node.cached == old(node.cached) && node.log == old(node.log)
    {
      outcome := node.Detach(o);
    }
  }

  /** The test task `Adder(3)`: the n-th execution returns n + 1; done after 3 executions. */
  function AdderResult(n: nat): Option<int> { Some(n + 1) }
  function AdderDone(n: nat): bool { n == 3 }

  /** IncrementalObservableTest.test: every live slice fires its partial result, and the fourth
      round finds the task complete with nothing left queued. */
  method IncrementalTrace() returns (log: seq<Notice<int>>, completed: bool, queued: nat)
    ensures log == [Notice(7, None), Notice(7, Some(1)), Notice(7, Some(2)), Notice(7, Some(3))]
    ensures completed && queued == 0
  {
    var node: IncrementalObservable<int> := new IncrementalObservable(AdderResult, AdderDone, false);
    node.Subscribe(7);
    node.RunSlice();
    node.RunSlice();
    node.RunSlice();
    log, completed, queued := node.node.log, node.completed, node.queued;
  }

  /** IncrementalObservableTest.testCancellation: after the last observer leaves, the queued
      slice runs without executing and the chain ends. */
  method CancellationTrace() returns (executed: nat, queued: nat)
    ensures executed == 1 && queued == 0
  {
    var node: IncrementalObservable<int> := new IncrementalObservable(AdderResult, AdderDone, false);
    node.Subscribe(7);
    node.RunSlice();
    var outcome := node.Unsubscribe(7);
    assert RemoveFirst([7], 7) == [];
    node.RunSlice();
    executed, queued := node.executed, node.queued;
  }

  /** As written: unsubscribing and resubscribing before the queued slice runs leaves two slices
      queued, so one scheduler round executes the task twice and two chains keep running; here
      `Adder(3)` is executed a fourth time after completing, and still schedules more. */
  method ReconnectDuplicatesSlices() returns (executed: nat, completed: bool, queued: nat)
    ensures executed == 4 && completed && queued == 1
  {
    var node: IncrementalObservable<int> := new IncrementalObservable(AdderResult, AdderDone, false);
    node.Subscribe(7);
    var outcome := node.Unsubscribe(7);
    assert RemoveFirst([7], 7) == [];
    assert node.node.observers == [] && node.queued == 1 && node.executed == 0;
    node.Subscribe(8);
    assert node.queued == 2 && node.executed == 0 && node.node.observers == [8];
    node.RunSlice();
    assert node.queued == 2 && node.executed == 1 && !node.completed;
    node.RunSlice();
    assert node.queued == 2 && node.executed == 2 && !node.completed;
    node.RunSlice();
    assert node.queued == 1 && node.executed == 3 && node.completed;
    node.RunSlice();
    executed, completed, queued := node.executed, node.completed, node.queued;
  }

  /** Corrected: the same reconnection keeps a single chain, which stops once complete. */
  method ReconnectKeepsOneChain() returns (executed: nat, completed: bool, queued: nat)
    ensures executed == 3 && completed && queued == 0
  {
    var node: IncrementalObservable<int> := new IncrementalObservable(AdderResult, AdderDone, true);
    node.Subscribe(7);
    var outcome := node.Unsubscribe(7);
    assert RemoveFirst([7], 7) == [];
    assert node.node.observers == [] && node.queued == 1 && node.executed == 0;
    node.Subscribe(8);
    assert node.queued == 1;
    node.RunSlice();
    node.RunSlice();
    node.RunSlice();
    executed, completed, queued := node.executed, node.completed, node.queued;
  }
}
