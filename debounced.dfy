/**
 * DebouncedObservable: passes the source's connect-time slot straight through, then coalesces
 * later source values: each one replaces `pendingValue` and restarts a timer, and only the
 * timer's expiry fires. GWT timers are identified by `TimerId`; `armed` holds the scheduled
 * ones, including a timer orphaned by a disconnect.
 */
module DebouncedObservables {
  import opened Wrappers
  import opened Observables

  type TimerId = nat

  class DebouncedObservable<T(==)> {
    const node: Observable<T>
    var timer: Option<TimerId>
    var armed: set<TimerId>
    var nextTimer: TimerId
    var pending: Option<T>
    var sourceSubscription: bool

    ghost predicate Valid()
      reads this, node
    {
      !node.connecting && (sourceSubscription <==> node.observers != []) &&
      (timer.Some? ==> timer.value < nextTimer && node.observers != []) &&
      (forall t :: t in armed ==> t < nextTimer)
    }

    constructor ()
      ensures Valid() && fresh(node)
      ensures node.cached == None && node.observers == [] && node.log == []
      ensures timer == None && armed == {} && pending == None && !sourceSubscription
    {
      node := new Observable(None);
      timer := None;
      armed := {};
      nextTimer := 0;
      pending := None;
      sourceSubscription := false;
    }

    /** The source listener. */
    method OnSourceChange(v: Option<T>)
      requires timer.Some? ==> timer.value < nextTimer
      requires forall t :: t in armed ==> t < nextTimer
      modifies this`timer, this`armed, this`nextTimer, this`pending, node
      ensures timer.Some? ==> timer.value < nextTimer
      ensures forall t :: t in armed ==> t < nextTimer
      ensures node.connecting ==>
        node.cached == v && node.log == old(node.log) &&
        timer == old(timer) && armed == old(armed) && pending == old(pending) && nextTimer == old(nextTimer)
      ensures !node.connecting ==>
        node.cached == old(node.cached) && node.log == old(node.log) && pending == v &&
        timer == (if old(timer).None? then Some(old(nextTimer)) else old(timer)) &&
        nextTimer == old(nextTimer) + (if old(timer).None? then 1 else 0) &&
        armed == old(armed) + {timer.value}
      ensures node.observers == old(node.observers) && node.connecting == old(node.connecting)
    {
      if node.connecting {
        node.FireChange(v);
      } else {
        if timer == None {
          timer := Some(nextTimer);
          nextTimer := nextTimer + 1;
        }
        pending := v;
        // cancel a running timer, then schedule it again
        armed := armed - {timer.value};
        armed := armed + {timer.value};
      }
    }

    /** A burst of source values while connected: every value restarts the one timer and
        replaces the pending value, and nobody is told anything yet. */
    method ReceiveBurst(burst: seq<Option<T>>)
      requires burst != [] && !node.connecting
      requires timer.Some? ==> timer.value < nextTimer
      requires forall t :: t in armed ==> t < nextTimer
      modifies this`timer, this`armed, this`nextTimer, this`pending, node
      ensures pending == burst[|burst| - 1]
      ensures timer.Some? && (old(timer).Some? ==> timer == old(timer))
      ensures armed == old(armed) + {timer.value}
      ensures timer.value < nextTimer && forall t :: t in armed ==> t < nextTimer
      ensures node.cached == old(node.cached) && node.log == old(node.log)
      ensures node.observers == old(node.observers) && node.connecting == old(node.connecting)
    {
      OnSourceChange(burst[0]);
      for i := 1 to |burst|
        invariant pending == burst[i - 1]
        invariant timer.Some? && (old(timer).Some? ==> timer == old(timer))
        invariant armed == old(armed) + {timer.value}
        invariant timer.value < nextTimer && forall t :: t in armed ==> t < nextTimer
        invariant node.cached == old(node.cached) && node.log == old(node.log)
        invariant node.observers == old(node.observers) && node.connecting == old(node.connecting)
      {
        OnSourceChange(burst[i]);
      }
    }

    /** A burst followed by the timer's expiry: the observers are told the burst's last value
        once, and none of the earlier ones. */
    method BurstThenExpiry(burst: seq<Option<T>>)
      requires burst != [] && !node.connecting
      requires timer.Some? ==> timer.value < nextTimer
      requires forall t :: t in armed ==> t < nextTimer
      modifies this`timer, this`armed, this`nextTimer, this`pending, node
      ensures node.cached == burst[|burst| - 1]
      ensures node.log == FireLog(old(node.log), old(node.cached), false, old(node.observers), burst[|burst| - 1])
      ensures node.observers == old(node.observers) && node.connecting == old(node.connecting)
    {
      ReceiveBurst(burst);
      OnTimerFires(timer.value);
    }

    /** A scheduled timer expires: it fires the node's current pending value. */
    method OnTimerFires(t: TimerId)
      requires t in armed
      modifies this`armed, node
      ensures armed == old(armed) - {t}
      ensures node.cached == pending
      ensures node.log == FireLog(old(node.log), old(node.cached), node.connecting, node.observers, pending)
      ensures node.observers == old(node.observers) && node.connecting == old(node.connecting)
    {
      armed := armed - {t};
      node.FireChange(pending);
    }

    method OnConnect(initial: Option<T>)
      requires node.connecting && timer.None?
      requires forall t :: t in armed ==> t < nextTimer
      modifies this, node
      ensures sourceSubscription && node.cached == initial && node.log == old(node.log)
      ensures timer == None && armed == old(armed) && pending == old(pending) && nextTimer == old(nextTimer)
      ensures node.observers == old(node.observers) && node.connecting
    {
      OnSourceChange(initial);
      sourceSubscription := true;
    }

    /** `onDisconnect`: forget the slot, the pending value and the timer (a scheduled timer is not
        cancelled), and release the source. */
    method OnDisconnect()
      modifies this, node
      ensures node.cached == None && pending == None && timer == None && !sourceSubscription
      ensures armed == old(armed) && nextTimer == old(nextTimer)
      ensures node.log == old(node.log) && node.observers == old(node.observers) && node.connecting == old(node.connecting)
    {
      node.Overwrite(None);
      pending := None;
      timer := None;
      if sourceSubscription {
        sourceSubscription := false;
      }
    }

    method Subscribe(o: ObserverId, initial: Option<T>)
      requires Valid()
      modifies this, node
      ensures Valid()
      ensures node.cached == (if old(node.observers) == [] then initial else old(node.cached))
      ensures timer == old(timer) && armed == old(armed) && pending == old(pending)
      ensures node.observers == old(node.observers) + [o]
      ensures node.log == old(node.log) + [Notice(o, node.cached)]
    {
      var first := node.BeginSubscribe();
      if first {
        OnConnect(initial);
        node.EndConnect();
      }
      node.Attach(o);
    }

    method Unsubscribe(o: ObserverId) returns (outcome: Unsubscribed)
      requires Valid()
      modifies this, node
      ensures Valid()
      ensures o in old(node.observers) ==> outcome == Removed(node.observers == [])
      ensures o !in old(node.observers) ==> outcome == AlreadyUnsubscribed
      ensures node.observers == RemoveFirst(old(node.observers), o)
      ensures armed == old(armed) && node.log == old(node.log)
      ensures outcome == Removed(true) ==> node.cached == None && pending == None && timer == None
      ensures outcome != Removed(true) ==> node.cached == old(node.cached) && pending == old(pending) && timer == old(timer)
    {
      outcome := node.Detach(o);
      if outcome == Removed(true) {
        OnDisconnect();
      }
    }
  }

  /** Connect-time slot 1 passes straight through; the burst 2, 3, 4 is delivered as 4 alone. */
  method DebounceTrace() returns (log: seq<Notice<int>>)
    ensures log == [Notice(7, Some(1)), Notice(7, Some(4))]
  {
    var node: DebouncedObservable<int> := new DebouncedObservable();
    node.Subscribe(7, Some(1));
    node.OnSourceChange(Some(2));
    var t := node.timer.value;
    node.OnSourceChange(Some(3));
    node.OnSourceChange(Some(4));
    assert node.timer == Some(t) && node.pending == Some(4);
    node.OnTimerFires(t);
    log := node.node.log;
  }
}
