/**
 * OptimisticObservableWithTimeout: like OptimisticObservable, but a source that stays loading
 * for the timeout makes the node go loading too. The GWT `Timer` is two flags (created,
 * running); its expiry is the `OnTimeout` step.
 */
module OptimisticTimeoutObservables {
  import opened Wrappers
  import opened Observables

  /** What the source listener does. */
  datatype TimeoutStep = CancelAndFire | Fire | StartTimer | Wait | Nothing

  function TimeoutReaction<T(==)>(cached: Option<T>, incoming: Option<T>, running: bool): (r: TimeoutStep)
    ensures r == CancelAndFire || r == Fire <==> incoming.Some? && incoming != cached
    ensures r == CancelAndFire ==> running
    ensures r == StartTimer <==> incoming.None? && !running
    ensures r == Wait <==> incoming.None? && running
  {
    if incoming.Some? then
      (if incoming == cached then Nothing else if running then CancelAndFire else Fire)
    else if running then Wait
    else StartTimer
  }

  class OptimisticObservableWithTimeout<T(==)> {
    const node: Observable<T>
    var subscription: bool
    var timerCreated: bool
    var timerRunning: bool

    ghost predicate Valid()
      reads this, node
    {
      !node.connecting && (subscription <==> node.observers != []) &&
      (node.observers != [] ==> timerCreated) && (timerRunning ==> timerCreated)
    }

    constructor (default: Option<T>)
      ensures Valid() && fresh(node)
      ensures node.cached == default && node.observers == [] && node.log == []
      ensures !subscription && !timerCreated && !timerRunning
    {
      node := new Observable(default);
      subscription := false;
      timerCreated := false;
      timerRunning := false;
    }

    /** `onValueChanged`. */
    method OnSourceChange(v: Option<T>) returns (r: Computation<()>)
      modifies this`timerRunning, node
      ensures var step := TimeoutReaction(old(node.cached), v, old(timerCreated && timerRunning));
        && r == (if v.None? && !timerCreated then Threw else Value(()))
        && node.cached == (if step == CancelAndFire || step == Fire then v else old(node.cached))
        && timerRunning == (if step == CancelAndFire then false
                            else if step == StartTimer && timerCreated then true
                            else old(timerRunning))
      ensures node.log == FireLog(old(node.log), old(node.cached), node.connecting, node.observers, node.cached)
      ensures node.observers == old(node.observers) && node.connecting == old(node.connecting)
    {
      r := Value(());
      if v != None {
        if v != node.cached {
          if timerCreated && timerRunning {
            timerRunning := false;
          }
          node.FireChange(v);
        }
      } else {
        if !timerCreated {
          return Threw;
        }
        if !timerRunning {
          timerRunning := true;
        }
      }
    }

    /** The timer expires: the node gives up being optimistic and fires loading. */
    method OnTimeout()
      requires timerRunning
      modifies this`timerRunning, node
      ensures !timerRunning && node.cached == None
      ensures node.log == FireLog(old(node.log), old(node.cached), node.connecting, node.observers, None)
      ensures node.observers == old(node.observers) && node.connecting == old(node.connecting)
    {
      timerRunning := false;
      node.FireChange(None);
    }

    /** `onConnect`: create the timer on the first connection only, then subscribe. */
    method OnConnect(initial: Option<T>)
      modifies this, node
      requires timerRunning ==> timerCreated
      ensures timerCreated && subscription
      ensures var step := TimeoutReaction(old(node.cached), initial, old(timerRunning));
        && node.cached == (if step == CancelAndFire || step == Fire then initial else old(node.cached))
        && timerRunning == (if step == CancelAndFire then false else if step == StartTimer then true else old(timerRunning))
      ensures node.connecting ==> node.log == old(node.log)
      ensures node.observers == old(node.observers) && node.connecting == old(node.connecting)
    {
      if !timerCreated {
        timerCreated := true;
      }
      var _ := OnSourceChange(initial);
      subscription := true;
    }

    /** `onDisconnect`: asserts and releases the subscription; a running timer keeps running. */
    method OnDisconnect() returns (r: Computation<()>)
      modifies this`subscription
      ensures !subscription
      ensures r == (if old(subscription) then Value(()) else Threw)
    {
      if !subscription {
        return Threw;
      }
      subscription := false;
      r := Value(());
    }

    method Subscribe(o: ObserverId, initial: Option<T>)
      requires Valid()
      modifies this, node
      ensures Valid() && timerCreated
      ensures node.observers == old(node.observers) + [o]
      ensures old(node.observers) != [] ==> node.cached == old(node.cached) && timerRunning == old(timerRunning)
      ensures old(node.observers) == [] ==> var step := TimeoutReaction(old(node.cached), initial, old(timerRunning));
        && node.cached == (if step == CancelAndFire || step == Fire then initial else old(node.cached))
        && timerRunning == (if step == CancelAndFire then false else if step == StartTimer then true else old(timerRunning))
      ensures node.log == old(node.log) + [Notice(o, node.cached)]
    {
      var first := node.BeginSubscribe();
      if first {
        OnConnect(initial);
        node.EndConnect();
      }
      node.Attach(o);
    }

    method Unsubscribe(o: ObserverId) returns (outcome: Unsubscribed)
      requires Valid()
      modifies this, node
      ensures Valid()
      ensures o in old(node.observers) ==> outcome == Removed(node.observers == [])
      ensures o !in old(node.observers) ==> outcome == AlreadyUnsubscribed
      ensures node.observers == RemoveFirst(old(node.observers), o)
      ensures node.cached == old(node.cached) && node.log == old(node.log)
      ensures timerRunning == old(timerRunning) && timerCreated == old(timerCreated)
    {
      outcome := node.Detach(o);
      if outcome == Removed(true) {
        var _ := OnDisconnect();
      }
    }
  }

  /** A source that reloads within the timeout is invisible; one that stays loading until the
      timer fires makes the node go loading. */
  method TimeoutTrace() returns (log: seq<Notice<int>>)
    ensures log == [Notice(7, Some(1)), Notice(7, Some(2)), Notice(7, None)]
  {
    var node: OptimisticObservableWithTimeout<int> := new OptimisticObservableWithTimeout(None);
    node.Subscribe(7, Some(1));
    var r := node.OnSourceChange(None);
    r := node.OnSourceChange(Some(2));
    r := node.OnSourceChange(None);
    node.OnTimeout();
    log := node.node.log;
  }
}
