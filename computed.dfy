/**
 * ComputedObservable: an N-ary transform. Each argument has a value slot and a subscription
 * slot (fixed-size arrays); argument changes after connection schedule a recompute through
 * the node's scheduler, which either runs it at once (synchronous) or queues it.
 */
module ComputedObservables {
  import opened Wrappers
  import opened Observables

  /** Every argument slot holds a value. */
  predicate AllLoaded<A>(args: seq<Option<A>>)
  {
    forall i :: 0 <= i < |args| ==> args[i].Some?
  }

  /** What the argument listener does with one notification. */
  datatype ArgumentStep = RecordOnly | ClearAndFireLoading | StoreAndSchedule | Ignore

  function ArgumentReaction<A(==)>(connecting: bool, stored: Option<A>, incoming: Option<A>): (r: ArgumentStep)
    ensures connecting ==> r == RecordOnly
    ensures !connecting && incoming.None? ==> r == ClearAndFireLoading
    ensures !connecting && incoming.Some? ==> (r == StoreAndSchedule <==> incoming != stored)
    ensures !connecting && incoming.Some? ==> (r == Ignore <==> incoming == stored)
  {
    if connecting then RecordOnly
    else if incoming.None? then ClearAndFireLoading
    else if stored != incoming then StoreAndSchedule
    else Ignore
  }

  /** The reconnection test of `maybeRecompute`: every old and new argument is loaded and at least
      one differs by reference. */
  predicate ArgumentsChanged<A(==)>(before: seq<Option<A>>, after: seq<Option<A>>)
    requires |before| == |after|
  {
    AllLoaded(before) && AllLoaded(after) && exists k :: 0 <= k < |before| && before[k] != after[k]
  }

  /** `recompute` calls `compute` when the node holds a value, or else once every argument is loaded. */
  predicate CallsCompute<A, T>(cached: Option<T>, args: seq<Option<A>>)
  {
    cached.Some? || AllLoaded(args)
  }

  /** The slot `recompute` fires (a thrown exception fires loading); it fires nothing when it
      returns early, which leaves the slot as it was. */
  function Recomputed<A, T>(cached: Option<T>, args: seq<Option<A>>, compute: seq<Option<A>> -> Computation<T>): (r: Option<T>)
    ensures !CallsCompute(cached, args) ==> r == cached
    ensures CallsCompute(cached, args) && compute(args).Threw? ==> r.None?
    ensures CallsCompute(cached, args) && compute(args).Value? ==> r == Some(compute(args).value)
  {
    if !CallsCompute(cached, args) then cached
    else match compute(args)
      case Value(v) => Some(v)
      case Threw => None
  }

  /** The slot after `onConnect`: with a retained value, recompute only if the arguments changed;
      without one, recompute (which waits for every argument). */
  function ConnectedSlot<A(==), T>(cached: Option<T>, before: seq<Option<A>>, after: seq<Option<A>>,
                                   compute: seq<Option<A>> -> Computation<T>): Option<T>
    requires |before| == |after|
  {
    if cached.Some? then
      (if ArgumentsChanged(before, after) then Recomputed(cached, after, compute) else cached)
    else Recomputed(cached, after, compute)
  }

  /** How many times `onConnect` calls `compute`. */
  function ConnectComputeCalls<A(==), T>(cached: Option<T>, before: seq<Option<A>>, after: seq<Option<A>>): nat
    requires |before| == |after|
  {
    if cached.Some? && !ArgumentsChanged(before, after) then 0
    else if CallsCompute(cached, after) then 1
    else 0
  }

  /** Reconnecting with the same argument references keeps the retained value and never calls compute. */
  lemma {:induction false} ReconnectUnchangedKeepsValue<A, T>(cached: Option<T>, args: seq<Option<A>>,
                                                             compute: seq<Option<A>> -> Computation<T>)
    requires cached.Some?
    ensures !ArgumentsChanged(args, args)
    ensures ConnectedSlot(cached, args, args, compute) == cached
  {
  }

  /** While the node is loading, one loading argument is enough to keep `compute` from running. */
  lemma LoadingArgumentBlocksCompute<A, T>(args: seq<Option<A>>, k: nat, compute: seq<Option<A>> -> Computation<T>)
    requires k < |args| && args[k].None?
    ensures !CallsCompute<A, T>(None, args)
    ensures Recomputed(None, args, compute) == None
  {
  }

  class ComputedObservable<A(==), T(==)> {
    const node: Observable<T>
    const arity: nat
    const compute: seq<Option<A>> -> Computation<T>
    /** The scheduler runs tasks inline (`SynchronousScheduler`) or queues them. */
    const synchronous: bool
    const argumentValues: array<Option<A>>
    const subscriptions: array<bool>
    /** Recompute tasks handed to a queueing scheduler and not yet run. */
    var queuedRecomputes: nat
    /** How many times `compute` has been called. */
    var computeCalls: nat

    ghost predicate Valid()
      reads this, node, subscriptions
    {
      argumentValues.Length == arity && subscriptions.Length == arity &&
      !node.connecting &&
      (forall i :: 0 <= i < arity ==> subscriptions[i] == node.IsConnected()) &&
      (synchronous ==> queuedRecomputes == 0)
    }

    constructor (arity: nat, compute: seq<Option<A>> -> Computation<T>, synchronous: bool)
      ensures Valid() && fresh(node) && fresh(argumentValues) && fresh(subscriptions)
      ensures this.arity == arity && this.compute == compute && this.synchronous == synchronous
      ensures node.cached == None && node.observers == [] && node.log == []
      ensures argumentValues[..] == seq(arity, _ => None)
      ensures computeCalls == 0 && queuedRecomputes == 0
    {
      this.arity := arity;
      this.compute := compute;
      this.synchronous := synchronous;
      node := new Observable(None);
      argumentValues := new Option<A>[arity](_ => None);
      subscriptions := new bool[arity](_ => false);
      queuedRecomputes := 0;
      computeCalls := 0;
    }

    /** `recompute`: wait while loading and some argument is missing; otherwise compute and fire. */
    method Recompute()
      requires argumentValues.Length == arity
      modifies this`computeCalls, node
      ensures computeCalls == old(computeCalls) + (if CallsCompute(old(node.cached), argumentValues[..]) then 1 else 0)
      ensures node.cached == Recomputed(old(node.cached), argumentValues[..], compute)
      ensures node.log == FireLog(old(node.log), old(node.cached), node.connecting, node.observers, node.cached)
      ensures node.observers == old(node.observers) && node.connecting == old(node.connecting)
    {
      if node.cached == None {
        var i := 0;
        while i < arity
          invariant 0 <= i <= arity
          invariant forall k :: 0 <= k < i ==> argumentValues[k].Some?
        {
          if argumentValues[i] == None {
            return;
          }
          i := i + 1;
        }
      }
      computeCalls := computeCalls + 1;
      var result := compute(argumentValues[..]);
      var newResult := if result.Value? then Some(result.value) else None;
      node.FireChange(newResult);
    }

    /** `maybeRecompute`: on reconnection with a retained value, recompute only when every old and
        new argument is loaded and some argument reference changed. */
    method MaybeRecompute(oldValues: seq<Option<A>>)
      requires argumentValues.Length == arity == |oldValues|
      modifies this`computeCalls, node
      ensures var changed := ArgumentsChanged(oldValues, argumentValues[..]);
        computeCalls == old(computeCalls) + (if changed && CallsCompute(old(node.cached), argumentValues[..]) then 1 else 0) &&
        node.cached == (if changed then Recomputed(old(node.cached), argumentValues[..], compute) else old(node.cached))
      ensures node.log == FireLog(old(node.log), old(node.cached), node.connecting, node.observers, node.cached)
      ensures node.observers == old(node.observers) && node.connecting == old(node.connecting)
    {
      var changed := false;
      var i := 0;
      while i < arity
        invariant 0 <= i <= arity
        invariant forall k :: 0 <= k < i ==> oldValues[k].Some? && argumentValues[k].Some?
        invariant changed <==> exists k :: 0 <= k < i && oldValues[k] != argumentValues[k]
      {
        if oldValues[i] == None || argumentValues[i] == None {
          assert !AllLoaded(oldValues) || !AllLoaded(argumentValues[..]);
          return;
        }
        if oldValues[i] != argumentValues[i] {
          changed := true;
        }
        i := i + 1;
      }
      if changed {
        Recompute();
      }
    }

    /** `scheduler.schedule(recompute)`. */
    method ScheduleRecompute()
      requires argumentValues.Length == arity
      modifies this`computeCalls, this`queuedRecomputes, node
      ensures synchronous ==> (queuedRecomputes == old(queuedRecomputes) &&
        computeCalls == old(computeCalls) + (if CallsCompute(old(node.cached), argumentValues[..]) then 1 else 0) &&
        node.cached == Recomputed(old(node.cached), argumentValues[..], compute))
      ensures !synchronous ==> (queuedRecomputes == old(queuedRecomputes) + 1 &&
        computeCalls == old(computeCalls) && node.cached == old(node.cached))
      ensures node.log == FireLog(old(node.log), old(node.cached), node.connecting, node.observers, node.cached)
      ensures node.observers == old(node.observers) && node.connecting == old(node.connecting)
    {
      if synchronous {
        Recompute();
      } else {
        queuedRecomputes := queuedRecomputes + 1;
      }
    }

    /** A queued recompute task runs. */
    method RunQueuedRecompute()
      requires Valid() && queuedRecomputes > 0
      modifies this`computeCalls, this`queuedRecomputes, node
      ensures Valid()
      ensures queuedRecomputes == old(queuedRecomputes) - 1
      ensures node.cached == Recomputed(old(node.cached), argumentValues[..], compute)
      ensures node.log == FireLog(old(node.log), old(node.cached), false, node.observers, node.cached)
      ensures node.observers == old(node.observers)
    {
      queuedRecomputes := queuedRecomputes - 1;
      Recompute();
    }

    /** `ArgumentListener.onChange` for argument `i`. */
    method OnArgumentChange(i: nat, v: Option<A>)
      requires argumentValues.Length == arity && i < arity
      modifies this`computeCalls, this`queuedRecomputes, node, argumentValues
      ensures var step := ArgumentReaction(old(node.connecting), old(argumentValues[i]), v);
        && argumentValues[..] == (if step == Ignore then old(argumentValues[..]) else old(argumentValues[..])[i := v])
        && (step == RecordOnly || step == Ignore ==>
              node.cached == old(node.cached) && node.log == old(node.log) &&
              computeCalls == old(computeCalls) && queuedRecomputes == old(queuedRecomputes))
        && (step == ClearAndFireLoading ==>
              node.cached == None && computeCalls == old(computeCalls) && queuedRecomputes == old(queuedRecomputes))
        && (step == StoreAndSchedule && synchronous ==>
              node.cached == Recomputed(old(node.cached), argumentValues[..], compute) &&
              queuedRecomputes == old(queuedRecomputes) &&
              computeCalls == old(computeCalls) + (if CallsCompute(old(node.cached), argumentValues[..]) then 1 else 0))
        && (step == StoreAndSchedule && !synchronous ==>
              node.cached == old(node.cached) && queuedRecomputes == old(queuedRecomputes) + 1 &&
              computeCalls == old(computeCalls))
      ensures node.log == FireLog(old(node.log), old(node.cached), node.connecting, node.observers, node.cached)
      ensures node.observers == old(node.observers) && node.connecting == old(node.connecting)
    {
      if node.connecting {
        argumentValues[i] := v;
        return;
      }
      var oldValue := argumentValues[i];
      if v == None {
        argumentValues[i] := None;
        node.FireChange(None);
      } else if oldValue != v {
        argumentValues[i] := v;
        ScheduleRecompute();
      }
    }

    /** `onConnect`: subscribe every argument (each delivers its current slot at once, which is only
        recorded since the node is connecting), then recompute or check for changed arguments. */
    method OnConnect(initial: seq<Option<A>>)
      requires argumentValues.Length == arity == subscriptions.Length == |initial|
      requires node.connecting
      requires forall k :: 0 <= k < arity ==> !subscriptions[k]
      modifies this`computeCalls, this`queuedRecomputes, node, argumentValues, subscriptions
      ensures argumentValues[..] == initial
      ensures forall k :: 0 <= k < arity ==> subscriptions[k]
      ensures node.cached == ConnectedSlot(old(node.cached), old(argumentValues[..]), initial, compute)
      ensures computeCalls == old(computeCalls) + ConnectComputeCalls(old(node.cached), old(argumentValues[..]), initial)
      ensures node.log == old(node.log) && node.observers == old(node.observers) && node.connecting
      ensures queuedRecomputes == old(queuedRecomputes)
    {
      var oldArguments: Option<seq<Option<A>>> := None;
      if node.cached != None {
        oldArguments := Some(argumentValues[..]);
      }
      var i := 0;
      while i < arity
        invariant 0 <= i <= arity
        invariant forall k :: 0 <= k < i ==> subscriptions[k] && argumentValues[k] == initial[k]
        invariant forall k :: i <= k < arity ==> !subscriptions[k] && argumentValues[k] == old(argumentValues[k])
        invariant node.cached == old(node.cached) && node.log == old(node.log)
        invariant node.observers == old(node.observers) && node.connecting
        invariant computeCalls == old(computeCalls) && queuedRecomputes == old(queuedRecomputes)
      {
        subscriptions[i] := true;
        OnArgumentChange(i, initial[i]);
        i := i + 1;
      }
      assert argumentValues[..] == initial;
      if oldArguments.Some? {
        MaybeRecompute(oldArguments.value);
      } else {
        Recompute();
      }
    }

    /** `onDisconnect`: release every argument subscription; argument values and the cached value are kept. */
    method OnDisconnect()
      requires subscriptions.Length == arity
      requires forall k :: 0 <= k < arity ==> subscriptions[k]
      modifies subscriptions
      ensures forall k :: 0 <= k < arity ==> !subscriptions[k]
    {
      var i := 0;
      while i < arity
        invariant 0 <= i <= arity
        invariant forall k :: 0 <= k < i ==> !subscriptions[k]
        invariant forall k :: i <= k < arity ==> subscriptions[k]
      {
        subscriptions[i] := false;
        i := i + 1;
      }
    }

    method Subscribe(o: ObserverId, initial: seq<Option<A>>)
      requires Valid() && |initial| == arity
      modifies this`computeCalls, this`queuedRecomputes, node, argumentValues, subscriptions
      ensures Valid()
      ensures node.observers == old(node.observers) + [o]
      ensures old(node.observers) == [] ==>
        argumentValues[..] == initial &&
        node.cached == ConnectedSlot(old(node.cached), old(argumentValues[..]), initial, compute) &&
        computeCalls == old(computeCalls) + ConnectComputeCalls(old(node.cached), old(argumentValues[..]), initial)
      ensures old(node.observers) != [] ==>
        node.cached == old(node.cached) && argumentValues[..] == old(argumentValues[..]) && computeCalls == old(computeCalls)
      ensures node.log == old(node.log) + [Notice(o, node.cached)]
    {
      var first := node.BeginSubscribe();
      if first {
        OnConnect(initial);
        node.EndConnect();
      }
      node.Attach(o);
    }

    method Unsubscribe(o: ObserverId) returns (outcome: Unsubscribed)
      requires Valid()
      modifies node, subscriptions
      ensures Valid()
      ensures o in old(node.observers) ==> outcome == Removed(node.observers == [])
      ensures o !in old(node.observers) ==> outcome == AlreadyUnsubscribed
      ensures node.observers == RemoveFirst(old(node.observers), o)
      ensures node.cached == old(node.cached) && node.log == old(node.log)
      ensures node.observers == [] ==> forall k :: 0 <= k < arity ==> !subscriptions[k]
    {
      outcome := node.Detach(o);
      if outcome == Removed(true) {
        OnDisconnect();
      }
    }
  }

  /** The function of the binary-function test: the sum of two loaded arguments. */
  function SumOfTwo(args: seq<Option<int>>): Computation<int>
  {
    if |args| == 2 && args[0].Some? && args[1].Some? then Value(args[0].value + args[1].value) else Threw
  }

  /** ObservableTest.binaryFunction: `transform(a, b, +)` stays loading until both arguments
      are loaded, computes once, and unsubscribing releases both arguments. */
  method BinaryFunctionTrace() returns (log: seq<Notice<int>>, calls: nat, stillSubscribed: bool)
    ensures log == [Notice(7, None), Notice(7, Some(5))]
    ensures calls == 1 && !stillSubscribed
  {
    var sum: ComputedObservable<int, int> := new ComputedObservable(2, SumOfTwo, true);
    sum.Subscribe(7, [None, None]);
    assert !AllLoaded<int>([None, None]);
    assert sum.node.cached == None && sum.node.log == [Notice(7, None)];
    sum.OnArgumentChange(0, Some(1));
    assert sum.argumentValues[..] == [Some(1), None];
    assert !AllLoaded(sum.argumentValues[..]);
    assert sum.node.cached == None && sum.node.log == [Notice(7, None)] && sum.computeCalls == 0;
    sum.OnArgumentChange(1, Some(4));
    assert sum.argumentValues[..] == [Some(1), Some(4)];
    assert AllLoaded(sum.argumentValues[..]);
    assert sum.node.cached == Some(5) && sum.computeCalls == 1;
    assert sum.node.observers == [7];
    assert sum.node.log == [Notice(7, None), Notice(7, Some(5))];
    var outcome := sum.Unsubscribe(7);
    log, calls := sum.node.log, sum.computeCalls;
    stillSubscribed := sum.subscriptions[0] || sum.subscriptions[1];
  }
}
