/**
 * OptimisticObservable: starts from a default slot and ignores its source going loading;
 * only a loaded value that differs by reference from the slot is fired.
 */
module OptimisticObservables {
  import opened Wrappers
  import opened Observables

  /** Whether the listener fires `incoming` on a node holding `cached`. */
  predicate OptimisticFires<T(==)>(cached: Option<T>, incoming: Option<T>)
  {
    incoming.Some? && incoming != cached
  }

  /** The slot after a sequence of source values: the last loaded value, or the default. */
  function OptimisticFold<T(==)>(cached: Option<T>, vs: seq<Option<T>>): Option<T>
    decreases |vs|
  {
    if vs == [] then cached
    else OptimisticFold(if OptimisticFires(cached, vs[0]) then vs[0] else cached, vs[1..])
  }

  /** The last loaded value of a sequence, if any. */
  function LastLoaded<T>(vs: seq<Option<T>>): (r: Option<T>)
    ensures r.Some? <==> exists i :: 0 <= i < |vs| && vs[i].Some?
    decreases |vs|
  {
    if vs == [] then None
    else if vs[|vs| - 1].Some? then vs[|vs| - 1]
    else LastLoaded(vs[..|vs| - 1])
  }

  lemma OptimisticFoldSnoc<T>(cached: Option<T>, vs: seq<Option<T>>, v: Option<T>)
    ensures OptimisticFold(cached, vs + [v]) == (if v.Some? then v else OptimisticFold(cached, vs))
    decreases |vs|
  {
    if vs == [] {
      assert [v][1..] == [];
    } else {
      assert (vs + [v])[1..] == vs[1..] + [v];
      OptimisticFoldSnoc(if OptimisticFires(cached, vs[0]) then vs[0] else cached, vs[1..], v);
    }
  }

  /** Loading never reaches the observers: the slot is always the last loaded source value, or
      the default if the source has not loaded yet. */
  lemma {:induction false} OptimisticHoldsLastLoaded<T>(default: Option<T>, vs: seq<Option<T>>)
    ensures OptimisticFold(default, vs) == (if LastLoaded(vs).Some? then LastLoaded(vs) else default)
    decreases |vs|
  {
    if vs != [] {
      var init := vs[..|vs| - 1];
      assert vs == init + [vs[|vs| - 1]];
      OptimisticFoldSnoc(default, init, vs[|vs| - 1]);
      OptimisticHoldsLastLoaded(default, init);
    }
  }

  class OptimisticObservable<T(==)> {
    const node: Observable<T>
    var subscription: bool

    ghost predicate Valid()
      reads this, node
    {
      !node.connecting && (subscription <==> node.observers != [])
    }

    /** The initial slot is the default, which may be loading. */
    constructor (default: Option<T>)
      ensures Valid() && fresh(node)
      ensures node.cached == default && node.observers == [] && node.log == [] && !subscription
    {
      node := new Observable(default);
      subscription := false;
    }

    method OnSourceChange(v: Option<T>)
      modifies node
      ensures node.cached == (if OptimisticFires(old(node.cached), v) then v else old(node.cached))
      ensures v.None? ==> node.log == old(node.log)
      ensures node.log == FireLog(old(node.log), old(node.cached), node.connecting, node.observers, node.cached)
      ensures node.observers == old(node.observers) && node.connecting == old(node.connecting)
    {
      if v != None && v != node.cached {
        node.FireChange(v);
      }
    }

    method OnConnect(initial: Option<T>)
      modifies this, node
      ensures subscription
      ensures node.cached == (if OptimisticFires(old(node.cached), initial) then initial else old(node.cached))
      ensures node.connecting ==> node.log == old(node.log)
      ensures node.observers == old(node.observers) && node.connecting == old(node.connecting)
    {
      OnSourceChange(initial);
      subscription := true;
    }

    /** `onDisconnect`: asserts a subscription is held, releases it; the slot is kept. */
    method OnDisconnect() returns (r: Computation<()>)
      modifies this
      ensures !subscription
      ensures r == (if old(subscription) then Value(()) else Threw)
    {
      if !subscription {
        return Threw;
      }
      subscription := false;
      r := Value(());
    }

    method Subscribe(o: ObserverId, initial: Option<T>)
      requires Valid()
      modifies this, node
      ensures Valid()
      ensures node.observers == old(node.observers) + [o]
      ensures node.cached == (if old(node.observers) == [] && OptimisticFires(old(node.cached), initial) then initial else old(node.cached))
      ensures node.log == old(node.log) + [Notice(o, node.cached)]
    {
      var first := node.BeginSubscribe();
      if first {
        OnConnect(initial);
        node.EndConnect();
      }
      node.Attach(o);
    }

    method Unsubscribe(o: ObserverId) returns (outcome: Unsubscribed)
      requires Valid()
      modifies this, node
      ensures Valid()
      ensures o in old(node.observers) ==> outcome == Removed(node.observers == [])
      ensures o !in old(node.observers) ==> outcome == AlreadyUnsubscribed
      ensures node.observers == RemoveFirst(old(node.observers), o)
      ensures node.cached == old(node.cached) && node.log == old(node.log)
    {
      outcome := node.Detach(o);
      if outcome == Removed(true) {
        var _ := OnDisconnect();
      }
    }
  }

  /** ObservableTest.optimistic: `transform(x -> x * 2).optimistic()` over inputs 2, loading, 80. */
  method OptimisticTrace() returns (log: seq<Notice<int>>, cached: Option<int>)
    ensures log == [Notice(7, None), Notice(7, Some(4)), Notice(7, Some(160))]
    ensures cached == Some(160)
  {
    var optimistic: OptimisticObservable<int> := new OptimisticObservable(None);
    optimistic.Subscribe(7, None);
    optimistic.OnSourceChange(Some(2 * 2));
    optimistic.OnSourceChange(None);
    optimistic.OnSourceChange(Some(80 * 2));
    var outcome := optimistic.Unsubscribe(7);
    log, cached := optimistic.node.log, optimistic.node.cached;
  }
}
