/**
 * CachedObservable (`cacheIfEqual`/`cache(predicate)`): forwards its source, except that a loaded
 * value the cache predicate calls the same as the current one is swallowed.
 */
module CachedObservables {
  import opened Wrappers
  import opened Observables

  /** Whether the source listener forwards `incoming` to a node holding `cached`. */
  predicate CachedForwards<T>(cached: Option<T>, incoming: Option<T>, isSame: (T, T) -> bool)
  {
    match (cached, incoming)
    case (None, None) => false
    case (None, Some(_)) => true
    case (Some(_), None) => true
    case (Some(c), Some(n)) => !isSame(c, n)
  }

  /** Loading is never swallowed once loaded, loading never repeats, a first value always
      passes, and loaded-to-loaded passes exactly when the predicate says the values differ. */
  lemma CachedForwardsCases<T>(cached: Option<T>, incoming: Option<T>, isSame: (T, T) -> bool)
    ensures cached.None? ==> (CachedForwards(cached, incoming, isSame) <==> incoming.Some?)
    ensures cached.Some? && incoming.None? ==> CachedForwards(cached, incoming, isSame)
    ensures cached.Some? && incoming.Some? ==>
      (CachedForwards(cached, incoming, isSame) <==> !isSame(cached.value, incoming.value))
  {
  }

  /** With a reflexive predicate (equals, or reference identity) the listener never forwards the
      value the node already holds, so every forward is a real change of slot. */
  lemma {:induction false} CachedForwardIsChange<T>(cached: Option<T>, incoming: Option<T>, isSame: (T, T) -> bool)
    requires forall x :: isSame(x, x)
    requires CachedForwards(cached, incoming, isSame)
    ensures cached != incoming
  {
    if cached.Some? {
      assert isSame(cached.value, cached.value);
    }
  }

  class CachedObservable<T(==)> {
    const node: Observable<T>
    const isSame: (T, T) -> bool
    var sourceSubscribed: bool

    ghost predicate Valid()
      reads this, node
    {
      !node.connecting && (sourceSubscribed <==> node.observers != [])
    }

    constructor (isSame: (T, T) -> bool)
      ensures Valid() && fresh(node) && this.isSame == isSame
      ensures node.cached == None && node.observers == [] && node.log == [] && !sourceSubscribed
    {
      node := new Observable(None);
      this.isSame := isSame;
      sourceSubscribed := false;
    }

    /** The source listener. */
    method OnSourceChange(v: Option<T>)
      modifies node
      ensures node.cached == (if CachedForwards(old(node.cached), v, isSame) then v else old(node.cached))
      ensures node.log == (if CachedForwards(old(node.cached), v, isSame)
        then FireLog(old(node.log), old(node.cached), node.connecting, node.observers, v) else old(node.log))
      ensures node.observers == old(node.observers) && node.connecting == old(node.connecting)
    {
      if node.cached == None {
        if v != None {
          node.FireChange(v);
        }
      } else if v == None {
        node.FireChange(v);
      } else if !isSame(node.cached.value, v.value) {
        node.FireChange(v);
      }
    }

    /** `onConnect`: subscribe; the source's synchronous slot goes through the listener. */
    method OnConnect(initial: Option<T>)
      requires !sourceSubscribed
      modifies this, node
      ensures sourceSubscribed
      ensures node.cached == (if CachedForwards(old(node.cached), initial, isSame) then initial else old(node.cached))
      ensures node.connecting == old(node.connecting) && node.observers == old(node.observers)
      ensures node.connecting ==> node.log == old(node.log)
    {
      OnSourceChange(initial);
      sourceSubscribed := true;
    }

    /** `onDisconnect`: asserts that a subscription is held and releases it; the value is kept. */
    method OnDisconnect() returns (r: Computation<()>)
      modifies this
      ensures old(sourceSubscribed) ==> r == Value(()) && !sourceSubscribed
      ensures !old(sourceSubscribed) ==> r == Threw && !sourceSubscribed
    {
      if !sourceSubscribed {
        return Threw;
      }
      sourceSubscribed := false;
      r := Value(());
    }

    method Subscribe(o: ObserverId, initial: Option<T>)
      requires Valid()
      modifies this, node
      ensures Valid()
      ensures node.observers == old(node.observers) + [o]
      ensures old(node.observers) == [] ==>
        node.cached == (if CachedForwards(old(node.cached), initial, isSame) then initial else old(node.cached))
      ensures old(node.observers) != [] ==> node.cached == old(node.cached)
      ensures node.log == old(node.log) + [Notice(o, node.cached)]
    {
      var first := node.BeginSubscribe();
      if first {
        OnConnect(initial);
        node.EndConnect();
      }
      node.Attach(o);
    }

    method Unsubscribe(o: ObserverId) returns (outcome: Unsubscribed)
      requires Valid()
      modifies this, node
      ensures Valid()
      ensures o in old(node.observers) ==> outcome == Removed(node.observers == [])
      ensures o !in old(node.observers) ==> outcome == AlreadyUnsubscribed
      ensures node.observers == RemoveFirst(old(node.observers), o)
      ensures node.cached == old(node.cached) && node.log == old(node.log)
    {
      outcome := node.Detach(o);
      if outcome == Removed(true) {
        var _ := OnDisconnect();
      }
    }
  }

  /** ObservableTest.caching: `transform(x -> x % 10).cacheIfEqual()` over inputs 2, 22 and 301;
      the second input maps to an equal value and is swallowed. */
  method CachingTrace() returns (log: seq<Notice<int>>)
    ensures log == [Notice(7, None), Notice(7, Some(2)), Notice(7, Some(1))]
  {
    var cached: CachedObservable<int> := new CachedObservable((x: int, y: int) => x == y);
    cached.Subscribe(7, None);
    cached.OnSourceChange(Some(2 % 10));
    cached.OnSourceChange(Some(22 % 10));
    cached.OnSourceChange(Some(301 % 10));
    log := cached.node.log;
  }
}
