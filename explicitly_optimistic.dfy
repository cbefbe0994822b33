/**
 * ExplicitlyOptimisticObservable: wraps each loaded source value in a fresh `MaybeStale`; when
 * the source goes loading, it re-fires the held value marked stale instead of going loading.
 * `nextRef` is the allocator of `MaybeStale` instances.
 */
module ExplicitlyOptimisticObservables {
  import opened Wrappers
  import opened Observables
  import opened MaybeStales

  /** The slot fired for a source value (allocating under `newRef`), or `None` for "fire nothing". */
  function ExplicitSlot<T>(cached: Option<MaybeStale<T>>, v: Option<T>, newRef: Ref): (r: Option<Option<MaybeStale<T>>>)
    ensures v.Some? ==> r == Some(Some(MaybeStale(newRef, v.value, false)))
    ensures v.None? && cached.Some? ==> r == Some(Some(Outdated(cached.value, newRef)))
    ensures v.None? && cached.None? ==> r.None?
    ensures r.Some? ==> r.value.Some?
  {
    if v.Some? then Some(Some(MaybeStale(newRef, v.value, false)))
    else if cached.Some? then Some(Some(Outdated(cached.value, newRef)))
    else None
  }

  /** The slot after the listener handles `v`. */
  function ExplicitNext<T>(cached: Option<MaybeStale<T>>, v: Option<T>, newRef: Ref): Option<MaybeStale<T>>
  {
    match ExplicitSlot(cached, v, newRef)
    case Some(s) => s
    case None => cached
  }

  /** Whether handling `v` allocates a new `MaybeStale`. */
  predicate Allocates<T>(cached: Option<MaybeStale<T>>, v: Option<T>)
  {
    v.Some? || (cached.Some? && !cached.value.stale)
  }

  /** Once a value has been seen the node never goes loading again, and every loaded source
      value is delivered fresh. */
  lemma {:induction false} ExplicitNeverLoadingAgain<T>(cached: Option<MaybeStale<T>>, v: Option<T>, newRef: Ref)
    ensures cached.Some? ==> ExplicitNext(cached, v, newRef).Some?
    ensures v.Some? ==> ExplicitNext(cached, v, newRef) == Some(MaybeStale(newRef, v.value, false))
    ensures cached.Some? && v.None? ==> ExplicitNext(cached, v, newRef).value.stale
  {
  }

  class ExplicitlyOptimisticObservable<T(==)> {
    const node: Observable<MaybeStale<T>>
    var subscription: bool
    /** The next reference a `new MaybeStale` receives. */
    var nextRef: Ref

    ghost predicate Valid()
      reads this, node
    {
      !node.connecting && (subscription <==> node.observers != []) &&
      (node.cached.Some? ==> node.cached.value.ref < nextRef)
    }

    constructor ()
      ensures Valid() && fresh(node)
      ensures node.cached == None && node.observers == [] && node.log == [] && !subscription && nextRef == 0
    {
      node := new Observable(None);
      subscription := false;
      nextRef := 0;
    }

    /** `maybeUpdateValue`. */
    method OnSourceChange(v: Option<T>)
      requires node.cached.Some? ==> node.cached.value.ref < nextRef
      modifies this`nextRef, node
      ensures node.cached.Some? ==> node.cached.value.ref < nextRef
      ensures node.cached == ExplicitNext(old(node.cached), v, old(nextRef))
      ensures nextRef == old(nextRef) + (if Allocates(old(node.cached), v) then 1 else 0)
      ensures v.None? && old(node.cached).None? ==> node.log == old(node.log)
      ensures node.log == FireLog(old(node.log), old(node.cached), node.connecting, node.observers, node.cached)
      ensures node.observers == old(node.observers) && node.connecting == old(node.connecting)
    {
      if v != None {
        var m := MaybeStale(nextRef, v.value, false);
        nextRef := nextRef + 1;
        node.FireChange(Some(m));
      } else if node.cached != None {
        var m := Outdated(node.cached.value, nextRef);
        if !node.cached.value.stale {
          nextRef := nextRef + 1;
        }
        node.FireChange(Some(m));
      }
    }

    method OnConnect(initial: Option<T>)
      requires node.cached.Some? ==> node.cached.value.ref < nextRef
      modifies this, node
      ensures subscription
      ensures node.cached.Some? ==> node.cached.value.ref < nextRef
      ensures node.cached == ExplicitNext(old(node.cached), initial, old(nextRef))
      ensures nextRef == old(nextRef) + (if Allocates(old(node.cached), initial) then 1 else 0)
      ensures node.connecting ==> node.log == old(node.log)
      ensures node.observers == old(node.observers) && node.connecting == old(node.connecting)
    {
      OnSourceChange(initial);
      subscription := true;
    }

    /** `onDisconnect`: the held value is replaced, without notification, by its stale version;
        then the asserted subscription is released. */
    method OnDisconnect() returns (r: Computation<()>)
      requires node.cached.Some? ==> node.cached.value.ref < nextRef
      modifies this, node
      ensures node.cached.Some? ==> node.cached.value.ref < nextRef
      ensures node.cached == (if old(node.cached).Some? then Some(Outdated(old(node.cached).value, old(nextRef))) else None)
      ensures !subscription && r == (if old(subscription) then Value(()) else Threw)
      ensures node.log == old(node.log) && node.observers == old(node.observers) && node.connecting == old(node.connecting)
    {
      if node.cached != None {
        var m := Outdated(node.cached.value, nextRef);
        if !node.cached.value.stale {
          nextRef := nextRef + 1;
        }
        node.Overwrite(Some(m));
      }
      if !subscription {
        return Threw;
      }
      subscription := false;
      r := Value(());
    }

    method Subscribe(o: ObserverId, initial: Option<T>)
      requires Valid()
      modifies this, node
      ensures Valid()
      ensures old(node.observers) == [] ==>
        node.cached == ExplicitNext(old(node.cached), initial, old(nextRef)) &&
        nextRef == old(nextRef) + (if Allocates(old(node.cached), initial) then 1 else 0)
      ensures old(node.observers) != [] ==> node.cached == old(node.cached) && nextRef == old(nextRef)
      ensures node.observers == old(node.observers) + [o]
      ensures node.log == old(node.log) + [Notice(o, node.cached)]
    {
      var first := node.BeginSubscribe();
      if first {
        OnConnect(initial);
        node.EndConnect();
      }
      node.Attach(o);
    }

    method Unsubscribe(o: ObserverId) returns (outcome: Unsubscribed)
      requires Valid()
      modifies this, node
      ensures Valid()
      ensures old(node.cached).Some? ==> node.cached.Some?
      ensures outcome == Removed(true) ==>
        node.cached == (if old(node.cached).Some? then Some(Outdated(old(node.cached).value, old(nextRef))) else None)
      ensures outcome != Removed(true) ==> node.cached == old(node.cached) && nextRef == old(nextRef)
      ensures o in old(node.observers) ==> outcome == Removed(node.observers == [])
      ensures o !in old(node.observers) ==> outcome == AlreadyUnsubscribed
      ensures node.observers == RemoveFirst(old(node.observers), o)
      ensures node.log == old(node.log)
    {
      outcome := node.Detach(o);
      if outcome == Removed(true) {
        var _ := OnDisconnect();
      }
    }
  }

  /** A loaded value, then loading twice: the observer sees the value, then its stale version
      once (the second `outdated()` returns the same instance), never loading. */
  method StaleTrace() returns (log: seq<Notice<MaybeStale<int>>>)
    ensures log == [Notice(7, None), Notice(7, Some(MaybeStale(0, 5, false))), Notice(7, Some(MaybeStale(1, 5, true)))]
  {
    var node: ExplicitlyOptimisticObservable<int> := new ExplicitlyOptimisticObservable();
    node.Subscribe(7, None);
    node.OnSourceChange(Some(5));
    node.OnSourceChange(None);
    node.OnSourceChange(None);
    log := node.node.log;
  }
}
