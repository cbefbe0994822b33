/**
 * OptionalObservable: turns a possibly-loading source into a never-loading observable of
 * `java.util.Optional`. `Optional.empty()` is one shared instance; every `Optional.of` is a new
 * instance, identified here by the reference it was allocated under.
 */
module OptionalObservables {
  import opened Wrappers
  import opened Observables

  type Ref = nat

  datatype OptionalValue<T> = Empty | Present(ref: Ref, value: T)

  /** `Optional.ofNullable(v)`, allocating under `newRef` when `v` is present. */
  function OfNullable<T>(v: Option<T>, newRef: Ref): (r: OptionalValue<T>)
    ensures r.Empty? <==> v.None?
    ensures v.Some? ==> r == Present(newRef, v.value)
  {
    match v
    case None => Empty
    case Some(x) => Present(newRef, x)
  }

  /** The source slot can be read back from the wrapped value. */
  function Unwrap<T>(o: OptionalValue<T>): Option<T>
  {
    match o
    case Empty => None
    case Present(_, x) => Some(x)
  }

  lemma {:induction false} UnwrapOfNullable<T>(v: Option<T>, newRef: Ref)
    ensures Unwrap(OfNullable(v, newRef)) == v
  {
    match v
    case None =>
    case Some(x) =>
  }

  class OptionalObservable<T(==)> {
    const node: Observable<OptionalValue<T>>
    var sourceSubscription: bool
    var nextRef: Ref

    ghost predicate Valid()
      reads this, node
    {
      !node.connecting && (sourceSubscription <==> node.observers != []) &&
      node.cached.Some? && (node.cached.value.Present? ==> node.cached.value.ref < nextRef)
    }

    /** The slot starts as `Optional.empty()`: the node is never loading. */
    constructor ()
      ensures Valid() && fresh(node)
      ensures node.cached == Some(Empty) && node.observers == [] && node.log == [] && !sourceSubscription
    {
      node := new Observable(Some(Empty));
      sourceSubscription := false;
      nextRef := 0;
    }

    /** `onSourceChange`: every source notification is wrapped and fired. A loading source after
        a loading source re-fires the shared empty instance, which notifies nobody; a loaded
        value is always a new instance and always notifies. */
    method OnSourceChange(v: Option<T>)
      requires node.cached.Some? && (node.cached.value.Present? ==> node.cached.value.ref < nextRef)
      modifies this`nextRef, node
      ensures node.cached.Some? && (node.cached.value.Present? ==> node.cached.value.ref < nextRef)
      ensures node.cached == Some(OfNullable(v, old(nextRef)))
      ensures Unwrap(node.cached.value) == v
      ensures nextRef == old(nextRef) + (if v.Some? then 1 else 0)
      ensures v.Some? ==> node.log == old(node.log) + (if node.connecting then [] else Broadcast(node.observers, node.cached))
      ensures v.None? && old(node.cached) == Some(Empty) ==> node.log == old(node.log)
      ensures node.log == FireLog(old(node.log), old(node.cached), node.connecting, node.observers, node.cached)
      ensures node.observers == old(node.observers) && node.connecting == old(node.connecting)
    {
      var wrapped := OfNullable(v, nextRef);
      UnwrapOfNullable(v, nextRef);
      if v.Some? {
        nextRef := nextRef + 1;
      }
      node.FireChange(Some(wrapped));
    }

    method OnConnect(initial: Option<T>)
      requires node.cached.Some? && (node.cached.value.Present? ==> node.cached.value.ref < nextRef)
      modifies this, node
      ensures sourceSubscription
      ensures node.cached.Some? && (node.cached.value.Present? ==> node.cached.value.ref < nextRef)
      ensures node.cached == Some(OfNullable(initial, old(nextRef)))
      ensures node.connecting ==> node.log == old(node.log)
      ensures node.observers == old(node.observers) && node.connecting == old(node.connecting)
    {
      OnSourceChange(initial);
      sourceSubscription := true;
    }

    /** `onDisconnect`: release the source subscription if held; the slot is kept. */
    method OnDisconnect()
      modifies this`sourceSubscription
      ensures !sourceSubscription
    {
      if sourceSubscription {
        sourceSubscription := false;
      }
    }

    method Subscribe(o: ObserverId, initial: Option<T>)
      requires Valid()
      modifies this, node
      ensures Valid()
      ensures old(node.observers) == [] ==> node.cached == Some(OfNullable(initial, old(nextRef)))
      ensures old(node.observers) != [] ==> node.cached == old(node.cached)
      ensures node.observers == old(node.observers) + [o]
      ensures node.log == old(node.log) + [Notice(o, node.cached)]
    {
      var first := node.BeginSubscribe();
      if first {
        OnConnect(initial);
        node.EndConnect();
      }
      node.Attach(o);
    }

    method Unsubscribe(o: ObserverId) returns (outcome: Unsubscribed)
      requires Valid()
      modifies this, node
      ensures Valid()
      ensures o in old(node.observers) ==> outcome == Removed(node.observers == [])
      ensures o !in old(node.observers) ==> outcome == AlreadyUnsubscribed
      ensures node.observers == RemoveFirst(old(node.observers), o)
      ensures node.cached == old(node.cached) && node.log == old(node.log)
    {
      outcome := node.Detach(o);
      if outcome == Removed(true) {
        OnDisconnect();
      }
    }
  }
}
