/**
 * Sticky: holds the first loaded value of its source forever, and stops listening to the
 * source as soon as it has one.
 */
module StickyObservables {
  import opened Wrappers
  import opened Observables

  /** The slot after the source delivers `v`: the first loaded value sticks. */
  function StickySlot<T>(cached: Option<T>, v: Option<T>): (r: Option<T>)
  {
    if cached.None? && v.Some? then v else cached
  }

  /** A held value is never replaced, and a loading node takes the first loaded value it sees. */
  lemma {:induction false} StickySlotFreezes<T>(cached: Option<T>, vs: seq<Option<T>>)
    ensures cached.Some? ==> StickyFold(cached, vs) == cached
    ensures cached.None? ==> StickyFold(cached, vs) == FirstLoaded(vs)
    decreases |vs|
  {
    if vs != [] {
      StickySlotFreezes(StickySlot(cached, vs[0]), vs[1..]);
    }
  }

  /** The slot after a sequence of source values. */
  function StickyFold<T>(cached: Option<T>, vs: seq<Option<T>>): Option<T>
    decreases |vs|
  {
    if vs == [] then cached else StickyFold(StickySlot(cached, vs[0]), vs[1..])
  }

  /** The first loaded value of a sequence, if any. */
  function FirstLoaded<T>(vs: seq<Option<T>>): (r: Option<T>)
    ensures r.Some? <==> exists i :: 0 <= i < |vs| && vs[i].Some?
    ensures r.Some? ==> r in vs
  {
    if vs == [] then None else if vs[0].Some? then vs[0] else FirstLoaded(vs[1..])
  }

  class Sticky<T(==)> {
    const node: Observable<T>
    /** The `subscription` field is non-null. */
    var subscription: bool

    ghost predicate Valid()
      reads this, node
    {
      !node.connecting && (subscription <==> node.observers != [] && node.cached.None?)
    }

    constructor ()
      ensures Valid() && fresh(node)
      ensures node.cached == None && node.observers == [] && node.log == [] && !subscription
    {
      node := new Observable(None);
      subscription := false;
    }

    /** `onLoaded`: fire the value if still loading, then release the subscription if it has
        already been stored. */
    method OnLoaded(v: T)
      modifies this, node
      ensures node.cached == StickySlot(old(node.cached), Some(v)) && !subscription
      ensures node.log == FireLog(old(node.log), old(node.cached), node.connecting, node.observers, node.cached)
      ensures node.observers == old(node.observers) && node.connecting == old(node.connecting)
    {
      if node.cached == None {
        node.FireChange(Some(v));
      }
      if subscription {
        subscription := false;
      }
    }

    /** The source listener: only a loaded value reaching a loading node has any effect. */
    method OnSourceChange(v: Option<T>)
      modifies this, node
      ensures node.cached == StickySlot(old(node.cached), v)
      ensures subscription == (old(subscription) && !(old(node.cached).None? && v.Some?))
      ensures node.log == FireLog(old(node.log), old(node.cached), node.connecting, node.observers, node.cached)
      ensures node.observers == old(node.observers) && node.connecting == old(node.connecting)
    {
      if node.cached == None && v != None {
        OnLoaded(v.value);
      }
    }

    /** `onConnect`: nothing when already holding a value; otherwise subscribe (the synchronous
        delivery runs before the subscription is stored) and release at once if that loaded us. */
    method OnConnect(initial: Option<T>)
      requires !subscription && node.connecting
      modifies this, node
      ensures node.cached == StickySlot(old(node.cached), initial)
      ensures subscription <==> node.cached.None?
      ensures node.log == old(node.log) && node.observers == old(node.observers) && node.connecting
    {
      if node.cached != None {
        return;
      }
      OnSourceChange(initial);
      subscription := true;
      if node.cached != None {
        subscription := false;
      }
    }

    /** `onDisconnect`: release the subscription if one is held; the value is kept. */
    method OnDisconnect()
      modifies this
      ensures !subscription
    {
      if subscription {
        subscription := false;
      }
    }

    method Subscribe(o: ObserverId, initial: Option<T>)
      requires Valid()
      modifies this, node
      ensures Valid()
      ensures node.observers == old(node.observers) + [o]
      ensures node.cached == (if old(node.observers) == [] then StickySlot(old(node.cached), initial) else old(node.cached))
      ensures node.log == old(node.log) + [Notice(o, node.cached)]
    {
      var first := node.BeginSubscribe();
      if first {
        OnConnect(initial);
        node.EndConnect();
      }
      node.Attach(o);
    }

    method Unsubscribe(o: ObserverId) returns (outcome: Unsubscribed)
      requires Valid()
      modifies this, node
      ensures Valid()
      ensures o in old(node.observers) ==> outcome == Removed(node.observers == [])
      ensures o !in old(node.observers) ==> outcome == AlreadyUnsubscribed
      ensures node.observers == RemoveFirst(old(node.observers), o)
      ensures node.cached == old(node.cached) && node.log == old(node.log)
    {
      outcome := node.Detach(o);
      if outcome == Removed(true) {
        OnDisconnect();
      }
    }
  }

  /** StickyTest: over a source already loaded with 42, a subscriber sees exactly one, loaded,
      notification and the source is released at once. */
  method StickyLoadedSourceTrace() returns (log: seq<Notice<int>>, subscribed: bool)
    ensures log == [Notice(7, Some(42))] && !subscribed
  {
    var sticky: Sticky<int> := new Sticky();
    sticky.Subscribe(7, Some(42));
    log, subscribed := sticky.node.log, sticky.subscription;
  }

  /** StickyTest: over a loading source, only the first loaded value is fired; the node then
      releases the source, so a later update of the source reaches nobody. */
  method StickyLoadingSourceTrace() returns (log: seq<Notice<int>>, subscribed: bool)
    ensures log == [Notice(7, None), Notice(7, Some(1))] && !subscribed
  {
    var sticky: Sticky<int> := new Sticky();
    sticky.Subscribe(7, None);
    sticky.OnSourceChange(Some(1));
    log, subscribed := sticky.node.log, sticky.subscription;
  }
}
