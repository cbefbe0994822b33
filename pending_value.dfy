/**
 * PendingValue: a holder for a value that may be absent (loading). The stored `value` and the
 * node's slot usually agree; `clear` fires loading but keeps the stored value.
 */
module PendingValues {
  import opened Wrappers
  import opened Observables

  class PendingValue<T(==)> {
    const node: Observable<T>
    /** `T.equals`, which `Objects.equals` calls on two present values. */
    const equals: (T, T) -> bool
    var value: Option<T>

    /** The slot is the stored value, or loading after `clear`. */
    ghost predicate Valid()
      reads this, node
    {
      !node.connecting && (node.cached == value || node.cached == None)
    }

    /** `new PendingValue()`: nothing stored, loading. */
    constructor Loading(equals: (T, T) -> bool)
      ensures Valid() && fresh(node) && this.equals == equals
      ensures value == None && node.cached == None && node.observers == [] && node.log == []
    {
      node := new Observable(None);
      this.equals := equals;
      value := None;
    }

    /** `new PendingValue(value)`: stored and loaded. */
    constructor Of(v: T, equals: (T, T) -> bool)
      ensures Valid() && fresh(node) && this.equals == equals
      ensures value == Some(v) && node.cached == Some(v) && node.observers == [] && node.log == []
    {
      node := new Observable(Some(v));
      this.equals := equals;
      value := Some(v);
    }

    /** `updateValue` (and `accept`): store the value, which may be loading, and fire it. */
    method UpdateValue(v: Option<T>)
      requires Valid()
      modifies this`value, node
      ensures Valid()
      ensures value == v && node.cached == v
      ensures node.log == FireLog(old(node.log), old(node.cached), node.connecting, node.observers, v)
      ensures node.observers == old(node.observers)
    {
      value := v;
      node.FireChange(v);
    }

    /** `clear`: fire loading; the stored value is kept. */
    method Clear()
      requires Valid()
      modifies node
      ensures Valid()
      ensures node.cached == None
      ensures node.log == FireLog(old(node.log), old(node.cached), node.connecting, node.observers, None)
      ensures node.observers == old(node.observers)
    {
      node.FireChange(None);
    }

    /** `onConnect`: fire the stored value, so a node cleared and then reconnected is loaded again. */
    method OnConnect()
      modifies node
      ensures node.cached == value
      ensures node.log == FireLog(old(node.log), old(node.cached), node.connecting, node.observers, value)
      ensures node.observers == old(node.observers) && node.connecting == old(node.connecting)
    {
      node.FireChange(value);
    }

    /** `waitFor`: the stored value, not the slot; with nothing stored it throws
        `IllegalStateException`. */
    method WaitFor() returns (r: Waited<T>)
      ensures r.Loaded? <==> value.Some?
      ensures r.Loaded? ==> value == Some(r.value)
    {
      if value == None {
        return DidNotLoadSynchronously;
      }
      return Loaded(value.value);
    }

    /** `updateIfNotEqual`: store and fire a value not `Objects.equals` to the stored one. */
    method UpdateIfNotEqual(v: T) returns (changed: bool)
      requires Valid()
      modifies this`value, node
      ensures Valid()
      ensures changed <==> !ObjectsEquals(equals, old(value), Some(v))
      ensures changed ==>
        && value == Some(v) && node.cached == Some(v)
        && node.log == FireLog(old(node.log), old(node.cached), node.connecting, node.observers, Some(v))
      ensures !changed ==> value == old(value) && node.cached == old(node.cached) && node.log == old(node.log)
      ensures node.observers == old(node.observers)
    {
      if !ObjectsEquals(equals, value, Some(v)) {
        value := Some(v);
        node.FireChange(Some(v));
        return true;
      }
      return false;
    }

    /** `updateIfNotSame`: the same, comparing by reference. */
    method UpdateIfNotSame(v: T) returns (changed: bool)
      requires Valid()
      modifies this`value, node
      ensures Valid()
      ensures changed <==> old(value) != Some(v)
      ensures changed ==>
        && value == Some(v) && node.cached == Some(v)
        && node.log == FireLog(old(node.log), old(node.cached), node.connecting, node.observers, Some(v))
      ensures !changed ==> value == old(value) && node.cached == old(node.cached) && node.log == old(node.log)
      ensures node.observers == old(node.observers)
    {
      if value != Some(v) {
        value := Some(v);
        node.FireChange(Some(v));
        return true;
      }
      return false;
    }

    method Subscribe(o: ObserverId)
      requires Valid()
      modifies node
      ensures Valid()
      ensures old(node.observers) == [] ==> node.cached == value
      ensures old(node.observers) != [] ==> node.cached == old(node.cached)
      ensures node.observers == old(node.observers) + [o]
      ensures node.log == old(node.log) + [Notice(o, node.cached)]
    {
      var first := node.BeginSubscribe();
      if first {
        OnConnect();
        node.EndConnect();
      }
      node.Attach(o);
    }

    /** `Subscription.unsubscribe`; `onDisconnect` does nothing. */
    method Unsubscribe(o: ObserverId) returns (outcome: Unsubscribed)
      requires Valid()
      modifies node
      ensures Valid()
      ensures o in old(node.observers) ==> outcome == Removed(node.observers == [])
      ensures o !in old(node.observers) ==> outcome == AlreadyUnsubscribed
      ensures node.observers == RemoveFirst(old(node.observers), o)
      ensures node.cached == old(node.cached) && node.log == old(node.log)
    {
      outcome := node.Detach(o);
    }
  }

  /** A cleared value comes back on reconnect: the observer of the second connection is told the
      stored value, and `waitFor` returns it even while the node is loading. */
  method ReconnectAfterClear() returns (whileCleared: Waited<int>, afterReconnect: Notice<int>)
    ensures whileCleared == Loaded(5)
    ensures afterReconnect == Notice(2, Some(5))
  {
    var p := new PendingValue.Of(5, (a: int, b: int) => a == b);
    p.Subscribe(1);
    p.Clear();
    assert p.node.cached == None && p.value == Some(5);
    whileCleared := p.WaitFor();
    var outcome := p.Unsubscribe(1);
    assert RemoveFirst([1], 1) == [];
    p.Subscribe(2);
    afterReconnect := p.node.log[|p.node.log| - 1];
  }
}
