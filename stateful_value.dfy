/**
 * StatefulValue: a holder whose value is always present. The node's slot is always the stored
 * value: every update stores and fires, and `onConnect` re-fires what is stored.
 */
module StatefulValues {
  import opened Wrappers
  import opened Observables

  class StatefulValue<T(==)> {
    const node: Observable<T>
    /** `T.equals`, which `Objects.equals` calls on two values. */
    const equals: (T, T) -> bool
    var value: T

    ghost predicate Valid()
      reads this, node
    {
      !node.connecting && node.cached == Some(value)
    }

    /** The constructor stores the value and sets the slot to it. */
    constructor (v: T, equals: (T, T) -> bool)
      ensures Valid() && fresh(node) && this.equals == equals
      ensures value == v && node.observers == [] && node.log == []
    {
      node := new Observable(Some(v));
      this.equals := equals;
      value := v;
    }

    /** `get`. */
    function Get(): T
      reads this
    {
      value
    }

    /** `updateValue` (and `accept`): store and fire. Observers are notified exactly when the new
        value is a different reference. */
    method UpdateValue(v: T)
      requires Valid()
      modifies this`value, node
      ensures Valid() && value == v
      ensures node.log == old(node.log) + if v == old(value) then [] else Broadcast(node.observers, Some(v))
      ensures node.observers == old(node.observers)
    {
      value := v;
      node.FireChange(Some(v));
    }

    /** `update(f)`: store and fire `f` of the stored value, and return what `get` then returns. */
    method Update(f: T -> T) returns (r: T)
      requires Valid()
      modifies this`value, node
      ensures Valid() && r == f(old(value)) && r == Get()
      ensures node.log == old(node.log) + if r == old(value) then [] else Broadcast(node.observers, Some(r))
      ensures node.observers == old(node.observers)
    {
      UpdateValue(f(value));
      return value;
    }

    /** `onConnect` re-fires the stored value; the slot already holds it, so nothing changes. */
    method OnConnect()
      requires node.cached == Some(value)
      modifies node
      ensures node.cached == old(node.cached) && node.log == old(node.log)
      ensures node.observers == old(node.observers) && node.connecting == old(node.connecting)
    {
      node.FireChange(Some(value));
    }

    /** `updateIfNotEqual`: store and fire a value not `Objects.equals` to the stored one. */
    method UpdateIfNotEqual(v: T) returns (changed: bool)
      requires Valid()
      modifies this`value, node
      ensures Valid()
      ensures changed <==> !ObjectsEquals(equals, Some(old(value)), Some(v))
      ensures changed ==> value == v && node.log == old(node.log) + Broadcast(node.observers, Some(v))
      ensures !changed ==> value == old(value) && node.log == old(node.log)
      ensures node.observers == old(node.observers)
    {
      if !ObjectsEquals(equals, Some(value), Some(v)) {
        UpdateValue(v);
        return true;
      }
      return false;
    }

    /** `updateIfNotSame`: store and fire a different reference. */
    method UpdateIfNotSame(v: T) returns (changed: bool)
      requires Valid()
      modifies this`value, node
      ensures Valid()
      ensures changed <==> old(value) != v
      ensures changed ==> value == v && node.log == old(node.log) + Broadcast(node.observers, Some(v))
      ensures !changed ==> value == old(value) && node.log == old(node.log)
      ensures node.observers == old(node.observers)
    {
      if value != v {
        UpdateValue(v);
        return true;
      }
      return false;
    }

    method Subscribe(o: ObserverId)
      requires Valid()
      modifies node
      ensures Valid()
      ensures node.observers == old(node.observers) + [o]
      ensures node.log == old(node.log) + [Notice(o, Some(value))]
    {
      var first := node.BeginSubscribe();
      if first {
        OnConnect();
        node.EndConnect();
      }
      node.Attach(o);
    }

    /** `Subscription.unsubscribe`; `onDisconnect` does nothing. */
    method Unsubscribe(o: ObserverId) returns (outcome: Unsubscribed)
      requires Valid()
      modifies node
      ensures Valid()
      ensures o in old(node.observers) ==> outcome == Removed(node.observers == [])
      ensures o !in old(node.observers) ==> outcome == AlreadyUnsubscribed
      ensures node.observers == RemoveFirst(old(node.observers), o)
      ensures node.log == old(node.log)
    {
      outcome := node.Detach(o);
    }
  }
}
