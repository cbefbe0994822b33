/**
 * ConstantObservable: a node loaded with its value from construction; nothing ever changes
 * its slot. Its `transform` and `join` apply the function to the value at once instead of
 * building a computed or chained node.
 */
module ConstantObservables {
  import opened Wrappers
  import opened Observables
  import opened ComputedObservables
  import opened ChainedObservables

  /** `compute` of the one-argument node the generic `transform(f)` would build. */
  function ApplyToFirst<T, R>(f: T -> R): seq<Option<T>> -> Computation<R>
  {
    (args: seq<Option<T>>) => if |args| == 1 && args[0].Some? then Value(f(args[0].value)) else Threw
  }

  /** Over a loaded argument, the generic computed node would fire `f(value)`, the value the
      eager override starts with. */
  lemma TransformAgreesWithComputed<T, R>(value: T, f: T -> R)
    ensures Recomputed(None, [Some(value)], ApplyToFirst(f)) == Some(f(value))
  {
    assert AllLoaded([Some(value)]);
  }

  class ConstantObservable<T(==)> {
    const value: T
    const node: Observable<T>

    ghost predicate Valid()
      reads this, node
    {
      !node.connecting && node.cached == Some(value)
    }

    constructor (value: T)
      ensures Valid() && fresh(node) && this.value == value
      ensures node.observers == [] && node.log == []
    {
      this.value := value;
      node := new Observable(Some(value));
    }

    /** `transform(f)`: `just(f(value))`, loaded before anyone subscribes. */
    method Transform<R(==)>(f: T -> R) returns (r: ConstantObservable<R>)
      ensures fresh(r) && fresh(r.node) && r.Valid() && r.value == f(value)
      ensures r.node.observers == [] && r.node.log == []
    {
      r := new ConstantObservable(f(value));
    }

    /** `join(f)`: the observable `f` returns for the value, with no chained node around it.
        Observables are identified by reference. */
    function Join(f: T -> InnerRef): (r: InnerRef)
      ensures r == f(value)
    {
      f(value)
    }

    /** `waitFor`: the value, without subscribing; it is the node's loaded slot. */
    method WaitFor() returns (r: T)
      requires Valid()
      ensures r == value && node.cached == Some(r)
    {
      return value;
    }

    /** `subscribe`: `onConnect` does nothing, and every observer is told the value. */
    method Subscribe(o: ObserverId)
      requires Valid()
      modifies node
      ensures Valid()
      ensures node.observers == old(node.observers) + [o]
      ensures node.log == old(node.log) + [Notice(o, Some(value))]
    {
      node.Subscribe(o);
    }

    method Unsubscribe(o: ObserverId) returns (outcome: Unsubscribed)
      requires Valid()
      modifies node
      ensures Valid()
      ensures o in old(node.observers) ==> outcome == Removed(node.observers == [])
      ensures o !in old(node.observers) ==> outcome == AlreadyUnsubscribed
      ensures node.observers == RemoveFirst(old(node.observers), o)
      ensures node.log == old(node.log)
    {
      outcome := node.Detach(o);
    }
  }

  /** The generic `join(f)` builds a chained node over `transform(f)`, which on a constant is the
      constant `f(value)`. Its first subscriber finds it following exactly the observable the
      eager `join` returns, and sees that observable's slot. */
  method JoinAgreesWithChained<T(==), R(==)>(value: T, f: T -> InnerRef, innerSlot: Option<R>, o: ObserverId)
    returns (joined: InnerRef, followed: Option<InnerRef>, slot: Option<R>, log: seq<Notice<R>>)
    ensures followed == Some(joined)
    ensures slot == innerSlot && log == [Notice(o, innerSlot)]
  {
    var c := new ConstantObservable(value);
    joined := c.Join(f);
    var outer := c.Transform(f);
    var chained := new ChainedObservable<R>();
    chained.Subscribe(o, outer.node.cached, innerSlot);
    followed, slot, log := chained.inner, chained.node.cached, chained.node.log;
  }

  /** The generic `waitFor` on the constant's node returns the value the override returns, and
      leaves no collecting observer behind. */
  method WaitForAgreesWithObservable<T(==)>(value: T, w: ObserverId) returns (direct: T, generic: Waited<T>, observers: seq<ObserverId>)
    ensures generic == Loaded(direct) && direct == value
    ensures observers == []
  {
    var c := new ConstantObservable(value);
    direct := c.WaitFor();
    generic := c.node.WaitFor(w);
    observers := c.node.observers;
  }
}
