/**
 * ChainedObservable (`join`/flatMap): follows the inner observable that the outer observable
 * currently holds. Inner observables are identified by reference (`InnerRef`); the inner
 * subscriptions taken and released are recorded in `upstream`, in order.
 */
module ChainedObservables {
  import opened Wrappers
  import opened Observables

  /** Reference identity of an inner observable. */
  type InnerRef = nat

  /** The inner subscriptions a node following `inner` holds. */
  function Following(inner: Option<InnerRef>): (r: multiset<InnerRef>)
    ensures |r| <= 1
    ensures inner.Some? ==> inner.value in r
    ensures inner.None? ==> r == multiset{}
  {
    match inner
    case Some(i) => multiset{i}
    case None => multiset{}
  }

  /** At every point of the history, at most one inner subscription is held. */
  ghost predicate AtMostOneInner(events: seq<Link<InnerRef>>)
  {
    |Held(events)| <= 1 && (events == [] || AtMostOneInner(events[..|events| - 1]))
  }

  /** The recursive definition above says the same as "every prefix holds at most one". */
  lemma {:induction false} AtMostOneInnerPrefixes(events: seq<Link<InnerRef>>, n: nat)
    requires AtMostOneInner(events) && n <= |events|
    ensures |Held(events[..n])| <= 1
    decreases |events|
  {
    if n == |events| {
      assert events[..n] == events;
    } else {
      var prefix := events[..|events| - 1];
      assert prefix[..n] == events[..n];
      AtMostOneInnerPrefixes(prefix, n);
    }
  }

  /** What the outer listener does with a new inner reference. */
  datatype ChainStep = Ignore | Drop | Switch(target: InnerRef)

  function ChainReaction(inner: Option<InnerRef>, newInner: Option<InnerRef>): (r: ChainStep)
    ensures r.Ignore? <==> inner == newInner
    ensures r.Drop? <==> inner != newInner && newInner.None?
    ensures r.Switch? <==> inner != newInner && newInner.Some?
    ensures r.Switch? ==> newInner == Some(r.target)
  {
    if inner == newInner then Ignore
    else if newInner.None? then Drop
    else Switch(newInner.value)
  }

  /** The upstream events of one outer notification: release the old inner, then take the new one. */
  function Relink(inner: Option<InnerRef>, newInner: Option<InnerRef>): seq<Link<InnerRef>>
  {
    match ChainReaction(inner, newInner)
    case Ignore => []
    case Drop => [Released(inner.value)]
    case Switch(t) => (if inner.Some? then [Released(inner.value)] else []) + [Took(t)]
  }

  lemma AtMostOneInnerSnoc(events: seq<Link<InnerRef>>, e: Link<InnerRef>)
    requires AtMostOneInner(events) && |Held(events + [e])| <= 1
    ensures AtMostOneInner(events + [e])
  {
    assert (events + [e])[..|events|] == events;
  }

  lemma ReleaseFollowed(events: seq<Link<InnerRef>>, i: InnerRef)
    requires Held(events) == multiset{i} && AtMostOneInner(events)
    ensures Held(events + [Released(i)]) == multiset{} && AtMostOneInner(events + [Released(i)])
  {
    HeldSnoc(events, Released(i));
    assert multiset{i} - multiset{i} == multiset{};
    AtMostOneInnerSnoc(events, Released(i));
  }

  lemma TakeWhenFree(events: seq<Link<InnerRef>>, t: InnerRef)
    requires Held(events) == multiset{} && AtMostOneInner(events)
    ensures Held(events + [Took(t)]) == multiset{t} && AtMostOneInner(events + [Took(t)])
  {
    HeldSnoc(events, Took(t));
    AtMostOneInnerSnoc(events, Took(t));
  }

  /** Switching releases the previous inner before taking the next, so the node never holds two
      inner subscriptions, and afterwards it holds exactly the new one. */
  lemma {:induction false} RelinkKeepsOneInner(events: seq<Link<InnerRef>>, inner: Option<InnerRef>, newInner: Option<InnerRef>)
    requires Held(events) == Following(inner) && AtMostOneInner(events)
    ensures Held(events + Relink(inner, newInner)) == Following(newInner)
    ensures AtMostOneInner(events + Relink(inner, newInner))
  {
    if inner == newInner {
      assert events + Relink(inner, newInner) == events;
    } else if newInner.None? {
      ReleaseFollowed(events, inner.value);
      assert Relink(inner, newInner) == [Released(inner.value)];
    } else if inner.None? {
      TakeWhenFree(events, newInner.value);
      assert Relink(inner, newInner) == [Took(newInner.value)];
    } else {
      var released := events + [Released(inner.value)];
      ReleaseFollowed(events, inner.value);
      TakeWhenFree(released, newInner.value);
      assert events + Relink(inner, newInner) == released + [Took(newInner.value)];
    }
  }

  class ChainedObservable<T(==)> {
    const node: Observable<T>
    var inner: Option<InnerRef>
    var outerSubscribed: bool
    /** Inner subscriptions taken and released, in order. */
    var upstream: seq<Link<InnerRef>>

    ghost predicate Linked()
      reads this
    {
      Held(upstream) == Following(inner) && AtMostOneInner(upstream)
    }

    ghost predicate Valid()
      reads this, node
    {
      Linked() && !node.connecting &&
      (outerSubscribed <==> node.observers != []) &&
      (!outerSubscribed ==> inner.None? && node.cached == None)
    }

    constructor ()
      ensures Valid() && fresh(node)
      ensures node.cached == None && node.observers == [] && node.log == []
      ensures inner == None && !outerSubscribed && upstream == []
    {
      node := new Observable(None);
      inner := None;
      outerSubscribed := false;
      upstream := [];
    }

    /** The outer listener: `newInner` is the outer's new slot and `innerSlot` what that inner
        delivers synchronously when subscribed. */
    method OnOuterChange(newInner: Option<InnerRef>, innerSlot: Option<T>)
      requires Linked()
      modifies this`inner, this`upstream, node
      ensures Linked()
      ensures inner == newInner
      ensures upstream == old(upstream) + Relink(old(inner), newInner)
      ensures var step := ChainReaction(old(inner), newInner);
        && (step.Ignore? ==> node.cached == old(node.cached) && node.log == old(node.log))
        && (step.Drop? ==> node.cached == None)
        && (step.Switch? ==> node.cached == innerSlot)
      ensures node.log == FireLog(old(node.log), old(node.cached), node.connecting, node.observers, node.cached)
      ensures node.observers == old(node.observers) && node.connecting == old(node.connecting)
    {
      RelinkKeepsOneInner(upstream, inner, newInner);
      // unsubscribeFromOldValue, then (for a new inner) subscribeToNewValue
      upstream := upstream + Relink(inner, newInner);
      if inner != newInner {
        inner := None;
        if newInner == None {
          node.FireChange(None);
        } else {
          inner := newInner;
          node.FireChange(innerSlot);
        }
      }
    }

    /** The inner listener: every notification of the followed inner is forwarded. */
    method OnInnerChange(v: Option<T>)
      requires inner.Some?
      modifies node
      ensures node.cached == v
      ensures node.log == FireLog(old(node.log), old(node.cached), node.connecting, node.observers, v)
      ensures node.observers == old(node.observers) && node.connecting == old(node.connecting)
    {
      node.FireChange(v);
    }

    /** `onConnect`: subscribe to the outer, which delivers its slot (and, through it, the inner's) at once. */
    method OnConnect(outerSlot: Option<InnerRef>, innerSlot: Option<T>)
      requires Linked() && !outerSubscribed && inner.None? && node.connecting
      modifies this, node
      ensures Linked() && outerSubscribed && inner == outerSlot
      ensures upstream == old(upstream) + (if outerSlot.Some? then [Took(outerSlot.value)] else [])
      ensures node.cached == (if outerSlot.Some? then innerSlot else old(node.cached))
      ensures node.log == old(node.log) && node.observers == old(node.observers) && node.connecting
    {
      OnOuterChange(outerSlot, innerSlot);
      outerSubscribed := true;
    }

    /** `onDisconnect`: forget the inner and the cached value, release both subscriptions. */
    method OnDisconnect()
      requires Linked()
      modifies this, node
      ensures Linked() && inner.None? && !outerSubscribed && node.cached == None
      ensures Held(upstream) == multiset{}
      ensures upstream == old(upstream) + (if old(inner).Some? then [Released(old(inner).value)] else [])
      ensures node.log == old(node.log) && node.observers == old(node.observers) && node.connecting == old(node.connecting)
    {
      RelinkKeepsOneInner(upstream, inner, None);
      var old_inner := inner;
      inner := None;
      node.Overwrite(None);
      outerSubscribed := false;
      if old_inner.Some? {
        upstream := upstream + [Released(old_inner.value)];
      }
    }

    method Subscribe(o: ObserverId, outerSlot: Option<InnerRef>, innerSlot: Option<T>)
      requires Valid()
      modifies this, node
      ensures Valid()
      ensures node.observers == old(node.observers) + [o]
      ensures old(node.observers) == [] ==>
        inner == outerSlot && node.cached == (if outerSlot.Some? then innerSlot else None) &&
        upstream == old(upstream) + (if outerSlot.Some? then [Took(outerSlot.value)] else [])
      ensures old(node.observers) != [] ==> inner == old(inner) && node.cached == old(node.cached) && upstream == old(upstream)
      ensures node.log == old(node.log) + [Notice(o, node.cached)]
    {
      var first := node.BeginSubscribe();
      if first {
        OnConnect(outerSlot, innerSlot);
        node.EndConnect();
      }
      node.Attach(o);
    }

    method Unsubscribe(o: ObserverId) returns (outcome: Unsubscribed)
      requires Valid()
      modifies this, node
      ensures Valid()
      ensures o in old(node.observers) ==> outcome == Removed(node.observers == [])
      ensures o !in old(node.observers) ==> outcome == AlreadyUnsubscribed
      ensures node.observers == RemoveFirst(old(node.observers), o)
      ensures node.log == old(node.log)
      ensures node.observers == [] ==> Held(upstream) == multiset{} && node.cached == None
      ensures outcome != Removed(true) ==> node.cached == old(node.cached)
      ensures upstream == old(upstream) + (if outcome == Removed(true) && old(inner).Some? then [Released(old(inner).value)] else [])
    {
      outcome := node.Detach(o);
      if outcome == Removed(true) {
        OnDisconnect();
      }
    }
  }

  /** ObservableTest.chainedLoading, first half, with inner observables 1 (just 2) and 2 (loading,
      later 164): loading and loaded values pass through and dropping the inner fires loading. */
  method ChainedLoadingTrace() returns (log: seq<Notice<int>>, upstream: seq<Link<InnerRef>>)
    ensures log == [Notice(7, None), Notice(7, Some(2)), Notice(7, None), Notice(7, Some(164))]
    ensures upstream == [Took(1), Released(1), Took(2)]
  {
    var chained := DroppedFirstInner();
    chained.OnOuterChange(Some(2), None);
    chained.OnInnerChange(Some(164));
    log, upstream := chained.node.log, chained.upstream;
  }

  /** The first steps of `ChainedLoadingTrace`: observer 7 sees loading, inner 1's value, and
      loading again once the outer drops inner 1. */
  method DroppedFirstInner() returns (chained: ChainedObservable<int>)
    ensures fresh(chained) && fresh(chained.node) && chained.Linked()
    ensures chained.node.observers == [7] && !chained.node.connecting && chained.node.cached == None
    ensures chained.inner == None
    ensures chained.node.log == [Notice(7, None), Notice(7, Some(2)), Notice(7, None)]
    ensures chained.upstream == [Took(1), Released(1)]
  {
    chained := new ChainedObservable();
    chained.Subscribe(7, None, None);
    assert chained.node.log == [Notice(7, None)] && chained.upstream == [];
    chained.OnOuterChange(Some(1), Some(2));
    assert chained.node.log == [Notice(7, None), Notice(7, Some(2))];
    chained.OnOuterChange(None, None);
  }

  /** ObservableTest.chainedLoading, second half: switching from inner 2 to inner 3 (just 6)
      releases inner 2 first, and unsubscribing the last observer releases inner 3. */
  method ChainedSwitchTrace() returns (log: seq<Notice<int>>, upstream: seq<Link<InnerRef>>)
    ensures log == [Notice(7, Some(164)), Notice(7, Some(6))]
    ensures upstream == [Took(2), Released(2), Took(3), Released(3)]
    ensures Held(upstream) == multiset{}
  {
    var chained := SwitchedToThirdInner();
    var outcome := chained.Unsubscribe(7);
    assert RemoveFirst([7], 7) == [];
    log, upstream := chained.node.log, chained.upstream;
  }

  /** The first steps of `ChainedSwitchTrace`: observer 7 follows inner 2, then inner 3. */
  method SwitchedToThirdInner() returns (chained: ChainedObservable<int>)
    ensures fresh(chained) && fresh(chained.node) && chained.Valid()
    ensures chained.node.observers == [7] && chained.inner == Some(3)
    ensures chained.node.log == [Notice(7, Some(164)), Notice(7, Some(6))]
    ensures chained.upstream == [Took(2), Released(2), Took(3)]
  {
    chained := new ChainedObservable();
    chained.Subscribe(7, Some(2), Some(164));
    chained.OnOuterChange(Some(3), Some(6));
  }
}
