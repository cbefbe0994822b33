/**
 * ReactiveComponent: a virtual-DOM component that subscribes to an observable and renders
 * its latest value through a renderer, or shows a loading indicator while it loads.
 * Observables, renderers and virtual nodes are compared by reference in the component, so
 * they are identified by references here; `renders` gives the node a renderer returns for a
 * value. `refreshes` counts the calls to `refresh`, which enqueue the component on the
 * render queue.
 */
module ReactiveComponents {
  import opened Wrappers
  import opened Observables

  type ObsRef = nat
  type RendererRef = nat
  /** A virtual node by reference: renderers and callers supply the natural numbers, and the
      shared empty div is the one negative reference, so it is never mistaken for theirs. */
  type NodeRef = int
  type ConstructorRef = nat

  /** The shared empty div `H.div()` returns. */
  const EmptyDivRef: NodeRef := -1
  /** `ReactiveComponent.CONSTRUCTOR`. */
  const ReactiveConstructor: ConstructorRef := 0

  datatype ReactiveProps = ReactiveProps(value: ObsRef, renderer: RendererRef, loadingIndicator: Option<nat>)

  /** `canAcceptProps`: only a node built by the same component constructor is accepted. */
  function CanAcceptProps(vnodeConstructor: ConstructorRef): (r: bool)
    ensures r <==> vnodeConstructor == ReactiveConstructor
  {
    vnodeConstructor == ReactiveConstructor
  }

  class ReactiveComponent<T(==)> {
    const renders: (RendererRef, T) -> nat
    /** false: `updateProps` as written; true: it forgets the rendered value before
        resubscribing, so that the value the new subscription delivers is rendered again. */
    const resetValueOnResubscribe: bool
    var props: ReactiveProps
    /** The observable subscribed to, if any, and every subscription taken or released. */
    var subscription: Option<ObsRef>
    var upstream: seq<Link<ObsRef>>
    var value: Option<T>
    var content: NodeRef
    var refreshes: nat

    /** The component holds exactly its one subscription, to the observable of its props. */
    ghost predicate Valid()
      reads this
    {
      Held(upstream) == (if subscription.Some? then multiset{subscription.value} else multiset{}) &&
      (subscription.Some? ==> subscription.value == props.value)
    }

    /** The content shows the last value as the current renderer draws it. */
    ghost predicate Current()
      reads this
    {
      value.Some? ==> content == renders(props.renderer, value.value)
    }

    /** The initial content is the loading indicator, or the shared empty div without one. */
    constructor (props: ReactiveProps, renders: (RendererRef, T) -> nat, resetValueOnResubscribe: bool)
      ensures Valid() && Current()
      ensures this.props == props && this.renders == renders
      ensures this.resetValueOnResubscribe == resetValueOnResubscribe
      ensures content == (if props.loadingIndicator.Some? then props.loadingIndicator.value else EmptyDivRef)
      ensures subscription == None && upstream == [] && value == None && refreshes == 0
    {
      this.props := props;
      this.renders := renders;
      this.resetValueOnResubscribe := resetValueOnResubscribe;
      content := if props.loadingIndicator.Some? then props.loadingIndicator.value else EmptyDivRef;
      subscription := None;
      upstream := [];
      value := None;
      refreshes := 0;
    }

    /** The observer's `onChange`. Loading shows the indicator, if there is one and it is not
        already shown; a value is rendered only when it is not the one last rendered. */
    method OnChange(newValue: Option<T>)
      modifies this`value, this`content, this`refreshes
      ensures newValue.None? && props.loadingIndicator.Some? && old(content) != props.loadingIndicator.value ==>
        content == props.loadingIndicator.value && value == None && refreshes == old(refreshes) + 1
      ensures newValue.None? && !(props.loadingIndicator.Some? && old(content) != props.loadingIndicator.value) ==>
        content == old(content) && value == old(value) && refreshes == old(refreshes)
      ensures newValue.Some? && newValue != old(value) ==>
        value == newValue && content == renders(props.renderer, newValue.value) && refreshes == old(refreshes) + 1
      ensures newValue.Some? && newValue == old(value) ==>
        content == old(content) && value == old(value) && refreshes == old(refreshes)
      ensures old(Current()) ==> Current()
    {
      if newValue == None {
        if props.loadingIndicator != None && content != props.loadingIndicator.value {
          content := props.loadingIndicator.value;
          value := None;
          refreshes := refreshes + 1;
        }
      } else {
        if newValue != value {
          value := newValue;
          content := renders(props.renderer, value.value);
          refreshes := refreshes + 1;
        }
      }
    }

    /** The private `subscribe`: the observable delivers `current` synchronously, before the
        new subscription is stored. */
    method Subscribe(current: Option<T>)
      modifies this`subscription, this`upstream, this`value, this`content, this`refreshes
      ensures subscription == Some(props.value)
      ensures upstream == old(upstream) + [Took(props.value)]
      ensures Held(upstream) == Held(old(upstream)) + multiset{props.value}
      ensures current.Some? && current != old(value) ==> value == current && content == renders(props.renderer, current.value)
      ensures current.Some? && current == old(value) ==> value == old(value) && content == old(content)
      ensures old(Current()) ==> Current()
    {
      OnChange(current);
      subscription := Some(props.value);
      HeldSnoc(upstream, Took(props.value));
      upstream := upstream + [Took(props.value)];
    }

    /** `componentDidMount`. */
    method ComponentDidMount(current: Option<T>)
      requires Valid()
      modifies this`subscription, this`upstream, this`value, this`content, this`refreshes
      ensures old(subscription).None? ==> Valid()
      ensures subscription == Some(props.value)
      ensures Held(upstream) == Held(old(upstream)) + multiset{props.value}
      ensures current.Some? ==> value == current
      ensures old(Current()) ==> Current()
    {
      Subscribe(current);
    }

    /** `subscription.unsubscribe()` followed by `subscription = null`. */
    method Release()
      requires subscription.Some? && Held(upstream) == multiset{subscription.value}
      modifies this`subscription, this`upstream
      ensures subscription == None && Held(upstream) == multiset{}
      ensures upstream == old(upstream) + [Released(old(subscription).value)]
    {
      HeldSnoc(upstream, Released(subscription.value));
      upstream := upstream + [Released(subscription.value)];
      subscription := None;
    }

    /** Release the held subscription and take one on the observable of the props. */
    method Resubscribe(current: Option<T>)
      requires subscription.Some?
      requires Held(upstream) == multiset{subscription.value}
      modifies this`subscription, this`upstream, this`value, this`content, this`refreshes
      ensures subscription == Some(props.value)
      ensures upstream == old(upstream) + [Released(old(subscription).value), Took(props.value)]
      ensures Held(upstream) == multiset{props.value}
      ensures current.Some? ==> value == current
      ensures resetValueOnResubscribe ==> Current()
      ensures !resetValueOnResubscribe && current.Some? && current == old(value) ==> content == old(content)
      ensures old(Current()) ==> Current()
    {
      Release();
      if resetValueOnResubscribe {
        value := None;
      }
      assert old(Current()) ==> Current();
      Subscribe(current);
    }

    /** `updateProps`: resubscribe only when the observable or the renderer changed and a
        subscription is held; the answer is always "no re-render needed". */
    method UpdateProps(newProps: ReactiveProps, current: Option<T>) returns (r: bool)
      requires Valid()
      modifies this`props, this`subscription, this`upstream, this`value, this`content, this`refreshes
      ensures !r
      ensures Valid() && props == newProps
      ensures (old(props).value != newProps.value || old(props).renderer != newProps.renderer) && old(subscription).Some? ==>
        subscription == Some(newProps.value) &&
        upstream == old(upstream) + [Released(old(subscription).value), Took(newProps.value)]
      ensures !((old(props).value != newProps.value || old(props).renderer != newProps.renderer) && old(subscription).Some?) ==>
        subscription == old(subscription) && upstream == old(upstream) && value == old(value) && content == old(content) && refreshes == old(refreshes)
      ensures (old(props).value != newProps.value || old(props).renderer != newProps.renderer) && old(subscription).Some? ==>
        && (current.Some? ==> value == current)
        && (resetValueOnResubscribe ==> Current())
        && (!resetValueOnResubscribe && current.Some? && current == old(value) ==> content == old(content))
      ensures old(props).renderer == newProps.renderer && old(Current()) ==> Current()
    {
      var oldProps := props;
      props := newProps;
      if (oldProps.value != props.value || oldProps.renderer != props.renderer) && subscription != None {
        Resubscribe(current);
      }
      return false;
    }

    /** `componentWillUnmount`: release the subscription, if any. */
    method ComponentWillUnmount()
      requires Valid()
      modifies this`subscription, this`upstream
      ensures Valid() && subscription == None
      ensures Held(upstream) == multiset{}
      ensures old(subscription).Some? ==> upstream == old(upstream) + [Released(old(subscription).value)]
      ensures old(subscription).None? ==> upstream == old(upstream)
    {
      if subscription != None {
        Release();
      }
    }
  }

  /** A mounted component given a new renderer for the same observable. The resubscription
      delivers the value already rendered; as written it is the same reference, so the old
      renderer's content stays. Forgetting the value first redraws it with the new renderer. */
  method RendererSwap(resetValueOnResubscribe: bool) returns (c: ReactiveComponent<nat>)
    ensures c.props.renderer == 2 && c.value == Some(5)
    ensures !resetValueOnResubscribe ==> c.content == 16 && !c.Current()
    ensures resetValueOnResubscribe ==> c.content == 26 && c.Current()
  {
    var renders := (r: RendererRef, v: nat) => 10 * r + v + 1;
    c := new ReactiveComponent(ReactiveProps(1, 1, None), renders, resetValueOnResubscribe);
    c.ComponentDidMount(Some(5));
    assert c.value == Some(5) && c.content == 16 && c.subscription == Some(1);
    var ignored := c.UpdateProps(ReactiveProps(1, 2, None), Some(5));
    assert renders(2, 5) == 26;
  }
}
