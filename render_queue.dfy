/**
 * RenderQueue: the shared queue of components waiting to be re-rendered. A component is
 * pushed when it first becomes dirty; one deferred `rerender` pops the queue (last in, first
 * out), renders each component that is still dirty, then runs the finished-rendering
 * callbacks, also last in, first out. The queue's static fields are the fields of one
 * `RenderQueue` object; each component's `dirty` flag is membership in `dirty`.
 */
module RenderQueues {
  import opened FiniteSets

  type ComponentId = nat
  type CallbackId = nat

  function Reversed<T>(s: seq<T>): (r: seq<T>)
    ensures |r| == |s|
    ensures forall i :: 0 <= i < |s| ==> r[i] == s[|s| - 1 - i]
  {
    if s == [] then [] else [s[|s| - 1]] + Reversed(s[..|s| - 1])
  }

  /** Popping `stack` to the bottom, rendering each popped component that is still dirty (the
      render clears its flag): the components rendered, in order, and the dirty set left. */
  function Drain(stack: seq<ComponentId>, dirty: set<ComponentId>): (r: (seq<ComponentId>, set<ComponentId>))
    ensures forall c :: c in r.0 <==> c in stack && c in dirty
    ensures NoDuplicates(r.0)
    ensures r.1 == dirty - Elements(stack)
    decreases |stack|
  {
    if stack == [] then ([], dirty)
    else
      var p := stack[|stack| - 1];
      var rest := Drain(stack[..|stack| - 1], dirty - {p});
      if p in dirty then ([p] + rest.0, rest.1) else rest
  }

  /** When every queued component is dirty and queued once (the queue's own discipline), the
      drain renders every queued component, most recently queued first. */
  lemma {:induction false} DrainRendersQueueReversed(stack: seq<ComponentId>, dirty: set<ComponentId>)
    requires NoDuplicates(stack) && Elements(stack) <= dirty
    ensures Drain(stack, dirty).0 == Reversed(stack)
    decreases |stack|
  {
    if stack != [] {
      var p := stack[|stack| - 1];
      var init := stack[..|stack| - 1];
      assert NoDuplicates(init);
      assert p !in init;
      assert Elements(init) <= dirty - {p};
      DrainRendersQueueReversed(init, dirty - {p});
    }
  }

  class RenderQueue {
    /** `ITEMS`, bottom first. */
    var items: seq<ComponentId>
    var dirty: set<ComponentId>
    var callbacks: seq<CallbackId>
    var scheduled: bool
    /** Deferred `rerender` commands queued on the browser event loop and not yet run. */
    var pendingRerenders: nat
    /** Components rendered by the queue and callbacks run, in order. */
    var rendered: seq<ComponentId>
    var callbacksRun: seq<CallbackId>

    /** Every dirty component is waiting in the queue; while anything waits, exactly one
        deferred `rerender` is queued. */
    ghost predicate Valid()
      reads this
    {
      dirty <= Elements(items) &&
      (items != [] || callbacks != [] ==> scheduled) &&
      pendingRerenders == (if scheduled then 1 else 0)
    }

    constructor ()
      ensures Valid()
      ensures items == [] && dirty == {} && callbacks == [] && !scheduled
      ensures rendered == [] && callbacksRun == []
    {
      items := [];
      dirty := {};
      callbacks := [];
      scheduled := false;
      pendingRerenders := 0;
      rendered := [];
      callbacksRun := [];
    }

    /** `scheduleRerender`: queue a deferred `rerender` unless one is already queued. */
    method ScheduleRerender()
      modifies this`scheduled, this`pendingRerenders
      ensures scheduled
      ensures pendingRerenders == old(pendingRerenders) + (if old(scheduled) then 0 else 1)
    {
      if !scheduled {
        scheduled := true;
        pendingRerenders := pendingRerenders + 1;
      }
    }

    /** `enqueueRender`: a component already dirty is already queued and is left alone. */
    method EnqueueRender(c: ComponentId)
      requires Valid()
      modifies this
      ensures Valid()
      ensures c in old(dirty) ==>
        items == old(items) && dirty == old(dirty) && scheduled == old(scheduled) &&
        pendingRerenders == old(pendingRerenders)
      ensures c !in old(dirty) ==>
        items == old(items) + [c] && dirty == old(dirty) + {c} && scheduled &&
        pendingRerenders == (if old(scheduled) then old(pendingRerenders) else old(pendingRerenders) + 1)
      ensures callbacks == old(callbacks)
      ensures rendered == old(rendered) && callbacksRun == old(callbacksRun)
    {
      if c !in dirty {
        dirty := dirty + {c};
        items := items + [c];
        ScheduleRerender();
      }
    }

    /** `whenFinishedRendering`. */
    method WhenFinishedRendering(callback: CallbackId)
      requires Valid()
      modifies this
      ensures Valid()
      ensures callbacks == old(callbacks) + [callback] && scheduled
      ensures pendingRerenders == (if old(scheduled) then old(pendingRerenders) else old(pendingRerenders) + 1)
      ensures items == old(items) && dirty == old(dirty)
      ensures rendered == old(rendered) && callbacksRun == old(callbacksRun)
    {
      callbacks := callbacks + [callback];
      ScheduleRerender();
    }

    /** A component rendered outside the queue (a synchronous render in the diff) is no longer
        dirty; it stays in the queue, where `rerender` skips it. */
    method RenderedElsewhere(c: ComponentId)
      requires Valid()
      modifies this`dirty
      ensures Valid()
      ensures dirty == old(dirty) - {c}
    {
      dirty := dirty - {c};
    }

    /** The component drain of `rerender`. */
    method DrainComponents()
      modifies this`items, this`dirty, this`rendered
      ensures items == []
      ensures rendered == old(rendered) + Drain(old(items), old(dirty)).0
      ensures dirty == Drain(old(items), old(dirty)).1
    {
      while items != []
        invariant rendered + Drain(items, dirty).0 == old(rendered) + Drain(old(items), old(dirty)).0
        invariant Drain(items, dirty).1 == Drain(old(items), old(dirty)).1
        decreases |items|
      {
        ghost var before := Drain(items, dirty);
        ghost var wasDirty := dirty;
        var p := items[|items| - 1];
        items := items[..|items| - 1];
        if p in dirty {
          rendered := rendered + [p];
        }
        dirty := dirty - {p};
        assert before.0 == (if p in wasDirty then [p] else []) + Drain(items, dirty).0;
      }
    }

    /** The callback drain of `rerender`. */
    method RunCallbacks()
      modifies this`callbacks, this`callbacksRun
      ensures callbacks == []
      ensures callbacksRun == old(callbacksRun) + Reversed(old(callbacks))
    {
      while callbacks != []
        invariant callbacksRun + Reversed(callbacks) == old(callbacksRun) + Reversed(old(callbacks))
        decreases |callbacks|
      {
        var callback := callbacks[|callbacks| - 1];
        callbacks := callbacks[..|callbacks| - 1];
        callbacksRun := callbacksRun + [callback];
      }
    }

    /** The deferred `rerender` runs: every queued component still dirty is rendered once,
        then every callback runs, and the queue is idle again. */
    method Rerender()
      requires Valid() && pendingRerenders > 0
      modifies this
      ensures Valid()
      ensures rendered == old(rendered) + Drain(old(items), old(dirty)).0
      ensures callbacksRun == old(callbacksRun) + Reversed(old(callbacks))
      ensures items == [] && dirty == {} && callbacks == [] && !scheduled && pendingRerenders == 0
    {
      scheduled := false;
      pendingRerenders := pendingRerenders - 1;
      DrainComponents();
      RunCallbacks();
    }
  }

  /** Two refreshes of one component before the queue runs render it once; the component
      rendered elsewhere in between is queued but skipped. */
  method RefreshTwiceRendersOnce() returns (q: RenderQueue)
    ensures q.rendered == [1, 7] && q.callbacksRun == [9]
  {
    q := QueuedForRerender();
    assert Drain([7], {7}).0 == [7];
    assert Drain([7, 3], {7}).0 == [7];
    assert Drain([7, 3, 1], {7, 1}).0 == [1, 7] by {
      assert [7, 3, 1][..2] == [7, 3];
      assert {7, 1} - {1} == {7};
    }
    assert Reversed([9]) == [9];
    q.Rerender();
  }

  /** The first steps of `RefreshTwiceRendersOnce`: 7 twice, 3 (then rendered elsewhere), 1,
      and a finished-rendering callback. */
  method QueuedForRerender() returns (q: RenderQueue)
    ensures fresh(q) && q.Valid()
    ensures q.items == [7, 3, 1] && q.dirty == {7, 1} && q.callbacks == [9] && q.pendingRerenders > 0
    ensures q.rendered == [] && q.callbacksRun == []
  {
    q := new RenderQueue();
    q.EnqueueRender(7);
    q.EnqueueRender(7);
    q.EnqueueRender(3);
    q.RenderedElsewhere(3);
    q.EnqueueRender(1);
    q.WhenFinishedRendering(9);
  }
}
