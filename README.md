# bukavu reactive core in Dafny

This project models the reactive value-propagation engine of bukavu and the rendering helpers built on it:
- the `Observable` base node and its combinators (computed, chained, cached, sticky, optimistic, explicitly optimistic, optional, debounced, incremental, computed map);
- the `ObservableTree` crawler;
- the leaves (`PendingValue`, `StatefulValue`, `ConstantObservable`) and the two schedulers;
- on the rendering side: `RenderQueue`, `ReactiveComponent`, the `VElement` constructors, the `H` helpers, the `VAttrMapJre` property map, `Style`, `HtmlRenderer` and Bootstrap's `ButtonBuilder`.

Conventions used throughout:
- **Loading.** A node's cached slot is an `Option`, and `None` stands for Java's `null` (loading).
- **Reference identity.** Java reference identity is Dafny equality. A value whose identity matters and that the source allocates (a `MaybeStale`, an `Optional`, a fresh `HashMap`) carries an explicit reference number. That number comes from a per-node allocation counter, so "the same reference" and "an equal value" stay distinct. Where the source calls `equals` or a `CachePredicate`, that comparison is a function parameter.
- **Observers.** Observer callbacks are not run. Each call `observer.onChange(v)` is appended to the node's notification log. Each combinator is a class holding its base `Observable` node and refining `onConnect`/`onDisconnect`. Its `Subscribe` follows the base template: count the observer in, run `onConnect` under `connecting` on the first subscription, then deliver the current slot.
- **Upstream sources.** They are the environment. The value an upstream delivers synchronously on subscription is a parameter of `Subscribe`. Later upstream notifications are public `On...Change` methods; the traces call them only while the subscription is held. Subscriptions taken and released are kept as an event log, and the multiset of held subscriptions is derived from it.
- **Schedulers, timers and deferred tasks.** They are explicit counters, flags or queues, plus methods for "the timer fires" and "the deferred task runs". `GWT.isScript()` is a boolean given at construction.
- **Java `assert`s.** They are taken as enabled, as under test. A failing assert is an error outcome (`AlreadyUnsubscribed`, `Err(...)`, `Threw`).
- **`HashMap` iteration order.** It is unspecified in the source, so it is an input: a sequence listing each key once.
- **Opaque functions.** `SafeHtmlUtils.htmlEscape` and `SafeUri.asString` are opaque function parameters.
- **`Observable` factory methods.** Each factory builds one of the modelled node classes, so each is covered by that class's constructor and operations:
  - `transform` builds a computed node;
  - `join`/`flatten` build a chained node;
  - `cacheIfEqual` and `cache(predicate)` build a cached node with the predicate as a parameter, while `cacheIfSame` returns the node itself and builds nothing;
  - `debounce` builds a debounced node in the browser, and outside it returns the node itself;
  - `or` and `mapFlatMap` are stated as the slot functions `OrSlot` and `MapFlatMap`.

Where the code departs from what its authors evidently meant, the model keeps both versions:
- the code as written, with a trace or lemma exhibiting the input that shows the departure;
- the corrected behaviour, which carries the intended property.

How the two versions appear depends on the finding (see "## Findings"):
- for the node classes, a boolean given at construction selects the behaviour: `distinctKeyCompare`, `singleChain`, `takeBeforeRun`, `resetValueOnResubscribe` and, for the deferred recrawl of `ObservableTree`, `skipDeferredWhenDisconnected`;
- for the two `VElement` findings, the as-written and the corrected behaviour are two functions side by side;
- for the alignment setters of `Style`, the as-written and the intended setters are two methods side by side.

## Model

| member | source | states |
|---|---|---|
| Observables.Broadcast | core/src/main/java/org/activityinfo/bukavu/shared/observable/Observable.java:126-134 | one notification per observer of the snapshot, in subscription order, each carrying the fired value |
| Observables.ObjectsEquals | core/src/main/java/org/activityinfo/bukavu/shared/observable/Observable.java:320-322 | `Objects.equals`: the same reference is equal, loading never equals a value, two values are equal exactly when `equals` says so |
| Observables.RemoveFirst | core/src/main/java/org/activityinfo/bukavu/shared/observable/Observable.java:84 | `List.remove` drops exactly one occurrence of a subscribed observer and leaves a list without it unchanged |
| Observables.RemoveFirstAppended | core/src/main/java/org/activityinfo/bukavu/shared/observable/Observable.java:77-84 | unsubscribing the observer just appended restores the previous observer list |
| Observables.MapFlatMap | core/src/main/java/org/activityinfo/bukavu/shared/observable/Observable.java:201-209 | the result is empty when either input is empty, otherwise the function of both values |
| Observables.OrSelect | core/src/main/java/org/activityinfo/bukavu/shared/observable/Observable.java:360-368 | `or` follows a constant of the primary value when it is present and the backup exactly when it is absent |
| Observables.OrLoadingOnlyWhenBothLoading | core/src/main/java/org/activityinfo/bukavu/shared/observable/Observable.java:360-368 | `a.or(b)` is loading only when both are loading, and shows the primary value whenever there is one |
| Observables.Observable.constructor | core/src/main/java/org/activityinfo/bukavu/shared/observable/Observable.java:39-43 | a new node holds its initial slot, has no observers and is not connecting |
| Observables.Observable.IsConnected | core/src/main/java/org/activityinfo/bukavu/shared/observable/Observable.java:96-98 | connected exactly when the observer list is non-empty |
| Observables.Observable.IsLoading | core/src/main/java/org/activityinfo/bukavu/shared/observable/Observable.java:50-52 | loading exactly when the cached slot is empty |
| Observables.Observable.BeginSubscribe | core/src/main/java/org/activityinfo/bukavu/shared/observable/Observable.java:69-71 | only a subscription made while not connecting and without observers connects, and it raises the connecting flag; nothing else changes |
| Observables.Observable.EndConnect | core/src/main/java/org/activityinfo/bukavu/shared/observable/Observable.java:73-75 | the connecting flag is cleared whatever `onConnect` did |
| Observables.Observable.Attach | core/src/main/java/org/activityinfo/bukavu/shared/observable/Observable.java:77-79 | the observer is appended and receives exactly one notification with the current slot |
| Observables.Observable.Detach | core/src/main/java/org/activityinfo/bukavu/shared/observable/Observable.java:84-88 | a subscribed observer is removed and the outcome says whether it was the last (so `onDisconnect` runs); an unsubscribed one is reported as already unsubscribed and changes nothing |
| Observables.Observable.FireChange | core/src/main/java/org/activityinfo/bukavu/shared/observable/Observable.java:119-137 | the slot becomes the value; a reference-identical value notifies nobody, nor does any value while connecting; otherwise every observer of the snapshot is notified in order |
| Observables.Observable.Overwrite | core/src/main/java/org/activityinfo/bukavu/shared/observable/Observable.java:41 | a subclass writing `cachedValue` directly changes the slot without notifying |
| Observables.Observable.Subscribe | core/src/main/java/org/activityinfo/bukavu/shared/observable/Observable.java:67-91 | `subscribe` on a node with an empty `onConnect`: the observer is appended and told the current slot once |
| Observables.Observable.WaitFor | core/src/main/java/org/activityinfo/bukavu/shared/observable/Observable.java:279-294 | a loaded node returns its value and the collector is unsubscribed again; a loading node fails and the collector stays subscribed |
| ComputedObservables.ArgumentReaction | core/src/main/java/org/activityinfo/bukavu/shared/observable/ComputedObservable.java:59-73 | while connecting a delivery is only recorded; loading clears the argument and fires loading; a new reference is stored and schedules a recompute; the same reference is ignored |
| ComputedObservables.Recomputed | core/src/main/java/org/activityinfo/bukavu/shared/observable/ComputedObservable.java:120-151 | without a call to `compute` the slot is kept; a computation that throws fires loading; otherwise the computed value is fired |
| ComputedObservables.ReconnectUnchangedKeepsValue | core/src/main/java/org/activityinfo/bukavu/shared/observable/ComputedObservable.java:84-117 | reconnecting with the same argument references finds no change and keeps the retained value |
| ComputedObservables.LoadingArgumentBlocksCompute | core/src/main/java/org/activityinfo/bukavu/shared/observable/ComputedObservable.java:123-130 | while the node is loading, one loading argument keeps `compute` from running and the node stays loading |
| ComputedObservables.ComputedObservable.constructor | core/src/main/java/org/activityinfo/bukavu/shared/observable/ComputedObservable.java:36-45 | a new node is loading, with one empty argument slot per argument and no subscriptions |
| ComputedObservables.ComputedObservable.Recompute | core/src/main/java/org/activityinfo/bukavu/shared/observable/ComputedObservable.java:120-151 | `compute` is called exactly when the node holds a value or every argument is loaded; the slot becomes `Recomputed` and is fired as `fireChange` does |
| ComputedObservables.ComputedObservable.MaybeRecompute | core/src/main/java/org/activityinfo/bukavu/shared/observable/ComputedObservable.java:104-117 | on reconnection the node recomputes only when every old and new argument is loaded and one reference changed; otherwise the slot is kept |
| ComputedObservables.ComputedObservable.ScheduleRecompute | core/src/main/java/org/activityinfo/bukavu/shared/observable/ComputedObservable.java:76-80 | a synchronous scheduler recomputes at once; any other scheduler queues one recompute and changes nothing yet |
| ComputedObservables.ComputedObservable.RunQueuedRecompute | core/src/main/java/org/activityinfo/bukavu/shared/observable/ComputedObservable.java:77-79 | a queued recompute runs on the arguments as they are when it runs |
| ComputedObservables.ComputedObservable.OnArgumentChange | core/src/main/java/org/activityinfo/bukavu/shared/observable/ComputedObservable.java:59-73 | the argument slot, the fired loading and the scheduled recompute follow `ArgumentReaction` |
| ComputedObservables.ComputedObservable.OnConnect | core/src/main/java/org/activityinfo/bukavu/shared/observable/ComputedObservable.java:84-102 | every argument is subscribed and its delivery recorded; a node with a retained value recomputes only if the arguments changed, a loading node recomputes |
| ComputedObservables.ComputedObservable.OnDisconnect | core/src/main/java/org/activityinfo/bukavu/shared/observable/ComputedObservable.java:156-164 | every argument subscription is released; argument values and the slot are kept |
| ComputedObservables.ComputedObservable.Subscribe | core/src/main/java/org/activityinfo/bukavu/shared/observable/Observable.java:67-91 | the first subscriber connects the node (arguments delivered, slot settled), later ones change nothing; the observer is told the resulting slot |
| ComputedObservables.ComputedObservable.Unsubscribe | core/src/main/java/org/activityinfo/bukavu/shared/observable/Observable.java:81-90 | removing the last observer releases every argument subscription |
| ComputedObservables.BinaryFunctionTrace | core/src/test/java/org/activityinfo/bukavu/shared/observable/ObservableTest.java:516-545 | `transform(a, b, +)` stays loading until both arguments load, computes once, and releases both arguments on unsubscribe |
| ChainedObservables.Following | core/src/main/java/org/activityinfo/bukavu/shared/observable/ChainedObservable.java:24-26 | a node follows at most one inner observable, the one in its `inner` field |
| ChainedObservables.AtMostOneInnerPrefixes | core/src/main/java/org/activityinfo/bukavu/shared/observable/ChainedObservable.java:51-68 | at no point of the history are two inner subscriptions held |
| ChainedObservables.ChainReaction | core/src/main/java/org/activityinfo/bukavu/shared/observable/ChainedObservable.java:38-47 | the same inner reference is ignored; a new empty slot drops the inner; a new inner is switched to |
| ChainedObservables.RelinkKeepsOneInner | core/src/main/java/org/activityinfo/bukavu/shared/observable/ChainedObservable.java:51-68 | switching releases the old inner before taking the new one, so at most one inner subscription is ever held and exactly the new one afterwards |
| ChainedObservables.ChainedObservable.constructor | core/src/main/java/org/activityinfo/bukavu/shared/observable/ChainedObservable.java:28-30 | a new node is loading and holds no subscription |
| ChainedObservables.ChainedObservable.OnOuterChange | core/src/main/java/org/activityinfo/bukavu/shared/observable/ChainedObservable.java:38-47 | the node follows the new inner, releasing the old one; dropping fires loading and switching fires the new inner's slot |
| ChainedObservables.ChainedObservable.OnInnerChange | core/src/main/java/org/activityinfo/bukavu/shared/observable/ChainedObservable.java:64-66 | every notification of the followed inner is forwarded through `fireChange` |
| ChainedObservables.ChainedObservable.OnConnect | core/src/main/java/org/activityinfo/bukavu/shared/observable/ChainedObservable.java:33-49 | subscribing to the outer follows its current inner at once and takes that inner's slot |
| ChainedObservables.ChainedObservable.OnDisconnect | core/src/main/java/org/activityinfo/bukavu/shared/observable/ChainedObservable.java:71-82 | the inner and the cached value are forgotten and both subscriptions released |
| ChainedObservables.ChainedObservable.Subscribe | core/src/main/java/org/activityinfo/bukavu/shared/observable/Observable.java:67-91 | the first subscriber connects through the outer; the observer is told the resulting slot |
| ChainedObservables.ChainedObservable.Unsubscribe | core/src/main/java/org/activityinfo/bukavu/shared/observable/Observable.java:81-90 | removing the last observer releases the inner and outer and forgets the value; any other unsubscribe keeps the value and the inner it follows |
| ChainedObservables.ChainedLoadingTrace | core/src/test/java/org/activityinfo/bukavu/shared/observable/ObservableTest.java:548-583 | loading and loaded values pass through the chain, and dropping the inner fires loading |
| ChainedObservables.ChainedSwitchTrace | core/src/test/java/org/activityinfo/bukavu/shared/observable/ObservableTest.java:585-605 | switching inners releases the old one first, and the last unsubscribe releases the current inner |
| CachedObservables.CachedForwardIsChange | core/src/main/java/org/activityinfo/bukavu/shared/observable/CachedObservable.java:37-47 | with a reflexive predicate every forwarded value is a real change of slot |
| CachedObservables.CachedObservable.constructor | core/src/main/java/org/activityinfo/bukavu/shared/observable/CachedObservable.java:28-31 | a new node is loading and not subscribed to its source |
| CachedObservables.CachedObservable.OnSourceChange | core/src/main/java/org/activityinfo/bukavu/shared/observable/CachedObservable.java:37-47 | the slot changes and observers are notified exactly when `CachedForwards` holds |
| CachedObservables.CachedObservable.OnConnect | core/src/main/java/org/activityinfo/bukavu/shared/observable/CachedObservable.java:34-49 | the source is subscribed and its synchronous slot passes through the listener |
| CachedObservables.CachedObservable.OnDisconnect | core/src/main/java/org/activityinfo/bukavu/shared/observable/CachedObservable.java:52-56 | a held source subscription is released; without one the assertion fails |
| CachedObservables.CachedObservable.Subscribe | core/src/main/java/org/activityinfo/bukavu/shared/observable/Observable.java:67-91 | the first subscriber connects to the source; the observer is told the resulting slot |
| CachedObservables.CachedObservable.Unsubscribe | core/src/main/java/org/activityinfo/bukavu/shared/observable/Observable.java:81-90 | removing an observer changes neither the slot nor the log |
| CachedObservables.CachingTrace | core/src/test/java/org/activityinfo/bukavu/shared/observable/ObservableTest.java:456-479 | `transform(x -> x % 10).cacheIfEqual()` over 2, 22 and 301 notifies loading, 2 and 1: the equal 2 is swallowed |
| StickyObservables.StickySlotFreezes | core/src/main/java/org/activityinfo/bukavu/shared/observable/Sticky.java:39-61 | a node holding a value keeps it whatever the source delivers; a loading node ends with the first loaded value the source delivered |
| StickyObservables.FirstLoaded | core/src/main/java/org/activityinfo/bukavu/shared/observable/Sticky.java:42-43 | the first loaded value exists exactly when some delivery is loaded, and it is one of the deliveries |
| StickyObservables.Sticky.constructor | core/src/main/java/org/activityinfo/bukavu/shared/observable/Sticky.java:26-28 | a new sticky node is loading, unobserved and holds no subscription |
| StickyObservables.Sticky.OnLoaded | core/src/main/java/org/activityinfo/bukavu/shared/observable/Sticky.java:56-69 | the value is fired only when the node was loading, and the subscription is released |
| StickyObservables.Sticky.OnSourceChange | core/src/main/java/org/activityinfo/bukavu/shared/observable/Sticky.java:39-46 | only a loaded value reaching a loading node is fired, and only that releases the subscription |
| StickyObservables.Sticky.OnConnect | core/src/main/java/org/activityinfo/bukavu/shared/observable/Sticky.java:31-54 | the node stays subscribed to its source exactly when it is still loading after the synchronous delivery; nothing is notified while connecting |
| StickyObservables.Sticky.OnDisconnect | core/src/main/java/org/activityinfo/bukavu/shared/observable/Sticky.java:72-77 | no subscription is held afterwards; the value is kept |
| StickyObservables.Sticky.Subscribe | core/src/main/java/org/activityinfo/bukavu/shared/observable/Observable.java:67-91 | the first subscriber connects and may load the node from the source; the observer is told the resulting slot once |
| StickyObservables.Sticky.Unsubscribe | core/src/main/java/org/activityinfo/bukavu/shared/observable/Observable.java:81-90 | removes the observer and reports whether it was the last; slot and log are unchanged |
| StickyObservables.StickyLoadedSourceTrace | core/src/test/java/org/activityinfo/bukavu/shared/observable/StickyTest.java:45-57 | over a source already loaded, the subscriber sees one loaded notification and the source is released at once |
| StickyObservables.StickyLoadingSourceTrace | core/src/test/java/org/activityinfo/bukavu/shared/observable/StickyTest.java:60-87 | over a loading source, the subscriber sees loading, then the first loaded value only, and the source is released |
| OptimisticObservables.LastLoaded | core/src/main/java/org/activityinfo/bukavu/shared/observable/OptimisticObservable.java:39-41 | the last loaded value exists exactly when some delivery is loaded |
| OptimisticObservables.OptimisticFoldSnoc | core/src/main/java/org/activityinfo/bukavu/shared/observable/OptimisticObservable.java:39-41 | one more delivery replaces the slot when it is loaded and leaves it otherwise |
| OptimisticObservables.OptimisticHoldsLastLoaded | core/src/main/java/org/activityinfo/bukavu/shared/observable/OptimisticObservable.java:34-43 | after any deliveries the slot is the last loaded value delivered, or the default when none was loaded: loading is never passed on |
| OptimisticObservables.OptimisticObservable.constructor | core/src/main/java/org/activityinfo/bukavu/shared/observable/OptimisticObservable.java:27-30 | the initial slot is the default value, which may be loading |
| OptimisticObservables.OptimisticObservable.OnSourceChange | core/src/main/java/org/activityinfo/bukavu/shared/observable/OptimisticObservable.java:36-42 | a loaded value that is a new reference is fired; loading and the held reference notify nobody |
| OptimisticObservables.OptimisticObservable.OnConnect | core/src/main/java/org/activityinfo/bukavu/shared/observable/OptimisticObservable.java:33-44 | the node subscribes and takes the synchronous delivery under the same rule, without notifying while connecting |
| OptimisticObservables.OptimisticObservable.OnDisconnect | core/src/main/java/org/activityinfo/bukavu/shared/observable/OptimisticObservable.java:47-51 | the subscription is released; without one the assertion fails |
| OptimisticObservables.OptimisticObservable.Subscribe | core/src/main/java/org/activityinfo/bukavu/shared/observable/Observable.java:67-91 | the first subscriber connects to the source; the observer is told the resulting slot once |
| OptimisticObservables.OptimisticObservable.Unsubscribe | core/src/main/java/org/activityinfo/bukavu/shared/observable/Observable.java:81-90 | removes the observer and reports whether it was the last; slot and log are unchanged |
| OptimisticObservables.OptimisticTrace | core/src/test/java/org/activityinfo/bukavu/shared/observable/ObservableTest.java:482-513 | the doubled values 4 and 160 reach the observer and the loading in between does not |
| OptimisticTimeoutObservables.TimeoutReaction | core/src/main/java/org/activityinfo/bukavu/shared/observable/OptimisticObservableWithTimeout.java:63-80 | a new loaded reference is fired (cancelling a running timer); loading starts a stopped timer and waits on a running one |
| OptimisticTimeoutObservables.OptimisticObservableWithTimeout.constructor | core/src/main/java/org/activityinfo/bukavu/shared/observable/OptimisticObservableWithTimeout.java:29-33 | the slot is the default; no subscription and no timer yet |
| OptimisticTimeoutObservables.OptimisticObservableWithTimeout.OnSourceChange | core/src/main/java/org/activityinfo/bukavu/shared/observable/OptimisticObservableWithTimeout.java:63-80 | the slot and timer follow the reaction; loading before the timer exists fails the assertion |
| OptimisticTimeoutObservables.OptimisticObservableWithTimeout.OnTimeout | core/src/main/java/org/activityinfo/bukavu/shared/observable/OptimisticObservableWithTimeout.java:82-86 | the expired timer makes the node fire loading |
| OptimisticTimeoutObservables.OptimisticObservableWithTimeout.OnConnect | core/src/main/java/org/activityinfo/bukavu/shared/observable/OptimisticObservableWithTimeout.java:36-52 | the timer exists afterwards and the subscription is held; the synchronous delivery follows the reaction |
| OptimisticTimeoutObservables.OptimisticObservableWithTimeout.OnDisconnect | core/src/main/java/org/activityinfo/bukavu/shared/observable/OptimisticObservableWithTimeout.java:55-61 | the subscription is released, a running timer keeps running; without a subscription the assertion fails |
| OptimisticTimeoutObservables.OptimisticObservableWithTimeout.Subscribe | core/src/main/java/org/activityinfo/bukavu/shared/observable/Observable.java:67-91 | the first subscriber connects; the observer is told the resulting slot once |
| OptimisticTimeoutObservables.OptimisticObservableWithTimeout.Unsubscribe | core/src/main/java/org/activityinfo/bukavu/shared/observable/Observable.java:81-90 | removes the observer; slot, log and timer are unchanged |
| OptimisticTimeoutObservables.TimeoutTrace | core/src/main/java/org/activityinfo/bukavu/shared/observable/OptimisticObservableWithTimeout.java:63-86 | a reload within the timeout is invisible; staying loading until the timer fires makes the observer see loading |
| MaybeStales.Outdated | core/src/main/java/org/activityinfo/bukavu/shared/observable/MaybeStale.java:42-48 | the result is stale with the same payload; a stale instance is returned itself, a fresh one copied into a new instance |
| MaybeStales.OutdatedIdempotent | core/src/main/java/org/activityinfo/bukavu/shared/observable/MaybeStale.java:42-48 | outdating twice gives the same instance as outdating once |
| MaybeStales.EqualsCharacterised | core/src/main/java/org/activityinfo/bukavu/shared/observable/MaybeStale.java:51-61 | two instances are equal exactly when their flags match and their payloads are equal |
| MaybeStales.OutdatedNotEqualToFresh | core/src/main/java/org/activityinfo/bukavu/shared/observable/MaybeStale.java:51-61 | a fresh instance is never equal to its outdated copy |
| ExplicitlyOptimisticObservables.ExplicitSlot | core/src/main/java/org/activityinfo/bukavu/shared/observable/ExplicitlyOptimisticObservable.java:49-56 | a loaded value is fired fresh; loading fires the stale version of a held value; loading with nothing held fires nothing |
| ExplicitlyOptimisticObservables.ExplicitNeverLoadingAgain | core/src/main/java/org/activityinfo/bukavu/shared/observable/ExplicitlyOptimisticObservable.java:49-56 | once a value is held the node never goes loading again, and a loading source marks it stale |
| ExplicitlyOptimisticObservables.ExplicitlyOptimisticObservable.constructor | core/src/main/java/org/activityinfo/bukavu/shared/observable/ExplicitlyOptimisticObservable.java:25-27 | a new node is loading, unobserved and unsubscribed |
| ExplicitlyOptimisticObservables.ExplicitlyOptimisticObservable.OnSourceChange | core/src/main/java/org/activityinfo/bukavu/shared/observable/ExplicitlyOptimisticObservable.java:49-56 | the slot becomes the explicit slot for the delivery, allocating one instance when it does; nothing is fired for loading over loading |
| ExplicitlyOptimisticObservables.ExplicitlyOptimisticObservable.OnConnect | core/src/main/java/org/activityinfo/bukavu/shared/observable/ExplicitlyOptimisticObservable.java:30-37 | the node subscribes and applies the synchronous delivery without notifying while connecting |
| ExplicitlyOptimisticObservables.ExplicitlyOptimisticObservable.OnDisconnect | core/src/main/java/org/activityinfo/bukavu/shared/observable/ExplicitlyOptimisticObservable.java:40-47 | a held value is silently replaced by its stale version and the subscription released; without one the assertion fails |
| ExplicitlyOptimisticObservables.ExplicitlyOptimisticObservable.Subscribe | core/src/main/java/org/activityinfo/bukavu/shared/observable/Observable.java:67-91 | the first subscriber connects; the observer is told the resulting slot once |
| ExplicitlyOptimisticObservables.ExplicitlyOptimisticObservable.Unsubscribe | core/src/main/java/org/activityinfo/bukavu/shared/observable/Observable.java:81-90 | removes the observer; the last one leaves a held value as its stale version (`outdated()`) without telling anybody, any other unsubscribe leaves the value unchanged |
| ExplicitlyOptimisticObservables.StaleTrace | core/src/main/java/org/activityinfo/bukavu/shared/observable/ExplicitlyOptimisticObservable.java:49-56 | the observer sees loading, the fresh value and then its stale version once, never loading again |
| OptionalObservables.OfNullable | core/src/main/java/org/activityinfo/bukavu/shared/observable/OptionalObservable.java:37-39 | `Optional.ofNullable` is empty exactly for loading, and otherwise a new instance holding the value |
| OptionalObservables.UnwrapOfNullable | core/src/main/java/org/activityinfo/bukavu/shared/observable/OptionalObservable.java:37-39 | unwrapping the optional gives back exactly the source's value or loading |
| OptionalObservables.OptionalObservable.constructor | core/src/main/java/org/activityinfo/bukavu/shared/observable/OptionalObservable.java:27-30 | the slot starts as the empty optional, so the node is never loading |
| OptionalObservables.OptionalObservable.OnSourceChange | core/src/main/java/org/activityinfo/bukavu/shared/observable/OptionalObservable.java:37-39 | the slot wraps the source value; a loaded value is a new instance and always notifies; loading over empty notifies nobody |
| OptionalObservables.OptionalObservable.OnConnect | core/src/main/java/org/activityinfo/bukavu/shared/observable/OptionalObservable.java:33-35 | the node subscribes and wraps the synchronous delivery, without notifying while connecting |
| OptionalObservables.OptionalObservable.OnDisconnect | core/src/main/java/org/activityinfo/bukavu/shared/observable/OptionalObservable.java:42-48 | the source subscription is released if held; the slot is kept |
| OptionalObservables.OptionalObservable.Subscribe | core/src/main/java/org/activityinfo/bukavu/shared/observable/Observable.java:67-91 | the first subscriber connects and the slot wraps the source's value; the observer is told the resulting slot |
| OptionalObservables.OptionalObservable.Unsubscribe | core/src/main/java/org/activityinfo/bukavu/shared/observable/Observable.java:81-90 | removes the observer and reports whether it was the last; slot and log are unchanged |
| DebouncedObservables.DebouncedObservable.constructor | core/src/main/java/org/activityinfo/bukavu/shared/observable/DebouncedObservable.java:30-33 | a new node is loading, with no timer, no pending value and no subscription |
| DebouncedObservables.DebouncedObservable.OnSourceChange | core/src/main/java/org/activityinfo/bukavu/shared/observable/DebouncedObservable.java:40-58 | while connecting the value is fired straight through; otherwise it only becomes the pending value and the one timer, created on first use, is (re)scheduled; nothing is notified |
| DebouncedObservables.DebouncedObservable.OnTimerFires | core/src/main/java/org/activityinfo/bukavu/shared/observable/DebouncedObservable.java:47-49 | an expired timer fires the current pending value, so a burst is delivered as its last value |
| DebouncedObservables.DebouncedObservable.OnConnect | core/src/main/java/org/activityinfo/bukavu/shared/observable/DebouncedObservable.java:36-60 | the node subscribes and takes the synchronous delivery as its slot without notifying |
| DebouncedObservables.DebouncedObservable.OnDisconnect | core/src/main/java/org/activityinfo/bukavu/shared/observable/DebouncedObservable.java:63-71 | the slot, pending value and timer are forgotten and the source released; a scheduled expiry is not cancelled |
| DebouncedObservables.DebouncedObservable.Subscribe | core/src/main/java/org/activityinfo/bukavu/shared/observable/Observable.java:67-91 | the first subscriber connects and takes the source's value; the observer is told the resulting slot |
| DebouncedObservables.DebouncedObservable.Unsubscribe | core/src/main/java/org/activityinfo/bukavu/shared/observable/Observable.java:81-90 | removing the last observer forgets slot, pending value and timer; any other unsubscribe leaves all three unchanged |
| DebouncedObservables.DebounceTrace | core/src/main/java/org/activityinfo/bukavu/shared/observable/DebouncedObservable.java:38-59 | the connect-time value passes through, and a burst of three values reaches the observer as its last value alone |
| DebouncedObservables.DebouncedObservable.ReceiveBurst | core/src/main/java/org/activityinfo/bukavu/shared/observable/DebouncedObservable.java:38-59 | for any burst of source values while connected, the one timer is restarted, only the last value stays pending, and nobody is notified |
| DebouncedObservables.DebouncedObservable.BurstThenExpiry | core/src/main/java/org/activityinfo/bukavu/shared/observable/DebouncedObservable.java:38-59 | for any burst followed by the timer's expiry, the observers are told the burst's last value once and none of the earlier ones |
| IncrementalObservables.IncrementalObservable.constructor | core/src/main/java/org/activityinfo/bukavu/shared/observable/IncrementalObservable.java:24-27 | a new node is loading, has executed nothing, is not complete and has no slice queued |
| IncrementalObservables.IncrementalObservable.OnConnect | core/src/main/java/org/activityinfo/bukavu/shared/observable/IncrementalObservable.java:30-34 | connecting queues one more slice unless the task is complete |
| IncrementalObservables.IncrementalObservable.RunSlice | core/src/main/java/org/activityinfo/bukavu/shared/observable/IncrementalObservable.java:37-49 | a slice of a node neither connected nor connecting does nothing; otherwise the task runs once, its result is fired, and the node completes or queues the next slice |
| IncrementalObservables.IncrementalObservable.Subscribe | core/src/main/java/org/activityinfo/bukavu/shared/observable/Observable.java:67-91 | the first subscriber of an incomplete node queues a slice; the observer is told the current slot |
| IncrementalObservables.IncrementalObservable.Unsubscribe | core/src/main/java/org/activityinfo/bukavu/shared/observable/Observable.java:81-90 | removes the observer; the slot and log are unchanged and queued slices stay queued |
| IncrementalObservables.IncrementalTrace | core/src/test/java/org/activityinfo/bukavu/shared/observable/IncrementalObservableTest.java:50-79 | every slice fires its partial result and the task completes with nothing left queued |
| IncrementalObservables.CancellationTrace | core/src/test/java/org/activityinfo/bukavu/shared/observable/IncrementalObservableTest.java:83-116 | after the last observer leaves, the queued slice runs without executing the task and the chain ends |
| IncrementalObservables.ReconnectDuplicatesSlices | core/src/main/java/org/activityinfo/bukavu/shared/observable/IncrementalObservable.java:30-49 | as written, reconnecting while a slice is queued starts a second chain: the task executes after completing and a slice remains queued |
| IncrementalObservables.ReconnectKeepsOneChain | core/src/main/java/org/activityinfo/bukavu/shared/observable/IncrementalObservable.java:30-49 | with one chain per node, the same reconnection executes the task exactly as often as it needs and leaves nothing queued |
| ComputedMaps.SetsEqualAcceptsRepeatedKey | core/src/main/java/org/activityinfo/bukavu/shared/observable/ObservableComputedMap.java:68-73 | as written, `[1, 1]` compares equal to the larger key set `{1, 2}`, and `[1, 1, 2]` compares unequal to the key set it holds exactly |
| ComputedMaps.ElementsCardinality | core/src/main/java/org/activityinfo/bukavu/shared/observable/ObservableComputedMap.java:68-73 | a collection without repeated keys has as many distinct keys as elements |
| ComputedMaps.SetsEqualAgreesWithoutDuplicates | core/src/main/java/org/activityinfo/bukavu/shared/observable/ObservableComputedMap.java:68-73 | on collections without repeated keys the written size-and-containment test is exactly key-set equality |
| ComputedMaps.ObservableComputedMap.constructor | core/src/main/java/org/activityinfo/bukavu/shared/observable/ObservableComputedMap.java:37-40 | a new node is loading with an empty cache, no factory calls and no key subscription; the key comparison is chosen at construction |
| ComputedMaps.ObservableComputedMap.CollectEntries | core/src/main/java/org/activityinfo/bukavu/shared/observable/ObservableComputedMap.java:56-59 | the new map has exactly the given keys, each mapped to its cached observable; the factory is called once for each key not cached before, and for no other |
| ComputedMaps.ObservableComputedMap.OnKeysChange | core/src/main/java/org/activityinfo/bukavu/shared/observable/ObservableComputedMap.java:47-66 | loading keys fire loading; keys that `setsEqual` (as written, or the intended comparison when the flag selects it) finds unchanged change nothing; otherwise a new map over exactly the new keys, reusing cached observables and calling the factory once per new key, is fired and the cache is swept to it |
| ComputedMaps.CorrectedSlotListsKeys | core/src/main/java/org/activityinfo/bukavu/shared/observable/ObservableComputedMap.java:47-73 | with the intended comparison, the map left after a loaded key collection has exactly the collection's keys, for every cached map, cache and factory |
| ComputedMaps.RepeatedKeyTrace | core/src/main/java/org/activityinfo/bukavu/shared/observable/ObservableComputedMap.java:47-73 | keys `[1, 2]` then `[1, 1]`: as written the map over `{1, 2}` is kept, nobody is told and key 2 stays cached; with the intended comparison a map over `{1}` is fired and key 2 is swept |
| ComputedMaps.ObservableComputedMap.OnConnect | core/src/main/java/org/activityinfo/bukavu/shared/observable/ObservableComputedMap.java:43-45 | the node subscribes to its keys; their synchronous delivery runs `keysChanged`, so the slot and the cache become what `keysChanged` gives for the initial keys, with no notification while connecting |
| ComputedMaps.ObservableComputedMap.OnDisconnect | core/src/main/java/org/activityinfo/bukavu/shared/observable/ObservableComputedMap.java:76-89 | the key subscription is released; the cache is cleared now, or in script mode by one more deferred task |
| ComputedMaps.ObservableComputedMap.RunDeferredClear | core/src/main/java/org/activityinfo/bukavu/shared/observable/ObservableComputedMap.java:81-85 | the deferred task clears the cache only if the node is still disconnected |
| ComputedMaps.ObservableComputedMap.Subscribe | core/src/main/java/org/activityinfo/bukavu/shared/observable/Observable.java:67-91 | the first subscriber finds the slot and cache that `keysChanged` gives for the initial keys; later subscribers change neither; the observer is told the resulting slot |
| ComputedMaps.ObservableComputedMap.Unsubscribe | core/src/main/java/org/activityinfo/bukavu/shared/observable/Observable.java:81-90 | removing the last observer clears the cache outside script mode, and in script mode keeps it and queues one deferred clear; any other unsubscribe leaves the cache and the deferred clears unchanged |
| TreeCrawls.LoadingIn | core/src/main/java/org/activityinfo/bukavu/shared/observable/ObservableTree.java:211-212 | a key is counted as loading exactly when it is in the set and its node has no loaded value |
| TreeCrawls.CrawlFrom | core/src/main/java/org/activityinfo/bukavu/shared/observable/ObservableTree.java:201-219 | the crawl only adds keys: the parent joins the reachable set, which stays within the closed key universe |
| TreeCrawls.CrawlKids | core/src/main/java/org/activityinfo/bukavu/shared/observable/ObservableTree.java:215-217 | crawling the children of a loaded node only adds keys within the universe |
| TreeCrawls.CrawlFromSameValues | core/src/main/java/org/activityinfo/bukavu/shared/observable/ObservableTree.java:201-219 | the crawl depends on the recorded node values only through the values it reads |
| TreeCrawls.CrawlKidsSameValues | core/src/main/java/org/activityinfo/bukavu/shared/observable/ObservableTree.java:215-217 | the loop over children depends on the recorded node values only through the values it reads |
| TreeCrawls.CrawlFromLoading | core/src/main/java/org/activityinfo/bukavu/shared/observable/ObservableTree.java:201-219 | the loading set grows by exactly the newly reached keys whose node is still loading |
| TreeCrawls.CrawlKidsLoading | core/src/main/java/org/activityinfo/bukavu/shared/observable/ObservableTree.java:215-217 | over the children loop, the loading set grows by exactly the newly reached loading keys |
| TreeCrawls.CrawlFromCloses | core/src/main/java/org/activityinfo/bukavu/shared/observable/ObservableTree.java:201-219 | every child of a newly reached loaded node is reached |
| TreeCrawls.CrawlKidsCloses | core/src/main/java/org/activityinfo/bukavu/shared/observable/ObservableTree.java:215-217 | every child key visited, and every child of a newly reached loaded node, is reached |
| TreeCrawls.CrawlFromMinimal | core/src/main/java/org/activityinfo/bukavu/shared/observable/ObservableTree.java:201-219 | the newly reached keys lie in every set holding the parent and closed under the children of loaded nodes |
| TreeCrawls.CrawlKidsMinimal | core/src/main/java/org/activityinfo/bukavu/shared/observable/ObservableTree.java:215-217 | the keys the children loop reaches lie in every child-closed set holding those children |
| TreeCrawls.CrawlFindsReachable | core/src/main/java/org/activityinfo/bukavu/shared/observable/ObservableTree.java:142-219 | a crawl from the root reaches exactly the smallest child-closed set holding the root, and the loading set is exactly its loading nodes |
| ObservableTrees.Deliver | core/src/main/java/org/activityinfo/bukavu/shared/observable/ObservableTree.java:131-132 | delivered node changes only overwrite the keys they name; every other key keeps its value |
| ObservableTrees.Rebuilt | core/src/main/java/org/activityinfo/bukavu/shared/observable/ObservableTree.java:172-175 | a tree is fired exactly when no reached node is loading and `build` does not throw, and it is the tree `build` returns |
| ObservableTrees.ReleaseOne | core/src/main/java/org/activityinfo/bukavu/shared/observable/ObservableTree.java:122-129 | releasing one held subscription leaves exactly the others held |
| ObservableTrees.ReleaseAll | core/src/main/java/org/activityinfo/bukavu/shared/observable/ObservableTree.java:87-95 | every held subscription is released once, appended after the earlier events, and none stays held |
| ObservableTrees.ObservableTree.constructor | core/src/main/java/org/activityinfo/bukavu/shared/observable/ObservableTree.java:76-79 | a new tree is loading, has no connected nodes, no recorded values, no subscriptions and no deferred recrawls |
| ObservableTrees.ObservableTree.ConnectTo | core/src/main/java/org/activityinfo/bukavu/shared/observable/ObservableTree.java:97-120 | the key becomes connected; only a key not already connected takes a new subscription; the values read for every key are unchanged |
| ObservableTrees.ObservableTree.DisconnectFrom | core/src/main/java/org/activityinfo/bukavu/shared/observable/ObservableTree.java:122-129 | the key is forgotten and its subscription, if any, released |
| ObservableTrees.ObservableTree.Crawl | core/src/main/java/org/activityinfo/bukavu/shared/observable/ObservableTree.java:201-219 | the reachable and loading sets are those of the crawl function; exactly the newly reached keys are connected; values read are unchanged |
| ObservableTrees.ObservableTree.CrawlChildren | core/src/main/java/org/activityinfo/bukavu/shared/observable/ObservableTree.java:215-217 | the loop over the children computes the children crawl, connecting exactly what it newly reaches |
| ObservableTrees.ObservableTree.Evict | core/src/main/java/org/activityinfo/bukavu/shared/observable/ObservableTree.java:160-166 | afterwards only connected keys that were reached stay connected, with their values kept |
| ObservableTrees.ObservableTree.DeliverDuringFire | core/src/main/java/org/activityinfo/bukavu/shared/observable/ObservableTree.java:131-136 | changes arriving while crawling are recorded and a loaded one marks a crawl pending instead of recrawling |
| ObservableTrees.ObservableTree.RebuildTree | core/src/main/java/org/activityinfo/bukavu/shared/observable/ObservableTree.java:224-233 | the built tree is fired, unless `build` throws, in which case nothing changes |
| ObservableTrees.ObservableTree.CrawlAndEvict | core/src/main/java/org/activityinfo/bukavu/shared/observable/ObservableTree.java:158-166 | after the crawl and the clean-up exactly the reached keys are connected, holding the values the crawl saw |
| ObservableTrees.ObservableTree.Recrawl | core/src/main/java/org/activityinfo/bukavu/shared/observable/ObservableTree.java:146-196 | fire loading, crawl from the root, evict, build if nothing is loading, and defer one recrawl if a loaded node changed meanwhile |
| ObservableTrees.ObservableTree.Conclude | core/src/main/java/org/activityinfo/bukavu/shared/observable/ObservableTree.java:172-195 | the tree is rebuilt only when nothing reached is loading; the crawl flag is cleared and one recrawl deferred exactly when a loaded node changed during the fire |
| ObservableTrees.ObservableTree.OnNodeChanged | core/src/main/java/org/activityinfo/bukavu/shared/observable/ObservableTree.java:131-140 | a node going loading is only recorded; a loaded node value triggers a full recrawl |
| ObservableTrees.ObservableTree.OnConnect | core/src/main/java/org/activityinfo/bukavu/shared/observable/ObservableTree.java:82-85 | connecting the tree connects the root and recrawls |
| ObservableTrees.ObservableTree.OnDisconnect | core/src/main/java/org/activityinfo/bukavu/shared/observable/ObservableTree.java:87-95 | every node subscription is released once and the node maps are emptied |
| ObservableTrees.ObservableTree.RunScheduledRecrawl | core/src/main/java/org/activityinfo/bukavu/shared/observable/ObservableTree.java:187-195 | the deferred task recrawls as written; with the correction it does nothing once the tree has no observers |
| ObservableTrees.ObservableTree.Subscribe | core/src/main/java/org/activityinfo/bukavu/shared/observable/Observable.java:67-91 | the first observer connects exactly the nodes reachable from the root and the slot is the tree built from them, if none is loading; the observer is told the resulting slot |
| ObservableTrees.ObservableTree.Unsubscribe | core/src/main/java/org/activityinfo/bukavu/shared/observable/Observable.java:81-90 | the last observer leaving releases every node subscription; otherwise nothing but the observer list changes |
| ObservableTreeTraces.KeysClosed | core/src/main/java/org/activityinfo/bukavu/shared/observable/ObservableTree.java:39-64 | the two-key scenario's universe is closed under children |
| ObservableTreeTraces.CrawlOfLeafRoot | core/src/main/java/org/activityinfo/bukavu/shared/observable/ObservableTree.java:201-219 | with nothing recorded, a crawl reaches the root alone, a loaded leaf |
| ObservableTreeTraces.CrawlOfRootWithChild | core/src/main/java/org/activityinfo/bukavu/shared/observable/ObservableTree.java:201-219 | once the root has a child, a crawl reaches both keys, both loaded |
| ObservableTreeTraces.SubscribeObserver | core/src/main/java/org/activityinfo/bukavu/shared/observable/ObservableTree.java:81-85 | the first observer connects the tree to its leaf root |
| ObservableTreeTraces.RootGainsChild | core/src/main/java/org/activityinfo/bukavu/shared/observable/ObservableTree.java:131-195 | a change made by the observer while the tree fires defers one recrawl |
| ObservableTreeTraces.ObserverLeaves | core/src/main/java/org/activityinfo/bukavu/shared/observable/ObservableTree.java:87-95 | the last observer leaving releases every node subscription |
| ObservableTreeTraces.DeferredRecrawlRuns | core/src/main/java/org/activityinfo/bukavu/shared/observable/ObservableTree.java:187-195 | as written, the deferred recrawl of a disconnected tree subscribes to the root again; corrected, it holds nothing |
| ObservableTreeTraces.RunScenario | core/src/main/java/org/activityinfo/bukavu/shared/observable/ObservableTree.java:187-195 | the whole scenario ends without observers but holding a root subscription as written, and holding nothing corrected |
| PendingValues.PendingValue.Loading | core/src/main/java/org/activityinfo/bukavu/shared/observable/PendingValue.java:32-34 | a value created without an argument stores nothing and is loading |
| PendingValues.PendingValue.Of | core/src/main/java/org/activityinfo/bukavu/shared/observable/PendingValue.java:36-39 | a value created with an argument stores it and is loaded with it |
| PendingValues.PendingValue.UpdateValue | core/src/main/java/org/activityinfo/bukavu/shared/observable/PendingValue.java:44-47 | the stored value and the slot both become the new value, which may be loading, and it is fired |
| PendingValues.PendingValue.Clear | core/src/main/java/org/activityinfo/bukavu/shared/observable/PendingValue.java:49-51 | loading is fired while the stored value is kept |
| PendingValues.PendingValue.OnConnect | core/src/main/java/org/activityinfo/bukavu/shared/observable/PendingValue.java:54-56 | connecting fires the stored value, so a cleared value is loaded again |
| PendingValues.PendingValue.WaitFor | core/src/main/java/org/activityinfo/bukavu/shared/observable/PendingValue.java:60-65 | returns the stored value when there is one, and fails exactly when nothing is stored |
| PendingValues.PendingValue.UpdateIfNotEqual | core/src/main/java/org/activityinfo/bukavu/shared/observable/PendingValue.java:76-84 | reports a change exactly when the new value is not `Objects.equals` to the stored one, and only then stores and fires it |
| PendingValues.PendingValue.UpdateIfNotSame | core/src/main/java/org/activityinfo/bukavu/shared/observable/PendingValue.java:86-94 | reports a change exactly when the new value is a different reference, and only then stores and fires it |
| PendingValues.PendingValue.Subscribe | core/src/main/java/org/activityinfo/bukavu/shared/observable/Observable.java:67-91 | the first subscriber makes the slot the stored value; the observer is told the resulting slot |
| PendingValues.PendingValue.Unsubscribe | core/src/main/java/org/activityinfo/bukavu/shared/observable/Observable.java:81-90 | removes the observer; slot and log are unchanged |
| PendingValues.ReconnectAfterClear | core/src/main/java/org/activityinfo/bukavu/shared/observable/PendingValue.java:49-65 | while cleared, `waitFor` still returns the stored value, and a new observer after reconnecting is told it |
| StatefulValues.StatefulValue.constructor | core/src/main/java/org/activityinfo/bukavu/shared/observable/StatefulValue.java:28-31 | the stored value is the initial one and the node is unobserved |
| StatefulValues.StatefulValue.UpdateValue | core/src/main/java/org/activityinfo/bukavu/shared/observable/StatefulValue.java:41-44 | the value is stored; observers are notified of it exactly when it is a different reference |
| StatefulValues.StatefulValue.Update | core/src/main/java/org/activityinfo/bukavu/shared/observable/StatefulValue.java:33-36 | stores the function of the stored value and returns what `get` then returns |
| StatefulValues.StatefulValue.OnConnect | core/src/main/java/org/activityinfo/bukavu/shared/observable/StatefulValue.java:47-49 | re-firing the stored value changes neither the slot nor the log |
| StatefulValues.StatefulValue.UpdateIfNotEqual | core/src/main/java/org/activityinfo/bukavu/shared/observable/StatefulValue.java:66-74 | reports a change exactly when the new value is not `Objects.equals` to the stored one, and only then stores and broadcasts it |
| StatefulValues.StatefulValue.UpdateIfNotSame | core/src/main/java/org/activityinfo/bukavu/shared/observable/StatefulValue.java:76-84 | reports a change exactly when the new value is a different reference, and only then stores and broadcasts it |
| StatefulValues.StatefulValue.Subscribe | core/src/main/java/org/activityinfo/bukavu/shared/observable/Observable.java:67-91 | the observer is told the stored value |
| StatefulValues.StatefulValue.Unsubscribe | core/src/main/java/org/activityinfo/bukavu/shared/observable/Observable.java:81-90 | removes the observer and reports whether it was the last; the log is unchanged |
| ConstantObservables.TransformAgreesWithComputed | core/src/main/java/org/activityinfo/bukavu/shared/observable/ConstantObservable.java:31-34 | the eager `transform` override starts with the value the generic computed node would fire |
| ConstantObservables.ConstantObservable.constructor | core/src/main/java/org/activityinfo/bukavu/shared/observable/ConstantObservable.java:26-29 | the node holds its value and is unobserved |
| ConstantObservables.ConstantObservable.Transform | core/src/main/java/org/activityinfo/bukavu/shared/observable/ConstantObservable.java:31-34 | the result is a new constant holding the function of the value |
| ConstantObservables.JoinAgreesWithChained | core/src/main/java/org/activityinfo/bukavu/shared/observable/ConstantObservable.java:36-39 | the eager `join` returns exactly the observable that the generic `join` (a chained node over `transform(f)`, itself the constant `f(value)`) follows once subscribed, and the subscriber sees that observable's slot |
| ConstantObservables.ConstantObservable.WaitFor | core/src/main/java/org/activityinfo/bukavu/shared/observable/ConstantObservable.java:42-45 | the value returned without subscribing is the node's loaded slot |
| ConstantObservables.WaitForAgreesWithObservable | core/src/main/java/org/activityinfo/bukavu/shared/observable/ConstantObservable.java:42-45 | the override returns what the generic `waitFor` returns on the constant's node, and the generic one leaves no collecting observer behind |
| ConstantObservables.ConstantObservable.Subscribe | core/src/main/java/org/activityinfo/bukavu/shared/observable/Observable.java:67-91 | every observer is told the value |
| ConstantObservables.ConstantObservable.Unsubscribe | core/src/main/java/org/activityinfo/bukavu/shared/observable/Observable.java:81-90 | removes the observer; the log is unchanged |
| SchedulerStubs.SpawnedAppend | core/src/test/java/org/activityinfo/bukavu/shared/observable/SchedulerStub.java:31-37 | what two batches run back to back queue is what each queues, in order |
| SchedulerStubs.SpawnedNothing | core/src/test/java/org/activityinfo/bukavu/shared/observable/SchedulerStub.java:31-37 | tasks that schedule nothing leave the queue empty |
| SchedulerStubs.SelfReschedulingRequeues | core/src/test/java/org/activityinfo/bukavu/shared/observable/SchedulerStub.java:31-37 | tasks that each reschedule themselves leave the same queue behind |
| SchedulerStubs.SchedulerStub.constructor | core/src/test/java/org/activityinfo/bukavu/shared/observable/SchedulerStub.java:24 | the queue starts empty and nothing has run |
| SchedulerStubs.SchedulerStub.Schedule | core/src/test/java/org/activityinfo/bukavu/shared/observable/SchedulerStub.java:27-29 | the task is appended to the queue and nothing runs |
| SchedulerStubs.SchedulerStub.RunAll | core/src/test/java/org/activityinfo/bukavu/shared/observable/SchedulerStub.java:31-37 | exactly the tasks queued before the call run, in order; the queue then holds only what they scheduled |
| SchedulerStubs.IncrementalRhythm | core/src/test/java/org/activityinfo/bukavu/shared/observable/IncrementalObservableTest.java:50-79 | a self-rescheduling slice runs once per `runAll` and stays queued |
| DebouncingSchedulers.DebouncingEventLoopScheduler.constructor | core/src/main/java/org/activityinfo/bukavu/shared/observable/DebouncingEventLoopScheduler.java:23 | the slot starts empty and nothing has run |
| DebouncingSchedulers.DebouncingEventLoopScheduler.Schedule | core/src/main/java/org/activityinfo/bukavu/shared/observable/DebouncingEventLoopScheduler.java:26-41 | outside script mode the task runs at once; in script mode it replaces the slot, and only filling an empty slot queues a deferred execute |
| DebouncingSchedulers.DebouncingEventLoopScheduler.ScheduleEach | core/src/main/java/org/activityinfo/bukavu/shared/observable/DebouncingEventLoopScheduler.java:26-41 | a burst of schedules leaves only the last task in the slot and queues at most one execute |
| DebouncingSchedulers.DebouncingEventLoopScheduler.Execute | core/src/main/java/org/activityinfo/bukavu/shared/observable/DebouncingEventLoopScheduler.java:43-48 | the task in the slot runs once; as written the slot is then emptied, losing any task scheduled meanwhile; corrected it keeps the last such task |
| DebouncingSchedulers.DebounceRunsLast | core/src/main/java/org/activityinfo/bukavu/shared/observable/DebouncingEventLoopScheduler.java:26-48 | three tasks scheduled in one turn run as the last one alone |
| DebouncingSchedulers.SuccessorScheduledWhileRunning | core/src/main/java/org/activityinfo/bukavu/shared/observable/DebouncingEventLoopScheduler.java:43-48 | a task scheduled by the running task is dropped as written and runs next when corrected |
| RenderQueues.Reversed | core/src/main/java/org/activityinfo/bukavu/client/RenderQueue.java:69-71 | popping a stack yields its entries last first: the i-th result is the i-th entry from the end |
| RenderQueues.Drain | core/src/main/java/org/activityinfo/bukavu/client/RenderQueue.java:62-66 | the drain renders exactly the queued components still dirty, each once, and leaves no queued component dirty |
| RenderQueues.DrainRendersQueueReversed | core/src/main/java/org/activityinfo/bukavu/client/RenderQueue.java:37-66 | when every queued component is dirty and queued once, the drain renders every one of them, most recently queued first |
| RenderQueues.RenderQueue.constructor | core/src/main/java/org/activityinfo/bukavu/client/RenderQueue.java:27-31 | the queue, the dirty set and the callbacks start empty, and no rerender is scheduled |
| RenderQueues.RenderQueue.ScheduleRerender | core/src/main/java/org/activityinfo/bukavu/client/RenderQueue.java:44-49 | a rerender is scheduled afterwards, and a deferred one is queued only when none was scheduled |
| RenderQueues.RenderQueue.EnqueueRender | core/src/main/java/org/activityinfo/bukavu/client/RenderQueue.java:37-42 | a component already dirty changes nothing; any other is marked dirty, pushed once, and a rerender is scheduled |
| RenderQueues.RenderQueue.WhenFinishedRendering | core/src/main/java/org/activityinfo/bukavu/client/RenderQueue.java:51-54 | the callback is appended and a rerender is scheduled |
| RenderQueues.RenderQueue.RenderedElsewhere | core/src/main/java/org/activityinfo/bukavu/client/Diff.java:296 | a component rendered by the diff is no longer dirty but stays queued |
| RenderQueues.RenderQueue.DrainComponents | core/src/main/java/org/activityinfo/bukavu/client/RenderQueue.java:61-66 | the component queue ends empty, the drain's components are rendered in its order, and the dirty set is what the drain leaves |
| RenderQueues.RenderQueue.RunCallbacks | core/src/main/java/org/activityinfo/bukavu/client/RenderQueue.java:68-71 | every callback runs once, last registered first, and the callback queue ends empty |
| RenderQueues.RenderQueue.Rerender | core/src/main/java/org/activityinfo/bukavu/client/RenderQueue.java:59-72 | every queued component still dirty is rendered once, then every callback runs, and the queue is empty, clean and unscheduled |
| RenderQueues.RefreshTwiceRendersOnce | core/src/main/java/org/activityinfo/bukavu/client/RenderQueue.java:37-72 | a component refreshed twice before the rerender is rendered once, and one rendered elsewhere meanwhile is skipped |
| ReactiveComponents.CanAcceptProps | core/src/main/java/org/activityinfo/bukavu/shared/tree/ReactiveComponent.java:48-51 | accepted exactly when the node's constructor is the reactive component's own |
| ReactiveComponents.ReactiveComponent.constructor | core/src/main/java/org/activityinfo/bukavu/shared/tree/ReactiveComponent.java:40-46 | the initial content is the loading indicator, or the shared empty div without one; nothing is subscribed |
| ReactiveComponents.ReactiveComponent.OnChange | core/src/main/java/org/activityinfo/bukavu/shared/tree/ReactiveComponent.java:81-95 | loading shows the indicator and forgets the value only when there is an indicator not already shown; a value different by reference from the last rendered one is rendered; each change refreshes once, and anything else changes nothing |
| ReactiveComponents.ReactiveComponent.Subscribe | core/src/main/java/org/activityinfo/bukavu/shared/tree/ReactiveComponent.java:78-97 | a subscription is taken on the props' observable, and its synchronous delivery is applied as a change |
| ReactiveComponents.ReactiveComponent.ComponentDidMount | core/src/main/java/org/activityinfo/bukavu/shared/tree/ReactiveComponent.java:73-76 | mounting subscribes to the props' observable and takes its current value |
| ReactiveComponents.ReactiveComponent.Resubscribe | core/src/main/java/org/activityinfo/bukavu/shared/tree/ReactiveComponent.java:60-61 | the held subscription is released before the new one is taken, so exactly one stays held |
| ReactiveComponents.ReactiveComponent.UpdateProps | core/src/main/java/org/activityinfo/bukavu/shared/tree/ReactiveComponent.java:53-66 | the props are replaced; only a changed observable or renderer with a held subscription resubscribes, releasing the old subscription first; otherwise subscription, value, content and refresh count are unchanged; the answer is always false |
| ReactiveComponents.ReactiveComponent.ComponentWillUnmount | core/src/main/java/org/activityinfo/bukavu/shared/tree/ReactiveComponent.java:99-105 | any held subscription is released and none is held afterwards |
| ReactiveComponents.RendererSwap | core/src/main/java/org/activityinfo/bukavu/shared/tree/ReactiveComponent.java:53-66 | as written, swapping the renderer of a component whose value is unchanged keeps the old renderer's content; forgetting the value first redraws it with the new renderer |
| HtmlBuilders.T | core/src/main/java/org/activityinfo/bukavu/shared/html/H.java:222-224 | a text node showing exactly the text |
| HtmlBuilders.Bdi | core/src/main/java/org/activityinfo/bukavu/shared/html/H.java:362-368 | null or empty text gives an empty text node; any other text is isolated in a `bdi` element; either shows the text |
| HtmlBuilders.Div | core/src/main/java/org/activityinfo/bukavu/shared/html/H.java:105-107 | the shared empty div: a `div` element with no properties and no children |
| HtmlBuilders.NonNullLength | core/src/main/java/org/activityinfo/bukavu/shared/html/H.java:85-91 | the number of entries kept is the count of non-null entries |
| HtmlBuilders.NonNullMembers | core/src/main/java/org/activityinfo/bukavu/shared/html/H.java:84-99 | a node is kept exactly when it is a non-null entry of the input |
| HtmlBuilders.NonNullAppend | core/src/main/java/org/activityinfo/bukavu/shared/html/H.java:84-99 | filtering a concatenation filters each part, so kept entries keep their relative order |
| HtmlBuilders.NullableList | core/src/main/java/org/activityinfo/bukavu/shared/html/H.java:84-99 | the fresh array holds exactly the non-null entries, in their original order |
| HtmlBuilders.Map | core/src/main/java/org/activityinfo/bukavu/shared/html/H.java:390-396 | the fresh array has one node per item, the i-th rendering the i-th item |
| VirtualDom.Lookup | core/src/main/java/org/activityinfo/bukavu/shared/tree/VAttrMapJre.java:61-63 | absent exactly when no entry has the key; otherwise the value of an entry under the key |
| VirtualDom.KeyOf | core/src/main/java/org/activityinfo/bukavu/shared/tree/VElement.java:72 | the cast fails exactly when the `key` property is a non-string object; the key is present exactly when the property is a string, and it is that string |
| VirtualDom.Present | core/src/main/java/org/activityinfo/bukavu/shared/tree/VElement.java:78-85 | with no null children, the children kept are exactly the array's entries, in order |
| VirtualDom.MakeElementAsWritten | core/src/main/java/org/activityinfo/bukavu/shared/tree/VElement.java:65-76 | as written, a null child array fails the null-children assertion whenever the key cast succeeds |
| VirtualDom.MakeElement | core/src/main/java/org/activityinfo/bukavu/shared/tree/VElement.java:65-76 | succeeds exactly when the key cast succeeds and no child is null; the element has the tag, the map (empty for null), the key from the map and exactly the given children (none for a null array) |
| VirtualDom.MakeElementAgreesOnArrays | core/src/main/java/org/activityinfo/bukavu/shared/tree/VElement.java:65-76 | on any non-null child array the written and corrected constructors agree |
| VirtualDom.NullChildArrayRejectedAsWritten | core/src/main/java/org/activityinfo/bukavu/shared/tree/VElement.java:71-74 | a null child array makes the written constructor fail, while the corrected one yields a childless element |
| VirtualDom.ElementOfText | core/src/main/java/org/activityinfo/bukavu/shared/tree/VElement.java:41-43 | an element with no properties and no key whose one child is the text node, showing the text |
| VirtualDom.ElementWithChild | core/src/main/java/org/activityinfo/bukavu/shared/tree/VElement.java:57-59 | succeeds exactly when the key cast succeeds, with the one child and the given map |
| VirtualDom.ToLower | core/src/main/java/org/activityinfo/bukavu/shared/tree/VElement.java:104 | the same length, each ASCII capital lowered and nothing else changed; no capital is left |
| VirtualDom.ToLowerIdempotent | core/src/main/java/org/activityinfo/bukavu/shared/tree/VElement.java:104 | lowering twice is lowering once |
| VirtualDom.ElementToString | core/src/main/java/org/activityinfo/bukavu/shared/tree/VElement.java:103-112 | a single text child is shown between matching start and end tags; any children give a string opening with the start tag and closing with the end tag; none give the self-closed tag |
| VirtualDom.TextShapeMisclosedAsWritten | core/src/main/java/org/activityinfo/bukavu/shared/tree/VElement.java:106 | as written, the single-text shape of `<b>hi</b>` closes with `</b/>`; corrected it closes with `</b>` |
| VirtualDom.ElementToStringIgnoresCase | core/src/main/java/org/activityinfo/bukavu/shared/tree/VElement.java:104 | the summary depends on the tag only through its lower-cased form |
| HtmlRendering.StyleHtml | core/src/main/java/org/activityinfo/bukavu/shared/html/HtmlRenderer.java:142-153 | nothing is written exactly when the style map is empty |
| HtmlRendering.PropertyHtml | core/src/main/java/org/activityinfo/bukavu/shared/html/HtmlRenderer.java:103-117 | a string `className` becomes the `class` attribute and a null one writes nothing; a `style` map becomes the style attribute and a null `style` fails; any other string property becomes ` name="escaped value"` and any other non-string property is skipped; it fails exactly on a `className` that is not a string or null, or a `style` that is not a style map |
| HtmlRendering.ElementShape | core/src/main/java/org/activityinfo/bukavu/shared/html/HtmlRenderer.java:64-97 | a rendered `svg` is closed and declares the SVG namespace; a rendered singleton has no children and no end tag; any other element wraps its children's HTML in its start and end tags |
| HtmlRendering.PropertiesRenderIff | core/src/main/java/org/activityinfo/bukavu/shared/html/HtmlRenderer.java:99-120 | a property map renders exactly when each of its properties renders |
| HtmlRendering.RenderSucceedsIff | core/src/main/java/org/activityinfo/bukavu/shared/html/HtmlRenderer.java:64-164 | rendering fails exactly when the tree holds a component, a singleton element with children, or a property of the wrong type |
| HtmlRendering.ChildrenRenderIff | core/src/main/java/org/activityinfo/bukavu/shared/html/HtmlRenderer.java:122-128 | children render exactly when each child renders |
| HtmlRendering.PropertiesPrefixFails | core/src/main/java/org/activityinfo/bukavu/shared/html/HtmlRenderer.java:99-120 | once a property fails, the properties after it do not change the outcome |
| HtmlRendering.ChildrenPrefixFails | core/src/main/java/org/activityinfo/bukavu/shared/html/HtmlRenderer.java:122-128 | once a child fails, the children after it do not change the outcome |
| HtmlRendering.HtmlRenderer.constructor | core/src/main/java/org/activityinfo/bukavu/shared/html/HtmlRenderer.java:52-54 | the renderer starts with empty output |
| HtmlRendering.HtmlRenderer.WriteDocTypeDeclaration | core/src/main/java/org/activityinfo/bukavu/shared/html/HtmlRenderer.java:56-58 | the HTML doctype line is appended |
| HtmlRendering.HtmlRenderer.WriteXmlDeclaration | core/src/main/java/org/activityinfo/bukavu/shared/html/HtmlRenderer.java:60-62 | the XML declaration line is appended |
| HtmlRendering.HtmlRenderer.Visit | core/src/main/java/org/activityinfo/bukavu/shared/html/HtmlRenderer.java:45-49 | visiting a node fails exactly when its HTML fails, and otherwise appends exactly that HTML |
| HtmlRendering.HtmlRenderer.VisitText | core/src/main/java/org/activityinfo/bukavu/shared/html/HtmlRenderer.java:156-158 | appends the escaped text |
| HtmlRendering.HtmlRenderer.VisitComponent | core/src/main/java/org/activityinfo/bukavu/shared/html/HtmlRenderer.java:161-164 | always fails: components are not supported |
| HtmlRendering.HtmlRenderer.VisitNode | core/src/main/java/org/activityinfo/bukavu/shared/html/HtmlRenderer.java:64-86 | fails exactly when the element's HTML fails, otherwise appends exactly it |
| HtmlRendering.HtmlRenderer.VisitSvgRoot | core/src/main/java/org/activityinfo/bukavu/shared/html/HtmlRenderer.java:88-97 | fails exactly when the `svg` element's HTML fails, otherwise appends exactly it, namespace included |
| HtmlRendering.HtmlRenderer.AppendChildren | core/src/main/java/org/activityinfo/bukavu/shared/html/HtmlRenderer.java:122-128 | fails exactly when the children's HTML fails, otherwise appends each child's HTML in order |
| HtmlRendering.HtmlRenderer.AppendProperties | core/src/main/java/org/activityinfo/bukavu/shared/html/HtmlRenderer.java:99-120 | fails exactly when some property fails, otherwise appends every property's attribute in map order |
| HtmlRendering.HtmlRenderer.AppendEntry | core/src/main/java/org/activityinfo/bukavu/shared/html/HtmlRenderer.java:102-117 | one property: fails without writing exactly when its cast fails, otherwise appends its attribute |
| HtmlRendering.HtmlRenderer.AppendProperty | core/src/main/java/org/activityinfo/bukavu/shared/html/HtmlRenderer.java:130-140 | a null value writes nothing; any other writes the attribute with its escaped, quoted value |
| HtmlRendering.HtmlRenderer.AppendStyleProperty | core/src/main/java/org/activityinfo/bukavu/shared/html/HtmlRenderer.java:142-153 | appends the style attribute, nothing for an empty map |
| HtmlRendering.Render | core/src/main/java/org/activityinfo/bukavu/shared/html/HtmlRenderer.java:45-49 | the whole tree's HTML, or the exception rendering throws |
| PropertyMaps.ValueOf | core/src/main/java/org/activityinfo/bukavu/shared/tree/VAttrMapJre.java:61-63 | the stored value, or null for an absent key |
| PropertyMaps.GetAfterSet | core/src/main/java/org/activityinfo/bukavu/shared/tree/VAttrMapJre.java:50-63 | after `set`, `get` of that key is the value set and every other key reads as before |
| PropertyMaps.Entries | core/src/main/java/org/activityinfo/bukavu/shared/tree/VAttrMapJre.java:71-73 | the map's entries, one per listed key, in the listed order |
| PropertyMaps.LookupEntries | core/src/main/java/org/activityinfo/bukavu/shared/tree/VAttrMapJre.java:71-73 | read in any order listing each key once, the entries give back exactly the map |
| PropertyMaps.LastSpace | core/src/main/java/org/activityinfo/bukavu/shared/tree/VAttrMapJre.java:92 | the position of the last space, and none exactly when there is no space |
| PropertyMaps.SingleClass | core/src/main/java/org/activityinfo/bukavu/shared/tree/VAttrMapJre.java:87-94 | a name without spaces is one class |
| PropertyMaps.AppendClass | core/src/main/java/org/activityinfo/bukavu/shared/tree/VAttrMapJre.java:92 | joining with a space appends exactly one class to the class list |
| PropertyMaps.AttrMap.constructor | core/src/main/java/org/activityinfo/bukavu/shared/tree/VAttrMapJre.java:41-47 | a new map is empty |
| PropertyMaps.AttrMap.Set | core/src/main/java/org/activityinfo/bukavu/shared/tree/VAttrMapJre.java:50-53 | stores the value under the key, replacing any value there, and returns the same map |
| PropertyMaps.AttrMap.Get | core/src/main/java/org/activityinfo/bukavu/shared/tree/VAttrMapJre.java:61-63 | the stored value, or null for an absent key |
| PropertyMaps.AttrMap.Remove | core/src/main/java/org/activityinfo/bukavu/shared/tree/VAttrMapJre.java:65-67 | the key is removed and nothing else changes |
| PropertyMaps.AttrMap.Keys | core/src/main/java/org/activityinfo/bukavu/shared/tree/VAttrMapJre.java:71-73 | exactly the stored keys |
| PropertyMaps.AttrMap.IsEmpty | core/src/main/java/org/activityinfo/bukavu/shared/tree/VAttrMapJre.java:76-78 | empty exactly when no key is stored |
| PropertyMaps.AttrMap.AddClassName | core/src/main/java/org/activityinfo/bukavu/shared/tree/VAttrMapJre.java:87-94 | fails exactly when the stored `className` is not a string or null; the class becomes the whole value when none is stored, and is appended after a space otherwise |
| PropertyMaps.AttrMap.AddClassNameIf | core/src/main/java/org/activityinfo/bukavu/shared/tree/VAttrMapJre.java:97-102 | adds the class as `addClassName` does when asked, and changes nothing otherwise |
| PropertyMaps.AttrMap.Data | core/src/main/java/org/activityinfo/bukavu/shared/tree/VAttrMapJre.java:108-110 | the value goes under `data-` followed by the name |
| PropertyMaps.AttrMap.SetClass | core/src/main/java/org/activityinfo/bukavu/shared/tree/VAttrMapJre.java:127-129 | the whole class list is replaced |
| PropertyMaps.AttrMap.SetClassIf | core/src/main/java/org/activityinfo/bukavu/shared/tree/VAttrMapJre.java:132-137 | replaces the class list when asked, and changes nothing otherwise |
| PropertyMaps.AttrMap.Disabled | core/src/main/java/org/activityinfo/bukavu/shared/tree/VAttrMapJre.java:168-175 | true stores `"true"` under `disabled`; false removes the key |
| PropertyMaps.AttrMap.On | core/src/main/java/org/activityinfo/bukavu/shared/tree/VAttrMapJre.java:203-206 | the handler goes under `on` followed by the event name |
| PropertyMaps.AttrMap.Draggable | core/src/main/java/org/activityinfo/bukavu/shared/tree/VAttrMapJre.java:214-216 | stores `"true"` or `"false"` under `draggable` |
| PropertyMaps.AttrMap.Href | core/src/main/java/org/activityinfo/bukavu/shared/tree/VAttrMapJre.java:113-115 | stores the URI's string form under `href` |
| PropertyMaps.AttrMap.SetStyle | core/src/main/java/org/activityinfo/bukavu/shared/tree/VAttrMapJre.java:144-152 | the style map's declarations, in its key order, go under `style` |
| PropertyMaps.StyleDeclarations | core/src/main/java/org/activityinfo/bukavu/shared/html/HtmlRenderer.java:147-150 | one declaration per listed key, in order, holding the key's string value, or the text `null` for a null value |
| PropertyMaps.AddTwoClasses | core/src/main/java/org/activityinfo/bukavu/shared/tree/VAttrMapJre.java:87-94 | two classes added one after the other give the class list `btn active`, whose classes are the two names in order |
| Styles.NatToString | core/src/main/java/org/activityinfo/bukavu/shared/tree/Style.java:56 | at least one digit, and no leading zero unless the number is zero |
| Styles.NatToStringRoundTrip | core/src/main/java/org/activityinfo/bukavu/shared/tree/Style.java:56 | reading the digits back gives the number |
| Styles.IntToStringRoundTrip | core/src/main/java/org/activityinfo/bukavu/shared/tree/Style.java:56 | `Integer.toString` reads back as the same integer, negative ones included |
| Styles.PixelValue | core/src/main/java/org/activityinfo/bukavu/shared/tree/Style.java:54-60 | zero is stored bare as `0`, and no other size is stored as `0` |
| Styles.PixelValueRoundTrip | core/src/main/java/org/activityinfo/bukavu/shared/tree/Style.java:54-60 | every stored size reads back as the number that was set |
| Styles.Style.constructor | core/src/main/java/org/activityinfo/bukavu/shared/tree/Style.java:20 | a new style has an empty declarations map |
| Styles.Style.Set | core/src/main/java/org/activityinfo/bukavu/shared/tree/Style.java:66-69 | the declaration is written into the map and the style returned |
| Styles.Style.SetPixels | core/src/main/java/org/activityinfo/bukavu/shared/tree/Style.java:54-60 | the size is written as its pixel value |
| Styles.Style.TextAlign | core/src/main/java/org/activityinfo/bukavu/shared/tree/Style.java:22-24 | the argument is ignored and `center` stored |
| Styles.Style.VerticalAlign | core/src/main/java/org/activityinfo/bukavu/shared/tree/Style.java:26-28 | the argument is ignored and `center` stored |
| Styles.Style.TextAlignIntended | core/src/main/java/org/activityinfo/bukavu/shared/tree/Style.java:22-24 | as intended: `textAlign` holds the alignment asked for |
| Styles.Style.VerticalAlignIntended | core/src/main/java/org/activityinfo/bukavu/shared/tree/Style.java:26-28 | as intended: `verticalAlign` holds the alignment asked for |
| Styles.AlignmentTrace | core/src/main/java/org/activityinfo/bukavu/shared/tree/Style.java:22-28 | asking for `right` and `top` stores `center` twice as written, and `right` and `top` as intended |
| Styles.Style.LineHeight | core/src/main/java/org/activityinfo/bukavu/shared/tree/Style.java:30-32 | `lineHeight` holds the pixel value |
| Styles.Style.Border | core/src/main/java/org/activityinfo/bukavu/shared/tree/Style.java:34-36 | `border` holds the pixel value |
| Styles.Style.BorderShorthand | core/src/main/java/org/activityinfo/bukavu/shared/tree/Style.java:38-40 | `border` holds the shorthand as given |
| Styles.Style.Width | core/src/main/java/org/activityinfo/bukavu/shared/tree/Style.java:42-44 | `width` holds the pixel value |
| Styles.Style.Height | core/src/main/java/org/activityinfo/bukavu/shared/tree/Style.java:46-48 | `height` holds the pixel value |
| Styles.Style.FontSize | core/src/main/java/org/activityinfo/bukavu/shared/tree/Style.java:62-64 | `fontSize` holds the pixel value |
| Styles.Style.Display | core/src/main/java/org/activityinfo/bukavu/shared/tree/Style.java:50-52 | `display` holds the CSS name |
| Styles.Style.SetPosition | core/src/main/java/org/activityinfo/bukavu/shared/tree/Style.java:71-73 | `position` holds the CSS name |
| Styles.Style.Overflow | core/src/main/java/org/activityinfo/bukavu/shared/tree/Style.java:82-84 | `overflow` holds the CSS name |
| Styles.Style.AsPropMap | core/src/main/java/org/activityinfo/bukavu/shared/tree/Style.java:75-77 | the live declarations map itself, not a copy |
| Styles.PropMapIsLive | core/src/main/java/org/activityinfo/bukavu/shared/tree/Style.java:75-77 | a map obtained before later changes to the style shows those changes |
| Bootstrap.StyleSuffixIsClassName | bootstrap/src/main/java/org/activityinfo/bootstrap/client/ButtonBuilder.java:71-74 | every style's lower-cased name is a single class name |
| Bootstrap.ButtonClasses | bootstrap/src/main/java/org/activityinfo/bootstrap/client/ButtonBuilder.java:103 | the button has exactly two classes, `btn` and its style class |
| Bootstrap.BuiltEntries | bootstrap/src/main/java/org/activityinfo/bootstrap/client/ButtonBuilder.java:103-110 | the built map has the old keys plus `className`, and `type` for a button or `href` and `role` for a link |
| Bootstrap.ButtonBuilder.constructor | bootstrap/src/main/java/org/activityinfo/bootstrap/client/ButtonBuilder.java:41-49 | the label is empty, the style `primary`, not outlined, no link, and an empty map |
| Bootstrap.ButtonBuilder.Label | bootstrap/src/main/java/org/activityinfo/bootstrap/client/ButtonBuilder.java:55-58 | the label is set and the builder returned |
| Bootstrap.ButtonBuilder.SetLink | bootstrap/src/main/java/org/activityinfo/bootstrap/client/ButtonBuilder.java:63-66 | the button becomes a link to the URI |
| Bootstrap.ButtonBuilder.SetStyle | bootstrap/src/main/java/org/activityinfo/bootstrap/client/ButtonBuilder.java:71-74 | the suffix is the style's lower-cased name, a single class name |
| Bootstrap.ButtonBuilder.Outline | bootstrap/src/main/java/org/activityinfo/bootstrap/client/ButtonBuilder.java:76-79 | the outline flag is set |
| Bootstrap.ButtonBuilder.OnSelect | bootstrap/src/main/java/org/activityinfo/bootstrap/client/ButtonBuilder.java:84-87 | the handler is stored under `onclick` |
| Bootstrap.ButtonBuilder.OnMouseUp | bootstrap/src/main/java/org/activityinfo/bootstrap/client/ButtonBuilder.java:98-101 | the handler is stored under `onmouseup` |
| Bootstrap.ButtonBuilder.WriteButtonProperties | bootstrap/src/main/java/org/activityinfo/bootstrap/client/ButtonBuilder.java:103-109 | the class, then the type or the link and role, are written into the map |
| Bootstrap.ButtonBuilder.Build | bootstrap/src/main/java/org/activityinfo/bootstrap/client/ButtonBuilder.java:102-112 | a `button` (or `a` for a link) element over the builder's map, with no key and the label as its one text child, whose class is `btn btn-` plus the optional outline and the suffix, and whose type, or link and role, are set |
| Bootstrap.ButtonElement | bootstrap/src/main/java/org/activityinfo/bootstrap/client/ButtonBuilder.java:106 | the element with the tag, the map's entries, no key and the text as its one child |
| Bootstrap.BuiltLookups | bootstrap/src/main/java/org/activityinfo/bootstrap/client/ButtonBuilder.java:103-110 | the built element's properties read back the class, and the type or the link and role |
| Bootstrap.DangerButton | bootstrap/src/main/java/org/activityinfo/bootstrap/client/ButtonBuilder.java:71-112 | an outlined danger button has the classes `btn` and `btn-outline-danger` |

## Left out

- `Diff.java`, DOM reconciliation, is not part of this model: every step is a browser DOM call, and it keeps static mutable globals. `RenderQueues.RenderQueue.RenderedElsewhere` stands for the one effect the queue relies on: a synchronous render that clears a component's dirty flag.
- The JSNI and JsInterop classes are not part of this model: `Properties`, `VAttrMapJs`, `DomNode` and `VDom` call into native JavaScript. `VAttrMapJre` stands for the property map.
- `SvgPathBuilder` and `VAttrMapJre.set(String, double)` are left out: their output is floating point formatted by `Double.toString`.
- `Reactive.java` is left out: its factory wrappers add nothing the node classes do not state, and `findDebugId` inspects stack traces.
- Logging is dropped.
- GWT `Timer` and `Scheduler.scheduleDeferred` are not executed. A timer is a flag or an identifier with a method for its expiry. A deferred task is a counter or flag with a method for running it.
- Arbitrary re-entrant callbacks are not modelled, such as an observer that subscribes or unsubscribes inside `onChange`. Observers are notification loggers, and `fireChange` notifies its snapshot of the observer list.
- Re-entrant renders inside `RenderQueue.rerender` are not modelled: rendering a component does not enqueue components.
- The `@GwtIncompatible` blocking `waitFor` overrides are left out. Only the base `waitFor` and those of `PendingValue` and `ConstantObservable` are modelled.
- The `toString` methods of the nodes and of `ReactiveComponent` are left out. `VElement.toString` is modelled.
- The single-expression builders of `H` are left out: each is one call of a `VElement` constructor. Only `t`, `bdi`, `div()`, `nullableList` and `map` are modelled.
- The fixed-key setters of `VAttrMapJre` are covered by `Set` and `On`, to which they delegate: `setId`, `setTitle`, `placeholder`, `onclick`, `oninput`, `ondragover`, `ondragleave`, `ondrop`.
- `VAttrMapJre.setInnerHtml` has no method of its own. It stores the one-entry nested map `__html` under `dangerouslySetInnerHTML`, which is `Set` with a nested-map value.
- `VAttrMapJre.getEventHandler` is left out: it always returns null.
- The script-mode guard of the `VAttrMapJre` constructor is left out: it concerns the JavaScript build only.
- `ButtonBuilder.onSelect(confirmationMessage, runnable)` shows a confirmation dialog (I/O). It is modelled as `OnSelect` with the handler it installs, identified by a number.
- `ToLower` lower-cases the ASCII letters only. Java's `toLowerCase` also folds other letters, which no tag name or enum name here contains.
- The CSS names of the GWT style enums (`Display`, `Position`, `Overflow`) are taken as strings.
- `HtmlRendering.HtmlRenderer.Visit` states the outcome of a failing render, not the partial HTML already written to the buffer before the exception.
- PropertyMaps.AttrMap.SetStyle: stores a snapshot of the style map's declarations, not a live reference to it, so a later change to that `Style` is not seen by the element.
- PropertyMaps.StyleDeclarations: a style value that is neither a string nor null reads as empty rather than raising the `ClassCastException` of the cast to `String`; `Style` only ever stores strings. A null value passes the cast and is appended as `null`, as the source does.
- ObservableTrees.ObservableTree.Crawl: keys are drawn from a finite universe closed under `children`; on an unbounded key space the source may crawl forever, which is not modelled.
- `ComputedObservable.compute` and a tree's `build` are function parameters. A thrown exception is a distinguished outcome of that parameter.
- ComputedObservables.Recomputed: every throw of `compute` becomes loading. In the source only an `Exception` is caught. A null result fails the `assert` with an `AssertionError`, and that or any other `Error` from `compute` escapes to the caller of `recompute`; the model has no null result and no escaping `Error`.
- ObservableTrees.ObservableTree.RebuildTree: a throw of `build` is the caught `Error`, which changes nothing. A `RuntimeException` from `build` escapes `recrawl`: `crawling` is cleared by the `finally` block, the deferred recrawl is skipped and the exception reaches `subscribe` or `onNodeChanged`. That escape is not modelled.
- VirtualDom.MakeElement: the assertion that the shared empty `VAttrMap.EMPTY` is still empty is not modelled. Property maps are values here, so nothing can put entries into the shared one.
- Bootstrap.ButtonBuilder.Build: the element's properties are a snapshot of the builder's map. In the source the element holds the builder's own map, so a setter called on the builder after `build` also changes the element; that aliasing is not captured.
- ChainedObservables.ChainedSwitchTrace: the step of `ObservableTest.chainedLoading` where `a.updateValue(13)` makes a new inner observable deliver a freshly boxed `164` is left out. Values are Dafny integers compared by value, so the identity of boxed integers outside the `Integer` cache is not modelled: an equal value is never a new reference, and the model would notify nobody where the test expects one change.
- The observers of `fireChange` are notified in one round. Exceptions thrown by an observer's `onChange` are not modelled.

## Findings

| source | as written | input that shows it | evidently intended | confidence | as-written member | corrected member |
|---|---|---|---|---|---|---|
| core/src/main/java/org/activityinfo/bukavu/shared/observable/ObservableComputedMap.java:68-73 | `setsEqual` compares the collection's size, which counts repeated keys, with the set's size, and checks one inclusion | keys `[1, 1]` against a cached map with keys `{1, 2}` compare equal, so the stale map with key 2 is kept and key 2 stays cached | the collection holds exactly the set's keys | not executed | ComputedMaps.RepeatedKeyTrace | ComputedMaps.CorrectedSlotListsKeys |
| core/src/main/java/org/activityinfo/bukavu/shared/observable/IncrementalObservable.java:30-49 | `onConnect` schedules a slice whenever the task is not completed, even while a slice is still queued | subscribe, unsubscribe and subscribe again before the first slice runs: two slice chains run, and the task is executed after it completed | one chain of slices per node | not executed | IncrementalObservables.ReconnectDuplicatesSlices | IncrementalObservables.ReconnectKeepsOneChain |
| core/src/main/java/org/activityinfo/bukavu/shared/observable/ObservableTree.java:187-195 | the deferred recrawl runs even after `onDisconnect`, and resubscribes the root | a node changes during a crawl, then the last observer leaves before the deferred recrawl runs: a node subscription is held with no observer | a disconnected tree holds no node subscriptions | not executed | ObservableTreeTraces.RunScenario | ObservableTrees.ObservableTree.RunScheduledRecrawl |
| core/src/main/java/org/activityinfo/bukavu/shared/observable/DebouncingEventLoopScheduler.java:43-48 | `execute` clears the slot after the task returns | a task that schedules its successor while it runs: the successor is dropped and no `execute` is queued for it | a task scheduled while one runs is run by a later `execute` | not executed | DebouncingSchedulers.SuccessorScheduledWhileRunning | DebouncingSchedulers.DebouncingEventLoopScheduler.Execute |
| core/src/main/java/org/activityinfo/bukavu/shared/tree/ReactiveComponent.java:53-66 | `updateProps` with a new renderer resubscribes but keeps the last rendered value | a mounted component gets a new renderer for the same observable: the resubscription delivers the same reference, so the old renderer's content stays | content rendered by the current renderer | not executed | ReactiveComponents.RendererSwap | ReactiveComponents.ReactiveComponent.UpdateProps |
| core/src/main/java/org/activityinfo/bukavu/shared/tree/VElement.java:71-74 | the null-children assertion reads the raw argument after normalising it | with assertions enabled, `new VElement("div", (VNode[]) null)` throws a `NullPointerException` at `children.length` inside `noNullChildren`, while evaluating the assertion | a null child array is the empty array | not executed | VirtualDom.NullChildArrayRejectedAsWritten | VirtualDom.MakeElement |
| core/src/main/java/org/activityinfo/bukavu/shared/tree/VElement.java:106 | the one-text-child shape of `toString` closes with `</t/>` | an element `b` with the text child `hi` gives `<b>hi</b/>` | `<b>hi</b>` | not executed | VirtualDom.TextShapeMisclosedAsWritten | VirtualDom.ElementToString |
| core/src/main/java/org/activityinfo/bukavu/shared/tree/Style.java:22-28 | `textAlign(align)` and `verticalAlign(align)` ignore their argument and store `center` | `textAlign("right")` and `verticalAlign("top")` both store `center`, which is not even a `vertical-align` keyword | the declaration holds the alignment asked for | not executed | Styles.AlignmentTrace | Styles.Style.TextAlignIntended |
