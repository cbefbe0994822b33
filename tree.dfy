/**
 * ObservableTree: an observable built from a tree of node observables. A crawl from the root
 * key connects to every reachable node, treats a node still loading as a leaf, drops the
 * nodes no longer reachable, and builds the tree once no reached node is loading.
 *
 * The tree loader is given by its root key, `children`, and `build` (a thrown `Error` is
 * caught). What a node observable delivers when subscribed is the environment: the `slots`
 * parameter of the operations that subscribe. Keys come from a finite `universe` that contains
 * every child key, so a crawl terminates. Each node subscription taken or released is logged
 * in `upstream`. Node changes that observers of the tree cause while it fires a built tree
 * are the `duringFire` parameter.
 */
module ObservableTrees {
  import opened Wrappers
  import opened Observables
  import opened FiniteSets
  import opened TreeCrawls

  /** A node change delivered to the tree by a node observable it subscribes to. */
  datatype NodeChange<K, N> = NodeChange(key: K, value: Option<N>)

  /** The loaded values after node changes are delivered one after another; a change for a key
      not subscribed is not delivered. */
  function Deliver<K, N>(values: map<K, Option<N>>, changes: seq<NodeChange<K, N>>): (r: map<K, Option<N>>)
    ensures r.Keys == values.Keys
    ensures forall k :: k in values && (forall c :: c in changes ==> c.key != k) ==> r[k] == values[k]
    decreases |changes|
  {
    if changes == [] then values
    else
      var c := changes[0];
      Deliver(if c.key in values then values[c.key := c.value] else values, changes[1..])
  }

  /** Some delivered change brings a loaded node, which calls for a new crawl. */
  predicate BringsLoadedNode<K, N>(values: map<K, Option<N>>, changes: seq<NodeChange<K, N>>)
    decreases |changes|
  {
    changes != [] && ((changes[0].key in values && changes[0].value.Some?) || BringsLoadedNode(values, changes[1..]))
  }

  /** The loop of `DeliverDuringFire` on the recorded values and the pending flag. */
  method DeliverAll<K, N>(values: map<K, Option<N>>, pending: bool, changes: seq<NodeChange<K, N>>) returns (r: map<K, Option<N>>, p: bool)
    ensures r == Deliver(values, changes)
    ensures p == (pending || BringsLoadedNode(values, changes))
  {
    r, p := values, pending;
    var i := 0;
    while i < |changes|
      invariant 0 <= i <= |changes|
      invariant r.Keys == values.Keys
      invariant Deliver(r, changes[i..]) == Deliver(values, changes)
      invariant (p || BringsLoadedNode(values, changes[i..])) == (pending || BringsLoadedNode(values, changes))
    {
      var c := changes[i];
      assert changes[i..][0] == c && changes[i..][1..] == changes[i + 1..];
      if c.key in r {
        r := r[c.key := c.value];
        if c.value.Some? {
          p := true;
        }
      }
      i := i + 1;
    }
  }

  /** The log of a recrawl's notifications: loading first, then the tree if one was built. */
  function RecrawlLog<T(==)>(log: seq<Notice<T>>, cached: Option<T>, connecting: bool, observers: seq<ObserverId>, built: Option<T>): seq<Notice<T>>
  {
    var cleared := FireLog(log, cached, connecting, observers, None);
    if built.Some? then FireLog(cleared, None, connecting, observers, built) else cleared
  }

  /** The values a finished crawl leaves recorded: what it saw for each key it reached. */
  function CrawledValues<K(!new), N>(values: map<K, Option<N>>, slots: K -> Option<N>, reached: set<K>): map<K, Option<N>>
  {
    map k | k in reached :: ValueOf(values, slots, k)
  }

  /** What the clean-up after a crawl keeps: the values seen for exactly the reached keys. */
  lemma EvictedValues<K(!new), N>(values: map<K, Option<N>>, seen: map<K, Option<N>>, kept: map<K, Option<N>>,
                                  slots: K -> Option<N>, reached: set<K>)
    requires forall k :: ValueOf(seen, slots, k) == ValueOf(values, slots, k)
    requires reached <= seen.Keys && kept.Keys == reached
    requires forall k :: k in kept ==> kept[k] == seen[k]
    ensures kept == CrawledValues(values, slots, reached)
  {
    forall k | k in reached
      ensures kept[k] == ValueOf(values, slots, k)
    {
      assert ValueOf(seen, slots, k) == seen[k];
    }
  }

  /** The tree a crawl fires: built only when no reached node is loading and `build` does not throw. */
  function Rebuilt<K, N, TreeT>(build: map<K, Option<N>> -> Computation<TreeT>, loading: set<K>, crawled: map<K, Option<N>>): (r: Option<TreeT>)
    ensures r.Some? <==> loading == {} && build(crawled).Value?
    ensures r.Some? ==> r.value == build(crawled).value
  {
    if loading == {} && build(crawled).Value? then Some(build(crawled).value) else None
  }

  /** Releasing one of the held subscriptions leaves the others held. */
  lemma ReleaseOne<K>(events: seq<Link<K>>, held: set<K>, k: K)
    requires Held(events) == multiset(held) && k in held
    ensures Held(events + [Released(k)]) == multiset(held - {k})
  {
    HeldSnoc(events, Released(k));
    assert multiset(held - {k}) == multiset(held) - multiset{k};
  }

  /** The loop of `onDisconnect` that unsubscribes every held subscription, one after another. */
  method ReleaseAll<K>(events: seq<Link<K>>, held: set<K>) returns (r: seq<Link<K>>)
    requires Held(events) == multiset(held)
    ensures Held(r) == multiset{}
    ensures |r| == |events| + |held|
    ensures forall i :: 0 <= i < |r| ==> if i < |events| then r[i] == events[i] else r[i].Released?
  {
    r := events;
    var toRelease := held;
    while toRelease != {}
      invariant Held(r) == multiset(toRelease)
      invariant |r| + |toRelease| == |events| + |held|
      invariant forall i :: 0 <= i < |r| ==> if i < |events| then r[i] == events[i] else r[i].Released?
      decreases |toRelease|
    {
      var k :| k in toRelease;
      ReleaseOne(r, toRelease, k);
      r := r + [Released(k)];
      toRelease := toRelease - {k};
    }
  }

  class ObservableTree<K(==,!new), N(==,!new), TreeT(==)> {
    const node: Observable<TreeT>
    const root: K
    const children: N -> seq<K>
    const build: map<K, Option<N>> -> Computation<TreeT>
    const universe: set<K>
    /** false: a deferred recrawl runs as written, even once the tree is disconnected;
        true: it is skipped while the tree has no observers. */
    const skipDeferredWhenDisconnected: bool
    /** Keys of the `nodes` and `subscriptions` maps. */
    var connected: set<K>
    var loadedNodes: map<K, Option<N>>
    /** Node subscriptions taken and released, in order. */
    var upstream: seq<Link<K>>
    var crawling: bool
    var crawlPending: bool
    /** Deferred recrawls scheduled and not yet run. */
    var scheduledRecrawls: nat

    /** The maps agree, and exactly the connected nodes hold a subscription. */
    ghost predicate Consistent()
      reads this
    {
      && root in universe && UniverseClosed(children, universe)
      && loadedNodes.Keys == connected && connected <= universe && Held(upstream) == multiset(connected)
    }

    ghost predicate Valid()
      reads this, node
    {
      && Consistent() && !node.connecting && !crawling && !crawlPending
      && (skipDeferredWhenDisconnected && node.observers == [] ==> connected == {})
    }

    constructor (root: K, children: N -> seq<K>, build: map<K, Option<N>> -> Computation<TreeT>, universe: set<K>,
                 skipDeferredWhenDisconnected: bool)
      requires root in universe && UniverseClosed(children, universe)
      ensures Valid() && fresh(node)
      ensures this.root == root && this.children == children && this.build == build && this.universe == universe
      ensures this.skipDeferredWhenDisconnected == skipDeferredWhenDisconnected
      ensures node.cached == None && node.observers == [] && node.log == []
      ensures connected == {} && loadedNodes == map[] && upstream == [] && scheduledRecrawls == 0
    {
      node := new Observable(None);
      this.root := root;
      this.children := children;
      this.build := build;
      this.universe := universe;
      this.skipDeferredWhenDisconnected := skipDeferredWhenDisconnected;
      connected := {};
      loadedNodes := map[];
      upstream := [];
      crawling := false;
      crawlPending := false;
      scheduledRecrawls := 0;
    }

    /** `connectTo`: subscribe a key not yet connected; its synchronous first notification only
        records its slot. */
    method ConnectTo(k: K, slots: K -> Option<N>)
      requires Consistent() && k in universe
      modifies this`connected, this`loadedNodes, this`upstream
      ensures Consistent()
      ensures connected == old(connected) + {k}
      ensures upstream == old(upstream) + if k in old(connected) then [] else [Took(k)]
      // the recorded values are what a crawl saw: the old ones, and `slots(k)` for a new key
      ensures forall j :: ValueOf(loadedNodes, slots, j) == ValueOf(old(loadedNodes), slots, j)
    {
      if k !in connected {
        HeldSnoc(upstream, Took(k));
        loadedNodes := loadedNodes[k := slots(k)];
        connected := connected + {k};
        upstream := upstream + [Took(k)];
      }
    }

    /** `disconnectFrom`: forget a key and release its subscription, if any. */
    method DisconnectFrom(k: K)
      requires Consistent()
      modifies this`connected, this`loadedNodes, this`upstream
      ensures Consistent()
      ensures connected == old(connected) - {k}
      ensures loadedNodes == old(loadedNodes) - {k}
      ensures upstream == old(upstream) + if k in old(connected) then [Released(k)] else []
    {
      if k in connected {
        HeldSnoc(upstream, Released(k));
        upstream := upstream + [Released(k)];
      }
      connected := connected - {k};
      loadedNodes := loadedNodes - {k};
    }

    /** `crawl`: visit `parent` once, connect to it, and descend into its children when loaded. */
    method Crawl(parent: K, reachable: set<K>, loading: set<K>, slots: K -> Option<N>)
      returns (reached: set<K>, stillLoading: set<K>)
      requires Consistent() && parent in universe && reachable <= universe
      modifies this`connected, this`loadedNodes, this`upstream
      decreases |universe - reachable|, 1
      ensures Consistent()
      ensures (reached, stillLoading) == CrawlFrom(children, old(loadedNodes), slots, universe, parent, reachable, loading)
      ensures old(connected) <= connected && reached - reachable <= connected && connected - old(connected) <= reached
      // connecting a node records the value it delivers: no key's value changes
      ensures forall k :: ValueOf(loadedNodes, slots, k) == ValueOf(old(loadedNodes), slots, k)
    {
      if parent in reachable {
        return reachable, loading;
      }
      ConnectTo(parent, slots);
      var loaded := loadedNodes[parent];
      assert loaded == ValueOf(old(loadedNodes), slots, parent);
      if loaded == None {
        return reachable + {parent}, loading + {parent};
      }
      UnreachedShrinks(universe, reachable, reachable + {parent}, parent);
      ghost var connectedValues := loadedNodes;
      reached, stillLoading := CrawlChildren(children(loaded.value), reachable + {parent}, loading, slots);
      CrawlKidsSameValues(children, connectedValues, old(loadedNodes), slots, universe, children(loaded.value), reachable + {parent}, loading);
    }

    /** The loop of `crawl` over the child keys of a loaded node. */
    method CrawlChildren(kids: seq<K>, start: set<K>, loading: set<K>, slots: K -> Option<N>)
      returns (reached: set<K>, stillLoading: set<K>)
      requires Consistent() && start <= universe && forall i :: 0 <= i < |kids| ==> kids[i] in universe
      modifies this`connected, this`loadedNodes, this`upstream
      decreases |universe - start|, 2
      ensures Consistent()
      ensures (reached, stillLoading) == CrawlKids(children, old(loadedNodes), slots, universe, kids, start, loading)
      ensures old(connected) <= connected && reached - start <= connected && connected - old(connected) <= reached
      ensures forall k :: ValueOf(loadedNodes, slots, k) == ValueOf(old(loadedNodes), slots, k)
    {
      reached, stillLoading := start, loading;
      var i := 0;
      while i < |kids|
        invariant 0 <= i <= |kids|
        invariant Consistent()
        invariant start <= reached <= universe
        invariant CrawlKids(children, old(loadedNodes), slots, universe, kids[i..], reached, stillLoading)
               == CrawlKids(children, old(loadedNodes), slots, universe, kids, start, loading)
        invariant old(connected) <= connected && reached - start <= connected && connected - old(connected) <= reached
        invariant forall k :: ValueOf(loadedNodes, slots, k) == ValueOf(old(loadedNodes), slots, k)
      {
        ghost var values := loadedNodes;
        ghost var before, loadingBefore := reached, stillLoading;
        SubsetSize(universe - reached, universe - start);
        reached, stillLoading := Crawl(kids[i], reached, stillLoading, slots);
        CrawlFromSameValues(children, values, old(loadedNodes), slots, universe, kids[i], before, loadingBefore);
        assert kids[i..][0] == kids[i] && kids[i..][1..] == kids[i + 1..];
        i := i + 1;
      }
    }
  
    /** The clean-up loop of `recrawl`: over a snapshot of the connected keys, disconnect every
        key that was not reached. */
    method Evict(reached: set<K>)
      requires Consistent()
      modifies this`connected, this`loadedNodes, this`upstream
      ensures Consistent()
      ensures connected == old(connected) * reached
      ensures forall k :: k in loadedNodes ==> loadedNodes[k] == old(loadedNodes)[k]
    {
      var toCheck := connected;
      while toCheck != {}
        invariant Consistent()
        invariant toCheck <= old(connected) && connected <= old(connected)
        invariant forall k :: k in old(connected) ==> (k in connected <==> k in toCheck || k in reached)
        invariant forall k :: k in loadedNodes ==> loadedNodes[k] == old(loadedNodes)[k]
        decreases |toCheck|
      {
        var k :| k in toCheck;
        if k !in reached {
          DisconnectFrom(k);
        }
        toCheck := toCheck - {k};
      }
    }

    /** Node changes delivered while the tree is crawling (observers reacting to the fired tree):
        `onNodeChanged` records each value and, for a loaded node, marks a crawl pending. */
    method DeliverDuringFire(changes: seq<NodeChange<K, N>>)
      requires Consistent()
      modifies this`loadedNodes, this`crawlPending
      ensures Consistent()
      ensures loadedNodes == Deliver(old(loadedNodes), changes)
      ensures crawlPending == (old(crawlPending) || BringsLoadedNode(old(loadedNodes), changes))
    {
      loadedNodes, crawlPending := DeliverAll(loadedNodes, crawlPending, changes);
    }

    /** `rebuildTree`: fire the built tree, unless `build` throws. */
    method RebuildTree(duringFire: seq<NodeChange<K, N>>)
      requires Consistent()
      modifies node, this`loadedNodes, this`crawlPending
      ensures Consistent()
      ensures node.observers == old(node.observers) && node.connecting == old(node.connecting)
      ensures build(old(loadedNodes)).Threw? ==>
        node.cached == old(node.cached) && node.log == old(node.log) &&
        loadedNodes == old(loadedNodes) && crawlPending == old(crawlPending)
      ensures build(old(loadedNodes)).Value? ==>
        && node.cached == Some(build(old(loadedNodes)).value)
        && node.log == FireLog(old(node.log), old(node.cached), node.connecting, node.observers, node.cached)
        && loadedNodes == Deliver(old(loadedNodes), duringFire)
        && crawlPending == (old(crawlPending) || BringsLoadedNode(old(loadedNodes), duringFire))
    {
      var tree := build(loadedNodes);
      if tree.Value? {
        node.FireChange(Some(tree.value));
        DeliverDuringFire(duringFire);
      }
    }

    /** The crawl of `recrawl` from the root, then its clean-up loop: afterwards exactly the
        reached keys are connected, with the values the crawl saw. */
    method CrawlAndEvict(slots: K -> Option<N>) returns (reached: set<K>, loading: set<K>)
      requires Consistent()
      modifies this`connected, this`loadedNodes, this`upstream
      ensures Consistent()
      ensures (reached, loading) == CrawlFrom(children, old(loadedNodes), slots, universe, root, {}, {})
      ensures connected == reached
      ensures loadedNodes == CrawledValues(old(loadedNodes), slots, reached)
    {
      reached, loading := Crawl(root, {}, {}, slots);
      ghost var seen := loadedNodes;
      Evict(reached);
      EvictedValues(old(loadedNodes), seen, loadedNodes, slots, reached);
    }

    /** The state a `recrawl` leaves, given the recorded values, the tree's slot and log, and the
        count of scheduled recrawls when it started: exactly the keys reachable through loaded
        nodes are connected, with the values the crawl saw; loading was fired, then the tree
        built if nothing reached is loading; and one deferred recrawl is scheduled if a node
        loaded while the tree was fired. */
    ghost predicate RecrawledFrom(values: map<K, Option<N>>, cached: Option<TreeT>, log: seq<Notice<TreeT>>, scheduled: nat,
                                  slots: K -> Option<N>, duringFire: seq<NodeChange<K, N>>)
      reads this, node
    {
      && Consistent() && !crawling && !crawlPending
      && var c := CrawlFrom(children, values, slots, universe, root, {}, {});
         var crawled := CrawledValues(values, slots, c.0);
         var built := Rebuilt(build, c.1, crawled);
         && connected == c.0
         && node.cached == built
         && node.log == RecrawlLog(log, cached, node.connecting, node.observers, built)
         && loadedNodes == (if built.Some? then Deliver(crawled, duringFire) else crawled)
         && scheduledRecrawls == scheduled + if built.Some? && BringsLoadedNode(crawled, duringFire) then 1 else 0
    }

    /** `recrawl`: fire loading, crawl from the root, drop the nodes no longer reached, build the
        tree if nothing reached is loading, and schedule one deferred recrawl if a node loaded
        while the built tree was fired. */
    method Recrawl(slots: K -> Option<N>, duringFire: seq<NodeChange<K, N>>)
      requires Consistent() && !crawling && !crawlPending
      modifies node, this`connected, this`loadedNodes, this`upstream, this`crawling, this`crawlPending, this`scheduledRecrawls
      ensures RecrawledFrom(old(loadedNodes), old(node.cached), old(node.log), old(scheduledRecrawls), slots, duringFire)
      ensures node.observers == old(node.observers) && node.connecting == old(node.connecting)
    {
      crawling := true;
      node.FireChange(None);
      var reached, loading := CrawlAndEvict(slots);
      Conclude(loading, duringFire);
    }

    /** The end of `recrawl`: rebuild the tree if nothing reached is loading, leave the crawl, and
        schedule one deferred recrawl if a crawl became pending meanwhile. */
    method Conclude(loading: set<K>, duringFire: seq<NodeChange<K, N>>)
      requires Consistent() && !crawlPending
      modifies node, this`loadedNodes, this`crawling, this`crawlPending, this`scheduledRecrawls
      ensures Consistent() && !crawling && !crawlPending
      ensures node.observers == old(node.observers) && node.connecting == old(node.connecting)
      ensures var built := Rebuilt(build, loading, old(loadedNodes));
              && node.cached == (if built.Some? then built else old(node.cached))
              && node.log == (if built.Some? then FireLog(old(node.log), old(node.cached), node.connecting, node.observers, built) else old(node.log))
              && loadedNodes == (if built.Some? then Deliver(old(loadedNodes), duringFire) else old(loadedNodes))
              && scheduledRecrawls == old(scheduledRecrawls) + if built.Some? && BringsLoadedNode(old(loadedNodes), duringFire) then 1 else 0
    {
      if loading == {} {
        RebuildTree(duringFire);
      }
      crawling := false;
      if crawlPending {
        scheduledRecrawls := scheduledRecrawls + 1;
        crawlPending := false;
      }
    }

    /** `onNodeChanged` outside a crawl: record the value; a loaded node starts a recrawl. */
    method OnNodeChanged(k: K, v: Option<N>, slots: K -> Option<N>, duringFire: seq<NodeChange<K, N>>)
      requires Consistent() && !crawling && !crawlPending && k in connected
      modifies node, this`connected, this`loadedNodes, this`upstream, this`crawling, this`crawlPending, this`scheduledRecrawls
      ensures node.observers == old(node.observers) && node.connecting == old(node.connecting)
      ensures v.None? ==>
        && Consistent() && !crawling && !crawlPending
        && loadedNodes == old(loadedNodes)[k := v]
        && connected == old(connected) && upstream == old(upstream) && scheduledRecrawls == old(scheduledRecrawls)
        && node.cached == old(node.cached) && node.log == old(node.log)
      ensures v.Some? ==>
        RecrawledFrom(old(loadedNodes)[k := v], old(node.cached), old(node.log), old(scheduledRecrawls), slots, duringFire)
    {
      loadedNodes := loadedNodes[k := v];
      if v.Some? {
        Recrawl(slots, duringFire);
      }
    }

    /** `onConnect`: connect to the root, then recrawl. Observers are not notified while the
        tree is connecting, so no node changes arrive while it fires. */
    method OnConnect(slots: K -> Option<N>)
      requires Consistent() && !crawling && !crawlPending
      modifies node, this`connected, this`loadedNodes, this`upstream, this`crawling, this`crawlPending, this`scheduledRecrawls
      ensures RecrawledFrom(old(loadedNodes), old(node.cached), old(node.log), old(scheduledRecrawls), slots, [])
      ensures node.observers == old(node.observers) && node.connecting == old(node.connecting)
    {
      ConnectTo(root, slots);
      CrawlFromSameValues(children, loadedNodes, old(loadedNodes), slots, universe, root, {}, {});
      ghost var reached := CrawlFrom(children, loadedNodes, slots, universe, root, {}, {}).0;
      assert CrawledValues(loadedNodes, slots, reached) == CrawledValues(old(loadedNodes), slots, reached);
      Recrawl(slots, []);
    }

    /** `onDisconnect`: release every node subscription, then clear the maps. */
    method OnDisconnect()
      requires Consistent()
      modifies this`connected, this`loadedNodes, this`upstream
      ensures Consistent() && connected == {} && loadedNodes == map[] && Held(upstream) == multiset{}
      ensures |upstream| == |old(upstream)| + |old(connected)|
      ensures forall i :: 0 <= i < |upstream| ==> if i < |old(upstream)| then upstream[i] == old(upstream)[i] else upstream[i].Released?
    {
      var events := ReleaseAll(upstream, connected);
      upstream := events;
      connected := {};
      loadedNodes := map[];
    }

    /** A deferred recrawl runs. As written it recrawls unconditionally; corrected, it is skipped
        while the tree has no observers. */
    method RunScheduledRecrawl(slots: K -> Option<N>, duringFire: seq<NodeChange<K, N>>)
      requires Consistent() && !crawling && !crawlPending && scheduledRecrawls > 0
      modifies node, this`connected, this`loadedNodes, this`upstream, this`crawling, this`crawlPending, this`scheduledRecrawls
      ensures node.observers == old(node.observers) && node.connecting == old(node.connecting)
      ensures old(Valid()) ==> Valid()
      ensures skipDeferredWhenDisconnected && old(node.observers) == [] ==>
        && Consistent() && !crawling && !crawlPending && scheduledRecrawls == old(scheduledRecrawls) - 1
        && connected == old(connected) && loadedNodes == old(loadedNodes) && upstream == old(upstream)
        && node.cached == old(node.cached) && node.log == old(node.log)
      ensures !(skipDeferredWhenDisconnected && old(node.observers) == []) ==>
        RecrawledFrom(old(loadedNodes), old(node.cached), old(node.log), old(scheduledRecrawls) - 1, slots, duringFire)
    {
      scheduledRecrawls := scheduledRecrawls - 1;
      if skipDeferredWhenDisconnected && !node.IsConnected() {
        return;
      }
      Recrawl(slots, duringFire);
    }

    /** `subscribe`: the first observer connects the tree (connect to the root and crawl); every
        observer is then told the current slot. */
    method Subscribe(o: ObserverId, slots: K -> Option<N>)
      requires Valid()
      modifies this, node
      ensures Valid()
      ensures node.observers == old(node.observers) + [o]
      ensures node.log == old(node.log) + [Notice(o, node.cached)]
      ensures old(node.observers) != [] ==>
        && node.cached == old(node.cached) && connected == old(connected)
        && loadedNodes == old(loadedNodes) && upstream == old(upstream)
      ensures old(node.observers) == [] ==>
        var c := CrawlFrom(children, old(loadedNodes), slots, universe, root, {}, {});
        && connected == c.0
        && loadedNodes == CrawledValues(old(loadedNodes), slots, c.0)
        && node.cached == Rebuilt(build, c.1, CrawledValues(old(loadedNodes), slots, c.0))
      ensures scheduledRecrawls == old(scheduledRecrawls)
    {
      var first := node.BeginSubscribe();
      if first {
        OnConnect(slots);
        node.EndConnect();
      }
      node.Attach(o);
    }

    /** `Subscription.unsubscribe`: the last observer leaving disconnects the tree. */
    method Unsubscribe(o: ObserverId) returns (outcome: Unsubscribed)
      requires Valid()
      modifies this`connected, this`loadedNodes, this`upstream, node
      ensures Valid()
      ensures o in old(node.observers) ==> outcome == Removed(node.observers == [])
      ensures o !in old(node.observers) ==> outcome == AlreadyUnsubscribed
      ensures node.observers == RemoveFirst(old(node.observers), o)
      ensures node.cached == old(node.cached) && node.log == old(node.log)
      ensures outcome == Removed(true) ==> connected == {} && loadedNodes == map[] && Held(upstream) == multiset{}
      ensures outcome != Removed(true) ==>
        connected == old(connected) && loadedNodes == old(loadedNodes) && upstream == old(upstream)
    {
      outcome := node.Detach(o);
      if outcome == Removed(true) {
        OnDisconnect();
      }
    }
}
}
