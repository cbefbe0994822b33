/**
 * A tree whose deferred recrawl outlives its observers. The tree has keys `false` (the root) and
 * `true`; a node is the sequence of its child keys, and the built tree is the number of nodes.
 * Every node delivers a loaded leaf when subscribed. An observer subscribes; the root then
 * loads with child `true`; while the new tree is fired, the observer's reaction makes the root
 * a leaf again, so a recrawl is deferred. The observer unsubscribes before it runs.
 */
module ObservableTreeTraces {
  import opened Wrappers
  import opened Observables
  import opened TreeCrawls
  import opened ObservableTrees

  const Keys: set<bool> := {false, true}

  function ChildKeys(n: seq<bool>): seq<bool>
  {
    n
  }

  function CountNodes(nodes: map<bool, Option<seq<bool>>>): Computation<nat>
  {
    Value(|nodes|)
  }

  function LoadedLeaf(k: bool): Option<seq<bool>>
  {
    Some([])
  }

  lemma KeysClosed()
    ensures UniverseClosed(ChildKeys, Keys)
  {
    forall n: seq<bool>, i | 0 <= i < |ChildKeys(n)|
      ensures ChildKeys(n)[i] in Keys
    {
      if n[i] { assert true in Keys; } else { assert false in Keys; }
    }
  }

  /** With nothing recorded, a crawl reaches the root alone, a loaded leaf. */
  lemma CrawlOfLeafRoot()
    ensures UniverseClosed(ChildKeys, Keys)
    ensures CrawlFrom(ChildKeys, map[], LoadedLeaf, Keys, false, {}, {}) == ({false}, {})
    ensures CrawledValues(map[], LoadedLeaf, {false}) == map[false := Some([])]
  {
    KeysClosed();
    var values: map<bool, Option<seq<bool>>> := map[];
    assert ValueOf(values, LoadedLeaf, false) == Some([]);
    assert {} + {false} == {false};
    assert CrawlKids(ChildKeys, values, LoadedLeaf, Keys, ChildKeys([]), {false}, {}) == ({false}, {});
  }

  /** Once the root has child `true`, a crawl reaches both keys, both loaded. */
  lemma CrawlOfRootWithChild()
    ensures UniverseClosed(ChildKeys, Keys)
    ensures CrawlFrom(ChildKeys, map[false := Some([true])], LoadedLeaf, Keys, false, {}, {}) == (Keys, {})
    ensures CrawledValues(map[false := Some([true])], LoadedLeaf, Keys) == map[false := Some([true]), true := Some([])]
  {
    KeysClosed();
    var values := map[false := Some([true])];
    assert ValueOf(values, LoadedLeaf, false) == Some([true]);
    assert ValueOf(values, LoadedLeaf, true) == Some([]);
    assert {} + {false} == {false} && {false} + {true} == Keys;
    assert CrawlKids(ChildKeys, values, LoadedLeaf, Keys, ChildKeys([]), Keys, {}) == (Keys, {});
    assert CrawlFrom(ChildKeys, values, LoadedLeaf, Keys, true, {false}, {}) == (Keys, {});
    assert [true][0] == true && [true][1..] == [];
    assert CrawlKids(ChildKeys, values, LoadedLeaf, Keys, [], Keys, {}) == (Keys, {});
    assert CrawlKids(ChildKeys, values, LoadedLeaf, Keys, ChildKeys([true]), {false}, {}) == (Keys, {});
  }

  /** The tree of the scenario. */
  ghost predicate Scenario(t: ObservableTree<bool, seq<bool>, nat>)
  {
    t.root == false && t.children == ChildKeys && t.build == CountNodes && t.universe == Keys
  }

  /** The observer subscribes: the root is crawled as a leaf. */
  method SubscribeObserver(t: ObservableTree<bool, seq<bool>, nat>)
    requires Scenario(t) && t.Valid() && t.node.observers == [] && t.loadedNodes == map[] && t.scheduledRecrawls == 0
    modifies t, t.node
    ensures t.Valid() && t.node.observers == [1] && t.scheduledRecrawls == 0
    ensures t.connected == {false} && t.loadedNodes == map[false := Some([])]
  {
    CrawlOfLeafRoot();
    t.Subscribe(1, LoadedLeaf);
  }

  /** The root loads with child `true`; the observer's reaction to the new tree makes the root a
      leaf again while the tree is crawling, which defers a recrawl. */
  method RootGainsChild(t: ObservableTree<bool, seq<bool>, nat>)
    requires Scenario(t) && t.Valid() && t.node.observers == [1] && t.scheduledRecrawls == 0
    requires t.connected == {false} && t.loadedNodes == map[false := Some([])]
    modifies t`connected, t`loadedNodes, t`upstream, t`crawling, t`crawlPending, t`scheduledRecrawls, t.node
    ensures t.Valid() && t.node.observers == [1] && t.scheduledRecrawls == 1
  {
    CrawlOfRootWithChild();
    assert map[false := Some([])][false := Some([true])] == map[false := Some([true])];
    var crawled := map[false := Some([true]), true := Some([])];
    var changes := [NodeChange(false, Some([]))];
    assert BringsLoadedNode(crawled, changes);
    t.OnNodeChanged(false, Some([true]), LoadedLeaf, changes);
  }

  /** The observer unsubscribes: every node subscription is released. */
  method ObserverLeaves(t: ObservableTree<bool, seq<bool>, nat>)
    requires Scenario(t) && t.Valid() && t.node.observers == [1] && t.scheduledRecrawls == 1
    modifies t`connected, t`loadedNodes, t`upstream, t.node
    ensures t.Valid() && t.node.observers == [] && t.scheduledRecrawls == 1
    ensures t.loadedNodes == map[] && Held(t.upstream) == multiset{}
  {
    assert RemoveFirst([1], 1) == [];
    var outcome := t.Unsubscribe(1);
  }

  /** The deferred recrawl runs on the disconnected tree. */
  method DeferredRecrawlRuns(t: ObservableTree<bool, seq<bool>, nat>)
    requires Scenario(t) && t.Valid() && t.node.observers == [] && t.scheduledRecrawls == 1
    requires t.loadedNodes == map[] && Held(t.upstream) == multiset{}
    modifies t`connected, t`loadedNodes, t`upstream, t`crawling, t`crawlPending, t`scheduledRecrawls, t.node
    ensures t.node.observers == []
    ensures !t.skipDeferredWhenDisconnected ==> Held(t.upstream) == multiset{false}
    ensures t.skipDeferredWhenDisconnected ==> Held(t.upstream) == multiset{}
  {
    CrawlOfLeafRoot();
    t.RunScheduledRecrawl(LoadedLeaf, []);
  }

  /** Runs the scenario on a tree that recrawls as written, or skips a deferred recrawl once
      disconnected; returns the observers left and the node subscriptions still held. */
  method RunScenario(skipDeferredWhenDisconnected: bool) returns (observers: seq<ObserverId>, held: multiset<bool>)
    ensures observers == []
    ensures !skipDeferredWhenDisconnected ==> held == multiset{false}
    ensures skipDeferredWhenDisconnected ==> held == multiset{}
  {
    KeysClosed();
    var t := new ObservableTree(false, ChildKeys, CountNodes, Keys, skipDeferredWhenDisconnected);
    SubscribeObserver(t);
    RootGainsChild(t);
    ObserverLeaves(t);
    DeferredRecrawlRuns(t);
    observers, held := t.node.observers, Held(t.upstream);
  }
}
