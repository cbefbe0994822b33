/**
 * The crawl of ObservableTree as a function: from the root key, visit each key once, treat a
 * key whose node is still loading as a leaf, and descend into the children of a loaded node in
 * order. The crawl sees, for each key, the value recorded for it or, for a key not yet
 * connected, the value its node delivers when subscribed (`ValueOf`).
 *
 * The lemmas show that the keys reached are exactly the keys reachable from the root through
 * loaded nodes: the least set that holds the root and every child of its loaded keys.
 */
module TreeCrawls {
  import opened Wrappers
  import opened FiniteSets

  /** The value the crawl sees for a key: the recorded one, or what subscribing would deliver. */
  function ValueOf<K, N>(values: map<K, Option<N>>, slots: K -> Option<N>, k: K): Option<N>
  {
    if k in values then values[k] else slots(k)
  }

  /** Every child key of every node lies in `universe`. */
  ghost predicate UniverseClosed<K, N(!new)>(children: N -> seq<K>, universe: set<K>)
  {
    forall n: N, i :: 0 <= i < |children(n)| ==> children(n)[i] in universe
  }

  /** Every child of a loaded key of `s` is in `s`. */
  ghost predicate ClosedUnder<K, N>(children: N -> seq<K>, values: map<K, Option<N>>, slots: K -> Option<N>, s: set<K>)
  {
    forall k, i :: k in s && ValueOf(values, slots, k).Some? && 0 <= i < |children(ValueOf(values, slots, k).value)|
      ==> children(ValueOf(values, slots, k).value)[i] in s
  }

  /** The keys of `s` whose node is still loading. */
  function LoadingIn<K(!new), N>(values: map<K, Option<N>>, slots: K -> Option<N>, s: set<K>): (r: set<K>)
    ensures forall k :: k in r <==> k in s && ValueOf(values, slots, k).None?
  {
    set k | k in s && ValueOf(values, slots, k).None?
  }

  /** The loading keys found in two successive stretches of a crawl are those of the whole. */
  lemma LoadingSplits<K(!new), N>(values: map<K, Option<N>>, slots: K -> Option<N>, reached: set<K>, mid: set<K>, final: set<K>,
                                  loading: set<K>, midLoading: set<K>, finalLoading: set<K>)
    requires reached <= mid <= final
    requires midLoading == loading + LoadingIn(values, slots, mid - reached)
    requires finalLoading == midLoading + LoadingIn(values, slots, final - mid)
    ensures finalLoading == loading + LoadingIn(values, slots, final - reached)
  {
    assert final - reached == (mid - reached) + (final - mid);
  }

  /** `crawl(parentKey, reachable, loading)`: the reachable and loading sets it leaves behind. */
  function CrawlFrom<K(!new), N(!new)>(children: N -> seq<K>, values: map<K, Option<N>>, slots: K -> Option<N>, universe: set<K>,
                                       parent: K, reachable: set<K>, loading: set<K>): (r: (set<K>, set<K>))
    requires UniverseClosed(children, universe) && parent in universe && reachable <= universe
    ensures reachable + {parent} <= r.0 <= universe
    decreases |universe - reachable|, 1
  {
    if parent in reachable then (reachable, loading)
    else match ValueOf(values, slots, parent)
      case None => (reachable + {parent}, loading + {parent})
      case Some(n) =>
        UnreachedShrinks(universe, reachable, reachable + {parent}, parent);
        CrawlKids(children, values, slots, universe, children(n), reachable + {parent}, loading)
  }

  /** The loop of `crawl` over the child keys `kids` of a loaded node. */
  function CrawlKids<K(!new), N(!new)>(children: N -> seq<K>, values: map<K, Option<N>>, slots: K -> Option<N>, universe: set<K>,
                                       kids: seq<K>, reached: set<K>, loading: set<K>): (r: (set<K>, set<K>))
    requires UniverseClosed(children, universe) && reached <= universe
    requires forall i :: 0 <= i < |kids| ==> kids[i] in universe
    ensures reached <= r.0 <= universe
    decreases |universe - reached|, 2, |kids|
  {
    if kids == [] then (reached, loading)
    else
      var first := CrawlFrom(children, values, slots, universe, kids[0], reached, loading);
      SubsetSize(universe - first.0, universe - reached);
      CrawlKids(children, values, slots, universe, kids[1..], first.0, first.1)
  }

  /** The crawl depends on the recorded values only through what it sees. */
  lemma {:induction false} CrawlFromSameValues<K(!new), N(!new)>(children: N -> seq<K>, v1: map<K, Option<N>>, v2: map<K, Option<N>>,
                                                                   slots: K -> Option<N>, universe: set<K>, parent: K, reachable: set<K>, loading: set<K>)
    requires UniverseClosed(children, universe) && parent in universe && reachable <= universe
    requires forall k :: ValueOf(v1, slots, k) == ValueOf(v2, slots, k)
    ensures CrawlFrom(children, v1, slots, universe, parent, reachable, loading) == CrawlFrom(children, v2, slots, universe, parent, reachable, loading)
    decreases |universe - reachable|, 1
  {
    if parent !in reachable && ValueOf(v1, slots, parent).Some? {
      assert ValueOf(v1, slots, parent) == ValueOf(v2, slots, parent);
      UnreachedShrinks(universe, reachable, reachable + {parent}, parent);
      CrawlKidsSameValues(children, v1, v2, slots, universe, children(ValueOf(v1, slots, parent).value), reachable + {parent}, loading);
    } else {
      assert ValueOf(v1, slots, parent) == ValueOf(v2, slots, parent);
    }
  }

  lemma {:induction false} CrawlKidsSameValues<K(!new), N(!new)>(children: N -> seq<K>, v1: map<K, Option<N>>, v2: map<K, Option<N>>,
                                                                   slots: K -> Option<N>, universe: set<K>, kids: seq<K>, reached: set<K>, loading: set<K>)
    requires UniverseClosed(children, universe) && reached <= universe
    requires forall i :: 0 <= i < |kids| ==> kids[i] in universe
    requires forall k :: ValueOf(v1, slots, k) == ValueOf(v2, slots, k)
    ensures CrawlKids(children, v1, slots, universe, kids, reached, loading) == CrawlKids(children, v2, slots, universe, kids, reached, loading)
    decreases |universe - reached|, 2, |kids|
  {
    if kids != [] {
      CrawlFromSameValues(children, v1, v2, slots, universe, kids[0], reached, loading);
      var first := CrawlFrom(children, v1, slots, universe, kids[0], reached, loading);
      SubsetSize(universe - first.0, universe - reached);
      CrawlKidsSameValues(children, v1, v2, slots, universe, kids[1..], first.0, first.1);
    }
  }

  /** The loading set grows by exactly the newly reached keys that are still loading. */
  lemma {:induction false} CrawlFromLoading<K(!new), N(!new)>(children: N -> seq<K>, values: map<K, Option<N>>, slots: K -> Option<N>,
                                                                universe: set<K>, parent: K, reachable: set<K>, loading: set<K>)
    requires UniverseClosed(children, universe) && parent in universe && reachable <= universe
    ensures var r := CrawlFrom(children, values, slots, universe, parent, reachable, loading);
            r.1 == loading + LoadingIn(values, slots, r.0 - reachable)
    decreases |universe - reachable|, 1
  {
    var r := CrawlFrom(children, values, slots, universe, parent, reachable, loading);
    if parent in reachable {
      assert LoadingIn(values, slots, r.0 - reachable) == {};
    } else if ValueOf(values, slots, parent).None? {
      assert LoadingIn(values, slots, r.0 - reachable) == {parent};
    } else {
      var start := reachable + {parent};
      UnreachedShrinks(universe, reachable, start, parent);
      CrawlKidsLoading(children, values, slots, universe, children(ValueOf(values, slots, parent).value), start, loading);
      assert LoadingIn(values, slots, r.0 - reachable) == LoadingIn(values, slots, r.0 - start);
    }
  }

  lemma {:induction false} CrawlKidsLoading<K(!new), N(!new)>(children: N -> seq<K>, values: map<K, Option<N>>, slots: K -> Option<N>,
                                                                universe: set<K>, kids: seq<K>, reached: set<K>, loading: set<K>)
    requires UniverseClosed(children, universe) && reached <= universe
    requires forall i :: 0 <= i < |kids| ==> kids[i] in universe
    ensures var r := CrawlKids(children, values, slots, universe, kids, reached, loading);
            r.1 == loading + LoadingIn(values, slots, r.0 - reached)
    decreases |universe - reached|, 2, |kids|
  {
    var r := CrawlKids(children, values, slots, universe, kids, reached, loading);
    if kids == [] {
      assert r.0 - reached == {};
    } else {
      var first := CrawlFrom(children, values, slots, universe, kids[0], reached, loading);
      CrawlFromLoading(children, values, slots, universe, kids[0], reached, loading);
      SubsetSize(universe - first.0, universe - reached);
      CrawlKidsLoading(children, values, slots, universe, kids[1..], first.0, first.1);
      LoadingSplits(values, slots, reached, first.0, r.0, loading, first.1, r.1);
    }
  }

  /** Every child of a newly reached loaded key is reached. */
  lemma {:induction false} CrawlFromCloses<K(!new), N(!new)>(children: N -> seq<K>, values: map<K, Option<N>>, slots: K -> Option<N>,
                                                               universe: set<K>, parent: K, reachable: set<K>, loading: set<K>)
    requires UniverseClosed(children, universe) && parent in universe && reachable <= universe
    ensures var r := CrawlFrom(children, values, slots, universe, parent, reachable, loading);
            forall k, i :: k in r.0 - reachable && ValueOf(values, slots, k).Some? && 0 <= i < |children(ValueOf(values, slots, k).value)|
              ==> children(ValueOf(values, slots, k).value)[i] in r.0
    decreases |universe - reachable|, 1
  {
    if parent !in reachable && ValueOf(values, slots, parent).Some? {
      var kids := children(ValueOf(values, slots, parent).value);
      UnreachedShrinks(universe, reachable, reachable + {parent}, parent);
      CrawlKidsCloses(children, values, slots, universe, kids, reachable + {parent}, loading);
    }
  }

  lemma {:induction false} CrawlKidsCloses<K(!new), N(!new)>(children: N -> seq<K>, values: map<K, Option<N>>, slots: K -> Option<N>,
                                                               universe: set<K>, kids: seq<K>, reached: set<K>, loading: set<K>)
    requires UniverseClosed(children, universe) && reached <= universe
    requires forall i :: 0 <= i < |kids| ==> kids[i] in universe
    ensures var r := CrawlKids(children, values, slots, universe, kids, reached, loading);
            && (forall i :: 0 <= i < |kids| ==> kids[i] in r.0)
            && forall k, i :: k in r.0 - reached && ValueOf(values, slots, k).Some? && 0 <= i < |children(ValueOf(values, slots, k).value)|
                 ==> children(ValueOf(values, slots, k).value)[i] in r.0
    decreases |universe - reached|, 2, |kids|
  {
    if kids != [] {
      var first := CrawlFrom(children, values, slots, universe, kids[0], reached, loading);
      CrawlFromCloses(children, values, slots, universe, kids[0], reached, loading);
      SubsetSize(universe - first.0, universe - reached);
      CrawlKidsCloses(children, values, slots, universe, kids[1..], first.0, first.1);
      var r := CrawlKids(children, values, slots, universe, kids, reached, loading);
      assert forall i :: 0 <= i < |kids| ==> kids[i] in r.0 by {
        forall i | 0 <= i < |kids| ensures kids[i] in r.0 {
          if i > 0 {
            assert kids[i] == kids[1..][i - 1];
          }
        }
      }
    }
  }

  /** The newly reached keys lie in every set closed under children that holds `parent`. */
  lemma {:induction false} CrawlFromMinimal<K(!new), N(!new)>(children: N -> seq<K>, values: map<K, Option<N>>, slots: K -> Option<N>,
                                                                universe: set<K>, parent: K, reachable: set<K>, loading: set<K>, s: set<K>)
    requires UniverseClosed(children, universe) && parent in universe && reachable <= universe
    requires parent in s && ClosedUnder(children, values, slots, s)
    ensures CrawlFrom(children, values, slots, universe, parent, reachable, loading).0 - reachable <= s
    decreases |universe - reachable|, 1
  {
    if parent !in reachable && ValueOf(values, slots, parent).Some? {
      var kids := children(ValueOf(values, slots, parent).value);
      assert forall i :: 0 <= i < |kids| ==> kids[i] in s;
      UnreachedShrinks(universe, reachable, reachable + {parent}, parent);
      CrawlKidsMinimal(children, values, slots, universe, kids, reachable + {parent}, loading, s);
    }
  }

  lemma {:induction false} CrawlKidsMinimal<K(!new), N(!new)>(children: N -> seq<K>, values: map<K, Option<N>>, slots: K -> Option<N>,
                                                                universe: set<K>, kids: seq<K>, reached: set<K>, loading: set<K>, s: set<K>)
    requires UniverseClosed(children, universe) && reached <= universe
    requires forall i :: 0 <= i < |kids| ==> kids[i] in universe && kids[i] in s
    requires ClosedUnder(children, values, slots, s)
    ensures CrawlKids(children, values, slots, universe, kids, reached, loading).0 - reached <= s
    decreases |universe - reached|, 2, |kids|
  {
    if kids != [] {
      var first := CrawlFrom(children, values, slots, universe, kids[0], reached, loading);
      CrawlFromMinimal(children, values, slots, universe, kids[0], reached, loading, s);
      SubsetSize(universe - first.0, universe - reached);
      CrawlKidsMinimal(children, values, slots, universe, kids[1..], first.0, first.1, s);
    }
  }

  /** A crawl from the root with nothing reached yet finds exactly the keys reachable from the
      root through loaded nodes, and records as loading exactly those still loading. */
  lemma CrawlFindsReachable<K(!new), N(!new)>(children: N -> seq<K>, values: map<K, Option<N>>, slots: K -> Option<N>,
                                              universe: set<K>, root: K)
    requires UniverseClosed(children, universe) && root in universe
    ensures var r := CrawlFrom(children, values, slots, universe, root, {}, {});
            && root in r.0
            && ClosedUnder(children, values, slots, r.0)
            && (forall s :: root in s && ClosedUnder(children, values, slots, s) ==> r.0 <= s)
            && r.1 == LoadingIn(values, slots, r.0)
  {
    var r := CrawlFrom(children, values, slots, universe, root, {}, {});
    CrawlFromLoading(children, values, slots, universe, root, {}, {});
    CrawlFromCloses(children, values, slots, universe, root, {}, {});
    assert r.0 - {} == r.0;
    forall s | root in s && ClosedUnder(children, values, slots, s)
      ensures r.0 <= s
    {
      CrawlFromMinimal(children, values, slots, universe, root, {}, {}, s);
    }
  }
}
