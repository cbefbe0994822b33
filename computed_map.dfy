/**
 * ObservableComputedMap: maps each key of a source collection to an observable produced by a
 * factory, reusing the observable already cached for a key. Observables are identified by
 * reference (`ObsRef`); each `new HashMap` the node fires is a new map instance (`MapRef`).
 * The source collection is a sequence: it may list a key twice.
 */
module ComputedMaps {
  import opened Wrappers
  import opened Observables
  import opened FiniteSets

  type ObsRef = nat
  type MapRef = nat

  datatype KeyedMap<K> = KeyedMap(ref: MapRef, entries: map<K, ObsRef>)

  /** `setsEqual` as written: same size, and the set contains every element of the collection.
      The collection's size counts repeated keys. */
  predicate SetsEqualAsWritten<K>(a: seq<K>, b: set<K>)
  {
    |a| == |b| && forall x :: x in a ==> x in b
  }

  /** The comparison the sweep relies on: the collection holds exactly the keys of the set. */
  predicate KeySetEquals<K(!new)>(a: seq<K>, b: set<K>)
  {
    Elements(a) == b
  }

  /** As written, a collection repeating a key can pass for a larger key set: `[1, 1]` compares
      equal to `{1, 2}`, so the node would keep firing a map with key 2; and `[1, 1, 2]` compares
      unequal to the same keys, so a new map is fired for nothing. */
  lemma SetsEqualAcceptsRepeatedKey()
    ensures SetsEqualAsWritten([1, 1], {1, 2})
    ensures !KeySetEquals([1, 1], {1, 2})
    ensures !SetsEqualAsWritten([1, 1, 2], {1, 2})
    ensures KeySetEquals([1, 1, 2], {1, 2})
  {
    assert 2 !in Elements([1, 1]);
    assert Elements([1, 1, 2]) == {1, 2};
  }

  lemma {:induction false} ElementsCardinality<K(!new)>(a: seq<K>)
    requires NoDuplicates(a)
    ensures |Elements(a)| == |a|
  {
    if a != [] {
      var rest := a[..|a| - 1];
      var last := a[|a| - 1];
      assert NoDuplicates(rest);
      ElementsCardinality(rest);
      assert last !in rest;
      assert Elements(a) == Elements(rest) + {last};
    }
  }

  /** On collections without repeated keys the written test and the intended one agree. */
  lemma {:induction false} SetsEqualAgreesWithoutDuplicates<K(!new)>(a: seq<K>, b: set<K>)
    requires NoDuplicates(a)
    ensures SetsEqualAsWritten(a, b) <==> KeySetEquals(a, b)
  {
    ElementsCardinality(a);
    if SetsEqualAsWritten(a, b) {
      assert Elements(a) <= b;
      SubsetOfSameSize(Elements(a), b);
    }
  }

  /** The loop of `keysChanged` on the cache: the new map, the cache after it, and the keys the
      factory was called for, in order. */
  method CollectInto<K(!new)>(keys: seq<K>, cache0: map<K, ObsRef>, factory: K -> ObsRef)
    returns (newMap: map<K, ObsRef>, cache: map<K, ObsRef>, calls: seq<K>)
    ensures newMap.Keys == Elements(keys)
    ensures cache.Keys == cache0.Keys + Elements(keys)
    ensures forall k :: k in cache ==> cache[k] == if k in cache0 then cache0[k] else factory(k)
    ensures forall k :: k in newMap ==> newMap[k] == cache[k]
    ensures NoDuplicates(calls)
    ensures Elements(calls) == Elements(keys) - cache0.Keys
  {
    newMap, cache, calls := map[], cache0, [];
    for i := 0 to |keys|
      invariant newMap.Keys == Elements(keys[..i])
      invariant cache.Keys == cache0.Keys + Elements(keys[..i])
      invariant forall k :: k in cache ==> cache[k] == if k in cache0 then cache0[k] else factory(k)
      invariant forall k :: k in newMap ==> newMap[k] == cache[k]
      invariant NoDuplicates(calls)
      invariant Elements(calls) == Elements(keys[..i]) - cache0.Keys
    {
      var k := keys[i];
      assert keys[..i + 1] == keys[..i] + [k];
      if k !in cache {
        // computeIfAbsent calls the factory for a key not yet cached
        AppendFresh(calls, k);
        calls := calls + [k];
        cache := cache[k := factory(k)];
      }
      newMap := newMap[k := cache[k]];
    }
    assert keys[..|keys|] == keys;
  }

  /** The test `keysChanged` makes before building a new map: `setsEqual` as written, or the
      intended comparison of key sets when `corrected` holds. */
  predicate KeysUnchanged<K(!new)>(corrected: bool, keys: seq<K>, current: set<K>)
  {
    if corrected then KeySetEquals(keys, current) else SetsEqualAsWritten(keys, current)
  }

  /** Whether `keysChanged` fires a new map for the loaded key collection `keys`. */
  predicate Refires<K(!new)>(corrected: bool, cached: Option<KeyedMap<K>>, keys: seq<K>)
  {
    !(cached.Some? && KeysUnchanged(corrected, keys, cached.value.entries.Keys))
  }

  /** The entries of the new map: every key of the collection, with the cached observable or,
      for a key not yet cached, the factory's. */
  function NewEntries<K(!new)>(keys: seq<K>, cache: map<K, ObsRef>, factory: K -> ObsRef): (r: map<K, ObsRef>)
    ensures r.Keys == Elements(keys)
    ensures forall k :: k in r ==> r[k] == if k in cache then cache[k] else factory(k)
  {
    map k | k in Elements(keys) :: if k in cache then cache[k] else factory(k)
  }

  /** The slot after `keysChanged(newKeys)` on a node holding `cached`: loading for loading
      keys, the same map when the keys compare unchanged, otherwise map instance `nextRef`. */
  function KeysChangedSlot<K(!new)>(corrected: bool, cached: Option<KeyedMap<K>>, newKeys: Option<seq<K>>,
                                    nextRef: MapRef, cache: map<K, ObsRef>, factory: K -> ObsRef): Option<KeyedMap<K>>
  {
    if newKeys.None? then None
    else if !Refires(corrected, cached, newKeys.value) then cached
    else Some(KeyedMap(nextRef, NewEntries(newKeys.value, cache, factory)))
  }

  /** The cache after `keysChanged(newKeys)`: swept to the new map's entries when one is fired. */
  function KeysChangedCache<K(!new)>(corrected: bool, cached: Option<KeyedMap<K>>, newKeys: Option<seq<K>>,
                                     cache: map<K, ObsRef>, factory: K -> ObsRef): map<K, ObsRef>
  {
    if newKeys.Some? && Refires(corrected, cached, newKeys.value) then NewEntries(newKeys.value, cache, factory)
    else cache
  }

  /** With the intended comparison, the map `keysChanged` leaves behind for a loaded collection
      has exactly the collection's keys, whether it kept the cached map or fired a new one. */
  lemma CorrectedSlotListsKeys<K(!new)>(cached: Option<KeyedMap<K>>, keys: seq<K>, nextRef: MapRef,
                                        cache: map<K, ObsRef>, factory: K -> ObsRef)
    ensures KeysChangedSlot(true, cached, Some(keys), nextRef, cache, factory).Some?
    ensures KeysChangedSlot(true, cached, Some(keys), nextRef, cache, factory).value.entries.Keys == Elements(keys)
  {
  }

  /** The sweep after a new map: the cached observables of the collection's keys only. */
  function Sweep<K(!new)>(cache: map<K, ObsRef>, keys: seq<K>): (r: map<K, ObsRef>)
    ensures r.Keys == cache.Keys * Elements(keys)
    ensures forall k :: k in r ==> r[k] == cache[k]
  {
    map k | k in cache && k in keys :: cache[k]
  }

  /** Filling the cache for the new map and then sweeping it leaves exactly the new map. */
  lemma SweepKeepsNewEntries<K(!new)>(before: map<K, ObsRef>, filled: map<K, ObsRef>, newMap: map<K, ObsRef>,
                                      keys: seq<K>, factory: K -> ObsRef)
    requires filled.Keys == before.Keys + Elements(keys)
    requires forall k :: k in filled ==> filled[k] == if k in before then before[k] else factory(k)
    requires newMap.Keys == Elements(keys) && forall k :: k in newMap ==> newMap[k] == filled[k]
    ensures newMap == NewEntries(keys, before, factory) && Sweep(filled, keys) == newMap
  {
  }

  /** Appending an element not yet present keeps a sequence free of duplicates. */
  lemma AppendFresh<K(!new)>(s: seq<K>, k: K)
    requires NoDuplicates(s) && k !in Elements(s)
    ensures NoDuplicates(s + [k]) && Elements(s + [k]) == Elements(s) + {k}
  {
    assert forall i :: 0 <= i < |s| ==> s[i] in Elements(s);
  }

  class ObservableComputedMap<K(==,!new)> {
    const node: Observable<KeyedMap<K>>
    /** `function`: the observable the factory returns for a key. */
    const factory: K -> ObsRef
    /** Whether `GWT.isScript()` holds, which defers the cache clear on disconnect. */
    const scriptMode: bool
    /** Selects the intended key comparison; false runs `setsEqual` as written. */
    const distinctKeyCompare: bool
    var cache: map<K, ObsRef>
    /** The keys the factory was called with, in order. */
    var factoryCalls: seq<K>
    var nextMapRef: MapRef
    var keySubscribed: bool
    /** Deferred cache clears scheduled and not yet run. */
    var deferredClears: nat

    ghost predicate Valid()
      reads this, node
    {
      !node.connecting && (keySubscribed <==> node.observers != []) &&
      (node.cached.Some? ==> node.cached.value.ref < nextMapRef)
    }

    constructor (factory: K -> ObsRef, scriptMode: bool, distinctKeyCompare: bool)
      ensures Valid() && fresh(node)
      ensures this.factory == factory && this.scriptMode == scriptMode && this.distinctKeyCompare == distinctKeyCompare
      ensures node.cached == None && node.observers == [] && node.log == []
      ensures cache == map[] && factoryCalls == [] && !keySubscribed && deferredClears == 0
    {
      node := new Observable(None);
      this.factory := factory;
      this.scriptMode := scriptMode;
      this.distinctKeyCompare := distinctKeyCompare;
      cache := map[];
      factoryCalls := [];
      nextMapRef := 0;
      keySubscribed := false;
      deferredClears := 0;
    }

    /** The loop of `keysChanged` that fills the new map, calling the factory (through
        `computeIfAbsent`) only for keys not yet cached. */
    method CollectEntries(keys: seq<K>) returns (newMap: map<K, ObsRef>)
      modifies this`cache, this`factoryCalls
      ensures newMap.Keys == Elements(keys)
      ensures cache.Keys == old(cache).Keys + Elements(keys)
      ensures forall k :: k in cache ==> cache[k] == if k in old(cache) then old(cache)[k] else factory(k)
      ensures forall k :: k in newMap ==> newMap[k] == cache[k]
      ensures |factoryCalls| >= |old(factoryCalls)| && factoryCalls[..|old(factoryCalls)|] == old(factoryCalls)
      ensures NoDuplicates(factoryCalls[|old(factoryCalls)|..])
      ensures Elements(factoryCalls[|old(factoryCalls)|..]) == Elements(keys) - old(cache).Keys
    {
      var calls;
      newMap, cache, calls := CollectInto(keys, cache, factory);
      factoryCalls := factoryCalls + calls;
      assert factoryCalls[..|old(factoryCalls)|] == old(factoryCalls);
      assert factoryCalls[|old(factoryCalls)|..] == calls;
    }

    /** `keysChanged`. */
    method OnKeysChange(newKeys: Option<seq<K>>)
      requires node.cached.Some? ==> node.cached.value.ref < nextMapRef
      modifies this`cache, this`factoryCalls, this`nextMapRef, node
      ensures node.cached.Some? ==> node.cached.value.ref < nextMapRef
      ensures newKeys.None? ==>
        node.cached == None && cache == old(cache) && factoryCalls == old(factoryCalls)
      ensures node.cached == KeysChangedSlot(distinctKeyCompare, old(node.cached), newKeys, old(nextMapRef), old(cache), factory)
      ensures cache == KeysChangedCache(distinctKeyCompare, old(node.cached), newKeys, old(cache), factory)
      ensures newKeys.Some? && !Refires(distinctKeyCompare, old(node.cached), newKeys.value) ==>
        node.log == old(node.log) && factoryCalls == old(factoryCalls)
      ensures newKeys.Some? && Refires(distinctKeyCompare, old(node.cached), newKeys.value) ==>
        && |factoryCalls| >= |old(factoryCalls)|
        && factoryCalls[..|old(factoryCalls)|] == old(factoryCalls)
        && NoDuplicates(factoryCalls[|old(factoryCalls)|..])
        && Elements(factoryCalls[|old(factoryCalls)|..]) == Elements(newKeys.value) - old(cache).Keys
      ensures node.log == FireLog(old(node.log), old(node.cached), node.connecting, node.observers, node.cached)
      ensures node.observers == old(node.observers) && node.connecting == old(node.connecting)
    {
      if newKeys == None {
        node.FireChange(None);
        return;
      }
      var keys := newKeys.value;
      if node.cached != None && KeysUnchanged(distinctKeyCompare, keys, node.cached.value.entries.Keys) {
        return;
      }
      var newMap := CollectEntries(keys);
      ghost var filled := cache;
      SweepKeepsNewEntries(old(cache), filled, newMap, keys, factory);
      var fired := KeyedMap(nextMapRef, newMap);
      nextMapRef := nextMapRef + 1;
      node.FireChange(Some(fired));
      // sweep: keep only the keys of the new collection
      cache := Sweep(cache, keys);
    }

    /** `onConnect`: subscribe to the keys, whose synchronous delivery runs `keysChanged`. */
    method OnConnect(initial: Option<seq<K>>)
      requires node.cached.Some? ==> node.cached.value.ref < nextMapRef
      modifies this, node
      ensures keySubscribed
      ensures node.cached.Some? ==> node.cached.value.ref < nextMapRef
      ensures node.cached == KeysChangedSlot(distinctKeyCompare, old(node.cached), initial, old(nextMapRef), old(cache), factory)
      ensures cache == KeysChangedCache(distinctKeyCompare, old(node.cached), initial, old(cache), factory)
      ensures node.connecting ==> node.log == old(node.log)
      ensures node.observers == old(node.observers) && node.connecting == old(node.connecting)
    {
      OnKeysChange(initial);
      keySubscribed := true;
    }

    /** `onDisconnect`: release the keys; clear the cache now, or in script mode in a deferred task. */
    method OnDisconnect()
      modifies this`keySubscribed, this`cache, this`deferredClears
      ensures !keySubscribed
      ensures !scriptMode ==> cache == map[] && deferredClears == old(deferredClears)
      ensures scriptMode ==> cache == old(cache) && deferredClears == old(deferredClears) + 1
    {
      keySubscribed := false;
      if scriptMode {
        deferredClears := deferredClears + 1;
      } else {
        cache := map[];
      }
    }

    /** A deferred clear runs: it empties the cache only if the node is still disconnected. */
    method RunDeferredClear()
      requires deferredClears > 0
      modifies this`cache, this`deferredClears
      ensures deferredClears == old(deferredClears) - 1
      ensures cache == (if node.observers == [] then map[] else old(cache))
    {
      deferredClears := deferredClears - 1;
      if !node.IsConnected() {
        cache := map[];
      }
    }

    method Subscribe(o: ObserverId, initial: Option<seq<K>>)
      requires Valid()
      modifies this, node
      ensures Valid()
      ensures old(node.observers) != [] ==> node.cached == old(node.cached) && cache == old(cache)
      ensures old(node.observers) == [] ==>
        && node.cached == KeysChangedSlot(distinctKeyCompare, old(node.cached), initial, old(nextMapRef), old(cache), factory)
        && cache == KeysChangedCache(distinctKeyCompare, old(node.cached), initial, old(cache), factory)
      ensures node.observers == old(node.observers) + [o]
      ensures node.log == old(node.log) + [Notice(o, node.cached)]
    {
      var first := node.BeginSubscribe();
      if first {
        OnConnect(initial);
        node.EndConnect();
      }
      node.Attach(o);
    }

    method Unsubscribe(o: ObserverId) returns (outcome: Unsubscribed)
      requires Valid()
      modifies this, node
      ensures Valid()
      ensures o in old(node.observers) ==> outcome == Removed(node.observers == [])
      ensures o !in old(node.observers) ==> outcome == AlreadyUnsubscribed
      ensures node.observers == RemoveFirst(old(node.observers), o)
      ensures node.cached == old(node.cached) && node.log == old(node.log)
      ensures outcome == Removed(true) && !scriptMode ==> cache == map[] && deferredClears == old(deferredClears)
      ensures outcome == Removed(true) && scriptMode ==> cache == old(cache) && deferredClears == old(deferredClears) + 1
      ensures outcome != Removed(true) ==> cache == old(cache) && deferredClears == old(deferredClears)
    {
      outcome := node.Detach(o);
      if outcome == Removed(true) {
        OnDisconnect();
      }
    }
  }

  /** Keys `[1, 2]`, then `[1, 1]`, with observer 7 subscribed. As written the node keeps the map
      over `{1, 2}`, tells nobody and keeps key 2 cached; with the intended comparison it fires a
      map over `{1}` and sweeps key 2 from the cache. */
  method RepeatedKeyTrace(distinctKeyCompare: bool) returns (keys: set<nat>, cached: set<nat>, notices: nat)
    ensures !distinctKeyCompare ==> keys == {1, 2} && cached == {1, 2} && notices == 1
    ensures distinctKeyCompare ==> keys == {1} && cached == {1} && notices == 2
  {
    var m := SubscribedToTwoKeys(distinctKeyCompare);
    SetsEqualAcceptsRepeatedKey();
    assert Elements([1, 1]) == {1};
    m.OnKeysChange(Some([1, 1]));
    keys, cached, notices := m.node.cached.value.entries.Keys, m.cache.Keys, |m.node.log|;
  }

  /** The first step of `RepeatedKeyTrace`: observer 7 subscribes while the keys are `[1, 2]`. */
  method SubscribedToTwoKeys(distinctKeyCompare: bool) returns (m: ObservableComputedMap<nat>)
    ensures fresh(m) && fresh(m.node) && m.distinctKeyCompare == distinctKeyCompare
    ensures m.node.cached.Some? && m.node.cached.value.entries.Keys == {1, 2} && m.cache.Keys == {1, 2}
    ensures m.node.cached.value.ref < m.nextMapRef && |m.node.log| == 1
    ensures m.node.observers == [7] && !m.node.connecting
  {
    m := new ObservableComputedMap<nat>((k: nat) => k + 10, false, distinctKeyCompare);
    assert Elements([1, 2]) == {1, 2};
    m.Subscribe(7, Some([1, 2]));
  }
}
