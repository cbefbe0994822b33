/**
 * The base node of the reactive graph: a cached value slot (None = loading), an ordered
 * list of observers and a `connecting` flag. Observer callbacks are not executed: every
 * call `observer.onChange(v)` is recorded as a `Notice` in the append-only `log`.
 */
module Observables {
  import opened Wrappers

  /** Identity of an observer object. */
  type ObserverId = nat

  /** One call `observer.onChange(value)`. */
  datatype Notice<T> = Notice(observer: ObserverId, value: Option<T>)

  /** What `Subscription.unsubscribe` found: the observer was removed (and whether that left the node
      without observers, so that `onDisconnect` must run), or it was not subscribed any more. */
  datatype Unsubscribed = Removed(lastGone: bool) | AlreadyUnsubscribed

  /** The notices of one `fireChange` round: one per observer of the snapshot, in subscription order. */
  function Broadcast<T>(observers: seq<ObserverId>, value: Option<T>): (r: seq<Notice<T>>)
    ensures |r| == |observers|
    ensures forall i :: 0 <= i < |r| ==> r[i] == Notice(observers[i], value)
  {
    if observers == [] then [] else [Notice(observers[0], value)] + Broadcast(observers[1..], value)
  }

  lemma BroadcastSnoc<T>(observers: seq<ObserverId>, i: nat, value: Option<T>)
    requires i < |observers|
    ensures Broadcast(observers[..i + 1], value) == Broadcast(observers[..i], value) + [Notice(observers[i], value)]
  {
    var a := Broadcast(observers[..i + 1], value);
    var b := Broadcast(observers[..i], value) + [Notice(observers[i], value)];
    assert |a| == |b|;
    forall k | 0 <= k < |a| ensures a[k] == b[k] { }
  }

  /** The log after `fireChange(v)` on a node with the given slot, connecting flag and observers. */
  function FireLog<T(==)>(log: seq<Notice<T>>, cached: Option<T>, connecting: bool, observers: seq<ObserverId>, v: Option<T>): seq<Notice<T>>
  {
    log + (if cached == v || connecting then [] else Broadcast(observers, v))
  }

  /** `Objects.equals(a, b)`: the same reference, or both present and `equals` on the first holds. */
  function ObjectsEquals<T(==)>(equals: (T, T) -> bool, a: Option<T>, b: Option<T>): (r: bool)
    ensures a == b ==> r
    ensures a.None? != b.None? ==> !r
    ensures a.Some? && b.Some? && a != b ==> (r <==> equals(a.value, b.value))
  {
    a == b || (a.Some? && b.Some? && equals(a.value, b.value))
  }

  /** `List.remove(Object)`: drops the first occurrence of `o`, if any. */
  function RemoveFirst(s: seq<ObserverId>, o: ObserverId): (r: seq<ObserverId>)
    ensures o in s ==> |r| == |s| - 1 && multiset(r) == multiset(s) - multiset{o}
    ensures o !in s ==> r == s
  {
    if s == [] then []
    else
      assert s == [s[0]] + s[1..];
      if s[0] == o then s[1..]
      else [s[0]] + RemoveFirst(s[1..], o)
  }

  /** Removing an observer that was appended last, and was not subscribed before, restores the list. */
  lemma {:induction false} RemoveFirstAppended(s: seq<ObserverId>, o: ObserverId)
    requires o !in s
    ensures RemoveFirst(s + [o], o) == s
  {
    if s != [] {
      assert (s + [o])[1..] == s[1..] + [o];
      RemoveFirstAppended(s[1..], o);
    }
  }

  /** One subscription a node takes on, or releases from, an upstream source. */
  datatype Link<S> = Took(source: S) | Released(source: S)

  /** The upstream subscriptions held after a sequence of takes and releases. */
  function Held<S>(events: seq<Link<S>>): multiset<S>
  {
    if events == [] then multiset{}
    else
      var h := Held(events[..|events| - 1]);
      match events[|events| - 1]
      case Took(s) => h + multiset{s}
      case Released(s) => h - multiset{s}
  }

  lemma HeldSnoc<S>(events: seq<Link<S>>, e: Link<S>)
    ensures Held(events + [e]) == if e.Took? then Held(events) + multiset{e.source} else Held(events) - multiset{e.source}
  {
    assert (events + [e])[..|events|] == events;
  }

  /** The value computed by `Observable.mapFlatMap`: present only when both inputs are present. */
  function MapFlatMap<X, Y, R>(x: Option<X>, y: Option<Y>, f: (X, Y) -> Option<R>): (r: Option<R>)
    ensures x.None? || y.None? ==> r.None?
    ensures x.Some? && y.Some? ==> r == f(x.value, y.value)
  {
    if x.Some? && y.Some? then f(x.value, y.value) else None
  }

  /** `a.or(backup)` is `a.toOptional().join(p -> p.isPresent() ? just(p.get()) : backup)`:
      the inner observable it follows for a given primary slot. */
  datatype OrInner<T> = JustPrimary(value: T) | Backup

  function OrSelect<T>(primary: Option<T>): (r: OrInner<T>)
    ensures r.Backup? <==> primary.None?
    ensures primary.Some? ==> r == JustPrimary(primary.value)
  {
    match primary
    case Some(v) => JustPrimary(v)
    case None => Backup
  }

  /** The slot `a.or(backup)` forwards once it follows the selected inner: a constant delivers its
      value, the backup delivers its own slot. */
  function OrSlot<T>(primary: Option<T>, backup: Option<T>): Option<T>
  {
    match OrSelect(primary)
    case JustPrimary(v) => Some(v)
    case Backup => backup
  }

  lemma OrLoadingOnlyWhenBothLoading<T>(primary: Option<T>, backup: Option<T>)
    ensures OrSlot(primary, backup).None? <==> primary.None? && backup.None?
    ensures primary.Some? ==> OrSlot(primary, backup) == primary
  {
  }

  /** The outcome of the blocking `waitFor` helper. */
  datatype Waited<T> = Loaded(value: T) | DidNotLoadSynchronously

  class Observable<T(==)> {
    var cached: Option<T>
    var observers: seq<ObserverId>
    var connecting: bool
    var log: seq<Notice<T>>

    constructor (initial: Option<T>)
      ensures cached == initial && observers == [] && !connecting && log == []
    {
      cached := initial;
      observers := [];
      connecting := false;
      log := [];
    }

    function IsConnected(): (r: bool)
      reads this
      ensures r <==> |observers| > 0
    {
      observers != []
    }

    function IsLoading(): (r: bool)
      reads this
      ensures r <==> cached.None?
    {
      cached == None
    }

    /** The guard of `subscribe`: only a subscription made while not connecting and with no observers
        connects the node; it then enters the connecting phase, in which `onConnect` runs. */
    method BeginSubscribe() returns (first: bool)
      modifies this
      ensures first <==> !old(connecting) && old(observers) == []
      ensures connecting == (old(connecting) || first)
      ensures cached == old(cached) && observers == old(observers) && log == old(log)
    {
      first := !connecting && observers == [];
      if first {
        connecting := true;
      }
    }

    /** The `finally` block after `onConnect`: the connecting phase always ends. */
    method EndConnect()
      modifies this
      ensures !connecting
      ensures cached == old(cached) && observers == old(observers) && log == old(log)
    {
      connecting := false;
    }

    /** The end of `subscribe`: the observer is appended and told the current slot, exactly once. */
    method Attach(o: ObserverId)
      modifies this
      ensures observers == old(observers) + [o]
      ensures log == old(log) + [Notice(o, cached)]
      ensures cached == old(cached) && connecting == old(connecting)
    {
      observers := observers + [o];
      log := log + [Notice(o, cached)];
    }

    /** `Subscription.unsubscribe` up to the `onDisconnect` call, which the caller makes when told to. */
    method Detach(o: ObserverId) returns (outcome: Unsubscribed)
      modifies this
      ensures o in old(observers) ==> observers == RemoveFirst(old(observers), o) && outcome == Removed(observers == [])
      ensures o !in old(observers) ==> observers == old(observers) && outcome == AlreadyUnsubscribed
      ensures cached == old(cached) && connecting == old(connecting) && log == old(log)
    {
      if o in observers {
        observers := RemoveFirst(observers, o);
        outcome := Removed(observers == []);
      } else {
        outcome := AlreadyUnsubscribed;
      }
    }

    /** `fireChange`: a value reference-identical to the slot changes nothing; otherwise the slot is
        replaced and, unless connecting, a snapshot of the observers is notified in order. */
    method FireChange(v: Option<T>)
      modifies this
      ensures cached == v && observers == old(observers) && connecting == old(connecting)
      ensures log == FireLog(old(log), old(cached), connecting, observers, v)
    {
      if cached != v {
        cached := v;
        if !connecting {
          var toNotify := observers;
          var i := 0;
          while i < |toNotify|
            invariant 0 <= i <= |toNotify|
            invariant cached == v && observers == toNotify && connecting == old(connecting)
            invariant log == old(log) + Broadcast(toNotify[..i], v)
          {
            BroadcastSnoc(toNotify, i, v);
            log := log + [Notice(toNotify[i], v)];
            i := i + 1;
          }
          assert toNotify[..i] == toNotify;
        }
      }
    }

    /** A subclass writing the protected `cachedValue` field directly: no comparison, no notification. */
    method Overwrite(v: Option<T>)
      modifies this
      ensures cached == v && observers == old(observers) && connecting == old(connecting) && log == old(log)
    {
      cached := v;
    }

    /** `subscribe` on a node whose `onConnect` does nothing. */
    method Subscribe(o: ObserverId)
      modifies this
      ensures observers == old(observers) + [o] && cached == old(cached) && connecting == old(connecting)
      ensures log == old(log) + [Notice(o, cached)]
    {
      var first := BeginSubscribe();
      if first {
        EndConnect();
      }
      Attach(o);
    }

    /** `waitFor`: subscribe a collecting observer; a loaded first delivery is returned after
        unsubscribing, otherwise it fails and the collecting observer stays subscribed. */
    method WaitFor(w: ObserverId) returns (r: Waited<T>)
      requires w !in observers
      modifies this
      ensures old(cached).Some? ==> r == Loaded(old(cached).value) && observers == old(observers)
      ensures old(cached).None? ==> r == DidNotLoadSynchronously && observers == old(observers) + [w]
      ensures log == old(log) + [Notice(w, old(cached))] && cached == old(cached)
    {
      Subscribe(w);
      if cached == None {
        return DidNotLoadSynchronously;
      }
      var outcome := Detach(w);
      RemoveFirstAppended(old(observers), w);
      r := Loaded(cached.value);
    }
  }
}
