/**
 * MaybeStale: an immutable pair of a value and a stale flag. Instances are compared by
 * reference in `fireChange`, so each carries the reference it was allocated under.
 */
module MaybeStales {

  type Ref = nat

  datatype MaybeStale<T> = MaybeStale(ref: Ref, value: T, stale: bool)

  /** `outdated()`: a stale instance is returned as is; a fresh one is copied, as stale, into a
      new instance allocated under `newRef`. */
  function Outdated<T>(m: MaybeStale<T>, newRef: Ref): (r: MaybeStale<T>)
    ensures r.stale && r.value == m.value
    ensures m.stale ==> r == m
    ensures !m.stale ==> r.ref == newRef
  {
    if m.stale then m else MaybeStale(newRef, m.value, true)
  }

  /** `outdated` is idempotent: the outdated version is already stale. */
  lemma OutdatedIdempotent<T>(m: MaybeStale<T>, fresh1: Ref, fresh2: Ref)
    ensures Outdated(Outdated(m, fresh1), fresh2) == Outdated(m, fresh1)
  {
  }

  /** `equals`: the same instance, or the same flag and `Objects.equals` payloads. */
  predicate Equals<T>(a: MaybeStale<T>, b: MaybeStale<T>, valueEquals: (T, T) -> bool)
  {
    a.ref == b.ref || (a.stale == b.stale && valueEquals(a.value, b.value))
  }

  /** For instances with distinct references, or any reflexive payload equality: equal exactly
      when the flags match and the payloads are equal. */
  lemma {:induction false} EqualsCharacterised<T>(a: MaybeStale<T>, b: MaybeStale<T>, valueEquals: (T, T) -> bool)
    requires forall x :: valueEquals(x, x)
    requires a.ref == b.ref ==> a == b
    ensures Equals(a, b, valueEquals) <==> a.stale == b.stale && valueEquals(a.value, b.value)
  {
    if a.ref == b.ref {
      assert valueEquals(a.value, a.value);
    }
  }

  /** A fresh instance and its outdated copy are never equal: the flag differs. */
  lemma {:induction false} OutdatedNotEqualToFresh<T>(m: MaybeStale<T>, newRef: Ref, valueEquals: (T, T) -> bool)
    requires !m.stale && newRef != m.ref
    ensures !Equals(m, Outdated(m, newRef), valueEquals)
  {
    var o := Outdated(m, newRef);
    assert o.stale && o.ref == newRef;
  }
}
