/** The elements of a sequence, and cardinality facts about finite sets that the verifier does
    not derive on its own. */
module FiniteSets {
  /** The elements a sequence contains. */
  function Elements<K(!new)>(s: seq<K>): (r: set<K>)
    ensures forall k :: k in r <==> k in s
  {
    set k | k in s
  }

  predicate NoDuplicates<K(==)>(s: seq<K>)
  {
    forall i, j :: 0 <= i < j < |s| ==> s[i] != s[j]
  }

  lemma {:induction false} SubsetSize<K>(a: set<K>, b: set<K>)
    requires a <= b
    ensures |a| <= |b|
    ensures a != b ==> |a| < |b|
    decreases |a|
  {
    if a != {} {
      var y :| y in a;
      SubsetSize(a - {y}, b - {y});
      assert |a| == |a - {y}| + 1 && |b| == |b - {y}| + 1;
      if a != b {
        var x :| x in b && x !in a;
        assert x in b - {y} && x !in a - {y};
      }
    } else if a != b {
      var x :| x in b;
      assert |b| >= |{x}|;
    }
  }

  lemma SubsetOfSameSize<K>(a: set<K>, b: set<K>)
    requires a <= b && |a| == |b|
    ensures a == b
  {
    SubsetSize(a, b);
  }

  /** Reaching one more element of a finite universe leaves fewer elements unreached. */
  lemma UnreachedShrinks<K>(universe: set<K>, before: set<K>, after: set<K>, k: K)
    requires before <= after && k in after && k !in before && k in universe
    ensures |universe - after| < |universe - before|
  {
    SubsetSize(universe - after, universe - before);
    assert k in universe - before && k !in universe - after;
  }
}
