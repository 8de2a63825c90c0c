/** Sequences as sets, and without repeats. */
module Sequences {
  function AsSet<T>(s: seq<T>): set<T> {
    set v | v in s
  }

  ghost predicate NoDuplicates<T>(s: seq<T>) {
    forall i, k :: 0 <= i < k < |s| ==> s[i] != s[k]
  }

  lemma AppendAsSet<T>(s: seq<T>, v: T)
    ensures AsSet(s + [v]) == AsSet(s) + {v}
  {
  }

  /** Pigeonholes: a sequence without repeats is no longer than a set that holds it. */
  lemma {:induction false} DistinctFit<T>(s: seq<T>, pool: set<T>)
    requires NoDuplicates(s) && AsSet(s) <= pool
    ensures |s| <= |pool|
  {
    if s == [] {
    } else {
      var init, last := s[..|s| - 1], s[|s| - 1];
      assert last in AsSet(s);
      forall v | v in AsSet(init) ensures v in pool - {last} {
        assert v in AsSet(s);
      }
      DistinctFit(init, pool - {last});
    }
  }

  lemma DistinctTogether<T>(a: seq<T>, b: seq<T>)
    requires NoDuplicates(a) && NoDuplicates(b) && forall p :: p in a ==> p !in b
    ensures NoDuplicates(a + b)
  {
    var s := a + b;
    forall i, k | 0 <= i < k < |s| ensures s[i] != s[k] {
      if i < |a| <= k {
        assert s[i] in a && s[k] in b;
      }
    }
  }
}
