/** Array.prototype.sort with a numeric key, largest first: stable, so earlier elements win ties. */
module StableSort {

  /** Insert behind every element whose key is at least as large. */
  function Insert<T>(sorted: seq<T>, x: T, key: T -> int): seq<T> {
    if sorted != [] && key(sorted[0]) >= key(x) then [sorted[0]] + Insert(sorted[1..], x, key) else [x] + sorted
  }

  function SortedDesc<T>(xs: seq<T>, key: T -> int): seq<T>
    decreases |xs|
  {
    if xs == [] then [] else Insert(SortedDesc(xs[..|xs| - 1], key), xs[|xs| - 1], key)
  }

  ghost predicate Descending<T>(xs: seq<T>, key: T -> int) {
    forall i, j :: 0 <= i < j < |xs| ==> key(xs[i]) >= key(xs[j])
  }

  lemma {:induction false} InsertPermutes<T>(sorted: seq<T>, x: T, key: T -> int)
    ensures multiset(Insert(sorted, x, key)) == multiset(sorted) + multiset{x}
  {
    if sorted != [] && key(sorted[0]) >= key(x) {
      InsertPermutes(sorted[1..], x, key);
      assert sorted == [sorted[0]] + sorted[1..];
    }
  }

  /** Inserting below a bound stays below it. */
  lemma {:induction false} InsertBelow<T>(sorted: seq<T>, x: T, key: T -> int, bound: int)
    requires key(x) <= bound && forall i :: 0 <= i < |sorted| ==> key(sorted[i]) <= bound
    ensures forall i :: 0 <= i < |Insert(sorted, x, key)| ==> key(Insert(sorted, x, key)[i]) <= bound
  {
    if sorted != [] && key(sorted[0]) >= key(x) {
      InsertBelow(sorted[1..], x, key, bound);
    }
  }

  lemma {:induction false} InsertKeeps<T>(sorted: seq<T>, x: T, key: T -> int)
    requires Descending(sorted, key)
    ensures Descending(Insert(sorted, x, key), key)
  {
    if sorted != [] && key(sorted[0]) >= key(x) {
      InsertKeeps(sorted[1..], x, key);
      InsertBelow(sorted[1..], x, key, key(sorted[0]));
    }
  }

  /** The result is a permutation of the input, largest key first. */
  lemma {:induction false} SortedDescSorts<T>(xs: seq<T>, key: T -> int)
    ensures Descending(SortedDesc(xs, key), key)
    ensures multiset(SortedDesc(xs, key)) == multiset(xs)
    ensures |SortedDesc(xs, key)| == |xs|
    decreases |xs|
  {
    if xs != [] {
      SortedDescSorts(xs[..|xs| - 1], key);
      InsertKeeps(SortedDesc(xs[..|xs| - 1], key), xs[|xs| - 1], key);
      InsertPermutes(SortedDesc(xs[..|xs| - 1], key), xs[|xs| - 1], key);
      assert xs == xs[..|xs| - 1] + [xs[|xs| - 1]];
    }
    assert |SortedDesc(xs, key)| == |multiset(SortedDesc(xs, key))| == |multiset(xs)| == |xs|;
  }

  lemma SortedDescMembers<T>(xs: seq<T>, key: T -> int)
    ensures forall x :: x in SortedDesc(xs, key) <==> x in xs
  {
    SortedDescSorts(xs, key);
    forall x
      ensures x in SortedDesc(xs, key) <==> x in xs
    {
      assert x in SortedDesc(xs, key) <==> x in multiset(SortedDesc(xs, key));
      assert x in xs <==> x in multiset(xs);
    }
  }

  lemma DescendingHead<T>(xs: seq<T>, key: T -> int)
    requires xs != [] && Descending(xs, key)
    ensures Descending(xs[1..], key)
    ensures forall x :: x in xs ==> key(x) <= key(xs[0])
  {
    forall x | x in xs
      ensures key(x) <= key(xs[0])
    {
      var i :| 0 <= i < |xs| && xs[i] == x;
      assert i > 0 ==> key(xs[0]) >= key(xs[i]);
    }
  }

  // ---- ties ----

  /** The elements with this key, in order. */
  function WithKey<T>(xs: seq<T>, key: T -> int, k: int): seq<T> {
    if xs == [] then [] else (if key(xs[0]) == k then [xs[0]] else []) + WithKey(xs[1..], key, k)
  }

  lemma {:induction false} WithKeyAppends<T>(xs: seq<T>, x: T, key: T -> int, k: int)
    ensures WithKey(xs + [x], key, k) == WithKey(xs, key, k) + if key(x) == k then [x] else []
  {
    if xs == [] {
      assert [] + [x] == [x] && [x][1..] == [];
    } else {
      WithKeyAppends(xs[1..], x, key, k);
      assert (xs + [x])[1..] == xs[1..] + [x];
    }
  }

  lemma {:induction false} NoneWithKey<T>(xs: seq<T>, key: T -> int, k: int)
    requires forall i :: 0 <= i < |xs| ==> key(xs[i]) < k
    ensures WithKey(xs, key, k) == []
  {
    if xs != [] {
      NoneWithKey(xs[1..], key, k);
    }
  }

  lemma {:induction false} InsertIsLastOfItsKey<T>(sorted: seq<T>, x: T, key: T -> int, k: int)
    requires Descending(sorted, key)
    ensures WithKey(Insert(sorted, x, key), key, k) == WithKey(sorted, key, k) + if key(x) == k then [x] else []
  {
    if sorted != [] && key(sorted[0]) >= key(x) {
      InsertIsLastOfItsKey(sorted[1..], x, key, k);
    } else {
      assert ([x] + sorted)[1..] == sorted;
      if key(x) == k {
        forall i | 0 <= i < |sorted|
          ensures key(sorted[i]) < k
        {
          assert i > 0 ==> key(sorted[0]) >= key(sorted[i]);
        }
        NoneWithKey(sorted, key, k);
      }
    }
  }

  /** The sort is stable: elements with the same key keep their order. */
  lemma {:induction false} SortedDescIsStable<T>(xs: seq<T>, key: T -> int, k: int)
    ensures WithKey(SortedDesc(xs, key), key, k) == WithKey(xs, key, k)
    decreases |xs|
  {
    if xs != [] {
      var earlier, last := xs[..|xs| - 1], xs[|xs| - 1];
      SortedDescIsStable(earlier, key, k);
      SortedDescSorts(earlier, key);
      InsertIsLastOfItsKey(SortedDesc(earlier, key), last, key, k);
      WithKeyAppends(earlier, last, key, k);
      assert xs == earlier + [last];
    }
  }
}
