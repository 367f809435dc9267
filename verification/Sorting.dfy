/**
 `sort.SliceStable` and `sort.Slice` as one stable insertion sort, with the three
 facts that determine a stable sort: same elements, in order, ties as they were.
 */
module Sorting {
  import opened Sequences

  /** What Go asks of a `less` function. */
  ghost predicate StrictWeakOrder<T(!new)>(less: (T, T) -> bool) {
    && (forall x, y :: less(x, y) ==> !less(y, x))
    && (forall x, y, z :: less(x, y) ==> less(x, z) || less(z, y))
  }

  ghost predicate Total<T(!new)>(less: (T, T) -> bool) {
    forall x, y :: less(x, y) || less(y, x) || x == y
  }

  ghost predicate Sorted<T(!new)>(s: seq<T>, less: (T, T) -> bool) {
    forall i, j :: 0 <= i < j < |s| ==> !less(s[j], s[i])
  }

  function Insert<T>(s: seq<T>, x: T, less: (T, T) -> bool): (r: seq<T>)
    ensures multiset(r) == multiset(s) + multiset{x}
  {
    var n := |s|;
    if n > 0 && less(x, s[n - 1]) then
      assert s == s[..n - 1] + [s[n - 1]];
      Insert(s[..n - 1], x, less) + [s[n - 1]]
    else s + [x]
  }

  function StableSort<T>(s: seq<T>, less: (T, T) -> bool): (r: seq<T>)
    ensures multiset(r) == multiset(s)
    ensures |r| == |s|
  {
    var n := |s|;
    if n == 0 then []
    else
      assert s == s[..n - 1] + [s[n - 1]];
      var r := Insert(StableSort(s[..n - 1], less), s[n - 1], less);
      assert |multiset(r)| == |multiset(s)|;
      r
  }

  lemma SortPair<T>(a: T, b: T, less: (T, T) -> bool)
    requires less(b, a)
    ensures StableSort([a, b], less) == [b, a]
  {
    var one: seq<T>, two: seq<T> := [a], [a, b];
    assert two[..1] == one;
    SortSingle(a, less);
    InsertFirst(a, b, less);
  }

  lemma SortSingle<T>(a: T, less: (T, T) -> bool)
    ensures StableSort([a], less) == [a]
  {
    var one: seq<T> := [a];
    assert one[..0] == [];
  }

  lemma InsertFirst<T>(a: T, b: T, less: (T, T) -> bool)
    requires less(b, a)
    ensures Insert([a], b, less) == [b, a]
  {
    var one: seq<T> := [a];
    assert one[..0] == [];
  }

  lemma {:induction false} InsertSorted<T(!new)>(s: seq<T>, x: T, less: (T, T) -> bool)
    requires StrictWeakOrder(less) && Sorted(s, less)
    ensures Sorted(Insert(s, x, less), less)
  {
    var n := |s|;
    if n > 0 && less(x, s[n - 1]) {
      var front := s[..n - 1];
      InsertSorted(front, x, less);
      var r := Insert(front, x, less);
      forall i | 0 <= i < |r|
        ensures !less(s[n - 1], r[i])
      {
        assert r[i] in multiset(r);
        assert r[i] == x || r[i] in front;
      }
    } else if n > 0 {
      forall i | 0 <= i < n
        ensures !less(x, s[i])
      {
        assert i < n - 1 ==> !less(s[n - 1], s[i]);
      }
    }
  }

  lemma {:induction false} StableSortSorted<T(!new)>(s: seq<T>, less: (T, T) -> bool)
    requires StrictWeakOrder(less)
    ensures Sorted(StableSort(s, less), less)
  {
    var n := |s|;
    if n > 0 {
      StableSortSorted(s[..n - 1], less);
      InsertSorted(StableSort(s[..n - 1], less), s[n - 1], less);
    }
  }

  /** The subsequence of elements satisfying `p`. */
  function Select<T>(s: seq<T>, p: T -> bool): (r: seq<T>)
    ensures |r| <= |s|
  {
    if s == [] then []
    else
      var n := |s| - 1;
      Select(s[..n], p) + if p(s[n]) then [s[n]] else []
  }

  lemma {:induction false} SelectConcat<T>(a: seq<T>, b: seq<T>, p: T -> bool)
    ensures Select(a + b, p) == Select(a, p) + Select(b, p)
  {
    if b == [] {
      assert a + b == a;
    } else {
      var n := |b| - 1;
      assert (a + b)[..|a + b| - 1] == a + b[..n];
      SelectConcat(a, b[..n], p);
    }
  }

  lemma SelectSnoc<T>(s: seq<T>, x: T, p: T -> bool)
    ensures Select(s + [x], p) == Select(s, p) + if p(x) then [x] else []
  {
    assert (s + [x])[..|s|] == s;
  }

  /** Elements of one tie class: no two of them are ordered by `less`. */
  ghost predicate TieClass<T(!new)>(p: T -> bool, less: (T, T) -> bool) {
    forall x, y :: p(x) && p(y) ==> !less(x, y)
  }

  lemma SwapOne<T>(s: seq<T>, a: seq<T>, b: seq<T>)
    requires a == [] || b == []
    ensures s + a + b == s + b + a
  {
  }

  lemma {:induction false} InsertStable<T(!new)>(s: seq<T>, x: T, less: (T, T) -> bool, p: T -> bool)
    requires TieClass(p, less)
    ensures Select(Insert(s, x, less), p) == Select(s, p) + if p(x) then [x] else []
  {
    var n := |s|;
    if n > 0 && less(x, s[n - 1]) {
      InsertStable(s[..n - 1], x, less, p);
      SelectSnoc(Insert(s[..n - 1], x, less), s[n - 1], p);
      SwapOne(Select(s[..n - 1], p), if p(x) then [x] else [], if p(s[n - 1]) then [s[n - 1]] else []);
    } else {
      SelectSnoc(s, x, p);
    }
  }

  /** Ties keep their order. */
  lemma {:induction false} StableSortStable<T(!new)>(s: seq<T>, less: (T, T) -> bool, p: T -> bool)
    requires TieClass(p, less)
    ensures Select(StableSort(s, less), p) == Select(s, p)
  {
    var n := |s|;
    if n > 0 {
      StableSortStable(s[..n - 1], less, p);
      InsertStable(StableSort(s[..n - 1], less), s[n - 1], less, p);
    }
  }

  lemma SortedPrefix<T(!new)>(s: seq<T>, less: (T, T) -> bool)
    requires Sorted(s, less) && s != []
    ensures Sorted(s[..|s| - 1], less)
    ensures |s| > 1 ==> !less(s[|s| - 1], s[|s| - 2])
  {
  }

  lemma {:induction false} SortOfSorted<T(!new)>(s: seq<T>, less: (T, T) -> bool)
    requires Sorted(s, less)
    ensures StableSort(s, less) == s
  {
    if s != [] {
      SortedPrefix(s, less);
      SortOfSorted(s[..|s| - 1], less);
      assert s == s[..|s| - 1] + [s[|s| - 1]];
    }
  }

  lemma LastIsGreatest<T(!new)>(s: seq<T>, less: (T, T) -> bool, x: T)
    requires Sorted(s, less) && StrictWeakOrder(less) && x in multiset(s)
    ensures !less(s[|s| - 1], x)
  {
    var i :| 0 <= i < |s| && s[i] == x;
    assert i < |s| - 1 ==> !less(s[|s| - 1], s[i]);
  }

  lemma DropLast<T>(s: seq<T>)
    requires s != []
    ensures multiset(s[..|s| - 1]) == multiset(s) - multiset{s[|s| - 1]}
  {
    assert s == s[..|s| - 1] + [s[|s| - 1]];
  }

  lemma LastAgrees<T(!new)>(a: seq<T>, b: seq<T>, less: (T, T) -> bool)
    requires StrictWeakOrder(less) && Total(less)
    requires Sorted(a, less) && Sorted(b, less) && multiset(a) == multiset(b) && a != [] && b != []
    ensures a[|a| - 1] == b[|b| - 1]
  {
    LastIsGreatest(a, less, b[|b| - 1]);
    LastIsGreatest(b, less, a[|a| - 1]);
  }

  lemma SameLength<T>(a: seq<T>, b: seq<T>)
    requires multiset(a) == multiset(b)
    ensures |a| == |b|
  {
    assert |a| == |multiset(a)| == |multiset(b)| == |b|;
  }

  /** Under a total order the sorted list depends on the elements only. */
  lemma {:induction false} SortedUnique<T(!new)>(a: seq<T>, b: seq<T>, less: (T, T) -> bool)
    requires StrictWeakOrder(less) && Total(less)
    requires Sorted(a, less) && Sorted(b, less) && multiset(a) == multiset(b)
    ensures a == b
    decreases |a|
  {
    SameLength(a, b);
    if a != [] {
      LastAgrees(a, b, less);
      DropLast(a);
      DropLast(b);
      SortedPrefix(a, less);
      SortedPrefix(b, less);
      SortedUnique(a[..|a| - 1], b[..|b| - 1], less);
      SplitLast(a);
      SplitLast(b);
    }
  }
}
