/** Index lists: `uniqueSortedIndexes` of internal/summary/llm/openai.go. */
module Indexes {
  import opened Sequences

  predicate Ascending(s: seq<int>) {
    forall i, j :: 0 <= i < j < |s| ==> s[i] < s[j]
  }

  /** 0 .. n - 1 as a set. */
  function Input(n: nat): (r: set<int>)
    ensures forall x :: x in r <==> 0 <= x < n
  {
    if n == 0 then {} else Input(n - 1) + {n - 1}
  }

  /** The strictly ascending listing of a set is unique. */
  lemma {:induction false} AscendingUnique(a: seq<int>, b: seq<int>)
    requires Ascending(a) && Ascending(b) && Elements(a) == Elements(b)
    ensures a == b
  {
    assert forall i :: 0 <= i < |a| ==> a[i] in Elements(a);
    assert forall i :: 0 <= i < |b| ==> b[i] in Elements(b);
    if a != [] {
      assert a[0] in Elements(b);
      assert b[0] in Elements(a);
      assert a[0] == b[0];
      assert Elements(a[1..]) == Elements(a) - {a[0]};
      assert Elements(b[1..]) == Elements(b) - {b[0]};
      AscendingUnique(a[1..], b[1..]);
      assert a == [a[0]] + a[1..] && b == [b[0]] + b[1..];
    }
  }

  lemma AscendingTail(s: seq<int>)
    requires Ascending(s) && s != []
    ensures Ascending(s[1..]) && Elements(s) == {s[0]} + Elements(s[1..])
    ensures forall y :: y in Elements(s[1..]) ==> s[0] < y
  {
    assert s == [s[0]] + s[1..];
  }

  lemma AscendingCons(x: int, rest: seq<int>)
    requires Ascending(rest) && forall y :: y in Elements(rest) ==> x < y
    ensures Ascending([x] + rest) && Elements([x] + rest) == {x} + Elements(rest)
  {
    assert forall j :: 0 <= j < |rest| ==> rest[j] in Elements(rest);
  }

  /** Insert into an ascending list; the model of one step of `sort.Ints`. */
  function InsertInt(s: seq<int>, x: int): (r: seq<int>)
    requires Ascending(s) && x !in s
    ensures Ascending(r) && Elements(r) == Elements(s) + {x}
  {
    if s == [] || x < s[0] then [x] + s
    else
      var rest := InsertInt(s[1..], x);
      AscendingTail(s);
      AscendingCons(s[0], rest);
      [s[0]] + rest
  }

  function SortDistinct(s: seq<int>): (r: seq<int>)
    requires Distinct(s)
    ensures Ascending(r) && Elements(r) == Elements(s)
  {
    if s == [] then []
    else
      var n := |s| - 1;
      var front := SortDistinct(s[..n]);
      assert forall y :: y in front <==> y in Elements(front);
      assert s == s[..n] + [s[n]];
      InsertInt(front, s[n])
  }

  /** The one ascending list whose members are those of `s`. */
  function Unique(s: seq<int>): (r: seq<int>) {
    if s == [] then []
    else
      var n := |s| - 1;
      if s[n] in s[..n] then Unique(s[..n]) else Unique(s[..n]) + [s[n]]
  }

  lemma {:induction false} UniqueFacts(s: seq<int>)
    ensures Distinct(Unique(s)) && Elements(Unique(s)) == Elements(s)
  {
    if s != [] {
      var n := |s| - 1;
      UniqueFacts(s[..n]);
      assert s == s[..n] + [s[n]];
      assert forall y :: y in Unique(s[..n]) <==> y in Elements(Unique(s[..n]));
      assert Elements(s) == Elements(s[..n]) + {s[n]};
    }
  }

  /** The specification of `uniqueSortedIndexes`. */
  function UniqueSorted(s: seq<int>): (r: seq<int>)
    ensures Ascending(r) && Elements(r) == Elements(s)
  {
    UniqueFacts(s);
    SortDistinct(Unique(s))
  }

  /** Equal member sets give equal lists, whatever the order or repetition. */
  lemma UniqueSortedBySet(a: seq<int>, b: seq<int>)
    requires Elements(a) == Elements(b)
    ensures UniqueSorted(a) == UniqueSorted(b)
  {
    AscendingUnique(UniqueSorted(a), UniqueSorted(b));
  }

  lemma UniqueSortedOfAscending(a: seq<int>)
    requires Ascending(a)
    ensures UniqueSorted(a) == a
  {
    AscendingUnique(UniqueSorted(a), a);
  }

  method UniqueSortedIndexes(indexes: seq<int>) returns (unique: seq<int>)
    ensures Ascending(unique)
    ensures Elements(unique) == Elements(indexes)
    ensures unique == UniqueSorted(indexes)
  {
    var seen: set<int> := {};
    unique := [];
    for i := 0 to |indexes|
      invariant seen == Elements(indexes[..i]) == Elements(unique)
      invariant Distinct(unique)
    {
      assert indexes[..i + 1] == indexes[..i] + [indexes[i]];
      if indexes[i] in seen {
        continue;
      }
      assert indexes[i] !in unique;
      seen := seen + {indexes[i]};
      unique := unique + [indexes[i]];
    }
    assert indexes[..|indexes|] == indexes;
    unique := SortDistinct(unique);
    AscendingUnique(unique, UniqueSorted(indexes));
  }
}
