/** Cutting a list into consecutive parts under a weight budget. */
module Packing {
  import opened Sequences

  /** Total size of the items named by `part`. */
  function Weight(sizes: seq<nat>, part: seq<nat>): nat {
    if part == [] then 0
    else (if part[0] < |sizes| then sizes[part[0]] else 0) + Weight(sizes, part[1..])
  }

  lemma {:induction false} WeightConcat(sizes: seq<nat>, a: seq<nat>, b: seq<nat>)
    ensures Weight(sizes, a + b) == Weight(sizes, a) + Weight(sizes, b)
  {
    if a == [] {
      assert a + b == b;
    } else {
      assert (a + b)[1..] == a[1..] + b;
      WeightConcat(sizes, a[1..], b);
    }
  }

  /** `parts` cuts the items 0 .. |sizes| - 1, in order, into parts within the budget. */
  ghost predicate Packs(sizes: seq<nat>, parts: seq<seq<nat>>, max: nat) {
    && Flatten(parts) == Range(|sizes|)
    && forall k :: 0 <= k < |parts| ==> Weight(sizes, parts[k]) <= max
  }

  /** The head of every part but the first did not fit in the part before it. */
  ghost predicate Tight(sizes: seq<nat>, parts: seq<seq<nat>>, max: nat) {
    && (forall k :: 0 <= k < |parts| ==> parts[k] != [])
    && forall k :: 0 < k < |parts| ==> DidNotFit(sizes, parts, max, k)
  }

  ghost predicate DidNotFit(sizes: seq<nat>, parts: seq<seq<nat>>, max: nat, k: nat)
    requires 0 < k < |parts| && parts[k] != []
  {
    Weight(sizes, parts[k - 1] + [parts[k][0]]) > max
  }

  /** Position of the first item of part `k`. */
  ghost function Start(parts: seq<seq<nat>>, k: nat): nat
    requires k <= |parts|
  {
    |Flatten(parts[..k])|
  }

  /** Total size of the items before a position. */
  ghost function Before(sizes: seq<nat>, position: nat): nat
    requires position <= |sizes|
  {
    if position == 0 then 0 else Before(sizes, position - 1) + sizes[position - 1]
  }

  lemma {:induction false} BeforeIsWeight(sizes: seq<nat>, position: nat)
    requires position <= |sizes|
    ensures Before(sizes, position) == Weight(sizes, Range(|sizes|)[..position])
  {
    if position > 0 {
      var all := Range(|sizes|);
      BeforeIsWeight(sizes, position - 1);
      assert all[..position] == all[..position - 1] + [position - 1];
      WeightConcat(sizes, all[..position - 1], [position - 1]);
    }
  }

  lemma PartInside(parts: seq<seq<nat>>, k: nat)
    requires k < |parts|
    ensures Flatten(parts[..k + 1]) == Flatten(parts[..k]) + parts[k]
    ensures Flatten(parts) == Flatten(parts[..k]) + parts[k] + Flatten(parts[k + 1..])
  {
    TakeOne(parts, k);
    FlattenSnoc(parts[..k], parts[k]);
    FlattenAppend(parts[..k + 1], parts[k + 1..]);
  }

  lemma MiddleSlice(a: seq<nat>, b: seq<nat>, c: seq<nat>, all: seq<nat>)
    requires all == a + b + c
    ensures |a| + |b| <= |all| && all[..|a|] == a && all[..|a| + |b|] == a + b && all[|a|..|a| + |b|] == b
  {
  }

  lemma StartOfPart(sizes: seq<nat>, parts: seq<seq<nat>>, k: nat)
    requires Flatten(parts) == Range(|sizes|) && k < |parts|
    ensures Start(parts, k) + |parts[k]| == Start(parts, k + 1) <= |sizes|
    ensures parts[k] == Range(|sizes|)[Start(parts, k)..Start(parts, k + 1)]
    ensures Before(sizes, Start(parts, k + 1)) == Before(sizes, Start(parts, k)) + Weight(sizes, parts[k])
  {
    PartInside(parts, k);
    MiddleSlice(Flatten(parts[..k]), parts[k], Flatten(parts[k + 1..]), Range(|sizes|));
    WeightConcat(sizes, Flatten(parts[..k]), parts[k]);
    BeforeIsWeight(sizes, Start(parts, k));
    BeforeIsWeight(sizes, Start(parts, k + 1));
  }

  lemma {:induction false} BeforeMonotone(sizes: seq<nat>, a: nat, b: nat)
    requires a <= b <= |sizes|
    ensures Before(sizes, a) <= Before(sizes, b)
    decreases b
  {
    if a < b {
      BeforeMonotone(sizes, a, b - 1);
    }
  }

  lemma HeadOfPart(sizes: seq<nat>, parts: seq<seq<nat>>, k: nat)
    requires Flatten(parts) == Range(|sizes|) && k < |parts| && parts[k] != []
    ensures parts[k][0] == Start(parts, k) < |sizes|
  {
    StartOfPart(sizes, parts, k);
    assert parts[k][0] == Range(|sizes|)[Start(parts, k)];
  }

  lemma WeightOfJoin(sizes: seq<nat>, part: seq<nat>, i: nat)
    requires i < |sizes|
    ensures Weight(sizes, part + [i]) == Weight(sizes, part) + sizes[i]
  {
    WeightConcat(sizes, part, [i]);
  }

  /** A part that its successor's head did not fit is full. */
  lemma PartIsFull(sizes: seq<nat>, parts: seq<seq<nat>>, max: nat, j: nat)
    requires Flatten(parts) == Range(|sizes|) && j + 1 < |parts| && parts[j + 1] != []
    requires DidNotFit(sizes, parts, max, j + 1)
    ensures Start(parts, j) <= Start(parts, j + 1) < |sizes|
    ensures Before(sizes, Start(parts, j + 1) + 1) > Before(sizes, Start(parts, j)) + max
  {
    NextStart(sizes, parts, j);
    PartOverflows(sizes, parts, max, j);
  }

  lemma NextStart(sizes: seq<nat>, parts: seq<seq<nat>>, j: nat)
    requires Flatten(parts) == Range(|sizes|) && j < |parts|
    ensures Start(parts, j) <= Start(parts, j + 1) <= |sizes|
    ensures Before(sizes, Start(parts, j + 1)) == Before(sizes, Start(parts, j)) + Weight(sizes, parts[j])
  {
    StartOfPart(sizes, parts, j);
  }

  lemma PartOverflows(sizes: seq<nat>, parts: seq<seq<nat>>, max: nat, j: nat)
    requires Flatten(parts) == Range(|sizes|) && j + 1 < |parts| && parts[j + 1] != []
    requires DidNotFit(sizes, parts, max, j + 1)
    ensures Start(parts, j + 1) < |sizes| && Weight(sizes, parts[j]) + sizes[Start(parts, j + 1)] > max
  {
    HeadOfPart(sizes, parts, j + 1);
    WeightOfJoin(sizes, parts[j], parts[j + 1][0]);
  }

  lemma {:induction false} GreedyStaysAhead(sizes: seq<nat>, greedy: seq<seq<nat>>, other: seq<seq<nat>>, max: nat,
                                            k: nat)
    requires Packs(sizes, greedy, max) && Tight(sizes, greedy, max) && Packs(sizes, other, max)
    requires k < |greedy| && k <= |other|
    ensures Start(other, k) <= Start(greedy, k)
  {
    if k > 0 {
      GreedyStaysAhead(sizes, greedy, other, max, k - 1);
      assert DidNotFit(sizes, greedy, max, k);
      PartIsFull(sizes, greedy, max, k - 1);
      StartOfPart(sizes, other, k - 1);
      var head := Start(greedy, k);
      BeforeMonotone(sizes, Start(other, k - 1), Start(greedy, k - 1));
      if head < Start(other, k) {
        BeforeMonotone(sizes, head + 1, Start(other, k));
        assert false;
      }
    }
  }

  /** No way of cutting within the budget needs fewer parts than a tight one. */
  lemma TightIsOptimal(sizes: seq<nat>, greedy: seq<seq<nat>>, other: seq<seq<nat>>, max: nat)
    requires Packs(sizes, greedy, max) && Tight(sizes, greedy, max) && Packs(sizes, other, max)
    ensures |greedy| <= |other|
  {
    var k := |other|;
    assert other[..k] == other;
    if k < |greedy| {
      GreedyStaysAhead(sizes, greedy, other, max, k);
      StartOfPart(sizes, greedy, k);
      assert false;
    }
  }

  lemma TightNewPart(sizes: seq<nat>, front: seq<seq<nat>>, last: seq<nat>, i: nat, max: nat)
    requires Tight(sizes, front + [last], max) && Weight(sizes, last + [i]) > max
    ensures Tight(sizes, front + [last] + [[i]], max)
  {
    var parts, longer := front + [last], front + [last] + [[i]];
    assert forall k :: 0 <= k < |parts| ==> longer[k] == parts[k];
    forall k | 0 < k < |longer|
      ensures DidNotFit(sizes, longer, max, k)
    {
      if k < |parts| { assert DidNotFit(sizes, parts, max, k); }
    }
  }

  lemma TightGrowPart(sizes: seq<nat>, front: seq<seq<nat>>, last: seq<nat>, i: nat, max: nat)
    requires if last == [] then front == [] else Tight(sizes, front + [last], max)
    ensures Tight(sizes, front + [last + [i]], max)
  {
    var parts, longer := front + [last], front + [last + [i]];
    assert forall k :: 0 <= k < |front| ==> longer[k] == parts[k] && parts[k] != [];
    forall k | 0 < k < |longer|
      ensures DidNotFit(sizes, longer, max, k)
    {
      assert DidNotFit(sizes, parts, max, k);
    }
  }

  /** Each pair of neighbours outweighs the budget, which bounds the number of parts. */
  lemma {:induction false} TightPairs(sizes: seq<nat>, parts: seq<seq<nat>>, max: nat)
    requires Tight(sizes, parts, max)
    ensures (|parts| / 2) * (max + 1) <= Weight(sizes, Flatten(parts))
  {
    if |parts| >= 2 {
      var a, b, rest := parts[0], parts[1], parts[2..];
      assert DidNotFit(sizes, parts, max, 1);
      HeadPair(sizes, parts);
      TightTail(sizes, parts, max);
      TightPairs(sizes, rest, max);
      var h := |rest| / 2;
      assert |parts| / 2 == h + 1;
      assert (h + 1) * (max + 1) == h * (max + 1) + (max + 1);
    }
  }

  lemma TightTail(sizes: seq<nat>, parts: seq<seq<nat>>, max: nat)
    requires Tight(sizes, parts, max) && |parts| >= 2
    ensures Tight(sizes, parts[2..], max)
  {
    forall k | 0 < k < |parts[2..]|
      ensures DidNotFit(sizes, parts[2..], max, k)
    {
      assert DidNotFit(sizes, parts, max, k + 2);
    }
  }

  lemma HeadPair(sizes: seq<nat>, parts: seq<seq<nat>>)
    requires |parts| >= 2 && parts[1] != []
    ensures Weight(sizes, Flatten(parts)) >=
            Weight(sizes, parts[0] + [parts[1][0]]) + Weight(sizes, Flatten(parts[2..]))
  {
    var a, b, rest := parts[0], parts[1], parts[2..];
    assert parts[1..][1..] == rest;
    WeightConcat(sizes, a, b + Flatten(rest));
    WeightConcat(sizes, b, Flatten(rest));
    assert b == [b[0]] + b[1..];
    WeightConcat(sizes, a, [b[0]]);
    WeightConcat(sizes, [b[0]], b[1..]);
  }

  lemma TightCount(sizes: seq<nat>, parts: seq<seq<nat>>, max: nat)
    requires Tight(sizes, parts, max)
    ensures |parts| <= 2 * (Weight(sizes, Flatten(parts)) / (max + 1)) + 1
  {
    TightPairs(sizes, parts, max);
    QuotientBound(|parts| / 2, max + 1, Weight(sizes, Flatten(parts)));
  }

  lemma QuotientBound(h: nat, d: nat, w: nat)
    requires d > 0 && h * d <= w
    ensures h <= w / d
  {
    var q := w / d;
    assert w == q * d + w % d;
    assert (q + 1) * d == q * d + d;
    if q + 1 <= h {
      ProductMonotone(q + 1, h, d);
      assert false;
    }
  }

  lemma ProductMonotone(a: nat, b: nat, d: nat)
    requires a <= b
    ensures a * d <= b * d
  {
  }

  // ----- the greedy loop

  /** Within the budget, or a single oversized element. */
  predicate Fits(sizes: seq<nat>, part: seq<nat>, max: nat) {
    |part| == 1 || Weight(sizes, part) <= max
  }

  /** `order` is cut so far, `last` being the open part. */
  ghost predicate Growing(sizes: seq<nat>, front: seq<seq<nat>>, last: seq<nat>, order: seq<nat>, max: nat) {
    && Flatten(front + [last]) == order
    && (if last == [] then front == [] else Tight(sizes, front + [last], max))
    && (forall k :: 0 <= k < |front| ==> Fits(sizes, front[k], max))
    && Fits(sizes, last, max)
  }

  lemma NothingGrown(sizes: seq<nat>, max: nat)
    ensures Growing(sizes, [], [], [], max)
  {
    FlattenSnoc<nat>([], []);
  }

  /** The next element joins the open part. */
  lemma GrowPart(sizes: seq<nat>, front: seq<seq<nat>>, last: seq<nat>, order: seq<nat>, max: nat, i: nat)
    requires Growing(sizes, front, last, order, max)
    requires last == [] || Weight(sizes, last + [i]) <= max
    ensures Growing(sizes, front, last + [i], order + [i], max)
  {
    FlattenSnoc(front, last);
    FlattenSnoc(front, last + [i]);
    Associative(Flatten(front), last, [i]);
    TightGrowPart(sizes, front, last, i, max);
  }

  /** The open part is full and the next element starts a new one. */
  lemma StartPart(sizes: seq<nat>, front: seq<seq<nat>>, last: seq<nat>, order: seq<nat>, max: nat, i: nat)
    requires Growing(sizes, front, last, order, max)
    requires last != [] && Weight(sizes, last + [i]) > max
    ensures Growing(sizes, front + [last], [i], order + [i], max)
  {
    FlattenSnoc(front + [last], [i]);
    TightNewPart(sizes, front, last, i, max);
  }

  /** What the greedy loop has built after `order`. */
  datatype Cut = Cut(front: seq<seq<nat>>, last: seq<nat>)

  function Greedy(sizes: seq<nat>, order: seq<nat>, max: nat): Cut {
    if order == [] then Cut([], [])
    else
      var c, i := Greedy(sizes, order[..|order| - 1], max), order[|order| - 1];
      if c.last != [] && Weight(sizes, c.last + [i]) > max then Cut(c.front + [c.last], [i])
      else Cut(c.front, c.last + [i])
  }

  function GreedyParts(sizes: seq<nat>, order: seq<nat>, max: nat): seq<seq<nat>> {
    if order == [] then [] else Greedy(sizes, order, max).front + [Greedy(sizes, order, max).last]
  }

  lemma GreedyStep(sizes: seq<nat>, order: seq<nat>, k: nat, max: nat)
    requires k < |order|
    ensures var c, i := Greedy(sizes, order[..k], max), order[k];
            Greedy(sizes, order[..k + 1], max) ==
              if c.last != [] && Weight(sizes, c.last + [i]) > max then Cut(c.front + [c.last], [i])
              else Cut(c.front, c.last + [i])
  {
    assert order[..k + 1][..k] == order[..k];
  }

  lemma {:induction false} GreedyGrows(sizes: seq<nat>, order: seq<nat>, max: nat)
    ensures var c := Greedy(sizes, order, max);
            Growing(sizes, c.front, c.last, order, max) && (order != [] ==> c.last != [])
  {
    if order == [] {
      NothingGrown(sizes, max);
    } else {
      var front, i := order[..|order| - 1], order[|order| - 1];
      GreedyGrows(sizes, front, max);
      SplitLast(order);
      var c := Greedy(sizes, front, max);
      if c.last != [] && Weight(sizes, c.last + [i]) > max {
        StartPart(sizes, c.front, c.last, front, max, i);
      } else {
        GrowPart(sizes, c.front, c.last, front, max, i);
      }
    }
  }

  /** The greedy cut keeps the order, is tight, and exceeds the budget only by single elements. */
  lemma GreedyPartsFacts(sizes: seq<nat>, order: seq<nat>, max: nat)
    ensures var parts := GreedyParts(sizes, order, max);
            && Flatten(parts) == order && Tight(sizes, parts, max)
            && forall k :: 0 <= k < |parts| ==> Fits(sizes, parts[k], max)
  {
    GreedyGrows(sizes, order, max);
  }

  /** An order that fits the budget stays in one part. */
  lemma {:induction false} GreedyFits(sizes: seq<nat>, order: seq<nat>, max: nat)
    requires Weight(sizes, order) <= max
    ensures Greedy(sizes, order, max) == Cut([], order)
  {
    if order != [] {
      var n := |order| - 1;
      SplitLast(order);
      WeightConcat(sizes, order[..n], [order[n]]);
      GreedyFits(sizes, order[..n], max);
    }
  }
}
