/**
 Which input indexes a summary classifies: `remapSourceIndexes`,
 `normalizeSummarySourceIndexes`, `ValidateSummaryCoverage` and the retry loop of
 `summarizeBatch` in internal/summary/llm/openai.go.
 */
module Coverage {
  import opened Indexes
  import opened Sequences
  import opened Sorting
  import opened Summaries
  import opened Text

  // ----- translation of batch-local indexes

  /** Local indexes to global ones; those outside the batch are dropped. */
  function MapIndexes(local: seq<int>, globalIndexes: seq<nat>): seq<int> {
    if local == [] then []
    else
      var n := |local| - 1;
      MapIndexes(local[..n], globalIndexes)
      + if 0 <= local[n] < |globalIndexes| then [globalIndexes[local[n]]] else []
  }

  function RemappedTopic(t: Topic, globalIndexes: seq<nat>): Topic {
    t.(sourceIndexes := UniqueSorted(MapIndexes(t.sourceIndexes, globalIndexes)))
  }

  /** An out-of-range exclusion keeps its local index, as in the code. */
  function RemappedExcluded(e: Excluded, globalIndexes: seq<nat>): Excluded {
    if 0 <= e.sourceIndex < |globalIndexes| then e.(sourceIndex := globalIndexes[e.sourceIndex]) else e
  }

  function RemappedTopics(topics: seq<Topic>, globalIndexes: seq<nat>): (r: seq<Topic>)
    ensures |r| == |topics|
  {
    if topics == [] then []
    else
      var n := |topics| - 1;
      RemappedTopics(topics[..n], globalIndexes) + [RemappedTopic(topics[n], globalIndexes)]
  }

  function RemappedExclusions(excluded: seq<Excluded>, globalIndexes: seq<nat>): (r: seq<Excluded>)
    ensures |r| == |excluded|
  {
    if excluded == [] then []
    else
      var n := |excluded| - 1;
      RemappedExclusions(excluded[..n], globalIndexes) + [RemappedExcluded(excluded[n], globalIndexes)]
  }

  function Remapped(s: Summary, globalIndexes: seq<nat>): Summary {
    s.(topics := RemappedTopics(s.topics, globalIndexes), excluded := RemappedExclusions(s.excluded, globalIndexes))
  }

  method RemapSourceIndexes(result: SummaryResult, globalIndexes: seq<nat>)
    modifies result
    ensures result.Value() == Remapped(old(result.Value()), globalIndexes)
  {
    result.topics := RemapTopics(result.topics, globalIndexes);
    result.excluded := RemapExclusions(result.excluded, globalIndexes);
  }

  method RemapTopics(topics: seq<Topic>, globalIndexes: seq<nat>) returns (r: seq<Topic>)
    ensures r == RemappedTopics(topics, globalIndexes)
  {
    r := [];
    for i := 0 to |topics|
      invariant r == RemappedTopics(topics[..i], globalIndexes)
    {
      assert topics[..i + 1][..i] == topics[..i];
      var mapped := MapLocalIndexes(topics[i].sourceIndexes, globalIndexes);
      mapped := UniqueSortedIndexes(mapped);
      r := r + [topics[i].(sourceIndexes := mapped)];
    }
    assert topics[..|topics|] == topics;
  }

  method MapLocalIndexes(locals: seq<int>, globalIndexes: seq<nat>) returns (mapped: seq<int>)
    ensures mapped == MapIndexes(locals, globalIndexes)
  {
    mapped := [];
    for j := 0 to |locals|
      invariant mapped == MapIndexes(locals[..j], globalIndexes)
    {
      assert locals[..j + 1][..j] == locals[..j];
      if locals[j] < 0 || locals[j] >= |globalIndexes| {
        continue;
      }
      mapped := mapped + [globalIndexes[locals[j]]];
    }
    assert locals[..|locals|] == locals;
  }

  method RemapExclusions(excluded: seq<Excluded>, globalIndexes: seq<nat>) returns (r: seq<Excluded>)
    ensures r == RemappedExclusions(excluded, globalIndexes)
  {
    r := [];
    for i := 0 to |excluded|
      invariant r == RemappedExclusions(excluded[..i], globalIndexes)
    {
      assert excluded[..i + 1][..i] == excluded[..i];
      var local := excluded[i].sourceIndex;
      if local < 0 || local >= |globalIndexes| {
        r := r + [excluded[i]];
        continue;
      }
      r := r + [excluded[i].(sourceIndex := globalIndexes[local])];
    }
    assert excluded[..|excluded|] == excluded;
  }

  /** Global images of the in-range members of a set of local indexes. */
  function Image(local: set<int>, globalIndexes: seq<nat>): set<int> {
    set x | x in local && 0 <= x < |globalIndexes| :: globalIndexes[x]
  }

  lemma {:induction false} MapIndexesImage(local: seq<int>, globalIndexes: seq<nat>)
    ensures Elements(MapIndexes(local, globalIndexes)) == Image(Elements(local), globalIndexes)
  {
    if local != [] {
      var n := |local| - 1;
      MapIndexesImage(local[..n], globalIndexes);
      assert local == local[..n] + [local[n]];
      ElementsConcat(local[..n], [local[n]]);
      ImageUnion(Elements(local[..n]), Elements([local[n]]), globalIndexes);
      var step: seq<int> := if 0 <= local[n] < |globalIndexes| then [globalIndexes[local[n]]] else [];
      ElementsConcat(MapIndexes(local[..n], globalIndexes), step);
      assert Elements(step) == Image({local[n]}, globalIndexes);
      assert Elements([local[n]]) == {local[n]};
    }
  }

  lemma ImageUnion(a: set<int>, b: set<int>, globalIndexes: seq<nat>)
    ensures Image(a + b, globalIndexes) == Image(a, globalIndexes) + Image(b, globalIndexes)
  {
  }

  lemma {:induction false} RemappedUsed(topics: seq<Topic>, globalIndexes: seq<nat>)
    ensures Used(RemappedTopics(topics, globalIndexes)) == Image(Used(topics), globalIndexes)
  {
    if topics != [] {
      var n := |topics| - 1;
      RemappedUsed(topics[..n], globalIndexes);
      MapIndexesImage(topics[n].sourceIndexes, globalIndexes);
      ImageUnion(Used(topics[..n]), Elements(topics[n].sourceIndexes), globalIndexes);
      var r := RemappedTopics(topics, globalIndexes);
      assert r[..n] == RemappedTopics(topics[..n], globalIndexes);
    }
  }

  lemma {:induction false} RemappedExcludedIndexes(excluded: seq<Excluded>, globalIndexes: seq<nat>)
    requires ExcludedIndexes(excluded) <= Input(|globalIndexes|)
    ensures ExcludedIndexes(RemappedExclusions(excluded, globalIndexes)) ==
            Image(ExcludedIndexes(excluded), globalIndexes)
  {
    if excluded != [] {
      var n := |excluded| - 1;
      RemappedExcludedIndexes(excluded[..n], globalIndexes);
      ImageUnion(ExcludedIndexes(excluded[..n]), {excluded[n].sourceIndex}, globalIndexes);
      var r := RemappedExclusions(excluded, globalIndexes);
      assert r[..n] == RemappedExclusions(excluded[..n], globalIndexes);
      assert Image({excluded[n].sourceIndex}, globalIndexes) == {r[n].sourceIndex};
    }
  }

  lemma {:induction false} RemappedTopicAt(topics: seq<Topic>, part: seq<nat>, i: nat)
    requires i < |topics|
    ensures RemappedTopics(topics, part)[i] == RemappedTopic(topics[i], part)
  {
    if i < |topics| - 1 {
      RemappedTopicAt(topics[..|topics| - 1], part, i);
    }
  }

  lemma {:induction false} RemappedExclusionAt(excluded: seq<Excluded>, part: seq<nat>, i: nat)
    requires i < |excluded|
    ensures RemappedExclusions(excluded, part)[i] == RemappedExcluded(excluded[i], part)
  {
    if i < |excluded| - 1 {
      RemappedExclusionAt(excluded[..|excluded| - 1], part, i);
    }
  }

  /** Everything but the indexes stays as it is, topic by topic and exclusion by exclusion. */
  lemma RemappedInPlace(s: Summary, globalIndexes: seq<nat>, i: nat)
    ensures Remapped(s, globalIndexes).title == s.title && Remapped(s, globalIndexes).overview == s.overview
    ensures i < |s.topics| ==>
              var t := Remapped(s, globalIndexes).topics[i];
              && t == s.topics[i].(sourceIndexes := t.sourceIndexes)
              && Elements(t.sourceIndexes) == Image(Elements(s.topics[i].sourceIndexes), globalIndexes)
              && Ascending(t.sourceIndexes)
    ensures i < |s.excluded| ==>
              var e := Remapped(s, globalIndexes).excluded[i];
              && e.reason == s.excluded[i].reason
              && e.sourceIndex == if 0 <= s.excluded[i].sourceIndex < |globalIndexes| then
                                    globalIndexes[s.excluded[i].sourceIndex]
                                  else s.excluded[i].sourceIndex
  {
    if i < |s.topics| {
      RemappedTopicAt(s.topics, globalIndexes, i);
      MapIndexesImage(s.topics[i].sourceIndexes, globalIndexes);
    }
    if i < |s.excluded| {
      RemappedExclusionAt(s.excluded, globalIndexes, i);
    }
  }

  // ----- normalisation

  predicate IndexBefore(a: Excluded, b: Excluded) {
    a.sourceIndex < b.sourceIndex
  }

  /** The first exclusion of each index, its reason trimmed. */
  function FirstExclusions(excluded: seq<Excluded>): seq<Excluded> {
    if excluded == [] then []
    else
      var n := |excluded| - 1;
      var front, e := FirstExclusions(excluded[..n]), excluded[n];
      if e.sourceIndex in ExcludedIndexes(excluded[..n]) then front
      else front + [e.(reason := TrimSpace(e.reason))]
  }

  function NormalizedExcluded(excluded: seq<Excluded>): seq<Excluded> {
    StableSort(FirstExclusions(excluded), IndexBefore)
  }

  function NormalizedTopics(topics: seq<Topic>): (r: seq<Topic>)
    ensures |r| == |topics|
  {
    if topics == [] then []
    else
      var n := |topics| - 1;
      NormalizedTopics(topics[..n]) + [topics[n].(sourceIndexes := UniqueSorted(topics[n].sourceIndexes))]
  }

  function Normalized(s: Summary): Summary {
    s.(topics := NormalizedTopics(s.topics), excluded := NormalizedExcluded(s.excluded))
  }

  method NormalizeSummarySourceIndexes(result: SummaryResult)
    modifies result
    ensures result.Value() == Normalized(old(result.Value()))
  {
    result.topics := NormalizeTopics(result.topics);
    var normalized := DropRepeatedExclusions(result.excluded);
    result.excluded := StableSort(normalized, IndexBefore);
  }

  method NormalizeTopics(topics: seq<Topic>) returns (r: seq<Topic>)
    ensures r == NormalizedTopics(topics)
  {
    r := [];
    for i := 0 to |topics|
      invariant r == NormalizedTopics(topics[..i])
    {
      assert topics[..i + 1][..i] == topics[..i];
      var unique := UniqueSortedIndexes(topics[i].sourceIndexes);
      r := r + [topics[i].(sourceIndexes := unique)];
    }
    assert topics[..|topics|] == topics;
  }

  method DropRepeatedExclusions(excluded: seq<Excluded>) returns (normalized: seq<Excluded>)
    ensures normalized == FirstExclusions(excluded)
  {
    var seen: set<int> := {};
    normalized := [];
    for i := 0 to |excluded|
      invariant seen == ExcludedIndexes(excluded[..i])
      invariant normalized == FirstExclusions(excluded[..i])
    {
      var e := excluded[i];
      assert excluded[..i + 1][..i] == excluded[..i];
      if e.sourceIndex in seen {
        continue;
      }
      seen := seen + {e.sourceIndex};
      normalized := normalized + [e.(reason := TrimSpace(e.reason))];
    }
    assert excluded[..|excluded|] == excluded;
  }

  function Positions(excluded: seq<Excluded>): (r: seq<int>)
    ensures |r| == |excluded|
    ensures forall k :: 0 <= k < |r| ==> r[k] == excluded[k].sourceIndex
  {
    if excluded == [] then []
    else Positions(excluded[..|excluded| - 1]) + [excluded[|excluded| - 1].sourceIndex]
  }

  lemma {:induction false} PositionsElements(excluded: seq<Excluded>)
    ensures Elements(Positions(excluded)) == ExcludedIndexes(excluded)
  {
    if excluded != [] {
      var n := |excluded| - 1;
      PositionsElements(excluded[..n]);
      assert Positions(excluded) == Positions(excluded[..n]) + [excluded[n].sourceIndex];
    }
  }

  ghost predicate Reasoned(excluded: seq<Excluded>) {
    forall k :: 0 <= k < |excluded| ==> !Blank(excluded[k].reason)
  }

  lemma {:induction false} FirstExclusionsFacts(excluded: seq<Excluded>)
    ensures ExcludedIndexes(FirstExclusions(excluded)) == ExcludedIndexes(excluded)
    ensures Distinct(Positions(FirstExclusions(excluded)))
  {
    if excluded != [] {
      var n := |excluded| - 1;
      var front, e := FirstExclusions(excluded[..n]), excluded[n];
      FirstExclusionsFacts(excluded[..n]);
      if e.sourceIndex !in ExcludedIndexes(excluded[..n]) {
        AppendExclusion(front, e.(reason := TrimSpace(e.reason)));
      }
    }
  }

  lemma {:induction false} FirstExclusionsReasoned(excluded: seq<Excluded>)
    requires Reasoned(excluded)
    ensures Reasoned(FirstExclusions(excluded))
  {
    if excluded != [] {
      var n := |excluded| - 1;
      FirstExclusionsReasoned(excluded[..n]);
      TrimSpaceIdempotent(excluded[n].reason);
    }
  }

  lemma AppendExclusion(front: seq<Excluded>, e: Excluded)
    requires Distinct(Positions(front)) && e.sourceIndex !in ExcludedIndexes(front)
    ensures ExcludedIndexes(front + [e]) == ExcludedIndexes(front) + {e.sourceIndex}
    ensures Distinct(Positions(front + [e]))
  {
    PositionsElements(front);
    assert (front + [e])[..|front|] == front;
    assert forall k :: 0 <= k < |front| ==> Positions(front)[k] in Elements(Positions(front));
  }

  lemma DistinctElements(first: seq<Excluded>)
    requires Distinct(Positions(first))
    ensures Distinct(first)
  {
    forall j, k | 0 <= j < k < |first|
      ensures first[j] != first[k]
    {
      assert Positions(first)[j] != Positions(first)[k];
    }
  }

  /** Two lists with the same elements exclude the same indexes and stay distinct and reasoned. */
  lemma SameExclusions(a: seq<Excluded>, b: seq<Excluded>)
    requires multiset(a) == multiset(b) && Distinct(Positions(a))
    ensures ExcludedIndexes(a) == ExcludedIndexes(b)
    ensures Distinct(Positions(b))
    ensures Reasoned(a) ==> Reasoned(b)
  {
    SameElements(a, b);
    DistinctElements(a);
    DistinctPermutation(a, b);
    forall j | 0 <= j < |b|
      ensures b[j] in a
    {
      assert b[j] in Elements(b);
    }
    forall j, k | 0 <= j < k < |b|
      ensures b[j].sourceIndex != b[k].sourceIndex
    {
      DistinctPositions(a, b[j], b[k]);
    }
    forall x
      ensures x in ExcludedIndexes(a) <==> x in ExcludedIndexes(b)
    {
      ExcludedIff(a, x);
      ExcludedIff(b, x);
      if k :| 0 <= k < |a| && a[k].sourceIndex == x {
        assert a[k] in Elements(b);
        var j :| 0 <= j < |b| && b[j] == a[k];
      }
    }
  }

  lemma DistinctPositions(a: seq<Excluded>, x: Excluded, y: Excluded)
    requires Distinct(Positions(a)) && x in a && y in a && x != y
    ensures x.sourceIndex != y.sourceIndex
  {
    var j :| 0 <= j < |a| && a[j] == x;
    var k :| 0 <= k < |a| && a[k] == y;
    assert Positions(a)[j] != Positions(a)[k];
  }

  lemma SortedExclusions(first: seq<Excluded>)
    requires Distinct(Positions(first))
    ensures var r := StableSort(first, IndexBefore);
            && ExcludedIndexes(r) == ExcludedIndexes(first)
            && Ascending(Positions(r))
            && (Reasoned(first) ==> Reasoned(r))
  {
    var r := StableSort(first, IndexBefore);
    StableSortSorted(first, IndexBefore);
    SameExclusions(first, r);
    forall j, k | 0 <= j < k < |r|
      ensures Positions(r)[j] < Positions(r)[k]
    {
      assert !IndexBefore(r[k], r[j]);
    }
  }

  lemma {:induction false} NormalizedUsed(topics: seq<Topic>)
    ensures Used(NormalizedTopics(topics)) == Used(topics)
  {
    if topics != [] {
      var n := |topics| - 1;
      NormalizedUsed(topics[..n]);
      var r := NormalizedTopics(topics);
      assert r[..n] == NormalizedTopics(topics[..n]);
    }
  }

  /** Entry k is the first exclusion of its index. */
  ghost predicate FirstOfIndex(excluded: seq<Excluded>, k: nat) {
    k < |excluded| && forall j :: 0 <= j < k ==> excluded[j].sourceIndex != excluded[k].sourceIndex
  }

  /** `e` carries the trimmed reason of the first exclusion of its index. */
  ghost predicate ReasonOfFirst(e: Excluded, excluded: seq<Excluded>) {
    exists k: nat ::
      && FirstOfIndex(excluded, k)
      && e == Excluded(excluded[k].sourceIndex, TrimSpace(excluded[k].reason))
  }

  lemma {:induction false} FirstReasonsAreKept(excluded: seq<Excluded>, e: Excluded)
    requires e in FirstExclusions(excluded)
    ensures ReasonOfFirst(e, excluded)
  {
    var n := |excluded| - 1;
    ExcludedIff(excluded[..n], excluded[n].sourceIndex);
    if e in FirstExclusions(excluded[..n]) {
      FirstReasonsAreKept(excluded[..n], e);
      FirstOfMore(e, excluded, n);
    } else {
      assert FirstOfIndex(excluded, n);
    }
  }

  lemma FirstOfMore(e: Excluded, excluded: seq<Excluded>, n: nat)
    requires n <= |excluded| && ReasonOfFirst(e, excluded[..n])
    ensures ReasonOfFirst(e, excluded)
  {
    var front := excluded[..n];
    var k: nat :| FirstOfIndex(front, k) && e == Excluded(front[k].sourceIndex, TrimSpace(front[k].reason));
    assert FirstOfIndex(excluded, k);
  }

  /** Normalising rewrites source lists and exclusions and nothing else. */
  lemma NormalizedInPlace(s: Summary, i: nat)
    ensures Normalized(s).title == s.title && Normalized(s).overview == s.overview
    ensures i < |s.topics| ==>
              var t := Normalized(s).topics[i];
              && t == s.topics[i].(sourceIndexes := t.sourceIndexes)
              && Elements(t.sourceIndexes) == Elements(s.topics[i].sourceIndexes) && Ascending(t.sourceIndexes)
    ensures i < |Normalized(s).excluded| ==> ReasonOfFirst(Normalized(s).excluded[i], s.excluded)
  {
    if i < |s.topics| {
      NormalizedTopicAt(s.topics, i);
    }
    var first := FirstExclusions(s.excluded);
    StableSortSorted(first, IndexBefore);
    if i < |Normalized(s).excluded| {
      var e := Normalized(s).excluded[i];
      assert e in multiset(Normalized(s).excluded);
      FirstReasonsAreKept(s.excluded, e);
    }
  }

  lemma {:induction false} NormalizedTopicAt(topics: seq<Topic>, i: nat)
    requires i < |topics|
    ensures NormalizedTopics(topics)[i] == topics[i].(sourceIndexes := UniqueSorted(topics[i].sourceIndexes))
  {
    if i < |topics| - 1 {
      NormalizedTopicAt(topics[..|topics| - 1], i);
    }
  }

  /** Normalising keeps the classified indexes and leaves one exclusion per index, in index order. */
  lemma NormalizedFacts(s: Summary)
    ensures var r := Normalized(s);
            && Used(r.topics) == Used(s.topics)
            && ExcludedIndexes(r.excluded) == ExcludedIndexes(s.excluded)
            && Ascending(Positions(r.excluded))
            && (Reasoned(s.excluded) ==> Reasoned(r.excluded))
  {
    FirstExclusionsFacts(s.excluded);
    if Reasoned(s.excluded) { FirstExclusionsReasoned(s.excluded); }
    SortedExclusions(FirstExclusions(s.excluded));
    NormalizedUsed(s.topics);
  }

  // ----- the coverage check

  function Classified(s: Summary): set<int> {
    Used(s.topics) + ExcludedIndexes(s.excluded)
  }

  /** Everything the summary says about its sources is legal; some inputs may be left out. */
  ghost predicate WellClassified(s: Summary, n: nat) {
    && Classified(s) <= Input(n)
    && Used(s.topics) !! ExcludedIndexes(s.excluded)
    && Distinct(Positions(s.excluded))
    && Reasoned(s.excluded)
  }

  /** Every input is used or excluded, none is both. */
  ghost predicate Covers(s: Summary, n: nat) {
    WellClassified(s, n) && Classified(s) == Input(n)
  }

  /** The unclassified inputs, in order. */
  ghost predicate IsMissing(missing: seq<int>, s: Summary, n: nat) {
    Ascending(missing) && Elements(missing) == Input(n) - Classified(s)
  }

  datatype CoverageError =
    | TopicOutOfRange(topic: nat, index: int)
    | ExcludedOutOfRange(index: int)
    | NoReason(index: int)
    | UsedAndExcluded(index: int)
    | Omitted(missing: seq<int>)

  /** What each error of the check says about the summary. */
  ghost predicate Explains(err: CoverageError, s: Summary, n: nat) {
    match err
    case TopicOutOfRange(t, x) => t < |s.topics| && x in s.topics[t].sourceIndexes && x !in Input(n)
    case ExcludedOutOfRange(x) => x in ExcludedIndexes(s.excluded) && x !in Input(n)
    case NoReason(x) =>
      exists k :: 0 <= k < |s.excluded| && s.excluded[k].sourceIndex == x && Blank(s.excluded[k].reason)
    case UsedAndExcluded(x) =>
      x in ExcludedIndexes(s.excluded) && (x in Used(s.topics) || !Distinct(Positions(s.excluded)))
    case Omitted(missing) => WellClassified(s, n) && IsMissing(missing, s, n) && missing != []
  }

  method ValidateSummaryCoverage(s: Summary, inputCount: nat) returns (err: Option<CoverageError>)
    ensures err == None <==> inputCount == 0 || Covers(s, inputCount)
    ensures err.Some? ==> Explains(err.value, s, inputCount)
    ensures err.Some? ==> (err.value.Omitted? <==> WellClassified(s, inputCount))
  {
    if inputCount == 0 {
      return None;
    }
    var covered: seq<bool>;
    covered, err := MarkUsed(s, inputCount);
    if err.Some? {
      return;
    }
    covered, err := MarkExcluded(s, covered);
    if err.Some? {
      return;
    }
    var missing := Uncovered(covered, s);
    if |missing| > 0 {
      assert missing[0] in Elements(missing);
      return Some(Omitted(missing));
    }
    assert Input(inputCount) - Classified(s) == {};
    return None;
  }

  method Uncovered(covered: seq<bool>, s: Summary) returns (missing: seq<int>)
    requires forall i :: 0 <= i < |covered| ==> (covered[i] <==> i in Classified(s))
    ensures IsMissing(missing, s, |covered|)
  {
    missing := [];
    for i := 0 to |covered|
      invariant Ascending(missing) && Elements(missing) == Input(i) - Classified(s)
    {
      assert forall j :: 0 <= j < |missing| ==> missing[j] in Elements(missing);
      if !covered[i] {
        ElementsConcat(missing, [i]);
        missing := missing + [i];
      }
    }
  }

  method MarkUsed(s: Summary, n: nat) returns (covered: seq<bool>, err: Option<CoverageError>)
    ensures |covered| == n
    ensures err == None <==> Used(s.topics) <= Input(n)
    ensures err == None ==> forall i :: 0 <= i < n ==> (covered[i] <==> i in Used(s.topics))
    ensures err.Some? ==> err.value.TopicOutOfRange? && Explains(err.value, s, n)
  {
    covered := seq(n, _ => false);
    for t := 0 to |s.topics|
      invariant |covered| == n
      invariant Used(s.topics[..t]) <= Input(n)
      invariant forall i :: 0 <= i < n ==> (covered[i] <==> i in Used(s.topics[..t]))
    {
      var indexes := s.topics[t].sourceIndexes;
      assert s.topics[..t + 1][..t] == s.topics[..t];
      for j := 0 to |indexes|
        invariant |covered| == n
        invariant Elements(indexes[..j]) <= Input(n)
        invariant forall i :: 0 <= i < n ==> (covered[i] <==> i in Used(s.topics[..t]) || i in Elements(indexes[..j]))
      {
        assert indexes[..j + 1] == indexes[..j] + [indexes[j]];
        if indexes[j] < 0 || indexes[j] >= n {
          UsedIff(s.topics, indexes[j]);
          return covered, Some(TopicOutOfRange(t, indexes[j]));
        }
        covered := covered[indexes[j] := true];
      }
      assert indexes[..|indexes|] == indexes;
    }
    assert s.topics[..|s.topics|] == s.topics;
    return covered, None;
  }

  method MarkExcluded(s: Summary, used: seq<bool>) returns (covered: seq<bool>, err: Option<CoverageError>)
    requires Used(s.topics) <= Input(|used|)
    requires forall i :: 0 <= i < |used| ==> (used[i] <==> i in Used(s.topics))
    ensures |covered| == |used|
    ensures err == None <==> WellClassified(s, |used|)
    ensures err == None ==> forall i :: 0 <= i < |used| ==> (covered[i] <==> i in Classified(s))
    ensures err.Some? ==> !err.value.Omitted? && Explains(err.value, s, |used|)
  {
    covered := used;
    var n := |used|;
    for k := 0 to |s.excluded|
      invariant |covered| == n && ExcludedSoFar(s.topics, s.excluded[..k], covered)
    {
      var e := s.excluded[k];
      ExcludedIff(s.excluded, e.sourceIndex);
      if e.sourceIndex < 0 || e.sourceIndex >= n {
        return covered, Some(ExcludedOutOfRange(e.sourceIndex));
      }
      if Blank(e.reason) {
        return covered, Some(NoReason(e.sourceIndex));
      }
      if covered[e.sourceIndex] {
        RepeatedExclusion(s.excluded, k);
        return covered, Some(UsedAndExcluded(e.sourceIndex));
      }
      ExcludeOneMore(s.topics, s.excluded, k, covered);
      covered := covered[e.sourceIndex := true];
    }
    assert s.excluded[..|s.excluded|] == s.excluded;
    return covered, None;
  }

  /** These exclusions are well classified next to the topics, and `covered` holds both. */
  ghost predicate ExcludedSoFar(topics: seq<Topic>, excluded: seq<Excluded>, covered: seq<bool>) {
    && ExcludedIndexes(excluded) <= Input(|covered|)
    && Used(topics) !! ExcludedIndexes(excluded)
    && Distinct(Positions(excluded)) && Reasoned(excluded)
    && forall i :: 0 <= i < |covered| ==> (covered[i] <==> i in Used(topics) || i in ExcludedIndexes(excluded))
  }

  lemma ExcludeOneMore(topics: seq<Topic>, excluded: seq<Excluded>, k: nat, covered: seq<bool>)
    requires k < |excluded| && ExcludedSoFar(topics, excluded[..k], covered)
    requires 0 <= excluded[k].sourceIndex < |covered| && !covered[excluded[k].sourceIndex] && !Blank(excluded[k].reason)
    ensures ExcludedSoFar(topics, excluded[..k + 1], covered[excluded[k].sourceIndex := true])
  {
    TakeOne(excluded, k);
    AppendExclusion(excluded[..k], excluded[k]);
  }

  lemma RepeatedExclusion(excluded: seq<Excluded>, k: nat)
    requires k < |excluded|
    ensures excluded[k].sourceIndex in ExcludedIndexes(excluded[..k]) ==> !Distinct(Positions(excluded))
  {
    ExcludedIff(excluded[..k], excluded[k].sourceIndex);
    if j :| 0 <= j < k && excluded[..k][j].sourceIndex == excluded[k].sourceIndex {
      assert Positions(excluded)[j] == Positions(excluded)[k];
    }
  }

  // ----- one batch: ask, check, ask again

  const RETRIES: nat := 2

  /** What one request to the model can end in; a parsed reply is arbitrary. */
  datatype Reply = Failed(retryable: bool) | Unparsable | Parsed(summary: Summary)

  /** One attempt: its outcome, and whether the context was done afterwards. */
  datatype Attempt = Attempt(reply: Reply, cancelled: bool)

  ghost predicate Acceptable(reply: Reply, n: nat) {
    reply.Parsed? && WellFormed(reply.summary) && (n == 0 || Covers(Normalized(reply.summary), n))
  }

  /** The first k attempts brought nothing, and none of them was cancelled or failed for good. */
  ghost predicate GoesOn(n: nat, attempts: seq<Attempt>, k: nat) {
    && k <= |attempts|
    && forall j :: 0 <= j < k ==>
         && !Acceptable(attempts[j].reply, n)
         && !attempts[j].cancelled
         && (attempts[j].reply.Failed? ==> attempts[j].reply.retryable)
  }

  /** Attempt k is made and accepted. */
  ghost predicate AnsweredAt(n: nat, attempts: seq<Attempt>, k: nat) {
    k < |attempts| && GoesOn(n, attempts, k) && Acceptable(attempts[k].reply, n)
  }

  /** Attempt k is made, and none is made after it. */
  ghost predicate LastMadeAt(n: nat, attempts: seq<Attempt>, k: nat) {
    k < |attempts| && GoesOn(n, attempts, k) && (k + 1 == |attempts| || !GoesOn(n, attempts, k + 1))
  }

  /** The first acceptable reply, provided no attempt before it ended the loop. */
  ghost function Answer(n: nat, attempts: seq<Attempt>): Option<Summary> {
    if attempts == [] then None
    else if Acceptable(attempts[0].reply, n) then Some(Normalized(attempts[0].reply.summary))
    else if !GoesOn(n, attempts, 1) then None
    else Answer(n, attempts[1..])
  }

  /** The reply of the last attempt made. */
  ghost function LastTried(n: nat, attempts: seq<Attempt>): Reply
    requires attempts != []
  {
    if |attempts| == 1 || !GoesOn(n, attempts, 1) then attempts[0].reply else LastTried(n, attempts[1..])
  }

  lemma GoesOnStep(n: nat, attempts: seq<Attempt>, k: nat)
    requires k < |attempts| && GoesOn(n, attempts, k)
    ensures GoesOn(n, attempts, k + 1) <==> GoesOn(n, attempts[k..], 1)
  {
    assert attempts[k..][0] == attempts[k];
  }

  /** As long as the loop goes on, what is left decides. */
  lemma {:induction false} RestDecides(n: nat, attempts: seq<Attempt>, k: nat)
    requires k < |attempts| && GoesOn(n, attempts, k)
    ensures Answer(n, attempts) == Answer(n, attempts[k..]) && LastTried(n, attempts) == LastTried(n, attempts[k..])
  {
    if k == 0 {
      assert attempts[0..] == attempts;
    } else {
      assert GoesOn(n, attempts, k - 1);
      RestDecides(n, attempts, k - 1);
      GoesOnStep(n, attempts, k - 1);
      OneMoreAttempt(n, attempts[k - 1..]);
      assert attempts[k - 1..][1..] == attempts[k..];
    }
  }

  lemma OneMoreAttempt(n: nat, rest: seq<Attempt>)
    requires |rest| > 1 && GoesOn(n, rest, 1)
    ensures Answer(n, rest) == Answer(n, rest[1..]) && LastTried(n, rest) == LastTried(n, rest[1..])
  {
  }

  /** The last attempt made decides both. */
  lemma LastMadeDecides(n: nat, attempts: seq<Attempt>, k: nat)
    requires LastMadeAt(n, attempts, k)
    ensures LastTried(n, attempts) == attempts[k].reply
    ensures Answer(n, attempts) ==
            if Acceptable(attempts[k].reply, n) then Some(Normalized(attempts[k].reply.summary)) else None
  {
    RestDecides(n, attempts, k);
    GoesOnStep(n, attempts, k);
    assert attempts[k..][0] == attempts[k];
  }

  lemma {:induction false} SomeAttemptIsLast(n: nat, attempts: seq<Attempt>, k: nat) returns (i: nat)
    requires k < |attempts| && GoesOn(n, attempts, k)
    ensures LastMadeAt(n, attempts, i)
    decreases |attempts| - k
  {
    if k + 1 == |attempts| || !GoesOn(n, attempts, k + 1) {
      i := k;
    } else {
      i := SomeAttemptIsLast(n, attempts, k + 1);
    }
  }

  /** There is an answer exactly when some attempt is made and accepted. */
  lemma AnswerIff(n: nat, attempts: seq<Attempt>)
    ensures Answer(n, attempts).Some? <==> exists k: nat :: AnsweredAt(n, attempts, k)
  {
    if attempts != [] {
      var i := SomeAttemptIsLast(n, attempts, 0);
      LastMadeDecides(n, attempts, i);
      if k: nat :| AnsweredAt(n, attempts, k) {
        AcceptedIsLast(n, attempts, k);
        LastMadeDecides(n, attempts, k);
      }
      if Answer(n, attempts).Some? {
        assert AnsweredAt(n, attempts, i);
      }
    }
  }

  lemma AcceptedIsLast(n: nat, attempts: seq<Attempt>, k: nat)
    requires AnsweredAt(n, attempts, k)
    ensures LastMadeAt(n, attempts, k)
  {
  }

  /** Parse, normalise and check one reply. */
  method Accept(reply: Reply, n: nat) returns (r: Option<SummaryResult>)
    ensures r.Some? <==> Acceptable(reply, n)
    ensures r.Some? ==>
              fresh(r.value) && r.value.Value() == Normalized(reply.summary) && (n == 0 || Covers(r.value.Value(), n))
  {
    if !reply.Parsed? {
      return None;
    }
    var valid := ValidateSummaryResult(reply.summary);
    if !valid {
      return None;
    }
    var result := new SummaryResult(reply.summary);
    NormalizeSummarySourceIndexes(result);
    var err := ValidateSummaryCoverage(result.Value(), n);
    return if err.None? then Some(result) else None;
  }

  /**
   A returned summary is the first acceptable reply before which every attempt was
   worth repeating, and one is returned whenever there is such a reply; it covers the
   batch. Otherwise the failure reported is that of the last attempt made.
   */
  method SummarizeBatch(n: nat, attempts: seq<Attempt>) returns (r: Option<SummaryResult>, lastErr: Reply)
    requires |attempts| == RETRIES + 1
    ensures r.Some? <==> exists k: nat :: AnsweredAt(n, attempts, k)
    ensures r.Some? <==> Answer(n, attempts).Some?
    ensures r.Some? ==>
              fresh(r.value) && Some(r.value.Value()) == Answer(n, attempts) && (n == 0 || Covers(r.value.Value(), n))
    ensures lastErr == LastTried(n, attempts)
  {
    lastErr := attempts[0].reply;
    AnswerIff(n, attempts);
    for k := 0 to |attempts|
      invariant GoesOn(n, attempts, k)
      invariant k > 0 ==> lastErr == attempts[k - 1].reply && !Acceptable(lastErr, n)
    {
      lastErr := attempts[k].reply;
      r := Accept(attempts[k].reply, n);
      if r.Some? {
        AcceptedIsLast(n, attempts, k);
        LastMadeDecides(n, attempts, k);
        return;
      }
      if attempts[k].cancelled || (attempts[k].reply.Failed? && !attempts[k].reply.retryable) {
        LastMadeDecides(n, attempts, k);
        return None, lastErr;
      }
    }
    LastMadeDecides(n, attempts, |attempts| - 1);
    return None, lastErr;
  }
}
