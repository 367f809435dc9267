/**
 From batch results to one summary: `mergeSummaries`, `summarizeBatches` (outcome by
 outcome; its schedule is module BatchRuns) and `Summarize` of internal/summary/llm/openai.go.
 */
module MapReduce {
  import opened Batching
  import opened Coverage
  import opened Indexes
  import opened Packing
  import opened Sequences
  import opened Summaries
  import opened Text
  import opened TextLoss
  import opened TopicMerge
  import B = BatchRuns

  datatype Headline = Headline(title: string, overview: string)

  /** Giving up reports the first failure in batch order. */
  datatype SummarizeError = NoBatchSucceeded(first: Option<Reply>) | NotWellFormed | NotCovered(error: CoverageError)

  datatype Outcome = Ok(summary: Summary) | Err(error: SummarizeError)

  // ----- concatenating the partial results

  function AllTopics(partials: seq<Option<Summary>>): seq<Topic> {
    if partials == [] then []
    else
      var last := partials[|partials| - 1];
      AllTopics(partials[..|partials| - 1]) + if last.Some? then last.value.topics else []
  }

  function AllExcluded(partials: seq<Option<Summary>>): seq<Excluded> {
    if partials == [] then []
    else
      var last := partials[|partials| - 1];
      AllExcluded(partials[..|partials| - 1]) + if last.Some? then last.value.excluded else []
  }

  /** The global indexes of the failed batches, batch after batch. */
  function FailedIndexes(parts: seq<seq<nat>>, partials: seq<Option<Summary>>): seq<int>
    requires |parts| == |partials|
  {
    if parts == [] then []
    else
      var n := |parts| - 1;
      FailedIndexes(parts[..n], partials[..n]) + if partials[n].None? then parts[n] else []
  }

  /** A batch failed, or its result is a covering local one moved to global indexes. */
  ghost predicate FromBatch(partial: Option<Summary>, part: seq<nat>) {
    partial.Some? ==>
      exists local :: WellFormed(local) && Covers(local, |part|) && partial.value == Remapped(local, part)
  }

  ghost predicate FromBatches(partials: seq<Option<Summary>>, parts: seq<seq<nat>>) {
    |parts| == |partials| && forall k :: 0 <= k < |parts| ==> FromBatch(partials[k], parts[k])
  }

  /** A covering local result classifies exactly its part of the input. */
  lemma RemappedCovers(local: Summary, part: seq<nat>)
    requires Covers(local, |part|) && Distinct(part)
    ensures var r := Remapped(local, part);
            && Classified(r) == Elements<int>(part)
            && Used(r.topics) !! ExcludedIndexes(r.excluded)
            && Reasoned(r.excluded)
  {
    RemappedUsed(local.topics, part);
    RemappedExcludedIndexes(local.excluded, part);
    RemappedReasoned(local.excluded, part);
    var used, excluded := Used(local.topics), ExcludedIndexes(local.excluded);
    forall x | x in Elements<int>(part)
      ensures x in Image(used, part) + Image(excluded, part)
    {
      var k :| 0 <= k < |part| && part[k] == x;
      assert k in Input(|part|);
    }
    ImagesDisjoint(used, excluded, part);
  }

  lemma ImagesDisjoint(a: set<int>, b: set<int>, part: seq<nat>)
    requires Distinct(part) && a !! b
    ensures Image(a, part) !! Image(b, part)
  {
  }

  lemma {:induction false} RemappedReasoned(excluded: seq<Excluded>, part: seq<nat>)
    requires Reasoned(excluded)
    ensures Reasoned(RemappedExclusions(excluded, part))
  {
    if excluded != [] {
      RemappedReasoned(excluded[..|excluded| - 1], part);
    }
  }

  /** `topics` and `excluded` classify exactly `whole` without `failed`. */
  ghost predicate Accounts(topics: seq<Topic>, excluded: seq<Excluded>, failed: seq<int>, whole: set<int>) {
    && Used(topics) + ExcludedIndexes(excluded) == whole - Elements(failed)
    && Used(topics) !! ExcludedIndexes(excluded)
    && Reasoned(excluded)
    && Ascending(failed) && Elements(failed) <= whole
  }

  /** What the concatenation classifies: every index of every batch that did not fail. */
  lemma {:induction false} ConcatenationAccounts(partials: seq<Option<Summary>>, parts: seq<seq<nat>>)
    requires FromBatches(partials, parts) && Ascending(Flatten(parts))
    ensures Accounts(AllTopics(partials), AllExcluded(partials), FailedIndexes(parts, partials),
                     Elements<int>(Flatten(parts)))
    decreases |parts|
  {
    if parts != [] {
      var n := |parts| - 1;
      var front, last := Flatten(parts[..n]), parts[n];
      assert parts == parts[..n] + [last];
      FlattenSnoc(parts[..n], last);
      ApartHalves(front, last);
      ConcatenationAccounts(partials[..n], parts[..n]);
      ElementsConcat<int>(front, last);
      var topics, excluded, failed := AllTopics(partials[..n]), AllExcluded(partials[..n]),
                                      FailedIndexes(parts[..n], partials[..n]);
      assert FromBatch(partials[n], last);
      if partials[n].None? {
        FailedBatch(topics, excluded, failed, front, last);
      } else {
        FinishedBatch(topics, excluded, failed, front, last, partials[n].value);
      }
    }
  }

  lemma FailedBatch(topics: seq<Topic>, excluded: seq<Excluded>, failed: seq<int>, front: seq<nat>, last: seq<nat>)
    requires Accounts(topics, excluded, failed, Elements<int>(front)) && Ascending(front + last)
    ensures Accounts(topics + [], excluded + [], failed + last, Elements<int>(front) + Elements<int>(last))
  {
    assert topics + [] == topics && excluded + [] == excluded;
    ApartHalves(front, last);
    ElementsConcat(failed, last);
    AscendingConcat(failed, last, front);
  }

  lemma BatchCovers(s: Summary, part: seq<nat>)
    requires FromBatch(Some(s), part) && Distinct(part)
    ensures Classified(s) == Elements<int>(part) && Used(s.topics) !! ExcludedIndexes(s.excluded)
    ensures Reasoned(s.excluded)
  {
    var local :| WellFormed(local) && Covers(local, |part|) && s == Remapped(local, part);
    RemappedCovers(local, part);
  }

  lemma FinishedBatch(topics: seq<Topic>, excluded: seq<Excluded>, failed: seq<int>, front: seq<nat>, last: seq<nat>,
                      s: Summary)
    requires Accounts(topics, excluded, failed, Elements<int>(front)) && Ascending(front + last)
    requires FromBatch(Some(s), last)
    ensures Accounts(topics + s.topics, excluded + s.excluded, failed + [], Elements<int>(front) + Elements<int>(last))
  {
    assert failed + [] == failed;
    ApartHalves(front, last);
    BatchCovers(s, last);
    UsedConcat(topics, s.topics);
    ExcludedConcat(excluded, s.excluded);
  }

  lemma ApartHalves(a: seq<nat>, b: seq<nat>)
    requires Ascending(a + b)
    ensures Ascending(a) && Ascending(b)
    ensures Elements<int>(a) !! Elements<int>(b)
    ensures forall i, j :: 0 <= i < |a| && 0 <= j < |b| ==> a[i] < b[j]
  {
    assert a == (a + b)[..|a|] && b == (a + b)[|a|..];
    forall i, j | 0 <= i < |a| && 0 <= j < |b|
      ensures a[i] < b[j]
    {
      assert (a + b)[i] < (a + b)[|a| + j];
    }
  }

  lemma AscendingConcat(a: seq<int>, b: seq<nat>, front: seq<nat>)
    requires Ascending(a) && Ascending(b) && Elements(a) <= Elements<int>(front)
    requires forall i, j :: 0 <= i < |front| && 0 <= j < |b| ==> front[i] < b[j]
    ensures Ascending(a + b)
  {
    forall i, j | 0 <= i < |a| && 0 <= j < |b|
      ensures a[i] < b[j]
    {
      assert a[i] in Elements(a);
    }
  }

  // ----- which texts survive merging

  ghost predicate NoOverview(partials: seq<Option<Summary>>, headline: Option<Headline>) {
    && (forall k :: 0 <= k < |partials| && partials[k].Some? ==> Blank(partials[k].value.overview))
    && (headline.None? || Blank(headline.value.overview))
  }

  /** The topics of all batches, each source list in order. */
  function Gathered(partials: seq<Option<Summary>>): seq<Topic> {
    NormalizedTopics(AllTopics(partials))
  }

  /** The two ways in which well-formed batch results merge into a malformed summary. */
  ghost predicate TextLost(partials: seq<Option<Summary>>, headline: Option<Headline>, plan: Plan) {
    NoOverview(partials, headline) || MergesBlanks(Gathered(partials), plan)
  }

  lemma MergedTopicWellFormed(before: seq<Topic>, plan: Plan, after: Topic, k: nat)
    requires plan.Partitions(|before|) && k < |plan.classes|
    requires CombinesClass(before, plan.classes[k], after) && KeepsText(before, plan.leaders[k], plan.classes[k], after)
    requires forall i :: 0 <= i < |before| ==> WellFormedTopic(before[i])
    ensures WellFormedTopic(after) <==> !LosesText(before, plan, k)
  {
    BlankIff("");
    assert (forall i :: i in plan.classes[k] ==> BlankAt(before, i)) <==>
           forall i :: i in plan.classes[k] ==> Blank(before[i].fullSummary);
  }

  lemma {:induction false} NormalizedWellFormed(topics: seq<Topic>)
    requires forall i :: 0 <= i < |topics| ==> WellFormedTopic(topics[i])
    ensures forall i :: 0 <= i < |topics| ==> WellFormedTopic(NormalizedTopics(topics)[i])
  {
    if topics != [] {
      NormalizedWellFormed(topics[..|topics| - 1]);
    }
  }

  lemma {:induction false} PartialTopicsWellFormed(partials: seq<Option<Summary>>)
    requires forall k :: 0 <= k < |partials| && partials[k].Some? ==> WellFormed(partials[k].value)
    ensures forall i :: 0 <= i < |AllTopics(partials)| ==> WellFormedTopic(AllTopics(partials)[i])
    ensures AllTopics(partials) == [] <==> forall k :: 0 <= k < |partials| ==> partials[k].None?
  {
    if partials != [] {
      PartialTopicsWellFormed(partials[..|partials| - 1]);
    }
  }

  lemma RemappedWellFormed(local: Summary, part: seq<nat>)
    requires WellFormed(local)
    ensures WellFormed(Remapped(local, part))
  {
    forall i | 0 <= i < |local.topics|
      ensures WellFormedTopic(RemappedTopics(local.topics, part)[i])
    {
      RemappedTopicAt(local.topics, part, i);
    }
  }

  // ----- mergeSummaries

  /** `strings.Join(parts, " ")`. */
  function Spaced(parts: seq<string>): string {
    if parts == [] then ""
    else if |parts| == 1 then parts[0]
    else Spaced(parts[..|parts| - 1]) + " " + parts[|parts| - 1]
  }

  function Overviews(partials: seq<Option<Summary>>): seq<string> {
    if partials == [] then []
    else
      var last := partials[|partials| - 1];
      Overviews(partials[..|partials| - 1])
      + if last.Some? && !Blank(last.value.overview) then [TrimSpace(last.value.overview)] else []
  }

  function FirstTitle(partials: seq<Option<Summary>>): string {
    if partials == [] then ""
    else
      var front, last := FirstTitle(partials[..|partials| - 1]), partials[|partials| - 1];
      if front == "" && last.Some? then last.value.title else front
  }

  lemma OverviewFacts(partials: seq<Option<Summary>>)
    ensures Overviews(partials) == [] <==>
            forall k :: 0 <= k < |partials| && partials[k].Some? ==> Blank(partials[k].value.overview)
    ensures forall k :: 0 <= k < |Overviews(partials)| ==> Overviews(partials)[k] != ""
  {
    NoOverviewIff(partials);
    OverviewsNotEmpty(partials);
  }

  lemma {:induction false} NoOverviewIff(partials: seq<Option<Summary>>)
    ensures Overviews(partials) == [] <==>
            forall k :: 0 <= k < |partials| && partials[k].Some? ==> Blank(partials[k].value.overview)
  {
    if partials != [] {
      NoOverviewIff(partials[..|partials| - 1]);
    }
  }

  lemma {:induction false} OverviewsNotEmpty(partials: seq<Option<Summary>>)
    ensures forall k :: 0 <= k < |Overviews(partials)| ==> Overviews(partials)[k] != ""
  {
    if partials != [] {
      OverviewsNotEmpty(partials[..|partials| - 1]);
    }
  }

  lemma {:induction false} TitleFacts(partials: seq<Option<Summary>>)
    requires forall k :: 0 <= k < |partials| && partials[k].Some? ==> partials[k].value.title != ""
    ensures FirstTitle(partials) == "" <==> forall k :: 0 <= k < |partials| ==> partials[k].None?
  {
    if partials != [] {
      TitleFacts(partials[..|partials| - 1]);
    }
  }

  function Concatenated(partials: seq<Option<Summary>>): Summary {
    Summary(FirstTitle(partials), Spaced(Overviews(partials)), AllTopics(partials), AllExcluded(partials))
  }

  function Phrases(a: string, b: string): string {
    if a == "" then b else if b == "" then a else a + " " + b
  }

  /** Concatenation of two merged summaries; an overview joins the other after a space. */
  function Beside(a: Summary, b: Summary): Summary {
    Summary(if a.title != "" then a.title else b.title,
            Phrases(a.overview, b.overview), a.topics + b.topics, a.excluded + b.excluded)
  }

  /** What a batch contributes. */
  function Contribution(partial: Option<Summary>): Summary {
    if partial.None? then Summary("", "", [], [])
    else partial.value.(overview := TrimSpace(partial.value.overview))
  }

  lemma SpacesAssociative(a: string, space: string, b: string, c: string)
    ensures a + space + b + space + c == a + space + (b + space + c)
  {
  }

  lemma PhrasesAssociative(a: string, b: string, c: string)
    ensures Phrases(Phrases(a, b), c) == Phrases(a, Phrases(b, c))
  {
    SpacesAssociative(a, " ", b, c);
  }

  lemma BesideAssociative(a: Summary, b: Summary, c: Summary)
    ensures Beside(Beside(a, b), c) == Beside(a, Beside(b, c))
  {
    PhrasesAssociative(a.overview, b.overview, c.overview);
    Associative(a.topics, b.topics, c.topics);
    Associative(a.excluded, b.excluded, c.excluded);
  }

  /** A batch result alone is its own contribution; more of them are set beside each other, however they are grouped. */
  lemma {:induction false} ConcatenatedInParts(a: seq<Option<Summary>>, b: seq<Option<Summary>>)
    ensures Concatenated(a + b) == Beside(Concatenated(a), Concatenated(b))
    ensures |b| == 1 ==> Concatenated(b) == Contribution(b[0])
  {
    NothingConcatenated();
    if b == [] {
      assert a + b == a;
    } else {
      var n := |b| - 1;
      ConcatenatedInParts(a, b[..n]);
      SnocSlice(a, b);
      OneMorePartial(a + b, a + b[..n], b[n]);
      OneMorePartial(b, b[..n], b[n]);
      BesideAssociative(Concatenated(a), Concatenated(b[..n]), Contribution(b[n]));
    }
  }

  lemma NothingConcatenated()
    ensures Concatenated([]) == Summary("", "", [], [])
  {
  }

  lemma SnocSlice<T>(a: seq<T>, b: seq<T>)
    requires b != []
    ensures a + b == a + b[..|b| - 1] + [b[|b| - 1]] && b == b[..|b| - 1] + [b[|b| - 1]]
  {
  }

  lemma OneMorePartial(partials: seq<Option<Summary>>, front: seq<Option<Summary>>, last: Option<Summary>)
    requires partials == front + [last]
    ensures Concatenated(partials) == Beside(Concatenated(front), Contribution(last))
  {
    assert partials[..|partials| - 1] == front && partials[|partials| - 1] == last;
    OverviewOfOneMore(partials, front, last);
  }

  lemma OverviewOfOneMore(partials: seq<Option<Summary>>, front: seq<Option<Summary>>, last: Option<Summary>)
    requires partials == front + [last]
    ensures Spaced(Overviews(partials)) ==
            Beside(Concatenated(front), Contribution(last)).overview
  {
    assert partials[..|partials| - 1] == front && partials[|partials| - 1] == last;
    OverviewsNotEmpty(front);
    if last.Some? && !Blank(last.value.overview) {
      SpacedSnoc(Overviews(front), TrimSpace(last.value.overview));
    } else {
      assert Overviews(partials) == Overviews(front);
    }
  }

  lemma SpacedSnoc(parts: seq<string>, more: string)
    requires forall k :: 0 <= k < |parts| ==> parts[k] != ""
    ensures Spaced(parts + [more]) == if Spaced(parts) == "" then more else Spaced(parts) + " " + more
  {
    assert (parts + [more])[..|parts|] == parts;
    assert |parts| == 1 ==> Spaced(parts) == parts[0];
  }

  method Concatenate(partials: seq<Option<Summary>>) returns (merged: Summary)
    ensures merged == Concatenated(partials)
  {
    merged := Summary("", "", [], []);
    var overviews: seq<string> := [];
    for k := 0 to |partials|
      invariant merged == Summary(FirstTitle(partials[..k]), "", AllTopics(partials[..k]), AllExcluded(partials[..k]))
      invariant overviews == Overviews(partials[..k])
    {
      assert partials[..k + 1][..k] == partials[..k];
      if partials[k].None? {
        continue;
      }
      var partial := partials[k].value;
      merged := merged.(topics := merged.topics + partial.topics, excluded := merged.excluded + partial.excluded);
      if !Blank(partial.overview) {
        overviews := overviews + [TrimSpace(partial.overview)];
      }
      if merged.title == "" {
        merged := merged.(title := partial.title);
      }
    }
    assert partials[..|partials|] == partials;
    merged := merged.(overview := Spaced(overviews));
  }

  /** Batch results of a whole input, at least one of them present. */
  ghost predicate PartialResults(partials: seq<Option<Summary>>, parts: seq<seq<nat>>, n: nat) {
    && FromBatches(partials, parts) && Flatten(parts) == Range(n)
    && exists k :: 0 <= k < |partials| && partials[k].Some?
  }

  /**
   Any partials: a returned summary is the merged one, well formed and covering. Partials
   that come from covering batch results: the outcome is decided by two things only,
   whether the replies merge topics without text and which batches failed.
   */
  method MergeSummaries(partials: seq<Option<Summary>>, n: nat, reducer: Reducer, headline: Option<Headline>)
    returns (r: Outcome)
    ensures r.Ok? ==>
              && MergedFrom(partials, r.summary, headline, reducer)
              && WellFormed(r.summary)
              && (n == 0 || Covers(r.summary, n))
    ensures forall parts :: PartialResults(partials, parts, n) ==> Decides(r, partials, parts, headline, reducer)
  {
    var concatenated := Concatenate(partials);
    var result := new SummaryResult(concatenated);
    NormalizeSummarySourceIndexes(result);
    var merged := Reduce(result.Value(), reducer, headline);
    assert MergedFrom(partials, merged, headline, reducer);
    r := Validate(merged, n);
    forall parts | PartialResults(partials, parts, n)
      ensures Decides(r, partials, parts, headline, reducer)
    {
      MergeDecides(partials, parts, n, merged, headline, reducer, r);
    }
  }

  /** Merge topics, then take over what the headline request returned. */
  method Reduce(s: Summary, reducer: Reducer, headline: Option<Headline>) returns (merged: Summary)
    ensures Combines(s.topics, merged.topics, ReducePlan(s.topics, reducer)) && Used(merged.topics) == Used(s.topics)
    ensures CombinesTexts(s.topics, merged.topics, ReducePlan(s.topics, reducer), reducer.fold)
    ensures merged.excluded == s.excluded
    ensures merged.title == if headline.Some? && !Blank(headline.value.title) then headline.value.title else s.title
    ensures merged.overview ==
            if headline.Some? && !Blank(headline.value.overview) then headline.value.overview else s.overview
  {
    merged := s;
    var topics := MergeDuplicateTopics(s.topics, reducer);
    merged := merged.(topics := topics);
    if headline.Some? {
      if !Blank(headline.value.title) {
        merged := merged.(title := headline.value.title);
      }
      if !Blank(headline.value.overview) {
        merged := merged.(overview := headline.value.overview);
      }
    }
  }

  /** `ValidateSummaryResult`, then `ValidateSummaryCoverage`. */
  method Validate(merged: Summary, n: nat) returns (r: Outcome)
    ensures Validated(merged, n, r)
  {
    var valid := ValidateSummaryResult(merged);
    if !valid {
      return Err(NotWellFormed);
    }
    var err := ValidateSummaryCoverage(merged, n);
    return if err.Some? then Err(NotCovered(err.value)) else Ok(merged);
  }

  ghost predicate Validated(merged: Summary, n: nat, r: Outcome) {
    match r
    case Ok(s) => s == merged && WellFormed(merged) && (n == 0 || Covers(merged, n))
    case Err(NotWellFormed) => !WellFormed(merged)
    case Err(NotCovered(e)) =>
      && WellFormed(merged) && n > 0 && !Covers(merged, n)
      && Explains(e, merged, n) && (e.Omitted? <==> WellClassified(merged, n))
    case Err(NoBatchSucceeded(_)) => false
  }

  ghost predicate Decides(r: Outcome, partials: seq<Option<Summary>>, parts: seq<seq<nat>>, headline: Option<Headline>,
                          reducer: Reducer)
    requires |parts| == |partials|
  {
    var failed := FailedIndexes(parts, partials);
    if TextLost(partials, headline, ReducePlan(Gathered(partials), reducer)) then r == Err(NotWellFormed)
    else if failed != [] then r == Err(NotCovered(Omitted(failed)))
    else r.Ok?
  }

  /** What the steps of `mergeSummaries` before validation establish. */
  ghost predicate MergedFrom(partials: seq<Option<Summary>>, merged: Summary, headline: Option<Headline>,
                             reducer: Reducer)
  {
    var concatenated := Concatenated(partials);
    && Combines(Gathered(partials), merged.topics, ReducePlan(Gathered(partials), reducer))
    && CombinesTexts(Gathered(partials), merged.topics, ReducePlan(Gathered(partials), reducer), reducer.fold)
    && Used(merged.topics) == Used(Gathered(partials))
    && merged.excluded == NormalizedExcluded(concatenated.excluded)
    && merged.title ==
       (if headline.Some? && !Blank(headline.value.title) then headline.value.title else concatenated.title)
    && merged.overview ==
       (if headline.Some? && !Blank(headline.value.overview) then headline.value.overview else concatenated.overview)
  }

  lemma MergeDecides(partials: seq<Option<Summary>>, parts: seq<seq<nat>>, n: nat, merged: Summary,
                     headline: Option<Headline>, reducer: Reducer, r: Outcome)
    requires PartialResults(partials, parts, n) && MergedFrom(partials, merged, headline, reducer)
    requires Validated(merged, n, r)
    ensures Decides(r, partials, parts, headline, reducer)
  {
    MergedWellFormed(partials, parts, n, merged, headline, reducer);
    MergedAccounts(partials, parts, n, merged, headline, reducer);
    OutcomeOf(merged, n, r, FailedIndexes(parts, partials));
  }

  lemma OutcomeOf(merged: Summary, n: nat, r: Outcome, failed: seq<int>)
    requires Validated(merged, n, r) && WellClassified(merged, n) && IsMissing(failed, merged, n)
    ensures if !WellFormed(merged) then r == Err(NotWellFormed)
            else if failed != [] then r == Err(NotCovered(Omitted(failed)))
            else r.Ok?
  {
    FailedMeansUncovered(merged, n, failed);
    if r.Err? && r.error.NotCovered? {
      AscendingUnique(r.error.error.missing, failed);
    }
  }

  lemma FailedMeansUncovered(merged: Summary, n: nat, failed: seq<int>)
    requires WellClassified(merged, n) && IsMissing(failed, merged, n)
    ensures failed == [] <==> Covers(merged, n)
  {
    if failed == [] {
      assert Input(n) - Classified(merged) == {};
    } else {
      assert failed[0] in Elements(failed);
    }
  }

  lemma RangeElements(n: nat)
    ensures Elements<int>(Range(n)) == Input(n) && Ascending(Range(n))
  {
    forall i | i in Input(n)
      ensures i in Elements<int>(Range(n))
    {
      assert Range(n)[i] == i;
    }
  }

  lemma MergedAccounts(partials: seq<Option<Summary>>, parts: seq<seq<nat>>, n: nat, merged: Summary,
                       headline: Option<Headline>, reducer: Reducer)
    requires PartialResults(partials, parts, n) && MergedFrom(partials, merged, headline, reducer)
    ensures WellClassified(merged, n) && IsMissing(FailedIndexes(parts, partials), merged, n)
  {
    RangeElements(n);
    ConcatenationAccounts(partials, parts);
    NormalizedFacts(Concatenated(partials));
  }

  lemma PartialsWellFormed(partials: seq<Option<Summary>>, parts: seq<seq<nat>>)
    requires FromBatches(partials, parts)
    ensures forall k :: 0 <= k < |partials| && partials[k].Some? ==> WellFormed(partials[k].value)
  {
    forall k | 0 <= k < |partials| && partials[k].Some?
      ensures WellFormed(partials[k].value)
    {
      assert FromBatch(partials[k], parts[k]);
      var local :| WellFormed(local) && Covers(local, |parts[k]|) && partials[k].value == Remapped(local, parts[k]);
      RemappedWellFormed(local, parts[k]);
    }
  }

  lemma MergedWellFormed(partials: seq<Option<Summary>>, parts: seq<seq<nat>>, n: nat, merged: Summary,
                         headline: Option<Headline>, reducer: Reducer)
    requires PartialResults(partials, parts, n) && MergedFrom(partials, merged, headline, reducer)
    ensures WellFormed(merged) <==> !TextLost(partials, headline, ReducePlan(Gathered(partials), reducer))
  {
    PartialsWellFormed(partials, parts);
    PartialTopicsWellFormed(partials);
    NormalizedWellFormed(AllTopics(partials));
    MergedTopicsWellFormed(Gathered(partials), merged.topics, ReducePlan(Gathered(partials), reducer));
    MergedHeading(partials, Concatenated(partials), merged, headline);
    WellFormedByParts(partials, headline, merged, ReducePlan(Gathered(partials), reducer));
  }

  lemma WellFormedByParts(partials: seq<Option<Summary>>, headline: Option<Headline>, merged: Summary, plan: Plan)
    requires |merged.topics| == |plan.classes|
    requires merged.title != "" && merged.topics != [] && (merged.overview == "" <==> NoOverview(partials, headline))
    requires forall k ::
               0 <= k < |merged.topics| ==>
                 (WellFormedTopic(merged.topics[k]) <==> !LosesText(Gathered(partials), plan, k))
    ensures WellFormed(merged) <==> !TextLost(partials, headline, plan)
  {
  }

  lemma MergedHeading(partials: seq<Option<Summary>>, concatenated: Summary, merged: Summary,
                      headline: Option<Headline>)
    requires forall k :: 0 <= k < |partials| && partials[k].Some? ==> partials[k].value.title != ""
    requires exists k :: 0 <= k < |partials| && partials[k].Some?
    requires concatenated.title == FirstTitle(partials) && concatenated.overview == Spaced(Overviews(partials))
    requires merged.title ==
             if headline.Some? && !Blank(headline.value.title) then headline.value.title else concatenated.title
    requires merged.overview ==
             if headline.Some? && !Blank(headline.value.overview) then headline.value.overview
             else concatenated.overview
    ensures merged.title != ""
    ensures merged.overview == "" <==> NoOverview(partials, headline)
  {
    TitleFacts(partials);
    OverviewFacts(partials);
    SpacedFacts(Overviews(partials));
    BlankIff("");
  }

  lemma MergedTopicsWellFormed(before: seq<Topic>, merged: seq<Topic>, plan: Plan)
    requires Combines(before, merged, plan) && before != []
    requires forall i :: 0 <= i < |before| ==> WellFormedTopic(before[i])
    ensures merged != []
    ensures forall k :: 0 <= k < |merged| ==> (WellFormedTopic(merged[k]) <==> !LosesText(before, plan, k))
  {
    forall k | 0 <= k < |merged|
      ensures WellFormedTopic(merged[k]) <==> !LosesText(before, plan, k)
    {
      MergedTopicWellFormed(before, plan, merged[k], k);
    }
    assert 0 in Input(|before|);
  }

  lemma SpacedFacts(parts: seq<string>)
    requires forall k :: 0 <= k < |parts| ==> parts[k] != ""
    ensures Spaced(parts) == "" <==> parts == []
  {
  }

  // ----- when reducing can spoil batch results

  /** Some batch has an overview to fall back on. */
  ghost predicate SolidOverview(partials: seq<Option<Summary>>) {
    exists k :: 0 <= k < |partials| && partials[k].Some? && !Blank(partials[k].value.overview)
  }

  lemma NoOverviewWithoutHeadline(partials: seq<Option<Summary>>)
    ensures NoOverview(partials, None) <==> !SolidOverview(partials)
    ensures forall headline :: NoOverview(partials, headline) ==> !SolidOverview(partials)
  {
  }

  /**
   Batch results survive every way of merging their topics, and every headline, exactly
   if some overview is not blank and at most one full text is.
   */
  lemma TextSurvivesIff(partials: seq<Option<Summary>>)
    ensures (forall headline, plan: Plan ::
               plan.Partitions(|Gathered(partials)|) ==> !TextLost(partials, headline, plan))
       <==> SolidOverview(partials) && !TwoBlanks(Gathered(partials))
  {
    var topics := Gathered(partials);
    NoOverviewWithoutHeadline(partials);
    PlanPartitions([], |topics|);
    if !SolidOverview(partials) {
      assert TextLost(partials, None, PlanOf([], |topics|));
    }
    if TwoBlanks(topics) {
      var plan := TwoBlanksCanMerge(topics);
      assert TextLost(partials, None, plan);
    }
    forall plan: Plan | plan.Partitions(|topics|) && MergesBlanks(topics, plan)
      ensures TwoBlanks(topics)
    {
      OneBlankIsSafe(topics, plan);
    }
  }

  /** What one set of replies and one headline do to the batch results. */
  ghost predicate Spoiled(partials: seq<Option<Summary>>, headline: Option<Headline>, reducer: Reducer) {
    TextLost(partials, headline, ReducePlan(Gathered(partials), reducer))
  }

  /**
   With the safety check on proposed merges: no reply can spoil the results if some
   overview is not blank and no two topics with blank full texts have a concrete anchor
   in common.
   */
  lemma SolidTextIsKept(partials: seq<Option<Summary>>, headline: Option<Headline>, reducer: Reducer)
    requires SolidOverview(partials) && !AnchoredBlanks(Gathered(partials), reducer)
    ensures !Spoiled(partials, headline, reducer)
  {
    NoOverviewWithoutHeadline(partials);
    if MergesBlanks(Gathered(partials), ReducePlan(Gathered(partials), reducer)) {
      LossNeedsAnchor(Gathered(partials), reducer);
    }
  }

  /** If the topics fit one request, that condition is exact. */
  lemma RepliesSpoilIff(partials: seq<Option<Summary>>, reducer: Reducer)
    requires OneRequest(Gathered(partials), reducer)
    ensures (exists headline, reply: Replies :: Spoiled(partials, headline, reducer.(reply := reply)))
       <==> !SolidOverview(partials) || AnchoredBlanks(Gathered(partials), reducer)
  {
    NoOverviewWithoutHeadline(partials);
    if headline, reply: Replies :| Spoiled(partials, headline, reducer.(reply := reply)) {
      if SolidOverview(partials) && !AnchoredBlanks(Gathered(partials), reducer) {
        SameAnchors(Gathered(partials), reducer, reply);
        SolidTextIsKept(partials, headline, reducer.(reply := reply));
      }
    }
    if !SolidOverview(partials) {
      assert Spoiled(partials, None, reducer.(reply := reducer.reply));
    } else if AnchoredBlanks(Gathered(partials), reducer) {
      var reply := AnchoredBlanksLose(Gathered(partials), reducer);
      assert Spoiled(partials, None, reducer.(reply := reply));
    }
  }

  /** What the code's authors had in mind: if no reduce call succeeds, only missing overviews spoil the results. */
  lemma FailedRepliesKeepResults(partials: seq<Option<Summary>>, headline: Option<Headline>, reducer: Reducer)
    requires NoReply(reducer)
    ensures Spoiled(partials, headline, reducer) <==> NoOverview(partials, headline)
  {
    NoReplyMergesNothing(Gathered(partials), reducer);
  }

  // ----- the batches

  /** What becomes of a batch under every schedule: its answer moved to global indexes, or its last failure. */
  ghost function Fate(batch: Batch, attempts: seq<Attempt>): B.BatchOutcome<Summary, Reply>
    requires attempts != []
  {
    var answer := Answer(|batch.messages|, attempts);
    if answer.Some? then B.Produced(Remapped(answer.value, batch.globalIndexes))
    else B.Failed(LastTried(|batch.messages|, attempts))
  }

  predicate Asked(batches: seq<Batch>, attempts: seq<seq<Attempt>>) {
    |attempts| == |batches| && forall k :: 0 <= k < |attempts| ==> |attempts[k]| == RETRIES + 1
  }

  ghost function Fates(batches: seq<Batch>, attempts: seq<seq<Attempt>>): (r: seq<B.BatchOutcome<Summary, Reply>>)
    requires Asked(batches, attempts)
    ensures |r| == |batches|
    ensures forall k :: 0 <= k < |r| ==> r[k] == Fate(batches[k], attempts[k])
  {
    seq(|batches|, k requires 0 <= k < |batches| => Fate(batches[k], attempts[k]))
  }

  /** The results of the batches, and what they are returned as. */
  ghost function PartialsOf(batches: seq<Batch>, attempts: seq<seq<Attempt>>): (r: seq<Option<Summary>>)
    requires Asked(batches, attempts)
    ensures |r| == |batches|
  {
    B.ResultsOf(Fates(batches, attempts))
  }

  ghost function Returned(batches: seq<Batch>, attempts: seq<seq<Attempt>>): B.Returned<Summary, Reply>
    requires Asked(batches, attempts)
  {
    B.Collected(PartialsOf(batches, attempts), B.ErrorsOf(Fates(batches, attempts)))
  }

  /** Every batch asked, checked and moved to global indexes, then collected as after the wait. */
  method SummarizeBatches(batches: seq<Batch>, attempts: seq<seq<Attempt>>) returns (r: B.Returned<Summary, Reply>)
    requires Asked(batches, attempts)
    ensures r == Returned(batches, attempts)
  {
    var results: seq<Option<Summary>>, errs: seq<Option<Reply>> := [], [];
    for k := 0 to |batches|
      invariant |results| == |errs| == k
      invariant forall j :: 0 <= j < k ==> EndsAt(results, errs, batches, attempts, j)
    {
      var result, err := BatchResult(batches[k], attempts[k]);
      OneMoreEnds(results, errs, result, err, batches, attempts, k);
      results, errs := results + [result], errs + [err];
    }
    EndsAreReturned(batches, attempts, results, errs);
    r := B.Collect(results, errs);
  }

  lemma EndsAreReturned(batches: seq<Batch>, attempts: seq<seq<Attempt>>, results: seq<Option<Summary>>,
                        errs: seq<Option<Reply>>)
    requires Asked(batches, attempts) && |results| == |errs| == |batches|
    requires forall k :: 0 <= k < |batches| ==> EndsAt(results, errs, batches, attempts, k)
    ensures results == PartialsOf(batches, attempts) && errs == B.ErrorsOf(Fates(batches, attempts))
  {
    var fates := Fates(batches, attempts);
    forall k | 0 <= k < |batches|
      ensures results[k] == B.ResultsOf(fates)[k] && errs[k] == B.ErrorsOf(fates)[k]
    {
      assert EndsAt(results, errs, batches, attempts, k);
    }
  }

  ghost predicate EndsAt(results: seq<Option<Summary>>, errs: seq<Option<Reply>>, batches: seq<Batch>,
                         attempts: seq<seq<Attempt>>, k: nat)
    requires Asked(batches, attempts)
  {
    k < |results| && k < |errs| && k < |batches| && Ends(results[k], errs[k], Fate(batches[k], attempts[k]))
  }

  lemma OneMoreEnds(results: seq<Option<Summary>>, errs: seq<Option<Reply>>,
                    result: Option<Summary>, err: Option<Reply>,
                    batches: seq<Batch>, attempts: seq<seq<Attempt>>, k: nat)
    requires Asked(batches, attempts) && |results| == |errs| == k < |batches|
    requires forall j :: 0 <= j < k ==> EndsAt(results, errs, batches, attempts, j)
    requires Ends(result, err, Fate(batches[k], attempts[k]))
    ensures forall j :: 0 <= j < k + 1 ==> EndsAt(results + [result], errs + [err], batches, attempts, j)
  {
    forall j | 0 <= j < k
      ensures EndsAt(results + [result], errs + [err], batches, attempts, j)
    {
      assert EndsAt(results, errs, batches, attempts, j);
      assert (results + [result])[j] == results[j] && (errs + [err])[j] == errs[j];
    }
  }

  ghost predicate Ends(result: Option<Summary>, err: Option<Reply>, fate: B.BatchOutcome<Summary, Reply>) {
    match fate
    case Produced(s) => result == Some(s) && err == None
    case Failed(e) => result == None && err == Some(e)
  }

  method BatchResult(batch: Batch, attempts: seq<Attempt>) returns (r: Option<Summary>, err: Option<Reply>)
    requires |attempts| == RETRIES + 1
    ensures Ends(r, err, Fate(batch, attempts))
  {
    var result, lastErr := SummarizeBatch(|batch.messages|, attempts);
    if result.None? {
      return None, Some(lastErr);
    }
    RemapSourceIndexes(result.value, batch.globalIndexes);
    return Some(result.value.Value()), None;
  }

  /** The goroutines return the same, whatever their schedule. */
  lemma EveryScheduleReturns(batches: seq<Batch>, attempts: seq<seq<Attempt>>, ctxErr: Reply,
                             schedule: seq<B.Action>, s: B.State<Summary, Reply>)
    requires Asked(batches, attempts)
    requires B.Reaches(Fates(batches, attempts), ctxErr, schedule, s) && B.Finished(s) && B.Cancel !in schedule
    ensures |s.results| == |s.errs| && B.Collected(s.results, s.errs) == Returned(batches, attempts)
  {
    B.FinishedRunIsComplete(Fates(batches, attempts), ctxErr, schedule, s);
    B.ScheduleIndependent(Fates(batches, attempts), ctxErr, schedule, s);
  }

  /** Cancelled or not, what the goroutines leave is fit for merging. */
  lemma EveryScheduleFeedsMerging(batches: seq<Batch>, attempts: seq<seq<Attempt>>, ctxErr: Reply,
                                  schedule: seq<B.Action>, s: B.State<Summary, Reply>)
    requires Asked(batches, attempts)
    requires forall k :: 0 <= k < |batches| ==> |batches[k].messages| == |batches[k].globalIndexes| > 0
    requires B.Reaches(Fates(batches, attempts), ctxErr, schedule, s) && B.Finished(s)
    ensures FromBatches(s.results, GlobalIndexes(batches))
  {
    B.FinishedRunIsComplete(Fates(batches, attempts), ctxErr, schedule, s);
    forall k | 0 <= k < |batches|
      ensures FromBatch(s.results[k], GlobalIndexes(batches)[k])
    {
      if s.results[k].Some? {
        assert Fate(batches[k], attempts[k]) == B.Produced(s.results[k].value);
        FateFits(batches[k], attempts[k]);
      }
    }
  }

  lemma FateFits(batch: Batch, attempts: seq<Attempt>)
    requires |attempts| == RETRIES + 1 && |batch.messages| == |batch.globalIndexes| > 0
    requires Answer(|batch.messages|, attempts).Some?
    ensures FromBatch(Some(Remapped(Answer(|batch.messages|, attempts).value, batch.globalIndexes)),
                      batch.globalIndexes)
  {
    AnswerWellFormed(|batch.messages|, attempts);
  }

  lemma AnswerWellFormed(n: nat, attempts: seq<Attempt>)
    requires Answer(n, attempts).Some?
    ensures WellFormed(Answer(n, attempts).value) && (n == 0 || Covers(Answer(n, attempts).value, n))
  {
    AnswerIff(n, attempts);
    var k: nat :| AnsweredAt(n, attempts, k);
    AcceptedIsLast(n, attempts, k);
    LastMadeDecides(n, attempts, k);
    NormalizedWellFormed(attempts[k].reply.summary.topics);
  }

  /** The messages of the batches whose attempts brought no acceptable reply. */
  ghost function Unanswered(batches: seq<Batch>, attempts: seq<seq<Attempt>>): seq<int>
    requires |batches| == |attempts|
  {
    if batches == [] then []
    else
      var n := |batches| - 1;
      Unanswered(batches[..n], attempts[..n])
      + if Answer(|batches[n].messages|, attempts[n]).None? then batches[n].globalIndexes else []
  }

  /** A batch result is missing exactly when the batch was not answered. */
  ghost predicate Tells(partial: Option<Summary>, part: seq<nat>, batch: Batch, attempts: seq<Attempt>) {
    part == batch.globalIndexes && (partial.None? <==> Answer(|batch.messages|, attempts).None?)
  }

  lemma {:induction false} MissingIsUnanswered(partials: seq<Option<Summary>>, parts: seq<seq<nat>>,
                                               batches: seq<Batch>, attempts: seq<seq<Attempt>>)
    requires |partials| == |parts| == |batches| == |attempts|
    requires forall k :: 0 <= k < |batches| ==> Tells(partials[k], parts[k], batches[k], attempts[k])
    ensures FailedIndexes(parts, partials) == Unanswered(batches, attempts)
    decreases |batches|
  {
    if batches != [] {
      var n := |batches| - 1;
      MissingIsUnanswered(partials[..n], parts[..n], batches[..n], attempts[..n]);
      assert Tells(partials[n], parts[n], batches[n], attempts[n]);
    }
  }

  lemma FailedIsUnanswered(batches: seq<Batch>, attempts: seq<seq<Attempt>>)
    requires Asked(batches, attempts)
    ensures FailedIndexes(GlobalIndexes(batches), PartialsOf(batches, attempts)) == Unanswered(batches, attempts)
  {
    var partials, parts := PartialsOf(batches, attempts), GlobalIndexes(batches);
    forall k | 0 <= k < |batches|
      ensures Tells(partials[k], parts[k], batches[k], attempts[k])
    {
      assert Fates(batches, attempts)[k] == Fate(batches[k], attempts[k]);
    }
    MissingIsUnanswered(partials, parts, batches, attempts);
  }

  // ----- the condition over the answers themselves

  /** The topics of all answers, batch after batch. */
  ghost function AnsweredTopics(batches: seq<Batch>, attempts: seq<seq<Attempt>>): seq<Topic>
    requires |batches| == |attempts|
  {
    if batches == [] then []
    else
      var n := |batches| - 1;
      var answer := Answer(|batches[n].messages|, attempts[n]);
      AnsweredTopics(batches[..n], attempts[..n]) + if answer.Some? then answer.value.topics else []
  }

  ghost predicate AnsweredOverview(batches: seq<Batch>, attempts: seq<seq<Attempt>>)
    requires |batches| == |attempts|
  {
    exists k :: 0 <= k < |batches| && HasOverview(Answer(|batches[k].messages|, attempts[k]))
  }

  predicate HasOverview(answer: Option<Summary>) {
    answer.Some? && !Blank(answer.value.overview)
  }

  /** Moving and ordering source indexes leaves titles and texts alone. */
  predicate SameTexts(a: seq<Topic>, b: seq<Topic>) {
    |a| == |b| && forall i :: 0 <= i < |a| ==> a[i].title == b[i].title && a[i].fullSummary == b[i].fullSummary
  }

  lemma RemappedTexts(topics: seq<Topic>, part: seq<nat>)
    ensures SameTexts(RemappedTopics(topics, part), topics)
  {
    forall i | 0 <= i < |topics|
      ensures RemappedTopics(topics, part)[i] == RemappedTopic(topics[i], part)
    {
      RemappedTopicAt(topics, part, i);
    }
  }

  lemma NormalizedTexts(topics: seq<Topic>)
    ensures SameTexts(NormalizedTopics(topics), topics)
  {
    forall i | 0 <= i < |topics|
      ensures NormalizedTopics(topics)[i].title == topics[i].title
      ensures NormalizedTopics(topics)[i].fullSummary == topics[i].fullSummary
    {
      NormalizedTopicAt(topics, i);
    }
  }

  lemma SameTextsTransitive(a: seq<Topic>, b: seq<Topic>, c: seq<Topic>)
    requires SameTexts(a, b) && SameTexts(b, c)
    ensures SameTexts(a, c)
  {
  }

  lemma SameTextsConcat(a: seq<Topic>, b: seq<Topic>, c: seq<Topic>, d: seq<Topic>)
    requires SameTexts(a, b) && SameTexts(c, d)
    ensures SameTexts(a + c, b + d)
  {
  }

  lemma {:induction false} AllTexts(batches: seq<Batch>, attempts: seq<seq<Attempt>>)
    requires Asked(batches, attempts)
    ensures SameTexts(AllTopics(PartialsOf(batches, attempts)), AnsweredTopics(batches, attempts))
  {
    if batches != [] {
      var n := |batches| - 1;
      AllTexts(batches[..n], attempts[..n]);
      assert PartialsOf(batches, attempts)[..n] == PartialsOf(batches[..n], attempts[..n]);
      assert Fates(batches, attempts)[n] == Fate(batches[n], attempts[n]);
      var answer := Answer(|batches[n].messages|, attempts[n]);
      if answer.Some? {
        RemappedTexts(answer.value.topics, batches[n].globalIndexes);
        SameTextsConcat(AllTopics(PartialsOf(batches[..n], attempts[..n])), AnsweredTopics(batches[..n], attempts[..n]),
                        RemappedTopics(answer.value.topics, batches[n].globalIndexes), answer.value.topics);
      }
    }
  }

  lemma SameBlanks(a: seq<Topic>, b: seq<Topic>, reducer: Reducer)
    requires SameTexts(a, b)
    ensures AnchoredBlanks(a, reducer) ==> AnchoredBlanks(b, reducer)
    ensures TwoBlanks(a) ==> TwoBlanks(b)
  {
    if TwoBlanks(a) {
      var i, j :| i < j && BlankAt(a, i) && BlankAt(a, j);
      assert BlankAt(b, i) && BlankAt(b, j);
    }
    if AnchoredBlanks(a, reducer) {
      var i, j :| i < j && BlankAt(a, i) && BlankAt(a, j) && ShareAnchor(a[i], a[j], reducer);
      var shared :| BothName(a[i], a[j], shared, reducer);
      assert BothName(b[i], b[j], shared, reducer);
      assert BlankAt(b, i) && BlankAt(b, j) && ShareAnchor(b[i], b[j], reducer);
    }
  }

  /** The replies to the batches leave nothing that merging could lose. */
  ghost predicate Solid(batches: seq<Batch>, attempts: seq<seq<Attempt>>, reducer: Reducer)
    requires |batches| == |attempts|
  {
    AnsweredOverview(batches, attempts) && !AnchoredBlanks(AnsweredTopics(batches, attempts), reducer)
  }

  lemma OverviewIsKept(batches: seq<Batch>, attempts: seq<seq<Attempt>>)
    requires Asked(batches, attempts) && AnsweredOverview(batches, attempts)
    ensures SolidOverview(PartialsOf(batches, attempts))
  {
    var partials := PartialsOf(batches, attempts);
    var k :| 0 <= k < |batches| && HasOverview(Answer(|batches[k].messages|, attempts[k]));
    assert Fates(batches, attempts)[k] == Fate(batches[k], attempts[k]);
    assert partials[k].Some? && !Blank(partials[k].value.overview);
  }

  lemma SolidAnswersAreKept(batches: seq<Batch>, attempts: seq<seq<Attempt>>, headline: Option<Headline>,
                            reducer: Reducer)
    requires Asked(batches, attempts) && Solid(batches, attempts, reducer)
    ensures !Spoiled(PartialsOf(batches, attempts), headline, reducer)
  {
    var partials := PartialsOf(batches, attempts);
    OverviewIsKept(batches, attempts);
    AllTexts(batches, attempts);
    NormalizedTexts(AllTopics(partials));
    SameTextsTransitive(Gathered(partials), AllTopics(partials), AnsweredTopics(batches, attempts));
    SameBlanks(Gathered(partials), AnsweredTopics(batches, attempts), reducer);
    SolidTextIsKept(partials, headline, reducer);
  }

  // ----- the whole of Summarize

  /** One attempt at the batch brings an acceptable reply, and none before it ended the loop. */
  ghost predicate Answered(batch: Batch, attempts: seq<Attempt>) {
    Answer(|batch.messages|, attempts).Some?
  }

  ghost predicate AllAnswered(batches: seq<Batch>, attempts: seq<seq<Attempt>>)
    requires |batches| == |attempts|
  {
    forall k :: 0 <= k < |batches| ==> Answered(batches[k], attempts[k])
  }

  ghost predicate NoneAnswered(batches: seq<Batch>, attempts: seq<seq<Attempt>>)
    requires |batches| == |attempts|
  {
    forall k :: 0 <= k < |batches| ==> !Answered(batches[k], attempts[k])
  }

  /** The one answer as it is, or the merged answers. */
  ghost predicate Content(summary: Summary, batches: seq<Batch>, attempts: seq<seq<Attempt>>,
                          headline: Option<Headline>, reducer: Reducer)
    requires Asked(batches, attempts)
  {
    if |batches| == 1 then Answer(|batches[0].messages|, attempts[0]) == Some(summary)
    else batches != [] ==> MergedFrom(PartialsOf(batches, attempts), summary, headline, reducer)
  }

  /**
   A summary comes back only when every batch was answered, and then it covers the
   input; when every batch was answered and no text can be lost, one does come back. A
   coverage error names exactly the messages of the unanswered batches; a malformed
   summary is what replies that spoil the batch results lead to, which takes several
   batches and answers that are not solid; giving up means that no
   batch was answered, and reports the first batch's failure.
   */
  ghost predicate Promises(r: Outcome, n: nat, batches: seq<Batch>, attempts: seq<seq<Attempt>>,
                           headline: Option<Headline>, reducer: Reducer)
    requires Asked(batches, attempts)
  {
    && (batches != [] && AllAnswered(batches, attempts) && (|batches| == 1 || Solid(batches, attempts, reducer)) ==>
          r.Ok?)
    && (batches != [] && NoneAnswered(batches, attempts) ==> r.Err? && r.error.NoBatchSucceeded?)
    && (|batches| > 1 && !NoneAnswered(batches, attempts) ==>
          (r == Err(NotWellFormed) <==> Spoiled(PartialsOf(batches, attempts), headline, reducer)))
    && match r
       case Ok(summary) =>
         && AllAnswered(batches, attempts)
         && (n == 0 || Covers(summary, n))
         && Content(summary, batches, attempts, headline, reducer)
       case Err(NotCovered(error)) =>
         Unanswered(batches, attempts) != [] && error == Omitted(Unanswered(batches, attempts))
       case Err(NotWellFormed) => |batches| > 1 && !Solid(batches, attempts, reducer)
       case Err(NoBatchSucceeded(first)) =>
         && NoneAnswered(batches, attempts)
         && (batches != [] ==> first == Some(LastTried(|batches[0].messages|, attempts[0])))
  }

  lemma {:induction false} AllAnsweredIff(batches: seq<Batch>, attempts: seq<seq<Attempt>>)
    requires |batches| == |attempts| && forall k :: 0 <= k < |batches| ==> batches[k].globalIndexes != []
    ensures Unanswered(batches, attempts) == [] <==> AllAnswered(batches, attempts)
  {
    if batches != [] {
      var n := |batches| - 1;
      AllAnsweredIff(batches[..n], attempts[..n]);
      AllAnsweredStep(batches, attempts, n);
    }
  }

  lemma AllAnsweredStep(batches: seq<Batch>, attempts: seq<seq<Attempt>>, n: nat)
    requires |batches| == |attempts| == n + 1
    ensures AllAnswered(batches, attempts) <==>
            AllAnswered(batches[..n], attempts[..n]) && Answered(batches[n], attempts[n])
  {
    forall k | 0 <= k < n
      ensures Answered(batches[..n][k], attempts[..n][k]) <==> Answered(batches[k], attempts[k])
    {
      SameAtPrefix(batches, n, k);
      SameAtPrefix(attempts, n, k);
    }
  }

  lemma SameAtPrefix<T>(s: seq<T>, n: nat, k: nat)
    requires k < n <= |s|
    ensures s[..n][k] == s[k]
  {
  }

  /** What a batch leaves in the two lists. */
  ghost predicate Settled(result: Option<Summary>, err: Option<Reply>, batch: Batch, attempts: seq<Attempt>)
    requires attempts != []
  {
    && (result.Some? <==> Answered(batch, attempts))
    && err == if Answered(batch, attempts) then None else Some(LastTried(|batch.messages|, attempts))
  }

  lemma BatchSettled(batches: seq<Batch>, attempts: seq<seq<Attempt>>, k: nat)
    requires Asked(batches, attempts) && k < |batches|
    ensures Settled(PartialsOf(batches, attempts)[k], B.ErrorsOf(Fates(batches, attempts))[k], batches[k], attempts[k])
  {
    assert Fates(batches, attempts)[k] == Fate(batches[k], attempts[k]);
  }

  /** How the collected batch results relate to the answers. */
  lemma ReturnedFacts(batches: seq<Batch>, attempts: seq<seq<Attempt>>)
    requires Asked(batches, attempts)
    ensures match Returned(batches, attempts)
            case AllFailed(first) =>
              && NoneAnswered(batches, attempts)
              && (batches != [] ==> first == Some(LastTried(|batches[0].messages|, attempts[0])))
            case Partials(results) =>
              results == PartialsOf(batches, attempts) && exists k :: 0 <= k < |results| && results[k].Some?
  {
    var results, errs := PartialsOf(batches, attempts), B.ErrorsOf(Fates(batches, attempts));
    forall k | 0 <= k < |batches|
      ensures results[k].Some? <==> Answered(batches[k], attempts[k])
      ensures errs[k].Some? <==> results[k].None?
    {
      BatchSettled(batches, attempts, k);
    }
    if batches != [] {
      BatchSettled(batches, attempts, 0);
    }
  }

  method SummarizeInBatches(messages: seq<MessageInput>, batches: seq<Batch>, attempts: seq<seq<Attempt>>,
                            reducer: Reducer, headline: Option<Headline>)
    returns (r: Outcome)
    requires IsSplit(batches, messages, MAX_BATCH_CONTENT_BYTES) && Asked(batches, attempts) && |batches| > 1
    ensures Promises(r, |messages|, batches, attempts, headline, reducer)
  {
    var returned := SummarizeBatches(batches, attempts);
    ReturnedFacts(batches, attempts);
    if returned.AllFailed? {
      return Err(NoBatchSucceeded(returned.error));
    }
    r := MergeSummaries(returned.results, |messages|, reducer, headline);
    MergedPromises(r, messages, batches, attempts, reducer, headline);
  }

  lemma SplitHolds(batches: seq<Batch>, messages: seq<MessageInput>, max: nat, k: nat)
    requires IsSplit(batches, messages, max) && k < |batches|
    ensures |batches[k].messages| == |batches[k].globalIndexes| > 0
  {
    assert Holds(batches[k], messages, max) && GlobalIndexes(batches)[k] != [];
  }

  lemma PartialsAreResults(messages: seq<MessageInput>, batches: seq<Batch>, attempts: seq<seq<Attempt>>, max: nat)
    requires IsSplit(batches, messages, max) && Asked(batches, attempts)
    requires exists k :: 0 <= k < |batches| && PartialsOf(batches, attempts)[k].Some?
    ensures PartialResults(PartialsOf(batches, attempts), GlobalIndexes(batches), |messages|)
  {
    var partials := PartialsOf(batches, attempts);
    forall k | 0 <= k < |batches|
      ensures FromBatch(partials[k], GlobalIndexes(batches)[k])
    {
      SplitHolds(batches, messages, max, k);
      PartialFits(batches, attempts, k);
    }
  }

  lemma PartialFits(batches: seq<Batch>, attempts: seq<seq<Attempt>>, k: nat)
    requires Asked(batches, attempts) && k < |batches| && |batches[k].messages| == |batches[k].globalIndexes| > 0
    ensures FromBatch(PartialsOf(batches, attempts)[k], batches[k].globalIndexes)
  {
    assert Fates(batches, attempts)[k] == Fate(batches[k], attempts[k]);
    if PartialsOf(batches, attempts)[k].Some? {
      FateFits(batches[k], attempts[k]);
    }
  }

  lemma MergedPromises(r: Outcome, messages: seq<MessageInput>, batches: seq<Batch>, attempts: seq<seq<Attempt>>,
                       reducer: Reducer, headline: Option<Headline>)
    requires IsSplit(batches, messages, MAX_BATCH_CONTENT_BYTES) && Asked(batches, attempts) && |batches| > 1
    requires exists k :: 0 <= k < |batches| && PartialsOf(batches, attempts)[k].Some?
    requires r.Ok? ==>
               && MergedFrom(PartialsOf(batches, attempts), r.summary, headline, reducer)
               && (|messages| == 0 || Covers(r.summary, |messages|))
    requires forall parts :: PartialResults(PartialsOf(batches, attempts), parts, |messages|) ==>
               Decides(r, PartialsOf(batches, attempts), parts, headline, reducer)
    ensures Promises(r, |messages|, batches, attempts, headline, reducer)
  {
    PartialsAreResults(messages, batches, attempts, MAX_BATCH_CONTENT_BYTES);
    assert Decides(r, PartialsOf(batches, attempts), GlobalIndexes(batches), headline, reducer);
    FailedIsUnanswered(batches, attempts);
    SomeAnswered(batches, attempts);
    UnansweredInSplit(batches, messages, attempts);
    if Solid(batches, attempts, reducer) {
      SolidAnswersAreKept(batches, attempts, headline, reducer);
    }
    DecidedPromises(r, |messages|, batches, attempts, reducer, headline);
  }

  lemma SomeAnswered(batches: seq<Batch>, attempts: seq<seq<Attempt>>)
    requires Asked(batches, attempts) && exists k :: 0 <= k < |batches| && PartialsOf(batches, attempts)[k].Some?
    ensures !NoneAnswered(batches, attempts)
  {
    var k :| 0 <= k < |batches| && PartialsOf(batches, attempts)[k].Some?;
    BatchSettled(batches, attempts, k);
  }

  lemma UnansweredInSplit(batches: seq<Batch>, messages: seq<MessageInput>, attempts: seq<seq<Attempt>>)
    requires IsSplit(batches, messages, MAX_BATCH_CONTENT_BYTES) && |batches| == |attempts|
    ensures Unanswered(batches, attempts) == [] <==> AllAnswered(batches, attempts)
  {
    forall k | 0 <= k < |batches|
      ensures batches[k].globalIndexes != []
    {
      SplitHolds(batches, messages, MAX_BATCH_CONTENT_BYTES, k);
    }
    AllAnsweredIff(batches, attempts);
  }

  /** Spoiled, incomplete or fine: the three ways merging ends. */
  lemma DecidedPromises(r: Outcome, n: nat, batches: seq<Batch>, attempts: seq<seq<Attempt>>, reducer: Reducer,
                        headline: Option<Headline>)
    requires Asked(batches, attempts) && |batches| > 1 && !NoneAnswered(batches, attempts)
    requires Unanswered(batches, attempts) == [] <==> AllAnswered(batches, attempts)
    requires Solid(batches, attempts, reducer) ==> !Spoiled(PartialsOf(batches, attempts), headline, reducer)
    requires r.Ok? ==>
               && MergedFrom(PartialsOf(batches, attempts), r.summary, headline, reducer)
               && (n == 0 || Covers(r.summary, n))
    requires if Spoiled(PartialsOf(batches, attempts), headline, reducer) then r == Err(NotWellFormed)
             else if Unanswered(batches, attempts) != [] then
               r == Err(NotCovered(Omitted(Unanswered(batches, attempts))))
             else r.Ok?
    ensures Promises(r, n, batches, attempts, headline, reducer)
  {
  }

  lemma OneBatchHoldsAll(batches: seq<Batch>, messages: seq<MessageInput>)
    requires IsSplit(batches, messages, MAX_BATCH_CONTENT_BYTES) && |batches| == 1
    ensures |batches[0].messages| == |messages|
  {
    var part := GlobalIndexes(batches)[0];
    assert GlobalIndexes(batches) == [] + [part];
    FlattenSnoc([], part);
    assert Holds(batches[0], messages, MAX_BATCH_CONTENT_BYTES);
  }

  /** A collection that fits one batch is summarised as it is. */
  method SummarizeWhole(messages: seq<MessageInput>, attempts: seq<Attempt>) returns (r: Outcome)
    requires |attempts| == RETRIES + 1
    ensures r.Ok? ==>
              Answer(|messages|, attempts) == Some(r.summary) && (|messages| == 0 || Covers(r.summary, |messages|))
    ensures r.Err? ==>
              r == Err(NoBatchSucceeded(Some(LastTried(|messages|, attempts)))) && Answer(|messages|, attempts).None?
  {
    var single, lastErr := SummarizeBatch(|messages|, attempts);
    if single.None? {
      return Err(NoBatchSucceeded(Some(lastErr)));
    }
    return Ok(single.value.Value());
  }

  lemma WholePromises(r: Outcome, messages: seq<MessageInput>, batches: seq<Batch>, attempts: seq<seq<Attempt>>,
                      headline: Option<Headline>, reducer: Reducer)
    requires IsSplit(batches, messages, MAX_BATCH_CONTENT_BYTES) && |batches| <= 1 && |batches| <= |attempts|
    requires attempts != [] && |attempts[0]| == RETRIES + 1
    requires Asked(batches, attempts[..|batches|])
    requires r.Ok? ==>
               Answer(|messages|, attempts[0]) == Some(r.summary) && (|messages| == 0 || Covers(r.summary, |messages|))
    requires r.Err? ==>
               && r == Err(NoBatchSucceeded(Some(LastTried(|messages|, attempts[0]))))
               && Answer(|messages|, attempts[0]).None?
    ensures Promises(r, |messages|, batches, attempts[..|batches|], headline, reducer)
  {
    if |batches| == 1 {
      OneBatchHoldsAll(batches, messages);
    }
    PromisesOfOne(r, |messages|, batches, attempts[..|batches|], attempts[0], headline, reducer);
  }

  lemma PromisesOfOne(r: Outcome, n: nat, batches: seq<Batch>, tried: seq<seq<Attempt>>, attempts: seq<Attempt>,
                      headline: Option<Headline>, reducer: Reducer)
    requires |batches| <= 1 && Asked(batches, tried) && attempts != []
    requires |batches| == 1 ==> |batches[0].messages| == n && tried[0] == attempts
    requires r.Ok? ==> Answer(n, attempts) == Some(r.summary) && (n == 0 || Covers(r.summary, n))
    requires r.Err? ==> r == Err(NoBatchSucceeded(Some(LastTried(n, attempts)))) && Answer(n, attempts).None?
    ensures Promises(r, n, batches, tried, headline, reducer)
  {
    if |batches| == 1 {
      assert Answered(batches[0], tried[0]) <==> r.Ok?;
    }
  }

  /** For every input, every split and every reply of the model. */
  method Summarize(messages: seq<MessageInput>, attempts: seq<seq<Attempt>>, reducer: Reducer,
                   headline: Option<Headline>)
    returns (r: Outcome, ghost batches: seq<Batch>)
    requires |attempts| > |messages| && forall k :: 0 <= k < |attempts| ==> |attempts[k]| == RETRIES + 1
    ensures IsSplit(batches, messages, MAX_BATCH_CONTENT_BYTES) && |batches| <= |attempts|
    ensures Asked(batches, attempts[..|batches|])
    ensures Promises(r, |messages|, batches, attempts[..|batches|], headline, reducer)
    ensures r.Ok? && messages != [] ==> Covers(r.summary, |messages|)
  {
    var cut := SplitSummaryMessages(messages, MAX_BATCH_CONTENT_BYTES);
    batches := cut;
    NoMoreBatchesThanMessages(cut, messages, MAX_BATCH_CONTENT_BYTES);
    AskedFirst(cut, attempts);
    if |cut| <= 1 {
      r := SummarizeWhole(messages, attempts[0]);
      WholePromises(r, messages, cut, attempts, headline, reducer);
    } else {
      r := SummarizeInBatches(messages, cut, attempts[..|cut|], reducer, headline);
    }
  }

  lemma AskedFirst(batches: seq<Batch>, attempts: seq<seq<Attempt>>)
    requires |batches| <= |attempts| && forall k :: 0 <= k < |attempts| ==> |attempts[k]| == RETRIES + 1
    ensures Asked(batches, attempts[..|batches|])
  {
  }

  lemma NoMoreBatchesThanMessages(batches: seq<Batch>, messages: seq<MessageInput>, max: nat)
    requires IsSplit(batches, messages, max)
    ensures |batches| <= |messages|
  {
    NonemptyParts(GlobalIndexes(batches));
  }

  lemma {:induction false} NonemptyParts(parts: seq<seq<nat>>)
    requires forall k :: 0 <= k < |parts| ==> parts[k] != []
    ensures |parts| <= |Flatten(parts)|
  {
    if parts != [] {
      NonemptyParts(parts[1..]);
    }
  }
}
