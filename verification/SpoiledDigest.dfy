/**
 Usable batch results that one reply makes unusable: two batches of one message, both
 answered and checked, whose topics name the same thing and have full texts of white space.
 */
module SpoiledDigest {
  import opened Anchors
  import opened Batching
  import opened Coverage
  import opened Indexes
  import opened MapReduce
  import opened Packing
  import opened Sequences
  import opened Summaries
  import opened Text
  import opened TextLoss
  import opened TopicMerge

  /** What the model replied about the one message of each batch. */
  datatype Story = Story(title: string, overview: string, first: Topic, second: Topic, anchor: string) {

    function Item(k: nat): Topic {
      if k == 0 then first else second
    }

    function Local(k: nat): Summary {
      Summary(title, overview, [Item(k)], [])
    }

    /** The topic on the message's index in the whole input. */
    function Moved(k: nat): Topic {
      Item(k).(sourceIndexes := [k])
    }

    function Global(k: nat): Summary {
      Summary(title, overview, [Moved(k)], [])
    }

    function Partials(): seq<Option<Summary>> {
      [Some(Global(0)), Some(Global(1))]
    }

    /** Both replies pass every check. */
    ghost predicate Usable() {
      && title != "" && !Blank(overview)
      && WellFormedTopic(first) && first.sourceIndexes == [0]
      && WellFormedTopic(second) && second.sourceIndexes == [0]
    }

    function Merge(): TopicMerge {
      TopicMerge([0, 1], anchor, "", "")
    }

    /** Neither topic has a text, a concrete anchor is in both titles, and they fit one request. */
    ghost predicate Spoilable(reducer: Reducer) {
      && Blank(first.fullSummary) && Blank(second.fullSummary) && BothName(first, second, anchor, reducer)
      && reducer.descriptorSize(0, Moved(0)) + reducer.descriptorSize(1, Moved(1)) + 2 <= MAX_REDUCE_CONTENT_BYTES
    }
  }

  /** Both replies are usable, and one more merges their topics. */
  ghost predicate Staged(story: Story, reducer: Reducer) {
    story.Usable() && story.Spoilable(reducer) && reducer.reply == Answering([story.Merge()])
  }

  function Part(k: nat): seq<nat> {
    [k]
  }

  function Parts(): seq<seq<nat>> {
    [Part(0), Part(1)]
  }

  lemma SamePair<T>(a: seq<T>, b: seq<T>)
    requires |a| == |b| == 2 && a[0] == b[0] && a[1] == b[1]
    ensures a == b
  {
  }

  // ----- both batch results are usable

  lemma RemappedOne(topic: Topic, part: seq<nat>)
    ensures RemappedTopics([topic], part) == [RemappedTopic(topic, part)]
  {
    var topics: seq<Topic> := [topic];
    assert topics[..0] == [];
  }

  lemma MappedOne(part: seq<nat>)
    requires |part| == 1
    ensures UniqueSorted(MapIndexes([0], part)) == [part[0]]
  {
    var locals: seq<int> := [0];
    assert locals[..0] == [];
    UniqueSortedOfAscending([part[0]]);
  }

  lemma LocalIsMoved(story: Story, k: nat)
    requires story.Usable()
    ensures Remapped(story.Local(k), Part(k)) == story.Global(k)
  {
    RemappedOne(story.Item(k), Part(k));
    MappedOne(Part(k));
  }

  lemma UsedOne(topic: Topic)
    ensures Used([topic]) == Elements(topic.sourceIndexes)
  {
    var topics: seq<Topic> := [topic];
    assert topics[..0] == [];
  }

  lemma LocalIsCovering(story: Story, k: nat)
    requires story.Usable()
    ensures WellFormed(story.Local(k)) && Covers(story.Local(k), 1)
  {
    UsedOne(story.Item(k));
    BlankIff("");
  }

  lemma FromTheBatch(story: Story, k: nat)
    requires story.Usable()
    ensures FromBatch(Some(story.Global(k)), Part(k))
  {
    LocalIsMoved(story, k);
    LocalIsCovering(story, k);
  }

  lemma TwoParts(a: seq<nat>, b: seq<nat>)
    ensures Flatten([a, b]) == a + b
  {
    var none: seq<seq<nat>> := [];
    assert none + [a] == [a] && [a] + [b] == [a, b];
    FlattenSnoc(none, a);
    FlattenSnoc([a], b);
  }

  lemma PartsAreAll()
    ensures Flatten(Parts()) == Range(2)
  {
    TwoParts(Part(0), Part(1));
    SamePair(Part(0) + Part(1), Range(2));
  }

  lemma PartialsAreUsable(story: Story)
    requires story.Usable()
    ensures PartialResults(story.Partials(), Parts(), 2) && SolidOverview(story.Partials())
  {
    FromTheBatch(story, 0);
    FromTheBatch(story, 1);
    PartsAreAll();
    assert story.Partials()[0].Some?;
  }

  lemma NoneFailed(a: Summary, b: Summary, parts: seq<seq<nat>>)
    requires |parts| == 2
    ensures FailedIndexes(parts, [Some(a), Some(b)]) == []
  {
    var one: seq<Option<Summary>>, two: seq<Option<Summary>> := [Some(a)], [Some(a), Some(b)];
    assert two[..1] == one && one[..0] == [];
    assert FailedIndexes(parts[..1], one) == [];
  }

  // ----- one reply spoils them

  lemma TopicsOfTwo(a: Summary, b: Summary)
    ensures AllTopics([Some(a), Some(b)]) == a.topics + b.topics
  {
    var one: seq<Option<Summary>>, two: seq<Option<Summary>> := [Some(a)], [Some(a), Some(b)];
    assert two[..1] == one && one[..0] == [];
    assert AllTopics(one) == a.topics;
  }

  lemma NormalizedTwo(a: Topic, b: Topic)
    requires Ascending(a.sourceIndexes) && Ascending(b.sourceIndexes)
    ensures NormalizedTopics([a, b]) == [a, b]
  {
    var two: seq<Topic> := [a, b];
    assert two[..1] == [a] && two[..1][..0] == [];
    UniqueSortedOfAscending(a.sourceIndexes);
    UniqueSortedOfAscending(b.sourceIndexes);
  }

  lemma GatheredTopics(story: Story)
    ensures Gathered(story.Partials()) == [story.Moved(0), story.Moved(1)]
  {
    TopicsOfTwo(story.Global(0), story.Global(1));
    assert AllTopics(story.Partials()) == [story.Moved(0), story.Moved(1)];
    NormalizedTwo(story.Moved(0), story.Moved(1));
  }

  lemma TwoFit(topics: seq<Topic>, reducer: Reducer)
    requires |topics| == 2
    requires reducer.descriptorSize(0, topics[0]) + reducer.descriptorSize(1, topics[1]) + 2 <= MAX_REDUCE_CONTENT_BYTES
    ensures OneRequest(topics, reducer)
  {
    WeightOfTwo(DescriptorSizes(topics, reducer));
  }

  lemma PairSpoils(topics: seq<Topic>, reducer: Reducer, merge: TopicMerge)
    requires |topics| == 2 && BlankAt(topics, 0) && BlankAt(topics, 1)
    requires BothName(topics[0], topics[1], merge.sharedAnchor, reducer)
    requires merge.topicIndexes == [0, 1] && OneRequest(topics, reducer) && reducer.reply == Answering([merge])
    ensures Loses(topics, reducer)
  {
    PairIsMerged(topics, reducer, 0, 1, merge);
    BlankPairLoses(topics, 0, 1, merge);
    assert reducer.(reply := Answering([merge])) == reducer;
  }

  lemma OneReplySpoils(story: Story, reducer: Reducer)
    requires story.Spoilable(reducer) && reducer.reply == Answering([story.Merge()])
    ensures Spoiled(story.Partials(), None, reducer)
  {
    var topics: seq<Topic> := [story.Moved(0), story.Moved(1)];
    GatheredTopics(story);
    TwoFit(topics, reducer);
    assert BothName(topics[0], topics[1], story.anchor, reducer);
    PairSpoils(topics, reducer, story.Merge());
  }

  /** The batch results are usable, one reply merges their topics, and no digest is left. */
  method UsableResultsAreSpoiled(story: Story, reducer: Reducer) returns (r: Outcome)
    requires Staged(story, reducer)
    ensures PartialResults(story.Partials(), Parts(), 2) && FailedIndexes(Parts(), story.Partials()) == []
    ensures r == Err(NotWellFormed)
  {
    PartialsAreUsable(story);
    NoneFailed(story.Global(0), story.Global(1), Parts());
    OneReplySpoils(story, reducer);
    r := MergeSummaries(story.Partials(), 2, reducer, None);
    assert Decides(r, story.Partials(), Parts(), None, reducer);
  }

  // ----- the same through the whole of Summarize

  lemma LocalIsTheAnswer(story: Story, k: nat, attempts: seq<Attempt>)
    requires story.Usable() && attempts != [] && attempts[0].reply == Parsed(story.Local(k))
    ensures Answer(1, attempts) == Some(story.Local(k))
  {
    LocalIsCovering(story, k);
    LocalIsNormal(story, k);
  }

  lemma LocalIsNormal(story: Story, k: nat)
    requires story.Usable()
    ensures Normalized(story.Local(k)) == story.Local(k)
  {
    var topics: seq<Topic> := [story.Item(k)];
    assert topics[..0] == [];
    UniqueSortedOfAscending([0]);
    assert NormalizedTopics(topics) == topics;
    assert NormalizedExcluded([]) == [];
  }

  lemma TwoNonempty(parts: seq<seq<nat>>)
    requires |parts| == 2 && parts[0] != [] && parts[1] != [] && Flatten(parts) == Range(2)
    ensures parts == Parts()
  {
    assert parts == [parts[0], parts[1]];
    TwoParts(parts[0], parts[1]);
    var a, b := parts[0], parts[1];
    assert |a + b| == 2 && |a| == 1 && |b| == 1;
    assert (a + b)[0] == a[0] && (a + b)[1] == b[0];
    assert a == Part(0) && b == Part(1);
  }

  lemma SplitIsThis(messages: seq<MessageInput>, batches: seq<Batch>)
    requires IsSplit(batches, messages, MAX_BATCH_CONTENT_BYTES) && |messages| == |batches| == 2
    ensures forall k :: 0 <= k < 2 ==> batches[k].globalIndexes == Part(k) && |batches[k].messages| == 1
  {
    var parts := GlobalIndexes(batches);
    TwoNonempty(parts);
    forall k | 0 <= k < 2
      ensures parts[k] == batches[k].globalIndexes && |batches[k].messages| == 1
    {
      SplitHolds(batches, messages, MAX_BATCH_CONTENT_BYTES, k);
    }
  }

  lemma ThisPartial(story: Story, k: nat, batches: seq<Batch>, attempts: seq<seq<Attempt>>)
    requires k < 2 && |batches| == 2 && Asked(batches, attempts) && story.Usable()
    requires batches[k].globalIndexes == Part(k) && |batches[k].messages| == 1
    requires attempts[k][0].reply == Parsed(story.Local(k))
    ensures Answered(batches[k], attempts[k]) && PartialsOf(batches, attempts)[k] == Some(story.Global(k))
  {
    LocalIsTheAnswer(story, k, attempts[k]);
    LocalIsMoved(story, k);
    assert Fates(batches, attempts)[k] == Fate(batches[k], attempts[k]);
  }

  lemma PartialsAreThese(story: Story, messages: seq<MessageInput>, batches: seq<Batch>, attempts: seq<seq<Attempt>>)
    requires IsSplit(batches, messages, MAX_BATCH_CONTENT_BYTES) && |messages| == |batches| == 2
    requires Asked(batches, attempts) && story.Usable()
    requires attempts[0][0].reply == Parsed(story.Local(0)) && attempts[1][0].reply == Parsed(story.Local(1))
    ensures PartialsOf(batches, attempts) == story.Partials() && AllAnswered(batches, attempts)
  {
    SplitIsThis(messages, batches);
    ThisPartial(story, 0, batches, attempts);
    ThisPartial(story, 1, batches, attempts);
    BothAnswered(batches, attempts);
    BothPartials(PartialsOf(batches, attempts), story.Global(0), story.Global(1));
  }

  lemma BothAnswered(batches: seq<Batch>, attempts: seq<seq<Attempt>>)
    requires |batches| == |attempts| == 2 && Answered(batches[0], attempts[0]) && Answered(batches[1], attempts[1])
    ensures AllAnswered(batches, attempts)
  {
    forall k | 0 <= k < 2
      ensures Answered(batches[k], attempts[k])
    {
      if k == 1 {
      } else {
        assert k == 0;
      }
    }
  }

  lemma BothPartials(partials: seq<Option<Summary>>, a: Summary, b: Summary)
    requires |partials| == 2 && partials[0] == Some(a) && partials[1] == Some(b)
    ensures partials == [Some(a), Some(b)]
  {
  }

  lemma DigestIsLost(story: Story, messages: seq<MessageInput>, batches: seq<Batch>, attempts: seq<seq<Attempt>>,
                     reducer: Reducer, r: Outcome)
    requires IsSplit(batches, messages, MAX_BATCH_CONTENT_BYTES) && |messages| == |batches| == 2
    requires Asked(batches, attempts)
    requires attempts[0][0].reply == Parsed(story.Local(0)) && attempts[1][0].reply == Parsed(story.Local(1))
    requires Staged(story, reducer)
    requires Promises(r, 2, batches, attempts, None, reducer)
    ensures AllAnswered(batches, attempts) && r == Err(NotWellFormed)
  {
    PartialsAreThese(story, messages, batches, attempts);
    OneReplySpoils(story, reducer);
    assert Answered(batches[0], attempts[0]);
  }

  /** Each of the two batches gets its part of the story as first reply. */
  ghost predicate Told(story: Story, attempts: seq<seq<Attempt>>) {
    && |attempts| == 3 && (forall k :: 0 <= k < 3 ==> |attempts[k]| == RETRIES + 1)
    && attempts[0][0].reply == Parsed(story.Local(0)) && attempts[1][0].reply == Parsed(story.Local(1))
  }

  lemma TakeTwo<T>(s: seq<T>)
    requires |s| == 3
    ensures |s[..2]| == 2 && s[..2][0] == s[0] && s[..2][1] == s[1]
  {
  }

  /** Every batch was answered, and there is no digest. */
  ghost predicate Lost(r: Outcome, batches: seq<Batch>, attempts: seq<seq<Attempt>>) {
    |batches| == |attempts| && AllAnswered(batches, attempts) && r == Err(NotWellFormed)
  }

  lemma ToldDigestIsLost(story: Story, messages: seq<MessageInput>, batches: seq<Batch>, attempts: seq<seq<Attempt>>,
                         reducer: Reducer, r: Outcome)
    requires |messages| == 2 && |batches| <= |attempts|
    ensures
      (&& IsSplit(batches, messages, MAX_BATCH_CONTENT_BYTES) && Told(story, attempts) && Staged(story, reducer)
       && Asked(batches, attempts[..|batches|])
       && Promises(r, |messages|, batches, attempts[..|batches|], None, reducer)
       && |batches| == 2) ==> Lost(r, batches, attempts[..|batches|])
  {
    if IsSplit(batches, messages, MAX_BATCH_CONTENT_BYTES)
      && Told(story, attempts) && Staged(story, reducer) && |batches| == 2 {
      TakeTwo(attempts);
      if Asked(batches, attempts[..2]) && Promises(r, 2, batches, attempts[..2], None, reducer) {
        DigestIsLost(story, messages, batches, attempts[..2], reducer, r);
      }
    }
  }

  /** Cut to size, the two messages still do not fit one batch. */
  predicate TooLong(messages: seq<MessageInput>) {
    && |messages| == 2
    && Size(Limited(messages[0], MAX_BATCH_CONTENT_BYTES)) + Size(Limited(messages[1], MAX_BATCH_CONTENT_BYTES)) >
       MAX_BATCH_CONTENT_BYTES
  }

  lemma WeightOfTwo(sizes: seq<nat>)
    requires |sizes| == 2
    ensures Weight(sizes, Range(2)) == sizes[0] + sizes[1]
  {
    var both := Range(2);
    assert both[1..] == [1] && both[0] == 0;
    assert Weight(sizes, both[1..]) == sizes[1] + Weight(sizes, both[1..][1..]);
  }

  lemma TwoBatches(messages: seq<MessageInput>, batches: seq<Batch>)
    requires IsSplit(batches, messages, MAX_BATCH_CONTENT_BYTES)
    ensures TooLong(messages) ==> |batches| == 2
  {
    if TooLong(messages) {
      NoMoreBatchesThanMessages(batches, messages, MAX_BATCH_CONTENT_BYTES);
      WeightOfTwo(Sizes(messages, MAX_BATCH_CONTENT_BYTES));
      if |batches| == 1 {
        OnePart(GlobalIndexes(batches));
      }
    }
  }

  lemma OnePart(parts: seq<seq<nat>>)
    requires |parts| == 1
    ensures Flatten(parts) == parts[0]
  {
    var none: seq<seq<nat>> := [];
    assert parts == none + [parts[0]];
    FlattenSnoc(none, parts[0]);
  }

  /** Two messages that take two batches, both answered: the digest is lost all the same. */
  method AnsweredDigestIsLost(story: Story, messages: seq<MessageInput>, attempts: seq<seq<Attempt>>, reducer: Reducer)
    returns (r: Outcome, ghost batches: seq<Batch>)
    requires |messages| == 2 && Told(story, attempts) && Staged(story, reducer)
    ensures IsSplit(batches, messages, MAX_BATCH_CONTENT_BYTES) && |batches| <= |attempts|
    ensures |batches| == 2 ==> Lost(r, batches, attempts[..|batches|])
    ensures TooLong(messages) ==> |batches| == 2
    ensures TooLong(messages) ==> r == Err(NotWellFormed)
  {
    r, batches := Summarize(messages, attempts, reducer, None);
    ToldDigestIsLost(story, messages, batches, attempts, reducer, r);
    TwoBatches(messages, batches);
  }

  // ----- such a story

  const ANCHOR: string := "chatgpt"

  function Example(): Story {
    Story("digest", "overview",
          Topic("chatgpt pro", "ai", "short", " ", "", "high", 5, [0]),
          Topic("chatgpt edu", "ai", "short", " ", "", "high", 5, [0]), ANCHOR)
  }

  /** Lower case stays as it is, Latin letters are letters, and the two short descriptors fit a request. */
  ghost predicate Ordinary(reducer: Reducer) {
    && reducer.lower(ANCHOR) == ANCHOR
    && reducer.lower("chatgpt pro") == "chatgpt pro" && reducer.lower("chatgpt edu") == "chatgpt edu"
    && (forall c :: c in ANCHOR ==> reducer.wordRune(c))
    && reducer.descriptorSize(0, Example().Moved(0)) + reducer.descriptorSize(1, Example().Moved(1)) + 2 <=
       MAX_REDUCE_CONTENT_BYTES
  }

  lemma AnchorIsConcrete(reducer: Reducer)
    requires Ordinary(reducer)
    ensures Concrete(ANCHOR, reducer.wordRune)
  {
    OneWord(ANCHOR, reducer.wordRune);
    LatinIsNotGeneric(ANCHOR);
    assert Words(ANCHOR, reducer.wordRune)[0] == ANCHOR;
  }

  lemma TitlesHoldAnchor()
    ensures Contains("chatgpt pro", ANCHOR) && Contains("chatgpt edu", ANCHOR)
  {
    assert At("chatgpt pro", 0, ANCHOR) && At("chatgpt edu", 0, ANCHOR);
  }

  lemma ExampleIsUsable()
    ensures Example().Usable()
  {
    BlankIff("overview");
    assert !IsSpace("overview"[0]);
  }

  lemma TitlesNameAnchor(a: Topic, b: Topic, reducer: Reducer)
    requires Ordinary(reducer) && a.title == "chatgpt pro" && b.title == "chatgpt edu"
    ensures BothName(a, b, ANCHOR, reducer)
  {
    TrimSpaceOfTrimmed(ANCHOR);
    AnchorIsConcrete(reducer);
    TitlesHoldAnchor();
  }

  lemma ExampleIsSpoilable(reducer: Reducer)
    requires Ordinary(reducer)
    ensures Example().Spoilable(reducer)
  {
    var story := Example();
    TitlesNameAnchor(story.first, story.second, reducer);
    BlankIff(" ");
  }

  /**
   So a digest of two answered batches is lost to a reply about `chatgpt`, merging alone or
   through the whole call.
   */
  method ExampleIsSpoiled(reducer: Reducer) returns (r: Outcome)
    requires Ordinary(reducer) && reducer.reply == Answering([Example().Merge()])
    ensures PartialResults(Example().Partials(), Parts(), 2) && FailedIndexes(Parts(), Example().Partials()) == []
    ensures r == Err(NotWellFormed)
  {
    ExampleIsUsable();
    ExampleIsSpoilable(reducer);
    r := UsableResultsAreSpoiled(Example(), reducer);
  }

  method ExampleDigestIsLost(messages: seq<MessageInput>, attempts: seq<seq<Attempt>>, reducer: Reducer)
    returns (r: Outcome, ghost batches: seq<Batch>)
    requires TooLong(messages) && Told(Example(), attempts)
    requires Ordinary(reducer) && reducer.reply == Answering([Example().Merge()])
    ensures |batches| == 2 && Lost(r, batches, attempts[..|batches|])
    ensures r == Err(NotWellFormed)
  {
    ExampleIsUsable();
    ExampleIsSpoilable(reducer);
    r, batches := AnsweredDigestIsLost(Example(), messages, attempts, reducer);
  }
}
