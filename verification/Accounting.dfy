/** From topic indexes back to stored messages: internal/summary/service.go, lines 80-178 and 321-445. */
module Accounting {
  import opened Messages
  import opened Sequences
  import opened Sorting
  import opened Indexes
  import opened Summaries
  import opened Coverage
  import D = Deduplication
  import B = Balancing
  import P = Pipeline

  type Clusters = seq<D.Cluster>

  datatype TopicMessage = TopicMessage(collectedId: int, chatId: int, clusterIndex: int, isCanonical: bool)

  datatype ExcludedMessage = ExcludedMessage(collectedId: int, reason: string)

  datatype Confidence = High | Medium | Low

  datatype SummaryTopic = SummaryTopic(
    title: string, shortSummary: string, fullSummary: string, category: string, importance: int,
    confidence: Confidence, messagesCount: nat, position: nat, messages: seq<TopicMessage>)

  // ----- ids

  /** The stored ids among the messages. */
  function StoredIds(messages: seq<Message>): set<int> {
    set m | m in messages && m.id != 0 :: m.id
  }

  /** The stored ids of the clusters at these indexes; indexes out of range name nothing. */
  function IdsAt(clusters: Clusters, indexes: set<int>): set<int> {
    set i, m | i in indexes && 0 <= i < |clusters| && m in clusters[i].messages && m.id != 0 :: m.id
  }

  lemma IdsAtUnion(clusters: Clusters, a: set<int>, b: set<int>)
    ensures IdsAt(clusters, a + b) == IdsAt(clusters, a) + IdsAt(clusters, b)
  {
  }

  lemma IdsAtOne(clusters: Clusters, i: int)
    ensures IdsAt(clusters, {i}) == if 0 <= i < |clusters| then StoredIds(clusters[i].messages) else {}
  {
  }

  lemma StoredIdsSnoc(messages: seq<Message>, k: nat)
    requires k < |messages|
    ensures StoredIds(messages[..k + 1]) ==
            StoredIds(messages[..k]) + if messages[k].id != 0 then {messages[k].id} else {}
  {
    assert messages[..k + 1] == messages[..k] + [messages[k]];
  }

  function CollectedIds(messages: seq<TopicMessage>): (r: seq<int>)
    ensures |r| == |messages|
  {
    if messages == [] then [] else CollectedIds(messages[..|messages| - 1]) + [messages[|messages| - 1].collectedId]
  }

  function ExcludedIds(messages: seq<ExcludedMessage>): (r: seq<int>)
    ensures |r| == |messages|
  {
    if messages == [] then [] else ExcludedIds(messages[..|messages| - 1]) + [messages[|messages| - 1].collectedId]
  }

  /** A list that names each id of the set exactly once. */
  ghost predicate Lists(ids: seq<int>, s: set<int>) {
    Distinct(ids) && Elements(ids) == s
  }

  lemma ListOneMore(ids: seq<int>, s: set<int>, id: int)
    requires Lists(ids, s) && id !in s
    ensures Lists(ids + [id], s + {id})
  {
    ElementsConcat(ids, [id]);
    assert id !in Elements(ids);
  }

  lemma ListLength(ids: seq<int>, s: set<int>)
    requires Lists(ids, s)
    ensures |ids| == |s|
  {
    DistinctCardinality(ids);
  }

  // ----- the loops

  /** The messages behind a topic, each once, in order of first appearance. */
  method TopicMessages(sourceIndexes: seq<int>, clusters: Clusters) returns (messages: seq<TopicMessage>)
    ensures Lists(CollectedIds(messages), IdsAt(clusters, Elements(sourceIndexes)))
    ensures forall k :: 0 <= k < |messages| ==> PointsInto(messages[k], clusters)
  {
    messages := [];
    var seen: set<int> := {};
    for k := 0 to |sourceIndexes|
      invariant seen == IdsAt(clusters, Elements(sourceIndexes[..k]))
      invariant Lists(CollectedIds(messages), seen)
      invariant forall j :: 0 <= j < |messages| ==> PointsInto(messages[j], clusters)
    {
      var index := sourceIndexes[k];
      assert sourceIndexes[..k + 1] == sourceIndexes[..k] + [index];
      ElementsConcat(sourceIndexes[..k], [index]);
      IdsAtUnion(clusters, Elements(sourceIndexes[..k]), {index});
      IdsAtOne(clusters, index);
      if index < 0 || index >= |clusters| {
        continue;
      }
      messages, seen := AddCluster(clusters, index, messages, seen);
    }
    assert sourceIndexes[..|sourceIndexes|] == sourceIndexes;
  }

  /** The entry comes from a stored message of the cluster it names. */
  ghost predicate PointsInto(t: TopicMessage, clusters: Clusters) {
    && 0 <= t.clusterIndex < |clusters|
    && exists m ::
         && m in clusters[t.clusterIndex].messages
         && t.collectedId == m.id != 0 && t.chatId == m.chatId
         && (t.isCanonical <==> m.id == clusters[t.clusterIndex].canonical.id)
  }

  /** The inner loop of `topicMessages`. */
  method AddCluster(clusters: Clusters, index: nat, before: seq<TopicMessage>, seenBefore: set<int>)
    returns (messages: seq<TopicMessage>, seen: set<int>)
    requires index < |clusters| && Lists(CollectedIds(before), seenBefore)
    requires forall j :: 0 <= j < |before| ==> PointsInto(before[j], clusters)
    ensures seen == seenBefore + StoredIds(clusters[index].messages)
    ensures Lists(CollectedIds(messages), seen)
    ensures forall j :: 0 <= j < |messages| ==> PointsInto(messages[j], clusters)
  {
    messages, seen := before, seenBefore;
    var cluster := clusters[index];
    for k := 0 to |cluster.messages|
      invariant seen == seenBefore + StoredIds(cluster.messages[..k])
      invariant Lists(CollectedIds(messages), seen)
      invariant forall j :: 0 <= j < |messages| ==> PointsInto(messages[j], clusters)
    {
      StoredIdsSnoc(cluster.messages, k);
      var message := cluster.messages[k];
      if message.id == 0 {
        continue;
      }
      if message.id in seen {
        continue;
      }
      ListOneMore(CollectedIds(messages), seen, message.id);
      seen := seen + {message.id};
      assert message in cluster.messages;
      messages := messages + [TopicMessage(message.id, message.chatId, index, message.id == cluster.canonical.id)];
    }
    assert cluster.messages[..|cluster.messages|] == cluster.messages;
  }

  /** The reason is that of the first exclusion whose cluster holds the message. */
  ghost predicate Because(x: ExcludedMessage, excluded: seq<Excluded>, clusters: Clusters) {
    exists k ::
      && 0 <= k < |excluded|
      && x.reason == excluded[k].reason
      && x.collectedId in IdsAt(clusters, {excluded[k].sourceIndex})
      && x.collectedId !in IdsAt(clusters, ExcludedIndexes(excluded[..k]))
  }

  ghost predicate AllBecause(messages: seq<ExcludedMessage>, excluded: seq<Excluded>, clusters: Clusters) {
    forall j :: 0 <= j < |messages| ==> Because(messages[j], excluded, clusters)
  }

  lemma BecauseOfMore(x: ExcludedMessage, excluded: seq<Excluded>, k: nat, clusters: Clusters)
    requires k < |excluded| && Because(x, excluded[..k], clusters)
    ensures Because(x, excluded[..k + 1], clusters)
  {
    var front, more := excluded[..k], excluded[..k + 1];
    var i :|
      && 0 <= i < |front| && x.reason == front[i].reason
      && x.collectedId in IdsAt(clusters, {front[i].sourceIndex})
      && x.collectedId !in IdsAt(clusters, ExcludedIndexes(front[..i]));
    assert front[..i] == more[..i] && front[i] == more[i];
  }

  /** Handling one more exclusion: the entries it adds are its own. */
  lemma BecauseOfOneMore(before: seq<ExcludedMessage>, after: seq<ExcludedMessage>, excluded: seq<Excluded>, k: nat,
                         clusters: Clusters)
    requires k < |excluded| && AllBecause(before, excluded[..k], clusters) && |before| <= |after|
    requires before == after[..|before|]
    requires forall j :: |before| <= j < |after| ==>
               && after[j].reason == excluded[k].reason
               && after[j].collectedId in IdsAt(clusters, {excluded[k].sourceIndex})
               && after[j].collectedId !in IdsAt(clusters, ExcludedIndexes(excluded[..k]))
    ensures AllBecause(after, excluded[..k + 1], clusters)
  {
    forall j | 0 <= j < |after|
      ensures Because(after[j], excluded[..k + 1], clusters)
    {
      if j < |before| {
        assert after[j] == before[j];
        BecauseOfMore(before[j], excluded, k, clusters);
      } else {
        assert excluded[..k + 1][k] == excluded[k] && excluded[..k + 1][..k] == excluded[..k];
      }
    }
  }

  lemma IdsOfOneMore(excluded: seq<Excluded>, k: nat, clusters: Clusters)
    requires k < |excluded|
    ensures var i := excluded[k].sourceIndex;
            && IdsAt(clusters, {i}) == (if 0 <= i < |clusters| then StoredIds(clusters[i].messages) else {})
            && IdsAt(clusters, ExcludedIndexes(excluded[..k + 1])) ==
               IdsAt(clusters, ExcludedIndexes(excluded[..k])) + IdsAt(clusters, {i})
  {
    assert excluded[..k + 1][..k] == excluded[..k];
    IdsAtUnion(clusters, ExcludedIndexes(excluded[..k]), {excluded[k].sourceIndex});
    IdsAtOne(clusters, excluded[k].sourceIndex);
  }

  /** The messages behind the exclusions, each once and with the reason it was excluded for. */
  method ExcludedMessagesFromResult(result: Summary, clusters: Clusters) returns (excluded: seq<ExcludedMessage>)
    ensures Lists(ExcludedIds(excluded), IdsAt(clusters, ExcludedIndexes(result.excluded)))
    ensures AllBecause(excluded, result.excluded, clusters)
  {
    excluded := [];
    var seen: set<int> := {};
    for k := 0 to |result.excluded|
      invariant seen == IdsAt(clusters, ExcludedIndexes(result.excluded[..k]))
      invariant Lists(ExcludedIds(excluded), seen)
      invariant AllBecause(excluded, result.excluded[..k], clusters)
    {
      var source := result.excluded[k];
      IdsOfOneMore(result.excluded, k, clusters);
      ghost var before := excluded;
      if source.sourceIndex < 0 || source.sourceIndex >= |clusters| {
        BecauseOfOneMore(before, excluded, result.excluded, k, clusters);
        continue;
      }
      excluded, seen := AddExcluded(clusters[source.sourceIndex].messages, source.reason, excluded, seen);
      BecauseOfOneMore(before, excluded, result.excluded, k, clusters);
    }
    assert result.excluded[..|result.excluded|] == result.excluded;
  }

  /** What the inner loop adds carries this reason and was not there before. */
  method AddExcluded(members: seq<Message>, reason: string, before: seq<ExcludedMessage>, seenBefore: set<int>)
    returns (excluded: seq<ExcludedMessage>, seen: set<int>)
    requires Lists(ExcludedIds(before), seenBefore)
    ensures seen == seenBefore + StoredIds(members)
    ensures Lists(ExcludedIds(excluded), seen)
    ensures |before| <= |excluded| && before == excluded[..|before|]
    ensures forall j :: |before| <= j < |excluded| ==>
              && excluded[j].reason == reason
              && excluded[j].collectedId in StoredIds(members) && excluded[j].collectedId !in seenBefore
  {
    excluded, seen := before, seenBefore;
    for k := 0 to |members|
      invariant seen == seenBefore + StoredIds(members[..k])
      invariant Lists(ExcludedIds(excluded), seen)
      invariant |before| <= |excluded| && before == excluded[..|before|]
      invariant forall j :: |before| <= j < |excluded| ==>
                  && excluded[j].reason == reason
                  && excluded[j].collectedId in StoredIds(members) && excluded[j].collectedId !in seenBefore
    {
      StoredIdsSnoc(members, k);
      var message := members[k];
      if message.id == 0 {
        continue;
      }
      if message.id in seen {
        continue;
      }
      ListOneMore(ExcludedIds(excluded), seen, message.id);
      seen := seen + {message.id};
      assert message in members;
      excluded := excluded + [ExcludedMessage(message.id, reason)];
    }
    assert members[..|members|] == members;
  }

  predicate MoreImportant(a: SummaryTopic, b: SummaryTopic) {
    a.importance > b.importance
  }

  function Renumbered(topics: seq<SummaryTopic>): (r: seq<SummaryTopic>)
    ensures |r| == |topics|
    ensures forall k :: 0 <= k < |r| ==> r[k] == topics[k].(position := k + 1)
  {
    if topics == [] then [] else Renumbered(topics[..|topics| - 1]) + [topics[|topics| - 1].(position := |topics|)]
  }

  /** The topics before sorting match the reply one by one. */
  ghost predicate BuiltFrom(built: seq<SummaryTopic>, topics: seq<Topic>, clusters: Clusters) {
    && |built| == |topics|
    && forall k :: 0 <= k < |built| ==> BuiltTopic(built[k], topics[k], clusters)
  }

  /** A saved topic carries the reply's texts and stands on the stored messages of its clusters. */
  ghost predicate BuiltTopic(b: SummaryTopic, t: Topic, clusters: Clusters) {
    && b.title == t.title && b.shortSummary == t.shortSummary && b.fullSummary == t.fullSummary
    && b.category == t.category && b.importance == t.importance
    && (b.confidence == High <==> t.confidence == "high") && (b.confidence == Low <==> t.confidence == "low")
    && b.messagesCount == |b.messages|
    && Lists(CollectedIds(b.messages), IdsAt(clusters, Elements(t.sourceIndexes)))
    && forall j :: 0 <= j < |b.messages| ==> PointsInto(b.messages[j], clusters)
  }

  /** Any other word counts as medium. */
  function SavedConfidence(value: string): Confidence {
    if value == "high" then High else if value == "low" then Low else Medium
  }

  /** The most important first, and the positions count from one. */
  ghost predicate Ranked(topics: seq<SummaryTopic>) {
    && (forall i, j :: 0 <= i < j < |topics| ==> topics[i].importance >= topics[j].importance)
    && forall k :: 0 <= k < |topics| ==> topics[k].position == k + 1
  }

  /** Every reply topic is saved and every saved topic is one of the reply's. */
  ghost predicate SavesEach(saved: seq<SummaryTopic>, topics: seq<Topic>, clusters: Clusters) {
    && |saved| == |topics|
    && (forall k :: 0 <= k < |saved| ==> SavedFrom(saved[k], topics, clusters))
    && forall i :: 0 <= i < |topics| ==> SavedIn(topics[i], saved, clusters)
  }

  ghost predicate SavedFrom(b: SummaryTopic, topics: seq<Topic>, clusters: Clusters) {
    exists i :: 0 <= i < |topics| && BuiltTopic(b, topics[i], clusters)
  }

  ghost predicate SavedIn(t: Topic, saved: seq<SummaryTopic>, clusters: Clusters) {
    exists k :: 0 <= k < |saved| && BuiltTopic(saved[k], t, clusters)
  }

  lemma RankedTopics(built: seq<SummaryTopic>)
    ensures Ranked(Renumbered(StableSort(built, MoreImportant)))
  {
    var sorted := StableSort(built, MoreImportant);
    StableSortSorted(built, MoreImportant);
    forall i, j | 0 <= i < j < |sorted|
      ensures sorted[i].importance >= sorted[j].importance
    {
      assert !MoreImportant(sorted[j], sorted[i]);
    }
  }

  lemma RenumberedSaves(sorted: seq<SummaryTopic>, topics: seq<Topic>, clusters: Clusters)
    requires SavesEach(sorted, topics, clusters)
    ensures SavesEach(Renumbered(sorted), topics, clusters)
  {
    var saved := Renumbered(sorted);
    forall k | 0 <= k < |saved|
      ensures SavedFrom(saved[k], topics, clusters)
    {
      assert SavedFrom(sorted[k], topics, clusters);
      var i :| 0 <= i < |topics| && BuiltTopic(sorted[k], topics[i], clusters);
      assert BuiltTopic(saved[k], topics[i], clusters);
    }
    forall i | 0 <= i < |topics|
      ensures SavedIn(topics[i], saved, clusters)
    {
      assert SavedIn(topics[i], sorted, clusters);
      var k :| 0 <= k < |sorted| && BuiltTopic(sorted[k], topics[i], clusters);
      assert BuiltTopic(saved[k], topics[i], clusters);
    }
  }

  lemma SortingSaves(built: seq<SummaryTopic>, sorted: seq<SummaryTopic>, topics: seq<Topic>, clusters: Clusters)
    requires BuiltFrom(built, topics, clusters) && multiset(built) == multiset(sorted)
    ensures SavesEach(sorted, topics, clusters)
  {
    SameElements(built, sorted);
    forall k | 0 <= k < |sorted|
      ensures SavedFrom(sorted[k], topics, clusters)
    {
      assert sorted[k] in Elements(sorted);
      var i :| 0 <= i < |built| && built[i] == sorted[k];
      assert BuiltTopic(built[i], topics[i], clusters);
    }
    forall i | 0 <= i < |topics|
      ensures SavedIn(topics[i], sorted, clusters)
    {
      assert built[i] in Elements(built);
      var k :| 0 <= k < |sorted| && sorted[k] == built[i];
      assert BuiltTopic(built[i], topics[i], clusters);
    }
  }

  method TopicsFromResult(result: Summary, clusters: Clusters)
    returns (topics: seq<SummaryTopic>, ghost built: seq<SummaryTopic>)
    ensures Ranked(topics) && SavesEach(topics, result.topics, clusters)
    ensures BuiltFrom(built, result.topics, clusters)
    ensures topics == Renumbered(StableSort(built, MoreImportant))
  {
    topics := [];
    for i := 0 to |result.topics|
      invariant |topics| == i
      invariant forall k :: 0 <= k < i ==> BuiltTopic(topics[k], result.topics[k], clusters)
    {
      var topic := result.topics[i];
      var messages := TopicMessages(topic.sourceIndexes, clusters);
      topics := topics + [SummaryTopic(
                            topic.title, topic.shortSummary, topic.fullSummary, topic.category, topic.importance,
                            SavedConfidence(topic.confidence), |messages|, i + 1, messages)];
    }
    built := topics;
    RankedTopics(built);
    SortingSaves(built, StableSort(built, MoreImportant), result.topics, clusters);
    RenumberedSaves(StableSort(built, MoreImportant), result.topics, clusters);
    topics := Renumbered(StableSort(topics, MoreImportant));
  }

  /** Ids behind at least one topic. */
  function TopicIds(topics: seq<SummaryTopic>): set<int> {
    if topics == [] then {}
    else TopicIds(topics[..|topics| - 1]) + Elements(CollectedIds(topics[|topics| - 1].messages))
  }

  lemma {:induction false} TopicIdsIff(topics: seq<SummaryTopic>, id: int)
    ensures id in TopicIds(topics) <==> exists k :: 0 <= k < |topics| && id in CollectedIds(topics[k].messages)
  {
    if topics != [] {
      TopicIdsIff(topics[..|topics| - 1], id);
    }
  }

  method DistinctTopicMessageCount(topics: seq<SummaryTopic>) returns (count: nat)
    ensures count == |TopicIds(topics) - {0}|
  {
    var seen: set<int> := {};
    for i := 0 to |topics|
      invariant seen == TopicIds(topics[..i]) - {0}
    {
      assert topics[..i + 1][..i] == topics[..i];
      seen := SeeAll(topics[i].messages, seen);
    }
    assert topics[..|topics|] == topics;
    count := |seen|;
  }

  method SeeAll(messages: seq<TopicMessage>, before: set<int>) returns (seen: set<int>)
    ensures seen == before + (Elements(CollectedIds(messages)) - {0})
  {
    seen := before;
    for j := 0 to |messages|
      invariant seen == before + (Elements(CollectedIds(messages[..j])) - {0})
    {
      assert messages[..j + 1][..j] == messages[..j];
      ElementsConcat(CollectedIds(messages[..j]), [messages[j].collectedId]);
      if messages[j].collectedId != 0 {
        seen := seen + {messages[j].collectedId};
      }
    }
    assert messages[..|messages|] == messages;
  }

  // ----- sorting topics by importance does not change what they stand on

  lemma {:induction false} BuiltIds(built: seq<SummaryTopic>, topics: seq<Topic>, clusters: Clusters)
    requires BuiltFrom(built, topics, clusters)
    ensures TopicIds(built) == IdsAt(clusters, Used(topics))
  {
    if built != [] {
      var n := |built| - 1;
      BuiltIds(built[..n], topics[..n], clusters);
      assert BuiltTopic(built[n], topics[n], clusters);
      IdsAtUnion(clusters, Used(topics[..n]), Elements(topics[n].sourceIndexes));
    }
  }

  lemma IdsWithin(a: seq<SummaryTopic>, b: seq<SummaryTopic>)
    requires Elements(a) <= Elements(b)
    ensures TopicIds(a) <= TopicIds(b)
  {
    forall id | id in TopicIds(a)
      ensures id in TopicIds(b)
    {
      TopicIdsIff(a, id);
      TopicIdsIff(b, id);
      var k :| 0 <= k < |a| && id in CollectedIds(a[k].messages);
      assert a[k] in Elements(b);
    }
  }

  lemma {:induction false} RenumberedIds(topics: seq<SummaryTopic>)
    ensures TopicIds(Renumbered(topics)) == TopicIds(topics)
  {
    if topics != [] {
      var n := |topics| - 1;
      RenumberedIds(topics[..n]);
      assert Renumbered(topics)[..n] == Renumbered(topics[..n]);
    }
  }

  lemma SortedTopicIds(built: seq<SummaryTopic>)
    ensures TopicIds(Renumbered(StableSort(built, MoreImportant))) == TopicIds(built)
  {
    var sorted := StableSort(built, MoreImportant);
    SameElements(built, sorted);
    IdsWithin(built, sorted);
    IdsWithin(sorted, built);
    RenumberedIds(sorted);
  }

  // ----- used and excluded messages partition the kept ones

  /** The clusters hold exactly the kept messages, which are stored under distinct ids. */
  ghost predicate Partition(clusters: Clusters, kept: seq<Message>) {
    && D.Members(clusters) == multiset(kept)
    && P.DistinctIds(kept)
    && forall i :: 0 <= i < |kept| ==> kept[i].id != 0
  }

  lemma {:induction false} DistinctIdsOnce(kept: seq<Message>, m: Message)
    requires P.DistinctIds(kept)
    ensures multiset(kept)[m] <= 1
  {
    if kept != [] {
      var front, last := kept[..|kept| - 1], kept[|kept| - 1];
      DistinctIdsOnce(front, m);
      SplitLast(kept);
      if m == last {
        assert m !in front;
      }
    }
  }

  lemma SameIdSameMessage(kept: seq<Message>, a: Message, b: Message)
    requires P.DistinctIds(kept) && a in multiset(kept) && b in multiset(kept) && a.id == b.id
    ensures a == b
  {
    var i :| 0 <= i < |kept| && kept[i] == a;
    var j :| 0 <= j < |kept| && kept[j] == b;
  }

  lemma {:induction false} InTwoClusters(clusters: Clusters, i: nat, j: nat, m: Message)
    requires i < j < |clusters| && m in clusters[i].messages && m in clusters[j].messages
    ensures D.Members(clusters)[m] >= 2
  {
    var n := |clusters| - 1;
    if j < n {
      InTwoClusters(clusters[..n], i, j, m);
    } else {
      D.MembersContain(clusters[..n], i, m);
      assert m in multiset(clusters[n].messages);
    }
  }

  lemma ApartIds(clusters: Clusters, kept: seq<Message>, a: set<int>, b: set<int>)
    requires Partition(clusters, kept) && a !! b
    ensures IdsAt(clusters, a) !! IdsAt(clusters, b)
  {
    forall id | id in IdsAt(clusters, a) && id in IdsAt(clusters, b)
      ensures false
    {
      var i, m :| i in a && 0 <= i < |clusters| && m in clusters[i].messages && m.id != 0 && m.id == id;
      var j, n :| j in b && 0 <= j < |clusters| && n in clusters[j].messages && n.id != 0 && n.id == id;
      D.MembersContain(clusters, i, m);
      D.MembersContain(clusters, j, n);
      SameIdSameMessage(kept, m, n);
      DistinctIdsOnce(kept, m);
      InTwoClusters(clusters, if i < j then i else j, if i < j then j else i, m);
    }
  }

  lemma {:induction false} InSomeCluster(clusters: Clusters, m: Message) returns (i: nat)
    requires m in D.Members(clusters)
    ensures i < |clusters| && m in clusters[i].messages
  {
    var n := |clusters| - 1;
    if m in multiset(clusters[n].messages) {
      i := n;
    } else {
      i := InSomeCluster(clusters[..n], m);
    }
  }

  lemma StoredIsListed(clusters: Clusters, kept: seq<Message>, m: Message)
    requires Partition(clusters, kept) && m in kept && m.id != 0
    ensures m.id in IdsAt(clusters, Input(|clusters|))
  {
    assert m in multiset(kept);
    var i := InSomeCluster(clusters, m);
    assert i in Input(|clusters|);
  }

  lemma ListedIsStored(clusters: Clusters, kept: seq<Message>, i: nat, m: Message)
    requires Partition(clusters, kept) && i < |clusters| && m in clusters[i].messages && m.id != 0
    ensures m.id in StoredIds(kept)
  {
    D.MembersContain(clusters, i, m);
    assert m in multiset(kept);
    assert m in kept;
  }

  lemma AllIds(clusters: Clusters, kept: seq<Message>)
    requires Partition(clusters, kept)
    ensures IdsAt(clusters, Input(|clusters|)) == StoredIds(kept)
  {
    forall m | m in kept && m.id != 0
      ensures m.id in IdsAt(clusters, Input(|clusters|))
    {
      StoredIsListed(clusters, kept, m);
    }
    forall i, m | 0 <= i < |clusters| && m in clusters[i].messages && m.id != 0
      ensures m.id in StoredIds(kept)
    {
      ListedIsStored(clusters, kept, i, m);
    }
  }

  lemma {:induction false} StoredCount(kept: seq<Message>)
    requires P.DistinctIds(kept) && forall i :: 0 <= i < |kept| ==> kept[i].id != 0
    ensures |StoredIds(kept)| == |kept|
  {
    if kept != [] {
      var n := |kept| - 1;
      StoredCount(kept[..n]);
      StoredIdsSnoc(kept, n);
      assert kept[..n + 1] == kept;
      assert kept[n].id !in StoredIds(kept[..n]);
    }
  }

  /** A covering reply accounts for every kept message exactly once. */
  lemma EveryMessageOnce(result: Summary, clusters: Clusters, kept: seq<Message>)
    requires Partition(clusters, kept) && Covers(result, |clusters|)
    ensures var used := IdsAt(clusters, Used(result.topics));
            var excluded := IdsAt(clusters, ExcludedIndexes(result.excluded));
            && used !! excluded && used + excluded == StoredIds(kept) && |used| + |excluded| == |kept|
  {
    var used, excluded := IdsAt(clusters, Used(result.topics)), IdsAt(clusters, ExcludedIndexes(result.excluded));
    ApartIds(clusters, kept, Used(result.topics), ExcludedIndexes(result.excluded));
    IdsAtUnion(clusters, Used(result.topics), ExcludedIndexes(result.excluded));
    AllIds(clusters, kept);
    StoredCount(kept);
    assert |used + excluded| == |used| + |excluded|;
  }

  // ----- the service

  datatype Saved = Saved(title: string, overview: string, usedMessagesCount: nat, excludedMessagesCount: nat, messagesCount: nat,
                         topics: seq<SummaryTopic>, excluded: seq<ExcludedMessage>)

  datatype Checked = Disagreed | Agreed(saved: Saved)

  const RULES := P.Rules(30, true, true)

  /** The clusters the model is asked about. */
  function AskedClusters(sources: seq<P.Source>, lexicon: P.Lexicon): Clusters {
    B.BalancedResult(P.Processed(sources, RULES, lexicon).clusters)
  }

  lemma AskedPartition(sources: seq<P.Source>, lexicon: P.Lexicon)
    requires P.OrderlySources(sources)
    ensures Partition(AskedClusters(sources, lexicon), P.Processed(sources, RULES, lexicon).messages)
  {
    var processed := P.Processed(sources, RULES, lexicon);
    P.ProcessAccounts(sources, RULES, lexicon);
    P.FilterKeepsOrder(sources, RULES, lexicon);
    SameMembers(processed.clusters, AskedClusters(sources, lexicon));
  }

  lemma {:induction false} MembersOfPermuted(clusters: Clusters, i: nat)
    requires i < |clusters|
    ensures D.Members(clusters) == D.Members(clusters[..i] + clusters[i + 1..]) + multiset(clusters[i].messages)
    decreases |clusters|
  {
    var n := |clusters| - 1;
    if i == n {
      assert clusters[..i] + clusters[i + 1..] == clusters[..n];
    } else {
      MembersOfPermuted(clusters[..n], i);
      var rest := clusters[..n][..i] + clusters[..n][i + 1..];
      DropBeforeLast(clusters, i);
      D.MembersSnoc(rest, clusters[n]);
    }
  }

  /** A permutation of the clusters has the same members. */
  lemma {:induction false} SameMembers(a: Clusters, b: Clusters)
    requires multiset(a) == multiset(b)
    ensures D.Members(a) == D.Members(b)
    decreases |a|
  {
    SameElements(a, b);
    if a != [] {
      var n := |a| - 1;
      assert a[n] in Elements(b);
      var i :| 0 <= i < |b| && b[i] == a[n];
      var rest := b[..i] + b[i + 1..];
      DropAt(b, i);
      SplitLast(a);
      SameMembers(a[..n], rest);
      MembersOfPermuted(b, i);
    }
  }

  /** What a saved summary says about the kept messages. */
  ghost predicate AccountsFor(saved: Saved, kept: seq<Message>) {
    && saved.messagesCount == |kept|
    && saved.usedMessagesCount == |TopicIds(saved.topics)|
    && saved.excludedMessagesCount == |saved.excluded|
    && saved.usedMessagesCount + saved.excludedMessagesCount == saved.messagesCount
    && Distinct(ExcludedIds(saved.excluded))
    && TopicIds(saved.topics) !! Elements(ExcludedIds(saved.excluded))
    && TopicIds(saved.topics) + Elements(ExcludedIds(saved.excluded)) == StoredIds(kept)
  }

  /** What is saved of the reply: its texts, its topics, the most important first, and why each message was left out. */
  ghost predicate SavesReply(saved: Saved, result: Summary, clusters: Clusters) {
    && saved.title == result.title && saved.overview == result.overview
    && Ranked(saved.topics)
    && SavesEach(saved.topics, result.topics, clusters)
    && AllBecause(saved.excluded, result.excluded, clusters)
  }

  lemma UsedIds(built: seq<SummaryTopic>, result: Summary, clusters: Clusters)
    requires BuiltFrom(built, result.topics, clusters)
    ensures TopicIds(Renumbered(StableSort(built, MoreImportant))) == IdsAt(clusters, Used(result.topics))
    ensures 0 !in IdsAt(clusters, Used(result.topics))
  {
    BuiltIds(built, result.topics, clusters);
    SortedTopicIds(built);
  }

  lemma Accounted(
    result: Summary, balanced: Clusters, kept: seq<Message>, built: seq<SummaryTopic>,
    excluded: seq<ExcludedMessage>, used: nat)
    requires Partition(balanced, kept) && Covers(result, |balanced|)
    requires BuiltFrom(built, result.topics, balanced)
    requires Lists(ExcludedIds(excluded), IdsAt(balanced, ExcludedIndexes(result.excluded)))
    requires used == |TopicIds(Renumbered(StableSort(built, MoreImportant))) - {0}|
    ensures used + |excluded| == |kept|
    ensures AccountsFor(Saved(result.title, result.overview, used, |excluded|, |kept|,
                              Renumbered(StableSort(built, MoreImportant)), excluded), kept)
  {
    EveryMessageOnce(result, balanced, kept);
    UsedIds(built, result, balanced);
    ListLength(ExcludedIds(excluded), IdsAt(balanced, ExcludedIndexes(result.excluded)));
    var ids := IdsAt(balanced, Used(result.topics));
    assert ids - {0} == ids;
  }

  /** The service's own check of the reply; its failure branch is never taken. */
  method AccountFor(result: Summary, balanced: Clusters, kept: seq<Message>) returns (r: Checked)
    requires Partition(balanced, kept) && Covers(result, |balanced|)
    ensures r.Agreed? && AccountsFor(r.saved, kept) && SavesReply(r.saved, result, balanced)
  {
    var topics, built := TopicsFromResult(result, balanced);
    var excluded := ExcludedMessagesFromResult(result, balanced);
    var used := DistinctTopicMessageCount(topics);
    Accounted(result, balanced, kept, built, excluded, used);
    if used + |excluded| != |kept| {
      assert false;
      return Disagreed;
    }
    return Agreed(Saved(result.title, result.overview, used, |excluded|, |kept|, topics, excluded));
  }
}
