/** First-fit grouping of duplicates: internal/summary/deduplicator/deduplicator.go. */
module Deduplication {
  import opened Messages
  import opened Sequences
  import opened Sorting
  import opened Summaries

  datatype Reason = Exact | Url | Similarity

  datatype Cluster = Cluster(id: nat, canonical: Message, messages: seq<Message>, reasons: seq<Reason>)

  datatype Stats = Stats(
    inputCount: nat, clusterCount: nat, duplicateCount: nat, exactCount: nat, urlCount: nat, similarityCount: nat)

  // ----- when two messages are duplicates

  predicate ShareUrl(left: seq<string>, right: seq<string>) {
    exists u :: u in left && u in right
  }

  /** Jaccard index at least 0.80, in whole numbers. */
  predicate Similar(left: set<string>, right: set<string>) {
    left != {} && right != {} && 5 * |left * right| >= 4 * |left + right|
  }

  function Match(canonical: Message, message: Message): Option<Reason> {
    if canonical.hash == message.hash then Some(Exact)
    else if ShareUrl(canonical.urls, message.urls) then Some(Url)
    else if Similar(message.tokens, canonical.tokens) then Some(Similarity)
    else None
  }

  predicate Duplicates(a: Message, b: Message) {
    Match(a, b).Some?
  }

  lemma MatchSymmetric(a: Message, b: Message)
    ensures Match(a, b) == Match(b, a)
  {
    assert a.tokens * b.tokens == b.tokens * a.tokens;
  }

  method ShareURL(left: seq<string>, right: seq<string>) returns (shared: bool)
    ensures shared <==> ShareUrl(left, right)
  {
    if |left| == 0 || |right| == 0 {
      return false;
    }
    var seen: set<string> := {};
    for i := 0 to |left|
      invariant seen == set u | u in left[..i]
    {
      seen := seen + {left[i]};
    }
    assert left[..|left|] == left;
    for i := 0 to |right|
      invariant forall j :: 0 <= j < i ==> right[j] !in left
    {
      if right[i] in seen {
        return true;
      }
    }
    return false;
  }

  lemma CountOneMore(left: set<string>, right: set<string>, todo: set<string>, token: string)
    requires token in todo && todo <= left
    ensures |(left - (todo - {token})) * right| == |(left - todo) * right| + if token in right then 1 else 0
  {
    var counted, more := (left - todo) * right, (left - (todo - {token})) * right;
    assert more == if token in right then counted + {token} else counted;
  }

  lemma UnionSize(left: set<string>, right: set<string>)
    ensures |left + right| == |left| + |right| - |left * right|
  {
  }

  /** `jaccard(left, right) >= 0.80`, counting the common tokens one by one. */
  method JaccardReached(left: set<string>, right: set<string>) returns (reached: bool)
    ensures reached <==> Similar(left, right)
  {
    if |left| == 0 || |right| == 0 {
      return false;
    }
    var intersection, todo := 0, left;
    while todo != {}
      invariant todo <= left
      invariant intersection == |(left - todo) * right|
      decreases todo
    {
      var token :| token in todo;
      CountOneMore(left, right, todo, token);
      todo := todo - {token};
      if token in right {
        intersection := intersection + 1;
      }
    }
    assert left - {} == left;
    UnionSize(left, right);
    var union := |left| + |right| - intersection;
    return union != 0 && 5 * intersection >= 4 * union;
  }

  // ----- first fit

  /** The lowest cluster whose canonical message matches. */
  function FirstFit(clusters: seq<Cluster>, message: Message): (i: Option<nat>)
    ensures i.Some? ==> i.value < |clusters| && Duplicates(clusters[i.value].canonical, message)
    ensures forall j :: 0 <= j < |clusters| && (i.Some? ==> j < i.value) ==> !Duplicates(clusters[j].canonical, message)
  {
    if clusters == [] then None
    else if Duplicates(clusters[0].canonical, message) then Some(0)
    else
      var rest := FirstFit(clusters[1..], message);
      assert forall j :: 0 < j < |clusters| ==> clusters[j] == clusters[1..][j - 1];
      if rest.Some? then Some(rest.value + 1) else None
  }

  method FindCluster(clusters: seq<Cluster>, message: Message) returns (index: Option<nat>, reason: Reason)
    ensures index == FirstFit(clusters, message)
    ensures index.Some? ==> Match(clusters[index.value].canonical, message) == Some(reason)
  {
    reason := Exact;
    for i := 0 to |clusters|
      invariant forall j :: 0 <= j < i ==> !Duplicates(clusters[j].canonical, message)
    {
      var canonical := clusters[i].canonical;
      if canonical.hash == message.hash {
        return Some(i), Exact;
      }
      var shared := ShareURL(canonical.urls, message.urls);
      if shared {
        return Some(i), Url;
      }
      var similar := JaccardReached(message.tokens, canonical.tokens);
      if similar {
        return Some(i), Similarity;
      }
    }
    return None, Exact;
  }

  function Joined(cluster: Cluster, message: Message, reason: Reason): Cluster {
    cluster.(messages := cluster.messages + [message],
             reasons := if reason in cluster.reasons then cluster.reasons else cluster.reasons + [reason])
  }

  function Placed(clusters: seq<Cluster>, message: Message): seq<Cluster> {
    var i := FirstFit(clusters, message);
    if i.None? then clusters + [Cluster(|clusters| + 1, message, [message], [])]
    else clusters[i.value := Joined(clusters[i.value], message, Match(clusters[i.value].canonical, message).value)]
  }

  /** The clusters before the final sort: each canonical is still the seed. */
  function Groups(messages: seq<Message>): seq<Cluster> {
    if messages == [] then [] else Placed(Groups(messages[..|messages| - 1]), messages[|messages| - 1])
  }

  /** How many messages joined a cluster for the given reason. */
  function JoinedFor(messages: seq<Message>, reason: Reason): nat {
    if messages == [] then 0
    else
      var front, last := messages[..|messages| - 1], messages[|messages| - 1];
      var i := FirstFit(Groups(front), last);
      JoinedFor(front, reason)
      + if i.Some? && Match(Groups(front)[i.value].canonical, last) == Some(reason) then 1 else 0
  }

  function Ordered(cluster: Cluster): Cluster
    requires cluster.messages != []
  {
    var messages := StableSort(cluster.messages, DateBefore);
    cluster.(messages := messages, canonical := messages[0])
  }

  // ----- what the grouping keeps

  /** All messages, cluster after cluster. */
  function Members(clusters: seq<Cluster>): multiset<Message> {
    if clusters == [] then multiset{}
    else Members(clusters[..|clusters| - 1]) + multiset(clusters[|clusters| - 1].messages)
  }

  lemma MembersSnoc(clusters: seq<Cluster>, c: Cluster)
    ensures Members(clusters + [c]) == Members(clusters) + multiset(c.messages)
  {
    assert (clusters + [c])[..|clusters|] == clusters;
  }

  lemma {:induction false} MembersUpdate(clusters: seq<Cluster>, i: nat, c: Cluster)
    requires i < |clusters|
    ensures Members(clusters[i := c]) == Members(clusters) - multiset(clusters[i].messages) + multiset(c.messages)
    ensures multiset(clusters[i].messages) <= Members(clusters)
  {
    var n := |clusters| - 1;
    if i < n {
      MembersUpdate(clusters[..n], i, c);
      assert clusters[i := c][..n] == clusters[..n][i := c];
    } else {
      assert clusters[i := c][..n] == clusters[..n];
    }
  }

  lemma PlacedMembers(clusters: seq<Cluster>, message: Message)
    ensures Members(Placed(clusters, message)) == Members(clusters) + multiset{message}
  {
    var i := FirstFit(clusters, message);
    var placed := Placed(clusters, message);
    if i.None? {
      assert placed[..|clusters|] == clusters;
    } else {
      MembersUpdate(clusters, i.value, placed[i.value]);
    }
  }

  /** Every message is in exactly one cluster. */
  lemma {:induction false} GroupsKeepMessages(messages: seq<Message>)
    ensures Members(Groups(messages)) == multiset(messages)
  {
    if messages != [] {
      var front, last := messages[..|messages| - 1], messages[|messages| - 1];
      GroupsKeepMessages(front);
      PlacedMembers(Groups(front), last);
      SplitLast(messages);
    }
  }

  /**
   Cluster `i` of a first-fit family: led by its seed, joined only by the seed's duplicates that
   no earlier seed matches.
   */
  ghost predicate FirstFitCluster(clusters: seq<Cluster>, i: nat)
    requires i < |clusters|
  {
    var c := clusters[i];
    && c.id == i + 1
    && c.messages != [] && c.messages[0] == c.canonical
    && (forall k :: 0 < k < |c.messages| ==> Duplicates(c.canonical, c.messages[k]))
    && (forall j, k :: 0 <= j < i && 0 <= k < |c.messages| ==> !Duplicates(clusters[j].canonical, c.messages[k]))
  }

  ghost predicate FirstFitFamily(clusters: seq<Cluster>) {
    forall i :: 0 <= i < |clusters| ==> FirstFitCluster(clusters, i)
  }

  lemma {:induction false} GroupsAreFirstFit(messages: seq<Message>)
    ensures FirstFitFamily(Groups(messages))
  {
    if messages != [] {
      var front, last := messages[..|messages| - 1], messages[|messages| - 1];
      GroupsAreFirstFit(front);
      PlacedIsFirstFit(Groups(front), last);
    }
  }

  lemma PlacedIsFirstFit(clusters: seq<Cluster>, message: Message)
    requires FirstFitFamily(clusters)
    ensures FirstFitFamily(Placed(clusters, message))
  {
    var placed := Placed(clusters, message);
    forall i | 0 <= i < |placed|
      ensures FirstFitCluster(placed, i)
    {
      assert i < |clusters| ==> FirstFitCluster(clusters, i);
    }
  }

  /** The cluster names each reason once, and exactly those for which a message joined its seed. */
  ghost predicate OwnReasons(c: Cluster) {
    && Distinct(c.reasons)
    && forall r :: r in c.reasons <==> JoinedBecause(c, r)
  }

  ghost predicate JoinedBecause(c: Cluster, r: Reason) {
    exists k :: 0 < k < |c.messages| && Match(c.canonical, c.messages[k]) == Some(r)
  }

  lemma JoinedReasons(c: Cluster, message: Message, reason: Reason)
    requires OwnReasons(c) && c.messages != [] && Match(c.canonical, message) == Some(reason)
    ensures OwnReasons(Joined(c, message, reason))
  {
    var joined, n := Joined(c, message, reason), |c.messages|;
    forall r
      ensures r in joined.reasons <==> JoinedBecause(joined, r)
    {
      if JoinedBecause(c, r) {
        var k :| 0 < k < n && Match(c.canonical, c.messages[k]) == Some(r);
        assert joined.messages[k] == c.messages[k];
      }
      if JoinedBecause(joined, r) {
        var k :| 0 < k <= n && Match(c.canonical, joined.messages[k]) == Some(r);
        assert k < n ==> joined.messages[k] == c.messages[k];
      }
      assert joined.messages[n] == message;
    }
  }

  ghost predicate AllOwnReasons(clusters: seq<Cluster>) {
    forall i :: 0 <= i < |clusters| ==> clusters[i].messages != [] && OwnReasons(clusters[i])
  }

  lemma {:induction false} GroupsOwnReasons(messages: seq<Message>)
    ensures AllOwnReasons(Groups(messages))
  {
    if messages != [] {
      var front, last := messages[..|messages| - 1], messages[|messages| - 1];
      GroupsOwnReasons(front);
      PlacedOwnReasons(Groups(front), last);
    }
  }

  lemma PlacedOwnReasons(clusters: seq<Cluster>, message: Message)
    requires AllOwnReasons(clusters)
    ensures AllOwnReasons(Placed(clusters, message))
  {
    var i := FirstFit(clusters, message);
    if i.Some? {
      JoinedReasons(clusters[i.value], message, Match(clusters[i.value].canonical, message).value);
    }
  }

  /** The final sort puts a cluster in date order, its earliest message canonical, and changes nothing else. */
  lemma OrderedByDate(cluster: Cluster)
    requires cluster.messages != []
    ensures var c := Ordered(cluster);
            && c.id == cluster.id && c.reasons == cluster.reasons
            && multiset(c.messages) == multiset(cluster.messages)
            && c.messages != [] && c.canonical == c.messages[0]
            && forall j, k :: 0 <= j < k < |c.messages| ==> c.messages[j].date <= c.messages[k].date
  {
    var sorted := StableSort(cluster.messages, DateBefore);
    StableSortSorted(cluster.messages, DateBefore);
    forall j, k | 0 <= j < k < |sorted|
      ensures sorted[j].date <= sorted[k].date
    {
      assert !DateBefore(sorted[k], sorted[j]);
    }
  }

  /** No two seeds are duplicates of each other. */
  lemma SeedsAreApart(clusters: seq<Cluster>, i: nat, j: nat)
    requires FirstFitFamily(clusters) && i < |clusters| && j < |clusters| && i != j
    ensures !Duplicates(clusters[i].canonical, clusters[j].canonical)
  {
    assert FirstFitCluster(clusters, i) && FirstFitCluster(clusters, j);
    MatchSymmetric(clusters[i].canonical, clusters[j].canonical);
  }

  /** Each message founds a cluster or joins one for exactly one reason. */
  lemma {:induction false} GroupsCount(messages: seq<Message>)
    ensures |messages| ==
            |Groups(messages)| + JoinedFor(messages, Exact) + JoinedFor(messages, Url) + JoinedFor(messages, Similarity)
  {
    if messages != [] {
      GroupsCount(messages[..|messages| - 1]);
    }
  }

  // ----- the final sort, and the whole method

  predicate Inhabited(clusters: seq<Cluster>) {
    forall i :: 0 <= i < |clusters| ==> clusters[i].messages != []
  }

  function OrderedAll(clusters: seq<Cluster>): (r: seq<Cluster>)
    requires Inhabited(clusters)
    ensures |r| == |clusters|
    ensures forall i :: 0 <= i < |r| ==> r[i] == Ordered(clusters[i])
  {
    if clusters == [] then [] else OrderedAll(clusters[..|clusters| - 1]) + [Ordered(clusters[|clusters| - 1])]
  }

  lemma GroupsInhabited(messages: seq<Message>)
    ensures Inhabited(Groups(messages))
  {
    GroupsAreFirstFit(messages);
    assert forall i :: 0 <= i < |Groups(messages)| ==> FirstFitCluster(Groups(messages), i);
  }

  /** Messages beyond the first of each cluster. */
  function Surplus(clusters: seq<Cluster>): nat {
    if clusters == [] then 0
    else
      var size := |clusters[|clusters| - 1].messages|;
      Surplus(clusters[..|clusters| - 1]) + if size > 1 then size - 1 else 0
  }

  lemma {:induction false} SurplusCount(clusters: seq<Cluster>)
    requires Inhabited(clusters)
    ensures |clusters| + Surplus(clusters) == |Members(clusters)|
  {
    if clusters != [] {
      SurplusCount(clusters[..|clusters| - 1]);
    }
  }

  lemma {:induction false} OrderedKeepsMembers(clusters: seq<Cluster>)
    requires Inhabited(clusters)
    ensures Members(OrderedAll(clusters)) == Members(clusters)
  {
    if clusters != [] {
      var n := |clusters| - 1;
      OrderedKeepsMembers(clusters[..n]);
      assert OrderedAll(clusters)[..n] == OrderedAll(clusters[..n]);
    }
  }

  function StatsOf(messages: seq<Message>): Stats {
    var clusters := Groups(messages);
    Stats(|messages|, |clusters|, Surplus(clusters), JoinedFor(messages, Exact), JoinedFor(messages, Url),
          JoinedFor(messages, Similarity))
  }

  function Counted(messages: seq<Message>): Stats {
    Stats(|messages|, 0, 0, JoinedFor(messages, Exact), JoinedFor(messages, Url), JoinedFor(messages, Similarity))
  }

  lemma PlacedCount(messages: seq<Message>, k: nat)
    requires k < |messages|
    ensures var front, message := messages[..k], messages[k];
            && Groups(messages[..k + 1]) == Placed(Groups(front), message)
            && forall r: Reason :: JoinedFor(messages[..k + 1], r) == JoinedFor(front, r)
                 + var i := FirstFit(Groups(front), message);
                   if i.Some? && Match(Groups(front)[i.value].canonical, message) == Some(r) then 1 else 0
  {
    assert messages[..k + 1][..k] == messages[..k];
  }

  /** The first loop of `GroupDuplicates`: one cluster per message that fits nowhere. */
  method PlaceAll(messages: seq<Message>) returns (clusters: seq<Cluster>, stats: Stats)
    ensures clusters == Groups(messages)
    ensures stats == Counted(messages)
  {
    var exact, url, similarity := 0, 0, 0;
    clusters := [];
    for k := 0 to |messages|
      invariant clusters == Groups(messages[..k])
      invariant exact == JoinedFor(messages[..k], Exact)
      invariant url == JoinedFor(messages[..k], Url)
      invariant similarity == JoinedFor(messages[..k], Similarity)
    {
      var message := messages[k];
      PlacedCount(messages, k);
      var index, reason := FindCluster(clusters, message);
      if index.None? {
        clusters := clusters + [Cluster(|clusters| + 1, message, [message], [])];
        continue;
      }
      clusters := clusters[index.value := Joined(clusters[index.value], message, reason)];
      match reason
      case Exact => exact := exact + 1;
      case Url => url := url + 1;
      case Similarity => similarity := similarity + 1;
    }
    assert messages[..|messages|] == messages;
    stats := Stats(|messages|, 0, 0, exact, url, similarity);
  }

  lemma OrderedStep(groups: seq<Cluster>, i: nat)
    requires Inhabited(groups) && i < |groups|
    ensures OrderedAll(groups[..i + 1]) == OrderedAll(groups[..i]) + [Ordered(groups[i])]
    ensures Surplus(groups[..i + 1]) ==
            Surplus(groups[..i]) + if |groups[i].messages| > 1 then |groups[i].messages| - 1 else 0
  {
    assert groups[..i + 1][..i] == groups[..i];
  }

  /** The second loop has reached cluster `i`. */
  ghost predicate SortedUpTo(clusters: seq<Cluster>, groups: seq<Cluster>, i: nat, duplicates: nat)
    requires Inhabited(groups)
  {
    && |clusters| == |groups| && i <= |groups|
    && clusters[..i] == OrderedAll(groups[..i]) && clusters[i..] == groups[i..]
    && duplicates == Surplus(groups[..i])
  }

  lemma SortOneMore(clusters: seq<Cluster>, groups: seq<Cluster>, i: nat, duplicates: nat)
    requires Inhabited(groups) && i < |groups| && SortedUpTo(clusters, groups, i, duplicates)
    ensures clusters[i] == groups[i]
    ensures SortedUpTo(clusters[i := Ordered(groups[i])], groups, i + 1,
                       duplicates + if |groups[i].messages| > 1 then |groups[i].messages| - 1 else 0)
  {
    OrderedStep(groups, i);
    ReplaceStep(clusters, groups, OrderedAll(groups[..i]), i, Ordered(groups[i]));
  }

  lemma SortedAll(clusters: seq<Cluster>, groups: seq<Cluster>, duplicates: nat)
    requires Inhabited(groups) && SortedUpTo(clusters, groups, |groups|, duplicates)
    ensures clusters == OrderedAll(groups) && duplicates == Surplus(groups)
  {
    assert groups[..|groups|] == groups && clusters[..|groups|] == clusters;
  }

  /** Its second loop: sort each cluster by date and make the earliest message canonical. */
  method SortAll(groups: seq<Cluster>) returns (clusters: seq<Cluster>, duplicates: nat)
    requires Inhabited(groups)
    ensures clusters == OrderedAll(groups) && duplicates == Surplus(groups)
  {
    clusters, duplicates := groups, 0;
    for i := 0 to |groups|
      invariant SortedUpTo(clusters, groups, i, duplicates)
    {
      SortOneMore(clusters, groups, i, duplicates);
      var cluster := clusters[i];
      if |cluster.messages| > 1 {
        duplicates := duplicates + |cluster.messages| - 1;
      }
      clusters := clusters[i := Ordered(cluster)];
    }
    SortedAll(clusters, groups, duplicates);
  }

  method GroupDuplicates(messages: seq<Message>) returns (clusters: seq<Cluster>, stats: Stats)
    ensures Inhabited(Groups(messages)) && clusters == OrderedAll(Groups(messages))
    ensures stats == StatsOf(messages)
  {
    GroupsInhabited(messages);
    var surplus;
    clusters, stats := PlaceAll(messages);
    clusters, surplus := SortAll(clusters);
    stats := stats.(clusterCount := |clusters|, duplicateCount := surplus);
  }

  /** The counters account for every message. */
  lemma StatsAddUp(messages: seq<Message>)
    ensures var s := StatsOf(messages);
            && s.inputCount == s.clusterCount + s.duplicateCount
            && s.duplicateCount == s.exactCount + s.urlCount + s.similarityCount
  {
    GroupsInhabited(messages);
    GroupsCount(messages);
    GroupsKeepMessages(messages);
    SurplusCount(Groups(messages));
    assert |multiset(messages)| == |messages|;
  }

  // ----- date order

  predicate AllSorted(clusters: seq<Cluster>) {
    forall i :: 0 <= i < |clusters| ==> SortedByDate(clusters[i].messages)
  }

  predicate SortedByDate(messages: seq<Message>) {
    forall i, j :: 0 <= i < j < |messages| ==> messages[i].date <= messages[j].date
  }

  lemma {:induction false} MembersContain(clusters: seq<Cluster>, i: nat, x: Message)
    requires i < |clusters| && x in clusters[i].messages
    ensures x in Members(clusters)
  {
    if i < |clusters| - 1 {
      MembersContain(clusters[..|clusters| - 1], i, x);
    } else {
      assert x in multiset(clusters[i].messages);
    }
  }

  lemma PlacedStaysSorted(clusters: seq<Cluster>, message: Message)
    requires AllSorted(clusters)
    requires forall x :: x in Members(clusters) ==> x.date <= message.date
    ensures AllSorted(Placed(clusters, message))
  {
    var i := FirstFit(clusters, message);
    if i.Some? {
      var c := clusters[i.value];
      forall k | 0 <= k < |c.messages|
        ensures c.messages[k].date <= message.date
      {
        MembersContain(clusters, i.value, c.messages[k]);
      }
      assert SortedByDate(c.messages + [message]);
    }
  }

  /** In date order the clusters come out sorted, so the final sort changes nothing. */
  lemma {:induction false} GroupsInDateOrder(messages: seq<Message>)
    requires SortedByDate(messages)
    ensures AllSorted(Groups(messages))
  {
    if messages != [] {
      var front, last := messages[..|messages| - 1], messages[|messages| - 1];
      GroupsInDateOrder(front);
      GroupsKeepMessages(front);
      forall x | x in Members(Groups(front))
        ensures x.date <= last.date
      {
        assert x in front;
      }
      PlacedStaysSorted(Groups(front), last);
    }
  }

  lemma DateOrderKeepsSeeds(messages: seq<Message>)
    requires SortedByDate(messages)
    ensures Inhabited(Groups(messages)) && OrderedAll(Groups(messages)) == Groups(messages)
  {
    var clusters := Groups(messages);
    GroupsInhabited(messages);
    GroupsInDateOrder(messages);
    GroupsAreFirstFit(messages);
    forall i | 0 <= i < |clusters|
      ensures Ordered(clusters[i]) == clusters[i]
    {
      assert SortedByDate(clusters[i].messages);
      SortOfSorted(clusters[i].messages, DateBefore);
      assert FirstFitCluster(clusters, i);
    }
  }

  function Canonicals(clusters: seq<Cluster>): (r: seq<Message>)
    ensures |r| == |clusters|
    ensures forall i :: 0 <= i < |r| ==> r[i] == clusters[i].canonical
  {
    if clusters == [] then [] else Canonicals(clusters[..|clusters| - 1]) + [clusters[|clusters| - 1].canonical]
  }

  ghost predicate Apart(messages: seq<Message>) {
    forall i, j :: 0 <= i < j < |messages| ==> !Duplicates(messages[i], messages[j])
  }

  lemma NoFit(clusters: seq<Cluster>, message: Message)
    requires forall j :: 0 <= j < |clusters| ==> !Duplicates(clusters[j].canonical, message)
    ensures Placed(clusters, message) == clusters + [Cluster(|clusters| + 1, message, [message], [])]
  {
  }

  /** Messages that are no duplicates of each other stay alone. */
  lemma {:induction false} ApartStayAlone(messages: seq<Message>)
    requires Apart(messages)
    ensures |Groups(messages)| == |messages|
    ensures forall i :: 0 <= i < |messages| ==> Groups(messages)[i] == Cluster(i + 1, messages[i], [messages[i]], [])
  {
    if messages != [] {
      var front := messages[..|messages| - 1];
      ApartStayAlone(front);
      forall j | 0 <= j < |Groups(front)|
        ensures !Duplicates(Groups(front)[j].canonical, messages[|messages| - 1])
      {
        assert Groups(front)[j].canonical == messages[j];
      }
      NoFit(Groups(front), messages[|messages| - 1]);
    }
  }

  /** Deduplicating the canonical messages of a date-ordered collection again finds nothing. */
  lemma RegroupingFindsNothing(messages: seq<Message>)
    requires SortedByDate(messages)
    ensures Inhabited(Groups(messages))
    ensures var canonicals := Canonicals(OrderedAll(Groups(messages)));
            && |Groups(canonicals)| == |canonicals|
            && forall i ::
                 0 <= i < |canonicals| ==> Groups(canonicals)[i] == Cluster(i + 1, canonicals[i], [canonicals[i]], [])
  {
    DateOrderKeepsSeeds(messages);
    GroupsAreFirstFit(messages);
    var clusters := Groups(messages);
    forall i, j | 0 <= i < j < |clusters|
      ensures !Duplicates(clusters[i].canonical, clusters[j].canonical)
    {
      SeedsAreApart(clusters, i, j);
    }
    ApartStayAlone(Canonicals(clusters));
  }

  lemma GroupsOfThree(a: Message, b: Message, c: Message)
    requires b.hash == a.hash && !Duplicates(a, c)
    ensures Groups([a, b, c]) == [Cluster(1, a, [a, b], [Exact]), Cluster(2, c, [c], [])]
  {
    var first, both := Cluster(1, a, [a], []), Cluster(1, a, [a, b], [Exact]);
    assert [a][..0] == [] && Groups([]) == [];
    assert Groups([a]) == Placed([], a) == [first];
    assert Placed([first], b) == [both] by {
      assert FirstFit([first], b) == Some(0);
      assert Joined(first, b, Exact) == both;
    }
    assert Groups([a, b]) == [both] by {
      assert [a, b][..1] == [a];
    }
    assert Placed([both], c) == [both, Cluster(2, c, [c], [])];
    assert Groups([a, b, c]) == Placed(Groups([a, b]), c) by {
      assert [a, b, c][..2] == [a, b];
    }
  }

  lemma SortOfTwo(a: Message, b: Message)
    requires b.date < a.date
    ensures StableSort([a, b], DateBefore) == [b, a]
  {
    SortPair(a, b, DateBefore);
  }

  /** Out of date order the canonicals of two clusters can be duplicates. */
  lemma OutOfOrderCanonicalsCollide(a: Message, b: Message, c: Message)
    requires b.hash == a.hash && b.date < a.date && !Duplicates(a, c) && Match(b, c) == Some(Url)
    ensures Inhabited(Groups([a, b, c]))
    ensures var clusters := OrderedAll(Groups([a, b, c]));
            |clusters| == 2 && Duplicates(clusters[0].canonical, clusters[1].canonical)
  {
    GroupsOfThree(a, b, c);
    SortOfTwo(a, b);
    SortOfSorted([c], DateBefore);
  }

  lemma SuchCollisionsExist() returns (a: Message, b: Message, c: Message)
    ensures b.hash == a.hash && b.date < a.date && !Duplicates(a, c) && Match(b, c) == Some(Url)
  {
    a := Message(1, 1, 9, "a", [], "a", {});
    b := Message(2, 1, 1, "a", ["u"], "a", {});
    c := Message(3, 1, 10, "c", ["u"], "c", {});
    assert "u" in b.urls && "u" in c.urls;
  }
}
