/**
 Merging duplicate topics under arbitrary proposals: `splitReduceTopics`,
 `reduceTopicChunk`, `applyTopicMerges`, `combineTopicGroup` and
 `mergeDuplicateTopics` of internal/summary/llm/openai.go.
 */
module TopicMerge {
  import opened Anchors
  import opened Indexes
  import opened MergedTexts
  import opened Packing
  import opened Sequences
  import opened Sorting
  import opened Summaries
  import opened Text

  const MAX_REDUCE_CONTENT_BYTES: nat := 48000

  datatype TopicMerge = TopicMerge(topicIndexes: seq<int>, sharedAnchor: string, title: string, shortSummary: string)

  /**
   What the code cannot see inside of: descriptor sizes, model replies per pass and
   chunk (None when the request fails), lower-casing, letters and digits, the title
   order of the second pass, and the folding of a character's case.
   */
  datatype Reducer = Reducer(
    descriptorSize: (nat, Topic) -> nat,
    reply: (nat, seq<Topic>, seq<nat>) -> Option<seq<TopicMerge>>,
    lower: string -> string,
    wordRune: char -> bool,
    titleBefore: (Topic, Topic) -> bool,
    fold: char -> char)
  {
    /** A descriptor takes a separating comma with it. */
    function RequestSize(index: nat, topic: Topic): nat {
      descriptorSize(index, topic) + 1
    }

    /** The anchor as it is looked for in titles. */
    function Anchor(sharedAnchor: string): string {
      lower(TrimSpace(sharedAnchor))
    }

    ghost predicate Names(topic: Topic, anchor: string) {
      Contains(lower(topic.title), anchor)
    }

    /** The proposal names a concrete anchor that occurs in the title of every one of its topics. */
    ghost predicate Anchored(topics: seq<Topic>, merge: TopicMerge) {
      && Concrete(Anchor(merge.sharedAnchor), wordRune)
      && forall k :: 0 <= k < |merge.topicIndexes| ==>
           0 <= merge.topicIndexes[k] < |topics| && Names(topics[merge.topicIndexes[k]], Anchor(merge.sharedAnchor))
    }
  }

  // ----- combining one group

  /** `lowerConfidence`'s table; Go's map gives 0 for anything else. */
  function Rank(confidence: string): nat {
    if confidence == "low" then 1 else if confidence == "medium" then 2 else if confidence == "high" then 3 else 0
  }

  function LowerConfidence(left: string, right: string): string {
    if Rank(right) < Rank(left) then right else left
  }

  function FullTexts(topics: seq<Topic>): (r: seq<string>)
    ensures |r| == |topics| && forall i :: 0 <= i < |r| ==> r[i] == topics[i].fullSummary
  {
    seq(|topics|, i requires 0 <= i < |topics| => topics[i].fullSummary)
  }

  function Reasons(topics: seq<Topic>): (r: seq<string>)
    ensures |r| == |topics| && forall i :: 0 <= i < |r| ==> r[i] == topics[i].whyImportant
  {
    seq(|topics|, i requires 0 <= i < |topics| => topics[i].whyImportant)
  }

  /** Running totals over the first `k` members of a group. */
  datatype Totals = Totals(sources: seq<int>, importance: int, confidence: string)

  function Added(t: Totals, topic: Topic): Totals {
    Totals(
      t.sources + topic.sourceIndexes,
      if topic.importance > t.importance then topic.importance else t.importance,
      LowerConfidence(t.confidence, topic.confidence))
  }

  function TotalsOf(topics: seq<Topic>, group: seq<int>, k: nat): Totals
    requires 0 < |group| && k <= |group| && InRange(group, |topics|)
  {
    if k == 0 then Totals([], topics[group[0]].importance, topics[group[0]].confidence)
    else
      Added(TotalsOf(topics, group, k - 1), topics[group[k - 1]])
  }

  predicate InRange(group: seq<int>, n: nat) {
    forall j :: 0 <= j < |group| ==> 0 <= group[j] < n
  }

  ghost predicate ValidGroup(group: seq<int>, n: nat) {
    |group| >= 2 && Ascending(group) && InRange(group, n)
  }

  function Combined(topics: seq<Topic>, merge: TopicMerge, fold: char -> char): Topic
    requires ValidGroup(merge.topicIndexes, |topics|)
  {
    var group := merge.topicIndexes;
    var t, first := TotalsOf(topics, group, |group|), topics[group[0]];
    Topic(
      if Blank(merge.title) then first.title else TrimSpace(merge.title),
      first.category,
      if Blank(merge.shortSummary) then first.shortSummary else TrimSpace(merge.shortSummary),
      Paragraphs(Uniques(TextsAt(FullTexts(topics), group), fold)),
      Paragraphs(Uniques(TextsAt(Reasons(topics), group), fold)), t.confidence, t.importance, UniqueSorted(t.sources))
  }

  method CombineTopicGroup(topics: seq<Topic>, merge: TopicMerge, fold: char -> char) returns (r: Topic)
    requires ValidGroup(merge.topicIndexes, |topics|)
    ensures r == Combined(topics, merge, fold)
  {
    var group := merge.topicIndexes;
    r := topics[group[0]];
    var sources: seq<int> := [];
    var full: seq<string>, reasons: seq<string> := [], [];
    for k := 0 to |group|
      invariant Totals(sources, r.importance, r.confidence) == TotalsOf(topics, group, k)
      invariant full == Uniques(TextsAt(FullTexts(topics), group[..k]), fold)
      invariant reasons == Uniques(TextsAt(Reasons(topics), group[..k]), fold)
      invariant r == topics[group[0]].(importance := r.importance, confidence := r.confidence)
    {
      var topic := topics[group[k]];
      OneMoreText(FullTexts(topics), group, k, fold);
      OneMoreText(Reasons(topics), group, k, fold);
      sources := sources + topic.sourceIndexes;
      full := AppendUniqueText(full, topic.fullSummary, fold);
      reasons := AppendUniqueText(reasons, topic.whyImportant, fold);
      if topic.importance > r.importance {
        r := r.(importance := topic.importance);
      }
      r := r.(confidence := LowerConfidence(r.confidence, topic.confidence));
    }
    assert group[..|group|] == group;
    if !Blank(merge.title) {
      r := r.(title := TrimSpace(merge.title));
    }
    if !Blank(merge.shortSummary) {
      r := r.(shortSummary := TrimSpace(merge.shortSummary));
    }
    var unique := UniqueSortedIndexes(sources);
    r := r.(fullSummary := Paragraphs(full), whyImportant := Paragraphs(reasons), sourceIndexes := unique);
  }

  /**
   `after` carries the sources of all topics of the class, its greatest importance
   and its least confidence, each of the latter two taken from a member.
   */
  ghost predicate CombinesClass(topics: seq<Topic>, class_: set<int>, after: Topic) {
    && (forall i :: i in class_ ==> 0 <= i < |topics|)
    && (forall x :: x in after.sourceIndexes <==> exists i :: i in class_ && x in topics[i].sourceIndexes)
    && (exists i :: i in class_ && topics[i].importance == after.importance)
    && (forall i :: i in class_ ==> topics[i].importance <= after.importance)
    && (exists i :: i in class_ && topics[i].confidence == after.confidence)
    && (forall i :: i in class_ ==> Rank(after.confidence) <= Rank(topics[i].confidence))
  }

  /**
   What happens to the texts: a topic merged with nothing is unchanged but for its
   source list; a merged one keeps its leader's category and has a full text exactly
   when some member's full text is not blank.
   */
  ghost predicate KeepsText(topics: seq<Topic>, leader: int, class_: set<int>, after: Topic)
    requires leader in class_ && forall i :: i in class_ ==> 0 <= i < |topics|
  {
    && (class_ == {leader} ==> after == topics[leader].(sourceIndexes := after.sourceIndexes))
    && (class_ != {leader} && Blank(after.fullSummary) ==> after.fullSummary == "")
    && after.category == topics[leader].category
    && (Blank(after.fullSummary) <==> forall i :: i in class_ ==> Blank(topics[i].fullSummary))
    && ((forall i :: i in class_ ==> Headed(topics[i])) ==> Headed(after))
  }

  /**
   The full text of a merged topic is made of paragraphs that are texts of its class and
   holds every one of them, up to case; likewise the reasons.
   */
  ghost predicate KeepsParagraphs(topics: seq<Topic>, leader: int, class_: set<int>, after: Topic, fold: char -> char) {
    && TextOfClass(after.fullSummary, FullTexts(topics), leader, class_, fold)
    && TextOfClass(after.whyImportant, Reasons(topics), leader, class_, fold)
  }

  /** A proposed title or short summary that is not blank replaces that of the first topic of the group. */
  ghost predicate TitledBy(topics: seq<Topic>, groups: seq<TopicMerge>, leader: int, class_: set<int>, after: Topic) {
    && 0 <= leader < |topics|
    && if class_ == {leader} then
         after.title == topics[leader].title && after.shortSummary == topics[leader].shortSummary
       else
         exists k ::
           && 0 <= k < |groups| && Elements(groups[k].topicIndexes) == class_
           && after.title == (if Blank(groups[k].title) then topics[leader].title else TrimSpace(groups[k].title))
           && after.shortSummary ==
              if Blank(groups[k].shortSummary) then topics[leader].shortSummary else TrimSpace(groups[k].shortSummary)
  }

  predicate Headed(t: Topic) {
    t.title != "" && t.shortSummary != ""
  }

  lemma CombinedKeepsText(topics: seq<Topic>, merge: TopicMerge, fold: char -> char)
    requires ValidGroup(merge.topicIndexes, |topics|)
    ensures var g := merge.topicIndexes;
            g[0] in Elements(g) && KeepsText(topics, g[0], Elements(g), Combined(topics, merge, fold))
  {
    var g, after := merge.topicIndexes, Combined(topics, merge, fold);
    SeveralMembers(g, |topics|);
    CombinedBlank(topics, g, after.fullSummary, fold);
    assert Headed(topics[g[0]]) ==> Headed(after);
  }

  lemma SeveralMembers(g: seq<int>, n: nat)
    requires ValidGroup(g, n)
    ensures g[0] in Elements(g) && Elements(g) != {g[0]} && forall i :: i in Elements(g) ==> 0 <= i < n
  {
    assert g[1] in Elements(g) && g[1] != g[0];
  }

  lemma CombinedBlank(topics: seq<Topic>, g: seq<int>, full: string, fold: char -> char)
    requires InRange(g, |topics|) && full == Paragraphs(Uniques(TextsAt(FullTexts(topics), g), fold))
    ensures Blank(full) ==> full == ""
    ensures Blank(full) <==> forall i :: i in Elements(g) ==> Blank(topics[i].fullSummary)
  {
    var texts := FullTexts(topics);
    GroupMergesTexts(texts, g, fold);
    MergedBlank(full, texts, Elements(g), fold);
    forall i | i in Elements(g)
      ensures 0 <= i < |topics| && texts[i] == topics[i].fullSummary
    {
    }
  }

  lemma {:induction false} TotalsSources(topics: seq<Topic>, group: seq<int>, k: nat)
    requires 0 < |group| && k <= |group| && InRange(group, |topics|)
    ensures forall x ::
              x in TotalsOf(topics, group, k).sources <==>
              exists j :: 0 <= j < k && x in topics[group[j]].sourceIndexes
  {
    if k > 0 {
      TotalsSources(topics, group, k - 1);
    }
  }

  /** Members `top` and `least` give the greatest importance and the least confidence of the first `k`. */
  ghost predicate Extremes(topics: seq<Topic>, group: seq<int>, k: nat, t: Totals, top: nat, least: nat)
    requires k <= |group| && InRange(group, |topics|)
  {
    && top < k && topics[group[top]].importance == t.importance
    && least < k && topics[group[least]].confidence == t.confidence
    && forall j :: 0 <= j < k ==>
         topics[group[j]].importance <= t.importance && Rank(t.confidence) <= Rank(topics[group[j]].confidence)
  }

  lemma OneMoreExtreme(topics: seq<Topic>, group: seq<int>, k: nat, t: Totals, top: nat, least: nat)
    requires k < |group| && InRange(group, |topics|) && Extremes(topics, group, k, t, top, least)
    ensures var next := Added(t, topics[group[k]]);
            Extremes(topics, group, k + 1, next, if next.importance != t.importance then k else top,
                     if next.confidence != t.confidence then k else least)
  {
  }

  lemma {:induction false} TotalsExtremes(topics: seq<Topic>, group: seq<int>, k: nat)
    returns (top: nat, least: nat)
    requires 0 < k <= |group| && InRange(group, |topics|)
    ensures Extremes(topics, group, k, TotalsOf(topics, group, k), top, least)
  {
    if k == 1 {
      top, least := 0, 0;
    } else {
      top, least := TotalsExtremes(topics, group, k - 1);
      var before, t := TotalsOf(topics, group, k - 1), TotalsOf(topics, group, k);
      OneMoreExtreme(topics, group, k - 1, before, top, least);
      if t.importance != before.importance { top := k - 1; }
      if t.confidence != before.confidence { least := k - 1; }
    }
  }

  lemma CombinedSources(topics: seq<Topic>, merge: TopicMerge, fold: char -> char, x: int)
    requires ValidGroup(merge.topicIndexes, |topics|)
    ensures x in Combined(topics, merge, fold).sourceIndexes <==>
            exists i :: i in Elements(merge.topicIndexes) && x in topics[i].sourceIndexes
  {
    var group := merge.topicIndexes;
    TotalsSources(topics, group, |group|);
    assert x in Combined(topics, merge, fold).sourceIndexes <==>
           x in Elements(TotalsOf(topics, group, |group|).sources);
    if i :| i in Elements(group) && x in topics[i].sourceIndexes {
      var j :| 0 <= j < |group| && group[j] == i;
    }
    if j :| 0 <= j < |group| && x in topics[group[j]].sourceIndexes {
      assert group[j] in Elements(group);
    }
  }

  lemma CombinedExtremes(topics: seq<Topic>, group: seq<int>, t: Totals)
    requires 0 < |group| && InRange(group, |topics|) && t == TotalsOf(topics, group, |group|)
    ensures exists i :: i in Elements(group) && topics[i].importance == t.importance
    ensures exists i :: i in Elements(group) && topics[i].confidence == t.confidence
    ensures forall i :: i in Elements(group) ==>
              topics[i].importance <= t.importance && Rank(t.confidence) <= Rank(topics[i].confidence)
  {
    var top, least := TotalsExtremes(topics, group, |group|);
    assert group[top] in Elements(group) && group[least] in Elements(group);
    forall i | i in Elements(group)
      ensures topics[i].importance <= t.importance && Rank(t.confidence) <= Rank(topics[i].confidence)
    {
      var j :| 0 <= j < |group| && group[j] == i;
    }
  }

  lemma CombinedFacts(topics: seq<Topic>, merge: TopicMerge, fold: char -> char)
    requires ValidGroup(merge.topicIndexes, |topics|)
    ensures CombinesClass(topics, Elements(merge.topicIndexes), Combined(topics, merge, fold))
  {
    var group, after := merge.topicIndexes, Combined(topics, merge, fold);
    CombinedExtremes(topics, group, TotalsOf(topics, group, |group|));
    forall x
      ensures x in after.sourceIndexes <==> exists i :: i in Elements(group) && x in topics[i].sourceIndexes
    {
      CombinedSources(topics, merge, fold, x);
    }
    ClassInRange(group, |topics|);
  }

  lemma ClassInRange(group: seq<int>, n: nat)
    requires InRange(group, n)
    ensures forall i :: i in Elements(group) ==> 0 <= i < n
  {
  }

  // ----- which proposals are accepted

  /** Topics of the accepted groups. */
  function Members(groups: seq<TopicMerge>): set<int> {
    if groups == [] then {}
    else Members(groups[..|groups| - 1]) + Elements(groups[|groups| - 1].topicIndexes)
  }

  /** Pairwise disjoint groups of at least two existing topics, each listed in order. */
  ghost predicate Family(groups: seq<TopicMerge>, n: nat) {
    groups != [] ==>
      var front, last := groups[..|groups| - 1], groups[|groups| - 1].topicIndexes;
      Family(front, n) && ValidGroup(last, n) && Elements(last) !! Members(front)
  }

  function AcceptedGroups(n: nat, merges: seq<TopicMerge>): (groups: seq<TopicMerge>)
    ensures Family(groups, n)
  {
    if merges == [] then []
    else
      var groups := AcceptedGroups(n, merges[..|merges| - 1]);
      var merge := merges[|merges| - 1];
      var valid := UniqueSorted(merge.topicIndexes);
      if |valid| >= 2 && InRange(valid, n) && Elements(valid) !! Members(groups)
      then groups + [merge.(topicIndexes := valid)]
      else groups
  }

  lemma FamilyMember(front: seq<TopicMerge>, last: TopicMerge, n: nat)
    requires Family(front + [last], n)
    ensures Family(front, n) && ValidGroup(last.topicIndexes, n) && Elements(last.topicIndexes) !! Members(front)
    ensures UniqueSorted(last.topicIndexes) == last.topicIndexes
  {
    assert (front + [last])[..|front|] == front;
    UniqueSortedOfAscending(last.topicIndexes);
  }

  /** Proposals that already form such a family are all accepted as they are. */
  lemma {:induction false} FamilyIsAccepted(n: nat, merges: seq<TopicMerge>)
    requires Family(merges, n)
    ensures AcceptedGroups(n, merges) == merges
  {
    if merges != [] {
      SplitLast(merges);
      FamilyMember(merges[..|merges| - 1], merges[|merges| - 1], n);
      FamilyIsAccepted(n, merges[..|merges| - 1]);
    }
  }

  /** Accepted groups are proposals, up to order and repetition of their indexes. */
  lemma {:induction false} AcceptedWereProposed(n: nat, merges: seq<TopicMerge>, g: TopicMerge) returns (k: nat)
    requires g in AcceptedGroups(n, merges)
    ensures k < |merges| && g == merges[k].(topicIndexes := g.topicIndexes)
    ensures Elements(g.topicIndexes) == Elements(merges[k].topicIndexes)
  {
    var front := merges[..|merges| - 1];
    if g in AcceptedGroups(n, front) {
      k := AcceptedWereProposed(n, front, g);
    } else {
      k := |merges| - 1;
    }
  }

  /** The topic that stands for `i`: the first of its group, or `i` itself. */
  function LeaderOf(groups: seq<TopicMerge>, i: int): int {
    if groups == [] then i
    else
      var last := groups[|groups| - 1].topicIndexes;
      if i in last then last[0] else LeaderOf(groups[..|groups| - 1], i)
  }

  /** The accepted group led by `leader`. */
  function GroupOf(groups: seq<TopicMerge>, leader: int): TopicMerge
    requires leader in Members(groups) && LeaderOf(groups, leader) == leader
  {
    var front, last := groups[..|groups| - 1], groups[|groups| - 1];
    if leader in last.topicIndexes then last else GroupOf(front, leader)
  }

  lemma {:induction false} LeaderFacts(groups: seq<TopicMerge>, n: nat, i: int)
    requires Family(groups, n)
    ensures var l := LeaderOf(groups, i);
            && l <= i && LeaderOf(groups, l) == l
            && (i in Members(groups) <==> l in Members(groups))
            && (i in Members(groups) ==> 0 <= l && i < n)
            && (i !in Members(groups) ==> l == i)
  {
    if groups != [] {
      var front, last := groups[..|groups| - 1], groups[|groups| - 1].topicIndexes;
      LeaderFacts(front, n, i);
      assert last[0] in Elements(last);
    }
  }

  lemma {:induction false} GroupFacts(groups: seq<TopicMerge>, n: nat, leader: int)
    requires Family(groups, n) && leader in Members(groups) && LeaderOf(groups, leader) == leader
    ensures var g := GroupOf(groups, leader).topicIndexes;
            && GroupOf(groups, leader) in groups
            && ValidGroup(g, n) && g[0] == leader && Elements(g) <= Members(groups)
            && forall i :: i in g <==> i in Members(groups) && LeaderOf(groups, i) == leader
  {
    var front, last := groups[..|groups| - 1], groups[|groups| - 1].topicIndexes;
    if leader in last {
      forall i | i in Members(front)
        ensures i !in last && LeaderOf(groups, i) != leader
      {
        LeaderFacts(front, n, i);
      }
    } else {
      GroupFacts(front, n, leader);
      assert last[0] in Elements(last);
    }
  }

  // ----- the merged topic list

  function OutputAt(topics: seq<Topic>, groups: seq<TopicMerge>, i: nat, fold: char -> char): seq<Topic>
    requires Family(groups, |topics|) && i < |topics|
  {
    if i !in Members(groups) then [topics[i].(sourceIndexes := UniqueSorted(topics[i].sourceIndexes))]
    else if LeaderOf(groups, i) == i then
      GroupFacts(groups, |topics|, i);
      [Combined(topics, GroupOf(groups, i), fold)]
    else []
  }

  function OutputUpTo(topics: seq<Topic>, groups: seq<TopicMerge>, k: nat, fold: char -> char): seq<Topic>
    requires Family(groups, |topics|) && k <= |topics|
  {
    if k == 0 then [] else OutputUpTo(topics, groups, k - 1, fold) + OutputAt(topics, groups, k - 1, fold)
  }

  /** With no accepted group the topics come back untouched, not even deduplicated. */
  function Applied(topics: seq<Topic>, merges: seq<TopicMerge>, fold: char -> char): seq<Topic> {
    var groups := AcceptedGroups(|topics|, merges);
    if groups == [] then topics else OutputUpTo(topics, groups, |topics|, fold)
  }

  method ApplyTopicMerges(topics: seq<Topic>, merges: seq<TopicMerge>, fold: char -> char)
    returns (result: seq<Topic>)
    ensures result == Applied(topics, merges, fold)
  {
    ghost var accepted: seq<TopicMerge>;
    var groups: map<int, TopicMerge>, members: map<int, int>;
    groups, members, accepted := AcceptMerges(|topics|, merges);
    NoGroups(groups, members, accepted, |topics|);
    if |groups| == 0 {
      return topics;
    }
    result := [];
    for index := 0 to |topics|
      invariant result == OutputUpTo(topics, accepted, index, fold)
    {
      var output := EmitTopic(topics, groups, members, accepted, index, fold);
      result := result + output;
    }
  }

  /** The body of the output loop: a lone topic, a combined group at its first member, or nothing. */
  method EmitTopic(topics: seq<Topic>, groups: map<int, TopicMerge>, members: map<int, int>,
                   ghost accepted: seq<TopicMerge>, index: nat, fold: char -> char)
    returns (output: seq<Topic>)
    requires Family(accepted, |topics|) && Records(groups, members, accepted) && index < |topics|
    ensures output == OutputAt(topics, accepted, index, fold)
  {
    if index !in members {
      var unique := UniqueSortedIndexes(topics[index].sourceIndexes);
      return [topics[index].(sourceIndexes := unique)];
    }
    var root := members[index];
    if root != index {
      return [];
    }
    GroupFacts(accepted, |topics|, index);
    var combined := CombineTopicGroup(topics, groups[root], fold);
    return [combined];
  }

  /** The two maps of the code hold exactly the accepted family. */
  ghost predicate Records(groups: map<int, TopicMerge>, members: map<int, int>, accepted: seq<TopicMerge>) {
    RecordsMembers(members, accepted) && RecordsGroups(groups, accepted)
  }

  ghost predicate RecordsMembers(members: map<int, int>, accepted: seq<TopicMerge>) {
    && members.Keys == Members(accepted)
    && forall i :: i in members ==> members[i] == LeaderOf(accepted, i)
  }

  ghost predicate RecordsGroups(groups: map<int, TopicMerge>, accepted: seq<TopicMerge>) {
    && groups.Keys == (set l | l in Members(accepted) && LeaderOf(accepted, l) == l)
    && forall l :: l in groups ==> groups[l] == GroupOf(accepted, l)
  }

  lemma NoGroups(groups: map<int, TopicMerge>, members: map<int, int>, accepted: seq<TopicMerge>, n: nat)
    requires Family(accepted, n) && Records(groups, members, accepted)
    ensures |groups| == 0 <==> accepted == []
  {
    if accepted == [] {
      assert groups.Keys == {};
    } else {
      var last := accepted[|accepted| - 1].topicIndexes;
      assert last[0] in Elements(last);
      assert last[0] in groups;
    }
  }

  method AcceptMerges(n: nat, merges: seq<TopicMerge>)
    returns (groups: map<int, TopicMerge>, members: map<int, int>, ghost accepted: seq<TopicMerge>)
    ensures accepted == AcceptedGroups(n, merges) && Records(groups, members, accepted)
  {
    groups, members, accepted := map[], map[], [];
    for k := 0 to |merges|
      invariant accepted == AcceptedGroups(n, merges[..k]) && Records(groups, members, accepted)
    {
      assert merges[..k + 1][..k] == merges[..k];
      var valid := UniqueSortedIndexes(merges[k].topicIndexes);
      var free := IsFree(valid, n, members);
      if |valid| < 2 || !free {
        continue;
      }
      RecordGroup(groups, members, accepted, merges[k].(topicIndexes := valid), n);
      groups := groups[valid[0] := merges[k].(topicIndexes := valid)];
      members := AssignMembers(members, valid);
      accepted := accepted + [merges[k].(topicIndexes := valid)];
    }
    assert merges[..|merges|] == merges;
  }

  method IsFree(valid: seq<int>, n: nat, members: map<int, int>) returns (free: bool)
    ensures free <==> InRange(valid, n) && Elements(valid) !! members.Keys
  {
    for j := 0 to |valid|
      invariant forall i :: 0 <= i < j ==> 0 <= valid[i] < n && valid[i] !in members
    {
      if valid[j] < 0 || valid[j] >= n || valid[j] in members {
        assert valid[j] in Elements(valid);
        return false;
      }
    }
    return true;
  }

  method AssignMembers(members: map<int, int>, valid: seq<int>) returns (r: map<int, int>)
    requires valid != []
    ensures r == members + map i | i in Elements(valid) :: valid[0]
  {
    r := members;
    for j := 0 to |valid|
      invariant r == members + map i | i in Elements(valid[..j]) :: valid[0]
    {
      assert Elements(valid[..j + 1]) == Elements(valid[..j]) + {valid[j]};
      r := r[valid[j] := valid[0]];
    }
    assert valid[..|valid|] == valid;
  }

  lemma RecordGroup(groups: map<int, TopicMerge>, members: map<int, int>, accepted: seq<TopicMerge>, merge: TopicMerge,
                    n: nat)
    requires Family(accepted, n) && Records(groups, members, accepted)
    requires var g := merge.topicIndexes; ValidGroup(g, n) && Elements(g) !! Members(accepted)
    ensures var g := merge.topicIndexes;
            Records(groups[g[0] := merge], members + map i | i in Elements(g) :: g[0], accepted + [merge])
  {
    RecordMembers(members, accepted, merge);
    RecordLeader(groups, accepted, merge);
  }

  lemma RecordMembers(members: map<int, int>, accepted: seq<TopicMerge>, merge: TopicMerge)
    requires RecordsMembers(members, accepted) && merge.topicIndexes != []
    ensures RecordsMembers(members + map i | i in Elements(merge.topicIndexes) :: merge.topicIndexes[0],
                           accepted + [merge])
  {
    forall i
      ensures i in Members(accepted + [merge]) <==> i in Members(accepted) || i in Elements(merge.topicIndexes)
      ensures LeaderOf(accepted + [merge], i) ==
              if i in Elements(merge.topicIndexes) then merge.topicIndexes[0] else LeaderOf(accepted, i)
    {
      MemberOfLonger(accepted, merge, i);
    }
  }

  lemma RecordLeader(groups: map<int, TopicMerge>, accepted: seq<TopicMerge>, merge: TopicMerge)
    requires RecordsGroups(groups, accepted) && merge.topicIndexes != []
    requires Elements(merge.topicIndexes) !! Members(accepted)
    ensures RecordsGroups(groups[merge.topicIndexes[0] := merge], accepted + [merge])
  {
    var after, longer := groups[merge.topicIndexes[0] := merge], accepted + [merge];
    forall l
      ensures l in after <==> l in Members(longer) && LeaderOf(longer, l) == l
      ensures l in after ==> after[l] == GroupOf(longer, l)
    {
      LeaderRecorded(groups, accepted, merge, l);
    }
  }

  lemma LeaderRecorded(groups: map<int, TopicMerge>, accepted: seq<TopicMerge>, merge: TopicMerge, l: int)
    requires RecordsGroups(groups, accepted) && merge.topicIndexes != []
    requires Elements(merge.topicIndexes) !! Members(accepted)
    ensures var after, longer := groups[merge.topicIndexes[0] := merge], accepted + [merge];
            && (l in after <==> l in Members(longer) && LeaderOf(longer, l) == l)
            && (l in after ==> after[l] == GroupOf(longer, l))
  {
    var g := merge.topicIndexes;
    assert g[0] in Elements(g);
    MemberOfLonger(accepted, merge, l);
    if l in groups || l == g[0] {
      GroupOfLonger(accepted, merge, l);
    }
  }

  lemma MemberOfLonger(accepted: seq<TopicMerge>, merge: TopicMerge, i: int)
    requires merge.topicIndexes != []
    ensures var g, longer := merge.topicIndexes, accepted + [merge];
            && (i in Members(longer) <==> i in Members(accepted) || i in Elements(g))
            && LeaderOf(longer, i) == if i in Elements(g) then g[0] else LeaderOf(accepted, i)
  {
    assert (accepted + [merge])[..|accepted|] == accepted;
    assert i in merge.topicIndexes <==> i in Elements(merge.topicIndexes);
  }

  lemma GroupOfLonger(accepted: seq<TopicMerge>, merge: TopicMerge, l: int)
    requires merge.topicIndexes != [] && l in Members(accepted + [merge]) && LeaderOf(accepted + [merge], l) == l
    ensures var longer := accepted + [merge];
            if l in Elements(merge.topicIndexes) then l == merge.topicIndexes[0] && GroupOf(longer, l) == merge
            else l in Members(accepted) && LeaderOf(accepted, l) == l && GroupOf(longer, l) == GroupOf(accepted, l)
  {
    MemberOfLonger(accepted, merge, l);
    assert (accepted + [merge])[..|accepted|] == accepted;
    assert l in merge.topicIndexes <==> l in Elements(merge.topicIndexes);
  }

  // ----- what merging keeps

  /** `leaders` are the least members, in order, of disjoint classes that together hold 0 .. n - 1. */
  datatype Plan = Plan(leaders: seq<int>, classes: seq<set<int>>) {
    ghost predicate Partitions(n: nat) {
      && |leaders| == |classes|
      && Ascending(leaders)
      && (forall k :: 0 <= k < |classes| ==> leaders[k] in classes[k])
      && (forall k, i :: 0 <= k < |classes| && i in classes[k] ==> 0 <= leaders[k] <= i < n)
      && (forall j, k :: 0 <= j < k < |classes| ==> classes[j] !! classes[k])
      && (forall i :: i in Input(n) ==> exists k :: 0 <= k < |classes| && i in classes[k])
    }
  }

  /** Every topic before goes into exactly one topic after, and that one combines its class. */
  ghost predicate Combines(before: seq<Topic>, after: seq<Topic>, plan: Plan) {
    && plan.Partitions(|before|)
    && |after| == |plan.classes|
    && (forall k :: 0 <= k < |after| ==> CombinesClass(before, plan.classes[k], after[k]))
    && (forall k :: 0 <= k < |after| ==> KeepsText(before, plan.leaders[k], plan.classes[k], after[k]))
  }

  /** The texts of the topics after are made of those before, class by class. */
  ghost predicate CombinesTexts(before: seq<Topic>, after: seq<Topic>, plan: Plan, fold: char -> char) {
    && |after| == |plan.classes| == |plan.leaders|
    && forall k :: 0 <= k < |after| ==> KeepsParagraphs(before, plan.leaders[k], plan.classes[k], after[k], fold)
  }

  ghost predicate Titled(before: seq<Topic>, after: seq<Topic>, groups: seq<TopicMerge>) {
    var plan := PlanOf(groups, |before|);
    && |after| == |plan.classes|
    && forall k :: 0 <= k < |after| ==> TitledBy(before, groups, plan.leaders[k], plan.classes[k], after[k])
  }

  function Leaders(groups: seq<TopicMerge>, k: nat): seq<int> {
    if k == 0 then []
    else Leaders(groups, k - 1) + if LeaderOf(groups, k - 1) == k - 1 then [k - 1] else []
  }

  function ClassOf(groups: seq<TopicMerge>, n: nat, leader: int): set<int> {
    set i | i in Input(n) && LeaderOf(groups, i) == leader
  }

  lemma {:induction false} LeadersFacts(groups: seq<TopicMerge>, k: nat)
    ensures Ascending(Leaders(groups, k))
    ensures forall i :: i in Leaders(groups, k) <==> 0 <= i < k && LeaderOf(groups, i) == i
  {
    if k > 0 {
      LeadersFacts(groups, k - 1);
      var front := Leaders(groups, k - 1);
      assert forall j :: 0 <= j < |front| ==> front[j] in front;
    }
  }

  function ClassesOf(groups: seq<TopicMerge>, n: nat, leaders: seq<int>): (r: seq<set<int>>)
    ensures |r| == |leaders|
    ensures forall k :: 0 <= k < |r| ==> r[k] == ClassOf(groups, n, leaders[k])
  {
    seq(|leaders|, k requires 0 <= k < |leaders| => ClassOf(groups, n, leaders[k]))
  }

  function PlanOf(groups: seq<TopicMerge>, n: nat): Plan {
    Plan(Leaders(groups, n), ClassesOf(groups, n, Leaders(groups, n)))
  }

  lemma PlanPartitions(groups: seq<TopicMerge>, n: nat)
    requires Family(groups, n)
    ensures PlanOf(groups, n).Partitions(n)
  {
    var leaders, classes := PlanOf(groups, n).leaders, PlanOf(groups, n).classes;
    LeadersFacts(groups, n);
    forall k, i | 0 <= k < |classes| && i in classes[k]
      ensures 0 <= leaders[k] <= i < n
    {
      LeaderFacts(groups, n, i);
      assert leaders[k] in leaders;
    }
    forall k | 0 <= k < |classes|
      ensures leaders[k] in classes[k]
    {
      assert leaders[k] in leaders;
    }
    forall i | i in Input(n)
      ensures exists k :: 0 <= k < |classes| && i in classes[k]
    {
      LeaderFacts(groups, n, i);
      assert LeaderOf(groups, i) in leaders;
      var k :| 0 <= k < |leaders| && leaders[k] == LeaderOf(groups, i);
      assert i in classes[k];
    }
  }

  /** The class of a leader is its group, or itself alone. */
  lemma ClassMembers(groups: seq<TopicMerge>, n: nat, leader: int)
    requires Family(groups, n) && 0 <= leader < n && LeaderOf(groups, leader) == leader
    ensures ClassOf(groups, n, leader) ==
            if leader in Members(groups) then Elements(GroupOf(groups, leader).topicIndexes) else {leader}
  {
    if leader in Members(groups) {
      GroupFacts(groups, n, leader);
    }
    forall i | i in Input(n)
      ensures leader !in Members(groups) && LeaderOf(groups, i) == leader ==> i == leader
      ensures leader in Members(groups) && LeaderOf(groups, i) == leader ==> i in Members(groups)
    {
      LeaderFacts(groups, n, i);
    }
  }

  /** `r` holds the outputs of the leaders, one each. */
  ghost predicate ByLeader(topics: seq<Topic>, groups: seq<TopicMerge>, leaders: seq<int>, r: seq<Topic>,
                           fold: char -> char)
    requires Family(groups, |topics|)
  {
    && |r| == |leaders|
    && forall j :: 0 <= j < |r| ==> IsOutput(topics, groups, leaders[j], r[j], fold)
  }

  ghost predicate IsOutput(topics: seq<Topic>, groups: seq<TopicMerge>, leader: int, t: Topic, fold: char -> char)
    requires Family(groups, |topics|)
  {
    0 <= leader < |topics| && [t] == OutputAt(topics, groups, leader, fold)
  }

  lemma OneMoreOutput(topics: seq<Topic>, groups: seq<TopicMerge>, leaders: seq<int>, r: seq<Topic>, i: nat,
                      fold: char -> char)
    requires Family(groups, |topics|) && i < |topics| && ByLeader(topics, groups, leaders, r, fold)
    ensures ByLeader(topics, groups, leaders + (if LeaderOf(groups, i) == i then [i] else []),
                     r + OutputAt(topics, groups, i, fold), fold)
  {
    LeaderFacts(groups, |topics|, i);
    var out := OutputAt(topics, groups, i, fold);
    if LeaderOf(groups, i) == i {
      assert |out| == 1 && IsOutput(topics, groups, i, out[0], fold);
      OneMoreLeader(topics, groups, leaders, r, i, out[0], fold);
      assert out == [out[0]];
    } else {
      assert out == [] && leaders + [] == leaders && r + [] == r;
    }
  }

  lemma OneMoreLeader(topics: seq<Topic>, groups: seq<TopicMerge>, leaders: seq<int>, r: seq<Topic>, i: int, t: Topic,
                      fold: char -> char)
    requires Family(groups, |topics|) && ByLeader(topics, groups, leaders, r, fold)
    requires IsOutput(topics, groups, i, t, fold)
    ensures ByLeader(topics, groups, leaders + [i], r + [t], fold)
  {
  }

  /** The output list is the leaders' outputs, one after the other. */
  lemma {:induction false} OutputIsByLeader(topics: seq<Topic>, groups: seq<TopicMerge>, k: nat, fold: char -> char)
    requires Family(groups, |topics|) && k <= |topics|
    ensures ByLeader(topics, groups, Leaders(groups, k), OutputUpTo(topics, groups, k, fold), fold)
  {
    if k == 0 {
    } else {
      OutputIsByLeader(topics, groups, k - 1, fold);
      OutputStep(topics, groups, k - 1, fold);
    }
  }

  lemma OutputStep(topics: seq<Topic>, groups: seq<TopicMerge>, k: nat, fold: char -> char)
    requires Family(groups, |topics|) && k < |topics|
    requires ByLeader(topics, groups, Leaders(groups, k), OutputUpTo(topics, groups, k, fold), fold)
    ensures ByLeader(topics, groups, Leaders(groups, k + 1), OutputUpTo(topics, groups, k + 1, fold), fold)
  {
    OneMoreOutput(topics, groups, Leaders(groups, k), OutputUpTo(topics, groups, k, fold), k, fold);
  }

  /** One pass keeps every topic, every source, every text, the top importance and the least confidence. */
  lemma AppliedCombines(topics: seq<Topic>, merges: seq<TopicMerge>, fold: char -> char)
    ensures Combines(topics, Applied(topics, merges, fold), PlanOf(AcceptedGroups(|topics|, merges), |topics|))
    ensures CombinesTexts(topics, Applied(topics, merges, fold), PlanOf(AcceptedGroups(|topics|, merges), |topics|),
                          fold)
    ensures Titled(topics, Applied(topics, merges, fold), AcceptedGroups(|topics|, merges))
  {
    var groups, n := AcceptedGroups(|topics|, merges), |topics|;
    var leaders, r := Leaders(groups, n), Applied(topics, merges, fold);
    PlanPartitions(groups, n);
    LeadersFacts(groups, n);
    if groups == [] {
      NoMergeLeaders(n);
    } else {
      OutputIsByLeader(topics, groups, n, fold);
    }
    forall k | 0 <= k < |r|
      ensures CombinesClass(topics, PlanOf(groups, n).classes[k], r[k])
      ensures KeepsText(topics, leaders[k], PlanOf(groups, n).classes[k], r[k])
      ensures KeepsParagraphs(topics, leaders[k], PlanOf(groups, n).classes[k], r[k], fold)
      ensures TitledBy(topics, groups, leaders[k], PlanOf(groups, n).classes[k], r[k])
    {
      assert leaders[k] in leaders;
      ClassMembers(groups, n, leaders[k]);
      LeaderCombines(topics, groups, leaders[k], r[k], fold);
      LeaderTexts(topics, groups, leaders[k], r[k], fold);
    }
  }

  lemma {:induction false} NoMergeLeaders(n: nat)
    ensures Leaders([], n) == Range(n)
  {
    if n > 0 {
      NoMergeLeaders(n - 1);
    }
  }

  lemma LeaderCombines(topics: seq<Topic>, groups: seq<TopicMerge>, leader: nat, after: Topic, fold: char -> char)
    requires Family(groups, |topics|) && leader < |topics| && LeaderOf(groups, leader) == leader
    requires if groups == [] then after == topics[leader] else [after] == OutputAt(topics, groups, leader, fold)
    ensures var class_ :=
              if leader in Members(groups) then Elements(GroupOf(groups, leader).topicIndexes) else {leader as int};
            leader in class_ && CombinesClass(topics, class_, after) && KeepsText(topics, leader, class_, after)
  {
    if leader in Members(groups) {
      GroupFacts(groups, |topics|, leader);
      CombinedFacts(topics, GroupOf(groups, leader), fold);
      CombinedKeepsText(topics, GroupOf(groups, leader), fold);
    } else {
      assert forall x :: x in after.sourceIndexes <==> x in Elements(after.sourceIndexes);
      assert leader in {leader as int};
    }
  }

  lemma LeaderTexts(topics: seq<Topic>, groups: seq<TopicMerge>, leader: nat, after: Topic, fold: char -> char)
    requires Family(groups, |topics|) && leader < |topics| && LeaderOf(groups, leader) == leader
    requires if groups == [] then after == topics[leader] else [after] == OutputAt(topics, groups, leader, fold)
    ensures var class_ :=
              if leader in Members(groups) then Elements(GroupOf(groups, leader).topicIndexes) else {leader as int};
            KeepsParagraphs(topics, leader, class_, after, fold) && TitledBy(topics, groups, leader, class_, after)
  {
    if leader in Members(groups) {
      GroupFacts(groups, |topics|, leader);
      var k :| 0 <= k < |groups| && groups[k] == GroupOf(groups, leader);
      CombinedTexts(topics, groups[k], fold);
      CombinedTitled(topics, groups, k, fold);
      assert after == Combined(topics, groups[k], fold);
    }
  }

  lemma CombinedTitled(topics: seq<Topic>, groups: seq<TopicMerge>, k: nat, fold: char -> char)
    requires k < |groups| && ValidGroup(groups[k].topicIndexes, |topics|)
    ensures var g := groups[k].topicIndexes;
            TitledBy(topics, groups, g[0], Elements(g), Combined(topics, groups[k], fold))
  {
    SeveralMembers(groups[k].topicIndexes, |topics|);
  }

  lemma CombinedTexts(topics: seq<Topic>, merge: TopicMerge, fold: char -> char)
    requires ValidGroup(merge.topicIndexes, |topics|)
    ensures var g := merge.topicIndexes;
            KeepsParagraphs(topics, g[0], Elements(g), Combined(topics, merge, fold), fold)
  {
    var g := merge.topicIndexes;
    GroupMergesTexts(FullTexts(topics), g, fold);
    GroupMergesTexts(Reasons(topics), g, fold);
    SeveralMembers(g, |topics|);
  }

  /**
   The paragraphs of a combined text, exactly: the texts of the group that are not blank
   and did not come before, trimmed, in the order of the topics.
   */
  lemma CombinedInOrder(topics: seq<Topic>, merge: TopicMerge, fold: char -> char)
    returns (full: seq<string>, fullAt: seq<nat>, reasons: seq<string>, reasonsAt: seq<nat>)
    requires ValidGroup(merge.topicIndexes, |topics|)
    ensures FirstTexts(full, fullAt, TextsAt(FullTexts(topics), merge.topicIndexes), fold)
    ensures FirstTexts(reasons, reasonsAt, TextsAt(Reasons(topics), merge.topicIndexes), fold)
    ensures Combined(topics, merge, fold).fullSummary == Paragraphs(full)
    ensures Combined(topics, merge, fold).whyImportant == Paragraphs(reasons)
  {
    var fulls, whys := TextsAt(FullTexts(topics), merge.topicIndexes), TextsAt(Reasons(topics), merge.topicIndexes);
    full, reasons := Uniques(fulls, fold), Uniques(whys, fold);
    fullAt := UniquesAreFirst(fulls, fold);
    reasonsAt := UniquesAreFirst(whys, fold);
  }

  /** The confidence of a merged topic, word by word: the least certain of its members'. */
  lemma LeastCertain(topics: seq<Topic>, class_: set<int>, after: Topic)
    requires CombinesClass(topics, class_, after)
    ensures (forall i :: i in class_ ==> topics[i].confidence == "high") <==> after.confidence == "high"
    ensures after.confidence == "medium" <==>
            && (forall i :: i in class_ ==> topics[i].confidence == "high" || topics[i].confidence == "medium")
            && exists i :: i in class_ && topics[i].confidence == "medium"
  {
    var i :| i in class_ && topics[i].confidence == after.confidence;
    forall j | j in class_
      ensures topics[j].confidence == "high" <==> Rank(topics[j].confidence) == 3
      ensures topics[j].confidence == "medium" <==> Rank(topics[j].confidence) == 2
    {
    }
  }

  // ----- counting

  /** Each accepted group costs its members and gives back one topic. */
  lemma AppliedCount(topics: seq<Topic>, merges: seq<TopicMerge>, fold: char -> char)
    ensures var groups := AcceptedGroups(|topics|, merges);
            |Applied(topics, merges, fold)| == |topics| - |Members(groups)| + |groups|
  {
    var groups, n := AcceptedGroups(|topics|, merges), |topics|;
    AppliedCombines(topics, merges, fold);
    LeadersFacts(groups, n);
    LeadersCount(groups, n);
    var leaders := Leaders(groups, n);
    assert Distinct(leaders);
    DistinctCardinality(leaders);
  }

  /** One more group replaces its members by its first one. */
  lemma LeadersOfOneMore(groups: seq<TopicMerge>, n: nat)
    requires Family(groups, n) && groups != []
    ensures var front, last := groups[..|groups| - 1], groups[|groups| - 1].topicIndexes;
            var a, b := Elements(Leaders(front, n)), Elements(Leaders(groups, n));
            Elements(last) <= a && last[0] in Elements(last) && b == (a - Elements(last)) + {last[0]}
  {
    var front, last := groups[..|groups| - 1], groups[|groups| - 1].topicIndexes;
    var a, b := Elements(Leaders(front, n)), Elements(Leaders(groups, n));
    LeadersFacts(groups, n);
    LeadersFacts(front, n);
    assert last[0] in Elements(last);
    forall i
      ensures i in b <==> (i in a && i !in Elements(last)) || i == last[0]
    {
      assert i in b <==> i in Leaders(groups, n);
      assert i in a <==> i in Leaders(front, n);
    }
    forall i | i in Elements(last)
      ensures i in a
    {
      LeaderFacts(front, n, i);
      assert i in Leaders(front, n);
    }
  }

  /** Leaders among 0 .. n - 1 are the untouched topics and one topic of each group. */
  lemma {:induction false} LeadersCount(groups: seq<TopicMerge>, n: nat)
    requires Family(groups, n)
    ensures |Elements(Leaders(groups, n))| == n - |Members(groups)| + |groups|
  {
    LeadersFacts(groups, n);
    if groups == [] {
      NoMergeLeaders(n);
      assert Distinct(Range(n));
      DistinctCardinality<int>(Leaders([], n));
    } else {
      var front, last := groups[..|groups| - 1], groups[|groups| - 1].topicIndexes;
      LeadersCount(front, n);
      LeadersFacts(front, n);
      var a, b := Elements(Leaders(front, n)), Elements(Leaders(groups, n));
      LeadersOfOneMore(groups, n);
      assert |a - Elements(last)| == |a| - |Elements(last)|;
      assert |Members(groups)| == |Members(front)| + |Elements(last)|;
    }
  }

  // ----- two passes compose

  function UnionOf(classes: seq<set<int>>, chosen: set<int>): set<int> {
    set j, i | j in chosen && 0 <= j < |classes| && i in classes[j] :: i
  }

  function Composed(first: Plan, second: Plan): (r: Plan)
    requires forall k :: 0 <= k < |second.leaders| ==> 0 <= second.leaders[k] < |first.leaders|
    ensures |r.leaders| == |second.leaders| && |r.classes| == |second.classes|
    ensures forall k :: 0 <= k < |r.leaders| ==> r.leaders[k] == first.leaders[second.leaders[k]]
    ensures forall k :: 0 <= k < |r.classes| ==> r.classes[k] == UnionOf(first.classes, second.classes[k])
  {
    Plan(seq(|second.leaders|, k requires 0 <= k < |second.leaders| => first.leaders[second.leaders[k]]),
         seq(|second.classes|, k requires 0 <= k < |second.classes| => UnionOf(first.classes, second.classes[k])))
  }

  lemma ComposedPartitions(first: Plan, second: Plan, n: nat)
    requires first.Partitions(n) && second.Partitions(|first.classes|)
    ensures Composed(first, second).Partitions(n)
  {
    var r := Composed(first, second);
    forall k | 0 <= k < |r.classes|
      ensures r.leaders[k] in r.classes[k]
    {
      var j := second.leaders[k];
      assert j in second.classes[k] && first.leaders[j] in first.classes[j];
    }
    forall k, i | 0 <= k < |r.classes| && i in r.classes[k]
      ensures 0 <= r.leaders[k] <= i < n
    {
      var j :| j in second.classes[k] && 0 <= j < |first.classes| && i in first.classes[j];
      assert second.leaders[k] <= j;
      assert first.leaders[j] <= i;
    }
    forall j, k | 0 <= j < k < |r.classes|
      ensures r.classes[j] !! r.classes[k]
    {
      UnionsDisjoint(first, n, second.classes[j], second.classes[k]);
    }
    forall i | i in Input(n)
      ensures exists k :: 0 <= k < |r.classes| && i in r.classes[k]
    {
      var k := ComposedCovers(first, second, n, i);
    }
  }

  lemma UnionsDisjoint(first: Plan, n: nat, a: set<int>, b: set<int>)
    requires first.Partitions(n) && a !! b
    ensures UnionOf(first.classes, a) !! UnionOf(first.classes, b)
  {
    forall i | i in UnionOf(first.classes, a) && i in UnionOf(first.classes, b)
      ensures false
    {
      var j :| j in a && 0 <= j < |first.classes| && i in first.classes[j];
      var k :| k in b && 0 <= k < |first.classes| && i in first.classes[k];
      InOneClass(first, n, i, j, k);
    }
  }

  lemma InOneClass(plan: Plan, n: nat, i: int, j: int, k: int)
    requires plan.Partitions(n)
    requires 0 <= j < |plan.classes| && 0 <= k < |plan.classes| && i in plan.classes[j] && i in plan.classes[k]
    ensures j == k
  {
  }

  lemma ComposedCovers(first: Plan, second: Plan, n: nat, i: int) returns (k: nat)
    requires first.Partitions(n) && second.Partitions(|first.classes|) && i in Input(n)
    ensures k < |second.classes| && i in UnionOf(first.classes, second.classes[k])
  {
    var j :| 0 <= j < |first.classes| && i in first.classes[j];
    assert j in Input(|first.classes|);
    k :| 0 <= k < |second.classes| && j in second.classes[k];
  }

  lemma CombinesTransitive(a: seq<Topic>, b: seq<Topic>, c: seq<Topic>, first: Plan, second: Plan)
    requires Combines(a, b, first) && Combines(b, c, second)
    ensures Combines(a, c, Composed(first, second))
  {
    ComposedPartitions(first, second, |a|);
    var plan := Composed(first, second);
    forall k | 0 <= k < |c|
      ensures CombinesClass(a, plan.classes[k], c[k]) && KeepsText(a, plan.leaders[k], plan.classes[k], c[k])
    {
      OutputTransitive(a, b, c, first, second, plan, k);
    }
  }

  /** Texts merged in two passes are those of the joined classes, each kept as a paragraph. */
  lemma TextsTransitive(a: seq<Topic>, b: seq<Topic>, c: seq<Topic>, first: Plan, second: Plan, fold: char -> char)
    requires first.Partitions(|a|) && second.Partitions(|b|)
    requires CombinesTexts(a, b, first, fold) && CombinesTexts(b, c, second, fold)
    requires forall k :: 0 <= k < |second.leaders| ==> 0 <= second.leaders[k] < |first.leaders|
    ensures CombinesTexts(a, c, Composed(first, second), fold)
  {
    forall k | 0 <= k < |c|
      ensures KeepsParagraphs(a, first.leaders[second.leaders[k]], UnionOf(first.classes, second.classes[k]), c[k],
                              fold)
    {
      assert KeepsParagraphs(b, second.leaders[k], second.classes[k], c[k], fold);
      forall j | 0 <= j < |b|
        ensures KeepsParagraphs(a, first.leaders[j], first.classes[j], b[j], fold)
      {
      }
      TextOfUnion(FullTexts(a), FullTexts(b), first, |a|, second.leaders[k], second.classes[k], c[k].fullSummary, fold);
      TextOfUnion(Reasons(a), Reasons(b), first, |a|, second.leaders[k], second.classes[k], c[k].whyImportant, fold);
    }
  }

  lemma TextOfUnion(a: seq<string>, b: seq<string>, first: Plan, n: nat, leader: int, chosen: set<int>, text: string,
                    fold: char -> char)
    requires first.Partitions(n) && TextsOfClasses(b, a, first.leaders, first.classes, fold)
    requires leader in chosen && forall j :: j in chosen ==> 0 <= j < |b|
    requires TextOfClass(text, b, leader, chosen, fold)
    ensures TextOfClass(text, a, first.leaders[leader], UnionOf(first.classes, chosen), fold)
  {
    UnionSingleton(first, n, leader, chosen);
    if chosen == {leader} {
      assert TextOfClass(b[leader], a, first.leaders[leader], first.classes[leader], fold);
    } else {
      forall j | j in chosen
        ensures first.classes[j] <= UnionOf(first.classes, chosen)
      {
        UnionHolds(first.classes, chosen, j);
      }
      MergedAgain(a, b, first.leaders, first.classes, chosen, UnionOf(first.classes, chosen), text, fold);
    }
  }

  lemma OutputTransitive(a: seq<Topic>, b: seq<Topic>, c: seq<Topic>, first: Plan, second: Plan, plan: Plan, k: nat)
    requires Combines(a, b, first) && Combines(b, c, second) && k < |c|
    requires plan == Composed(first, second) && plan.Partitions(|a|)
    ensures CombinesClass(a, plan.classes[k], c[k]) && KeepsText(a, plan.leaders[k], plan.classes[k], c[k])
  {
    assert CombinesClass(b, second.classes[k], c[k]) && KeepsText(b, second.leaders[k], second.classes[k], c[k]);
    ClassTransitive(a, b, first, second.classes[k], c[k]);
    TextTransitive(a, b, first, second.leaders[k], second.classes[k], c[k]);
  }

  lemma TextTransitive(a: seq<Topic>, b: seq<Topic>, first: Plan, leader: int, chosen: set<int>, after: Topic)
    requires Combines(a, b, first) && leader in chosen && (forall j :: j in chosen ==> 0 <= j < |b|)
    requires KeepsText(b, leader, chosen, after)
    ensures first.leaders[leader] in UnionOf(first.classes, chosen)
    ensures KeepsText(a, first.leaders[leader], UnionOf(first.classes, chosen), after)
  {
    var class_, l := UnionOf(first.classes, chosen), first.leaders[leader];
    assert KeepsText(a, l, first.classes[leader], b[leader]);
    UnionBlank(a, b, first, chosen);
    if forall i :: i in class_ ==> Headed(a[i]) { UnionHeaded(a, b, first, chosen); }
    UnionSingleton(first, |a|, leader, chosen);
  }

  /** A union of classes is one topic only if it is one class of one topic. */
  lemma UnionSingleton(first: Plan, n: nat, leader: int, chosen: set<int>)
    requires first.Partitions(n) && leader in chosen && (forall j :: j in chosen ==> 0 <= j < |first.classes|)
    ensures first.leaders[leader] in UnionOf(first.classes, chosen)
    ensures chosen == {leader} ==> UnionOf(first.classes, chosen) == first.classes[leader]
    ensures chosen != {leader} ==> UnionOf(first.classes, chosen) != {first.leaders[leader]}
  {
    if chosen == {leader} {
      assert forall i :: i in UnionOf(first.classes, chosen) <==> i in first.classes[leader];
    } else {
      var j := AnotherMember(chosen, leader);
      ClassesDisjoint(first, n, j, leader);
      assert first.leaders[j] in UnionOf(first.classes, chosen);
    }
  }

  lemma AnotherMember(chosen: set<int>, leader: int) returns (j: int)
    requires leader in chosen && chosen != {leader}
    ensures j in chosen && j != leader
  {
    assert (forall x :: x in chosen <==> x in {leader}) ==> chosen == {leader};
    j :| j in chosen && j != leader;
  }

  lemma UnionHolds(classes: seq<set<int>>, chosen: set<int>, j: int)
    requires j in chosen && 0 <= j < |classes|
    ensures classes[j] <= UnionOf(classes, chosen)
  {
    assert forall i :: i in classes[j] ==> i in UnionOf(classes, chosen);
  }

  lemma UnionBlank(a: seq<Topic>, b: seq<Topic>, first: Plan, chosen: set<int>)
    requires Combines(a, b, first) && (forall j :: j in chosen ==> 0 <= j < |b|)
    ensures (forall i :: i in UnionOf(first.classes, chosen) ==> Blank(a[i].fullSummary)) <==>
            (forall j :: j in chosen ==> Blank(b[j].fullSummary))
  {
    var union := UnionOf(first.classes, chosen);
    if forall i :: i in union ==> Blank(a[i].fullSummary) {
      forall j | j in chosen
        ensures Blank(b[j].fullSummary)
      {
        UnionHolds(first.classes, chosen, j);
        assert KeepsText(a, first.leaders[j], first.classes[j], b[j]);
      }
    }
    if forall j :: j in chosen ==> Blank(b[j].fullSummary) {
      forall i | i in union
        ensures Blank(a[i].fullSummary)
      {
        var j :| j in chosen && 0 <= j < |first.classes| && i in first.classes[j];
        assert KeepsText(a, first.leaders[j], first.classes[j], b[j]);
      }
    }
  }

  lemma UnionHeaded(a: seq<Topic>, b: seq<Topic>, first: Plan, chosen: set<int>)
    requires Combines(a, b, first) && (forall j :: j in chosen ==> 0 <= j < |b|)
    requires forall i :: i in UnionOf(first.classes, chosen) ==> Headed(a[i])
    ensures forall j :: j in chosen ==> Headed(b[j])
  {
    forall j | j in chosen
      ensures Headed(b[j])
    {
      UnionHolds(first.classes, chosen, j);
      assert KeepsText(a, first.leaders[j], first.classes[j], b[j]);
    }
  }

  lemma ClassesDisjoint(plan: Plan, n: nat, j: int, k: int)
    requires plan.Partitions(n) && 0 <= j < |plan.classes| && 0 <= k < |plan.classes| && j != k
    ensures plan.classes[j] !! plan.classes[k]
  {
  }

  lemma ClassTransitive(a: seq<Topic>, b: seq<Topic>, first: Plan, chosen: set<int>, after: Topic)
    requires Combines(a, b, first) && CombinesClass(b, chosen, after)
    ensures CombinesClass(a, UnionOf(first.classes, chosen), after)
  {
    SourcesTransitive(a, b, first, chosen, after);
    BoundsTransitive(a, b, first, chosen, after);
    ExtremesTransitive(a, b, first, chosen, after);
  }

  lemma SourcesTransitive(a: seq<Topic>, b: seq<Topic>, first: Plan, chosen: set<int>, after: Topic)
    requires Combines(a, b, first) && CombinesClass(b, chosen, after)
    ensures forall i :: i in UnionOf(first.classes, chosen) ==> 0 <= i < |a|
    ensures forall x ::
              x in after.sourceIndexes <==> exists i :: i in UnionOf(first.classes, chosen) && x in a[i].sourceIndexes
  {
    var class_ := UnionOf(first.classes, chosen);
    forall x
      ensures x in after.sourceIndexes <==> exists i :: i in class_ && x in a[i].sourceIndexes
    {
      if x in after.sourceIndexes {
        var j :| j in chosen && x in b[j].sourceIndexes;
        assert CombinesClass(a, first.classes[j], b[j]);
        var i :| i in first.classes[j] && x in a[i].sourceIndexes;
        assert i in class_;
      }
      if i :| i in class_ && x in a[i].sourceIndexes {
        var j :| j in chosen && 0 <= j < |first.classes| && i in first.classes[j];
        assert CombinesClass(a, first.classes[j], b[j]);
      }
    }
  }

  lemma BoundsTransitive(a: seq<Topic>, b: seq<Topic>, first: Plan, chosen: set<int>, after: Topic)
    requires Combines(a, b, first) && CombinesClass(b, chosen, after)
    ensures forall i :: i in UnionOf(first.classes, chosen) ==>
              0 <= i < |a| && a[i].importance <= after.importance && Rank(after.confidence) <= Rank(a[i].confidence)
  {
    forall i | i in UnionOf(first.classes, chosen)
      ensures 0 <= i < |a| && a[i].importance <= after.importance && Rank(after.confidence) <= Rank(a[i].confidence)
    {
      var j :| j in chosen && 0 <= j < |first.classes| && i in first.classes[j];
      assert CombinesClass(a, first.classes[j], b[j]);
    }
  }

  lemma ExtremesTransitive(a: seq<Topic>, b: seq<Topic>, first: Plan, chosen: set<int>, after: Topic)
    requires Combines(a, b, first) && CombinesClass(b, chosen, after)
    requires forall i :: i in UnionOf(first.classes, chosen) ==> 0 <= i < |a|
    ensures exists i :: i in UnionOf(first.classes, chosen) && a[i].importance == after.importance
    ensures exists i :: i in UnionOf(first.classes, chosen) && a[i].confidence == after.confidence
  {
    var top :| top in chosen && b[top].importance == after.importance;
    UnionHolds(first.classes, chosen, top);
    assert CombinesClass(a, first.classes[top], b[top]);
    var i :| i in first.classes[top] && a[i].importance == after.importance;
    var least :| least in chosen && b[least].confidence == after.confidence;
    UnionHolds(first.classes, chosen, least);
    assert CombinesClass(a, first.classes[least], b[least]);
    var l :| l in first.classes[least] && a[l].confidence == after.confidence;
  }

  lemma IdentityCombines(topics: seq<Topic>, fold: char -> char)
    ensures Combines(topics, topics, PlanOf([], |topics|)) && CombinesTexts(topics, topics, PlanOf([], |topics|), fold)
  {
    AppliedCombines(topics, [], fold);
  }

  /** No source is lost or invented. */
  lemma CombinesKeepsSources(before: seq<Topic>, after: seq<Topic>, plan: Plan)
    requires Combines(before, after, plan)
    ensures Used(after) == Used(before)
  {
    forall x
      ensures x in Used(after) <==> x in Used(before)
    {
      UsedIff(after, x);
      UsedIff(before, x);
      if k :| 0 <= k < |after| && x in after[k].sourceIndexes {
        assert CombinesClass(before, plan.classes[k], after[k]);
        var i :| i in plan.classes[k] && x in before[i].sourceIndexes;
      }
      if i :| 0 <= i < |before| && x in before[i].sourceIndexes {
        SourceStays(before, after, plan, i, x);
      }
    }
  }

  lemma SourceStays(before: seq<Topic>, after: seq<Topic>, plan: Plan, i: nat, x: int)
    requires Combines(before, after, plan) && i < |before| && x in before[i].sourceIndexes
    ensures exists k :: 0 <= k < |after| && x in after[k].sourceIndexes
  {
    assert i in Input(|before|);
    var k :| 0 <= k < |plan.classes| && i in plan.classes[k];
    assert CombinesClass(before, plan.classes[k], after[k]);
    assert x in after[k].sourceIndexes;
  }

  // ----- chunked requests

  function DescriptorSizes(topics: seq<Topic>, reducer: Reducer): (r: seq<nat>)
    ensures |r| == |topics|
    ensures forall i :: 0 <= i < |r| ==> r[i] == reducer.descriptorSize(i, topics[i]) + 1
  {
    seq(|topics|, i requires 0 <= i < |topics| => reducer.RequestSize(i, topics[i]))
  }

  /** Cut `order` into requests; only a single oversized descriptor may exceed the budget. */
  method SplitReduceTopics(topics: seq<Topic>, order: seq<nat>, maxBytes: nat, reducer: Reducer)
    returns (chunks: seq<seq<nat>>)
    requires forall k :: 0 <= k < |order| ==> order[k] < |topics|
    ensures chunks == GreedyParts(DescriptorSizes(topics, reducer), order, maxBytes)
    ensures Flatten(chunks) == order
    ensures Tight(DescriptorSizes(topics, reducer), chunks, maxBytes)
    ensures forall k ::
              0 <= k < |chunks| ==> |chunks[k]| == 1 || Weight(DescriptorSizes(topics, reducer), chunks[k]) <= maxBytes
  {
    ghost var sizes := DescriptorSizes(topics, reducer);
    chunks := [];
    var chunk: seq<nat>, size := [], 0;
    for k := 0 to |order|
      invariant Cut(chunks, chunk) == Greedy(sizes, order[..k], maxBytes)
      invariant size == Weight(sizes, chunk)
      invariant k > 0 ==> chunk != []
    {
      var index := order[k];
      var descriptorSize := reducer.descriptorSize(index, topics[index]) + 1;
      GreedyStep(sizes, order, k, maxBytes);
      JoinWeight(sizes, chunk, index);
      if |chunk| > 0 && size + descriptorSize > maxBytes {
        chunks, chunk, size := chunks + [chunk], [], 0;
      }
      JoinWeight(sizes, chunk, index);
      chunk, size := chunk + [index], size + descriptorSize;
    }
    assert order[..|order|] == order;
    if |chunk| > 0 {
      chunks := chunks + [chunk];
    }
    GreedyPartsFacts(sizes, order, maxBytes);
  }

  lemma JoinWeight(sizes: seq<nat>, part: seq<nat>, i: nat)
    requires i < |sizes|
    ensures Weight(sizes, part + [i]) == Weight(sizes, part) + sizes[i]
    ensures part == [] ==> part + [i] == [i]
  {
    WeightOfJoin(sizes, part, i);
  }

  predicate InsideChunk(merge: TopicMerge, chunk: seq<nat>) {
    forall k :: 0 <= k < |merge.topicIndexes| ==> merge.topicIndexes[k] in chunk
  }

  /** The reply's groups that stay inside the chunk and name a concrete shared anchor. */
  ghost function Trusted(topics: seq<Topic>, chunk: seq<nat>, merges: seq<TopicMerge>, reducer: Reducer)
    : seq<TopicMerge>
  {
    if merges == [] then []
    else
      var last := merges[|merges| - 1];
      Trusted(topics, chunk, merges[..|merges| - 1], reducer)
      + if InsideChunk(last, chunk) && reducer.Anchored(topics, last) then [last] else []
  }

  method HasConcreteSharedAnchor(topics: seq<Topic>, merge: TopicMerge, reducer: Reducer) returns (anchored: bool)
    ensures anchored <==> reducer.Anchored(topics, merge)
  {
    var anchor := reducer.lower(TrimSpace(merge.sharedAnchor));
    if |anchor| < 4 {
      return false;
    }
    var generic := GenericMergeAnchor(anchor, reducer.wordRune);
    if generic {
      return false;
    }
    for k := 0 to |merge.topicIndexes|
      invariant forall j :: 0 <= j < k ==>
                  0 <= merge.topicIndexes[j] < |topics| && reducer.Names(topics[merge.topicIndexes[j]], anchor)
    {
      var index := merge.topicIndexes[k];
      if index < 0 || index >= |topics| {
        return false;
      }
      var found := StringsContains(reducer.lower(topics[index].title), anchor);
      if !found {
        return false;
      }
    }
    return true;
  }

  method ReduceTopicChunk(topics: seq<Topic>, chunk: seq<nat>, reply: seq<TopicMerge>, reducer: Reducer)
    returns (valid: seq<TopicMerge>)
    ensures valid == Trusted(topics, chunk, reply, reducer)
    ensures forall k :: 0 <= k < |valid| ==>
              reducer.Anchored(topics, valid[k]) && InsideChunk(valid[k], chunk)
  {
    valid := [];
    for k := 0 to |reply|
      invariant valid == Trusted(topics, chunk, reply[..k], reducer)
      invariant forall j :: 0 <= j < |valid| ==>
                  reducer.Anchored(topics, valid[j]) && InsideChunk(valid[j], chunk)
    {
      assert reply[..k + 1][..k] == reply[..k];
      var indexes := reply[k].topicIndexes;
      var insideChunk := true;
      for j := 0 to |indexes|
        invariant insideChunk ==> forall i :: 0 <= i < j ==> indexes[i] in chunk
        invariant insideChunk
      {
        if indexes[j] !in chunk {
          insideChunk := false;
          break;
        }
      }
      assert insideChunk <==> InsideChunk(reply[k], chunk);
      if insideChunk {
        var anchored := HasConcreteSharedAnchor(topics, reply[k], reducer);
        if anchored {
          valid := valid + [reply[k]];
        }
      }
    }
    assert reply[..|reply|] == reply;
  }

  predicate TitleOrder(topics: seq<Topic>, reducer: Reducer, i: nat, j: nat) {
    i < |topics| && j < |topics| && reducer.titleBefore(topics[i], topics[j])
  }

  function ByTitle(topics: seq<Topic>, reducer: Reducer): (nat, nat) -> bool {
    (i: nat, j: nat) => TitleOrder(topics, reducer, i, j)
  }

  /** The order in which a pass looks at the topics. */
  function PassOrder(topics: seq<Topic>, pass: nat, reducer: Reducer): seq<nat> {
    if pass == 1 then StableSort(Range(|topics|), ByTitle(topics, reducer)) else Range(|topics|)
  }

  /** The first pass looks at the topics as they come, the second in the order of their titles. */
  lemma PassOrders(topics: seq<Topic>, reducer: Reducer)
    requires StrictWeakOrder(ByTitle(topics, reducer))
    ensures PassOrder(topics, 0, reducer) == Range(|topics|)
    ensures var order := PassOrder(topics, 1, reducer);
            && multiset(order) == multiset(Range(|topics|))
            && forall i, j :: 0 <= i < j < |order| && order[i] < |topics| && order[j] < |topics| ==>
                 !reducer.titleBefore(topics[order[j]], topics[order[i]])
  {
    var order := PassOrder(topics, 1, reducer);
    StableSortSorted(Range(|topics|), ByTitle(topics, reducer));
    forall i, j | 0 <= i < j < |order|
      ensures !TitleOrder(topics, reducer, order[j], order[i])
    {
      assert !ByTitle(topics, reducer)(order[j], order[i]);
    }
  }

  function PassChunks(topics: seq<Topic>, pass: nat, reducer: Reducer): seq<seq<nat>> {
    GreedyParts(DescriptorSizes(topics, reducer), PassOrder(topics, pass, reducer), MAX_REDUCE_CONTENT_BYTES)
  }

  /** The trusted proposals of all answered chunks. */
  ghost function TrustedOf(topics: seq<Topic>, pass: nat, chunks: seq<seq<nat>>, reducer: Reducer): seq<TopicMerge> {
    if chunks == [] then []
    else
      var front, chunk := TrustedOf(topics, pass, chunks[..|chunks| - 1], reducer), chunks[|chunks| - 1];
      var reply := reducer.reply(pass, topics, chunk);
      if reply.None? then front else front + Trusted(topics, chunk, reply.value, reducer)
  }

  ghost function PassMerges(topics: seq<Topic>, pass: nat, reducer: Reducer): seq<TopicMerge> {
    TrustedOf(topics, pass, PassChunks(topics, pass, reducer), reducer)
  }

  ghost function AfterPass(topics: seq<Topic>, pass: nat, reducer: Reducer): seq<Topic> {
    Applied(topics, PassMerges(topics, pass, reducer), reducer.fold)
  }

  /** Which topics a pass merges, given the replies. */
  ghost function PassPlan(topics: seq<Topic>, pass: nat, reducer: Reducer): Plan {
    PlanOf(AcceptedGroups(|topics|, PassMerges(topics, pass, reducer)), |topics|)
  }

  lemma PassCombines(topics: seq<Topic>, pass: nat, reducer: Reducer)
    ensures Combines(topics, AfterPass(topics, pass, reducer), PassPlan(topics, pass, reducer))
    ensures CombinesTexts(topics, AfterPass(topics, pass, reducer), PassPlan(topics, pass, reducer), reducer.fold)
    ensures Titled(topics, AfterPass(topics, pass, reducer),
                   AcceptedGroups(|topics|, PassMerges(topics, pass, reducer)))
  {
    AppliedCombines(topics, PassMerges(topics, pass, reducer), reducer.fold);
  }

  /** One pass: cut into requests, keep the trusted groups of the answered ones, apply them all. */
  method MergePass(topics: seq<Topic>, pass: nat, reducer: Reducer) returns (result: seq<Topic>, requests: nat)
    ensures result == AfterPass(topics, pass, reducer) && requests == |PassChunks(topics, pass, reducer)|
    ensures Combines(topics, result, PassPlan(topics, pass, reducer))
    ensures CombinesTexts(topics, result, PassPlan(topics, pass, reducer), reducer.fold)
    ensures Titled(topics, result, AcceptedGroups(|topics|, PassMerges(topics, pass, reducer)))
  {
    var order: seq<nat> := Range(|topics|);
    if pass == 1 {
      order := StableSort(order, ByTitle(topics, reducer));
    }
    assert order == PassOrder(topics, pass, reducer);
    OrderInRange(topics, pass, reducer);
    var chunks := SplitReduceTopics(topics, order, MAX_REDUCE_CONTENT_BYTES, reducer);
    var passMerges := AskChunks(topics, pass, chunks, reducer);
    result := ApplyTopicMerges(topics, passMerges, reducer.fold);
    requests := |chunks|;
    PassCombines(topics, pass, reducer);
  }

  lemma OrderInRange(topics: seq<Topic>, pass: nat, reducer: Reducer)
    ensures forall k :: 0 <= k < |PassOrder(topics, pass, reducer)| ==> PassOrder(topics, pass, reducer)[k] < |topics|
  {
    var order := PassOrder(topics, pass, reducer);
    SameElements(Range(|topics|), order);
    assert forall k :: 0 <= k < |order| ==> order[k] in Elements(order);
  }

  method AskChunks(topics: seq<Topic>, pass: nat, chunks: seq<seq<nat>>, reducer: Reducer)
    returns (passMerges: seq<TopicMerge>)
    ensures passMerges == TrustedOf(topics, pass, chunks, reducer)
  {
    passMerges := [];
    for c := 0 to |chunks|
      invariant passMerges == TrustedOf(topics, pass, chunks[..c], reducer)
    {
      assert chunks[..c + 1][..c] == chunks[..c];
      var reply := reducer.reply(pass, topics, chunks[c]);
      if reply.None? {
        continue;
      }
      var merges := ReduceTopicChunk(topics, chunks[c], reply.value, reducer);
      passMerges := passMerges + merges;
    }
    assert chunks[..|chunks|] == chunks;
  }

  /** A single request settles the matter in one pass; otherwise there is a second one. */
  ghost function MergedTopics(topics: seq<Topic>, reducer: Reducer): seq<Topic> {
    if |topics| < 2 then topics
    else if |PassChunks(topics, 0, reducer)| == 1 then AfterPass(topics, 0, reducer)
    else AfterPass(AfterPass(topics, 0, reducer), 1, reducer)
  }

  /** Which of the original topics end up together, given all replies. */
  ghost function ReducePlan(topics: seq<Topic>, reducer: Reducer): Plan {
    if |topics| < 2 then PlanOf([], |topics|)
    else if |PassChunks(topics, 0, reducer)| == 1 then PassPlan(topics, 0, reducer)
    else
      PassCombines(topics, 0, reducer);
      PassCombines(AfterPass(topics, 0, reducer), 1, reducer);
      LeadersInRange(PassPlan(AfterPass(topics, 0, reducer), 1, reducer), |AfterPass(topics, 0, reducer)|);
      Composed(PassPlan(topics, 0, reducer), PassPlan(AfterPass(topics, 0, reducer), 1, reducer))
  }

  lemma LeadersInRange(plan: Plan, n: nat)
    requires plan.Partitions(n)
    ensures forall k :: 0 <= k < |plan.leaders| ==> 0 <= plan.leaders[k] < n
  {
    assert forall k :: 0 <= k < |plan.leaders| ==> plan.leaders[k] in plan.classes[k];
  }

  lemma MergedCombines(topics: seq<Topic>, reducer: Reducer)
    ensures Combines(topics, MergedTopics(topics, reducer), ReducePlan(topics, reducer))
    ensures CombinesTexts(topics, MergedTopics(topics, reducer), ReducePlan(topics, reducer), reducer.fold)
  {
    if |topics| < 2 {
      IdentityCombines(topics, reducer.fold);
    } else {
      PassCombines(topics, 0, reducer);
      if |PassChunks(topics, 0, reducer)| != 1 {
        var once := AfterPass(topics, 0, reducer);
        PassCombines(once, 1, reducer);
        CombinesTransitive(topics, once, AfterPass(once, 1, reducer), PassPlan(topics, 0, reducer),
                           PassPlan(once, 1, reducer));
        LeadersInRange(PassPlan(once, 1, reducer), |once|);
        TextsTransitive(topics, once, AfterPass(once, 1, reducer), PassPlan(topics, 0, reducer),
                        PassPlan(once, 1, reducer), reducer.fold);
      }
    }
  }

  /**
   Whatever the model proposes, in whatever chunks, over one or two passes: every
   topic lands in exactly one result, with sources, texts, importance and confidence kept.
   */
  method MergeDuplicateTopics(topics: seq<Topic>, reducer: Reducer) returns (current: seq<Topic>)
    ensures current == MergedTopics(topics, reducer)
    ensures Combines(topics, current, ReducePlan(topics, reducer))
    ensures CombinesTexts(topics, current, ReducePlan(topics, reducer), reducer.fold)
    ensures Used(current) == Used(topics)
  {
    current := topics;
    if |topics| >= 2 {
      for pass := 0 to 2
        invariant pass == 0 ==> current == topics
        invariant pass > 0 ==> |PassChunks(topics, 0, reducer)| != 1
        invariant pass == 1 ==> current == AfterPass(topics, 0, reducer)
        invariant pass == 2 ==> current == AfterPass(AfterPass(topics, 0, reducer), 1, reducer)
      {
        var requests;
        current, requests := MergePass(current, pass, reducer);
        if requests == 1 {
          break;
        }
      }
    }
    MergedCombines(topics, reducer);
    CombinesKeepsSources(topics, current, ReducePlan(topics, reducer));
  }
}
