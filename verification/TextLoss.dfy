/**
 When merging topics can leave one without its full text: exactly when topics that
 have none to give are merged with each other.
 */
module TextLoss {
  import opened Anchors
  import opened Indexes
  import opened Packing
  import opened Sequences
  import opened Summaries
  import opened Text
  import opened TopicMerge

  predicate BlankAt(topics: seq<Topic>, i: int) {
    0 <= i < |topics| && Blank(topics[i].fullSummary)
  }

  /** A group of two or more topics none of which has a full text to pass on. */
  ghost predicate LosesText(topics: seq<Topic>, plan: Plan, k: nat) {
    && k < |plan.classes| && k < |plan.leaders|
    && plan.classes[k] != {plan.leaders[k]} && forall i :: i in plan.classes[k] ==> BlankAt(topics, i)
  }

  ghost predicate MergesBlanks(topics: seq<Topic>, plan: Plan) {
    exists k :: 0 <= k < |plan.classes| && LosesText(topics, plan, k)
  }

  ghost predicate TwoBlanks(topics: seq<Topic>) {
    exists i, j :: i < j && BlankAt(topics, i) && BlankAt(topics, j)
  }

  // ----- for arbitrary ways of merging

  /** At most one blank text is always safe. */
  lemma OneBlankIsSafe(topics: seq<Topic>, plan: Plan)
    requires plan.Partitions(|topics|) && MergesBlanks(topics, plan)
    ensures TwoBlanks(topics)
  {
    var k :| 0 <= k < |plan.classes| && LosesText(topics, plan, k);
    var leader := plan.leaders[k];
    var other := AnotherMember(plan.classes[k], leader);
    assert BlankAt(topics, leader) && BlankAt(topics, other) && leader < other;
  }

  /** The plan that merges topics `i` and `j` and nothing else. */
  lemma PairPlan(n: nat, i: nat, j: nat, merge: TopicMerge) returns (k: nat)
    requires i < j < n && merge.topicIndexes == [i, j]
    ensures Family([merge], n) && AcceptedGroups(n, [merge]) == [merge]
    ensures var plan := PlanOf([merge], n);
            plan.Partitions(n) && k < |plan.classes| && plan.leaders[k] == i && plan.classes[k] == {i as int, j}
  {
    var groups := [merge];
    assert groups[..0] == [];
    assert Elements(merge.topicIndexes) == {i as int, j};
    FamilyIsAccepted(n, groups);
    PlanPartitions(groups, n);
    LeadersFacts(groups, n);
    var leaders := Leaders(groups, n);
    assert i in Members(groups) && LeaderOf(groups, i) == i;
    assert i in leaders;
    k :| 0 <= k < |leaders| && leaders[k] == i;
    ClassMembers(groups, n, i);
    assert GroupOf(groups, i) == merge;
  }

  lemma BlankPairLoses(topics: seq<Topic>, i: nat, j: nat, merge: TopicMerge)
    requires i < j && BlankAt(topics, i) && BlankAt(topics, j) && merge.topicIndexes == [i, j]
    ensures PlanOf([merge], |topics|).Partitions(|topics|) && MergesBlanks(topics, PlanOf([merge], |topics|))
  {
    var k := PairPlan(|topics|, i, j, merge);
    PairLoses(topics, PlanOf([merge], |topics|), k, i, j);
  }

  lemma PairLoses(topics: seq<Topic>, plan: Plan, k: nat, i: int, j: int)
    requires i < j && BlankAt(topics, i) && BlankAt(topics, j)
    requires k < |plan.classes| && k < |plan.leaders| && plan.classes[k] == {i, j} && plan.leaders[k] == i
    ensures MergesBlanks(topics, plan)
  {
    assert j in plan.classes[k];
    assert LosesText(topics, plan, k);
  }

  /** Two blank texts can always be merged away. */
  lemma TwoBlanksCanMerge(topics: seq<Topic>) returns (plan: Plan)
    requires TwoBlanks(topics)
    ensures plan.Partitions(|topics|) && MergesBlanks(topics, plan)
  {
    var i, j :| i < j && BlankAt(topics, i) && BlankAt(topics, j);
    plan := PlanOf([TopicMerge([i, j], "", "", "")], |topics|);
    BlankPairLoses(topics, i, j, TopicMerge([i, j], "", "", ""));
  }

  // ----- for what the code lets replies do

  /** A concrete anchor occurs in both titles, so the safety check lets the two be merged. */
  ghost predicate ShareAnchor(a: Topic, b: Topic, reducer: Reducer) {
    exists shared: string :: BothName(a, b, shared, reducer)
  }

  ghost predicate BothName(a: Topic, b: Topic, shared: string, reducer: Reducer) {
    && Concrete(reducer.Anchor(shared), reducer.wordRune)
    && reducer.Names(a, reducer.Anchor(shared))
    && reducer.Names(b, reducer.Anchor(shared))
  }

  ghost predicate AnchoredBlanks(topics: seq<Topic>, reducer: Reducer) {
    exists i, j :: i < j && BlankAt(topics, i) && BlankAt(topics, j) && ShareAnchor(topics[i], topics[j], reducer)
  }

  lemma {:induction false} TrustedAreAnchored(topics: seq<Topic>, chunk: seq<nat>, merges: seq<TopicMerge>,
                                              reducer: Reducer)
    ensures forall m :: m in Trusted(topics, chunk, merges, reducer) ==> reducer.Anchored(topics, m)
  {
    if merges != [] {
      TrustedAreAnchored(topics, chunk, merges[..|merges| - 1], reducer);
    }
  }

  lemma {:induction false} AllAreAnchored(topics: seq<Topic>, pass: nat, chunks: seq<seq<nat>>, reducer: Reducer)
    ensures forall m :: m in TrustedOf(topics, pass, chunks, reducer) ==> reducer.Anchored(topics, m)
  {
    if chunks != [] {
      var chunk := chunks[|chunks| - 1];
      AllAreAnchored(topics, pass, chunks[..|chunks| - 1], reducer);
      var reply := reducer.reply(pass, topics, chunk);
      if reply.Some? {
        TrustedAreAnchored(topics, chunk, reply.value, reducer);
      }
    }
  }

  /** Whatever a pass merges shares an anchor. */
  lemma MergedShareAnchor(topics: seq<Topic>, pass: nat, reducer: Reducer, k: nat) returns (i: int, j: int)
    requires PassPlan(topics, pass, reducer).Partitions(|topics|) && k < |PassPlan(topics, pass, reducer).classes|
    requires PassPlan(topics, pass, reducer).classes[k] != {PassPlan(topics, pass, reducer).leaders[k]}
    ensures i < j && i in PassPlan(topics, pass, reducer).classes[k] && j in PassPlan(topics, pass, reducer).classes[k]
    ensures ShareAnchor(topics[i], topics[j], reducer)
  {
    var n, merges := |topics|, PassMerges(topics, pass, reducer);
    var groups := AcceptedGroups(n, merges);
    var leader := PlanOf(groups, n).leaders[k];
    LeadersFacts(groups, n);
    assert leader in Leaders(groups, n);
    ClassMembers(groups, n, leader);
    assert leader in Members(groups);
    GroupFacts(groups, n, leader);
    var group := GroupOf(groups, leader);
    i, j := group.topicIndexes[0], group.topicIndexes[1];
    var m := AcceptedWereProposed(n, merges, group);
    AllAreAnchored(topics, pass, PassChunks(topics, pass, reducer), reducer);
    ProposalNames(topics, merges[m], reducer, i);
    ProposalNames(topics, merges[m], reducer, j);
    assert BothName(topics[i], topics[j], merges[m].sharedAnchor, reducer);
  }

  lemma ProposalNames(topics: seq<Topic>, merge: TopicMerge, reducer: Reducer, i: int)
    requires reducer.Anchored(topics, merge) && i in Elements(merge.topicIndexes)
    ensures 0 <= i < |topics| && reducer.Names(topics[i], reducer.Anchor(merge.sharedAnchor))
  {
    var k :| 0 <= k < |merge.topicIndexes| && merge.topicIndexes[k] == i;
  }

  lemma PassNeedsAnchor(topics: seq<Topic>, pass: nat, reducer: Reducer, k: nat)
    requires PassPlan(topics, pass, reducer).Partitions(|topics|) && k < |PassPlan(topics, pass, reducer).classes|
    requires LosesText(topics, PassPlan(topics, pass, reducer), k)
    ensures AnchoredBlanks(topics, reducer)
  {
    var i, j := MergedShareAnchor(topics, pass, reducer, k);
    assert BlankAt(topics, i) && BlankAt(topics, j);
  }

  /** A topic the first pass left alone has the title and texts it had. */
  lemma LeftAlone(topics: seq<Topic>, once: seq<Topic>, plan: Plan, j: nat)
    requires Combines(topics, once, plan) && j < |once| && plan.classes[j] == {plan.leaders[j]}
    ensures 0 <= plan.leaders[j] < |topics|
    ensures once[j].title == topics[plan.leaders[j]].title && once[j].fullSummary == topics[plan.leaders[j]].fullSummary
  {
    assert KeepsText(topics, plan.leaders[j], plan.classes[j], once[j]);
  }

  /** A second pass that merges only topics the first one left alone. */
  lemma SecondPassNeedsAnchor(topics: seq<Topic>, once: seq<Topic>, plan: Plan, pass: nat, reducer: Reducer, k: nat)
    requires Combines(topics, once, plan)
    requires PassPlan(once, pass, reducer).Partitions(|once|) && k < |PassPlan(once, pass, reducer).classes|
    requires PassPlan(once, pass, reducer).classes[k] != {PassPlan(once, pass, reducer).leaders[k]}
    requires forall j :: j in PassPlan(once, pass, reducer).classes[k] ==>
               0 <= j < |once| && plan.classes[j] == {plan.leaders[j]} && BlankAt(topics, plan.leaders[j])
    ensures AnchoredBlanks(topics, reducer)
  {
    var i, j := MergedShareAnchor(once, pass, reducer, k);
    LeftAlone(topics, once, plan, i);
    LeftAlone(topics, once, plan, j);
    var shared :| BothName(once[i], once[j], shared, reducer);
    var a, b := plan.leaders[i], plan.leaders[j];
    assert a < b;
    assert BothName(topics[a], topics[b], shared, reducer);
    assert BlankAt(topics, a) && BlankAt(topics, b) && ShareAnchor(topics[a], topics[b], reducer);
  }

  lemma ChosenBlank(topics: seq<Topic>, first: Plan, chosen: set<int>)
    requires first.Partitions(|topics|) && forall j :: j in chosen ==> 0 <= j < |first.classes|
    requires forall i :: i in UnionOf(first.classes, chosen) ==> BlankAt(topics, i)
    ensures forall j :: j in chosen ==> BlankAt(topics, first.leaders[j])
  {
    forall j | j in chosen
      ensures BlankAt(topics, first.leaders[j])
    {
      UnionHolds(first.classes, chosen, j);
    }
  }

  /** The second pass merges blank texts: either it puts them together itself or the first one did. */
  lemma SecondNeedsAnchor(topics: seq<Topic>, once: seq<Topic>, reducer: Reducer, first: Plan, second: Plan, k: nat)
    requires once == AfterPass(topics, 0, reducer) && first == PassPlan(topics, 0, reducer)
    requires second == PassPlan(once, 1, reducer) && Combines(topics, once, first) && second.Partitions(|once|)
    requires k < |second.classes| && 0 <= second.leaders[k] < |first.leaders|
    requires UnionOf(first.classes, second.classes[k]) != {first.leaders[second.leaders[k]]}
    requires forall i :: i in UnionOf(first.classes, second.classes[k]) ==> BlankAt(topics, i)
    ensures AnchoredBlanks(topics, reducer)
  {
    var chosen := second.classes[k];
    if j :| j in chosen && first.classes[j] != {first.leaders[j]} {
      UnionHolds(first.classes, chosen, j);
      PassNeedsAnchor(topics, 0, reducer, j);
    } else {
      UnionSingleton(first, |topics|, second.leaders[k], chosen);
      ChosenBlank(topics, first, chosen);
      SecondPassNeedsAnchor(topics, once, first, 1, reducer, k);
    }
  }

  lemma TwoPassesNeedAnchor(topics: seq<Topic>, reducer: Reducer, k: nat)
    requires ReducePlan(topics, reducer).Partitions(|topics|) && k < |ReducePlan(topics, reducer).classes|
    requires |topics| >= 2 && |PassChunks(topics, 0, reducer)| != 1
    requires LosesText(topics, ReducePlan(topics, reducer), k)
    ensures AnchoredBlanks(topics, reducer)
  {
    var once, first := AfterPass(topics, 0, reducer), PassPlan(topics, 0, reducer);
    var second := PassPlan(once, 1, reducer);
    PassCombines(topics, 0, reducer);
    PassCombines(once, 1, reducer);
    LeadersInRange(second, |once|);
    assert ReducePlan(topics, reducer) == Composed(first, second);
    SecondNeedsAnchor(topics, once, reducer, first, second, k);
  }

  /** Over one or two passes and all replies: a text is lost only if two topics without one share a concrete anchor. */
  lemma LossNeedsAnchor(topics: seq<Topic>, reducer: Reducer)
    requires Loses(topics, reducer)
    ensures AnchoredBlanks(topics, reducer)
  {
    MergedCombines(topics, reducer);
    var k :| 0 <= k < |ReducePlan(topics, reducer).classes| && LosesText(topics, ReducePlan(topics, reducer), k);
    if |topics| < 2 {
      OneBlankIsSafe(topics, ReducePlan(topics, reducer));
      assert false;
    } else if |PassChunks(topics, 0, reducer)| == 1 {
      PassNeedsAnchor(topics, 0, reducer, k);
    } else {
      TwoPassesNeedAnchor(topics, reducer, k);
    }
  }

  /** All topics fit one request, as in ordinary digests. */
  ghost predicate OneRequest(topics: seq<Topic>, reducer: Reducer) {
    Weight(DescriptorSizes(topics, reducer), Range(|topics|)) <= MAX_REDUCE_CONTENT_BYTES
  }

  type Replies = (nat, seq<Topic>, seq<nat>) -> Option<seq<TopicMerge>>

  function Answering(merges: seq<TopicMerge>): Replies {
    (pass, topics, chunk) => Some(merges)
  }

  lemma OneChunk(topics: seq<Topic>, reducer: Reducer)
    requires OneRequest(topics, reducer) && topics != []
    ensures PassChunks(topics, 0, reducer) == [Range(|topics|)]
  {
    GreedyFits(DescriptorSizes(topics, reducer), Range(|topics|), MAX_REDUCE_CONTENT_BYTES);
  }

  lemma PairIsTrusted(topics: seq<Topic>, reducer: Reducer, i: nat, j: nat, merge: TopicMerge)
    requires i < j < |topics| && merge.topicIndexes == [i, j] && reducer.reply == Answering([merge])
    requires BothName(topics[i], topics[j], merge.sharedAnchor, reducer)
    ensures TrustedOf(topics, 0, [Range(|topics|)], reducer) == [merge]
  {
    var chunk := Range(|topics|);
    assert chunk[i] == i && chunk[j] == j;
    assert InsideChunk(merge, chunk) && reducer.Anchored(topics, merge);
    var merges: seq<TopicMerge>, chunks: seq<seq<nat>> := [merge], [chunk];
    assert merges[..0] == [] && chunks[..0] == [];
    assert Trusted(topics, chunk, [merge], reducer) == [merge];
  }

  /** In one request the model can merge any two topics that share a concrete anchor. */
  lemma PairIsMerged(topics: seq<Topic>, reducer: Reducer, i: nat, j: nat, merge: TopicMerge)
    requires i < j < |topics| && merge.topicIndexes == [i, j] && OneRequest(topics, reducer)
    requires BothName(topics[i], topics[j], merge.sharedAnchor, reducer)
    ensures ReducePlan(topics, reducer.(reply := Answering([merge]))) == PlanOf([merge], |topics|)
  {
    var answered := reducer.(reply := Answering([merge]));
    assert DescriptorSizes(topics, answered) == DescriptorSizes(topics, reducer);
    OneChunk(topics, answered);
    PairIsTrusted(topics, answered, i, j, merge);
    var k := PairPlan(|topics|, i, j, merge);
  }

  lemma AnchoredBlanksLose(topics: seq<Topic>, reducer: Reducer) returns (reply: Replies)
    requires OneRequest(topics, reducer) && AnchoredBlanks(topics, reducer)
    ensures Loses(topics, reducer.(reply := reply))
  {
    var i, j :| i < j && BlankAt(topics, i) && BlankAt(topics, j) && ShareAnchor(topics[i], topics[j], reducer);
    var shared :| BothName(topics[i], topics[j], shared, reducer);
    var merge := TopicMerge([i, j], shared, "", "");
    PairIsMerged(topics, reducer, i, j, merge);
    BlankPairLoses(topics, i, j, merge);
    reply := Answering([merge]);
  }

  /**
   So for topics that fit one request: some reply loses a text exactly if two topics without one
   share a concrete anchor.
   */
  lemma LossIff(topics: seq<Topic>, reducer: Reducer)
    requires OneRequest(topics, reducer)
    ensures AnchoredBlanks(topics, reducer) <==> exists reply: Replies :: Loses(topics, reducer.(reply := reply))
  {
    if AnchoredBlanks(topics, reducer) {
      var reply := AnchoredBlanksLose(topics, reducer);
    }
    if reply: Replies :| Loses(topics, reducer.(reply := reply)) {
      LossNeedsAnchor(topics, reducer.(reply := reply));
      SameAnchors(topics, reducer, reply);
    }
  }

  ghost predicate Loses(topics: seq<Topic>, reducer: Reducer) {
    MergesBlanks(topics, ReducePlan(topics, reducer))
  }

  /** Which topics share an anchor does not depend on the replies. */
  lemma SameAnchors(topics: seq<Topic>, reducer: Reducer, reply: Replies)
    ensures AnchoredBlanks(topics, reducer.(reply := reply)) <==> AnchoredBlanks(topics, reducer)
  {
    var other := reducer.(reply := reply);
    assert forall a, b, shared :: BothName(a, b, shared, other) <==> BothName(a, b, shared, reducer);
    assert forall a, b :: ShareAnchor(a, b, other) <==> ShareAnchor(a, b, reducer);
  }

  // ----- when the reduce requests fail

  ghost predicate NoReply(reducer: Reducer) {
    forall pass, topics, chunk :: reducer.reply(pass, topics, chunk) == None
  }

  lemma {:induction false} NoReplyNoProposals(topics: seq<Topic>, pass: nat, chunks: seq<seq<nat>>, reducer: Reducer)
    requires NoReply(reducer)
    ensures TrustedOf(topics, pass, chunks, reducer) == []
  {
    if chunks != [] {
      NoReplyNoProposals(topics, pass, chunks[..|chunks| - 1], reducer);
      assert reducer.reply(pass, topics, chunks[|chunks| - 1]) == None;
    }
  }

  lemma NoGroupsAlone(n: nat, k: nat)
    requires k < |PlanOf([], n).classes|
    ensures k < |PlanOf([], n).leaders| && PlanOf([], n).classes[k] == {PlanOf([], n).leaders[k]}
  {
    LeadersFacts([], n);
    var leader := Leaders([], n)[k];
    assert leader in Leaders([], n);
    ClassMembers([], n, leader);
  }

  /** A pass without replies leaves every topic alone. */
  lemma NoReplyPass(topics: seq<Topic>, pass: nat, reducer: Reducer)
    requires NoReply(reducer)
    ensures PassPlan(topics, pass, reducer) == PlanOf([], |topics|)
  {
    NoReplyNoProposals(topics, pass, PassChunks(topics, pass, reducer), reducer);
  }

  lemma NoReplyClass(topics: seq<Topic>, reducer: Reducer, k: nat)
    requires NoReply(reducer) && k < |ReducePlan(topics, reducer).classes| && k < |ReducePlan(topics, reducer).leaders|
    ensures ReducePlan(topics, reducer).classes[k] == {ReducePlan(topics, reducer).leaders[k]}
  {
    NoReplyPass(topics, 0, reducer);
    if |topics| < 2 || |PassChunks(topics, 0, reducer)| == 1 {
      NoGroupsAlone(|topics|, k);
    } else {
      NoReplyTwice(topics, reducer, k);
    }
  }

  lemma NoReplyTwice(topics: seq<Topic>, reducer: Reducer, k: nat)
    requires NoReply(reducer) && |topics| >= 2 && |PassChunks(topics, 0, reducer)| != 1
    requires k < |ReducePlan(topics, reducer).classes| && k < |ReducePlan(topics, reducer).leaders|
    ensures ReducePlan(topics, reducer).classes[k] == {ReducePlan(topics, reducer).leaders[k]}
  {
    var once := AfterPass(topics, 0, reducer);
    var first, second := PassPlan(topics, 0, reducer), PassPlan(once, 1, reducer);
    PassCombines(topics, 0, reducer);
    PassCombines(once, 1, reducer);
    LeadersInRange(second, |once|);
    NoReplyPass(topics, 0, reducer);
    NoReplyPass(once, 1, reducer);
    NoGroupsAlone(|once|, k);
    NoGroupsAlone(|topics|, second.leaders[k]);
    UnionSingleton(first, |topics|, second.leaders[k], second.classes[k]);
  }

  lemma NoReplyMergesNothing(topics: seq<Topic>, reducer: Reducer)
    requires NoReply(reducer)
    ensures !MergesBlanks(topics, ReducePlan(topics, reducer))
  {
    var plan := ReducePlan(topics, reducer);
    forall k | 0 <= k < |plan.classes| && k < |plan.leaders|
      ensures plan.classes[k] == {plan.leaders[k]}
    {
      NoReplyClass(topics, reducer, k);
    }
  }
}
