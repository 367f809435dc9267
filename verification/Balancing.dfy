/** Round-robin interleaving of chats: `balanceClustersByChat` of internal/summary/service.go. */
module Balancing {
  import opened Sequences
  import opened Sorting
  import opened Deduplication

  function Min(a: int, b: int): int {
    if a <= b then a else b
  }

  function ChatOf(c: Cluster): int {
    c.canonical.chatId
  }

  /** The clusters of one chat, in order. */
  function OfChat(clusters: seq<Cluster>, chat: int): (r: seq<Cluster>)
    ensures |r| <= |clusters|
  {
    if clusters == [] then []
    else
      var last := clusters[|clusters| - 1];
      OfChat(clusters[..|clusters| - 1], chat) + if ChatOf(last) == chat then [last] else []
  }

  lemma {:induction false} OfChatConcat(a: seq<Cluster>, b: seq<Cluster>, chat: int)
    ensures OfChat(a + b, chat) == OfChat(a, chat) + OfChat(b, chat)
  {
    if b == [] {
      assert a + b == a;
    } else {
      assert (a + b)[..|a + b| - 1] == a + b[..|b| - 1];
      OfChatConcat(a, b[..|b| - 1], chat);
    }
  }

  lemma {:induction false} OfChatCount(s: seq<Cluster>, chat: int, x: Cluster)
    ensures multiset(OfChat(s, chat))[x] == if ChatOf(x) == chat then multiset(s)[x] else 0
  {
    if s != [] {
      OfChatCount(s[..|s| - 1], chat, x);
      assert s == s[..|s| - 1] + [s[|s| - 1]];
    }
  }

  predicate Newer(a: Cluster, b: Cluster) {
    a.canonical.date > b.canonical.date
  }

  function Chats(clusters: seq<Cluster>): set<int> {
    set c | c in clusters :: ChatOf(c)
  }

  /** A chat's own clusters, newest first, ties in input order. */
  function Queue(clusters: seq<Cluster>, chat: int): seq<Cluster> {
    StableSort(OfChat(clusters, chat), Newer)
  }

  type Queues = map<int, seq<Cluster>>

  function QueuesOf(clusters: seq<Cluster>): Queues {
    map chat | chat in Chats(clusters) :: Queue(clusters, chat)
  }

  function Newest(queues: Queues, chat: int): int {
    if chat in queues && queues[chat] != [] then queues[chat][0].canonical.date else 0
  }

  /** Chats with the newest head first, then the smaller id. */
  function ChatBefore(queues: Queues): (int, int) -> bool {
    (x, y) => if Newest(queues, x) == Newest(queues, y) then x < y else Newest(queues, x) > Newest(queues, y)
  }

  lemma ChatsSnoc(clusters: seq<Cluster>)
    requires clusters != []
    ensures Chats(clusters) == Chats(clusters[..|clusters| - 1]) + {ChatOf(clusters[|clusters| - 1])}
  {
    assert clusters == clusters[..|clusters| - 1] + [clusters[|clusters| - 1]];
  }

  /** The chats in order of appearance. */
  function Appearances(clusters: seq<Cluster>): (r: seq<int>)
    ensures Distinct(r)
    ensures Elements(r) == Chats(clusters)
  {
    if clusters == [] then []
    else
      var front, chat := Appearances(clusters[..|clusters| - 1]), ChatOf(clusters[|clusters| - 1]);
      assert Elements(front + [chat]) == Elements(front) + {chat} && (chat in front <==> chat in Elements(front));
      ChatsSnoc(clusters);
      if chat in front then front else front + [chat]
  }

  function ChatOrder(clusters: seq<Cluster>): seq<int> {
    StableSort(Appearances(clusters), ChatBefore(QueuesOf(clusters)))
  }

  /** Whatever order the map yields its keys in, sorting them gives the same list. */
  lemma AnyEnumerationSortsAlike(keys: seq<int>, clusters: seq<Cluster>)
    requires Distinct(keys) && Elements(keys) == Chats(clusters)
    ensures StableSort(keys, ChatBefore(QueuesOf(clusters))) == ChatOrder(clusters)
  {
    var less := ChatBefore(QueuesOf(clusters));
    var others := Appearances(clusters);
    DistinctSameMultiset(keys, others);
    StableSortSorted(keys, less);
    StableSortSorted(others, less);
    SortedUnique(StableSort(keys, less), StableSort(others, less), less);
  }

  lemma DistinctSameMultiset(a: seq<int>, b: seq<int>)
    requires Distinct(a) && Distinct(b) && Elements(a) == Elements(b)
    ensures multiset(a) == multiset(b)
  {
    DistinctMultiset(a);
    DistinctMultiset(b);
  }

  lemma {:induction false} DistinctMultiset(a: seq<int>)
    requires Distinct(a)
    ensures multiset(a) == multiset(Elements(a))
  {
    if a != [] {
      var front, last := a[..|a| - 1], a[|a| - 1];
      DistinctMultiset(front);
      assert a == front + [last];
      assert Elements(a) == Elements(front) + {last} && last !in front;
    }
  }

  lemma ChatOrderFacts(clusters: seq<Cluster>)
    ensures Distinct(ChatOrder(clusters))
    ensures forall chat :: chat in ChatOrder(clusters) <==> chat in Chats(clusters)
    ensures Sorted(ChatOrder(clusters), ChatBefore(QueuesOf(clusters)))
  {
    DistinctPermutation(Appearances(clusters), ChatOrder(clusters));
    SameElements(Appearances(clusters), ChatOrder(clusters));
    StableSortSorted(Appearances(clusters), ChatBefore(QueuesOf(clusters)));
  }

  // ----- rounds

  ghost predicate Served(queues: Queues, order: seq<int>) {
    forall chat :: chat in order ==> chat in queues
  }

  function At(queue: seq<Cluster>, r: nat): seq<Cluster> {
    if r < |queue| then [queue[r]] else []
  }

  /** One turn of each chat in `order`: the `r`-th cluster of those that have one. */
  function Turn(queues: Queues, order: seq<int>, r: nat): seq<Cluster>
    requires Served(queues, order)
  {
    if order == [] then []
    else
      var last := order[|order| - 1];
      assert last in order && Served(queues, order[..|order| - 1]);
      Turn(queues, order[..|order| - 1], r) + At(queues[last], r)
  }

  /** The first `r` rounds. */
  function Rounds(queues: Queues, order: seq<int>, r: nat): seq<Cluster>
    requires Served(queues, order)
  {
    if r == 0 then [] else Rounds(queues, order, r - 1) + Turn(queues, order, r - 1)
  }

  ghost predicate Homogeneous(queues: Queues) {
    forall chat, k :: chat in queues && 0 <= k < |queues[chat]| ==> ChatOf(queues[chat][k]) == chat
  }

  function Owned(queues: Queues, order: seq<int>, chat: int): seq<Cluster>
    requires chat in order ==> chat in queues
  {
    if chat in order then queues[chat] else []
  }

  lemma {:induction false} TurnOfChat(queues: Queues, order: seq<int>, r: nat, chat: int)
    requires Served(queues, order)
    requires Homogeneous(queues) && Distinct(order)
    ensures OfChat(Turn(queues, order, r), chat) == At(Owned(queues, order, chat), r)
  {
    if order != [] {
      var front, last := order[..|order| - 1], order[|order| - 1];
      TurnOfChat(queues, front, r, chat);
      SplitLast(order);
      OwnedByLast(queues, front, last, r, chat);
      OfChatConcat(Turn(queues, front, r), At(queues[last], r), chat);
    }
  }

  lemma OwnedByLast(queues: Queues, front: seq<int>, last: int, r: nat, chat: int)
    requires Served(queues, front + [last]) && Homogeneous(queues) && Distinct(front + [last])
    ensures chat in front ==> chat in queues
    ensures last in queues
    ensures At(Owned(queues, front, chat), r) + OfChat(At(queues[last], r), chat) ==
            At(Owned(queues, front + [last], chat), r)
  {
    LastIsNew(front, last);
    assert chat in front + [last] <==> chat in front || chat == last;
    assert last in front + [last];
    AtOfChat(queues, last, r, chat);
  }

  lemma LastIsNew(front: seq<int>, last: int)
    requires Distinct(front + [last])
    ensures last !in front
  {
    assert forall k :: 0 <= k < |front| ==> front[k] == (front + [last])[k] != (front + [last])[|front|];
  }

  lemma AtOfChat(queues: Queues, owner: int, r: nat, chat: int)
    requires owner in queues && Homogeneous(queues)
    ensures OfChat(At(queues[owner], r), chat) == if owner == chat then At(queues[chat], r) else []
  {
    if r < |queues[owner]| {
      assert ChatOf(queues[owner][r]) == owner;
      assert [queues[owner][r]][..0] == [];
    }
  }

  /** In every round the chat gives the next cluster of `queue`. */
  ghost predicate Gives(queues: Queues, order: seq<int>, chat: int, queue: seq<Cluster>)
    requires Served(queues, order)
  {
    forall t: nat :: OfChat(Turn(queues, order, t), chat) == At(queue, t)
  }

  lemma {:induction false} RoundsOfGiver(queues: Queues, order: seq<int>, r: nat, chat: int, queue: seq<Cluster>)
    requires Served(queues, order) && Gives(queues, order, chat, queue)
    ensures OfChat(Rounds(queues, order, r), chat) == FirstOnes(queue, r)
  {
    if r == 0 {
    } else {
      RoundsOfGiver(queues, order, r - 1, chat, queue);
      RoundsUnfold(queues, order, r);
      OneMoreRound(Rounds(queues, order, r), Rounds(queues, order, r - 1), Turn(queues, order, r - 1), queue, r, chat);
    }
  }

  /** After `r` rounds each chat has given its `r` first clusters, in order. */
  lemma RoundsOfChat(queues: Queues, order: seq<int>, r: nat, chat: int)
    requires Served(queues, order)
    requires Homogeneous(queues) && Distinct(order)
    ensures OfChat(Rounds(queues, order, r), chat) == FirstOnes(Owned(queues, order, chat), r)
  {
    forall t: nat
      ensures OfChat(Turn(queues, order, t), chat) == At(Owned(queues, order, chat), t)
    {
      TurnOfChat(queues, order, t, chat);
    }
    RoundsOfGiver(queues, order, r, chat, Owned(queues, order, chat));
  }

  lemma RoundsUnfold(queues: Queues, order: seq<int>, r: nat)
    requires Served(queues, order) && r > 0
    ensures Rounds(queues, order, r) == Rounds(queues, order, r - 1) + Turn(queues, order, r - 1)
  {
  }

  function FirstOnes(queue: seq<Cluster>, r: nat): seq<Cluster> {
    queue[..Min(r, |queue|)]
  }

  lemma OneMoreRound(after: seq<Cluster>, before: seq<Cluster>, turn: seq<Cluster>, queue: seq<Cluster>, r: nat,
                     chat: int)
    requires after == before + turn
    requires r > 0 && OfChat(before, chat) == FirstOnes(queue, r - 1) && OfChat(turn, chat) == At(queue, r - 1)
    ensures OfChat(after, chat) == FirstOnes(queue, r)
  {
    OfChatConcat(before, turn, chat);
    TakeNext(queue, r);
  }

  lemma TakeNext(queue: seq<Cluster>, r: nat)
    requires r > 0
    ensures FirstOnes(queue, r - 1) + At(queue, r - 1) == FirstOnes(queue, r)
  {
  }

  /** Lists that agree chat by chat hold the same clusters. */
  lemma SameChatsSameClusters(a: seq<Cluster>, b: seq<Cluster>)
    requires forall chat :: multiset(OfChat(a, chat)) == multiset(OfChat(b, chat))
    ensures multiset(a) == multiset(b)
  {
    forall x: Cluster
      ensures multiset(a)[x] == multiset(b)[x]
    {
      OfChatCount(a, ChatOf(x), x);
      OfChatCount(b, ChatOf(x), x);
    }
  }

  lemma QueuesFacts(clusters: seq<Cluster>)
    ensures Homogeneous(QueuesOf(clusters))
    ensures forall chat :: chat in Chats(clusters) ==>
              && 0 < |Queue(clusters, chat)| <= |clusters|
              && multiset(Queue(clusters, chat)) == multiset(OfChat(clusters, chat))
  {
    var queues := QueuesOf(clusters);
    forall chat, k | chat in queues && 0 <= k < |queues[chat]|
      ensures ChatOf(queues[chat][k]) == chat
    {
      assert queues[chat][k] in multiset(queues[chat]);
      OfChatCount(clusters, chat, queues[chat][k]);
    }
    forall chat | chat in Chats(clusters)
      ensures 0 < |Queue(clusters, chat)|
    {
      var c :| c in clusters && ChatOf(c) == chat;
      OfChatCount(clusters, chat, c);
      assert c in multiset(Queue(clusters, chat));
    }
  }

  lemma ExhaustedChat(clusters: seq<Cluster>, order: seq<int>, r: nat, chat: int)
    requires Distinct(order) && forall c :: c in order <==> c in Chats(clusters)
    requires chat in order ==> |Queue(clusters, chat)| <= r
    ensures multiset(OfChat(Rounds(QueuesOf(clusters), order, r), chat)) == multiset(OfChat(clusters, chat))
  {
    QueuesFacts(clusters);
    RoundsOfChat(QueuesOf(clusters), order, r, chat);
    if chat in order {
      TakeAll(Queue(clusters, chat), r);
    } else {
      StrangerHasNone(clusters, chat);
    }
  }

  lemma {:induction false} StrangerHasNone(clusters: seq<Cluster>, chat: int)
    requires chat !in Chats(clusters)
    ensures OfChat(clusters, chat) == []
  {
    if clusters != [] {
      ChatsSnoc(clusters);
      StrangerHasNone(clusters[..|clusters| - 1], chat);
    }
  }

  lemma TakeAll(queue: seq<Cluster>, n: nat)
    requires |queue| <= n
    ensures FirstOnes(queue, n) == queue
  {
  }

  /** Once every chat is exhausted, the rounds hold exactly the clusters. */
  lemma ExhaustedIsPermutation(clusters: seq<Cluster>, order: seq<int>, r: nat)
    requires Distinct(order) && forall chat :: chat in order <==> chat in Chats(clusters)
    requires forall chat :: chat in order ==> |Queue(clusters, chat)| <= r
    ensures multiset(Rounds(QueuesOf(clusters), order, r)) == multiset(clusters)
  {
    var balanced := Rounds(QueuesOf(clusters), order, r);
    forall chat
      ensures multiset(OfChat(balanced, chat)) == multiset(OfChat(clusters, chat))
    {
      ExhaustedChat(clusters, order, r, chat);
    }
    SameChatsSameClusters(balanced, clusters);
  }

  lemma {:induction false} RoundsPrefix(queues: Queues, order: seq<int>, r: nat, n: nat)
    requires Served(queues, order)
    requires r <= n
    ensures |Rounds(queues, order, r)| <= |Rounds(queues, order, n)|
    ensures Rounds(queues, order, n)[..|Rounds(queues, order, r)|] == Rounds(queues, order, r)
  {
    if r < n {
      RoundsPrefix(queues, order, r, n - 1);
      assert Rounds(queues, order, n) == Rounds(queues, order, n - 1) + Turn(queues, order, n - 1);
    }
  }

  // ----- the balanced list

  function Balanced(clusters: seq<Cluster>): seq<Cluster> {
    if |Chats(clusters)| < 2 then clusters
    else
      assert Served(QueuesOf(clusters), ChatOrder(clusters)) by {
        ChatOrderFacts(clusters);
      }
      Rounds(QueuesOf(clusters), ChatOrder(clusters), |clusters|)
  }

  /** No cluster is lost or repeated. */
  lemma BalancedIsPermutation(clusters: seq<Cluster>)
    ensures multiset(Balanced(clusters)) == multiset(clusters)
  {
    if |Chats(clusters)| >= 2 {
      ChatOrderFacts(clusters);
      QueuesFacts(clusters);
      ExhaustedIsPermutation(clusters, ChatOrder(clusters), |clusters|);
    }
  }

  lemma RoundsWithinChat(clusters: seq<Cluster>, r: nat, chat: int)
    requires chat in Chats(clusters)
    ensures Served(QueuesOf(clusters), ChatOrder(clusters))
    ensures OfChat(Rounds(QueuesOf(clusters), ChatOrder(clusters), r), chat) == FirstOnes(Queue(clusters, chat), r)
  {
    ChatOrderFacts(clusters);
    QueuesFacts(clusters);
    RoundsOfChat(QueuesOf(clusters), ChatOrder(clusters), r, chat);
    assert QueuesOf(clusters)[chat] == Queue(clusters, chat);
  }

  /** Within a chat: newest first, ties as they came. */
  lemma BalancedWithinChat(clusters: seq<Cluster>, chat: int)
    requires |Chats(clusters)| >= 2 && chat in Chats(clusters)
    ensures OfChat(Balanced(clusters), chat) == Queue(clusters, chat)
  {
    RoundsWithinChat(clusters, |clusters|, chat);
    TakeAll(Queue(clusters, chat), |clusters|);
  }

  /** The clusters of a chat carry its id, and none of them is missing. */
  lemma {:induction false} OfChatHolds(clusters: seq<Cluster>, chat: int, c: Cluster)
    ensures c in OfChat(clusters, chat) <==> c in clusters && c.canonical.chatId == chat
  {
    if clusters != [] {
      OfChatHolds(clusters[..|clusters| - 1], chat, c);
      SplitLast(clusters);
    }
  }

  /** Date by date: of two clusters of a chat the one that comes later is not newer. */
  lemma NewestFirstWithinChat(clusters: seq<Cluster>, chat: int, j: nat, k: nat)
    requires |Chats(clusters)| >= 2 && chat in Chats(clusters)
    requires j < k < |OfChat(Balanced(clusters), chat)|
    ensures OfChat(Balanced(clusters), chat)[j].canonical.date >= OfChat(Balanced(clusters), chat)[k].canonical.date
  {
    BalancedWithinChat(clusters, chat);
    StableSortSorted(OfChat(clusters, chat), Newer);
    var queue := Queue(clusters, chat);
    assert !Newer(queue[k], queue[j]);
  }

  /** The date of the chat's newest cluster. */
  ghost predicate NewestDate(clusters: seq<Cluster>, chat: int, date: int) {
    && (exists c :: c in clusters && c.canonical.chatId == chat && c.canonical.date == date)
    && forall c :: c in clusters && c.canonical.chatId == chat ==> c.canonical.date <= date
  }

  lemma HeadIsNewest(clusters: seq<Cluster>, chat: int)
    requires chat in Chats(clusters)
    ensures NewestDate(clusters, chat, Newest(QueuesOf(clusters), chat))
  {
    var own, queue := OfChat(clusters, chat), Queue(clusters, chat);
    StableSortSorted(own, Newer);
    SameElements(own, queue);
    assert QueuesOf(clusters)[chat] == queue;
    var some :| some in clusters && ChatOf(some) == chat;
    OfChatHolds(clusters, chat, some);
    assert some in Elements(own);
    assert queue != [];
    forall c | c in clusters && c.canonical.chatId == chat
      ensures c.canonical.date <= queue[0].canonical.date
    {
      OfChatHolds(clusters, chat, c);
      assert c in Elements(queue);
      var k :| 0 <= k < |queue| && queue[k] == c;
      assert k > 0 ==> !Newer(queue[k], queue[0]);
    }
    assert queue[0] in Elements(own);
    OfChatHolds(clusters, chat, queue[0]);
  }

  // ----- fairness of every prefix

  lemma {:induction false} PrefixOfTurn(queues: Queues, order: seq<int>, r: nat, k: nat) returns (i: nat)
    requires Served(queues, order)
    requires k <= |Turn(queues, order, r)|
    ensures i <= |order| && Turn(queues, order, r)[..k] == Turn(queues, order[..i], r)
  {
    if k == |Turn(queues, order, r)| {
      i := |order|;
      assert order[..i] == order;
    } else {
      var n := |order| - 1;
      i := PrefixOfTurn(queues, order[..n], r, k);
      assert order[..n][..i] == order[..i];
    }
  }

  lemma TakeOfConcat<T>(a: seq<T>, b: seq<T>, k: nat)
    requires k <= |a + b|
    ensures (a + b)[..k] == if k <= |a| then a[..k] else a + b[..k - |a|]
  {
  }

  lemma {:induction false} PrefixOfRounds(queues: Queues, order: seq<int>, n: nat, k: nat) returns (r: nat, i: nat)
    requires Served(queues, order)
    requires k <= |Rounds(queues, order, n)|
    ensures i <= |order| && Rounds(queues, order, n)[..k] == Rounds(queues, order, r) + Turn(queues, order[..i], r)
  {
    if n == 0 {
      r, i := 0, 0;
    } else {
      var before := |Rounds(queues, order, n - 1)|;
      assert Rounds(queues, order, n) == Rounds(queues, order, n - 1) + Turn(queues, order, n - 1);
      if k <= before {
        r, i := PrefixOfRounds(queues, order, n - 1, k);
        TakeOfConcat(Rounds(queues, order, n - 1), Turn(queues, order, n - 1), k);
      } else {
        r := n - 1;
        i := PrefixOfTurn(queues, order, r, k - before);
        TakeOfConcat(Rounds(queues, order, r), Turn(queues, order, r), k);
      }
    }
  }

  /** A prefix that ends in round `r` after chat `i` has given each chat `r` or `r + 1` turns. */
  lemma TakenInPrefix(queues: Queues, order: seq<int>, r: nat, i: nat, chat: int)
    requires Served(queues, order)
    requires Homogeneous(queues) && Distinct(order) && i <= |order| && chat in order
    ensures |OfChat(Rounds(queues, order, r) + Turn(queues, order[..i], r), chat)|
         == Min(if chat in order[..i] then r + 1 else r, |queues[chat]|)
  {
    RoundsOfChat(queues, order, r, chat);
    TurnOfChat(queues, order[..i], r, chat);
    OfChatConcat(Rounds(queues, order, r), Turn(queues, order[..i], r), chat);
  }

  lemma EarlierChatComesFirst(order: seq<int>, queues: Queues, i: nat, x: int, y: int)
    requires Sorted(order, ChatBefore(queues)) && ChatBefore(queues)(x, y) && i <= |order|
    requires x in order && y in order[..i]
    ensures x in order[..i]
  {
    var p :| 0 <= p < |order| && order[p] == x;
    var q :| 0 <= q < i && order[q] == y;
    assert p <= q;
  }

  /** How many clusters of the chat are among the first `k`. */
  function Taken(clusters: seq<Cluster>, k: nat, chat: int): nat
    requires k <= |Balanced(clusters)|
  {
    |OfChat(Balanced(clusters)[..k], chat)|
  }

  lemma BalancedPrefix(clusters: seq<Cluster>, k: nat) returns (r: nat, i: nat)
    requires |Chats(clusters)| >= 2 && k <= |Balanced(clusters)|
    ensures i <= |ChatOrder(clusters)| && EndsAt(clusters, k, r, i)
  {
    ChatOrderFacts(clusters);
    r, i := PrefixOfRounds(QueuesOf(clusters), ChatOrder(clusters), |clusters|, k);
    forall chat | chat in Chats(clusters)
      ensures Taken(clusters, k, chat) == Turns(clusters, r, i, chat)
    {
      QueuesFacts(clusters);
      TakenInPrefix(QueuesOf(clusters), ChatOrder(clusters), r, i, chat);
    }
  }

  /** What a chat has given when `i` chats have had their turn of round `r`. */
  function Turns(clusters: seq<Cluster>, r: nat, i: nat, chat: int): nat
    requires i <= |ChatOrder(clusters)|
  {
    Min(if chat in ChatOrder(clusters)[..i] then r + 1 else r, |Queue(clusters, chat)|)
  }

  ghost predicate EndsAt(clusters: seq<Cluster>, k: nat, r: nat, i: nat)
    requires k <= |Balanced(clusters)| && i <= |ChatOrder(clusters)|
  {
    forall chat :: chat in Chats(clusters) ==> Taken(clusters, k, chat) == Turns(clusters, r, i, chat)
  }

  /** However far the list is read, no chat is more than one turn ahead of another that still has clusters. */
  lemma Fairness(clusters: seq<Cluster>, k: nat, x: int, y: int)
    requires |Chats(clusters)| >= 2 && k <= |Balanced(clusters)|
    requires x in Chats(clusters) && y in Chats(clusters)
    ensures Taken(clusters, k, y) >= Min(|Queue(clusters, y)|, Taken(clusters, k, x) - 1)
  {
    var r, i := BalancedPrefix(clusters, k);
    assert Taken(clusters, k, x) == Turns(clusters, r, i, x) && Taken(clusters, k, y) == Turns(clusters, r, i, y);
  }

  lemma LeaderIsNotBehind(clusters: seq<Cluster>, k: nat, x: int, y: int)
    requires |Chats(clusters)| >= 2 && k <= |Balanced(clusters)|
    requires x in Chats(clusters) && y in Chats(clusters) && ChatBefore(QueuesOf(clusters))(x, y)
    ensures Taken(clusters, k, x) >= Min(|Queue(clusters, x)|, Taken(clusters, k, y))
  {
    var r, i := BalancedPrefix(clusters, k);
    assert Taken(clusters, k, x) == Turns(clusters, r, i, x) && Taken(clusters, k, y) == Turns(clusters, r, i, y);
    LeaderHasItsTurn(clusters, i, x, y);
  }

  /** A chat whose newest cluster is newer is never behind; between equally new ones the smaller id leads. */
  lemma NewerChatLeads(clusters: seq<Cluster>, k: nat, x: int, y: int, newestX: int, newestY: int)
    requires |Chats(clusters)| >= 2 && k <= |Balanced(clusters)|
    requires x in Chats(clusters) && y in Chats(clusters)
    requires NewestDate(clusters, x, newestX) && NewestDate(clusters, y, newestY)
    requires newestX > newestY || (newestX == newestY && x < y)
    ensures Taken(clusters, k, x) >= Min(|Queue(clusters, x)|, Taken(clusters, k, y))
  {
    NewestIs(clusters, x, newestX);
    NewestIs(clusters, y, newestY);
    LeaderIsNotBehind(clusters, k, x, y);
  }

  lemma NewestIs(clusters: seq<Cluster>, chat: int, date: int)
    requires chat in Chats(clusters) && NewestDate(clusters, chat, date)
    ensures Newest(QueuesOf(clusters), chat) == date
  {
    HeadIsNewest(clusters, chat);
    OneNewestDate(clusters, chat, date, Newest(QueuesOf(clusters), chat));
  }

  lemma OneNewestDate(clusters: seq<Cluster>, chat: int, a: int, b: int)
    requires NewestDate(clusters, chat, a) && NewestDate(clusters, chat, b)
    ensures a == b
  {
  }

  lemma LeaderHasItsTurn(clusters: seq<Cluster>, i: nat, x: int, y: int)
    requires i <= |ChatOrder(clusters)| && x in Chats(clusters) && ChatBefore(QueuesOf(clusters))(x, y)
    ensures y in ChatOrder(clusters)[..i] ==> x in ChatOrder(clusters)[..i]
  {
    ChatOrderFacts(clusters);
    if y in ChatOrder(clusters)[..i] {
      EarlierChatComesFirst(ChatOrder(clusters), QueuesOf(clusters), i, x, y);
    }
  }

  // ----- the method

  ghost predicate GroupedByChat(queues: Queues, clusters: seq<Cluster>) {
    && queues.Keys == Chats(clusters)
    && forall chat :: QueueOfChat(queues, chat) == OfChat(clusters, chat)
  }

  function QueueOfChat(queues: Queues, chat: int): seq<Cluster> {
    if chat in queues then queues[chat] else []
  }

  function Queued(queues: Queues, c: Cluster): Queues {
    var chat := ChatOf(c);
    queues[chat := QueueOfChat(queues, chat) + [c]]
  }

  lemma GroupOneMore(queues: Queues, clusters: seq<Cluster>)
    requires clusters != [] && GroupedByChat(queues, clusters[..|clusters| - 1])
    ensures GroupedByChat(Queued(queues, clusters[|clusters| - 1]), clusters)
  {
    ChatsSnoc(clusters);
    var after := Queued(queues, clusters[|clusters| - 1]);
    forall chat
      ensures QueueOfChat(after, chat) == OfChat(clusters, chat)
    {
      ChatOneMore(queues, clusters, chat);
    }
  }

  lemma ChatOneMore(queues: Queues, clusters: seq<Cluster>, chat: int)
    requires clusters != [] && GroupedByChat(queues, clusters[..|clusters| - 1])
    ensures QueueOfChat(Queued(queues, clusters[|clusters| - 1]), chat) == OfChat(clusters, chat)
  {
    assert QueueOfChat(queues, chat) == OfChat(clusters[..|clusters| - 1], chat);
  }

  /** The first loop: clusters by chat, in input order. */
  method GroupByChat(clusters: seq<Cluster>) returns (queues: Queues)
    ensures GroupedByChat(queues, clusters)
  {
    queues := map[];
    for k := 0 to |clusters|
      invariant GroupedByChat(queues, clusters[..k])
    {
      assert clusters[..k + 1][..k] == clusters[..k];
      GroupOneMore(queues, clusters[..k + 1]);
      queues := Queued(queues, clusters[k]);
    }
    assert clusters[..|clusters|] == clusters;
  }

  ghost predicate Enumerates(keys: seq<int>, chats: set<int>) {
    Distinct(keys) && Elements(keys) == chats
  }

  lemma EnumerateOne(keys: seq<int>, chats: set<int>, todo: set<int>, chat: int)
    requires todo <= chats && Enumerates(keys, chats - todo) && chat in todo
    ensures Enumerates(keys + [chat], chats - (todo - {chat}))
  {
    assert chat !in Elements(keys);
    ElementsConcat(keys, [chat]);
    assert chats - (todo - {chat}) == (chats - todo) + {chat};
  }

  /** Grouped queues, sorted except for the chats still to do. */
  ghost predicate PartlySorted(clusters: seq<Cluster>, queues: Queues, todo: set<int>) {
    && queues.Keys == Chats(clusters) && todo <= queues.Keys
    && (forall chat :: chat in todo ==> queues[chat] == OfChat(clusters, chat))
    && (forall chat :: chat in queues && chat !in todo ==> queues[chat] == Queue(clusters, chat))
  }

  lemma SortOne(clusters: seq<Cluster>, queues: Queues, todo: set<int>, chat: int)
    requires PartlySorted(clusters, queues, todo) && chat in todo
    ensures PartlySorted(clusters, queues[chat := StableSort(queues[chat], Newer)], todo - {chat})
  {
  }

  lemma AllSorted(clusters: seq<Cluster>, queues: Queues)
    requires PartlySorted(clusters, queues, {})
    ensures queues == QueuesOf(clusters)
  {
  }

  /** The second loop, in whatever order the map gives its keys. */
  method SortQueues(clusters: seq<Cluster>, grouped: Queues) returns (queues: Queues, keys: seq<int>)
    requires GroupedByChat(grouped, clusters)
    ensures queues == QueuesOf(clusters)
    ensures Distinct(keys) && Elements(keys) == Chats(clusters)
  {
    queues, keys := grouped, [];
    var todo := grouped.Keys;
    while todo != {}
      invariant PartlySorted(clusters, queues, todo)
      invariant Enumerates(keys, Chats(clusters) - todo)
      decreases todo
    {
      var chat :| chat in todo;
      EnumerateOne(keys, Chats(clusters), todo, chat);
      SortOne(clusters, queues, todo, chat);
      todo := todo - {chat};
      keys := keys + [chat];
      queues := queues[chat := StableSort(queues[chat], Newer)];
    }
    AllSorted(clusters, queues);
  }

  /** What is left of a queue after `r` rounds. */
  function Rest(queue: seq<Cluster>, r: nat): seq<Cluster> {
    queue[Min(r, |queue|)..]
  }

  lemma RestStep(queue: seq<Cluster>, r: nat)
    ensures Rest(queue, r) == [] ==> At(queue, r) == [] && Rest(queue, r + 1) == []
    ensures Rest(queue, r) != [] ==> At(queue, r) == [Rest(queue, r)[0]] && Rest(queue, r + 1) == Rest(queue, r)[1..]
  {
  }

  ghost predicate Left(original: Queues, queues: Queues, r: nat) {
    && queues.Keys == original.Keys
    && forall chat :: chat in original ==> queues[chat] == Rest(original[chat], r)
  }

  /** One pass of the inner loop: each chat that has a cluster left gives its first one. */
  method TakeTurn(ghost original: Queues, queues: Queues, order: seq<int>, ghost r: nat)
    returns (taken: seq<Cluster>, rest: Queues, added: bool)
    requires Left(original, queues, r)
    requires Distinct(order) && forall chat :: chat in order <==> chat in queues
    ensures taken == Turn(original, order, r) && Left(original, rest, r + 1)
    ensures added <==> taken != []
  {
    taken, rest, added := [], queues, false;
    TurnStarts(original, queues, order, r);
    for i := 0 to |order|
      invariant TurnSoFar(original, rest, order, i, r, taken)
      invariant added <==> taken != []
    {
      TurnGoesOn(original, rest, order, i, r, taken);
      var queue := rest[order[i]];
      if |queue| == 0 {
        continue;
      }
      taken := taken + [queue[0]];
      rest := rest[order[i] := queue[1..]];
      added := true;
    }
    TurnEnds(original, rest, order, r, taken);
  }

  ghost predicate TurnSoFar(original: Queues, rest: Queues, order: seq<int>, i: nat, r: nat, taken: seq<Cluster>) {
    Midway(original, rest, order, i, r) && Served(original, order[..i]) && taken == Turn(original, order[..i], r)
  }

  lemma TurnStarts(original: Queues, queues: Queues, order: seq<int>, r: nat)
    requires Left(original, queues, r) && forall chat :: chat in order <==> chat in queues
    ensures TurnSoFar(original, queues, order, 0, r, [])
  {
    MidwayStart(original, queues, order, r);
  }

  lemma TurnGoesOn(original: Queues, rest: Queues, order: seq<int>, i: nat, r: nat, taken: seq<Cluster>)
    requires TurnSoFar(original, rest, order, i, r, taken) && i < |order| && Distinct(order)
    ensures order[i] in rest
    ensures rest[order[i]] == [] ==> TurnSoFar(original, rest, order, i + 1, r, taken)
    ensures rest[order[i]] != [] ==>
              TurnSoFar(original, rest[order[i] := rest[order[i]][1..]], order, i + 1, r, taken + [rest[order[i]][0]])
  {
    MidwayStep(original, rest, order, i, r);
    TurnOfOneMore(original, order, i, r);
  }

  lemma TurnOfOneMore(original: Queues, order: seq<int>, i: nat, r: nat)
    requires i < |order| && Served(original, order[..i]) && order[i] in original
    ensures Served(original, order[..i + 1])
    ensures Turn(original, order[..i + 1], r) == Turn(original, order[..i], r) + At(original[order[i]], r)
  {
    assert order[..i + 1][..i] == order[..i];
    assert order[..i + 1] == order[..i] + [order[i]];
  }

  lemma TurnEnds(original: Queues, rest: Queues, order: seq<int>, r: nat, taken: seq<Cluster>)
    requires TurnSoFar(original, rest, order, |order|, r, taken) && forall chat :: chat in order <==> chat in original
    ensures Served(original, order) && taken == Turn(original, order, r) && Left(original, rest, r + 1)
  {
    MidwayEnd(original, rest, order, r);
    assert order[..|order|] == order;
  }

  /** The first `i` chats of the order have had their turn in round `r`. */
  ghost predicate Midway(original: Queues, rest: Queues, order: seq<int>, i: nat, r: nat) {
    && rest.Keys == original.Keys && i <= |order|
    && forall j :: 0 <= j < |order| ==> HasLeft(original, rest, order[j], if j < i then r + 1 else r)
  }

  predicate HasLeft(original: Queues, rest: Queues, chat: int, r: nat) {
    chat in original && chat in rest && rest[chat] == Rest(original[chat], r)
  }

  lemma MidwayStart(original: Queues, queues: Queues, order: seq<int>, r: nat)
    requires Left(original, queues, r) && forall chat :: chat in order <==> chat in queues
    ensures Midway(original, queues, order, 0, r)
  {
    forall j | 0 <= j < |order|
      ensures HasLeft(original, queues, order[j], r)
    {
      assert order[j] in order;
    }
  }

  lemma MidwayStep(original: Queues, rest: Queues, order: seq<int>, i: nat, r: nat)
    requires Midway(original, rest, order, i, r) && i < |order| && Distinct(order)
    ensures order[i] in rest && order[i] in original
    ensures rest[order[i]] == [] ==> At(original[order[i]], r) == [] && Midway(original, rest, order, i + 1, r)
    ensures rest[order[i]] != [] ==>
              && At(original[order[i]], r) == [rest[order[i]][0]]
              && Midway(original, rest[order[i] := rest[order[i]][1..]], order, i + 1, r)
  {
    assert HasLeft(original, rest, order[i], r);
    RestStep(original[order[i]], r);
    var after := if rest[order[i]] == [] then rest else rest[order[i] := rest[order[i]][1..]];
    forall j | 0 <= j < |order|
      ensures HasLeft(original, after, order[j], if j < i + 1 then r + 1 else r)
    {
      assert HasLeft(original, rest, order[j], if j < i then r + 1 else r);
    }
  }

  lemma MidwayEnd(original: Queues, rest: Queues, order: seq<int>, r: nat)
    requires Midway(original, rest, order, |order|, r) && forall chat :: chat in order <==> chat in original
    ensures Left(original, rest, r + 1)
  {
    forall chat | chat in original
      ensures rest[chat] == Rest(original[chat], r + 1)
    {
      var j :| 0 <= j < |order| && order[j] == chat;
      assert HasLeft(original, rest, order[j], r + 1);
    }
  }

  lemma NoTurnMeansAllTaken(clusters: seq<Cluster>, r: nat)
    requires Served(QueuesOf(clusters), ChatOrder(clusters))
    requires Turn(QueuesOf(clusters), ChatOrder(clusters), r) == []
    ensures |Rounds(QueuesOf(clusters), ChatOrder(clusters), r)| == |clusters|
  {
    var queues, order := QueuesOf(clusters), ChatOrder(clusters);
    ChatOrderFacts(clusters);
    QueuesFacts(clusters);
    forall chat | chat in order
      ensures |Queue(clusters, chat)| <= r
    {
      TurnOfChat(queues, order, r, chat);
    }
    ExhaustedIsPermutation(clusters, order, r);
    assert |multiset(Rounds(queues, order, r))| == |multiset(clusters)|;
  }

  /** The loop may stop before round `|clusters|`, but then nothing was left to give. */
  lemma FullRounds(clusters: seq<Cluster>, r: nat)
    requires |Chats(clusters)| >= 2 && r <= |clusters|
    requires Served(QueuesOf(clusters), ChatOrder(clusters))
    requires |Rounds(QueuesOf(clusters), ChatOrder(clusters), r)| >= |clusters|
    ensures Rounds(QueuesOf(clusters), ChatOrder(clusters), r) == Balanced(clusters)
  {
    BalancedLength(clusters);
    RoundsPrefix(QueuesOf(clusters), ChatOrder(clusters), r, |clusters|);
    LongPrefix(Rounds(QueuesOf(clusters), ChatOrder(clusters), r), Balanced(clusters));
  }

  lemma LongPrefix(a: seq<Cluster>, b: seq<Cluster>)
    requires |a| >= |b| >= |a| && b[..|a|] == a
    ensures a == b
  {
  }

  lemma BalancedLength(clusters: seq<Cluster>)
    ensures |Balanced(clusters)| == |clusters|
  {
    BalancedIsPermutation(clusters);
    SameElements(Balanced(clusters), clusters);
  }

  /** A round in which no chat has a turn comes only after all `total` clusters are given. */
  ghost predicate GivesAll(queues: Queues, order: seq<int>, total: nat)
    requires Served(queues, order)
  {
    forall r: nat :: Turn(queues, order, r) == [] ==> |Rounds(queues, order, r)| == total
  }

  /** `r` whole rounds are given, and `queues` holds what is left. */
  ghost predicate RoundsSoFar(sorted: Queues, queues: Queues, order: seq<int>, total: nat, r: nat,
                              balanced: seq<Cluster>)
  {
    && Served(sorted, order) && Left(sorted, queues, r)
    && balanced == Rounds(sorted, order, r) && r <= |balanced| && r <= total
  }

  lemma RoundsStart(sorted: Queues, order: seq<int>, total: nat)
    requires Served(sorted, order)
    ensures RoundsSoFar(sorted, sorted, order, total, 0, [])
  {
  }

  /** Before the end of the last cluster every round gives at least one. */
  lemma RoundGives(sorted: Queues, queues: Queues, rest: Queues, order: seq<int>, total: nat, r: nat,
                   balanced: seq<Cluster>)
    requires RoundsSoFar(sorted, queues, order, total, r, balanced) && GivesAll(sorted, order, total)
    requires |balanced| < total
    requires Left(sorted, rest, r + 1)
    ensures Turn(sorted, order, r) != []
    ensures RoundsSoFar(sorted, rest, order, total, r + 1, balanced + Turn(sorted, order, r))
  {
    RoundsUnfold(sorted, order, r + 1);
  }

  /** The interleaving loop; its `break` is never reached. */
  method Interleave(sorted: Queues, chatIDs: seq<int>, total: nat) returns (balanced: seq<Cluster>, ghost r: nat)
    requires Distinct(chatIDs) && forall chat :: chat in chatIDs <==> chat in sorted
    requires GivesAll(sorted, chatIDs, total)
    ensures balanced == Rounds(sorted, chatIDs, r)
    ensures r <= total <= |balanced|
  {
    var queues := sorted;
    balanced, r := [], 0;
    RoundsStart(sorted, chatIDs, total);
    while |balanced| < total
      invariant RoundsSoFar(sorted, queues, chatIDs, total, r, balanced)
      decreases total - |balanced|
    {
      var taken, rest, added := TakeTurn(sorted, queues, chatIDs, r);
      RoundGives(sorted, queues, rest, chatIDs, total, r, balanced);
      queues := rest;
      balanced := balanced + taken;
      r := r + 1;
      if !added {
        assert false;
        break;
      }
    }
  }

  lemma OrderGivesAll(clusters: seq<Cluster>)
    ensures Served(QueuesOf(clusters), ChatOrder(clusters))
    ensures GivesAll(QueuesOf(clusters), ChatOrder(clusters), |clusters|)
  {
    ChatOrderFacts(clusters);
    forall r: nat | Turn(QueuesOf(clusters), ChatOrder(clusters), r) == []
      ensures |Rounds(QueuesOf(clusters), ChatOrder(clusters), r)| == |clusters|
    {
      NoTurnMeansAllTaken(clusters, r);
    }
  }

  method BalanceClustersByChat(clusters: seq<Cluster>) returns (balanced: seq<Cluster>)
    ensures balanced == Balanced(clusters)
  {
    var queues := GroupByChat(clusters);
    assert queues.Keys == Chats(clusters);
    if |queues| < 2 {
      return clusters;
    }
    var chatIDs;
    ghost var r;
    queues, chatIDs := SortQueues(clusters, queues);
    AnyEnumerationSortsAlike(chatIDs, clusters);
    chatIDs := StableSort(chatIDs, ChatBefore(queues));
    ChatOrderFacts(clusters);
    OrderGivesAll(clusters);
    balanced, r := Interleave(queues, chatIDs, |clusters|);
    FullRounds(clusters, r);
  }

  /** `balancedPipelineResult`: fewer than three clusters stay as they are. */
  function BalancedResult(clusters: seq<Cluster>): (r: seq<Cluster>)
    ensures multiset(r) == multiset(clusters)
  {
    BalancedIsPermutation(clusters);
    if |clusters| < 3 then clusters else Balanced(clusters)
  }

  method BalancedPipelineResult(clusters: seq<Cluster>) returns (balanced: seq<Cluster>)
    ensures balanced == BalancedResult(clusters)
  {
    if |clusters| < 3 {
      return clusters;
    }
    balanced := BalanceClustersByChat(clusters);
  }
}
