/**
 Read positions across collections and summaries: `collectMessages` of
 internal/collection/service.go and `markReadPositions` of internal/summary/service.go.
 */
module ReadPositions {
  import opened Sequences
  import opened Summaries
  import opened Text

  datatype Key = Key(userId: int, chatId: int)

  /** The read_positions table. */
  type Positions = map<Key, int>

  datatype Collected = Collected(userId: int, chatId: int, messageId: int)

  function Position(rows: Positions, key: Key): Option<int> {
    if key in rows then Some(rows[key]) else None
  }

  // ----- collecting

  datatype Mode = NewOnly | Unread | Last24h | Last3d | Week | LatestN

  datatype Post = Post(messageId: int, date: int, text: string, caption: string)

  datatype Link = Link(chatId: int, enabled: bool)

  datatype Chat = Chat(id: int, isPrivate: bool, unreadCount: int)

  const DAY := 86400

  function Since(mode: Mode, now: int): Option<int> {
    match mode
    case Last24h => Some(now - DAY)
    case Last3d => Some(now - 3 * DAY)
    case Week => Some(now - 7 * DAY)
    case _ => None
  }

  function CollectionLimit(mode: Mode, limit: int, chat: Chat): int {
    if mode == Unread then if chat.unreadCount <= 0 then 0 else chat.unreadCount else limit
  }

  predicate ShouldSkip(post: Post, position: Option<int>, since: Option<int>, mode: Mode) {
    || (Blank(post.text) && Blank(post.caption))
    || (mode == NewOnly && position.Some? && post.messageId <= position.value)
    || (since.Some? && post.date < since.value)
  }

  datatype Request = Request(userId: int, mode: Mode, limit: int, now: int)

  /** The posts of one chat's history that are kept. */
  function FromHistory(history: seq<Post>, position: Option<int>, request: Request, chatId: int): seq<Collected> {
    if history == [] then []
    else
      var last := history[|history| - 1];
      FromHistory(history[..|history| - 1], position, request, chatId)
      + if ShouldSkip(last, position, Since(request.mode, request.now), request.mode) then []
        else [Collected(request.userId, chatId, last.messageId)]
  }

  /** Chats that are collected at all. */
  predicate Reachable(link: Link, chats: map<int, Chat>) {
    link.enabled && link.chatId in chats && !chats[link.chatId].isPrivate
  }

  /** What one link adds; `history` is whatever the Telegram client answered for it. */
  function FromLink(rows: Positions, request: Request, link: Link, chats: map<int, Chat>, history: seq<Post>)
    : seq<Collected>
  {
    if !Reachable(link, chats) then []
    else
      var chat := chats[link.chatId];
      if CollectionLimit(request.mode, request.limit, chat) == 0 then []
      else FromHistory(history, Position(rows, Key(request.userId, chat.id)), request, chat.id)
  }

  function Collection(rows: Positions, request: Request, links: seq<Link>, chats: map<int, Chat>,
                      histories: seq<seq<Post>>): seq<Collected>
    requires |histories| == |links|
  {
    if links == [] then []
    else
      var n := |links| - 1;
      Collection(rows, request, links[..n], chats, histories[..n])
      + FromLink(rows, request, links[n], chats, histories[n])
  }

  function ReachableCount(links: seq<Link>, chats: map<int, Chat>): nat {
    if links == [] then 0
    else ReachableCount(links[..|links| - 1], chats) + if Reachable(links[|links| - 1], chats) then 1 else 0
  }

  // ----- which posts a collection holds

  /** Some character that is not white space. */
  predicate HasText(s: string) {
    exists i :: 0 <= i < |s| && !IsSpace(s[i])
  }

  /** What the mode of a collection asks of a post. */
  predicate Sought(post: Post, position: Option<int>, mode: Mode, now: int) {
    && (HasText(post.text) || HasText(post.caption))
    && (mode == NewOnly && position.Some? ==> post.messageId > position.value)
    && (mode == Last24h ==> post.date >= now - 86400)
    && (mode == Last3d ==> post.date >= now - 259200)
    && (mode == Week ==> post.date >= now - 604800)
  }

  lemma SkippedIff(post: Post, position: Option<int>, mode: Mode, now: int)
    ensures ShouldSkip(post, position, Since(mode, now), mode) <==> !Sought(post, position, mode, now)
  {
    BlankIff(post.text);
    BlankIff(post.caption);
  }

  /** What a collection asks of a chat: enabled, known, not private, and with anything to fetch. */
  predicate Visited(request: Request, link: Link, chats: map<int, Chat>) {
    && link.enabled && link.chatId in chats && !chats[link.chatId].isPrivate
    && (if request.mode == Unread then chats[link.chatId].unreadCount > 0 else request.limit != 0)
  }

  ghost predicate CollectedFrom(message: Collected, history: seq<Post>, position: Option<int>, request: Request,
                                chatId: int)
  {
    exists j ::
      && 0 <= j < |history| && Sought(history[j], position, request.mode, request.now)
      && message == Collected(request.userId, chatId, history[j].messageId)
  }

  lemma {:induction false} FromHistoryIff(history: seq<Post>, position: Option<int>, request: Request, chatId: int,
                                          message: Collected)
    ensures message in FromHistory(history, position, request, chatId) <==>
            CollectedFrom(message, history, position, request, chatId)
  {
    if history != [] {
      var n := |history| - 1;
      SkippedIff(history[n], position, request.mode, request.now);
      FromHistoryIff(history[..n], position, request, chatId, message);
      HistoryStep(message, history, position, request, chatId, n);
    }
  }

  lemma HistoryStep(message: Collected, history: seq<Post>, position: Option<int>, request: Request, chatId: int,
                    n: nat)
    requires |history| == n + 1
    ensures CollectedFrom(message, history, position, request, chatId) <==>
            || CollectedFrom(message, history[..n], position, request, chatId)
            || (&& Sought(history[n], position, request.mode, request.now)
                && message == Collected(request.userId, chatId, history[n].messageId))
  {
    if CollectedFrom(message, history, position, request, chatId) {
      var j :|
        && 0 <= j < |history| && Sought(history[j], position, request.mode, request.now)
        && message == Collected(request.userId, chatId, history[j].messageId);
      assert j < n ==> history[..n][j] == history[j];
    }
    if CollectedFrom(message, history[..n], position, request, chatId) {
      var j :|
        && 0 <= j < n && Sought(history[..n][j], position, request.mode, request.now)
        && message == Collected(request.userId, chatId, history[..n][j].messageId);
      assert history[j] == history[..n][j];
    }
  }

  /** The message is a sought post of a visited chat. */
  ghost predicate CollectedAt(message: Collected, rows: Positions, request: Request, link: Link, chats: map<int, Chat>,
                              history: seq<Post>)
  {
    && Visited(request, link, chats)
    && var chatId := chats[link.chatId].id;
       CollectedFrom(message, history, Position(rows, Key(request.userId, chatId)), request, chatId)
  }

  ghost predicate CollectedSomewhere(message: Collected, rows: Positions, request: Request, links: seq<Link>,
                                     chats: map<int, Chat>, histories: seq<seq<Post>>)
    requires |histories| == |links|
  {
    exists i :: 0 <= i < |links| && CollectedAt(message, rows, request, links[i], chats, histories[i])
  }

  /** A collection holds exactly the sought posts of the visited chats. */
  lemma {:induction false} CollectionIff(rows: Positions, request: Request, links: seq<Link>, chats: map<int, Chat>,
                                         histories: seq<seq<Post>>, message: Collected)
    requires |histories| == |links|
    ensures message in Collection(rows, request, links, chats, histories) <==>
            CollectedSomewhere(message, rows, request, links, chats, histories)
  {
    if links != [] {
      var n := |links| - 1;
      CollectionIff(rows, request, links[..n], chats, histories[..n], message);
      FromLinkIff(rows, request, links[n], chats, histories[n], message);
      SomewhereStep(message, rows, request, links, chats, histories, n);
    }
  }

  lemma FromLinkIff(rows: Positions, request: Request, link: Link, chats: map<int, Chat>, history: seq<Post>,
                    message: Collected)
    ensures message in FromLink(rows, request, link, chats, history) <==>
            CollectedAt(message, rows, request, link, chats, history)
  {
    if Reachable(link, chats) {
      var chatId := chats[link.chatId].id;
      FromHistoryIff(history, Position(rows, Key(request.userId, chatId)), request, chatId, message);
    }
  }

  lemma SomewhereStep(message: Collected, rows: Positions, request: Request, links: seq<Link>,
                      chats: map<int, Chat>, histories: seq<seq<Post>>, n: nat)
    requires |histories| == |links| == n + 1
    ensures CollectedSomewhere(message, rows, request, links, chats, histories) <==>
            || CollectedSomewhere(message, rows, request, links[..n], chats, histories[..n])
            || CollectedAt(message, rows, request, links[n], chats, histories[n])
  {
    if CollectedSomewhere(message, rows, request, links, chats, histories) {
      var i :| 0 <= i < |links| && CollectedAt(message, rows, request, links[i], chats, histories[i]);
      assert i < n ==> links[..n][i] == links[i] && histories[..n][i] == histories[i];
    }
    if CollectedSomewhere(message, rows, request, links[..n], chats, histories[..n]) {
      var i :| 0 <= i < n && CollectedAt(message, rows, request, links[..n][i], chats, histories[..n][i]);
      assert links[i] == links[..n][i] && histories[i] == histories[..n][i];
    }
  }

  method CollectHistory(history: seq<Post>, position: Option<int>, request: Request, chatId: int)
    returns (collected: seq<Collected>)
    ensures collected == FromHistory(history, position, request, chatId)
  {
    collected := [];
    var since := Since(request.mode, request.now);
    for k := 0 to |history|
      invariant collected == FromHistory(history[..k], position, request, chatId)
    {
      assert history[..k + 1][..k] == history[..k];
      if ShouldSkip(history[k], position, since, request.mode) {
        assert FromHistory(history[..k + 1], position, request, chatId) == collected;
        continue;
      }
      collected := collected + [Collected(request.userId, chatId, history[k].messageId)];
    }
    assert history[..|history|] == history;
  }

  /** A chat's position never moves back between two states. */
  ghost predicate Advanced(before: Positions, after: Positions) {
    forall key :: key in before ==> key in after && before[key] <= after[key]
  }

  // ----- marking

  /** The greatest positive id of the user's messages in the chat, 0 without one. */
  function MaxId(messages: seq<Collected>, key: Key): nat {
    if messages == [] then 0
    else
      var before, last := MaxId(messages[..|messages| - 1], key), messages[|messages| - 1];
      if last.userId == key.userId && last.chatId == key.chatId && last.messageId > before then last.messageId
      else before
  }

  /** What one `Find` followed by one `Upsert` leaves, when `found` is what was read. */
  function Written(rows: Positions, key: Key, found: Option<int>, id: int): Positions {
    if found.Some? && found.value >= id then rows else rows[key := id]
  }

  /** The position of every chat after marking. */
  function MarkedAt(rows: Positions, userId: int, messages: seq<Collected>, key: Key): Option<int> {
    var was, id := Position(rows, key), MaxId(messages, key);
    if key.userId != userId || id == 0 then was
    else if was.Some? && was.value >= id then was
    else Some(id)
  }

  ghost predicate Marked(before: Positions, after: Positions, userId: int, messages: seq<Collected>) {
    forall key :: Position(after, key) == MarkedAt(before, userId, messages, key)
  }

  /** The chats still to do keep their positions, the others are marked. */
  ghost predicate PartlyMarked(before: Positions, after: Positions, userId: int, messages: seq<Collected>,
                               todo: set<int>)
  {
    forall key: Key :: Position(after, key) ==
      if key.userId == userId && key.chatId in todo then Position(before, key)
      else MarkedAt(before, userId, messages, key)
  }

  lemma MarkOne(before: Positions, rows: Positions, userId: int, messages: seq<Collected>, todo: set<int>, chatId: int)
    requires PartlyMarked(before, rows, userId, messages, todo) && chatId in todo
    requires MaxId(messages, Key(userId, chatId)) > 0
    ensures var key := Key(userId, chatId);
            PartlyMarked(before, Written(rows, key, Position(rows, key), MaxId(messages, key)), userId, messages,
                         todo - {chatId})
  {
    var mine := Key(userId, chatId);
    var after := Written(rows, mine, Position(rows, mine), MaxId(messages, mine));
    forall key: Key
      ensures Position(after, key) ==
        if key.userId == userId && key.chatId in todo - {chatId} then Position(before, key)
        else MarkedAt(before, userId, messages, key)
    {
      assert Position(rows, key) ==
        if key.userId == userId && key.chatId in todo then Position(before, key)
        else MarkedAt(before, userId, messages, key);
    }
  }

  lemma SomeMember<T>(s: set<T>) returns (x: T)
    requires s != {}
    ensures x in s
  {
    x :| x in s;
  }

  class ReadPositionRepository {
    var rows: Positions

    constructor ()
      ensures rows == map[]
    {
      rows := map[];
    }

    method Find(userId: int, chatId: int) returns (position: Option<int>)
      ensures position == Position(rows, Key(userId, chatId))
    {
      if Key(userId, chatId) in rows {
        return Some(rows[Key(userId, chatId)]);
      }
      return None;
    }

    method Upsert(userId: int, chatId: int, messageId: int)
      modifies this
      ensures rows == old(rows)[Key(userId, chatId) := messageId]
    {
      rows := rows[Key(userId, chatId) := messageId];
    }

    /** The loop over the links of a source group. */
    method CollectMessages(request: Request, links: seq<Link>, chats: map<int, Chat>, histories: seq<seq<Post>>)
      returns (collected: seq<Collected>, chatsCount: nat)
      requires |histories| == |links|
      ensures collected == Collection(rows, request, links, chats, histories)
      ensures forall message ::
                message in collected <==> CollectedSomewhere(message, rows, request, links, chats, histories)
      ensures chatsCount == ReachableCount(links, chats)
    {
      collected, chatsCount := [], 0;
      for i := 0 to |links|
        invariant collected == Collection(rows, request, links[..i], chats, histories[..i])
        invariant chatsCount == ReachableCount(links[..i], chats)
      {
        var link := links[i];
        assert links[..i + 1][..i] == links[..i] && histories[..i + 1][..i] == histories[..i];
        assert Collection(rows, request, links[..i + 1], chats, histories[..i + 1])
            == collected + FromLink(rows, request, link, chats, histories[i]);
        if !link.enabled {
          continue;
        }
        if link.chatId !in chats {
          continue;
        }
        var chat := chats[link.chatId];
        if chat.isPrivate {
          continue;
        }
        chatsCount := chatsCount + 1;
        var position := Find(request.userId, chat.id);
        if CollectionLimit(request.mode, request.limit, chat) == 0 {
          continue;
        }
        var kept := CollectHistory(histories[i], position, request, chat.id);
        collected := collected + kept;
      }
      assert links[..|links|] == links && histories[..|links|] == histories;
      forall message
        ensures message in collected <==> CollectedSomewhere(message, rows, request, links, chats, histories)
      {
        CollectionIff(rows, request, links, chats, histories, message);
      }
    }

    /** Mark the messages of a summary as read; the map may be walked in any order. */
    method MarkReadPositions(userId: int, messages: seq<Collected>)
      modifies this
      ensures Marked(old(rows), rows, userId, messages)
    {
      var maxMessageByChat := Greatest(userId, messages);
      var todo: set<int> := maxMessageByChat.Keys;
      ghost var before := rows;
      while todo != {}
        invariant todo <= maxMessageByChat.Keys
        invariant PartlyMarked(before, rows, userId, messages, todo)
        decreases todo
      {
        ghost var any := SomeMember(todo);
        var chatId :| chatId in todo;
        var messageId := maxMessageByChat[chatId];
        MarkOne(before, rows, userId, messages, todo, chatId);
        todo := todo - {chatId};
        var position := Find(userId, chatId);
        if position.Some? && position.value >= messageId {
          continue;
        }
        Upsert(userId, chatId, messageId);
      }
    }
  }

  /** The first loop of `markReadPositions`. */
  method Greatest(userId: int, messages: seq<Collected>) returns (maxByChat: map<int, int>)
    ensures forall chat :: (chat in maxByChat <==> MaxId(messages, Key(userId, chat)) > 0)
    ensures forall chat :: chat in maxByChat ==> maxByChat[chat] == MaxId(messages, Key(userId, chat))
  {
    maxByChat := map[];
    for k := 0 to |messages|
      invariant forall chat :: (chat in maxByChat <==> MaxId(messages[..k], Key(userId, chat)) > 0)
      invariant forall chat :: chat in maxByChat ==> maxByChat[chat] == MaxId(messages[..k], Key(userId, chat))
    {
      assert messages[..k + 1][..k] == messages[..k];
      var message := messages[k];
      if message.userId != userId {
        continue;
      }
      var known := if message.chatId in maxByChat then maxByChat[message.chatId] else 0;
      if message.messageId > known {
        maxByChat := maxByChat[message.chatId := message.messageId];
      }
    }
    assert messages[..|messages|] == messages;
  }

  // ----- facts about one step

  lemma {:induction false} MaxIdCovers(messages: seq<Collected>, k: nat)
    requires k < |messages|
    ensures messages[k].messageId <= MaxId(messages, Key(messages[k].userId, messages[k].chatId))
  {
    if k < |messages| - 1 {
      MaxIdCovers(messages[..|messages| - 1], k);
    }
  }

  /** The id is that of one of the user's messages in the chat. */
  ghost predicate IdOfMessage(id: int, messages: seq<Collected>, key: Key) {
    exists k :: 0 <= k < |messages| && messages[k] == Collected(key.userId, key.chatId, id)
  }

  lemma {:induction false} MaxIdAttained(messages: seq<Collected>, key: Key)
    ensures MaxId(messages, key) > 0 ==> IdOfMessage(MaxId(messages, key), messages, key)
  {
    if messages != [] {
      var n := |messages| - 1;
      MaxIdAttained(messages[..n], key);
      if IdOfMessage(MaxId(messages, key), messages[..n], key) {
        var k :| 0 <= k < n && messages[..n][k] == Collected(key.userId, key.chatId, MaxId(messages, key));
        assert messages[k] == messages[..n][k];
      } else {
        assert messages[n] == messages[|messages| - 1];
      }
    }
  }

  /** A position that marking changed is the id of a marked message of that chat; other users' stay. */
  lemma MarkingInventsNothing(before: Positions, after: Positions, userId: int, messages: seq<Collected>, key: Key)
    requires Marked(before, after, userId, messages)
    ensures Position(after, key) != Position(before, key) ==>
              key.userId == userId && key in after && IdOfMessage(after[key], messages, key)
  {
    MaxIdAttained(messages, key);
    assert Position(after, key) == MarkedAt(before, userId, messages, key);
  }

  /** Marking moves no position back and puts every marked message at or below its chat's position. */
  lemma MarkingAdvances(before: Positions, after: Positions, userId: int, messages: seq<Collected>)
    requires Marked(before, after, userId, messages)
    ensures Advanced(before, after)
    ensures forall k :: 0 <= k < |messages| && messages[k].userId == userId ==> Read(after, messages[k])
  {
    forall key | key in before
      ensures key in after && before[key] <= after[key]
    {
      assert Position(after, key) == MarkedAt(before, userId, messages, key);
    }
    forall k | 0 <= k < |messages| && messages[k].userId == userId
      ensures Read(after, messages[k])
    {
      var key := Key(userId, messages[k].chatId);
      MaxIdCovers(messages, k);
      assert Position(after, key) == MarkedAt(before, userId, messages, key);
    }
  }

  /** The message is behind its chat's position; Telegram ids are positive. */
  predicate Read(rows: Positions, message: Collected) {
    message.messageId > 0 ==>
      var position := Position(rows, Key(message.userId, message.chatId));
      position.Some? && message.messageId <= position.value
  }

  lemma ReadStaysRead(before: Positions, after: Positions, message: Collected)
    requires Advanced(before, after) && Read(before, message)
    ensures Read(after, message)
  {
  }

  lemma {:induction false} NewIsUnreadInHistory(history: seq<Post>, position: Option<int>, request: Request,
                                                chatId: int, message: Collected)
    requires request.mode == NewOnly && message in FromHistory(history, position, request, chatId)
    ensures message.userId == request.userId && message.chatId == chatId
    ensures (position.Some? ==> message.messageId > position.value)
  {
    if message in FromHistory(history[..|history| - 1], position, request, chatId) {
      NewIsUnreadInHistory(history[..|history| - 1], position, request, chatId, message);
    }
  }

  /** A collection of new messages returns nothing at or below a position. */
  lemma {:induction false} NewIsUnread(
    rows: Positions, request: Request, links: seq<Link>, chats: map<int, Chat>, histories: seq<seq<Post>>,
    message: Collected)
    requires |histories| == |links| && request.mode == NewOnly
    requires message in Collection(rows, request, links, chats, histories)
    ensures message.userId == request.userId
    ensures var position := Position(rows, Key(message.userId, message.chatId));
            position.Some? ==> message.messageId > position.value
  {
    var n := |links| - 1;
    if message in Collection(rows, request, links[..n], chats, histories[..n]) {
      NewIsUnread(rows, request, links[..n], chats, histories[..n], message);
    } else {
      var chat := chats[links[n].chatId];
      NewIsUnreadInHistory(histories[n], Position(rows, Key(request.userId, chat.id)), request, chat.id, message);
    }
  }

  // ----- runs

  /** Collections by job, and the jobs whose summary was saved and marked. */
  datatype World = World(rows: Positions, jobs: map<int, seq<Collected>>, owners: map<int, int>, summarised: set<int>)

  datatype Event =
    | Collect(job: int, request: Request, links: seq<Link>, chats: map<int, Chat>, histories: seq<seq<Post>>)
    | Summarise(job: int)

  ghost predicate Happens(w: World, event: Event, next: World) {
    match event
    case Collect(job, request, links, chats, histories) =>
      && job !in w.jobs && |histories| == |links|
      && next ==
         w.(jobs := w.jobs[job := Collection(w.rows, request, links, chats, histories)],
            owners := w.owners[job := request.userId])
    case Summarise(job) =>
      && job in w.jobs && job in w.owners
      && Marked(w.rows, next.rows, w.owners[job], w.jobs[job])
      && next == w.(rows := next.rows, summarised := w.summarised + {job})
  }

  ghost predicate Run(worlds: seq<World>, events: seq<Event>) {
    && |worlds| == |events| + 1
    && forall k :: 0 <= k < |events| ==> Happens(worlds[k], events[k], worlds[k + 1])
  }

  /** Every summarised message is behind its position. */
  ghost predicate Consistent(w: World) {
    && w.summarised <= w.jobs.Keys && w.jobs.Keys == w.owners.Keys
    && (forall job, k :: job in w.jobs && 0 <= k < |w.jobs[job]| ==> w.jobs[job][k].userId == w.owners[job])
    && (forall job, k :: job in w.summarised && 0 <= k < |w.jobs[job]| ==> Read(w.rows, w.jobs[job][k]))
  }

  lemma {:induction false} CollectedForUser(
    rows: Positions, request: Request, links: seq<Link>, chats: map<int, Chat>, histories: seq<seq<Post>>,
    message: Collected)
    requires |histories| == |links| && message in Collection(rows, request, links, chats, histories)
    ensures message.userId == request.userId
  {
    var n := |links| - 1;
    if message in Collection(rows, request, links[..n], chats, histories[..n]) {
      CollectedForUser(rows, request, links[..n], chats, histories[..n], message);
    } else {
      var chat := chats[links[n].chatId];
      HistoryForUser(histories[n], Position(rows, Key(request.userId, chat.id)), request, chat.id, message);
    }
  }

  lemma {:induction false} HistoryForUser(history: seq<Post>, position: Option<int>, request: Request, chatId: int,
                                          message: Collected)
    requires message in FromHistory(history, position, request, chatId)
    ensures message.userId == request.userId
  {
    if message in FromHistory(history[..|history| - 1], position, request, chatId) {
      HistoryForUser(history[..|history| - 1], position, request, chatId, message);
    }
  }

  lemma StepIsConsistent(w: World, event: Event, next: World)
    requires Consistent(w) && Happens(w, event, next)
    ensures Consistent(next) && Advanced(w.rows, next.rows)
    ensures w.summarised <= next.summarised
    ensures forall job :: job in w.jobs ==> job in next.jobs && next.jobs[job] == w.jobs[job]
  {
    match event
    case Collect(job, request, links, chats, histories) =>
      forall m | m in next.jobs[job]
        ensures m.userId == request.userId
      {
        CollectedForUser(w.rows, request, links, chats, histories, m);
      }
    case Summarise(job) =>
      MarkingAdvances(w.rows, next.rows, w.owners[job], w.jobs[job]);
      forall j, k | j in next.summarised && 0 <= k < |next.jobs[j]|
        ensures Read(next.rows, next.jobs[j][k])
      {
        if j in w.summarised {
          ReadStaysRead(w.rows, next.rows, w.jobs[j][k]);
        }
      }
  }

  lemma {:induction false} RunIsConsistent(worlds: seq<World>, events: seq<Event>, i: nat, j: nat)
    requires Run(worlds, events) && Consistent(worlds[0]) && i <= j < |worlds|
    ensures Consistent(worlds[j]) && Advanced(worlds[i].rows, worlds[j].rows)
    ensures worlds[i].summarised <= worlds[j].summarised
    ensures forall job :: job in worlds[i].jobs ==> job in worlds[j].jobs && worlds[j].jobs[job] == worlds[i].jobs[job]
    decreases j
  {
    if i < j {
      RunIsConsistent(worlds, events, i, j - 1);
      StepIsConsistent(worlds[j - 1], events[j - 1], worlds[j]);
    } else if j > 0 {
      RunIsConsistent(worlds, events, j - 1, j - 1);
      StepIsConsistent(worlds[j - 1], events[j - 1], worlds[j]);
    }
  }

  /** In every run a chat's position never decreases. */
  lemma PositionsNeverDecrease(worlds: seq<World>, events: seq<Event>, i: nat, j: nat, key: Key)
    requires Run(worlds, events) && Consistent(worlds[0]) && i <= j < |worlds| && key in worlds[i].rows
    ensures key in worlds[j].rows && worlds[i].rows[key] <= worlds[j].rows[key]
  {
    RunIsConsistent(worlds, events, i, j);
  }

  predicate InJob(w: World, job: int, message: Collected) {
    job in w.jobs && message in w.jobs[job]
  }

  /**
   Whatever groups and modes were collected before, a collection of new messages
   contains no message of a collection that was summarised earlier.
   */
  lemma NewMessagesAreNew(worlds: seq<World>, events: seq<Event>, i: nat, j: nat, message: Collected)
    requires Run(worlds, events) && Consistent(worlds[0]) && i < j < |events|
    requires events[i].Summarise? && InJob(worlds[i], events[i].job, message) && message.messageId > 0
    requires events[j].Collect? && events[j].request.mode == NewOnly
    ensures !InJob(worlds[j + 1], events[j].job, message)
  {
    assert Happens(worlds[i], events[i], worlds[i + 1]) && Happens(worlds[j], events[j], worlds[j + 1]);
    var job := events[i].job;
    RunIsConsistent(worlds, events, i, i + 1);
    RunIsConsistent(worlds, events, i + 1, j);
    var k :| 0 <= k < |worlds[i].jobs[job]| && worlds[i].jobs[job][k] == message;
    assert job in worlds[j].summarised && worlds[j].jobs[job][k] == message;
    assert Read(worlds[j].rows, message);
    var e := events[j];
    if message in Collection(worlds[j].rows, e.request, e.links, e.chats, e.histories) {
      NewIsUnread(worlds[j].rows, e.request, e.links, e.chats, e.histories, message);
    }
  }

  // ----- without atomicity

  /** Read and write in one step never move a position back. */
  lemma FreshWriteAdvances(rows: Positions, key: Key, id: int)
    ensures Advanced(rows, Written(rows, key, Position(rows, key), id))
  {
  }

  /** One chat's turn in one summary's marking. */
  datatype Marker = Marker(key: Key, id: int)

  datatype MarkStep = Find(m: nat) | Upsert(m: nat)

  /** The table, and what the markers under way have read. */
  datatype Marking = Marking(rows: Positions, found: map<nat, Option<int>>)

  /** A marker reads once, and goes on to write unless it read a position at or above its own id. */
  predicate May(s: Marking, markers: seq<Marker>, step: MarkStep) {
    && step.m < |markers|
    && match step
       case Find(m) => m !in s.found
       case Upsert(m) => m in s.found && (s.found[m].None? || s.found[m].value < markers[m].id)
  }

  function Do(s: Marking, markers: seq<Marker>, step: MarkStep): Marking
    requires May(s, markers, step)
  {
    match step
    case Find(m) => s.(found := s.found[m := Position(s.rows, markers[m].key)])
    case Upsert(m) => Marking(s.rows[markers[m].key := markers[m].id], s.found - {m})
  }

  /** The state after the steps, None when they cannot be taken in this order. */
  function After(rows: Positions, markers: seq<Marker>, steps: seq<MarkStep>): Option<Marking> {
    if steps == [] then Some(Marking(rows, map[]))
    else
      var before, last := After(rows, markers, steps[..|steps| - 1]), steps[|steps| - 1];
      if before.Some? && May(before.value, markers, last) then Some(Do(before.value, markers, last)) else None
  }

  /** The id last written to the key. */
  function LastWrite(markers: seq<Marker>, steps: seq<MarkStep>, key: Key): Option<int> {
    if steps == [] then None
    else
      var last := steps[|steps| - 1];
      if last.Upsert? && last.m < |markers| && markers[last.m].key == key then Some(markers[last.m].id)
      else LastWrite(markers, steps[..|steps| - 1], key)
  }

  lemma AfterOneMore(rows: Positions, markers: seq<Marker>, steps: seq<MarkStep>, step: MarkStep)
    ensures After(rows, markers, steps + [step]) ==
            var before := After(rows, markers, steps);
            if before.Some? && May(before.value, markers, step) then Some(Do(before.value, markers, step)) else None
  {
    assert (steps + [step])[..|steps|] == steps;
  }

  /** The marker remembers what it read, while the table follows the last write since. */
  predicate Remembers(s: Marking, marker: Marker, m: nat, read: Option<int>, written: Option<int>) {
    && m in s.found && s.found[m] == read
    && Position(s.rows, marker.key) == if written.Some? then written else read
  }

  lemma RememberStep(s: Marking, markers: seq<Marker>, m: nat, read: Option<int>, written: Option<int>, step: MarkStep)
    requires m < |markers| && Remembers(s, markers[m], m, read, written) && May(s, markers, step) && step != Upsert(m)
    ensures Remembers(Do(s, markers, step), markers[m], m, read,
                      if step.Upsert? && markers[step.m].key == markers[m].key then Some(markers[step.m].id)
                      else written)
  {
  }

  lemma LastWriteSnoc(markers: seq<Marker>, front: seq<MarkStep>, last: MarkStep, key: Key)
    ensures LastWrite(markers, front + [last], key) ==
            if last.Upsert? && last.m < |markers| && markers[last.m].key == key then Some(markers[last.m].id)
            else LastWrite(markers, front, key)
  {
    assert (front + [last])[..|front|] == front;
  }

  /** Between its find and its upsert a marker remembers what it read, while the table follows the last write. */
  lemma {:induction false} SinceFind(rows: Positions, markers: seq<Marker>, pre: seq<MarkStep>, m: nat,
                                     mid: seq<MarkStep>)
    requires After(rows, markers, pre + [Find(m)] + mid).Some? && Upsert(m) !in mid
    ensures After(rows, markers, pre).Some? && m < |markers|
    ensures Remembers(After(rows, markers, pre + [Find(m)] + mid).value, markers[m], m,
                      Position(After(rows, markers, pre).value.rows, markers[m].key),
                      LastWrite(markers, mid, markers[m].key))
  {
    if mid == [] {
      assert pre + [Find(m)] + mid == pre + [Find(m)];
      AfterOneMore(rows, markers, pre, Find(m));
    } else {
      var front, last := mid[..|mid| - 1], mid[|mid| - 1];
      SplitLast(mid);
      Associative(pre + [Find(m)], front, [last]);
      AfterOneMore(rows, markers, pre + [Find(m)] + front, last);
      SinceFind(rows, markers, pre, m, front);
      LastWriteSnoc(markers, front, last, markers[m].key);
      RememberStep(After(rows, markers, pre + [Find(m)] + front).value, markers, m,
                   Position(After(rows, markers, pre).value.rows, markers[m].key),
                   LastWrite(markers, front, markers[m].key), last);
    }
  }

  /** The upsert moves its chat's position back. */
  predicate Lowers(s: Marking, marker: Marker) {
    marker.key in s.rows && marker.id < s.rows[marker.key]
  }

  /**
   In every interleaving of any number of markers, an upsert moves a position back
   exactly when the last write to its chat since its own find had a greater id.
   */
  lemma UpsertLowersIff(rows: Positions, markers: seq<Marker>, pre: seq<MarkStep>, m: nat, mid: seq<MarkStep>)
    requires After(rows, markers, pre + [Find(m)] + mid + [Upsert(m)]).Some? && Upsert(m) !in mid
    ensures m < |markers| && After(rows, markers, pre + [Find(m)] + mid).Some?
    ensures var written := LastWrite(markers, mid, markers[m].key);
            Lowers(After(rows, markers, pre + [Find(m)] + mid).value, markers[m]) <==>
            written.Some? && written.value > markers[m].id
  {
    AfterOneMore(rows, markers, pre + [Find(m)] + mid, Upsert(m));
    SinceFind(rows, markers, pre, m, mid);
  }

  /** So a marker that writes right after it reads never moves a position back, whatever the others do. */
  lemma UndividedMarkerNeverLowers(rows: Positions, markers: seq<Marker>, pre: seq<MarkStep>, m: nat)
    requires After(rows, markers, pre + [Find(m)] + [Upsert(m)]).Some?
    ensures m < |markers| && After(rows, markers, pre + [Find(m)]).Some?
    ensures !Lowers(After(rows, markers, pre + [Find(m)]).value, markers[m])
  {
    assert pre + [Find(m)] + [] == pre + [Find(m)];
    UpsertLowersIff(rows, markers, pre, m, []);
  }

  lemma FindFind(markers: seq<Marker>)
    requires |markers| == 2
    ensures After(map[], markers, [Find(0), Find(1)]) == Some(Marking(map[], map[0 := None, 1 := None]))
  {
    AfterOneMore(map[], markers, [], Find(0));
    AfterOneMore(map[], markers, [Find(0)], Find(1));
    assert [] + [Find(0)] == [Find(0)] && [Find(0)] + [Find(1)] == [Find(0), Find(1)];
  }

  lemma LaterThenEarlier(key: Key)
    ensures var markers := [Marker(key, 5), Marker(key, 9)];
            && After(map[], markers, [Find(0), Find(1), Upsert(1)]) == Some(Marking(map[key := 9], map[0 := None]))
            && After(map[], markers, [Find(0), Find(1), Upsert(1), Upsert(0)]) == Some(Marking(map[key := 5], map[]))
  {
    var markers := [Marker(key, 5), Marker(key, 9)];
    FindFind(markers);
    AfterOneMore(map[], markers, [Find(0), Find(1)], Upsert(1));
    AfterOneMore(map[], markers, [Find(0), Find(1), Upsert(1)], Upsert(0));
    assert [Find(0), Find(1)] + [Upsert(1)] == [Find(0), Find(1), Upsert(1)];
    assert [Find(0), Find(1), Upsert(1)] + [Upsert(0)] == [Find(0), Find(1), Upsert(1), Upsert(0)];
    var both: map<nat, Option<int>>, one: map<nat, Option<int>> := map[0 := None, 1 := None], map[0 := None];
    assert both - {1} == one && one - {0} == map[];
    assert map[key := 9][key := 5] == map[key := 5];
  }

  /**
   Two summaries of one chat marking at once: the earlier one writes last, and message 9,
   already summarised, counts as new again.
   */
  lemma InterleavedMarksLoseGround(key: Key)
    ensures var markers := [Marker(key, 5), Marker(key, 9)];
            var late := After(map[], markers, [Find(0), Find(1), Upsert(1)]);
            var early := After(map[], markers, [Find(0), Find(1), Upsert(1), Upsert(0)]);
            && late.Some? && ShouldSkip(Post(9, 0, "text", ""), Position(late.value.rows, key), None, NewOnly)
            && early.Some? && !ShouldSkip(Post(9, 0, "text", ""), Position(early.value.rows, key), None, NewOnly)
  {
    LaterThenEarlier(key);
    BlankIff("text");
    assert !IsSpace("text"[0]);
  }
}
