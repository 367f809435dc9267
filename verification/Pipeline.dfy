/**
 From collected messages to clusters: `Filter` of internal/summary/filter/filter.go and
 internal/summary/pipeline/pipeline.go.
 */
module Pipeline {
  import opened Messages
  import opened Sequences
  import opened Text
  import opened Normalization
  import D = Deduplication

  /** A collected message as stored. */
  datatype Source = Source(id: int, chatId: int, date: int, text: string, caption: string, url: string)

  datatype Rules = Rules(minTextLength: int, dropAds: bool, dropJobs: bool)

  /** The regular expressions, the hash and the word lists, left abstract. */
  datatype Lexicon = Lexicon(
    footer: string -> bool, urls: string -> seq<string>,
    emojiOnly: string -> bool, ad: string -> bool, job: string -> bool,
    hash: string -> string, tokens: string -> set<string>)

  datatype FilterStats = FilterStats(
    input: nat, empty: nat, tooShort: nat, emojiOnly: nat, advertisement: nat, jobPost: nat,
    footerRemoved: nat, kept: nat)

  datatype Verdict = Empty | EmojiOnly | TooShort | Advertisement | JobPost | Kept

  function ContentOf(source: Source, lexicon: Lexicon): (string, bool) {
    Normalized(source.text, source.caption, lexicon.footer)
  }

  function UrlsOf(source: Source, lexicon: Lexicon): seq<string> {
    lexicon.urls(ContentOf(source, lexicon).0 + " " + source.url)
  }

  /** The first rule that applies decides. */
  function Judge(source: Source, rules: Rules, lexicon: Lexicon): Verdict {
    var content := ContentOf(source, lexicon).0;
    if Blank(content) then Empty
    else if lexicon.emojiOnly(content) then EmojiOnly
    else if
      |content| < (if rules.minTextLength <= 0 then 30 else rules.minTextLength) && UrlsOf(source, lexicon) == []
    then TooShort
    else if rules.dropAds && lexicon.ad(content) then Advertisement
    else if rules.dropJobs && lexicon.job(content) then JobPost
    else Kept
  }

  function Prepared(source: Source, lexicon: Lexicon): Message {
    var content := ContentOf(source, lexicon).0;
    Message(source.id, source.chatId, source.date, content, UrlsOf(source, lexicon), lexicon.hash(content),
            lexicon.tokens(content))
  }

  /** How many messages got the verdict. */
  function Count(sources: seq<Source>, rules: Rules, lexicon: Lexicon, verdict: Verdict): nat {
    if sources == [] then 0
    else
      Count(sources[..|sources| - 1], rules, lexicon, verdict)
      + if Judge(sources[|sources| - 1], rules, lexicon) == verdict then 1 else 0
  }

  function Filtered(sources: seq<Source>, rules: Rules, lexicon: Lexicon): seq<Message> {
    if sources == [] then []
    else
      var last := sources[|sources| - 1];
      Filtered(sources[..|sources| - 1], rules, lexicon)
      + if Judge(last, rules, lexicon) == Kept then [Prepared(last, lexicon)] else []
  }

  /** One more message under its verdict. */
  function Tallied(stats: FilterStats, verdict: Verdict, footerRemoved: bool): FilterStats {
    var s := if footerRemoved then stats.(footerRemoved := stats.footerRemoved + 1) else stats;
    match verdict
    case Empty => s.(empty := s.empty + 1)
    case EmojiOnly => s.(emojiOnly := s.emojiOnly + 1)
    case TooShort => s.(tooShort := s.tooShort + 1)
    case Advertisement => s.(advertisement := s.advertisement + 1)
    case JobPost => s.(jobPost := s.jobPost + 1)
    case Kept => s
  }

  /** The counters of the loop, before input and kept messages are filled in. */
  function Tally(sources: seq<Source>, rules: Rules, lexicon: Lexicon): FilterStats {
    if sources == [] then FilterStats(0, 0, 0, 0, 0, 0, 0, 0)
    else
      var last := sources[|sources| - 1];
      Tallied(Tally(sources[..|sources| - 1], rules, lexicon), Judge(last, rules, lexicon), ContentOf(last, lexicon).1)
  }

  function StatsOf(sources: seq<Source>, rules: Rules, lexicon: Lexicon): FilterStats {
    Tally(sources, rules, lexicon).(input := |sources|, kept := |Filtered(sources, rules, lexicon)|)
  }

  /** Thirty characters unless the rules say otherwise; a message with a link may be shorter. */
  ghost predicate LongEnough(message: Message, rules: Rules) {
    || message.urls != []
    || (rules.minTextLength > 0 && |message.content| >= rules.minTextLength)
    || (rules.minTextLength <= 0 && |message.content| >= 30)
  }

  /** What each verdict says about the message; advertisements and job posts are only dropped when asked for. */
  ghost predicate Deserves(message: Message, verdict: Verdict, rules: Rules, lexicon: Lexicon) {
    var content := message.content;
    && (verdict == Empty <==> Blank(content))
    && (verdict == EmojiOnly ==> lexicon.emojiOnly(content))
    && (verdict == TooShort ==> !LongEnough(message, rules) && !lexicon.emojiOnly(content))
    && (verdict == Advertisement ==> rules.dropAds && lexicon.ad(content) && LongEnough(message, rules))
    && (verdict == JobPost ==>
          && rules.dropJobs && lexicon.job(content) && LongEnough(message, rules)
          && !(rules.dropAds && lexicon.ad(content)))
    && (verdict == Kept <==>
          && !Blank(content) && !lexicon.emojiOnly(content) && LongEnough(message, rules)
          && (rules.dropAds ==> !lexicon.ad(content)) && (rules.dropJobs ==> !lexicon.job(content)))
  }

  /** The message is the source's own, its lines normalised. */
  ghost predicate MadeFrom(message: Message, source: Source, footerRemoved: bool, lexicon: Lexicon) {
    && message.id == source.id && message.chatId == source.chatId && message.date == source.date
    && KeepsLines(source.text, source.caption, lexicon.footer, message.content, footerRemoved)
    && message.urls == lexicon.urls(message.content + " " + source.url)
    && message.hash == lexicon.hash(message.content) && message.tokens == lexicon.tokens(message.content)
  }

  lemma JudgedFairly(source: Source, rules: Rules, lexicon: Lexicon)
    ensures Deserves(Prepared(source, lexicon), Judge(source, rules, lexicon), rules, lexicon)
  {
  }

  lemma PreparedFaithfully(source: Source, lexicon: Lexicon)
    ensures MadeFrom(Prepared(source, lexicon), source, ContentOf(source, lexicon).1, lexicon)
  {
    NormalizeKeepsLines(source.text, source.caption, lexicon.footer);
  }

  /** A source alone is handed on or not. */
  function Survivor(source: Source, rules: Rules, lexicon: Lexicon): seq<Message> {
    if Judge(source, rules, lexicon) == Kept then [Prepared(source, lexicon)] else []
  }

  lemma FilteredSnoc(front: seq<Source>, last: Source, rules: Rules, lexicon: Lexicon)
    ensures Filtered(front + [last], rules, lexicon) == Filtered(front, rules, lexicon) + Survivor(last, rules, lexicon)
  {
    assert (front + [last])[..|front|] == front;
  }

  /** Filtering works source by source, in order. */
  lemma {:induction false} FilteredInParts(a: seq<Source>, b: seq<Source>, rules: Rules, lexicon: Lexicon)
    ensures Filtered(a + b, rules, lexicon) == Filtered(a, rules, lexicon) + Filtered(b, rules, lexicon)
    ensures |b| == 1 ==> Filtered(b, rules, lexicon) == Survivor(b[0], rules, lexicon)
  {
    if b == [] {
      assert a + b == a;
    } else {
      var front, last := b[..|b| - 1], b[|b| - 1];
      FilteredInParts(a, front, rules, lexicon);
      SplitLast(b);
      Associative(a, front, [last]);
      FilteredSnoc(a + front, last, rules, lexicon);
      FilteredSnoc(front, last, rules, lexicon);
      Associative(Filtered(a, rules, lexicon), Filtered(front, rules, lexicon), Survivor(last, rules, lexicon));
    }
  }

  /** The chain of rules applied to one message. */
  method Sift(source: Source, rules: Rules, lexicon: Lexicon)
    returns (verdict: Verdict, message: Message, footerRemoved: bool)
    ensures verdict == Judge(source, rules, lexicon) && message == Prepared(source, lexicon)
    ensures footerRemoved == ContentOf(source, lexicon).1
    ensures Deserves(message, verdict, rules, lexicon) && MadeFrom(message, source, footerRemoved, lexicon)
  {
    JudgedFairly(source, rules, lexicon);
    PreparedFaithfully(source, lexicon);
    var minTextLength := rules.minTextLength;
    if minTextLength <= 0 {
      minTextLength := 30;
    }
    var content;
    content, footerRemoved := Normalize(source.text, source.caption, lexicon.footer);
    var urls := lexicon.urls(content + " " + source.url);
    message := Message(source.id, source.chatId, source.date, content, urls,
                       lexicon.hash(content), lexicon.tokens(content));
    if TrimSpace(content) == "" {
      return Empty, message, footerRemoved;
    }
    if lexicon.emojiOnly(content) {
      return EmojiOnly, message, footerRemoved;
    }
    if |content| < minTextLength && |urls| == 0 {
      return TooShort, message, footerRemoved;
    }
    if rules.dropAds && lexicon.ad(content) {
      return Advertisement, message, footerRemoved;
    }
    if rules.dropJobs && lexicon.job(content) {
      return JobPost, message, footerRemoved;
    }
    return Kept, message, footerRemoved;
  }

  method Filter(sources: seq<Source>, rules: Rules, lexicon: Lexicon)
    returns (filtered: seq<Message>, stats: FilterStats)
    ensures filtered == Filtered(sources, rules, lexicon)
    ensures stats == StatsOf(sources, rules, lexicon)
  {
    stats := FilterStats(0, 0, 0, 0, 0, 0, 0, 0);
    filtered := [];
    for i := 0 to |sources|
      invariant filtered == Filtered(sources[..i], rules, lexicon)
      invariant stats == Tally(sources[..i], rules, lexicon)
    {
      assert sources[..i + 1][..i] == sources[..i];
      var verdict, message, footerRemoved := Sift(sources[i], rules, lexicon);
      stats := Tallied(stats, verdict, footerRemoved);
      if verdict == Kept {
        filtered := filtered + [message];
      }
    }
    assert sources[..|sources|] == sources;
    stats := stats.(input := |sources|, kept := |filtered|);
  }

  /** One source adds one to exactly one of the six counters. */
  lemma TallyStep(sources: seq<Source>, rules: Rules, lexicon: Lexicon)
    requires sources != []
    ensures var n, verdict := |sources| - 1, Judge(sources[|sources| - 1], rules, lexicon);
            var a, b := StatsOf(sources[..n], rules, lexicon), StatsOf(sources, rules, lexicon);
            && b.input == a.input + 1
            && b.empty == a.empty + (if verdict == Empty then 1 else 0)
            && b.emojiOnly == a.emojiOnly + (if verdict == EmojiOnly then 1 else 0)
            && b.tooShort == a.tooShort + (if verdict == TooShort then 1 else 0)
            && b.advertisement == a.advertisement + (if verdict == Advertisement then 1 else 0)
            && b.jobPost == a.jobPost + (if verdict == JobPost then 1 else 0)
            && b.kept == a.kept + (if verdict == Kept then 1 else 0)
  {
  }

  /** Each counter is the number of messages with its verdict. */
  lemma {:induction false} StatsCount(sources: seq<Source>, rules: Rules, lexicon: Lexicon)
    ensures var s := StatsOf(sources, rules, lexicon);
            && s.empty == Count(sources, rules, lexicon, Empty)
            && s.emojiOnly == Count(sources, rules, lexicon, EmojiOnly)
            && s.tooShort == Count(sources, rules, lexicon, TooShort)
            && s.advertisement == Count(sources, rules, lexicon, Advertisement)
            && s.jobPost == Count(sources, rules, lexicon, JobPost)
            && s.kept == Count(sources, rules, lexicon, Kept)
  {
    if sources != [] {
      StatsCount(sources[..|sources| - 1], rules, lexicon);
      TallyStep(sources, rules, lexicon);
    }
  }

  /** Every input message is kept or counted under exactly one reason. */
  lemma {:induction false} FilterAccounts(sources: seq<Source>, rules: Rules, lexicon: Lexicon)
    ensures var s := StatsOf(sources, rules, lexicon);
            s.input == s.empty + s.emojiOnly + s.tooShort + s.advertisement + s.jobPost + s.kept
  {
    if sources != [] {
      FilterAccounts(sources[..|sources| - 1], rules, lexicon);
      TallyStep(sources, rules, lexicon);
    }
  }

  predicate DistinctIds(messages: seq<Message>) {
    forall i, j :: 0 <= i < j < |messages| ==> messages[i].id != messages[j].id
  }

  /** What filtering must hand on for the later accounting: stored, distinct ids and date order. */
  ghost predicate Orderly(messages: seq<Message>) {
    && (forall i :: 0 <= i < |messages| ==> messages[i].id != 0)
    && DistinctIds(messages)
    && D.SortedByDate(messages)
  }

  ghost predicate OrderlySources(sources: seq<Source>) {
    && (forall i :: 0 <= i < |sources| ==> sources[i].id != 0)
    && (forall i, j :: 0 <= i < j < |sources| ==> sources[i].id != sources[j].id && sources[i].date <= sources[j].date)
  }

  /** Each kept message is one of the sources. */
  lemma {:induction false} FilteredIsPrepared(sources: seq<Source>, rules: Rules, lexicon: Lexicon, message: Message)
    requires message in Filtered(sources, rules, lexicon)
    ensures exists i ::
              && 0 <= i < |sources|
              && Judge(sources[i], rules, lexicon) == Kept
              && message == Prepared(sources[i], lexicon)
  {
    var n := |sources| - 1;
    if message in Filtered(sources[..n], rules, lexicon) {
      FilteredIsPrepared(sources[..n], rules, lexicon, message);
      var i :|
        0 <= i < n && Judge(sources[..n][i], rules, lexicon) == Kept && message == Prepared(sources[..n][i], lexicon);
      assert sources[i] == sources[..n][i];
    } else {
      assert Judge(sources[n], rules, lexicon) == Kept && message == Prepared(sources[n], lexicon);
    }
  }

  /** A kept message of the front comes before the last source. */
  lemma KeptOnesPrecede(sources: seq<Source>, rules: Rules, lexicon: Lexicon, message: Message)
    requires OrderlySources(sources) && sources != []
    requires message in Filtered(sources[..|sources| - 1], rules, lexicon)
    ensures message.id != sources[|sources| - 1].id && message.date <= sources[|sources| - 1].date
  {
    var front := sources[..|sources| - 1];
    FilteredIsPrepared(front, rules, lexicon, message);
    var i :| 0 <= i < |front| && Judge(front[i], rules, lexicon) == Kept && message == Prepared(front[i], lexicon);
    assert front[i] == sources[i];
  }

  lemma OrderlySnoc(front: seq<Message>, last: Message)
    requires Orderly(front) && last.id != 0
    requires forall j :: 0 <= j < |front| ==> front[j].id != last.id && front[j].date <= last.date
    ensures Orderly(front + [last])
  {
  }

  lemma {:induction false} FilterKeepsOrder(sources: seq<Source>, rules: Rules, lexicon: Lexicon)
    requires OrderlySources(sources)
    ensures Orderly(Filtered(sources, rules, lexicon))
  {
    if sources != [] {
      var n := |sources| - 1;
      var front := Filtered(sources[..n], rules, lexicon);
      FilterKeepsOrder(sources[..n], rules, lexicon);
      forall j | 0 <= j < |front|
        ensures front[j].id != sources[n].id && front[j].date <= sources[n].date
      {
        KeptOnesPrecede(sources, rules, lexicon, front[j]);
      }
      OrderlySnoc(front, Prepared(sources[n], lexicon));
    }
  }

  // ----- the pipeline

  datatype Stats = Stats(
    inputMessages: nat, keptMessages: nat, noiseRemoved: int, duplicateRemoved: nat, uniqueClusters: nat,
    filter: FilterStats, deduplication: D.Stats)

  datatype Result = Result(messages: seq<Message>, clusters: seq<D.Cluster>, stats: Stats)

  function Processed(sources: seq<Source>, rules: Rules, lexicon: Lexicon): Result {
    var filtered := Filtered(sources, rules, lexicon);
    var dedup := D.StatsOf(filtered);
    D.GroupsInhabited(filtered);
    Result(filtered, D.OrderedAll(D.Groups(filtered)),
           Stats(|sources|, |filtered|, |sources| - |filtered|, dedup.duplicateCount, dedup.clusterCount,
                 StatsOf(sources, rules, lexicon), dedup))
  }

  /** The pipeline's own figures add up, and its clusters hold exactly the kept messages. */
  ghost predicate AddsUp(r: Result, inputs: nat) {
    && r.stats.inputMessages == inputs == r.stats.keptMessages + r.stats.noiseRemoved
    && r.stats.noiseRemoved == r.stats.filter.empty + r.stats.filter.emojiOnly + r.stats.filter.tooShort
         + r.stats.filter.advertisement + r.stats.filter.jobPost
    && r.stats.keptMessages == r.stats.uniqueClusters + r.stats.duplicateRemoved
    && r.stats.uniqueClusters == |r.clusters|
    && D.Members(r.clusters) == multiset(r.messages) && |r.messages| == r.stats.keptMessages
  }

  method Process(sources: seq<Source>, rules: Rules, lexicon: Lexicon) returns (result: Result)
    ensures result == Processed(sources, rules, lexicon)
    ensures AddsUp(result, |sources|)
  {
    ProcessAccounts(sources, rules, lexicon);
    var filtered, filterStats := Filter(sources, rules, lexicon);
    var clusters, dedupStats := D.GroupDuplicates(filtered);
    result := Result(filtered, clusters,
                     Stats(|sources|, |filtered|, |sources| - |filtered|,
                           dedupStats.duplicateCount, dedupStats.clusterCount, filterStats, dedupStats));
  }

  lemma ProcessAccounts(sources: seq<Source>, rules: Rules, lexicon: Lexicon)
    ensures AddsUp(Processed(sources, rules, lexicon), |sources|)
  {
    var filtered := Filtered(sources, rules, lexicon);
    FilterAccounts(sources, rules, lexicon);
    D.StatsAddUp(filtered);
    D.GroupsInhabited(filtered);
    D.OrderedKeepsMembers(D.Groups(filtered));
    D.GroupsKeepMessages(filtered);
  }
}
