/**
 Generating a digest from a collection: `GenerateFromCollection` and `summaryInput` of
 internal/summary/service.go.
 */
module Generation {
  import opened Accounting
  import opened Batching
  import opened Coverage
  import opened MapReduce
  import opened Messages
  import opened Sequences
  import opened Summaries
  import opened Text
  import opened TopicMerge
  import B = Balancing
  import P = Pipeline

  datatype Generated =
    | NoMessages
    | NothingKept
    | SummarizerFailed(error: SummarizeError)
    | CoverageMismatch
    | Generated(saved: Saved)

  /** The encoded message under its number. */
  predicate IsInput(input: MessageInput, number: nat, encoded: MessageInput) {
    && input.index == number && input.chatTitle == encoded.chatTitle && input.publishedAt == encoded.publishedAt
    && input.text == encoded.text && input.urls == encoded.urls
  }

  /**
   `summaryInput`: one message a cluster, numbered; `encode` looks up the chat's title and
   writes text and date as bytes.
   */
  function Inputs(clusters: Clusters, encode: Message -> MessageInput): (r: seq<MessageInput>)
    ensures |r| == |clusters|
    ensures forall i :: 0 <= i < |r| ==> IsInput(r[i], i, encode(clusters[i].canonical))
  {
    seq(|clusters|, i requires 0 <= i < |clusters| => encode(clusters[i].canonical).(index := i))
  }

  method SummaryInput(clusters: Clusters, encode: Message -> MessageInput) returns (r: seq<MessageInput>)
    ensures r == Inputs(clusters, encode)
  {
    r := [];
    for i := 0 to |clusters|
      invariant r == Inputs(clusters, encode)[..i]
    {
      r := r + [encode(clusters[i].canonical).(index := i)];
    }
  }

  /** One run of attempts for each batch there can be. */
  predicate Ready(attempts: seq<seq<Attempt>>, n: nat) {
    |attempts| > n && forall k :: 0 <= k < |attempts| ==> |attempts[k]| == RETRIES + 1
  }

  /** How the model's answers decide the summarizer's reply, and that reply what is saved. */
  ghost predicate Decided(r: Generated, reply: Outcome, messages: seq<MessageInput>, clusters: Clusters,
                          kept: seq<Message>, batches: seq<Batch>, attempts: seq<seq<Attempt>>,
                          headline: Option<Headline>, reducer: Reducer)
  {
    && IsSplit(batches, messages, MAX_BATCH_CONTENT_BYTES) && batches != [] && Asked(batches, attempts)
    && Promises(reply, |messages|, batches, attempts, headline, reducer)
    && Follows(r, reply, clusters, kept)
  }

  lemma SplitIsNotEmpty(batches: seq<Batch>, messages: seq<MessageInput>)
    requires IsSplit(batches, messages, MAX_BATCH_CONTENT_BYTES) && messages != []
    ensures batches != []
  {
    assert |Flatten(GlobalIndexes(batches))| == |messages|;
  }

  /** What the service makes of the summarizer's reply. */
  ghost predicate Follows(r: Generated, reply: Outcome, clusters: Clusters, kept: seq<Message>) {
    match r
    case Generated(saved) => reply.Ok? && AccountsFor(saved, kept) && SavesReply(saved, reply.summary, clusters)
    case SummarizerFailed(error) => reply == Err(error)
    case _ => false
  }

  lemma DigestCovers(reply: Outcome, n: nat, batches: seq<Batch>, attempts: seq<seq<Attempt>>,
                     headline: Option<Headline>, reducer: Reducer)
    requires n > 0 && Asked(batches, attempts) && Promises(reply, n, batches, attempts, headline, reducer)
    ensures reply.Ok? ==> Covers(reply.summary, n)
  {
  }

  method Save(reply: Outcome, balanced: Clusters, kept: seq<Message>) returns (r: Generated)
    requires Partition(balanced, kept) && (reply.Ok? ==> Covers(reply.summary, |balanced|))
    ensures Follows(r, reply, balanced, kept)
  {
    if reply.Err? {
      return SummarizerFailed(reply.error);
    }
    var checked := AccountFor(reply.summary, balanced, kept);
    if checked.Disagreed? {
      assert false;
      return CoverageMismatch;
    }
    return Generated(checked.saved);
  }

  /** Ask for the digest, then account for its messages. */
  method Digest(input: seq<MessageInput>, balanced: Clusters, kept: seq<Message>,
                attempts: seq<seq<Attempt>>, reducer: Reducer, headline: Option<Headline>)
    returns (r: Generated, ghost reply: Outcome, ghost batches: seq<Batch>)
    requires |input| == |balanced| > 0 && Partition(balanced, kept) && Ready(attempts, |input|)
    ensures |batches| <= |attempts| && !r.NoMessages? && !r.NothingKept?
    ensures Decided(r, reply, input, balanced, kept, batches, attempts[..|batches|], headline, reducer)
  {
    var answer;
    answer, batches := Summarize(input, attempts, reducer, headline);
    reply := answer;
    DigestCovers(reply, |input|, batches, attempts[..|batches|], headline, reducer);
    r := Save(answer, balanced, kept);
    SplitIsNotEmpty(batches, input);
  }

  /** Without messages, or without kept ones, nothing is asked; otherwise the model's replies decide. */
  ghost predicate Generates(r: Generated, reply: Outcome, batches: seq<Batch>, sources: seq<P.Source>,
                            lexicon: P.Lexicon, encode: Message -> MessageInput, attempts: seq<seq<Attempt>>,
                            reducer: Reducer, headline: Option<Headline>)
  {
    var kept, asked := P.Filtered(sources, RULES, lexicon), AskedClusters(sources, lexicon);
    && (r == NoMessages <==> sources == [])
    && (r == NothingKept <==> sources != [] && kept == [])
    && (kept != [] ==>
          && |batches| <= |attempts|
          && Decided(r, reply, Inputs(asked, encode), asked, kept, batches, attempts[..|batches|], headline, reducer))
  }

  /** What is kept for a digest: no advertisement, no job post, and at least thirty characters or a link. */
  lemma KeptForDigest(sources: seq<P.Source>, lexicon: P.Lexicon, m: Message)
    requires m in P.Filtered(sources, RULES, lexicon)
    ensures !Blank(m.content) && !lexicon.emojiOnly(m.content)
    ensures !lexicon.ad(m.content) && !lexicon.job(m.content)
    ensures |m.content| >= 30 || m.urls != []
  {
    P.FilteredIsPrepared(sources, RULES, lexicon, m);
    var i :|
      0 <= i < |sources| && P.Judge(sources[i], RULES, lexicon) == P.Kept && m == P.Prepared(sources[i], lexicon);
    P.JudgedFairly(sources[i], RULES, lexicon);
  }

  /**
   `GenerateFromCollection` after the collection is loaded, for every reply of the
   model. A digest that is saved accounts for every kept message and records the reply:
   its topics, the most important first, and the reason for which each message was left
   out; the coverage mismatch is never reported; any other failure is the summarizer's.
   */
  method GenerateFromCollection(sources: seq<P.Source>, lexicon: P.Lexicon, encode: Message -> MessageInput,
                                attempts: seq<seq<Attempt>>, reducer: Reducer, headline: Option<Headline>)
    returns (r: Generated, ghost reply: Outcome, ghost batches: seq<Batch>)
    requires P.OrderlySources(sources) && Ready(attempts, |AskedClusters(sources, lexicon)|)
    ensures r == NoMessages <==> sources == []
    ensures r == NothingKept <==> sources != [] && P.Filtered(sources, RULES, lexicon) == []
    ensures Generates(r, reply, batches, sources, lexicon, encode, attempts, reducer, headline)
  {
    reply, batches := Err(NotWellFormed), [];
    ClustersIffKept(sources, lexicon);
    if |sources| == 0 {
      FilteredOfNothing(lexicon);
      return NoMessages, reply, batches;
    }
    var processed := P.Process(sources, RULES, lexicon);
    if |processed.clusters| == 0 {
      return NothingKept, reply, batches;
    }
    AskedPartition(sources, lexicon);
    r, reply, batches := Ask(processed, encode, attempts, reducer, headline);
    AskedGenerates(r, reply, batches, processed, sources, lexicon, encode, attempts, reducer, headline);
  }

  lemma AskedGenerates(r: Generated, reply: Outcome, batches: seq<Batch>, processed: P.Result, sources: seq<P.Source>,
                       lexicon: P.Lexicon, encode: Message -> MessageInput, attempts: seq<seq<Attempt>>,
                       reducer: Reducer, headline: Option<Headline>)
    requires processed == P.Processed(sources, RULES, lexicon) && sources != [] && processed.messages != []
    requires |batches| <= |attempts| && !r.NoMessages? && !r.NothingKept?
    requires var asked := B.BalancedResult(processed.clusters);
             Decided(r, reply, Inputs(asked, encode), asked, processed.messages, batches, attempts[..|batches|],
                     headline, reducer)
    ensures Generates(r, reply, batches, sources, lexicon, encode, attempts, reducer, headline)
  {
  }

  /** Balance the clusters, write the request, ask for the digest. */
  method Ask(processed: P.Result, encode: Message -> MessageInput, attempts: seq<seq<Attempt>>, reducer: Reducer,
             headline: Option<Headline>)
    returns (r: Generated, ghost reply: Outcome, ghost batches: seq<Batch>)
    requires B.BalancedResult(processed.clusters) != []
    requires Partition(B.BalancedResult(processed.clusters), processed.messages)
    requires Ready(attempts, |B.BalancedResult(processed.clusters)|)
    ensures |batches| <= |attempts| && !r.NoMessages? && !r.NothingKept?
    ensures var asked := B.BalancedResult(processed.clusters);
            Decided(r, reply, Inputs(asked, encode), asked, processed.messages, batches, attempts[..|batches|],
                    headline, reducer)
  {
    var balanced := B.BalancedPipelineResult(processed.clusters);
    var input := SummaryInput(balanced, encode);
    r, reply, batches := Digest(input, balanced, processed.messages, attempts, reducer, headline);
  }

  lemma FilteredOfNothing(lexicon: P.Lexicon)
    ensures P.Filtered([], RULES, lexicon) == []
  {
  }

  lemma ClustersIffKept(sources: seq<P.Source>, lexicon: P.Lexicon)
    ensures P.Processed(sources, RULES, lexicon).clusters == [] <==> P.Filtered(sources, RULES, lexicon) == []
    ensures AskedClusters(sources, lexicon) == [] <==> P.Filtered(sources, RULES, lexicon) == []
  {
    P.ProcessAccounts(sources, RULES, lexicon);
    var clusters := P.Processed(sources, RULES, lexicon).clusters;
    SameElements(clusters, AskedClusters(sources, lexicon));
    if clusters == [] {
      assert multiset(P.Filtered(sources, RULES, lexicon)) == multiset{};
      assert |multiset(P.Filtered(sources, RULES, lexicon))| == 0;
    }
  }
}
