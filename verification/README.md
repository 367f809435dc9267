# Content Scout: a verified model

Content Scout collects Telegram messages, removes noise and duplicates, has a language
model summarise the rest in batches, checks that the reply accounts for every message,
and runs all of this from a leased job queue with a daily scheduler. This project models
those parts in Dafny and proves what they promise. The language model, the clock, the
database errors and the Telegram history are arbitrary: results hold for every reply.

| file | models |
|---|---|
| `Batching`, `Packing` | cutting messages into byte-bounded batches; the greedy packing |
| `Indexes`, `Coverage` | index translation, normalisation and the coverage check |
| `Anchors`, `TopicMerge`, `MergedTexts`, `TextLoss` | the check of proposed merges, merging topics and their texts, and when that loses a text |
| `MapReduce`, `SpoiledDigest` | the whole map-reduce; usable results that one reply spoils |
| `BatchRuns` | the goroutines, semaphore and cancellation of the batch phase |
| `Normalization`, `Pipeline`, `Deduplication`, `Balancing` | from collected messages to the clusters the model sees |
| `Accounting`, `Generation` | from topic indexes back to stored messages; the service's own check; the whole generation |
| `JobQueue`, `Worker`, `Scheduler`, `JobProtocol` | queue rows and statements, one worker, the daily pass, and all of them interleaved |
| `DailyRuns`, `DailyRepeats` | one completed job a schedule and day: when it holds, and the runs in which it does not |
| `TelegramText`, `PgArray` | truncation repair of HTML; text arrays to and from PostgreSQL |
| `ReadPositions` | positions over runs of collections and summaries |
| `Summaries`, `Messages`, `Text`, `Sequences`, `Sorting` | shared records and library calls |

Code that changes state step by step is a method or a class method, proved equal to a
specification function; the theorems are lemmas about those functions and about runs.

Where the code and its own comments disagree, the model follows the code:

* `internal/summary/llm/openai.go`, lines 442-443, says one failed batch still leaves a
  usable digest. The merged summary is then always rejected: as malformed if the replies
  spoil it, otherwise as incomplete, and that error names exactly the failed batches'
  messages (`MapReduce.Summarize`).
* Lines 507-510 say that reduce calls that fail leave usable batch results. If all of them
  fail, results are lost only for want of an overview: one of white space passes validation
  before merging and is dropped (`MapReduce.FailedRepliesKeepResults`). A reduce call that
  succeeds can spoil them: full texts of white space pass validation too, and two topics with
  such texts whose titles share a concrete anchor merge into one that does not
  (`SpoiledDigest.ExampleIsSpoiled`, and through the whole call
  `SpoiledDigest.ExampleDigestIsLost`). For arbitrary merges the exact condition is a
  non-blank overview and at most one blank full text (`MapReduce.TextSurvivesIff`); with the
  anchor check it is that no two blank full texts share an anchor
  (`MapReduce.RepliesSpoilIff`), and `MapReduce.Summarize` says so of the answers.
* Recovering an expired lease does not look at the attempts, so `attempt` can exceed
  `max_attempts`, once per lost lease and no further (`JobProtocol.ExpiryExceedsMaximum`).
* The repository's README, lines 349-351, says that repeated polling creates no duplicates
  and that several workers run safely. A daily key can complete twice in two ways. Finishing
  a job does not look at its holder, so a process that outlives its lease completes a job others gave up on
  (`DailyRepeats.LostLeaseCompletesTwice`). And a pass lists the schedules and inserts their
  jobs in separate statements, so with every lease in time it can still insert from a listing
  made before the day's job was run (`DailyRepeats.StaleListingCompletesTwice`). The key is
  safe if the leases of the schedule's jobs are renewed in time and no run of the schedule
  is marked between a pass's listing and its insert (`DailyRuns.AtMostOnePerDay`), and
  `DailyRuns.InsertRepeatsIff` says exactly which inserts repeat a completed key.
* Marking read positions is a find followed by an overwriting upsert; interleaved summaries
  can move a position back (`ReadPositions.InterleavedMarksLoseGround`); `ReadPositions.UpsertLowersIff`
  says exactly when.

Assumptions taken from the schema: one live row per deduplication key
(`migrations/006_jobs.sql`, lines 20-23), generated message ids (`migrations/003_message_collection.sql`,
line 15), and collected messages listed by date
(`internal/storage/postgres/message_collection.go`, line 108).

## Model

| member | source | states |
|---|---|---|
| `Batching.TruncateUTF8` | internal/summary/llm/openai.go:400-411 | the backward loop returns the text cut at the last rune start within the limit |
| `Batching.TruncatedIsLongestValidPrefix` | internal/summary/llm/openai.go:400-411 | on valid UTF-8 (RFC 3629, section 3) the cut is the longest valid prefix of at most `maxBytes` bytes, and a cut text ends at most three bytes below the limit |
| `Batching.ValidPrefixIffRuneStart` | internal/summary/llm/openai.go:407-410 | in valid UTF-8 a prefix is valid exactly when the byte after it is a rune start, which is why the loop only looks at one byte |
| `Batching.LimitSummaryMessageSize` | internal/summary/llm/openai.go:387-398 | the result fits the budget, its title and text are valid prefixes of what was given, a text is left only under an uncut title, a message that fits is untouched and a cut one uses all but three bytes |
| `Batching.LimitedFits` | internal/summary/llm/openai.go:387-398 | the specification function behind the cut has these properties, for every message and positive limit |
| `Batching.SplitSummaryMessages` | internal/summary/llm/openai.go:357-385 | the loop cuts the messages in order, each batch within the budget, renumbered from zero, and every batch but the first starts with a message that no longer fitted |
| `Batching.SplitIsOptimal` | internal/summary/llm/openai.go:357-385 | no other in-order cut within the budget uses fewer batches |
| `Batching.SplitCount` | internal/summary/llm/openai.go:357-385 | at most 2 * (total / (max + 1)) + 1 batches |
| `Packing.TightIsOptimal` | internal/summary/llm/openai.go:364-384 | the exchange argument behind both greedy loops: a tight packing is never longer than any packing |
| `Packing.TightCount` | internal/summary/llm/openai.go:364-384 | neighbouring parts together exceed the budget, which bounds the number of parts |
| `Coverage.RemapSourceIndexes` | internal/summary/llm/openai.go:467-485 | rewrites the result in place to global indexes |
| `Coverage.RemappedUsed` | internal/summary/llm/openai.go:467-485 | topics of a remapped result use exactly the global images of the in-range local indexes |
| `Coverage.RemappedExcludedIndexes` | internal/summary/llm/openai.go:478-484 | exclusions within the batch are moved to their global images |
| `Coverage.RemappedInPlace` | internal/summary/llm/openai.go:467-485 | remapping changes indexes only: texts, reasons, their order and out-of-range exclusions stay |
| `Coverage.NormalizeSummarySourceIndexes` | internal/summary/llm/openai.go:487-505 | rewrites the result in place: sorted distinct sources, first exclusion of each index, in index order |
| `Coverage.NormalizedFacts` | internal/summary/llm/openai.go:487-505 | normalising changes neither the used nor the excluded indexes and leaves one exclusion per index |
| `Coverage.NormalizedInPlace` | internal/summary/llm/openai.go:487-505 | normalising changes source lists only; each exclusion left carries the trimmed reason of the first one of its index |
| `Coverage.ValidateSummaryCoverage` | internal/summary/llm/openai.go:559-597 | accepts exactly the summaries that classify every input once, and each error it reports is true of the summary |
| `Coverage.MarkUsed` | internal/summary/llm/openai.go:568-580 | the `covered` array holds exactly the used indexes; an index out of range is reported exactly when there is one |
| `Coverage.MarkExcluded` | internal/summary/llm/openai.go:581-593 | an exclusion is reported as wrong exactly when one is out of range, without reason, used as well or repeated |
| `Coverage.Accept` | internal/summary/llm/openai.go:105-130 | one reply is returned exactly when it parses, is well formed and covers the batch after normalising |
| `Coverage.SummarizeBatch` | internal/summary/llm/openai.go:79-133 | for every sequence of replies and failures the retry loop returns a summary exactly when some attempt is acceptable and every attempt before it was neither cancelled nor a failure that may not be retried; it is the first such reply, and covers; without one the failure of the last attempt made is reported |
| `Coverage.AnswerIff` | internal/summary/llm/openai.go:97-130 | what `MapReduce` calls the answer of a batch exists exactly when there is such an attempt |
| `Coverage.LastMadeDecides` | internal/summary/llm/openai.go:97-132 | the attempt after which none is made decides both the answer and the reported failure |
| `Summaries.ValidateSummaryResult` | internal/summary/llm/types.go:108-136 | the checks in order accept exactly the well-formed summaries |
| `Indexes.UniqueSortedIndexes` | internal/summary/llm/openai.go:866-878 | the strictly ascending list of the distinct indexes |
| `Indexes.UniqueSortedBySet` | internal/summary/llm/openai.go:866-878 | the result depends on the set of indexes only |
| `MergedTexts.AppendUniqueText` | internal/summary/llm/openai.go:853-864 | adds a trimmed text unless it is blank or folds to one already there |
| `MergedTexts.UniquesAreFirst` | internal/summary/llm/openai.go:853-864 | what appending a group's texts leaves, exactly: those that are not blank and did not come before up to case, trimmed, in order |
| `MergedTexts.GroupMergesTexts` | internal/summary/llm/openai.go:833-848 | the joined text consists of paragraphs that are texts of the group, and every text of the group that is not blank is one of its paragraphs, up to case |
| `MergedTexts.MergedAgain` | internal/summary/llm/openai.go:625-653 | merging merged texts again still loses and invents none of the original texts |
| `TopicMerge.CombineTopicGroup` | internal/summary/llm/openai.go:827-851 | refines the specification of a combined topic |
| `TopicMerge.CombinedFacts` | internal/summary/llm/openai.go:827-851 | a combined topic has exactly the union of its members' sources, their greatest importance and their least confidence, each taken from a member |
| `TopicMerge.CombinedKeepsText` | internal/summary/llm/openai.go:827-851 | its category is the first member's, and its full text is blank exactly when every member's is |
| `TopicMerge.CombinedInOrder` | internal/summary/llm/openai.go:833-848 | the paragraphs of the full text and of the reasons, exactly: the members' first texts in the order of the topics |
| `TopicMerge.CombinedTitled` | internal/summary/llm/openai.go:841-846 | a proposed title or short summary that is not blank replaces the first member's, trimmed |
| `TopicMerge.LeastCertain` | internal/summary/llm/openai.go:880-886 | high only if every member is, medium exactly if none is less certain and one is medium |
| `TopicMerge.AcceptedGroups` | internal/summary/llm/openai.go:782-800 | for arbitrary proposals the accepted groups are pairwise disjoint, in range and of at least two topics |
| `TopicMerge.AcceptedWereProposed` | internal/summary/llm/openai.go:782-800 | each accepted group is a proposal up to order and repetition |
| `TopicMerge.FamilyIsAccepted` | internal/summary/llm/openai.go:782-800 | proposals that already form a disjoint family are all accepted as they are |
| `TopicMerge.ApplyTopicMerges` | internal/summary/llm/openai.go:779-825 | the map-filling loops compute the specified output list |
| `TopicMerge.AppliedCombines` | internal/summary/llm/openai.go:779-825 | every topic goes into exactly one output topic, outputs in order of least member, each combining its class; their texts are made of those of the class and hold all of them, and their titles are the leader's or the proposed one |
| `TopicMerge.AppliedCount` | internal/summary/llm/openai.go:801-825 | outputs = topics - members of groups + groups |
| `TopicMerge.CombinesTransitive` | internal/summary/llm/openai.go:625-653 | two passes in a row combine like one pass over the composed partition |
| `TopicMerge.TextsTransitive` | internal/summary/llm/openai.go:625-653 | texts merged in two passes are made of the texts of the composed class and hold every one of them as a paragraph |
| `TopicMerge.CombinesKeepsSources` | internal/summary/llm/openai.go:621-654 | no source index is lost or invented |
| `TopicMerge.SplitReduceTopics` | internal/summary/llm/openai.go:656-675 | chunks concatenate to the given order, only a lone descriptor exceeds the budget, and the cut is tight; it is the greedy cut of the descriptor sizes |
| `TopicMerge.PassOrders` | internal/summary/llm/openai.go:627-637 | the first pass looks at the topics as they come, the second in title order |
| `Anchors.GenericMergeAnchor` | internal/summary/llm/openai.go:754-777 | an anchor is general exactly when each of its runs of letters and digits starts with a general prefix |
| `Anchors.WordsApart` | internal/summary/llm/openai.go:760-760 | a character that is neither letter nor digit separates words and belongs to none |
| `Anchors.StringsContains` | internal/summary/llm/openai.go:748-750 | the scan decides whether the anchor occurs anywhere in a title |
| `TopicMerge.HasConcreteSharedAnchor` | internal/summary/llm/openai.go:733-752 | accepts exactly the proposals whose anchor has four runes, is not general and occurs in the title of every topic, all of them in range |
| `TopicMerge.ReduceTopicChunk` | internal/summary/llm/openai.go:712-730 | exactly the proposals inside the chunk with a concrete anchor are kept |
| `TopicMerge.PassCombines` | internal/summary/llm/openai.go:627-648 | for all replies and failures one pass combines the topics by the partition of the accepted proposals of its chunks |
| `TopicMerge.MergePass` | internal/summary/llm/openai.go:627-648 | the loops of one pass compute that combination, and the number of requests |
| `TopicMerge.MergedCombines` | internal/summary/llm/openai.go:621-654 | one pass or two: the result combines the topics by the composition of the passes' partitions, a function of the replies |
| `TopicMerge.MergeDuplicateTopics` | internal/summary/llm/openai.go:621-654 | the loop over passes computes that result for all replies, failures and chunkings, uses exactly the sources it was given, and every full text and reason that is not blank is, up to case, a paragraph of the topic it ends in |
| `TextLoss.OneBlankIsSafe` | internal/summary/llm/openai.go:841-846 | however topics are merged, a full text is lost only if two topics have none to give |
| `TextLoss.LossNeedsAnchor` | internal/summary/llm/openai.go:621-654 | over both passes and all replies: a full text is lost only if two topics without one share a concrete anchor |
| `TextLoss.LossIff` | internal/summary/llm/openai.go:621-654 | for topics that fit one request that is exact: some reply loses a text if and only if two topics without one share a concrete anchor |
| `MapReduce.RemappedCovers` | internal/summary/llm/openai.go:437-438 | a covering local result classifies exactly its own part of the input after remapping |
| `MapReduce.ConcatenationAccounts` | internal/summary/llm/openai.go:511-526 | the concatenated results classify everything but the failed batches' indexes, nothing twice |
| `MapReduce.ConcatenatedInParts` | internal/summary/llm/openai.go:511-528 | results concatenated in parts can be set beside each other in any grouping: the first title that is not empty, the trimmed overviews with a space between them, all topics and exclusions in order |
| `MapReduce.Reduce` | internal/summary/llm/openai.go:529-539 | the headline's title and overview replace the merged ones when they are not blank; sources, exclusions and every topic text are kept |
| `MapReduce.MergeSummaries` | internal/summary/llm/openai.go:511-547 | a returned summary is the merged one, well formed and covering; with covering batch results the outcome is decided by whether these replies merge topics without text and which batches failed |
| `MapReduce.MergeDecides` | internal/summary/llm/openai.go:511-547 | exactly when merging fails, as a function of batch results, replies and headline, and that the coverage error names exactly the indexes of the failed batches |
| `MapReduce.FailedMeansUncovered` | internal/summary/llm/openai.go:559-597 | a well-classified summary covers the input exactly when no failed batch left messages out |
| `MapReduce.TextSurvivesIff` | internal/summary/llm/openai.go:507-546 | batch results survive every way of merging their topics and every headline if and only if some overview is not blank and at most one full text is |
| `MapReduce.FailedRepliesKeepResults` | internal/summary/llm/openai.go:507-546 | if no reduce request is answered, batch results are spoiled exactly if no batch and no headline has an overview that is not blank |
| `MapReduce.SolidTextIsKept` | internal/summary/llm/openai.go:507-546 | no reply and no headline spoils batch results with an overview unless two topics without full text share a concrete anchor |
| `MapReduce.RepliesSpoilIff` | internal/summary/llm/openai.go:507-546 | for topics that fit one request that condition is exact |
| `SpoiledDigest.UsableResultsAreSpoiled` | internal/summary/llm/openai.go:507-547 | the input on which it fails: two usable batch results whose topics name one anchor and have white-space full texts, and one reply, taken through merging to the rejection as malformed |
| `SpoiledDigest.AnsweredDigestIsLost` | internal/summary/llm/openai.go:61-77 | the same through the whole call, for any two messages that do not fit one batch together: both batches answered, no digest |
| `SpoiledDigest.TwoBatches` | internal/summary/llm/openai.go:357-385 | two messages whose limited sizes exceed the budget together take two batches |
| `SpoiledDigest.ExampleIsSpoilable` | internal/summary/llm/openai.go:733-777 | topics titled `chatgpt pro` and `chatgpt edu` share a concrete anchor, for every lower-casing that keeps these titles and every notion of letter that includes the anchor's, if their two descriptors fit a request |
| `SpoiledDigest.ExampleIsSpoiled` | internal/summary/llm/openai.go:507-547 | a concrete instance of the first: topics titled `chatgpt pro` and `chatgpt edu` |
| `SpoiledDigest.ExampleDigestIsLost` | internal/summary/llm/openai.go:61-77 | the same instance through the whole call |
| `MapReduce.SummarizeBatches` | internal/summary/llm/openai.go:413-465 | each batch's answer moved to global indexes or its last failure, collected; the first failure in batch order when none was answered |
| `MapReduce.EveryScheduleReturns` | internal/summary/llm/openai.go:413-465 | the goroutines return exactly that under every schedule without a cancellation |
| `MapReduce.EveryScheduleFeedsMerging` | internal/summary/llm/openai.go:413-465 | cancelled or not, what the goroutines leave satisfies what merging needs of batch results |
| `MapReduce.SolidAnswersAreKept` | internal/summary/llm/openai.go:507-546 | the condition stated over the answers themselves: with a non-blank overview among them and no two text-less topics sharing an anchor, no reply spoils the batch results |
| `MapReduce.SummarizeInBatches` | internal/summary/llm/openai.go:72-76 | for all replies: the merged summary only if every batch was answered, covering the input; the coverage error names exactly the unanswered batches' messages; malformed exactly if the replies spoil the results, which needs answers that are not solid; all answered and solid gives a summary; giving up exactly when none was answered, with the first batch's failure |
| `MapReduce.SummarizeWhole` | internal/summary/llm/openai.go:69-71 | a collection that fits one batch comes back exactly when that batch was answered, and then covered |
| `MapReduce.Summarize` | internal/summary/llm/openai.go:61-77 | the same for the whole call, over every input, split and reply; a single answered batch is never rejected |
| `BatchRuns.ReachableInvariant` | internal/summary/llm/openai.go:416-440 | under every schedule at most three batches hold the semaphore and no entry is written twice |
| `BatchRuns.StepKeepsInvariant` | internal/summary/llm/openai.go:420-439 | each step of a goroutine keeps that invariant |
| `BatchRuns.NoDeadlock` | internal/summary/llm/openai.go:422-428 | some goroutine can move until all are done |
| `BatchRuns.ScheduleBound` | internal/summary/llm/openai.go:418-441 | every schedule is finite, at most three actions a batch and one cancellation |
| `BatchRuns.FinishedRunIsComplete` | internal/summary/llm/openai.go:441-456 | after the wait exactly one of result and error is set for every batch |
| `BatchRuns.Collect` | internal/summary/llm/openai.go:442-464 | the collecting loop returns the results if there is one, otherwise the first error in batch order |
| `BatchRuns.ScheduleIndependent` | internal/summary/llm/openai.go:413-465 | without a cancellation the returned value depends on the outcomes of the batches only |
| `Accounting.TopicMessages` | internal/summary/service.go:375-407 | lists each stored message of the named clusters exactly once, each entry pointing into its cluster |
| `Accounting.ExcludedMessagesFromResult` | internal/summary/service.go:409-433 | lists each stored message of the excluded clusters exactly once, with the reason of the first exclusion whose cluster holds it |
| `Accounting.TopicsFromResult` | internal/summary/service.go:321-347 | every topic of the reply is saved with its texts and stands on exactly the messages of its indexes, the most important first, positions counted from one |
| `Accounting.DistinctTopicMessageCount` | internal/summary/service.go:435-445 | the number of distinct stored messages behind the topics |
| `Accounting.SortedTopicIds` | internal/summary/service.go:340-346 | sorting by importance does not change which messages are used |
| `Accounting.EveryMessageOnce` | internal/summary/service.go:134-141 | a covering reply makes used and excluded messages a partition of the kept ones |
| `Accounting.AccountFor` | internal/summary/service.go:134-155 | the coverage mismatch branch is dead for every covering reply; what is saved records the reply's texts and topics by importance, and for each message left out the reply's reason |
| `Accounting.AskedPartition` | internal/summary/service.go:106-128 | the clusters handed to the model hold each kept message exactly once |
| `Generation.SummaryInput` | internal/summary/service.go:249-265 | one message a cluster under the cluster's number, made from its canonical message |
| `Generation.GenerateFromCollection` | internal/summary/service.go:99-160 | from stored messages through `Summarize` to what is saved, for every reply: used and excluded messages partition the kept ones, every batch was answered, topics and reasons are the reply's; never a coverage mismatch; any other failure is one `Summarize` may report for these answers |
| `Generation.KeptForDigest` | internal/summary/service.go:106-106 | no message asked about is an advertisement, a job post or emoji only, and each has thirty characters or a link |
| `Deduplication.MatchSymmetric` | internal/summary/deduplicator/deduplicator.go:79-93 | being duplicates does not depend on the order of the two messages |
| `Deduplication.ShareURL` | internal/summary/deduplicator/deduplicator.go:95-108 | true exactly when the lists share a url |
| `Deduplication.JaccardReached` | internal/summary/deduplicator/deduplicator.go:126-141 | the counting loop decides whether five times the common tokens are at least four times those of either |
| `Deduplication.FindCluster` | internal/summary/deduplicator/deduplicator.go:79-93 | the lowest cluster whose seed matches, with the first reason that applies |
| `Deduplication.GroupDuplicates` | internal/summary/deduplicator/deduplicator.go:36-77 | the loops compute the first-fit grouping, sorted by date, and its counters |
| `Deduplication.GroupsKeepMessages` | internal/summary/deduplicator/deduplicator.go:44-64 | every message is in exactly one cluster |
| `Deduplication.GroupsAreFirstFit` | internal/summary/deduplicator/deduplicator.go:44-64 | every member matches its cluster's seed and no earlier seed |
| `Deduplication.SeedsAreApart` | internal/summary/deduplicator/deduplicator.go:44-64 | no two seeds are duplicates of each other |
| `Deduplication.GroupsOwnReasons` | internal/summary/deduplicator/deduplicator.go:52-63 | a cluster names each reason once, and exactly those for which a message joined its seed |
| `Deduplication.OrderedByDate` | internal/summary/deduplicator/deduplicator.go:66-70 | the final sort leaves each cluster in date order, its earliest message canonical |
| `Deduplication.StatsAddUp` | internal/summary/deduplicator/deduplicator.go:37-76 | input = clusters + duplicates, duplicates = exact + url + similarity |
| `Deduplication.OrderedKeepsMembers` | internal/summary/deduplicator/deduplicator.go:66-70 | sorting inside clusters keeps their members |
| `Deduplication.DateOrderKeepsSeeds` | internal/summary/deduplicator/deduplicator.go:66-70 | for input in date order the final sort changes nothing, so canonicals are the seeds |
| `Deduplication.RegroupingFindsNothing` | internal/summary/deduplicator/deduplicator.go:36-77 | for input in date order, grouping the canonicals again gives only singletons |
| `Deduplication.OutOfOrderCanonicalsCollide` | internal/summary/deduplicator/deduplicator.go:66-70 | out of date order a family of inputs ends with canonicals that are duplicates of each other |
| `Deduplication.SuchCollisionsExist` | internal/summary/deduplicator/deduplicator.go:66-70 | that family is not empty |
| `Balancing.BalanceClustersByChat` | internal/summary/service.go:204-247 | the map, sort and round-robin loops compute the specified interleaving, whatever order the map is walked in |
| `Balancing.Interleave` | internal/summary/service.go:230-245 | the loop gives whole rounds and never takes its `break` |
| `Balancing.AnyEnumerationSortsAlike` | internal/summary/service.go:214-228 | every enumeration of the chats sorts to the same list |
| `Balancing.BalancedIsPermutation` | internal/summary/service.go:204-247 | no cluster is lost or repeated |
| `Balancing.BalancedWithinChat` | internal/summary/service.go:216-220 | with two chats or more each chat's clusters come newest first, ties in input order |
| `Balancing.NewestFirstWithinChat` | internal/summary/service.go:216-220 | of two clusters of a chat the later one is not newer |
| `Balancing.Fairness` | internal/summary/service.go:230-245 | in every prefix no chat is more than one turn ahead of another that still has clusters |
| `Balancing.NewerChatLeads` | internal/summary/service.go:221-245 | in every prefix a chat whose newest cluster is newer is never behind; between equally new ones the smaller id leads |
| `Balancing.BalancedPipelineResult` | internal/summary/service.go:195-202 | a permutation of the clusters, unchanged below three |
| `Normalization.Normalize` | internal/summary/filter/filter.go:94-117 | the non-blank lines of the result are exactly, in order, the tidied lines of the text and then of the caption that are neither blank nor footers; the flag is set exactly when one of them was a footer |
| `Normalization.NormalizeKeepsLines` | internal/summary/filter/filter.go:94-117 | the specification function has this property, for every text, caption and footer pattern |
| `Normalization.UnixKeepsTexts` | internal/summary/filter/filter.go:99-99 | replacing line ends does not change the tidied lines |
| `Normalization.CollapseConcat` | internal/summary/filter/filter.go:103-103 | collapsing spaces and tabs works piece by piece: only a run that spans both pieces loses a space |
| `Normalization.NormalizedIsTidy` | internal/summary/filter/filter.go:94-117 | the text is tidy lines joined: trimmed, single spaces, no footer, no leading, trailing or doubled blank line |
| `Normalization.NormalizeIsIdempotent` | internal/summary/filter/filter.go:94-117 | a second pass changes nothing and removes no footer, for any footer pattern |
| `Normalization.SplitOfJoined` | internal/summary/filter/filter.go:99-116 | splitting undoes joining |
| `Pipeline.Filter` | internal/summary/filter/filter.go:44-86 | keeps the messages no rule drops, in order, and counts the others |
| `Pipeline.Sift` | internal/summary/filter/filter.go:50-83 | one source: kept exactly when it is not blank, not emoji only, long enough or with a link, and neither advertisement nor job post where the rules drop those; id, chat, date and lines are the source's own |
| `Pipeline.JudgedFairly` | internal/summary/filter/filter.go:56-75 | what each verdict says about the message |
| `Pipeline.FilteredInParts` | internal/summary/filter/filter.go:50-83 | filtering works source by source, in order |
| `Pipeline.StatsCount` | internal/summary/filter/filter.go:48-84 | each counter is the number of messages with its verdict |
| `Pipeline.FilterAccounts` | internal/summary/filter/filter.go:48-84 | input = empty + emoji + too short + ad + job + kept |
| `Pipeline.FilterKeepsOrder` | internal/summary/filter/filter.go:50-83 | distinct stored ids and date order survive filtering |
| `Pipeline.Process` | internal/summary/pipeline/pipeline.go:39-61 | for every input the reported figures add up (input = kept + noise by reason, kept = clusters + duplicates) and the clusters hold exactly the kept messages |
| `Pipeline.ProcessAccounts` | internal/summary/pipeline/pipeline.go:48-60 | the specification function has these properties |
| `JobQueue.JobRepository.Enqueue` | internal/storage/postgres/jobs.go:21-43 | a fresh row with the request's values or the defaults, or the live row that already holds the key, unchanged |
| `JobQueue.JobRepository.ClaimNext` | internal/storage/postgres/jobs.go:61-108 | claims a due row that no other due row precedes by availability and creation, or nothing when none is due; it is then held for the lease with one attempt more |
| `JobQueue.JobRepository.Finish` | internal/storage/postgres/jobs.go:110-168 | writes completion, retry or death without looking at status or holder: a failed job waits until the given time while attempts are left and is dead otherwise; refused only when the retried row's key is taken |
| `JobQueue.JobRepository.RecoverExpiredLeases` | internal/storage/postgres/jobs.go:170-186 | sends exactly the running rows with an expired lease back, available at once and held by nobody, and returns how many there were |
| `JobQueue.JobRepository.ExtendLease` | internal/storage/postgres/jobs.go:188-201 | only the holder of a running row changes anything; afterwards recovery passes the row by for a whole lease, other rows and the unique keys are untouched |
| `JobQueue.EnqueuedKeepsIndex` | internal/storage/postgres/jobs.go:34-42 | at most one live row per key after an insert |
| `JobQueue.FinishedKeepsIndex` | internal/storage/postgres/jobs.go:114-168 | at most one live row per key after any finish |
| `JobQueue.RecoveredKeepsIndex` | internal/storage/postgres/jobs.go:170-186 | at most one live row per key after recovery |
| `Worker.Backoff` | internal/jobs/worker.go:135-147 | between one and 1.2 base steps |
| `Worker.RunOnce` | internal/jobs/worker.go:51-99 | one pass of a worker that is alone recovers, claims an earliest due row, and leaves it exactly as one claim and one finish would; the finish is what the handler ended in, a retry due after 1 to 1.2 steps |
| `Worker.HandledRowHasLessFuel` | internal/jobs/worker.go:58-98 | a handled row has strictly fewer attempts left, however it ended |
| `Worker.Drain` | cmd/summary-worker/main.go:173-182 | the drain loop of a worker that is alone ends for every handler outcome and clock, after at most as many claims as attempts were left, with nothing claimable |
| `Scheduler.QuietHoursAreCircular` | internal/scheduler/service.go:215-231 | quiet hours are the circular interval from start to end, empty when they coincide |
| `Scheduler.DueIff` | internal/scheduler/service.go:167-193 | `IsDue` says exactly that, quiet hours taken around the clock |
| `Scheduler.OfferedAllDone` | internal/scheduler/service.go:71-103 | the specification function of a pass does exactly that, for every queue and listing |
| `Scheduler.EnqueueDue` | internal/scheduler/service.go:71-103 | a pass on its own leaves every old row alone, adds a pending job only for schedules that are enabled, past their minute, outside their quiet hours and not yet run that day, and leaves a live job under the day's key of every such schedule |
| `Scheduler.MarkedIsNotDue` | internal/scheduler/service.go:167-240 | a schedule marked as run is not due again on that local day; other schedules are not affected |
| `Scheduler.ScheduleStore.RunSchedule` | internal/scheduler/service.go:105-165 | the run row always ends, completed exactly when nothing is left to do, with the ids the stages returned for an initial stretch of them; the schedule is marked exactly when it completed |
| `JobProtocol.RowsAreConsistent` | internal/storage/postgres/jobs.go:21-201 | over every interleaving: running iff locked and leased, finished_at iff completed or dead, attempt = claims <= max_attempts + expiries, strictly while waiting |
| `JobProtocol.RowStep` | internal/storage/postgres/jobs.go:21-201 | each step keeps these row invariants |
| `JobProtocol.ClaimsAreBounded` | internal/storage/postgres/jobs.go:66-90 | a job is claimed at most max_attempts times plus once per lease it lost |
| `JobProtocol.ClaimsWithinBudget` | internal/storage/postgres/jobs.go:66-90 | in every run of any number of workers there are at most as many claims as all maxima and all lost leases together |
| `JobProtocol.DrainingEnds` | cmd/summary-worker/main.go:173-182 | once nothing is enqueued, all workers together claim at most as often as attempts were left plus leases lost, whatever interleaves, so with finitely many expiries draining ends |
| `JobProtocol.ExpiryExceedsMaximum` | internal/storage/postgres/jobs.go:170-186 | the bound is tight: for every maximum m > 0 and every e there is a run with attempt = m + e after exactly e expiries |
| `JobProtocol.TimelyRunsOwn` | internal/jobs/worker.go:105-133 | if the watched jobs are renewed in time, every handler of one has its row running, locked by it and leased from its last renewal |
| `JobProtocol.LeaseExclusion` | internal/jobs/worker.go:51-133 | if the handlers of this job renew in time, whatever other jobs do: recovery passes the job by, nobody else can claim it, the finisher still holds it and it has no second handler |
| `DailyRuns.TimelyRunsKeepSchedules` | internal/scheduler/service.go:71-165 | over every run in which the handlers of the schedule's jobs renew in time, passes with old listings included: a daily row runs its schedule on a day that has begun, and once completed its schedule has run |
| `DailyRuns.InsertAdds` | internal/scheduler/service.go:79-99 | an insert changes the queue exactly when the listed schedule is enabled, past its minute, outside its quiet hours and not yet run that day, and no live job holds the key; it then adds that schedule's job and nothing else |
| `DailyRuns.CompletedKeyIsNotInserted` | internal/scheduler/service.go:71-103 | a pass whose listing is still current at its insert never offers a key that has a completed row |
| `DailyRuns.StaleMeansMarked` | internal/scheduler/service.go:75-99 | a listing stops being current only by a run of the schedule that is marked after it |
| `DailyRuns.AtMostOnePerDay` | internal/scheduler/service.go:71-165 | if leases of the schedule's jobs are renewed in time and no run of it is marked between a pass's listing and its insert: a completed daily row means the schedule has run that day, all other rows of the key are dead and a pass that lists from now on is due on later days only |
| `DailyRuns.InsertRepeatsIff` | internal/scheduler/service.go:75-99 | in every timely run, exactly which inserts add a row next to a completed one of the same key: due in the listing, no live row of the key, and a job of the key completed between the listing and the insert |
| `DailyRepeats.StaleListingCompletesTwice` | internal/scheduler/service.go:75-99 | a run with every lease renewed in time in which two passes list, one job is run, and the other pass then inserts: two completed rows for one schedule and day |
| `DailyRepeats.LostLeaseCompletesTwice` | internal/storage/postgres/jobs.go:114-133 | a run without old listings in which a process outlives its lease: two completed rows for one schedule and day |
| `TelegramText.CloseTruncatedTelegramHTML` | internal/telegram/bot/service.go:414-439 | cutting, the stack loop and the closing loop compute the specified repair |
| `TelegramText.MatchIff` | internal/telegram/bot/service.go:412-412 | the scanner matches at a position exactly where a tag stands: one of the five names in either case, ended by the first closing mark |
| `TelegramText.FindTokens` | internal/telegram/bot/service.go:412-412 | on a document of escaped text the tag scanner finds exactly its tags, in order |
| `TelegramText.StackOfDocument` | internal/telegram/bot/service.go:423-435 | on nested tags the stack is the list of open tags |
| `TelegramText.StripCutToken` | internal/telegram/bot/service.go:417-422 | whatever is left of a cut tag or entity is removed, and nothing else |
| `TelegramText.ClosingCompletes` | internal/telegram/bot/service.go:436-438 | closing the open tags innermost first completes the nesting |
| `TelegramText.TruncationIsRepaired` | internal/telegram/bot/service.go:414-439 | cutting a well-nested document at any rune and repairing it gives a token prefix, at most the cut token lost, plus the closing tags, well nested again |
| `TelegramText.TelegramText` | internal/telegram/bot/service.go:395-410 | every well-nested HTML text arrives as well-nested HTML, with the notice exactly when it was longer than 3900 runes; blank text as the stock phrase |
| `TelegramText.SentIsWellNested` | internal/telegram/bot/service.go:395-439 | the same, token by token, about the specification function |
| `PgArray.PgTextArray` | internal/storage/postgres/articles.go:182-200 | prints the trimmed non-blank values, quoted and escaped |
| `PgArray.ParsePGTextArray` | internal/storage/postgres/articles.go:202-234 | the character loop runs the specified automaton |
| `PgArray.EscapeSnoc` | internal/storage/postgres/articles.go:192-193 | escaping backslashes first and quotes second works character by character |
| `PgArray.ParseUndoesRendering` | internal/storage/postgres/articles.go:202-234 | parsing undoes every rendering that quotes elements with commas, quotes or backslashes (section 8.15.6 of the PostgreSQL manual quotes more), up to trimming and blank elements |
| `PgArray.RoundTripIff` | internal/storage/postgres/articles.go:202-234 | a list survives exactly when its elements are trimmed and not empty |
| `PgArray.ParseUndoesPrinting` | internal/storage/postgres/articles.go:182-234 | parsing what was printed gives the trimmed non-blank values |
| `ReadPositions.ReadPositionRepository.CollectMessages` | internal/collection/service.go:120-160 | the loop over links collects exactly the sought posts of the visited chats, from every history the client may return |
| `ReadPositions.CollectionIff` | internal/collection/service.go:124-158 | a message is collected exactly when it is a post with text, new to its chat or within the mode's days, of an enabled, known, non-private chat with anything to fetch |
| `ReadPositions.SkippedIff` | internal/collection/service.go:236-272 | a post is skipped exactly when its mode does not ask for it |
| `ReadPositions.NewIsUnread` | internal/collection/service.go:261-272 | a collection of new messages holds nothing at or below a position |
| `ReadPositions.ReadPositionRepository.MarkReadPositions` | internal/summary/service.go:279-309 | every chat's position becomes the maximum of what it was and the greatest positive message id, in any map order |
| `ReadPositions.MarkingAdvances` | internal/summary/service.go:279-309 | marking moves no position back and leaves every marked message behind its position |
| `ReadPositions.MarkingInventsNothing` | internal/summary/service.go:279-309 | a position that marking changed is the id of a marked message of that chat |
| `ReadPositions.PositionsNeverDecrease` | internal/summary/service.go:279-309 | over any run of collections and summaries no position decreases |
| `ReadPositions.NewMessagesAreNew` | internal/collection/service.go:141-157 | over any run, across groups and modes, a collection of new messages contains no message of a collection summarised earlier |
| `ReadPositions.UpsertLowersIff` | internal/summary/service.go:293-304 | over every interleaving of finds and upserts: an upsert lowers a position if and only if the last write to its chat since its own find was made with a greater id |
| `ReadPositions.UndividedMarkerNeverLowers` | internal/summary/service.go:293-304 | a marker that writes right after its find never lowers a position, whatever ran before |
| `ReadPositions.FreshWriteAdvances` | internal/summary/service.go:293-304 | a find and an upsert in one step never move a position back |
| `ReadPositions.InterleavedMarksLoseGround` | internal/storage/postgres/read_positions.go:20-31 | the run find 5, find 9, write 9, write 5 makes a summarised message new again |
| `Sorting.StableSortStable` | internal/summary/deduplicator/deduplicator.go:67-69 | stable sorting keeps the order of ties |
| `Sorting.StableSortSorted` | internal/summary/deduplicator/deduplicator.go:67-69 | stable sorting sorts |
| `Sorting.SortedUnique` | internal/summary/service.go:221-228 | under a total order the sorted list depends on the elements only |

## Left out

- Prompts, JSON encoding and decoding, HTTP calls, timeouts and retry pauses: a reply is an arbitrary value or an error, marked retryable or not.
- API keys, configuration and logging.
- Regular expressions other than the tag scanner, SHA-256, lower-casing, token sets and URL extraction: abstract deterministic functions.
- The size of a topic descriptor, and in the shared-anchor test lower-casing and what counts as a letter or digit: abstract functions.
- The tag pattern's case folding of U+017F, which it accepts as the letter s; it cannot occur in escaped text.
- Jaccard similarity is compared in whole numbers (5 * common >= 4 * union) and only for the default threshold of 0.80.
- Time zones and daylight saving: a local time is a day and a minute given by a monotone function of the clock; the week mode counts seven times 24 hours.
- Parsing of daily times, which arrive as minutes; an unparsable one is absent.
- Failures of database statements, and transactions: each repository call is one atomic step, and a schedule is marked as run whenever its run succeeded.
- `RunDue`, which runs schedules without the queue.
- DailyRuns.AtMostOnePerDay: assumes local days never go back, since a time zone change can repeat a day.
- Scheduler.EnqueueDue: no other process takes a step between its statements; `JobProtocol` lists and inserts in separate steps, with the clock read in between.
- MapReduce.SummarizeBatches: runs the batches one after the other; `MapReduce.EveryScheduleReturns` has the schedules of the goroutines.
- MapReduce.Summarize: without cancellation; a cancelled run leaves fewer results, which `MapReduce.EveryScheduleFeedsMerging` and `MapReduce.MergeSummaries` cover.
- TextLoss.LossIff: exact for topics that fit one request; for more, `TextLoss.LossNeedsAnchor` is the direction that protects a digest.
- Worker.RunOnce: no other process takes a step between claim and finish; `JobProtocol` interleaves them all.
- Worker.Drain: one worker alone; `JobProtocol.DrainingEnds` has any number of workers, heartbeats, expiries and late finishers.
- TopicMerge.MergeDuplicateTopics: `fold` stands for the case folding of one character, on which text equality is built, and the title order for lower-cased comparison.
- Batching.TruncatedIsLongestValidPrefix: speaks of valid UTF-8, as Go strings from the database are; other bytes are only cut.
- Pipeline.Filter: text is a list of runes here and a list of bytes in `Batching`; the encoding between them is not part of the model.
- Generation.GenerateFromCollection: chat titles, date format and UTF-8 encoding of the input are one abstract function; sources, links and markdown of the saved digest are not part of the model.
- ReadPositions.ReadPositionRepository.CollectMessages: the arguments handed to the Telegram client are not kept, its answer being arbitrary.
- ReadPositions.NewMessagesAreNew: takes one collection and one marking as a step each; that a message is never missed is not claimed, since the per-chat limit can skip old ones.
- TelegramText.TruncationIsRepaired: the message's total length after closing tags and notice is not bounded.
- Handlers, menus, authorisation, synchronisation, exports, articles other than their tags, and schedule editing: single-branch code.
