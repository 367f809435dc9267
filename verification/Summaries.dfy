/** The model's reply: internal/summary/llm/types.go. */
module Summaries {
  import opened Sequences

  datatype Option<+T> = None | Some(value: T)

  datatype Topic = Topic(
    title: string, category: string, shortSummary: string, fullSummary: string, whyImportant: string,
    confidence: string, importance: int, sourceIndexes: seq<int>)

  datatype Excluded = Excluded(sourceIndex: int, reason: string)

  datatype Summary = Summary(title: string, overview: string, topics: seq<Topic>, excluded: seq<Excluded>)

  /** The record the code passes around by pointer and rewrites. */
  class SummaryResult {
    var title: string
    var overview: string
    var topics: seq<Topic>
    var excluded: seq<Excluded>

    constructor (s: Summary)
      ensures Value() == s
    {
      title, overview, topics, excluded := s.title, s.overview, s.topics, s.excluded;
    }

    function Value(): Summary
      reads this
    {
      Summary(title, overview, topics, excluded)
    }
  }

  ghost predicate WellFormedTopic(t: Topic) {
    && t.title != "" && t.shortSummary != "" && t.fullSummary != ""
    && t.confidence in ["high", "medium", "low"]
    && 1 <= t.importance <= 10
  }

  ghost predicate WellFormed(s: Summary) {
    && s.title != "" && s.overview != "" && s.topics != []
    && forall k :: 0 <= k < |s.topics| ==> WellFormedTopic(s.topics[k])
  }

  method ValidateSummaryResult(s: Summary) returns (valid: bool)
    ensures valid <==> WellFormed(s)
  {
    if s.title == "" || s.overview == "" || |s.topics| == 0 {
      return false;
    }
    for k := 0 to |s.topics|
      invariant forall j :: 0 <= j < k ==> WellFormedTopic(s.topics[j])
    {
      var topic := s.topics[k];
      assert topic == s.topics[k];
      if topic.title == "" || topic.shortSummary == "" || topic.fullSummary == "" {
        return false;
      }
      if topic.confidence != "high" && topic.confidence != "medium" && topic.confidence != "low" {
        return false;
      }
      if topic.importance < 1 || topic.importance > 10 {
        return false;
      }
    }
    return true;
  }

  /** Indexes some topic is based on. */
  function Used(topics: seq<Topic>): set<int> {
    if topics == [] then {}
    else Used(topics[..|topics| - 1]) + Elements(topics[|topics| - 1].sourceIndexes)
  }

  function ExcludedIndexes(excluded: seq<Excluded>): set<int> {
    if excluded == [] then {}
    else ExcludedIndexes(excluded[..|excluded| - 1]) + {excluded[|excluded| - 1].sourceIndex}
  }

  lemma {:induction false} UsedIff(topics: seq<Topic>, x: int)
    ensures x in Used(topics) <==> exists k :: 0 <= k < |topics| && x in topics[k].sourceIndexes
  {
    if topics != [] {
      UsedIff(topics[..|topics| - 1], x);
    }
  }

  lemma {:induction false} ExcludedIff(excluded: seq<Excluded>, x: int)
    ensures x in ExcludedIndexes(excluded) <==> exists k :: 0 <= k < |excluded| && excluded[k].sourceIndex == x
  {
    if excluded != [] {
      ExcludedIff(excluded[..|excluded| - 1], x);
    }
  }

  lemma {:induction false} UsedConcat(a: seq<Topic>, b: seq<Topic>)
    ensures Used(a + b) == Used(a) + Used(b)
  {
    if b == [] {
      assert a + b == a;
    } else {
      assert (a + b)[..|a + b| - 1] == a + b[..|b| - 1];
      UsedConcat(a, b[..|b| - 1]);
    }
  }

  lemma {:induction false} ExcludedConcat(a: seq<Excluded>, b: seq<Excluded>)
    ensures ExcludedIndexes(a + b) == ExcludedIndexes(a) + ExcludedIndexes(b)
  {
    if b == [] {
      assert a + b == a;
    } else {
      assert (a + b)[..|a + b| - 1] == a + b[..|b| - 1];
      ExcludedConcat(a, b[..|b| - 1]);
    }
  }
}
