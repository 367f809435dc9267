/**
 Cutting the collection into byte-bounded batches: `truncateUTF8`,
 `limitSummaryMessageSize` and `splitSummaryMessages` of internal/summary/llm/openai.go.
 */
module Batching {
  import opened Sequences
  import opened Packing

  newtype Byte = x: int | 0 <= x < 256
  /** A Go string: bytes, not necessarily valid UTF-8. */
  type GoString = seq<Byte>

  const MAX_BATCH_CONTENT_BYTES := 6000

  predicate Tail(b: Byte) {
    0x80 <= b <= 0xBF
  }

  /** `utf8.RuneStart`. */
  predicate RuneStart(b: Byte) {
    !Tail(b)
  }

  /** First two bytes of a three-byte character (RFC 3629, section 4). */
  predicate Lead3(a: Byte, b: Byte) {
    || (a == 0xE0 && 0xA0 <= b <= 0xBF)
    || (0xE1 <= a <= 0xEC && Tail(b))
    || (a == 0xED && 0x80 <= b <= 0x9F)
    || (0xEE <= a <= 0xEF && Tail(b))
  }

  /** First two bytes of a four-byte character (RFC 3629, section 4). */
  predicate Lead4(a: Byte, b: Byte) {
    || (a == 0xF0 && 0x90 <= b <= 0xBF)
    || (0xF1 <= a <= 0xF3 && Tail(b))
    || (a == 0xF4 && 0x80 <= b <= 0x8F)
  }

  /** Length of the well-formed character `s` starts with, 0 if there is none. */
  function CharLength(s: GoString): (n: nat)
    ensures n <= 4 && n <= |s|
  {
    if s == [] then 0
    else if s[0] <= 0x7F then 1
    else if |s| >= 2 && 0xC2 <= s[0] <= 0xDF && Tail(s[1]) then 2
    else if |s| >= 3 && Lead3(s[0], s[1]) && Tail(s[2]) then 3
    else if |s| >= 4 && Lead4(s[0], s[1]) && Tail(s[2]) && Tail(s[3]) then 4
    else 0
  }

  predicate ValidUTF8(s: GoString)
    decreases |s|
  {
    s == [] || (CharLength(s) > 0 && ValidUTF8(s[CharLength(s)..]))
  }

  /** In valid text the valid prefixes are those that end before a rune start. */
  lemma {:induction false} ValidPrefixIffRuneStart(s: GoString, k: nat)
    requires ValidUTF8(s) && k <= |s|
    ensures ValidUTF8(s[..k]) <==> k == |s| || RuneStart(s[k])
    decreases |s|
  {
    var n := CharLength(s);
    if k == |s| {
      assert s[..k] == s;
    } else if n <= k {
      ValidPrefixIffRuneStart(s[n..], k - n);
      assert s[..k][n..] == s[n..][..k - n];
      assert CharLength(s[..k]) == n;
    }
  }

  lemma {:induction false} RuneStartWithinFour(s: GoString, k: nat) returns (j: nat)
    requires ValidUTF8(s) && k < |s|
    ensures k - 3 <= j <= k && RuneStart(s[j])
    decreases |s|
  {
    var n := CharLength(s);
    if k < n {
      j := 0;
    } else {
      j := RuneStartWithinFour(s[n..], k - n);
      j := j + n;
    }
  }

  /** The last rune start at or before `k`, or 0. */
  function RuneStartAtOrBefore(value: GoString, k: nat): (j: nat)
    requires k < |value|
    ensures j <= k && (j == 0 || RuneStart(value[j]))
    ensures forall i :: j < i <= k ==> !RuneStart(value[i])
  {
    if k > 0 && !RuneStart(value[k]) then RuneStartAtOrBefore(value, k - 1) else k
  }

  function Truncated(value: GoString, maxBytes: int): GoString {
    if maxBytes <= 0 then []
    else if |value| <= maxBytes then value
    else value[..RuneStartAtOrBefore(value, maxBytes)]
  }

  method TruncateUTF8(value: GoString, maxBytes: int) returns (r: GoString)
    ensures r == Truncated(value, maxBytes)
  {
    if maxBytes <= 0 {
      return [];
    }
    if |value| <= maxBytes {
      return value;
    }
    var cut := maxBytes;
    while cut > 0 && !RuneStart(value[cut])
      invariant 0 <= cut <= maxBytes
      invariant RuneStartAtOrBefore(value, maxBytes) == RuneStartAtOrBefore(value, cut)
    {
      cut := cut - 1;
    }
    return value[..cut];
  }

  /**
   On valid text the cut is the longest valid prefix within the limit, and a cut
   text is at most three bytes below the limit.
   */
  lemma TruncatedIsLongestValidPrefix(value: GoString, maxBytes: nat)
    requires ValidUTF8(value)
    ensures var r := Truncated(value, maxBytes);
            && r <= value && |r| <= maxBytes && ValidUTF8(r)
            && (forall k :: 0 <= k <= |value| && k <= maxBytes && ValidUTF8(value[..k]) ==> k <= |r|)
            && (r == value || maxBytes - 3 <= |r|)
  {
    var r := Truncated(value, maxBytes);
    if 0 < maxBytes < |value| {
      ValidPrefixIffRuneStart(value, |r|);
      var j := RuneStartWithinFour(value, maxBytes);
      assert value[..0] == [];
      ValidPrefixIffRuneStart(value, 0);
    }
    forall k | 0 <= k <= |value| && k <= maxBytes && ValidUTF8(value[..k])
      ensures k <= |r|
    {
      ValidPrefixIffRuneStart(value, k);
    }
  }

  datatype MessageInput = MessageInput(
    index: int, chatTitle: GoString, publishedAt: GoString, text: GoString, urls: seq<GoString>)

  function Size(message: MessageInput): nat {
    |message.text| + |message.chatTitle|
  }

  function Limited(message: MessageInput, maxBytes: int): MessageInput {
    if maxBytes <= 0 then message
    else if |message.chatTitle| >= maxBytes then
      message.(chatTitle := Truncated(message.chatTitle, maxBytes), text := [])
    else
      message.(text := Truncated(message.text, maxBytes - |message.chatTitle|))
  }

  /** Title and text together fit the budget, stay valid and stay prefixes; a message that fits is untouched. */
  ghost predicate Fitted(r: MessageInput, message: MessageInput, maxBytes: nat) {
    && Size(r) <= maxBytes
    && r.chatTitle <= message.chatTitle && r.text <= message.text
    && (r.text == [] || r.chatTitle == message.chatTitle)
    && r == message.(chatTitle := r.chatTitle, text := r.text)
    && (Size(message) <= maxBytes ==> r == message)
    && (ValidUTF8(message.chatTitle) && ValidUTF8(message.text) ==>
          ValidUTF8(r.chatTitle) && ValidUTF8(r.text) && (r == message || maxBytes - 3 <= Size(r)))
  }

  lemma LimitedFits(message: MessageInput, maxBytes: int)
    requires maxBytes > 0
    ensures Fitted(Limited(message, maxBytes), message, maxBytes)
  {
    if ValidUTF8(message.chatTitle) && ValidUTF8(message.text) {
      TruncatedIsLongestValidPrefix(message.chatTitle, maxBytes);
      if |message.chatTitle| < maxBytes {
        TruncatedIsLongestValidPrefix(message.text, maxBytes - |message.chatTitle|);
      }
    }
  }

  method LimitSummaryMessageSize(message: MessageInput, maxBytes: int) returns (r: MessageInput)
    ensures r == Limited(message, maxBytes)
    ensures if maxBytes <= 0 then r == message else Fitted(r, message, maxBytes)
  {
    if maxBytes > 0 {
      LimitedFits(message, maxBytes);
    }
    if maxBytes <= 0 {
      return message;
    }
    if |message.chatTitle| >= maxBytes {
      var title := TruncateUTF8(message.chatTitle, maxBytes);
      return message.(chatTitle := title, text := []);
    }
    var text := TruncateUTF8(message.text, maxBytes - |message.chatTitle|);
    return message.(text := text);
  }

  datatype Batch = Batch(messages: seq<MessageInput>, globalIndexes: seq<nat>)

  function GlobalIndexes(batches: seq<Batch>): (r: seq<seq<nat>>)
    ensures |r| == |batches|
    ensures forall k :: 0 <= k < |r| ==> r[k] == batches[k].globalIndexes
  {
    seq(|batches|, k requires 0 <= k < |batches| => batches[k].globalIndexes)
  }

  function Sizes(messages: seq<MessageInput>, max: nat): (r: seq<nat>)
    ensures |r| == |messages|
    ensures forall i :: 0 <= i < |r| ==> r[i] == Size(Limited(messages[i], max))
  {
    seq(|messages|, i requires 0 <= i < |messages| => Size(Limited(messages[i], max)))
  }

  /** The batch holds the messages it names, cut to size and renumbered from zero. */
  ghost predicate Holds(batch: Batch, messages: seq<MessageInput>, max: nat) {
    && |batch.messages| == |batch.globalIndexes|
    && (forall k :: 0 <= k < |batch.globalIndexes| ==> batch.globalIndexes[k] < |messages|)
    && forall k :: 0 <= k < |batch.messages| ==>
         batch.messages[k] == Limited(messages[batch.globalIndexes[k]], max).(index := k)
  }

  ghost predicate IsSplit(batches: seq<Batch>, messages: seq<MessageInput>, max: nat) {
    && Packs(Sizes(messages, max), GlobalIndexes(batches), max)
    && Tight(Sizes(messages, max), GlobalIndexes(batches), max)
    && AllHold(batches, messages, max)
  }

  ghost predicate AllHold(batches: seq<Batch>, messages: seq<MessageInput>, max: nat) {
    forall k :: 0 <= k < |batches| ==> Holds(batches[k], messages, max)
  }

  /** The first `i` messages are cut, `current` being the open batch. */
  ghost predicate SplitSoFar(batches: seq<Batch>, current: Batch, messages: seq<MessageInput>, max: nat, i: nat) {
    && i <= |messages|
    && Growing(Sizes(messages, max), GlobalIndexes(batches), current.globalIndexes, Range(i), max)
    && AllHold(batches, messages, max)
    && Holds(current, messages, max)
  }

  /** The batch with one more message, renumbered. */
  function Appended(batch: Batch, message: MessageInput, i: nat): Batch {
    Batch(batch.messages + [message.(index := |batch.messages|)], batch.globalIndexes + [i])
  }

  lemma NextSize(current: Batch, messages: seq<MessageInput>, max: nat, i: nat)
    requires i < |messages| && max > 0
    ensures var sizes, size := Sizes(messages, max), Size(Limited(messages[i], max));
            && Weight(sizes, current.globalIndexes + [i]) == Weight(sizes, current.globalIndexes) + size
            && Weight(sizes, [i]) == size <= max
  {
    WeightConcat(Sizes(messages, max), current.globalIndexes, [i]);
    LimitedFits(messages[i], max);
  }

  method SplitSummaryMessages(messages: seq<MessageInput>, maxBytes: int) returns (batches: seq<Batch>)
    ensures IsSplit(batches, messages, if maxBytes <= 0 then MAX_BATCH_CONTENT_BYTES else maxBytes)
  {
    if |messages| == 0 {
      return [];
    }
    var max := maxBytes;
    if max <= 0 {
      max := MAX_BATCH_CONTENT_BYTES;
    }
    batches := CutIntoBatches(messages, max);
  }

  /** The loop of `splitSummaryMessages`. */
  method CutIntoBatches(messages: seq<MessageInput>, max: nat) returns (batches: seq<Batch>)
    requires messages != [] && max > 0
    ensures IsSplit(batches, messages, max)
  {
    batches := [];
    var current := Batch([], []);
    var size := 0;
    NothingGrown(Sizes(messages, max), max);
    for i := 0 to |messages|
      invariant SplitSoFar(batches, current, messages, max, i)
      invariant size == Weight(Sizes(messages, max), current.globalIndexes)
      invariant i > 0 ==> current.messages != []
    {
      var message := LimitSummaryMessageSize(messages[i], max);
      var messageSize := |message.text| + |message.chatTitle|;
      NextSize(current, messages, max, i);
      NextSize(Batch([], []), messages, max, i);
      if |current.messages| > 0 && size + messageSize > max {
        OpenBatch(batches, current, messages, max, i);
        batches := batches + [current];
        current := Batch([], []);
        size := 0;
      } else {
        ExtendBatch(batches, current, messages, max, i);
      }
      current := Appended(current, message, i);
      size := size + messageSize;
    }
    LastBatch(batches, current, messages, max);
    batches := batches + [current];
  }

  lemma IndexesSnoc(batches: seq<Batch>, current: Batch)
    ensures GlobalIndexes(batches + [current]) == GlobalIndexes(batches) + [current.globalIndexes]
  {
  }

  /** No single message exceeds the budget, so no batch does. */
  lemma HeldFits(batch: Batch, messages: seq<MessageInput>, max: nat)
    requires Holds(batch, messages, max) && max > 0 && Fits(Sizes(messages, max), batch.globalIndexes, max)
    ensures Weight(Sizes(messages, max), batch.globalIndexes) <= max
  {
    if |batch.globalIndexes| == 1 {
      NextSize(Batch([], []), messages, max, batch.globalIndexes[0]);
      assert batch.globalIndexes == [batch.globalIndexes[0]];
    }
  }

  lemma LastBatch(batches: seq<Batch>, current: Batch, messages: seq<MessageInput>, max: nat)
    requires SplitSoFar(batches, current, messages, max, |messages|) && current.messages != [] && max > 0
    ensures IsSplit(batches + [current], messages, max)
  {
    IndexesSnoc(batches, current);
    var sizes, all := Sizes(messages, max), batches + [current];
    forall k | 0 <= k < |all|
      ensures Weight(sizes, GlobalIndexes(all)[k]) <= max
    {
      assert Holds(all[k], messages, max);
      HeldFits(all[k], messages, max);
    }
  }

  lemma HoldsOne(messages: seq<MessageInput>, max: nat, i: nat)
    requires i < |messages|
    ensures Appended(Batch([], []), Limited(messages[i], max), i).globalIndexes == [i]
    ensures Holds(Appended(Batch([], []), Limited(messages[i], max), i), messages, max)
  {
    assert [] + [i] == [i];
  }

  lemma HoldsOneMore(batch: Batch, messages: seq<MessageInput>, max: nat, i: nat)
    requires i < |messages| && Holds(batch, messages, max)
    ensures Holds(Appended(batch, Limited(messages[i], max), i), messages, max)
  {
  }

  lemma OpenBatch(batches: seq<Batch>, current: Batch, messages: seq<MessageInput>, max: nat, i: nat)
    requires SplitSoFar(batches, current, messages, max, i) && i < |messages| && current.globalIndexes != []
    requires Weight(Sizes(messages, max), current.globalIndexes + [i]) > max > 0
    ensures SplitSoFar(batches + [current], Appended(Batch([], []), Limited(messages[i], max), i), messages, max, i + 1)
  {
    HoldsOne(messages, max, i);
    IndexesSnoc(batches, current);
    StartPart(Sizes(messages, max), GlobalIndexes(batches), current.globalIndexes, Range(i), max, i);
    assert Range(i + 1) == Range(i) + [i];
  }

  lemma ExtendBatch(batches: seq<Batch>, current: Batch, messages: seq<MessageInput>, max: nat, i: nat)
    requires SplitSoFar(batches, current, messages, max, i) && i < |messages| && max > 0
    requires current.globalIndexes == [] || Weight(Sizes(messages, max), current.globalIndexes + [i]) <= max
    ensures SplitSoFar(batches, Appended(current, Limited(messages[i], max), i), messages, max, i + 1)
  {
    HoldsOneMore(current, messages, max, i);
    GrowPart(Sizes(messages, max), GlobalIndexes(batches), current.globalIndexes, Range(i), max, i);
    assert Range(i + 1) == Range(i) + [i];
  }

  /** The split uses the fewest batches any in-order cut within the budget can use. */
  lemma SplitIsOptimal(batches: seq<Batch>, messages: seq<MessageInput>, max: nat, other: seq<seq<nat>>)
    requires IsSplit(batches, messages, max)
    requires Packs(Sizes(messages, max), other, max)
    ensures |batches| <= |other|
  {
    TightIsOptimal(Sizes(messages, max), GlobalIndexes(batches), other, max);
  }

  lemma SplitCount(batches: seq<Batch>, messages: seq<MessageInput>, max: nat)
    requires IsSplit(batches, messages, max)
    ensures |batches| <= 2 * (Weight(Sizes(messages, max), Range(|messages|)) / (max + 1)) + 1
  {
    TightCount(Sizes(messages, max), GlobalIndexes(batches), max);
  }
}
