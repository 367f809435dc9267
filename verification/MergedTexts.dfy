/**
 The texts of merged topics: `appendUniqueText` and the joining of paragraphs in
 `combineTopicGroup` of internal/summary/llm/openai.go.
 */
module MergedTexts {
  import opened Sequences
  import opened Text

  /** `strings.EqualFold`, character by character. */
  predicate EqualFold(a: string, b: string, fold: char -> char) {
    |a| == |b| && forall i :: 0 <= i < |a| ==> fold(a[i]) == fold(b[i])
  }

  function UniqueText(values: seq<string>, value: string, fold: char -> char): seq<string> {
    var text := TrimSpace(value);
    if text == "" || (exists k :: 0 <= k < |values| && EqualFold(values[k], text, fold)) then values
    else values + [text]
  }

  method AppendUniqueText(values: seq<string>, value: string, fold: char -> char) returns (r: seq<string>)
    ensures r == UniqueText(values, value, fold)
  {
    var text := TrimSpace(value);
    if text == "" {
      return values;
    }
    for k := 0 to |values|
      invariant forall j :: 0 <= j < k ==> !EqualFold(values[j], text, fold)
    {
      if EqualFold(values[k], text, fold) {
        return values;
      }
    }
    return values + [text];
  }

  /** All texts of a group, appended one after the other. */
  function Uniques(texts: seq<string>, fold: char -> char): seq<string> {
    if texts == [] then []
    else UniqueText(Uniques(texts[..|texts| - 1], fold), texts[|texts| - 1], fold)
  }

  /** `strings.Join(parts, "\n\n")`. */
  function Paragraphs(parts: seq<string>): string {
    if parts == [] then ""
    else if |parts| == 1 then parts[0]
    else Paragraphs(parts[..|parts| - 1]) + "\n\n" + parts[|parts| - 1]
  }

  // ----- which texts of a group are kept

  /** A text that is not blank and, up to case and white space around it, has not come before. */
  ghost predicate FirstAt(texts: seq<string>, k: nat, fold: char -> char) {
    && k < |texts| && !Blank(texts[k])
    && forall j :: 0 <= j < k ==> !EqualFold(TrimSpace(texts[j]), TrimSpace(texts[k]), fold)
  }

  /** The parts are, in order, the trimmed texts that come first, and `positions` says where they stood. */
  ghost predicate FirstTexts(parts: seq<string>, positions: seq<nat>, texts: seq<string>, fold: char -> char) {
    && |parts| == |positions|
    && (forall i, j :: 0 <= i < j < |positions| ==> positions[i] < positions[j])
    && (forall k :: 0 <= k < |parts| ==>
          FirstAt(texts, positions[k], fold) && parts[k] == TrimSpace(texts[positions[k]]))
    && forall j: nat :: FirstAt(texts, j, fold) ==> j in positions
  }

  /** Every text that is not blank has a first one before it or is one. */
  lemma {:induction false} FirstOf(texts: seq<string>, k: nat, fold: char -> char) returns (j: nat)
    requires k < |texts| && !Blank(texts[k])
    ensures j <= k && FirstAt(texts, j, fold) && EqualFold(TrimSpace(texts[j]), TrimSpace(texts[k]), fold)
  {
    if FirstAt(texts, k, fold) {
      j := k;
    } else {
      var i :| 0 <= i < k && EqualFold(TrimSpace(texts[i]), TrimSpace(texts[k]), fold);
      j := FirstOf(texts, i, fold);
    }
  }

  lemma PartOf(parts: seq<string>, positions: seq<nat>, texts: seq<string>, fold: char -> char, k: nat)
    returns (p: nat)
    requires FirstTexts(parts, positions, texts, fold) && k < |texts| && !Blank(texts[k])
    ensures p < |parts| && EqualFold(parts[p], TrimSpace(texts[k]), fold)
  {
    var j := FirstOf(texts, k, fold);
    assert j in positions;
    p :| 0 <= p < |positions| && positions[p] == j;
  }

  lemma FirstAtPrefix(texts: seq<string>, more: string, k: nat, fold: char -> char)
    requires k < |texts|
    ensures FirstAt(texts + [more], k, fold) <==> FirstAt(texts, k, fold)
  {
    var longer := texts + [more];
    assert longer[k] == texts[k];
    if FirstAt(longer, k, fold) {
      forall j | 0 <= j < k
        ensures !EqualFold(TrimSpace(texts[j]), TrimSpace(texts[k]), fold)
      {
        assert longer[j] == texts[j];
      }
    }
  }

  /** The text is appended exactly when it comes first. */
  lemma AppendedIff(parts: seq<string>, positions: seq<nat>, texts: seq<string>, more: string, fold: char -> char)
    requires FirstTexts(parts, positions, texts, fold)
    ensures UniqueText(parts, more, fold) ==
            if FirstAt(texts + [more], |texts|, fold) then parts + [TrimSpace(more)] else parts
  {
    var longer := texts + [more];
    if !Blank(more) {
      if k :| 0 <= k < |parts| && EqualFold(parts[k], TrimSpace(more), fold) {
        assert longer[positions[k]] == texts[positions[k]];
      }
      if k :| 0 <= k < |texts| && EqualFold(TrimSpace(longer[k]), TrimSpace(more), fold) {
        assert longer[k] == texts[k];
        if !Blank(texts[k]) {
          var p := PartOf(parts, positions, texts, fold, k);
        }
      }
    }
  }

  lemma FirstTextsStep(parts: seq<string>, positions: seq<nat>, texts: seq<string>, more: string, fold: char -> char)
    returns (next: seq<nat>)
    requires FirstTexts(parts, positions, texts, fold)
    ensures FirstTexts(UniqueText(parts, more, fold), next, texts + [more], fold)
  {
    AppendedIff(parts, positions, texts, more, fold);
    FirstTextsLonger(parts, positions, texts, more, fold);
    if FirstAt(texts + [more], |texts|, fold) {
      next := positions + [|texts|];
      AppendFirst(parts, positions, texts + [more], |texts|, fold);
    } else {
      next := positions;
    }
  }

  /** All the first texts but perhaps that at n. */
  ghost predicate FirstTextsBefore(parts: seq<string>, positions: seq<nat>, texts: seq<string>, n: nat,
                                   fold: char -> char)
  {
    && |parts| == |positions|
    && (forall i, j :: 0 <= i < j < |positions| ==> positions[i] < positions[j])
    && (forall k :: 0 <= k < |parts| ==>
          && positions[k] < n && FirstAt(texts, positions[k], fold)
          && parts[k] == TrimSpace(texts[positions[k]]))
    && forall j: nat :: j < n && FirstAt(texts, j, fold) ==> j in positions
  }

  lemma FirstTextsLonger(parts: seq<string>, positions: seq<nat>, texts: seq<string>, more: string, fold: char -> char)
    requires FirstTexts(parts, positions, texts, fold)
    ensures FirstTextsBefore(parts, positions, texts + [more], |texts|, fold)
    ensures !FirstAt(texts + [more], |texts|, fold) ==> FirstTexts(parts, positions, texts + [more], fold)
  {
    forall k: nat | k < |texts|
      ensures FirstAt(texts + [more], k, fold) <==> FirstAt(texts, k, fold)
      ensures (texts + [more])[k] == texts[k]
    {
      FirstAtPrefix(texts, more, k, fold);
    }
  }

  lemma AppendFirst(parts: seq<string>, positions: seq<nat>, texts: seq<string>, n: nat, fold: char -> char)
    requires FirstTextsBefore(parts, positions, texts, n, fold) && |texts| == n + 1 && FirstAt(texts, n, fold)
    ensures FirstTexts(parts + [TrimSpace(texts[n])], positions + [n], texts, fold)
  {
    forall j: nat | FirstAt(texts, j, fold)
      ensures j in positions + [n]
    {
    }
  }

  /** What appending keeps: the first of each text up to case, trimmed, in order, and no blank one. */
  lemma {:induction false} UniquesAreFirst(texts: seq<string>, fold: char -> char) returns (positions: seq<nat>)
    ensures FirstTexts(Uniques(texts, fold), positions, texts, fold)
  {
    if texts == [] {
      positions := [];
    } else {
      var front, last := texts[..|texts| - 1], texts[|texts| - 1];
      positions := UniquesAreFirst(front, fold);
      assert texts == front + [last];
      positions := FirstTextsStep(Uniques(front, fold), positions, front, last, fold);
    }
  }

  // ----- paragraphs

  ghost predicate NewlineAt(text: string, i: int, fold: char -> char) {
    0 <= i < |text| && fold(text[i]) == fold('\n')
  }

  /** A paragraph starts at the beginning or after an empty line. */
  ghost predicate Starts(text: string, i: int, fold: char -> char) {
    i == 0 || (NewlineAt(text, i - 1, fold) && NewlineAt(text, i - 2, fold))
  }

  ghost predicate Ends(text: string, i: int, fold: char -> char) {
    i == |text| || (NewlineAt(text, i, fold) && NewlineAt(text, i + 1, fold))
  }

  /** `part`, up to case, stands at `i` between paragraph breaks. */
  ghost predicate ParagraphAt(text: string, part: string, i: nat, fold: char -> char) {
    && i + |part| <= |text|
    && (forall j :: 0 <= j < |part| ==> fold(text[i + j]) == fold(part[j]))
    && Starts(text, i, fold) && Ends(text, i + |part|, fold)
  }

  ghost predicate HasParagraph(text: string, part: string, fold: char -> char) {
    exists i: nat :: ParagraphAt(text, part, i, fold)
  }

  lemma HasItself(text: string, part: string, fold: char -> char)
    requires EqualFold(text, part, fold)
    ensures HasParagraph(text, part, fold)
  {
    assert ParagraphAt(text, part, 0, fold);
  }

  /** A paragraph of a paragraph is a paragraph. */
  lemma HasTransitive(a: string, b: string, c: string, fold: char -> char)
    requires HasParagraph(a, b, fold) && HasParagraph(b, c, fold)
    ensures HasParagraph(a, c, fold)
  {
    var i: nat :| ParagraphAt(a, b, i, fold);
    var j: nat :| ParagraphAt(b, c, j, fold);
    AtTransitive(a, b, c, i, j, fold);
  }

  lemma AtTransitive(a: string, b: string, c: string, i: nat, j: nat, fold: char -> char)
    requires ParagraphAt(a, b, i, fold) && ParagraphAt(b, c, j, fold)
    ensures ParagraphAt(a, c, i + j, fold)
  {
    forall k | 0 <= k < |c|
      ensures fold(a[i + j + k]) == fold(c[k])
    {
      assert fold(a[i + (j + k)]) == fold(b[j + k]);
    }
    forall k | 0 <= k < |b| && NewlineAt(b, k, fold)
      ensures NewlineAt(a, i + k, fold)
    {
      assert fold(a[i + k]) == fold(b[k]);
    }
    assert j > 0 ==> NewlineAt(a, i + (j - 1), fold) && NewlineAt(a, i + (j - 2), fold);
    var e := j + |c|;
    assert e < |b| ==> NewlineAt(a, i + e, fold) && NewlineAt(a, i + (e + 1), fold);
  }

  /** The last part and everything before it are paragraphs of the whole. */
  lemma LastParagraph(front: string, last: string, fold: char -> char)
    ensures var text := front + "\n\n" + last;
            HasParagraph(text, front, fold) && HasParagraph(text, last, fold)
  {
    var text := front + "\n\n" + last;
    assert text[|front|] == '\n' && text[|front| + 1] == '\n';
    assert ParagraphAt(text, front, 0, fold);
    assert NewlineAt(text, |front| + 2 - 1, fold) && NewlineAt(text, |front| + 2 - 2, fold);
    assert ParagraphAt(text, last, |front| + 2, fold);
  }

  lemma FrontAndLast(parts: seq<string>, fold: char -> char)
    requires |parts| > 1
    ensures HasParagraph(Paragraphs(parts), Paragraphs(parts[..|parts| - 1]), fold)
    ensures HasParagraph(Paragraphs(parts), parts[|parts| - 1], fold)
  {
    LastParagraph(Paragraphs(parts[..|parts| - 1]), parts[|parts| - 1], fold);
  }

  lemma OnlyParagraph(parts: seq<string>, fold: char -> char)
    requires |parts| == 1
    ensures HasParagraph(Paragraphs(parts), parts[0], fold)
  {
    HasItself(parts[0], parts[0], fold);
  }

  /** A paragraph of what comes before the last part is one of the whole. */
  lemma FrontParagraph(parts: seq<string>, front: seq<string>, part: string, fold: char -> char)
    requires |parts| > 1 && front == parts[..|parts| - 1] && HasParagraph(Paragraphs(front), part, fold)
    ensures HasParagraph(Paragraphs(parts), part, fold)
  {
    FrontAndLast(parts, fold);
    HasTransitive(Paragraphs(parts), Paragraphs(front), part, fold);
  }

  lemma {:induction false} PartIsParagraph(parts: seq<string>, k: nat, fold: char -> char)
    requires k < |parts|
    ensures HasParagraph(Paragraphs(parts), parts[k], fold)
  {
    if |parts| == 1 {
      OnlyParagraph(parts, fold);
    } else if k == |parts| - 1 {
      FrontAndLast(parts, fold);
    } else {
      var front := parts[..|parts| - 1];
      PartIsParagraph(front, k, fold);
      FrontParagraph(parts, front, front[k], fold);
    }
  }

  // ----- what a merged text says about the texts it was merged from

  /** The trimmed text, not blank, of a member of the class. */
  ghost predicate TextOfMember(part: string, texts: seq<string>, class_: set<int>) {
    exists i :: i in class_ && 0 <= i < |texts| && part == TrimSpace(texts[i]) && part != ""
  }

  ghost predicate TextsOfMembers(parts: seq<string>, texts: seq<string>, class_: set<int>) {
    forall k :: 0 <= k < |parts| ==> TextOfMember(parts[k], texts, class_)
  }

  /** The text consists of paragraphs that are texts of the class. */
  ghost predicate MadeOf(text: string, texts: seq<string>, class_: set<int>) {
    exists parts :: TextsOfMembers(parts, texts, class_) && text == Paragraphs(parts)
  }

  /** Every text of the class that is not blank is one of the paragraphs, up to case. */
  ghost predicate HoldsAll(text: string, texts: seq<string>, class_: set<int>, fold: char -> char) {
    forall i :: i in class_ && 0 <= i < |texts| && !Blank(texts[i]) ==> HasParagraph(text, TrimSpace(texts[i]), fold)
  }

  /** A merged text is made of the texts of its class, and none of them is lost. */
  ghost predicate MergesTexts(text: string, texts: seq<string>, class_: set<int>, fold: char -> char) {
    Trimmed(text) && MadeOf(text, texts, class_) && HoldsAll(text, texts, class_, fold)
  }

  lemma MemberTextIsTrimmed(part: string, texts: seq<string>, class_: set<int>)
    requires TextOfMember(part, texts, class_)
    ensures Trimmed(part) && part != ""
  {
    var i :| i in class_ && 0 <= i < |texts| && part == TrimSpace(texts[i]) && part != "";
    TrimSpaceIsTrimmed(texts[i]);
  }

  lemma JoinedTrimmed(a: string, b: string)
    requires Trimmed(a) && Trimmed(b) && a != "" && b != ""
    ensures Trimmed(a + "\n\n" + b) && a + "\n\n" + b != ""
  {
  }

  lemma {:induction false} ParagraphsTrimmed(parts: seq<string>, texts: seq<string>, class_: set<int>)
    requires TextsOfMembers(parts, texts, class_)
    ensures Trimmed(Paragraphs(parts)) && (Paragraphs(parts) == "" <==> parts == [])
  {
    if parts != [] {
      var n := |parts| - 1;
      MemberTextIsTrimmed(parts[n], texts, class_);
      if n > 0 {
        ParagraphsTrimmed(parts[..n], texts, class_);
        JoinedTrimmed(Paragraphs(parts[..n]), parts[n]);
      }
    }
  }

  lemma {:induction false} ParagraphsConcat(a: seq<string>, b: seq<string>)
    requires a != [] && b != []
    ensures Paragraphs(a + b) == Paragraphs(a) + "\n\n" + Paragraphs(b)
  {
    var n := |b| - 1;
    assert (a + b)[..|a| + n] == a + b[..n];
    if n == 0 {
      assert a + b[..n] == a;
    } else {
      ParagraphsConcat(a, b[..n]);
      var x, y, z := Paragraphs(a), Paragraphs(b[..n]), b[n];
      assert x + "\n\n" + y + "\n\n" + z == x + "\n\n" + (y + "\n\n" + z);
    }
  }

  /** Joining what is made of texts of the class gives what is made of texts of the class. */
  lemma {:induction false} JoinedIsMadeOf(parts: seq<string>, texts: seq<string>, class_: set<int>)
    requires forall k :: 0 <= k < |parts| ==> parts[k] != "" && MadeOf(parts[k], texts, class_)
    ensures MadeOf(Paragraphs(parts), texts, class_)
  {
    if parts == [] {
      assert TextsOfMembers([], texts, class_);
    } else if |parts| > 1 {
      var n := |parts| - 1;
      JoinedIsMadeOf(parts[..n], texts, class_);
      assert Paragraphs(parts[..n]) != "";
      TwoAreMadeOf(Paragraphs(parts[..n]), parts[n], texts, class_);
    }
  }

  lemma TwoAreMadeOf(a: string, b: string, texts: seq<string>, class_: set<int>)
    requires a != "" && b != "" && MadeOf(a, texts, class_) && MadeOf(b, texts, class_)
    ensures MadeOf(a + "\n\n" + b, texts, class_)
  {
    var p :| TextsOfMembers(p, texts, class_) && a == Paragraphs(p);
    var q :| TextsOfMembers(q, texts, class_) && b == Paragraphs(q);
    ParagraphsConcat(p, q);
    assert TextsOfMembers(p + q, texts, class_);
  }

  /** The texts at these places, one after the other. */
  function TextsAt(texts: seq<string>, group: seq<int>): (r: seq<string>)
    requires forall j :: 0 <= j < |group| ==> 0 <= group[j] < |texts|
    ensures |r| == |group|
    ensures forall j :: 0 <= j < |r| ==> r[j] == texts[group[j]]
  {
    seq(|group|, j requires 0 <= j < |group| => texts[group[j]])
  }

  lemma OneMoreText(texts: seq<string>, group: seq<int>, k: nat, fold: char -> char)
    requires k < |group| && forall j :: 0 <= j < |group| ==> 0 <= group[j] < |texts|
    ensures Uniques(TextsAt(texts, group[..k + 1]), fold) ==
            UniqueText(Uniques(TextsAt(texts, group[..k]), fold), texts[group[k]], fold)
  {
    var longer := TextsAt(texts, group[..k + 1]);
    assert longer[..k] == TextsAt(texts, group[..k]) && longer[k] == texts[group[k]];
  }

  /** Joining the kept texts of a group loses none of them and invents none. */
  lemma GroupMergesTexts(texts: seq<string>, group: seq<int>, fold: char -> char)
    requires forall j :: 0 <= j < |group| ==> 0 <= group[j] < |texts|
    ensures MergesTexts(Paragraphs(Uniques(TextsAt(texts, group), fold)), texts, Elements(group), fold)
  {
    var members := TextsAt(texts, group);
    var parts := Uniques(members, fold);
    var positions := UniquesAreFirst(members, fold);
    forall k | 0 <= k < |parts|
      ensures TextOfMember(parts[k], texts, Elements(group))
    {
      assert FirstAt(members, positions[k], fold);
      assert group[positions[k]] in Elements(group);
    }
    assert TextsOfMembers(parts, texts, Elements(group));
    ParagraphsTrimmed(parts, texts, Elements(group));
    forall i | i in Elements(group) && 0 <= i < |texts| && !Blank(texts[i])
      ensures HasParagraph(Paragraphs(parts), TrimSpace(texts[i]), fold)
    {
      var j :| 0 <= j < |group| && group[j] == i;
      var p := PartOf(parts, positions, members, fold, j);
      PartIsParagraph(parts, p, fold);
      HasItself(parts[p], TrimSpace(texts[i]), fold);
      HasTransitive(Paragraphs(parts), parts[p], TrimSpace(texts[i]), fold);
    }
  }

  lemma ParagraphFits(text: string, part: string, fold: char -> char)
    ensures HasParagraph(text, part, fold) ==> |part| <= |text|
  {
  }

  /** A merged text is empty exactly when the class has no text. */
  lemma MergedBlank(text: string, texts: seq<string>, class_: set<int>, fold: char -> char)
    requires MergesTexts(text, texts, class_, fold)
    ensures Blank(text) ==> text == ""
    ensures Blank(text) <==> forall i :: i in class_ && 0 <= i < |texts| ==> Blank(texts[i])
  {
    if text == "" {
      forall i | i in class_ && 0 <= i < |texts|
        ensures Blank(texts[i])
      {
        ParagraphFits(text, TrimSpace(texts[i]), fold);
      }
    } else {
      TrimSpaceOfTrimmed(text);
      var parts :| TextsOfMembers(parts, texts, class_) && text == Paragraphs(parts);
      assert parts != [];
      assert TextOfMember(parts[0], texts, class_);
    }
  }

  // ----- merging merged texts

  /** Text j of a pass: the one text of its class, or the merged texts of the class. */
  ghost predicate TextOfClass(text: string, texts: seq<string>, leader: int, class_: set<int>, fold: char -> char) {
    if class_ == {leader} then 0 <= leader < |texts| && text == texts[leader]
    else MergesTexts(text, texts, class_, fold)
  }

  /** `part`, not blank, is the trimmed text of a class. */
  lemma ClassTextIsMadeOf(text: string, texts: seq<string>, leader: int, class_: set<int>, union: set<int>,
                          fold: char -> char)
    requires TextOfClass(text, texts, leader, class_, fold) && class_ <= union && !Blank(text)
    ensures MadeOf(TrimSpace(text), texts, union)
  {
    var parts: seq<string>;
    if class_ == {leader} {
      parts := [TrimSpace(text)];
      assert leader in union;
    } else {
      TrimSpaceOfTrimmed(text);
      parts :| TextsOfMembers(parts, texts, class_) && text == Paragraphs(parts);
    }
    forall k | 0 <= k < |parts|
      ensures TextOfMember(parts[k], texts, union)
    {
      assert class_ != {leader} ==> TextOfMember(parts[k], texts, class_);
    }
    assert TextsOfMembers(parts, texts, union);
  }

  lemma ClassTextHolds(whole: string, text: string, texts: seq<string>, leader: int, class_: set<int>, i: int,
                       fold: char -> char)
    requires TextOfClass(text, texts, leader, class_, fold) && i in class_ && 0 <= i < |texts| && !Blank(texts[i])
    requires !Blank(text) ==> HasParagraph(whole, TrimSpace(text), fold)
    ensures HasParagraph(whole, TrimSpace(texts[i]), fold)
  {
    if class_ != {leader} {
      MergedBlank(text, texts, class_, fold);
      TrimSpaceOfTrimmed(text);
      HasTransitive(whole, text, TrimSpace(texts[i]), fold);
    }
  }

  /** The classes' texts, and the union of the chosen classes. */
  ghost predicate TextsOfClasses(b: seq<string>, a: seq<string>, leaders: seq<int>, classes: seq<set<int>>,
                                 fold: char -> char)
  {
    && |b| == |leaders| == |classes|
    && forall j :: 0 <= j < |b| ==> TextOfClass(b[j], a, leaders[j], classes[j], fold)
  }

  /** Merging merged texts again loses and invents nothing either. */
  lemma MergedAgain(a: seq<string>, b: seq<string>, leaders: seq<int>, classes: seq<set<int>>, chosen: set<int>,
                    union: set<int>, text: string, fold: char -> char)
    requires TextsOfClasses(b, a, leaders, classes, fold) && MergesTexts(text, b, chosen, fold)
    requires forall j :: j in chosen ==> 0 <= j < |b|
    requires forall j :: j in chosen ==> classes[j] <= union
    requires forall i :: i in union ==> exists j :: j in chosen && i in classes[j]
    ensures MergesTexts(text, a, union, fold)
  {
    forall i | i in union && 0 <= i < |a| && !Blank(a[i])
      ensures HasParagraph(text, TrimSpace(a[i]), fold)
    {
      var j :| j in chosen && i in classes[j];
      ClassTextHolds(text, b[j], a, leaders[j], classes[j], i, fold);
    }
    var parts :| TextsOfMembers(parts, b, chosen) && text == Paragraphs(parts);
    forall k | 0 <= k < |parts|
      ensures parts[k] != "" && MadeOf(parts[k], a, union)
    {
      assert TextOfMember(parts[k], b, chosen);
      var j :| j in chosen && 0 <= j < |b| && parts[k] == TrimSpace(b[j]) && parts[k] != "";
      ClassTextIsMadeOf(b[j], a, leaders[j], classes[j], union, fold);
    }
    JoinedIsMadeOf(parts, a, union);
  }
}
