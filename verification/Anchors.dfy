/**
 The safety check of proposed merges: `hasConcreteSharedAnchor` and `genericMergeAnchor` of
 internal/summary/llm/openai.go.
 */
module Anchors {
  import opened Sequences

  /** First letters of words too general to name one story. */
  const GENERIC_PREFIXES: seq<string> := [
    "верси", "видео", "выпуск", "интернет", "компан", "контент", "культур",
    "мем", "модел", "нов", "обновлен", "пост", "проект", "релиз",
    "сарказм", "сатир", "сериал", "сообщен", "тем", "юмор"]

  predicate At(s: string, i: int, part: string) {
    0 <= i <= |s| - |part| && s[i..i + |part|] == part
  }

  /** `strings.Contains`. */
  ghost predicate Contains(s: string, part: string) {
    exists i :: At(s, i, part)
  }

  method StringsContains(s: string, part: string) returns (found: bool)
    ensures found <==> Contains(s, part)
  {
    var i := 0;
    while i + |part| <= |s|
      invariant forall j :: j < i ==> !At(s, j, part)
    {
      if s[i..i + |part|] == part {
        assert At(s, i, part);
        return true;
      }
      i := i + 1;
    }
    return false;
  }

  /** The words of `front` with one more character behind it. */
  function NextWord(front: string, c: char, words: seq<string>, wordRune: char -> bool): seq<string>
    requires front != "" && wordRune(front[|front| - 1]) ==> words != []
  {
    if !wordRune(c) then words
    else if front != "" && wordRune(front[|front| - 1]) then words[..|words| - 1] + [words[|words| - 1] + [c]]
    else words + [[c]]
  }

  /** `strings.FieldsFunc`: the longest runs of letters and digits. */
  function Words(s: string, wordRune: char -> bool): (words: seq<string>)
    ensures s != "" && wordRune(s[|s| - 1]) ==> words != []
  {
    if s == "" then []
    else
      var front, c := s[..|s| - 1], s[|s| - 1];
      NextWord(front, c, Words(front, wordRune), wordRune)
  }

  predicate GenericWord(word: string) {
    exists k :: 0 <= k < |GENERIC_PREFIXES| && GENERIC_PREFIXES[k] <= word
  }

  /** Every word of the anchor is general, or it has none. */
  predicate GenericAnchor(anchor: string, wordRune: char -> bool) {
    forall k :: 0 <= k < |Words(anchor, wordRune)| ==> GenericWord(Words(anchor, wordRune)[k])
  }

  method GenericMergeAnchor(anchor: string, wordRune: char -> bool) returns (generic: bool)
    ensures generic <==> GenericAnchor(anchor, wordRune)
  {
    var words := Words(anchor, wordRune);
    if |words| == 0 {
      return true;
    }
    for k := 0 to |words|
      invariant forall j :: 0 <= j < k ==> GenericWord(words[j])
    {
      var isGeneric := false;
      for p := 0 to |GENERIC_PREFIXES|
        invariant !isGeneric && forall q :: 0 <= q < p ==> !(GENERIC_PREFIXES[q] <= words[k])
      {
        if GENERIC_PREFIXES[p] <= words[k] {
          isGeneric := true;
          break;
        }
      }
      if !isGeneric {
        return false;
      }
    }
    return true;
  }

  predicate Concrete(anchor: string, wordRune: char -> bool) {
    |anchor| >= 4 && !GenericAnchor(anchor, wordRune)
  }

  /** Runs of word characters are single words. */
  lemma {:induction false} OneWord(s: string, wordRune: char -> bool)
    requires s != "" && forall i :: 0 <= i < |s| ==> wordRune(s[i])
    ensures Words(s, wordRune) == [s]
  {
    var front := s[..|s| - 1];
    SplitLast(s);
    if front != "" {
      OneWord(front, wordRune);
    }
  }

  /** Any other character separates words and belongs to none. */
  lemma {:induction false} WordsApart(a: string, c: char, b: string, wordRune: char -> bool)
    requires !wordRune(c)
    ensures Words(a + [c] + b, wordRune) == Words(a, wordRune) + Words(b, wordRune)
  {
    if b == "" {
      assert a + [c] + b == a + [c] && (a + [c])[..|a|] == a;
    } else {
      var front, last := b[..|b| - 1], b[|b| - 1];
      var whole := a + [c] + b;
      WordsApart(a, c, front, wordRune);
      assert whole[..|whole| - 1] == a + [c] + front;
      NextWordApart(a, c, front, last, Words(a, wordRune), Words(front, wordRune), wordRune);
    }
  }

  lemma NextWordApart(a: string, c: char, front: string, last: char, before: seq<string>, words: seq<string>,
                      wordRune: char -> bool)
    requires !wordRune(c) && (front != "" && wordRune(front[|front| - 1]) ==> words != [])
    ensures NextWord(a + [c] + front, last, before + words, wordRune) ==
            before + NextWord(front, last, words, wordRune)
  {
    var longer := a + [c] + front;
    assert front != "" ==> longer[|longer| - 1] == front[|front| - 1];
    assert front == "" ==> longer[|longer| - 1] == c;
  }

  lemma PrefixesAreCyrillic(k: nat)
    requires k < |GENERIC_PREFIXES|
    ensures GENERIC_PREFIXES[k] != "" && GENERIC_PREFIXES[k][0] >= 'в'
  {
  }

  lemma LatinIsNotGeneric(word: string)
    requires word != "" && word[0] <= 'z'
    ensures !GenericWord(word)
  {
    forall k | 0 <= k < |GENERIC_PREFIXES|
      ensures !(GENERIC_PREFIXES[k] <= word)
    {
      PrefixesAreCyrillic(k);
    }
  }
}
