/** Line normalisation of message text: `Normalize` of internal/summary/filter/filter.go. */
module Normalization {
  import opened Sequences
  import opened Text

  // ----- the library calls

  /** `strings.ReplaceAll(s, "\r\n", "\n")`. */
  function UnixLines(s: string): string {
    if s == "" then ""
    else if |s| >= 2 && s[0] == '\r' && s[1] == '\n' then "\n" + UnixLines(s[2..])
    else [s[0]] + UnixLines(s[1..])
  }

  /** `strings.Split(s, "\n")`. */
  function SplitLines(s: string): (lines: seq<string>)
    ensures lines != []
  {
    if s == "" then [""]
    else
      var lines, c := SplitLines(s[..|s| - 1]), s[|s| - 1];
      if c == '\n' then lines + [""] else lines[..|lines| - 1] + [lines[|lines| - 1] + [c]]
  }

  /** `strings.Join(lines, "\n")`. */
  function JoinLines(lines: seq<string>): string {
    if lines == [] then ""
    else if |lines| == 1 then lines[0]
    else JoinLines(lines[..|lines| - 1]) + "\n" + lines[|lines| - 1]
  }

  predicate SpaceOrTab(c: char) {
    c == ' ' || c == '\t'
  }

  /** `spacePattern.ReplaceAllString(line, " ")`: each run of spaces and tabs becomes one space. */
  function Collapse(line: string): string {
    if line == "" then ""
    else
      var front, c := line[..|line| - 1], line[|line| - 1];
      if !SpaceOrTab(c) then Collapse(front) + [c]
      else if front != "" && SpaceOrTab(front[|front| - 1]) then Collapse(front)
      else Collapse(front) + " "
  }

  // ----- normalisation

  /** `strings.TrimSpace(strings.Join(nonEmpty(text, caption), "\n\n"))`. */
  function Content(text: string, caption: string): string {
    var t, c := TrimSpace(text), TrimSpace(caption);
    TrimSpace(if t != "" && c != "" then t + "\n\n" + c else t + c)
  }

  function TidyLine(line: string): string {
    TrimSpace(Collapse(line))
  }

  /** A footer line: matched by the pattern and shorter than 120 runes. */
  predicate IsFooter(pattern: string -> bool, line: string) {
    pattern(line) && |line| < 120
  }

  /** The lines kept: footers dropped, blank lines never first nor doubled. */
  function KeptLines(lines: seq<string>, pattern: string -> bool): seq<string> {
    if lines == [] then []
    else
      KeptWith(KeptLines(lines[..|lines| - 1], pattern), TidyLine(lines[|lines| - 1]), pattern)
  }

  /** One more tidied line. */
  function KeptWith(kept: seq<string>, line: string, pattern: string -> bool): seq<string> {
    if line == "" then if kept != [] && kept[|kept| - 1] != "" then kept + [""] else kept
    else if IsFooter(pattern, line) then kept
    else kept + [line]
  }

  predicate HasFooter(lines: seq<string>, pattern: string -> bool) {
    exists i :: 0 <= i < |lines| && TidyLine(lines[i]) != "" && IsFooter(pattern, TidyLine(lines[i]))
  }

  function Normalized(text: string, caption: string, pattern: string -> bool): (string, bool) {
    var content := Content(text, caption);
    if content == "" then ("", false)
    else
      var lines := SplitLines(UnixLines(content));
      (TrimSpace(JoinLines(KeptLines(lines, pattern))), HasFooter(lines, pattern))
  }

  lemma KeepOneMore(lines: seq<string>, i: nat, pattern: string -> bool)
    requires i < |lines|
    ensures var line := TidyLine(lines[i]);
            && KeptLines(lines[..i + 1], pattern) == KeptWith(KeptLines(lines[..i], pattern), line, pattern)
            && (HasFooter(lines[..i + 1], pattern) <==>
                HasFooter(lines[..i], pattern) || (line != "" && IsFooter(pattern, line)))
  {
    assert lines[..i + 1][..i] == lines[..i];
    FooterSnoc(lines[..i + 1], pattern);
  }

  method Normalize(text: string, caption: string, pattern: string -> bool)
    returns (content: string, footerRemoved: bool)
    ensures (content, footerRemoved) == Normalized(text, caption, pattern)
    ensures KeepsLines(text, caption, pattern, content, footerRemoved)
  {
    NormalizeKeepsLines(text, caption, pattern);
    content, footerRemoved := Content(text, caption), false;
    if content == "" {
      return;
    }
    var lines := SplitLines(UnixLines(content));
    var normalized;
    normalized, footerRemoved := NormalizeLines(lines, pattern);
    content := TrimSpace(JoinLines(normalized));
  }

  /** The loop of `Normalize`. */
  method NormalizeLines(lines: seq<string>, pattern: string -> bool)
    returns (normalized: seq<string>, footerRemoved: bool)
    ensures normalized == KeptLines(lines, pattern) && footerRemoved == HasFooter(lines, pattern)
  {
    normalized, footerRemoved := [], false;
    for i := 0 to |lines|
      invariant normalized == KeptLines(lines[..i], pattern)
      invariant footerRemoved == HasFooter(lines[..i], pattern)
    {
      KeepOneMore(lines, i, pattern);
      var line := TidyLine(lines[i]);
      if line == "" {
        if |normalized| > 0 && normalized[|normalized| - 1] != "" {
          normalized := normalized + [""];
        }
        continue;
      }
      if IsFooter(pattern, line) {
        footerRemoved := true;
        continue;
      }
      normalized := normalized + [line];
    }
    assert lines[..|lines|] == lines;
  }

  lemma FooterSnoc(lines: seq<string>, pattern: string -> bool)
    requires lines != []
    ensures var line := TidyLine(lines[|lines| - 1]);
            HasFooter(lines, pattern) <==>
            HasFooter(lines[..|lines| - 1], pattern) || (line != "" && IsFooter(pattern, line))
  {
    var n := |lines| - 1;
    if i :| 0 <= i < |lines| && TidyLine(lines[i]) != "" && IsFooter(pattern, TidyLine(lines[i])) {
      assert i < n ==> lines[..n][i] == lines[i];
    }
    if i :| 0 <= i < n && TidyLine(lines[..n][i]) != "" && IsFooter(pattern, TidyLine(lines[..n][i])) {
      assert lines[i] == lines[..n][i];
    }
  }

  // ----- no line is lost and none is invented

  /** The two texts meet in the middle of a run of spaces and tabs. */
  predicate Meet(a: string, b: string) {
    a != "" && b != "" && SpaceOrTab(a[|a| - 1]) && SpaceOrTab(b[0])
  }

  lemma CollapseOne(c: char)
    ensures Collapse([c]) == if SpaceOrTab(c) then " " else [c]
  {
    assert [c][..0] == "";
  }

  lemma {:induction false} CollapseStart(s: string)
    requires s != ""
    ensures Collapse(s) != "" && Collapse(s)[0] == if SpaceOrTab(s[0]) then ' ' else s[0]
  {
    if |s| > 1 {
      CollapseStart(s[..|s| - 1]);
    }
  }

  /** Collapsing works piece by piece: only a run that spans both pieces loses a space. */
  lemma {:induction false} CollapseConcat(a: string, b: string)
    ensures b != "" ==> Collapse(b) != ""
    ensures Collapse(a + b) == Collapse(a) + if Meet(a, b) then Collapse(b)[1..] else Collapse(b)
  {
    if b == "" {
      assert a + b == a;
    } else {
      var front, c := b[..|b| - 1], b[|b| - 1];
      CollapseStart(b);
      assert (a + b)[..|a + b| - 1] == a + front;
      if front == "" {
        CollapseOne(c);
        assert a + front == a && b == [c];
      } else {
        CollapseStart(front);
        CollapseConcat(a, front);
      }
    }
  }

  /** White space at the end of a line does not matter to the tidied line. */
  lemma TidyOfPadded(line: string, c: char)
    requires IsSpace(c)
    ensures TidyLine([c] + line) == TidyLine(line) == TidyLine(line + [c])
  {
    CollapseOne(c);
    CollapseConcat([c], line);
    CollapseConcat(line, [c]);
    var d := Collapse([c])[0];
    TrimSpaceOfPadded(Collapse(line), d);
    if line != "" {
      CollapseStart(line);
    }
  }

  /** The tidied lines that are not blank. */
  function Texts(lines: seq<string>): seq<string> {
    if lines == [] then []
    else
      var line := TidyLine(lines[|lines| - 1]);
      Texts(lines[..|lines| - 1]) + if line != "" then [line] else []
  }

  /** The lines of a text as they stand, without the blank ones. */
  function NonBlank(lines: seq<string>): seq<string> {
    if lines == [] then []
    else NonBlank(lines[..|lines| - 1]) + if lines[|lines| - 1] != "" then [lines[|lines| - 1]] else []
  }

  /** The texts that are not footers: a footer matches the pattern and has fewer than 120 runes. */
  function WithoutFooters(texts: seq<string>, pattern: string -> bool): seq<string> {
    if texts == [] then []
    else
      var last := texts[|texts| - 1];
      WithoutFooters(texts[..|texts| - 1], pattern) + if pattern(last) && |last| < 120 then [] else [last]
  }

  lemma {:induction false} TextsConcat(a: seq<string>, b: seq<string>)
    ensures Texts(a + b) == Texts(a) + Texts(b)
  {
    if b == [] {
      assert a + b == a;
    } else {
      assert (a + b)[..|a + b| - 1] == a + b[..|b| - 1];
      TextsConcat(a, b[..|b| - 1]);
    }
  }

  lemma {:induction false} SameTidied(a: seq<string>, b: seq<string>)
    requires |a| == |b| && forall i :: 0 <= i < |a| ==> TidyLine(a[i]) == TidyLine(b[i])
    ensures Texts(a) == Texts(b)
  {
    if a != [] {
      SameTidied(a[..|a| - 1], b[..|b| - 1]);
    }
  }

  /** The lines of a text with one more character at its end, or at its start. */
  function AppendChar(lines: seq<string>, c: char): seq<string>
    requires lines != []
  {
    if c == '\n' then lines + [""] else lines[..|lines| - 1] + [lines[|lines| - 1] + [c]]
  }

  function PrependChar(c: char, lines: seq<string>): seq<string>
    requires lines != []
  {
    if c == '\n' then [""] + lines else [[c] + lines[0]] + lines[1..]
  }

  lemma SplitSnoc(s: string, c: char)
    ensures SplitLines(s + [c]) == AppendChar(SplitLines(s), c)
  {
    assert (s + [c])[..|s|] == s;
  }

  lemma AppendToConcat(a: seq<string>, b: seq<string>, c: char)
    requires b != []
    ensures AppendChar(a + b, c) == a + AppendChar(b, c)
  {
  }

  lemma {:induction false} SplitConcat(a: string, b: string)
    ensures SplitLines(a + "\n" + b) == SplitLines(a) + SplitLines(b)
  {
    if b == "" {
      assert a + "\n" + b == a + ['\n'];
      SplitSnoc(a, '\n');
    } else {
      var front, c := b[..|b| - 1], b[|b| - 1];
      SplitConcat(a, front);
      SplitSnoc(a + "\n" + front, c);
      SplitSnoc(front, c);
      AppendToConcat(SplitLines(a), SplitLines(front), c);
      assert b == front + [c];
      Associative(a + "\n", front, [c]);
    }
  }

  lemma PrependAppend(c: char, lines: seq<string>, d: char)
    requires lines != []
    ensures AppendChar(PrependChar(c, lines), d) == PrependChar(c, AppendChar(lines, d))
  {
    if |lines| == 1 && c != '\n' && d != '\n' {
      Associative([c], lines[0], [d]);
    }
  }

  lemma SplitOneChar(c: char)
    ensures SplitLines([c]) == PrependChar(c, SplitLines(""))
  {
    SplitSnoc("", c);
    assert "" + [c] == [c] == [c] + "";
    assert PrependChar(c, [""]) == AppendChar([""], c);
  }

  lemma {:induction false} SplitCons(c: char, s: string)
    ensures SplitLines([c] + s) == PrependChar(c, SplitLines(s))
  {
    if s == "" {
      SplitOneChar(c);
      assert [c] + s == [c];
    } else {
      var front, d := s[..|s| - 1], s[|s| - 1];
      SplitCons(c, front);
      SplitConsStep(c, front, d);
      HeadAndLast(s);
    }
  }

  lemma SplitConsStep(c: char, front: string, d: char)
    requires SplitLines([c] + front) == PrependChar(c, SplitLines(front))
    ensures SplitLines([c] + (front + [d])) == PrependChar(c, SplitLines(front + [d]))
  {
    SplitSnoc([c] + front, d);
    SplitSnoc(front, d);
    PrependAppend(c, SplitLines(front), d);
    Associative([c], front, [d]);
  }

  lemma BlankLineAdded(lines: seq<string>)
    ensures Texts([""] + lines) == Texts(lines) == Texts(lines + [""])
  {
    assert TidyLine("") == "" && [""][..0] == [] && Texts([]) == [];
    TextsConcat([""], lines);
    TextsConcat(lines, [""]);
  }

  lemma PrependedPad(lines: seq<string>, c: char)
    requires IsSpace(c) && lines != []
    ensures Texts(PrependChar(c, lines)) == Texts(lines)
  {
    if c == '\n' {
      BlankLineAdded(lines);
    } else {
      var longer := PrependChar(c, lines);
      TidyOfPadded(lines[0], c);
      forall i | 0 <= i < |lines|
        ensures TidyLine(longer[i]) == TidyLine(lines[i])
      {
        assert i > 0 ==> longer[i] == lines[i];
      }
      SameTidied(longer, lines);
    }
  }

  lemma AppendedPad(lines: seq<string>, c: char)
    requires IsSpace(c) && lines != []
    ensures Texts(AppendChar(lines, c)) == Texts(lines)
  {
    if c == '\n' {
      BlankLineAdded(lines);
    } else {
      var longer, n := AppendChar(lines, c), |lines| - 1;
      TidyOfPadded(lines[n], c);
      forall i | 0 <= i < |lines|
        ensures TidyLine(longer[i]) == TidyLine(lines[i])
      {
        assert i < n ==> longer[i] == lines[i];
      }
      SameTidied(longer, lines);
    }
  }

  /** One white-space character at an end of a text changes none of its texts. */
  lemma SplitOfPadded(s: string, c: char)
    requires IsSpace(c)
    ensures Texts(SplitLines([c] + s)) == Texts(SplitLines(s)) == Texts(SplitLines(s + [c]))
  {
    SplitCons(c, s);
    SplitSnoc(s, c);
    PrependedPad(SplitLines(s), c);
    AppendedPad(SplitLines(s), c);
  }

  /** Adding `s[0]` in front of the rest, and the last character behind it. */
  lemma SplitOfEnds(s: string)
    requires s != ""
    ensures IsSpace(s[0]) ==> Texts(SplitLines(s)) == Texts(SplitLines(s[1..]))
    ensures IsSpace(s[|s| - 1]) ==> Texts(SplitLines(s)) == Texts(SplitLines(s[..|s| - 1]))
  {
    if IsSpace(s[0]) { SplitOfPadded(s[1..], s[0]); }
    if IsSpace(s[|s| - 1]) { SplitOfPadded(s[..|s| - 1], s[|s| - 1]); }
    HeadAndLast(s);
  }

  lemma HeadAndLast(s: string)
    requires s != ""
    ensures s == [s[0]] + s[1..] == s[..|s| - 1] + [s[|s| - 1]]
  {
  }

  lemma {:induction false} TrimLeftKeepsTexts(s: string)
    ensures Texts(SplitLines(TrimLeft(s))) == Texts(SplitLines(s))
  {
    if s != "" && IsSpace(s[0]) {
      SplitOfEnds(s);
      TrimLeftKeepsTexts(s[1..]);
    }
  }

  lemma {:induction false} TrimRightKeepsTexts(s: string)
    ensures Texts(SplitLines(TrimRight(s))) == Texts(SplitLines(s))
  {
    if s != "" && IsSpace(s[|s| - 1]) {
      SplitOfEnds(s);
      TrimRightKeepsTexts(s[..|s| - 1]);
    }
  }

  lemma TrimSpaceKeepsTexts(s: string)
    ensures Texts(SplitLines(TrimSpace(s))) == Texts(SplitLines(s))
  {
    TrimLeftKeepsTexts(s);
    TrimRightKeepsTexts(TrimLeft(s));
  }

  /** Two texts with an empty line between them have the texts of both. */
  lemma ParagraphsKeepTexts(t: string, c: string)
    ensures Texts(SplitLines(t + "\n\n" + c)) == Texts(SplitLines(t)) + Texts(SplitLines(c))
  {
    SplitSnoc(t, '\n');
    SplitConcat(t + ['\n'], c);
    assert t + "\n\n" + c == t + ['\n'] + "\n" + c;
    BlankLineAdded(SplitLines(t));
    TextsConcat(SplitLines(t + ['\n']), SplitLines(c));
  }

  /** Text and caption one below the other have the texts of both. */
  lemma ContentKeepsTexts(text: string, caption: string)
    ensures Texts(SplitLines(Content(text, caption))) == Texts(SplitLines(text)) + Texts(SplitLines(caption))
  {
    var t, c := TrimSpace(text), TrimSpace(caption);
    TrimSpaceKeepsTexts(text);
    TrimSpaceKeepsTexts(caption);
    NoTexts();
    TrimSpaceKeepsTexts(t + "\n\n" + c);
    ParagraphsKeepTexts(t, c);
    TrimSpaceKeepsTexts(t + c);
    assert t == "" ==> t + c == c;
    assert c == "" ==> t + c == t;
  }

  lemma NoTexts()
    ensures Texts(SplitLines("")) == []
  {
    assert TidyLine("") == "" && [""][..0] == [];
  }

  /** The lines are the same but for carriage returns at their ends. */
  predicate UpToReturn(unix: seq<string>, lines: seq<string>) {
    |unix| == |lines| && forall i :: 0 <= i < |unix| ==> lines[i] == unix[i] || lines[i] == unix[i] + "\r"
  }

  lemma {:induction false} UnixUpToReturn(s: string)
    ensures UpToReturn(SplitLines(UnixLines(s)), SplitLines(s))
    decreases |s|
  {
    if s == "" {
    } else if |s| >= 2 && s[0] == '\r' && s[1] == '\n' {
      UnixUpToReturn(s[2..]);
      ReturnStep(UnixLines(s[2..]), s[2..]);
      assert s == ['\r'] + (['\n'] + s[2..]);
    } else {
      UnixUpToReturn(s[1..]);
      SplitCons(s[0], UnixLines(s[1..]));
      SplitCons(s[0], s[1..]);
      HeadAndLast(s);
      ConsUpToReturn(s[0], SplitLines(UnixLines(s[1..])), SplitLines(s[1..]));
    }
  }

  lemma ReturnStep(unix: string, rest: string)
    requires UpToReturn(SplitLines(unix), SplitLines(rest))
    ensures UpToReturn(SplitLines("\n" + unix), SplitLines(['\r'] + (['\n'] + rest)))
  {
    SplitCons('\n', unix);
    assert "\n" + unix == ['\n'] + unix;
    SplitCons('\n', rest);
    SplitCons('\r', ['\n'] + rest);
    assert ['\r'] + "" == "" + "\r";
  }

  lemma ConsUpToReturn(c: char, unix: seq<string>, lines: seq<string>)
    requires UpToReturn(unix, lines) && lines != []
    ensures UpToReturn(PrependChar(c, unix), PrependChar(c, lines))
  {
    assert [c] + (unix[0] + "\r") == [c] + unix[0] + "\r";
  }

  lemma UnixKeepsTexts(s: string)
    ensures Texts(SplitLines(UnixLines(s))) == Texts(SplitLines(s))
  {
    var unix, lines := SplitLines(UnixLines(s)), SplitLines(s);
    UnixUpToReturn(s);
    forall i | 0 <= i < |lines|
      ensures TidyLine(unix[i]) == TidyLine(lines[i])
    {
      TidyOfPadded(unix[i], '\r');
    }
    SameTidied(unix, lines);
  }

  lemma {:induction false} KeptTexts(lines: seq<string>, pattern: string -> bool)
    ensures NonBlank(KeptLines(lines, pattern)) == WithoutFooters(Texts(lines), pattern)
    ensures HasFooter(lines, pattern) <==>
            exists line :: line in Texts(lines) && pattern(line) && |line| < 120
  {
    if lines != [] {
      var front, line := lines[..|lines| - 1], TidyLine(lines[|lines| - 1]);
      KeptTexts(front, pattern);
      FooterSnoc(lines, pattern);
      KeptOneMore(KeptLines(front, pattern), Texts(front), line, pattern);
    }
  }

  lemma KeptOneMore(kept: seq<string>, texts: seq<string>, line: string, pattern: string -> bool)
    requires NonBlank(kept) == WithoutFooters(texts, pattern)
    ensures NonBlank(KeptWith(kept, line, pattern)) ==
            WithoutFooters(texts + if line != "" then [line] else [], pattern)
  {
    assert forall x: string :: (kept + [x])[..|kept|] == kept;
    assert (texts + [line])[..|texts|] == texts;
    assert texts + [] == texts;
  }

  /**
   What normalising does to the lines of a message, exactly: those left are, in order,
   the tidied lines of the text and then of the caption that are neither blank nor
   footers, and a footer was removed when there was one.
   */
  ghost predicate KeepsLines(text: string, caption: string, pattern: string -> bool, content: string, removed: bool) {
    var texts := Texts(SplitLines(text)) + Texts(SplitLines(caption));
    && NonBlank(SplitLines(content)) == WithoutFooters(texts, pattern)
    && (removed <==> exists line :: line in texts && pattern(line) && |line| < 120)
  }

  // ----- what normalised text looks like

  /** Spaces are single and there are no tabs. */
  predicate SingleSpaced(line: string) {
    && (forall i :: 0 <= i < |line| ==> line[i] != '\t')
    && (forall i :: 0 < i < |line| ==> !(line[i - 1] == ' ' && line[i] == ' '))
  }

  predicate OneLine(line: string) {
    forall i :: 0 <= i < |line| ==> line[i] != '\n'
  }

  ghost predicate Tidy(line: string, pattern: string -> bool) {
    OneLine(line) && Trimmed(line) && SingleSpaced(line) && (line != "" ==> !IsFooter(pattern, line))
  }

  /** Tidy lines without a leading or doubled blank line. */
  ghost predicate TidyLines(lines: seq<string>, pattern: string -> bool) {
    && (forall i :: 0 <= i < |lines| ==> Tidy(lines[i], pattern))
    && (forall i :: 0 <= i < |lines| && lines[i] == "" ==> i > 0 && lines[i - 1] != "")
  }

  lemma {:induction false} CollapseIsSingleSpaced(line: string)
    ensures SingleSpaced(Collapse(line))
    ensures line != "" ==>
              Collapse(line) != "" && (Collapse(line)[|Collapse(line)| - 1] == ' ' <==> SpaceOrTab(line[|line| - 1]))
    ensures OneLine(line) ==> OneLine(Collapse(line))
  {
    if line != "" {
      CollapseIsSingleSpaced(line[..|line| - 1]);
    }
  }

  lemma {:induction false} CollapseOfSingleSpaced(line: string)
    requires SingleSpaced(line)
    ensures Collapse(line) == line
  {
    if line != "" {
      CollapseOfSingleSpaced(line[..|line| - 1]);
      SplitLast(line);
    }
  }

  /** Trimming keeps a middle part. */
  lemma {:induction false} TrimSpaceIsPart(s: string) returns (from: nat, to: nat)
    ensures from <= to <= |s| && TrimSpace(s) == s[from..to]
  {
    from := TrimLeftIsSuffix(s);
    TrimRightPrefix(TrimLeft(s));
    to := from + |TrimSpace(s)|;
    assert TrimSpace(s) == s[from..][..|TrimSpace(s)|];
  }

  lemma {:induction false} TrimLeftIsSuffix(s: string) returns (from: nat)
    ensures from <= |s| && TrimLeft(s) == s[from..]
  {
    if s != [] && IsSpace(s[0]) {
      from := TrimLeftIsSuffix(s[1..]);
      assert s[1..][from..] == s[from + 1..];
      from := from + 1;
    } else {
      from := 0;
    }
  }

  lemma TidyLineIsTidy(line: string)
    requires OneLine(line)
    ensures OneLine(TidyLine(line)) && Trimmed(TidyLine(line)) && SingleSpaced(TidyLine(line))
  {
    CollapseIsSingleSpaced(line);
    TrimSpaceIsTrimmed(Collapse(line));
    var from, to := TrimSpaceIsPart(Collapse(line));
  }

  lemma {:induction false} SplitIntoLines(s: string)
    ensures forall i :: 0 <= i < |SplitLines(s)| ==> OneLine(SplitLines(s)[i])
  {
    if s != "" {
      SplitIntoLines(s[..|s| - 1]);
    }
  }

  lemma KeepTidy(kept: seq<string>, line: string, pattern: string -> bool)
    requires TidyLines(kept, pattern) && Tidy(line, pattern) && (line == "" ==> kept != [] && kept[|kept| - 1] != "")
    ensures TidyLines(kept + [line], pattern)
  {
  }

  lemma {:induction false} KeptLinesAreTidy(lines: seq<string>, pattern: string -> bool)
    requires forall i :: 0 <= i < |lines| ==> OneLine(lines[i])
    ensures TidyLines(KeptLines(lines, pattern), pattern)
  {
    if lines != [] {
      var kept, line := KeptLines(lines[..|lines| - 1], pattern), TidyLine(lines[|lines| - 1]);
      KeptLinesAreTidy(lines[..|lines| - 1], pattern);
      TidyLineIsTidy(lines[|lines| - 1]);
      if (line == "" && kept != [] && kept[|kept| - 1] != "") || (line != "" && !IsFooter(pattern, line)) {
        KeepTidy(kept, line, pattern);
      }
    }
  }

  // ----- a second pass

  lemma {:induction false} SplitOfAppended(s: string, line: string)
    requires OneLine(line)
    ensures SplitLines(s + "\n" + line) == SplitLines(s) + [line]
  {
    var whole := s + "\n" + line;
    if line == "" {
      assert whole == s + "\n" && whole[..|whole| - 1] == s;
    } else {
      var n := |line| - 1;
      SplitOfAppended(s, line[..n]);
      assert whole[..|whole| - 1] == s + "\n" + line[..n];
      SplitLast(line);
    }
  }

  lemma {:induction false} SplitOfOne(line: string)
    requires OneLine(line)
    ensures SplitLines(line) == [line]
  {
    if line != "" {
      SplitOfOne(line[..|line| - 1]);
      SplitLast(line);
    }
  }

  /** Splitting undoes joining. */
  lemma {:induction false} SplitOfJoined(lines: seq<string>)
    requires lines != [] && forall i :: 0 <= i < |lines| ==> OneLine(lines[i])
    ensures SplitLines(JoinLines(lines)) == lines
  {
    var n := |lines| - 1;
    if n == 0 {
      SplitOfOne(lines[0]);
    } else {
      SplitOfJoined(lines[..n]);
      SplitOfAppended(JoinLines(lines[..n]), lines[n]);
      SplitLast(lines);
    }
  }

  lemma {:induction false} KeptLinesOfTidy(lines: seq<string>, pattern: string -> bool)
    requires TidyLines(lines, pattern)
    ensures KeptLines(lines, pattern) == lines
  {
    if lines != [] {
      var n := |lines| - 1;
      KeptLinesOfTidy(lines[..n], pattern);
      TidyLineOfTidy(lines[n], pattern);
      SplitLast(lines);
    }
  }

  lemma TidyLineOfTidy(line: string, pattern: string -> bool)
    requires Tidy(line, pattern)
    ensures TidyLine(line) == line
  {
    CollapseOfSingleSpaced(line);
    TrimSpaceOfTrimmed(line);
  }

  predicate NoCarriageReturnAtLineEnd(s: string) {
    forall i :: 0 < i < |s| ==> !(s[i - 1] == '\r' && s[i] == '\n')
  }

  lemma {:induction false} UnixLinesOfUnix(s: string)
    requires NoCarriageReturnAtLineEnd(s)
    ensures UnixLines(s) == s
  {
    if s != "" {
      UnixLinesOfUnix(s[1..]);
      assert |s| >= 2 ==> !(s[1 - 1] == '\r' && s[1] == '\n');
    }
  }

  lemma {:induction false} JoinedIsUnix(lines: seq<string>)
    requires forall i :: 0 <= i < |lines| ==> OneLine(lines[i]) && Trimmed(lines[i])
    ensures NoCarriageReturnAtLineEnd(JoinLines(lines))
    ensures JoinLines(lines) == "" || JoinLines(lines)[|JoinLines(lines)| - 1] != '\r'
  {
    if |lines| > 1 {
      JoinedIsUnix(lines[..|lines| - 1]);
    }
  }

  /** Tidy lines that end in text, or none at all. */
  ghost predicate TidyText(lines: seq<string>, pattern: string -> bool) {
    TidyLines(lines, pattern) && (lines != [] ==> lines[|lines| - 1] != "")
  }

  /** Such a text has no white space at its ends. */
  lemma {:induction false} JoinedIsTrimmed(lines: seq<string>, pattern: string -> bool)
    requires TidyText(lines, pattern)
    ensures Trimmed(JoinLines(lines)) && (lines != [] ==> JoinLines(lines) != "")
  {
    if lines != [] {
      JoinedStart(lines, pattern);
    }
  }

  lemma {:induction false} JoinedStart(lines: seq<string>, pattern: string -> bool)
    requires TidyLines(lines, pattern) && lines != []
    ensures JoinLines(lines) != "" && JoinLines(lines)[0] == lines[0][0] && !IsSpace(lines[0][0])
  {
    if |lines| > 1 {
      JoinedStart(lines[..|lines| - 1], pattern);
    }
  }

  /** Trimming the joined lines drops at most a blank last line. */
  lemma TrimmedText(lines: seq<string>, pattern: string -> bool) returns (text: seq<string>)
    requires TidyLines(lines, pattern)
    ensures TidyText(text, pattern) && TrimSpace(JoinLines(lines)) == JoinLines(text)
    ensures NonBlank(text) == NonBlank(lines)
  {
    if lines == [] || lines[|lines| - 1] != "" {
      text := lines;
      JoinedIsTrimmed(text, pattern);
      TrimSpaceOfTrimmed(JoinLines(text));
    } else {
      var n := |lines| - 1;
      text := lines[..n];
      JoinedIsTrimmed(text, pattern);
      var joined := JoinLines(text);
      assert n > 0;
      assert JoinLines(lines) == joined + "\n";
      assert TrimLeft(joined + "\n") == joined + "\n";
      TrimRightSnoc(joined, '\n');
      TrimSpaceOfTrimmed(joined);
    }
  }

  lemma NoFooterInTidy(lines: seq<string>, pattern: string -> bool)
    requires TidyLines(lines, pattern)
    ensures !HasFooter(lines, pattern)
  {
    forall i | 0 <= i < |lines|
      ensures TidyLine(lines[i]) == lines[i]
    {
      TidyLineOfTidy(lines[i], pattern);
    }
  }

  /** The normalised text is tidy lines joined: no leading, trailing or doubled blank line, single spaces, no footer. */
  lemma NormalizedIsTidy(text: string, caption: string, pattern: string -> bool) returns (lines: seq<string>)
    ensures TidyText(lines, pattern) && Normalized(text, caption, pattern).0 == JoinLines(lines)
  {
    var content := Content(text, caption);
    if content == "" {
      lines := [];
    } else {
      var parts := SplitLines(UnixLines(content));
      SplitIntoLines(UnixLines(content));
      KeptLinesAreTidy(parts, pattern);
      lines := TrimmedText(KeptLines(parts, pattern), pattern);
    }
  }

  /** Normalising a second time changes nothing and removes no footer. */
  lemma NormalizeIsIdempotent(text: string, caption: string, pattern: string -> bool)
    ensures var once := Normalized(text, caption, pattern).0;
            Normalized(once, "", pattern) == (once, false)
  {
    var lines := NormalizedIsTidy(text, caption, pattern);
    var once := JoinLines(lines);
    JoinedIsTrimmed(lines, pattern);
    TrimSpaceOfTrimmed(once);
    TrimSpaceOfTrimmed("");
    assert once + "" == once;
    assert Content(once, "") == once;
    if lines != [] {
      JoinedIsUnix(lines);
      UnixLinesOfUnix(once);
      SplitOfJoined(lines);
      KeptLinesOfTidy(lines, pattern);
      NoFooterInTidy(lines, pattern);
    }
  }

  lemma NormalizeKeepsLines(text: string, caption: string, pattern: string -> bool)
    ensures var r := Normalized(text, caption, pattern); KeepsLines(text, caption, pattern, r.0, r.1)
  {
    var content := Content(text, caption);
    ContentKeepsTexts(text, caption);
    NoTexts();
    if content != "" {
      var lines := SplitLines(UnixLines(content));
      UnixKeepsTexts(content);
      KeptTexts(lines, pattern);
      SplitIntoLines(UnixLines(content));
      KeptLinesAreTidy(lines, pattern);
      var kept := TrimmedText(KeptLines(lines, pattern), pattern);
      JoinedNonBlank(kept, pattern);
    } else {
      assert NonBlank(SplitLines("")) == [];
    }
  }

  lemma JoinedNonBlank(lines: seq<string>, pattern: string -> bool)
    requires TidyText(lines, pattern)
    ensures NonBlank(SplitLines(JoinLines(lines))) == NonBlank(lines)
  {
    if lines == [] {
      assert [""][..0] == [];
    } else {
      SplitOfJoined(lines);
    }
  }
}
