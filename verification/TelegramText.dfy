/** Cutting an HTML message to Telegram's limit: internal/telegram/bot/service.go, lines 395-439. */
module TelegramText {
  import opened Sequences
  import opened Summaries
  import opened Text

  // ----- the text operations

  /** `strings.LastIndex` for one character. */
  function LastIndex(s: string, c: char): (i: int)
    ensures -1 <= i < |s|
    ensures i >= 0 ==> s[i] == c
    ensures forall j :: i < j < |s| ==> s[j] != c
  {
    if s == "" then -1
    else if s[|s| - 1] == c then |s| - 1
    else LastIndex(s[..|s| - 1], c)
  }

  /** Cut at an opening mark that comes after the last closing mark. */
  function CutAfterLast(s: string, opening: char, closing: char): string {
    var i := LastIndex(s, opening);
    if i > LastIndex(s, closing) then s[..i] else s
  }

  datatype Tag = A | B | I | S | Code

  function Name(tag: Tag): string {
    match tag
    case A => "a"
    case B => "b"
    case I => "i"
    case S => "s"
    case Code => "code"
  }

  function Lower(c: char): char {
    if 'A' <= c <= 'Z' then c + 32 as char else c
  }

  /** The regular expression's `\s`. */
  predicate RegexpSpace(c: char) {
    c == ' ' || c == '\t' || c == '\n' || c == '\U{000C}' || c == '\r'
  }

  /** One of the five names at position `i`, in either case. */
  function NameAt(s: string, i: nat): (tag: Option<Tag>)
    ensures tag.Some? ==> i + |Name(tag.value)| <= |s|
  {
    if i >= |s| then None
    else
      match Lower(s[i])
      case 'a' => Some(A)
      case 'b' => Some(B)
      case 'i' => Some(I)
      case 's' => Some(S)
      case 'c' =>
        if i + 4 <= |s| && Lower(s[i + 1]) == 'o' && Lower(s[i + 2]) == 'd' && Lower(s[i + 3]) == 'e' then Some(Code)
        else None
      case _ => None
  }

  /** The first `>` at or after `i`. */
  function Gt(s: string, i: nat): (end: Option<nat>)
    ensures end.Some? ==> i <= end.value < |s|
    decreases |s| - i
  {
    if i >= |s| then None else if s[i] == '>' then Some(i) else Gt(s, i + 1)
  }

  /** The rest of `MatchAt` once the mark and the name are read. */
  function MatchEnd(s: string, after: nat): (end: Option<nat>)
    ensures end.Some? ==> after < end.value <= |s|
  {
    if after < |s| && s[after] == '>' then Some(after + 1)
    else if after < |s| && RegexpSpace(s[after]) && Gt(s, after + 1).Some? then Some(Gt(s, after + 1).value + 1)
    else None
  }

  datatype Found = Found(closing: bool, tag: Tag)

  /** `telegramHTMLTag` matched at position `i`: the tag and where the match ends. */
  function MatchAt(s: string, i: nat): (m: Option<(Found, nat)>)
    requires i < |s|
    ensures m.Some? ==> i < m.value.1 <= |s|
  {
    if s[i] != '<' then None
    else
      var closing := i + 1 < |s| && s[i + 1] == '/';
      var start := if closing then i + 2 else i + 1;
      var tag := NameAt(s, start);
      if tag.None? then None
      else
        var end := MatchEnd(s, start + |Name(tag.value)|);
        if end.Some? then Some((Found(closing, tag.value), end.value)) else None
  }

  /** A character of a name in either case. */
  predicate EitherCase(c: char, name: char) {
    c == name || c as int == name as int - 32
  }

  /** The name stands at position `i`, in either case. */
  predicate Names(s: string, i: nat, name: string) {
    i + |name| <= |s| && forall j :: 0 <= j < |name| ==> EitherCase(s[i + j], name[j])
  }

  lemma NamesOne(s: string, i: nat, name: string)
    requires |name| == 1
    ensures Names(s, i, name) <==> i < |s| && EitherCase(s[i], name[0])
  {
    assert i < |s| ==> s[i + 0] == s[i];
  }

  lemma NamesFour(s: string, i: nat, name: string)
    requires |name| == 4
    ensures Names(s, i, name) <==>
            && i + 4 <= |s| && EitherCase(s[i], name[0]) && EitherCase(s[i + 1], name[1])
            && EitherCase(s[i + 2], name[2]) && EitherCase(s[i + 3], name[3])
  {
    assert i + 4 <= |s| ==> s[i + 0] == s[i];
  }

  lemma NameAtIff(s: string, i: nat, tag: Tag)
    ensures NameAt(s, i) == Some(tag) <==> Names(s, i, Name(tag))
  {
    if tag == Code { NamesFour(s, i, "code"); } else { NamesOne(s, i, Name(tag)); }
    if i < |s| { LowerIff(s[i]); }
    if i + 4 <= |s| {
      LowerIff(s[i + 1]);
      LowerIff(s[i + 2]);
      LowerIff(s[i + 3]);
    }
  }

  lemma LowerIff(c: char)
    ensures forall name: char :: 'a' <= name <= 'z' ==> (Lower(c) == name <==> EitherCase(c, name))
  {
  }

  lemma {:induction false} GtIsFirst(s: string, i: nat, end: nat)
    ensures Gt(s, i) == Some(end) <==> i <= end < |s| && s[end] == '>' && forall j :: i <= j < end ==> s[j] != '>'
    decreases |s| - i
  {
    if i < |s| && s[i] != '>' {
      GtIsFirst(s, i + 1, end);
    }
  }

  /** From the end of the name on: the first `>` ends the tag, and white space comes before anything else. */
  predicate TagEnds(s: string, after: nat, end: nat) {
    && after < end <= |s| && s[end - 1] == '>'
    && (forall j :: after <= j < end - 1 ==> s[j] != '>')
    && (end > after + 1 ==> s[after] in " \t\n\U{000C}\r")
  }

  /** A tag stands at `i` and ends before `end`. */
  predicate TagAt(s: string, i: nat, end: nat, found: Found) {
    var from := if found.closing then i + 2 else i + 1;
    && i + 1 < |s| && s[i] == '<' && (found.closing ==> s[i + 1] == '/')
    && Names(s, from, Name(found.tag))
    && TagEnds(s, from + |Name(found.tag)|, end)
  }

  /** A name does not begin with a slash, so only one of the two marks fits. */
  lemma MarkOf(s: string, i: nat, end: nat, found: Found)
    ensures TagAt(s, i, end, found) ==> (found.closing <==> s[i + 1] == '/')
  {
    if TagAt(s, i, end, found) && !found.closing {
      var name := Name(found.tag);
      assert name != "" && EitherCase(s[i + 1 + 0], name[0]);
    }
  }

  lemma MatchEndIff(s: string, after: nat, end: nat)
    ensures MatchEnd(s, after) == Some(end) <==> TagEnds(s, after, end)
  {
    if after < |s| && end > 0 { GtIsFirst(s, after + 1, end - 1); }
    assert after < |s| ==> (RegexpSpace(s[after]) <==> s[after] in " \t\n\U{000C}\r");
  }

  /** The scanner finds a tag at a position exactly where one stands. */
  lemma MatchIff(s: string, i: nat, end: nat, found: Found)
    requires i < |s|
    ensures MatchAt(s, i) == Some((found, end)) <==> TagAt(s, i, end, found)
  {
    MarkOf(s, i, end, found);
    var from := if found.closing then i + 2 else i + 1;
    NameAtIff(s, from, found.tag);
    MatchEndIff(s, from + |Name(found.tag)|, end);
  }

  /** `FindAllStringSubmatch` from position `i` on. */
  function FindAll(s: string, i: nat): seq<Found>
    requires i <= |s|
    decreases |s| - i
  {
    if i == |s| then []
    else
      var m := MatchAt(s, i);
      if m.None? then FindAll(s, i + 1) else [m.value.0] + FindAll(s, m.value.1)
  }

  /** The open tags; a closing tag that does not match the innermost one is ignored. */
  function Stack(tags: seq<Found>): seq<Tag> {
    if tags == [] then []
    else
      var stack, last := Stack(tags[..|tags| - 1]), tags[|tags| - 1];
      if !last.closing then stack + [last.tag]
      else if stack != [] && stack[|stack| - 1] == last.tag then stack[..|stack| - 1]
      else stack
  }

  /** Closing tags, innermost first. */
  function Closers(stack: seq<Tag>): string {
    if stack == [] then "" else "</" + Name(stack[|stack| - 1]) + ">" + Closers(stack[..|stack| - 1])
  }

  function Stripped(text: string): string {
    CutAfterLast(CutAfterLast(text, '<', '>'), '&', ';')
  }

  function Closed(text: string): string {
    Stripped(text) + Closers(Stack(FindAll(Stripped(text), 0)))
  }

  method CloseTruncatedTelegramHTML(text: string) returns (r: string)
    ensures r == Closed(text)
  {
    r := text;
    var opening := LastIndex(r, '<');
    if opening > LastIndex(r, '>') {
      r := r[..opening];
    }
    var entity := LastIndex(r, '&');
    if entity > LastIndex(r, ';') {
      r := r[..entity];
    }
    var stack := OpenTags(FindAll(r, 0));
    r := CloseTags(r, stack);
  }

  /** The loop over the found tags. */
  method OpenTags(tags: seq<Found>) returns (stack: seq<Tag>)
    ensures stack == Stack(tags)
  {
    stack := [];
    for k := 0 to |tags|
      invariant stack == Stack(tags[..k])
    {
      assert tags[..k + 1][..k] == tags[..k];
      if !tags[k].closing {
        stack := stack + [tags[k].tag];
        continue;
      }
      if |stack| > 0 && stack[|stack| - 1] == tags[k].tag {
        stack := stack[..|stack| - 1];
      }
    }
    assert tags[..|tags|] == tags;
  }

  /** The loop that closes what is open, innermost first. */
  method CloseTags(text: string, stack: seq<Tag>) returns (r: string)
    ensures r == text + Closers(stack)
  {
    r := text;
    var i := |stack|;
    assert stack[..i] == stack;
    while i > 0
      invariant 0 <= i <= |stack|
      invariant r + Closers(stack[..i]) == text + Closers(stack)
    {
      i := i - 1;
      CloseOneMore(r, stack, i);
      r := r + "</" + Name(stack[i]) + ">";
    }
    assert r + "" == r;
  }

  lemma CloseOneMore(r: string, stack: seq<Tag>, i: nat)
    requires i < |stack|
    ensures r + Closers(stack[..i + 1]) == r + "</" + Name(stack[i]) + ">" + Closers(stack[..i])
  {
    assert stack[..i + 1][..i] == stack[..i];
    var closer := "</" + Name(stack[i]) + ">";
    Associative(r, closer, Closers(stack[..i]));
    assert r + closer == r + "</" + Name(stack[i]) + ">";
  }

  // ----- documents

  /** What the bot's renderers emit: plain characters, entities and the five tags. */
  datatype Token = Plain(c: char) | Entity(name: string) | Open(tag: Tag, attributes: string) | Close(tag: Tag)

  /** After every `&` there is a `;`. */
  predicate Settled(s: string) {
    forall i :: 0 <= i < |s| && s[i] == '&' ==> exists j :: i < j < |s| && s[j] == ';'
  }

  predicate Free(s: string, c: char) {
    forall i :: 0 <= i < |s| ==> s[i] != c
  }

  predicate Escaped(token: Token) {
    match token
    case Plain(c) => c != '<' && c != '>' && c != '&'
    case Entity(name) => Free(name, '<') && Free(name, '>') && Free(name, '&') && Free(name, ';')
    case Open(_, attributes) =>
      && (attributes != "" ==> RegexpSpace(attributes[0]))
      && Free(attributes, '<')
      && Free(attributes, '>')
      && Settled(attributes)
    case Close(_) => true
  }

  function Spelling(token: Token): (s: string)
    ensures s != ""
  {
    match token
    case Plain(c) => [c]
    case Entity(name) => "&" + name + ";"
    case Open(tag, attributes) => "<" + Name(tag) + attributes + ">"
    case Close(tag) => "</" + Name(tag) + ">"
  }

  function Render(tokens: seq<Token>): string {
    if tokens == [] then "" else Render(tokens[..|tokens| - 1]) + Spelling(tokens[|tokens| - 1])
  }

  ghost predicate Document(tokens: seq<Token>) {
    forall k :: 0 <= k < |tokens| ==> Escaped(tokens[k])
  }

  /** The open tags after the tokens, or None when a closing tag does not match. */
  function Nest(tokens: seq<Token>): Option<seq<Tag>> {
    if tokens == [] then Some([])
    else
      var front, last := Nest(tokens[..|tokens| - 1]), tokens[|tokens| - 1];
      if front.None? then None
      else
        match last
        case Open(tag, _) => Some(front.value + [tag])
        case Close(tag) =>
          if front.value != [] && front.value[|front.value| - 1] == tag then Some(front.value[..|front.value| - 1])
          else None
        case _ => front
  }

  predicate WellNested(tokens: seq<Token>) {
    Nest(tokens) == Some([])
  }

  lemma {:induction false} NestOfPrefix(tokens: seq<Token>, p: nat)
    requires p <= |tokens| && Nest(tokens).Some?
    ensures Nest(tokens[..p]).Some?
  {
    if p < |tokens| {
      NestOfPrefix(tokens[..|tokens| - 1], p);
      assert tokens[..|tokens| - 1][..p] == tokens[..p];
    } else {
      assert tokens[..p] == tokens;
    }
  }

  function Closing(stack: seq<Tag>): seq<Token> {
    if stack == [] then [] else [Close(stack[|stack| - 1])] + Closing(stack[..|stack| - 1])
  }

  lemma RenderSnoc(tokens: seq<Token>, last: Token)
    ensures Render(tokens + [last]) == Render(tokens) + Spelling(last)
  {
    assert (tokens + [last])[..|tokens|] == tokens;
  }

  lemma {:induction false} RenderConcat(a: seq<Token>, b: seq<Token>)
    ensures Render(a + b) == Render(a) + Render(b)
  {
    if b == [] {
      assert a + b == a;
    } else {
      var front, last := b[..|b| - 1], b[|b| - 1];
      RenderConcat(a, front);
      RenderSnoc(a + front, last);
      RenderSnoc(front, last);
      SplitLast(b);
      Associative(Render(a), Render(front), Spelling(last));
      assert a + (front + [last]) == (a + front) + [last];
    }
  }

  lemma RenderOne(token: Token)
    ensures Render([token]) == Spelling(token)
  {
    assert [token][..0] == [];
    assert "" + Spelling(token) == Spelling(token);
  }

  lemma RenderCons(first: Token, rest: seq<Token>)
    ensures Render([first] + rest) == Spelling(first) + Render(rest)
  {
    RenderOne(first);
    RenderConcat([first], rest);
  }

  lemma {:induction false} RenderClosing(stack: seq<Tag>)
    ensures Render(Closing(stack)) == Closers(stack)
  {
    if stack != [] {
      RenderClosing(stack[..|stack| - 1]);
      RenderCons(Close(stack[|stack| - 1]), Closing(stack[..|stack| - 1]));
    }
  }

  lemma CloseOne(tokens: seq<Token>, stack: seq<Tag>)
    requires stack != []
    ensures tokens + Closing(stack) == tokens + [Close(stack[|stack| - 1])] + Closing(stack[..|stack| - 1])
  {
    Associative(tokens, [Close(stack[|stack| - 1])], Closing(stack[..|stack| - 1]));
  }

  /** Closing the open tags completes the nesting. */
  lemma {:induction false} ClosingCompletes(tokens: seq<Token>, stack: seq<Tag>)
    requires Nest(tokens) == Some(stack)
    ensures WellNested(tokens + Closing(stack))
    decreases |stack|
  {
    if stack == [] {
      assert tokens + Closing(stack) == tokens;
    } else {
      var next := tokens + [Close(stack[|stack| - 1])];
      assert next[..|tokens|] == tokens;
      ClosingCompletes(next, stack[..|stack| - 1]);
      CloseOne(tokens, stack);
    }
  }

  // ----- the scanner finds exactly the tags of a document

  function TagOf(token: Token): seq<Found> {
    match token
    case Open(tag, _) => [Found(false, tag)]
    case Close(tag) => [Found(true, tag)]
    case _ => []
  }

  function TagsOf(tokens: seq<Token>): seq<Found> {
    if tokens == [] then [] else TagsOf(tokens[..|tokens| - 1]) + TagOf(tokens[|tokens| - 1])
  }

  /** `part` stands in `s` at position `i`. */
  predicate Stands(s: string, i: nat, part: string) {
    i + |part| <= |s| && forall k :: 0 <= k < |part| ==> s[i + k] == part[k]
  }

  lemma StandsConcat(s: string, i: nat, a: string, b: string)
    requires Stands(s, i, a + b)
    ensures Stands(s, i, a) && Stands(s, i + |a|, b)
  {
    assert forall k :: 0 <= k < |a| ==> (a + b)[k] == a[k];
    forall k | 0 <= k < |b|
      ensures s[i + |a| + k] == b[k]
    {
      assert (a + b)[|a| + k] == b[k];
    }
  }

  lemma {:induction false} SkipPlain(s: string, i: nat, n: nat)
    requires i <= n <= |s| && forall k :: i <= k < n ==> s[k] != '<'
    ensures FindAll(s, i) == FindAll(s, n)
    decreases n - i
  {
    if i < n {
      SkipPlain(s, i + 1, n);
    }
  }

  lemma {:induction false} GtAfter(s: string, i: nat, end: nat)
    requires i <= end < |s| && s[end] == '>' && forall k :: i <= k < end ==> s[k] != '>'
    ensures Gt(s, i) == Some(end)
    decreases end - i
  {
    if i < end {
      GtAfter(s, i + 1, end);
    }
  }

  lemma NameStands(s: string, i: nat, tag: Tag)
    requires Stands(s, i, Name(tag))
    ensures NameAt(s, i) == Some(tag)
  {
    var name := Name(tag);
    assert s[i] == name[0];
    if tag == Code {
      assert s[i + 1] == name[1] && s[i + 2] == name[2] && s[i + 3] == name[3];
    }
  }

  lemma CloseMatches(s: string, i: nat, tag: Tag)
    requires i < |s| && Stands(s, i, Spelling(Close(tag)))
    ensures MatchAt(s, i) == Some((Found(true, tag), i + |Spelling(Close(tag))|))
  {
    var name := Name(tag);
    assert Spelling(Close(tag)) == "</" + (name + ">");
    StandsConcat(s, i, "</", name + ">");
    StandsConcat(s, i + 2, name, ">");
    StandsStart(s, i, "</");
    StandsStart(s, i + 2 + |name|, ">");
    NameStands(s, i + 2, tag);
  }

  lemma StandsStart(s: string, i: nat, part: string)
    requires Stands(s, i, part) && part != ""
    ensures s[i] == part[0] && (|part| > 1 ==> s[i + 1] == part[1])
  {
    assert s[i + 0] == part[0];
    assert |part| > 1 ==> s[i + 1] == part[1];
  }

  lemma NameIsNoSlash(tag: Tag)
    ensures Name(tag) != "" && Name(tag)[0] != '/'
  {
  }

  lemma OpenStands(s: string, i: nat, tag: Tag, attributes: string)
    requires Stands(s, i, Spelling(Open(tag, attributes)))
    ensures i < |s| && s[i] == '<' && i + 1 < |s| && s[i + 1] != '/' && NameAt(s, i + 1) == Some(tag)
    ensures Stands(s, i + 1 + |Name(tag)|, attributes)
    ensures i + 1 + |Name(tag)| + |attributes| < |s| && s[i + 1 + |Name(tag)| + |attributes|] == '>'
  {
    var name := Name(tag);
    var after := i + 1 + |name|;
    assert Spelling(Open(tag, attributes)) == "<" + (name + (attributes + ">"));
    StandsConcat(s, i, "<", name + (attributes + ">"));
    StandsConcat(s, i + 1, name, attributes + ">");
    StandsConcat(s, after, attributes, ">");
    StandsStart(s, i, "<");
    NameIsNoSlash(tag);
    StandsStart(s, i + 1, name);
    StandsStart(s, after + |attributes|, ">");
    NameStands(s, i + 1, tag);
  }

  lemma OpenMatches(s: string, i: nat, tag: Tag, attributes: string)
    requires Escaped(Open(tag, attributes)) && Stands(s, i, Spelling(Open(tag, attributes)))
    ensures i < |s| && MatchAt(s, i) == Some((Found(false, tag), i + |Spelling(Open(tag, attributes))|))
  {
    var after := i + 1 + |Name(tag)|;
    OpenStands(s, i, tag, attributes);
    SpellingOfOpen(tag, attributes);
    if attributes != "" {
      StandsStart(s, after, attributes);
      AttributesEnd(s, after, attributes);
      MatchWithAttributes(s, i, tag, after + |attributes|);
    } else {
      MatchWithout(s, i, tag);
    }
  }

  lemma SpellingOfOpen(tag: Tag, attributes: string)
    ensures |Spelling(Open(tag, attributes))| == |Name(tag)| + |attributes| + 2
  {
  }

  lemma MatchWithout(s: string, i: nat, tag: Tag)
    requires i + 1 + |Name(tag)| < |s| && s[i] == '<' && s[i + 1] != '/' && NameAt(s, i + 1) == Some(tag)
    requires s[i + 1 + |Name(tag)|] == '>'
    ensures MatchAt(s, i) == Some((Found(false, tag), i + |Name(tag)| + 2))
  {
  }

  lemma MatchWithAttributes(s: string, i: nat, tag: Tag, end: nat)
    requires i + 1 + |Name(tag)| < |s| && s[i] == '<' && s[i + 1] != '/' && NameAt(s, i + 1) == Some(tag)
    requires RegexpSpace(s[i + 1 + |Name(tag)|]) && Gt(s, i + |Name(tag)| + 2) == Some(end)
    ensures MatchAt(s, i) == Some((Found(false, tag), end + 1))
  {
  }

  lemma AttributesEnd(s: string, i: nat, attributes: string)
    requires Stands(s, i, attributes) && attributes != "" && Free(attributes, '>')
    requires i + |attributes| < |s| && s[i + |attributes|] == '>'
    ensures Gt(s, i + 1) == Some(i + |attributes|)
  {
    forall k | i <= k < i + |attributes|
      ensures s[k] != '>'
    {
      assert s[i + (k - i)] == attributes[k - i];
    }
    GtAfter(s, i + 1, i + |attributes|);
  }

  lemma NoTagWithin(s: string, i: nat, part: string)
    requires Stands(s, i, part) && Free(part, '<')
    ensures forall k :: i <= k < i + |part| ==> s[k] != '<'
  {
    forall k | i <= k < i + |part|
      ensures s[k] != '<'
    {
      assert s[i + (k - i)] == part[k - i];
    }
  }

  lemma MatchFound(s: string, i: nat, found: Found, end: nat)
    requires i < |s| && MatchAt(s, i) == Some((found, end))
    ensures FindAll(s, i) == [found] + FindAll(s, end)
  {
  }

  lemma FindTag(s: string, i: nat, token: Token)
    requires Escaped(token) && Stands(s, i, Spelling(token)) && (token.Open? || token.Close?)
    ensures FindAll(s, i) == [Found(token.Close?, token.tag)] + FindAll(s, i + |Spelling(token)|)
  {
    match token
    case Open(tag, attributes) => OpenMatches(s, i, tag, attributes);
    case Close(tag) => CloseMatches(s, i, tag);
    MatchFound(s, i, Found(token.Close?, token.tag), i + |Spelling(token)|);
  }

  lemma FindToken(s: string, i: nat, token: Token)
    requires Escaped(token) && Stands(s, i, Spelling(token))
    ensures FindAll(s, i) == TagOf(token) + FindAll(s, i + |Spelling(token)|)
  {
    if token.Open? || token.Close? {
      FindTag(s, i, token);
    } else {
      NoTagWithin(s, i, Spelling(token));
      SkipPlain(s, i, i + |Spelling(token)|);
    }
  }

  /** What a scanner finds from each position on: it steps over whole tokens. */
  ghost predicate Scans(found: seq<seq<Found>>, s: string) {
    && |found| == |s| + 1
    && forall i: nat, token :: Escaped(token) && Stands(s, i, Spelling(token)) ==>
         found[i] == TagOf(token) + found[i + |Spelling(token)|]
  }

  lemma {:induction false} ScanTokens(found: seq<seq<Found>>, s: string, tokens: seq<Token>)
    requires Scans(found, s) && Document(tokens) && Stands(s, 0, Render(tokens))
    ensures found[0] == TagsOf(tokens) + found[|Render(tokens)|]
  {
    if tokens != [] {
      var front, last := tokens[..|tokens| - 1], tokens[|tokens| - 1];
      StandsConcat(s, 0, Render(front), Spelling(last));
      ScanTokens(found, s, front);
      ScanOne(found, s, |Render(front)|, last);
      Associative(TagsOf(front), TagOf(last), found[|Render(tokens)|]);
    }
  }

  lemma ScanOne(found: seq<seq<Found>>, s: string, i: nat, token: Token)
    requires Scans(found, s) && Escaped(token) && Stands(s, i, Spelling(token))
    ensures found[i] == TagOf(token) + found[i + |Spelling(token)|]
  {
  }

  /** The scanner's results from each position on, as a list. */
  ghost predicate Tabulates(found: seq<seq<Found>>, s: string) {
    |found| == |s| + 1 && forall i :: 0 <= i < |found| ==> IsFound(found[i], s, i)
  }

  predicate IsFound(tags: seq<Found>, s: string, i: nat) {
    i <= |s| && tags == FindAll(s, i)
  }

  lemma FoundScans(found: seq<seq<Found>>, s: string)
    requires Tabulates(found, s)
    ensures Scans(found, s)
  {
    forall i: nat, token | Escaped(token) && Stands(s, i, Spelling(token))
      ensures found[i] == TagOf(token) + found[i + |Spelling(token)|]
    {
      assert IsFound(found[i], s, i) && IsFound(found[i + |Spelling(token)|], s, i + |Spelling(token)|);
      FindToken(s, i, token);
    }
  }

  lemma FindTokens(tokens: seq<Token>)
    requires Document(tokens)
    ensures FindAll(Render(tokens), 0) == TagsOf(tokens)
  {
    var s := Render(tokens);
    var found := seq(|s| + 1, i requires 0 <= i <= |s| => FindAll(s, i));
    FoundScans(found, s);
    ScanTokens(found, s, tokens);
    assert IsFound(found[0], s, 0) && IsFound(found[|s|], s, |s|);
  }

  /** On a document whose tags nest, the code's stack is the true one. */
  lemma {:induction false} StackOfDocument(tokens: seq<Token>)
    requires Nest(tokens).Some?
    ensures Stack(TagsOf(tokens)) == Nest(tokens).value
  {
    if tokens != [] {
      var front, last := tokens[..|tokens| - 1], tokens[|tokens| - 1];
      StackOfDocument(front);
      var tags := TagsOf(front);
      assert TagOf(last) != [] ==> (tags + TagOf(last))[..|tags|] == tags;
      assert TagOf(last) == [] ==> tags + TagOf(last) == tags;
    }
  }

  // ----- removing the cut token

  /** Cutting at rune `k` leaves `p` whole tokens and a proper part of the next. */
  ghost predicate CutAt(tokens: seq<Token>, k: nat, p: nat)
    requires k <= |Render(tokens)|
  {
    && p <= |tokens| && |Render(tokens[..p])| <= k
    && (p < |tokens| ==> k < |Render(tokens[..p])| + |Spelling(tokens[p])|)
    && Render(tokens)[..k] ==
       Render(tokens[..p]) + if p < |tokens| then Spelling(tokens[p])[..k - |Render(tokens[..p])|] else ""
  }

  lemma CutAtLast(tokens: seq<Token>, k: nat)
    requires tokens != [] && |Render(tokens[..|tokens| - 1])| <= k < |Render(tokens)|
    ensures CutAt(tokens, k, |tokens| - 1)
  {
  }

  lemma PrefixOfConcat(a: string, b: string, k: nat)
    requires k <= |a|
    ensures (a + b)[..k] == a[..k]
  {
  }

  lemma PrefixOfFront(tokens: seq<Token>, p: nat)
    requires p < |tokens|
    ensures tokens[..|tokens| - 1][..p] == tokens[..p]
  {
  }

  lemma CutEarlier(tokens: seq<Token>, k: nat, p: nat)
    requires tokens != [] && k < |Render(tokens[..|tokens| - 1])| && CutAt(tokens[..|tokens| - 1], k, p)
    ensures k < |Render(tokens)| && CutAt(tokens, k, p)
  {
    PrefixOfFront(tokens, p);
    PrefixOfFront(tokens, |tokens| - 1);
    PrefixOfConcat(Render(tokens[..|tokens| - 1]), Spelling(tokens[|tokens| - 1]), k);
  }

  lemma {:induction false} TokenAt(tokens: seq<Token>, k: nat) returns (p: nat)
    requires k <= |Render(tokens)|
    ensures CutAt(tokens, k, p)
  {
    if k == |Render(tokens)| {
      p := |tokens|;
      assert tokens[..p] == tokens;
    } else if k < |Render(tokens[..|tokens| - 1])| {
      p := TokenAt(tokens[..|tokens| - 1], k);
      CutEarlier(tokens, k, p);
    } else {
      p := |tokens| - 1;
      CutAtLast(tokens, k);
    }
  }

  /** After every opening mark there is a closing one. */
  predicate Balanced(s: string, opening: char, closing: char) {
    forall i :: 0 <= i < |s| && s[i] == opening ==> exists j :: i < j < |s| && s[j] == closing
  }

  lemma BalancedConcat(a: string, b: string, opening: char, closing: char)
    requires Balanced(a, opening, closing) && Balanced(b, opening, closing)
    ensures Balanced(a + b, opening, closing)
  {
    forall i | 0 <= i < |a + b| && (a + b)[i] == opening
      ensures exists j :: i < j < |a + b| && (a + b)[j] == closing
    {
      if i < |a| {
        var j :| i < j < |a| && a[j] == closing;
        assert (a + b)[j] == closing;
      } else {
        var j :| i - |a| < j < |b| && b[j] == closing;
        assert (a + b)[|a| + j] == closing;
      }
    }
  }

  lemma CutBalanced(s: string, opening: char, closing: char)
    requires Balanced(s, opening, closing)
    ensures CutAfterLast(s, opening, closing) == s
  {
  }

  /** A cut fragment at the end is removed, and nothing else. */
  lemma CutFragment(s: string, fragment: string, opening: char, closing: char)
    requires fragment != "" && fragment[0] == opening && Free(fragment[1..], opening) && Free(fragment, closing)
    ensures CutAfterLast(s + fragment, opening, closing) == s
  {
    var whole := s + fragment;
    assert whole[|s|] == opening;
    forall j | |s| < j < |whole|
      ensures whole[j] != opening
    {
      assert whole[j] == fragment[1..][j - |s| - 1];
    }
    forall j | |s| <= j < |whole|
      ensures whole[j] != closing
    {
      assert whole[j] == fragment[j - |s|];
    }
    assert LastIndex(whole, opening) == |s|;
  }

  lemma TextIsBalanced(token: Token)
    requires Escaped(token)
    ensures Balanced(Spelling(token), '<', '>') && Balanced(Spelling(token), '&', ';')
  {
    var text := Spelling(token);
    match token
    case Plain(c) =>
    case Entity(name) =>
      assert text[|text| - 1] == ';';
    case Close(tag) =>
      assert text[|text| - 1] == '>';
      assert Free(Name(tag), '&');
    case Open(tag, attributes) => OpenIsBalanced(tag, attributes);
  }

  lemma OpenIsBalanced(tag: Tag, attributes: string)
    requires Escaped(Open(tag, attributes))
    ensures Balanced(Spelling(Open(tag, attributes)), '<', '>') && Balanced(Spelling(Open(tag, attributes)), '&', ';')
  {
    var text := Spelling(Open(tag, attributes));
    assert text[|text| - 1] == '>';
    assert Free(Name(tag), '&');
    var n := 1 + |Name(tag)|;
    forall i | 0 <= i < |text| && text[i] == '&'
      ensures exists j :: i < j < |text| && text[j] == ';'
    {
      assert attributes[i - n] == '&';
      var j :| i - n < j < |attributes| && attributes[j] == ';';
      assert text[n + j] == ';';
    }
  }

  lemma {:induction false} RenderIsBalanced(tokens: seq<Token>)
    requires Document(tokens)
    ensures Balanced(Render(tokens), '<', '>') && Balanced(Render(tokens), '&', ';')
  {
    if tokens != [] {
      var n := |tokens| - 1;
      RenderIsBalanced(tokens[..n]);
      TextIsBalanced(tokens[n]);
      BalancedConcat(Render(tokens[..n]), Spelling(tokens[n]), '<', '>');
      BalancedConcat(Render(tokens[..n]), Spelling(tokens[n]), '&', ';');
    }
  }

  lemma NamesArePlain(tag: Tag)
    ensures forall i :: 0 <= i < |Name(tag)| ==> Name(tag)[i] !in "<>&;"
  {
  }

  lemma StripCutTag(done: string, token: Token, k: nat)
    requires Balanced(done, '&', ';')
    requires Escaped(token) && 0 < k < |Spelling(token)| && (token.Open? || token.Close?)
    ensures Stripped(done + Spelling(token)[..k]) == done
  {
    NamesArePlain(token.tag);
    CutFragment(done, Spelling(token)[..k], '<', '>');
    CutBalanced(done, '&', ';');
  }

  lemma StripCutEntity(done: string, token: Token, k: nat)
    requires Balanced(done, '<', '>')
    requires Escaped(token) && 0 < k < |Spelling(token)| && token.Entity?
    ensures Stripped(done + Spelling(token)[..k]) == done
  {
    var fragment := Spelling(token)[..k];
    BalancedConcat(done, fragment, '<', '>');
    CutBalanced(done + fragment, '<', '>');
    CutFragment(done, fragment, '&', ';');
  }

  lemma StripNothing(done: string)
    requires Balanced(done, '<', '>') && Balanced(done, '&', ';')
    ensures Stripped(done) == done
  {
    CutBalanced(done, '<', '>');
    CutBalanced(done, '&', ';');
  }

  /** Whatever is left of the cut token, stripping removes all of it. */
  lemma StripCutToken(done: string, token: Token, k: nat)
    requires Balanced(done, '<', '>') && Balanced(done, '&', ';')
    requires Escaped(token) && k < |Spelling(token)|
    ensures Stripped(done + Spelling(token)[..k]) == done
  {
    if k == 0 {
      assert done + Spelling(token)[..k] == done;
      StripNothing(done);
    } else if token.Entity? {
      StripCutEntity(done, token, k);
    } else {
      StripCutTag(done, token, k);
    }
  }

  /** What is left of a document cut at rune `k`: whole tokens, and the open tags closed. */
  ghost predicate Repaired(text: string, tokens: seq<Token>, k: nat, p: nat) {
    && p <= |tokens| && |Render(tokens[..p])| <= k
    && (p < |tokens| ==> k < |Render(tokens[..p])| + |Spelling(tokens[p])|)
    && Nest(tokens[..p]).Some?
    && var whole := tokens[..p] + Closing(Nest(tokens[..p]).value);
       WellNested(whole) && text == Render(whole)
  }

  lemma StrippedIsPrefix(tokens: seq<Token>, k: nat) returns (p: nat)
    requires Document(tokens) && k <= |Render(tokens)|
    ensures p <= |tokens| && |Render(tokens[..p])| <= k
    ensures p < |tokens| ==> k < |Render(tokens[..p])| + |Spelling(tokens[p])|
    ensures Stripped(Render(tokens)[..k]) == Render(tokens[..p])
  {
    p := TokenAt(tokens, k);
    var done := Render(tokens[..p]);
    RenderIsBalanced(tokens[..p]);
    if p < |tokens| {
      StripCutToken(done, tokens[p], k - |done|);
    } else {
      assert done + "" == done;
      StripNothing(done);
    }
  }

  /** Repairing the tokens that are left closes exactly their open tags. */
  lemma ClosersOfDocument(tokens: seq<Token>, stack: seq<Tag>)
    requires Document(tokens) && Nest(tokens) == Some(stack)
    ensures Render(tokens) + Closers(Stack(FindAll(Render(tokens), 0))) == Render(tokens + Closing(stack))
  {
    FindTokens(tokens);
    StackOfDocument(tokens);
    RenderClosing(stack);
    RenderConcat(tokens, Closing(stack));
  }

  /**
   Cut a well-nested document at any rune and repair it: at most the cut token is lost,
   the open tags are closed innermost first, and the result is well nested again.
   */
  lemma TruncationIsRepaired(tokens: seq<Token>, k: nat) returns (p: nat)
    requires Document(tokens) && WellNested(tokens) && k <= |Render(tokens)|
    ensures Repaired(Closed(Render(tokens)[..k]), tokens, k, p)
  {
    p := StrippedIsPrefix(tokens, k);
    NestOfPrefix(tokens, p);
    var stack := Nest(tokens[..p]).value;
    ClosersOfDocument(tokens[..p], stack);
    ClosingCompletes(tokens[..p], stack);
  }

  // ----- the message

  const LIMIT := 3900

  const SUFFIX := "\n\nТекст сокращен. Полную версию можно открыть по темам или экспортировать."

  function Sent(text: string, html: bool): string {
    var trimmed := TrimSpace(text);
    if trimmed == "" then "Готово."
    else if |trimmed| <= LIMIT then trimmed
    else (if html then Closed(trimmed[..LIMIT]) else trimmed[..LIMIT]) + SUFFIX
  }

  predicate White(token: Token) {
    token.Plain? && IsSpace(token.c)
  }

  lemma SolidEnds(token: Token)
    requires Escaped(token) && !White(token)
    ensures !IsSpace(Spelling(token)[0]) && !IsSpace(Spelling(token)[|Spelling(token)| - 1])
  {
  }

  function DropTail(tokens: seq<Token>): seq<Token> {
    if tokens != [] && White(tokens[|tokens| - 1]) then DropTail(tokens[..|tokens| - 1]) else tokens
  }

  function DropHead(tokens: seq<Token>): seq<Token> {
    if tokens != [] && White(tokens[0]) then DropHead(tokens[1..]) else tokens
  }

  lemma SolidTail(tokens: seq<Token>)
    requires Document(tokens) && (tokens != [] ==> !White(tokens[|tokens| - 1]))
    ensures TrimRight(Render(tokens)) == Render(tokens)
  {
    if tokens != [] {
      SolidEnds(tokens[|tokens| - 1]);
    }
  }

  /** White space at the end of a document is white tokens. */
  lemma {:induction false} TrimTail(tokens: seq<Token>)
    requires Document(tokens)
    ensures Document(DropTail(tokens)) && Nest(DropTail(tokens)) == Nest(tokens)
    ensures TrimRight(Render(tokens)) == Render(DropTail(tokens))
  {
    if tokens != [] && White(tokens[|tokens| - 1]) {
      TrimTail(tokens[..|tokens| - 1]);
      TrimRightSnoc(Render(tokens[..|tokens| - 1]), tokens[|tokens| - 1].c);
    } else {
      SolidTail(tokens);
    }
  }

  lemma SolidHead(tokens: seq<Token>)
    requires Document(tokens) && (tokens != [] ==> !White(tokens[0]))
    ensures TrimLeft(Render(tokens)) == Render(tokens)
  {
    if tokens != [] {
      assert tokens == [tokens[0]] + tokens[1..];
      RenderCons(tokens[0], tokens[1..]);
      SolidEnds(tokens[0]);
    }
  }

  /** A white token in front does not change the nesting. */
  lemma {:induction false} NestCons(first: Token, rest: seq<Token>)
    requires White(first)
    ensures Nest([first] + rest) == Nest(rest)
  {
    if rest == [] {
      assert [first][..0] == [];
      assert [first] + rest == [first];
    } else {
      assert ([first] + rest)[..|rest|] == [first] + rest[..|rest| - 1];
      NestCons(first, rest[..|rest| - 1]);
    }
  }

  lemma TrimOne(first: Token, rest: seq<Token>)
    requires White(first)
    ensures TrimLeft(Render([first] + rest)) == TrimLeft(Render(rest))
  {
    RenderCons(first, rest);
    assert (Spelling(first) + Render(rest))[1..] == Render(rest);
  }

  lemma {:induction false} TrimHead(tokens: seq<Token>)
    requires Document(tokens)
    ensures Document(DropHead(tokens)) && Nest(DropHead(tokens)) == Nest(tokens)
    ensures TrimLeft(Render(tokens)) == Render(DropHead(tokens))
  {
    if tokens != [] && White(tokens[0]) {
      assert tokens == [tokens[0]] + tokens[1..];
      TrimHead(tokens[1..]);
      TrimOne(tokens[0], tokens[1..]);
      NestCons(tokens[0], tokens[1..]);
    } else {
      SolidHead(tokens);
    }
  }

  /** Trimming a document removes white tokens only. */
  lemma TrimDocument(tokens: seq<Token>) returns (inner: seq<Token>)
    requires Document(tokens)
    ensures Document(inner) && TrimSpace(Render(tokens)) == Render(inner) && Nest(inner) == Nest(tokens)
  {
    TrimHead(tokens);
    TrimTail(DropHead(tokens));
    inner := DropTail(DropHead(tokens));
  }

  /**
   Every well-nested message the bot renders is sent as well-nested HTML, with the
   notice appended when it had to be cut.
   */
  lemma SentIsWellNested(tokens: seq<Token>) returns (sent: seq<Token>, cut: bool)
    requires Document(tokens) && WellNested(tokens) && TrimSpace(Render(tokens)) != ""
    ensures Sent(Render(tokens), true) == Render(sent) + if cut then SUFFIX else ""
    ensures WellNested(sent) && Document(sent)
    ensures cut <==> |TrimSpace(Render(tokens))| > LIMIT
  {
    var inner := TrimDocument(tokens);
    cut := |Render(inner)| > LIMIT;
    if cut {
      var p := TruncationIsRepaired(inner, LIMIT);
      var stack := Nest(inner[..p]).value;
      ClosingIsDocument(stack);
      sent := inner[..p] + Closing(stack);
    } else {
      sent := inner;
      assert Render(inner) + "" == Render(inner);
    }
  }

  lemma {:induction false} ClosingIsDocument(stack: seq<Tag>)
    ensures Document(Closing(stack))
  {
    if stack != [] {
      ClosingIsDocument(stack[..|stack| - 1]);
    }
  }

  /** Text whose markup is a well-nested document. */
  ghost predicate Nested(text: string) {
    exists tokens :: Document(tokens) && WellNested(tokens) && Render(tokens) == text
  }

  /** What arrives for well-nested HTML: a stock phrase, or well-nested HTML with the notice exactly if it was cut. */
  ghost predicate ArrivesNested(r: string, text: string) {
    if Blank(text) then r == "Готово."
    else exists sent: string :: Nested(sent) && r == sent + if |TrimSpace(text)| > LIMIT then SUFFIX else ""
  }

  lemma NestedIsSentNested(text: string)
    requires Nested(text)
    ensures ArrivesNested(Sent(text, true), text)
  {
    if !Blank(text) {
      var tokens :| Document(tokens) && WellNested(tokens) && Render(tokens) == text;
      var sent, cut := SentIsWellNested(tokens);
      assert Nested(Render(sent));
    }
  }

  /** `html` is `strings.EqualFold(parseMode, "HTML")`. */
  method TelegramText(text: string, html: bool) returns (r: string)
    ensures r == Sent(text, html)
    ensures html && Nested(text) ==> ArrivesNested(r, text)
  {
    if html && Nested(text) {
      NestedIsSentNested(text);
    }
    r := TrimSpace(text);
    if r == "" {
      return "Готово.";
    }
    if |r| <= LIMIT {
      return;
    }
    var prefix := r[..LIMIT];
    if html {
      prefix := CloseTruncatedTelegramHTML(prefix);
    }
    r := prefix + SUFFIX;
  }
}
