/** Text arrays to and from PostgreSQL: internal/storage/postgres/articles.go, lines 182-234. */
module PgArray {
  import opened Sequences
  import opened Text

  // ----- printing

  /** `strings.ReplaceAll` of one character. */
  function Replace(s: string, c: char, sub: string): string {
    if s == "" then ""
    else
      var last := s[|s| - 1];
      Replace(s[..|s| - 1], c, sub) + if last == c then sub else [last]
  }

  function Escape(value: string): string {
    Replace(Replace(value, '\\', "\\\\"), '"', "\\\"")
  }

  function Join(items: seq<string>): string {
    if items == [] then ""
    else if |items| == 1 then items[0]
    else Join(items[..|items| - 1]) + "," + items[|items| - 1]
  }

  function Quote(value: string): string {
    "\"" + Escape(value) + "\""
  }

  /** The values without their white space, blank ones dropped. */
  function Kept(values: seq<string>): seq<string> {
    if values == [] then []
    else
      var v := TrimSpace(values[|values| - 1]);
      Kept(values[..|values| - 1]) + if v == "" then [] else [v]
  }

  function Quoted(values: seq<string>): (r: seq<string>)
    ensures |r| == |values|
  {
    if values == [] then [] else Quoted(values[..|values| - 1]) + [Quote(values[|values| - 1])]
  }

  function Printed(values: seq<string>): string {
    "{" + Join(Quoted(Kept(values))) + "}"
  }

  lemma QuotedSnoc(values: seq<string>, value: string)
    ensures Quoted(values + [value]) == Quoted(values) + [Quote(value)]
  {
    assert (values + [value])[..|values|] == values;
  }

  method PgTextArray(values: seq<string>) returns (literal: string)
    ensures literal == Printed(values)
  {
    if |values| == 0 {
      return "{}";
    }
    var items: seq<string> := [];
    for k := 0 to |values|
      invariant items == Quoted(Kept(values[..k]))
    {
      assert values[..k + 1][..k] == values[..k];
      var value := TrimSpace(values[k]);
      if value == "" {
        assert Kept(values[..k + 1]) == Kept(values[..k]);
        continue;
      }
      assert Kept(values[..k + 1]) == Kept(values[..k]) + [value];
      QuotedSnoc(Kept(values[..k]), value);
      value := Replace(value, '\\', "\\\\");
      value := Replace(value, '"', "\\\"");
      items := items + ["\"" + value + "\""];
    }
    assert values[..|values|] == values;
    if |items| == 0 {
      return "{}";
    }
    return "{" + Join(items) + "}";
  }

  // ----- parsing

  /** `out`, the builder, `inQuote` and `escaped`. */
  datatype State = State(out: seq<string>, b: string, inQuote: bool, escaped: bool)

  const START := State([], "", false, false)

  /** Append the finished item unless it is blank. */
  function Flushed(out: seq<string>, b: string): seq<string> {
    if TrimSpace(b) == "" then out else out + [TrimSpace(b)]
  }

  function Step(st: State, r: char): State {
    if st.escaped then st.(b := st.b + [r], escaped := false)
    else if r == '\\' then st.(escaped := true)
    else if r == '"' then st.(inQuote := !st.inQuote)
    else if r == ',' && !st.inQuote then st.(out := Flushed(st.out, st.b), b := "")
    else st.(b := st.b + [r])
  }

  function Run(st: State, s: string): State {
    if s == "" then st else Step(Run(st, s[..|s| - 1]), s[|s| - 1])
  }

  function WithoutBraces(value: string): string {
    var v := if value != "" && value[|value| - 1] == '}' then value[..|value| - 1] else value;
    if v != "" && v[0] == '{' then v[1..] else v
  }

  function Parsed(literal: string): seq<string> {
    var value := TrimSpace(literal);
    if value == "" || value == "{}" then []
    else
      var end := Run(START, WithoutBraces(value));
      Flushed(end.out, end.b)
  }

  method ParsePGTextArray(literal: string) returns (out: seq<string>)
    ensures out == Parsed(literal)
  {
    var value := TrimSpace(literal);
    if value == "" || value == "{}" {
      return [];
    }
    value := WithoutBraces(value);
    out := [];
    var b, inQuote, escaped := "", false, false;
    for k := 0 to |value|
      invariant State(out, b, inQuote, escaped) == Run(START, value[..k])
    {
      assert value[..k + 1][..k] == value[..k];
      var r := value[k];
      if escaped {
        b := b + [r];
        escaped := false;
      } else if r == '\\' {
        escaped := true;
      } else if r == '"' {
        inQuote := !inQuote;
      } else if r == ',' && !inQuote {
        var item := TrimSpace(b);
        if item != "" {
          out := out + [item];
        }
        b := "";
      } else {
        b := b + [r];
      }
    }
    assert value[..|value|] == value;
    var item := TrimSpace(b);
    if item != "" {
      out := out + [item];
    }
  }

  // ----- what PostgreSQL prints

  /** An element of an array literal, in double quotes or bare. */
  datatype Item = Item(value: string, quoted: bool)

  predicate Plain(c: char) {
    c != '"' && c != '\\' && c != ','
  }

  /**
   Section 8.15.6 of the PostgreSQL manual quotes elements that are empty, spell NULL, or
   contain braces, commas, double quotes, backslashes or white space. Quotes around
   commas, double quotes and backslashes are all the parser relies on.
   */
  predicate Renderable(item: Item) {
    item.quoted || forall k :: 0 <= k < |item.value| ==> Plain(item.value[k])
  }

  function Spelling(item: Item): string {
    if item.quoted then Quote(item.value) else item.value
  }

  function Spellings(items: seq<Item>): (r: seq<string>)
    ensures |r| == |items|
  {
    if items == [] then [] else Spellings(items[..|items| - 1]) + [Spelling(items[|items| - 1])]
  }

  function Values(items: seq<Item>): (r: seq<string>)
    ensures |r| == |items|
  {
    if items == [] then [] else Values(items[..|items| - 1]) + [items[|items| - 1].value]
  }

  function Rendered(items: seq<Item>): string {
    "{" + Join(Spellings(items)) + "}"
  }

  ghost predicate AllRenderable(items: seq<Item>) {
    forall k :: 0 <= k < |items| ==> Renderable(items[k])
  }

  // ----- parsing undoes printing

  lemma {:induction false} RunConcat(st: State, a: string, b: string)
    ensures Run(st, a + b) == Run(Run(st, a), b)
  {
    if b == "" {
      assert a + b == a;
    } else {
      assert (a + b)[..|a + b| - 1] == a + b[..|b| - 1];
      RunConcat(st, a, b[..|b| - 1]);
    }
  }

  lemma RunOne(st: State, c: char)
    ensures Run(st, [c]) == Step(st, c)
  {
    assert [c][..0] == "";
  }

  lemma ReplaceSnoc(s: string, last: char, c: char, sub: string)
    ensures Replace(s + [last], c, sub) == Replace(s, c, sub) + if last == c then sub else [last]
  {
    assert (s + [last])[..|s|] == s;
  }

  lemma {:induction false} ReplaceConcat(a: string, b: string, c: char, sub: string)
    ensures Replace(a + b, c, sub) == Replace(a, c, sub) + Replace(b, c, sub)
  {
    if b == "" {
      assert a + b == a;
    } else {
      var front, last := b[..|b| - 1], b[|b| - 1];
      SplitLast(b);
      ReplaceConcat(a, front, c, sub);
      Associative(a, front, [last]);
      ReplaceSnoc(a + front, last, c, sub);
      ReplaceSnoc(front, last, c, sub);
      Associative(Replace(a, c, sub), Replace(front, c, sub), if last == c then sub else [last]);
    }
  }

  /** The spelling of one character between double quotes. */
  function Escaped(c: char): string {
    if c == '\\' then "\\\\" else if c == '"' then "\\\"" else [c]
  }

  lemma ReplaceOne(x: char, c: char, sub: string)
    ensures Replace([x], c, sub) == if x == c then sub else [x]
  {
    assert [x][..0] == "";
  }

  lemma EscapeOne(c: char)
    ensures Escape([c]) == Escaped(c)
  {
    ReplaceOne(c, '\\', "\\\\");
    ReplaceOne(c, '"', "\\\"");
    assert "\\\\" == "\\" + "\\";
    ReplaceConcat("\\", "\\", '"', "\\\"");
    ReplaceOne('\\', '"', "\\\"");
  }

  /** Escaping backslashes first and quotes second works character by character. */
  lemma EscapeSnoc(value: string, c: char)
    ensures Escape(value + [c]) == Escape(value) + Escaped(c)
  {
    ReplaceConcat(value, [c], '\\', "\\\\");
    ReplaceConcat(Replace(value, '\\', "\\\\"), Replace([c], '\\', "\\\\"), '"', "\\\"");
    EscapeOne(c);
  }

  /** One escaped character adds exactly that character to a quoted item. */
  lemma RunEscaped(st: State, c: char)
    requires st.inQuote && !st.escaped
    ensures Run(st, Escaped(c)) == st.(b := st.b + [c])
  {
    if c == '\\' || c == '"' {
      assert Escaped(c) == "\\" + [c];
      RunConcat(st, "\\", [c]);
      RunOne(st, '\\');
      RunOne(st.(escaped := true), c);
    } else {
      RunOne(st, c);
    }
  }

  lemma {:induction false} RunEscape(st: State, value: string)
    requires st.inQuote && !st.escaped
    ensures Run(st, Escape(value)) == st.(b := st.b + value)
  {
    if value == "" {
      assert st.b + "" == st.b;
    } else {
      var front, c := value[..|value| - 1], value[|value| - 1];
      SplitLast(value);
      RunEscape(st, front);
      EscapeSnoc(front, c);
      RunConcat(st, Escape(front), Escaped(c));
      RunEscaped(st.(b := st.b + front), c);
      Associative(st.b, front, [c]);
    }
  }

  lemma {:induction false} RunBare(st: State, value: string)
    requires !st.inQuote && !st.escaped && forall k :: 0 <= k < |value| ==> Plain(value[k])
    ensures Run(st, value) == st.(b := st.b + value)
  {
    if value == "" {
      assert st.b + "" == st.b;
    } else {
      RunBare(st, value[..|value| - 1]);
      SplitLast(value);
      Associative(st.b, value[..|value| - 1], [value[|value| - 1]]);
    }
  }

  lemma RunItem(st: State, item: Item)
    requires !st.inQuote && !st.escaped && Renderable(item)
    ensures Run(st, Spelling(item)) == st.(b := st.b + item.value)
  {
    if item.quoted {
      var open := st.(inQuote := true);
      RunConcat(st, "\"" + Escape(item.value), "\"");
      RunConcat(st, "\"", Escape(item.value));
      RunOne(st, '"');
      RunEscape(open, item.value);
      RunOne(open.(b := st.b + item.value), '"');
    } else {
      RunBare(st, item.value);
    }
  }

  /** After all items but the last are flushed, the last one is in the builder. */
  lemma {:induction false} RunItems(items: seq<Item>)
    requires items != [] && AllRenderable(items)
    ensures Run(START, Join(Spellings(items)))
         == State(Kept(Values(items[..|items| - 1])), items[|items| - 1].value, false, false)
  {
    var front, last := items[..|items| - 1], items[|items| - 1];
    if front == [] {
      RunItem(START, last);
      assert "" + last.value == last.value;
      assert Spellings(items) == [Spelling(last)];
    } else {
      RunItems(front);
      NextItem(front, last);
    }
  }

  lemma RunComma(st: State, text: string)
    requires var end := Run(st, text); !end.inQuote && !end.escaped
    ensures var end := Run(st, text); Run(st, text + ",") == end.(out := Flushed(end.out, end.b), b := "")
  {
    RunConcat(st, text, ",");
    RunOne(Run(st, text), ',');
  }

  lemma NextItem(front: seq<Item>, last: Item)
    requires front != [] && Renderable(last)
    requires Run(START, Join(Spellings(front))) ==
             State(Kept(Values(front[..|front| - 1])), front[|front| - 1].value, false, false)
    ensures Run(START, Join(Spellings(front)) + "," + Spelling(last)) ==
            State(Kept(Values(front)), last.value, false, false)
  {
    RunComma(START, Join(Spellings(front)));
    FlushLast(front);
    ItemAfterComma(Join(Spellings(front)) + ",", Kept(Values(front)), last);
  }

  lemma ItemAfterComma(text: string, out: seq<string>, last: Item)
    requires Run(START, text) == State(out, "", false, false) && Renderable(last)
    ensures Run(START, text + Spelling(last)) == State(out, last.value, false, false)
  {
    RunConcat(START, text, Spelling(last));
    RunItem(Run(START, text), last);
    assert "" + last.value == last.value;
  }

  lemma FlushLast(items: seq<Item>)
    requires items != []
    ensures Flushed(Kept(Values(items[..|items| - 1])), items[|items| - 1].value) == Kept(Values(items))
  {
    var values := Values(items);
    assert values[..|values| - 1] == Values(items[..|items| - 1]);
  }

  lemma BracesAreSolid(inner: string)
    ensures TrimSpace("{" + inner + "}") == "{" + inner + "}"
    ensures WithoutBraces("{" + inner + "}") == inner
  {
    TrimSpaceOfTrimmed("{" + inner + "}");
    assert ("{" + inner + "}")[..|inner| + 1] == "{" + inner;
  }

  /**
   The parser undoes every rendering that quotes what must be quoted, up to white space at the
   ends and blank elements.
   */
  lemma ParseUndoesRendering(items: seq<Item>)
    requires AllRenderable(items)
    ensures Parsed(Rendered(items)) == Kept(Values(items))
  {
    var inner := Join(Spellings(items));
    BracesAreSolid(inner);
    if items != [] {
      RunItems(items);
      FlushLast(items);
      if Rendered(items) == "{}" {
        assert WithoutBraces("{" + "" + "}") == "";
        assert inner == "";
      }
    }
  }

  predicate Clean(value: string) {
    value != "" && Trimmed(value)
  }

  lemma {:induction false} KeptShorter(values: seq<string>)
    ensures |Kept(values)| <= |values|
  {
    if values != [] {
      KeptShorter(values[..|values| - 1]);
    }
  }

  /** Nothing is dropped or trimmed exactly when every value is trimmed and not empty. */
  lemma {:induction false} KeptAllIff(values: seq<string>)
    ensures Kept(values) == values <==> forall k :: 0 <= k < |values| ==> Clean(values[k])
  {
    if values != [] {
      var front, last := values[..|values| - 1], values[|values| - 1];
      KeptAllIff(front);
      KeptShorter(front);
      TrimSpaceIsTrimmed(last);
      SplitLast(values);
      if Clean(last) {
        TrimSpaceOfTrimmed(last);
      }
      if Kept(values) == values {
        assert Kept(values)[..|front|] == front && Kept(values)[|front|] == last;
        assert |Kept(front)| == |front|;
      }
    }
  }

  /** So a list survives being printed by PostgreSQL and parsed exactly when its elements are trimmed and not empty. */
  lemma RoundTripIff(items: seq<Item>)
    requires AllRenderable(items)
    ensures Parsed(Rendered(items)) == Values(items) <==> forall k :: 0 <= k < |items| ==> Clean(items[k].value)
  {
    ParseUndoesRendering(items);
    KeptAllIff(Values(items));
    ValuesAt(items);
  }

  lemma {:induction false} ValuesAt(items: seq<Item>)
    ensures forall k :: 0 <= k < |items| ==> Values(items)[k] == items[k].value
  {
    if items != [] {
      ValuesAt(items[..|items| - 1]);
    }
  }

  function Items(values: seq<string>): (r: seq<Item>)
    ensures |r| == |values|
  {
    if values == [] then [] else Items(values[..|values| - 1]) + [Item(values[|values| - 1], true)]
  }

  lemma {:induction false} ItemsFacts(values: seq<string>)
    ensures AllRenderable(Items(values)) && Values(Items(values)) == values
    ensures Spellings(Items(values)) == Quoted(values)
  {
    if values != [] {
      var front := values[..|values| - 1];
      ItemsFacts(front);
      SplitLast(values);
      assert Items(values)[..|front|] == Items(front);
    }
  }

  lemma {:induction false} KeptIsClean(values: seq<string>)
    ensures forall k :: 0 <= k < |Kept(values)| ==> Clean(Kept(values)[k])
  {
    if values != [] {
      KeptIsClean(values[..|values| - 1]);
      TrimSpaceIsTrimmed(values[|values| - 1]);
    }
  }

  /** Tags written by the bot and read back unchanged are the trimmed, non-blank ones, whatever characters they hold. */
  lemma ParseUndoesPrinting(values: seq<string>)
    ensures Parsed(Printed(values)) == Kept(values)
  {
    ItemsFacts(Kept(values));
    ParseUndoesRendering(Items(Kept(values)));
    KeptIsClean(values);
    KeptAllIff(Kept(values));
  }
}
