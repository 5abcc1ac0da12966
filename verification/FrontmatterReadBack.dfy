/** Text reads back as itself (cogs/frontmatter.py), through every scanner in turn: any string written double-quoted
    with its backslashes and quotes escaped, or single-quoted with its quotes doubled, and any plain text as it is,
    alone or in a list of such, with or without a comment after it. Sections 7.3.1 to 7.3.3 and 7.4.1 of YAML 1.2.2. */
module FrontmatterReadBack {
  import opened Wrappers
  import opened Frontmatter
  import opened FrontmatterSafe

  // ---- Writing ----------------------------------------------------------------------------------

  datatype Style = InDouble | InSingle | Bare

  function EscapedOne(c: char): (unit: string)
    ensures |unit| > 0
  {
    if c == '\\' || c == '"' then ['\\', c] else [c]
  }

  function DoubledOne(c: char): (unit: string)
    ensures |unit| > 0
  {
    if c == '\'' then "''" else [c]
  }

  function Escaped(v: string): string {
    if v == "" then "" else EscapedOne(v[0]) + Escaped(v[1..])
  }

  function Doubled(v: string): string {
    if v == "" then "" else DoubledOne(v[0]) + Doubled(v[1..])
  }

  function Written(style: Style, v: string): (w: string)
    ensures !style.Bare? ==> |w| >= 2 && w[0] == w[|w| - 1] && w[0] == if style.InDouble? then '"' else '\''
    ensures style.Bare? ==> w == v
  {
    match style
    case InDouble => ['"'] + Escaped(v) + ['"']
    case InSingle => ['\''] + Doubled(v) + ['\'']
    case Bare => v
  }

  const INDICATORS := "-?:,[]{}#&*!|>'\"%@`"

  /** What YAML asks of a plain scalar: it begins with no indicator, but for `-`, `?` or `:` with something after it, and
      something follows each colon. */
  predicate StandsPlain(v: string) {
    && v != "" && (v[0] in INDICATORS ==> v[0] in "-?:" && |v| > 1 && v[1] !in " \t")
    && (forall k :: 0 <= k < |v| && v[k] == ':' ==> k + 1 < |v| && v[k + 1] !in " \t")
  }

  /** Text that can stand as a plain scalar: trimmed, not empty, no comment, nothing that is an indicator in YAML, and
      something a loader can build. */
  predicate Plain(tables: Tables, v: string) {
    && v != "" && !IsSpace(v[0]) && !IsSpace(v[|v| - 1])
    && (forall k :: 0 < k < |v| && v[k] == '#' ==> v[k - 1] !in " \t")
    && StandsPlain(v) && !tables.unconstructible(v)
  }

  lemma PlainStands(tables: Tables, v: string)
    requires v != "" && v[0] != '#'
    ensures PlainError(tables, v) <==> !StandsPlain(v) || tables.unconstructible(v)
  {
    if v[0] in "-?:" {
      assert |v| > 1 || v[|v| - 1] == v[0];
    }
    assert forall k :: 0 <= k < |v| && v[k] == ':' ==> k < |v| - 1 || v[|v| - 1] == ':';
  }

  /** Text that can stand as an item of a list: no comma, bracket, `?` or quote besides, and no colon of a mapping. */
  predicate PlainItem(tables: Tables, v: string) {
    && Plain(tables, v)
    && (forall k :: 0 <= k < |v| ==> v[k] !in ",[]{}?\"'")
    && (forall k :: 0 <= k < |v| && v[k] == ':' ==> 0 < k < |v| - 1 && !IsSpace(v[k + 1]))
  }

  /** What an item can be written as: any string quoted, or plain text bare. */
  predicate Writable(tables: Tables, style: Style, v: string) {
    style.Bare? ==> PlainItem(tables, v)
  }

  /** What it reads as: quoted text is a string, plain text is one where the tables say so. */
  function ReadAs(tables: Tables, style: Style, v: string): Scalar {
    Scalar(v, if style.Bare? then tables.plainIsString(v) else true)
  }

  /** Some text, and a comment after it if there is one. */
  function Commented(text: string, comment: Option<string>): string {
    match comment
    case None => text
    case Some(c) => text + " #" + c
  }

  datatype Item = Item(style: Style, v: string)

  function Join(items: seq<Item>): string {
    if items == [] then ""
    else if |items| == 1 then Written(items[0].style, items[0].v)
    else Written(items[0].style, items[0].v) + ", " + Join(items[1..])
  }

  function Listed(items: seq<Item>): string {
    "[" + Join(items) + "]"
  }

  // ---- Text within text --------------------------------------------------------------------------

  predicate Has(s: string, i: nat, w: string) {
    i + |w| <= |s| && forall k :: 0 <= k < |w| ==> s[i + k] == w[k]
  }

  lemma HasParts(s: string, i: nat, a: string, b: string)
    requires Has(s, i, a + b)
    ensures Has(s, i, a) && Has(s, i + |a|, b)
  {
    assert forall k :: 0 <= k < |a| ==> (a + b)[k] == a[k];
    forall k | 0 <= k < |b| ensures s[i + |a| + k] == b[k] {
      assert (a + b)[|a| + k] == b[k];
    }
  }

  lemma HasAt(s: string, i: nat, w: string, k: nat)
    requires Has(s, i, w) && k < |w|
    ensures s[i + k] == w[k]
  {
  }

  // ---- Unescaping, and undoubling ---------------------------------------------------------------

  lemma UnescapeOne(x: string, i: nat, c: char, out: string)
    requires Has(x, i, EscapedOne(c))
    ensures UnescapeFrom(x, i, out) == UnescapeFrom(x, i + |EscapedOne(c)|, out + [c])
  {
    hide HexEscape, Width;
    HasAt(x, i, EscapedOne(c), 0);
    if |EscapedOne(c)| == 2 {
      HasAt(x, i, EscapedOne(c), 1);
    }
  }

  lemma {:induction false} UnescapeEscaped(x: string, i: nat, v: string, out: string)
    requires Has(x, i, Escaped(v)) && i + |Escaped(v)| == |x|
    ensures UnescapeFrom(x, i, out) == Ok(out + v)
    decreases |v|
  {
    hide EscapedOne, Has, HexEscape, Named, Width;
    if v == "" {
      assert out + "" == out;
    } else {
      var unit := EscapedOne(v[0]);
      HasParts(x, i, unit, Escaped(v[1..]));
      UnescapeOne(x, i, v[0], out);
      UnescapeEscaped(x, i + |unit|, v[1..], out + [v[0]]);
      assert (out + [v[0]]) + v[1..] == out + v;
    }
  }

  lemma {:induction false} Undoubled(v: string)
    ensures ReplacePairs(Doubled(v), "'") == v
    ensures '\'' !in ReplacePairs(Doubled(v), "")
  {
    if v != "" {
      Undoubled(v[1..]);
      var unit := DoubledOne(v[0]);
      assert Doubled(v)[|unit|..] == Doubled(v[1..]);
      assert "'" + v[1..] == v || v[0] != '\'';
      assert [v[0]] + v[1..] == v;
    }
  }

  lemma ScalarWritten(tables: Tables, style: Style, v: string)
    requires style.Bare? ==> Plain(tables, v)
    ensures ParseScalar(tables, Written(style, v)) == Ok(ReadAs(tables, style, v))
  {
    hide UnescapeFrom, ReplacePairs;
    var w := Written(style, v);
    match style
    case InDouble =>
      assert Inner(w) == Escaped(v) && Has(Inner(w), 0, Escaped(v));
      UnescapeEscaped(Inner(w), 0, v, "");
      assert "" + v == v;
    case InSingle =>
      assert Inner(w) == Doubled(v);
      Undoubled(v);
    case Bare => PlainStands(tables, v);
  }

  // ---- The scans over quoted text ---------------------------------------------------------------

  /** A closing single quote is one only where no other follows. */
  predicate Stops(s: string, i: nat) {
    i < |s| ==> s[i] != '\''
  }

  lemma {:induction false} ScanEscaped(s: string, i: nat, v: string, stack: seq<char>)
    requires Has(s, i, Escaped(v))
    ensures ScanFrom(s, i, Double, stack) == ScanFrom(s, i + |Escaped(v)|, Double, stack)
    decreases |v|
  {
    if v != "" {
      var unit := EscapedOne(v[0]);
      HasParts(s, i, unit, Escaped(v[1..]));
      assert s[i + 0] == unit[0];
      ScanEscaped(s, i + |unit|, v[1..], stack);
    }
  }

  lemma {:induction false} ScanDoubled(s: string, i: nat, v: string, stack: seq<char>)
    requires Has(s, i, Doubled(v))
    ensures ScanFrom(s, i, Single, stack) == ScanFrom(s, i + |Doubled(v)|, Single, stack)
    decreases |v|
  {
    if v != "" {
      var unit := DoubledOne(v[0]);
      HasParts(s, i, unit, Doubled(v[1..]));
      assert s[i + 0] == unit[0] && (|unit| == 2 ==> s[i + 1] == unit[1]);
      ScanDoubled(s, i + |unit|, v[1..], stack);
    }
  }

  lemma QuotedParts(s: string, i: nat, q: char, body: string)
    requires Has(s, i, [q] + body + [q])
    ensures i + 2 + |body| <= |s| && s[i] == q && Has(s, i + 1, body) && s[i + 1 + |body|] == q
  {
    HasParts(s, i, [q] + body, [q]);
    HasParts(s, i, [q], body);
    hide Has;
    HasAt(s, i, [q], 0);
    HasAt(s, i + 1 + |body|, [q], 0);
  }

  lemma WrittenParts(s: string, i: nat, style: Style, v: string)
    requires Has(s, i, Written(style, v)) && !style.Bare?
    ensures var body := if style.InDouble? then Escaped(v) else Doubled(v);
            var q := if style.InDouble? then '"' else '\'';
            && |Written(style, v)| == |body| + 2 && i + 2 + |body| <= |s|
            && s[i] == q && Has(s, i + 1, body) && s[i + 1 + |body|] == q
  {
    hide Has, Escaped, Doubled;
    if style.InDouble? {
      QuotedParts(s, i, '"', Escaped(v));
    } else {
      QuotedParts(s, i, '\'', Doubled(v));
    }
  }

  /** Over plain text the scan goes on: it opens nothing, closes nothing and starts no comment. */
  lemma {:induction false} ScanBare(tables: Tables, s: string, i: nat, v: string, k: nat, stack: seq<char>)
    requires PlainItem(tables, v) && Has(s, i, v) && k <= |v|
    ensures ScanFrom(s, i + k, NoQuote, stack) == ScanFrom(s, i + |v|, NoQuote, stack)
    decreases |v| - k
  {
    hide IsSpace;
    if k < |v| {
      assert s[i + k] == v[k] && (k > 0 ==> s[i + (k - 1)] == v[k - 1]);
      ScanBare(tables, s, i, v, k + 1, stack);
    }
  }

  lemma ScanWritten(tables: Tables, s: string, i: nat, style: Style, v: string, stack: seq<char>)
    requires Writable(tables, style, v)
    requires Has(s, i, Written(style, v)) && Stops(s, i + |Written(style, v)|)
    ensures ScanFrom(s, i, NoQuote, stack) == ScanFrom(s, i + |Written(style, v)|, NoQuote, stack)
  {
    hide Written, Escaped, Doubled, PlainItem;
    if !style.Bare? {
      WrittenParts(s, i, style, v);
    }
    match style
    case InDouble => ScanEscaped(s, i + 1, v, stack);
    case InSingle => ScanDoubled(s, i + 1, v, stack);
    case Bare => ScanBare(tables, s, i, v, 0, stack);
  }

  lemma SplitEscapedOne(inner: string, i: nat, c: char, buf: string, items: seq<string>)
    requires Has(inner, i, EscapedOne(c))
    ensures SplitFrom(inner, i, Double, buf, items) == SplitFrom(inner, i + |EscapedOne(c)|, Double, buf + EscapedOne(c), items)
  {
    hide Trim;
    assert inner[i + 0] == EscapedOne(c)[0];
    if |EscapedOne(c)| == 2 {
      HasAt(inner, i, EscapedOne(c), 1);
      assert Slice(inner, i, i + 2) == EscapedOne(c);
    }
  }

  lemma SplitDoubledOne(inner: string, i: nat, c: char, buf: string, items: seq<string>)
    requires Has(inner, i, DoubledOne(c))
    ensures SplitFrom(inner, i, Single, buf, items) == SplitFrom(inner, i + |DoubledOne(c)|, Single, buf + DoubledOne(c), items)
  {
    hide Trim;
    assert inner[i + 0] == DoubledOne(c)[0];
    if |DoubledOne(c)| == 2 {
      HasAt(inner, i, DoubledOne(c), 1);
      assert Slice(inner, i + 1, i + 2) == "'";
    }
  }

  lemma {:induction false} SplitEscaped(inner: string, i: nat, v: string, buf: string, items: seq<string>)
    requires Has(inner, i, Escaped(v))
    ensures SplitFrom(inner, i, Double, buf, items) == SplitFrom(inner, i + |Escaped(v)|, Double, buf + Escaped(v), items)
    decreases |v|
  {
    hide SplitFrom, Has;
    if v != "" {
      var unit := EscapedOne(v[0]);
      HasParts(inner, i, unit, Escaped(v[1..]));
      SplitEscapedOne(inner, i, v[0], buf, items);
      SplitEscaped(inner, i + |unit|, v[1..], buf + unit, items);
      assert (buf + unit) + Escaped(v[1..]) == buf + Escaped(v);
    } else {
      assert buf + "" == buf;
    }
  }

  lemma {:induction false} SplitDoubled(inner: string, i: nat, v: string, buf: string, items: seq<string>)
    requires Has(inner, i, Doubled(v))
    ensures SplitFrom(inner, i, Single, buf, items) == SplitFrom(inner, i + |Doubled(v)|, Single, buf + Doubled(v), items)
    decreases |v|
  {
    hide SplitFrom, Has;
    if v != "" {
      var unit := DoubledOne(v[0]);
      HasParts(inner, i, unit, Doubled(v[1..]));
      SplitDoubledOne(inner, i, v[0], buf, items);
      SplitDoubled(inner, i + |unit|, v[1..], buf + unit, items);
      assert (buf + unit) + Doubled(v[1..]) == buf + Doubled(v);
    } else {
      assert buf + "" == buf;
    }
  }

  lemma SplitInDouble(inner: string, i: nat, v: string, buf: string, items: seq<string>)
    requires i + 2 + |Escaped(v)| <= |inner| && inner[i] == '"' && Has(inner, i + 1, Escaped(v)) && inner[i + 1 + |Escaped(v)|] == '"'
    requires Trim(buf) == ""
    ensures SplitFrom(inner, i, NoQuote, buf, items)
         == SplitFrom(inner, i + 2 + |Escaped(v)|, NoQuote, buf + Written(InDouble, v), items)
  {
    hide Escaped, Trim, Has, Slice;
    SplitEscaped(inner, i + 1, v, buf + ['"'], items);
    assert ((buf + ['"']) + Escaped(v)) + ['"'] == buf + Written(InDouble, v);
  }

  lemma SplitInSingle(inner: string, i: nat, v: string, buf: string, items: seq<string>)
    requires i + 2 + |Doubled(v)| <= |inner| && inner[i] == '\'' && Has(inner, i + 1, Doubled(v)) && inner[i + 1 + |Doubled(v)|] == '\''
    requires Trim(buf) == "" && Slice(inner, i + 2 + |Doubled(v)|, i + 3 + |Doubled(v)|) != "'"
    ensures SplitFrom(inner, i, NoQuote, buf, items)
         == SplitFrom(inner, i + 2 + |Doubled(v)|, NoQuote, buf + Written(InSingle, v), items)
  {
    hide Doubled, Trim, Has, Slice;
    SplitDoubled(inner, i + 1, v, buf + ['\''], items);
    assert ((buf + ['\'']) + Doubled(v)) + ['\''] == buf + Written(InSingle, v);
  }

  lemma NoneFollows(inner: string, i: nat)
    requires Stops(inner, i)
    ensures Slice(inner, i, i + 1) != "'"
  {
  }

  lemma {:induction false} SplitBare(tables: Tables, inner: string, i: nat, v: string, k: nat, buf: string, items: seq<string>)
    requires PlainItem(tables, v) && Has(inner, i, v) && k <= |v|
    ensures SplitFrom(inner, i + k, NoQuote, buf, items) == SplitFrom(inner, i + |v|, NoQuote, buf + v[k..], items)
    decreases |v| - k
  {
    hide StandsPlain, IsSpace, Trim;
    if k < |v| {
      assert inner[i + k] == v[k];
      SplitBare(tables, inner, i, v, k + 1, buf + [v[k]], items);
      assert (buf + [v[k]]) + v[k + 1..] == buf + v[k..];
    } else {
      assert buf + v[k..] == buf;
    }
  }

  lemma SplitWritten(tables: Tables, inner: string, i: nat, style: Style, v: string, buf: string, items: seq<string>)
    requires Writable(tables, style, v)
    requires Has(inner, i, Written(style, v)) && Stops(inner, i + |Written(style, v)|) && Trim(buf) == ""
    ensures SplitFrom(inner, i, NoQuote, buf, items)
         == SplitFrom(inner, i + |Written(style, v)|, NoQuote, buf + Written(style, v), items)
  {
    hide Escaped, Doubled, Trim, Has, SplitFrom, Slice, Stops, Written, PlainItem;
    if !style.Bare? {
      WrittenParts(inner, i, style, v);
    }
    match style
    case Bare =>
      SplitBare(tables, inner, i, v, 0, buf, items);
      assert v[0..] == v;
    case InDouble => SplitInDouble(inner, i, v, buf, items);
    case InSingle =>
      NoneFollows(inner, i + |Written(style, v)|);
      SplitInSingle(inner, i, v, buf, items);
  }

  // ---- Lists ------------------------------------------------------------------------------------

  lemma {:induction false} ScanJoin(tables: Tables, s: string, i: nat, items: seq<Item>, stack: seq<char>)
    requires AllWritable(tables, items)
    requires Has(s, i, Join(items)) && Stops(s, i + |Join(items)|)
    ensures ScanFrom(s, i, NoQuote, stack) == ScanFrom(s, i + |Join(items)|, NoQuote, stack)
    decreases |items|
  {
    hide Written, Writable;
    if |items| == 1 {
      ScanWritten(tables, s, i, items[0].style, items[0].v, stack);
    } else if items != [] {
      var w := Written(items[0].style, items[0].v);
      HasParts(s, i, w + ", ", Join(items[1..]));
      HasParts(s, i, w, ", ");
      HasAt(s, i + |w|, ", ", 0);
      HasAt(s, i + |w|, ", ", 1);
      ScanWritten(tables, s, i, items[0].style, items[0].v, stack);
      ScanJoin(tables, s, i + |w| + 2, items[1..], stack);
    }
  }

  function AllWritten(items: seq<Item>): seq<string> {
    if items == [] then [] else [Written(items[0].style, items[0].v)] + AllWritten(items[1..])
  }

  predicate AllWritable(tables: Tables, items: seq<Item>) {
    forall k :: 0 <= k < |items| ==> Writable(tables, items[k].style, items[k].v)
  }

  function Values(tables: Tables, items: seq<Item>): seq<Scalar> {
    if items == [] then [] else [ReadAs(tables, items[0].style, items[0].v)] + Values(tables, items[1..])
  }

  lemma TrimBounded(buf: string, text: string)
    requires Bounded(text) && (buf == "" || buf == " ")
    ensures Trim(buf + text) == text && Trim(buf) == ""
  {
    hide IsSpace;
    Marks();
    assert "" + text == text && ([' '] + text)[1..] == text;
    assert " "[1..] == "" && " "[..0] == "";
  }

  /** Whitespace before an item is trimmed, and nothing else. */
  lemma TrimBefore(tables: Tables, buf: string, style: Style, v: string)
    requires Writable(tables, style, v) && (buf == "" || buf == " ")
    ensures Trim(buf + Written(style, v)) == Written(style, v) && Trim(buf) == "" && Written(style, v) != ""
  {
    hide Written, StandsPlain, IsSpace, Trim;
    Marks();
    TrimBounded(buf, Written(style, v));
  }

  lemma TrimQuoted(tables: Tables, buf: string)
    requires buf == "" || buf == " "
    ensures Trim(buf) == ""
  {
    TrimBefore(tables, buf, InDouble, "");
  }

  /** A plain item is neither a mapping nor a flow indicator. */
  lemma {:induction false} NotAMapping(tables: Tables, v: string, k: nat)
    requires PlainItem(tables, v)
    ensures !LooksLikeMappingFrom(v, k)
    decreases |v| - k
  {
    hide StandsPlain, IsSpace;
    if k < |v| {
      NotAMapping(tables, v, k + 1);
    }
  }

  lemma ItemWritten(tables: Tables, style: Style, v: string)
    requires Writable(tables, style, v)
    ensures ParseItem(tables, Written(style, v)) == Ok(ReadAs(tables, style, v))
  {
    hide ParseScalar, StandsPlain, IsSpace;
    ScalarWritten(tables, style, v);
    if style.Bare? {
      NotAMapping(tables, v, 0);
      assert v[0] !in ",[]{}?\"'";
    }
    hide Written;
  }

  lemma {:induction false} SplitJoin(tables: Tables, inner: string, i: nat, items: seq<Item>, buf: string, acc: seq<string>)
    requires AllWritable(tables, items)
    requires Has(inner, i, Join(items)) && i + |Join(items)| == |inner| && (buf == "" || buf == " ")
    ensures SplitFrom(inner, i, NoQuote, buf, acc) == Ok(acc + AllWritten(items))
    decreases |items|
  {
    hide Written, Trim, Writable;
    TrimQuoted(tables, buf);
    if items == [] {
      assert acc + [] == acc;
    } else {
      var style, v := items[0].style, items[0].v;
      var w := Written(style, v);
      TrimBefore(tables, buf, style, v);
      if |items| == 1 {
        SplitWritten(tables, inner, i, style, v, buf, acc);
        assert AllWritten(items) == [w] by { assert AllWritten(items[1..]) == []; }
      } else {
        HasParts(inner, i, w + ", ", Join(items[1..]));
        HasParts(inner, i, w, ", ");
        HasAt(inner, i + |w|, ", ", 0);
        HasAt(inner, i + |w|, ", ", 1);
        SplitWritten(tables, inner, i, style, v, buf, acc);
        assert "" + [' '] == " ";
        SplitJoin(tables, inner, i + |w| + 2, items[1..], " ", acc + [w]);
        assert acc + AllWritten(items) == (acc + [w]) + AllWritten(items[1..]);
      }
    }
  }

  lemma {:induction false} ItemsWritten(tables: Tables, items: seq<Item>)
    requires AllWritable(tables, items)
    ensures ParseItems(tables, AllWritten(items)) == Ok(Values(tables, items))
  {
    hide Written, ParseScalar, ParseItem, Writable, ReadAs;
    if items != [] {
      ItemWritten(tables, items[0].style, items[0].v);
      assert AllWritten(items)[1..] == AllWritten(items[1..]);
      ItemsWritten(tables, items[1..]);
    }
  }

  // ---- Comments ---------------------------------------------------------------------------------

  lemma {:induction false} TrimRightKeeps(x: string, n: nat)
    requires 0 < n <= |x| && !IsSpace(x[n - 1])
    ensures n <= |TrimRight(x)| && TrimRight(x) <= x
  {
    hide IsSpace;
    if IsSpace(x[|x| - 1]) {
      TrimRightKeeps(x[..|x| - 1], n);
    }
  }

  predicate Framed(text: string) {
    text != "" && text[0] in "\"'[" && text[|text| - 1] in "\"']"
  }

  predicate Followed(s: string, text: string) {
    Has(s, 0, text) && (s == text || (|s| >= |text| + 2 && s[|text|] == ' ' && s[|text| + 1] == '#'))
  }

  predicate Bounded(text: string) {
    text != "" && !IsSpace(text[0]) && !IsSpace(text[|text| - 1])
  }

  /** Trimmed, the text stands alone, or the comment's first two characters follow it. */
  lemma TrimCommented(text: string, comment: Option<string>)
    requires Bounded(text)
    ensures Followed(Trim(Commented(text, comment)), text)
  {
    hide IsSpace, TrimRight;
    var raw := Commented(text, comment);
    Marks();
    assert raw[0] == text[0];
    assert TrimLeft(raw) == raw;
    match comment
    case None =>
      TrimRightKeeps(raw, |raw|);
    case Some(c) =>
      assert raw[|text|] == ' ' && raw[|text| + 1] == '#';
      TrimRightKeeps(raw, |text| + 2);
  }

  lemma ScanTail(s: string, text: string) returns (end: nat)
    requires Framed(text) && Followed(s, text)
    ensures end <= |s| && ScanFrom(s, |text|, NoQuote, []) == Ok(end)
    ensures s[..end] == text || s[..end] == text + [' ']
  {
    if s == text {
      end := |text|;
    } else {
      end := |text| + 1;
      assert ScanFrom(s, |text|, NoQuote, []) == ScanFrom(s, end, NoQuote, []);
    }
  }

  lemma StripScanned(raw: string, text: string)
    requires Framed(text) && Followed(Trim(raw), text)
    requires ScanFrom(Trim(raw), 0, NoQuote, []) == ScanFrom(Trim(raw), |text|, NoQuote, [])
    ensures Strip(raw) == Ok(text)
  {
    hide IsSpace, TrimRight, Trim, ScanFrom;
    Marks();
    HasAt(Trim(raw), 0, text, 0);
    TrimRightKeeps(text, |text|);
    TrimRightSnoc(text, ' ');
    var end := ScanTail(Trim(raw), text);
    var s := Trim(raw);
    assert TrimRight(text) == text && TrimRight(s[..end]) == text;
    assert s[0] == text[0] && s[0] != '#' && s[0] in "\"'[{";
  }

  /** The comment is stripped from text that opens with a quote or a bracket and that the scan reads to its end. */
  lemma StripCommented(text: string, comment: Option<string>)
    requires Framed(text)
    requires forall s: string :: Has(s, 0, text) && Stops(s, |text|) ==>
               ScanFrom(s, 0, NoQuote, []) == ScanFrom(s, |text|, NoQuote, [])
    ensures Strip(Commented(text, comment)) == Ok(text)
  {
    hide Has, ScanFrom, Trim, Strip, IsSpace;
    Marks();
    TrimCommented(text, comment);
    var s := Trim(Commented(text, comment));
    assert Stops(s, |text|);
    StripScanned(Commented(text, comment), text);
  }

  lemma Marks()
    ensures !IsSpace('"') && !IsSpace('\'') && !IsSpace('[') && !IsSpace(']') && !IsSpace('#') && IsSpace(' ')
  {
  }

  // ---- The theorems -----------------------------------------------------------------------------

  /** Every string, quoted either way, with or without a comment after it, reads back as itself, as a string. */
  lemma ScalarReadsBack(tables: Tables, style: Style, v: string, comment: Option<string>)
    requires !style.Bare?
    ensures ReadValue(tables, Commented(Written(style, v), comment)) == Ok(One(Scalar(v, true)))
  {
    hide Strip, ParseScalar, ScanFrom, Has, Stops, Escaped, Doubled;
    var w := Written(style, v);
    forall s: string | Has(s, 0, w) && Stops(s, |w|)
      ensures ScanFrom(s, 0, NoQuote, []) == ScanFrom(s, |w|, NoQuote, [])
    {
      ScanWritten(tables, s, 0, style, v, []);
    }
    StripCommented(w, comment);
    ScalarWritten(tables, style, v);
  }

  /** Up to the comment after it, plain text has none. */
  lemma {:induction false} FirstCommentAfter(s: string, text: string, i: nat)
    requires Followed(s, text) && Bounded(text) && i <= |text|
    requires forall k :: 0 < k < |text| && text[k] == '#' ==> text[k - 1] !in " \t"
    ensures FirstComment(s, i) == if s == text then None else Some(|text|)
    decreases |text| - i
  {
    if i < |text| {
      assert s[i] == text[i] && (i + 1 < |text| ==> s[i + 1] == text[i + 1]);
      FirstCommentAfter(s, text, i + 1);
    }
  }

  lemma StripPlain(tables: Tables, v: string, comment: Option<string>)
    requires Plain(tables, v)
    ensures Strip(Commented(v, comment)) == Ok(v)
  {
    hide IsSpace, TrimRight, Trim, FirstComment;
    var s := Trim(Commented(v, comment));
    TrimCommented(v, comment);
    FirstCommentAfter(s, v, 0);
    assert s[0] == v[0] && v[0] !in "\"'[{";
    TrimRightKeeps(v, |v|);
    assert TrimRight(v) == v;
    if s != v {
      assert s[..|v|] == v;
    }
  }

  /** Every plain text, with or without a comment after it, reads back as itself, as the string or the other scalar
      that the tables say it is. */
  lemma PlainReadsBack(tables: Tables, v: string, comment: Option<string>)
    requires Plain(tables, v)
    ensures ReadValue(tables, Commented(v, comment)) == Ok(One(Scalar(v, tables.plainIsString(v))))
  {
    hide Strip, ParseScalar, IsSpace;
    StripPlain(tables, v, comment);
    ScalarWritten(tables, Bare, v);
    assert v[0] != '[';
  }

  lemma ScanListed(tables: Tables, s: string, items: seq<Item>)
    requires AllWritable(tables, items) && Has(s, 0, Listed(items))
    ensures ScanFrom(s, 0, NoQuote, []) == ScanFrom(s, |Listed(items)|, NoQuote, [])
  {
    hide Join, AllWritable;
    var n := |Join(items)|;
    HasParts(s, 0, "[" + Join(items), "]");
    HasParts(s, 0, "[", Join(items));
    HasAt(s, 0, "[", 0);
    HasAt(s, 1 + n, "]", 0);
    assert [] + [']'] == [']'] && [']'][..0] == [];
    ScanJoin(tables, s, 1, items, [']']);
  }

  /** Every list of strings, each quoted either way or standing as plain text, with or without a comment after it, reads
      back as itself. */
  lemma ListReadsBack(tables: Tables, items: seq<Item>, comment: Option<string>)
    requires AllWritable(tables, items)
    ensures ReadValue(tables, Commented(Listed(items), comment)) == Ok(Many(Values(tables, items)))
  {
    hide Strip, ParseItems, ScanFrom, Has, Stops, Join, SplitFrom, AllWritable;
    var text := Listed(items);
    forall s: string | Has(s, 0, text) && Stops(s, |text|)
      ensures ScanFrom(s, 0, NoQuote, []) == ScanFrom(s, |text|, NoQuote, [])
    {
      ScanListed(tables, s, items);
    }
    StripCommented(text, comment);
    assert Inner(text) == Join(items);
    HasWhole(Join(items));
    SplitJoin(tables, Join(items), 0, items, "", []);
    assert [] + AllWritten(items) == AllWritten(items);
    ItemsWritten(tables, items);
  }

  lemma HasWhole(w: string)
    ensures Has(w, 0, w)
  {
  }
}
