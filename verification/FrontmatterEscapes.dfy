/** Which quoted and plain texts are read, and as what (cogs/frontmatter.py:107-127, 609-702), both ways: what is spelled by
    the rules reads as what it spells, and nothing else is read. Sections 5.7, 7.3.1 and 7.3.2 of YAML 1.2.2. */
module FrontmatterEscapes {
  import opened Wrappers
  import opened Frontmatter
  import opened FrontmatterSafe
  import opened FrontmatterReadBack

  // ---- Spelling ---------------------------------------------------------------------------------

  /** A character of a double-quoted text stands as itself, is named by a letter, or is given by its code point. */
  datatype Spelling = AsItself | ByLetter(letter: char) | ByCode(kind: char, digits: string)

  datatype Spelt = Spelt(c: char, how: Spelling)

  /** The letters that name a character. */
  function Letters(c: char): string {
    match c
    case '\0' => "0"
    case '\U{0007}' => "a"
    case '\U{0008}' => "b"
    case '\t' => "t\t"
    case '\n' => "n"
    case '\U{000B}' => "v"
    case '\U{000C}' => "f"
    case '\r' => "r"
    case '\U{001B}' => "e"
    case ' ' => " "
    case '"' => "\""
    case '/' => "/"
    case '\\' => "\\"
    case '\U{0085}' => "N"
    case '\U{00A0}' => "_"
    case '\U{2028}' => "L"
    case '\U{2029}' => "P"
    case _ => ""
  }

  /** The digits write the number to the base of sixteen, small or large. */
  predicate WritesNumber(digits: string, n: nat) {
    if digits == "" then n == 0
    else
      var last := digits[|digits| - 1];
      && (last == "0123456789abcdef"[n % 16] || last == "0123456789ABCDEF"[n % 16])
      && WritesNumber(digits[..|digits| - 1], n / 16)
  }

  predicate Spells(s: Spelt) {
    match s.how
    case AsItself => s.c != '\\' && s.c != '"'
    case ByLetter(letter) => letter in Letters(s.c)
    case ByCode(kind, digits) =>
      && ((kind == 'x' && |digits| == 2) || (kind == 'u' && |digits| == 4) || (kind == 'U' && |digits| == 8))
      && WritesNumber(digits, s.c as int)
  }

  predicate AllSpell(spelt: seq<Spelt>) {
    forall s :: s in spelt ==> Spells(s)
  }

  function Unit(s: Spelt): (unit: string)
    ensures unit != ""
  {
    match s.how
    case AsItself => [s.c]
    case ByLetter(letter) => ['\\', letter]
    case ByCode(kind, digits) => ['\\', kind] + digits
  }

  function TextOf(spelt: seq<Spelt>): string {
    if spelt == [] then "" else Unit(spelt[0]) + TextOf(spelt[1..])
  }

  function CharsOf(spelt: seq<Spelt>): string {
    if spelt == [] then "" else [spelt[0].c] + CharsOf(spelt[1..])
  }

  // ---- Letters and digits -----------------------------------------------------------------------

  lemma LetterNames(letter: char, c: char)
    ensures Named(letter) == Some(c) <==> letter in Letters(c)
  {
  }

  lemma DigitWrites(digit: char, n: nat)
    requires n < 16
    ensures digit == "0123456789abcdef"[n] || digit == "0123456789ABCDEF"[n] <==> IsHex(digit) && HexDigit(digit) == n
  {
  }

  lemma {:induction false} NumberRead(digits: string, n: nat)
    ensures WritesNumber(digits, n) <==> (forall k :: 0 <= k < |digits| ==> IsHex(digits[k])) && Hex(digits) == n
  {
    hide IsHex, HexDigit;
    if digits != "" {
      var m := |digits| - 1;
      NumberRead(digits[..m], n / 16);
      DigitWrites(digits[m], n % 16);
      assert n == 16 * (n / 16) + n % 16;
      if forall k :: 0 <= k < |digits| ==> IsHex(digits[k]) {
        assert forall k :: 0 <= k < m ==> digits[..m][k] == digits[k];
        DigitSmall(digits[m]);
      }
    }
  }

  lemma DigitSmall(digit: char)
    requires IsHex(digit)
    ensures HexDigit(digit) < 16
  {
  }

  // ---- Reading what is spelled ------------------------------------------------------------------

  /** One unit at `i` is read as its character. */
  lemma UnitRead(inner: string, i: nat, s: Spelt, out: string)
    requires Spells(s) && Has(inner, i, Unit(s))
    ensures UnescapeFrom(inner, i, out) == UnescapeFrom(inner, i + |Unit(s)|, out + [s.c])
  {
    hide Letters, WritesNumber, HexEscape, Named;
    HasAt(inner, i, Unit(s), 0);
    match s.how
    case AsItself =>
    case ByLetter(letter) =>
      HasAt(inner, i, Unit(s), 1);
      LetterNames(letter, s.c);
    case ByCode(kind, digits) =>
      HasAt(inner, i, Unit(s), 1);
      CodeRead(inner, i, s);
      NotALetter(kind);
  }

  lemma NotALetter(kind: char)
    requires kind == 'x' || kind == 'u' || kind == 'U'
    ensures Named(kind).None?
  {
  }

  lemma CodeRead(inner: string, i: nat, s: Spelt)
    requires Spells(s) && s.how.ByCode? && Has(inner, i, Unit(s))
    ensures HexEscape(inner, i, |s.how.digits|) == Ok(s.c)
  {
    hide WritesNumber;
    var digits := s.how.digits;
    NumberRead(digits, s.c as int);
    HasParts(inner, i, ['\\', s.how.kind], digits);
    assert Slice(inner, i + 2, i + 2 + |digits|) == digits;
  }

  lemma {:induction false} SpeltRead(inner: string, i: nat, spelt: seq<Spelt>, out: string)
    requires AllSpell(spelt) && Has(inner, i, TextOf(spelt)) && i + |TextOf(spelt)| == |inner|
    ensures UnescapeFrom(inner, i, out) == Ok(out + CharsOf(spelt))
    decreases |spelt|
  {
    hide Spells, Unit, Has, UnescapeFrom;
    if spelt == [] {
      AtTheEnd(inner, out);
      assert out + "" == out;
    } else {
      HasParts(inner, i, Unit(spelt[0]), TextOf(spelt[1..]));
      UnitRead(inner, i, spelt[0], out);
      SpeltRead(inner, i + |Unit(spelt[0])|, spelt[1..], out + [spelt[0].c]);
      assert out + CharsOf(spelt) == (out + [spelt[0].c]) + CharsOf(spelt[1..]);
    }
  }

  lemma AtTheEnd(inner: string, out: string)
    ensures UnescapeFrom(inner, |inner|, out) == Ok(out)
  {
  }

  // ---- Spelling what is read --------------------------------------------------------------------

  /** What is read at `i`, if it is read, is the unit of some character. */
  lemma ReadOne(inner: string, i: nat, out: string) returns (s: Spelt)
    requires i < |inner| && UnescapeFrom(inner, i, out).Ok?
    ensures Spells(s) && i + |Unit(s)| <= |inner| && inner[i..i + |Unit(s)|] == Unit(s)
    ensures UnescapeFrom(inner, i, out) == UnescapeFrom(inner, i + |Unit(s)|, out + [s.c])
  {
    hide Letters, WritesNumber, HexEscape, Named;
    if inner[i] != '\\' {
      s := Spelt(inner[i], AsItself);
    } else if Named(inner[i + 1]).Some? {
      s := Spelt(Named(inner[i + 1]).value, ByLetter(inner[i + 1]));
      LetterNames(inner[i + 1], s.c);
    } else {
      s := ReadCode(inner, i, out);
    }
  }

  lemma ReadCode(inner: string, i: nat, out: string) returns (s: Spelt)
    requires i + 1 < |inner| && inner[i] == '\\' && Named(inner[i + 1]).None? && UnescapeFrom(inner, i, out).Ok?
    ensures Spells(s) && i + |Unit(s)| <= |inner| && inner[i..i + |Unit(s)|] == Unit(s)
    ensures UnescapeFrom(inner, i, out) == UnescapeFrom(inner, i + |Unit(s)|, out + [s.c])
  {
    hide WritesNumber, HexEscape, Named, Letters, Slice;
    var code := inner[i + 1];
    var width := Width(code).value;
    var digits := Slice(inner, i + 2, i + 2 + width);
    CodeWrites(inner, i, width);
    s := Spelt(HexEscape(inner, i, width).value, ByCode(code, digits));
    assert inner[i..i + 2 + width] == [inner[i], code] + inner[i + 2..i + 2 + width];
  }

  lemma CodeWrites(inner: string, i: nat, width: nat)
    requires i + 2 <= |inner| && HexEscape(inner, i, width).Ok? && width > 0
    ensures var digits := Slice(inner, i + 2, i + 2 + width);
            && |digits| == width && i + 2 + width <= |inner| && inner[i + 2..i + 2 + width] == digits
            && WritesNumber(digits, HexEscape(inner, i, width).value as int)
  {
    hide WritesNumber, IsHex, Hex;
    var digits := Slice(inner, i + 2, i + 2 + width);
    assert forall k :: 0 <= k < |digits| ==> IsHex(digits[k]);
    NumberRead(digits, Hex(digits));
  }

  lemma {:induction false} ReadIsSpelt(inner: string, i: nat, out: string) returns (spelt: seq<Spelt>)
    requires i <= |inner| && UnescapeFrom(inner, i, out).Ok?
    ensures AllSpell(spelt) && inner[i..] == TextOf(spelt)
    ensures UnescapeFrom(inner, i, out) == Ok(out + CharsOf(spelt))
    decreases |inner| - i
  {
    hide Spells, Unit, UnescapeFrom;
    if i == |inner| {
      spelt := [];
      AtTheEnd(inner, out);
      assert out + "" == out;
    } else {
      var s := ReadOne(inner, i, out);
      var n := i + |Unit(s)|;
      var rest := ReadIsSpelt(inner, n, out + [s.c]);
      spelt := [s] + rest;
      assert inner[i..] == inner[i..n] + inner[n..];
      assert out + CharsOf(spelt) == (out + [s.c]) + CharsOf(rest);
    }
  }

  /** A text is spelled by the rules, and spells `v`. */
  ghost predicate SpelledBy(spelt: seq<Spelt>, inner: string, v: string) {
    AllSpell(spelt) && TextOf(spelt) == inner && CharsOf(spelt) == v
  }

  /** Between double quotes a text is read exactly when it is spelled by the rules, and as what it spells. */
  lemma ReadsExactlyTheSpelled(inner: string, v: string)
    ensures Unescape(inner) == Ok(v) <==> exists spelt :: SpelledBy(spelt, inner, v)
  {
    hide UnescapeFrom, TextOf, CharsOf, AllSpell;
    if Unescape(inner) == Ok(v) {
      var spelt := ReadIsSpelt(inner, 0, "");
      assert inner[0..] == inner && "" + CharsOf(spelt) == CharsOf(spelt);
      assert SpelledBy(spelt, inner, v);
    }
    if spelt :| SpelledBy(spelt, inner, v) {
      SpeltRead(inner, 0, spelt, "");
      assert "" + v == v;
    }
  }

  // ---- From the line it stands on ---------------------------------------------------------------

  lemma {:induction false} ScanDigits(s: string, i: nat, digits: string, stack: seq<char>)
    requires Has(s, i, digits) && forall k :: 0 <= k < |digits| ==> IsHex(digits[k])
    ensures ScanFrom(s, i, Double, stack) == ScanFrom(s, i + |digits|, Double, stack)
    decreases |digits|
  {
    if digits != "" {
      assert digits == [digits[0]] + digits[1..];
      HasParts(s, i, [digits[0]], digits[1..]);
      HasAt(s, i, digits, 0);
      ScanDigits(s, i + 1, digits[1..], stack);
    }
  }

  lemma ScanUnit(s: string, i: nat, one: Spelt, stack: seq<char>)
    requires Spells(one) && Has(s, i, Unit(one))
    ensures ScanFrom(s, i, Double, stack) == ScanFrom(s, i + |Unit(one)|, Double, stack)
  {
    hide Letters, WritesNumber;
    HasAt(s, i, Unit(one), 0);
    match one.how
    case AsItself =>
    case ByLetter(letter) =>
    case ByCode(kind, digits) =>
      HasParts(s, i, ['\\', kind], digits);
      NumberRead(digits, one.c as int);
      ScanDigits(s, i + 2, digits, stack);
  }

  lemma {:induction false} ScanSpelt(s: string, i: nat, spelt: seq<Spelt>, stack: seq<char>)
    requires AllSpell(spelt) && Has(s, i, TextOf(spelt))
    ensures ScanFrom(s, i, Double, stack) == ScanFrom(s, i + |TextOf(spelt)|, Double, stack)
    decreases |spelt|
  {
    hide Spells, Unit, Has, ScanFrom;
    if spelt != [] {
      HasParts(s, i, Unit(spelt[0]), TextOf(spelt[1..]));
      ScanUnit(s, i, spelt[0], stack);
      ScanSpelt(s, i + |Unit(spelt[0])|, spelt[1..], stack);
    }
  }

  /** However the characters of a string are spelled between double quotes, with or without a comment after it, the value
      reads as that string. */
  lemma SpelledReadsBack(tables: Tables, spelt: seq<Spelt>, comment: Option<string>)
    requires AllSpell(spelt)
    ensures ReadValue(tables, Commented(['"'] + TextOf(spelt) + ['"'], comment)) == Ok(One(Scalar(CharsOf(spelt), true)))
  {
    hide Strip, ScanFrom, Has, TextOf, CharsOf, AllSpell, UnescapeFrom;
    var w := ['"'] + TextOf(spelt) + ['"'];
    forall s: string | Has(s, 0, w) && Stops(s, |w|)
      ensures ScanFrom(s, 0, NoQuote, []) == ScanFrom(s, |w|, NoQuote, [])
    {
      ScanQuoted(s, spelt);
    }
    StripCommented(w, comment);
    assert Inner(w) == TextOf(spelt);
    assert SpelledBy(spelt, TextOf(spelt), CharsOf(spelt));
    ReadsExactlyTheSpelled(TextOf(spelt), CharsOf(spelt));
  }

  lemma ScanQuoted(s: string, spelt: seq<Spelt>)
    requires AllSpell(spelt) && Has(s, 0, ['"'] + TextOf(spelt) + ['"'])
    ensures ScanFrom(s, 0, NoQuote, []) == ScanFrom(s, |TextOf(spelt)| + 2, NoQuote, [])
  {
    hide Has, AllSpell, TextOf;
    QuotedParts(s, 0, '"', TextOf(spelt));
    ScanSpelt(s, 1, spelt, []);
  }

  // ---- Single quotes, and none ------------------------------------------------------------------

  lemma {:induction false} DoubledAgain(inner: string)
    requires '\'' !in ReplacePairs(inner, "")
    ensures Doubled(ReplacePairs(inner, "'")) == inner
  {
    if |inner| >= 2 && inner[0] == '\'' && inner[1] == '\'' {
      DoubledAgain(inner[2..]);
      assert ("'" + ReplacePairs(inner[2..], "'"))[1..] == ReplacePairs(inner[2..], "'");
      assert inner == "''" + inner[2..];
    } else if inner != "" {
      var rest := ReplacePairs(inner[1..], "'");
      assert ([inner[0]] + ReplacePairs(inner[1..], ""))[0] == inner[0];
      DoubledAgain(inner[1..]);
      assert ([inner[0]] + rest)[1..] == rest;
    }
  }

  /** Between single quotes a text is read exactly when each quote in it is doubled, and as what that doubles. */
  lemma ReadsExactlyTheDoubled(tables: Tables, text: string, scalar: Scalar)
    requires text != "" && text[0] == '\''
    ensures ParseScalar(tables, text) == Ok(scalar) <==> scalar.isString && text == Written(InSingle, scalar.value)
  {
    hide ReplacePairs, Doubled, Unescape, PlainError;
    if ParseScalar(tables, text) == Ok(scalar) {
      DoubledAgain(Inner(text));
      assert text == ['\''] + Inner(text) + ['\''];
    }
    if scalar.isString && text == Written(InSingle, scalar.value) {
      assert Inner(text) == Doubled(scalar.value);
      Undoubled(scalar.value);
    }
  }

  /** Trimmed text with no comment in it, that opens with no quote, bracket or comment, reads as itself exactly when it is
      plain; otherwise it is refused. */
  lemma ReadsExactlyThePlain(tables: Tables, v: string)
    requires v != "" && !IsSpace(v[0]) && !IsSpace(v[|v| - 1]) && v[0] !in "\"'[{#"
    requires forall k :: 0 < k < |v| && v[k] == '#' ==> v[k - 1] !in " \t"
    ensures ReadValue(tables, v) == Ok(One(Scalar(v, tables.plainIsString(v)))) <==> Plain(tables, v)
    ensures ReadValue(tables, v).Err? <==> !Plain(tables, v)
  {
    hide IsSpace, PlainError, Trim, TrimRight, TrimLeft, FirstComment;
    TrimCommented(v, None);
    FirstCommentAfter(v, v, 0);
    AlreadyTrimmed(v);
    PlainStands(tables, v);
  }

  lemma AlreadyTrimmed(v: string)
    requires v != "" && !IsSpace(v[0]) && !IsSpace(v[|v| - 1])
    ensures Trim(v) == v
  {
  }

  /** A colon that would make an item a mapping: it ends the item or whitespace follows it, and no quote or colon before it. */
  predicate MapsAt(item: string, k: nat) {
    && k < |item| && item[k] == ':' && (k + 1 == |item| || IsSpace(item[k + 1]))
    && forall j :: 0 <= j < k ==> item[j] !in ":'\""
  }

  lemma {:induction false} MappingIs(item: string, i: nat)
    requires i <= |item| && forall j :: 0 <= j < i ==> item[j] !in ":'\""
    ensures LooksLikeMappingFrom(item, i) <==> exists k :: i <= k < |item| && MapsAt(item, k)
    decreases |item| - i
  {
    hide IsSpace;
    if i < |item| && item[i] !in ":'\"" {
      MappingIs(item, i + 1);
    } else if LooksLikeMappingFrom(item, i) {
      assert MapsAt(item, i);
    }
  }

  /** An item of a list is read exactly when it is a scalar that is there, is not a mapping, and holds none of what only a
      list gives a meaning; and it is read as that scalar. */
  lemma ReadsExactlyTheItems(tables: Tables, item: string, scalar: Scalar)
    ensures ParseItem(tables, item) == Ok(scalar) <==>
              && ParseScalar(tables, item) == Ok(scalar) && (forall k :: 0 <= k < |item| ==> !MapsAt(item, k))
              && (item[0] in "\"'" || ('?' !in item && item[0] != ':'))
  {
    hide ParseScalar, MapsAt, LooksLikeMappingFrom;
    MappingIs(item, 0);
    if item == "" {
      NothingReads(tables);
    }
  }

  lemma NothingReads(tables: Tables)
    ensures ParseScalar(tables, "").Err?
  {
  }

  // ---- Comments within a list -------------------------------------------------------------------

  lemma {:induction false} ScanBlanks(s: string, i: nat, gap: string, stack: seq<char>)
    requires Has(s, i, gap) && forall k :: 0 <= k < |gap| ==> gap[k] in " \t,"
    ensures ScanFrom(s, i, NoQuote, stack) == ScanFrom(s, i + |gap|, NoQuote, stack)
    decreases |gap|
  {
    if gap != "" {
      assert gap == [gap[0]] + gap[1..];
      HasParts(s, i, [gap[0]], gap[1..]);
      HasAt(s, i, gap, 0);
      ScanBlanks(s, i + 1, gap[1..], stack);
    }
  }

  lemma HashEnds(s: string, i: nat)
    requires 0 < i < |s| && s[i] == '#' && s[i - 1] in " \t[{,"
    ensures ScanFrom(s, i, NoQuote, [']']) == Err(UnterminatedFlow)
  {
  }

  lemma ScanToHash(tables: Tables, s: string, items: seq<Item>, gap: string)
    requires AllWritable(tables, items) && (forall k :: 0 <= k < |gap| ==> gap[k] in " \t,") && (gap != "" || items == [])
    requires Has(s, 0, "[" + Join(items) + gap + "#")
    ensures ScanFrom(s, 0, NoQuote, []) == Err(UnterminatedFlow)
  {
    hide AllWritable, Join;
    var n := 1 + |Join(items)|;
    HasParts(s, 0, "[" + Join(items) + gap, "#");
    HasParts(s, 0, "[" + Join(items), gap);
    HasParts(s, 0, "[", Join(items));
    HasAt(s, 0, "[", 0);
    HasAt(s, n + |gap|, "#", 0);
    if gap != "" {
      HasAt(s, n, gap, 0);
      HasAt(s, n, gap, |gap| - 1);
    } else {
      NothingJoined();
    }
    assert [] + [']'] == [']'];
    ScanJoin(tables, s, 1, items, [']']);
    ScanBlanks(s, n, gap, [']']);
    HashEnds(s, n + |gap|);
  }

  lemma NothingJoined()
    ensures Join([]) == ""
  {
  }

  /** Within a list a `#` after a blank, a comma or the bracket opens a comment, which leaves the list unterminated: it is
      never read as an item. */
  lemma HashOpensAComment(tables: Tables, items: seq<Item>, gap: string, rest: string)
    requires AllWritable(tables, items) && (forall k :: 0 <= k < |gap| ==> gap[k] in " \t,") && (gap != "" || items == [])
    ensures ReadValue(tables, "[" + Join(items) + gap + "#" + rest) == Err(UnterminatedFlow)
  {
    hide AllWritable, Join, IsSpace, TrimLeft, TrimRight, ScanFrom;
    Marks();
    var head := "[" + Join(items) + gap + "#";
    var raw := head + rest;
    assert raw[|head| - 1] == '#';
    AlreadyOpen(raw);
    TrimRightKeeps(raw, |head|);
    assert Has(Trim(raw), 0, head);
    ScanToHash(tables, Trim(raw), items, gap);
  }

  lemma AlreadyOpen(raw: string)
    requires raw != "" && !IsSpace(raw[0])
    ensures TrimLeft(raw) == raw
  {
  }
}
