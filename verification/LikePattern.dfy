/** The substring filter of the catalog (cogs/catalog.py:344-367): a pattern for SQL's `LIKE` whose wildcards are
    escaped, so that it matches as a plain substring does. */
module LikePattern {
  import opened Text

  /** SQL's `LIKE`, with a backslash for its escape character. */
  predicate Like(text: string, pattern: string)
    decreases |pattern|
  {
    if pattern == "" then text == ""
    else if pattern[0] == '%' then exists k :: 0 <= k <= |text| && Like(text[k..], pattern[1..])
    else if pattern[0] == '\\' && |pattern| >= 2 then text != "" && text[0] == pattern[1] && Like(text[1..], pattern[2..])
    else text != "" && (pattern[0] == '_' || text[0] == pattern[0]) && Like(text[1..], pattern[1..])
  }

  /** `like_pattern` */
  function Pattern(text: string): string {
    "%" + Replace(Replace(Replace(text, '\\', "\\\\"), '%', "\\%"), '_', "\\_") + "%"
  }

  predicate Wild(c: char) {
    c == '\\' || c == '%' || c == '_'
  }

  function WildEscaped(text: string): string {
    if text == "" then "" else (if Wild(text[0]) then ['\\', text[0]] else [text[0]]) + WildEscaped(text[1..])
  }

  lemma ReplaceOne(x: char, c: char, put: string)
    ensures Replace([x], c, put) == if x == c then put else [x]
  {
    assert [x][1..] == "";
    assert put + "" == put && [x] + "" == [x];
  }

  lemma ReplaceTwo(x: char, y: char, c: char, put: string)
    ensures Replace([x, y], c, put) == (if x == c then put else [x]) + (if y == c then put else [y])
  {
    assert [x, y] == [x] + [y];
    ReplaceConcat([x], [y], c, put);
    ReplaceOne(x, c, put);
    ReplaceOne(y, c, put);
  }

  /** The three replacements, one after the other, escape each wildcard once: none escapes another's backslash. */
  lemma {:induction false} ReplacesEscape(text: string)
    ensures Replace(Replace(Replace(text, '\\', "\\\\"), '%', "\\%"), '_', "\\_") == WildEscaped(text)
  {
    if text != "" {
      var head, tail := [text[0]], text[1..];
      assert text == head + tail;
      ReplaceConcat(head, tail, '\\', "\\\\");
      var h1, t1 := Replace(head, '\\', "\\\\"), Replace(tail, '\\', "\\\\");
      ReplaceConcat(h1, t1, '%', "\\%");
      var h2, t2 := Replace(h1, '%', "\\%"), Replace(t1, '%', "\\%");
      ReplaceConcat(h2, t2, '_', "\\_");
      HeadEscapes(text[0]);
      ReplacesEscape(tail);
    }
  }

  lemma HeadEscapes(c: char)
    ensures Replace(Replace(Replace([c], '\\', "\\\\"), '%', "\\%"), '_', "\\_") == if Wild(c) then ['\\', c] else [c]
  {
    hide Replace;
    ReplaceOne(c, '\\', "\\\\");
    ReplaceOne(c, '%', "\\%");
    ReplaceOne(c, '_', "\\_");
    ReplaceTwo('\\', '\\', '%', "\\%");
    ReplaceTwo('\\', '\\', '_', "\\_");
    ReplaceTwo('\\', '%', '_', "\\_");
    assert "\\\\" == ['\\', '\\'] && "\\%" == ['\\', '%'] && "\\_" == ['\\', '_'];
    assert ['\\'] + ['\\'] == ['\\', '\\'] && ['\\'] + ['%'] == ['\\', '%'];
  }

  lemma AnyTail(text: string)
    ensures Like(text, "%")
  {
    assert "%"[1..] == "" && text[|text|..] == "";
    assert Like(text[|text|..], "%"[1..]);
  }

  lemma {:induction false} LikeEscaped(text: string, q: string)
    ensures Like(text, WildEscaped(q) + "%") <==> q <= text
  {
    if q == "" {
      assert "" + "%" == "%";
      AnyTail(text);
    } else {
      var p := WildEscaped(q) + "%";
      var unit := if Wild(q[0]) then ['\\', q[0]] else [q[0]];
      assert p == unit + (WildEscaped(q[1..]) + "%");
      assert p[|unit|..] == WildEscaped(q[1..]) + "%";
      if text != "" {
        LikeEscaped(text[1..], q[1..]);
        assert q <= text <==> q[0] == text[0] && q[1..] <= text[1..] by {
          assert text == [text[0]] + text[1..] && q == [q[0]] + q[1..];
        }
      }
    }
  }

  /** Whether `q` occurs in `text`. */
  predicate Occurs(text: string, q: string) {
    exists k :: 0 <= k <= |text| && q <= text[k..]
  }

  /** Escaped, a search text matches exactly where it occurs as it is: `%`, `_` and backslashes are themselves. */
  lemma PatternIsSubstring(text: string, q: string)
    ensures Like(text, Pattern(q)) <==> Occurs(text, q)
  {
    ReplacesEscape(q);
    var p := Pattern(q);
    assert p[1..] == WildEscaped(q) + "%";
    forall k | 0 <= k <= |text| ensures Like(text[k..], p[1..]) <==> q <= text[k..] {
      LikeEscaped(text[k..], q);
    }
  }

  lemma AnyOne(text: string)
    ensures Like(text, "_") <==> |text| == 1
  {
    assert "_"[1..] == "";
    if text != "" {
      assert Like(text[1..], "") <==> text[1..] == "";
    }
  }

  lemma Escapes(text: string, c: char)
    requires !Wild(c)
    ensures Like(text, ['\\', c]) <==> text == [c]
  {
    assert ['\\', c][2..] == "";
    if text != "" {
      assert text == [text[0]] + text[1..];
    }
  }

  /** Unescaped, each of the three would match otherwise: any one character, any text, or the character it escapes. */
  lemma UnescapedIsWild(text: string, c: char)
    requires !Wild(c)
    ensures Like(text, "_") <==> |text| == 1
    ensures Like(text, "%")
    ensures Like(text, ['\\', c]) <==> text == [c]
  {
    hide Like;
    AnyOne(text);
    AnyTail(text);
    Escapes(text, c);
  }

  // ---- Ignoring case ----------------------------------------------------------------------------

  function LowerChar(c: char): char {
    if 'A' <= c <= 'Z' then (c as int + 32) as char else c
  }

  /** `str.lower`, as both backends fold ASCII. */
  function Lower(x: string): (r: string)
    ensures |r| == |x| && forall i :: 0 <= i < |x| ==> r[i] == LowerChar(x[i])
  {
    seq(|x|, i requires 0 <= i < |x| => LowerChar(x[i]))
  }

  /** SQL's `ILIKE`: both sides folded. */
  predicate ILike(text: string, pattern: string) {
    Like(Lower(text), Lower(pattern))
  }

  lemma LowerConcat(a: string, b: string)
    ensures Lower(a + b) == Lower(a) + Lower(b)
  {
  }

  lemma {:induction false} LowerEscaped(q: string)
    ensures Lower(WildEscaped(q)) == WildEscaped(Lower(q))
  {
    if q == "" {
      assert Lower("") == "";
    } else {
      var unit := if Wild(q[0]) then ['\\', q[0]] else [q[0]];
      LowerConcat(unit, WildEscaped(q[1..]));
      LowerEscaped(q[1..]);
      assert Lower(q)[1..] == Lower(q[1..]);
      assert Wild(LowerChar(q[0])) <==> Wild(q[0]);
      assert Lower(unit) == if Wild(q[0]) then ['\\', LowerChar(q[0])] else [LowerChar(q[0])];
    }
  }

  /** The same character, or one letter of the English alphabet written small and large. */
  predicate SameButCase(a: char, b: char) {
    || a == b
    || ('a' <= a <= 'z' && 'A' <= b <= 'Z' && a as int - 'a' as int == b as int - 'A' as int)
    || ('A' <= a <= 'Z' && 'a' <= b <= 'z' && a as int - 'A' as int == b as int - 'a' as int)
  }

  /** `q` stands somewhere in the text, large and small letters not told apart. */
  predicate OccursButCase(text: string, q: string) {
    exists k :: 0 <= k <= |text| && StandsAt(text, q, k)
  }

  predicate StandsAt(text: string, q: string, k: int) {
    0 <= k <= |text| - |q| && forall i :: 0 <= i < |q| ==> SameButCase(text[k + i], q[i])
  }

  lemma SameFolded(a: char, b: char)
    ensures LowerChar(a) == LowerChar(b) <==> SameButCase(a, b)
  {
  }

  lemma FoldedStands(text: string, q: string, k: nat)
    requires k <= |text|
    ensures Lower(q) <= Lower(text)[k..] <==> StandsAt(text, q, k)
  {
    hide SameButCase, LowerChar;
    var t, p := Lower(text)[k..], Lower(q);
    forall i | 0 <= i < |q| && k + i < |text| ensures SameButCase(text[k + i], q[i]) <==> t[i] == p[i] {
      SameFolded(text[k + i], q[i]);
    }
    if StandsAt(text, q, k) {
      assert t[..|p|] == p;
    }
  }

  lemma FoldedOccurs(text: string, q: string)
    ensures Occurs(Lower(text), Lower(q)) <==> OccursButCase(text, q)
  {
    hide StandsAt, Lower;
    forall k | 0 <= k <= |text| ensures Lower(q) <= Lower(text)[k..] <==> StandsAt(text, q, k) {
      FoldedStands(text, q, k);
    }
    assert |Lower(text)| == |text|;
  }

  /** The SQL test and the in-memory one are the same test: `q` occurs in the text, case aside. */
  lemma ILikeIsSubstring(text: string, q: string)
    ensures ILike(text, Pattern(q)) <==> Occurs(Lower(text), Lower(q))
    ensures ILike(text, Pattern(q)) <==> OccursButCase(text, q)
  {
    FoldedOccurs(text, q);
    ReplacesEscape(q);
    ReplacesEscape(Lower(q));
    LowerEscaped(q);
    LowerConcat("%" + WildEscaped(q), "%");
    LowerConcat("%", WildEscaped(q));
    assert Lower("%") == "%";
    assert Lower(Pattern(q)) == Pattern(Lower(q));
    PatternIsSubstring(Lower(text), Lower(q));
  }
}
