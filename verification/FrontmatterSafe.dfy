/** The last scanner never reads past its end, because of what the first refused (cogs/frontmatter.py:416-483,
    492-578, 609-649): no text makes the reading of a frontmatter value fail by reading past the end of a string.

    The comment scan reads every quote; the flow split opens one only where an item begins. So over one text
    they may disagree on what is quoted. The proof runs both scans side by side. */
module FrontmatterSafe {
  import opened Wrappers
  import opened Frontmatter

  // ---- Trimming ---------------------------------------------------------------------------------

  lemma {:induction false} TrimRightCuts(x: string) returns (n: nat)
    ensures n <= |x| && TrimRight(x) == x[..n]
    ensures forall i :: n <= i < |x| ==> IsSpace(x[i])
    ensures n > 0 ==> !IsSpace(x[n - 1])
  {
    hide IsSpace;
    if x != "" && IsSpace(x[|x| - 1]) {
      n := TrimRightCuts(x[..|x| - 1]);
    } else {
      n := |x|;
    }
  }

  lemma {:induction false} TrimLeftCuts(x: string) returns (n: nat)
    ensures n <= |x| && TrimLeft(x) == x[n..]
    ensures forall i :: 0 <= i < n ==> IsSpace(x[i])
    ensures n < |x| ==> !IsSpace(x[n])
  {
    hide IsSpace;
    if x != "" && IsSpace(x[0]) {
      var m := TrimLeftCuts(x[1..]);
      n := m + 1;
      assert forall i :: 0 < i < n ==> x[i] == x[1..][i - 1];
    } else {
      n := 0;
    }
  }

  lemma SpaceIsOrdinary(c: char)
    requires IsSpace(c)
    ensures c != '"' && c != '\'' && c != '\\'
  {
  }

  lemma TrimLeftSnoc(x: string, c: char)
    ensures TrimLeft(x + [c]) == if TrimLeft(x) != "" then TrimLeft(x) + [c] else if IsSpace(c) then "" else [c]
  {
    hide IsSpace;
    if x != "" && IsSpace(x[0]) {
      assert (x + [c])[1..] == x[1..] + [c];
      TrimLeftSnoc(x[1..], c);
    } else if x == "" {
      assert x + [c] == [c] && [c][1..] == "";
    }
  }

  lemma TrimRightSnoc(x: string, c: char)
    ensures TrimRight(x + [c]) == if IsSpace(c) then TrimRight(x) else x + [c]
  {
    hide IsSpace;
    assert (x + [c])[..|x|] == x;
  }

  /** What trimming on both sides leaves begins as trimming on the left does. */
  lemma TrimmedHead(x: string)
    ensures Trim(x) == "" <==> TrimLeft(x) == ""
    ensures Trim(x) <= TrimLeft(x)
  {
    hide IsSpace, TrimLeft, TrimRight;
    var w := TrimLeft(x);
    var m := TrimLeftCuts(x);
    var n := TrimRightCuts(w);
    if w != "" {
      assert w[0] == x[m];
    }
  }

  // ---- The comment scan, one character at a time -------------------------------------------------

  /** Where the comment scan is when it has read up to `k`: at `k`, or past it, inside a pair it reads at once. */
  datatype At = At(p: nat, quote: Quote, stack: seq<char>)

  predicate Reads(s: string, k: nat, at: At, end: nat) {
    && k < end <= |s| && ScanFrom(s, at.p, at.quote, at.stack) == Ok(end)
    && (at.p == k
        || (at.p == k + 1 && at.quote.Double?)
        || (at.p == k + 1 && at.quote.Single? && s[k] == '\''))
  }

  /** Whether it stands on the character after a backslash of a double-quoted run. */
  predicate MidEscape(k: nat, at: At) {
    at.p == k + 1 && at.quote.Double?
  }

  lemma {:induction false} ScanEnds(s: string, p: nat, quote: Quote, stack: seq<char>, end: nat)
    requires (p <= |s| || !quote.NoQuote?) && ScanFrom(s, p, quote, stack) == Ok(end)
    ensures p <= end <= |s| && (!quote.NoQuote? ==> p < end)
    decreases |s| - p
  {
    if p < |s| {
      var ch := s[p];
      match quote
      case Double =>
        if ch == '\\' {
          ScanEnds(s, p + 2, Double, stack, end);
        } else {
          ScanEnds(s, p + 1, if ch == '"' then NoQuote else Double, stack, end);
        }
      case Single =>
        if ch == '\'' && p + 1 < |s| && s[p + 1] == '\'' {
          ScanEnds(s, p + 2, Single, stack, end);
        } else {
          ScanEnds(s, p + 1, if ch == '\'' then NoQuote else Single, stack, end);
        }
      case NoQuote =>
        if ch == '"' {
          ScanEnds(s, p + 1, Double, stack, end);
        } else if ch == '\'' {
          ScanEnds(s, p + 1, Single, stack, end);
        } else if ch == '[' || ch == '{' {
          ScanEnds(s, p + 1, NoQuote, stack + [Closer(ch)], end);
        } else if ch == ']' || ch == '}' {
          ScanEnds(s, p + 1, NoQuote, stack[..|stack| - 1], end);
        } else if !OpensComment(s, p) {
          ScanEnds(s, p + 1, NoQuote, stack, end);
        }
    }
  }

  /** Reading one more character: what the scan is in after it. */
  lemma OneMore(s: string, k: nat, at: At, end: nat) returns (on: At)
    requires Reads(s, k, at, end) && k + 1 < end
    ensures Reads(s, k + 1, on, end)
    ensures at.p == k + 1 ==> on == at
    ensures MidEscape(k + 1, on) ==> s[k] == '\\' && at.p == k && at.quote.Double?
    ensures s[k] == '\\' && at.p == k && at.quote.Double? ==> MidEscape(k + 1, on)
    ensures s[k] == '\\' && at.p == k && !at.quote.Double? ==> on.p == k + 1 && on.quote == at.quote
    ensures s[k] == '"' && !(at.p == k && at.quote.Double?) ==> !on.quote.NoQuote?
    ensures at.p == k && !at.quote.NoQuote? && s[k] != '"' && s[k] != '\'' && s[k] != '\\' ==> on.p == k + 1 && on.quote == at.quote
  {
    if at.p == k + 1 {
      on := at;
    } else {
      var ch := s[k];
      match at.quote {
        case Double =>
          on := if ch == '\\' then At(k + 2, Double, at.stack) else At(k + 1, if ch == '"' then NoQuote else Double, at.stack);
        case Single =>
          on := if ch == '\'' && k + 1 < |s| && s[k + 1] == '\'' then At(k + 2, Single, at.stack)
                else At(k + 1, if ch == '\'' then NoQuote else Single, at.stack);
        case NoQuote =>
          on := if ch == '"' then At(k + 1, Double, at.stack)
                else if ch == '\'' then At(k + 1, Single, at.stack)
                else if ch == '[' || ch == '{' then At(k + 1, NoQuote, at.stack + [Closer(ch)])
                else if (ch == ']' || ch == '}') && at.stack != [] then At(k + 1, NoQuote, at.stack[..|at.stack| - 1])
                else At(k + 1, NoQuote, at.stack);
      }
    }
  }

  /** A run that is open where only whitespace is left before the end is never closed: there is no such scan. */
  lemma {:induction false} OpenRunNeverEnds(s: string, k: nat, quote: Quote, stack: seq<char>, end: nat)
    requires k <= end <= |s| && (forall i :: k <= i < end ==> IsSpace(s[i])) && !quote.NoQuote?
    ensures ScanFrom(s, k, quote, stack) != Ok(end)
    decreases end - k
  {
    hide IsSpace;
    if k == end {
      if ScanFrom(s, k, quote, stack) == Ok(end) {
        ScanEnds(s, k, quote, stack, end);
      }
    } else {
      SpaceIsOrdinary(s[k]);
      OpenRunNeverEnds(s, k + 1, quote, stack, end);
    }
  }

  // ---- Runs of a double-quoted body --------------------------------------------------------------

  /** A body read whole: ordinary characters, and backslashes each with the character they escape. */
  predicate Runs(x: string) {
    || x == ""
    || (x[0] != '"' && x[0] != '\\' && Runs(x[1..]))
    || (|x| >= 2 && x[0] == '\\' && Runs(x[2..]))
  }

  lemma {:induction false} RunsPlus(x: string, y: string)
    requires Runs(x) && Runs(y)
    ensures Runs(x + y)
    decreases |x|
  {
    if x == "" {
      assert x + y == y;
    } else if x[0] == '\\' {
      RunsPlus(x[2..], y);
      assert (x + y)[2..] == x[2..] + y;
    } else {
      RunsPlus(x[1..], y);
      assert (x + y)[1..] == x[1..] + y;
    }
  }

  lemma {:induction false} RunsPeeled(x: string, w: nat)
    requires Runs(x) && w <= |x| && forall i :: 0 <= i < w ==> x[i] != '"' && x[i] != '\\'
    ensures Runs(x[w..])
  {
    if w > 0 {
      RunsPeeled(x[1..], w - 1);
      assert x[1..][w - 1..] == x[w..];
    } else {
      assert x[0..] == x;
    }
  }

  /** Unescaping a body read whole, up to the end or to a bare quote, never reads past the end. */
  lemma {:induction false} UnescapeRun(inner: string, i: nat, out: string, n: nat)
    requires i <= n <= |inner| && Runs(inner[i..n]) && (n < |inner| ==> inner[n] == '"')
    ensures UnescapeFrom(inner, i, out) != Err(PastEnd)
    decreases n - i
  {
    hide HexEscape, Named, Width;
    if i < n {
      var x := inner[i..n];
      if inner[i] != '\\' {
        assert x[1..] == inner[i + 1..n];
        UnescapeRun(inner, i + 1, out + [inner[i]], n);
      } else {
        assert x[2..] == inner[i + 2..n];
        var code := inner[i + 1];
        if Named(code).Some? {
          UnescapeRun(inner, i + 2, out + [Named(code).value], n);
        } else if Width(code).Some? {
          var width := Width(code).value;
          HexStays(inner, i, width, n);
          if HexEscape(inner, i, width).Ok? {
            RunsPeeled(inner[i + 2..n], width);
            assert inner[i + 2..n][width..] == inner[i + 2 + width..n];
            UnescapeRun(inner, i + 2 + width, out + [HexEscape(inner, i, width).value], n);
          }
        }
      }
    }
  }

  lemma HexStays(inner: string, i: nat, width: nat, n: nat)
    requires i + 2 <= n <= |inner| && (n < |inner| ==> inner[n] == '"')
    ensures HexEscape(inner, i, width) != Err(PastEnd)
    ensures HexEscape(inner, i, width).Ok? ==>
              i + 2 + width <= n && forall j :: i + 2 <= j < i + 2 + width ==> inner[j] != '"' && inner[j] != '\\'
  {
    var digits := Slice(inner, i + 2, i + 2 + width);
    if HexEscape(inner, i, width).Ok? {
      forall j | i + 2 <= j < i + 2 + width ensures inner[j] != '"' && inner[j] != '\\' {
        assert digits[j - i - 2] == inner[j];
      }
    }
  }

  // ---- Items --------------------------------------------------------------------------------------

  /** The one way reading an item could read past its end: an escaped quote for its last character. */
  predicate Fatal(item: string) {
    |item| >= 2 && item[0] == '"' && item[|item| - 1] == '"' && Unescape(Inner(item)) == Err(PastEnd)
  }

  lemma OnlyFatalReadsPast(tables: Tables, item: string)
    requires item != "" && !Fatal(item)
    ensures ParseScalar(tables, item) != Err(PastEnd)
  {
    hide Unescape, ReplacePairs;
  }

  /** An item that opened a double-quoted run and closed it. */
  ghost predicate Closes(w: string) {
    w != "" && w[0] == '"' && exists n :: 1 <= n < |w| && w[n] == '"' && Runs(w[1..n])
  }

  /** The item the split is in, at `k`, beside where the comment scan is. */
  ghost predicate InItem(quote: Quote, buf: string, k: nat, at: At) {
    var w := TrimLeft(buf);
    match quote
    case NoQuote => w == "" || w[0] != '"' || Closes(w)
    case Single => w != "" && w[0] != '"'
    case Double =>
      && w != "" && w[0] == '"' && Runs(w[1..]) && !MidEscape(k, at)
      && (|TrimRight(w)| >= 2 && TrimRight(w)[|TrimRight(w)| - 1] == '"' ==> !at.quote.NoQuote?)
  }

  lemma PlainNeverFatal(buf: string)
    requires TrimLeft(buf) == "" || TrimLeft(buf)[0] != '"'
    ensures !Fatal(Trim(buf))
  {
    hide Unescape;
    TrimmedHead(buf);
  }

  lemma ClosesNotFatal(item: string)
    requires Closes(item)
    ensures !Fatal(item)
  {
    hide Runs;
    var n :| 1 <= n < |item| && item[n] == '"' && Runs(item[1..n]);
    var inner := Inner(item);
    assert inner[0..n - 1] == item[1..n];
    UnescapeRun(inner, 0, "", n - 1);
  }

  lemma ClosedNeverFatal(buf: string)
    requires Closes(TrimLeft(buf))
    ensures !Fatal(Trim(buf))
  {
    hide IsSpace, Runs, TrimLeft, TrimRight, Fatal;
    var w := TrimLeft(buf);
    var n :| 1 <= n < |w| && w[n] == '"' && Runs(w[1..n]);
    var end := TrimRightCuts(w);
    if end <= n {
      SpaceIsOrdinary(w[n]);
    }
    assert w[..end][1..n] == w[1..n] && w[..end][n] == '"';
    ClosesNotFatal(w[..end]);
  }

  // ---- The two scans side by side -----------------------------------------------------------------

  /** The text of a flow sequence as both scans see it: `s[1..m]` is split, and the scan of `s` ends at `end`. */
  predicate Sequence(s: string, m: nat, end: nat) {
    1 <= m < end <= |s| && s[m] == ']' && forall i :: m < i < end ==> IsSpace(s[i])
  }

  /** At the end of the body, an item still open did not end with an escaped quote: the comment scan would be in
      a run there too, and nothing would close it. */
  lemma OpenNeverFatal(s: string, m: nat, end: nat, buf: string, at: At)
    requires Sequence(s, m, end) && InItem(Double, buf, m, at) && Reads(s, m, at, end)
    ensures !Fatal(Trim(buf))
  {
    hide IsSpace, Runs, TrimLeft, TrimRight, Unescape;
    if Fatal(Trim(buf)) {
      assert at.p == m && !at.quote.NoQuote?;
      assert ScanFrom(s, m + 1, at.quote, at.stack) == Ok(end);
      OpenRunNeverEnds(s, m + 1, at.quote, at.stack, end);
    }
  }

  lemma StepOrdinary(s: string, k: nat, at: At, end: nat, buf: string) returns (on: At)
    requires Reads(s, k, at, end) && k + 1 < end && InItem(Double, buf, k, at) && s[k] != '"' && s[k] != '\\'
    ensures Reads(s, k + 1, on, end) && InItem(Double, buf + [s[k]], k + 1, on)
  {
    hide IsSpace, TrimLeft, TrimRight, ScanFrom;
    on := OneMore(s, k, at, end);
    var w, c := TrimLeft(buf), s[k];
    TrimLeftSnoc(buf, c);
    TrimRightSnoc(w, c);
    assert Runs([c]) by { assert [c][1..] == ""; }
    RunsPlus(w[1..], [c]);
    assert (w + [c])[1..] == w[1..] + [c];
    if IsSpace(c) {
      SpaceIsOrdinary(c);
    }
  }

  lemma StepEscape(s: string, k: nat, at: At, end: nat, buf: string) returns (on: At)
    requires Reads(s, k, at, end) && k + 2 < end && InItem(Double, buf, k, at) && s[k] == '\\'
    ensures Reads(s, k + 2, on, end) && InItem(Double, buf + [s[k], s[k + 1]], k + 2, on)
  {
    hide IsSpace, TrimLeft, TrimRight, ScanFrom;
    var mid := OneMore(s, k, at, end);
    on := OneMore(s, k + 1, mid, end);
    var w, c := TrimLeft(buf), s[k + 1];
    assert buf + [s[k], c] == (buf + ['\\']) + [c];
    TrimLeftSnoc(buf, '\\');
    TrimLeftSnoc(buf + ['\\'], c);
    assert (w + ['\\']) + [c] == w + ['\\', c];
    TrimRightSnoc(w + ['\\'], c);
    NotSpace();
    TrimRightSnoc(w, '\\');
    assert Runs(['\\', c]) by { assert ['\\', c][2..] == ""; }
    RunsPlus(w[1..], ['\\', c]);
    assert (w + ['\\', c])[1..] == w[1..] + ['\\', c];
  }

  lemma NotSpace()
    ensures !IsSpace('\\') && !IsSpace('"') && !IsSpace('\'')
  {
  }

  lemma StepCloses(buf: string, k: nat, at: At)
    requires InItem(Double, buf, k, at)
    ensures Closes(TrimLeft(buf + ['"']))
  {
    hide IsSpace, TrimLeft, TrimRight, Runs;
    var w := TrimLeft(buf);
    TrimLeftSnoc(buf, '"');
    assert (w + ['"'])[|w|] == '"' && (w + ['"'])[1..|w|] == w[1..];
  }

  /** Between runs: a character that opens none. */
  lemma StepPlain(buf: string, c: char, k: nat, at: At, on: At)
    requires InItem(NoQuote, buf, k, at) && (c == '"' ==> Trim(buf) != "")
    ensures InItem(NoQuote, buf + [c], k + 1, on)
  {
    hide IsSpace, TrimLeft, TrimRight, Runs;
    var w := TrimLeft(buf);
    TrimmedHead(buf);
    TrimLeftSnoc(buf, c);
    if Closes(w) {
      var n :| 1 <= n < |w| && w[n] == '"' && Runs(w[1..n]);
      assert (w + [c])[n] == '"' && (w + [c])[1..n] == w[1..n];
    }
  }

  lemma StepOpens(buf: string, k: nat, at: At)
    requires Trim(buf) == "" && !MidEscape(k + 1, at)
    ensures InItem(Double, buf + ['"'], k + 1, at) && InItem(Single, buf + ['\''], k + 1, at)
  {
    hide IsSpace, TrimLeft;
    TrimmedHead(buf);
    NotSpace();
    TrimLeftSnoc(buf, '"');
    TrimLeftSnoc(buf, '\'');
    assert ['"'][1..] == "";
    TrimRightSnoc("", '"');
    assert "" + ['"'] == ['"'];
  }

  lemma StepSingle(buf: string, c: char, k: nat, at: At, on: At)
    requires InItem(Single, buf, k, at)
    ensures InItem(Single, buf + [c], k + 1, on) && InItem(NoQuote, buf + [c], k + 1, on)
  {
    hide IsSpace, TrimLeft, TrimRight;
    TrimLeftSnoc(buf, c);
  }

  ghost predicate NoneFatal(r: Result<seq<string>, Problem>) {
    r.Ok? ==> forall item :: item in r.value ==> !Fatal(item)
  }

  lemma Finishes(quote: Quote, s: string, m: nat, end: nat, buf: string, at: At, items: seq<string>)
    requires Sequence(s, m, end) && InItem(quote, buf, m, at) && Reads(s, m, at, end)
    requires forall item :: item in items ==> !Fatal(item)
    ensures NoneFatal(Ok(if Trim(buf) == "" then items else items + [Trim(buf)]))
  {
    hide IsSpace, Runs, TrimLeft, TrimRight, Unescape, Fatal, Trim, ScanFrom, Sequence;
    match quote
    case Double => OpenNeverFatal(s, m, end, buf, at);
    case Single => PlainNeverFatal(buf);
    case NoQuote => EndsItem(buf, m, at);
  }

  lemma EndsItem(buf: string, k: nat, at: At)
    requires InItem(NoQuote, buf, k, at)
    ensures !Fatal(Trim(buf))
  {
    hide IsSpace, Runs, TrimLeft, TrimRight, Unescape, Fatal;
    if Closes(TrimLeft(buf)) {
      ClosedNeverFatal(buf);
    } else {
      PlainNeverFatal(buf);
    }
  }

  lemma FreshItem(k: nat, at: At)
    ensures InItem(NoQuote, "", k, at)
  {
  }

  /** A body that ends in the backslash of an escape: its last item ends with that backslash. */
  lemma Dangles(buf: string)
    ensures !Fatal(Trim(buf + ['\\']))
  {
    hide IsSpace, TrimLeft, Unescape;
    NotSpace();
    TrimLeftSnoc(buf, '\\');
    if TrimLeft(buf) != "" {
      TrimRightSnoc(TrimLeft(buf), '\\');
    } else {
      assert ['\\'] == "" + ['\\'];
      TrimRightSnoc("", '\\');
    }
  }

  /** From any state the two scans can be in together, the split leaves no item that reads past its end. */
  lemma {:induction false} SplitSafe(s: string, m: nat, end: nat, i: nat, quote: Quote, buf: string, items: seq<string>, at: At)
    requires Sequence(s, m, end) && i <= m - 1
    requires Reads(s, i + 1, at, end) && InItem(quote, buf, i + 1, at)
    requires forall item :: item in items ==> !Fatal(item)
    ensures NoneFatal(SplitFrom(s[1..m], i, quote, buf, items))
    decreases m - i
  {
    hide IsSpace, InItem, Trim, TrimLeft, TrimRight, Fatal, ScanFrom, Runs;
    var inner := s[1..m];
    if i == m - 1 {
      Finishes(quote, s, m, end, buf, at, items);
    } else {
      var ch := inner[i];
      assert ch == s[i + 1];
      match quote
      case Double =>
        if ch == '\\' {
          if i + 2 <= m - 1 {
            assert Slice(inner, i, i + 2) == [s[i + 1], s[i + 2]];
            var on := StepEscape(s, i + 1, at, end, buf);
            SplitSafe(s, m, end, i + 2, Double, buf + Slice(inner, i, i + 2), items, on);
          } else {
            assert Slice(inner, i, i + 2) == ['\\'];
            Dangles(buf);
          }
        } else if ch == '"' {
          var on := OneMore(s, i + 1, at, end);
          StepCloses(buf, i + 1, at);
          ClosedIsItem(buf + [ch], i + 2, on);
          SplitSafe(s, m, end, i + 1, NoQuote, buf + [ch], items, on);
        } else {
          var on := StepOrdinary(s, i + 1, at, end, buf);
          SplitSafe(s, m, end, i + 1, Double, buf + [ch], items, on);
        }
      case Single =>
        SplitSingle(s, m, end, i, buf, items, at);
      case NoQuote =>
        SplitPlain(s, m, end, i, buf, items, at);
    }
  }

  lemma ClosedIsItem(buf: string, k: nat, at: At)
    requires Closes(TrimLeft(buf))
    ensures InItem(NoQuote, buf, k, at)
  {
  }

  lemma {:induction false} SplitSingle(s: string, m: nat, end: nat, i: nat, buf: string, items: seq<string>, at: At)
    requires Sequence(s, m, end) && i < m - 1
    requires Reads(s, i + 1, at, end) && InItem(Single, buf, i + 1, at)
    requires forall item :: item in items ==> !Fatal(item)
    ensures NoneFatal(SplitFrom(s[1..m], i, Single, buf, items))
    decreases m - i, 0
  {
    hide IsSpace, InItem, Trim, TrimLeft, TrimRight, Fatal, ScanFrom, Runs;
    var inner := s[1..m];
    var ch := inner[i];
    var on := OneMore(s, i + 1, at, end);
    if ch == '\'' && Slice(inner, i + 1, i + 2) == "'" {
      var after := OneMore(s, i + 2, on, end);
      StepSingle(buf, '\'', i + 1, at, on);
      StepSingle(buf + ['\''], '\'', i + 2, on, after);
      assert (buf + ['\'']) + ['\''] == buf + "''";
      SplitSafe(s, m, end, i + 2, Single, buf + "''", items, after);
    } else {
      StepSingle(buf, ch, i + 1, at, on);
      SplitSafe(s, m, end, i + 1, if ch == '\'' then NoQuote else Single, buf + [ch], items, on);
    }
  }

  lemma {:induction false} SplitPlain(s: string, m: nat, end: nat, i: nat, buf: string, items: seq<string>, at: At)
    requires Sequence(s, m, end) && i < m - 1
    requires Reads(s, i + 1, at, end) && InItem(NoQuote, buf, i + 1, at)
    requires forall item :: item in items ==> !Fatal(item)
    ensures NoneFatal(SplitFrom(s[1..m], i, NoQuote, buf, items))
    decreases m - i, 0
  {
    hide IsSpace, InItem, Trim, TrimLeft, TrimRight, Fatal, ScanFrom, Runs;
    var inner := s[1..m];
    var ch := inner[i];
    assert ch == s[i + 1];
    var on := OneMore(s, i + 1, at, end);
    if ch in "\"'" && Trim(buf) == "" {
      StepOpens(buf, i + 1, on);
      SplitSafe(s, m, end, i + 1, if ch == '"' then Double else Single, buf + [ch], items, on);
    } else if ch == ',' {
      EndsItem(buf, i + 1, at);
      FreshItem(i + 2, on);
      SplitSafe(s, m, end, i + 1, NoQuote, "", items + [Trim(buf)], on);
    } else if ch !in "[{]}" {
      StepPlain(buf, ch, i + 1, at, on);
      SplitSafe(s, m, end, i + 1, NoQuote, buf + [ch], items, on);
    }
  }

  // ---- What is never read past ------------------------------------------------------------------

  /** A double-quoted scalar as the comment scan reads it: it closes, or it does not end with an escaped quote. */
  lemma {:induction false} ScalarSafe(s: string, k: nat, m: nat, end: nat)
    requires 1 <= k <= m <= end <= |s| && s[0] == '"' && Runs(s[1..k])
    requires ScanFrom(s, k, Double, []) == Ok(end) && forall i :: m <= i < end ==> IsSpace(s[i])
    ensures !Fatal(s[..m])
    decreases m - k
  {
    hide IsSpace, Fatal, Unescape;
    if k == m {
      OpenRunNeverEnds(s, m, Double, [], end);
    } else if s[k] == '"' {
      assert s[..m][k] == '"' && s[..m][1..k] == s[1..k];
      ClosesNotFatal(s[..m]);
    } else if s[k] == '\\' {
      if k + 2 <= m {
        assert s[1..k + 2] == s[1..k] + [s[k], s[k + 1]];
        assert Runs([s[k], s[k + 1]]) by { assert [s[k], s[k + 1]][2..] == ""; }
        RunsPlus(s[1..k], [s[k], s[k + 1]]);
        ScalarSafe(s, k + 2, m, end);
      } else {
        LastNotQuote(s[..m]);
      }
    } else {
      assert s[1..k + 1] == s[1..k] + [s[k]];
      assert Runs([s[k]]) by { assert [s[k]][1..] == ""; }
      RunsPlus(s[1..k], [s[k]]);
      ScalarSafe(s, k + 1, m, end);
    }
  }

  lemma LastNotQuote(item: string)
    requires item != "" && item[|item| - 1] != '"'
    ensures !Fatal(item)
  {
  }

  lemma PlainKeepsHead(raw: string)
    ensures Strip(raw).Ok? && Strip(raw).value != "" ==> Trim(raw) != "" && Strip(raw).value[0] == Trim(raw)[0]
  {
    hide IsSpace, TrimRight, Trim, ScanFrom;
    var s := Trim(raw);
    if FirstComment(s, 0).Some? {
      var n := TrimRightCuts(s[..FirstComment(s, 0).value]);
    }
    if ScanFrom(s, 0, NoQuote, []).Ok? && ScanFrom(s, 0, NoQuote, []).value <= |s| {
      var n := TrimRightCuts(s[..ScanFrom(s, 0, NoQuote, []).value]);
    }
  }

  /** What the comment strip lets through, and where the scan behind it ended. */
  lemma Stripped(raw: string) returns (m: nat, end: nat)
    requires Strip(raw).Ok? && Strip(raw).value != "" && Strip(raw).value[0] in "\"'[{"
    ensures var s := Trim(raw); m <= end <= |s| && Strip(raw).value == s[..m] && ScanFrom(s, 0, NoQuote, []) == Ok(end)
                                && forall i :: m <= i < end ==> IsSpace(s[i])
  {
    hide IsSpace, TrimRight, Trim, ScanFrom;
    var s := Trim(raw);
    PlainKeepsHead(raw);
    if s[0] in "\"'[{" {
      end := ScanFrom(s, 0, NoQuote, []).value;
      m := TrimRightCuts(s[..end]);
      assert s[..end][..m] == s[..m];
      forall i | m <= i < end ensures IsSpace(s[i]) {
        assert s[..end][i] == s[i];
      }
    }
  }

  /** A scalar on the line of its key, in a list block or in `metadata`: the comment is stripped first. */
  lemma ScalarNeverReadsPast(tables: Tables, raw: string)
    requires Strip(raw).Ok? && Strip(raw).value != ""
    ensures ParseScalar(tables, Strip(raw).value) != Err(PastEnd)
  {
    hide IsSpace, TrimRight, Trim, Fatal, Strip;
    var text := Strip(raw).value;
    if text[0] == '"' {
      var s := Trim(raw);
      var m, end := Stripped(raw);
      assert s[1..1] == "";
      ScalarSafe(s, 1, m, end);
    } else {
      NotDouble(text);
    }
    OnlyFatalReadsPast(tables, text);
  }

  lemma NotDouble(item: string)
    requires item != "" && item[0] != '"'
    ensures !Fatal(item)
  {
  }

  lemma {:induction false} ItemsNeverReadPast(tables: Tables, items: seq<string>)
    requires forall item :: item in items ==> !Fatal(item)
    ensures ParseItems(tables, items) != Err(PastEnd)
  {
    hide Fatal, ParseScalar;
    if items != [] {
      if items[0] != "" {
        OnlyFatalReadsPast(tables, items[0]);
      }
      ItemsNeverReadPast(tables, items[1..]);
    }
  }

  lemma ListNeverReadsPast(tables: Tables, raw: string)
    requires Strip(raw).Ok? && Strip(raw).value != "" && Strip(raw).value[0] == '['
    ensures ParseList(tables, Strip(raw).value) != Err(PastEnd)
  {
    hide IsSpace, TrimRight, Trim, Fatal, Strip, ParseItems;
    var text := Strip(raw).value;
    if text[|text| - 1] == ']' {
      var s := Trim(raw);
      var m, end := Stripped(raw);
      assert [] + [Closer('[')] == [']'];
      var at := At(1, NoQuote, [']']);
      assert ScanFrom(s, 0, NoQuote, []) == ScanFrom(s, 1, NoQuote, [']']);
      FreshItem(1, at);
      SplitSafe(s, m - 1, end, 0, NoQuote, "", [], at);
      assert Inner(text) == s[1..m - 1];
      SplitProblem(Inner(text), 0, NoQuote, "", []);
      if Split(Inner(text)).Ok? {
        ItemsNeverReadPast(tables, Split(Inner(text)).value);
      }
    }
  }

  lemma {:induction false} SplitProblem(inner: string, i: nat, quote: Quote, buf: string, items: seq<string>)
    ensures SplitFrom(inner, i, quote, buf, items) != Err(PastEnd)
    decreases |inner| - i
  {
    hide Trim, Slice;
    if i < |inner| {
      var ch := inner[i];
      match quote
      case Double =>
        if ch == '\\' {
          SplitProblem(inner, i + 2, Double, buf + Slice(inner, i, i + 2), items);
        } else {
          SplitProblem(inner, i + 1, if ch == '"' then NoQuote else Double, buf + [ch], items);
        }
      case Single =>
        if ch == '\'' && Slice(inner, i + 1, i + 2) == "'" {
          SplitProblem(inner, i + 2, Single, buf + "''", items);
        } else {
          SplitProblem(inner, i + 1, if ch == '\'' then NoQuote else Single, buf + [ch], items);
        }
      case NoQuote =>
        SplitProblem(inner, i + 1, if ch == '"' then Double else Single, buf + [ch], items);
        SplitProblem(inner, i + 1, NoQuote, "", items + [Trim(buf)]);
        SplitProblem(inner, i + 1, NoQuote, buf + [ch], items);
    }
  }

  lemma {:induction false} ScanProblem(s: string, i: nat, quote: Quote, stack: seq<char>)
    ensures ScanFrom(s, i, quote, stack) != Err(PastEnd)
    decreases |s| - i
  {
    if i < |s| {
      ScanProblem(s, i + 1, NoQuote, stack);
      ScanProblem(s, i + 1, Double, stack);
      ScanProblem(s, i + 1, Single, stack);
      ScanProblem(s, i + 2, quote, stack);
      ScanProblem(s, i + 1, NoQuote, stack + [Closer(s[i])]);
      if stack != [] {
        ScanProblem(s, i + 1, NoQuote, stack[..|stack| - 1]);
      }
    }
  }

  /** No text of a value, whatever its quotes and backslashes, makes its reading fail by reading past an end. */
  lemma ReadingNeverReadsPast(tables: Tables, raw: string)
    ensures ReadValue(tables, raw) != Err(PastEnd)
    ensures Strip(raw) != Err(PastEnd)
  {
    hide IsSpace, TrimRight, Trim, ParseScalar, ParseList, ScanFrom;
    var s := Trim(raw);
    ScanProblem(s, 0, NoQuote, []);
    if ScanFrom(s, 0, NoQuote, []).Ok? {
      ScanEnds(s, 0, NoQuote, [], ScanFrom(s, 0, NoQuote, []).value);
    }
    if Strip(raw).Ok? && Strip(raw).value != "" {
      if Strip(raw).value[0] == '[' {
        ListNeverReadsPast(tables, raw);
      } else {
        ScalarNeverReadsPast(tables, raw);
      }
    }
  }

  /** It is the comment scan that keeps it so: unstripped, a closing quote that is escaped is read past. */
  lemma UnstrippedCanReadPast(tables: Tables)
    ensures ParseScalar(tables, "\"\\\"") == Err(PastEnd)
    ensures Strip("\"\\\"") == Err(UnterminatedQuote)
  {
  }
}
