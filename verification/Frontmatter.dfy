/** The scanners that read one frontmatter value (cogs/frontmatter.py): comment stripping, flow splitting and
    unescaping, run one after the other over the same text, each tracking quotes by its own rules.

    Each scanner is a loop over an index; the function beside it says what the loop computes from an index and
    a state on. A read past the end of a string, which would raise `IndexError`, is the problem `PastEnd`. */
module Frontmatter {
  import opened Wrappers

  datatype Problem =
    | ClosesNothing | MismatchedClosers | UnterminatedQuote | UnterminatedFlow
    | TextAfterFlow | NestedCollection | EmptyItem | MappingItem | PlainFlowIndicator
    | UnsupportedEscape | MalformedEscape | NotAScalarValue
    | CollectionAsScalar | OutsideSubset | UndoubledQuote | PlainProblem
    | PastEnd

  datatype Scalar = Scalar(value: string, isString: bool)

  /** What a value's text reads as. `Absent` is an empty value, or one that is only a comment. */
  datatype Value = Absent | One(scalar: Scalar) | Many(items: seq<Scalar>)

  /** The tables of plain scalars: which are strings under both YAML resolutions, and which no loader can build. */
  datatype Tables = Tables(plainIsString: string -> bool, unconstructible: string -> bool)

  // ---- What Python's string methods do ----------------------------------------------------------

  /** `str.isspace` of one character. */
  predicate IsSpace(c: char) {
    c in "\t\n\r \U{000B}\U{000C}\U{001C}\U{001D}\U{001E}\U{001F}\U{0085}\U{00A0}\U{1680}\U{2028}\U{2029}\U{202F}\U{205F}\U{3000}"
    || '\U{2000}' <= c <= '\U{200A}'
  }

  function TrimLeft(x: string): string {
    if x != "" && IsSpace(x[0]) then TrimLeft(x[1..]) else x
  }

  function TrimRight(x: string): string {
    if x != "" && IsSpace(x[|x| - 1]) then TrimRight(x[..|x| - 1]) else x
  }

  function Trim(x: string): string {
    TrimRight(TrimLeft(x))
  }

  /** `x.replace("''", put)` */
  function ReplacePairs(x: string, put: string): string {
    if |x| >= 2 && x[0] == '\'' && x[1] == '\'' then put + ReplacePairs(x[2..], put)
    else if x == "" then ""
    else [x[0]] + ReplacePairs(x[1..], put)
  }

  /** `x[i:j]`, which stops at the end of `x`. */
  function Slice(x: string, i: nat, j: nat): string {
    if i >= |x| || j <= i then "" else x[i..if j <= |x| then j else |x|]
  }

  /** `x[1:-1]` */
  function Inner(x: string): string {
    if |x| >= 2 then x[1..|x| - 1] else ""
  }

  // ---- Stripping the comment --------------------------------------------------------------------

  datatype Quote = NoQuote | Double | Single

  /** Where the first comment of a plain scalar starts: a `#` after a space or a tab. */
  function FirstComment(s: string, i: nat): (r: Option<nat>)
    ensures r.Some? ==> i <= r.value < |s| - 1 && s[r.value] in " \t" && s[r.value + 1] == '#'
    ensures forall k :: i <= k < (if r.Some? then r.value else |s| - 1) ==> !(s[k] in " \t" && s[k + 1] == '#')
    decreases |s| - i
  {
    if i + 1 >= |s| then None
    else if s[i] in " \t" && s[i + 1] == '#' then Some(i)
    else FirstComment(s, i + 1)
  }

  predicate OpensComment(s: string, i: nat)
    requires i < |s|
  {
    s[i] == '#' && (i == 0 || s[i - 1] in " \t[{,")
  }

  function Closer(c: char): char {
    if c == '[' then ']' else '}'
  }

  /** The scan of a value that opens with a quote or a bracket: where the value ends. */
  function ScanFrom(s: string, i: nat, quote: Quote, stack: seq<char>): Result<nat, Problem>
    decreases |s| - i
  {
    if i >= |s| then Ended(quote, stack, |s|)
    else
      var ch := s[i];
      match quote
      case Double =>
        if ch == '\\' then ScanFrom(s, i + 2, Double, stack)
        else ScanFrom(s, i + 1, if ch == '"' then NoQuote else Double, stack)
      case Single =>
        if ch == '\'' && i + 1 < |s| && s[i + 1] == '\'' then ScanFrom(s, i + 2, Single, stack)
        else ScanFrom(s, i + 1, if ch == '\'' then NoQuote else Single, stack)
      case NoQuote =>
        if ch == '"' then ScanFrom(s, i + 1, Double, stack)
        else if ch == '\'' then ScanFrom(s, i + 1, Single, stack)
        else if ch == '[' || ch == '{' then ScanFrom(s, i + 1, NoQuote, stack + [Closer(ch)])
        else if ch == ']' || ch == '}' then
          if stack == [] then Err(ClosesNothing)
          else if stack[|stack| - 1] != ch then Err(MismatchedClosers)
          else ScanFrom(s, i + 1, NoQuote, stack[..|stack| - 1])
        else if OpensComment(s, i) then Ended(NoQuote, stack, i)
        else ScanFrom(s, i + 1, NoQuote, stack)
  }

  function Ended(quote: Quote, stack: seq<char>, end: nat): Result<nat, Problem> {
    if !quote.NoQuote? then Err(UnterminatedQuote)
    else if stack != [] then Err(UnterminatedFlow)
    else Ok(end)
  }

  function Strip(raw: string): Result<string, Problem> {
    var s := Trim(raw);
    if s == "" || s[0] == '#' then Ok("")
    else if s[0] !in "\"'[{" then
      match FirstComment(s, 0)
      case Some(i) => Ok(TrimRight(s[..i]))
      case None => Ok(s)
    else
      match ScanFrom(s, 0, NoQuote, [])
      case Err(problem) => Err(problem)
      case Ok(end) => if end <= |s| then Ok(TrimRight(s[..end])) else Err(PastEnd)
  }

  /** `_strip_inline_comment` */
  method StripInlineComment(raw: string) returns (r: Result<string, Problem>)
    ensures r == Strip(raw)
  {
    var s := Trim(raw);
    if s == "" || s[0] == '#' {
      return Ok("");
    }
    if s[0] !in "\"'[{" {
      var comment := FirstComment(s, 0);
      if comment.Some? {
        s := TrimRight(s[..comment.value]);
      }
      return Ok(s);
    }
    var stack: seq<char>, quote, i, end := [], NoQuote, 0, |s|;
    while i < end
      invariant end == |s| && ScanFrom(s, i, quote, stack) == ScanFrom(s, 0, NoQuote, [])
      decreases end - i
    {
      var ch := s[i];
      if quote == Double {
        if ch == '\\' {
          i := i + 2;
          continue;
        }
        if ch == '"' {
          quote := NoQuote;
        }
        i := i + 1;
        continue;
      }
      if quote == Single {
        if ch == '\'' {
          if Slice(s, i + 1, i + 2) == "'" {
            i := i + 2;
            continue;
          }
          quote := NoQuote;
        }
        i := i + 1;
        continue;
      }
      if ch == '"' || ch == '\'' {
        quote := if ch == '"' then Double else Single;
      } else if ch == '[' || ch == '{' {
        stack := stack + [Closer(ch)];
      } else if ch == ']' || ch == '}' {
        if stack == [] {
          return Err(ClosesNothing);
        }
        var closer := stack[|stack| - 1];
        stack := stack[..|stack| - 1];
        if closer != ch {
          return Err(MismatchedClosers);
        }
      } else if OpensComment(s, i) {
        end := i;
        break;
      }
      i := i + 1;
    }
    if !quote.NoQuote? {
      return Err(UnterminatedQuote);
    }
    if stack != [] {
      return Err(UnterminatedFlow);
    }
    r := Ok(TrimRight(s[..end]));
  }

  // ---- Splitting a flow sequence ----------------------------------------------------------------

  /** From an index and a state on: the items of the body. A quote opens one only where an item begins. */
  function SplitFrom(inner: string, i: nat, quote: Quote, buf: string, items: seq<string>): Result<seq<string>, Problem>
    decreases |inner| - i
  {
    if i >= |inner| then Ok(if Trim(buf) == "" then items else items + [Trim(buf)])
    else
      var ch := inner[i];
      match quote
      case Double =>
        if ch == '\\' then SplitFrom(inner, i + 2, Double, buf + Slice(inner, i, i + 2), items)
        else SplitFrom(inner, i + 1, if ch == '"' then NoQuote else Double, buf + [ch], items)
      case Single =>
        if ch == '\'' && Slice(inner, i + 1, i + 2) == "'" then SplitFrom(inner, i + 2, Single, buf + "''", items)
        else SplitFrom(inner, i + 1, if ch == '\'' then NoQuote else Single, buf + [ch], items)
      case NoQuote =>
        if ch in "\"'" && Trim(buf) == "" then
          SplitFrom(inner, i + 1, if ch == '"' then Double else Single, buf + [ch], items)
        else if ch in "[{" then Err(NestedCollection)
        else if ch in "]}" then Err(ClosesNothing)
        else if ch == ',' then SplitFrom(inner, i + 1, NoQuote, "", items + [Trim(buf)])
        else SplitFrom(inner, i + 1, NoQuote, buf + [ch], items)
  }

  function Split(inner: string): Result<seq<string>, Problem> {
    SplitFrom(inner, 0, NoQuote, "", [])
  }

  /** `_split_flow_items` */
  method SplitFlowItems(inner: string) returns (r: Result<seq<string>, Problem>)
    ensures r == Split(inner)
  {
    var items: seq<string>, buf, quote, i := [], "", NoQuote, 0;
    while i < |inner|
      invariant SplitFrom(inner, i, quote, buf, items) == Split(inner)
      decreases |inner| - i
    {
      var ch := inner[i];
      if quote == Double {
        if ch == '\\' {
          buf := buf + Slice(inner, i, i + 2);
          i := i + 2;
          continue;
        }
        buf := buf + [ch];
        if ch == '"' {
          quote := NoQuote;
        }
        i := i + 1;
        continue;
      }
      if quote == Single {
        if ch == '\'' && Slice(inner, i + 1, i + 2) == "'" {
          buf := buf + "''";
          i := i + 2;
          continue;
        }
        buf := buf + [ch];
        if ch == '\'' {
          quote := NoQuote;
        }
        i := i + 1;
        continue;
      }
      if ch in "\"'" && Trim(buf) == "" {
        quote := if ch == '"' then Double else Single;
        buf := buf + [ch];
      } else if ch in "[{" {
        return Err(NestedCollection);
      } else if ch in "]}" {
        return Err(ClosesNothing);
      } else if ch == ',' {
        items := items + [Trim(buf)];
        buf := "";
      } else {
        buf := buf + [ch];
      }
      i := i + 1;
    }
    var tail := Trim(buf);
    if tail != "" {
      items := items + [tail];
    }
    r := Ok(items);
  }

  // ---- Unescaping -------------------------------------------------------------------------------

  /** The character a one-letter escape names. */
  function Named(code: char): Option<char> {
    match code
    case '0' => Some('\0')
    case 'a' => Some('\U{0007}')
    case 'b' => Some('\U{0008}')
    case 't' => Some('\t')
    case '\t' => Some('\t')
    case 'n' => Some('\n')
    case 'v' => Some('\U{000B}')
    case 'f' => Some('\U{000C}')
    case 'r' => Some('\r')
    case 'e' => Some('\U{001B}')
    case ' ' => Some(' ')
    case '"' => Some('"')
    case '/' => Some('/')
    case '\\' => Some('\\')
    case 'N' => Some('\U{0085}')
    case '_' => Some('\U{00A0}')
    case 'L' => Some('\U{2028}')
    case 'P' => Some('\U{2029}')
    case _ => None
  }

  function Width(code: char): Option<nat> {
    match code
    case 'x' => Some(2)
    case 'u' => Some(4)
    case 'U' => Some(8)
    case _ => None
  }

  predicate IsHex(c: char) {
    '0' <= c <= '9' || 'a' <= c <= 'f' || 'A' <= c <= 'F'
  }

  function HexDigit(c: char): nat
    requires IsHex(c)
  {
    if c <= '9' then c as int - '0' as int
    else if c <= 'F' then c as int - 'A' as int + 10
    else c as int - 'a' as int + 10
  }

  function Hex(digits: string): nat
    requires forall k :: 0 <= k < |digits| ==> IsHex(digits[k])
  {
    if digits == "" then 0 else 16 * Hex(digits[..|digits| - 1]) + HexDigit(digits[|digits| - 1])
  }

  /** A hexadecimal escape's character. */
  function HexEscape(inner: string, i: nat, width: nat): Result<char, Problem> {
    var digits := Slice(inner, i + 2, i + 2 + width);
    if |digits| != width || exists k :: 0 <= k < |digits| && !IsHex(digits[k]) then Err(MalformedEscape)
    else
      var point := Hex(digits);
      if point > 0x10FFFF || 0xD800 <= point <= 0xDFFF then Err(NotAScalarValue) else Ok(point as char)
  }

  function UnescapeFrom(inner: string, i: nat, out: string): Result<string, Problem>
    decreases |inner| - i
  {
    if i >= |inner| then Ok(out)
    else if inner[i] == '"' then Err(UnterminatedQuote)
    else if inner[i] != '\\' then UnescapeFrom(inner, i + 1, out + [inner[i]])
    else if i + 1 >= |inner| then Err(PastEnd)
    else
      match Named(inner[i + 1])
      case Some(c) => UnescapeFrom(inner, i + 2, out + [c])
      case None =>
        match Width(inner[i + 1])
        case None => Err(UnsupportedEscape)
        case Some(width) =>
          match HexEscape(inner, i, width)
          case Err(problem) => Err(problem)
          case Ok(c) => UnescapeFrom(inner, i + 2 + width, out + [c])
  }

  function Unescape(inner: string): Result<string, Problem> {
    UnescapeFrom(inner, 0, "")
  }

  /** `_unescape_double_quoted` */
  method UnescapeDoubleQuoted(inner: string) returns (r: Result<string, Problem>)
    ensures r == Unescape(inner)
  {
    hide HexEscape;
    var out, i := "", 0;
    while i < |inner|
      invariant UnescapeFrom(inner, i, out) == Unescape(inner)
      decreases |inner| - i
    {
      var ch := inner[i];
      if ch == '"' {
        return Err(UnterminatedQuote);
      }
      if ch != '\\' {
        out := out + [ch];
        i := i + 1;
        continue;
      }
      if i + 1 >= |inner| {
        return Err(PastEnd);
      }
      var code := inner[i + 1];
      if Named(code).Some? {
        out := out + [Named(code).value];
        i := i + 2;
        continue;
      }
      var width := Width(code);
      if width.None? {
        return Err(UnsupportedEscape);
      }
      var point := HexEscape(inner, i, width.value);
      if point.Err? {
        return Err(point.error);
      }
      out := out + [point.value];
      i := i + 2 + width.value;
    }
    r := Ok(out);
  }

  // ---- Scalars, lists and values ----------------------------------------------------------------

  /** `_plain_scalar_error` */
  predicate PlainError(tables: Tables, text: string)
    requires text != ""
  {
    || text[0] in ",[]{}&*!|>'\"%@`"
    || (text[0] in "-?:" && (|text| == 1 || text[1] in " \t"))
    || (exists k :: 0 <= k < |text| - 1 && text[k] == ':' && text[k + 1] in " \t")
    || text[|text| - 1] == ':'
    || tables.unconstructible(text)
  }

  /** `_parse_scalar` */
  function ParseScalar(tables: Tables, text: string): Result<Scalar, Problem> {
    if text == "" then Err(PastEnd)
    else if text[0] in "[{" then Err(CollectionAsScalar)
    else if text[0] in "&*!|>" then Err(OutsideSubset)
    else if text[0] == '"' then
      if |text| < 2 || text[|text| - 1] != '"' then Err(UnterminatedQuote)
      else
        match Unescape(Inner(text))
        case Ok(value) => Ok(Scalar(value, true))
        case Err(problem) => Err(problem)
    else if text[0] == '\'' then
      if |text| < 2 || text[|text| - 1] != '\'' then Err(UnterminatedQuote)
      else if '\'' in ReplacePairs(Inner(text), "") then Err(UndoubledQuote)
      else Ok(Scalar(ReplacePairs(Inner(text), "'"), true))
    else if PlainError(tables, text) then Err(PlainProblem)
    else Ok(Scalar(text, tables.plainIsString(text)))
  }

  /** `_looks_like_mapping`: the first of `:`, `'` and `"` is a colon, at the end or before whitespace. */
  function LooksLikeMappingFrom(text: string, i: nat): bool
    decreases |text| - i
  {
    i < |text| &&
    if text[i] == ':' then i + 1 == |text| || IsSpace(text[i + 1])
    else text[i] !in "'\"" && LooksLikeMappingFrom(text, i + 1)
  }

  function ParseItem(tables: Tables, item: string): Result<Scalar, Problem> {
    if item == "" then Err(EmptyItem)
    else if LooksLikeMappingFrom(item, 0) then Err(MappingItem)
    else if item[0] !in "\"'" && ('?' in item || item[0] == ':') then Err(PlainFlowIndicator)
    else ParseScalar(tables, item)
  }

  /** What was parsed, and then the rest. */
  function Following(out: seq<Scalar>, rest: Result<seq<Scalar>, Problem>): Result<seq<Scalar>, Problem> {
    match rest
    case Ok(scalars) => Ok(out + scalars)
    case Err(problem) => Err(problem)
  }

  lemma FollowingNothing(rest: Result<seq<Scalar>, Problem>)
    ensures Following([], rest) == rest
  {
    if rest.Ok? {
      assert [] + rest.value == rest.value;
    }
  }

  lemma FollowingOne(out: seq<Scalar>, item: Result<Scalar, Problem>, rest: Result<seq<Scalar>, Problem>)
    requires item.Ok?
    ensures Following(out, Following([item.value], rest)) == Following(out + [item.value], rest)
  {
    if rest.Ok? {
      assert out + ([item.value] + rest.value) == (out + [item.value]) + rest.value;
    }
  }

  function ParseItems(tables: Tables, items: seq<string>): Result<seq<Scalar>, Problem> {
    if items == [] then Ok([])
    else
      match ParseItem(tables, items[0])
      case Err(problem) => Err(problem)
      case Ok(scalar) => Following([scalar], ParseItems(tables, items[1..]))
  }

  /** `_parse_flow_list` */
  function ParseList(tables: Tables, text: string): Result<seq<Scalar>, Problem> {
    if text == "" || text[|text| - 1] != ']' then Err(TextAfterFlow)
    else
      match Split(Inner(text))
      case Err(problem) => Err(problem)
      case Ok(items) => ParseItems(tables, items)
  }

  method ParseFlowList(tables: Tables, text: string) returns (r: Result<seq<Scalar>, Problem>)
    ensures r == ParseList(tables, text)
  {
    hide ParseItem, Split;
    if text == "" || text[|text| - 1] != ']' {
      return Err(TextAfterFlow);
    }
    var split := SplitFlowItems(Inner(text));
    if split.Err? {
      return Err(split.error);
    }
    var items, out: seq<Scalar> := split.value, [];
    assert items[0..] == items;
    FollowingNothing(ParseItems(tables, items));
    for i := 0 to |items|
      invariant ParseItems(tables, items) == Following(out, ParseItems(tables, items[i..]))
    {
      assert items[i..][1..] == items[i + 1..];
      var scalar := ParseItem(tables, items[i]);
      if scalar.Err? {
        return Err(scalar.error);
      }
      FollowingOne(out, scalar, ParseItems(tables, items[i + 1..]));
      out := out + [scalar.value];
    }
    assert items[|items|..] == [] && out + [] == out;
    r := Ok(out);
  }

  /** A value on the line of its key: the comment is stripped, then the rest is a list or a scalar. */
  function ReadValue(tables: Tables, raw: string): Result<Value, Problem> {
    match Strip(raw)
    case Err(problem) => Err(problem)
    case Ok(text) =>
      if text == "" then Ok(Absent)
      else if text[0] == '[' then
        match ParseList(tables, text) {
          case Err(problem) => Err(problem)
          case Ok(items) => Ok(Many(items))
        }
      else
        match ParseScalar(tables, text)
        case Err(problem) => Err(problem)
        case Ok(scalar) => Ok(One(scalar))
  }
}
