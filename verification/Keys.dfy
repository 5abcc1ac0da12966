/** The identity a step attempt is handed under: `{run}:{step}:{attempt}`, with the delimiter escaped
    in the run id and the step's name (runner.py, `_key_component` and `resolve`). */
module Keys {
  import opened Text

  /** `value.replace("%", "%25").replace(":", "%3A")` */
  function KeyComponent(value: string): string {
    Replace(Replace(value, '%', "%25"), ':', "%3A")
  }

  /** `str(n)` for a non-negative integer. */
  function Decimal(n: nat): string {
    if n < 10 then [Digit(n)] else Decimal(n / 10) + [Digit(n % 10)]
  }

  function Digit(d: nat): char
    requires d < 10
  {
    ['0', '1', '2', '3', '4', '5', '6', '7', '8', '9'][d]
  }

  /** What names the materialization: the step and the attempt, within its run. */
  function Instance(step: string, attempt: nat): string {
    KeyComponent(step) + ":" + Decimal(attempt)
  }

  /** The idempotency key of an attempt, and the reference its large payload is kept under. */
  function Key(run: string, step: string, attempt: nat): string {
    KeyComponent(run) + ":" + Instance(step, attempt)
  }

  /** Undoes `KeyComponent`, one character or one escape at a time. */
  function Unescaped(s: string): string {
    if s == "" then ""
    else if s[0] == '%' && |s| >= 3 then
      (if s[..3] == "%25" then "%" else if s[..3] == "%3A" then ":" else s[..1]) + Unescaped(s[3..])
    else s[..1] + Unescaped(s[1..])
  }

  /** The two replacements act on each character alone. */
  lemma KeyComponentCons(value: string)
    requires value != ""
    ensures KeyComponent(value)
         == (if value[0] == '%' then "%25" else if value[0] == ':' then "%3A" else [value[0]])
            + KeyComponent(value[1..])
  {
    var first := if value[0] == '%' then "%25" else [value[0]];
    assert Replace(value, '%', "%25") == first + Replace(value[1..], '%', "%25");
    ReplaceConcat(first, Replace(value[1..], '%', "%25"), ':', "%3A");
    var t := "%25";
    assert t[1..] == "25" && "25"[1..] == "5" && "5"[1..] == "";
    assert [value[0]][1..] == "";
  }

  lemma {:induction false} KeyComponentInvertible(value: string)
    ensures Unescaped(KeyComponent(value)) == value
    ensures ':' !in KeyComponent(value)
  {
    if value != "" {
      KeyComponentInvertible(value[1..]);
      KeyComponentCons(value);
      var rest := KeyComponent(value[1..]);
      if value[0] == '%' {
        assert ("%25" + rest)[..3] == "%25" && ("%25" + rest)[3..] == rest;
      } else if value[0] == ':' {
        assert ("%3A" + rest)[..3] == "%3A" && ("%3A" + rest)[3..] == rest;
      } else {
        assert ([value[0]] + rest)[1..] == rest;
      }
    }
  }

  lemma {:induction false} DecimalInjective(m: nat, n: nat)
    requires Decimal(m) == Decimal(n)
    ensures m == n
    decreases m + n
  {
    if m >= 10 && n >= 10 {
      var a, b := Decimal(m / 10), Decimal(n / 10);
      assert a == (a + [Digit(m % 10)])[..|a|];
      assert b == (b + [Digit(n % 10)])[..|b|];
      assert (a + [Digit(m % 10)])[|a|] == (b + [Digit(n % 10)])[|b|];
      DecimalInjective(m / 10, n / 10);
    } else {
      DecimalNonEmpty(m / 10);
      DecimalNonEmpty(n / 10);
      assert m < 10 && n < 10;
      assert [Digit(m)][0] == [Digit(n)][0];
    }
  }

  lemma DecimalNonEmpty(n: nat)
    ensures |Decimal(n)| >= 1
  {
  }

  /** Text before the first ':' and text after it are read back from their join. */
  lemma SplitAtColon(a: string, b: string, c: string, d: string)
    requires ':' !in a && ':' !in c
    requires a + ":" + b == c + ":" + d
    ensures a == c && b == d
  {
    var s := a + ":" + b;
    assert s[|a|] == ':' && s[|c|] == ':';
    assert forall k :: 0 <= k < |a| ==> s[k] == a[k];
    assert forall k :: 0 <= k < |c| ==> s[k] == c[k];
    assert |a| == |c|;
    assert s[..|a|] == a && s[..|c|] == c;
    assert s[|a| + 1..] == b && s[|c| + 1..] == d;
  }

  /** Two attempts are handed one key only if they are the same attempt of the same step of the same run,
      whatever characters the ids hold. */
  lemma KeyInjective(run: string, step: string, attempt: nat, run': string, step': string, attempt': nat)
    requires Key(run, step, attempt) == Key(run', step', attempt')
    ensures run == run' && step == step' && attempt == attempt'
  {
    KeyComponentInvertible(run);
    KeyComponentInvertible(run');
    KeyComponentInvertible(step);
    KeyComponentInvertible(step');
    SplitAtColon(KeyComponent(run), Instance(step, attempt), KeyComponent(run'), Instance(step', attempt'));
    SplitAtColon(KeyComponent(step), Decimal(attempt), KeyComponent(step'), Decimal(attempt'));
    DecimalInjective(attempt, attempt');
  }
}
