/** Text helpers the visitor relies on: Python's `"    " * n`, `str.join`,
    `str(int)` and `repr(str)`, written out over `seq<char>`. */
module Strings {

  /** `"    " * level`: Python repeats a string zero times for a level at or below zero. */
  function IndentText(level: int): (r: string)
    ensures |r| == if level > 0 then 4 * level else 0
    ensures forall k :: 0 <= k < |r| ==> r[k] == ' '
    decreases if level > 0 then level else 0
  {
    if level <= 0 then "" else IndentText(level - 1) + "    "
  }

  /** `sep.join(xs)`. */
  function Join(sep: string, xs: seq<string>): string
  {
    if xs == [] then ""
    else if |xs| == 1 then xs[0]
    else xs[0] + sep + Join(sep, xs[1..])
  }

  /** `"".join(xs)`. */
  function Concat(xs: seq<string>): string
  {
    if xs == [] then "" else xs[0] + Concat(xs[1..])
  }

  /** Each element of `xs` prefixed with `pre` (the `f"{indent}{i}"` comprehensions). */
  function Prefixed(pre: string, xs: seq<string>): (r: seq<string>)
    ensures |r| == |xs|
    ensures forall k :: 0 <= k < |xs| ==> r[k] == pre + xs[k]
  {
    if xs == [] then [] else [pre + xs[0]] + Prefixed(pre, xs[1..])
  }

  /** Each element of `xs` followed by `post`. */
  function Suffixed(xs: seq<string>, post: string): (r: seq<string>)
    ensures |r| == |xs|
    ensures forall k :: 0 <= k < |xs| ==> r[k] == xs[k] + post
  {
    if xs == [] then [] else [xs[0] + post] + Suffixed(xs[1..], post)
  }

  predicate IsDigit(ch: char)
  {
    '0' <= ch <= '9'
  }

  function DigitChar(d: nat): (ch: char)
    requires d < 10
    ensures IsDigit(ch)
    ensures ch as int - '0' as int == d
  {
    "0123456789"[d]
  }

  /** Python's `str(n)` for a natural number: decimal digits, no leading zeros. */
  function NatToString(n: nat): (r: string)
    ensures 1 <= |r|
    ensures forall k :: 0 <= k < |r| ==> IsDigit(r[k])
    ensures n < 10 <==> |r| == 1
    decreases n
  {
    if n < 10 then [DigitChar(n)] else NatToString(n / 10) + [DigitChar(n % 10)]
  }

  /** Python's `str(i)` (and `repr(i)`) for an integer. */
  function IntToString(i: int): (r: string)
    ensures 1 <= |r|
    ensures r[0] == '-' <==> i < 0
    ensures forall k :: 0 < k < |r| ==> IsDigit(r[k])
  {
    if i < 0 then "-" + NatToString(-i) else NatToString(i)
  }

  /** Distinct numbers print as distinct decimal strings. */
  lemma {:induction false} NatToStringInjective(a: nat, b: nat)
    requires NatToString(a) == NatToString(b)
    ensures a == b
    decreases a
  {
    var ra, rb := NatToString(a), NatToString(b);
    if a < 10 || b < 10 {
      assert |ra| == 1 && |rb| == 1;
      assert a < 10 && b < 10;
      assert ra[0] == DigitChar(a) && rb[0] == DigitChar(b);
    } else {
      assert ra == NatToString(a / 10) + [DigitChar(a % 10)];
      assert rb == NatToString(b / 10) + [DigitChar(b % 10)];
      assert ra[..|ra| - 1] == NatToString(a / 10);
      assert rb[..|rb| - 1] == NatToString(b / 10);
      NatToStringInjective(a / 10, b / 10);
      assert ra[|ra| - 1] == DigitChar(a % 10) && rb[|rb| - 1] == DigitChar(b % 10);
    }
  }

  lemma IntToStringInjective(a: int, b: int)
    requires IntToString(a) == IntToString(b)
    ensures a == b
  {
    if a < 0 {
      assert IntToString(a)[1..] == NatToString(-a);
      assert IntToString(b)[1..] == NatToString(-b);
      NatToStringInjective(-a, -b);
    } else {
      NatToStringInjective(a, b);
    }
  }

  function HexDigit(d: nat): char
    requires d < 16
  {
    "0123456789abcdef"[d]
  }

  /** One character as Python's `repr` writes it inside the chosen quote `q`. Characters
      outside ASCII are written as they are (every such character is taken to be printable). */
  function ReprChar(ch: char, q: char): string
  {
    if ch == q || ch == '\\' then ['\\', ch]
    else if ch == '\t' then "\\t"
    else if ch == '\n' then "\\n"
    else if ch == '\r' then "\\r"
    else if ch as int < 32 || ch as int == 127 then
      "\\x" + [HexDigit(ch as int / 16), HexDigit(ch as int % 16)]
    else [ch]
  }

  function ReprBody(s: string, q: char): string
  {
    if s == [] then "" else ReprChar(s[0], q) + ReprBody(s[1..], q)
  }

  /** The quote Python's `repr` picks: a double quote only when the text holds a single
      quote and no double quote. */
  function ReprQuote(s: string): char
  {
    if '\'' in s && '"' !in s then '"' else '\''
  }

  /** Python's `repr(s)` for a string. */
  function PyRepr(s: string): (r: string)
    ensures 2 <= |r| && r[0] == r[|r| - 1] == ReprQuote(s)
  {
    [ReprQuote(s)] + ReprBody(s, ReprQuote(s)) + [ReprQuote(s)]
  }

  /** Characters that `repr` copies unchanged whichever quote it picks. */
  predicate PlainChar(ch: char)
  {
    ch != '\'' && ch != '"' && ch != '\\' && 32 <= ch as int && ch as int != 127
  }

  /** A text without quotes, backslashes or control characters is printed between
      single quotes and otherwise unchanged. */
  lemma {:induction false} ReprOfPlain(s: string)
    requires forall k :: 0 <= k < |s| ==> PlainChar(s[k])
    ensures PyRepr(s) == "'" + s + "'"
  {
    assert forall k :: 0 <= k < |s| ==> s[k] != '\'';
    PlainBody(s, '\'');
  }

  lemma {:induction false} PlainBody(s: string, q: char)
    requires q == '\'' || q == '"'
    requires forall k :: 0 <= k < |s| ==> PlainChar(s[k])
    ensures ReprBody(s, q) == s
  {
    if s != [] {
      assert PlainChar(s[0]);
      PlainBody(s[1..], q);
      assert s == [s[0]] + s[1..];
    }
  }

  /** Python's `str(xs)` for a list of strings: `['a', 'b']`. */
  function ListRepr(xs: seq<string>): string
  {
    "[" + Join(", ", ReprAll(xs)) + "]"
  }

  function ReprAll(xs: seq<string>): (r: seq<string>)
    ensures |r| == |xs|
    ensures forall k :: 0 <= k < |xs| ==> r[k] == PyRepr(xs[k])
  {
    if xs == [] then [] else [PyRepr(xs[0])] + ReprAll(xs[1..])
  }
}
