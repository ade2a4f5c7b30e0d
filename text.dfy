/** The pieces of Python's `str` and `int` that the plugin relies on: f-string
    formatting of integers, `int(text)`, `text.strip()`, `text.split(':')[0]` and the
    ordering `sorted` uses on strings. */
module Text {
  import opened Wrappers

  predicate IsDigit(c: char) {
    '0' <= c <= '9'
  }

  /** The characters Python's `str.isspace()` accepts, which `str.strip()` discards at
      the ends of its argument. */
  predicate IsSpace(c: char) {
    || c == ' ' || c == '\t' || c == '\n' || c == '\r' || c == '\U{000B}' || c == '\U{000C}'
    || '\U{001C}' <= c <= '\U{001F}' || c == '\U{0085}' || c == '\U{00A0}' || c == '\U{1680}'
    || '\U{2000}' <= c <= '\U{200A}' || c == '\U{2028}' || c == '\U{2029}' || c == '\U{202F}'
    || c == '\U{205F}' || c == '\U{3000}'
  }

  /** The characters `int()` discards at the ends of its argument: the ASCII whitespace
      tab, line feed, vertical tab, form feed, carriage return and space, and every
      non-ASCII character `isspace()` accepts. The separators U+001C to U+001F are
      whitespace to `isspace()` but not to `int()`. */
  predicate IsIntSpace(c: char) {
    IsSpace(c) && !('\U{001C}' <= c <= '\U{001F}')
  }

  function DigitChar(d: int): (c: char)
    requires 0 <= d < 10
    ensures IsDigit(c) && c as int - '0' as int == d
  {
    (d + '0' as int) as char
  }

  /** Decimal digits of `n`, most significant first, with no leading zero. */
  function NatToString(n: nat): (s: string)
    ensures |s| > 0
    ensures forall i :: 0 <= i < |s| ==> IsDigit(s[i])
    ensures s[0] == '0' <==> n == 0
    ensures n == 0 ==> s == "0"
    decreases n
  {
    if n < 10 then [DigitChar(n)] else NatToString(n / 10) + [DigitChar(n % 10)]
  }

  /** `str(n)` / `f"{n}"` for an integer. */
  function IntToString(n: int): (s: string)
    ensures |s| > 0 && (IsDigit(s[0]) || s[0] == '-') && IsDigit(s[|s| - 1])
    ensures forall i :: 0 <= i < |s| ==> s[i] != ':' && !IsSpace(s[i])
    // No leading zero: "0" is the only text starting with one, and "-0" never occurs.
    ensures s[0] == '0' ==> s == "0"
    ensures s[0] == '-' ==> |s| > 1 && IsDigit(s[1]) && s[1] != '0'
  {
    if n < 0 then "-" + NatToString(-n) else NatToString(n)
  }

  function DigitValue(c: char): (d: nat)
    requires IsDigit(c)
    ensures d < 10
  {
    c as int - '0' as int
  }

  /** The value of a non-empty run of decimal digits. */
  function DigitsValue(s: string): nat
    requires forall i :: 0 <= i < |s| ==> IsDigit(s[i])
    decreases |s|
  {
    if s == [] then 0 else DigitsValue(s[..|s| - 1]) * 10 + DigitValue(s[|s| - 1])
  }

  lemma {:induction false} DigitsValueOfNatToString(n: nat)
    ensures DigitsValue(NatToString(n)) == n
    decreases n
  {
    if n >= 10 {
      var s := NatToString(n);
      assert s[..|s| - 1] == NatToString(n / 10);
      DigitsValueOfNatToString(n / 10);
    }
  }

  function StripLeading(s: string, space: char -> bool): (r: string)
    ensures |r| <= |s| && r == s[|s| - |r|..]
    ensures r != [] ==> !space(r[0])
    ensures forall i :: 0 <= i < |s| - |r| ==> space(s[i])
    decreases |s|
  {
    if s != [] && space(s[0]) then StripLeading(s[1..], space) else s
  }

  function StripTrailing(s: string, space: char -> bool): (r: string)
    ensures |r| <= |s| && r == s[..|r|]
    ensures r != [] ==> !space(r[|r| - 1])
    ensures forall i :: |r| <= i < |s| ==> space(s[i])
    decreases |s|
  {
    if s != [] && space(s[|s| - 1]) then StripTrailing(s[..|s| - 1], space) else s
  }

  /** `s` without its leading and trailing characters in `space`: `s.strip()` for
      `IsSpace`, the trimming `int()` does for `IsIntSpace`. It is empty exactly when
      every character of `s` is in `space`. */
  function Strip(s: string, space: char -> bool): (r: string)
    ensures r != [] ==> !space(r[0]) && !space(r[|r| - 1])
    ensures r == [] <==> forall i :: 0 <= i < |s| ==> space(s[i])
    // `r` is the slice of `s` left once only such characters are cut from both ends.
    ensures var a := LeadingSpaces(s, space);
      a + |r| <= |s| && r == s[a..a + |r|]
      && (forall i :: 0 <= i < a ==> space(s[i]))
      && (forall i :: a + |r| <= i < |s| ==> space(s[i]))
  {
    StripTrailing(StripLeading(s, space), space)
  }

  /** The number of characters in `space` that `s` starts with. */
  function LeadingSpaces(s: string, space: char -> bool): nat {
    |s| - |StripLeading(s, space)|
  }

  /** `t` without its sign, if it has one. */
  function Unsigned(t: string): string {
    if t != [] && (t[0] == '+' || t[0] == '-') then t[1..] else t
  }

  /** An optional sign followed by at least one ASCII digit. */
  predicate IsNumeral(t: string) {
    Unsigned(t) != [] && forall i :: 0 <= i < |Unsigned(t)| ==> IsDigit(Unsigned(t)[i])
  }

  /** The value a numeral denotes. */
  function NumeralValue(t: string): int
    requires IsNumeral(t)
  {
    if t[0] == '-' then -(DigitsValue(Unsigned(t)) as int) else DigitsValue(Unsigned(t))
  }

  /** `int(s)` for a string: surrounding whitespace in the sense of `IsIntSpace`, an
      optional sign and at least one ASCII digit. Underscore separators and non-ASCII
      digits, which Python also accepts, are not modelled. None stands for the
      ValueError. */
  function ParseInt(s: string): Option<int> {
    var t := Strip(s, IsIntSpace);
    if IsNumeral(t) then Some(NumeralValue(t)) else None
  }

  /** Strip removes exactly the padding around a text that starts and ends with
      a character outside `space`. */
  lemma StripPadded(pre: string, t: string, post: string, space: char -> bool)
    requires t != [] && !space(t[0]) && !space(t[|t| - 1])
    requires forall i :: 0 <= i < |pre| ==> space(pre[i])
    requires forall i :: 0 <= i < |post| ==> space(post[i])
    ensures Strip(pre + t + post, space) == t
  {
    var s := pre + t + post;
    var r := Strip(s, space);
    var a := LeadingSpaces(s, space);
    assert s[|pre|] == t[0];
    assert s[|pre| + |t| - 1] == t[|t| - 1];
    assert r != [];
    assert a == |pre|;
    assert a + |r| == |pre| + |t|;
    assert s[a..a + |r|] == t;
  }

  /** A numeral between whitespace parses to its value. */
  lemma ParseIntOfNumeral(pre: string, t: string, post: string)
    requires IsNumeral(t)
    requires forall i :: 0 <= i < |pre| ==> IsIntSpace(pre[i])
    requires forall i :: 0 <= i < |post| ==> IsIntSpace(post[i])
    ensures ParseInt(pre + t + post) == Some(NumeralValue(t))
  {
    assert t[|t| - 1] == Unsigned(t)[|Unsigned(t)| - 1];
    StripPadded(pre, t, post, IsIntSpace);
  }

  /** A string that parses is a numeral between whitespace, and its value is the
      numeral's. */
  lemma ParseIntOnlyNumerals(s: string)
    requires ParseInt(s).Some?
    ensures exists a, b :: 0 <= a <= b <= |s| && IsNumeral(s[a..b]) && ParseInt(s) == Some(NumeralValue(s[a..b]))
                           && (forall i :: 0 <= i < a ==> IsIntSpace(s[i])) && (forall i :: b <= i < |s| ==> IsIntSpace(s[i]))
  {
    var a := LeadingSpaces(s, IsIntSpace);
    assert s[a..a + |Strip(s, IsIntSpace)|] == Strip(s, IsIntSpace);
  }

  /** A separator U+001C to U+001F before a numeral is trimmed by `strip()` but makes
      `int()` fail. */
  lemma ParseIntKeepsSeparators(c: char, t: string)
    requires '\U{001C}' <= c <= '\U{001F}' && IsNumeral(t)
    ensures Strip([c] + t, IsSpace) == t
    ensures ParseInt([c] + t).None?
  {
    assert t[|t| - 1] == Unsigned(t)[|Unsigned(t)| - 1];
    assert [c] + t + "" == [c] + t;
    StripPadded([c], t, "", IsSpace);
    SeparatorBlocksInt(c, t);
  }

  /** `int()` fails on any text that starts with a separator U+001C to U+001F. */
  lemma SeparatorBlocksInt(c: char, t: string)
    requires '\U{001C}' <= c <= '\U{001F}'
    ensures ParseInt([c] + t).None?
  {
    var s := [c] + t;
    var r := Strip(s, IsIntSpace);
    assert !IsIntSpace(s[0]);
    if r != [] {
      assert LeadingSpaces(s, IsIntSpace) == 0;
      assert r[0] == c && Unsigned(r) == r && !IsDigit(Unsigned(r)[0]);
    }
  }

  /** `int(str(n)) == n`. */
  lemma IntToStringRoundTrip(n: int)
    ensures ParseInt(IntToString(n)) == Some(n)
  {
    var s := IntToString(n);
    var digits := NatToString(if n < 0 then -n else n);
    assert Unsigned(s) == digits;
    DigitsValueOfNatToString(if n < 0 then -n else n);
    assert s == "" + s + "";
    ParseIntOfNumeral("", s, "");
  }

  /** `s.split(':')[0]`: the text before the first colon, or all of `s`. */
  function BeforeColon(s: string): (r: string)
    ensures |r| <= |s| && r == s[..|r|] && ':' !in r
    ensures |r| < |s| ==> s[|r|] == ':'
    decreases |s|
  {
    if s == [] || s[0] == ':' then [] else [s[0]] + BeforeColon(s[1..])
  }

  /** The host part of a `"<host>:<container>"` port mapping whose host part holds no
      colon is that host part. */
  lemma BeforeColonOfMapping(a: string, b: string)
    requires ':' !in a
    ensures BeforeColon(a + ":" + b) == a
  {
    var s := a + ":" + b;
    var r := BeforeColon(s);
    assert s[|a|] == ':';
    assert r == s[..|r|];
  }

  /** Python's `a <= b` on strings: lexicographic by code point. */
  predicate StrLe(a: string, b: string)
    decreases |a|
  {
    a == [] || (b != [] && (a[0] < b[0] || (a[0] == b[0] && StrLe(a[1..], b[1..]))))
  }

  lemma {:induction false} StrLeTotal(a: string, b: string)
    ensures StrLe(a, b) || StrLe(b, a)
    decreases |a|
  {
    if a != [] && b != [] && a[0] == b[0] {
      StrLeTotal(a[1..], b[1..]);
    }
  }

  lemma {:induction false} StrLeTransitive(a: string, b: string, c: string)
    requires StrLe(a, b) && StrLe(b, c)
    ensures StrLe(a, c)
    decreases |a|
  {
    if a != [] && b != [] && c != [] && a[0] == b[0] == c[0] {
      StrLeTransitive(a[1..], b[1..], c[1..]);
    }
  }

  /** Every pair, not only neighbours, is in order. */
  predicate Sorted(s: seq<string>) {
    forall i, j :: 0 <= i < j < |s| ==> StrLe(s[i], s[j])
  }

  /** Inserts `x` into a sorted sequence, after every element not above it. */
  function InsertSorted(x: string, s: seq<string>): (r: seq<string>)
    requires Sorted(s)
    ensures Sorted(r) && multiset(r) == multiset(s) + multiset{x}
    decreases |s|
  {
    if s == [] then [x]
    else if StrLe(x, s[0]) then
      LowerBoundOfSorted(x, s);
      SortedPrepend(x, s);
      [x] + s
    else
      var tail := InsertSorted(x, s[1..]);
      assert s == [s[0]] + s[1..];
      StrLeTotal(x, s[0]);
      LowerBoundOfSorted(s[0], s[1..]);
      LowerBoundOfMultiset(s[0], tail, s[1..], x);
      SortedPrepend(s[0], tail);
      [s[0]] + tail
  }

  /** A bound of the first element of a sorted sequence bounds all of it. */
  lemma LowerBoundOfSorted(x: string, s: seq<string>)
    requires Sorted(s) && (s == [] || StrLe(x, s[0]))
    ensures forall j :: 0 <= j < |s| ==> StrLe(x, s[j])
  {
    forall j | 1 <= j < |s| ensures StrLe(x, s[j]) {
      StrLeTransitive(x, s[0], s[j]);
    }
  }

  /** A lower bound of every element stays one after the bound element is added. */
  lemma LowerBoundOfMultiset(y: string, t: seq<string>, u: seq<string>, x: string)
    requires multiset(t) == multiset(u) + multiset{x}
    requires StrLe(y, x) && forall k :: 0 <= k < |u| ==> StrLe(y, u[k])
    ensures forall j :: 0 <= j < |t| ==> StrLe(y, t[j])
  {
    forall j | 0 <= j < |t| ensures StrLe(y, t[j]) {
      assert t[j] in multiset(u) + multiset{x};
      if t[j] != x {
        var k :| 0 <= k < |u| && u[k] == t[j];
      }
    }
  }

  lemma SortedPrepend(x: string, s: seq<string>)
    requires Sorted(s) && forall j :: 0 <= j < |s| ==> StrLe(x, s[j])
    ensures Sorted([x] + s)
  {
    forall i, j | 0 <= i < j < |[x] + s| ensures StrLe(([x] + s)[i], ([x] + s)[j]) {
      assert ([x] + s)[j] == s[j - 1];
      if i > 0 {
        assert ([x] + s)[i] == s[i - 1];
      }
    }
  }

  /** Python's `sorted` on strings: the same elements, in code-point order. */
  function SortStrings(s: seq<string>): (r: seq<string>)
    ensures Sorted(r) && multiset(r) == multiset(s)
    decreases |s|
  {
    if s == [] then []
    else
      assert s == s[..|s| - 1] + [s[|s| - 1]];
      InsertSorted(s[|s| - 1], SortStrings(s[..|s| - 1]))
  }
}
