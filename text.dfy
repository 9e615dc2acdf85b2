/**
 * String helpers with the meaning the JavaScript runtime gives them:
 * `String.prototype.trim`, `Array.prototype.join` and a decimal `parseInt`.
 */
module Text {
  import opened Wrappers

  /**
   * The characters `trim` removes: the WhiteSpace and LineTerminator code
   * points of ECMA-262 (tab, vertical tab, form feed, the byte order mark,
   * every space separator, line feed, carriage return, and the line and
   * paragraph separators).
   */
  predicate IsWhitespace(c: char) {
    || c == ' ' || c == '\t' || c == '\n' || c == '\r'
    || c == '\U{000B}' || c == '\U{000C}' || c == '\U{00A0}' || c == '\U{1680}'
    || ('\U{2000}' <= c <= '\U{200A}')
    || c == '\U{2028}' || c == '\U{2029}' || c == '\U{202F}' || c == '\U{205F}'
    || c == '\U{3000}' || c == '\U{FEFF}'
  }

  predicate AllWhitespace(s: string) {
    forall k :: 0 <= k < |s| ==> IsWhitespace(s[k])
  }

  /** Index of the first character of `s` that is not whitespace, or `|s|`. */
  function StartOfContent(s: string): (i: nat)
    ensures i <= |s|
    ensures AllWhitespace(s[..i])
    ensures i < |s| ==> !IsWhitespace(s[i])
  {
    if s == [] || !IsWhitespace(s[0]) then 0 else 1 + StartOfContent(s[1..])
  }

  /** One past the index of the last character of `s` that is not whitespace, or 0. */
  function EndOfContent(s: string): (j: nat)
    ensures j <= |s|
    ensures AllWhitespace(s[j..])
    ensures 0 < j ==> !IsWhitespace(s[j - 1])
  {
    if s == [] || !IsWhitespace(s[|s| - 1]) then |s| else EndOfContent(s[..|s| - 1])
  }

  /**
   * `s.trim()`: the part of `s` between its leading and its trailing
   * whitespace. The result neither starts nor ends with whitespace, it sits
   * in `s` right after the leading whitespace, and only whitespace follows it.
   */
  function Trim(s: string): (r: string)
    ensures r == "" || (!IsWhitespace(r[0]) && !IsWhitespace(r[|r| - 1]))
    ensures var i := StartOfContent(s);
      i + |r| <= |s| && r == s[i..i + |r|] && AllWhitespace(s[i + |r|..])
  {
    var rest := s[StartOfContent(s)..];
    rest[..EndOfContent(rest)]
  }

  /** `!s.trim()`: the trimmed text is the empty (falsy) string. */
  predicate IsBlank(s: string) {
    Trim(s) == ""
  }

  /** Trim finds exactly the core of any whitespace-padded string. */
  lemma TrimExactly(pre: string, core: string, post: string)
    requires AllWhitespace(pre) && AllWhitespace(post)
    requires core == "" || (!IsWhitespace(core[0]) && !IsWhitespace(core[|core| - 1]))
    ensures Trim(pre + core + post) == core
  {
    var s := pre + core + post;
    var i := StartOfContent(s);
    var r := Trim(s);
    if core == "" {
      assert AllWhitespace(s) by {
        forall k | 0 <= k < |s| ensures IsWhitespace(s[k]) {
          if k < |pre| { assert s[k] == pre[k]; } else { assert s[k] == post[k - |pre|]; }
        }
      }
      assert i == |s|;
    } else {
      assert s[|pre|] == core[0];
      assert forall k :: 0 <= k < |pre| ==> s[k] == pre[k];
      var e := |pre| + |core|;
      assert s[e - 1] == core[|core| - 1];
      assert forall k :: e <= k < |s| ==> s[k] == post[k - e];
      assert s[i..e] == core;
    }
  }

  lemma TrimIdempotent(s: string)
    ensures Trim(Trim(s)) == Trim(s)
  {
    TrimExactly("", Trim(s), "");
    assert "" + Trim(s) + "" == Trim(s);
  }

  /** A string is blank exactly when all of its characters are whitespace. */
  lemma BlankIffAllWhitespace(s: string)
    ensures IsBlank(s) <==> AllWhitespace(s)
  {
    if AllWhitespace(s) {
      TrimExactly(s, "", "");
      assert s + "" + "" == s;
    }
    if IsBlank(s) {
      var i := StartOfContent(s);
      forall k | 0 <= k < |s| ensures IsWhitespace(s[k]) {
        assert s[..i][k] == s[k];
      }
    }
  }

  /** `parts.join(separator)`. */
  function Join(parts: seq<string>, separator: string): string {
    if |parts| == 0 then ""
    else if |parts| == 1 then parts[0]
    else parts[0] + separator + Join(parts[1..], separator)
  }

  /** Pushing one more part adds the separator and that part at the end. */
  lemma {:induction false} JoinAppend(parts: seq<string>, x: string, separator: string)
    requires |parts| > 0
    ensures Join(parts + [x], separator) == Join(parts, separator) + separator + x
  {
    if |parts| == 1 {
      assert parts + [x] == [parts[0], x];
      assert [parts[0], x][1..] == [x];
    } else {
      assert (parts + [x])[1..] == parts[1..] + [x];
      JoinAppend(parts[1..], x, separator);
    }
  }

  /** The joined text begins with the first part. */
  lemma JoinStartsWithFirst(parts: seq<string>, separator: string)
    requires |parts| > 0
    ensures parts[0] <= Join(parts, separator)
  {
  }

  predicate IsDigit(c: char) {
    '0' <= c <= '9'
  }

  predicate AllDigits(s: string) {
    forall k :: 0 <= k < |s| ==> IsDigit(s[k])
  }

  function DigitValue(c: char): (d: nat)
    requires IsDigit(c)
    ensures d < 10
  {
    c as int - '0' as int
  }

  function DigitChar(d: nat): (c: char)
    requires d < 10
    ensures IsDigit(c) && DigitValue(c) == d
  {
    ('0' as int + d) as char
  }

  /** Length of the run of decimal digits at the start of `s`. */
  function DigitRun(s: string): (n: nat)
    ensures n <= |s| && AllDigits(s[..n])
    ensures n < |s| ==> !IsDigit(s[n])
  {
    if s == [] || !IsDigit(s[0]) then 0 else 1 + DigitRun(s[1..])
  }

  /** The number a string of decimal digits denotes. */
  function DecimalValue(digits: string): nat
    requires AllDigits(digits)
  {
    if digits == [] then 0
    else 10 * DecimalValue(digits[..|digits| - 1]) + DigitValue(digits[|digits| - 1])
  }

  /**
   * `parseInt(s)` in base 10: leading whitespace is skipped, one `+` or `-`
   * sign is read, then the longest run of decimal digits; `None` stands for
   * `NaN`, the result when that run is empty.
   */
  function ParseInt(s: string): Option<int> {
    var t := s[StartOfContent(s)..];
    var negative := |t| > 0 && t[0] == '-';
    var unsigned := if |t| > 0 && (t[0] == '-' || t[0] == '+') then t[1..] else t;
    var n := DigitRun(unsigned);
    if n == 0 then None
    else
      var v: int := DecimalValue(unsigned[..n]);
      Some(if negative then -v else v)
  }

  /** The decimal rendering of a natural number, without leading zeros. */
  function Decimal(n: nat): (r: string)
    ensures |r| > 0 && AllDigits(r)
  {
    if n < 10 then [DigitChar(n)] else Decimal(n / 10) + [DigitChar(n % 10)]
  }

  /** How an integer is typed into a number field: an optional `-`, then its digits. */
  function FormatInt(i: int): (r: string)
    ensures |r| > 0
  {
    if i < 0 then "-" + Decimal(-i) else Decimal(i)
  }

  lemma {:induction false} DecimalValueOfDecimal(n: nat)
    ensures DecimalValue(Decimal(n)) == n
  {
    if n >= 10 {
      var r := Decimal(n);
      assert r[..|r| - 1] == Decimal(n / 10);
      DecimalValueOfDecimal(n / 10);
    }
  }

  /** `parseInt` reads back every integer typed in decimal. */
  lemma ParseIntFormatInt(i: int)
    ensures ParseInt(FormatInt(i)) == Some(i)
  {
    var d := Decimal(if i < 0 then -i else i);
    DecimalValueOfDecimal(if i < 0 then -i else i);
    assert DigitRun(d) == |d|;
    assert d[..|d|] == d;
    if i < 0 {
      var s := "-" + d;
      assert !IsWhitespace(s[0]);
      assert s[0..][1..] == d;
    } else {
      assert !IsWhitespace(d[0]);
      assert d[0..] == d;
    }
  }

  /** A blank field parses to `NaN`. */
  lemma ParseIntBlank(s: string)
    requires AllWhitespace(s)
    ensures ParseInt(s) == None
  {
  }
}
