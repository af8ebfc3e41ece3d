/** The JavaScript string operations the pipeline relies on: the regular
    expression class `\s` and `String.prototype.trim`, `includes`,
    `Array.prototype.join`, number-to-decimal rendering in template
    literals, and `parseInt(_, 10)`. */
module Strings {

  /** ECMAScript's WhiteSpace and LineTerminator code points: exactly the
      characters matched by `\s` and removed by `trim` (and skipped by
      `parseInt` before the number). */
  predicate IsWhitespace(c: char) {
    || c == '\t' || c == '\n' || c == '\U{000B}' || c == '\U{000C}' || c == '\r'
    || c == ' ' || c == '\U{00A0}' || c == '\U{1680}'
    || ('\U{2000}' <= c <= '\U{200A}')
    || c == '\U{2028}' || c == '\U{2029}' || c == '\U{202F}' || c == '\U{205F}'
    || c == '\U{3000}' || c == '\U{FEFF}'
  }

  /** `s` with its leading whitespace run removed. */
  function TrimStart(s: string): (r: string)
    ensures |r| <= |s| && r == s[|s| - |r|..]
    ensures r == [] || !IsWhitespace(r[0])
  {
    if s != [] && IsWhitespace(s[0]) then TrimStart(s[1..]) else s
  }

  /** `s` with its trailing whitespace run removed. */
  function TrimEnd(s: string): (r: string)
    ensures |r| <= |s| && r == s[..|r|]
    ensures r == [] || !IsWhitespace(r[|r| - 1])
  {
    if s != [] && IsWhitespace(s[|s| - 1]) then TrimEnd(s[..|s| - 1]) else s
  }

  /** `String.prototype.trim`. */
  function Trim(s: string): (r: string)
    ensures r == [] || (!IsWhitespace(r[0]) && !IsWhitespace(r[|r| - 1]))
  {
    TrimEnd(TrimStart(s))
  }

  /** Leading whitespace of a concatenation: that of the first part, running
      on into the second only when the first part is all whitespace. */
  lemma {:induction false} TrimStartConcat(a: string, b: string)
    ensures TrimStart(a + b) == if TrimStart(a) == [] then TrimStart(b) else TrimStart(a) + b
    decreases |a|
  {
    if a == [] {
      assert a + b == b;
    } else {
      assert (a + b)[0] == a[0];
      if IsWhitespace(a[0]) {
        assert (a + b)[1..] == a[1..] + b;
        TrimStartConcat(a[1..], b);
      }
    }
  }

  /** A string without leading or trailing whitespace is its own trim. */
  lemma {:induction false} TrimOfTrimmed(s: string)
    requires s == [] || (!IsWhitespace(s[0]) && !IsWhitespace(s[|s| - 1]))
    ensures Trim(s) == s
  {
  }

  /** A text made only of whitespace trims to nothing. */
  lemma {:induction false} AllWhitespaceTrimsAway(s: string)
    requires forall i :: 0 <= i < |s| ==> IsWhitespace(s[i])
    ensures TrimStart(s) == [] && Trim(s) == []
    decreases |s|
  {
    if s != [] {
      assert forall i :: 0 <= i < |s[1..]| ==> s[1..][i] == s[i + 1];
      AllWhitespaceTrimsAway(s[1..]);
    }
  }

  predicate IsPrefix(p: string, s: string) {
    |p| <= |s| && s[..|p|] == p
  }

  predicate IsSuffix(p: string, s: string) {
    |p| <= |s| && s[|s| - |p|..] == p
  }

  /** `s.includes(sub)`. */
  predicate Contains(s: string, sub: string)
    decreases |s|
  {
    IsPrefix(sub, s) || (s != [] && Contains(s[1..], sub))
  }

  /** Whatever a suffix contains, the whole string contains. */
  lemma {:induction false} ContainsInSuffix(p: string, s: string, sub: string)
    requires Contains(s, sub)
    ensures Contains(p + s, sub)
    decreases |p|
  {
    if p == [] {
      assert p + s == s;
    } else {
      ContainsInSuffix(p[1..], s, sub);
      assert (p + s)[1..] == p[1..] + s;
    }
  }

  /** Whatever a prefix contains, the whole string contains. */
  lemma {:induction false} ContainsInPrefix(s: string, rest: string, sub: string)
    requires Contains(s, sub)
    ensures Contains(s + rest, sub)
    decreases |s|
  {
    if IsPrefix(sub, s) {
      assert (s + rest)[..|sub|] == s[..|sub|];
    } else {
      ContainsInPrefix(s[1..], rest, sub);
      assert (s + rest)[1..] == s[1..] + rest;
    }
  }

  /** A string contains every infix of itself: `a + sub + b` includes `sub`. */
  lemma {:induction false} ContainsInfix(a: string, sub: string, b: string)
    ensures Contains(a + sub + b, sub)
  {
    assert IsPrefix(sub, sub + b);
    ContainsInSuffix(a, sub + b, sub);
    assert a + sub + b == a + (sub + b);
  }

  /** Whatever a slice of a string contains, the string contains. */
  lemma {:induction false} ContainsFromSlice(s: string, i: nat, j: nat, sub: string)
    requires i <= j <= |s|
    requires Contains(s[i..j], sub)
    ensures Contains(s, sub)
  {
    ContainsInPrefix(s[i..j], s[j..], sub);
    assert s[i..j] + s[j..] == s[i..];
    ContainsInSuffix(s[..i], s[i..], sub);
    assert s[..i] + s[i..] == s;
  }

  /** Trimming cannot create an occurrence of `sub`. */
  lemma {:induction false} TrimKeepsAbsent(s: string, sub: string)
    requires !Contains(s, sub)
    ensures !Contains(Trim(s), sub)
  {
    var i, j := TrimIsSlice(s);
    if Contains(s[i..j], sub) {
      ContainsFromSlice(s, i, j, sub);
    }
  }

  /** The trimmed text is a contiguous piece of the original. */
  lemma {:induction false} TrimIsSlice(s: string) returns (i: nat, j: nat)
    ensures i <= j <= |s| && Trim(s) == s[i..j]
  {
    var t := TrimStart(s);
    var e := TrimEnd(t);
    i := |s| - |t|;
    j := i + |e|;
    assert t == s[i..];
    assert e == t[..|e|];
    assert s[i..j] == t[..|e|];
  }

  /** `parts.join(sep)`. */
  function Join(parts: seq<string>, sep: string): string
  {
    if |parts| == 0 then ""
    else if |parts| == 1 then parts[0]
    else parts[0] + sep + Join(parts[1..], sep)
  }

  lemma {:induction false} JoinTwo(a: string, b: string, sep: string)
    ensures Join([a, b], sep) == a + sep + b
  {
    assert [a, b][1..] == [b];
  }

  predicate IsDigit(c: char) {
    '0' <= c <= '9'
  }

  predicate AllDigits(s: string) {
    forall i :: 0 <= i < |s| ==> IsDigit(s[i])
  }

  function DigitChar(d: nat): (c: char)
    requires d < 10
    ensures IsDigit(c)
  {
    ('0' as int + d) as char
  }

  function DigitValue(c: char): (d: nat)
    requires IsDigit(c)
    ensures d < 10 && DigitChar(d) == c
  {
    c as int - '0' as int
  }

  /** The number a run of decimal digits denotes. */
  function DigitsValue(s: string): nat
    requires AllDigits(s)
  {
    if s == [] then 0 else 10 * DigitsValue(s[..|s| - 1]) + DigitValue(s[|s| - 1])
  }

  /** How a non-negative integer is rendered in a template literal
      (`${n}`): its decimal digits, without leading zeros. */
  function Decimal(n: nat): (r: string)
    ensures r != [] && AllDigits(r)
    ensures r[0] == '0' ==> n == 0
  {
    if n < 10 then [DigitChar(n)] else Decimal(n / 10) + [DigitChar(n % 10)]
  }

  /** Reading the digits back gives the number. */
  lemma {:induction false} DecimalValue(n: nat)
    ensures DigitsValue(Decimal(n)) == n
  {
    if n >= 10 {
      DecimalValue(n / 10);
      var d := Decimal(n);
      assert d[..|d| - 1] == Decimal(n / 10);
    }
  }

  /** The result of `parseInt`: a number, or `NaN` when no digit follows
      the optional sign. */
  datatype ParsedInt = NaN | Num(value: int)

  /** Length of the longest run of decimal digits at the start of `s`. */
  function DigitRun(s: string): (k: nat)
    ensures k <= |s| && AllDigits(s[..k])
    ensures k < |s| ==> !IsDigit(s[k])
  {
    if s != [] && IsDigit(s[0]) then
      var k := 1 + DigitRun(s[1..]);
      assert forall i :: 1 <= i < k ==> s[..k][i] == s[1..][..k - 1][i - 1];
      k
    else 0
  }

  /** `parseInt(s, 10)`: skip leading whitespace, read an optional sign,
      then the longest run of decimal digits. Precision loss above 2^53 is
      not modelled. */
  function ParseInt(s: string): ParsedInt
  {
    var t := TrimStart(s);
    var negative := t != [] && t[0] == '-';
    var u := if t != [] && (t[0] == '-' || t[0] == '+') then t[1..] else t;
    var k := DigitRun(u);
    if k == 0 then NaN
    else if negative then Num(0 - DigitsValue(u[..k]))
    else Num(DigitsValue(u[..k]))
  }

  /** `parseInt` reads back a rendered number, whatever non-digit text
      follows it. */
  lemma {:induction false} ParseIntDecimal(n: nat, rest: string)
    requires rest == [] || !IsDigit(rest[0])
    ensures ParseInt(Decimal(n) + rest) == Num(n)
  {
    var d := Decimal(n);
    var s := d + rest;
    assert s[0] == d[0];
    ParseIntOfDigits(s);
    assert s[..|d|] == d;
    DigitRunUnique(s, |d|);
    DecimalValue(n);
  }

  /** Text that starts with a digit is read as its leading digit run. */
  lemma {:induction false} ParseIntOfDigits(s: string)
    requires s != [] && IsDigit(s[0])
    ensures ParseInt(s) == Num(DigitsValue(s[..DigitRun(s)]))
  {
    assert !IsWhitespace(s[0]);
    assert TrimStart(s) == s;
  }

  /** The digit run is the unique all-digit prefix not followed by a digit. */
  lemma {:induction false} DigitRunUnique(s: string, m: nat)
    requires m <= |s| && AllDigits(s[..m])
    requires m < |s| ==> !IsDigit(s[m])
    ensures DigitRun(s) == m
  {
    if m > 0 {
      assert IsDigit(s[..m][0]);
      assert s[1..][..m - 1] == s[..m][1..];
      DigitRunUnique(s[1..], m - 1);
    }
  }
}
