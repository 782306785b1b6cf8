/**
 * The two JavaScript string built-ins the quiz page relies on:
 * `String.prototype.trim` (the Start button is disabled while the trimmed
 * player name is empty) and the global `parseInt` with no radix (an integer
 * answer is compared after `parseInt`). Both follow the ECMAScript
 * definitions; `NaN` is `None`.
 */
module JsText {
  import opened Wrappers

  /** The characters ECMAScript calls WhiteSpace or LineTerminator. */
  predicate IsWhitespace(c: char) {
    var n := c as int;
    (0x09 <= n <= 0x0D) || n == 0x20 || n == 0xA0 || n == 0x1680
    || (0x2000 <= n <= 0x200A) || n == 0x2028 || n == 0x2029 || n == 0x202F
    || n == 0x205F || n == 0x3000 || n == 0xFEFF
  }

  /** Drops the leading white space. */
  function TrimStart(s: string): (r: string)
    ensures |r| <= |s| && r == s[|s| - |r|..]
    ensures r == [] || !IsWhitespace(r[0])
  {
    if s != [] && IsWhitespace(s[0]) then TrimStart(s[1..]) else s
  }

  /** Drops the trailing white space. */
  function TrimEnd(s: string): (r: string)
    ensures |r| <= |s| && r == s[..|r|]
    ensures r == [] || !IsWhitespace(r[|r| - 1])
  {
    if s != [] && IsWhitespace(s[|s| - 1]) then TrimEnd(s[..|s| - 1]) else s
  }

  /** `s.trim()`. */
  function Trim(s: string): (r: string)
    ensures |r| <= |s|
    ensures r == [] || (!IsWhitespace(r[0]) && !IsWhitespace(r[|r| - 1]))
  {
    TrimEnd(TrimStart(s))
  }

  predicate Blank(s: string) {
    forall i :: 0 <= i < |s| ==> IsWhitespace(s[i])
  }

  lemma {:induction false} TrimStartOfBlank(s: string)
    requires Blank(s)
    ensures TrimStart(s) == []
  {
    if s != [] {
      TrimStartOfBlank(s[1..]);
    }
  }

  /** Everything `TrimStart` drops is white space. */
  lemma {:induction false} TrimStartDropsBlanks(s: string)
    ensures Blank(s[..|s| - |TrimStart(s)|])
  {
    if s != [] && IsWhitespace(s[0]) {
      TrimStartDropsBlanks(s[1..]);
      var k := |s| - |TrimStart(s)|;
      assert s[..k] == [s[0]] + s[1..][..k - 1];
    }
  }

  /** Everything `TrimEnd` drops is white space. */
  lemma {:induction false} TrimEndDropsBlanks(s: string)
    ensures Blank(s[|TrimEnd(s)|..])
  {
    if s != [] && IsWhitespace(s[|s| - 1]) {
      var front := s[..|s| - 1];
      TrimEndDropsBlanks(front);
      var k := |TrimEnd(s)|;
      assert s[k..] == front[k..] + [s[|s| - 1]];
    }
  }

  /** `s.trim()` is the empty (falsy) string exactly when `s` is all white space. */
  lemma TrimEmptyIffBlank(s: string)
    ensures Trim(s) == [] <==> Blank(s)
  {
    if Blank(s) {
      TrimStartOfBlank(s);
    }
    if Trim(s) == [] {
      var t := TrimStart(s);
      TrimEndDropsBlanks(t);
      assert t == [];
      TrimStartDropsBlanks(s);
      assert s[..|s| - |t|] == s;
    }
  }

  /** What is left of `s.trim()` is `s` without white space at either end. */
  lemma TrimIsSlice(s: string)
    ensures exists i, j :: 0 <= i <= j <= |s| && Trim(s) == s[i..j]
  {
    var t := TrimStart(s);
    var u := TrimEnd(t);
    var i := |s| - |t|;
    assert t == s[i..];
    assert u == t[..|u|];
    assert u == s[i..i + |u|];
  }

  // ---- parseInt ----------------------------------------------------------

  /** Value of `c` as a digit of base 16 (also used for base 10), or -1. */
  function DigitValue(c: char): (v: int)
    ensures -1 <= v < 16
  {
    if '0' <= c <= '9' then c as int - '0' as int
    else if 'a' <= c <= 'f' then c as int - 'a' as int + 10
    else if 'A' <= c <= 'F' then c as int - 'A' as int + 10
    else -1
  }

  predicate IsDigit(c: char, radix: nat) {
    0 <= DigitValue(c) < radix
  }

  predicate AllDigits(s: string, radix: nat) {
    forall i :: 0 <= i < |s| ==> IsDigit(s[i], radix)
  }

  /** The longest prefix of `s` made of digits of `radix`. */
  function LeadingDigits(s: string, radix: nat): (r: string)
    ensures |r| <= |s| && r == s[..|r|] && AllDigits(r, radix)
    ensures |r| < |s| ==> !IsDigit(s[|r|], radix)
  {
    if s != [] && IsDigit(s[0], radix) then [s[0]] + LeadingDigits(s[1..], radix) else []
  }

  /** The number a string of digits denotes, most significant digit first. */
  function DigitsValue(ds: string, radix: nat): (v: nat)
    requires AllDigits(ds, radix)
  {
    if ds == [] then 0
    else DigitsValue(ds[..|ds| - 1], radix) * radix + DigitValue(ds[|ds| - 1])
  }

  /**
   * `parseInt(s)`: skip leading white space, take an optional sign, read a
   * base-16 number after `0x`/`0X` and a base-10 number otherwise, and stop at
   * the first character that is not a digit; no digit at all gives `NaN`.
   */
  function ParseInt(s: string): (r: Option<int>)
    ensures r.Some? ==> TrimStart(s) != []
    ensures r.Some? && r.value < 0 ==> TrimStart(s)[0] == '-'
    ensures r.Some? && r.value > 0 ==> TrimStart(s)[0] != '-'
  {
    var t := TrimStart(s);
    var negative := t != [] && t[0] == '-';
    var unsigned := if t != [] && (t[0] == '-' || t[0] == '+') then t[1..] else t;
    var magnitude := ParseMagnitude(unsigned);
    assert magnitude.Some? ==> t != [] && magnitude.value >= 0;
    WithSign(negative, magnitude)
  }

  function WithSign(negative: bool, magnitude: Option<int>): Option<int> {
    if magnitude.None? then None
    else if negative then Some(-magnitude.value)
    else magnitude
  }

  /** The unsigned part of `parseInt`: the `0x` prefix, then the leading digits. */
  function ParseMagnitude(u: string): (r: Option<int>)
    ensures r.Some? ==> u != [] && r.value >= 0
  {
    if |u| >= 2 && u[0] == '0' && (u[1] == 'x' || u[1] == 'X') then
      var ds := LeadingDigits(u[2..], 16);
      if ds == [] then None else Some(DigitsValue(ds, 16))
    else
      var ds := LeadingDigits(u, 10);
      if ds == [] then None else Some(DigitsValue(ds, 10))
  }

  /** Decimal digits of a natural number, as `String(k)` writes them. */
  function NatToString(k: nat): (r: string)
    ensures r != [] && AllDigits(r, 10)
    ensures r[0] == '0' ==> k == 0 && |r| == 1
  {
    var last := ['0' + (k % 10) as char];
    if k < 10 then last else NatToString(k / 10) + last
  }

  /** `String(n)` for an integer `n`. */
  function IntToString(n: int): string {
    if n < 0 then "-" + NatToString(-n) else NatToString(n)
  }

  lemma {:induction false} NatToStringValue(k: nat)
    ensures DigitsValue(NatToString(k), 10) == k
  {
    var r := NatToString(k);
    if k >= 10 {
      NatToStringValue(k / 10);
      assert r[..|r| - 1] == NatToString(k / 10);
    }
  }

  lemma {:induction false} LeadingDigitsOfDigits(ds: string, tail: string, radix: nat)
    requires AllDigits(ds, radix)
    requires tail == [] || !IsDigit(tail[0], radix)
    ensures LeadingDigits(ds + tail, radix) == ds
  {
    if ds != [] {
      assert (ds + tail)[1..] == ds[1..] + tail;
      LeadingDigitsOfDigits(ds[1..], tail, radix);
    } else if tail != [] {
      assert (ds + tail)[0] == tail[0];
    }
  }

  lemma ParseMagnitudeOfNatToString(k: nat, tail: string)
    requires tail == [] || !IsDigit(tail[0], 10)
    requires k == 0 && tail != [] ==> tail[0] != 'x' && tail[0] != 'X'
    ensures ParseMagnitude(NatToString(k) + tail) == Some(k)
  {
    var digits := NatToString(k);
    var u := digits + tail;
    NatToStringValue(k);
    LeadingDigitsOfDigits(digits, tail, 10);
    assert u[0] == digits[0];
    if |u| >= 2 && u[0] == '0' {
      assert |digits| == 1 && u[1] == tail[0];
    }
  }

  /**
   * `parseInt` reads back what `String` writes, and ignores whatever follows
   * the number once a character that cannot continue it is reached (so
   * `parseInt("40.7")` is 40). The one exception to the second part is
   * `"0x…"`, which `parseInt` reads as hexadecimal.
   */
  lemma ParseIntOfIntToString(n: int, tail: string)
    requires tail == [] || !IsDigit(tail[0], 10)
    requires n == 0 && tail != [] ==> tail[0] != 'x' && tail[0] != 'X'
    ensures ParseInt(IntToString(n) + tail) == Some(n)
  {
    if n < 0 {
      ParseIntOfNegativeString(n, tail);
    } else {
      assert IntToString(n) == NatToString(n);
      ParseIntOfNatToString(n, tail);
    }
  }

  /** An answer typed exactly as `String` writes it is read back unchanged. */
  lemma ParseIntOfTypedAnswer(n: int)
    ensures IntToString(n) != [] && ParseInt(IntToString(n)) == Some(n)
  {
    ParseIntOfIntToString(n, []);
    assert IntToString(n) + [] == IntToString(n);
  }

  lemma ParseIntOfNegativeString(n: int, tail: string)
    requires n < 0
    requires tail == [] || !IsDigit(tail[0], 10)
    ensures ParseInt(IntToString(n) + tail) == Some(n)
  {
    var k: nat := -n;
    assert IntToString(n) == "-" + NatToString(k);
    assert IntToString(n) + tail == "-" + (NatToString(k) + tail);
    ParseIntOfNegative(k, tail);
  }

  lemma TrimStartOfNonBlank(s: string)
    requires s != [] && (s[0] == '-' || IsDigit(s[0], 10))
    ensures TrimStart(s) == s
  {
    DigitsAreNotWhitespace(s[0]);
  }

  /** With nothing to trim and no sign, `parseInt` is its unsigned part. */
  lemma ParseIntUnsigned(s: string)
    requires s != [] && TrimStart(s) == s && s[0] != '-' && s[0] != '+'
    ensures ParseInt(s) == ParseMagnitude(s)
  {
  }

  /** With nothing to trim and a minus sign, `parseInt` negates its unsigned part. */
  lemma ParseIntNegative(s: string, m: int)
    requires s != [] && TrimStart(s) == s && s[0] == '-' && ParseMagnitude(s[1..]) == Some(m)
    ensures ParseInt(s) == Some(-m)
  {
    assert WithSign(true, ParseMagnitude(s[1..])) == Some(-m);
  }

  lemma ParseIntOfNatToString(k: nat, tail: string)
    requires tail == [] || !IsDigit(tail[0], 10)
    requires k == 0 && tail != [] ==> tail[0] != 'x' && tail[0] != 'X'
    ensures ParseInt(NatToString(k) + tail) == Some(k)
  {
    var s := NatToString(k) + tail;
    assert s[0] == NatToString(k)[0];
    assert IsDigit(s[0], 10);
    TrimStartOfNonBlank(s);
    ParseIntUnsigned(s);
    ParseMagnitudeOfNatToString(k, tail);
  }

  lemma ParseIntOfNegative(k: nat, tail: string)
    requires k > 0
    requires tail == [] || !IsDigit(tail[0], 10)
    ensures ParseInt("-" + (NatToString(k) + tail)) == Some(-(k as int))
  {
    var s := "-" + (NatToString(k) + tail);
    assert s[0] == '-';
    TrimStartOfNonBlank(s);
    assert s[1..] == NatToString(k) + tail;
    ParseMagnitudeOfNatToString(k, tail);
    ParseIntNegative(s, k);
  }

  lemma DigitsAreNotWhitespace(c: char)
    requires c == '-' || IsDigit(c, 10)
    ensures !IsWhitespace(c)
  {
  }

  /** An all-blank buffer (the empty string included) parses to `NaN`. */
  lemma ParseIntOfBlank(s: string)
    requires Blank(s)
    ensures ParseInt(s) == None
  {
    TrimStartOfBlank(s);
  }

  /** Text whose first non-blank character is neither a sign nor a digit parses to `NaN`. */
  lemma ParseIntOfNonNumeric(s: string)
    requires TrimStart(s) != []
    requires TrimStart(s)[0] != '-' && TrimStart(s)[0] != '+' && !IsDigit(TrimStart(s)[0], 10)
    ensures ParseInt(s) == None
  {
  }

  lemma ParseIntOfLetters()
    ensures ParseInt("abc") == None
  {
    var s := "abc";
    assert s[0] == 'a';
    assert !IsWhitespace(s[0]);
    assert TrimStart(s) == s;
    ParseIntOfNonNumeric(s);
  }
}
