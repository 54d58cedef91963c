/**
 * The string operations the storefront uses, on ASCII text: case mapping
 * (JavaScript `toLowerCase`/`toUpperCase`, SQL `LOWER`), prefix and substring
 * tests (`startsWith`, `includes`, SQL `LIKE 'q%'` and `LIKE '%q%'`), `trim`,
 * `indexOf`, single-character `replace`, and decimal conversion in both
 * directions (`String(n)`, `parseInt`, `Number`).
 */
module Text {
  import opened Common

  predicate IsUpper(c: char) { 'A' <= c <= 'Z' }
  predicate IsLower(c: char) { 'a' <= c <= 'z' }
  predicate IsDigit(c: char) { '0' <= c <= '9' }

  /** The characters `String.prototype.trim` removes, restricted to ASCII. */
  predicate IsSpace(c: char) {
    c == ' ' || c == '\t' || c == '\n' || c == '\r' || c == '\U{000B}' || c == '\U{000C}'
  }

  function LowerChar(c: char): char {
    if IsUpper(c) then (c as int + 32) as char else c
  }

  function UpperChar(c: char): char {
    if IsLower(c) then (c as int - 32) as char else c
  }

  function Lower(s: string): (r: string)
    ensures |r| == |s|
    ensures forall i :: 0 <= i < |s| ==> r[i] == LowerChar(s[i])
  {
    if s == [] then [] else [LowerChar(s[0])] + Lower(s[1..])
  }

  function Upper(s: string): (r: string)
    ensures |r| == |s|
    ensures forall i :: 0 <= i < |s| ==> r[i] == UpperChar(s[i])
  {
    if s == [] then [] else [UpperChar(s[0])] + Upper(s[1..])
  }

  /** Case-insensitive comparison forgets an upper-casing: lower(upper(s)) == lower(s). */
  lemma LowerOfUpper(s: string)
    ensures Lower(Upper(s)) == Lower(s)
  {
    forall i | 0 <= i < |s|
      ensures Lower(Upper(s))[i] == Lower(s)[i]
    {
      var c := s[i];
      if IsLower(c) {
        assert UpperChar(c) as int == c as int - 32;
      }
    }
  }

  /** Lower-casing twice is lower-casing once. */
  lemma LowerIdempotent(s: string)
    ensures Lower(Lower(s)) == Lower(s)
  {
    forall i | 0 <= i < |s|
      ensures Lower(Lower(s))[i] == Lower(s)[i]
    {
      var c := s[i];
      if IsUpper(c) {
        assert LowerChar(c) as int == c as int + 32;
      }
    }
  }

  /** `s.startsWith(p)`; also SQL `s LIKE 'p%'` for a pattern without wildcards. */
  predicate StartsWith(s: string, p: string) {
    |p| <= |s| && s[..|p|] == p
  }

  /** `s.includes(p)`; also SQL `s LIKE '%p%'` for a pattern without wildcards. */
  predicate Contains(s: string, p: string)
    decreases |s|
  {
    StartsWith(s, p) || (s != [] && Contains(s[1..], p))
  }

  /** A substring occurrence at an explicit position is what Contains detects. */
  lemma {:induction false} ContainsAt(s: string, p: string, k: nat)
    requires k + |p| <= |s| && s[k..k + |p|] == p
    ensures Contains(s, p)
    decreases k
  {
    if k == 0 {
      assert s[..|p|] == s[k..k + |p|];
    } else {
      assert s[1..][k - 1..k - 1 + |p|] == s[k..k + |p|];
      ContainsAt(s[1..], p, k - 1);
    }
  }

  /** Every string contains its own prefixes, in particular the empty string. */
  lemma PrefixIsContained(s: string, p: string)
    requires StartsWith(s, p)
    ensures Contains(s, p)
  {
  }

  /** A string that contains p is at least as long as p. */
  lemma {:induction false} ContainsLength(s: string, p: string)
    requires Contains(s, p)
    ensures |p| <= |s|
    decreases |s|
  {
    if !StartsWith(s, p) {
      ContainsLength(s[1..], p);
    }
  }

  /** `s.indexOf(c)`: the first position holding c, or -1. */
  function IndexOf(s: string, c: char): (r: int)
    ensures -1 <= r < |s|
    ensures r >= 0 ==> s[r] == c
    ensures r >= 0 ==> forall j :: 0 <= j < r ==> s[j] != c
    ensures r == -1 ==> forall j :: 0 <= j < |s| ==> s[j] != c
  {
    if s == [] then -1
    else if s[0] == c then 0
    else
      var k := IndexOf(s[1..], c);
      if k == -1 then -1 else k + 1
  }

  /** `s.replace("x", "y")` with a one-character string: only the FIRST occurrence changes. */
  function ReplaceFirst(s: string, from: char, to: char): (r: string)
    ensures |r| == |s|
    ensures IndexOf(s, from) == -1 ==> r == s
    ensures IndexOf(s, from) >= 0 ==>
      var k := IndexOf(s, from);
      r[k] == to && forall j :: 0 <= j < |s| && j != k ==> r[j] == s[j]
  {
    var k := IndexOf(s, from);
    if k == -1 then s else s[..k] + [to] + s[k + 1..]
  }

  /** `s.replace(/x/g, "y")` for one character: every occurrence changes. */
  function ReplaceAll(s: string, from: char, to: char): (r: string)
    ensures |r| == |s|
    ensures forall i :: 0 <= i < |s| ==> r[i] == (if s[i] == from then to else s[i])
  {
    if s == [] then [] else [if s[0] == from then to else s[0]] + ReplaceAll(s[1..], from, to)
  }

  /** Leading whitespace removed: the result is a suffix of s. */
  function TrimStart(s: string): (r: string)
    ensures |r| <= |s| && r == s[|s| - |r|..]
    ensures r != [] ==> !IsSpace(r[0])
    ensures forall i :: 0 <= i < |s| - |r| ==> IsSpace(s[i])
  {
    if s != [] && IsSpace(s[0]) then TrimStart(s[1..]) else s
  }

  /** Trailing whitespace removed: the result is a prefix of s. */
  function TrimEnd(s: string): (r: string)
    ensures |r| <= |s| && r == s[..|r|]
    ensures r != [] ==> !IsSpace(r[|r| - 1])
    ensures forall i :: |r| <= i < |s| ==> IsSpace(s[i])
  {
    if s != [] && IsSpace(s[|s| - 1]) then TrimEnd(s[..|s| - 1]) else s
  }

  /** `s.trim()`. */
  function Trim(s: string): (r: string) {
    TrimEnd(TrimStart(s))
  }

  /** The trimmed text is a contiguous piece of the input with no whitespace at either end. */
  lemma TrimSlice(s: string) returns (lo: nat, hi: nat)
    ensures lo <= hi <= |s| && Trim(s) == s[lo..hi]
    ensures Trim(s) != [] ==> !IsSpace(Trim(s)[0]) && !IsSpace(Trim(s)[|Trim(s)| - 1])
    ensures forall i :: 0 <= i < lo ==> IsSpace(s[i])
    ensures forall i :: hi <= i < |s| ==> IsSpace(s[i])
  {
    var t := TrimStart(s);
    var e := TrimEnd(t);
    lo := |s| - |t|;
    hi := lo + |e|;
    SliceOfSuffix(s, lo, |e|);
    forall i | hi <= i < |s| ensures IsSpace(s[i]) {
      assert s[i] == t[i - lo];
    }
    if e != [] {
      assert e[0] == t[0];
    }
  }

  lemma SliceOfSuffix(s: string, lo: nat, n: nat)
    requires lo + n <= |s|
    ensures s[lo..][..n] == s[lo..lo + n]
  {
  }

  /** Trimming empties exactly the all-whitespace strings. */
  lemma TrimEmpty(s: string)
    ensures Trim(s) == [] <==> forall i :: 0 <= i < |s| ==> IsSpace(s[i])
  {
    var lo, hi := TrimSlice(s);
    if Trim(s) != [] {
      assert Trim(s)[0] == s[lo];
    }
  }

  predicate AllDigits(s: string) {
    forall i :: 0 <= i < |s| ==> IsDigit(s[i])
  }

  function DigitValue(c: char): nat
    requires IsDigit(c)
  {
    c as int - '0' as int
  }

  function DigitChar(d: nat): (c: char)
    requires d < 10
    ensures IsDigit(c) && DigitValue(c) == d
  {
    ('0' as int + d) as char
  }

  /** The value of a run of decimal digits, most significant first. */
  function DigitsValue(s: string): nat
    requires AllDigits(s)
  {
    if s == [] then 0 else DigitsValue(s[..|s| - 1]) * 10 + DigitValue(s[|s| - 1])
  }

  /** `String(n)` for a non-negative integer: its decimal digits, no leading zero. */
  function Decimal(n: nat): (r: string)
    ensures r != [] && AllDigits(r)
    ensures |r| > 1 ==> r[0] != '0'
  {
    if n < 10 then [DigitChar(n)] else Decimal(n / 10) + [DigitChar(n % 10)]
  }

  /** `String(n)` for any integer: a minus sign before the digits of a negative number. */
  function IntText(n: int): (r: string)
    ensures r != []
    ensures n >= 0 ==> r == Decimal(n)
    ensures n < 0 ==> r == "-" + Decimal(-n)
  {
    if n < 0 then "-" + Decimal(-n) else Decimal(n)
  }

  /** Reading back the decimal form of n gives n. */
  lemma {:induction false} DecimalValue(n: nat)
    ensures DigitsValue(Decimal(n)) == n
  {
    if n >= 10 {
      var d := Decimal(n);
      assert d[..|d| - 1] == Decimal(n / 10);
      DecimalValue(n / 10);
    }
  }

  /** The longest prefix of s made of decimal digits. */
  function DigitPrefix(s: string): (r: string)
    ensures AllDigits(r) && StartsWith(s, r)
    ensures |r| < |s| ==> !IsDigit(s[|r|])
  {
    if s != [] && IsDigit(s[0]) then [s[0]] + DigitPrefix(s[1..]) else []
  }

  /**
   * `Number.parseInt(s)` with radix 10: skip leading whitespace, read an
   * optional sign and the longest run of digits after it; None is NaN.
   */
  function ParseInt(s: string): (r: Option<int>)
  {
    var t := TrimStart(s);
    var negative := t != [] && t[0] == '-';
    var body := if t != [] && (t[0] == '-' || t[0] == '+') then t[1..] else t;
    var digits := DigitPrefix(body);
    if digits == [] then None
    else if negative then Some(-(DigitsValue(digits) as int))
    else Some(DigitsValue(digits))
  }

  /** `Number(s)` on integer text: blank is 0, a trimmed signed digit run is its value, anything else NaN. */
  function NumberOf(s: string): (r: Option<int>)
  {
    var t := Trim(s);
    var negative := t != [] && t[0] == '-';
    var body := if t != [] && (t[0] == '-' || t[0] == '+') then t[1..] else t;
    if t == [] then Some(0)
    else if body == [] || !AllDigits(body) then None
    else if negative then Some(-(DigitsValue(body) as int))
    else Some(DigitsValue(body))
  }

  /** `Number.parseInt(text) || fallback`: NaN and 0 both give the fallback. */
  function ParseIntOr(text: string, fallback: int): (n: int)
    ensures ParseInt(text).None? ==> n == fallback
    ensures ParseInt(text) == Some(0) ==> n == fallback
    ensures ParseInt(text).Some? && ParseInt(text).value != 0 ==> n == ParseInt(text).value
  {
    var p := ParseInt(text);
    if p.None? || p.value == 0 then fallback else p.value
  }

  /** A digit string is its own digit prefix. */
  lemma {:induction false} DigitPrefixOfDigits(s: string)
    requires AllDigits(s)
    ensures DigitPrefix(s) == s
  {
    if s != [] {
      DigitPrefixOfDigits(s[1..]);
    }
  }

  /** `parseInt(String(n)) == n`. */
  lemma ParseIntDecimal(n: nat)
    ensures ParseInt(Decimal(n)) == Some(n)
  {
    var d := Decimal(n);
    DigitsUntrimmed(d);
    DigitPrefixOfDigits(d);
    DecimalValue(n);
  }

  /** `Number(String(n)) == n`. */
  lemma NumberOfDecimal(n: nat)
    ensures NumberOf(Decimal(n)) == Some(n)
  {
    var d := Decimal(n);
    DigitsUntrimmed(d);
    assert d[0] != '-' && d[0] != '+';
    DecimalValue(n);
  }

  /** A non-empty run of digits has no blank to trim and no sign. */
  lemma DigitsUntrimmed(d: string)
    requires d != [] && AllDigits(d)
    ensures TrimStart(d) == d && TrimEnd(d) == d && Trim(d) == d
  {
    assert !IsSpace(d[0]) by {
      assert IsDigit(d[0]);
    }
    assert !IsSpace(d[|d| - 1]) by {
      assert IsDigit(d[|d| - 1]);
    }
    assert TrimStart(d) == d;
    assert TrimEnd(d) == d;
  }
}
