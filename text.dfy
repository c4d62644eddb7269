/** The JavaScript string primitives the search pipeline relies on:
    `trim`, `toLowerCase`, `indexOf`/`includes`, `replace` with a string pattern,
    and the decimal rendering of a non-negative integer inside a template literal.
    Strings are sequences of Unicode scalar values. */
module JsText {

  /** The characters `String.prototype.trim` removes: the WhiteSpace and
      LineTerminator code points of ECMA-262 (sections 12.2 and 12.3), where the
      space separators are the Unicode category Zs. */
  predicate IsJsSpace(c: char) {
    || c == '\t' || c == '\n' || c == '\U{000B}' || c == '\U{000C}' || c == '\r'
    || c == ' ' || c == '\U{00A0}' || c == '\U{1680}' || ('\U{2000}' <= c <= '\U{200A}')
    || c == '\U{2028}' || c == '\U{2029}' || c == '\U{202F}' || c == '\U{205F}'
    || c == '\U{3000}' || c == '\U{FEFF}'
  }

  predicate AllSpace(s: string) {
    forall k :: 0 <= k < |s| ==> IsJsSpace(s[k])
  }

  /** Drops the leading white space. */
  function TrimStart(s: string): string {
    if s != [] && IsJsSpace(s[0]) then TrimStart(s[1..]) else s
  }

  /** What `TrimStart` leaves is a suffix of `s` that does not start with white
      space, and everything it dropped was white space. */
  lemma {:induction false} TrimStartSpec(s: string)
    ensures var r := TrimStart(s);
      && |r| <= |s| && r == s[|s| - |r|..]
      && AllSpace(s[..|s| - |r|])
      && (r != [] ==> !IsJsSpace(r[0]))
  {
    if s != [] && IsJsSpace(s[0]) {
      TrimStartSpec(s[1..]);
      var r := TrimStart(s);
      assert s[..|s| - |r|] == [s[0]] + s[1..][..|s| - 1 - |r|];
    }
  }

  /** Drops the trailing white space. */
  function TrimEnd(s: string): string {
    if s != [] && IsJsSpace(s[|s| - 1]) then TrimEnd(s[..|s| - 1]) else s
  }

  /** What `TrimEnd` leaves is a prefix of `s` that does not end with white
      space, and everything it dropped was white space. */
  lemma {:induction false} TrimEndSpec(s: string)
    ensures var r := TrimEnd(s);
      && |r| <= |s| && r == s[..|r|]
      && AllSpace(s[|r|..])
      && (r != [] ==> !IsJsSpace(r[|r| - 1]))
  {
    if s != [] && IsJsSpace(s[|s| - 1]) {
      TrimEndSpec(s[..|s| - 1]);
      var r := TrimEnd(s);
      assert s[|r|..] == s[..|s| - 1][|r|..] + [s[|s| - 1]];
    }
  }

  /** `String.prototype.trim`: it only ever removes characters. */
  function Trim(s: string): (r: string)
    ensures |r| <= |s|
  {
    TrimStartSpec(s);
    TrimEndSpec(TrimStart(s));
    TrimEnd(TrimStart(s))
  }

  /** What `trim` leaves neither starts nor ends with white space, and it is
      empty exactly when `s` is all white space. */
  lemma TrimSpec(s: string)
    ensures Trim(s) != [] ==> !IsJsSpace(Trim(s)[0]) && !IsJsSpace(Trim(s)[|Trim(s)| - 1])
    ensures Trim(s) == [] <==> AllSpace(s)
  {
    var t := TrimStart(s);
    TrimStartSpec(s);
    TrimEndSpec(t);
    assert s == s[..|s| - |t|] + t;
    if Trim(s) != [] {
      assert Trim(s)[0] == t[0];
    }
  }

  /** What `Trim` keeps is one contiguous piece of `s`, with only white space
      around it. */
  lemma TrimIsInfix(s: string)
    ensures exists i :: 0 <= i && i + |Trim(s)| <= |s| && Trim(s) == s[i..i + |Trim(s)|]
                        && AllSpace(s[..i]) && AllSpace(s[i + |Trim(s)|..])
  {
    var t := TrimStart(s);
    var r := TrimEnd(t);
    TrimStartSpec(s);
    TrimEndSpec(t);
    var i := |s| - |t|;
    assert s[i..i + |r|] == t[..|r|];
    assert s[i + |r|..] == t[|r|..];
  }

  predicate IsAsciiUpper(c: char) {
    'A' <= c <= 'Z'
  }

  /** `toLowerCase` on one character, restricted to ASCII letters. */
  function LowerChar(c: char): (r: char)
    ensures !IsAsciiUpper(r)
    ensures IsAsciiUpper(c) ==> r as int == c as int + 32
    ensures !IsAsciiUpper(c) ==> r == c
  {
    if IsAsciiUpper(c) then (c as int + 32) as char else c
  }

  /** `String.prototype.toLowerCase`, restricted to ASCII letters. */
  function ToLower(s: string): (r: string)
    ensures |r| == |s|
  {
    if s == [] then [] else [LowerChar(s[0])] + ToLower(s[1..])
  }

  /** Lower-casing works character by character. */
  lemma {:induction false} ToLowerAt(s: string, k: nat)
    requires k < |s|
    ensures ToLower(s)[k] == LowerChar(s[k])
  {
    if k > 0 {
      ToLowerAt(s[1..], k - 1);
    }
  }

  /** Lower-casing twice is lower-casing once. */
  lemma {:induction false} ToLowerIdempotent(s: string)
    ensures ToLower(ToLower(s)) == ToLower(s)
  {
    if s != [] {
      ToLowerIdempotent(s[1..]);
    }
  }

  /** Lower-casing leaves white space where it is and creates none, so a query
      is blank before lower-casing exactly when it is blank after. */
  lemma BlankUnderLower(s: string)
    ensures Trim(ToLower(s)) == [] <==> Trim(s) == []
  {
    var l := ToLower(s);
    TrimSpec(s);
    TrimSpec(l);
    forall k | 0 <= k < |s|
      ensures IsJsSpace(l[k]) <==> IsJsSpace(s[k])
    {
      ToLowerAt(s, k);
    }
  }

  /** `term` occurs in `s` starting at index `k`. */
  predicate OccursAt(s: string, term: string, k: int) {
    0 <= k && k + |term| <= |s| && s[k..k + |term|] == term
  }

  /** An occurrence one position into `s` is an occurrence in its tail. */
  lemma OccursInTail(s: string, term: string)
    requires s != []
    ensures forall j :: 1 <= j ==> (OccursAt(s, term, j) <==> OccursAt(s[1..], term, j - 1))
  {
    forall j | 1 <= j
      ensures OccursAt(s, term, j) <==> OccursAt(s[1..], term, j - 1)
    {
      if j + |term| <= |s| {
        assert s[1..][j - 1..j - 1 + |term|] == s[j..j + |term|];
      }
    }
  }

  /** `String.prototype.indexOf(term)`: the first index where `term` occurs, or
      -1 when it occurs nowhere. */
  function IndexOf(s: string, term: string): (r: int)
    ensures -1 <= r
    ensures r >= 0 ==> OccursAt(s, term, r)
    ensures forall k :: 0 <= k && (r < 0 || k < r) ==> !OccursAt(s, term, k)
  {
    if term <= s then 0
    else
      assert !OccursAt(s, term, 0) by {
        if |term| <= |s| { assert s[0..|term|] == s[..|term|]; }
      }
      if s == [] then -1
      else
        OccursInTail(s, term);
        var k := IndexOf(s[1..], term);
        if k < 0 then -1 else k + 1
  }

  /** `String.prototype.includes(term)`: `term` occurs somewhere in `s`. */
  predicate Includes(s: string, term: string)
    ensures Includes(s, term) <==> exists k :: OccursAt(s, term, k)
  {
    IndexOf(s, term) >= 0
  }

  /** `String.prototype.replace(pattern, replacement)` with a string pattern
      and a replacement without `$`: only the first occurrence is replaced,
      and the replacement is inserted as it is (a `$` would start one of the
      substitution patterns `$$`, `$&`, `` $` `` or `$'`). */
  function ReplaceFirst(s: string, pattern: string, replacement: string): (r: string)
    requires '$' !in replacement
    ensures !Includes(s, pattern) ==> r == s
    ensures Includes(s, pattern) ==>
      r == s[..IndexOf(s, pattern)] + replacement + s[IndexOf(s, pattern) + |pattern|..]
    ensures pattern <= s ==> r == replacement + s[|pattern|..]
  {
    var i := IndexOf(s, pattern);
    if i < 0 then s else s[..i] + replacement + s[i + |pattern|..]
  }

  /** Replacing a pattern the string starts with replaces that leading
      occurrence. */
  lemma ReplaceLeading(pattern: string, rest: string, replacement: string)
    requires '$' !in replacement
    ensures ReplaceFirst(pattern + rest, pattern, replacement) == replacement + rest
  {
    var s := pattern + rest;
    assert s[..|pattern|] == pattern;
    assert s[|pattern|..] == rest;
  }

  predicate IsDigit(c: char) {
    '0' <= c <= '9'
  }

  predicate AllDigits(s: string) {
    forall k :: 0 <= k < |s| ==> IsDigit(s[k])
  }

  function DigitChar(d: nat): (c: char)
    requires d < 10
    ensures IsDigit(c) && c as int - '0' as int == d
  {
    (d + '0' as int) as char
  }

  /** The decimal numeral a template literal embeds for a non-negative
      integer: digits only, never empty, and without a leading zero. */
  function Show(n: nat): (r: string)
    ensures r != [] && AllDigits(r)
    ensures r[0] == '0' <==> n == 0
    ensures n == 0 ==> r == "0"
  {
    if n < 10 then [DigitChar(n)] else Show(n / 10) + [DigitChar(n % 10)]
  }

  /** The value of a string of decimal digits. */
  function DigitsValue(s: string): nat
    requires AllDigits(s)
  {
    if s == [] then 0 else DigitsValue(s[..|s| - 1]) * 10 + (s[|s| - 1] as int - '0' as int)
  }

  /** Reading the numeral back gives the number. */
  lemma {:induction false} ShowRoundTrip(n: nat)
    ensures DigitsValue(Show(n)) == n
  {
    if n >= 10 {
      ShowRoundTrip(n / 10);
      var s := Show(n);
      assert s[..|s| - 1] == Show(n / 10);
    }
  }

  /** The number of decimal digits at the start of `s`. */
  function LeadingDigits(s: string): (k: nat)
    ensures k <= |s| && AllDigits(s[..k])
    ensures k < |s| ==> !IsDigit(s[k])
  {
    if s != [] && IsDigit(s[0]) then
      var k := LeadingDigits(s[1..]);
      assert s[..k + 1] == [s[0]] + s[1..][..k];
      k + 1
    else 0
  }

  /** A numeral followed by a non-digit is read up to that non-digit. */
  lemma {:induction false} LeadingDigitsOfNumeral(digits: string, rest: string)
    requires AllDigits(digits)
    requires rest == [] || !IsDigit(rest[0])
    ensures LeadingDigits(digits + rest) == |digits|
  {
    if digits != [] {
      assert (digits + rest)[1..] == digits[1..] + rest;
      LeadingDigitsOfNumeral(digits[1..], rest);
    }
  }
}
