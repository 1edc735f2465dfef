/**
 * Character and string helpers with JavaScript's meaning: the `\s` class,
 * `toString()` of integers and its inverses (`Number`, `parseInt`),
 * `trim()`, `includes`, `replace` with a string pattern, and
 * `String.prototype.length` (UTF-16 code units).
 */
module Text {
  import opened Wrappers

  predicate IsDigit(c: char) { '0' <= c <= '9' }

  predicate IsHexDigit(c: char) { IsDigit(c) || 'a' <= c <= 'f' || 'A' <= c <= 'F' }

  /** JavaScript's `\s`: WhiteSpace and LineTerminator code points (also what `trim()` strips). */
  predicate IsSpace(c: char) {
    || c == '\t' || c == '\n' || c == '\U{000B}' || c == '\U{000C}' || c == '\r' || c == ' '
    || c == '\U{00A0}' || c == '\U{1680}' || ('\U{2000}' <= c <= '\U{200A}')
    || c == '\U{2028}' || c == '\U{2029}' || c == '\U{202F}' || c == '\U{205F}'
    || c == '\U{3000}' || c == '\U{FEFF}'
  }

  predicate AllDigits(s: string) { forall i :: 0 <= i < |s| ==> IsDigit(s[i]) }

  function DigitValue(c: char): (d: nat)
    requires IsDigit(c)
    ensures d < 10
  {
    c as int - '0' as int
  }

  function HexValue(c: char): (d: nat)
    requires IsHexDigit(c)
    ensures d < 16
  {
    if IsDigit(c) then DigitValue(c)
    else if 'a' <= c <= 'f' then c as int - 'a' as int + 10
    else c as int - 'A' as int + 10
  }

  function DigitChar(d: nat): (c: char)
    requires d < 10
    ensures IsDigit(c) && DigitValue(c) == d
  {
    ('0' as int + d) as char
  }

  /** The value of a string of decimal digits, most significant first ("" is 0). */
  function DigitsValue(s: string): nat
    requires AllDigits(s)
  {
    if s == [] then 0 else DigitsValue(s[..|s| - 1]) * 10 + DigitValue(s[|s| - 1])
  }

  function HexDigitsValue(s: string): nat
    requires forall i :: 0 <= i < |s| ==> IsHexDigit(s[i])
  {
    if s == [] then 0 else HexDigitsValue(s[..|s| - 1]) * 16 + HexValue(s[|s| - 1])
  }

  /** `n.toString()` for a non-negative integer. */
  function NatToString(n: nat): (s: string)
    ensures |s| > 0 && AllDigits(s)
  {
    if n < 10 then [DigitChar(n)] else NatToString(n / 10) + [DigitChar(n % 10)]
  }

  /** `i.toString()` for an integer. */
  function IntToString(i: int): (s: string)
    ensures |s| > 0 && (s[0] == '-' || IsDigit(s[0]))
  {
    if i < 0 then "-" + NatToString(-i) else NatToString(i)
  }

  lemma {:induction false} NatToStringRoundTrip(n: nat)
    ensures DigitsValue(NatToString(n)) == n
  {
    if n >= 10 {
      NatToStringRoundTrip(n / 10);
      var s := NatToString(n);
      assert s[..|s| - 1] == NatToString(n / 10);
    }
  }

  /** A plain decimal integer, "-"? digit+; None for any other string. */
  function ParseInteger(s: string): (r: Option<int>)
    ensures r.Some? ==> |s| > 0
  {
    if |s| > 1 && s[0] == '-' && AllDigits(s[1..]) then Some(0 - DigitsValue(s[1..]))
    else if |s| > 0 && AllDigits(s) then Some(DigitsValue(s))
    else None
  }

  /** `Number(i.toString()) == i`: the string encoding of ids round-trips. */
  lemma IntToStringRoundTrip(i: int)
    ensures ParseInteger(IntToString(i)) == Some(i)
  {
    if i < 0 {
      var s := IntToString(i);
      assert s[1..] == NatToString(-i);
      NatToStringRoundTrip(-i);
    } else {
      NatToStringRoundTrip(i);
    }
  }

  /** Distinct integers have distinct decimal strings. */
  lemma IntToStringInjective(i: int, j: int)
    ensures IntToString(i) == IntToString(j) ==> i == j
  {
    IntToStringRoundTrip(i);
    IntToStringRoundTrip(j);
  }

  /** The longest prefix of `s` made of decimal digits. */
  function LeadingDigits(s: string): (r: string)
    ensures AllDigits(r) && r <= s
    ensures |r| < |s| ==> !IsDigit(s[|r|])
  {
    if |s| > 0 && IsDigit(s[0]) then [s[0]] + LeadingDigits(s[1..]) else []
  }

  function LeadingHexDigits(s: string): (r: string)
    ensures (forall i :: 0 <= i < |r| ==> IsHexDigit(r[i])) && r <= s
    ensures |r| < |s| ==> !IsHexDigit(s[|r|])
  {
    if |s| > 0 && IsHexDigit(s[0]) then [s[0]] + LeadingHexDigits(s[1..]) else []
  }

  function TrimStart(s: string): (r: string)
    ensures |r| <= |s| && r == s[|s| - |r|..]
    ensures |r| > 0 ==> !IsSpace(r[0])
    ensures forall i :: 0 <= i < |s| - |r| ==> IsSpace(s[i])
  {
    if |s| > 0 && IsSpace(s[0]) then TrimStart(s[1..]) else s
  }

  function TrimEnd(s: string): (r: string)
    ensures |r| <= |s| && r == s[..|r|]
    ensures |r| > 0 ==> !IsSpace(r[|r| - 1])
    ensures forall i :: |r| <= i < |s| ==> IsSpace(s[i])
  {
    if |s| > 0 && IsSpace(s[|s| - 1]) then TrimEnd(s[..|s| - 1]) else s
  }

  /** `s.trim()`. */
  function Trim(s: string): string {
    TrimEnd(TrimStart(s))
  }

  /** A string trims to "" exactly when every character of it is white space. */
  lemma TrimEmptyIffBlank(s: string)
    ensures Trim(s) == "" <==> forall i :: 0 <= i < |s| ==> IsSpace(s[i])
  {
    var t := TrimStart(s);
    assert |t| > 0 ==> t[0] == s[|s| - |t|] && !IsSpace(t[0]);
  }

  /**
   * The unsigned part of `parseInt`: the longest run of decimal digits, or of
   * hexadecimal digits after "0x"/"0X"; None (NaN) when that run is empty.
   */
  function UnsignedPrefixValue(u: string): Option<nat> {
    if |u| >= 2 && u[0] == '0' && (u[1] == 'x' || u[1] == 'X') then
      var h := LeadingHexDigits(u[2..]);
      if h == [] then None else Some(HexDigitsValue(h))
    else
      var d := LeadingDigits(u);
      if d == [] then None else Some(DigitsValue(d))
  }

  /** `parseInt` after the leading white space: an optional sign, then the unsigned part. */
  function SignedPrefixValue(t: string): Option<int> {
    if |t| > 0 && t[0] == '-' then
      match UnsignedPrefixValue(t[1..])
      case None => None
      case Some(m) => Some(0 - m)
    else if |t| > 0 && t[0] == '+' then UnsignedPrefixValue(t[1..])
    else UnsignedPrefixValue(t)
  }

  /**
   * `parseInt(s)` with no radix: leading white space, an optional sign, then
   * the unsigned part. None stands for NaN.
   */
  function JsParseInt(s: string): Option<int> {
    SignedPrefixValue(TrimStart(s))
  }

  lemma LeadingDigitsOfDigits(s: string)
    requires AllDigits(s)
    ensures LeadingDigits(s) == s
  {
    if |s| > 0 {
      LeadingDigitsOfDigits(s[1..]);
    }
  }

  /** `trimStart` leaves a string that does not start with white space as it is. */
  lemma TrimStartUnspaced(s: string)
    requires |s| > 0 && !IsSpace(s[0])
    ensures TrimStart(s) == s
  {
  }

  /** The unsigned part of a non-empty digit string is its value: it cannot start with "0x". */
  lemma UnsignedPrefixOfDigits(u: string)
    requires |u| > 0 && AllDigits(u)
    ensures UnsignedPrefixValue(u) == Some(DigitsValue(u))
  {
    assert !(|u| >= 2 && u[0] == '0' && (u[1] == 'x' || u[1] == 'X')) by {
      assert |u| >= 2 ==> IsDigit(u[1]);
    }
    LeadingDigitsOfDigits(u);
  }

  /** `parseInt` of a non-empty string of decimal digits is its value. */
  lemma JsParseIntOfDigits(s: string)
    requires |s| > 0 && AllDigits(s)
    ensures JsParseInt(s) == Some(DigitsValue(s))
  {
    TrimStartUnspaced(s);
    UnsignedPrefixOfDigits(s);
    assert s[0] != '-' && s[0] != '+';
  }

  /** `parseInt` of a minus sign followed by decimal digits is the negated value. */
  lemma JsParseIntOfNegative(s: string)
    requires |s| > 1 && s[0] == '-' && AllDigits(s[1..])
    ensures JsParseInt(s) == Some(0 - DigitsValue(s[1..]))
  {
    TrimStartUnspaced(s);
    UnsignedPrefixOfDigits(s[1..]);
  }

  /** Without a digit in front the unsigned part is NaN: not even "0x" can start it. */
  lemma UnsignedPrefixOfNonDigit(u: string)
    requires u == [] || !IsDigit(u[0])
    ensures UnsignedPrefixValue(u) == None
  {
  }

  /** `parseInt` is NaN when neither the first character nor the one after a sign is a digit. */
  lemma JsParseIntNoLeadingDigit(s: string)
    requires |s| > 0 && !IsSpace(s[0]) && !IsDigit(s[0])
    requires (s[0] == '-' || s[0] == '+') && |s| > 1 ==> !IsDigit(s[1])
    ensures JsParseInt(s) == None
  {
    TrimStartUnspaced(s);
    if s[0] == '-' || s[0] == '+' {
      UnsignedPrefixOfNonDigit(s[1..]);
    } else {
      UnsignedPrefixOfNonDigit(s);
    }
  }

  /** On a plain decimal integer `parseInt` reads the same value as the strict parser. */
  lemma JsParseIntOfInteger(s: string)
    requires ParseInteger(s).Some?
    ensures JsParseInt(s) == ParseInteger(s)
  {
    if |s| > 1 && s[0] == '-' && AllDigits(s[1..]) {
      JsParseIntOfNegative(s);
    } else {
      JsParseIntOfDigits(s);
    }
  }

  /** `parseInt(i.toString()) == i`. */
  lemma JsParseIntOfIntToString(i: int)
    ensures JsParseInt(IntToString(i)) == Some(i)
  {
    IntToStringRoundTrip(i);
    JsParseIntOfInteger(IntToString(i));
  }

  function LowerChar(c: char): char {
    if 'A' <= c <= 'Z' then (c as int + 32) as char else c
  }

  /**
   * `Number(s)` on integer text: surrounding white space is ignored, the
   * empty string is 0, and an optional sign precedes the digits; every other
   * string is treated as NaN.
   */
  function JsNumber(s: string): Option<int> {
    var t := Trim(s);
    if t == "" then Some(0)
    else if t[0] == '+' then
      if |t| > 1 && AllDigits(t[1..]) then Some(DigitsValue(t[1..])) else None
    else ParseInteger(t)
  }

  lemma TrimUnspaced(s: string)
    requires |s| > 0 && !IsSpace(s[0]) && !IsSpace(s[|s| - 1])
    ensures Trim(s) == s
  {
  }

  /** `Number(String(i)) == i`. */
  lemma JsNumberOfIntToString(i: int)
    ensures JsNumber(IntToString(i)) == Some(i)
  {
    var s := IntToString(i);
    if i < 0 {
      assert s[1..] == NatToString(-i);
      assert s[|s| - 1] == s[1..][|s[1..]| - 1];
    }
    TrimUnspaced(s);
    IntToStringRoundTrip(i);
  }

  /** `toLowerCase()` on the ASCII letters. */
  function Lower(s: string): (r: string)
    ensures |r| == |s| && forall i :: 0 <= i < |s| ==> r[i] == LowerChar(s[i])
  {
    seq(|s|, i requires 0 <= i < |s| => LowerChar(s[i]))
  }

  predicate StartsWith(s: string, p: string) {
    |p| <= |s| && s[..|p|] == p
  }

  predicate OccursAt(s: string, p: string, k: int) {
    0 <= k && k + |p| <= |s| && s[k..k + |p|] == p
  }

  /** First index at or after `from` where `p` occurs in `s`. */
  function IndexOf(s: string, p: string, from: nat): (r: Option<nat>)
    ensures r.Some? ==> from <= r.value && OccursAt(s, p, r.value)
    ensures r.Some? ==> forall k :: from <= k < r.value ==> !OccursAt(s, p, k)
    ensures r.None? ==> forall k :: from <= k ==> !OccursAt(s, p, k)
    decreases |s| - from
  {
    if from + |p| > |s| then None
    else if s[from..from + |p|] == p then Some(from)
    else IndexOf(s, p, from + 1)
  }

  /** A character that does not occur from `from` on is not found there. */
  lemma {:induction false} IndexOfAbsentChar(s: string, c: char, from: nat)
    requires forall k :: from <= k < |s| ==> s[k] != c
    ensures IndexOf(s, [c], from).None?
    decreases |s| - from
  {
    if from + 1 <= |s| {
      assert s[from..from + 1][0] == s[from];
      IndexOfAbsentChar(s, c, from + 1);
    }
  }

  /** `toLowerCase()` leaves a string without upper-case ASCII letters as it is. */
  lemma LowerOfLowercase(w: string)
    requires forall i :: 0 <= i < |w| ==> !('A' <= w[i] <= 'Z')
    ensures Lower(w) == w
  {
  }

  /** `s.includes(p)`. */
  function Includes(s: string, p: string): (b: bool)
    ensures b <==> exists k :: OccursAt(s, p, k)
  {
    IndexOf(s, p, 0).Some?
  }

  /** `s.replace(p, v)` with a string pattern: only the first occurrence is replaced. */
  function ReplaceFirst(s: string, p: string, v: string): (r: string)
    ensures (forall k :: !OccursAt(s, p, k)) ==> r == s
    ensures forall k :: OccursAt(s, p, k) && (forall j :: 0 <= j < k ==> !OccursAt(s, p, j)) ==>
      r == s[..k] + v + s[k + |p|..]
  {
    match IndexOf(s, p, 0)
    case None => s
    case Some(k) => s[..k] + v + s[k + |p|..]
  }

  /** `s.length`: UTF-16 code units, two for a character outside the Basic Multilingual Plane. */
  function Utf16Length(s: string): (n: nat)
    ensures |s| <= n <= 2 * |s|
  {
    if s == [] then 0 else (if s[0] as int >= 0x1_0000 then 2 else 1) + Utf16Length(s[1..])
  }
}
