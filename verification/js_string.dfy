/**
 * The handful of JavaScript string and number built-ins that the editor's
 * forms rely on, stated over `seq<char>`: the `/^[0-9]*$/` and `/^#/`
 * filters, `String.prototype.trim`, `includes`, `replace` with a string
 * pattern, `Number.prototype.toString` on integers and `parseInt` with the
 * default radix.
 */
module JsString {
  import opened Wrappers

  predicate IsDigit(c: char) { '0' <= c <= '9' }

  /** `/^[0-9]*$/.test(s)`: the empty string passes too. */
  predicate AllDigits(s: string) { forall i | 0 <= i < |s| :: IsDigit(s[i]) }

  /** `/^[0-9]*\.?[0-9]*$/.test(s)`: digits with at most one decimal point. */
  predicate IsDecimalText(s: string) {
    AllDigits(s) || exists k | 0 <= k < |s| :: s[k] == '.' && AllDigits(s[..k]) && AllDigits(s[k + 1..])
  }

  /** `s.startsWith(p)`, and `/^p/.test(s)` for a literal `p`. */
  predicate StartsWith(s: string, p: string) { |p| <= |s| && s[..|p|] == p }

  /** ECMAScript WhiteSpace and LineTerminator code points: what `trim` and `parseInt` skip. */
  predicate IsWhitespace(c: char) {
    || c == '\t' || c == '\n' || c == '\U{000B}' || c == '\U{000C}' || c == '\r'
    || c == ' ' || c == '\U{00A0}' || c == '\U{1680}' || ('\U{2000}' <= c <= '\U{200A}')
    || c == '\U{2028}' || c == '\U{2029}' || c == '\U{202F}' || c == '\U{205F}'
    || c == '\U{3000}' || c == '\U{FEFF}'
  }

  predicate AllWhitespace(s: string) { forall i | 0 <= i < |s| :: IsWhitespace(s[i]) }

  /** Drops leading white space (`trimStart`). */
  function TrimStart(s: string): (r: string)
    ensures |r| <= |s| && r == s[|s| - |r|..]
    ensures r == [] || !IsWhitespace(r[0])
    ensures AllWhitespace(s[..|s| - |r|])
    decreases |s|
  {
    if |s| > 0 && IsWhitespace(s[0]) then TrimStart(s[1..]) else s
  }

  /** Drops trailing white space (`trimEnd`). */
  function TrimEnd(s: string): (r: string)
    ensures |r| <= |s| && r == s[..|r|]
    ensures r == [] || !IsWhitespace(r[|r| - 1])
    ensures AllWhitespace(s[|r|..])
    decreases |s|
  {
    if |s| > 0 && IsWhitespace(s[|s| - 1]) then TrimEnd(s[..|s| - 1]) else s
  }

  /** `s.trim()`. */
  function Trim(s: string): string { TrimEnd(TrimStart(s)) }

  /** `s.trim() === ''` holds exactly when every character of `s` is white space. */
  lemma TrimEmptyIffAllWhitespace(s: string)
    ensures Trim(s) == "" <==> AllWhitespace(s)
  {
    var t := TrimStart(s);
    // a character left at the front of `t` is not white space, so `s` is all white space only if `t` is empty
    if t != [] {
      assert t[0] == s[|s| - |t|];
    }
    // `trimEnd` empties `t` only if `t` is all white space, hence empty
    if TrimEnd(t) == [] {
      assert t[|TrimEnd(t)|..] == t;
      assert s[..|s| - |t|] == s;
    }
  }

  /** A match of the pattern `t` starting at position `j` of `s`. */
  predicate MatchAt(s: string, t: string, j: int) {
    0 <= j && j + |t| <= |s| && s[j..j + |t|] == t
  }

  /** The leftmost match of `t` in `s` at or after position `from`. */
  function IndexOfFrom(s: string, t: string, from: nat): (r: Option<nat>)
    ensures r.Some? ==> from <= r.value && MatchAt(s, t, r.value)
    ensures r.Some? ==> forall j | from <= j < r.value :: !MatchAt(s, t, j)
    ensures r.None? ==> forall j | from <= j :: !MatchAt(s, t, j)
    decreases |s| - from
  {
    if from + |t| > |s| then None
    else if s[from..from + |t|] == t then Some(from)
    else IndexOfFrom(s, t, from + 1)
  }

  /** `s.indexOf(t)`, with `None` for -1. */
  function IndexOf(s: string, t: string): Option<nat> { IndexOfFrom(s, t, 0) }

  /** `s.includes(t)`. */
  predicate Includes(s: string, t: string) { IndexOf(s, t).Some? }

  /** Any occurrence of `t` makes `s.includes(t)` true. */
  lemma MatchIncludes(s: string, t: string, j: int)
    requires MatchAt(s, t, j)
    ensures Includes(s, t)
  {
  }

  /** `s.replace(pattern, replacement)` with a string pattern: only the leftmost occurrence is replaced. */
  function ReplaceFirst(s: string, pattern: string, replacement: string): (r: string)
    ensures !Includes(s, pattern) ==> r == s
    ensures Includes(s, pattern) ==> |r| == |s| - |pattern| + |replacement|
    ensures Includes(s, pattern) ==>
      var i := IndexOf(s, pattern).value;
      r[..i] == s[..i] && r[i..i + |replacement|] == replacement && r[i + |replacement|..] == s[i + |pattern|..]
  {
    match IndexOf(s, pattern)
    case None => s
    case Some(i) => s[..i] + replacement + s[i + |pattern|..]
  }

  // ---------------------------------------------------------------------
  // Numbers: `n.toString()` on integers and `parseInt(s)`.

  function DigitValue(c: char): nat
    requires IsDigit(c)
  {
    c as int - '0' as int
  }

  function DigitChar(d: nat): (c: char)
    requires d < 10
    ensures IsDigit(c) && DigitValue(c) == d
  {
    ('0' as int + d) as char
  }

  /** The decimal value of a string of digits (leading zeros allowed). */
  function DigitsValue(s: string): nat
    requires AllDigits(s)
    decreases |s|
  {
    if s == [] then 0 else DigitsValue(s[..|s| - 1]) * 10 + DigitValue(s[|s| - 1])
  }

  /** The decimal numeral of a natural number, without leading zeros. */
  function NatToString(n: nat): (s: string)
    ensures |s| > 0 && AllDigits(s)
    ensures |s| > 1 ==> s[0] != '0'
    decreases n
  {
    if n < 10 then [DigitChar(n)] else NatToString(n / 10) + [DigitChar(n % 10)]
  }

  /** `i.toString()` for an integer `i`. */
  function IntToString(i: int): (s: string)
    ensures |s| > 0
    ensures i >= 0 <==> AllDigits(s)
  {
    if i < 0 then
      var s := "-" + NatToString(-i);
      assert !IsDigit(s[0]);
      s
    else NatToString(i)
  }

  lemma {:induction false} NatToStringValue(n: nat)
    ensures DigitsValue(NatToString(n)) == n
    decreases n
  {
    if n >= 10 {
      var s := NatToString(n);
      NatToStringValue(n / 10);
      assert s[..|s| - 1] == NatToString(n / 10);
    }
  }

  /** The length of the longest all-digit prefix of `s`. */
  function DigitPrefixLength(s: string): (k: nat)
    ensures k <= |s| && AllDigits(s[..k])
    ensures k < |s| ==> !IsDigit(s[k])
    decreases |s|
  {
    if |s| > 0 && IsDigit(s[0]) then
      var k := 1 + DigitPrefixLength(s[1..]);
      assert s[..k] == [s[0]] + s[1..][..k - 1];
      k
    else 0
  }

  /** The value of the digits that follow an optional sign; `None` when there are none. */
  function ParseUnsigned(u: string): Option<nat> {
    var k := DigitPrefixLength(u);
    if k == 0 then None else Some(DigitsValue(u[..k]))
  }

  /** What follows one optional leading sign. */
  function DropSign(t: string): string {
    if |t| > 0 && (t[0] == '-' || t[0] == '+') then t[1..] else t
  }

  /**
   * `parseInt(s)` with the default radix: leading white space is skipped, one
   * optional sign is read, then the longest run of decimal digits; `None` is
   * `NaN` (no digit at that point).
   */
  function ParseInt(s: string): (r: Option<int>)
    ensures r.None? <==> DigitPrefixLength(DropSign(TrimStart(s))) == 0
    ensures r.Some? && r.value < 0 ==> StartsWith(TrimStart(s), "-")
  {
    var t := TrimStart(s);
    if |t| > 0 && t[0] == '-' then
      match ParseUnsigned(t[1..])
      case None => None
      case Some(v) => Some(-(v as int))
    else if |t| > 0 && t[0] == '+' then
      match ParseUnsigned(t[1..])
      case None => None
      case Some(v) => Some(v as int)
    else
      match ParseUnsigned(t)
      case None => None
      case Some(v) => Some(v as int)
  }

  lemma {:induction false} DigitPrefixOfDigits(s: string)
    requires AllDigits(s)
    ensures DigitPrefixLength(s) == |s|
    decreases |s|
  {
    if |s| > 0 {
      DigitPrefixOfDigits(s[1..]);
    }
  }

  lemma ParseUnsignedOfDigits(s: string)
    requires AllDigits(s)
    ensures ParseUnsigned(s) == if s == "" then None else Some(DigitsValue(s))
  {
    DigitPrefixOfDigits(s);
    assert s[..|s|] == s;
  }

  /** On what the digit filter lets through, `parseInt` is "empty means NaN, otherwise the decimal value". */
  lemma ParseIntOfDigits(s: string)
    requires AllDigits(s)
    ensures ParseInt(s) == if s == "" then None else Some(DigitsValue(s) as int)
  {
    if |s| > 0 {
      assert !IsWhitespace(s[0]);
      assert s[0] != '-' && s[0] != '+';
    }
    assert TrimStart(s) == s;
    ParseUnsignedOfDigits(s);
  }

  /** The same, for a field that may or may not be digit-only. */
  lemma ParseIntOfField(s: string)
    ensures AllDigits(s) ==> ParseInt(s) == if s == "" then None else Some(DigitsValue(s) as int)
  {
    if AllDigits(s) {
      ParseIntOfDigits(s);
    }
  }

  /** `parseInt(i.toString())` gives back `i`: loading a number into a form field and submitting it unchanged is lossless. */
  lemma ParseIntOfIntToString(i: int)
    ensures ParseInt(IntToString(i)) == Some(i)
  {
    if i < 0 {
      var d := NatToString(-i);
      var s := IntToString(i);
      assert s == "-" + d;
      assert !IsWhitespace(s[0]);
      assert TrimStart(s) == s;
      assert s[1..] == d;
      NatToStringValue(-i);
      ParseUnsignedOfDigits(d);
    } else {
      NatToStringValue(i);
      ParseIntOfDigits(NatToString(i));
    }
  }

  /** `(NaN).toString()` is "NaN", and `parseInt` reads it back as `NaN`. */
  lemma ParseIntOfNaN()
    ensures ParseInt("NaN") == None
  {
    assert !IsWhitespace('N');
    assert TrimStart("NaN") == "NaN";
    assert DigitPrefixLength("NaN") == 0;
  }
}
