/**
 * The few ECMAScript built-ins the modelled code relies on: `Array.prototype.slice(0, end)` and
 * `String.prototype.slice(0, end)` (a negative `end` counts back from the end), and the character
 * classes of regular expressions (`\d`, `\s`, line terminators) and ASCII case mapping.
 */
module JsBuiltins {

  /** `s.slice(0, end)`: a prefix of `s`; a negative `end` drops `-end` elements from the end. */
  function SliceTo<T>(s: seq<T>, end: int): (r: seq<T>)
    ensures |r| == if end >= 0 then (if end <= |s| then end else |s|)
                   else (if |s| + end >= 0 then |s| + end else 0)
    ensures r == s[..|r|]
  {
    if end >= 0 then (if end <= |s| then s[..end] else s)
    else (if |s| + end >= 0 then s[..|s| + end] else [])
  }

  /** For a non-negative `end`, the slice keeps the first `min(end, |s|)` elements. */
  lemma SliceToNonNegative<T>(s: seq<T>, end: nat)
    ensures SliceTo(s, end) == if end <= |s| then s[..end] else s
  {
  }

  /** Regular-expression `\d`: only the ASCII digits. */
  predicate IsDigit(c: char) {
    '0' <= c <= '9'
  }

  predicate IsLower(c: char) {
    'a' <= c <= 'z'
  }

  predicate IsUpper(c: char) {
    'A' <= c <= 'Z'
  }

  /** Regular-expression line terminators (LF, CR, LINE SEPARATOR, PARAGRAPH SEPARATOR): `.` does not match these. */
  predicate IsLineTerminator(c: char) {
    c as int == 0x0A || c as int == 0x0D || c as int == 0x2028 || c as int == 0x2029
  }

  /**
   * Regular-expression `\s`: TAB, VT, FF, SPACE, NO-BREAK SPACE, ZERO WIDTH NO-BREAK SPACE, the
   * space separators of Unicode (category Zs) and the line terminators.
   */
  predicate IsWhitespace(c: char) {
    var n := c as int;
    || n == 0x09 || n == 0x0B || n == 0x0C || n == 0x20 || n == 0xA0 || n == 0xFEFF
    || n == 0x1680 || (0x2000 <= n <= 0x200A) || n == 0x202F || n == 0x205F || n == 0x3000
    || IsLineTerminator(c)
  }

  /** ASCII lower-casing of one character; every other character is unchanged. */
  function ToLower(c: char): (r: char)
    ensures IsUpper(c) ==> IsLower(r) && r as int == c as int + 32
    ensures !IsUpper(c) ==> r == c
  {
    if IsUpper(c) then (c as int + 32) as char else c
  }

  /** ASCII upper-casing of one character; every other character is unchanged. */
  function ToUpper(c: char): (r: char)
    ensures IsLower(c) ==> IsUpper(r) && r as int == c as int - 32
    ensures !IsLower(c) ==> r == c
  {
    if IsLower(c) then (c as int - 32) as char else c
  }

  function LowerCase(s: string): (r: string)
    ensures |r| == |s| && forall i :: 0 <= i < |s| ==> r[i] == ToLower(s[i])
  {
    seq(|s|, i requires 0 <= i < |s| => ToLower(s[i]))
  }

  /** Index of the first character that is not whitespace, or `|s|`. */
  function TrimStartIndex(s: string): (k: nat)
    ensures k <= |s| && (forall i :: 0 <= i < k ==> IsWhitespace(s[i])) && (k < |s| ==> !IsWhitespace(s[k]))
    decreases |s|
  {
    if |s| == 0 || !IsWhitespace(s[0]) then 0 else 1 + TrimStartIndex(s[1..])
  }

  /** One past the last character that is not whitespace, or 0. */
  function TrimEndIndex(s: string): (k: nat)
    ensures k <= |s| && (forall i :: k <= i < |s| ==> IsWhitespace(s[i])) && (k > 0 ==> !IsWhitespace(s[k - 1]))
    decreases |s|
  {
    if |s| == 0 || !IsWhitespace(s[|s| - 1]) then |s| else TrimEndIndex(s[..|s| - 1])
  }

  /** Where the trimmed text starts. */
  function TrimOffset(s: string): nat {
    TrimStartIndex(s[..TrimEndIndex(s)])
  }

  /**
   * `String.prototype.trim`: drops leading and trailing whitespace and line terminators. The
   * result is the part of `s` between a run of whitespace at the start and one at the end, and
   * neither of its ends is whitespace.
   */
  function Trim(s: string): (r: string)
    ensures |r| > 0 ==> !IsWhitespace(r[0]) && !IsWhitespace(r[|r| - 1])
    ensures var a := TrimOffset(s);
      && a + |r| <= |s| && r == s[a..a + |r|]
      && (forall i :: 0 <= i < a ==> IsWhitespace(s[i]))
      && (forall i :: a + |r| <= i < |s| ==> IsWhitespace(s[i]))
  {
    var e := TrimEndIndex(s);
    var b := TrimStartIndex(s[..e]);
    assert forall i :: 0 <= i < b ==> s[..e][i] == s[i];
    s[b..e]
  }

  /** Trimming removes only whitespace: a string with no whitespace at either end is its own trim. */
  lemma TrimOfTrimmed(s: string)
    requires |s| == 0 || (!IsWhitespace(s[0]) && !IsWhitespace(s[|s| - 1]))
    ensures Trim(s) == s
  {
  }

  /** Trimming twice is trimming once. */
  lemma TrimIdempotent(s: string)
    ensures Trim(Trim(s)) == Trim(s)
  {
    TrimOfTrimmed(Trim(s));
  }

  /** A string made only of whitespace trims to the empty string, and only such a string does. */
  lemma TrimEmpty(s: string)
    ensures Trim(s) == "" <==> forall i :: 0 <= i < |s| ==> IsWhitespace(s[i])
  {
  }

  function DigitChar(d: nat): (c: char)
    requires d < 10
    ensures IsDigit(c) && c as int - '0' as int == d
  {
    ('0' as int + d) as char
  }

  /** `String(n)` for a natural number: its decimal digits, most significant first, no leading zeros. */
  function NatToString(n: nat): (s: string)
    ensures |s| > 0 && forall i :: 0 <= i < |s| ==> IsDigit(s[i])
    ensures |s| > 1 ==> s[0] != '0'
    decreases n
  {
    if n < 10 then [DigitChar(n)] else NatToString(n / 10) + [DigitChar(n % 10)]
  }

  /** The value of a string of decimal digits. */
  function DecimalValue(s: string): nat
    requires forall i :: 0 <= i < |s| ==> IsDigit(s[i])
    decreases |s|
  {
    if |s| == 0 then 0
    else assert IsDigit(s[|s| - 1]); 10 * DecimalValue(s[..|s| - 1]) + (s[|s| - 1] as int - '0' as int)
  }

  /** Reading the decimal digits back gives the number. */
  lemma {:induction false} DecimalValueOfNatToString(n: nat)
    ensures DecimalValue(NatToString(n)) == n
    decreases n
  {
    if n >= 10 {
      DecimalValueOfNatToString(n / 10);
      var s := NatToString(n);
      assert s[..|s| - 1] == NatToString(n / 10);
    }
  }

  /** Distinct numbers print differently. */
  lemma NatToStringInjective(m: nat, n: nat)
    ensures NatToString(m) == NatToString(n) <==> m == n
  {
    if NatToString(m) == NatToString(n) {
      DecimalValueOfNatToString(m);
      DecimalValueOfNatToString(n);
    }
  }
}
