/** The shared formatters: truncation, US phone-number formatting and capitalisation. */
module Formatters {
  import opened JsBuiltins
  import SharedUtils

  /** The formatters' own `truncateText`, with the test the other way round. */
  function TruncateText(text: string, maxLength: int): (r: string)
    ensures |text| <= maxLength ==> r == text
    ensures |text| > maxLength && maxLength >= 3 ==>
      |r| == maxLength && r[..maxLength - 3] == text[..maxLength - 3] && r[maxLength - 3..] == "..."
  {
    if |text| > maxLength then SliceTo(text, maxLength - 3) + "..." else text
  }

  /** The two copies of `truncateText` agree on every input. */
  lemma TruncateCopiesAgree(text: string, maxLength: int)
    ensures TruncateText(text, maxLength) == SharedUtils.TruncateText(text, maxLength)
  {
  }

  /** `s.replace(/\D/g, '')`: the ASCII digits of `s`, in order. */
  function DigitsOnly(s: string): (r: string)
    ensures |r| <= |s| && forall i :: 0 <= i < |r| ==> IsDigit(r[i])
    decreases |s|
  {
    if |s| == 0 then ""
    else DigitsOnly(s[..|s| - 1]) + (if IsDigit(s[|s| - 1]) then [s[|s| - 1]] else "")
  }

  lemma {:induction false} DigitsOnlyConcat(a: string, b: string)
    ensures DigitsOnly(a + b) == DigitsOnly(a) + DigitsOnly(b)
    decreases |b|
  {
    if |b| == 0 {
      assert a + b == a;
    } else {
      assert (a + b)[..|a + b| - 1] == a + b[..|b| - 1];
      DigitsOnlyConcat(a, b[..|b| - 1]);
    }
  }

  /** A string of digits keeps all of itself. */
  lemma {:induction false} DigitsOnlyOfDigits(s: string)
    requires forall i :: 0 <= i < |s| ==> IsDigit(s[i])
    ensures DigitsOnly(s) == s
    decreases |s|
  {
    if |s| > 0 {
      DigitsOnlyOfDigits(s[..|s| - 1]);
      assert s == s[..|s| - 1] + [s[|s| - 1]];
    }
  }

  /** `formatPhoneNumber`: ten digits become `(ddd) ddd-dddd`; anything else is returned as given. */
  function FormatPhoneNumber(phoneNumber: string): (r: string)
    ensures var d := DigitsOnly(phoneNumber);
      && (|d| == 10 ==>
        && |r| == 14 && r[0] == '(' && r[4] == ')' && r[5] == ' ' && r[9] == '-'
        && r[1..4] == d[..3] && r[6..9] == d[3..6] && r[10..] == d[6..])
      && (|d| != 10 ==> r == phoneNumber)
  {
    var d := DigitsOnly(phoneNumber);
    if |d| == 10 then "(" + d[..3] + ") " + d[3..6] + "-" + d[6..] else phoneNumber
  }

  /** Stripping the non-digits from the output gives back the input's digits, formatted or not. */
  lemma PhoneDigitsRoundTrip(phoneNumber: string)
    ensures DigitsOnly(FormatPhoneNumber(phoneNumber)) == DigitsOnly(phoneNumber)
  {
    var d := DigitsOnly(phoneNumber);
    if |d| == 10 {
      var a, b, c := d[..3], d[3..6], d[6..];
      DigitsOnlyConcat("(" + a + ") " + b + "-", c);
      DigitsOnlyConcat("(" + a + ") " + b, "-");
      DigitsOnlyConcat("(" + a + ") ", b);
      DigitsOnlyConcat("(" + a, ") ");
      DigitsOnlyConcat("(", a);
      DigitsOnlyOfDigits(a);
      DigitsOnlyOfDigits(b);
      DigitsOnlyOfDigits(c);
      assert DigitsOnly("(") == "" by { assert "("[..0] == ""; }
      assert DigitsOnly(") ") == "" by { assert ") "[..1] == ")"; assert ")"[..0] == ""; }
      assert DigitsOnly("-") == "" by { assert "-"[..0] == ""; }
      assert "(" + a + ") " + b + "-" + c == FormatPhoneNumber(phoneNumber);
      assert a + b + c == d;
    }
  }

  /** Formatting an already formatted number changes nothing. */
  lemma PhoneFormatIdempotent(phoneNumber: string)
    ensures FormatPhoneNumber(FormatPhoneNumber(phoneNumber)) == FormatPhoneNumber(phoneNumber)
  {
    PhoneDigitsRoundTrip(phoneNumber);
  }

  /** `capitalizeFirstLetter`: "" stays ""; otherwise the first character is upper-cased and the rest kept. */
  function CapitalizeFirstLetter(str: string): (r: string)
    ensures |r| == |str|
    ensures |str| > 0 ==> r[0] == ToUpper(str[0]) && r[1..] == str[1..]
  {
    if |str| == 0 then str else [ToUpper(str[0])] + str[1..]
  }

  /** Capitalising twice is capitalising once, and a leading lower-case letter comes out upper-case. */
  lemma CapitalizeIdempotent(str: string)
    ensures CapitalizeFirstLetter(CapitalizeFirstLetter(str)) == CapitalizeFirstLetter(str)
    ensures |str| > 0 && IsLower(str[0]) ==> IsUpper(CapitalizeFirstLetter(str)[0])
  {
  }
}
