/**
 * The web app's form validators. Each one builds a schema and reports whether the input parses,
 * so each is a total predicate on strings: none can fail.
 */
module Validation {
  import opened JsBuiltins
  import Formatters

  /** The characters the password's last look-ahead accepts. */
  const PasswordSpecials: string := "!@#$%^&*()_+-=[]{};':\"\\|,.<>/?"

  datatype CharClass = Lower | Upper | Digit | Special

  predicate InClass(c: char, cls: CharClass) {
    match cls
      case Lower => IsLower(c)
      case Upper => IsUpper(c)
      case Digit => IsDigit(c)
      case Special => c in PasswordSpecials
  }

  /** The look-ahead `(?=.*[cls])` at the start: a character of the class with no line terminator before it. */
  predicate LookaheadFinds(password: string, cls: CharClass) {
    exists k :: 0 <= k < |password| && InClass(password[k], cls)
      && forall j :: 0 <= j < k ==> !IsLineTerminator(password[j])
  }

  predicate NoLineTerminator(s: string) {
    forall k :: 0 <= k < |s| ==> !IsLineTerminator(s[k])
  }

  /**
   * `validatePassword`: at least 12 characters, and the four look-aheads followed by `.*$`, whose
   * `.` does not match line terminators.
   */
  function ValidatePassword(password: string): bool {
    && |password| >= 12
    && LookaheadFinds(password, Lower) && LookaheadFinds(password, Upper)
    && LookaheadFinds(password, Digit) && LookaheadFinds(password, Special)
    && NoLineTerminator(password)
  }

  predicate HasClass(s: string, cls: CharClass) {
    exists k :: 0 <= k < |s| && InClass(s[k], cls)
  }

  /**
   * A password is accepted exactly when it has at least 12 characters, a lower-case letter, an
   * upper-case letter, a digit and a listed special character, and no line break anywhere.
   */
  lemma PasswordRule(password: string)
    ensures ValidatePassword(password) <==>
      && |password| >= 12 && NoLineTerminator(password)
      && HasClass(password, Lower) && HasClass(password, Upper)
      && HasClass(password, Digit) && HasClass(password, Special)
  {
    if NoLineTerminator(password) {
      forall cls | HasClass(password, cls)
        ensures LookaheadFinds(password, cls)
      {
        var k :| 0 <= k < |password| && InClass(password[k], cls);
        assert forall j :: 0 <= j < k ==> !IsLineTerminator(password[j]);
      }
    }
    if LookaheadFinds(password, Lower) && LookaheadFinds(password, Upper)
      && LookaheadFinds(password, Digit) && LookaheadFinds(password, Special)
    {
      forall cls
        ensures HasClass(password, cls)
      {
        var k :| 0 <= k < |password| && InClass(password[k], cls)
          && forall j :: 0 <= j < k ==> !IsLineTerminator(password[j]);
      }
    }
  }

  predicate IsAlphanumeric(c: char) {
    IsLower(c) || IsUpper(c) || IsDigit(c)
  }

  /** `validateUsername`: 3 to 20 characters matching `^[a-zA-Z0-9]+$`. */
  function ValidateUsername(username: string): bool {
    3 <= |username| <= 20 && forall k :: 0 <= k < |username| ==> IsAlphanumeric(username[k])
  }

  /** An accepted username has no surrounding whitespace to trim, and its letters are ASCII. */
  lemma UsernameTrimmed(username: string)
    requires ValidateUsername(username)
    ensures Trim(username) == username
    ensures forall k :: 0 <= k < |username| ==> username[k] as int < 128
  {
    TrimOfTrimmed(username);
  }

  /** The part of `^\+?[1-9]\d{1,14}$` after the optional '+': a non-zero digit and then 1 to 14 digits. */
  predicate NationalDigits(t: string) {
    2 <= |t| <= 15 && '1' <= t[0] <= '9' && forall k :: 1 <= k < |t| ==> IsDigit(t[k])
  }

  /** `validatePhoneNumber`: an optional leading '+' and then `[1-9]\d{1,14}`. */
  function ValidatePhoneNumber(phoneNumber: string): bool {
    NationalDigits(phoneNumber) || (|phoneNumber| > 0 && phoneNumber[0] == '+' && NationalDigits(phoneNumber[1..]))
  }

  /**
   * An accepted number holds 2 to 15 digits, the most an E.164 international number may have,
   * with no leading zero, and at most its first character is not a digit.
   */
  lemma PhoneDigitCount(phoneNumber: string)
    requires ValidatePhoneNumber(phoneNumber)
    ensures var d := Formatters.DigitsOnly(phoneNumber);
      2 <= |d| <= 15 && d[0] != '0' && |phoneNumber| - |d| <= 1
  {
    if NationalDigits(phoneNumber) {
      Formatters.DigitsOnlyOfDigits(phoneNumber);
    } else {
      var t := phoneNumber[1..];
      Formatters.DigitsOnlyOfDigits(t);
      assert phoneNumber == "+" + t;
      Formatters.DigitsOnlyConcat("+", t);
      assert Formatters.DigitsOnly("+") == "" by { assert "+"[..0] == ""; }
    }
  }

  /** A number in the formatter's `(ddd) ddd-dddd` shape is not accepted by the validator. */
  lemma FormattedPhoneRejected(phoneNumber: string)
    requires |Formatters.DigitsOnly(phoneNumber)| == 10
    ensures !ValidatePhoneNumber(Formatters.FormatPhoneNumber(phoneNumber))
  {
    var r := Formatters.FormatPhoneNumber(phoneNumber);
    assert r[4] == ')' && !IsDigit(r[4]);
  }

  /** `validateProductName`: 1 to 100 characters. */
  function ValidateProductName(productName: string): bool {
    1 <= |productName| <= 100
  }

  /** `validateDesignName`: 1 to 50 characters. */
  function ValidateDesignName(designName: string): bool {
    1 <= |designName| <= 50
  }

  /** Every accepted design name is an accepted product name, but not the other way round. */
  lemma DesignNamesAreProductNames(name: string)
    ensures ValidateDesignName(name) ==> ValidateProductName(name)
    ensures |name| == 51 ==> ValidateProductName(name) && !ValidateDesignName(name)
  {
  }
}
