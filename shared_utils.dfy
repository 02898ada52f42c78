/**
 * The shared utilities: text truncation, the e-mail shape check, image-extension membership and
 * the throttle, whose clock reading is passed in.
 */
module SharedUtils {
  import opened JsBuiltins

  /**
   * `truncateText`: the text when it fits, otherwise `text.slice(0, maxLength - 3) + '...'`; for a
   * `maxLength` below 3 the slice end is negative and counts back from the end of the text.
   */
  function TruncateText(text: string, maxLength: int): (r: string)
    ensures |text| <= maxLength ==> r == text
    ensures |text| > maxLength && maxLength >= 3 ==>
      |r| == maxLength && r[..maxLength - 3] == text[..maxLength - 3] && r[maxLength - 3..] == "..."
    ensures |text| > maxLength && maxLength < 3 ==>
      |r| == |SliceTo(text, maxLength - 3)| + 3 && r[..|r| - 3] == text[..|r| - 3] && r[|r| - 3..] == "..."
  {
    if |text| <= maxLength then text else SliceTo(text, maxLength - 3) + "..."
  }

  /** For `maxLength >= 3` the result never exceeds `maxLength`, and truncating again changes nothing. */
  lemma TruncateBounded(text: string, maxLength: int)
    requires maxLength >= 3
    ensures |TruncateText(text, maxLength)| <= maxLength
    ensures TruncateText(TruncateText(text, maxLength), maxLength) == TruncateText(text, maxLength)
  {
  }

  /** For `maxLength < 3` a text that does not fit comes back longer than `maxLength`. */
  lemma TruncateShortLimit(text: string, maxLength: int)
    requires maxLength < 3 && |text| > maxLength
    ensures |TruncateText(text, maxLength)| > maxLength
  {
  }

  /** The regular-expression group `[^\s@]+`: at least one character, none whitespace or '@'. */
  predicate NoSpaceOrAtRun(t: string) {
    |t| > 0 && forall k :: 0 <= k < |t| ==> !IsWhitespace(t[k]) && t[k] != '@'
  }

  /**
   * `validateEmail`: the text matches `^[^\s@]+@[^\s@]+\.[^\s@]+$` as a whole, written as the
   * three runs and the two separators between them.
   */
  function ValidateEmail(email: string): bool {
    exists i, j :: 0 < i < |email| && i + 1 < j < |email| - 1 && email[i] == '@' && email[j] == '.'
      && NoSpaceOrAtRun(email[..i]) && NoSpaceOrAtRun(email[i + 1..j]) && NoSpaceOrAtRun(email[j + 1..])
  }

  /** Position `a` holds the only '@', it is not the first character, and a '.' follows it with a character on either side. */
  predicate OnlyAtWithDotAfter(email: string, a: int) {
    && 0 < a < |email| && email[a] == '@'
    && (forall k :: 0 <= k < |email| && email[k] == '@' ==> k == a)
    && (exists d :: a + 1 < d < |email| - 1 && email[d] == '.')
  }

  /**
   * An address is accepted exactly when it has no whitespace, exactly one '@', a non-empty part
   * before it, and after it a '.' with at least one character on either side.
   */
  lemma EmailShape(email: string)
    ensures ValidateEmail(email) <==> (forall k :: 0 <= k < |email| ==> !IsWhitespace(email[k])) && exists a :: OnlyAtWithDotAfter(email, a)
  {
    if ValidateEmail(email) {
      var i, j :| && 0 < i < |email| && i + 1 < j < |email| - 1 && email[i] == '@' && email[j] == '.'
                  && NoSpaceOrAtRun(email[..i]) && NoSpaceOrAtRun(email[i + 1..j]) && NoSpaceOrAtRun(email[j + 1..]);
      forall k | 0 <= k < |email|
        ensures !IsWhitespace(email[k]) && (email[k] == '@' ==> k == i)
      {
        if k < i {
          assert email[..i][k] == email[k];
        } else if i < k < j {
          assert email[i + 1..j][k - i - 1] == email[k];
        } else if j < k {
          assert email[j + 1..][k - j - 1] == email[k];
        }
      }
      assert OnlyAtWithDotAfter(email, i);
    }
    if (forall k :: 0 <= k < |email| ==> !IsWhitespace(email[k])) && exists a :: OnlyAtWithDotAfter(email, a) {
      var a :| OnlyAtWithDotAfter(email, a);
      var d :| a + 1 < d < |email| - 1 && email[d] == '.';
      assert NoSpaceOrAtRun(email[..a]);
      assert NoSpaceOrAtRun(email[a + 1..d]);
      assert NoSpaceOrAtRun(email[d + 1..]);
    }
  }

  /** `SUPPORTED_IMAGE_FORMATS`. */
  const SupportedImageFormats: seq<string> := ["jpg", "jpeg", "png", "webp"]

  /** `isValidImageFormat`: the lower-cased extension is one of the supported formats. */
  function IsValidImageFormat(fileExtension: string): bool {
    LowerCase(fileExtension) in SupportedImageFormats
  }

  /** Two strings that differ only in letter case. */
  predicate SameIgnoringCase(a: string, b: string) {
    |a| == |b| && forall i :: 0 <= i < |a| ==> ToLower(a[i]) == ToLower(b[i])
  }

  /**
   * The check ignores letter case: strings equal up to case are both accepted or both rejected,
   * and an accepted extension is equal up to case to one of the four formats.
   */
  lemma ImageFormatIgnoresCase(a: string, b: string)
    requires SameIgnoringCase(a, b)
    ensures IsValidImageFormat(a) == IsValidImageFormat(b)
    ensures IsValidImageFormat(a) <==> exists f :: f in SupportedImageFormats && SameIgnoringCase(a, f)
  {
    assert LowerCase(a) == LowerCase(b);
    if IsValidImageFormat(a) {
      var f := LowerCase(a);
      assert f in SupportedImageFormats;
      assert forall i :: 0 <= i < |f| ==> ToLower(f[i]) == f[i];
      assert SameIgnoringCase(a, f);
    }
    if f :| f in SupportedImageFormats && SameIgnoringCase(a, f) {
      assert forall i :: 0 <= i < |f| ==> ToLower(f[i]) == f[i];
      assert LowerCase(a) == f;
    }
  }

  /** `lastCall` after the throttled function has been called at the given times, starting from 0. */
  function LastForwarded(calls: seq<int>, wait: int): int
    decreases |calls|
  {
    if |calls| == 0 then 0
    else
      var last := LastForwarded(calls[..|calls| - 1], wait);
      if calls[|calls| - 1] - last >= wait then calls[|calls| - 1] else last
  }

  /** The times at which a call reached the wrapped function. */
  function ForwardedCalls(calls: seq<int>, wait: int): seq<int>
    decreases |calls|
  {
    if |calls| == 0 then []
    else
      var init := calls[..|calls| - 1];
      ForwardedCalls(init, wait) + (if calls[|calls| - 1] - LastForwarded(init, wait) >= wait then [calls[|calls| - 1]] else [])
  }

  /**
   * Suppressed calls leave `lastCall` alone, so it is always the time of the last forwarded call
   * (0 before any), the first forwarded call comes at least `wait` after 0, and consecutive
   * forwarded calls are at least `wait` apart.
   */
  lemma {:induction false} ForwardedSpacing(calls: seq<int>, wait: int)
    ensures var f := ForwardedCalls(calls, wait);
      && (|f| == 0 ==> LastForwarded(calls, wait) == 0)
      && (|f| > 0 ==> LastForwarded(calls, wait) == f[|f| - 1] && f[0] >= wait)
      && (forall i :: 0 < i < |f| ==> f[i] - f[i - 1] >= wait)
    decreases |calls|
  {
    if |calls| > 0 {
      ForwardedSpacing(calls[..|calls| - 1], wait);
    }
  }

  /** The closure `throttle(func, wait)` returns, with its captured `lastCall`. */
  class Throttle {
    const wait: int
    var lastCall: int
    /** The clock readings of every call so far. */
    ghost var calls: seq<int>

    ghost predicate Valid()
      reads this
    {
      lastCall == LastForwarded(calls, wait)
    }

    /** `throttle(func, wait)`: no call yet, `lastCall` is 0. */
    constructor (wait: int)
      ensures Valid() && this.wait == wait && lastCall == 0 && calls == []
    {
      this.wait := wait;
      lastCall := 0;
      calls := [];
    }

    /**
     * One call at clock reading `now`: it is forwarded exactly when `now - lastCall >= wait`, and
     * only then does `lastCall` become `now`.
     */
    method Invoke(now: int) returns (forwarded: bool)
      requires Valid()
      modifies this
      ensures Valid() && calls == old(calls) + [now]
      ensures forwarded <==> now - old(lastCall) >= wait
      ensures lastCall == if forwarded then now else old(lastCall)
      ensures ForwardedCalls(calls, wait) == ForwardedCalls(old(calls), wait) + (if forwarded then [now] else [])
    {
      calls := calls + [now];
      assert calls[..|calls| - 1] == old(calls);
      if now - lastCall >= wait {
        lastCall := now;
        forwarded := true;
      } else {
        forwarded := false;
      }
    }
  }
}
