/** Python's `str.strip()` with no arguments: remove leading and trailing
    whitespace, where whitespace is what `str.isspace` accepts. */
module Text {

  /** The code points Python's `str.isspace` treats as whitespace. */
  predicate IsSpace(c: char) {
    || ('\U{0009}' <= c <= '\U{000D}')
    || ('\U{001C}' <= c <= '\U{0020}')
    || c == '\U{0085}' || c == '\U{00A0}' || c == '\U{1680}'
    || ('\U{2000}' <= c <= '\U{200A}')
    || c == '\U{2028}' || c == '\U{2029}' || c == '\U{202F}'
    || c == '\U{205F}' || c == '\U{3000}'
  }

  /** Neither the first nor the last character is whitespace. */
  predicate Trimmed(s: string) {
    s == [] || (!IsSpace(s[0]) && !IsSpace(s[|s| - 1]))
  }

  /** Index of the first non-whitespace character at or after `i` (`|s|` if none). */
  function SkipSpaces(s: string, i: nat): (j: nat)
    requires i <= |s|
    ensures i <= j <= |s|
    decreases |s| - i
  {
    if i < |s| && IsSpace(s[i]) then SkipSpaces(s, i + 1) else i
  }

  /** Index just past the last non-whitespace character before `j`, not
      going below `lo` (`lo` if there is none in between). */
  function SkipSpacesBack(s: string, lo: nat, j: nat): (r: nat)
    requires lo <= j <= |s|
    ensures lo <= r <= j
    decreases j
  {
    if lo < j && IsSpace(s[j - 1]) then SkipSpacesBack(s, lo, j - 1) else j
  }

  /** Where the stripped text starts in `s`. */
  function StripStart(s: string): (i: nat)
    ensures i <= |s|
  {
    SkipSpaces(s, 0)
  }

  /** Where the stripped text ends in `s`. */
  function StripEnd(s: string): (j: nat)
    ensures StripStart(s) <= j <= |s|
  {
    SkipSpacesBack(s, StripStart(s), |s|)
  }

  /** `str.strip()`: the piece of `s` between its leading and its trailing
      whitespace (`StripSound` states what is cut off and what is kept). */
  function Strip(s: string): (r: string)
    ensures |r| <= |s|
  {
    s[StripStart(s)..StripEnd(s)]
  }

  /** `SkipSpaces` passes over whitespace only and stops at a non-space
      character or the end. */
  lemma {:induction false} SkipSpacesSound(s: string, i: nat)
    requires i <= |s|
    ensures var j := SkipSpaces(s, i);
            && (forall k :: i <= k < j ==> IsSpace(s[k]))
            && (j < |s| ==> !IsSpace(s[j]))
    decreases |s| - i
  {
    if i < |s| && IsSpace(s[i]) {
      SkipSpacesSound(s, i + 1);
    }
  }

  /** `SkipSpacesBack` passes over whitespace only and stops after a
      non-space character or at `lo`. */
  lemma {:induction false} SkipSpacesBackSound(s: string, lo: nat, j: nat)
    requires lo <= j <= |s|
    ensures var r := SkipSpacesBack(s, lo, j);
            && (forall k :: r <= k < j ==> IsSpace(s[k]))
            && (lo < r ==> !IsSpace(s[r - 1]))
    decreases j
  {
    if lo < j && IsSpace(s[j - 1]) {
      SkipSpacesBackSound(s, lo, j - 1);
    }
  }

  /** Everything `strip` cuts off, on either side, is whitespace, and the
      text it keeps neither starts nor ends with whitespace. */
  lemma StripSound(s: string)
    ensures forall k :: 0 <= k < StripStart(s) ==> IsSpace(s[k])
    ensures forall k :: StripEnd(s) <= k < |s| ==> IsSpace(s[k])
    ensures Trimmed(Strip(s))
  {
    var i, j := StripStart(s), StripEnd(s);
    SkipSpacesSound(s, 0);
    SkipSpacesBackSound(s, i, |s|);
    if i < j {
      assert Strip(s)[0] == s[i];
      assert Strip(s)[j - i - 1] == s[j - 1];
    }
  }

  /** Stripping a string with no whitespace at either end changes nothing. */
  lemma StripTrimmed(s: string)
    requires Trimmed(s)
    ensures Strip(s) == s
  {
    if s != [] {
      assert StripStart(s) == 0;
      assert StripEnd(s) == |s|;
    }
  }

  /** Stripping twice is stripping once. */
  lemma StripIdempotent(s: string)
    ensures Strip(Strip(s)) == Strip(s)
  {
    StripSound(s);
    StripTrimmed(Strip(s));
  }
}
