/** The two pieces of JavaScript string behaviour the core relies on:
    truthiness of an optional string and `String.prototype.trim`. */
module Strings {
  import opened Wrappers

  /** A string value that JavaScript treats as true in a condition:
      present and not the empty string. */
  predicate Truthy(s: Option<string>) {
    s.Some? && s.value != ""
  }

  /** The characters `trim` removes: ECMAScript WhiteSpace and LineTerminator. */
  predicate IsWhitespace(c: char) {
    c == '\t' || c == '\n' || c == '\U{B}' || c == '\U{C}' || c == '\r' || c == ' '
    || c == '\U{A0}' || c == '\U{1680}' || ('\U{2000}' <= c <= '\U{200A}')
    || c == '\U{2028}' || c == '\U{2029}' || c == '\U{202F}' || c == '\U{205F}'
    || c == '\U{3000}' || c == '\U{FEFF}'
  }

  /** The first position at or after `i` that is not whitespace, or `|s|`. */
  function SkipForward(s: string, i: nat): (r: nat)
    requires i <= |s|
    ensures i <= r <= |s|
    ensures forall k :: i <= k < r ==> IsWhitespace(s[k])
    ensures r == |s| || !IsWhitespace(s[r])
    decreases |s| - i
  {
    if i < |s| && IsWhitespace(s[i]) then SkipForward(s, i + 1) else i
  }

  /** The end of the text in `s[lo..j]`: the position after the last
      character before `j` that is not whitespace, or `lo`. */
  function SkipBackward(s: string, lo: nat, j: nat): (r: nat)
    requires lo <= j <= |s|
    ensures lo <= r <= j
    ensures forall k :: r <= k < j ==> IsWhitespace(s[k])
    ensures r == lo || !IsWhitespace(s[r - 1])
    decreases j
  {
    if j > lo && IsWhitespace(s[j - 1]) then SkipBackward(s, lo, j - 1) else j
  }

  /** Where the text of `s` starts: after its leading whitespace. */
  function TextStart(s: string): (lo: nat)
    ensures lo <= |s|
    ensures forall k :: 0 <= k < lo ==> IsWhitespace(s[k])
    ensures lo == |s| || !IsWhitespace(s[lo])
  {
    SkipForward(s, 0)
  }

  /** Where the text of `s` ends: before its trailing whitespace. */
  function TextEnd(s: string): (hi: nat)
    ensures TextStart(s) <= hi <= |s|
    ensures forall k :: hi <= k < |s| ==> IsWhitespace(s[k])
    ensures hi == TextStart(s) || !IsWhitespace(s[hi - 1])
  {
    SkipBackward(s, TextStart(s), |s|)
  }

  /** `String.prototype.trim`: `s` without its leading and trailing
      whitespace. The result is the infix of `s` between its text's start and
      end, everything dropped on either side is whitespace, and the result
      neither starts nor ends with whitespace. */
  function Trim(s: string): (r: string)
    ensures |r| <= |s|
    ensures r == s[TextStart(s)..TextEnd(s)]
    ensures forall k :: 0 <= k < TextStart(s) ==> IsWhitespace(s[k])
    ensures forall k :: TextEnd(s) <= k < |s| ==> IsWhitespace(s[k])
    ensures r == [] || (!IsWhitespace(r[0]) && !IsWhitespace(r[|r| - 1]))
  {
    s[TextStart(s)..TextEnd(s)]
  }

  /** Trimming yields the empty string exactly when the input is blank. */
  lemma TrimEmptyIffBlank(s: string)
    ensures Trim(s) == "" <==> forall k :: 0 <= k < |s| ==> IsWhitespace(s[k])
  {
    if Trim(s) == "" {
      assert TextEnd(s) == TextStart(s);
    }
  }

  /** Trimming twice is trimming once. */
  lemma TrimIdempotent(s: string)
    ensures Trim(Trim(s)) == Trim(s)
  {
    var r := Trim(s);
    if r != [] {
      assert SkipForward(r, 0) == 0;
      assert SkipBackward(r, 0, |r|) == |r|;
    }
  }
}
