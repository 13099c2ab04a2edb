/** The handful of JavaScript string operations the dashboard relies on:
    `indexOf`/`includes`, ASCII `toLowerCase` and `trim`. */
module Text {
  import opened Values

  /** `pat` occurs in `s` starting at index `k`. */
  predicate OccursAt(s: string, pat: string, k: int) {
    0 <= k && k + |pat| <= |s| && s[k..k + |pat|] == pat
  }

  /** `s.indexOf(pat, from)`: the first occurrence of `pat` at or after `from`. */
  function IndexOf(s: string, pat: string, from: nat): (r: Option<nat>)
    ensures r.Some? ==> from <= r.value && OccursAt(s, pat, r.value)
    ensures r.Some? ==> forall k :: from <= k < r.value ==> !OccursAt(s, pat, k)
    ensures r.None? ==> forall k :: from <= k ==> !OccursAt(s, pat, k)
    decreases |s| - from
  {
    if from + |pat| > |s| then None
    else if s[from..from + |pat|] == pat then Some(from)
    else IndexOf(s, pat, from + 1)
  }

  /** An occurrence at or after `from` with none before it is the one
      `indexOf` finds. */
  lemma IndexOfFirst(s: string, pat: string, from: nat, j: nat)
    requires from <= j && OccursAt(s, pat, j)
    requires forall k :: from <= k < j ==> !OccursAt(s, pat, k)
    ensures IndexOf(s, pat, from) == Some(j)
  {
    var r := IndexOf(s, pat, from);
    assert r.Some?;
    assert !(r.value < j) && !(j < r.value);
  }

  /** `s.includes(pat)`, which is case-sensitive. */
  function Contains(s: string, pat: string): (b: bool)
    ensures b <==> exists k :: OccursAt(s, pat, k)
  {
    IndexOf(s, pat, 0).Some?
  }

  /** `s.includes(w)` for at least one of the words `ws`. */
  predicate ContainsAny(s: string, ws: seq<string>) {
    exists i :: 0 <= i < |ws| && Contains(s, ws[i])
  }

  /** Lower-casing of one character; only the ASCII letters A-Z are folded. */
  function LowerChar(c: char): (d: char)
    ensures 'A' <= c <= 'Z' ==> 'a' <= d <= 'z' && d as int - c as int == 32
    ensures !('A' <= c <= 'Z') ==> d == c
  {
    if 'A' <= c <= 'Z' then (c as int + 32) as char else c
  }

  /** `s.toLowerCase()` restricted to ASCII letters. */
  function ToLower(s: string): (r: string)
    ensures |r| == |s|
    ensures forall i :: 0 <= i < |s| ==> r[i] == LowerChar(s[i])
  {
    seq(|s|, i requires 0 <= i < |s| => LowerChar(s[i]))
  }

  /** Lower-casing twice is lower-casing once. */
  lemma ToLowerIdempotent(s: string)
    ensures ToLower(ToLower(s)) == ToLower(s)
  {
    forall i | 0 <= i < |s|
      ensures ToLower(ToLower(s))[i] == ToLower(s)[i]
    {
      assert ToLower(s)[i] == LowerChar(s[i]);
      assert !('A' <= LowerChar(s[i]) <= 'Z');
    }
  }

  /** The characters `String.prototype.trim` strips: ECMAScript WhiteSpace and
      LineTerminator code points. */
  predicate IsJsSpace(c: char) {
    || c == '\t' || c == '\n' || c == '\U{000B}' || c == '\U{000C}' || c == '\r'
    || c == ' ' || c == '\U{00A0}' || c == '\U{1680}'
    || ('\U{2000}' <= c <= '\U{200A}')
    || c == '\U{2028}' || c == '\U{2029}' || c == '\U{202F}' || c == '\U{205F}'
    || c == '\U{3000}' || c == '\U{FEFF}'
  }

  /** Every character of `s` is white space (the empty string included). */
  predicate IsBlank(s: string) {
    forall i :: 0 <= i < |s| ==> IsJsSpace(s[i])
  }

  /** The end of the white space that starts at `i`. */
  function LeadingEnd(s: string, i: nat): (k: nat)
    requires i <= |s|
    ensures i <= k <= |s|
    ensures forall j :: i <= j < k ==> IsJsSpace(s[j])
    ensures k == |s| || !IsJsSpace(s[k])
    decreases |s| - i
  {
    if i < |s| && IsJsSpace(s[i]) then LeadingEnd(s, i + 1) else i
  }

  /** The start of the white space that ends at `j`. */
  function TrailingStart(s: string, j: nat): (k: nat)
    requires j <= |s|
    ensures k <= j
    ensures forall m :: k <= m < j ==> IsJsSpace(s[m])
    ensures k == 0 || !IsJsSpace(s[k - 1])
  {
    if j > 0 && IsJsSpace(s[j - 1]) then TrailingStart(s, j - 1) else j
  }

  /** `s.trim()`: the text between the leading and the trailing white space. */
  function Trim(s: string): (r: string)
    ensures r == [] || (!IsJsSpace(r[0]) && !IsJsSpace(r[|r| - 1]))
  {
    var t := s[LeadingEnd(s, 0)..];
    t[..TrailingStart(t, |t|)]
  }

  /** `!s.trim()` holds exactly when `s` is empty or white space only. */
  lemma TrimEmptyIffBlank(s: string)
    ensures Trim(s) == "" <==> IsBlank(s)
  {
    var k := LeadingEnd(s, 0);
    var t := s[k..];
    var e := TrailingStart(t, |t|);
    if IsBlank(s) {
      assert k == |s|;
    } else {
      assert k < |s| && t[0] == s[k];
    }
  }

  /** `!s.trim()`, evaluated: true exactly for a blank string. */
  method TrimmedIsEmpty(s: string) returns (b: bool)
    ensures b <==> IsBlank(s)
  {
    TrimEmptyIffBlank(s);
    b := Trim(s) == "";
  }
}
