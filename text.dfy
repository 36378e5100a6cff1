/**
 The two string operations of the wheel session: trimming of the typed
 option (JavaScript's `String.prototype.trim`, used by `addOption`) and the
 fixed-length shortening of a segment label done before it is drawn.

 Strings are sequences of Unicode scalar values (`char`).
 */
module Text {

  /** The characters `trim` removes: the ECMAScript WhiteSpace code points
      (TAB, VT, FF, ZWNBSP and the space separators of category Zs) and the
      LineTerminator code points (LF, CR, LS, PS). */
  predicate IsTrimSpace(c: char) {
    || c == '\t' || c == '\n' || c == '\U{000B}' || c == '\U{000C}' || c == '\r'
    || c == ' ' || c == '\U{00A0}' || c == '\U{1680}'
    || ('\U{2000}' <= c <= '\U{200A}')
    || c == '\U{2028}' || c == '\U{2029}' || c == '\U{202F}' || c == '\U{205F}'
    || c == '\U{3000}' || c == '\U{FEFF}'
  }

  /** Every character of `s[lo..hi]` is trim space. */
  predicate AllSpace(s: string, lo: nat, hi: nat)
    requires lo <= hi <= |s|
  {
    forall k :: lo <= k < hi ==> IsTrimSpace(s[k])
  }

  /** The index of the first character at or after `i` that is not trim
      space, or `|s|` when there is none. */
  function ContentStart(s: string, i: nat): (k: nat)
    requires i <= |s|
    ensures i <= k <= |s| && AllSpace(s, i, k)
    ensures k < |s| ==> !IsTrimSpace(s[k])
    decreases |s| - i
  {
    if i < |s| && IsTrimSpace(s[i]) then ContentStart(s, i + 1) else i
  }

  /** The index just past the last character before `j`, and not before
      `lo`, that is not trim space, or `lo` when there is none. */
  function ContentEnd(s: string, lo: nat, j: nat): (k: nat)
    requires lo <= j <= |s|
    ensures lo <= k <= j && AllSpace(s, k, j)
    ensures k > lo ==> !IsTrimSpace(s[k - 1])
    decreases j
  {
    if j > lo && IsTrimSpace(s[j - 1]) then ContentEnd(s, lo, j - 1) else j
  }

  /** `s.trim()`: what lies between the first and the last character that
      is not trim space. Neither end of the result is trim space, and it is
      empty exactly when `s` is made of trim space alone. */
  function Trim(s: string): (r: string)
    ensures |r| <= |s|
    ensures r != [] ==> !IsTrimSpace(r[0]) && !IsTrimSpace(r[|r| - 1])
    ensures r == [] <==> AllSpace(s, 0, |s|)
  {
    var a := ContentStart(s, 0);
    var b := ContentEnd(s, a, |s|);
    s[a..b]
  }

  /** Reference definition of `trim`: whenever `s[i..j]` is framed by trim
      space on both sides and does not itself begin or end with it, it is
      the trimmed string. */
  lemma TrimIsInfix(s: string, i: nat, j: nat)
    requires i <= j <= |s|
    requires AllSpace(s, 0, i) && AllSpace(s, j, |s|)
    requires i < j ==> !IsTrimSpace(s[i]) && !IsTrimSpace(s[j - 1])
    ensures Trim(s) == s[i..j]
  {
  }

  /** Trimming a trimmed string changes nothing. */
  lemma TrimIdempotent(s: string)
    ensures Trim(Trim(s)) == Trim(s)
  {
    var r := Trim(s);
    TrimIsInfix(r, 0, |r|);
    assert r[0..|r|] == r;
  }

  /** The label drawn in a segment: at most 10 characters are shown as they
      are; a longer option is cut to its first 8 characters and "..." is
      appended. */
  function ShortLabel(option: string): (shown: string)
    ensures |shown| <= 11
    ensures |option| <= 10 ==> shown == option
    ensures |option| > 10 ==> |shown| == 11
    ensures |option| > 11 ==> |shown| < |option|
    ensures |option| > 10 ==> shown[..8] == option[..8] && shown[8..] == "..."
  {
    if |option| > 10 then option[..8] + "..." else option
  }

  /** An option of exactly 11 characters is not made shorter: its last three
      characters are replaced by "...". */
  lemma ShortLabelElevenKeepsLength(option: string)
    requires |option| == 11
    ensures |ShortLabel(option)| == |option|
    ensures ShortLabel(option) == option <==> option[8..] == "..."
  {
    var shown := ShortLabel(option);
    if option[8..] == "..." {
      assert option == option[..8] + option[8..];
    }
    if shown == option {
      assert option[8..] == shown[8..];
    }
  }

  /** Shortening a label that has already been shortened changes nothing. */
  lemma ShortLabelIdempotent(option: string)
    ensures ShortLabel(ShortLabel(option)) == ShortLabel(option)
  {
    var shown := ShortLabel(option);
    if |option| > 10 {
      assert shown[..8] + "..." == shown;
    }
  }

  /** Each shown label agrees with its option on the first
      min(8, length) characters. */
  lemma ShortLabelKeepsPrefix(option: string, k: nat)
    requires k < |option| && k < 8
    ensures k < |ShortLabel(option)| && ShortLabel(option)[k] == option[k]
  {
    if |option| > 10 {
      assert ShortLabel(option)[..8][k] == option[..8][k];
    }
  }
}
