/**
 * String.prototype.trim of ECMAScript (ECMA-262, section 22.1.3.32), which the
 * title lookup applies to the standard output of yt-dlp.
 */
module JsText {

  /** The WhiteSpace and LineTerminator code points of ECMA-262 (sections 12.2 and 12.3). */
  predicate IsWhitespace(c: char) {
    || c == '\t' || c == '\n' || c == '\U{000B}' || c == '\U{000C}' || c == '\r'
    || c == ' ' || c == '\U{00A0}' || c == '\U{1680}'
    || ('\U{2000}' <= c <= '\U{200A}')
    || c == '\U{2028}' || c == '\U{2029}' || c == '\U{202F}' || c == '\U{205F}'
    || c == '\U{3000}' || c == '\U{FEFF}'
  }

  predicate AllWhitespace(s: string) {
    forall i :: 0 <= i < |s| ==> IsWhitespace(s[i])
  }

  /** Every character of `s` from index `lo` up to (not including) `hi` is white space. */
  predicate WhitespaceBetween(s: string, lo: int, hi: int)
    requires 0 <= lo <= hi <= |s|
  {
    forall i :: lo <= i < hi ==> IsWhitespace(s[i])
  }

  /** Neither end of `s` is white space. */
  predicate Trimmed(s: string) {
    s == [] || (!IsWhitespace(s[0]) && !IsWhitespace(s[|s| - 1]))
  }

  /** `r` sits at offset `k` of `s` with nothing but white space before and after it. */
  ghost predicate TrimAt(s: string, r: string, k: int) {
    && 0 <= k <= |s| - |r|
    && s[k..k + |r|] == r
    && WhitespaceBetween(s, 0, k)
    && WhitespaceBetween(s, k + |r|, |s|)
  }

  /**
   * The declarative meaning of trimming: `r` is a piece of `s` with nothing but
   * white space before and after it, and neither end of `r` is white space.
   */
  ghost predicate IsTrimOf(s: string, r: string) {
    Trimmed(r) && exists k :: TrimAt(s, r, k)
  }

  /**
   * The first index at or after `i` that is not white space (|s| when there is none).
   */
  function SkipLeading(s: string, i: nat): (k: nat)
    requires i <= |s|
    ensures i <= k <= |s|
    ensures WhitespaceBetween(s, i, k)
    ensures k == |s| || !IsWhitespace(s[k])
    decreases |s| - i
  {
    if i < |s| && IsWhitespace(s[i]) then SkipLeading(s, i + 1) else i
  }

  /**
   * Going down from `e`, no lower than `lo`: the end of the last character
   * that is not white space (`lo` when there is none).
   */
  function SkipTrailing(s: string, lo: nat, e: nat): (j: nat)
    requires lo <= e <= |s|
    ensures lo <= j <= e
    ensures WhitespaceBetween(s, j, e)
    ensures j == lo || !IsWhitespace(s[j - 1])
    decreases e
  {
    if lo < e && IsWhitespace(s[e - 1]) then SkipTrailing(s, lo, e - 1) else e
  }

  /** String.prototype.trim: the text between the leading and the trailing white space. */
  function Trim(s: string): (r: string)
    ensures IsTrimOf(s, r)
  {
    var k := SkipLeading(s, 0);
    var e := SkipTrailing(s, k, |s|);
    var r := s[k..e];
    assert TrimAt(s, r, k);
    r
  }

  /** A trim is empty exactly when the whole text is white space. */
  lemma TrimEmptyIffBlank(s: string, r: string, k: int)
    requires TrimAt(s, r, k) && Trimmed(r)
    ensures r == [] <==> WhitespaceBetween(s, 0, |s|)
  {
    if r != [] {
      assert s[k] == r[0];
    }
  }

  /** Two trims of one text agree: the white space before and after a trim is fixed by the text. */
  lemma IsTrimOfUnique(s: string, r1: string, r2: string)
    requires IsTrimOf(s, r1) && IsTrimOf(s, r2)
    ensures r1 == r2
  {
    var k1 :| TrimAt(s, r1, k1);
    var k2 :| TrimAt(s, r2, k2);
    TrimEmptyIffBlank(s, r1, k1);
    TrimEmptyIffBlank(s, r2, k2);
    if r1 != [] {
      var e1, e2 := k1 + |r1|, k2 + |r2|;
      assert s[k1] == r1[0] && s[e1 - 1] == r1[|r1| - 1];
      assert s[k2] == r2[0] && s[e2 - 1] == r2[|r2| - 1];
      assert k1 == k2 && e1 == e2;
    }
  }

  /** Trim is the only function meeting IsTrimOf. */
  lemma TrimUnique(s: string, r: string)
    requires IsTrimOf(s, r)
    ensures r == Trim(s)
  {
    IsTrimOfUnique(s, r, Trim(s));
  }

  /** Trimming a text padded with white space on both sides gives back the text. */
  lemma TrimPadded(p: string, r: string, q: string)
    requires AllWhitespace(p) && Trimmed(r) && AllWhitespace(q)
    ensures Trim(p + r + q) == r
  {
    var s := p + r + q;
    assert s[|p|..|p| + |r|] == r;
    assert TrimAt(s, r, |p|);
    TrimUnique(s, r);
  }

  /** Trimming twice is trimming once. */
  lemma TrimIdempotent(s: string)
    ensures Trim(Trim(s)) == Trim(s)
  {
    var r := Trim(s);
    assert [] + r + [] == r;
    TrimPadded([], r, []);
  }
}
