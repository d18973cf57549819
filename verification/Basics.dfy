/** Small shared vocabulary: optional values, half-open spans of a buffer, and C strings. */
module Basics {
  datatype Option<+T> = None | Some(value: T)

  /** The half-open range [start, end) of a buffer. */
  datatype Span = Span(start: nat, end: nat)

  const NUL: char := '\0'

  /** The characters of a span; empty when the span does not lie in the buffer. */
  function Text(s: string, p: Span): string {
    if p.start <= p.end <= |s| then s[p.start..p.end] else ""
  }

  /** The buffer after `text` was written into it at `at`. */
  function Overlaid(buffer: string, at: nat, text: string): (r: string)
    requires at + |text| <= |buffer|
    ensures |r| == |buffer|
  {
    buffer[..at] + text + buffer[at + |text|..]
  }

  /** The C string that starts at `p`: the characters before the first NUL. */
  function CString(s: string, p: nat): string
    requires p <= |s|
    decreases |s| - p
  {
    if p == |s| || s[p] == NUL then "" else [s[p]] + CString(s, p + 1)
  }

  ghost predicate NoNul(s: string, lo: nat, hi: nat) {
    lo <= hi <= |s| && forall x :: lo <= x < hi ==> s[x] != NUL
  }

  /** A NUL written after a NUL-free text makes a C string of exactly that text. */
  lemma {:induction false} CStringIsText(s: string, p: nat, e: nat)
    requires p <= e < |s| && s[e] == NUL && NoNul(s, p, e)
    ensures CString(s, p) == s[p..e]
    decreases e - p
  {
    if p < e {
      CStringIsText(s, p + 1, e);
      assert s[p..e] == [s[p]] + s[p + 1..e];
    }
  }

  /** s[lo..hi] and t[lo+d..hi+d] hold the same characters. */
  ghost predicate Moved(s: string, lo: int, hi: int, t: string, d: int) {
    && 0 <= lo <= hi <= |s|
    && 0 <= lo + d && hi + d <= |t|
    && forall x :: lo <= x < hi ==> s[x] == t[x + d]
  }

  /** The text `piece` stands in `s` at position `p`. */
  ghost predicate At(s: string, p: int, piece: string) {
    0 <= p && p + |piece| <= |s| && s[p..p + |piece|] == piece
  }

  lemma AtChar(s: string, p: int, piece: string, k: int)
    requires At(s, p, piece) && 0 <= k < |piece|
    ensures s[p + k] == piece[k]
  {
    assert s[p..p + |piece|][k] == s[p + k];
  }

  lemma AtIsText(s: string, p: nat, piece: string)
    requires At(s, p, piece)
    ensures Text(s, Span(p, p + |piece|)) == piece
  {
  }

  lemma AtSplit(s: string, p: int, a: string, b: string)
    requires At(s, p, a + b)
    ensures At(s, p, a) && At(s, p + |a|, b)
  {
    assert s[p..p + |a|] == s[p..p + |a + b|][..|a|];
    assert s[p + |a|..p + |a| + |b|] == s[p..p + |a + b|][|a|..];
  }

  lemma AtJoin(s: string, p: int, a: string, b: string)
    requires At(s, p, a) && At(s, p + |a|, b)
    ensures At(s, p, a + b)
  {
    assert s[p..p + |a + b|] == s[p..p + |a|] + s[p + |a|..p + |a| + |b|];
  }
}
