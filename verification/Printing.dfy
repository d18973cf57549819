/** How texts that the SDK prints are read back by the scanner, piece by piece. */
module Printing {
  import opened Basics
  import opened Scanner
  import opened ScannerFacts

  /** A text that may stand between quotes as it is: section 7 of RFC 8259, nothing left to escape. */
  ghost predicate Clean(text: string) {
    StringEnd(text + "\"", |text| + 1, 0) == Some(|text|)
  }

  ghost predicate Plain(text: string) {
    forall k :: 0 <= k < |text| ==> text[k] >= ' ' && text[k] != '"' && text[k] != '\\'
  }

  lemma {:induction false} PlainStringEnd(text: string, i: nat)
    requires Plain(text) && i <= |text|
    ensures StringEnd(text + "\"", |text| + 1, i) == Some(|text|)
    decreases |text| - i
  {
    if i < |text| {
      assert (text + "\"")[i] == text[i];
      PlainStringEnd(text, i + 1);
    }
  }

  lemma PlainIsClean(text: string)
    requires Plain(text)
    ensures Clean(text)
  {
    PlainStringEnd(text, 0);
  }

  lemma AtMoved(s: string, p: int, piece: string)
    requires At(s, p, piece)
    ensures Moved(piece, 0, |piece|, s, p) && Moved(s, p, p + |piece|, piece, -p)
  {
    forall k | 0 <= k < |piece| ensures piece[k] == s[k + p] {
      AtChar(s, p, piece, k);
    }
    forall x | p <= x < p + |piece| ensures s[x] == piece[x + -p] {
      AtChar(s, p, piece, x - p);
    }
  }

  lemma StringEndIsQuote(s: string, hi: nat, p: nat)
    requires p <= hi <= |s| && StringEnd(s, hi, p).Some?
    ensures At(s, StringEnd(s, hi, p).value, "\"")
  {
  }

  /** A clean text followed by a quote ends the string there ... */
  lemma StringAt(s: string, hi: nat, p: nat, text: string)
    requires Clean(text) && hi <= |s| && p + |text| < hi
    requires At(s, p, text) && s[p + |text|] == '"'
    ensures StringEnd(s, hi, p) == Some(p + |text|)
  {
    var t := text + "\"";
    AtJoin(s, p, text, "\"");
    AtMoved(s, p, t);
    StringMoves(Copy(t, |t|, 0, |t|, s, hi, p), 0);
  }

  /** ... and only a clean text can. */
  lemma StringAtIsClean(s: string, hi: nat, p: nat, text: string)
    requires hi <= |s| && p <= hi && At(s, p, text)
    requires StringEnd(s, hi, p) == Some(p + |text|)
    ensures Clean(text)
  {
    hide StringEnd, Moved;
    var t := text + "\"";
    StringEndIsQuote(s, hi, p);
    AtJoin(s, p, text, "\"");
    AtMoved(s, p, t);
    var d: int := p;
    StringMoves(Copy(s, hi, p, p + |t|, t, |t|, -d), p);
  }

  lemma {:induction false} PrimEndAt(s: string, hi: nat, i: nat, e: nat)
    requires i <= e <= hi <= |s|
    requires forall x :: i <= x < e ==> IsPrimChar(s[x])
    requires e < hi ==> !IsPrimChar(s[e])
    ensures PrimEnd(s, hi, i) == e
    decreases e - i
  {
    if i < e {
      PrimEndAt(s, hi, i + 1, e);
    }
  }

  ghost predicate AllPrim(text: string) {
    text != [] && forall k :: 0 <= k < |text| ==> IsPrimChar(text[k])
  }

  /** A primitive that stands before a delimiter is read as such. */
  lemma PrimAt(s: string, hi: nat, p: nat, text: string)
    requires AllPrim(text) && hi <= |s| && At(s, p, text) && p + |text| < hi && !IsPrimChar(s[p + |text|])
    ensures Value(s, hi, p) == Ok(Prim(p, p + |text|), p + |text|)
  {
    forall x | p <= x < p + |text| ensures IsPrimChar(s[x]) {
      AtChar(s, p, text, x - p);
    }
    AtChar(s, p, text, 0);
    PrimEndAt(s, hi, p, p + |text|);
  }

  /** A pair: the quoted key, a colon, and what stands at the value's place. */
  lemma MemberAt(s: string, hi: nat, p: nat, key: string)
    requires Clean(key) && hi <= |s| && p + |key| + 3 <= hi && At(s, p, "\"" + key + "\":")
    requires var q := p + |key| + 3; q < hi ==> !IsBlank(s[q])
    ensures s[p] == '"'
    ensures var q := p + |key| + 3;
            var r := Member(s, hi, p);
            if Value(s, hi, q).Ok?
            then r == Ok(Pair(Span(p + 1, p + 1 + |key|), Value(s, hi, q).v), Value(s, hi, q).next)
            else r.Fail?
  {
    hide Value, StringEnd;
    var text := "\"" + key + "\":";
    AtChar(s, p, text, 0);
    AtChar(s, p, text, |key| + 1);
    AtChar(s, p, text, |key| + 2);
    AtSplit(s, p, "\"" + key, "\":");
    AtSplit(s, p, "\"", key);
    StringAt(s, hi, p + 1, key);
    BlanksEnd(s, hi, p + |key| + 2);
    BlanksEnd(s, hi, p + |key| + 3);
    MemberStep(s, hi, p);
  }

  /** The key of a pair that was read there is the text that stands there. */
  lemma KeyAt(s: string, p: nat, key: string)
    requires At(s, p, "\"" + key + "\":")
    ensures p + 1 + |key| <= |s| && Text(s, Span(p + 1, p + 1 + |key|)) == key
  {
    AtSplit(s, p, "\"" + key, "\":");
    AtSplit(s, p, "\"", key);
  }

  /** An object of one pair. */
  lemma ObjectOfOne(s: string, hi: nat, p: nat, m: Pair, k: nat)
    requires p + 1 < hi <= |s| && s[p] == '{' && s[p + 1] == '"'
    requires Member(s, hi, p + 1) == Ok(m, k) && k < hi && s[k] == '}'
    ensures Value(s, hi, p) == Ok(Obj(p, k + 1, [m]), k + 1)
  {
    hide Value, Member, Members;
    BlanksEnd(s, hi, p + 1);
    BlanksEnd(s, hi, k);
    MembersStep(s, hi, p + 1);
    ValueStep(s, hi, p);
  }

  /** An object whose first pair is followed by others. */
  lemma ObjectOfMore(s: string, hi: nat, p: nat, m: Pair, k: nat)
    requires p + 1 < hi <= |s| && s[p] == '{' && s[p + 1] == '"'
    requires Member(s, hi, p + 1) == Ok(m, k) && k + 1 < hi && s[k] == ',' && s[k + 1] == '"'
    ensures var rest := Members(s, hi, k + 1);
            if rest.Ok? then Value(s, hi, p) == Ok(Obj(p, rest.next, [m] + rest.v), rest.next)
            else Value(s, hi, p).Fail?
  {
    hide Value, Member, Members;
    BlanksEnd(s, hi, p + 1);
    BlanksEnd(s, hi, k);
    BlanksEnd(s, hi, k + 1);
    MembersStep(s, hi, p + 1);
    ValueStep(s, hi, p);
  }

  /** What is read first in an object is its first pair, and what is read after a comma its second. */
  lemma ObjectPairs(s: string, hi: nat, p: nat)
    requires p + 1 < hi <= |s| && s[p] == '{' && s[p + 1] == '"' && Value(s, hi, p).Ok?
    ensures var v, m := Value(s, hi, p).v, Member(s, hi, p + 1);
            && v.Obj? && m.Ok? && v.pairs != [] && v.pairs[0] == m.v
            && (|v.pairs| > 1 ==>
                  var j := SkipBlanks(s, hi, m.next);
                  && j < hi && s[j] == ','
                  && Member(s, hi, SkipBlanks(s, hi, j + 1)).Ok?
                  && v.pairs[1] == Member(s, hi, SkipBlanks(s, hi, j + 1)).v)
  {
    hide Value, Member, Members;
    BlanksEnd(s, hi, p + 1);
    ValueStep(s, hi, p);
    MembersStep(s, hi, p + 1);
    var m := Member(s, hi, p + 1);
    var j := SkipBlanks(s, hi, m.next);
    if s[j] == ',' {
      MembersStep(s, hi, SkipBlanks(s, hi, j + 1));
    }
  }

  /** A quoted text is read as that text exactly when it is clean. */
  lemma QuotedReads(s: string, hi: nat, q: nat, text: string)
    requires hi <= |s| && q + |text| + 1 < hi
    requires s[q] == '"' && At(s, q + 1, text) && s[q + 1 + |text|] == '"'
    ensures var r := Value(s, hi, q);
            if Clean(text) then r == Ok(Str(q + 1, q + 1 + |text|), q + 2 + |text|)
            else r.Ok? ==> r.v.Str? && Text(s, r.v.Extent()) != text
  {
    hide StringEnd, Value, Clean;
    ValueStep(s, hi, q);
    if Clean(text) {
      StringAt(s, hi, q + 1, text);
    } else if StringEnd(s, hi, q + 1).Some? {
      var e := StringEnd(s, hi, q + 1).value;
      if Text(s, Span(q + 1, e)) == text {
        StringAtIsClean(s, hi, q + 1, text);
      }
    }
  }

  /** A text that is one JSON value other than a string, from its first character to its last. */
  ghost predicate IsJson(text: string) {
    var r := Value(text, |text|, 0);
    r.Ok? && r.next == |text| && !r.v.Str?
  }

  lemma ValueNotBlank(s: string, hi: nat, i: nat)
    requires i <= hi <= |s| && Value(s, hi, i).Ok?
    ensures i < hi && !IsBlank(s[i])
    ensures Value(s, hi, i).v.Prim? ==> IsPrimChar(s[i]) && PrimEnd(s, hi, i) == Value(s, hi, i).next
  {
  }

  lemma {:induction false} PrimChars(s: string, hi: nat, i: nat, x: nat)
    requires i <= hi <= |s| && i <= x < PrimEnd(s, hi, i)
    ensures IsPrimChar(s[x])
    decreases hi - i
  {
    if i < x {
      PrimChars(s, hi, i + 1, x);
    }
  }

  /** Such a text is read back where a delimiter follows it ... */
  lemma RawReads(s: string, hi: nat, q: nat, text: string)
    requires IsJson(text) && hi <= |s| && q + |text| < hi && At(s, q, text)
    requires s[q + |text|] == ',' || s[q + |text|] == '}'
    ensures SkipBlanks(s, hi, q) == q
    ensures var r := Value(s, hi, q);
            r.Ok? && r.next == q + |text| && !r.v.Str? && r.v.Extent() == Span(q, q + |text|)
  {
    hide Value, Moved, PrimEnd;
    AtMoved(s, q, text);
    ValueNotBlank(text, |text|, 0);
    AtChar(s, q, text, 0);
    BlanksEnd(s, hi, q);
    ValueExtent(text, |text|, 0);
    if Value(text, |text|, 0).v.Prim? {
      forall k | 0 <= k < |text| ensures IsPrimChar(text[k]) {
        PrimChars(text, |text|, 0, k);
      }
      PrimAt(s, hi, q, text);
    } else {
      ValueMoves(Copy(text, |text|, 0, |text|, s, hi, q), 0);
    }
  }

  /** ... and only such a text. */
  lemma RawReadIsJson(s: string, hi: nat, q: nat, text: string)
    requires hi <= |s| && q <= hi && At(s, q, text)
    requires var r := Value(s, hi, SkipBlanks(s, hi, q)); r.Ok? && !r.v.Str? && Text(s, r.v.Extent()) == text
    ensures IsJson(text)
  {
    hide Value, Moved, SkipBlanks;
    var i := SkipBlanks(s, hi, q);
    var r := Value(s, hi, i);
    ValueExtent(s, hi, i);
    ValueNotBlank(s, hi, i);
    assert text[0] == s[i];
    AtChar(s, q, text, 0);
    BlanksEnd(s, hi, q);
    AtMoved(s, q, text);
    var d: int := q;
    var c := Copy(s, hi, q, q + |text|, text, |text|, -d);
    ValueMoves(c, q);
  }
}
