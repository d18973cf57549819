/**
 The token array that one parse leaves behind. The array belongs to the instance and every parse
 overwrites its front only, so an entry that a parse did not reach still holds an older token.
 */
module Tokens {
  import opened Basics
  import opened Scanner

  /** Positions are relative to the text that was parsed. */
  datatype Token = Token(kind: Kind, start: nat, end: nat)

  function Relative(x: nat, base: nat): nat {
    if x < base then 0 else x - base
  }

  function Head(t: Tree, base: nat): Token {
    Token(t.Kind(), Relative(t.start, base), Relative(t.end, base))
  }

  /** The tokens of a value, outermost first, in document order. */
  function TokensOf(t: Tree, base: nat): (r: seq<Token>)
    decreases t
  {
    match t
    case Prim(_, _) => [Head(t, base)]
    case Str(_, _) => [Head(t, base)]
    case Arr(_, _, es) => [Head(t, base)] + ElementTokens(es, base)
    case Obj(_, _, ps) => [Head(t, base)] + PairTokens(ps, base)
  }

  function ElementTokens(es: seq<Tree>, base: nat): seq<Token>
    decreases es
  {
    if es == [] then [] else TokensOf(es[0], base) + ElementTokens(es[1..], base)
  }

  function TokensOfPair(p: Pair, base: nat): seq<Token>
    decreases p
  {
    [Token(String, Relative(p.key.start, base), Relative(p.key.end, base))] + TokensOf(p.value, base)
  }

  function PairTokens(ps: seq<Pair>, base: nat): seq<Token>
    decreases ps
  {
    if ps == [] then [] else TokensOfPair(ps[0], base) + PairTokens(ps[1..], base)
  }

  /** How many tokens a value takes. */
  function Count(t: Tree): nat {
    |TokensOf(t, 0)|
  }

  /** The document in s[lo..hi], when it parses and its tokens fit an array of `limit` tokens. */
  function Readable(s: string, lo: nat, hi: nat, limit: nat): (r: Option<Tree>)
    requires lo <= hi <= |s|
    ensures r.Some? ==> r == Document(s, lo, hi) && Count(r.value) <= limit
  {
    match Document(s, lo, hi)
    case None => None
    case Some(t) => if Count(t) <= limit then Some(t) else None
  }

  /** The token array after a parse that found `t` in the text that starts at `base`. */
  function Overwritten(tokens: seq<Token>, t: Tree, base: nat): seq<Token>
    requires Count(t) <= |tokens|
    ensures |Overwritten(tokens, t, base)| == |tokens|
  {
    CountIsLength(t, base);
    TokensOf(t, base) + tokens[Count(t)..]
  }

  lemma {:induction false} CountIsLength(t: Tree, base: nat)
    ensures |TokensOf(t, base)| == Count(t)
    decreases t
  {
    match t
    case Prim(_, _) =>
    case Str(_, _) =>
    case Arr(_, _, es) => ElementCountIsLength(es, base);
    case Obj(_, _, ps) => PairCountIsLength(ps, base);
  }

  lemma {:induction false} ElementCountIsLength(es: seq<Tree>, base: nat)
    ensures |ElementTokens(es, base)| == |ElementTokens(es, 0)|
    decreases es
  {
    if es != [] {
      CountIsLength(es[0], base);
      ElementCountIsLength(es[1..], base);
    }
  }

  lemma {:induction false} PairCountIsLength(ps: seq<Pair>, base: nat)
    ensures |PairTokens(ps, base)| == |PairTokens(ps, 0)|
    decreases ps
  {
    if ps != [] {
      assert ps[0].value < ps[0];
      CountIsLength(ps[0].value, base);
      PairCountIsLength(ps[1..], base);
    }
  }

  lemma HeadFirst(t: Tree, base: nat)
    ensures TokensOf(t, base) != [] && TokensOf(t, base)[0] == Head(t, base)
  {
  }

  lemma {:induction false} ElementFits(es: seq<Tree>, k: nat)
    requires k < |es|
    ensures Count(es[k]) + |es| - 1 <= |ElementTokens(es, 0)|
    decreases es
  {
    HeadFirst(es[0], 0);
    if k > 0 {
      ElementFits(es[1..], k - 1);
    } else if |es| > 1 {
      ElementFits(es[1..], 0);
      HeadFirst(es[1], 0);
    }
  }

  /** A part of an array takes fewer tokens than the array. */
  lemma ArrayPartFits(t: Tree, k: nat)
    requires t.Arr? && k < |t.elems|
    ensures Count(t.elems[k]) + |t.elems| <= Count(t)
  {
    ElementFits(t.elems, k);
  }

  /** So does the value of the first pair of an object. */
  lemma FirstValueFits(t: Tree)
    requires t.Obj? && t.pairs != []
    ensures Count(t.pairs[0].value) + 2 <= Count(t)
  {
    assert TokensOf(t, 0) == [Head(t, 0)] + (TokensOfPair(t.pairs[0], 0) + PairTokens(t.pairs[1..], 0));
  }

  /** The second token of a non-empty array is its first element. */
  lemma ArrayTokens(t: Tree, base: nat)
    requires t.Arr? && t.elems != []
    ensures |TokensOf(t, base)| > 1 && TokensOf(t, base)[1] == Head(t.elems[0], base)
  {
    HeadFirst(t.elems[0], base);
  }

  /** In a list that starts with a string the third token is the second element. */
  lemma StringThenMore(t: Tree, base: nat)
    requires t.Arr? && |t.elems| > 1 && t.elems[0].Str?
    ensures |TokensOf(t, base)| > 2 && TokensOf(t, base)[2] == Head(t.elems[1], base)
  {
    HeadFirst(t.elems[1], base);
    assert ElementTokens(t.elems, base) == [Head(t.elems[0], base)] + ElementTokens(t.elems[1..], base);
    assert ElementTokens(t.elems[1..], base)[0] == Head(t.elems[1], base);
  }

  /** The second and third tokens of a non-empty object are its first key and that key's value. */
  lemma ObjectTokens(t: Tree, base: nat)
    requires t.Obj? && t.pairs != []
    ensures var ts, p := TokensOf(t, base), t.pairs[0];
            && |ts| > 2
            && ts[1] == Token(String, Relative(p.key.start, base), Relative(p.key.end, base))
            && ts[2] == Head(p.value, base)
  {
    var p := t.pairs[0];
    HeadFirst(p.value, base);
    assert TokensOf(t, base) == [Head(t, base)] + (TokensOfPair(p, base) + PairTokens(t.pairs[1..], base));
    assert TokensOfPair(p, base)[1] == Head(p.value, base);
  }
}
