/**
 What the scanner guarantees, whatever the text: spans nest and keep their order, every part of a
 parsed value can be parsed again on its own, a parsed value holds no NUL, and the outcome depends
 only on the scanned characters, wherever they stand.
 */
module ScannerFacts {
  import opened Basics
  import opened Scanner

  /** Where the scanner stood when it read `v`: a string starts at its quote. */
  function Opening(v: Tree): int {
    if v.Str? then v.start - 1 else v.start
  }

  function Closing(v: Tree): int {
    if v.Str? then v.end + 1 else v.end
  }

  lemma ValueExtent(s: string, hi: nat, i: nat)
    requires i <= hi <= |s|
    requires Value(s, hi, i).Ok?
    ensures var r := Value(s, hi, i); Opening(r.v) == i && Closing(r.v) == r.next
  {
  }

  // ---- One step of each scanner, for proofs that hide the definitions. ----

  lemma ValueStep(s: string, hi: nat, i: nat)
    requires i < hi <= |s|
    ensures var r, j := Value(s, hi, i), SkipBlanks(s, hi, i + 1);
            if s[i] == '"' then
              var e := StringEnd(s, hi, i + 1);
              if e.Some? then r == Ok(Str(i + 1, e.value), e.value + 1) else r.Fail?
            else if s[i] == '[' then
              if j < hi && s[j] == ']' then r == Ok(Arr(i, j + 1, []), j + 1)
              else
                var es := Elements(s, hi, j);
                if es.Ok? then r == Ok(Arr(i, es.next, es.v), es.next) else r.Fail?
            else if s[i] == '{' then
              if j < hi && s[j] == '}' then r == Ok(Obj(i, j + 1, []), j + 1)
              else
                var ps := Members(s, hi, j);
                if ps.Ok? then r == Ok(Obj(i, ps.next, ps.v), ps.next) else r.Fail?
            else
              var e := PrimEnd(s, hi, i);
              if e == i then r.Fail? else r == Ok(Prim(i, e), e)
  {
  }

  lemma ElementsStep(s: string, hi: nat, i: nat)
    requires i <= hi <= |s|
    ensures var r, v := Elements(s, hi, i), Value(s, hi, i);
            if v.Fail? then r.Fail?
            else
              var j := SkipBlanks(s, hi, v.next);
              if j < hi && s[j] == ']' then r == Ok([v.v], j + 1)
              else if j < hi && s[j] == ',' then
                var rest := Elements(s, hi, SkipBlanks(s, hi, j + 1));
                if rest.Ok? then r == Ok([v.v] + rest.v, rest.next) else r.Fail?
              else r.Fail?
  {
  }

  lemma MemberStep(s: string, hi: nat, i: nat)
    requires i < hi <= |s|
    ensures var r := Member(s, hi, i);
            if s[i] != '"' || StringEnd(s, hi, i + 1).None? then r.Fail?
            else
              var e := StringEnd(s, hi, i + 1).value;
              var j := SkipBlanks(s, hi, e + 1);
              if j == hi || s[j] != ':' then r.Fail?
              else
                var v := Value(s, hi, SkipBlanks(s, hi, j + 1));
                if v.Ok? then r == Ok(Pair(Span(i + 1, e), v.v), v.next) else r.Fail?
  {
  }

  lemma MembersStep(s: string, hi: nat, i: nat)
    requires i <= hi <= |s|
    ensures var r, p := Members(s, hi, i), Member(s, hi, i);
            if p.Fail? then r.Fail?
            else
              var j := SkipBlanks(s, hi, p.next);
              if j < hi && s[j] == '}' then r == Ok([p.v], j + 1)
              else if j < hi && s[j] == ',' then
                var rest := Members(s, hi, SkipBlanks(s, hi, j + 1));
                if rest.Ok? then r == Ok([p.v] + rest.v, rest.next) else r.Fail?
              else r.Fail?
  {
  }

  // ---- The outcome depends only on the scanned characters. ----

  /** A part s[lo..m] of a text scanned up to `hi`, and its copy, `d` further on, in a text `t` scanned up to `end`. */
  datatype Copy = Copy(s: string, hi: nat, lo: nat, m: nat, t: string, end: nat, d: int) {
    ghost predicate Valid() {
      lo <= m <= hi <= |s| && 0 <= lo + d && m + d <= end <= |t| && Moved(s, lo, m, t, d)
    }
  }

  lemma CharCopied(c: Copy, i: nat)
    requires c.Valid() && c.lo <= i < c.m
    ensures i + c.d < c.end && c.s[i] == c.t[i + c.d]
  {
  }

  lemma {:induction false} BlanksMove(c: Copy, i: nat)
    requires c.Valid() && c.lo <= i <= c.hi
    requires SkipBlanks(c.s, c.hi, i) < c.m
    ensures SkipBlanks(c.t, c.end, i + c.d) == SkipBlanks(c.s, c.hi, i) + c.d
    decreases c.hi - i
  {
    assert c.s[i] == c.t[i + c.d];
    if IsBlank(c.s[i]) {
      BlanksMove(c, i + 1);
    }
  }

  lemma EscapeMoves(c: Copy, i: nat)
    requires c.Valid() && c.lo <= i <= c.hi
    requires EscapeLength(c.s, c.hi, i) != 0 && i + EscapeLength(c.s, c.hi, i) <= c.m
    ensures EscapeLength(c.t, c.end, i + c.d) == EscapeLength(c.s, c.hi, i)
  {
    assert c.s[i] == c.t[i + c.d] && c.s[i + 1] == c.t[i + 1 + c.d];
    if EscapeLength(c.s, c.hi, i) == 6 {
      assert c.s[i + 2] == c.t[i + 2 + c.d] && c.s[i + 3] == c.t[i + 3 + c.d];
      assert c.s[i + 4] == c.t[i + 4 + c.d] && c.s[i + 5] == c.t[i + 5 + c.d];
    }
  }

  lemma {:induction false} StringMoves(c: Copy, i: nat)
    requires c.Valid() && c.lo <= i <= c.hi
    requires StringEnd(c.s, c.hi, i).Some? && StringEnd(c.s, c.hi, i).value < c.m
    ensures StringEnd(c.t, c.end, i + c.d) == Some(StringEnd(c.s, c.hi, i).value + c.d)
    decreases c.hi - i
  {
    assert c.s[i] == c.t[i + c.d];
    if c.s[i] == '"' {
    } else if c.s[i] == '\\' {
      EscapeMoves(c, i);
      StringMoves(c, i + EscapeLength(c.s, c.hi, i));
    } else {
      StringMoves(c, i + 1);
    }
  }

  /** A primitive needs one more character, or the end of the text, to know where it stops. */
  lemma {:induction false} PrimMoves(c: Copy, i: nat)
    requires c.Valid() && c.lo <= i <= c.m
    requires PrimEnd(c.s, c.hi, i) < c.m || (PrimEnd(c.s, c.hi, i) == c.m && c.m + c.d == c.end)
    ensures PrimEnd(c.t, c.end, i + c.d) == PrimEnd(c.s, c.hi, i) + c.d
    decreases c.hi - i
  {
    if i < c.m {
      assert c.s[i] == c.t[i + c.d];
      if IsPrimChar(c.s[i]) {
        PrimMoves(c, i + 1);
      }
    }
  }

  /** `u` is a value like `v`, `d` further on; the same value when d is 0. */
  ghost predicate Alike(v: Tree, u: Tree, d: int) {
    u.Kind() == v.Kind() && u.start == v.start + d && u.end == v.end + d && (d == 0 ==> u == v)
  }

  ghost predicate ValueIn(c: Copy, i: nat)
    requires c.Valid()
  {
    c.lo <= i <= c.hi && var r := Value(c.s, c.hi, i);
    r.Ok? && r.next <= c.m && (r.v.Prim? && r.next == c.m ==> c.m + c.d == c.end)
  }

  ghost predicate ValueCopied(c: Copy, i: nat)
    requires c.Valid() && c.lo <= i <= c.hi && i + c.d <= c.end
  {
    var r, q := Value(c.s, c.hi, i), Value(c.t, c.end, i + c.d);
    r.Ok? && q.Ok? && q.next == r.next + c.d && Alike(r.v, q.v, c.d)
  }

  ghost predicate ElementsIn(c: Copy, i: nat)
    requires c.Valid()
  {
    c.lo <= i <= c.hi && var r := Elements(c.s, c.hi, i); r.Ok? && r.next <= c.m
  }

  ghost predicate ElementsCopied(c: Copy, i: nat)
    requires c.Valid() && c.lo <= i <= c.hi && i + c.d <= c.end
  {
    var r, q := Elements(c.s, c.hi, i), Elements(c.t, c.end, i + c.d);
    r.Ok? && q.Ok? && q.next == r.next + c.d && (c.d == 0 ==> q == r)
  }

  ghost predicate MemberIn(c: Copy, i: nat)
    requires c.Valid()
  {
    c.lo <= i <= c.hi && var r := Member(c.s, c.hi, i);
    r.Ok? && r.next <= c.m && (r.v.value.Prim? && r.next == c.m ==> c.m + c.d == c.end)
  }

  ghost predicate MemberCopied(c: Copy, i: nat)
    requires c.Valid() && c.lo <= i <= c.hi && i + c.d <= c.end
  {
    var r, q := Member(c.s, c.hi, i), Member(c.t, c.end, i + c.d);
    && r.Ok? && q.Ok? && q.next == r.next + c.d
    && q.v.key.start == r.v.key.start + c.d && q.v.key.end == r.v.key.end + c.d
    && Alike(r.v.value, q.v.value, c.d)
  }

  ghost predicate MembersIn(c: Copy, i: nat)
    requires c.Valid()
  {
    c.lo <= i <= c.hi && var r := Members(c.s, c.hi, i); r.Ok? && r.next <= c.m
  }

  ghost predicate MembersCopied(c: Copy, i: nat)
    requires c.Valid() && c.lo <= i <= c.hi && i + c.d <= c.end
  {
    var r, q := Members(c.s, c.hi, i), Members(c.t, c.end, i + c.d);
    r.Ok? && q.Ok? && q.next == r.next + c.d && (c.d == 0 ==> q == r)
  }

  lemma LeafMoves(c: Copy, i: nat)
    requires c.Valid() && ValueIn(c, i) && c.s[i] != '[' && c.s[i] != '{'
    ensures i + c.d <= c.end && ValueCopied(c, i)
  {
    hide Value, Moved, StringEnd, PrimEnd;
    CharCopied(c, i);
    ValueStep(c.s, c.hi, i);
    ValueStep(c.t, c.end, i + c.d);
    if c.s[i] == '"' {
      StringMoves(c, i + 1);
    } else {
      PrimMoves(c, i);
    }
  }

  /** The copy of a value is read as a like value. */
  lemma {:induction false} ValueMoves(c: Copy, i: nat)
    requires c.Valid() && ValueIn(c, i)
    ensures i + c.d <= c.end && ValueCopied(c, i)
    decreases c.hi - i, 0
  {
    hide Value, Elements, Members, SkipBlanks, Moved, StringEnd, PrimEnd;
    CharCopied(c, i);
    if c.s[i] != '[' && c.s[i] != '{' {
      LeafMoves(c, i);
    } else {
      ValueStep(c.s, c.hi, i);
      ValueStep(c.t, c.end, i + c.d);
      var j := SkipBlanks(c.s, c.hi, i + 1);
      BlanksMove(c, i + 1);
      CharCopied(c, j);
      if c.s[i] == '[' && c.s[j] != ']' {
        ElementsMove(c, j);
      } else if c.s[i] == '{' && c.s[j] != '}' {
        MembersMove(c, j);
      }
    }
  }

  lemma {:induction false} ElementsMove(c: Copy, i: nat)
    requires c.Valid() && ElementsIn(c, i)
    ensures i + c.d <= c.end && ElementsCopied(c, i)
    decreases c.hi - i, 1
  {
    hide Value, Elements, SkipBlanks, Moved;
    ElementsStep(c.s, c.hi, i);
    ElementsStep(c.t, c.end, i + c.d);
    var k := Value(c.s, c.hi, i).next;
    var j := SkipBlanks(c.s, c.hi, k);
    ValueMoves(c, i);
    BlanksMove(c, k);
    CharCopied(c, j);
    if c.s[j] == ',' {
      BlanksMove(c, j + 1);
      ElementsMove(c, SkipBlanks(c.s, c.hi, j + 1));
    }
  }

  lemma {:induction false} MemberMoves(c: Copy, i: nat)
    requires c.Valid() && MemberIn(c, i)
    ensures i + c.d <= c.end && MemberCopied(c, i)
    decreases c.hi - i, 1
  {
    hide Value, Member, SkipBlanks, Moved, StringEnd;
    CharCopied(c, i);
    MemberStep(c.s, c.hi, i);
    MemberStep(c.t, c.end, i + c.d);
    StringMoves(c, i + 1);
    var e := StringEnd(c.s, c.hi, i + 1).value;
    var j := SkipBlanks(c.s, c.hi, e + 1);
    BlanksMove(c, e + 1);
    CharCopied(c, j);
    BlanksMove(c, j + 1);
    ValueMoves(c, SkipBlanks(c.s, c.hi, j + 1));
  }

  lemma {:induction false} MembersMove(c: Copy, i: nat)
    requires c.Valid() && MembersIn(c, i)
    ensures i + c.d <= c.end && MembersCopied(c, i)
    decreases c.hi - i, 2
  {
    hide Member, Members, SkipBlanks, Moved;
    MembersStep(c.s, c.hi, i);
    MembersStep(c.t, c.end, i + c.d);
    var k := Member(c.s, c.hi, i).next;
    var j := SkipBlanks(c.s, c.hi, k);
    MemberMoves(c, i);
    BlanksMove(c, k);
    CharCopied(c, j);
    if c.s[j] == ',' {
      BlanksMove(c, j + 1);
      MembersMove(c, SkipBlanks(c.s, c.hi, j + 1));
    }
  }

  // ---- Spans nest, and every part parses again on its own. ----

  /** `v` is what the scanner reads when it starts at v's opening. */
  ghost predicate Reads(s: string, hi: nat, v: Tree) {
    0 <= Opening(v) <= hi <= |s| && Value(s, hi, Opening(v)) == Ok(v, Closing(v))
  }

  ghost predicate PairReads(s: string, hi: nat, p: Pair) {
    0 < p.key.start <= hi <= |s| && Member(s, hi, p.key.start - 1) == Ok(p, Closing(p.value))
  }

  lemma {:induction false} ElementsNest(s: string, hi: nat, i: nat)
    requires i <= hi <= |s|
    requires Elements(s, hi, i).Ok?
    ensures var r := Elements(s, hi, i);
            && |r.v| < r.next - i
            && forall k :: 0 <= k < |r.v| ==> i <= Opening(r.v[k]) && Closing(r.v[k]) < r.next && Reads(s, hi, r.v[k])
    decreases hi - i
  {
    hide Value, Elements, SkipBlanks;
    ElementsStep(s, hi, i);
    var v := Value(s, hi, i);
    ValueExtent(s, hi, i);
    var j := SkipBlanks(s, hi, v.next);
    if s[j] == ',' {
      ElementsNest(s, hi, SkipBlanks(s, hi, j + 1));
    }
  }

  lemma {:induction false} MembersNest(s: string, hi: nat, i: nat)
    requires i <= hi <= |s|
    requires Members(s, hi, i).Ok?
    ensures var r := Members(s, hi, i);
            forall k :: 0 <= k < |r.v| ==>
              i < r.v[k].key.start && Closing(r.v[k].value) < r.next && PairReads(s, hi, r.v[k])
    decreases hi - i
  {
    hide Value, Member, Members, SkipBlanks;
    MembersStep(s, hi, i);
    var p := Member(s, hi, i);
    MemberExtent(s, hi, i);
    var j := SkipBlanks(s, hi, p.next);
    if s[j] == ',' {
      MembersNest(s, hi, SkipBlanks(s, hi, j + 1));
    }
  }

  lemma MemberExtent(s: string, hi: nat, i: nat)
    requires i <= hi <= |s|
    requires Member(s, hi, i).Ok?
    ensures var r := Member(s, hi, i);
            && r.v.key.start == i + 1 && Closing(r.v.value) == r.next
            && r.v.key.end + 1 < Opening(r.v.value)
            && Reads(s, hi, r.v.value)
            && s[r.v.key.end] == '"'
            && StringEnd(s, hi, r.v.key.start) == Some(r.v.key.end)
  {
    var e := StringEnd(s, hi, i + 1).value;
    var j := SkipBlanks(s, hi, e + 1);
    ValueExtent(s, hi, SkipBlanks(s, hi, j + 1));
  }

  /** Every element of a parsed array lies strictly inside it and parses again on its own. */
  lemma ArrayNests(s: string, hi: nat, i: nat)
    requires i <= hi <= |s|
    requires Value(s, hi, i).Ok? && Value(s, hi, i).v.Arr?
    ensures var v := Value(s, hi, i).v;
            && |v.elems| < v.end - v.start
            && forall k :: 0 <= k < |v.elems| ==>
                 v.start < Opening(v.elems[k]) && Closing(v.elems[k]) < v.end && Reads(s, hi, v.elems[k])
  {
    var j := SkipBlanks(s, hi, i + 1);
    if s[j] != ']' {
      ElementsNest(s, hi, j);
    }
  }

  /** Every pair of a parsed object lies strictly inside it and parses again on its own. */
  lemma ObjectNests(s: string, hi: nat, i: nat)
    requires i <= hi <= |s|
    requires Value(s, hi, i).Ok? && Value(s, hi, i).v.Obj?
    ensures var v := Value(s, hi, i).v;
            forall k :: 0 <= k < |v.pairs| ==>
              var p := v.pairs[k];
              && v.start + 1 < p.key.start && Closing(p.value) < v.end && PairReads(s, hi, p)
  {
    var j := SkipBlanks(s, hi, i + 1);
    if s[j] != '}' {
      MembersNest(s, hi, j);
    }
  }

  lemma {:induction false} BlanksEnd(s: string, hi: nat, i: nat)
    requires i <= hi <= |s|
    requires i < hi ==> !IsBlank(s[i])
    ensures SkipBlanks(s, hi, i) == i
  {
  }

  /** A container that was read inside a larger text is a document of its own span, in any text that agrees there. */
  lemma ContainerIsDocument(s: string, hi: nat, v: Tree, t: string)
    requires Reads(s, hi, v) && (v.Arr? || v.Obj?)
    requires Moved(s, v.start, v.end, t, 0)
    ensures Value(t, v.end, v.start) == Ok(v, v.end)
    ensures Document(t, v.start, v.end) == Some(v)
  {
    assert !IsBlank(s[v.start]);
    assert s[v.start] == t[v.start + 0];
    BlanksEnd(t, v.end, v.start);
    ValueMoves(Copy(s, hi, v.start, v.end, t, v.end, 0), v.start);
    BlanksEnd(t, v.end, v.end);
  }

  /** A document depends only on the characters of its window. */
  lemma {:induction false} DocumentLocal(s: string, t: string, lo: nat, hi: nat)
    requires lo <= hi && Moved(s, lo, hi, t, 0)
    requires Document(s, lo, hi).Some?
    ensures Document(t, lo, hi) == Document(s, lo, hi)
  {
    var i := SkipBlanks(s, hi, lo);
    var r := Value(s, hi, i);
    var c := Copy(s, hi, lo, hi, t, hi, 0);
    BlanksMove(c, lo);
    ValueMoves(c, i);
    BlanksToEnd(s, hi, r.next, t);
  }

  lemma {:induction false} BlanksToEnd(s: string, hi: nat, i: nat, t: string)
    requires i <= hi && Moved(s, i, hi, t, 0)
    requires SkipBlanks(s, hi, i) == hi
    ensures SkipBlanks(t, hi, i) == hi
    decreases hi - i
  {
    if i < hi {
      assert s[i] == t[i + 0];
      BlanksToEnd(s, hi, i + 1, t);
    }
  }

  // ---- A parsed value holds no NUL. ----

  lemma {:induction false} BlankIsNotNul(s: string, hi: nat, i: nat, x: nat)
    requires i <= hi <= |s| && i <= x < SkipBlanks(s, hi, i)
    ensures s[x] != NUL
    decreases hi - i
  {
    if i < x {
      BlankIsNotNul(s, hi, i + 1, x);
    }
  }

  lemma {:induction false} PrimHasNoNul(s: string, hi: nat, i: nat, x: nat)
    requires i <= hi <= |s| && i <= x < PrimEnd(s, hi, i)
    ensures s[x] != NUL
    decreases hi - i
  {
    if i < x {
      PrimHasNoNul(s, hi, i + 1, x);
    }
  }

  lemma {:induction false} StringHasNoNul(s: string, hi: nat, i: nat, x: nat)
    requires i <= hi <= |s|
    requires StringEnd(s, hi, i).Some? && i <= x <= StringEnd(s, hi, i).value
    ensures s[x] != NUL
    decreases hi - i
  {
    if s[i] == '"' {
    } else if s[i] == '\\' {
      var n := EscapeLength(s, hi, i);
      if i + n <= x {
        StringHasNoNul(s, hi, i + n, x);
      }
    } else if i < x {
      StringHasNoNul(s, hi, i + 1, x);
    }
  }

  lemma {:induction false} ValueHasNoNul(s: string, hi: nat, i: nat, x: nat)
    requires i <= hi <= |s|
    requires Value(s, hi, i).Ok? && i <= x < Value(s, hi, i).next
    ensures s[x] != NUL
    decreases hi - i, 0
  {
    if i == x {
    } else if s[i] == '"' {
      StringHasNoNul(s, hi, i + 1, x);
    } else if s[i] == '[' || s[i] == '{' {
      var j := SkipBlanks(s, hi, i + 1);
      if x < j {
        BlankIsNotNul(s, hi, i + 1, x);
      } else if s[i] == '[' && s[j] != ']' {
        ElementsHaveNoNul(s, hi, j, x);
      } else if s[i] == '{' && s[j] != '}' {
        MembersHaveNoNul(s, hi, j, x);
      }
    } else {
      PrimHasNoNul(s, hi, i, x);
    }
  }

  lemma {:induction false} ElementsHaveNoNul(s: string, hi: nat, i: nat, x: nat)
    requires i <= hi <= |s|
    requires Elements(s, hi, i).Ok? && i <= x < Elements(s, hi, i).next
    ensures s[x] != NUL
    decreases hi - i, 1
  {
    var k := Value(s, hi, i).next;
    var j := SkipBlanks(s, hi, k);
    if x < k {
      ValueHasNoNul(s, hi, i, x);
    } else if x < j {
      BlankIsNotNul(s, hi, k, x);
    } else if x > j {
      var k' := SkipBlanks(s, hi, j + 1);
      if x < k' {
        BlankIsNotNul(s, hi, j + 1, x);
      } else {
        ElementsHaveNoNul(s, hi, k', x);
      }
    }
  }

  lemma {:induction false} MemberHasNoNul(s: string, hi: nat, i: nat, x: nat)
    requires i <= hi <= |s|
    requires Member(s, hi, i).Ok? && i <= x < Member(s, hi, i).next
    ensures s[x] != NUL
    decreases hi - i, 1
  {
    var e := StringEnd(s, hi, i + 1).value;
    var j := SkipBlanks(s, hi, e + 1);
    var k := SkipBlanks(s, hi, j + 1);
    if i < x <= e {
      StringHasNoNul(s, hi, i + 1, x);
    } else if e < x < j {
      BlankIsNotNul(s, hi, e + 1, x);
    } else if j < x < k {
      BlankIsNotNul(s, hi, j + 1, x);
    } else if k <= x {
      ValueHasNoNul(s, hi, k, x);
    }
  }

  lemma {:induction false} MembersHaveNoNul(s: string, hi: nat, i: nat, x: nat)
    requires i <= hi <= |s|
    requires Members(s, hi, i).Ok? && i <= x < Members(s, hi, i).next
    ensures s[x] != NUL
    decreases hi - i, 2
  {
    hide Value, Member, Members, SkipBlanks;
    MembersStep(s, hi, i);
    var k := Member(s, hi, i).next;
    var j := SkipBlanks(s, hi, k);
    if x < k {
      MemberHasNoNul(s, hi, i, x);
    } else if x < j {
      BlankIsNotNul(s, hi, k, x);
    } else if x > j {
      var k' := SkipBlanks(s, hi, j + 1);
      if x < k' {
        BlankIsNotNul(s, hi, j + 1, x);
      } else {
        MembersHaveNoNul(s, hi, k', x);
      }
    }
  }
}
