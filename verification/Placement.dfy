/** Where the items of a list stand in the message, and why re-parsing a piece of it finds them again. */
module Placement {
  import opened Basics
  import opened Scanner
  import opened ScannerFacts
  import opened Tokens
  import opened Fields
  import opened Walk

  /** The list that the window s[lo..hi] holds, as the single pass sees it. */
  ghost predicate Holds(s: string, lo: nat, hi: nat, limit: nat, list: Option<Tree>) {
    lo <= hi <= |s| && list == Readable(s, lo, hi, limit)
  }

  lemma DocumentReads(s: string, lo: nat, hi: nat)
    requires lo <= hi <= |s| && Document(s, lo, hi).Some?
    ensures var v := Document(s, lo, hi).value; Reads(s, hi, v) && lo <= Opening(v) && Closing(v) <= hi
  {
    ValueExtent(s, hi, SkipBlanks(s, hi, lo));
  }

  /** The k-th element of a list, when it is an object. */
  ghost predicate IsObjectAt(list: Option<Tree>, k: nat) {
    list.Some? && list.value.Arr? && k < |list.value.elems| && list.value.elems[k].Obj?
  }

  lemma ObjectPlaced(s: string, lo: nat, hi: nat, limit: nat, list: Option<Tree>, k: nat)
    requires Holds(s, lo, hi, limit, list) && IsObjectAt(list, k)
    ensures var item := list.value.elems[k];
            lo < item.start <= item.end < hi && Reads(s, hi, item) && Count(item) + 1 <= Count(list.value) <= limit
  {
    var v := list.value;
    DocumentReads(s, lo, hi);
    ArrayNests(s, hi, v.start);
    ArrayPartFits(v, k);
  }

  /** The key and the value of a found item lie in the window, in this order and apart from each other. */
  lemma ItemPlaced(s: string, lo: nat, hi: nat, limit: nat, list: Option<Tree>, k: nat)
    requires Holds(s, lo, hi, limit, list) && ItemAt(list, k).Found?
    ensures IsObjectAt(list, k)
    ensures var item := ItemAt(list, k);
            && lo < item.key.start <= item.key.end < item.value.start <= item.value.end < hi
            && NoNul(s, item.key.start, item.key.end) && NoNul(s, item.value.start, item.value.end)
            && Reads(s, hi, item.value) && Count(item.value) <= limit
            && StringEnd(s, hi, item.key.start) == Some(item.key.end)
  {
    hide Value, Member, Document, IndexPath, ReadIndexPath;
    IndexPathRoundTrip(k);
    ObjectPlaced(s, lo, hi, limit, list, k);
    var item := list.value.elems[k];
    ObjectNests(s, hi, item.start);
    FirstValueFits(item);
    var p := item.pairs[0];
    assert PairReads(s, hi, p);
    MemberExtent(s, hi, p.key.start - 1);
    KeyHasNoNul(s, hi, p.key);
    ReadsNoNul(s, hi, p.value);
  }

  lemma KeyHasNoNul(s: string, hi: nat, key: Span)
    requires key.start <= hi <= |s| && StringEnd(s, hi, key.start) == Some(key.end)
    ensures NoNul(s, key.start, key.end)
  {
    forall x | key.start <= x < key.end ensures s[x] != NUL {
      StringHasNoNul(s, hi, key.start, x);
    }
  }

  lemma ReadsNoNul(s: string, hi: nat, v: Tree)
    requires Reads(s, hi, v) && v.start <= v.end
    ensures v.end <= |s| && NoNul(s, v.start, v.end)
  {
    forall x | v.start <= x < v.end ensures s[x] != NUL {
      ValueHasNoNul(s, hi, Opening(v), x);
    }
  }

  /** The list that an alias names is the list in the alias's own window. */
  lemma ListingHolds(c: Setup, hi: nat, value: Tree)
    requires Reads(c.s, hi, value) && Count(value) <= c.limit
    requires value.start <= value.end <= |c.s|
    ensures Holds(c.s, value.start, value.end, c.limit, Listing(c, value))
  {
    if value.Arr? || value.Obj? {
      ContainerIsDocument(c.s, hi, value, c.s);
    }
  }

  /** A window that agrees with the message holds the same list, even when the message changed elsewhere. */
  lemma SameWindow(s: string, t: string, lo: nat, hi: nat, limit: nat)
    requires lo <= hi && Moved(s, lo, hi, t, 0)
    ensures Readable(t, lo, hi, limit) == Readable(s, lo, hi, limit)
  {
    if Document(s, lo, hi).Some? {
      DocumentLocal(s, t, lo, hi);
    } else if Document(t, lo, hi).Some? {
      forall x | lo <= x < hi ensures t[x] == s[x + 0] {
        assert s[x] == t[x + 0];
      }
      DocumentLocal(t, s, lo, hi);
    }
  }

  /** Writing outside a window leaves the window as it was. */
  lemma WrittenOutside(s: string, p: Span, lo: nat, hi: nat)
    requires lo <= hi <= |s| && (p.end < lo || hi <= p.end)
    ensures Moved(s, lo, hi, Terminated(s, p), 0)
  {
  }

  /** The three ends of an action lie apart, in this order, and none of its texts holds a NUL. */
  ghost predicate Placed(s: string, site: Site) {
    && site.alias.start <= site.alias.end < site.name.start
    && site.name.start <= site.name.end < site.value.start
    && site.value.start <= site.value.end < |s|
    && NoNul(s, site.alias.start, site.alias.end)
    && NoNul(s, site.name.start, site.name.end)
    && NoNul(s, site.value.start, site.value.end)
  }

  /**
   While an action is handled, the message differs from what was received in exactly three
   places, and the three C strings that start at the alias, the name and the value are exactly
   the texts of the alias, the name and the value.
   */
  lemma CallSeesTexts(s: string, site: Site)
    requires Placed(s, site)
    ensures var t := DuringCall(s, site);
            && |t| == |s|
            && (forall x :: 0 <= x < |s| && x != site.alias.end && x != site.name.end && x != site.value.end ==>
                t[x] == s[x])
            && site.alias.end < site.name.end < site.value.end
            && t[site.alias.end] == t[site.name.end] == t[site.value.end] == NUL
            && CString(t, site.alias.start) == Text(s, site.alias)
            && CString(t, site.name.start) == Text(s, site.name)
            && CString(t, site.value.start) == Text(s, site.value)
  {
    var t := DuringCall(s, site);
    hide CString;
    CStringIsText(t, site.alias.start, site.alias.end);
    CStringIsText(t, site.name.start, site.name.end);
    CStringIsText(t, site.value.start, site.value.end);
    assert t[site.alias.start..site.alias.end] == Text(s, site.alias);
    assert t[site.name.start..site.name.end] == Text(s, site.name);
    assert t[site.value.start..site.value.end] == Text(s, site.value);
  }

  /** What a handler is told, when it is given the C strings at the three places of `memory`. */
  ghost predicate GotStrings(a: Action, memory: string, site: Site) {
    && site.alias.start <= |memory| && site.name.start <= |memory| && site.value.start <= |memory|
    && a.alias == CString(memory, site.alias.start)
    && a.name == CString(memory, site.name.start)
    && a.value == CString(memory, site.value.start)
  }

  lemma ActionIsStrings(s: string, site: Site)
    requires Placed(s, site)
    ensures GotStrings(ActionOf(s, site), DuringCall(s, site), site)
  {
    CallSeesTexts(s, site);
  }
}
