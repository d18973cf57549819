/**
 The fields that the SDK asks its JSON reader for, by path. The reader belongs to a library; the
 model's assumption is that a field is found when it is present with the asked type, that a field
 that is not found leaves its span at zero, and that a text that does not parse, does not fit the
 token array, or is neither an object nor an array is an error.
 */
module Fields {
  import opened Basics
  import opened Decimal
  import opened Scanner

  /** The value of the first pair with this name. */
  function Find(s: string, pairs: seq<Pair>, name: string): Option<Tree> {
    if pairs == [] then None
    else if Text(s, pairs[0].key) == name then Some(pairs[0].value)
    else Find(s, pairs[1..], name)
  }

  function FindIn(s: string, doc: Option<Tree>, name: string): Option<Tree> {
    if doc.Some? && doc.value.Obj? then Find(s, doc.value.pairs, name) else None
  }

  /** The path that picks the n-th element of an array. */
  function IndexPath(n: nat): string {
    "/[" + Digits(n) + "]"
  }

  function ReadIndexPath(path: string): Option<nat> {
    if |path| >= 3 && path[0] == '/' && path[1] == '[' && path[|path| - 1] == ']'
    then ReadDigits(path[2..|path| - 1]) else None
  }

  /** The reader gets back the index that was written. */
  lemma IndexPathRoundTrip(n: nat)
    ensures ReadIndexPath(IndexPath(n)) == Some(n)
  {
    hide Digits, ReadDigits;
    DigitsRoundTrip(n);
    var path := IndexPath(n);
    assert path[2..|path| - 1] == Digits(n);
  }

  /** So different indices have different paths. */
  lemma IndexPathInjective(m: nat, n: nat)
    requires IndexPath(m) == IndexPath(n)
    ensures m == n
  {
    IndexPathRoundTrip(m);
    IndexPathRoundTrip(n);
  }

  /** Every index up to `n` fits, terminated, a buffer that the path of `n` fits. */
  lemma IndexPathWidth(m: nat, n: nat)
    requires m <= n
    ensures |IndexPath(m)| + 1 == |Digits(m)| + 4 <= |Digits(n)| + 4
  {
    DigitsGrow(m, n);
  }

  datatype ReadResult = Success(field: Tree) | Partial | Error

  /** One object field, asked for by an index path. */
  function ObjectAt(doc: Option<Tree>, path: string): ReadResult {
    if doc.None? || doc.value.Prim? || doc.value.Str? then Error
    else
      var n := ReadIndexPath(path);
      if doc.value.Arr? && n.Some? && n.value < |doc.value.elems| && doc.value.elems[n.value].Obj?
      then Success(doc.value.elems[n.value])
      else Partial
  }

  /** The fields of a command message: an identifier, and the list of aliases when it is an array. */
  datatype Command = Command(id: Span, actions: Option<Tree>)

  function CommandIn(s: string, doc: Option<Tree>): Option<Command> {
    var id, actions := FindIn(s, doc, "commandID"), FindIn(s, doc, "actions");
    if id.Some? && id.value.Str? then
      Some(Command(id.value.Extent(), if actions.Some? && actions.value.Arr? then actions else None))
    else None
  }
}
