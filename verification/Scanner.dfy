/**
 The token-span scanner for the JSON texts that the SDK reads and writes.

 The parsers that the SDK links against are separate libraries; this module is the model's
 assumption about them. Positions are offsets in the whole buffer: where a library reports
 positions relative to the pointer it was given, the caller adds that pointer back, and the
 two are the same number. Spans exclude their end, and the span of a string excludes its quotes.
 Strings follow section 7 of RFC 8259, arrays section 5 and objects section 4; a primitive is a
 non-empty run of characters that are neither delimiters nor control characters.
 */
module Scanner {
  import opened Basics

  datatype Kind = Primitive | String | Array | Object

  datatype Tree =
    | Prim(start: nat, end: nat)
    | Str(start: nat, end: nat)
    | Arr(start: nat, end: nat, elems: seq<Tree>)
    | Obj(start: nat, end: nat, pairs: seq<Pair>)
  {
    function Extent(): Span {
      Span(start, end)
    }

    function Kind(): Kind {
      match this
      case Prim(_, _) => Primitive
      case Str(_, _) => String
      case Arr(_, _, _) => Array
      case Obj(_, _, _) => Object
    }
  }

  datatype Pair = Pair(key: Span, value: Tree)

  /** `next` is the position just after what was scanned. */
  datatype Scan<+T> = Fail | Ok(v: T, next: nat)

  predicate IsBlank(c: char) {
    c == ' ' || c == '\t' || c == '\r' || c == '\n'
  }

  predicate IsPrimChar(c: char) {
    c > ' ' && c != ',' && c != ':' && c != '"' && c != '[' && c != ']' && c != '{' && c != '}'
  }

  predicate IsHex(c: char) {
    '0' <= c <= '9' || 'a' <= c <= 'f' || 'A' <= c <= 'F'
  }

  predicate IsEscapable(c: char) {
    c == '"' || c == '/' || c == '\\' || c == 'b' || c == 'f' || c == 'n' || c == 'r' || c == 't'
  }

  function SkipBlanks(s: string, hi: nat, i: nat): (r: nat)
    requires i <= hi <= |s|
    ensures i <= r <= hi
    ensures r < hi ==> !IsBlank(s[r])
    decreases hi - i
  {
    if i < hi && IsBlank(s[i]) then SkipBlanks(s, hi, i + 1) else i
  }

  /** The length of the escape sequence that starts at `i`, or 0 when there is none. */
  function EscapeLength(s: string, hi: nat, i: nat): (n: nat)
    requires i <= hi <= |s|
    ensures n == 0 || (2 <= n && i + n <= hi)
  {
    if i + 2 <= hi && s[i] == '\\' && IsEscapable(s[i + 1]) then 2
    else if i + 6 <= hi && s[i] == '\\' && s[i + 1] == 'u'
            && IsHex(s[i + 2]) && IsHex(s[i + 3]) && IsHex(s[i + 4]) && IsHex(s[i + 5]) then 6
    else 0
  }

  /** The position of the quote that closes the string whose contents start at `i`. */
  function StringEnd(s: string, hi: nat, i: nat): (r: Option<nat>)
    requires i <= hi <= |s|
    ensures r.Some? ==> i <= r.value < hi && s[r.value] == '"'
    decreases hi - i
  {
    if i == hi || s[i] < ' ' then None
    else if s[i] == '"' then Some(i)
    else if s[i] == '\\' then
      var n := EscapeLength(s, hi, i);
      if n == 0 then None else StringEnd(s, hi, i + n)
    else StringEnd(s, hi, i + 1)
  }

  function PrimEnd(s: string, hi: nat, i: nat): (r: nat)
    requires i <= hi <= |s|
    ensures i <= r <= hi
    ensures r < hi ==> !IsPrimChar(s[r])
    decreases hi - i
  {
    if i < hi && IsPrimChar(s[i]) then PrimEnd(s, hi, i + 1) else i
  }

  /** The value whose first character is at `i`. */
  function Value(s: string, hi: nat, i: nat): (r: Scan<Tree>)
    requires i <= hi <= |s|
    ensures r.Ok? ==> i < r.next <= hi && i <= r.v.start <= r.v.end <= r.next
    decreases hi - i, 0
  {
    if i == hi then Fail
    else if s[i] == '"' then
      match StringEnd(s, hi, i + 1)
      case None => Fail
      case Some(e) => Ok(Str(i + 1, e), e + 1)
    else if s[i] == '[' then
      var j := SkipBlanks(s, hi, i + 1);
      if j < hi && s[j] == ']' then Ok(Arr(i, j + 1, []), j + 1)
      else
        match Elements(s, hi, j)
        case Fail => Fail
        case Ok(es, next) => Ok(Arr(i, next, es), next)
    else if s[i] == '{' then
      var j := SkipBlanks(s, hi, i + 1);
      if j < hi && s[j] == '}' then Ok(Obj(i, j + 1, []), j + 1)
      else
        match Members(s, hi, j)
        case Fail => Fail
        case Ok(ps, next) => Ok(Obj(i, next, ps), next)
    else
      var e := PrimEnd(s, hi, i);
      if e == i then Fail else Ok(Prim(i, e), e)
  }

  /** A non-empty list of elements, up to and including the closing bracket. */
  function Elements(s: string, hi: nat, i: nat): (r: Scan<seq<Tree>>)
    requires i <= hi <= |s|
    ensures r.Ok? ==> i < r.next <= hi && |r.v| > 0
    decreases hi - i, 1
  {
    match Value(s, hi, i)
    case Fail => Fail
    case Ok(v, k) =>
      var j := SkipBlanks(s, hi, k);
      if j == hi then Fail
      else if s[j] == ']' then Ok([v], j + 1)
      else if s[j] == ',' then
        match Elements(s, hi, SkipBlanks(s, hi, j + 1))
        case Fail => Fail
        case Ok(rest, next) => Ok([v] + rest, next)
      else Fail
  }

  /** One `"key" : value` pair, without what follows it. */
  function Member(s: string, hi: nat, i: nat): (r: Scan<Pair>)
    requires i <= hi <= |s|
    ensures r.Ok? ==> i < r.next <= hi
    ensures r.Ok? ==> i < r.v.key.start <= r.v.key.end < r.v.value.start <= r.v.value.end <= r.next
    decreases hi - i, 1
  {
    if i == hi || s[i] != '"' then Fail
    else
      match StringEnd(s, hi, i + 1)
      case None => Fail
      case Some(e) =>
        var j := SkipBlanks(s, hi, e + 1);
        if j == hi || s[j] != ':' then Fail
        else
          match Value(s, hi, SkipBlanks(s, hi, j + 1))
          case Fail => Fail
          case Ok(v, next) => Ok(Pair(Span(i + 1, e), v), next)
  }

  /** A non-empty list of pairs, up to and including the closing brace. */
  function Members(s: string, hi: nat, i: nat): (r: Scan<seq<Pair>>)
    requires i <= hi <= |s|
    ensures r.Ok? ==> i < r.next <= hi && |r.v| > 0
    decreases hi - i, 2
  {
    match Member(s, hi, i)
    case Fail => Fail
    case Ok(p, k) =>
      var j := SkipBlanks(s, hi, k);
      if j == hi then Fail
      else if s[j] == '}' then Ok([p], j + 1)
      else if s[j] == ',' then
        match Members(s, hi, SkipBlanks(s, hi, j + 1))
        case Fail => Fail
        case Ok(rest, next) => Ok([p] + rest, next)
      else Fail
  }

  /** The one value that fills s[lo..hi], blanks aside. */
  function Document(s: string, lo: nat, hi: nat): (r: Option<Tree>)
    requires lo <= hi <= |s|
    ensures r.Some? ==> lo <= r.value.start <= r.value.end <= hi
  {
    match Value(s, hi, SkipBlanks(s, hi, lo))
    case Fail => None
    case Ok(v, next) => if SkipBlanks(s, hi, next) == hi then Some(v) else None
  }
}
