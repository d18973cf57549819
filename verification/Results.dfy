/**
 The body that reports the results of a command, as a document: what the receiver reads in it, and
 exactly when that is what the dispatcher meant.
 */
module Results {
  import opened Basics
  import opened Scanner
  import opened ScannerFacts
  import opened Api
  import opened Walk
  import opened Printing

  /** One streamed result: whether a comma was put first, the name, and the handler's reply. */
  datatype Entry = Entry(comma: bool, name: string, reply: Reply)

  function ItemText(e: Entry): string {
    (if e.comma then "," else "") + EntryText(e.name, e.reply)
  }

  function ItemsText(es: seq<Entry>): string {
    if es == [] then "" else ItemText(es[0]) + ItemsText(es[1..])
  }

  function BodyText(es: seq<Entry>): string {
    RESULTS_HEAD + ItemsText(es) + RESULTS_TAIL
  }

  // ---- What a receiver reads. ----

  datatype Result = Result(name: string, succeeded: bool, error: Option<string>)

  /** What a streamed result means: an error message exactly when the handler failed. */
  function Meaning(e: Entry): Result {
    Result(e.name, e.reply.succeeded, if e.reply.succeeded then None else Some(e.reply.error))
  }

  function Meanings(es: seq<Entry>): seq<Result> {
    if es == [] then [] else [Meaning(es[0])] + Meanings(es[1..])
  }

  function DecodeEntry(s: string, v: Tree): Option<Result> {
    if !(v.Obj? && |v.pairs| == 1 && v.pairs[0].value.Obj?) then None
    else
      var name, inner := Text(s, v.pairs[0].key), v.pairs[0].value.pairs;
      if !(1 <= |inner| <= 2 && Text(s, inner[0].key) == "succeeded" && inner[0].value.Prim?) then None
      else
        var flag := Text(s, inner[0].value.Extent());
        if flag != "true" && flag != "false" then None
        else if |inner| == 1 then Some(Result(name, flag == "true", None))
        else if Text(s, inner[1].key) == "errorMessage" && inner[1].value.Str?
        then Some(Result(name, flag == "true", Some(Text(s, inner[1].value.Extent()))))
        else None
  }

  function DecodeEntries(s: string, vs: seq<Tree>): Option<seq<Result>> {
    if vs == [] then Some([])
    else
      var r, rest := DecodeEntry(s, vs[0]), DecodeEntries(s, vs[1..]);
      if r.Some? && rest.Some? then Some([r.value] + rest.value) else None
  }

  /** The list of results in a body: an object whose only pair is the list. */
  function Decode(body: string): Option<seq<Result>> {
    var doc := Document(body, 0, |body|);
    if doc.Some? && doc.value.Obj? && |doc.value.pairs| == 1
       && Text(body, doc.value.pairs[0].key) == "actionResults" && doc.value.pairs[0].value.Arr?
    then DecodeEntries(body, doc.value.pairs[0].value.elems) else None
  }

  // ---- When it is what was meant. ----

  /** A comma stands before an entry exactly when it is not the first. */
  ghost predicate GoodCommas(es: seq<Entry>) {
    forall k :: 0 <= k < |es| ==> es[k].comma == (k > 0)
  }

  ghost predicate CleanError(e: Entry) {
    e.reply.succeeded || Clean(e.reply.error)
  }

  ghost predicate CleanErrors(es: seq<Entry>) {
    forall k :: 0 <= k < |es| ==> CleanError(es[k])
  }

  ghost predicate CleanNames(es: seq<Entry>) {
    forall k :: 0 <= k < |es| ==> Clean(es[k].name)
  }

  // ---- One entry. ----

  function Flag(reply: Reply): string {
    if reply.succeeded then "true" else "false"
  }

  /** Where the pieces of an entry stand. */
  ghost predicate Laid(s: string, p: nat, name: string, reply: Reply) {
    var q := p + |name| + 4;
    var r := q + 13 + |Flag(reply)|;
    && At(s, p, "{") && At(s, p + 1, "\"" + name + "\":")
    && At(s, q, "{") && At(s, q + 1, "\"succeeded\":") && At(s, q + 13, Flag(reply))
    && if reply.succeeded then At(s, r, "}}")
       else
         && At(s, r, ",") && At(s, r + 1, "\"errorMessage\":") && At(s, r + 16, "\"")
         && At(s, r + 17, reply.error) && At(s, r + 17 + |reply.error|, "\"}}")
  }

  /** The text of an entry after its name. */
  function InnerText(reply: Reply): string {
    "{" + ("\"succeeded\":" + (Flag(reply)
        + (if reply.succeeded then "}}" else "," + ("\"errorMessage\":" + ErrorTail(reply.error)))))
  }

  function ErrorTail(error: string): string {
    "\"" + (error + "\"}}")
  }

  lemma SucceededKey(flag: string)
    ensures KeyValueText("succeeded", flag, false, false) == "\"succeeded\":" + flag
  {
    assert "\"" + "succeeded" + "\":" == "\"succeeded\":";
  }

  lemma ErrorKey(error: string)
    ensures KeyValueText("errorMessage", error, true, true) + "}}" == "," + ("\"errorMessage\":" + ErrorTail(error))
  {
    assert "," + "\"" + "errorMessage" + "\":" == "," + "\"errorMessage\":";
    assert "\"" + "}}" == "\"}}";
    var e := "\"" + error + "\"";
    assert e + "}}" == ErrorTail(error);
    assert ("," + "\"errorMessage\":" + e) + "}}" == "," + ("\"errorMessage\":" + (e + "}}"));
  }

  lemma EntryShape(name: string, reply: Reply)
    ensures EntryText(name, reply) == "{" + (("\"" + name + "\":") + InnerText(reply))
  {
    hide KeyValueText, ErrorTail, Flag, EntryText, InnerText;
    var flag := KeyValueText("succeeded", Flag(reply), false, false);
    var error := if reply.succeeded then "" else KeyValueText("errorMessage", reply.error, true, true);
    EntryTextUnfolds(name, reply);
    InnerTextUnfolds(reply);
    Regroup("{\"" + name + "\":{", flag, error, "}}");
    HeadShape(name, flag + (error + "}}"));
  }

  lemma Regroup(a: string, b: string, c: string, d: string)
    ensures a + b + c + d == a + (b + (c + d))
  {
  }

  lemma InnerTextUnfolds(reply: Reply)
    ensures var error := if reply.succeeded then "" else KeyValueText("errorMessage", reply.error, true, true);
            InnerText(reply) == "{" + (KeyValueText("succeeded", Flag(reply), false, false) + (error + "}}"))
  {
    hide KeyValueText, ErrorTail;
    SucceededKey(Flag(reply));
    ErrorKey(reply.error);
    var last := if reply.succeeded then "}}" else "," + ("\"errorMessage\":" + ErrorTail(reply.error));
    assert "\"succeeded\":" + (Flag(reply) + last) == ("\"succeeded\":" + Flag(reply)) + last;
    assert "" + "}}" == "}}";
  }

  lemma EntryTextUnfolds(name: string, reply: Reply)
    ensures var error := if reply.succeeded then "" else KeyValueText("errorMessage", reply.error, true, true);
            EntryText(name, reply) == "{\"" + name + "\":{" + KeyValueText("succeeded", Flag(reply), false, false)
                + error + "}}"
  {
  }

  lemma HeadShape(name: string, rest: string)
    ensures "{\"" + name + "\":{" + rest == "{" + (("\"" + name + "\":") + ("{" + rest))
  {
    assert "{\"" == "{" + "\"" && "\":{" == "\":" + "{";
  }

  lemma InnerLaid(s: string, q: nat, reply: Reply)
    requires At(s, q, InnerText(reply))
    ensures At(s, q, "{") && At(s, q + 1, "\"succeeded\":") && At(s, q + 13, Flag(reply))
    ensures var r := q + 13 + |Flag(reply)|;
            if reply.succeeded then At(s, r, "}}")
            else At(s, r, ",") && At(s, r + 1, "\"errorMessage\":") && At(s, r + 16, ErrorTail(reply.error))
  {
    hide ErrorTail, At;
    var last := if reply.succeeded then "}}" else "," + ("\"errorMessage\":" + ErrorTail(reply.error));
    AtSplit(s, q, "{", "\"succeeded\":" + (Flag(reply) + last));
    AtSplit(s, q + 1, "\"succeeded\":", Flag(reply) + last);
    AtSplit(s, q + 13, Flag(reply), last);
    if !reply.succeeded {
      var r := q + 13 + |Flag(reply)|;
      AtSplit(s, r, ",", "\"errorMessage\":" + ErrorTail(reply.error));
      AtSplit(s, r + 1, "\"errorMessage\":", ErrorTail(reply.error));
    }
  }

  lemma EntryLaid(s: string, p: nat, name: string, reply: Reply)
    requires At(s, p, EntryText(name, reply))
    ensures Laid(s, p, name, reply)
    ensures |EntryText(name, reply)|
              == |name| + 19 + |Flag(reply)| + (if reply.succeeded then 0 else 18 + |reply.error|)
  {
    hide EntryText, At;
    EntryShape(name, reply);
    AtSplit(s, p, "{", ("\"" + name + "\":") + InnerText(reply));
    AtSplit(s, p + 1, "\"" + name + "\":", InnerText(reply));
    var q := p + |name| + 4;
    InnerLaid(s, q, reply);
    if !reply.succeeded {
      var r := q + 13 + |Flag(reply)|;
      AtSplit(s, r + 16, "\"", reply.error + "\"}}");
      AtSplit(s, r + 17, reply.error, "\"}}");
    }
  }

  lemma Literals()
    ensures Clean("succeeded") && Clean("errorMessage") && Clean("actionResults")
    ensures AllPrim("true") && AllPrim("false")
  {
    PlainIsClean("succeeded");
    PlainIsClean("errorMessage");
    PlainIsClean("actionResults");
  }

  /** The pair that carries the flag. */
  lemma FlagReads(s: string, hi: nat, q: nat, reply: Reply)
    requires At(s, q + 1, "\"succeeded\":") && At(s, q + 13, Flag(reply))
    requires hi <= |s| && q + 13 + |Flag(reply)| < hi
    requires s[q + 13 + |Flag(reply)|] == '}' || s[q + 13 + |Flag(reply)|] == ','
    ensures s[q + 1] == '"'
    ensures var r := q + 13 + |Flag(reply)|;
            && Member(s, hi, q + 1) == Ok(Pair(Span(q + 2, q + 11), Prim(q + 13, r)), r)
            && Text(s, Span(q + 2, q + 11)) == "succeeded" && Text(s, Span(q + 13, r)) == Flag(reply)
  {
    hide Value, Member;
    Literals();
    AtChar(s, q + 13, Flag(reply), 0);
    assert "\"" + "succeeded" + "\":" == "\"succeeded\":";
    PrimAt(s, hi, q + 13, Flag(reply));
    MemberAt(s, hi, q + 1, "succeeded");
    KeyAt(s, q + 1, "succeeded");
  }

  /** The pair that carries the error text. */
  lemma ErrorReads(s: string, hi: nat, u: nat, error: string)
    requires At(s, u, "\"errorMessage\":") && At(s, u + 15, "\"")
    requires At(s, u + 16, error) && At(s, u + 16 + |error|, "\"}}")
    requires hi <= |s| && u + 16 + |error| + 3 < hi
    ensures s[u] == '"'
    ensures var m := Member(s, hi, u);
            if Clean(error)
            then m == Ok(Pair(Span(u + 1, u + 13), Str(u + 16, u + 16 + |error|)), u + 17 + |error|)
            else m.Ok? ==> m.v.value.Str? && Text(s, m.v.value.Extent()) != error
    ensures Text(s, Span(u + 1, u + 13)) == "errorMessage" && Text(s, Span(u + 16, u + 16 + |error|)) == error
  {
    hide Member, Value, Clean, At, Text;
    Literals();
    AtIsText(s, u + 16, error);
    assert "\"" + "errorMessage" + "\":" == "\"errorMessage\":";
    AtChar(s, u + 15, "\"", 0);
    AtChar(s, u + 16 + |error|, "\"}}", 0);
    QuotedReads(s, hi, u + 15, error);
    MemberAt(s, hi, u, "errorMessage");
    KeyAt(s, u, "errorMessage");
  }

  /** The inner object of an entry. */
  ghost predicate InnerMeans(s: string, v: Tree, reply: Reply) {
    && v.Obj? && |v.pairs| == (if reply.succeeded then 1 else 2)
    && Text(s, v.pairs[0].key) == "succeeded" && v.pairs[0].value.Prim?
        && Text(s, v.pairs[0].value.Extent()) == Flag(reply)
    && (!reply.succeeded ==>
          && Text(s, v.pairs[1].key) == "errorMessage"
          && v.pairs[1].value.Str? && Text(s, v.pairs[1].value.Extent()) == reply.error)
  }

  function InnerLength(reply: Reply): nat {
    14 + |Flag(reply)| + if reply.succeeded then 0 else 18 + |reply.error|
  }

  lemma SuccessReads(s: string, hi: nat, q: nat, reply: Reply)
    requires reply.succeeded && At(s, q, "{") && At(s, q + 1, "\"succeeded\":") && At(s, q + 13, "true")
              && At(s, q + 17, "}}")
    requires hi <= |s| && q + 19 <= hi
    ensures s[q] == '{' && s[q + 18] == '}'
    ensures var r := Value(s, hi, q); r.Ok? && r.next == q + 18 && InnerMeans(s, r.v, reply)
  {
    hide Value, Member, At;
    AtChar(s, q, "{", 0);
    AtChar(s, q + 17, "}}", 0);
    AtChar(s, q + 17, "}}", 1);
    FlagReads(s, hi, q, reply);
    ObjectOfOne(s, hi, q, Member(s, hi, q + 1).v, q + 17);
  }

  lemma FailureReads(s: string, hi: nat, q: nat, reply: Reply)
    requires !reply.succeeded && At(s, q, "{") && At(s, q + 1, "\"succeeded\":") && At(s, q + 13, "false")
    requires At(s, q + 18, ",") && At(s, q + 19, "\"errorMessage\":") && At(s, q + 34, "\"")
    requires At(s, q + 35, reply.error) && At(s, q + 35 + |reply.error|, "\"}}")
    requires hi <= |s| && q + 38 + |reply.error| < hi
    ensures s[q] == '{' && s[q + 37 + |reply.error|] == '}'
    ensures var r := Value(s, hi, q);
            if Clean(reply.error)
            then r.Ok? && r.next == q + 37 + |reply.error| && InnerMeans(s, r.v, reply)
            else r.Ok? ==> !InnerMeans(s, r.v, reply)
  {
    hide Value, Member, Members, At, Clean, Text, SkipBlanks;
    AtChar(s, q, "{", 0);
    AtChar(s, q + 18, ",", 0);
    AtChar(s, q + 35 + |reply.error|, "\"}}", 1);
    AtChar(s, q + 35 + |reply.error|, "\"}}", 2);
    FlagReads(s, hi, q, reply);
    ErrorReads(s, hi, q + 19, reply.error);
    BlanksEnd(s, hi, q + 18);
    BlanksEnd(s, hi, q + 19);
    if Clean(reply.error) {
      BlanksEnd(s, hi, q + 36 + |reply.error|);
      MembersStep(s, hi, q + 19);
      ObjectOfMore(s, hi, q, Member(s, hi, q + 1).v, q + 18);
    } else if Value(s, hi, q).Ok? {
      ObjectPairs(s, hi, q);
    }
  }

  lemma InnerReads(s: string, hi: nat, p: nat, name: string, reply: Reply)
    requires Laid(s, p, name, reply)
    requires var q := p + |name| + 4; hi <= |s| && q + InnerLength(reply) + 1 < hi
    ensures var q := p + |name| + 4;
            var r := Value(s, hi, q);
            s[q] == '{' && s[q + InnerLength(reply)] == '}' &&
            if reply.succeeded || Clean(reply.error)
            then r.Ok? && r.next == q + InnerLength(reply) && InnerMeans(s, r.v, reply)
            else r.Ok? ==> !InnerMeans(s, r.v, reply)
  {
    hide Value, At, Clean, InnerMeans;
    if reply.succeeded {
      SuccessReads(s, hi, p + |name| + 4, reply);
    } else {
      FailureReads(s, hi, p + |name| + 4, reply);
    }
  }

  /** What an entry's value decodes to, when its inner object is the first pair. */
  lemma DecodedEntry(s: string, v: Tree, e: Entry)
    requires v.Obj? && v.pairs != [] && Text(s, v.pairs[0].key) == e.name
    ensures DecodeEntry(s, v) == Some(Meaning(e)) <==> |v.pairs| == 1 && InnerMeans(s, v.pairs[0].value, e.reply)
  {
  }

  /** An entry is read as what it means exactly when its error text, if any, is clean. */
  lemma EntryReads(s: string, hi: nat, p: nat, e: Entry)
    requires At(s, p, EntryText(e.name, e.reply)) && Clean(e.name)
    requires hi <= |s| && p + |EntryText(e.name, e.reply)| < hi
    ensures var r := Value(s, hi, p);
            && s[p] == '{'
            && ((r.Ok? && DecodeEntry(s, r.v) == Some(Meaning(e))) <==> CleanError(e))
            && (CleanError(e) ==> r.next == p + |EntryText(e.name, e.reply)|)
  {
    hide EntryText, Value, Member, Members, Clean, At, DecodeEntry, InnerMeans;
    EntryLaid(s, p, e.name, e.reply);
    var q := p + |e.name| + 4;
    AtChar(s, p, "{", 0);
    InnerReads(s, hi, p, e.name, e.reply);
    MemberAt(s, hi, p + 1, e.name);
    KeyAt(s, p + 1, e.name);
    if CleanError(e) {
      ObjectOfOne(s, hi, p, Member(s, hi, p + 1).v, q + InnerLength(e.reply));
      DecodedEntry(s, Value(s, hi, p).v, e);
    } else if Value(s, hi, p).Ok? {
      ObjectPairs(s, hi, p);
      DecodedEntry(s, Value(s, hi, p).v, e);
    }
  }

  // ---- The list of entries. ----

  ghost predicate CommasBetween(es: seq<Entry>) {
    forall k :: 1 <= k < |es| ==> es[k].comma
  }

  /** The entries are read as what they mean exactly when the errors are clean and commas stand between them. */
  ghost predicate ListMeans(s: string, r: Scan<seq<Tree>>, es: seq<Entry>) {
    r.Ok? && DecodeEntries(s, r.v) == Some(Meanings(es))
  }

  lemma MeansFirst(s: string, vs: seq<Tree>, es: seq<Entry>)
    requires vs != [] && es != []
    ensures DecodeEntries(s, vs) == Some(Meanings(es)) <==>
            DecodeEntry(s, vs[0]) == Some(Meaning(es[0])) && DecodeEntries(s, vs[1..]) == Some(Meanings(es[1..]))
  {
    var r, rest := DecodeEntry(s, vs[0]), DecodeEntries(s, vs[1..]);
    if r.Some? && rest.Some? {
      assert ([r.value] + rest.value)[0] == r.value && ([r.value] + rest.value)[1..] == rest.value;
      assert Meanings(es)[0] == Meaning(es[0]) && Meanings(es)[1..] == Meanings(es[1..]);
    }
  }

  lemma {:induction false} ItemsRead(s: string, hi: nat, p: nat, es: seq<Entry>)
    requires es != [] && CleanNames(es) && hi <= |s|
    requires At(s, p, EntryText(es[0].name, es[0].reply) + (ItemsText(es[1..]) + "]"))
    requires p + |EntryText(es[0].name, es[0].reply)| + |ItemsText(es[1..])| + 1 <= hi
    ensures s[p] == '{'
    ensures ListMeans(s, Elements(s, hi, p), es) <==> CleanErrors(es) && CommasBetween(es)
    ensures CleanErrors(es) && CommasBetween(es) ==>
              Elements(s, hi, p).next == p + |EntryText(es[0].name, es[0].reply)| + |ItemsText(es[1..])| + 1
    decreases |es|
  {
    hide Value, Elements, EntryText, DecodeEntry, At, Clean, DecodeEntries, Meanings, ItemsText, CleanErrors,
         CommasBetween, CleanNames;
    var e, rest := es[0], es[1..];
    var text := EntryText(e.name, e.reply);
    var k := p + |text|;
    AtSplit(s, p, text, ItemsText(rest) + "]");
    EntriesSplit(es);
    EntryReads(s, hi, p, e);
    ElementsStep(s, hi, p);
    var r := Elements(s, hi, p);
    if r.Ok? {
      MeansFirst(s, r.v, es);
    }
    if CleanError(e) {
      AfterEntry(s, k, rest);
      BlanksEnd(s, hi, k);
      if rest == [] {
        NothingLeft(s);
        assert r.v[1..] == [];
      } else if rest[0].comma {
        CommaBefore(s, k, rest);
        ItemsRead(s, hi, k + 1, rest);
        BlanksEnd(s, hi, k + 1);
        assert r.Ok? ==> r.v[1..] == Elements(s, hi, k + 1).v;
      }
    }
  }

  lemma EntriesSplit(es: seq<Entry>)
    requires es != []
    ensures CleanErrors(es) <==> CleanError(es[0]) && CleanErrors(es[1..])
    ensures CommasBetween(es) <==> |es| == 1 || (es[1].comma && CommasBetween(es[1..]))
    ensures CleanNames(es) ==> Clean(es[0].name) && CleanNames(es[1..])
  {
    assert forall j :: 1 <= j < |es| ==> es[j] == es[1..][j - 1];
  }

  lemma NothingLeft(s: string)
    ensures DecodeEntries(s, []) == Some([]) && Meanings([]) == [] && ItemsText([]) == "" && CleanErrors([])
  {
  }

  /** What stands right after an entry. */
  lemma AfterEntry(s: string, k: nat, rest: seq<Entry>)
    requires At(s, k, ItemsText(rest) + "]")
    ensures k < |s| && s[k] == (if rest == [] then ']' else if rest[0].comma then ',' else '{')
  {
    hide EntryText;
    AtChar(s, k, ItemsText(rest) + "]", 0);
    if rest != [] {
      EntryShape(rest[0].name, rest[0].reply);
    }
  }

  lemma CommaBefore(s: string, k: nat, rest: seq<Entry>)
    requires rest != [] && rest[0].comma && At(s, k, ItemsText(rest) + "]")
    ensures At(s, k + 1, EntryText(rest[0].name, rest[0].reply) + (ItemsText(rest[1..]) + "]"))
    ensures |ItemsText(rest)| == 1 + |EntryText(rest[0].name, rest[0].reply)| + |ItemsText(rest[1..])|
  {
    hide EntryText, At;
    var text := EntryText(rest[0].name, rest[0].reply);
    assert ItemsText(rest) + "]" == "," + (text + (ItemsText(rest[1..]) + "]"));
    AtSplit(s, k, ",", text + (ItemsText(rest[1..]) + "]"));
  }

  // ---- The body. ----

  lemma BodyLaid(es: seq<Entry>)
    ensures var b := BodyText(es);
            && |b| == 20 + |ItemsText(es)|
            && At(b, 0, "{") && At(b, 1, "\"actionResults\":") && At(b, 17, "[")
            && At(b, 18, ItemsText(es) + "]") && At(b, 19 + |ItemsText(es)|, "}")
  {
    hide ItemsText;
    var b := BodyText(es);
    var items := ItemsText(es);
    assert "{\"actionResults\":[" == "{" + ("\"actionResults\":" + "[") && "]}" == "]" + "}";
    assert b == ("{" + ("\"actionResults\":" + "[")) + ((items + "]") + "}");
    assert At(b, 0, b);
    AtSplit(b, 0, "{" + ("\"actionResults\":" + "["), (items + "]") + "}");
    AtSplit(b, 0, "{", "\"actionResults\":" + "[");
    AtSplit(b, 1, "\"actionResults\":", "[");
    AtSplit(b, 18, items + "]", "}");
  }

  /** The list in the body: what stands between its brackets, read on its own. */
  lemma ListReads(es: seq<Entry>)
    requires CleanNames(es)
    ensures var b := BodyText(es);
            var r := Value(b, |b|, 17);
            && |b| >= 20 && b[17] == '['
            && (GoodCommas(es) && CleanErrors(es) <==>
                r.Ok? && r.v.Arr? && DecodeEntries(b, r.v.elems) == Some(Meanings(es)))
            && (GoodCommas(es) && CleanErrors(es) ==> r.next == |b| - 1)
  {
    hide BodyText, Value, Elements, EntryText, At, Clean, DecodeEntries, Meanings, ItemsText;
    var b := BodyText(es);
    BodyLaid(es);
    AtChar(b, 17, "[", 0);
    ValueStep(b, |b|, 17);
    AfterEntry(b, 18, es);
    BlanksEnd(b, |b|, 18);
    NothingLeft(b);
    if es == [] {
    } else if es[0].comma {
      ElementsStep(b, |b|, 18);
      CommaStartsNothing(b, |b|, 18);
      assert !GoodCommas(es);
    } else {
      assert ItemsText(es) + "]" == EntryText(es[0].name, es[0].reply) + (ItemsText(es[1..]) + "]") by {
        FirstItem(es);
      }
      FirstItem(es);
      ItemsRead(b, |b|, 18, es);
    }
  }

  lemma FirstItem(es: seq<Entry>)
    requires es != [] && !es[0].comma
    ensures ItemsText(es) == EntryText(es[0].name, es[0].reply) + ItemsText(es[1..])
  {
    hide EntryText;
    assert "" + EntryText(es[0].name, es[0].reply) == EntryText(es[0].name, es[0].reply);
  }

  lemma CommaStartsNothing(s: string, hi: nat, i: nat)
    requires i < hi <= |s| && s[i] == ','
    ensures Value(s, hi, i).Fail?
  {
  }

  /**
   The body is read as exactly one result per handled action, in order, with the same names, the
   returned flags, and an error message exactly for the failed ones, if and only if commas stand
   exactly before the entries that are not the first, and every error text is fit to stand between quotes.
   */
  lemma BodyReads(es: seq<Entry>)
    requires CleanNames(es)
    ensures Decode(BodyText(es)) == Some(Meanings(es)) <==> GoodCommas(es) && CleanErrors(es)
  {
    hide BodyText, Value, Member, Members, At, Clean, DecodeEntries, Meanings, CleanNames, CleanErrors, GoodCommas,
         Text, SkipBlanks, ItemsText;
    var b := BodyText(es);
    Literals();
    BodyLaid(es);
    ListReads(es);
    AtChar(b, 0, "{", 0);
    AtChar(b, |b| - 1, "}", 0);
    BlanksEnd(b, |b|, 0);
    assert "\"" + "actionResults" + "\":" == "\"actionResults\":";
    MemberAt(b, |b|, 1, "actionResults");
    KeyAt(b, 1, "actionResults");
    if GoodCommas(es) && CleanErrors(es) {
      ObjectOfOne(b, |b|, 0, Member(b, |b|, 1).v, |b| - 1);
      BlanksEnd(b, |b|, |b|);
    } else if Value(b, |b|, 0).Ok? {
      ObjectPairs(b, |b|, 0);
    }
  }
}
