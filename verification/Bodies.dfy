/**
 The request bodies that are built as one object of keys and values: what is written, when it fits,
 and exactly when a receiver reads back the keys and the values that were given.
 */
module Bodies {
  import opened Basics
  import opened Scanner
  import opened ScannerFacts
  import opened Api
  import opened Printing

  /** A key with its value: a text to quote, or a text that is JSON itself. */
  datatype Field = Field(key: string, value: string, isString: bool)

  function ValueText(f: Field): string {
    if f.isString then "\"" + f.value + "\"" else f.value
  }

  function KeyText(f: Field): string {
    "\"" + f.key + "\":"
  }

  function FieldText(f: Field): string {
    KeyText(f) + ValueText(f)
  }

  /** The fields after the first, each with its comma. */
  function RestText(fs: seq<Field>): string {
    if fs == [] then "" else "," + FieldText(fs[0]) + RestText(fs[1..])
  }

  function FieldsText(fs: seq<Field>): string {
    if fs == [] then "" else FieldText(fs[0]) + RestText(fs[1..])
  }

  function ObjectText(fs: seq<Field>): string {
    "{" + FieldsText(fs) + "}"
  }

  // ---- What a receiver reads. ----

  function DecodePair(s: string, p: Pair): Field {
    Field(Text(s, p.key), Text(s, p.value.Extent()), p.value.Str?)
  }

  function DecodePairs(s: string, ps: seq<Pair>): seq<Field> {
    if ps == [] then [] else [DecodePair(s, ps[0])] + DecodePairs(s, ps[1..])
  }

  function DecodeObject(body: string): Option<seq<Field>> {
    var doc := Document(body, 0, |body|);
    if doc.Some? && doc.value.Obj? then Some(DecodePairs(body, doc.value.pairs)) else None
  }

  /** A value that may be written as it is: a clean text between quotes, or one JSON value. */
  ghost predicate Fit(f: Field) {
    if f.isString then Clean(f.value) else IsJson(f.value)
  }

  ghost predicate AllFit(fs: seq<Field>) {
    forall k :: 0 <= k < |fs| ==> Fit(fs[k])
  }

  ghost predicate CleanKeys(fs: seq<Field>) {
    forall k :: 0 <= k < |fs| ==> Clean(fs[k].key)
  }

  /** What is read where the value of `f` stands is that value. */
  ghost predicate SameValue(s: string, hi: nat, q: nat, f: Field)
    requires q <= hi <= |s|
  {
    var r := Value(s, hi, SkipBlanks(s, hi, q));
    r.Ok? && Text(s, r.v.Extent()) == f.value && r.v.Str? == f.isString
  }

  lemma QuotedPieces(s: string, q: nat, text: string)
    requires At(s, q, "\"" + text + "\"")
    ensures q + |text| + 2 <= |s| && s[q] == '"' && At(s, q + 1, text) && s[q + 1 + |text|] == '"'
    ensures Text(s, Span(q + 1, q + 1 + |text|)) == text
  {
    AtSplit(s, q, "\"" + text, "\"");
    AtSplit(s, q, "\"", text);
    AtChar(s, q, "\"", 0);
    AtChar(s, q + 1 + |text|, "\"", 0);
    AtIsText(s, q + 1, text);
  }

  lemma QuotedValueReads(s: string, hi: nat, q: nat, f: Field)
    requires f.isString && hi <= |s| && q + |ValueText(f)| < hi && At(s, q, ValueText(f))
    ensures SameValue(s, hi, q, f) <==> Clean(f.value)
    ensures SameValue(s, hi, q, f) ==> SkipBlanks(s, hi, q) == q && Value(s, hi, q).next == q + |ValueText(f)|
  {
    hide Value, SkipBlanks, Clean, Text, At;
    assert ValueText(f) == "\"" + f.value + "\"";
    hide ValueText;
    QuotedPieces(s, q, f.value);
    BlanksEnd(s, hi, q);
    QuotedReads(s, hi, q, f.value);
  }

  lemma RawValueReads(s: string, hi: nat, q: nat, f: Field)
    requires !f.isString && hi <= |s| && q + |f.value| < hi && At(s, q, f.value)
    requires s[q + |f.value|] == ',' || s[q + |f.value|] == '}'
    ensures SameValue(s, hi, q, f) <==> IsJson(f.value)
    ensures SameValue(s, hi, q, f) ==> SkipBlanks(s, hi, q) == q && Value(s, hi, q).next == q + |f.value|
  {
    hide Value, SkipBlanks, IsJson, Text, At;
    AtIsText(s, q, f.value);
    if IsJson(f.value) {
      RawReads(s, hi, q, f.value);
    } else if SameValue(s, hi, q, f) {
      RawReadIsJson(s, hi, q, f.value);
    }
  }

  /** A value is read as what was given exactly when it is fit. */
  lemma ValueReads(s: string, hi: nat, q: nat, f: Field)
    requires hi <= |s| && q + |ValueText(f)| < hi && At(s, q, ValueText(f))
    requires s[q + |ValueText(f)|] == ',' || s[q + |ValueText(f)|] == '}'
    ensures SameValue(s, hi, q, f) <==> Fit(f)
    ensures SameValue(s, hi, q, f) ==> SkipBlanks(s, hi, q) == q && Value(s, hi, q).next == q + |ValueText(f)|
  {
    hide Value, SkipBlanks, Clean, IsJson, At, SameValue;
    if f.isString {
      QuotedValueReads(s, hi, q, f);
    } else {
      RawValueReads(s, hi, q, f);
    }
  }

  lemma KeyPieces(s: string, p: nat, key: string)
    requires At(s, p, "\"" + key + "\":")
    ensures p + |key| + 3 <= |s| && s[p] == '"' && s[p + |key| + 1] == '"' && s[p + |key| + 2] == ':'
    ensures At(s, p + 1, key) && Text(s, Span(p + 1, p + 1 + |key|)) == key
  {
    var text := "\"" + key + "\":";
    AtChar(s, p, text, 0);
    AtChar(s, p, text, |key| + 1);
    AtChar(s, p, text, |key| + 2);
    AtSplit(s, p, "\"" + key, "\":");
    AtSplit(s, p, "\"", key);
    AtIsText(s, p + 1, key);
  }

  /** So is a pair. */
  lemma FieldReads(s: string, hi: nat, p: nat, f: Field)
    requires Clean(f.key) && hi <= |s| && p + |FieldText(f)| < hi && At(s, p, FieldText(f))
    requires s[p + |FieldText(f)|] == ',' || s[p + |FieldText(f)|] == '}'
    ensures s[p] == '"'
    ensures var m := Member(s, hi, p);
            && (m.Ok? && DecodePair(s, m.v) == f <==> Fit(f))
            && (Fit(f) ==> m.next == p + |FieldText(f)|)
  {
    hide Value, Member, SkipBlanks, Clean, Text, At, ValueText, Fit, StringEnd;
    var q := p + |f.key| + 3;
    assert KeyText(f) == "\"" + f.key + "\":";
    AtSplit(s, p, KeyText(f), ValueText(f));
    assert |FieldText(f)| == |f.key| + 3 + |ValueText(f)|;
    hide KeyText, FieldText;
    KeyPieces(s, p, f.key);
    ValueReads(s, hi, q, f);
    StringAt(s, hi, p + 1, f.key);
    BlanksEnd(s, hi, p + |f.key| + 2);
    MemberStep(s, hi, p);
  }

  // ---- The list of fields. ----

  /** What stands right after a field. */
  lemma AfterField(s: string, k: nat, rest: seq<Field>)
    requires At(s, k, RestText(rest) + "}")
    ensures k < |s| && s[k] == if rest == [] then '}' else ','
  {
    AtChar(s, k, RestText(rest) + "}", 0);
  }

  lemma NextField(s: string, k: nat, rest: seq<Field>)
    requires rest != [] && At(s, k, RestText(rest) + "}")
    ensures At(s, k + 1, FieldText(rest[0]) + (RestText(rest[1..]) + "}"))
    ensures |RestText(rest)| == 1 + |FieldText(rest[0])| + |RestText(rest[1..])|
  {
    hide FieldText, At;
    var tail := FieldText(rest[0]) + (RestText(rest[1..]) + "}");
    assert RestText(rest) + "}" == "," + tail;
    AtSplit(s, k, ",", tail);
  }

  lemma FieldsSplit(fs: seq<Field>)
    requires fs != []
    ensures AllFit(fs) <==> Fit(fs[0]) && AllFit(fs[1..])
    ensures CleanKeys(fs) ==> Clean(fs[0].key) && CleanKeys(fs[1..])
  {
    assert forall k :: 1 <= k < |fs| ==> fs[k] == fs[1..][k - 1];
  }

  lemma PairsFirst(s: string, ps: seq<Pair>, fs: seq<Field>)
    requires ps != [] && fs != []
    ensures DecodePairs(s, ps) == fs <==> DecodePair(s, ps[0]) == fs[0] && DecodePairs(s, ps[1..]) == fs[1..]
  {
    var all := DecodePairs(s, ps);
    assert all[0] == DecodePair(s, ps[0]) && all[1..] == DecodePairs(s, ps[1..]);
    assert fs == [fs[0]] + fs[1..];
  }

  lemma NoPairs(s: string)
    ensures DecodePairs(s, []) == [] && AllFit([]) && RestText([]) == ""
  {
  }

  lemma {:induction false} FieldsRead(s: string, hi: nat, p: nat, fs: seq<Field>)
    requires fs != [] && CleanKeys(fs) && hi <= |s|
    requires At(s, p, FieldText(fs[0]) + (RestText(fs[1..]) + "}"))
    requires p + |FieldText(fs[0])| + |RestText(fs[1..])| + 1 <= hi
    ensures s[p] == '"'
    ensures var r := Members(s, hi, p);
            && (r.Ok? && DecodePairs(s, r.v) == fs <==> AllFit(fs))
            && (AllFit(fs) ==> r.next == p + |FieldText(fs[0])| + |RestText(fs[1..])| + 1)
    decreases |fs|
  {
    hide Value, Member, Members, FieldText, RestText, Clean, DecodePairs, DecodePair, At, Fit, AllFit, CleanKeys,
         SkipBlanks;
    var f, rest := fs[0], fs[1..];
    var k := p + |FieldText(f)|;
    AtSplit(s, p, FieldText(f), RestText(rest) + "}");
    FieldsSplit(fs);
    AfterField(s, k, rest);
    FieldReads(s, hi, p, f);
    MembersStep(s, hi, p);
    var r := Members(s, hi, p);
    if r.Ok? {
      PairsFirst(s, r.v, fs);
    }
    if Fit(f) {
      BlanksEnd(s, hi, k);
      NoPairs(s);
      if rest == [] {
        assert r.v[1..] == [];
      } else {
        NextField(s, k, rest);
        FieldsRead(s, hi, k + 1, rest);
        BlanksEnd(s, hi, k + 1);
        assert r.Ok? ==> r.v[1..] == Members(s, hi, k + 1).v;
      }
    }
  }

  /**
   The receiver reads back exactly the keys and values that were given, in order, if and only if
   every quoted value is clean and every other value is one JSON value.
   */
  lemma ObjectReads(fs: seq<Field>)
    requires CleanKeys(fs)
    ensures DecodeObject(ObjectText(fs)) == Some(fs) <==> AllFit(fs)
    ensures AllFit(fs) ==> IsJson(ObjectText(fs))
  {
    hide Value, Members, FieldText, RestText, Clean, DecodePairs, AllFit, CleanKeys;
    var b := ObjectText(fs);
    NoPairs(b);
    assert b[0] == '{' && b[|b| - 1] == '}';
    BlanksEnd(b, |b|, 0);
    BlanksEnd(b, |b|, |b|);
    ValueStep(b, |b|, 0);
    if fs != [] {
      var tail := FieldText(fs[0]) + (RestText(fs[1..]) + "}");
      assert b == "{" + tail;
      assert At(b, 0, "{" + tail);
      AtSplit(b, 0, "{", tail);
      FieldsRead(b, |b|, 1, fs);
    }
    BlanksEnd(b, |b|, 1);
  }

  // ---- An object of one field. ----

  lemma ObjectOfOneField(f: Field)
    ensures ObjectText([f]) == "{" + FieldText(f) + "}"
  {
    hide FieldText;
    assert [f][1..] == [] && FieldsText([f]) == FieldText(f) + RestText([]);
  }

  lemma OneFieldLaid(f: Field)
    ensures var s := ObjectText([f]);
            var q := |f.key| + 4;
            && |s| == q + |ValueText(f)| + 1
            && s[0] == '{' && s[1] == '"' && s[q + |ValueText(f)|] == '}'
            && At(s, 1, "\"" + f.key + "\":") && At(s, q, ValueText(f))
  {
    hide ValueText, At;
    var quoted, value := "\"" + f.key + "\":", ValueText(f);
    ObjectOfOneField(f);
    var s := ObjectText([f]);
    assert s == "{" + (quoted + (value + "}"));
    WholeStands(s);
    AtSplit(s, 0, "{", quoted + (value + "}"));
    AtSplit(s, 1, quoted, value + "}");
    AtSplit(s, |f.key| + 4, value, "}");
    AtChar(s, 1, quoted, 0);
  }

  lemma WholeStands(s: string)
    ensures At(s, 0, s)
  {
  }

  /** Where the value of a single field is read, the object is read with it as its only pair. */
  lemma OneFieldRead(f: Field)
    requires Clean(f.key) && ValueText(f) != "" && !IsBlank(ValueText(f)[0])
    requires var s, q := ObjectText([f]), |f.key| + 4;
             q <= |s| && Value(s, |s|, q).Ok? && Value(s, |s|, q).next == q + |ValueText(f)|
    ensures var s, q := ObjectText([f]), |f.key| + 4;
            && Document(s, 0, |s|) == Some(Obj(0, |s|, [Pair(Span(2, 2 + |f.key|), Value(s, |s|, q).v)]))
            && Text(s, Span(2, 2 + |f.key|)) == f.key
  {
    hide Value, Member, Clean, ObjectText, At, ValueText;
    var s, q := ObjectText([f]), |f.key| + 4;
    OneFieldLaid(f);
    KeyAt(s, 1, f.key);
    AtChar(s, q, ValueText(f), 0);
    MemberAt(s, |s|, 1, f.key);
    ObjectOfOne(s, |s|, 0, Member(s, |s|, 1).v, q + |ValueText(f)|);
    BlanksEnd(s, |s|, 0);
    BlanksEnd(s, |s|, |s|);
  }

  // ---- The onboarding body. ----

  /** What an onboarding request says about the thing; fields that are not given are left out. */
  datatype Thing = Thing(
    idKey: string, id: Option<string>, password: Option<string>,
    thingType: Option<string>, properties: Option<string>, firmware: Option<string>, layout: Option<string>)

  function Given(key: string, value: Option<string>, isString: bool): seq<Field> {
    if value.Some? then [Field(key, value.value, isString)] else []
  }

  function ThingFields(t: Thing): seq<Field> {
    Given(t.idKey, t.id, true) + OtherFields(t)
  }

  function OtherFields(t: Thing): seq<Field> {
    Given("thingPassword", t.password, true)
    + (Given("thingType", t.thingType, true)
       + (Given("thingProperties", t.properties, false)
          + (Given("firmwareVersion", t.firmware, true)
             + Given("layoutPosition", t.layout, true))))
  }

  /** The first field with this key. */
  function Lookup(fs: seq<Field>, key: string): Option<Field> {
    if fs == [] then None else if fs[0].key == key then Some(fs[0]) else Lookup(fs[1..], key)
  }

  lemma {:induction false} LookupConcat(a: seq<Field>, b: seq<Field>, key: string)
    ensures Lookup(a + b, key) == if Lookup(a, key).Some? then Lookup(a, key) else Lookup(b, key)
    decreases |a|
  {
    if a == [] {
      assert a + b == b;
    } else {
      assert (a + b)[0] == a[0] && (a + b)[1..] == a[1..] + b;
      LookupConcat(a[1..], b, key);
    }
  }

  /** A field that is there exactly when its value was given. */
  ghost predicate Carries(fs: seq<Field>, key: string, value: Option<string>, isString: bool) {
    Lookup(fs, key) == if value.Some? then Some(Field(key, value.value, isString)) else None
  }

  lemma GivenCarries(key: string, value: Option<string>, isString: bool, other: string)
    ensures Lookup(Given(key, value, isString), other) ==
            if key == other && value.Some? then Some(Field(key, value.value, isString)) else None
  {
    if value.Some? {
      assert Given(key, value, isString)[1..] == [];
    }
  }

  lemma ThingLookup(t: Thing, key: string)
    ensures Lookup(ThingFields(t), key) ==
            if key == t.idKey && t.id.Some? then Some(Field(t.idKey, t.id.value, true))
            else if key == "thingPassword" && t.password.Some? then Some(Field(key, t.password.value, true))
            else if key == "thingType" && t.thingType.Some? then Some(Field(key, t.thingType.value, true))
            else if key == "thingProperties" && t.properties.Some? then Some(Field(key, t.properties.value, false))
            else if key == "firmwareVersion" && t.firmware.Some? then Some(Field(key, t.firmware.value, true))
            else if key == "layoutPosition" && t.layout.Some? then Some(Field(key, t.layout.value, true))
            else None
  {
    hide Given;
    var a, b := Given("thingPassword", t.password, true), Given("thingType", t.thingType, true);
    var c, d := Given("thingProperties", t.properties, false), Given("firmwareVersion", t.firmware, true);
    var e := Given("layoutPosition", t.layout, true);
    LookupConcat(Given(t.idKey, t.id, true), a + (b + (c + (d + e))), key);
    LookupConcat(a, b + (c + (d + e)), key);
    LookupConcat(b, c + (d + e), key);
    LookupConcat(c, d + e, key);
    LookupConcat(d, e, key);
    GivenCarries(t.idKey, t.id, true, key);
    GivenCarries("thingPassword", t.password, true, key);
    GivenCarries("thingType", t.thingType, true, key);
    GivenCarries("thingProperties", t.properties, false, key);
    GivenCarries("firmwareVersion", t.firmware, true, key);
    GivenCarries("layoutPosition", t.layout, true, key);
  }

  /** Every value that is given stands under its own key, and nothing else is there. */
  lemma ThingKeys(t: Thing)
    requires t.idKey == "vendorThingID" || t.idKey == "thingID"
    ensures var fs := ThingFields(t);
            && Carries(fs, t.idKey, t.id, true) && Carries(fs, "thingPassword", t.password, true)
            && Carries(fs, "thingType", t.thingType, true) && Carries(fs, "thingProperties", t.properties, false)
            && Carries(fs, "firmwareVersion", t.firmware, true) && Carries(fs, "layoutPosition", t.layout, true)
    ensures forall f :: f in ThingFields(t) ==>
              f.key in {t.idKey, "thingPassword", "thingType", "thingProperties", "firmwareVersion", "layoutPosition"}
  {
    hide Lookup, ThingFields;
    assert |"vendorThingID"| == 13 && |"thingID"| == 7 && |"thingPassword"| == 13 && |"thingType"| == 9;
    assert |"thingProperties"| == 15 && |"firmwareVersion"| == 15 && |"layoutPosition"| == 14;
    assert "vendorThingID"[0] == 'v' && "thingPassword"[0] == 't' && "thingProperties"[0] == 't';
    assert "firmwareVersion"[0] == 'f';
    ThingLookup(t, t.idKey);
    ThingLookup(t, "thingPassword");
    ThingLookup(t, "thingType");
    ThingLookup(t, "thingProperties");
    ThingLookup(t, "firmwareVersion");
    ThingLookup(t, "layoutPosition");
    NothingElse(t);
  }

  /** The place of a key in an onboarding body; the identifier, under either name, comes first. */
  function Rank(key: string): nat {
    if key == "thingPassword" then 1
    else if key == "thingType" then 2
    else if key == "thingProperties" then 3
    else if key == "firmwareVersion" then 4
    else if key == "layoutPosition" then 5
    else 0
  }

  ghost predicate InOrder(fs: seq<Field>) {
    forall i, j :: 0 <= i < j < |fs| ==> Rank(fs[i].key) < Rank(fs[j].key)
  }

  lemma GivenFirst(key: string, value: Option<string>, isString: bool, rest: seq<Field>)
    requires InOrder(rest) && forall f :: f in rest ==> Rank(key) < Rank(f.key)
    ensures InOrder(Given(key, value, isString) + rest)
    ensures forall f :: f in Given(key, value, isString) + rest ==> Rank(key) <= Rank(f.key)
  {
    hide Rank;
    var fs := Given(key, value, isString) + rest;
    forall i, j | 0 <= i < j < |fs| ensures Rank(fs[i].key) < Rank(fs[j].key) {
      if value.Some? {
        assert fs[j] == rest[j - 1] && fs[j] in rest;
        if i > 0 {
          assert fs[i] == rest[i - 1];
        }
      } else {
        assert fs == rest;
      }
    }
  }

  lemma Ranks()
    ensures Rank("vendorThingID") == Rank("thingID") == 0
    ensures Rank("thingPassword") == 1 && Rank("thingType") == 2 && Rank("thingProperties") == 3
    ensures Rank("firmwareVersion") == 4 && Rank("layoutPosition") == 5
  {
    assert |"vendorThingID"| == 13 && |"thingID"| == 7 && |"thingPassword"| == 13 && |"thingType"| == 9;
    assert |"thingProperties"| == 15 && |"firmwareVersion"| == 15 && |"layoutPosition"| == 14;
    assert "vendorThingID"[0] == 'v' && "thingPassword"[0] == 't' && "thingProperties"[0] == 't';
    assert "firmwareVersion"[0] == 'f';
  }

  /** The given values stand in the order of the calls that write them. */
  lemma ThingOrder(t: Thing)
    requires t.idKey == "vendorThingID" || t.idKey == "thingID"
    ensures InOrder(ThingFields(t))
  {
    hide Rank, Given, InOrder;
    Ranks();
    var c := Given("thingProperties", t.properties, false);
    NoFields();
    GivenFirst("layoutPosition", t.layout, true, []);
    var e := Given("layoutPosition", t.layout, true);
    assert e + [] == e;
    GivenFirst("firmwareVersion", t.firmware, true, e);
    var d := Given("firmwareVersion", t.firmware, true) + e;
    GivenFirst("thingProperties", t.properties, false, d);
    GivenFirst("thingType", t.thingType, true, c + d);
    GivenFirst("thingPassword", t.password, true, Given("thingType", t.thingType, true) + (c + d));
    GivenFirst(t.idKey, t.id, true, OtherFields(t));
  }

  lemma NoFields()
    ensures InOrder([])
  {
  }

  lemma NothingElse(t: Thing)
    ensures forall f :: f in ThingFields(t) ==>
              f.key in {t.idKey, "thingPassword", "thingType", "thingProperties", "firmwareVersion", "layoutPosition"}
  {
  }

  ghost predicate Unescaped(t: Thing) {
    && (t.id.Some? ==> Clean(t.id.value)) && (t.password.Some? ==> Clean(t.password.value))
    && (t.thingType.Some? ==> Clean(t.thingType.value)) && (t.properties.Some? ==> IsJson(t.properties.value))
    && (t.firmware.Some? ==> Clean(t.firmware.value)) && (t.layout.Some? ==> Clean(t.layout.value))
  }

  lemma FitConcat(a: seq<Field>, b: seq<Field>)
    ensures AllFit(a + b) <==> AllFit(a) && AllFit(b)
    ensures CleanKeys(a) && CleanKeys(b) ==> CleanKeys(a + b)
  {
    var c := a + b;
    assert forall k :: 0 <= k < |a| ==> c[k] == a[k];
    assert forall k :: 0 <= k < |b| ==> b[k] == c[|a| + k];
  }

  lemma GivenFits(key: string, value: Option<string>, isString: bool)
    ensures AllFit(Given(key, value, isString)) <==>
              (value.Some? ==> if isString then Clean(value.value) else IsJson(value.value))
    ensures Clean(key) ==> CleanKeys(Given(key, value, isString))
  {
    hide Clean, IsJson;
    if value.Some? {
      assert Given(key, value, isString)[0] == Field(key, value.value, isString);
    }
  }

  /**
   For every choice of optional fields: the receiver of an onboarding request reads in it exactly the given keys
   and values, in order, if and only if the given texts need no escaping and the properties are one JSON value.
   */
  lemma ThingReads(t: Thing)
    requires Clean(t.idKey)
    ensures DecodeObject(ObjectText(ThingFields(t))) == Some(ThingFields(t)) <==> Unescaped(t)
  {
    hide Clean, IsJson, ObjectText, DecodeObject, AllFit, CleanKeys, Given;
    var a, b, c := Given("thingPassword", t.password, true), Given("thingType", t.thingType, true),
        Given("thingProperties", t.properties, false);
    var d, e := Given("firmwareVersion", t.firmware, true), Given("layoutPosition", t.layout, true);
    PlainIsClean("thingPassword");
    PlainIsClean("thingType");
    PlainIsClean("thingProperties");
    PlainIsClean("firmwareVersion");
    PlainIsClean("layoutPosition");
    GivenFits(t.idKey, t.id, true);
    GivenFits("thingPassword", t.password, true);
    GivenFits("thingType", t.thingType, true);
    GivenFits("thingProperties", t.properties, false);
    GivenFits("firmwareVersion", t.firmware, true);
    GivenFits("layoutPosition", t.layout, true);
    FitConcat(Given(t.idKey, t.id, true), a + (b + (c + (d + e))));
    FitConcat(a, b + (c + (d + e)));
    FitConcat(b, c + (d + e));
    FitConcat(c, d + e);
    FitConcat(d, e);
    ObjectReads(ThingFields(t));
  }

  function ThingOut(room: nat, o: Out, t: Thing): Out {
    var o1 := Put(room, o, "{");
    var o2 := KeyValueOut(room, o1, Some(t.idKey), t.id, false, true);
    var o3 := KeyValueOut(room, o2, Some("thingPassword"), t.password, true, true);
    var o4 := OptionalOut(room, o3, Some("thingType"), t.thingType, true, true);
    var o5 := OptionalOut(room, o4, Some("thingProperties"), t.properties, true, false);
    var o6 := OptionalOut(room, o5, Some("firmwareVersion"), t.firmware, true, true);
    var o7 := OptionalOut(room, o6, Some("layoutPosition"), t.layout, true, true);
    Put(room, o7, "}")
  }

  lemma FieldIsKeyValue(key: string, value: string, isString: bool)
    ensures FieldText(Field(key, value, isString)) == KeyValueText(key, value, false, isString)
    ensures "," + FieldText(Field(key, value, isString)) == KeyValueText(key, value, true, isString)
    ensures RestText([Field(key, value, isString)]) == KeyValueText(key, value, true, isString)
  {
    var f := Field(key, value, isString);
    assert "" + "\"" + key + "\":" == KeyText(f);
    assert "," + "\"" + key + "\":" == "," + KeyText(f);
    assert RestText([f]) == "," + FieldText(f) + RestText([]);
    assert ("," + KeyText(f)) + ValueText(f) == "," + (KeyText(f) + ValueText(f));
  }

  lemma OptionalExact(room: nat, o: Out, key: string, value: Option<string>, isString: bool)
    requires o.ok ==> |o.body| <= room
    ensures Exact(room, o, OptionalOut(room, o, Some(key), value, true, isString),
              RestText(Given(key, value, isString)))
  {
    hide KeyValueText, FieldText, KeyValueOut;
    if value.Some? {
      FieldIsKeyValue(key, value.value, isString);
      KeyValueExact(room, o, key, value.value, true, isString);
    }
  }

  lemma {:induction false} RestConcat(a: seq<Field>, b: seq<Field>)
    ensures RestText(a + b) == RestText(a) + RestText(b)
    decreases |a|
  {
    hide FieldText;
    if a == [] {
      assert a + b == b;
    } else {
      RestConcat(a[1..], b);
      assert (a + b)[0] == a[0] && (a + b)[1..] == a[1..] + b;
      var first := "," + FieldText(a[0]);
      assert RestText(a + b) == first + RestText(a[1..] + b);
    }
  }

  lemma OtherText(t: Thing)
    requires t.password.Some?
    ensures RestText(OtherFields(t)) ==
            KeyValueText("thingPassword", t.password.value, true, true)
            + (RestText(Given("thingType", t.thingType, true))
               + (RestText(Given("thingProperties", t.properties, false))
                  + (RestText(Given("firmwareVersion", t.firmware, true))
                     + RestText(Given("layoutPosition", t.layout, true)))))
  {
    hide RestText, KeyValueText, Given, FieldText;
    var a := Given("thingPassword", t.password, true);
    var b := Given("thingType", t.thingType, true);
    var c := Given("thingProperties", t.properties, false);
    var d := Given("firmwareVersion", t.firmware, true);
    var e := Given("layoutPosition", t.layout, true);
    RestConcat(a, b + (c + (d + e)));
    RestConcat(b, c + (d + e));
    RestConcat(c, d + e);
    RestConcat(d, e);
    GivenPassword(t);
  }

  lemma GivenPassword(t: Thing)
    requires t.password.Some?
    ensures RestText(Given("thingPassword", t.password, true))
              == KeyValueText("thingPassword", t.password.value, true, true)
  {
    hide KeyValueText, FieldText;
    FieldIsKeyValue("thingPassword", t.password.value, true);
  }

  /**
   The onboarding body is one object of exactly the given fields, in order; it is written as a whole
   exactly when identifier and password are given and the whole fits.
   */
  lemma ThingExact(room: nat, o: Out, t: Thing)
    ensures var r := ThingOut(room, o, t);
            && (r.ok <==> o.ok && t.id.Some? && t.password.Some? && |o.body| + |ObjectText(ThingFields(t))| <= room)
            && (r.ok ==> r.body == o.body + ObjectText(ThingFields(t)))
  {
    hide KeyValueOut, KeyValueText, OptionalOut, RestText, Given, FieldText, OtherFields;
    var o1 := Put(room, o, "{");
    var o2 := KeyValueOut(room, o1, Some(t.idKey), t.id, false, true);
    var o3 := KeyValueOut(room, o2, Some("thingPassword"), t.password, true, true);
    NotGiven(room, o1, Some(t.idKey), t.id, false);
    NotGiven(room, o2, Some("thingPassword"), t.password, true);
    var o4 := OptionalOut(room, o3, Some("thingType"), t.thingType, true, true);
    var o5 := OptionalOut(room, o4, Some("thingProperties"), t.properties, true, false);
    var o6 := OptionalOut(room, o5, Some("firmwareVersion"), t.firmware, true, true);
    var o7 := OptionalOut(room, o6, Some("layoutPosition"), t.layout, true, true);
    NeverRecovers(room, o3, "thingType", t.thingType, true);
    NeverRecovers(room, o4, "thingProperties", t.properties, false);
    NeverRecovers(room, o5, "firmwareVersion", t.firmware, true);
    NeverRecovers(room, o6, "layoutPosition", t.layout, true);
    if t.id.Some? && t.password.Some? {
      var key, pass := KeyValueText(t.idKey, t.id.value, false, true),
          KeyValueText("thingPassword", t.password.value, true, true);
      KeyValueExact(room, o1, t.idKey, t.id.value, false, true);
      KeyValueExact(room, o2, "thingPassword", t.password.value, true, true);
      OptionalExact(room, o3, "thingType", t.thingType, true);
      OptionalExact(room, o4, "thingProperties", t.properties, false);
      OptionalExact(room, o5, "firmwareVersion", t.firmware, true);
      OptionalExact(room, o6, "layoutPosition", t.layout, true);
      var e := RestText(Given("layoutPosition", t.layout, true));
      var d := RestText(Given("firmwareVersion", t.firmware, true));
      var c := RestText(Given("thingProperties", t.properties, false));
      var b := RestText(Given("thingType", t.thingType, true));
      ExactThen(room, o5, o6, d, o7, e);
      ExactThen(room, o4, o5, c, o7, d + e);
      ExactThen(room, o3, o4, b, o7, c + (d + e));
      ExactThen(room, o2, o3, pass, o7, b + (c + (d + e)));
      ExactThen(room, o1, o2, key, o7, pass + (b + (c + (d + e))));
      ExactThen(room, o, o1, "{", o7, key + (pass + (b + (c + (d + e)))));
      ExactThen(room, o, o7, "{" + (key + (pass + (b + (c + (d + e))))), Put(room, o7, "}"), "}");
      OtherText(t);
      ThingText(t);
    }
  }

  lemma ThingText(t: Thing)
    requires t.id.Some?
    ensures ObjectText(ThingFields(t))
              == "{" + (KeyValueText(t.idKey, t.id.value, false, true) + RestText(OtherFields(t))) + "}"
  {
    hide FieldText, OtherFields, RestText, KeyValueText;
    FieldIsKeyValue(t.idKey, t.id.value, true);
    assert ThingFields(t)[1..] == OtherFields(t);
  }

  lemma NotGiven(room: nat, o: Out, key: Option<string>, value: Option<string>, successor: bool)
    ensures !o.ok || key.None? || value.None? ==> !KeyValueOut(room, o, key, value, successor, true).ok
  {
  }

  lemma NeverRecovers(room: nat, o: Out, key: string, value: Option<string>, isString: bool)
    ensures !o.ok ==> !OptionalOut(room, o, Some(key), value, true, isString).ok
  {
  }

  method AppendThing(kii: Kii, t: Thing) returns (ok: bool)
    modifies kii`body, kii`intact
    ensures ok == ThingOut(kii.room, Out(old(kii.body), true), t).ok
    ensures ok ==> kii.body == ThingOut(kii.room, Out(old(kii.body), true), t).body && kii.intact == old(kii.intact)
  {
    hide KeyValueOut;
    ghost var o1 := Put(kii.room, Out(kii.body, true), "{");
    ok := kii.Append("{");
    NotGiven(kii.room, o1, Some(t.idKey), t.id, false);
    if ok { ok := kii.AppendString(t.idKey, t.id, false); }
    ghost var o2 := KeyValueOut(kii.room, o1, Some(t.idKey), t.id, false, true);
    NotGiven(kii.room, o2, Some("thingPassword"), t.password, true);
    if ok { ok := kii.AppendString("thingPassword", t.password, true); }
    ghost var o3 := KeyValueOut(kii.room, o2, Some("thingPassword"), t.password, true, true);
    NeverRecovers(kii.room, o3, "thingType", t.thingType, true);
    if ok { ok := kii.AppendOptional("thingType", t.thingType, true, true); }
    ghost var o4 := OptionalOut(kii.room, o3, Some("thingType"), t.thingType, true, true);
    NeverRecovers(kii.room, o4, "thingProperties", t.properties, false);
    if ok { ok := kii.AppendOptional("thingProperties", t.properties, true, false); }
    ghost var o5 := OptionalOut(kii.room, o4, Some("thingProperties"), t.properties, true, false);
    NeverRecovers(kii.room, o5, "firmwareVersion", t.firmware, true);
    if ok { ok := kii.AppendOptional("firmwareVersion", t.firmware, true, true); }
    ghost var o6 := OptionalOut(kii.room, o5, Some("firmwareVersion"), t.firmware, true, true);
    NeverRecovers(kii.room, o6, "layoutPosition", t.layout, true);
    if ok { ok := kii.AppendOptional("layoutPosition", t.layout, true, true); }
    if ok { ok := kii.Append("}"); }
  }
}
