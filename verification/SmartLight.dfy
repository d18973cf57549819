/** The smart light of the CC3200 sample: a record of six fields, changed by actions and printed as the state. */
module SmartLight {
  import opened Basics
  import opened Decimal
  import opened Scanner
  import opened ScannerFacts
  import opened Tokens
  import opened Fields
  import opened Api
  import opened Printing
  import opened Bodies

  datatype Light = Light(power: bool, brightness: int32, red: int32, green: int32, blue: int32, temperature: int32)

  // ---- Actions. ----

  /** A boolean field. */
  function ReadBool(s: string, field: Option<Tree>): Option<bool> {
    if field.Some? && field.value.Prim? && Text(s, field.value.Extent()) == "true" then Some(true)
    else if field.Some? && field.value.Prim? && Text(s, field.value.Extent()) == "false" then Some(false)
    else None
  }

  /** An integer field. */
  function ReadInt(s: string, field: Option<Tree>): Option<int32> {
    if field.Some? && field.value.Prim? then ReadInt32(Text(s, field.value.Extent())) else None
  }

  function ElementAt(list: Option<Tree>, k: nat): Option<Tree> {
    if list.Some? && list.value.Arr? && k < |list.value.elems| then Some(list.value.elems[k]) else None
  }

  /** What an action makes of the record; nothing when its name is unknown or a parameter is missing. */
  function Transform(light: Light, name: string, params: string, limit: nat): Option<Light> {
    var doc := Readable(params, 0, |params|, limit);
    if name == "turnPower" then
      var power := ReadBool(params, FindIn(params, doc, "power"));
      if power.Some? then Some(light.(power := power.value)) else None
    else if name == "setBrightness" then
      var n := ReadInt(params, FindIn(params, doc, "brightness"));
      if n.Some? then Some(light.(brightness := n.value)) else None
    else if name == "setColor" then
      var color := FindIn(params, doc, "color");
      var r, g, b := ReadInt(params, ElementAt(color, 0)), ReadInt(params, ElementAt(color, 1)),
          ReadInt(params, ElementAt(color, 2));
      if r.Some? && g.Some? && b.Some? then Some(light.(red := r.value, green := g.value, blue := b.value)) else None
    else if name == "setColorTemperature" then
      var n := ReadInt(params, FindIn(params, doc, "colorTemperature"));
      if n.Some? then Some(light.(temperature := n.value)) else None
    else None
  }

  /** The guard of the handler refuses a message only when both its schema and its version are wrong. */
  predicate SchemaAccepted(schema: string, version: int) {
    schema == "SmartLightDemo" || version == 1
  }

  function Handled(light: Light, schema: string, version: int, name: string, params: string,
      limit: nat): Option<Light> {
    if SchemaAccepted(schema, version) then Transform(light, name, params, limit) else None
  }

  /** The integer, or the boolean, that a field of the parameters holds. */
  function Number(params: string, key: string, limit: nat): Option<int32> {
    ReadInt(params, FindIn(params, Readable(params, 0, |params|, limit), key))
  }

  function Truth(params: string, key: string, limit: nat): Option<bool> {
    ReadBool(params, FindIn(params, Readable(params, 0, |params|, limit), key))
  }

  function Component(params: string, k: nat, limit: nat): Option<int32> {
    ReadInt(params, ElementAt(FindIn(params, Readable(params, 0, |params|, limit), "color"), k))
  }

  /** Exactly these actions are handled; every other one is refused. */
  lemma HandledExactly(light: Light, schema: string, version: int, name: string, params: string, limit: nat)
    ensures Handled(light, schema, version, name, params, limit).Some? <==>
            && (schema == "SmartLightDemo" || version == 1)
            && (|| (name == "turnPower" && Truth(params, "power", limit).Some?)
                || (name == "setBrightness" && Number(params, "brightness", limit).Some?)
                || (name == "setColor" && Component(params, 0, limit).Some? && Component(params, 1, limit).Some?
                    && Component(params, 2, limit).Some?)
                || (name == "setColorTemperature" && Number(params, "colorTemperature", limit).Some?))
  {
    hide Readable, FindIn, ReadInt, ReadBool, ElementAt;
    assert |"turnPower"| == 9 && |"setBrightness"| == 13 && |"setColor"| == 8 && |"setColorTemperature"| == 19;
  }

  /** A colour is taken as a whole: each component from its own place, or none. */
  lemma ColorWhole(light: Light, params: string, limit: nat)
    ensures var after := Transform(light, "setColor", params, limit);
            after.Some? ==>
              && Component(params, 0, limit) == Some(after.value.red)
              && Component(params, 1, limit) == Some(after.value.green)
              && Component(params, 2, limit) == Some(after.value.blue)
  {
    hide Readable, FindIn, ReadInt, ElementAt;
    assert |"turnPower"| == 9 && |"setBrightness"| == 13 && |"setColor"| == 8;
  }

  /** An action changes no field but those that its name says. */
  lemma ActionFrame(light: Light, name: string, params: string, limit: nat)
    requires Transform(light, name, params, limit).Some?
    ensures var after := Transform(light, name, params, limit).value;
            && (name != "turnPower" ==> after.power == light.power)
            && (name != "setBrightness" ==> after.brightness == light.brightness)
            && (name != "setColor" ==> after.red == light.red && after.green == light.green && after.blue == light.blue)
            && (name != "setColorTemperature" ==> after.temperature == light.temperature)
            && name in {"turnPower", "setBrightness", "setColor", "setColorTemperature"}
  {
    hide Readable, FindIn, ReadInt, ReadBool, ElementAt;
  }

  /** The parameters of an action as a sender writes them: one key with one value. */
  function Parameters(key: string, value: string): string {
    ObjectText([Field(key, value, false)])
  }

  /** A parameter that is a primitive is found with its text. */
  lemma PrimitiveParameter(key: string, value: string, limit: nat)
    requires Clean(key) && AllPrim(value) && limit >= 3
    ensures var s := Parameters(key, value);
            var field := FindIn(s, Readable(s, 0, |s|, limit), key);
            field.Some? && field.value.Prim? && Text(s, field.value.Extent()) == value
  {
    hide Value, Clean, Document, ObjectText;
    var s, q := Parameters(key, value), |key| + 4;
    OneFieldLaid(Field(key, value, false));
    PrimAt(s, |s|, q, value);
    OneFieldRead(Field(key, value, false));
    AtIsText(s, q, value);
    var p := Pair(Span(2, 2 + |key|), Prim(q, q + |value|));
    assert PairTokens([p], 0) == TokensOfPair(p, 0) + PairTokens([p][1..], 0);
    assert Count(Obj(0, |s|, [p])) == 3;
    assert Find(s, [p], key) == Some(p.value);
  }

  /**
   Asked to set a field to a value, the handler sets that field to that value, for every value of the field's type.
   */
  lemma SwitchDoes(light: Light, on: bool, limit: nat)
    requires limit >= 3
    ensures Transform(light, "turnPower", Parameters("power", if on then "true" else "false"), limit)
              == Some(light.(power := on))
  {
    hide Clean, Readable, FindIn, Parameters;
    PlainIsClean("power");
    assert AllPrim("true") && AllPrim("false");
    PrimitiveParameter("power", if on then "true" else "false", limit);
  }

  lemma NumberDoes(light: Light, n: int32, limit: nat)
    requires limit >= 3
    ensures Transform(light, "setBrightness", Parameters("brightness", Signed(n)), limit)
              == Some(light.(brightness := n))
    ensures Transform(light, "setColorTemperature", Parameters("colorTemperature", Signed(n)), limit)
              == Some(light.(temperature := n))
  {
    hide Clean, Readable, FindIn, Signed, ReadInt32, Parameters;
    PlainIsClean("brightness");
    PlainIsClean("colorTemperature");
    SignedIsPrim(n);
    Int32RoundTrip(n);
    PrimitiveParameter("brightness", Signed(n), limit);
    PrimitiveParameter("colorTemperature", Signed(n), limit);
  }

  function ColorValue(r: int32, g: int32, b: int32): string {
    "[" + Signed(r) + "," + Signed(g) + "," + Signed(b) + "]"
  }

  /** An array of three printed integers, wherever it stands. */
  lemma ThreeRead(s: string, hi: nat, p: nat, r: int32, g: int32, b: int32)
    requires At(s, p, ColorValue(r, g, b)) && p + |ColorValue(r, g, b)| <= hi <= |s|
    ensures var v := Value(s, hi, p);
            && v.Ok? && v.next == p + |ColorValue(r, g, b)| && v.v.Arr? && |v.v.elems| == 3
            && v.v.Extent() == Span(p, v.next)
            && v.v.elems[0].Prim? && v.v.elems[1].Prim? && v.v.elems[2].Prim?
            && ReadInt(s, Some(v.v.elems[0])) == Some(r) && ReadInt(s, Some(v.v.elems[1])) == Some(g)
            && ReadInt(s, Some(v.v.elems[2])) == Some(b)
  {
    hide Signed, Value, Elements, ReadInt, ColorValue, At, SkipBlanks;
    ThreeLaid(s, p, r, g, b);
    var i, j := p + 1 + |Signed(r)|, p + 2 + |Signed(r)| + |Signed(g)|;
    IntReads(s, hi, p + 1, r);
    IntReads(s, hi, i + 1, g);
    IntReads(s, hi, j + 1, b);
    ElementsStep(s, hi, j + 1);
    ElementsStep(s, hi, i + 1);
    ElementsStep(s, hi, p + 1);
    ValueStep(s, hi, p);
  }

  lemma ColorGrouped(r: int32, g: int32, b: int32)
    ensures ColorValue(r, g, b) == "[" + (Signed(r) + ("," + (Signed(g) + ("," + (Signed(b) + "]")))))
  {
    hide Signed;
  }

  lemma ThreeLaid(s: string, p: nat, r: int32, g: int32, b: int32)
    requires At(s, p, ColorValue(r, g, b))
    ensures var x, y, z := Signed(r), Signed(g), Signed(b);
            var i, j := p + 1 + |x|, p + 2 + |x| + |y|;
            && |ColorValue(r, g, b)| == j + 2 + |z| - p && j + 2 + |z| <= |s|
            && s[p] == '[' && s[i] == ',' && s[j] == ',' && s[j + 1 + |z|] == ']'
            && At(s, p + 1, x) && At(s, i + 1, y) && At(s, j + 1, z)
  {
    hide Signed, At, ColorValue;
    var x, y, z := Signed(r), Signed(g), Signed(b);
    ColorGrouped(r, g, b);
    AtSplit(s, p, "[", x + ("," + (y + ("," + (z + "]")))));
    AtSplit(s, p + 1, x, "," + (y + ("," + (z + "]"))));
    var i, j := p + 1 + |x|, p + 2 + |x| + |y|;
    AtSplit(s, i, ",", y + ("," + (z + "]")));
    AtSplit(s, i + 1, y, "," + (z + "]"));
    AtSplit(s, j, ",", z + "]");
    AtSplit(s, j + 1, z, "]");
    AtChar(s, p, "[", 0);
    AtChar(s, i, ",", 0);
    AtChar(s, j, ",", 0);
    AtChar(s, j + 1 + |z|, "]", 0);
  }

  lemma ColorDoes(light: Light, r: int32, g: int32, b: int32, limit: nat)
    requires limit >= 6
    ensures Transform(light, "setColor", Parameters("color", ColorValue(r, g, b)), limit) ==
            Some(light.(red := r, green := g, blue := b))
  {
    hide Clean, Value, ReadInt, Signed, Document, ObjectText;
    PlainIsClean("color");
    var value := ColorValue(r, g, b);
    var s, q := Parameters("color", value), 9;
    OneFieldLaid(Field("color", value, false));
    ThreeRead(s, |s|, q, r, g, b);
    OneFieldRead(Field("color", value, false));
    var list := Value(s, |s|, q).v;
    var p := Pair(Span(2, 7), list);
    CountThree(list);
    assert PairTokens([p], 0) == TokensOfPair(p, 0) + PairTokens([p][1..], 0);
    assert Count(Obj(0, |s|, [p])) == 6;
    assert Find(s, [p], "color") == Some(list);
  }

  lemma CountThree(list: Tree)
    requires list.Arr? && |list.elems| == 3 && list.elems[0].Prim? && list.elems[1].Prim? && list.elems[2].Prim?
    ensures Count(list) == 4
  {
    var es := list.elems;
    assert es[1..][0] == es[1] && es[1..][1..][0] == es[2] && es[1..][1..][1..] == [];
    assert |ElementTokens(es[1..][1..], 0)| == 1;
    assert |ElementTokens(es[1..], 0)| == 2;
    assert |ElementTokens(es, 0)| == 3;
  }

  // ---- Printing. ----

  function PowerText(light: Light): string {
    if light.power then "true" else "false"
  }

  function ColorText(light: Light): string {
    ColorValue(light.red, light.green, light.blue)
  }

  /** The chunks that the state handler writes. */
  function Chunks(light: Light): seq<string> {
    ["{\"power\":", PowerText(light) + ",",
     "\"brightness\":", Signed(light.brightness) + ",",
     "\"color\":", ColorText(light) + ",",
     "\"colorTemperature\":", Signed(light.temperature) + "}"]
  }

  /** Every chunk fits, terminated, the buffer of 256 characters that it is printed into. */
  lemma ChunksFit(light: Light)
    ensures forall k :: 0 <= k < |Chunks(light)| ==> |Chunks(light)[k]| + 1 <= 39 <= 256
  {
    hide Signed;
    Int32Width(light.brightness);
    Int32Width(light.red);
    Int32Width(light.green);
    Int32Width(light.blue);
    Int32Width(light.temperature);
  }

  function StateFields(light: Light): seq<Field> {
    [Field("power", PowerText(light), false), Field("brightness", Signed(light.brightness), false),
     Field("color", ColorText(light), false), Field("colorTemperature", Signed(light.temperature), false)]
  }

  // ---- Reading a printed state. ----

  function ReadColor(text: string): Option<(int32, int32, int32)> {
    var doc := Document(text, 0, |text|);
    if doc.Some? && doc.value.Arr? && |doc.value.elems| == 3 then
      var r, g, b := ReadInt(text, Some(doc.value.elems[0])), ReadInt(text, Some(doc.value.elems[1])),
          ReadInt(text, Some(doc.value.elems[2]));
      if r.Some? && g.Some? && b.Some? then Some((r.value, g.value, b.value)) else None
    else None
  }

  function ReadLight(body: string): Option<Light> {
    var fields := DecodeObject(body);
    if fields.Some? && |fields.value| == 4
       && fields.value[0].key == "power" && fields.value[1].key == "brightness"
       && fields.value[2].key == "color" && fields.value[3].key == "colorTemperature"
       && (fields.value[0].value == "true" || fields.value[0].value == "false")
    then
      var b, t, c := ReadInt32(fields.value[1].value), ReadInt32(fields.value[3].value),
          ReadColor(fields.value[2].value);
      if b.Some? && t.Some? && c.Some?
      then Some(Light(fields.value[0].value == "true", b.value, c.value.0, c.value.1, c.value.2, t.value)) else None
    else None
  }

  lemma SignedIsPrim(n: int)
    ensures AllPrim(Signed(n))
  {
  }

  lemma PrimIsJson(text: string)
    requires AllPrim(text)
    ensures IsJson(text)
  {
    PrimEndAt(text, |text|, 0, |text|);
  }

  /** A printed integer before a delimiter is read as that integer. */
  lemma IntReads(s: string, hi: nat, p: nat, n: int32)
    requires At(s, p, Signed(n)) && hi <= |s| && p + |Signed(n)| < hi
    requires s[p + |Signed(n)|] == ',' || s[p + |Signed(n)|] == ']'
    ensures var e := p + |Signed(n)|;
            && Value(s, hi, p) == Ok(Prim(p, e), e)
            && ReadInt(s, Some(Prim(p, e))) == Some(n)
            && SkipBlanks(s, hi, p) == p && SkipBlanks(s, hi, e) == e
            && s[p] != ']'
  {
    hide Signed, Value, ReadInt32;
    SignedIsPrim(n);
    PrimAt(s, hi, p, Signed(n));
    AtIsText(s, p, Signed(n));
    AtChar(s, p, Signed(n), 0);
    BlanksEnd(s, hi, p);
    BlanksEnd(s, hi, p + |Signed(n)|);
    Int32RoundTrip(n);
  }

  /** A printed colour, read as an array of three integers. */
  lemma ColorReads(light: Light)
    ensures var text := ColorText(light);
            IsJson(text) && ReadColor(text) == Some((light.red, light.green, light.blue))
  {
    hide Value, ReadInt, ColorValue;
    var text := ColorText(light);
    assert At(text, 0, text);
    ThreeRead(text, |text|, 0, light.red, light.green, light.blue);
    ValueNotBlank(text, |text|, 0);
    BlanksEnd(text, |text|, 0);
    BlanksEnd(text, |text|, |text|);
  }

  lemma JoinedOfEight(a: string, b: string, c: string, d: string, e: string, f: string, g: string, h: string)
    ensures Joined([a, b, c, d, e, f, g, h]) == a + (b + (c + (d + (e + (f + (g + h))))))
  {
    var all := [a, b, c, d, e, f, g, h];
    assert all[1..] == [b, c, d, e, f, g, h] && all[1..][1..] == [c, d, e, f, g, h];
    assert [c, d, e, f, g, h][1..] == [d, e, f, g, h] && [d, e, f, g, h][1..] == [e, f, g, h];
    assert [e, f, g, h][1..] == [f, g, h] && [f, g, h][1..] == [g, h] && [g, h][1..] == [h] && [h][1..] == [];
    assert Joined([h]) == h + Joined([]) == h;
    assert Joined([g, h]) == g + Joined([h]);
    assert Joined([e, f, g, h]) == e + (f + Joined([g, h]));
    assert Joined([c, d, e, f, g, h]) == c + (d + Joined([e, f, g, h]));
  }

  lemma ObjectOfFour(f0: Field, f1: Field, f2: Field, f3: Field)
    ensures ObjectText([f0, f1, f2, f3]) ==
            "{" + (FieldText(f0) + ("," + FieldText(f1) + ("," + FieldText(f2) + ("," + FieldText(f3))))) + "}"
  {
    hide FieldText;
    var fs := [f0, f1, f2, f3];
    assert fs[1..] == [f1, f2, f3] && [f1, f2, f3][1..] == [f2, f3] && [f2, f3][1..] == [f3] && [f3][1..] == [];
    assert RestText([f3]) == "," + FieldText(f3) + "";
    assert RestText([f2, f3]) == "," + FieldText(f2) + RestText([f3]);
  }

  lemma Regrouped(k0: string, p: string, k1: string, b: string, k2: string, c: string, k3: string, t: string)
    ensures "{" + ((k0 + p) + ("," + (k1 + b) + ("," + (k2 + c) + ("," + (k3 + t))))) + "}"
         == ("{" + k0) + ((p + ",") + (k1 + ((b + ",") + (k2 + ((c + ",") + (k3 + (t + "}")))))))
  {
  }

  lemma FieldOf(key: string, value: string, quoted: string)
    requires quoted == "\"" + key + "\":"
    ensures FieldText(Field(key, value, false)) == quoted + value
  {
  }

  /** The chunks together are one object of four fields. */
  lemma ChunksAreObject(light: Light)
    ensures Joined(Chunks(light)) == ObjectText(StateFields(light))
  {
    hide Signed, ColorText, PowerText, Joined, ObjectText, FieldText;
    var p, b, c, t := PowerText(light), Signed(light.brightness), ColorText(light), Signed(light.temperature);
    var k1, k2, k3 := "\"brightness\":", "\"color\":", "\"colorTemperature\":";
    var fs := StateFields(light);
    FieldOf("power", p, "\"power\":");
    FieldOf("brightness", b, k1);
    FieldOf("color", c, k2);
    FieldOf("colorTemperature", t, k3);
    JoinedOfEight("{\"power\":", p + ",", k1, b + ",", k2, c + ",", k3, t + "}");
    ObjectOfFour(fs[0], fs[1], fs[2], fs[3]);
    assert "{" + "\"power\":" == "{\"power\":";
    Regrouped("\"power\":", p, k1, b, k2, c, k3, t);
  }

  lemma StateKeysClean(light: Light)
    ensures CleanKeys(StateFields(light))
  {
    hide Signed, Clean, ColorText, PowerText;
    PlainIsClean("power");
    PlainIsClean("brightness");
    PlainIsClean("color");
    PlainIsClean("colorTemperature");
  }

  lemma StateFieldsFit(light: Light)
    ensures AllFit(StateFields(light))
  {
    hide Signed, IsJson, ColorText;
    assert AllPrim("true") && AllPrim("false");
    PrimIsJson(PowerText(light));
    SignedIsPrim(light.brightness);
    PrimIsJson(Signed(light.brightness));
    SignedIsPrim(light.temperature);
    PrimIsJson(Signed(light.temperature));
    ColorReads(light);
  }

  /** Whatever the six fields hold, negative numbers included, the printed state reads back as them. */
  lemma StateRoundTrip(light: Light)
    ensures ReadLight(Joined(Chunks(light))) == Some(light)
  {
    hide Signed, ReadInt32, ReadColor, ColorText, DecodeObject, ObjectText, Chunks, AllFit, CleanKeys;
    ChunksAreObject(light);
    StateKeysClean(light);
    StateFieldsFit(light);
    ObjectReads(StateFields(light));
    ColorReads(light);
    Int32RoundTrip(light.brightness);
    Int32RoundTrip(light.temperature);
  }

  // ---- The device. ----

  class Device {
    var power: bool
    var brightness: int32
    var color: seq<int32>
    var temperature: int32

    ghost predicate Valid()
      reads this
    {
      |color| == 3
    }

    ghost function View(): Light
      requires Valid()
      reads this
    {
      Light(power, brightness, color[0], color[1], color[2], temperature)
    }

    constructor ()
      ensures Valid() && View() == Light(false, 0, 0, 0, 0, 0)
    {
      power, brightness, color, temperature := false, 0, [0, 0, 0], 0;
    }

    /** The copy that is taken under the lock. */
    method GetInfo() returns (light: Light)
      requires Valid()
      ensures light == View()
    {
      light := Light(power, brightness, color[0], color[1], color[2], temperature);
    }

    /** The copy that is put back under the lock. */
    method SetInfo(light: Light)
      requires Valid()
      modifies this
      ensures Valid() && View() == light
    {
      power := light.power;
      brightness := light.brightness;
      color := color[0 := light.red];
      color := color[1 := light.green];
      color := color[2 := light.blue];
      temperature := light.temperature;
    }

    /** A handled action transforms the record; a failed one leaves every field as it was. */
    method ActionHandler(schema: string, version: int, name: string, params: string, limit: nat) returns (ok: bool)
      requires Valid()
      modifies this
      ensures Valid()
      ensures var after := Handled(old(View()), schema, version, name, params, limit);
              ok == after.Some? && View() == if ok then after.value else old(View())
    {
      hide Readable, FindIn, ReadInt, ReadBool, ElementAt;
      if schema != "SmartLightDemo" && version != 1 {
        return false;
      }
      var light := GetInfo();
      var doc := Readable(params, 0, |params|, limit);
      if name == "turnPower" {
        var on := ReadBool(params, FindIn(params, doc, "power"));
        if on.None? {
          return false;
        }
        light := light.(power := on.value);
      } else if name == "setBrightness" {
        var n := ReadInt(params, FindIn(params, doc, "brightness"));
        if n.None? {
          return false;
        }
        light := light.(brightness := n.value);
      } else if name == "setColor" {
        var list := FindIn(params, doc, "color");
        var r, g, b := ReadInt(params, ElementAt(list, 0)), ReadInt(params, ElementAt(list, 1)),
            ReadInt(params, ElementAt(list, 2));
        if r.None? || g.None? || b.None? {
          return false;
        }
        light := light.(red := r.value, green := g.value, blue := b.value);
      } else if name == "setColorTemperature" {
        var n := ReadInt(params, FindIn(params, doc, "colorTemperature"));
        if n.None? {
          return false;
        }
        light := light.(temperature := n.value);
      } else {
        return false;
      }
      SetInfo(light);
      ok := true;
    }

    /** Prints a copy of the record into the request; when it succeeds the body has grown by the state. */
    method StateHandler(kii: Kii) returns (ok: bool)
      requires Valid() && |kii.body| <= kii.room
      modifies kii`body, kii`intact
      ensures ok <==> |old(kii.body)| + |Joined(Chunks(View()))| <= kii.room
      ensures ok ==> kii.body == old(kii.body) + Joined(Chunks(View())) && kii.intact == old(kii.intact)
    {
      hide Chunks, Joined, ChunksOut;
      var light := GetInfo();
      ChunksExact(kii.room, Out(kii.body, true), Chunks(light));
      ok := kii.WriteChunks(Chunks(light));
    }
  }
}
