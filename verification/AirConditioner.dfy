/** The air conditioner of the Linux sample: a record of two fields, changed by actions and printed as the state. */
module AirConditioner {
  import opened Basics
  import opened Decimal
  import opened Api
  import opened Printing
  import opened Bodies
  import opened SmartLight

  datatype Conditioner = Conditioner(power: bool, temperature: int32)

  const ALIAS := "AirConditionerAlias"

  // ---- Actions. ----

  function LeadingDigits(text: string): string
    decreases |text|
  {
    if text != "" && '0' <= text[0] <= '9' then [text[0]] + LeadingDigits(text[1..]) else ""
  }

  /** The number that a text starts with, as `atoi` reads it; 0 when it starts with none. */
  function Atoi(text: string): int
    decreases |text|
  {
    if text == "" then 0
    else if text[0] == ' ' || '\t' <= text[0] <= '\r' then Atoi(text[1..])
    else
      var negative := text[0] == '-';
      var n := ReadDigits(LeadingDigits(if negative || text[0] == '+' then text[1..] else text));
      if n.None? then 0 else if negative then 0 - n.value else n.value
  }

  predicate KnownAlias(alias: string) {
    alias == "AirConditionerAlias" || alias == "HumidityAlias"
  }

  /** The number that the handler sets comes from the action's name, not from its parameter. */
  function PresetFrom(name: string): int32 {
    var n := Atoi(name);
    if INT_MIN <= n <= INT_MAX then n else 0
  }

  /** What an action makes of the record; names that are not known change nothing and succeed. */
  function Change(c: Conditioner, alias: string, name: string, params: string): Option<Conditioner> {
    if !KnownAlias(alias) then None
    else if name == "turnPower" then Some(c.(power := params == "true"))
    else if name == "setPresetTemperature" then Some(c.(temperature := PresetFrom(name)))
    else Some(c)
  }

  lemma NameHasNoNumber()
    ensures PresetFrom("setPresetTemperature") == 0
  {
    assert LeadingDigits("setPresetTemperature") == "";
  }

  /** Setting the temperature does what it was asked exactly when it was asked for zero. */
  lemma PresetTemperature(c: Conditioner, alias: string, params: string)
    requires KnownAlias(alias)
    ensures Change(c, alias, "setPresetTemperature", params) == Some(c.(temperature := 0))
    ensures Change(c, alias, "setPresetTemperature", params).value.temperature == Atoi(params) <==> Atoi(params) == 0
  {
    NameHasNoNumber();
  }

  /** Switching: on exactly for the parameter "true", whatever it was, and the temperature is kept. */
  lemma PowerSwitches(c: Conditioner, alias: string, params: string)
    requires alias == "AirConditionerAlias" || alias == "HumidityAlias"
    ensures var after := Change(c, alias, "turnPower", params);
            after.Some? && (after.value.power <==> params == "true") && after.value.temperature == c.temperature
  {
  }

  /** An action is refused exactly for an alias that is neither of the two; an unknown name keeps both fields. */
  lemma OtherActions(c: Conditioner, alias: string, name: string, params: string)
    ensures Change(c, alias, name, params).None? <==> alias != "AirConditionerAlias" && alias != "HumidityAlias"
    ensures Change(c, alias, name, params).Some? && name != "turnPower" && name != "setPresetTemperature" ==>
              Change(c, alias, name, params).value == c
    ensures Change(c, alias, name, params).Some? && name != "turnPower" ==>
              Change(c, alias, name, params).value.power == c.power
  {
  }

  lemma {:induction false} LeadingAll(t: string)
    requires forall k :: 0 <= k < |t| ==> '0' <= t[k] <= '9'
    ensures LeadingDigits(t) == t
    decreases |t|
  {
    if t != "" {
      LeadingAll(t[1..]);
      assert t == [t[0]] + t[1..];
    }
  }

  /** The reading of a number gives back every number that is printed. */
  lemma AtoiReads(n: int)
    ensures Atoi(Signed(n)) == n
  {
    hide Digits, ReadDigits;
    var m: nat := if n < 0 then -n else n;
    DigitsRoundTrip(m);
    LeadingAll(Digits(m));
    if n < 0 {
      assert Signed(n)[1..] == Digits(m) && Signed(n)[0] == '-';
    }
  }

  // ---- Printing. ----

  function PowerOf(c: Conditioner): string {
    if c.power then "true" else "false"
  }

  function StateChunks(c: Conditioner): seq<string> {
    ["{\"AirConditionerAlias\":", "{\"power\":", PowerOf(c) + ",",
     "\"currentTemperature\":", Signed(c.temperature) + "}", "}"]
  }

  function InnerFields(c: Conditioner): seq<Field> {
    [Field("power", PowerOf(c), false), Field("currentTemperature", Signed(c.temperature), false)]
  }

  function OuterFields(c: Conditioner): seq<Field> {
    [Field(ALIAS, ObjectText(InnerFields(c)), false)]
  }

  function ReadConditioner(body: string): Option<Conditioner> {
    var outer := DecodeObject(body);
    if outer.None? || |outer.value| != 1 || outer.value[0].key != ALIAS || outer.value[0].isString then None
    else
      var inner := DecodeObject(outer.value[0].value);
      if inner.Some? && |inner.value| == 2 && inner.value[0].key == "power"
          && inner.value[1].key == "currentTemperature"
         && (inner.value[0].value == "true" || inner.value[0].value == "false")
         && ReadInt32(inner.value[1].value).Some?
      then Some(Conditioner(inner.value[0].value == "true", ReadInt32(inner.value[1].value).value)) else None
  }

  lemma ObjectOfTwo(f0: Field, f1: Field)
    ensures ObjectText([f0, f1]) == "{" + (FieldText(f0) + ("," + FieldText(f1))) + "}"
    ensures ObjectText([f0]) == "{" + FieldText(f0) + "}"
  {
    hide FieldText;
    assert [f0, f1][1..] == [f1] && [f1][1..] == [] && [f0][1..] == [];
    assert RestText([f1]) == "," + FieldText(f1) + "";
  }

  lemma JoinedOfSix(a: string, b: string, c: string, d: string, e: string, f: string)
    ensures Joined([a, b, c, d, e, f]) == a + (b + (c + (d + (e + f))))
  {
    assert [a, b, c, d, e, f][1..] == [b, c, d, e, f] && [b, c, d, e, f][1..] == [c, d, e, f];
    assert [c, d, e, f][1..] == [d, e, f] && [d, e, f][1..] == [e, f] && [e, f][1..] == [f] && [f][1..] == [];
    assert Joined([f]) == f + Joined([]) == f;
    assert Joined([d, e, f]) == d + (e + Joined([f]));
    assert Joined([b, c, d, e, f]) == b + (c + Joined([d, e, f]));
  }

  lemma NestedShape(q: string, p: string, k: string, t: string, a: string)
    ensures "{" + (a + ("{" + ((q + p) + ("," + (k + t))) + "}")) + "}"
         == ("{" + a) + (("{" + q) + ((p + ",") + (k + ((t + "}") + "}"))))
  {
  }

  /** The chunks together are an object in an object. */
  lemma StateIsNested(c: Conditioner)
    ensures Joined(StateChunks(c)) == ObjectText(OuterFields(c))
  {
    hide Signed, PowerOf, FieldText, ObjectText, Joined;
    var p, t := PowerOf(c), Signed(c.temperature);
    var inner := InnerFields(c);
    FieldOf("power", p, "\"power\":");
    FieldOf("currentTemperature", t, "\"currentTemperature\":");
    FieldOf(ALIAS, ObjectText(inner), "\"AirConditionerAlias\":");
    ObjectOfTwo(inner[0], inner[1]);
    ObjectOfTwo(OuterFields(c)[0], OuterFields(c)[0]);
    JoinedOfSix("{\"AirConditionerAlias\":", "{\"power\":", p + ",", "\"currentTemperature\":", t + "}", "}");
    assert "{" + "\"AirConditionerAlias\":" == "{\"AirConditionerAlias\":" && "{" + "\"power\":" == "{\"power\":";
    NestedShape("\"power\":", p, "\"currentTemperature\":", t, "\"AirConditionerAlias\":");
  }

  lemma InnerReads(c: Conditioner)
    ensures DecodeObject(ObjectText(InnerFields(c))) == Some(InnerFields(c)) && IsJson(ObjectText(InnerFields(c)))
  {
    hide Signed, DecodeObject, ObjectText, Clean, IsJson;
    PlainIsClean("power");
    PlainIsClean("currentTemperature");
    assert AllPrim("true") && AllPrim("false");
    PrimIsJson(PowerOf(c));
    SignedIsPrim(c.temperature);
    PrimIsJson(Signed(c.temperature));
    ObjectReads(InnerFields(c));
  }

  lemma OuterReads(c: Conditioner)
    ensures DecodeObject(ObjectText(OuterFields(c))) == Some(OuterFields(c))
  {
    hide DecodeObject, ObjectText, Clean, IsJson, InnerFields;
    PlainIsClean(ALIAS);
    InnerReads(c);
    ObjectReads(OuterFields(c));
  }

  /** Whatever the two fields hold, the printed state reads back as them. */
  lemma ConditionerRoundTrip(c: Conditioner)
    ensures ReadConditioner(Joined(StateChunks(c))) == Some(c)
  {
    hide Signed, DecodeObject, ObjectText, StateChunks, Joined, ReadInt32, IsJson;
    StateIsNested(c);
    InnerReads(c);
    OuterReads(c);
    Int32RoundTrip(c.temperature);
  }

  // ---- The device. ----

  class Device {
    var power: bool
    var temperature: int32

    ghost function View(): Conditioner
      reads this
    {
      Conditioner(power, temperature)
    }

    constructor ()
      ensures View() == Conditioner(false, 0)
    {
      power, temperature := false, 0;
    }

    method GetInfo() returns (c: Conditioner)
      ensures c == View()
    {
      c := Conditioner(power, temperature);
    }

    method SetInfo(c: Conditioner)
      modifies this
      ensures View() == c
    {
      power := c.power;
      temperature := c.temperature;
    }

    method ActionHandler(alias: string, name: string, params: string) returns (ok: bool)
      modifies this
      ensures var after := Change(old(View()), alias, name, params);
              ok == after.Some? && View() == if ok then after.value else old(View())
    {
      if alias != "AirConditionerAlias" && alias != "HumidityAlias" {
        return false;
      }
      var c := GetInfo();
      if name == "turnPower" {
        c := c.(power := params == "true");
      }
      if name == "setPresetTemperature" {
        c := c.(temperature := PresetFrom(name));
      }
      SetInfo(c);
      ok := true;
    }

    method StateHandler(kii: Kii) returns (ok: bool)
      requires |kii.body| <= kii.room
      modifies kii`body, kii`intact
      ensures ok <==> |old(kii.body)| + |Joined(StateChunks(View()))| <= kii.room
      ensures ok ==> kii.body == old(kii.body) + Joined(StateChunks(View())) && kii.intact == old(kii.intact)
    {
      hide StateChunks, Joined, ChunksOut;
      var c := GetInfo();
      ChunksExact(kii.room, Out(kii.body, true), StateChunks(c));
      ok := kii.WriteChunks(StateChunks(c));
    }
  }
}
