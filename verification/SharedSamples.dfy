/** The two sample devices as shared records: whatever the tasks' steps do, what is reported is a state that was. */
module SharedSamples {
  import opened Basics
  import opened Decimal
  import opened Api
  import opened SharedRecord
  import L = SmartLight
  import C = AirConditioner

  function Switch(power: bool): int32 {
    if power then 1 else 0
  }

  // ---- The light: six fields, copied one by one. ----

  datatype LightAction = LightAction(schema: string, version: int, name: string, params: string)

  const DARK := L.Light(false, 0, 0, 0, 0, 0)

  function Row(light: L.Light): (r: seq<int32>) {
    [Switch(light.power), light.brightness, light.red, light.green, light.blue, light.temperature]
  }

  function LightOf(row: seq<int32>): L.Light {
    if |row| == 6 then L.Light(row[0] == 1, row[1], row[2], row[3], row[4], row[5]) else DARK
  }

  function LightSystem(limit: nat): System<int32, LightAction> {
    System(Row(DARK), (row: seq<int32>, a: LightAction) =>
      var after := L.Handled(LightOf(row), a.schema, a.version, a.name, a.params, limit);
      if after.Some? then Some(Row(after.value)) else None)
  }

  /** The light after some actions, told without fields, copies or locks. */
  function LightAfter(limit: nat, actions: seq<LightAction>): L.Light
    decreases |actions|
  {
    if actions == [] then DARK
    else
      var before, a := LightAfter(limit, actions[..|actions| - 1]), actions[|actions| - 1];
      var after := L.Handled(before, a.schema, a.version, a.name, a.params, limit);
      if after.Some? then after.value else before
  }

  lemma RowRoundTrip(light: L.Light)
    ensures LightOf(Row(light)) == light
  {
  }

  lemma LightsRegular(limit: nat)
    ensures Regular(LightSystem(limit))
  {
    hide L.Handled;
  }

  lemma {:induction false} RecordIsLight(limit: nat, actions: seq<LightAction>)
    ensures Fold(LightSystem(limit), actions) == Row(LightAfter(limit, actions))
    decreases |actions|
  {
    hide L.Handled;
    if actions != [] {
      RecordIsLight(limit, actions[..|actions| - 1]);
      RowRoundTrip(LightAfter(limit, actions[..|actions| - 1]));
    }
  }

  /**
   Every state that either task prints, in every interleaving, reads back as the light after some first
   part of the committed actions: never a mixture of two of them.
   */
  lemma LightReports(limit: nat, run: seq<State<int32, LightAction>>, k: nat, j: nat)
    requires IsRun(LightSystem(limit), run) && k < |run| && j < |run[k].snapshots|
    ensures var report := run[k].snapshots[j];
            && report.at <= |run[k].commits|
            && L.ReadLight(Joined(L.Chunks(LightOf(report.record))))
                == Some(LightAfter(limit, run[k].commits[..report.at]))
  {
    hide IsRun, Fold, L.ReadLight, L.Chunks, L.Handled, LightSystem, LightAfter, Regular;
    LightsRegular(limit);
    ReportsAreAtomic(LightSystem(limit), run, k);
    var report := run[k].snapshots[j];
    var light := LightAfter(limit, run[k].commits[..report.at]);
    RecordIsLight(limit, run[k].commits[..report.at]);
    RowRoundTrip(light);
    L.StateRoundTrip(light);
  }

  /** Each committed action found the light that all earlier ones had made, and left what it makes of it. */
  lemma LightUpdates(limit: nat, run: seq<State<int32, LightAction>>, k: nat)
    requires IsRun(LightSystem(limit), run) && k + 1 < |run| && UnlockAfterWrite(run[k], run[k + 1])
    ensures var a, before := run[k].order.action, LightAfter(limit, run[k].commits);
            var after := L.Handled(before, a.schema, a.version, a.name, a.params, limit);
            after.Some? && LightOf(run[k + 1].shared) == after.value
  {
    hide IsRun, Fold, L.Handled, LightAfter, Regular;
    LightsRegular(limit);
    NoUpdateLost(LightSystem(limit), run, k);
    RecordIsLight(limit, run[k].commits);
    RowRoundTrip(LightAfter(limit, run[k].commits));
  }

  // ---- The air conditioner: two fields. ----

  datatype AirAction = AirAction(alias: string, name: string, params: string)

  const OFF := C.Conditioner(false, 0)

  function AirRow(c: C.Conditioner): seq<int32> {
    [Switch(c.power), c.temperature]
  }

  function AirOf(row: seq<int32>): C.Conditioner {
    if |row| == 2 then C.Conditioner(row[0] == 1, row[1]) else OFF
  }

  function AirSystem(): System<int32, AirAction> {
    System(AirRow(OFF), (row: seq<int32>, a: AirAction) =>
      var after := C.Change(AirOf(row), a.alias, a.name, a.params);
      if after.Some? then Some(AirRow(after.value)) else None)
  }

  function AirAfter(actions: seq<AirAction>): C.Conditioner
    decreases |actions|
  {
    if actions == [] then OFF
    else
      var before, a := AirAfter(actions[..|actions| - 1]), actions[|actions| - 1];
      var after := C.Change(before, a.alias, a.name, a.params);
      if after.Some? then after.value else before
  }

  lemma {:induction false} RecordIsAir(actions: seq<AirAction>)
    ensures Fold(AirSystem(), actions) == AirRow(AirAfter(actions))
    ensures AirOf(AirRow(AirAfter(actions))) == AirAfter(actions)
    decreases |actions|
  {
    hide C.Change;
    if actions != [] {
      RecordIsAir(actions[..|actions| - 1]);
    }
  }

  /** The same for the air conditioner. */
  lemma AirReports(run: seq<State<int32, AirAction>>, k: nat, j: nat)
    requires IsRun(AirSystem(), run) && k < |run| && j < |run[k].snapshots|
    ensures var report := run[k].snapshots[j];
            && report.at <= |run[k].commits|
            && C.ReadConditioner(Joined(C.StateChunks(AirOf(report.record))))
                == Some(AirAfter(run[k].commits[..report.at]))
  {
    hide IsRun, Fold, C.ReadConditioner, C.StateChunks, C.Change, AirAfter;
    assert Regular(AirSystem());
    hide Regular;
    ReportsAreAtomic(AirSystem(), run, k);
    var report := run[k].snapshots[j];
    RecordIsAir(run[k].commits[..report.at]);
    C.ConditionerRoundTrip(AirAfter(run[k].commits[..report.at]));
  }
}
