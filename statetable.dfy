/** The state table of src/components/StateTable.tsx: one row per state, with the
    relative humidity in percent and the volumetric flow rate derived back from the
    dry-air mass flow rate. The decimal formatting of the cells is not modelled. */
module StateTable {
  import opened Js
  import opened App
  import Psychroid

  datatype Row = Row(
    index: nat,
    tDryBulb: real,
    humidityRatio: real,
    relativeHumidityPercent: real,
    enthalpy: real,
    tWetBulb: real,
    tDewPoint: real,
    density: real,
    volumetricFlowRate: Num)

  /** The volumetric flow rate in m³/h of a dry-air mass flow rate, given the humidity
      ratio and the density. */
  function VolumetricFlowRate(dryAirMassFlowRate: real, humidityRatio: real, density: real): (r: Num)
    ensures r.Finite? <==> density != 0.0
    ensures r.Finite? ==> r.value * density == dryAirMassFlowRate * 3600.0 * (1.0 + humidityRatio)
  {
    Divide(dryAirMassFlowRate * 3600.0 * (1.0 + humidityRatio), density)
  }

  /** The row a state is displayed as: the index in the ID column, the relative humidity
      in percent, and the volumetric flow rate derived from the dry-air mass flow rate. */
  function RowOf(index: nat, state: State): (r: Row)
    ensures r.index == index && r.relativeHumidityPercent * 0.01 == state.relativeHumidity
    ensures r.tDryBulb == state.tDryBulb && r.humidityRatio == state.humidityRatio && r.enthalpy == state.enthalpy
    ensures r.tWetBulb == state.tWetBulb && r.tDewPoint == state.tDewPoint && r.density == state.density
    ensures r.volumetricFlowRate.Finite? <==> state.density != 0.0
    ensures r.volumetricFlowRate.Finite? ==>
      r.volumetricFlowRate.value * state.density == state.dryAirMassFlowRate * 3600.0 * (1.0 + state.humidityRatio)
  {
    Row(index, state.tDryBulb, state.humidityRatio, state.relativeHumidity * 100.0, state.enthalpy,
        state.tWetBulb, state.tDewPoint, state.density,
        VolumetricFlowRate(state.dryAirMassFlowRate, state.humidityRatio, state.density))
  }

  /** `states.map((state, index) => …)`. */
  function Rows(states: seq<State>): (rows: seq<Row>)
    ensures |rows| == |states|
    ensures forall i :: 0 <= i < |rows| ==> rows[i].index == i
    ensures forall i :: 0 <= i < |states| ==> rows[i] == RowOf(i, states[i])
  {
    seq(|states|, i requires 0 <= i < |states| => RowOf(i, states[i]))
  }

  /** The displayed relative humidity is the state's fraction in percent: the inverse of
      the scaling by 0.01 an initial relative humidity undergoes. */
  lemma RelativeHumidityInPercent(states: seq<State>, i: nat)
    requires i < |states|
    ensures Rows(states)[i].relativeHumidityPercent * 0.01 == states[i].relativeHumidity
  {
  }

  /** Displaying the dry-air mass flow rate a volumetric flow rate resolves to gives back
      that volumetric flow rate. */
  lemma VolumetricRoundTrip(volumetric: real, density: real, humidityRatio: real)
    requires density != 0.0 && 1.0 + humidityRatio != 0.0
    ensures VolumetricToDryAirMass(volumetric, density, humidityRatio).Finite?
    ensures VolumetricFlowRate(VolumetricToDryAirMass(volumetric, density, humidityRatio).value, humidityRatio, density)
              == Finite(volumetric)
  {
    var m := VolumetricToDryAirMass(volumetric, density, humidityRatio).value;
    var q := VolumetricFlowRate(m, humidityRatio, density).value;
    calc {
      q * density;
      m * 3600.0 * (1.0 + humidityRatio);
      (m * (1.0 + humidityRatio)) * 3600.0;
      (volumetric / 3600.0 * density) * 3600.0;
      volumetric * density;
    }
    ProductCancels(q, volumetric, density);
  }

  lemma ProductCancels(a: real, b: real, c: real)
    requires c != 0.0 && a * c == b * c
    ensures a == b
  {
    assert (a - b) * c == 0.0;
  }

  /** For an initial volumetric flow rate, row 0 shows that volumetric flow rate itself. */
  lemma TableShowsInitialVolumetricFlow<Air>(lib: Psychroid.Library<Air>, init: InitialState, processes: seq<Process>)
    requires init.flowRateType == "volumetric_flow_rate"
    requires StatesEffect(lib, true, init, processes).SetStates?
    requires var s0 := StatesEffect(lib, true, init, processes).states[0]; s0.density != 0.0
    ensures Rows(StatesEffect(lib, true, init, processes).states)[0].volumetricFlowRate == Finite(init.flowRateValue)
  {
    var res := Resolve(lib, init);
    ChainShape(lib, init, processes);
    ResolvedDispatch(lib, init);
    var states := StatesEffect(lib, true, init, processes).states;
    var s0 := states[0];
    assert s0.humidityRatio == lib.humidityRatio(res.air) && s0.density == lib.density(res.air);
    assert s0.dryAirMassFlowRate == res.dryAirMassFlowRate;
    VolumetricRoundTrip(init.flowRateValue, s0.density, s0.humidityRatio);
  }

  /** The ID column of the rows of a state list the engine produced agrees with the
      states' ids, although it shows the row index. */
  lemma IdColumnMatchesStateIds<Air>(lib: Psychroid.Library<Air>, init: InitialState, processes: seq<Process>)
    requires StatesEffect(lib, true, init, processes).SetStates?
    ensures var states := StatesEffect(lib, true, init, processes).states;
      forall i :: 0 <= i < |states| ==> Rows(states)[i].index == states[i].id
  {
    ChainShape(lib, init, processes);
  }
}
