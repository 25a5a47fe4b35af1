/** The process-chain engine of src/App.tsx: it resolves the initial condition into
    state 0, folds `calculateNextState` over the process list, and builds the
    relative-humidity and enthalpy chart lines. The psychrometrics library is the
    `Library` value `lib`; the unit-system flag passed to it is always `true` (SI),
    as the code hard-codes it. */
module App {
  import opened Js
  import opened Psychroid
  import opened StateChain

  datatype InitialState = InitialState(
    pressure: real,
    flowRateType: string,
    flowRateValue: real,
    parameterType1: string,  // always "t_dry_bulb"; value1 is the dry-bulb temperature
    value1: real,
    parameterType2: string,
    value2: real)

  datatype State = State(
    id: int,
    tDryBulb: real,
    humidityRatio: real,
    tWetBulb: real,
    tDewPoint: real,
    relativeHumidity: real,
    enthalpy: real,
    density: real,
    dryAirMassFlowRate: real)

  /** A process card's record. The `mix` fields do not exist until the card is switched
      to "Mixing" (they are `undefined`); nothing in the chain reads them. */
  datatype Process = Process(
    id: int,
    processType: string,
    inputType: string,
    value: real,
    mixDryBulb: Option<real>,
    mixFlowRateType: Option<string>,
    mixFlowRateValue: Option<real>,
    mixHumidityType: Option<string>,
    mixHumidityValue: Option<real>)

  datatype Line = Line(data: seq<Point>, lineLabel: string)

  /** The SI default that replaces an initial state the engine cannot resolve. */
  const InitialStateDefaultSI := InitialState(101325.0, "volumetric_flow_rate", 1500.0, "t_dry_bulb", 30.0, "relative_humidity", 50.0)

  /** The unit-system flag: it starts `true` and the application never sets it. */
  const IsSI := true

  const InvalidParameterType := Exception("Invalid parameter type")
  const InvalidFlowRateType := Exception("Invalid flow rate type")

  const HumidityTags := ["humidity_ratio", "relative_humidity", "t_wet_bulb", "t_dew_point", "specific_enthalpy"]
  const FlowRateTags := ["total_air_mass_flow_rate", "dry_air_mass_flow_rate", "volumetric_flow_rate"]

  // ---------------------------------------------------------------------------
  // State 0
  // ---------------------------------------------------------------------------

  /** The moist-air instance for the initial condition: the humidity tag picks the
      constructor, and a relative humidity given in percent is scaled to a fraction. */
  function InitialAir<Air>(lib: Library<Air>, init: InitialState): (r: Outcome<Air>)
    ensures init.parameterType2 !in HumidityTags ==> r == Thrown(InvalidParameterType)
    ensures var t, v, p := init.value1, init.value2, init.pressure;
      && (init.parameterType2 == "humidity_ratio" ==> r == lib.fromHumidityRatio(t, v, p, true))
      && (init.parameterType2 == "relative_humidity" ==> r == lib.fromRelativeHumidity(t, v / 100.0, p, true))
      && (init.parameterType2 == "t_wet_bulb" ==> r == lib.fromTWetBulb(t, v, p, true))
      && (init.parameterType2 == "t_dew_point" ==> r == lib.fromTDewPoint(t, v, p, true))
      && (init.parameterType2 == "specific_enthalpy" ==> r == Ok(lib.fromSpecificEnthalpy(t, v, p, true)))
  {
    var t, v, p := init.value1, init.value2, init.pressure;
    assert v * 0.01 == v / 100.0;
    if init.parameterType2 == "humidity_ratio" then lib.fromHumidityRatio(t, v, p, true)
    else if init.parameterType2 == "relative_humidity" then lib.fromRelativeHumidity(t, v * 0.01, p, true)
    else if init.parameterType2 == "t_wet_bulb" then lib.fromTWetBulb(t, v, p, true)
    else if init.parameterType2 == "t_dew_point" then lib.fromTDewPoint(t, v, p, true)
    else if init.parameterType2 == "specific_enthalpy" then Ok(lib.fromSpecificEnthalpy(t, v, p, true))
    else Thrown(InvalidParameterType)
  }

  /** The dry-air mass flow rate of a volumetric flow rate in m³/h, given the air's
      density and humidity ratio. */
  function VolumetricToDryAirMass(volumetric: real, density: real, humidityRatio: real): (r: Num)
    ensures r.Finite? <==> humidityRatio != -1.0
    ensures r.Finite? ==> r.value * (1.0 + humidityRatio) == volumetric / 3600.0 * density
  {
    Divide(volumetric / 3600.0 * density, 1.0 + humidityRatio)
  }

  /** The dry-air mass flow rate for a flow-rate tag and value. */
  function DryAirMassFlowRate(flowRateType: string, flowRateValue: real, humidityRatio: real, density: real): (r: Outcome<Num>)
    ensures flowRateType !in FlowRateTags <==> r == Thrown(InvalidFlowRateType)
  {
    if flowRateType == "total_air_mass_flow_rate" then Ok(Finite(flowRateValue * (1.0 + humidityRatio)))
    else if flowRateType == "dry_air_mass_flow_rate" then Ok(Finite(flowRateValue))
    else if flowRateType == "volumetric_flow_rate" then Ok(VolumetricToDryAirMass(flowRateValue, density, humidityRatio))
    else Thrown(InvalidFlowRateType)
  }

  /** What the `try` block that builds the initial air yields. `ResolvedNonFinite` is a
      division by a zero `1 + humidityRatio`, whose infinite result the model does not follow. */
  datatype Resolution<Air> = Resolved(air: Air, dryAirMassFlowRate: real) | ResolveFailed(error: Exception) | ResolvedNonFinite

  function Resolve<Air>(lib: Library<Air>, init: InitialState): (r: Resolution<Air>)
    ensures r.ResolveFailed? <==>
      (InitialAir(lib, init).Thrown? ||
       DryAirMassFlowRate(init.flowRateType, init.flowRateValue,
         lib.humidityRatio(InitialAir(lib, init).value), lib.density(InitialAir(lib, init).value)).Thrown?)
  {
    match InitialAir(lib, init)
    case Thrown(e) => ResolveFailed(e)
    case Ok(air) =>
      match DryAirMassFlowRate(init.flowRateType, init.flowRateValue, lib.humidityRatio(air), lib.density(air))
      case Thrown(e) => ResolveFailed(e)
      case Ok(NonFinite) => ResolvedNonFinite
      case Ok(Finite(m)) => Resolved(air, m)
  }

  /** Reads a state back from an air instance, in the order of the object literal;
      the first of the three accessors that throws decides the exception. */
  function ReadBack<Air>(lib: Library<Air>, air: Air, id: int, dryAirMassFlowRate: real): (r: Outcome<State>)
    ensures r.Ok? <==> lib.tWetBulb(air).Ok? && lib.tDewPoint(air).Ok? && lib.relativeHumidity(air).Ok?
    ensures r.Ok? ==> r.value.id == id && r.value.dryAirMassFlowRate == dryAirMassFlowRate
    ensures r.Ok? ==>
      r.value.tDryBulb == lib.tDryBulb(air) && r.value.humidityRatio == lib.humidityRatio(air) && r.value.density == lib.density(air)
    ensures r.Ok? ==>
      && r.value.tWetBulb == lib.tWetBulb(air).value && r.value.tDewPoint == lib.tDewPoint(air).value
      && r.value.relativeHumidity == lib.relativeHumidity(air).value && r.value.enthalpy == lib.specificEnthalpy(air)
    ensures r.Thrown? ==>
      r.error == (if lib.tWetBulb(air).Thrown? then lib.tWetBulb(air).error
                  else if lib.tDewPoint(air).Thrown? then lib.tDewPoint(air).error
                  else lib.relativeHumidity(air).error)
  {
    match lib.tWetBulb(air)
    case Thrown(e) => Thrown(e)
    case Ok(tWetBulb) =>
      match lib.tDewPoint(air)
      case Thrown(e) => Thrown(e)
      case Ok(tDewPoint) =>
        match lib.relativeHumidity(air)
        case Thrown(e) => Thrown(e)
        case Ok(relativeHumidity) =>
          Ok(State(id, lib.tDryBulb(air), lib.humidityRatio(air), tWetBulb, tDewPoint,
                   relativeHumidity, lib.specificEnthalpy(air), lib.density(air), dryAirMassFlowRate))
  }

  // ---------------------------------------------------------------------------
  // One process step
  // ---------------------------------------------------------------------------

  /** The library call a process record selects. */
  datatype Mutator = HeatingPower | HeatingDeltaT | CoolingPower | CoolingDeltaT | HumidifyAdiabatic | HumidifyIsothermal

  /** The (processType, inputType) pairs the step dispatches on; every other pair,
      "Mixing" included, calls nothing. */
  const MatchedPairs := {("Heating", "Power"), ("Heating", "ΔT"), ("Cooling", "Power"), ("Cooling", "ΔT"),
                         ("Humidify", "ΔW Adiabatic"), ("Humidify", "ΔW Isothermal")}

  function MutatorOf(proc: Process): (r: Option<Mutator>)
    ensures r.Some? <==> (proc.processType, proc.inputType) in MatchedPairs
    ensures r.Some? ==> proc.processType in {"Heating", "Cooling", "Humidify"}
    ensures var pair := (proc.processType, proc.inputType);
      && (pair == ("Heating", "Power") ==> r == Some(HeatingPower))
      && (pair == ("Heating", "ΔT") ==> r == Some(HeatingDeltaT))
      && (pair == ("Cooling", "Power") ==> r == Some(CoolingPower))
      && (pair == ("Cooling", "ΔT") ==> r == Some(CoolingDeltaT))
      && (pair == ("Humidify", "ΔW Adiabatic") ==> r == Some(HumidifyAdiabatic))
      && (pair == ("Humidify", "ΔW Isothermal") ==> r == Some(HumidifyIsothermal))
  {
    if proc.processType == "Heating" && proc.inputType == "Power" then Some(HeatingPower)
    else if proc.processType == "Heating" && proc.inputType == "ΔT" then Some(HeatingDeltaT)
    else if proc.processType == "Cooling" && proc.inputType == "Power" then Some(CoolingPower)
    else if proc.processType == "Cooling" && proc.inputType == "ΔT" then Some(CoolingDeltaT)
    else if proc.processType == "Humidify" && proc.inputType == "ΔW Adiabatic" then Some(HumidifyAdiabatic)
    else if proc.processType == "Humidify" && proc.inputType == "ΔW Isothermal" then Some(HumidifyIsothermal)
    else None
  }

  /** The air after the selected call, or the exception it threw. */
  function Mutate<Air>(lib: Library<Air>, air: Air, m: Option<Mutator>, mda: real, value: real): (r: Outcome<Air>)
    ensures m.None? ==> r == Ok(air)
    ensures r.Thrown? ==> m in {Some(CoolingPower), Some(CoolingDeltaT), Some(HumidifyAdiabatic), Some(HumidifyIsothermal)}
  {
    match m
    case None => Ok(air)
    case Some(HeatingPower) => Ok(lib.heatingPower(air, mda, value))
    case Some(HeatingDeltaT) => Ok(lib.heatingDeltaTemperature(air, mda, value).0)
    case Some(CoolingPower) => lib.coolingPower(air, mda, value)
    case Some(CoolingDeltaT) =>
      (match lib.coolingDeltaTemperature(air, mda, value)
       case Ok(aq) => Ok(aq.0)
       case Thrown(e) => Thrown(e))
    case Some(HumidifyAdiabatic) => lib.humidifyAdiabatic(air, mda, value)
    case Some(HumidifyIsothermal) => lib.humidifyIsothermal(air, mda, value)
  }

  /** The library call each (processType, inputType) pair runs on the rebuilt air, with
      the previous dry-air mass flow rate and the card's value, and what it yields. */
  lemma ProcessCallOf<Air>(lib: Library<Air>, air: Air, proc: Process, mda: real)
    ensures var v, pair := proc.value, (proc.processType, proc.inputType);
      var r := Mutate(lib, air, MutatorOf(proc), mda, v);
      && (pair == ("Heating", "Power") ==> r == Ok(lib.heatingPower(air, mda, v)))
      && (pair == ("Heating", "ΔT") ==> r == Ok(lib.heatingDeltaTemperature(air, mda, v).0))
      && (pair == ("Cooling", "Power") ==> r == lib.coolingPower(air, mda, v))
      && (pair == ("Cooling", "ΔT") ==>
            var c := lib.coolingDeltaTemperature(air, mda, v);
            r == if c.Ok? then Ok(c.value.0) else Thrown(c.error))
      && (pair == ("Humidify", "ΔW Adiabatic") ==> r == lib.humidifyAdiabatic(air, mda, v))
      && (pair == ("Humidify", "ΔW Isothermal") ==> r == lib.humidifyIsothermal(air, mda, v))
      && (pair !in MatchedPairs ==> r == Ok(air))
  {
  }

  /** `calculateNextState`. A throw from the constructor or from a read-back accessor
      escapes (`Thrown`); a throw from the process call is caught and the step
      repeats `prev` with the next id. */
  function NextState<Air>(lib: Library<Air>, pressure: real, prev: State, proc: Process): (r: Outcome<State>)
    ensures r.Ok? ==> r.value.id == prev.id + 1 && r.value.dryAirMassFlowRate == prev.dryAirMassFlowRate
  {
    match lib.fromHumidityRatio(prev.tDryBulb, prev.humidityRatio, pressure, true)
    case Thrown(e) => Thrown(e)
    case Ok(air) =>
      match Mutate(lib, air, MutatorOf(proc), prev.dryAirMassFlowRate, proc.value)
      case Thrown(_) => Ok(prev.(id := prev.id + 1))
      case Ok(changed) => ReadBack(lib, changed, prev.id + 1, prev.dryAirMassFlowRate)
  }

  /** Exactly the calls outside the `try` let an exception escape a step: a step throws
      `e` if and only if the constructor threw `e`, or the process call did not throw
      and a read-back accessor threw `e`. */
  lemma StepEscapes<Air>(lib: Library<Air>, pressure: real, prev: State, proc: Process, e: Exception)
    ensures var made := lib.fromHumidityRatio(prev.tDryBulb, prev.humidityRatio, pressure, true);
      NextState(lib, pressure, prev, proc) == Thrown(e) <==>
        || made == Thrown(e)
        || (made.Ok? &&
            var changed := Mutate(lib, made.value, MutatorOf(proc), prev.dryAirMassFlowRate, proc.value);
            changed.Ok? && ReadBack(lib, changed.value, prev.id + 1, prev.dryAirMassFlowRate) == Thrown(e))
  {
  }

  // ---------------------------------------------------------------------------
  // The chain
  // ---------------------------------------------------------------------------

  /** `calculateNextState` for one pressure, as the step of the chain. */
  function Step<Air>(lib: Library<Air>, pressure: real): (State, Process) -> Outcome<State>
  {
    (prev: State, proc: Process) => NextState(lib, pressure, prev, proc)
  }

  lemma StepIsNextState<Air>(lib: Library<Air>, pressure: real, prev: State, proc: Process)
    ensures Step(lib, pressure)(prev, proc) == NextState(lib, pressure, prev, proc)
  {
  }

  /** The state list after the first `n` processes, or the exception that escaped. */
  function StatesUpTo<Air>(lib: Library<Air>, pressure: real, state0: State, processes: seq<Process>, n: nat): (r: Outcome<seq<State>>)
    requires n <= |processes|
    ensures r.Ok? ==> |r.value| == n + 1 && r.value[0] == state0
  {
    Chain(Step(lib, pressure), state0, processes, n)
  }

  /** Along a successful chain the ids count up from state 0's, and every state carries
      state 0's dry-air mass flow rate. */
  lemma {:induction false} StatesNumbered<Air>(lib: Library<Air>, pressure: real, state0: State, processes: seq<Process>,
                                               states: seq<State>, n: nat)
    requires n <= |processes|
    requires StatesUpTo(lib, pressure, state0, processes, n) == Ok(states)
    ensures forall i :: 0 <= i < |states| ==>
      states[i].id == state0.id + i && states[i].dryAirMassFlowRate == state0.dryAirMassFlowRate
  {
    if n > 0 {
      ChainStep(Step(lib, pressure), state0, processes, states, n);
      assert NextState(lib, pressure, states[n - 1], processes[n - 1]) == Ok(states[n]);
      StatesNumbered(lib, pressure, state0, processes, states[..n], n - 1);
      assert forall i :: 0 <= i < n ==> states[i] == states[..n][i];
    }
  }

  /** What one run of the state effect does. */
  datatype EffectResult =
    | Skipped                  // the library is not loaded yet
    | ResetToDefault           // resolution failed: the initial state is replaced by the SI default
    | Escaped(error: Exception)   // an exception left the effect; no state list is set
    | NonFiniteFlowRate        // the flow rate divided by zero; not followed further
    | SetStates(states: seq<State>)

  function StatesEffect<Air>(lib: Library<Air>, wasmInitialized: bool, init: InitialState, processes: seq<Process>): (r: EffectResult)
    ensures r.SetStates? ==> |r.states| == 1 + |processes|
  {
    if !wasmInitialized then Skipped
    else
      match Resolve(lib, init)
      case ResolveFailed(_) => ResetToDefault
      case ResolvedNonFinite => NonFiniteFlowRate
      case Resolved(air, mda) =>
        match ReadBack(lib, air, 0, mda)
        case Thrown(e) => Escaped(e)
        case Ok(state0) =>
          match StatesUpTo(lib, init.pressure, state0, processes, |processes|)
          case Thrown(e) => Escaped(e)
          case Ok(states) => SetStates(states)
  }

  // ---------------------------------------------------------------------------
  // The imperative code
  // ---------------------------------------------------------------------------

  /** Reads a state back from an instance through its accessors. */
  method ReadState<Air>(moistAir: MoistAir<Air>, id: int, dryAirMassFlowRate: real) returns (r: Outcome<State>)
    ensures r == ReadBack(moistAir.lib, moistAir.air, id, dryAirMassFlowRate)
  {
    var tWetBulb := moistAir.TWetBulb();
    if tWetBulb.Thrown? { return Thrown(tWetBulb.error); }
    var tDewPoint := moistAir.TDewPoint();
    if tDewPoint.Thrown? { return Thrown(tDewPoint.error); }
    var relativeHumidity := moistAir.RelativeHumidity();
    if relativeHumidity.Thrown? { return Thrown(relativeHumidity.error); }
    r := Ok(State(id, moistAir.TDryBulb(), moistAir.HumidityRatio(), tWetBulb.value, tDewPoint.value,
                  relativeHumidity.value, moistAir.SpecificEnthalpy(), moistAir.Density(), dryAirMassFlowRate));
  }

  method CalculateNextState<Air>(lib: Library<Air>, pressure: real, prev: State, proc: Process) returns (r: Outcome<State>)
    ensures r == NextState(lib, pressure, prev, proc)
  {
    var made := MoistAir.FromHumidityRatio(lib, prev.tDryBulb, prev.humidityRatio, pressure, true);
    if made.Thrown? {
      return Thrown(made.error);
    }
    var moistAir := made.value;
    var mda := prev.dryAirMassFlowRate;
    var caught: Option<Exception> := None;
    if proc.processType == "Heating" && proc.inputType == "Power" {
      moistAir.HeatingPower(mda, proc.value);
    } else if proc.processType == "Heating" && proc.inputType == "ΔT" {
      var _ := moistAir.HeatingDeltaTemperature(mda, proc.value);
    } else if proc.processType == "Cooling" && proc.inputType == "Power" {
      var o := moistAir.CoolingPower(mda, proc.value);
      if o.Thrown? { caught := Some(o.error); }
    } else if proc.processType == "Cooling" && proc.inputType == "ΔT" {
      var o := moistAir.CoolingDeltaTemperature(mda, proc.value);
      if o.Thrown? { caught := Some(o.error); }
    } else if proc.processType == "Humidify" && proc.inputType == "ΔW Adiabatic" {
      var o := moistAir.HumidifyAdiabatic(mda, proc.value);
      if o.Thrown? { caught := Some(o.error); }
    } else if proc.processType == "Humidify" && proc.inputType == "ΔW Isothermal" {
      var o := moistAir.HumidifyIsothermal(mda, proc.value);
      if o.Thrown? { caught := Some(o.error); }
    }
    if caught.Some? {
      return Ok(prev.(id := prev.id + 1));
    }
    r := ReadState(moistAir, prev.id + 1, mda);
  }

  /** The `new WasmMoistAir` call the humidity tag selects. */
  method MakeInitialAir<Air>(lib: Library<Air>, init: InitialState) returns (made: Outcome<MoistAir<Air>>)
    ensures MoistAir.Handle(made) == InitialAir(lib, init)
    ensures made.Ok? ==> fresh(made.value) && made.value.lib == lib
  {
    var t, v, p := init.value1, init.value2, init.pressure;
    if init.parameterType2 == "humidity_ratio" {
      made := MoistAir.FromHumidityRatio(lib, t, v, p, true);
    } else if init.parameterType2 == "relative_humidity" {
      made := MoistAir.FromRelativeHumidity(lib, t, v * 0.01, p, true);
    } else if init.parameterType2 == "t_wet_bulb" {
      made := MoistAir.FromTWetBulb(lib, t, v, p, true);
    } else if init.parameterType2 == "t_dew_point" {
      made := MoistAir.FromTDewPoint(lib, t, v, p, true);
    } else if init.parameterType2 == "specific_enthalpy" {
      made := MoistAir.FromSpecificEnthalpy(lib, t, v, p, true);
    } else {
      made := Thrown(InvalidParameterType);
    }
  }

  /** The push loop: one `calculateNextState` per process, from `state0`. */
  method PushStates<Air>(lib: Library<Air>, pressure: real, state0: State, processes: seq<Process>) returns (r: Outcome<seq<State>>)
    ensures r == StatesUpTo(lib, pressure, state0, processes, |processes|)
  {
    ghost var step := Step(lib, pressure);
    assert StatesUpTo(lib, pressure, state0, processes, |processes|) == Chain(step, state0, processes, |processes|);
    var stateArray := [state0];
    var index := 0;
    while index < |processes|
      invariant 0 <= index <= |processes|
      invariant Chain(step, state0, processes, index) == Ok(stateArray)
    {
      var next := CalculateNextState(lib, pressure, stateArray[index], processes[index]);
      StepIsNextState(lib, pressure, stateArray[index], processes[index]);
      if next.Thrown? {
        ChainThrowsAt(step, state0, processes, stateArray, index, next.error);
        ChainThrownPersists(step, state0, processes, index + 1, |processes|);
        return Thrown(next.error);
      }
      ChainExtends(step, state0, processes, stateArray, index, next.value);
      stateArray := stateArray + [next.value];
      index := index + 1;
    }
    r := Ok(stateArray);
  }

  /** The state effect: resolve state 0 inside the `try`, then read it back and push one
      state per process outside it. */
  method RunStatesEffect<Air>(lib: Library<Air>, wasmInitialized: bool, init: InitialState, processes: seq<Process>)
    returns (r: EffectResult)
    ensures r == StatesEffect(lib, wasmInitialized, init, processes)
  {
    if !wasmInitialized {
      return Skipped;
    }
    var made := MakeInitialAir(lib, init);
    if made.Thrown? {
      return ResetToDefault;
    }
    var moistAir := made.value;
    var dryAirMassFlowRate: real;
    if init.flowRateType == "total_air_mass_flow_rate" {
      dryAirMassFlowRate := init.flowRateValue * (1.0 + moistAir.HumidityRatio());
    } else if init.flowRateType == "dry_air_mass_flow_rate" {
      dryAirMassFlowRate := init.flowRateValue;
    } else if init.flowRateType == "volumetric_flow_rate" {
      var q := VolumetricToDryAirMass(init.flowRateValue, moistAir.Density(), moistAir.HumidityRatio());
      if q.NonFinite? {
        return NonFiniteFlowRate;
      }
      dryAirMassFlowRate := q.value;
    } else {
      return ResetToDefault;
    }
    assert Resolve(lib, init) == Resolved(moistAir.air, dryAirMassFlowRate);
    var state0 := ReadState(moistAir, 0, dryAirMassFlowRate);
    if state0.Thrown? {
      return Escaped(state0.error);
    }
    var states := PushStates(lib, init.pressure, state0.value, processes);
    r := if states.Ok? then SetStates(states.value) else Escaped(states.error);
  }

  // ---------------------------------------------------------------------------
  // Properties of the chain
  // ---------------------------------------------------------------------------

  /** No state list appears exactly when resolution fails: the effect then resets the
      initial state to the SI default, and it does so for no other reason. */
  lemma ResetIffResolutionFails<Air>(lib: Library<Air>, init: InitialState, processes: seq<Process>)
    ensures StatesEffect(lib, true, init, processes) == ResetToDefault <==> Resolve(lib, init).ResolveFailed?
    ensures StatesEffect(lib, true, init, processes).SetStates? ==> Resolve(lib, init).Resolved?
  {
  }

  /** An unknown humidity tag is rejected before any flow-rate tag is looked at, and
      never yields a state list. */
  lemma UnknownHumidityTagRejected<Air>(lib: Library<Air>, init: InitialState, processes: seq<Process>)
    requires init.parameterType2 !in HumidityTags
    ensures Resolve(lib, init) == ResolveFailed(InvalidParameterType)
    ensures StatesEffect(lib, true, init, processes) == ResetToDefault
  {
  }

  /** An accessor that throws while state 0 is read back from the resolved air escapes
      the effect: no state list is set and the initial state is not reset. */
  lemma State0ReadBackEscapes<Air>(lib: Library<Air>, init: InitialState, processes: seq<Process>)
    requires Resolve(lib, init).Resolved?
    requires ReadBack(lib, Resolve(lib, init).air, 0, Resolve(lib, init).dryAirMassFlowRate).Thrown?
    ensures StatesEffect(lib, true, init, processes) ==
      Escaped(ReadBack(lib, Resolve(lib, init).air, 0, Resolve(lib, init).dryAirMassFlowRate).error)
  {
  }

  /** A known humidity tag whose constructor succeeds, with an unknown flow-rate tag,
      fails with the flow-rate error. */
  lemma UnknownFlowRateTagRejected<Air>(lib: Library<Air>, init: InitialState, processes: seq<Process>)
    requires InitialAir(lib, init).Ok?
    requires init.flowRateType !in FlowRateTags
    ensures Resolve(lib, init) == ResolveFailed(InvalidFlowRateType)
    ensures StatesEffect(lib, true, init, processes) == ResetToDefault
  {
  }

  /** A resolved initial state came from one of the five humidity tags, through its
      own constructor, and from one of the three flow-rate tags, through its formula. */
  lemma ResolvedDispatch<Air>(lib: Library<Air>, init: InitialState)
    requires Resolve(lib, init).Resolved?
    ensures init.parameterType2 in HumidityTags && init.flowRateType in FlowRateTags
    ensures var r := Resolve(lib, init);
      var t, v, p := init.value1, init.value2, init.pressure;
      && (init.parameterType2 == "humidity_ratio" ==> lib.fromHumidityRatio(t, v, p, true) == Ok(r.air))
      && (init.parameterType2 == "relative_humidity" ==> lib.fromRelativeHumidity(t, v / 100.0, p, true) == Ok(r.air))
      && (init.parameterType2 == "t_wet_bulb" ==> lib.fromTWetBulb(t, v, p, true) == Ok(r.air))
      && (init.parameterType2 == "t_dew_point" ==> lib.fromTDewPoint(t, v, p, true) == Ok(r.air))
      && (init.parameterType2 == "specific_enthalpy" ==> lib.fromSpecificEnthalpy(t, v, p, true) == r.air)
    ensures var r := Resolve(lib, init);
      var w, rho, f := lib.humidityRatio(r.air), lib.density(r.air), init.flowRateValue;
      && (init.flowRateType == "total_air_mass_flow_rate" ==> r.dryAirMassFlowRate == f * (1.0 + w))
      && (init.flowRateType == "dry_air_mass_flow_rate" ==> r.dryAirMassFlowRate == f)
      && (init.flowRateType == "volumetric_flow_rate" ==>
            1.0 + w != 0.0 && r.dryAirMassFlowRate * (1.0 + w) == f / 3600.0 * rho)
  {
    assert init.value2 * 0.01 == init.value2 / 100.0;
    var air := InitialAir(lib, init).value;
    var q := DryAirMassFlowRate(init.flowRateType, init.flowRateValue, lib.humidityRatio(air), lib.density(air));
    assert q == Ok(Finite(Resolve(lib, init).dryAirMassFlowRate));
  }

  /** The shape of every state list the effect sets: one state per process plus
      state 0, ids equal to positions, and state 0's dry-air mass flow rate carried
      unchanged; state 0 is read back from the resolved air with id 0. */
  lemma ChainShape<Air>(lib: Library<Air>, init: InitialState, processes: seq<Process>)
    requires StatesEffect(lib, true, init, processes).SetStates?
    ensures var states := StatesEffect(lib, true, init, processes).states;
      && |states| == 1 + |processes|
      && (forall i :: 0 <= i < |states| ==> states[i].id == i)
      && (forall i :: 0 <= i < |states| ==> states[i].dryAirMassFlowRate == states[0].dryAirMassFlowRate)
    ensures var res := Resolve(lib, init);
      && res.Resolved?
      && ReadBack(lib, res.air, 0, res.dryAirMassFlowRate) == Ok(StatesEffect(lib, true, init, processes).states[0])
  {
    var res := Resolve(lib, init);
    var state0 := ReadBack(lib, res.air, 0, res.dryAirMassFlowRate).value;
    assert state0.id == 0;
    var states := StatesEffect(lib, true, init, processes).states;
    assert StatesUpTo(lib, init.pressure, state0, processes, |processes|) == Ok(states);
    StatesNumbered(lib, init.pressure, state0, processes, states, |processes|);
  }

  /** The chain the state effect folds, from the state it reads back from the resolved air. */
  lemma EffectChain<Air>(lib: Library<Air>, init: InitialState, processes: seq<Process>)
    returns (state0: State)
    requires StatesEffect(lib, true, init, processes).SetStates?
    ensures StatesUpTo(lib, init.pressure, state0, processes, |processes|) == Ok(StatesEffect(lib, true, init, processes).states)
  {
    var res := Resolve(lib, init);
    state0 := ReadBack(lib, res.air, 0, res.dryAirMassFlowRate).value;
  }

  /** A step whose process call throws repeats the previous state with the next id. */
  lemma StepFault<Air>(lib: Library<Air>, pressure: real, prev: State, proc: Process)
    requires var made := lib.fromHumidityRatio(prev.tDryBulb, prev.humidityRatio, pressure, true);
      made.Ok? && Mutate(lib, made.value, MutatorOf(proc), prev.dryAirMassFlowRate, proc.value).Thrown?
    ensures NextState(lib, pressure, prev, proc) == Ok(prev.(id := prev.id + 1))
  {
  }

  /** Fault isolation: when the process call of step `k` throws, state `k + 1` is state `k`
      with only its id advanced, and every later state is what the remaining processes
      build from that copy. */
  lemma FaultIsolation<Air>(lib: Library<Air>, pressure: real, state0: State, processes: seq<Process>, states: seq<State>, k: nat)
    requires StatesUpTo(lib, pressure, state0, processes, |processes|) == Ok(states)
    requires k < |processes| < |states|
    requires var made := lib.fromHumidityRatio(states[k].tDryBulb, states[k].humidityRatio, pressure, true);
      made.Ok? && Mutate(lib, made.value, MutatorOf(processes[k]), states[k].dryAirMassFlowRate, processes[k].value).Thrown?
    ensures states[k + 1] == states[k].(id := states[k].id + 1)
    ensures StatesUpTo(lib, pressure, states[k + 1], processes[k + 1..], |processes| - (k + 1)) == Ok(states[k + 1..])
  {
    var step := Step(lib, pressure);
    ChainContinues(step, state0, processes, states, k);
    StepFault(lib, pressure, states[k], processes[k]);
    StepIsNextState(lib, pressure, states[k], processes[k]);
    assert StatesUpTo(lib, pressure, states[k + 1], processes[k + 1..], |processes| - (k + 1))
        == Chain(step, states[k + 1], processes[k + 1..], |processes| - (k + 1));
  }

  /** An unmatched (processType, inputType) pair, such as any "Mixing" record, calls no
      process: the next state is read back from the air rebuilt from the previous
      dry-bulb temperature and humidity ratio. */
  lemma UnmatchedProcessCallsNothing<Air>(lib: Library<Air>, pressure: real, prev: State, proc: Process)
    requires (proc.processType, proc.inputType) !in MatchedPairs
    ensures MutatorOf(proc) == None
    ensures var made := lib.fromHumidityRatio(prev.tDryBulb, prev.humidityRatio, pressure, true);
      NextState(lib, pressure, prev, proc) ==
        if made.Ok? then ReadBack(lib, made.value, prev.id + 1, prev.dryAirMassFlowRate) else Thrown(made.error)
  {
  }

  // ---------------------------------------------------------------------------
  // Chart lines
  // ---------------------------------------------------------------------------

  /** The dry-bulb range the chart lines are generated over. */
  function LineTMin(isSI: bool): real { if isSI then -15.0 else 5.0 }
  function LineTMax(isSI: bool): real { if isSI then 40.0 else 104.0 }

  /** The i-th relative humidity of the chart, as a fraction. */
  function RhValue(i: nat): real { (i + 1) as real * 0.1 }

  /** `${Math.round(rh * 100)}%` */
  function RhLabel(rh: real): string { IntToString(Round(rh * 100.0)) + "%" }

  /** The i-th relative-humidity line: the generator's curve for `RhValue(i)` over the
      line range, labelled by the whole percentage. */
  function RhLineAt<Air>(lib: Library<Air>, pressure: real, isSI: bool, i: nat): (r: Line)
    ensures r.data == lib.relativeHumidityLine(RhValue(i), pressure, LineTMin(isSI), LineTMax(isSI), isSI)
    ensures r.lineLabel == IntToString(10 * (i + 1)) + "%"
  {
    assert RhValue(i) * 100.0 == (10 * (i + 1)) as real;
    Line(lib.relativeHumidityLine(RhValue(i), pressure, LineTMin(isSI), LineTMax(isSI), isSI), RhLabel(RhValue(i)))
  }

  /** `getRhLines`, as a value. */
  function RhLines<Air>(lib: Library<Air>, pressure: real, isSI: bool): (r: seq<Line>)
    ensures |r| == 10
  {
    seq(10, i requires 0 <= i < 10 => RhLineAt(lib, pressure, isSI, i))
  }

  method GetRhLines<Air>(lib: Library<Air>, pressure: real, isSI: bool) returns (rhLines: seq<Line>)
    ensures rhLines == RhLines(lib, pressure, isSI)
  {
    var rhValues := seq(10, i requires 0 <= i < 10 => (i + 1) as real * 0.1);
    rhLines := [];
    var i := 0;
    while i < |rhValues|
      invariant 0 <= i <= |rhValues|
      invariant |rhLines| == i
      invariant forall j :: 0 <= j < i ==> rhLines[j] == RhLineAt(lib, pressure, isSI, j)
    {
      var rh := rhValues[i];
      var points := lib.relativeHumidityLine(rh, pressure, if isSI then -15.0 else 5.0, if isSI then 40.0 else 104.0, isSI);
      assert rh == RhValue(i);
      var line := Line(points, IntToString(Round(rh * 100.0)) + "%");
      assert line == RhLineAt(lib, pressure, isSI, i);
      rhLines := rhLines + [line];
      i := i + 1;
    }
  }

  /** The ten relative-humidity lines run from 10 % to 100 % in steps of 10 %, labelled
      by their percentage; the last is the saturation line. */
  lemma RhLineValues(i: nat)
    requires i < 10
    ensures 0.0 < RhValue(i) <= 1.0
    ensures RhValue(i) == 1.0 <==> i == 9
    ensures RhLabel(RhValue(i)) == IntToString(10 * (i + 1)) + "%"
  {
    assert RhValue(i) * 100.0 == (10 * (i + 1)) as real;
    assert Round(RhValue(i) * 100.0) == 10 * (i + 1);
  }

  function EnthalpyCount(isSI: bool): nat { if isSI then 13 else 10 }

  /** The i-th enthalpy of the chart: SI in kJ/kg, IP in Btu/lb. */
  function EnthalpyValue(isSI: bool, i: nat): int { if isSI then (i - 1) * 10 else (i + 1) * 5 }

  function EnthalpyLabel(isSI: bool, h: int): string { IntToString(h) + (if isSI then " kJ/kg" else " Btu/lb") }

  /** The i-th enthalpy line, or the exception its generator threw. */
  function EnthalpyLineAt<Air>(lib: Library<Air>, pressure: real, isSI: bool, i: nat): (r: Outcome<Line>)
    ensures var c := lib.specificEnthalpyLine(EnthalpyValue(isSI, i) as real, pressure, LineTMin(isSI), LineTMax(isSI), isSI);
      && (r.Ok? <==> c.Ok?)
      && (r.Thrown? ==> r.error == c.error)
      && (r.Ok? ==> r.value.data == c.value && r.value.lineLabel == EnthalpyLabel(isSI, EnthalpyValue(isSI, i)))
  {
    var h := EnthalpyValue(isSI, i);
    match lib.specificEnthalpyLine(h as real, pressure, LineTMin(isSI), LineTMax(isSI), isSI)
    case Thrown(e) => Thrown(e)
    case Ok(points) => Ok(Line(points, EnthalpyLabel(isSI, h)))
  }

  /** The first `n` enthalpy lines, or the exception the first failing line threw. */
  function EnthalpyLinesUpTo<Air>(lib: Library<Air>, pressure: real, isSI: bool, n: nat): (r: Outcome<seq<Line>>)
    ensures r.Ok? ==> |r.value| == n
    ensures r.Ok? ==> forall i :: 0 <= i < n ==> EnthalpyLineAt(lib, pressure, isSI, i) == Ok(r.value[i])
  {
    if n == 0 then Ok([])
    else
      match EnthalpyLinesUpTo(lib, pressure, isSI, n - 1)
      case Thrown(e) => Thrown(e)
      case Ok(lines) =>
        match EnthalpyLineAt(lib, pressure, isSI, n - 1)
        case Thrown(e) => Thrown(e)
        case Ok(line) => Ok(lines + [line])
  }

  /** `getEnthalpyLines`; a throw from the library escapes. */
  method GetEnthalpyLines<Air>(lib: Library<Air>, pressure: real, isSI: bool) returns (r: Outcome<seq<Line>>)
    ensures r == EnthalpyLinesUpTo(lib, pressure, isSI, EnthalpyCount(isSI))
  {
    var enthalpyValues := if isSI then seq(13, i requires 0 <= i < 13 => (i - 1) * 10)
                          else seq(10, i requires 0 <= i < 10 => (i + 1) * 5);
    var enthalpyLines := [];
    var i := 0;
    while i < |enthalpyValues|
      invariant |enthalpyValues| == EnthalpyCount(isSI)
      invariant 0 <= i <= |enthalpyValues|
      invariant EnthalpyLinesUpTo(lib, pressure, isSI, i) == Ok(enthalpyLines)
    {
      var enthalpy := enthalpyValues[i];
      assert enthalpy == EnthalpyValue(isSI, i);
      var points := lib.specificEnthalpyLine(enthalpy as real, pressure, if isSI then -15.0 else 5.0, if isSI then 40.0 else 104.0, isSI);
      if points.Thrown? {
        assert EnthalpyLineAt(lib, pressure, isSI, i) == Thrown(points.error);
        EnthalpyLinesExtend(lib, pressure, isSI, i, enthalpyLines);
        EnthalpyThrownPersists(lib, pressure, isSI, i + 1, |enthalpyValues|);
        return Thrown(points.error);
      }
      var line := Line(points.value, IntToString(enthalpy) + (if isSI then " kJ/kg" else " Btu/lb"));
      assert EnthalpyLineAt(lib, pressure, isSI, i) == Ok(line);
      EnthalpyLinesExtend(lib, pressure, isSI, i, enthalpyLines);
      enthalpyLines := enthalpyLines + [line];
      i := i + 1;
    }
    r := Ok(enthalpyLines);
  }

  /** The lines up to `n + 1` are those up to `n` and line `n`, or its exception. */
  lemma EnthalpyLinesExtend<Air>(lib: Library<Air>, pressure: real, isSI: bool, n: nat, lines: seq<Line>)
    requires EnthalpyLinesUpTo(lib, pressure, isSI, n) == Ok(lines)
    ensures EnthalpyLinesUpTo(lib, pressure, isSI, n + 1) ==
      match EnthalpyLineAt(lib, pressure, isSI, n)
      case Thrown(e) => Thrown(e)
      case Ok(line) => Ok(lines + [line])
  {
  }

  /** Once an enthalpy line throws, every longer prefix throws the same exception. */
  lemma {:induction false} EnthalpyThrownPersists<Air>(lib: Library<Air>, pressure: real, isSI: bool, m: nat, n: nat)
    requires m <= n
    requires EnthalpyLinesUpTo(lib, pressure, isSI, m).Thrown?
    ensures EnthalpyLinesUpTo(lib, pressure, isSI, n) == EnthalpyLinesUpTo(lib, pressure, isSI, m)
    decreases n - m
  {
    if m < n {
      EnthalpyThrownPersists(lib, pressure, isSI, m, n - 1);
    }
  }

  /** The enthalpy lines fail exactly when the library throws for one of the values. */
  lemma {:induction false} EnthalpyLinesFailIff<Air>(lib: Library<Air>, pressure: real, isSI: bool, n: nat)
    ensures EnthalpyLinesUpTo(lib, pressure, isSI, n).Thrown? <==>
      exists i :: 0 <= i < n && EnthalpyLineAt(lib, pressure, isSI, i).Thrown?
  {
    if n > 0 {
      EnthalpyLinesFailIff(lib, pressure, isSI, n - 1);
    }
  }

  /** The enthalpy values: SI from -10 to 110 kJ/kg, IP from 5 to 50 Btu/lb, in equal
      steps of 10 and 5. */
  lemma EnthalpyLineValues(isSI: bool, i: nat)
    requires i < EnthalpyCount(isSI)
    ensures isSI ==> EnthalpyValue(isSI, i) == -10 + 10 * i && -10 <= EnthalpyValue(isSI, i) <= 110
    ensures !isSI ==> EnthalpyValue(isSI, i) == 5 + 5 * i && 5 <= EnthalpyValue(isSI, i) <= 50
  {
  }

  // ---------------------------------------------------------------------------
  // The component's React state
  // ---------------------------------------------------------------------------

  /** The App component's state variables and the effects that update them. */
  class AppState<Air> {
    const lib: Library<Air>
    const isSI: bool
    var wasmInitialized: bool
    var initialState: InitialState
    var processes: seq<Process>
    var states: seq<State>
    var rhLines: seq<Line>
    var enthalpyLines: seq<Line>

    constructor (lib: Library<Air>)
      ensures this.lib == lib && isSI == IsSI && !wasmInitialized
      ensures initialState == InitialStateDefaultSI && processes == [] && states == []
      ensures rhLines == [] && enthalpyLines == []
    {
      this.lib := lib;
      isSI := IsSI;
      wasmInitialized := false;
      initialState := InitialStateDefaultSI;
      processes := [];
      states := [];
      rhLines := [];
      enthalpyLines := [];
    }

    /** The end of the library load: `loaded` is false when `init()` threw. */
    method WasmLoaded(loaded: bool)
      modifies this
      ensures wasmInitialized == (old(wasmInitialized) || loaded)
      ensures initialState == old(initialState) && processes == old(processes) && states == old(states)
      ensures rhLines == old(rhLines) && enthalpyLines == old(enthalpyLines)
    {
      if loaded {
        wasmInitialized := true;
      }
    }

    method HandleInitialize(initialStateInput: InitialState)
      modifies this
      ensures initialState == initialStateInput
      ensures wasmInitialized == old(wasmInitialized) && processes == old(processes) && states == old(states)
      ensures rhLines == old(rhLines) && enthalpyLines == old(enthalpyLines)
    {
      initialState := initialStateInput;
    }

    method HandleApplyProcesses(processes: seq<Process>)
      modifies this
      ensures this.processes == processes
      ensures wasmInitialized == old(wasmInitialized) && initialState == old(initialState) && states == old(states)
      ensures rhLines == old(rhLines) && enthalpyLines == old(enthalpyLines)
    {
      this.processes := processes;
    }

    /** The chart-line effect: the RH lines are set before the enthalpy lines are
        computed, so a throw from the latter leaves the new RH lines in place. */
    method UpdateLines() returns (escaped: Option<Exception>)
      modifies this
      ensures wasmInitialized == old(wasmInitialized) && initialState == old(initialState)
      ensures processes == old(processes) && states == old(states)
      ensures !wasmInitialized ==> rhLines == old(rhLines) && enthalpyLines == old(enthalpyLines) && escaped == None
      ensures wasmInitialized ==> rhLines == RhLines(lib, initialState.pressure, isSI)
      ensures wasmInitialized ==>
        match EnthalpyLinesUpTo(lib, initialState.pressure, isSI, EnthalpyCount(isSI))
        case Ok(lines) => enthalpyLines == lines && escaped == None
        case Thrown(e) => enthalpyLines == old(enthalpyLines) && escaped == Some(e)
    {
      escaped := None;
      if wasmInitialized {
        rhLines := GetRhLines(lib, initialState.pressure, isSI);
        var e := GetEnthalpyLines(lib, initialState.pressure, isSI);
        if e.Ok? {
          enthalpyLines := e.value;
        } else {
          escaped := Some(e.error);
        }
      }
    }

    /** The state effect applied to the component: a state list replaces `states`, a
        failed resolution replaces the initial state by the SI default, and every other
        outcome leaves the state as it was. */
    method UpdateStates() returns (escaped: Option<Exception>)
      modifies this
      ensures wasmInitialized == old(wasmInitialized) && processes == old(processes)
      ensures rhLines == old(rhLines) && enthalpyLines == old(enthalpyLines)
      ensures var effect := StatesEffect(lib, old(wasmInitialized), old(initialState), old(processes));
        && states == (if effect.SetStates? then effect.states else old(states))
        && initialState == (if effect.ResetToDefault? then InitialStateDefaultSI else old(initialState))
        && escaped == (if effect.Escaped? then Some(effect.error) else None)
    {
      var effect := RunStatesEffect(lib, wasmInitialized, initialState, processes);
      escaped := None;
      match effect
      case SetStates(ss) => states := ss;
      case ResetToDefault => initialState := InitialStateDefaultSI;
      case Escaped(e) => escaped := Some(e);
      case Skipped =>
      case NonFiniteFlowRate =>
    }
  }
}
