/** One process card of src/components/ProcessCard.tsx. The card edits the process
    record it was given in place and then hands the record to its `onChange`
    callback; the text the user types has already been converted to a number. */
module ProcessCard {
  import opened Js
  import opened App

  /** A process record as a mutable JavaScript object. */
  class ProcessRecord {
    var id: int
    var processType: string
    var inputType: string
    var value: real
    var mixDryBulb: Option<real>
    var mixFlowRateType: Option<string>
    var mixFlowRateValue: Option<real>
    var mixHumidityType: Option<string>
    var mixHumidityValue: Option<real>

    constructor (p: Process)
      ensures Snapshot() == p
    {
      id, processType, inputType, value := p.id, p.processType, p.inputType, p.value;
      mixDryBulb, mixFlowRateType, mixFlowRateValue := p.mixDryBulb, p.mixFlowRateType, p.mixFlowRateValue;
      mixHumidityType, mixHumidityValue := p.mixHumidityType, p.mixHumidityValue;
    }

    /** The record's current field values. */
    function Snapshot(): Process
      reads this
    {
      Process(id, processType, inputType, value, mixDryBulb, mixFlowRateType, mixFlowRateValue, mixHumidityType, mixHumidityValue)
    }
  }

  // ---------------------------------------------------------------------------
  // The handlers' effect on a record, as functions of its old value
  // ---------------------------------------------------------------------------

  /** `resetForm`. */
  function Reset(p: Process): (r: Process)
    ensures MutatorOf(r) == Some(HeatingPower) && r.value == 0.0
    ensures r.id == p.id
    ensures r.(processType := p.processType, inputType := p.inputType, value := p.value) == p
  {
    p.(processType := "Heating", inputType := "Power", value := 0.0)
  }

  const MixDefaultDryBulb := 20.0
  const MixDefaultFlowRateType := "volumetric_flow_rate"
  const MixDefaultFlowRateValue := 0.0
  const MixDefaultHumidityType := "relative_humidity"
  const MixDefaultHumidityValue := 50.0

  /** `handleProcessTypeChange`. */
  function TypeChanged(p: Process, value: string): (r: Process)
    ensures r.id == p.id
    ensures value in {"Heating", "Cooling", "Humidify", "Mixing"} ==> r.processType == value
    ensures value !in {"Heating", "Cooling", "Humidify", "Mixing"} ==> r == p
  {
    if value == "Heating" || value == "Cooling" then
      p.(processType := value, inputType := "Power", value := 0.0)
    else if value == "Humidify" then
      p.(processType := value, inputType := "ΔW Adiabatic", value := 0.0)
    else if value == "Mixing" then
      p.(processType := value,
         mixDryBulb := Some(MixDefaultDryBulb),
         mixFlowRateType := Some(MixDefaultFlowRateType),
         mixFlowRateValue := Some(MixDefaultFlowRateValue),
         mixHumidityType := Some(MixDefaultHumidityType),
         mixHumidityValue := Some(MixDefaultHumidityValue))
    else p
  }

  /** A change to heating or cooling selects that process by a power of 0, and keeps
      the mixing fields. */
  lemma HeatingOrCoolingDefaults(p: Process, value: string)
    requires value == "Heating" || value == "Cooling"
    ensures var r := TypeChanged(p, value);
      && r.processType == value && r.inputType == "Power" && r.value == 0.0
      && MutatorOf(r) == Some(if value == "Heating" then HeatingPower else CoolingPower)
      && r.(processType := p.processType, inputType := p.inputType, value := p.value) == p
  {
  }

  /** A change to humidification selects adiabatic humidification by 0. */
  lemma HumidifyDefaults(p: Process)
    ensures var r := TypeChanged(p, "Humidify");
      && r.processType == "Humidify" && r.inputType == "ΔW Adiabatic" && r.value == 0.0
      && MutatorOf(r) == Some(HumidifyAdiabatic)
      && r.(processType := p.processType, inputType := p.inputType, value := p.value) == p
  {
  }

  /** A change to mixing sets the five mixing defaults and keeps the input type and value,
      so the chain then calls no process for the card. */
  lemma MixingDefaults(p: Process)
    ensures var r := TypeChanged(p, "Mixing");
      && r.processType == "Mixing" && r.inputType == p.inputType && r.value == p.value
      && r.mixDryBulb == Some(20.0) && r.mixFlowRateType == Some("volumetric_flow_rate")
      && r.mixFlowRateValue == Some(0.0) && r.mixHumidityType == Some("relative_humidity")
      && r.mixHumidityValue == Some(50.0)
      && MutatorOf(r) == None
  {
  }

  /** Choosing the same type twice is choosing it once. */
  lemma TypeChangeIsIdempotent(p: Process, value: string)
    ensures TypeChanged(TypeChanged(p, value), value) == TypeChanged(p, value)
  {
  }

  /** Resetting is idempotent, and resetting undoes any earlier type change as far as
      the process the chain runs is concerned. */
  lemma ResetAbsorbsTypeChange(p: Process, value: string)
    ensures Reset(Reset(p)) == Reset(p)
    ensures var r := Reset(TypeChanged(p, value));
      r.processType == "Heating" && r.inputType == "Power" && r.value == 0.0 && r.id == p.id
  {
  }

  // ---------------------------------------------------------------------------
  // The input range of the mixing humidity field
  // ---------------------------------------------------------------------------

  /** An input range; `max` is `undefined` when there is no upper limit. */
  datatype Range = Range(min: real, max: Option<real>)

  /** `getRangeForInputType`; a missing mixing humidity type takes the default case. */
  function RangeForInputType(isSI: bool, inputType: Option<string>): (r: Range)
    ensures r.max.Some? ==> r.min <= r.max.value
    ensures r.max.None? <==> inputType == Some("humidity_ratio")
  {
    match inputType
    case Some("humidity_ratio") => Range(0.0, None)
    case Some("relative_humidity") => Range(0.0, Some(100.0))
    case Some("t_wet_bulb") => Range(if isSI then -100.0 else -148.0, Some(if isSI then 200.0 else 392.0))
    case Some("t_dew_point") => Range(if isSI then -100.0 else -148.0, Some(if isSI then 200.0 else 392.0))
    case Some("specific_enthalpy") => Range(0.0, Some(if isSI then 500.0 else 215.0))
    case _ => Range(0.0, Some(1.0))
  }

  ghost predicate InRange(r: Range, x: real)
  {
    r.min <= x && (r.max.Some? ==> x <= r.max.value)
  }

  /** The temperature limits of the two unit systems are the same temperatures: the IP
      limits in °F are the SI limits in °C converted. */
  lemma RangeUnitsAgree(inputType: string)
    requires inputType in {"t_wet_bulb", "t_dew_point"}
    ensures var si, ip := RangeForInputType(true, Some(inputType)), RangeForInputType(false, Some(inputType));
      && ip.min == si.min * 1.8 + 32.0 && ip.max.value == si.max.value * 1.8 + 32.0
  {
  }

  /** The defaults a change to mixing sets lie within the range then shown for them. */
  lemma MixingDefaultsInRange(p: Process, isSI: bool)
    ensures var r := TypeChanged(p, "Mixing");
      InRange(RangeForInputType(isSI, r.mixHumidityType), r.mixHumidityValue.value)
  {
  }

  // ---------------------------------------------------------------------------
  // The component
  // ---------------------------------------------------------------------------

  /** One rendered card: the unit-system flag it was given and the record it edits.
      Every handler returns the record's new value, which it passes to `onChange`. */
  class Card {
    const isSI: bool
    const local: ProcessRecord

    constructor (isSI: bool, processData: ProcessRecord)
      ensures this.isSI == isSI && local == processData
    {
      this.isSI := isSI;
      local := processData;
    }

    /** The range the mixing humidity input shows. */
    function MixHumidityRange(): (r: Range)
      reads local
      ensures r.max.None? <==> local.mixHumidityType == Some("humidity_ratio")
      ensures r.max.Some? ==> r.min <= r.max.value
      ensures local.mixHumidityType == Some("relative_humidity") ==> r == Range(0.0, Some(100.0))
    {
      RangeForInputType(isSI, local.mixHumidityType)
    }

    method ResetForm()
      modifies local
      ensures local.Snapshot() == Reset(old(local.Snapshot()))
    {
      local.processType := "Heating";
      local.inputType := "Power";
      local.value := 0.0;
    }

    method HandleProcessTypeChange(value: string) returns (changed: Process)
      modifies local
      ensures local.Snapshot() == TypeChanged(old(local.Snapshot()), value)
      ensures changed == local.Snapshot()
    {
      if value == "Heating" || value == "Cooling" {
        local.processType := value;
        local.inputType := "Power";
        local.value := 0.0;
      } else if value == "Humidify" {
        local.processType := value;
        local.inputType := "ΔW Adiabatic";
        local.value := 0.0;
      } else if value == "Mixing" {
        local.processType := value;
        local.mixDryBulb := Some(20.0);
        local.mixFlowRateType := Some("volumetric_flow_rate");
        local.mixFlowRateValue := Some(0.0);
        local.mixHumidityType := Some("relative_humidity");
        local.mixHumidityValue := Some(50.0);
      }
      changed := local.Snapshot();
    }

    method HandleInputTypeChange(value: string) returns (changed: Process)
      modifies local
      ensures local.Snapshot() == old(local.Snapshot()).(inputType := value)
      ensures changed == local.Snapshot()
    {
      local.inputType := value;
      changed := local.Snapshot();
    }

    method HandleValueChange(value: real) returns (changed: Process)
      modifies local
      ensures local.Snapshot() == old(local.Snapshot()).(value := value)
      ensures changed == local.Snapshot()
    {
      local.value := value;
      changed := local.Snapshot();
    }

    method HandleMixDryBulbChange(value: real) returns (changed: Process)
      modifies local
      ensures local.Snapshot() == old(local.Snapshot()).(mixDryBulb := Some(value))
      ensures changed == local.Snapshot()
    {
      local.mixDryBulb := Some(value);
      changed := local.Snapshot();
    }

    method HandleMixFlowRateTypeChange(value: string) returns (changed: Process)
      modifies local
      ensures local.Snapshot() == old(local.Snapshot()).(mixFlowRateType := Some(value))
      ensures changed == local.Snapshot()
    {
      local.mixFlowRateType := Some(value);
      changed := local.Snapshot();
    }

    method HandleMixFlowRateValueChange(value: real) returns (changed: Process)
      modifies local
      ensures local.Snapshot() == old(local.Snapshot()).(mixFlowRateValue := Some(value))
      ensures changed == local.Snapshot()
    {
      local.mixFlowRateValue := Some(value);
      changed := local.Snapshot();
    }

    method HandleMixHumidityTypeChange(value: string) returns (changed: Process)
      modifies local
      ensures local.Snapshot() == old(local.Snapshot()).(mixHumidityType := Some(value))
      ensures changed == local.Snapshot()
    {
      local.mixHumidityType := Some(value);
      changed := local.Snapshot();
    }

    method HandleMixHumidityValueChange(value: real) returns (changed: Process)
      modifies local
      ensures local.Snapshot() == old(local.Snapshot()).(mixHumidityValue := Some(value))
      ensures changed == local.Snapshot()
    {
      local.mixHumidityValue := Some(value);
      changed := local.Snapshot();
    }
  }

  // ---------------------------------------------------------------------------
  // The unit-system flag the list renders its cards with
  // ---------------------------------------------------------------------------

  /** The list renders each card without an `isSI` attribute, so the card reads
      `undefined`, which is falsy: the card shows the IP ranges. */
  const RenderedIsSI: Option<bool> := None

  /** The range a rendered card shows, as the list renders it. */
  function RenderedMixHumidityRange(mixHumidityType: Option<string>): (r: Range)
    ensures r == RangeForInputType(false, mixHumidityType)
  {
    RangeForInputType(Truthy(RenderedIsSI), mixHumidityType)
  }

  /** The range a card shows when it is given the application's unit system. */
  function MixHumidityRangeOfApp(mixHumidityType: Option<string>): (r: Range)
    ensures mixHumidityType in {Some("t_wet_bulb"), Some("t_dew_point")} ==> r == Range(-100.0, Some(200.0))
    ensures mixHumidityType == Some("specific_enthalpy") ==> r == Range(0.0, Some(500.0))
  {
    RangeForInputType(IsSI, mixHumidityType)
  }

  /** In an SI application a rendered card accepts a wet-bulb temperature of 250 °C,
      outside the SI limit, and an enthalpy of 400 kJ/kg is outside the range it
      shows, though within the SI limit. */
  lemma RenderedCardShowsImperialRanges()
    ensures IsSI
    ensures InRange(RenderedMixHumidityRange(Some("t_wet_bulb")), 250.0)
    ensures !InRange(MixHumidityRangeOfApp(Some("t_wet_bulb")), 250.0)
    ensures !InRange(RenderedMixHumidityRange(Some("specific_enthalpy")), 400.0)
    ensures InRange(MixHumidityRangeOfApp(Some("specific_enthalpy")), 400.0)
  {
  }
}
