/** The call surface of the psychrometrics library, which the application loads as
    a WebAssembly module (src/lib/psychroid.d.ts). Its correlations are not part of
    this model: every export is a function value supplied by the caller, and
    `Air` stands for the library's opaque moist-air handle. Exports that can throw
    return an `Outcome`; the others return their value directly. */
module Psychroid {
  import opened Js

  /** A point of a chart line: dry-bulb temperature and humidity ratio. */
  datatype Point = Point(x: real, y: real)

  datatype Library<!Air> = Library(
    // chart line generators: (value, pressure, tMin, tMax, isSI)
    relativeHumidityLine: (real, real, real, real, bool) -> seq<Point>,
    specificEnthalpyLine: (real, real, real, real, bool) -> Outcome<seq<Point>>,
    // constructors: (tDryBulb, second property, pressure, isSI)
    fromRelativeHumidity: (real, real, real, bool) -> Outcome<Air>,
    fromHumidityRatio: (real, real, real, bool) -> Outcome<Air>,
    fromSpecificEnthalpy: (real, real, real, bool) -> Air,
    fromTWetBulb: (real, real, real, bool) -> Outcome<Air>,
    fromTDewPoint: (real, real, real, bool) -> Outcome<Air>,
    // accessors
    tDryBulb: Air -> real,
    humidityRatio: Air -> real,
    specificEnthalpy: Air -> real,
    relativeHumidity: Air -> Outcome<real>,
    tWetBulb: Air -> Outcome<real>,
    tDewPoint: Air -> Outcome<real>,
    density: Air -> real,
    // processes: (air, dry-air mass flow rate, input) -> changed air [and power]
    heatingPower: (Air, real, real) -> Air,
    heatingDeltaTemperature: (Air, real, real) -> (Air, real),
    coolingPower: (Air, real, real) -> Outcome<Air>,
    coolingDeltaTemperature: (Air, real, real) -> Outcome<(Air, real)>,
    humidifyAdiabatic: (Air, real, real) -> Outcome<Air>,
    humidifyIsothermal: (Air, real, real) -> Outcome<Air>,
    // mixing: (air, its flow rate, other air, its flow rate) -> (mixed air, combined flow rate)
    mixing: (Air, real, Air, real) -> Outcome<(Air, real)>
  )

  /** One `WasmMoistAir` instance. The process methods change the instance in place;
      a call that throws leaves it as it was. */
  class MoistAir<Air> {
    const lib: Library<Air>
    var air: Air

    constructor Wrap(lib: Library<Air>, air: Air)
      ensures this.lib == lib && this.air == air
    {
      this.lib := lib;
      this.air := air;
    }

    /** What a factory call yields: the new instance's handle, or the exception. */
    static ghost function Handle(r: Outcome<MoistAir<Air>>): Outcome<Air>
      reads if r.Ok? then {r.value} else {}
    {
      match r
      case Ok(m) => Ok(m.air)
      case Thrown(e) => Thrown(e)
    }

    static method Adopt(lib: Library<Air>, made: Outcome<Air>) returns (r: Outcome<MoistAir<Air>>)
      ensures Handle(r) == made
      ensures r.Ok? ==> fresh(r.value) && r.value.lib == lib
    {
      if made.Ok? {
        var m := new MoistAir.Wrap(lib, made.value);
        r := Ok(m);
      } else {
        r := Thrown(made.error);
      }
    }

    static method FromRelativeHumidity(lib: Library<Air>, tDryBulb: real, relativeHumidity: real, pressure: real, isSI: bool)
      returns (r: Outcome<MoistAir<Air>>)
      ensures Handle(r) == lib.fromRelativeHumidity(tDryBulb, relativeHumidity, pressure, isSI)
      ensures r.Ok? ==> fresh(r.value) && r.value.lib == lib
    {
      r := Adopt(lib, lib.fromRelativeHumidity(tDryBulb, relativeHumidity, pressure, isSI));
    }

    static method FromHumidityRatio(lib: Library<Air>, tDryBulb: real, humidityRatio: real, pressure: real, isSI: bool)
      returns (r: Outcome<MoistAir<Air>>)
      ensures Handle(r) == lib.fromHumidityRatio(tDryBulb, humidityRatio, pressure, isSI)
      ensures r.Ok? ==> fresh(r.value) && r.value.lib == lib
    {
      r := Adopt(lib, lib.fromHumidityRatio(tDryBulb, humidityRatio, pressure, isSI));
    }

    static method FromSpecificEnthalpy(lib: Library<Air>, tDryBulb: real, specificEnthalpy: real, pressure: real, isSI: bool)
      returns (r: Outcome<MoistAir<Air>>)
      ensures Handle(r) == Ok(lib.fromSpecificEnthalpy(tDryBulb, specificEnthalpy, pressure, isSI))
      ensures r.Ok? ==> fresh(r.value) && r.value.lib == lib
    {
      r := Adopt(lib, Ok(lib.fromSpecificEnthalpy(tDryBulb, specificEnthalpy, pressure, isSI)));
    }

    static method FromTWetBulb(lib: Library<Air>, tDryBulb: real, tWetBulb: real, pressure: real, isSI: bool)
      returns (r: Outcome<MoistAir<Air>>)
      ensures Handle(r) == lib.fromTWetBulb(tDryBulb, tWetBulb, pressure, isSI)
      ensures r.Ok? ==> fresh(r.value) && r.value.lib == lib
    {
      r := Adopt(lib, lib.fromTWetBulb(tDryBulb, tWetBulb, pressure, isSI));
    }

    static method FromTDewPoint(lib: Library<Air>, tDryBulb: real, tDewPoint: real, pressure: real, isSI: bool)
      returns (r: Outcome<MoistAir<Air>>)
      ensures Handle(r) == lib.fromTDewPoint(tDryBulb, tDewPoint, pressure, isSI)
      ensures r.Ok? ==> fresh(r.value) && r.value.lib == lib
    {
      r := Adopt(lib, lib.fromTDewPoint(tDryBulb, tDewPoint, pressure, isSI));
    }

    /** The accessors read the library's value for the handle the instance holds now,
        that is, for the air after the last process call that succeeded. */
    function TDryBulb(): (r: real) reads this ensures r == lib.tDryBulb(air) { lib.tDryBulb(air) }
    function HumidityRatio(): (r: real) reads this ensures r == lib.humidityRatio(air) { lib.humidityRatio(air) }
    function SpecificEnthalpy(): (r: real) reads this ensures r == lib.specificEnthalpy(air) { lib.specificEnthalpy(air) }
    function RelativeHumidity(): (r: Outcome<real>) reads this ensures r == lib.relativeHumidity(air) { lib.relativeHumidity(air) }
    function TWetBulb(): (r: Outcome<real>) reads this ensures r == lib.tWetBulb(air) { lib.tWetBulb(air) }
    function TDewPoint(): (r: Outcome<real>) reads this ensures r == lib.tDewPoint(air) { lib.tDewPoint(air) }
    function Density(): (r: real) reads this ensures r == lib.density(air) { lib.density(air) }

    method HeatingPower(mda: real, power: real)
      modifies this
      ensures air == lib.heatingPower(old(air), mda, power)
    {
      air := lib.heatingPower(air, mda, power);
    }

    method HeatingDeltaTemperature(mda: real, dt: real) returns (power: real)
      modifies this
      ensures (air, power) == lib.heatingDeltaTemperature(old(air), mda, dt)
    {
      var (a, q) := lib.heatingDeltaTemperature(air, mda, dt);
      air, power := a, q;
    }

    /** Replaces the handle by the one a throwing process call produced, if it did not throw. */
    method Take(changed: Outcome<Air>)
      modifies this
      ensures air == (if changed.Ok? then changed.value else old(air))
    {
      if changed.Ok? {
        air := changed.value;
      }
    }

    method CoolingPower(mda: real, power: real) returns (r: Outcome<()>)
      modifies this
      ensures var c := lib.coolingPower(old(air), mda, power);
        match c
        case Ok(a) => r == Ok(()) && air == a
        case Thrown(e) => r == Thrown(e) && air == old(air)
    {
      var c := lib.coolingPower(air, mda, power);
      Take(c);
      r := if c.Ok? then Ok(()) else Thrown(c.error);
    }

    method CoolingDeltaTemperature(mda: real, dt: real) returns (r: Outcome<real>)
      modifies this
      ensures var c := lib.coolingDeltaTemperature(old(air), mda, dt);
        match c
        case Ok(aq) => r == Ok(aq.1) && air == aq.0
        case Thrown(e) => r == Thrown(e) && air == old(air)
    {
      var c := lib.coolingDeltaTemperature(air, mda, dt);
      match c
      case Ok(aq) => air := aq.0; r := Ok(aq.1);
      case Thrown(e) => r := Thrown(e);
    }

    method HumidifyAdiabatic(mda: real, w: real) returns (r: Outcome<()>)
      modifies this
      ensures var c := lib.humidifyAdiabatic(old(air), mda, w);
        match c
        case Ok(a) => r == Ok(()) && air == a
        case Thrown(e) => r == Thrown(e) && air == old(air)
    {
      var c := lib.humidifyAdiabatic(air, mda, w);
      Take(c);
      r := if c.Ok? then Ok(()) else Thrown(c.error);
    }

    method HumidifyIsothermal(mda: real, w: real) returns (r: Outcome<()>)
      modifies this
      ensures var c := lib.humidifyIsothermal(old(air), mda, w);
        match c
        case Ok(a) => r == Ok(()) && air == a
        case Thrown(e) => r == Thrown(e) && air == old(air)
    {
      var c := lib.humidifyIsothermal(air, mda, w);
      Take(c);
      r := if c.Ok? then Ok(()) else Thrown(c.error);
    }

    /** Mixes `other` into this instance and returns the combined dry-air mass flow rate. */
    method Mixing(mda1: real, other: MoistAir<Air>, mda2: real) returns (r: Outcome<real>)
      modifies this
      ensures var c := lib.mixing(old(air), mda1, old(other.air), mda2);
        match c
        case Ok(am) => r == Ok(am.1) && air == am.0
        case Thrown(e) => r == Thrown(e) && air == old(air)
    {
      var c := lib.mixing(air, mda1, other.air, mda2);
      match c
      case Ok(am) => air := am.0; r := Ok(am.1);
      case Thrown(e) => r := Thrown(e);
    }
  }
}
