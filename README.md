# psychroid-web: the process-chain engine

psychroid-web is a browser psychrometric chart. The user describes an initial
moist-air condition and a list of air-handling processes: heating, cooling,
humidification and (in the form only) mixing. The application then computes the chain
of air states, draws them on the chart and lists them in a table. All thermodynamics
live in a WebAssembly library. What remains in the application, and is modelled here,
is:

- **The engine** (`App`, file `app.dfy`).
  - It resolves the initial condition into state 0. A humidity tag selects one of five
    library constructors. A flow-rate tag selects one of three dry-air mass flow formulas.
  - It folds `calculateNextState` over the process list. Each step rebuilds an air
    instance from the previous state, applies the one library call the
    (processType, inputType) pair selects, and reads the state back.
  - A throw from the process call is caught: the step repeats the previous state with
    the next id. A throw from the constructor or from a read-back accessor escapes.
  - It builds the relative-humidity and enthalpy chart lines.
  - The component's React state is the class `AppState`, with one method per effect
    and handler.
- **The library interface** (`Psychroid`, `psychroid.dfy`).
  - `Library` is a record of function values, one per export, following the
    library's TypeScript declarations. Exports that can throw return an `Outcome`.
  - `MoistAir` is the class whose process methods change an instance in place.
- **The generic fold** (`StateChain`, `statechain.dfy`): the state list as a fold with a
  throwing step, and its prefix, restart and persistence lemmas.
- **The process list** (`ProcessArray`): the initial list, append, replace-by-id, the
  hand-over, and the invariant that ids are positions.
- **One process card** (`ProcessCard`).
  - The class `Card` edits a shared mutable `ProcessRecord` in place. Each handler is
    specified by a pure function of the record's old value.
  - The input-range table of the mixing humidity field.
- **The state table** (`StateTable`): one row per state, the relative humidity in
  percent, and the volumetric flow rate derived back from the dry-air mass flow rate.
- **The chart** (`Chart`): the plot bounds, the in-bounds state filter, the
  clipping of the saturation line at the top of the plot, and the minor-tick filter.
- **JavaScript semantics** (`Js`): exceptions, `undefined`, division that can
  produce a non-finite number, `Math.round`, `Array.prototype.filter` and
  integer-to-text conversion.

Quantities are `real`. Wherever the code evaluates a division whose divisor can be
zero, the model says so explicitly (`Num.NonFinite`, `Clip.NonFiniteX`,
`ResolvedNonFinite`).

Four facts about the code shape the model:
- there is no "Mixing" branch in the step: a mixing card calls no library function;
- a faulted step is not reset: the catch only logs the fault and repeats the previous
  state with the next id (src/App.tsx:198-202);
- `fromHumidityRatio` in the step and the read-back accessors lie outside the `try`,
  so their exceptions escape the state effect;
- the total air mass flow rate is *multiplied* by `1 + W` to obtain the dry-air mass
  flow rate (src/App.tsx:242).

## Model

| member | source | states |
|---|---|---|
| App.InitialAir | src/App.tsx:227-239 | an unknown humidity tag throws "Invalid parameter type"; each of the five known tags yields exactly its own constructor's outcome, with relative humidity divided by 100 |
| App.VolumetricToDryAirMass | src/App.tsx:246 | the quotient is finite exactly when `1 + W` is not zero, and then times `1 + W` equals `v / 3600 · ρ` |
| App.DryAirMassFlowRate | src/App.tsx:241-249 | the result is the "Invalid flow rate type" exception exactly when the tag is not one of the three flow-rate tags |
| App.Resolve | src/App.tsx:225-256 | resolution fails exactly when the constructor throws or the flow-rate tag is unknown |
| App.ReadBack | src/App.tsx:204-214 | the read-back succeeds exactly when wet-bulb, dew-point and relative humidity do not throw; it then carries the given id and flow rate and every accessor's value; otherwise it throws the exception of the first throwing accessor in literal order |
| App.MutatorOf | src/App.tsx:184-197 | a library call is selected exactly for the six matched (processType, inputType) pairs, and each pair selects its own call |
| App.Mutate | src/App.tsx:184-197 | with no call selected the air is unchanged; only cooling and humidification can throw |
| App.ProcessCallOf | src/App.tsx:184-197 | each of the six matched pairs runs its own library call on the rebuilt air with the previous flow rate and the card's value, and the step uses that call's new air or exception; any other pair leaves the air unchanged |
| App.NextState | src/App.tsx:180-216 | a successful step advances the id by one and keeps the dry-air mass flow rate |
| App.StepEscapes | src/App.tsx:181-214 | a step throws `e` if and only if the constructor throws `e`, or the process call did not throw and a read-back accessor threw `e` |
| App.StepFault | src/App.tsx:198-202 | a throwing process call makes the step return the previous state with only its id advanced |
| App.UnmatchedProcessCallsNothing | src/App.tsx:181-214 | an unmatched pair, "Mixing" included, calls nothing: the next state is read back from the air rebuilt from the previous dry-bulb temperature and humidity ratio |
| App.StatesUpTo | src/App.tsx:269-276 | a successful fold of `n` processes has `n + 1` states, the first being state 0 |
| App.StatesNumbered | src/App.tsx:269-276 | along a successful fold the ids count up from state 0's, and every state carries state 0's dry-air mass flow rate |
| App.StatesEffect | src/App.tsx:219-281 | a state list set by the effect has one state per process plus state 0 |
| App.ReadState | src/App.tsx:204-214 | reading through the accessors, the throwing ones in literal order, yields `ReadBack` of the instance |
| App.CalculateNextState | src/App.tsx:180-216 | the imperative step, with its if-chain, try/catch and in-place process call, yields `NextState` |
| App.MakeInitialAir | src/App.tsx:227-239 | the constructor dispatch yields the handle of `InitialAir`, or its exception |
| App.PushStates | src/App.tsx:269-276 | the push loop yields the fold `StatesUpTo` over all processes, or the first exception that escaped |
| App.RunStatesEffect | src/App.tsx:219-281 | the imperative effect yields `StatesEffect`: skipped, reset to the default, escaped, non-finite, or the state list |
| App.ResetIffResolutionFails | src/App.tsx:251-256 | the initial state is reset to the SI default exactly when resolution fails, and a state list is set only after a successful resolution |
| App.State0ReadBackEscapes | src/App.tsx:258-266 | an accessor that throws while state 0 is read back makes the effect end as `Escaped` with that exception |
| App.UnknownHumidityTagRejected | src/App.tsx:237-256 | an unknown humidity tag fails with "Invalid parameter type" and resets the initial state |
| App.UnknownFlowRateTagRejected | src/App.tsx:247-256 | a known humidity tag whose constructor succeeds, together with an unknown flow-rate tag, fails with "Invalid flow rate type" and resets the initial state |
| App.ResolvedDispatch | src/App.tsx:227-249 | a resolved state came from one of the five constructors, with relative humidity divided by 100, and from one of the three flow formulas: `v·(1+W)`, `v`, or the `m` with `m·(1+W) = v/3600·ρ` |
| App.ChainShape | src/App.tsx:258-276 | every state list the effect sets has one state more than there are processes, ids equal to positions, and state 0's flow rate throughout; state 0 is read back from the resolved air with id 0 |
| App.EffectChain | src/App.tsx:258-278 | every state list the effect sets is the fold over the processes from a state 0 |
| App.FaultIsolation | src/App.tsx:183-202 | when the process call of step `k` throws, state `k + 1` is state `k` with only its id advanced, and the later states are the fold of the remaining processes from that copy |
| App.RhLineAt | src/App.tsx:118-130 | line `i` is the generator's curve for `(i+1)·0.1` over the line range, labelled by its whole percentage |
| App.RhLines | src/App.tsx:114-134 | there are exactly ten relative-humidity lines |
| App.GetRhLines | src/App.tsx:114-134 | the `forEach`/`push` loop yields `RhLines` |
| App.RhLineValues | src/App.tsx:115-130 | the relative humidities are `(i+1)·0.1` from 10 % to 100 %, only the last is 100 %, and each is labelled by its whole percentage |
| App.EnthalpyLineAt | src/App.tsx:145-157 | line `i` fails exactly when the generator throws for value `i`, with its exception; otherwise it holds the generator's curve and the unit label |
| App.EnthalpyLinesUpTo | src/App.tsx:145-158 | successful lines number as many as the values, and line `i` is the generator's line for value `i` with its label |
| App.GetEnthalpyLines | src/App.tsx:137-161 | the `forEach`/`push` loop yields `EnthalpyLinesUpTo` over all values, or the first exception |
| App.EnthalpyLinesExtend | src/App.tsx:145-158 | the lines for `n + 1` values are the lines for `n` values followed by line `n`, or line `n`'s exception |
| App.EnthalpyThrownPersists | src/App.tsx:145-158 | once a line throws, every longer prefix throws the same exception |
| App.EnthalpyLinesFailIff | src/App.tsx:145-158 | the enthalpy lines fail exactly when the generator throws for one of the values |
| App.EnthalpyLineValues | src/App.tsx:140-142 | the SI values run from -10 to 110 in steps of 10, and the IP values from 5 to 50 in steps of 5 |
| App.AppState.constructor | src/App.tsx:81-94 | the library is not loaded, the initial state is the SI default, and every list is empty |
| App.AppState.WasmLoaded | src/App.tsx:99-111 | a successful load sets the loaded flag and nothing else |
| App.AppState.HandleInitialize | src/App.tsx:172-174 | sets the initial state and nothing else |
| App.AppState.HandleApplyProcesses | src/App.tsx:176-178 | sets the process list and nothing else |
| App.AppState.UpdateLines | src/App.tsx:164-170 | once the library is loaded, the RH lines are replaced; the enthalpy lines are replaced, or a throw escapes after the RH lines were set |
| App.AppState.UpdateStates | src/App.tsx:219-281 | applies `StatesEffect`: a state list replaces `states`, a failed resolution resets the initial state, and an escaped exception is reported |
| StateChain.Chain | src/App.tsx:269-276 | a successful fold of `n` elements has `n + 1` states, starting from state 0 |
| StateChain.ChainThrownPersists | src/App.tsx:269-276 | once a step throws, every longer fold throws the same exception |
| StateChain.ChainPrefix | src/App.tsx:271-275 | a prefix of a successful fold is the fold of the prefix, and each state is the step applied to the one before |
| StateChain.ChainContinues | src/App.tsx:271-275 | each step of a successful fold yields the next state, and the fold goes on from it over the remaining elements |
| StateChain.ChainRestarts | src/App.tsx:271-275 | the states from position `k` on are the fold of the remaining elements from state `k` |
| Psychroid.MoistAir.FromRelativeHumidity | src/lib/psychroid.d.ts:58 | the factory yields a fresh instance holding the library constructor's handle, or its exception |
| Psychroid.MoistAir.FromHumidityRatio | src/lib/psychroid.d.ts:68 | as above, for the humidity-ratio constructor |
| Psychroid.MoistAir.FromSpecificEnthalpy | src/lib/psychroid.d.ts:72 | as above; this constructor never throws |
| Psychroid.MoistAir.FromTWetBulb | src/lib/psychroid.d.ts:76 | as above, for the wet-bulb constructor |
| Psychroid.MoistAir.FromTDewPoint | src/lib/psychroid.d.ts:80 | as above, for the dew-point constructor |
| Psychroid.MoistAir.TDryBulb | src/lib/psychroid.d.ts:84 | the library's dry-bulb temperature for the air the instance holds now, after its last successful process call |
| Psychroid.MoistAir.HumidityRatio | src/lib/psychroid.d.ts:88 | the library's humidity ratio for the air the instance holds now, after its last successful process call |
| Psychroid.MoistAir.SpecificEnthalpy | src/lib/psychroid.d.ts:92 | the library's specific enthalpy for the air the instance holds now, after its last successful process call |
| Psychroid.MoistAir.RelativeHumidity | src/lib/psychroid.d.ts:96 | the library's relative humidity, or the exception the library throws for the air the instance holds now, after its last successful process call |
| Psychroid.MoistAir.TWetBulb | src/lib/psychroid.d.ts:100 | the library's wet-bulb temperature, or the exception the library throws for the air the instance holds now, after its last successful process call |
| Psychroid.MoistAir.TDewPoint | src/lib/psychroid.d.ts:104 | the library's dew-point temperature, or the exception the library throws for the air the instance holds now, after its last successful process call |
| Psychroid.MoistAir.Density | src/lib/psychroid.d.ts:108 | the library's density for the air the instance holds now, after its last successful process call |
| Psychroid.MoistAir.HeatingPower | src/lib/psychroid.d.ts:112 | replaces the instance's air by the heated air |
| Psychroid.MoistAir.HeatingDeltaTemperature | src/lib/psychroid.d.ts:116 | replaces the air by the heated air and returns the power |
| Psychroid.MoistAir.CoolingPower | src/lib/psychroid.d.ts:120 | replaces the air by the cooled air, or throws and leaves it as it was |
| Psychroid.MoistAir.CoolingDeltaTemperature | src/lib/psychroid.d.ts:124 | replaces the air and returns the power, or throws and leaves the air as it was |
| Psychroid.MoistAir.HumidifyAdiabatic | src/lib/psychroid.d.ts:128 | replaces the air by the humidified air, or throws and leaves it as it was |
| Psychroid.MoistAir.HumidifyIsothermal | src/lib/psychroid.d.ts:132 | replaces the air by the humidified air, or throws and leaves it as it was |
| Psychroid.MoistAir.Mixing | src/lib/psychroid.d.ts:136 | replaces the air by the mixture with the other instance and returns the combined flow rate, or throws and leaves it as it was |
| ProcessArray.NewProcess | src/components/ProcessArray.tsx:15 | a new card has the given id, selects heating by power with value 0, and has no mixing fields |
| ProcessArray.InitialListIsOneHeatingCard | src/components/ProcessArray.tsx:10-12 | the initial list is exactly one heating card by a power of 0 with id 0 |
| ProcessArray.AddProcessCard | src/components/ProcessArray.tsx:14-17 | appends one card whose id is the old length and leaves the existing cards unchanged |
| ProcessArray.UpdateProcess | src/components/ProcessArray.tsx:19-23 | keeps the length and order, replaces exactly the cards whose id is the update's, and leaves all other cards as they were |
| ProcessArray.HandleApplyProcess | src/components/ProcessArray.tsx:25-28 | hands over the current list unchanged |
| ProcessArray.AddKeepsIdsContiguous | src/components/ProcessArray.tsx:15-16 | appending keeps ids equal to positions |
| ProcessArray.UpdateKeepsIdsContiguous | src/components/ProcessArray.tsx:19-23 | an update with an existing id keeps ids equal to positions and replaces exactly the card at that position |
| ProcessArray.UpdateOfUnknownIdIsIdentity | src/components/ProcessArray.tsx:21 | an update whose id no card carries leaves the list unchanged |
| ProcessArray.UpdateIsIdempotent | src/components/ProcessArray.tsx:19-23 | applying the same update twice is applying it once |
| ProcessArray.AppliedCardsNumberStates | src/components/ProcessArray.tsx:25-28 | applying a list whose ids are positions gives state `i + 1` the id of card `i` plus one |
| ProcessArray.EditsKeepIdsContiguous | src/components/ProcessArray.tsx:14-23 | any sequence of additions and in-range updates keeps ids equal to positions, and only additions change the length |
| ProcessArray.AdditionCount | src/components/ProcessArray.tsx:14-17 | the number of additions is at most the number of edits, and zero exactly when no edit adds a card |
| ProcessCard.ProcessRecord.constructor | src/components/ProcessCard.tsx:28 | the record holds the given field values |
| ProcessCard.Reset | src/components/ProcessCard.tsx:30-34 | selects heating by a power of 0 and leaves the id and the mixing fields unchanged |
| ProcessCard.TypeChanged | src/components/ProcessCard.tsx:51-69 | keeps the id; a known type becomes the process type; any other value leaves the record unchanged |
| ProcessCard.HeatingOrCoolingDefaults | src/components/ProcessCard.tsx:52-55 | a change to heating or cooling selects that process by a power of 0 and keeps the mixing fields |
| ProcessCard.HumidifyDefaults | src/components/ProcessCard.tsx:56-59 | a change to humidification selects adiabatic humidification by 0 and keeps the mixing fields |
| ProcessCard.MixingDefaults | src/components/ProcessCard.tsx:60-67 | a change to mixing sets the five mixing defaults, keeps the input type and value, and selects no library call in the chain |
| ProcessCard.TypeChangeIsIdempotent | src/components/ProcessCard.tsx:51-69 | choosing the same type twice is choosing it once |
| ProcessCard.ResetAbsorbsTypeChange | src/components/ProcessCard.tsx:30-69 | resetting is idempotent and undoes any earlier type change as far as the chain is concerned |
| ProcessCard.RangeForInputType | src/components/ProcessCard.tsx:115-130 | `min <= max` whenever `max` is defined, and `max` is undefined exactly for the humidity ratio |
| ProcessCard.RangeUnitsAgree | src/components/ProcessCard.tsx:121-124 | the IP temperature limits are the SI limits converted to °F |
| ProcessCard.MixingDefaultsInRange | src/components/ProcessCard.tsx:115-130 | the humidity default a change to mixing sets lies within the range then shown for it, in either unit system |
| ProcessCard.Card.constructor | src/components/ProcessCard.tsx:26-28 | the card edits the record it was given |
| ProcessCard.Card.ResetForm | src/components/ProcessCard.tsx:30-34 | the record becomes `Reset` of its old value |
| ProcessCard.Card.HandleProcessTypeChange | src/components/ProcessCard.tsx:51-69 | the record becomes `TypeChanged` of its old value, and that value is handed to `onChange` |
| ProcessCard.Card.HandleInputTypeChange | src/components/ProcessCard.tsx:71-74 | changes the input type and no other field, and hands the record to `onChange` |
| ProcessCard.Card.HandleValueChange | src/components/ProcessCard.tsx:76-79 | changes the value and no other field |
| ProcessCard.Card.HandleMixDryBulbChange | src/components/ProcessCard.tsx:81-84 | changes the mixing dry-bulb temperature and no other field |
| ProcessCard.Card.HandleMixFlowRateTypeChange | src/components/ProcessCard.tsx:86-89 | changes the mixing flow-rate type and no other field |
| ProcessCard.Card.HandleMixFlowRateValueChange | src/components/ProcessCard.tsx:91-94 | changes the mixing flow-rate value and no other field |
| ProcessCard.Card.HandleMixHumidityTypeChange | src/components/ProcessCard.tsx:96-99 | changes the mixing humidity type and no other field |
| ProcessCard.Card.HandleMixHumidityValueChange | src/components/ProcessCard.tsx:101-104 | changes the mixing humidity value and no other field |
| ProcessCard.Card.MixHumidityRange | src/components/ProcessCard.tsx:132 | the range shown for the record's mixing humidity type: no maximum exactly for the humidity ratio, `min <= max` otherwise, and 0 to 100 for relative humidity |
| ProcessCard.RenderedMixHumidityRange | src/components/ProcessArray.tsx:33-37 | a card rendered by the list shows the IP range for every humidity type |
| ProcessCard.MixHumidityRangeOfApp | src/components/ProcessCard.tsx:121-126 | a card given the application's unit system shows the SI ranges: [-100, 200] for wet-bulb and dew-point, [0, 500] for enthalpy |
| ProcessCard.RenderedCardShowsImperialRanges | src/components/ProcessArray.tsx:33-37 | in the SI application a rendered card accepts a wet-bulb temperature of 250 °C and rejects an enthalpy of 400 kJ/kg, unlike a card given the unit system |
| StateTable.VolumetricFlowRate | src/components/StateTable.tsx:38 | the displayed flow rate is finite exactly when the density is not zero, and then times the density equals `mda·3600·(1+W)` |
| StateTable.RowOf | src/components/StateTable.tsx:29-38 | a row copies the state's quantities, shows the relative humidity in percent, and a volumetric flow rate finite exactly for a non-zero density, whose product with the density is the mass flow times 3600 and `1 + W` |
| StateTable.Rows | src/components/StateTable.tsx:28-30 | one row per state, and each row's ID is its index |
| StateTable.RelativeHumidityInPercent | src/components/StateTable.tsx:33 | the displayed relative humidity is the state's fraction times 100 |
| StateTable.VolumetricRoundTrip | src/components/StateTable.tsx:38 | displaying the dry-air mass flow rate a volumetric flow rate resolves to gives back that volumetric flow rate, for a non-zero density and `1 + W` |
| StateTable.TableShowsInitialVolumetricFlow | src/components/StateTable.tsx:38 | for an initial volumetric flow rate, row 0 of the table shows that flow rate |
| StateTable.IdColumnMatchesStateIds | src/components/StateTable.tsx:28-30 | for a state list the engine produced, the ID column agrees with the states' ids |
| Chart.PlotBounds | src/components/Chart.tsx:22-25 | x from -15 to 40 (SI) or 5 to 104 (IP), y from 0 to 0.03 |
| Chart.PlotBoundsMatchLineRange | src/components/Chart.tsx:22-23 | the chart's x range is the range the chart lines are generated over |
| Chart.InBounds | src/components/Chart.tsx:357-362 | a state is in bounds when its dry-bulb temperature and humidity ratio lie in the closed plot ranges, which are then non-empty |
| Chart.FilteredStates | src/components/Chart.tsx:357-362 | the drawn states are states within the bounds, and every state within the bounds is drawn |
| Chart.FilteredStatesKeepOrder | src/components/Chart.tsx:357-362 | the filter distributes over concatenation, so it keeps the states' order, and keeps a single state exactly when it is within the bounds |
| Chart.Rh100Line | src/components/Chart.tsx:119 | the data of the last RH line, or no points when there are no lines |
| Chart.FindIndexAbove | src/components/Chart.tsx:120 | the first index of a point above `yMax`, or -1 exactly when there is none |
| Chart.ClipAtTop | src/components/Chart.tsx:119-138 | the clip ends at `yMax`; after an interior crossing it keeps the points before the first point above, otherwise all points; it reads `undefined` exactly when it must extrapolate from fewer than two points |
| Chart.PointAtHeight | src/components/Chart.tsx:127-136 | defined exactly for a non-level segment; the point is at height `yMax` and on the line through the two points |
| Chart.ClipInterpolates | src/components/Chart.tsx:123-129 | for a first exceeding index `k > 0`: the first `k` points are kept, all kept points are at or below `yMax`, and the added point lies on the crossing segment between its ends |
| Chart.ClipExtrapolates | src/components/Chart.tsx:130-138 | otherwise the whole line is kept and the last segment is extended to `yMax`; fewer than two points is a read of `undefined`, and a level last segment a non-finite x |
| Chart.ClippedLineIsSaturation | src/components/Chart.tsx:119 | the clipped line is the generated 100 % line |
| Chart.NearMajor | src/components/Chart.tsx:229 | a tick is near a major tick when some major tick lies within 1e-6 of it; every major tick is near itself, and nothing is near an empty tick list |
| Chart.MinorTicks | src/components/Chart.tsx:227-230 | the minor ticks are exactly the finer ticks not within 1e-6 of a major tick |
| Chart.MinorTicksAvoidMajor | src/components/Chart.tsx:248-251 | no minor tick equals a major tick, and every finer tick is a minor tick or near a major tick |
| Chart.RenderedBounds | src/App.tsx:291 | the chart as rendered uses the IP bounds |
| Chart.AppBounds | src/components/Chart.tsx:22-23 | the chart given the application's unit system uses the line range of that system |
| Chart.RenderedChartDropsColdStates | src/App.tsx:291 | the rendered chart's x range differs from the lines' range, and a state at 0 °C is not drawn although it is inside the SI plot |
| Js.Divide | src/App.tsx:246 | a JavaScript division is finite exactly when the divisor is not zero, and then times the divisor gives the dividend |
| Js.Abs | src/components/Chart.tsx:229 | `Math.abs`: a non-negative value equal to the argument or its negation |
| Js.Round | src/App.tsx:129 | `Math.round` gives the integer within one half of its argument, halves rounding up |
| Js.NatToStringDigits | src/App.tsx:129 | the text of a natural number is a non-empty string of digits with no leading zero except for 0 itself |
| Js.NatToStringRoundTrip | src/App.tsx:156 | reading the text of a natural number back as digits gives the number |
| Js.IntToString | src/App.tsx:129-156 | the `${n}` text of an integral number in the labels: non-empty, starting with a minus sign exactly for a negative number, followed by the magnitude's digits |
| Js.IntToStringRoundTrip | src/App.tsx:156 | the text of an integer starts with a minus exactly when it is negative, and the rest reads back as its magnitude |
| Js.Filter | src/components/Chart.tsx:357-362 | `filter` keeps elements that satisfy the predicate, and keeps all of them |
| Js.FilterDistributes | src/components/Chart.tsx:357-362 | `filter` distributes over concatenation |

## Left out

- The psychrometric correlations: they are compiled into the WebAssembly library, whose source is not part of this model. Every library export is a function value supplied by the caller.
- The wasm-bindgen glue (memory views, externref tables, finalizers, `fetch` and instantiation).
- The asynchronous library load (src/App.tsx:99-111): `AppState.WasmLoaded` takes its outcome as a parameter.
- All `console` logging.
- The d3 SVG construction, the tooltips and `exportSVG` (DOM and browser I/O). The d3 tick positions are inputs to `Chart.MinorTicks`.
- `toFixed` formatting in the state table and the tooltips.
- `Number(...)` parsing of typed text: the card's setters receive the already-converted number.
- Floating-point rounding: quantities are exact reals, so `StateTable.VolumetricRoundTrip` and `StateTable.TableShowsInitialVolumetricFlow` hold exactly, where the program's IEEE doubles give them only up to rounding.
- Non-finite numbers. A zero `1 + W` at src/App.tsx:246 ends the state effect as `NonFiniteFlowRate`, without following the infinite flow rate into the chain. A zero density at src/components/StateTable.tsx:38 gives `NonFinite` in the row. A level last segment of the saturation line at src/components/Chart.tsx:135 makes the program push and draw a point with a non-finite x; `Chart.ClipAtTop` stops at `NonFiniteX` instead.
- Psychroid.MoistAir: a process call that throws is modelled as leaving the instance unchanged. The library's behaviour here is not visible, and the chain discards the instance after a throw.
- ProcessCard.Card: the record's aliasing is modelled for the card alone. The same object is also the list entry that `updateProcess` replaces and the element App later reads; the list is modelled on values.
- The React render cycle: the effects are methods called explicitly, with no modelling of when React runs them or of the dependency arrays.
- src/components/Initialization.tsx (form state and parsing, whose range table repeats `ProcessCard.RangeForInputType`) and src/components/ProcessSummaryTable.tsx (display only). Neither is part of this model.
- The header, contact modal, cookie consent, guide pages and routing.

## Findings

| source | as written | input that shows it | evidently intended | confidence | as-written member | corrected member |
|---|---|---|---|---|---|---|
| src/App.tsx:291 | `<Chart … />` is rendered without `isSI`, so the chart reads `undefined` and uses the IP bounds x ∈ [5, 104] while the lines are generated for SI over [-15, 40] | a state at 0 °C with W = 0.003 | the chart receives `isSI` and uses the SI bounds | not executed; medium | Chart.RenderedChartDropsColdStates | Chart.AppBounds |
| src/components/ProcessArray.tsx:33-37 | `<ProcessCard … />` is rendered without `isSI`, so every card shows the IP ranges of the mixing humidity input | a wet-bulb temperature of 250 °C is accepted; an enthalpy of 400 kJ/kg is rejected | each card receives `isSI` and shows the SI ranges | not executed; medium | ProcessCard.RenderedCardShowsImperialRanges | ProcessCard.MixHumidityRangeOfApp |
