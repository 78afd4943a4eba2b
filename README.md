# dieselgate_service calculation engine, modelled in Dafny

The service answers two questions about a diesel car: how much fuel it uses
over a distance, and how likely its unit injectors are to fail. This project
models the engine behind both answers:

- the **wear model** (`WearRatio`), which turns a production year and a wear
  coefficient into an age-scaled surcharge fraction;
- the **consumption calculator** (`DieselConsumption`), an object with a
  baseline rate per 100 km and an optional wear ratio attached in place. It
  adds the surcharge and caps the rate at three times the baseline;
- the **placeholder failure estimator** (`UnitInjectorRandomCalc`);
- the **PasWagon C6 calculator**, which fixes one wear coefficient and
  combines the pieces;
- the two **capability interfaces** and their **Null placeholders**, which
  always report a configuration error;
- the two **error taxonomies** with their display messages;
- the **JSON response layer**: the status code of each error, the
  `{ "error": ... }` body, `encode`'s 200 OK, and the empty-body fallback.

Floating-point values are exact `real`s. The current calendar year and the
random sample are parameters (`currentYear`, `sample`). A rounded result is
`Decimal.WithPrec(exact, digits)`: the exact value that `with_prec(digits)`
rounds, with the rounding itself not computed. Rust's capability traits are
closed sums with one variant per implementation found in the repository.
A wear ratio as `WearRatio::new` builds it is the subset type
`ValidWearRatio` (coefficient at least 1.0): outside the calculators module
`new` is the only way to make one, so the consumption calculator accepts only
those. `PasWagonC6Calculator` is a datatype: `PasWagonC6Calculator::new` is its
constructor, and its wear coefficient is set there and can never be written
again, so neither operation can change it.

Files: `results.dfy` (Option and Result, usable with `:-` the way the source
uses `?`), `calculation_errors.dfy`, `calculators.dfy`, `people_car.dfy`,
`calculation_traits.dfy`, `json_response.dfy`.

## Model

| member | source | states |
|---|---|---|
| CalculationErrors.DieselUsageCalculationError.ToString | src/calculation_errors.rs:1-7 | `InvalidParams(m)` shows the prefix "Invalid Calculation Parameters: " followed by exactly `m`; `Unimplemented` shows "Internal Error, Invalid configuration" |
| CalculationErrors.UnitInjectorFailCalculationError.ToString | src/calculation_errors.rs:9-15 | the same two messages for the injector errors |
| CalculationErrors.DieselToStringInjective | src/calculation_errors.rs:1-7 | two diesel errors with the same message are the same error, so the message identifies the variant and its parameter |
| CalculationErrors.InjectorToStringInjective | src/calculation_errors.rs:9-15 | the same for injector errors |
| CalculationErrors.MessageShapesDistinct | src/calculation_errors.rs:3-6 | a prefixed message, the configuration message and the conversion-failure message never coincide, and a prefixed message determines its parameter |
| Results.Option.UnwrapOr | src/calculators/mod.rs:117-119 | the contained value when there is one, otherwise the default given (what `unwrap_or_default` does with `0`) |
| Calculators.FromF64 | src/calculators/mod.rs:53 | the conversion to a decimal never fails on an exact real and keeps the value |
| Calculators.Min | src/calculators/mod.rs:49 | the result is one of the two arguments and no larger than either |
| Calculators.WearRatio.GetRatio | src/calculators/mod.rs:89-95 | a car older than 0 gets its age times (coefficient - 1); age 0 gives the sentinel 1.0; with a coefficient of at least 1.0 the ratio is never negative |
| Calculators.NewWearRatio | src/calculators/mod.rs:65-87 | a coefficient below 1.0 gives `Unimplemented` whatever the year; otherwise a production year after the current one gives `InvalidParams("This car does not exist yet :)")`; it succeeds exactly when neither holds, and then production year plus age is the current year and the coefficient is kept |
| Calculators.EffectiveRate | src/calculators/mod.rs:43-50 | without wear the rate is the baseline; with wear it never exceeds three times the baseline nor the baseline times (1 + ratio) |
| Calculators.FuelUsage | src/calculators/mod.rs:33-55 | a value exactly when baseline and distance are both at least 1, and then distance/100 times the effective rate to 2 digits; every error is `InvalidParams` |
| Calculators.FuelUsageValidationOrder | src/calculators/mod.rs:33-41 | a baseline below 1 is reported before the distance is looked at; a baseline of at least 1 with a distance below 1 reports the distance; the result is a value exactly when both are at least 1 |
| Calculators.FuelUsageErrorsAreInputErrors | src/calculators/mod.rs:33-55 | every error the consumption calculator returns is `InvalidParams`: the conversion failure never happens on exact values |
| Calculators.FuelUsageWithoutWear | src/calculators/mod.rs:43-55 | without wear the exact consumption is distance/100 times the baseline, rounded to 2 digits |
| Calculators.EffectiveRateBounds | src/calculators/mod.rs:43-50 | with no wear or a coefficient of at least 1.0, the effective rate lies between the baseline and three times the baseline |
| Calculators.CapAppliesIff | src/calculators/mod.rs:44-50 | for a baseline of at least 1, the rate is three times the baseline exactly when the ratio is at least 2; below that it is the baseline times (1 + ratio) |
| Calculators.NewCarDoublesRate | src/calculators/mod.rs:44-49 | a car of age 0 gets exactly twice the baseline rate |
| Calculators.EffectiveRateMonotoneInAge | src/calculators/mod.rs:44-50 | from age 1 on, an older car of the same coefficient never gets a lower rate |
| Calculators.NewCarChargedMoreThanOneYearOld | src/calculators/mod.rs:89-95 | for a baseline of at least 1 and a coefficient in [1.0, 2.0), a car of age 0 gets a higher rate than the same car at age 1: the sentinel breaks monotonicity |
| Calculators.FuelUsageBounds | src/calculators/mod.rs:43-55 | a successful exact consumption lies between the unworn figure and three times it |
| Calculators.DieselConsumption.constructor | src/calculators/mod.rs:14-19 | a new calculator holds the given baseline and no wear |
| Calculators.DieselConsumption.WithWear | src/calculators/mod.rs:21-24 | the wear field now holds the given ratio |
| Calculators.DieselConsumption.FuelUsageAt | src/calculators/mod.rs:26-56 | the result, computed with a local rate that the wear branch overwrites, is `FuelUsage` of the object's baseline and wear, about which the lemmas above are stated |
| Calculators.UnitInjectorRandomCalc.CalcFailureProbability | src/calculators/mod.rs:101-120 | an error exactly when the VIN is empty, and then `InvalidParams("Vin cannot be empty")`; otherwise always a value: the sample, in [0.1, 0.8) before rounding, to 2 digits |
| PeopleCar.PasWagonC6Calculator.CalcConsumptionForDistance | src/calculators/people_car.rs:19-23 | the result is the wear-ratio construction's error if it fails, otherwise the consumption calculator's result with that wear attached |
| PeopleCar.PasWagonC6Calculator.ConsumptionForDistance | src/calculators/people_car.rs:19-23 | a coefficient below 1.0 gives `Unimplemented`; otherwise a future year gives the year error; the result is a value exactly when coefficient, year, fuel usage and distance are all valid |
| PeopleCar.PasWagonC6Calculator.CalcFailureProbability | src/calculators/people_car.rs:26-30 | the result is the placeholder estimator's result; a non-empty VIN always gets a value |
| PeopleCar.CoefficientBelowOneIsUnimplemented | src/calculators/people_car.rs:20 | a coefficient below 1.0 gives `Unimplemented` for every fuel usage, distance and year |
| PeopleCar.FutureYearReportedFirst | src/calculators/people_car.rs:20-22 | a future production year is reported even when the fuel usage or the distance is invalid too |
| PeopleCar.ValidYearAttachesWear | src/calculators/people_car.rs:20-22 | with a valid coefficient and year, the result is the consumption calculator's with the car's age and the coefficient attached |
| PeopleCar.ConsumptionBounds | src/calculators/people_car.rs:19-23 | every successful exact consumption lies between distance/100 times the fuel usage and three times that |
| PeopleCar.OneYearOldCarExample | src/calculators/people_car.rs:50-52 | coefficient 2.0, 5 per 100 km, 100 km, a car one year old: exactly 10 |
| PeopleCar.NewCarExample | src/calculators/people_car.rs:42-48 | coefficient 2.0, 5 per 100 km, 100 km, a car built this year: 10, and not the 5 the test expects |
| PeopleCar.FailureProbabilityExample | src/calculators/people_car.rs:59-62 | the VIN "_unused" gets a value |
| CalculationTraits.NullDieselUsageCalculator.CalcConsumptionForDistance | src/calculation_traits.rs:9-13 | always `Err(Unimplemented)` |
| CalculationTraits.NullUnitInjectorFailProbabilityCalculator.CalcFailureProbability | src/calculation_traits.rs:20-24 | always `Err(Unimplemented)` |
| CalculationTraits.DieselUsageCalculator.CalcConsumptionForDistance | src/calculation_traits.rs:4-6 | the Null implementation gives `Unimplemented`; the PasWagon C6 one gives what that calculator computes |
| CalculationTraits.UnitInjectorFailProbabilityCalculator.CalcFailureProbability | src/calculation_traits.rs:15-17 | the Null implementation gives `Unimplemented`; every other one gives the placeholder estimator's result |
| CalculationTraits.NullDieselNeverInvalidParams | src/calculation_traits.rs:10-12 | for every fuel usage, distance and year, even zero inputs or a future year, the Null calculator gives `Unimplemented` and never `InvalidParams` |
| CalculationTraits.NullInjectorIgnoresEmptyVin | src/calculation_traits.rs:21-23 | for an empty VIN the Null estimator gives `Unimplemented` where the real one gives `InvalidParams` |
| CalculationTraits.UnimplementedExactlyWhenMisconfigured | src/calculation_traits.rs:4-13 | over all consumption implementations, `Unimplemented` comes out exactly when the Null one is bound or the bound car has a coefficient below 1.0 |
| CalculationTraits.FailureProbabilityInRange | src/calculators/mod.rs:113-119 | every estimate that any implementation returns is in [0.1, 0.8) before rounding |
| JsonResponses.EmitJson | src/json_response.rs:59-81 | the emitted response keeps the status, is typed application/json, and has an empty body when there is none (shared by both `into_response` impls) |
| JsonResponses.JsonResponse.IntoResponse | src/json_response.rs:59-69 | a success response keeps its status, is typed application/json, and is sent with an empty body when it has none |
| JsonResponses.JsonErrorResponse.IntoResponse | src/json_response.rs:71-81 | an error response keeps its status, is typed application/json, and is sent with an empty body when it has none |
| JsonResponses.EncodeWith | src/json_response.rs:24-33 | a successful serialisation gives the bytes with the given status; a failed one gives 500 with no body |
| JsonResponses.Encode | src/json_response.rs:35-40 | every successful encoding carries 200 OK and the serialised value; a failed serialisation gives 500 with no body |
| JsonResponses.Error | src/json_response.rs:44-54 | the body is the serialised `{ "error": message }` with the given status, or 500 with no body when serialisation fails |
| JsonResponses.DieselStatus | src/json_response.rs:89-93 | 400 exactly for `InvalidParams` and `CalculationFailed`, 500 exactly for `Unimplemented` |
| JsonResponses.InjectorStatus | src/json_response.rs:103-106 | 400 exactly for `InvalidParams`, 500 exactly for `Unimplemented` |
| JsonResponses.FromDieselError | src/json_response.rs:85-97 | when serialisation succeeds, the response has the error's status and the serialised error message; when it fails, 500 with no body |
| JsonResponses.FromInjectorError | src/json_response.rs:99-110 | the same for injector errors, including 500 with no body when serialisation fails |
| JsonResponses.DieselErrorResponseIdentifiesError | src/json_response.rs:85-97 | with a serialiser that succeeds and keeps objects apart, equal error responses come from equal diesel errors |
| JsonResponses.InjectorErrorResponseIdentifiesError | src/json_response.rs:99-110 | the same for injector errors |

## Where the code and its tests disagree

- `DieselUsageCalculationError` (src/calculation_errors.rs:1-7) declares only
  `InvalidParams` and `Unimplemented`, yet `CalculationFailed` appears at
  src/calculators/mod.rs:53 and src/json_response.rs:91. As written neither
  line does what it evidently means. At mod.rs:53 the name resolves to
  nothing, so the file does not compile. At json_response.rs:91 the name is
  no variant, so it is read as a fresh binding that matches every error; that
  binding moves `err`, so the use of `err` at :95 does not compile, and the
  `_` arm at :92 could never be reached. The file as written therefore has no
  status mapping at all. The model follows the evident intent: a third
  variant, and `DieselStatus` giving 400 to `InvalidParams` and
  `CalculationFailed` and 500 to `Unimplemented`. The source gives the
  variant no display string; the model shows it as "Calculation failed", its
  own choice.
- At age 0 `get_ratio` returns 1.0 (src/calculators/mod.rs:93), so the rate
  becomes `avg + avg * 1.0`, twice the baseline (mod.rs:45). For coefficient
  2.0, 5 per 100 km and 100 km that is 10. The test at
  src/calculators/people_car.rs:46-48 expects 5. The model follows the code:
  `PeopleCar.NewCarExample` proves the result is 10 and not 5. Both 5 and 10
  have two significant digits, so rounding does not change either.
- src/main.rs declares no `mod calculators` (src/main.rs:9-11). So the
  calculators and the PasWagon C6 calculator are not part of the built
  program, and the server wires only the Null calculators (src/main.rs:19-25).

## Left out

- Floating point: values are exact reals. A NaN coefficient passes the `< 1.0` check in the source; it has no counterpart here. Values too large for an `f64` are not modelled either.
- Rounding to 2 significant digits (`with_prec(2)`): the result records the exact value and the digit count; the rounded value is not computed.
- Calculators.DieselConsumption.FuelUsageAt: the `BigDecimal::from_f64` failure branch is kept, but it never fires on reals. In the source it cannot fire either: `f64::min` drops a NaN and the cap keeps the rate finite.
- Calculators.UnitInjectorRandomCalc.CalcFailureProbability: states the range [0.1, 0.8) for the sample before rounding, not for the rounded value.
- The clock (`Local::now()`) and the random generator (`thread_rng`, `gen_range(0.1..0.8)`): they are the parameters `currentYear` and `sample`; the sample is required to lie in [0.1, 0.8).
- Calculators.NewWearRatio: compares and subtracts years as unbounded integers; the source's `usize` to `i32` casts would wrap for years above 2^31 - 1.
- Usize widths of fuel usage and distance: modelled as unbounded naturals.
- serde_json: the bytes written and how strings are escaped are not modelled. The parameter `toWriter` stands for `serde_json::to_writer` into a fresh buffer.
- axum's `IntoResponse` and the HTTP server: a response is a record of status, content type and body.
- src/main.rs (routing, query parsing, the tokio server, tracing, `Arc` sharing): I/O and concurrency, not modelled.
- Open extension: the capability interfaces are closed sums, so an implementation from outside the repository cannot be bound.
