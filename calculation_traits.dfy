// The two capability interfaces of the engine, "computes consumption" and
// "computes failure probability", and their Null placeholders.
//
// Each interface is modelled as a closed sum with one variant per
// implementation in the repository, and a dispatching member that plays the
// role of the trait method.
module CalculationTraits {
  import opened Results
  import opened CalculationErrors
  import opened Calculators
  import opened PeopleCar

  /** `NullDieselUsageCalculator`: the placeholder that reports a configuration error. */
  datatype NullDieselUsageCalculator = NullDieselUsageCalculator {
    function CalcConsumptionForDistance(fuelUsage: nat, distance: nat, yearOfProduction: nat): (r: Result<Decimal, DieselUsageCalculationError>)
      ensures r.Err? && r.error.Unimplemented?
    {
      Err(DieselUsageCalculationError.Unimplemented)
    }
  }

  /** `NullUnitInjectorFailProbabilityCalculator`: the placeholder that reports a configuration error. */
  datatype NullUnitInjectorFailProbabilityCalculator = NullUnitInjectorFailProbabilityCalculator {
    function CalcFailureProbability(vin: string): (r: Result<Decimal, UnitInjectorFailCalculationError>)
      ensures r.Err? && r.error.Unimplemented?
    {
      Err(UnitInjectorFailCalculationError.Unimplemented)
    }
  }

  /** The implementations of `DieselUsageCalculator`. */
  datatype DieselUsageCalculator =
    | NullDiesel(placeholder: NullDieselUsageCalculator)
    | PasWagonC6Diesel(car: PasWagonC6Calculator)
  {
    /** `calc_consumption_for_distance`, dispatched to the implementation. */
    function CalcConsumptionForDistance(fuelUsage: nat, distance: nat, yearOfProduction: nat, currentYear: int): (r: Result<Decimal, DieselUsageCalculationError>)
      ensures NullDiesel? ==> r == Err(DieselUsageCalculationError.Unimplemented)
      ensures PasWagonC6Diesel? ==> r == car.ConsumptionForDistance(fuelUsage, distance, yearOfProduction, currentYear)
    {
      match this
      case NullDiesel(n) => n.CalcConsumptionForDistance(fuelUsage, distance, yearOfProduction)
      case PasWagonC6Diesel(c) => c.ConsumptionForDistance(fuelUsage, distance, yearOfProduction, currentYear)
    }
  }

  /** The implementations of `UnitInjectorFailProbabilityCalculator`. */
  datatype UnitInjectorFailProbabilityCalculator =
    | NullInjector(placeholder: NullUnitInjectorFailProbabilityCalculator)
    | RandomInjector(random: UnitInjectorRandomCalc)
    | PasWagonC6Injector(car: PasWagonC6Calculator)
  {
    /** `calc_failure_probability`, dispatched to the implementation. */
    function CalcFailureProbability(vin: string, sample: real): (r: Result<Decimal, UnitInjectorFailCalculationError>)
      requires 0.1 <= sample < 0.8
      ensures NullInjector? ==> r == Err(UnitInjectorFailCalculationError.Unimplemented)
      ensures !NullInjector? ==> r == UnitInjectorRandomCalc.UnitInjectorRandomCalc.CalcFailureProbability(vin, sample)
    {
      match this
      case NullInjector(n) => n.CalcFailureProbability(vin)
      case RandomInjector(g) => g.CalcFailureProbability(vin, sample)
      case PasWagonC6Injector(c) => c.CalcFailureProbability(vin, sample)
    }
  }

  /** The Null consumption calculator never blames the caller, whatever the fuel usage, distance or year. */
  lemma NullDieselNeverInvalidParams(fuelUsage: nat, distance: nat, yearOfProduction: nat, currentYear: int)
    ensures NullDiesel(NullDieselUsageCalculator).CalcConsumptionForDistance(fuelUsage, distance, yearOfProduction, currentYear)
         == Err(DieselUsageCalculationError.Unimplemented)
  {
  }

  /** The Null estimator answers an empty VIN with a configuration error, not an input error. */
  lemma NullInjectorIgnoresEmptyVin(sample: real)
    requires 0.1 <= sample < 0.8
    ensures NullInjector(NullUnitInjectorFailProbabilityCalculator).CalcFailureProbability("", sample)
         == Err(UnitInjectorFailCalculationError.Unimplemented)
    ensures RandomInjector(UnitInjectorRandomCalc).CalcFailureProbability("", sample)
         == Err(UnitInjectorFailCalculationError.InvalidParams(VinEmpty))
  {
  }

  /**
   * Across all consumption implementations, `Unimplemented` comes out exactly
   * when no real calculator is bound or the bound one has a coefficient below 1.0.
   */
  lemma UnimplementedExactlyWhenMisconfigured(c: DieselUsageCalculator, fuelUsage: nat, distance: nat, yearOfProduction: nat, currentYear: int)
    ensures c.CalcConsumptionForDistance(fuelUsage, distance, yearOfProduction, currentYear) == Err(DieselUsageCalculationError.Unimplemented)
        <==> c.NullDiesel? || c.car.wearRatio < 1.0
  {
  }

  /** Every estimate any implementation returns lies in [0.1, 0.8) before rounding. */
  lemma FailureProbabilityInRange(c: UnitInjectorFailProbabilityCalculator, vin: string, sample: real)
    requires 0.1 <= sample < 0.8
    ensures c.CalcFailureProbability(vin, sample).Ok? ==>
      0.1 <= c.CalcFailureProbability(vin, sample).value.exact < 0.8
  {
  }
}
