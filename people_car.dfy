// The calculator of one car model, the PasWagon C6: a fixed wear coefficient
// combined with the wear model, the consumption calculator and the injector
// estimator.
module PeopleCar {
  import opened Results
  import opened CalculationErrors
  import opened Calculators

  /** `PasWagonC6Calculator`: its one field is set at construction and never written again. */
  datatype PasWagonC6Calculator = PasWagonC6Calculator(wearRatio: real) {

    /** What `calc_consumption_for_distance` returns. */
    function ConsumptionForDistance(fuelUsage: nat, distance: nat, yearOfProduction: nat, currentYear: int): (r: Result<Decimal, DieselUsageCalculationError>)
      ensures wearRatio < 1.0 ==> r == Err(DieselUsageCalculationError.Unimplemented)
      ensures wearRatio >= 1.0 && yearOfProduction > currentYear ==> r == Err(DieselUsageCalculationError.InvalidParams(CarFromTheFuture))
      ensures r.Ok? <==> wearRatio >= 1.0 && yearOfProduction <= currentYear && fuelUsage >= 1 && distance >= 1
    {
      match NewWearRatio(yearOfProduction, wearRatio, currentYear)
      case Err(e) => Err(e)
      case Ok(wear) => FuelUsage(fuelUsage, Some(wear), distance)
    }

    /**
     * `calc_consumption_for_distance`: builds the wear ratio first and
     * propagates its error, then always attaches it to a fresh consumption
     * calculator.
     */
    method CalcConsumptionForDistance(fuelUsage: nat, distance: nat, yearOfProduction: nat, currentYear: int)
      returns (r: Result<Decimal, DieselUsageCalculationError>)
      ensures r == ConsumptionForDistance(fuelUsage, distance, yearOfProduction, currentYear)
    {
      var wear :- NewWearRatio(yearOfProduction, wearRatio, currentYear);
      var calculator := new DieselConsumption(fuelUsage);
      calculator.WithWear(wear);
      r := calculator.FuelUsageAt(distance);
    }

    /** `calc_failure_probability`: delegates to the placeholder estimator. */
    function CalcFailureProbability(vin: string, sample: real): (r: Result<Decimal, UnitInjectorFailCalculationError>)
      requires 0.1 <= sample < 0.8
      ensures r == UnitInjectorRandomCalc.UnitInjectorRandomCalc.CalcFailureProbability(vin, sample)
      ensures vin != [] ==> r.Ok?
    {
      UnitInjectorRandomCalc.UnitInjectorRandomCalc.CalcFailureProbability(vin, sample)
    }
  }

  /** A coefficient below 1.0 makes every consumption request a configuration error. */
  lemma CoefficientBelowOneIsUnimplemented(car: PasWagonC6Calculator, fuelUsage: nat, distance: nat, yearOfProduction: nat, currentYear: int)
    requires car.wearRatio < 1.0
    ensures car.ConsumptionForDistance(fuelUsage, distance, yearOfProduction, currentYear) == Err(DieselUsageCalculationError.Unimplemented)
  {
  }

  /** A future production year is reported even when the fuel usage or the distance is invalid too. */
  lemma FutureYearReportedFirst(car: PasWagonC6Calculator, fuelUsage: nat, distance: nat, yearOfProduction: nat, currentYear: int)
    requires car.wearRatio >= 1.0 && yearOfProduction > currentYear
    ensures car.ConsumptionForDistance(fuelUsage, distance, yearOfProduction, currentYear)
         == Err(DieselUsageCalculationError.InvalidParams(CarFromTheFuture))
  {
  }

  /** On a valid coefficient and year, the consumption calculator always runs with wear attached. */
  lemma ValidYearAttachesWear(car: PasWagonC6Calculator, fuelUsage: nat, distance: nat, yearOfProduction: nat, currentYear: int)
    requires car.wearRatio >= 1.0 && yearOfProduction <= currentYear
    ensures car.ConsumptionForDistance(fuelUsage, distance, yearOfProduction, currentYear)
         == FuelUsage(fuelUsage, Some(WearRatio((currentYear - yearOfProduction) as nat, car.wearRatio)), distance)
  {
  }

  /** Every successful consumption lies between the unworn figure and three times it. */
  lemma ConsumptionBounds(car: PasWagonC6Calculator, fuelUsage: nat, distance: nat, yearOfProduction: nat, currentYear: int)
    requires car.ConsumptionForDistance(fuelUsage, distance, yearOfProduction, currentYear).Ok?
    ensures var base := (distance as real / 100.0) * fuelUsage as real;
      var exact := car.ConsumptionForDistance(fuelUsage, distance, yearOfProduction, currentYear).value.exact;
      base <= exact <= 3.0 * base
  {
    var wear := NewWearRatio(yearOfProduction, car.wearRatio, currentYear).value;
    FuelUsageBounds(fuelUsage, Some(wear), distance);
  }

  /** Coefficient 2.0, 5 l/100km over 100km, a car one year old: 10 litres. */
  lemma OneYearOldCarExample(currentYear: int)
    requires currentYear >= 1
    ensures PasWagonC6Calculator(2.0).ConsumptionForDistance(5, 100, (currentYear - 1) as nat, currentYear)
         == Ok(WithPrec(10.0, ResultPrecision))
  {
  }

  /**
   * Coefficient 2.0, 5 l/100km over 100km, a car built this year: the ratio's
   * sentinel 1.0 doubles the rate, so the result is 10 litres and not 5.
   */
  lemma NewCarExample(currentYear: nat)
    ensures PasWagonC6Calculator(2.0).ConsumptionForDistance(5, 100, currentYear, currentYear)
         == Ok(WithPrec(10.0, ResultPrecision))
    ensures PasWagonC6Calculator(2.0).ConsumptionForDistance(5, 100, currentYear, currentYear)
         != Ok(WithPrec(5.0, ResultPrecision))
  {
  }

  /** Any non-empty VIN, such as "_unused", gets an estimate. */
  lemma FailureProbabilityExample(sample: real)
    requires 0.1 <= sample < 0.8
    ensures PasWagonC6Calculator(2.0).CalcFailureProbability("_unused", sample).Ok?
  {
  }
}
