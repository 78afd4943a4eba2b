// The calculation engine: the wear model, the wear-adjusted fuel consumption
// calculator and the placeholder unit-injector failure estimator.
//
// Floating-point values are modelled as exact reals. The two hidden inputs of
// the source, the calendar year read from the clock and the random sample, are
// parameters.
module Calculators {
  import opened Results
  import opened CalculationErrors

  const FuelUsageTooLow: string := "Fuel usage per 100km cannot be less than 1"
  const DistanceTooShort: string := "Distance cannot be less than 1"
  const CarFromTheFuture: string := "This car does not exist yet :)"
  const VinEmpty: string := "Vin cannot be empty"

  /** Significant digits every result is rounded to (`with_prec(2)`). */
  const ResultPrecision: nat := 2

  /**
   * A decimal result: the exact value that `with_prec(digits)` rounded to
   * `digits` significant digits. The rounding itself is not computed.
   */
  datatype Decimal = WithPrec(exact: real, digits: nat)

  /**
   * `BigDecimal::from_f64`: it fails only on values that are not finite,
   * and every real is finite.
   */
  function FromF64(x: real): (d: Option<real>)
    ensures d.Some? && d.value == x
  {
    Some(x)
  }

  /** `f64::min`. */
  function Min(a: real, b: real): (m: real)
    ensures m <= a && m <= b && (m == a || m == b)
  {
    if a <= b then a else b
  }

  // ---------------------------------------------------------------------------
  // Wear model

  /** A car's age and the wear coefficient of its model. */
  datatype WearRatio = WearRatio(carAge: nat, wearRatio: real) {
    /**
     * The surcharge fraction: age times (coefficient - 1) for a car older
     * than a year, and 1.0 for a car of age 0.
     */
    function GetRatio(): (r: real)
      ensures carAge == 0 ==> r == 1.0
      ensures carAge > 0 ==> r == carAge as real * (wearRatio - 1.0)
      ensures wearRatio >= 1.0 ==> r >= 0.0
    {
      if carAge > 0 then carAge as real * (wearRatio - 1.0) else 1.0
    }
  }

  /**
   * A wear ratio as `WearRatio::new` builds it: outside the calculators the
   * constructor is the only way to make one, and it refuses coefficients below 1.0.
   */
  type ValidWearRatio = w: WearRatio | w.wearRatio >= 1.0 witness WearRatio(0, 1.0)

  /**
   * `WearRatio::new`: a coefficient below 1.0 is a configuration error and is
   * checked first; a production year after `currentYear` is an input error.
   */
  function NewWearRatio(productionYear: nat, wearRatio: real, currentYear: int): (r: Result<ValidWearRatio, DieselUsageCalculationError>)
    ensures wearRatio < 1.0 ==> r == Err(DieselUsageCalculationError.Unimplemented)
    ensures wearRatio >= 1.0 && productionYear > currentYear ==> r == Err(DieselUsageCalculationError.InvalidParams(CarFromTheFuture))
    ensures r.Ok? <==> wearRatio >= 1.0 && productionYear <= currentYear
    ensures r.Ok? ==> productionYear + r.value.carAge == currentYear && r.value.wearRatio == wearRatio
  {
    if wearRatio < 1.0 then
      Err(DieselUsageCalculationError.Unimplemented)
    else if productionYear > currentYear then
      Err(DieselUsageCalculationError.InvalidParams(CarFromTheFuture))
    else
      Ok(WearRatio((currentYear - productionYear) as nat, wearRatio))
  }

  // ---------------------------------------------------------------------------
  // Consumption calculator: specification

  /** The per-100km rate after wear: baseline plus surcharge, capped at three times the baseline. */
  function EffectiveRate(avgUsage: nat, wear: Option<ValidWearRatio>): (r: real)
    ensures wear.None? ==> r == avgUsage as real
    ensures wear.Some? ==> r <= 3.0 * avgUsage as real && r <= avgUsage as real * (1.0 + wear.value.GetRatio())
  {
    var avg := avgUsage as real;
    match wear
    case None => avg
    case Some(w) => Min(avg + avg * w.GetRatio(), 3.0 * avg)
  }

  /** What `fuel_usage_at` returns for a calculator with the given baseline and wear. */
  function FuelUsage(avgUsage: nat, wear: Option<ValidWearRatio>, distance: nat): (r: Result<Decimal, DieselUsageCalculationError>)
    ensures r.Ok? <==> avgUsage >= 1 && distance >= 1
    ensures r.Err? ==> r.error.InvalidParams?
    ensures r.Ok? ==> r.value.digits == ResultPrecision
    ensures r.Ok? ==> r.value.exact == (distance as real / 100.0) * EffectiveRate(avgUsage, wear)
  {
    if avgUsage < 1 then
      Err(DieselUsageCalculationError.InvalidParams(FuelUsageTooLow))
    else if distance < 1 then
      Err(DieselUsageCalculationError.InvalidParams(DistanceTooShort))
    else
      Ok(WithPrec((distance as real / 100.0) * EffectiveRate(avgUsage, wear), ResultPrecision))
  }

  // ---------------------------------------------------------------------------
  // Consumption calculator: properties

  /** The baseline is checked before the distance, and only these two checks can fail. */
  lemma FuelUsageValidationOrder(avgUsage: nat, wear: Option<ValidWearRatio>, distance: nat)
    ensures avgUsage < 1 ==> FuelUsage(avgUsage, wear, distance) == Err(DieselUsageCalculationError.InvalidParams(FuelUsageTooLow))
    ensures avgUsage >= 1 && distance < 1 ==> FuelUsage(avgUsage, wear, distance) == Err(DieselUsageCalculationError.InvalidParams(DistanceTooShort))
    ensures FuelUsage(avgUsage, wear, distance).Ok? <==> avgUsage >= 1 && distance >= 1
  {
  }

  /** No conversion failure and no configuration error ever comes out of the consumption calculator. */
  lemma FuelUsageErrorsAreInputErrors(avgUsage: nat, wear: Option<ValidWearRatio>, distance: nat)
    ensures FuelUsage(avgUsage, wear, distance).Err? ==> FuelUsage(avgUsage, wear, distance).error.InvalidParams?
  {
  }

  /** Without wear the consumption is the baseline rate scaled by the distance. */
  lemma FuelUsageWithoutWear(avgUsage: nat, distance: nat)
    requires avgUsage >= 1 && distance >= 1
    ensures FuelUsage(avgUsage, None, distance) == Ok(WithPrec((distance as real / 100.0) * avgUsage as real, ResultPrecision))
  {
  }

  /** With a coefficient of at least 1.0 the rate lies between the baseline and three times the baseline. */
  lemma EffectiveRateBounds(avgUsage: nat, wear: Option<ValidWearRatio>)
    ensures avgUsage as real <= EffectiveRate(avgUsage, wear) <= 3.0 * avgUsage as real
  {
  }

  /** The cap applies exactly when the surcharge fraction reaches 2; below it the rate is baseline plus surcharge. */
  lemma CapAppliesIff(avgUsage: nat, w: ValidWearRatio)
    requires avgUsage >= 1
    ensures EffectiveRate(avgUsage, Some(w)) == 3.0 * avgUsage as real <==> w.GetRatio() >= 2.0
    ensures w.GetRatio() < 2.0 ==> EffectiveRate(avgUsage, Some(w)) == avgUsage as real * (1.0 + w.GetRatio())
  {
  }

  /** A car of age 0 gets the sentinel ratio 1.0, which doubles the baseline. */
  lemma NewCarDoublesRate(avgUsage: nat, w: ValidWearRatio)
    requires w.carAge == 0
    ensures EffectiveRate(avgUsage, Some(w)) == 2.0 * avgUsage as real
  {
  }

  /** From age 1 on, an older car of the same model never uses less fuel. */
  lemma EffectiveRateMonotoneInAge(avgUsage: nat, w1: ValidWearRatio, w2: ValidWearRatio)
    requires w1.wearRatio == w2.wearRatio
    requires 1 <= w1.carAge <= w2.carAge
    ensures EffectiveRate(avgUsage, Some(w1)) <= EffectiveRate(avgUsage, Some(w2))
  {
    var avg, c := avgUsage as real, w1.wearRatio - 1.0;
    var r1, r2 := w1.GetRatio(), w2.GetRatio();
    assert r2 - r1 == (w2.carAge - w1.carAge) as real * c;
    assert (w2.carAge - w1.carAge) as real * c >= 0.0;
    assert avg * (r2 - r1) >= 0.0;
    assert avg * r2 - avg * r1 == avg * (r2 - r1);
  }


  /**
   * The sentinel breaks that order at age 0: with a coefficient below 2.0 a
   * new car is charged more than the same car one year later.
   */
  lemma NewCarChargedMoreThanOneYearOld(avgUsage: nat, coefficient: real)
    requires avgUsage >= 1 && 1.0 <= coefficient < 2.0
    ensures EffectiveRate(avgUsage, Some(WearRatio(0, coefficient))) > EffectiveRate(avgUsage, Some(WearRatio(1, coefficient)))
  {
    var avg := avgUsage as real;
    assert WearRatio(1, coefficient).GetRatio() == coefficient - 1.0;
    assert avg + avg * (coefficient - 1.0) == avg * coefficient;
    assert avg * coefficient < avg * 2.0;
    assert EffectiveRate(avgUsage, Some(WearRatio(1, coefficient))) <= avg * coefficient;
  }

  /** A successful consumption lies between the unworn figure and three times it. */
  lemma FuelUsageBounds(avgUsage: nat, wear: Option<ValidWearRatio>, distance: nat)
    requires FuelUsage(avgUsage, wear, distance).Ok?
    ensures var base := (distance as real / 100.0) * avgUsage as real;
      base <= FuelUsage(avgUsage, wear, distance).value.exact <= 3.0 * base
  {
  }

  // ---------------------------------------------------------------------------
  // Consumption calculator: the object

  /** `DieselConsumption`: a baseline rate per 100km and an optional wear ratio. */
  class DieselConsumption {
    const avgUsage: nat
    var wear: Option<ValidWearRatio>

    /** `DieselConsumption::new`: no wear attached. */
    constructor (avgUsagePer100km: nat)
      ensures avgUsage == avgUsagePer100km && wear == None
    {
      avgUsage := avgUsagePer100km;
      wear := None;
    }

    /** `with_wear`: attaches the wear ratio. */
    method WithWear(w: ValidWearRatio)
      modifies this
      ensures wear == Some(w)
    {
      wear := Some(w);
    }

    /** `fuel_usage_at`: the fuel used over `distance` km. */
    method FuelUsageAt(distance: nat) returns (r: Result<Decimal, DieselUsageCalculationError>)
      ensures r == FuelUsage(avgUsage, wear, distance)
    {
      if avgUsage < 1 {
        return Err(DieselUsageCalculationError.InvalidParams(FuelUsageTooLow));
      }
      if distance < 1 {
        return Err(DieselUsageCalculationError.InvalidParams(DistanceTooShort));
      }
      var usage := avgUsage as real;
      if wear.Some? {
        var usageWithRatio := usage + usage * wear.value.GetRatio();
        var maxUsage := 3.0 * usage;
        usage := Min(usageWithRatio, maxUsage);
      }
      assert usage == EffectiveRate(avgUsage, wear);
      var consumption := (distance as real / 100.0) * usage;
      var converted := FromF64(consumption);
      if converted.None? {
        return Err(DieselUsageCalculationError.CalculationFailed);
      }
      assert FuelUsage(avgUsage, wear, distance).value.exact == consumption;
      return Ok(WithPrec(converted.value, ResultPrecision));
    }
  }

  // ---------------------------------------------------------------------------
  // Unit-injector failure estimator

  /** `UnitInjectorRandomCalc`: a placeholder estimator that returns a random sample. */
  datatype UnitInjectorRandomCalc = UnitInjectorRandomCalc {
    /**
     * An empty VIN is rejected; any other VIN yields `sample`, the value the
     * source draws uniformly from [0.1, 0.8).
     */
    function CalcFailureProbability(vin: string, sample: real): (r: Result<Decimal, UnitInjectorFailCalculationError>)
      requires 0.1 <= sample < 0.8
      ensures r.Err? <==> vin == []
      ensures r.Err? ==> r.error == UnitInjectorFailCalculationError.InvalidParams(VinEmpty)
      ensures r.Ok? ==> r.value.digits == ResultPrecision && 0.1 <= r.value.exact < 0.8 && r.value.exact == sample
    {
      if |vin| == 0 then
        Err(UnitInjectorFailCalculationError.InvalidParams(VinEmpty))
      else
        Ok(WithPrec(FromF64(sample).UnwrapOr(0.0), ResultPrecision))
    }
  }
}
