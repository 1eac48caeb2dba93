/**
 * The estimation engine: emission-factor constants, the input record, the four
 * sub-calculations (Scope 2 electricity, Scope 1 vehicles, Scope 1 refrigerant,
 * minor Scope 3) and `Estimate`, which combines them, applies the
 * rule-of-thumb override and computes the percentage shares.
 *
 * All quantities are exact reals; the source's floating point and its final
 * presentation rounding are not modelled.
 */
module EmissionCalc {
  import opened Wrappers

  // ---------------------------------------------------------------------------
  // Emission factors
  // ---------------------------------------------------------------------------

  /** Grid electricity, kg CO2 per kWh. */
  const GridFactor: real := 0.474
  /** Gasoline, kg CO2 per litre. */
  const GasolineFactor: real := 2.3
  /** Diesel, kg CO2 per litre. */
  const DieselFactor: real := 2.6
  /** Assumed annual distance of a generic car, km. */
  const DefaultCarKmPerYear: int := 15000
  /** Assumed fuel economy of a generic car, km per litre. */
  const DefaultCarKmPerLitre: int := 10
  /** Fallback annual emissions of one car, tonnes CO2e (1500 L of gasoline). */
  const CarTonnesPerYear: real :=
    (DefaultCarKmPerYear as real / DefaultCarKmPerLitre as real) * GasolineFactor / 1000.0
  /** A motorcycle counts as this fraction of a car in the fallback. */
  const MotorcycleEquivalence: real := 0.5
  /** Water, tonnes CO2e per cubic metre. */
  const WaterFactor: real := 0.0004
  /** Waste, tonnes CO2e per tonne. */
  const WasteFactor: real := 0.33

  /** Scale of the rule-of-thumb override: total = this × Scope 2. */
  const RuleOfThumbScale: real := 1.1
  /** Part of the implied Scope 1 that the override attributes to vehicles. */
  const RuleOfThumbVehiclePart: real := 0.9
  /** Part of the implied Scope 1 that the override attributes to refrigerant. */
  const RuleOfThumbRefrigerantPart: real := 0.1

  // ---------------------------------------------------------------------------
  // Records
  // ---------------------------------------------------------------------------

  /** The input form's mode; carried along but never consulted by `Estimate`. */
  datatype Mode = Quick | Detail

  /** One estimation request. Optional fields are `None` when not provided. */
  datatype Inputs = Inputs(
    mode: Mode,
    monthlyBill: Option<real>,
    pricePerKwh: real,
    annualKwh: Option<real>,
    carCount: real,
    motorcycles: real,
    gasolineLitres: Option<real>,
    dieselLitres: Option<real>,
    refrigerantLeakKg: real,
    refrigerantGwp: real,
    includeScope3: bool,
    waterM3: real,
    wasteTonnes: real,
    useRuleOfThumb: bool
  )

  /** The record built when every field keeps its declared default. */
  function DefaultInputs(): (i: Inputs)
    ensures i.monthlyBill.None? && i.annualKwh.None?
    ensures i.gasolineLitres.None? && i.dieselLitres.None?
    ensures i.pricePerKwh == 4.4 && i.refrigerantGwp == 1000.0
    ensures !i.includeScope3 && !i.useRuleOfThumb
    ensures i.mode == Quick && i.carCount == 0.0 && i.motorcycles == 0.0
    ensures i.refrigerantLeakKg == 0.0 && i.waterM3 == 0.0 && i.wasteTonnes == 0.0
  {
    Inputs(Quick, None, 4.4, None, 0.0, 0.0, None, None, 0.0, 1000.0, false, 0.0, 0.0, false)
  }

  /** Percentage shares of the Scope 1+2 total. */
  datatype Shares = Shares(electricity: real, vehicle: real, refrigerant: real)

  /** The emissions breakdown, in tonnes CO2e per year (shares in percent). */
  datatype Breakdown = Breakdown(
    electricity: real,
    vehicle: real,
    refrigerant: real,
    scope1: real,
    total: real,
    scope3: real,
    totalWithScope3: real,
    shares: Shares
  )

  /** Why an estimate could not be produced. */
  datatype CalcError = DivisionByZero

  // ---------------------------------------------------------------------------
  // Python truthiness of optional numbers
  // ---------------------------------------------------------------------------

  /** `if x:` on an `Optional[float]`: false for `None` and for zero. */
  predicate Truthy(x: Option<real>) {
    x.Some? && x.value != 0.0
  }

  /** `x or 0` on an `Optional[float]`. */
  function OrZero(x: Option<real>): (v: real)
    ensures Truthy(x) ==> v == x.value
    ensures !Truthy(x) ==> v == 0.0
  {
    x.GetOr(0.0)
  }

  // ---------------------------------------------------------------------------
  // Sub-calculations
  // ---------------------------------------------------------------------------

  /** Converts annual grid kWh into tonnes CO2e. */
  function KwhToTonnes(kwh: real): real {
    kwh * GridFactor / 1000.0
  }

  /**
   * The Scope 2 bill branch divides by the unit price; Python raises a
   * ZeroDivisionError when that branch is taken with a zero price.
   */
  predicate BillDividesByZero(annualKwh: Option<real>, monthlyBill: Option<real>, price: real) {
    !Truthy(annualKwh) && Truthy(monthlyBill) && price == 0.0
  }

  /** Scope 2: annual kWh if given, else twelve monthly bills at the unit price, else 0. */
  function Scope2(annualKwh: Option<real>, monthlyBill: Option<real>, price: real): (r: Result<real, CalcError>)
    ensures r.Failure? <==> BillDividesByZero(annualKwh, monthlyBill, price)
    ensures r.Success? && !Truthy(annualKwh) && !Truthy(monthlyBill) ==> r.value == 0.0
  {
    if Truthy(annualKwh) then
      Success(KwhToTonnes(annualKwh.value))
    else if Truthy(monthlyBill) then
      if price == 0.0 then Failure(DivisionByZero)
      else Success(KwhToTonnes(monthlyBill.value / price * 12.0))
    else
      Success(0.0)
  }

  /** Scope 1 vehicles: fuel volumes when any is nonzero, else the vehicle-count proxy. */
  function VehicleScope1(cars: real, motorcycles: real, gasoline: Option<real>, diesel: Option<real>): real {
    if Truthy(gasoline) || Truthy(diesel) then
      OrZero(gasoline) * GasolineFactor / 1000.0 + OrZero(diesel) * DieselFactor / 1000.0
    else
      (cars + motorcycles * MotorcycleEquivalence) * CarTonnesPerYear
  }

  /** Scope 1 refrigerant: leaked mass times its global-warming potential, in tonnes. */
  function RefrigerantScope1(leakKg: real, gwp: real): real {
    leakKg * gwp / 1000.0
  }

  /** Minor Scope 3: water and waste. */
  function MinorScope3(waterM3: real, wasteTonnes: real): real {
    waterM3 * WaterFactor + wasteTonnes * WasteFactor
  }

  // ---------------------------------------------------------------------------
  // Combination
  // ---------------------------------------------------------------------------

  /** Percentage of `total` taken by `part`, 0 when the total is 0. */
  function Share(part: real, total: real): real {
    if total != 0.0 then part / total * 100.0 else 0.0
  }

  /** The three shares of a nonzero total add up to 100 when the parts add up to it. */
  lemma SharesSumTo100(a: real, b: real, c: real, total: real)
    requires a + b + c == total
    ensures total != 0.0 ==> Share(a, total) + Share(b, total) + Share(c, total) == 100.0
  {
    if total != 0.0 {
      calc {
        Share(a, total) + Share(b, total) + Share(c, total);
        a / total * 100.0 + b / total * 100.0 + c / total * 100.0;
        (a + b + c) / total * 100.0;
        total / total * 100.0;
      }
    }
  }

  /**
   * The internal consistency of a breakdown: Scope 1 is its two parts, the
   * total is Scope 1 plus Scope 2, Scope 3 is added on top, and the shares
   * are all 0 for a zero total and add up to 100 otherwise.
   */
  predicate Balanced(b: Breakdown) {
    && b.vehicle + b.refrigerant == b.scope1
    && b.scope1 + b.electricity == b.total
    && b.totalWithScope3 == b.total + b.scope3
    && (b.total == 0.0 ==> b.shares == Shares(0.0, 0.0, 0.0))
    && (b.total != 0.0 ==>
          b.shares.electricity + b.shares.vehicle + b.shares.refrigerant == 100.0)
  }

  /** Whether the rule-of-thumb override replaces the itemised Scope 1. */
  predicate OverrideApplies(useRuleOfThumb: bool, s2: real) {
    useRuleOfThumb && s2 > 0.0
  }

  /** Assembles the breakdown from Scope 2, the itemised Scope 1 parts and Scope 3. */
  function Combine(s2: real, vehicle: real, refrigerant: real, useRuleOfThumb: bool, s3: real): Breakdown {
    var s1 := vehicle + refrigerant;
    var total := s1 + s2;
    if OverrideApplies(useRuleOfThumb, s2) then
      var total' := s2 * RuleOfThumbScale;
      var s1' := total' - s2;
      var v' := s1' * RuleOfThumbVehiclePart;
      var r' := s1' * RuleOfThumbRefrigerantPart;
      Breakdown(s2, v', r', s1', total', s3, total' + s3,
                Shares(Share(s2, total'), Share(v', total'), Share(r', total')))
    else
      Breakdown(s2, vehicle, refrigerant, s1, total, s3, total + s3,
                Shares(Share(s2, total), Share(vehicle, total), Share(refrigerant, total)))
  }

  /**
   * Whichever branch is taken, the assembled breakdown is balanced, and it
   * reports Scope 2 and Scope 3 as given.
   */
  lemma CombineBalanced(s2: real, vehicle: real, refrigerant: real, useRuleOfThumb: bool, s3: real)
    ensures Balanced(Combine(s2, vehicle, refrigerant, useRuleOfThumb, s3))
    ensures Combine(s2, vehicle, refrigerant, useRuleOfThumb, s3).electricity == s2
    ensures Combine(s2, vehicle, refrigerant, useRuleOfThumb, s3).scope3 == s3
  {
    var b := Combine(s2, vehicle, refrigerant, useRuleOfThumb, s3);
    SharesSumTo100(b.electricity, b.vehicle, b.refrigerant, b.total);
  }

  /** Minor Scope 3 when the include flag is set, else 0. */
  function Scope3Part(i: Inputs): real {
    if i.includeScope3 then MinorScope3(i.waterM3, i.wasteTonnes) else 0.0
  }

  /** The estimation engine: a breakdown, or the division error of the bill branch. */
  function Estimate(i: Inputs): (r: Result<Breakdown, CalcError>)
    ensures r.Failure? <==> BillDividesByZero(i.annualKwh, i.monthlyBill, i.pricePerKwh)
  {
    match Scope2(i.annualKwh, i.monthlyBill, i.pricePerKwh)
    case Failure(e) => Failure(e)
    case Success(s2) =>
      Success(Combine(
        s2,
        VehicleScope1(i.carCount, i.motorcycles, i.gasolineLitres, i.dieselLitres),
        RefrigerantScope1(i.refrigerantLeakKg, i.refrigerantGwp),
        i.useRuleOfThumb,
        Scope3Part(i)))
  }
}
