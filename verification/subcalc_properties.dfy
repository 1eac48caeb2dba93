/**
 * Properties of the four sub-calculations: the precedence rules of Scope 2 and
 * of the vehicle estimate, Python's zero-is-absent truthiness, and the
 * linearity and sign of the refrigerant and minor Scope 3 terms. Constants
 * are written out as literals here so that each lemma states the documented
 * figure independently of the definitions.
 */
module SubCalcProperties {
  import opened Wrappers
  import opened EmissionCalc

  /** The fallback per-car figure is 1500 L of gasoline a year, 3.45 t. */
  lemma CarTonnesPerYearValue()
    ensures CarTonnesPerYear == 3.45
    ensures CarTonnesPerYear == 1500.0 * GasolineFactor / 1000.0
  {
  }

  // --- Scope 2 ---------------------------------------------------------------

  /** A nonzero annual kWh decides Scope 2; bill and price are ignored. */
  lemma Scope2KwhWins(kwh: Option<real>, bill: Option<real>, price: real, otherBill: Option<real>, otherPrice: real)
    requires Truthy(kwh)
    ensures Scope2(kwh, bill, price) == Success(kwh.value * 0.474 / 1000.0)
    ensures Scope2(kwh, bill, price) == Scope2(kwh, otherBill, otherPrice)
  {
  }

  /**
   * Without a nonzero kWh, a nonzero bill is turned into twelve months of
   * consumption at the unit price, and that consumption is converted exactly
   * as a directly given annual kWh would be.
   */
  lemma Scope2BillFallback(kwh: Option<real>, bill: Option<real>, price: real, anyBill: Option<real>, anyPrice: real)
    requires !Truthy(kwh) && Truthy(bill) && price != 0.0
    ensures Scope2(kwh, bill, price) == Success((bill.value / price) * 12.0 * 0.474 / 1000.0)
    ensures Scope2(kwh, bill, price) == Scope2(Some(bill.value / price * 12.0), anyBill, anyPrice)
  {
    var derived := bill.value / price * 12.0;
    assert derived != 0.0 by {
      assert bill.value / price != 0.0;
    }
  }

  /** With neither a nonzero kWh nor a nonzero bill, Scope 2 is 0 whatever the price. */
  lemma Scope2Absent(kwh: Option<real>, bill: Option<real>, price: real)
    requires !Truthy(kwh) && !Truthy(bill)
    ensures Scope2(kwh, bill, price) == Success(0.0)
  {
  }

  /** An explicit zero kWh or bill behaves exactly like a missing one. */
  lemma Scope2ZeroIsAbsent(kwh: Option<real>, bill: Option<real>, price: real)
    ensures Scope2(Some(0.0), bill, price) == Scope2(None, bill, price)
    ensures Scope2(kwh, Some(0.0), price) == Scope2(kwh, None, price)
  {
  }

  /** For non-negative figures and a positive price, Scope 2 is a non-negative tonnage. */
  lemma Scope2NonNegative(kwh: Option<real>, bill: Option<real>, price: real)
    requires kwh.Some? ==> kwh.value >= 0.0
    requires bill.Some? ==> bill.value >= 0.0
    requires price > 0.0
    ensures Scope2(kwh, bill, price).Success?
    ensures Scope2(kwh, bill, price).value >= 0.0
  {
    if !Truthy(kwh) && Truthy(bill) {
      assert bill.value / price >= 0.0;
    }
  }

  /**
   * In the bill branch, Scope 2 grows with the bill and falls as the unit
   * price rises: the same spend at a dearer price buys fewer kWh.
   */
  lemma Scope2BillMonotone(bill: real, otherBill: real, price: real, otherPrice: real)
    requires 0.0 < bill <= otherBill
    requires 0.0 < otherPrice <= price
    ensures Scope2(None, Some(bill), price).Success? && Scope2(None, Some(otherBill), otherPrice).Success?
    ensures Scope2(None, Some(bill), price).value <= Scope2(None, Some(otherBill), otherPrice).value
  {
    assert bill / price <= bill / otherPrice by {
      assert bill / price * price == bill == bill / otherPrice * otherPrice;
    }
    assert bill / otherPrice <= otherBill / otherPrice;
  }

  // --- Scope 1 vehicles ------------------------------------------------------

  /** Any nonzero fuel volume selects the fuel formula, and the vehicle counts have no effect. */
  lemma VehicleFuelOverride(cars: real, motorcycles: real, gasoline: Option<real>, diesel: Option<real>,
                            otherCars: real, otherMotorcycles: real)
    requires Truthy(gasoline) || Truthy(diesel)
    ensures VehicleScope1(cars, motorcycles, gasoline, diesel)
         == OrZero(gasoline) * 2.3 / 1000.0 + OrZero(diesel) * 2.6 / 1000.0
    ensures VehicleScope1(cars, motorcycles, gasoline, diesel)
         == VehicleScope1(otherCars, otherMotorcycles, gasoline, diesel)
  {
  }

  /** Without a nonzero fuel volume, a car counts 3.45 t and a motorcycle half of that. */
  lemma VehicleCountFallback(cars: real, motorcycles: real, gasoline: Option<real>, diesel: Option<real>)
    requires !Truthy(gasoline) && !Truthy(diesel)
    ensures VehicleScope1(cars, motorcycles, gasoline, diesel) == (cars + 0.5 * motorcycles) * 3.45
  {
    CarTonnesPerYearValue();
  }

  /** An explicit zero fuel volume behaves exactly like a missing one. */
  lemma VehicleZeroIsAbsent(cars: real, motorcycles: real, gasoline: Option<real>, diesel: Option<real>)
    ensures VehicleScope1(cars, motorcycles, Some(0.0), diesel) == VehicleScope1(cars, motorcycles, None, diesel)
    ensures VehicleScope1(cars, motorcycles, gasoline, Some(0.0)) == VehicleScope1(cars, motorcycles, gasoline, None)
  {
  }

  /** For non-negative counts and volumes, the vehicle estimate is non-negative. */
  lemma VehicleNonNegative(cars: real, motorcycles: real, gasoline: Option<real>, diesel: Option<real>)
    requires cars >= 0.0 && motorcycles >= 0.0
    requires gasoline.Some? ==> gasoline.value >= 0.0
    requires diesel.Some? ==> diesel.value >= 0.0
    ensures VehicleScope1(cars, motorcycles, gasoline, diesel) >= 0.0
  {
    CarTonnesPerYearValue();
  }

  // --- Scope 1 refrigerant and minor Scope 3 ---------------------------------

  /** Refrigerant emissions are leak × GWP / 1000, additive and scaling in the leaked mass. */
  lemma RefrigerantLinear(leak: real, otherLeak: real, gwp: real, k: real)
    ensures RefrigerantScope1(leak, gwp) * 1000.0 == leak * gwp
    ensures RefrigerantScope1(leak + otherLeak, gwp)
         == RefrigerantScope1(leak, gwp) + RefrigerantScope1(otherLeak, gwp)
    ensures RefrigerantScope1(k * leak, gwp) == k * RefrigerantScope1(leak, gwp)
    ensures leak >= 0.0 && gwp >= 0.0 ==> RefrigerantScope1(leak, gwp) >= 0.0
  {
  }

  /** Minor Scope 3 is 0.0004 t per m³ of water plus 0.33 t per tonne of waste, additive in both. */
  lemma MinorScope3Linear(water: real, waste: real, otherWater: real, otherWaste: real)
    ensures MinorScope3(water, waste) == water * 0.0004 + waste * 0.33
    ensures MinorScope3(water + otherWater, waste + otherWaste)
         == MinorScope3(water, waste) + MinorScope3(otherWater, otherWaste)
    ensures MinorScope3(water, 0.0) + MinorScope3(0.0, waste) == MinorScope3(water, waste)
    ensures water >= 0.0 && waste >= 0.0 ==> MinorScope3(water, waste) >= 0.0
  {
  }
}
