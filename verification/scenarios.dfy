/**
 * Worked examples of the estimation engine, each a concrete input record and
 * the exact (unrounded) figures the engine produces for it.
 */
module Scenarios {
  import opened Wrappers
  import opened EmissionCalc

  /** 1000 kWh given alongside a 5000 bill: the kWh wins, 0.474 t. */
  lemma KwhBeatsBill()
    ensures var i := DefaultInputs().(mode := Detail, annualKwh := Some(1000.0), monthlyBill := Some(5000.0));
      Estimate(i).Success? && Estimate(i).value.electricity == 0.474
  {
  }

  /** A 2200 bill at 4.4 per kWh is 6000 kWh a year, 2.844 t. */
  lemma BillDerivedElectricity()
    ensures var i := DefaultInputs().(mode := Detail, monthlyBill := Some(2200.0));
      Estimate(i).Success? && Estimate(i).value.electricity == 2.844
  {
    var i := DefaultInputs().(mode := Detail, monthlyBill := Some(2200.0));
    assert 2200.0 / 4.4 == 500.0;
    assert Scope2(i.annualKwh, i.monthlyBill, i.pricePerKwh) == Success(2.844);
  }

  /** Five cars but 1000 L of gasoline: the fuel figure 2.3 t, not 5 × 3.45. */
  lemma FuelBeatsCarCount()
    ensures var i := DefaultInputs().(mode := Detail, carCount := 5.0, gasolineLitres := Some(1000.0));
      Estimate(i).Success? && Estimate(i).value.vehicle == 2.3
  {
  }

  /** Two cars and four motorcycles without fuel figures: 4 car equivalents, 13.8 t. */
  lemma CarCountFallback()
    ensures var i := DefaultInputs().(mode := Detail, carCount := 2.0, motorcycles := 4.0);
      Estimate(i).Success? && Estimate(i).value.vehicle == 13.8
  {
  }

  /** Quick mode, a 4400 bill: 12000 kWh, 5.688 t of Scope 2, and Scope 1 set to a tenth of it. */
  lemma QuickRuleOfThumb()
    ensures var i := DefaultInputs().(monthlyBill := Some(4400.0), useRuleOfThumb := true);
      && Estimate(i).Success?
      && Estimate(i).value.electricity == 5.688
      && Estimate(i).value.total == 6.2568
      && Estimate(i).value.scope1 == 0.5688
      && Estimate(i).value.vehicle == 0.51192
      && Estimate(i).value.refrigerant == 0.05688
  {
  }

  /** Including 1000 m³ of water and 2 t of waste adds exactly 1.06 t on top of the total. */
  lemma WaterAndWasteAddOn()
    ensures var i := DefaultInputs().(includeScope3 := true, waterM3 := 1000.0, wasteTonnes := 2.0);
      && Estimate(i).Success?
      && Estimate(i).value.scope3 == 1.06
      && Estimate(i).value.totalWithScope3 == Estimate(i).value.total + 1.06
  {
  }

  /** A nonzero bill with a zero unit price and no kWh makes the division fail. */
  lemma ZeroPriceFails()
    ensures Estimate(DefaultInputs().(mode := Detail, monthlyBill := Some(100.0), pricePerKwh := 0.0))
         == Failure(DivisionByZero)
  {
  }
}
