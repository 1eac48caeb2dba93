/**
 * Properties of `Estimate`: when it fails, the itemised and the
 * rule-of-thumb branches, the independence of the result from the fields
 * each branch ignores, the purely additive Scope 3 add-on, zero-is-absent
 * truthiness at the level of the whole record, and the sign of the result.
 */
module EstimateProperties {
  import opened Wrappers
  import opened EmissionCalc
  import SubCalcProperties

  /** The Scope 2 figure `Estimate` works from, when the bill branch does not fail. */
  function Scope2Of(i: Inputs): real
    requires !BillDividesByZero(i.annualKwh, i.monthlyBill, i.pricePerKwh)
  {
    Scope2(i.annualKwh, i.monthlyBill, i.pricePerKwh).value
  }

  /** `i` and `j` agree on every field that feeds Scope 2. */
  predicate SameScope2Inputs(i: Inputs, j: Inputs) {
    i.annualKwh == j.annualKwh && i.monthlyBill == j.monthlyBill && i.pricePerKwh == j.pricePerKwh
  }

  /** `i` and `j` agree on every field that feeds the minor Scope 3 add-on. */
  predicate SameScope3Inputs(i: Inputs, j: Inputs) {
    i.includeScope3 == j.includeScope3 && i.waterM3 == j.waterM3 && i.wasteTonnes == j.wasteTonnes
  }

  /** `i` and `j` agree on every field that feeds the itemised Scope 1. */
  predicate SameScope1Inputs(i: Inputs, j: Inputs) {
    && i.carCount == j.carCount && i.motorcycles == j.motorcycles
    && i.gasolineLitres == j.gasolineLitres && i.dieselLitres == j.dieselLitres
    && i.refrigerantLeakKg == j.refrigerantLeakKg && i.refrigerantGwp == j.refrigerantGwp
  }

  /** Every numeric input, present optional ones included, is non-negative. */
  predicate NonNegativeInputs(i: Inputs) {
    && (i.monthlyBill.Some? ==> i.monthlyBill.value >= 0.0)
    && i.pricePerKwh >= 0.0
    && (i.annualKwh.Some? ==> i.annualKwh.value >= 0.0)
    && i.carCount >= 0.0 && i.motorcycles >= 0.0
    && (i.gasolineLitres.Some? ==> i.gasolineLitres.value >= 0.0)
    && (i.dieselLitres.Some? ==> i.dieselLitres.value >= 0.0)
    && i.refrigerantLeakKg >= 0.0 && i.refrigerantGwp >= 0.0
    && i.waterM3 >= 0.0 && i.wasteTonnes >= 0.0
  }

  /** Every field of a breakdown is non-negative. */
  predicate NonNegativeBreakdown(b: Breakdown) {
    && b.electricity >= 0.0 && b.vehicle >= 0.0 && b.refrigerant >= 0.0
    && b.scope1 >= 0.0 && b.total >= 0.0 && b.scope3 >= 0.0 && b.totalWithScope3 >= 0.0
    && b.shares.electricity >= 0.0 && b.shares.vehicle >= 0.0 && b.shares.refrigerant >= 0.0
  }

  /** Replaces every explicit zero optional figure by `None`, as the input form does. */
  function ZeroToNone(x: Option<real>): Option<real>
  {
    if Truthy(x) then x else None
  }

  /** The input record with every explicit zero optional figure replaced by `None`. */
  function Normalise(i: Inputs): (j: Inputs)
    ensures j.(monthlyBill := i.monthlyBill, annualKwh := i.annualKwh,
               gasolineLitres := i.gasolineLitres, dieselLitres := i.dieselLitres) == i
    ensures Truthy(j.monthlyBill) <==> Truthy(i.monthlyBill)
    ensures Truthy(j.annualKwh) <==> Truthy(i.annualKwh)
    ensures Truthy(j.gasolineLitres) <==> Truthy(i.gasolineLitres)
    ensures Truthy(j.dieselLitres) <==> Truthy(i.dieselLitres)
    ensures Truthy(i.monthlyBill) ==> j.monthlyBill == i.monthlyBill
    ensures Truthy(i.annualKwh) ==> j.annualKwh == i.annualKwh
    ensures Truthy(i.gasolineLitres) ==> j.gasolineLitres == i.gasolineLitres
    ensures Truthy(i.dieselLitres) ==> j.dieselLitres == i.dieselLitres
    ensures j.monthlyBill != Some(0.0) && j.annualKwh != Some(0.0)
    ensures j.gasolineLitres != Some(0.0) && j.dieselLitres != Some(0.0)
  {
    i.(monthlyBill := ZeroToNone(i.monthlyBill), annualKwh := ZeroToNone(i.annualKwh),
       gasolineLitres := ZeroToNone(i.gasolineLitres), dieselLitres := ZeroToNone(i.dieselLitres))
  }

  // ---------------------------------------------------------------------------

  /**
   * A successful estimate is balanced: Scope 1 is vehicle plus refrigerant, the
   * total is Scope 1 plus Scope 2, Scope 3 goes on top, and the shares are all
   * 0 for a zero total and add up to 100 otherwise.
   */
  lemma EstimateBalanced(i: Inputs)
    requires Estimate(i).Success?
    ensures Balanced(Estimate(i).value)
  {
    CombineBalanced(Scope2Of(i), VehicleScope1(i.carCount, i.motorcycles, i.gasolineLitres, i.dieselLitres),
                    RefrigerantScope1(i.refrigerantLeakKg, i.refrigerantGwp), i.useRuleOfThumb, Scope3Part(i));
  }

  /**
   * Without the override (flag unset, or Scope 2 not positive) the breakdown
   * is itemised: the sub-calculations as computed, Scope 1 their sum, and the
   * total Scope 1 plus Scope 2.
   */
  lemma ItemisedCase(i: Inputs)
    requires Estimate(i).Success?
    requires !i.useRuleOfThumb || Scope2Of(i) <= 0.0
    ensures Estimate(i).value.electricity == Scope2Of(i)
    ensures Estimate(i).value.vehicle == VehicleScope1(i.carCount, i.motorcycles, i.gasolineLitres, i.dieselLitres)
    ensures Estimate(i).value.refrigerant == RefrigerantScope1(i.refrigerantLeakKg, i.refrigerantGwp)
    ensures Estimate(i).value.scope1 == Estimate(i).value.vehicle + Estimate(i).value.refrigerant
    ensures Estimate(i).value.total == Estimate(i).value.scope1 + Scope2Of(i)
  {
  }

  /**
   * With the override flag set and Scope 2 positive, the total is 1.1 × Scope 2,
   * Scope 1 is the remaining 0.1 × Scope 2, split 90/10 between vehicles and
   * refrigerant, and Scope 2 itself is reported unchanged.
   */
  lemma OverrideCase(i: Inputs)
    requires Estimate(i).Success?
    requires i.useRuleOfThumb && Scope2Of(i) > 0.0
    ensures Estimate(i).value.electricity == Scope2Of(i)
    ensures Estimate(i).value.total == 1.1 * Scope2Of(i)
    ensures Estimate(i).value.scope1 == Estimate(i).value.total - Scope2Of(i)
    ensures Estimate(i).value.scope1 == 0.1 * Scope2Of(i)
    ensures Estimate(i).value.vehicle == 0.9 * Estimate(i).value.scope1
    ensures Estimate(i).value.refrigerant == 0.1 * Estimate(i).value.scope1
  {
  }

  /** Under the override, the itemised vehicle and refrigerant inputs have no effect at all. */
  lemma OverrideIgnoresScope1Inputs(i: Inputs, j: Inputs)
    requires SameScope2Inputs(i, j) && SameScope3Inputs(i, j) && i.useRuleOfThumb && j.useRuleOfThumb
    requires Estimate(i).Success? && Scope2Of(i) > 0.0
    ensures Estimate(j) == Estimate(i)
  {
  }

  /**
   * The shares are taken of the Scope 1+2 total: all 0 when it is 0, otherwise
   * each part's percentage of it, adding up to exactly 100.
   */
  lemma SharesOfTotal(i: Inputs)
    requires Estimate(i).Success?
    ensures var b := Estimate(i).value;
      && (b.total == 0.0 ==> b.shares.electricity == 0.0 && b.shares.vehicle == 0.0 && b.shares.refrigerant == 0.0)
      && (b.total != 0.0 ==>
            && b.shares.electricity == b.electricity / b.total * 100.0
            && b.shares.vehicle == b.vehicle / b.total * 100.0
            && b.shares.refrigerant == b.refrigerant / b.total * 100.0
            && b.shares.electricity + b.shares.vehicle + b.shares.refrigerant == 100.0)
  {
    EstimateBalanced(i);
    var b := Estimate(i).value;
    assert b.shares == Shares(Share(b.electricity, b.total), Share(b.vehicle, b.total), Share(b.refrigerant, b.total));
  }

  /** Scope 3 is 0 unless included, and is added on top of the Scope 1+2 total. */
  lemma Scope3AddOn(i: Inputs)
    requires Estimate(i).Success?
    ensures !i.includeScope3 ==> Estimate(i).value.scope3 == 0.0
    ensures i.includeScope3 ==> Estimate(i).value.scope3 == i.waterM3 * 0.0004 + i.wasteTonnes * 0.33
    ensures Estimate(i).value.totalWithScope3 == Estimate(i).value.total + Estimate(i).value.scope3
  {
  }

  /**
   * Scope 3 is purely additive: changing the include flag, the water or the
   * waste leaves whether the estimate fails, every Scope 1 and 2 figure, the
   * total and all shares unchanged.
   */
  lemma Scope3Independent(i: Inputs, j: Inputs)
    requires SameScope2Inputs(i, j) && SameScope1Inputs(i, j) && i.useRuleOfThumb == j.useRuleOfThumb
    ensures Estimate(i).Success? <==> Estimate(j).Success?
    ensures Estimate(i).Success? ==>
      var a, b := Estimate(i).value, Estimate(j).value;
      && a.electricity == b.electricity && a.vehicle == b.vehicle && a.refrigerant == b.refrigerant
      && a.scope1 == b.scope1 && a.total == b.total && a.shares == b.shares
  {
  }

  /** The `mode` field is never consulted. */
  lemma ModeIgnored(i: Inputs, m: Mode)
    ensures Estimate(i.(mode := m)) == Estimate(i)
  {
  }

  /** An explicit zero optional figure behaves exactly like a missing one. */
  lemma ZeroIsAbsent(i: Inputs)
    ensures Estimate(Normalise(i)) == Estimate(i)
  {
    SubCalcProperties.Scope2ZeroIsAbsent(i.annualKwh, i.monthlyBill, i.pricePerKwh);
    SubCalcProperties.VehicleZeroIsAbsent(i.carCount, i.motorcycles, i.gasolineLitres, i.dieselLitres);
  }

  /** With every field at its default, the estimate is the all-zero breakdown. */
  lemma DefaultIsZero()
    ensures Estimate(DefaultInputs())
         == Success(Breakdown(0.0, 0.0, 0.0, 0.0, 0.0, 0.0, 0.0, Shares(0.0, 0.0, 0.0)))
  {
  }

  /** For non-negative inputs, every field of a successful estimate is non-negative. */
  lemma EstimateNonNegative(i: Inputs)
    requires NonNegativeInputs(i)
    requires !BillDividesByZero(i.annualKwh, i.monthlyBill, i.pricePerKwh)
    ensures Estimate(i).Success?
    ensures NonNegativeBreakdown(Estimate(i).value)
  {
    assert i.pricePerKwh > 0.0 || !Truthy(i.monthlyBill) || Truthy(i.annualKwh);
    SubCalcProperties.VehicleNonNegative(i.carCount, i.motorcycles, i.gasolineLitres, i.dieselLitres);
    SubCalcProperties.RefrigerantLinear(i.refrigerantLeakKg, 0.0, i.refrigerantGwp, 1.0);
    SubCalcProperties.MinorScope3Linear(i.waterM3, i.wasteTonnes, 0.0, 0.0);
    var s2 := Scope2Of(i);
    assert s2 >= 0.0 by {
      if !Truthy(i.annualKwh) && Truthy(i.monthlyBill) {
        assert i.monthlyBill.value / i.pricePerKwh >= 0.0;
      }
    }
    var b := Estimate(i).value;
    if b.total != 0.0 {
      ShareNonNegative(b.electricity, b.total);
      ShareNonNegative(b.vehicle, b.total);
      ShareNonNegative(b.refrigerant, b.total);
    }
  }

  /** A non-negative part of a positive total has a non-negative share. */
  lemma ShareNonNegative(part: real, total: real)
    requires part >= 0.0 && total > 0.0
    ensures Share(part, total) >= 0.0
  {
  }
}
