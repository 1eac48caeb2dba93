/**
 * Homogeneity of the estimation engine. Every term is linear in its activity
 * figures, so an organisation k times as large (every bill, consumption,
 * count, volume, leak, water and waste figure times k > 0, with the unit
 * price and GWP unchanged) gets the same branches, every tonnage times k and
 * exactly the same percentage shares.
 *
 * Products with k are written through `Scaled`, so that the solver can match
 * scaled quantities by name rather than by nonlinear arithmetic.
 */
module Scaling {
  import opened Wrappers
  import opened EmissionCalc

  /** A quantity measured k times as large. */
  function Scaled(x: real, k: real): real {
    k * x
  }

  /** An optional figure times `k`; a missing figure stays missing. */
  function ScaleOption(x: Option<real>, k: real): (y: Option<real>)
    ensures y.Some? <==> x.Some?
    ensures x.Some? ==> y.value == Scaled(x.value, k)
    ensures k != 0.0 ==> (Truthy(y) <==> Truthy(x))
  {
    match x
    case None => None
    case Some(v) => Some(Scaled(v, k))
  }

  /** The input record with every activity figure multiplied by `k`. */
  function ScaleActivity(i: Inputs, k: real): Inputs {
    i.(monthlyBill := ScaleOption(i.monthlyBill, k), annualKwh := ScaleOption(i.annualKwh, k),
       carCount := Scaled(i.carCount, k), motorcycles := Scaled(i.motorcycles, k),
       gasolineLitres := ScaleOption(i.gasolineLitres, k), dieselLitres := ScaleOption(i.dieselLitres, k),
       refrigerantLeakKg := Scaled(i.refrigerantLeakKg, k),
       waterM3 := Scaled(i.waterM3, k), wasteTonnes := Scaled(i.wasteTonnes, k))
  }

  /** The breakdown measured k times as large: every tonnage times k, the same shares. */
  function ScaleBreakdown(a: Breakdown, k: real): Breakdown {
    Breakdown(Scaled(a.electricity, k), Scaled(a.vehicle, k), Scaled(a.refrigerant, k),
              Scaled(a.scope1, k), Scaled(a.total, k), Scaled(a.scope3, k),
              Scaled(a.totalWithScope3, k), a.shares)
  }

  // --- the sub-calculations --------------------------------------------------

  /** On the scaled record, Scope 2 takes the same branch and is k times the original. */
  lemma ElectricityScales(i: Inputs, k: real)
    requires k > 0.0
    ensures var j := ScaleActivity(i, k);
      && (Truthy(j.annualKwh) <==> Truthy(i.annualKwh))
      && (Truthy(j.monthlyBill) <==> Truthy(i.monthlyBill))
    ensures var j := ScaleActivity(i, k);
      Scope2(j.annualKwh, j.monthlyBill, j.pricePerKwh).Success?
      <==> Scope2(i.annualKwh, i.monthlyBill, i.pricePerKwh).Success?
    ensures var j := ScaleActivity(i, k);
      Scope2(i.annualKwh, i.monthlyBill, i.pricePerKwh).Success? ==>
      Scope2(j.annualKwh, j.monthlyBill, j.pricePerKwh).value
      == Scaled(Scope2(i.annualKwh, i.monthlyBill, i.pricePerKwh).value, k)
  {
    var j := ScaleActivity(i, k);
    if Truthy(i.annualKwh) {
      assert j.annualKwh.value == k * i.annualKwh.value;
    } else if Truthy(i.monthlyBill) && i.pricePerKwh != 0.0 {
      var b := i.monthlyBill.value;
      var price := i.pricePerKwh;
      calc {
        Scope2(j.annualKwh, j.monthlyBill, j.pricePerKwh).value;
        (k * b) / price * 12.0 * GridFactor / 1000.0;
        { assert (k * b) / price == k * (b / price); }
        k * (b / price) * 12.0 * GridFactor / 1000.0;
      }
    }
  }

  /** The vehicle estimate of counts and volumes scaled by k > 0 is k times the original. */
  lemma VehicleScope1Scales(cars: real, motorcycles: real, gasoline: Option<real>, diesel: Option<real>, k: real)
    requires k > 0.0
    ensures (Truthy(ScaleOption(gasoline, k)) || Truthy(ScaleOption(diesel, k)))
        <==> (Truthy(gasoline) || Truthy(diesel))
    ensures VehicleScope1(Scaled(cars, k), Scaled(motorcycles, k), ScaleOption(gasoline, k), ScaleOption(diesel, k))
         == Scaled(VehicleScope1(cars, motorcycles, gasoline, diesel), k)
  {
    if Truthy(gasoline) || Truthy(diesel) {
      var g, d := OrZero(gasoline), OrZero(diesel);
      assert OrZero(ScaleOption(gasoline, k)) == k * g;
      assert OrZero(ScaleOption(diesel, k)) == k * d;
      assert (k * g) * GasolineFactor / 1000.0 + (k * d) * DieselFactor / 1000.0
          == k * (g * GasolineFactor / 1000.0 + d * DieselFactor / 1000.0);
    } else {
      assert (k * cars + k * motorcycles * MotorcycleEquivalence) * CarTonnesPerYear
          == k * ((cars + motorcycles * MotorcycleEquivalence) * CarTonnesPerYear);
    }
  }

  /** On the scaled record, the vehicle estimate takes the same branch and is k times the original. */
  lemma VehicleScales(i: Inputs, k: real)
    requires k > 0.0
    ensures var j := ScaleActivity(i, k);
      (Truthy(j.gasolineLitres) || Truthy(j.dieselLitres))
      <==> (Truthy(i.gasolineLitres) || Truthy(i.dieselLitres))
    ensures var j := ScaleActivity(i, k);
      VehicleScope1(j.carCount, j.motorcycles, j.gasolineLitres, j.dieselLitres)
      == Scaled(VehicleScope1(i.carCount, i.motorcycles, i.gasolineLitres, i.dieselLitres), k)
  {
    VehicleScope1Scales(i.carCount, i.motorcycles, i.gasolineLitres, i.dieselLitres, k);
  }

  /** On the scaled record, refrigerant and Scope 3 are k times the original and the flag is kept. */
  lemma RefrigerantAndScope3Scale(i: Inputs, k: real)
    ensures var j := ScaleActivity(i, k);
      && RefrigerantScope1(j.refrigerantLeakKg, j.refrigerantGwp)
         == Scaled(RefrigerantScope1(i.refrigerantLeakKg, i.refrigerantGwp), k)
      && Scope3Part(j) == Scaled(Scope3Part(i), k)
      && j.useRuleOfThumb == i.useRuleOfThumb
  {
  }

  // --- combination -----------------------------------------------------------

  /** A share is unchanged when part and total are scaled by the same nonzero factor. */
  lemma ShareScaleFree(part: real, total: real, k: real)
    requires k != 0.0
    ensures Share(Scaled(part, k), Scaled(total, k)) == Share(part, total)
  {
  }

  /** Under the override, Scope 2 scaled by k gives the breakdown scaled by k. */
  lemma CombineScalesOverride(s2: real, vehicle: real, refrigerant: real, useRuleOfThumb: bool, s3: real, k: real)
    requires k > 0.0 && OverrideApplies(useRuleOfThumb, s2)
    ensures OverrideApplies(useRuleOfThumb, Scaled(s2, k))
    ensures Combine(Scaled(s2, k), Scaled(vehicle, k), Scaled(refrigerant, k), useRuleOfThumb, Scaled(s3, k))
         == ScaleBreakdown(Combine(s2, vehicle, refrigerant, useRuleOfThumb, s3), k)
  {
    var ks2 := Scaled(s2, k);
    assert OverrideApplies(useRuleOfThumb, ks2) by {
      assert k * s2 > 0.0;
    }
    var a := Combine(s2, vehicle, refrigerant, useRuleOfThumb, s3);
    var b := Combine(ks2, Scaled(vehicle, k), Scaled(refrigerant, k), useRuleOfThumb, Scaled(s3, k));
    ShareScaleFree(a.electricity, a.total, k);
    ShareScaleFree(a.vehicle, a.total, k);
    ShareScaleFree(a.refrigerant, a.total, k);
  }

  /** Without the override, parts scaled by k give the breakdown scaled by k. */
  lemma CombineScalesItemised(s2: real, vehicle: real, refrigerant: real, useRuleOfThumb: bool, s3: real, k: real)
    requires k > 0.0 && !OverrideApplies(useRuleOfThumb, s2)
    ensures !OverrideApplies(useRuleOfThumb, Scaled(s2, k))
    ensures Combine(Scaled(s2, k), Scaled(vehicle, k), Scaled(refrigerant, k), useRuleOfThumb, Scaled(s3, k))
         == ScaleBreakdown(Combine(s2, vehicle, refrigerant, useRuleOfThumb, s3), k)
  {
    var ks2 := Scaled(s2, k);
    assert !OverrideApplies(useRuleOfThumb, ks2) by {
      assert s2 <= 0.0 ==> k * s2 <= 0.0;
    }
    var a := Combine(s2, vehicle, refrigerant, useRuleOfThumb, s3);
    var b := Combine(ks2, Scaled(vehicle, k), Scaled(refrigerant, k), useRuleOfThumb, Scaled(s3, k));
    assert b.scope1 == Scaled(a.scope1, k);
    assert b.total == Scaled(a.total, k);
    assert b.totalWithScope3 == Scaled(a.totalWithScope3, k);
    ShareScaleFree(a.electricity, a.total, k);
    ShareScaleFree(a.vehicle, a.total, k);
    ShareScaleFree(a.refrigerant, a.total, k);
  }

  /** Combining parts scaled by k gives the breakdown scaled by k, with the same shares. */
  lemma CombineScales(s2: real, vehicle: real, refrigerant: real, useRuleOfThumb: bool, s3: real, k: real)
    requires k > 0.0
    ensures Combine(Scaled(s2, k), Scaled(vehicle, k), Scaled(refrigerant, k), useRuleOfThumb, Scaled(s3, k))
         == ScaleBreakdown(Combine(s2, vehicle, refrigerant, useRuleOfThumb, s3), k)
  {
    if OverrideApplies(useRuleOfThumb, s2) {
      CombineScalesOverride(s2, vehicle, refrigerant, useRuleOfThumb, s3, k);
    } else {
      CombineScalesItemised(s2, vehicle, refrigerant, useRuleOfThumb, s3, k);
    }
  }

  // --- the whole estimate ----------------------------------------------------

  /** Scaling the activity figures by k > 0 does not change whether the estimate fails. */
  lemma ScalingKeepsFailure(i: Inputs, k: real)
    requires k > 0.0
    ensures Estimate(ScaleActivity(i, k)).Success? <==> Estimate(i).Success?
  {
    ElectricityScales(i, k);
  }

  /**
   * Scaling every activity figure of a successful estimate by k > 0 yields
   * the same breakdown with every tonnage times k and the same shares.
   */
  lemma EstimateScales(i: Inputs, k: real)
    requires k > 0.0 && Estimate(i).Success?
    ensures Estimate(ScaleActivity(i, k)) == Success(ScaleBreakdown(Estimate(i).value, k))
  {
    ElectricityScales(i, k);
    VehicleScales(i, k);
    RefrigerantAndScope3Scale(i, k);
    CombineScales(Scope2(i.annualKwh, i.monthlyBill, i.pricePerKwh).value,
                  VehicleScope1(i.carCount, i.motorcycles, i.gasolineLitres, i.dieselLitres),
                  RefrigerantScope1(i.refrigerantLeakKg, i.refrigerantGwp),
                  i.useRuleOfThumb, Scope3Part(i), k);
  }
}
