# Emission Engine estimation core, in Dafny

This project models the estimation engine of the Emission Engine: the pure
function `estimate` of `emission/emission_calc.py` that turns a small record
of activity figures into an annual greenhouse-gas breakdown. The breakdown
covers Scope 2 (purchased electricity) and Scope 1 (vehicles and refrigerant
leaks), plus an optional minor Scope 3 add-on (water and waste).

The engine is built from four sub-calculations:

- **Scope 2.** A nonzero annual kWh takes precedence over a figure derived
  from the monthly bill: twelve bills divided by the unit price.
- **Scope 1 vehicles.** Any nonzero fuel volume fully overrides the
  vehicle-count proxy. In the proxy, one car is 1500 L of gasoline, or 3.45 t,
  and a motorcycle counts as half a car.
- **Scope 1 refrigerant.** Leaked mass times its GWP (global-warming
  potential).
- **Minor Scope 3.** Water and waste.

`Estimate` then applies the rule-of-thumb override. When the flag is set and
Scope 2 is positive, the total becomes 1.1 × Scope 2. The implied Scope 1 is
split 90/10 between vehicles and refrigerant. Percentage shares are computed
against the Scope 1+2 total, with all shares 0 for a zero total. The Scope 3
add-on goes on top of that total.

Files:

- `wrappers.dfy`: `Option`, the model of `Optional[float]`, and `Result`.
- `emission_calc.dfy`, module `EmissionCalc`: the constants, the `Inputs`
  and `Breakdown` records, the sub-calculations, `Combine` and `Estimate`.
- `subcalc_properties.dfy`, module `SubCalcProperties`: the precedence,
  truthiness, linearity and sign lemmas for the sub-calculations.
- `estimate_properties.dfy`, module `EstimateProperties`: the branch
  lemmas, independence lemmas and sign lemmas for `Estimate`.
- `scaling.dfy`, module `Scaling`: homogeneity. Measuring an organisation k
  times as large multiplies every tonnage by k and leaves the shares unchanged.
- `scenarios.dfy`, module `Scenarios`: worked examples with exact figures.

Modelling decisions:

- Numbers are exact `real`s. The factors are the documented decimal
  constants, not their binary floating-point approximations.
- Optional inputs follow Python truthiness, as the code does
  (`if annual_kwh:`, `if gas_liters or diesel_liters:`). `Some(0.0)` behaves
  exactly like `None`; `ZeroIsAbsent` proves this for the whole record. In
  particular `if annual_kwh:` tests truthiness, so an explicit zero kWh
  falls through to the bill.
- The bill branch divides by the unit price unguarded
  (emission/emission_calc.py:49), so a nonzero bill with a zero price and no
  nonzero kWh raises `ZeroDivisionError`. The input form can produce this
  input, since a price typed as "0" is passed through. `Estimate` returns
  `Failure(DivisionByZero)` in exactly that case, as its contract states.
- The result dictionary with its Chinese keys becomes the `Breakdown`
  record. Its percentage shares are the nested `Shares` record.
- `mode` is kept in `Inputs` but never read (`ModeIgnored`). Only
  `useRuleOfThumb` changes behaviour.

## Model

| member | source | states |
|---|---|---|
| SubCalcProperties.CarTonnesPerYearValue | emission/emission_calc.py:19-21 | the fallback per-car figure is 15000 km / 10 km/L = 1500 L of gasoline, i.e. 3.45 t a year |
| EmissionCalc.DefaultInputs | emission/emission_calc.py:27-42 | the default record is in quick mode, has no bill, kWh or fuel figures, zero cars, motorcycles, leak, water and waste, price 4.4, GWP 1000, and both flags unset |
| EmissionCalc.OrZero | emission/emission_calc.py:56 | `x or 0` yields the value when it is nonzero and 0 for a missing or zero value |
| EmissionCalc.Scope2 | emission/emission_calc.py:45-51 | Scope 2 fails exactly when the bill branch is reached with a zero price, and is 0 when neither kWh nor bill is nonzero |
| SubCalcProperties.Scope2KwhWins | emission/emission_calc.py:46-47 | a nonzero kWh gives kWh × 0.474 / 1000, and any other bill or price gives the same result |
| SubCalcProperties.Scope2BillFallback | emission/emission_calc.py:48-50 | without a nonzero kWh, a nonzero bill at a nonzero price gives (bill / price) × 12 × 0.474 / 1000, the same as passing that derived consumption as kWh |
| SubCalcProperties.Scope2Absent | emission/emission_calc.py:51 | with neither figure nonzero, Scope 2 is 0 whatever the price |
| SubCalcProperties.Scope2ZeroIsAbsent | emission/emission_calc.py:46-48 | an explicit zero kWh or bill gives the same Scope 2 as a missing one |
| SubCalcProperties.Scope2NonNegative | emission/emission_calc.py:45-51 | with non-negative figures and a positive price, Scope 2 succeeds and is non-negative |
| SubCalcProperties.Scope2BillMonotone | emission/emission_calc.py:48-50 | in the bill branch, a larger bill gives no less Scope 2 and a dearer unit price gives no more |
| SubCalcProperties.VehicleFuelOverride | emission/emission_calc.py:55-56 | any nonzero fuel volume gives gasoline × 2.3/1000 + diesel × 2.6/1000, a missing volume read as 0, and the vehicle counts have no effect |
| SubCalcProperties.VehicleCountFallback | emission/emission_calc.py:54-58 | with no nonzero fuel volume, vehicles give (cars + 0.5 × motorcycles) × 3.45 |
| SubCalcProperties.VehicleZeroIsAbsent | emission/emission_calc.py:55-56 | an explicit zero fuel volume gives the same vehicle figure as a missing one |
| SubCalcProperties.VehicleNonNegative | emission/emission_calc.py:54-58 | non-negative counts and volumes give a non-negative vehicle figure |
| SubCalcProperties.RefrigerantLinear | emission/emission_calc.py:61-62 | refrigerant is leak × GWP / 1000, is additive and scales in the leaked mass, and is non-negative for non-negative inputs |
| SubCalcProperties.MinorScope3Linear | emission/emission_calc.py:65-66 | minor Scope 3 is water × 0.0004 + waste × 0.33, is additive in both, and is non-negative for non-negative inputs |
| EmissionCalc.SharesSumTo100 | emission/emission_calc.py:82-84 | when three parts add up to a nonzero total, their percentage shares add up to exactly 100 |
| EmissionCalc.CombineBalanced | emission/emission_calc.py:73-87 | in both branches the assembled breakdown is balanced: Scope 1 = vehicle + refrigerant, total = Scope 1 + Scope 2, grand total = total + Scope 3, and the shares are all 0 for a zero total and sum to 100 otherwise; Scope 2 and Scope 3 are reported as given |
| EmissionCalc.Estimate | emission/emission_calc.py:69-72 | the estimate fails exactly when the Scope 2 bill branch divides by a zero price |
| EstimateProperties.EstimateBalanced | emission/emission_calc.py:69-87 | every successful estimate is balanced in the sense above |
| EstimateProperties.ItemisedCase | emission/emission_calc.py:73-76 | without the override, the breakdown reports the sub-calculations as computed, Scope 1 = vehicle + refrigerant, and total = Scope 1 + Scope 2 |
| EstimateProperties.OverrideCase | emission/emission_calc.py:76-80 | with the flag set and Scope 2 > 0: total = 1.1 × Scope 2, Scope 1 = total − Scope 2 = 0.1 × Scope 2, vehicle = 0.9 × Scope 1, refrigerant = 0.1 × Scope 1, and Scope 2 is unchanged |
| EstimateProperties.OverrideIgnoresScope1Inputs | emission/emission_calc.py:70-80 | under the override, changing the vehicle, fuel or refrigerant inputs does not change the result |
| EstimateProperties.SharesOfTotal | emission/emission_calc.py:82-84 | each share is its part's percentage of the Scope 1+2 total; all shares are 0 when the total is 0, and they sum to 100 otherwise |
| EstimateProperties.Scope3AddOn | emission/emission_calc.py:85-87 | Scope 3 is 0 unless included, is water × 0.0004 + waste × 0.33 when included, and the grand total is total + Scope 3 |
| EstimateProperties.Scope3Independent | emission/emission_calc.py:82-87 | changing the Scope 3 flag, water or waste leaves success, Scope 1, Scope 2, the total and all shares unchanged |
| EstimateProperties.ModeIgnored | emission/emission_calc.py:29 | the mode field has no effect on the estimate |
| EstimateProperties.ZeroIsAbsent | emission/emission_calc.py:45-58 | replacing every explicit zero optional figure by a missing one leaves the estimate unchanged |
| EstimateProperties.Normalise | emission/emission_app.py:81-87 | the form's `or None` coercion replaces each falsy optional figure by `None`, keeps each truthy one as it is, and changes no other field |
| EstimateProperties.DefaultIsZero | emission/emission_calc.py:69-87 | the default record estimates to the all-zero breakdown, with all shares 0 |
| EstimateProperties.EstimateNonNegative | emission/emission_calc.py:69-98 | for non-negative inputs that do not reach the zero-price division, the estimate succeeds and every field, shares included, is non-negative |
| EstimateProperties.ShareNonNegative | emission/emission_calc.py:82-84 | a non-negative part of a positive total has a non-negative share |
| Scaling.ElectricityScales | emission/emission_calc.py:45-51 | scaling the kWh and bill figures by k > 0 keeps which Scope 2 branch is taken and whether it fails, and multiplies Scope 2 by k |
| Scaling.VehicleScope1Scales | emission/emission_calc.py:54-58 | counts and fuel volumes scaled by k > 0 keep the vehicle branch and give k times the vehicle figure |
| Scaling.VehicleScales | emission/emission_calc.py:54-58 | scaling counts and fuel volumes by k > 0 keeps the vehicle branch and multiplies the vehicle figure by k |
| Scaling.RefrigerantAndScope3Scale | emission/emission_calc.py:61-66 | scaling the leak, water and waste by k multiplies refrigerant and Scope 3 by k |
| Scaling.ShareScaleFree | emission/emission_calc.py:82-84 | a share does not change when part and total are scaled by the same nonzero factor |
| Scaling.CombineScalesOverride | emission/emission_calc.py:76-84 | under the override, Scope 2 scaled by k > 0 keeps the override and gives the breakdown with every tonnage times k and the same shares |
| Scaling.CombineScalesItemised | emission/emission_calc.py:73-84 | without the override, parts scaled by k > 0 keep it off and give the breakdown with every tonnage times k and the same shares |
| Scaling.CombineScales | emission/emission_calc.py:73-87 | in either branch, parts scaled by k > 0 give the breakdown with every tonnage times k and the same shares |
| Scaling.ScalingKeepsFailure | emission/emission_calc.py:45-51 | scaling every activity figure by k > 0 does not change whether the estimate fails |
| Scaling.EstimateScales | emission/emission_calc.py:69-98 | scaling every activity figure by k > 0 multiplies every tonnage of the estimate by k and leaves the three shares unchanged |
| Scenarios.KwhBeatsBill | emission/emission_calc.py:46-47 | 1000 kWh together with a 5000 bill gives 0.474 t of electricity |
| Scenarios.BillDerivedElectricity | emission/emission_calc.py:48-50 | a 2200 bill at 4.4 gives 6000 kWh, i.e. 2.844 t |
| Scenarios.FuelBeatsCarCount | emission/emission_calc.py:55-56 | five cars with 1000 L of gasoline give 2.3 t of vehicle emissions |
| Scenarios.CarCountFallback | emission/emission_calc.py:57-58 | two cars and four motorcycles without fuel figures give 13.8 t |
| Scenarios.QuickRuleOfThumb | emission/emission_calc.py:76-80 | a 4400 bill under the override gives electricity 5.688, total 6.2568, Scope 1 0.5688, vehicle 0.51192, refrigerant 0.05688 |
| Scenarios.WaterAndWasteAddOn | emission/emission_calc.py:85-87 | 1000 m³ of water and 2 t of waste add exactly 1.06 t on top of the total |
| Scenarios.ZeroPriceFails | emission/emission_calc.py:48-49 | a nonzero bill with a zero price and no kWh ends in the division error |

## Left out

- Presentation rounding (`round(x, 2)` and `round(x, 1)` on binary floats, emission/emission_calc.py:90-97). Every property is stated on the unrounded values, so the shares sum to exactly 100 rather than to within ±0.1.
- IEEE floating point in general. The factors and all arithmetic are exact reals, so `1.1 × s2 − s2` is exactly `0.1 × s2`. NaN and infinite inputs do not exist in the model.
- The presentation shell `emission/emission_app.py`: page layout, text-to-number coercion (`to_float`, `to_int`), the pie chart and the narrative text. Only its `or None` coercion is mirrored, by `EstimateProperties.Normalise`.
- The result dictionary's key names and nesting. They are replaced by the `Breakdown` and `Shares` records.
- Determinism and idempotence need no lemma. `Estimate` is a Dafny function, so equal inputs give equal results by construction.
- Integer car and motorcycle counts. The shell truncates them to whole numbers, but the engine's record holds floats, so the model uses reals.
