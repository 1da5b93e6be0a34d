# Levelized cost of eSAF: a verified model of the cost engine

The engine works out the levelized cost, in USD per MJ, of electro-synthetic
aviation fuel (eSAF). The fuel is made along a fixed chain:

1. direct air capture (DAC) of CO2;
2. CO2 and water electrolysis to syngas;
3. Fischer-Tropsch (FT) synthesis;
4. distribution.

The engine is one object. Its state is:

- five parameter groups set by setters: economic parameters (which include
  the capital recovery factor), DAC, electrolysis, FT synthesis and
  distribution;
- the results of the latest evaluation.

An evaluation does the following, in order:

- sizes each stage from the plant capacity and the capacity factor;
- annualises the CAPEX with the capital recovery factor;
- adds fixed and variable OPEX;
- fills three cost tables (CAPEX, OPEX and total, per stage and summed);
- divides the total annual cost by the energy produced.

On top of the evaluation sit three analyses:

- two sweeps that vary one input: the shared electricity price, or the
  plant capacity;
- a break-even comparison against conventional jet fuel.

The project has seven modules:

- `Outcomes` (outcomes.dfy): Option, Result, and the error kinds. Python's
  ValueError becomes `MissingData`, ZeroDivisionError becomes
  `DivisionByZero`, and the pandas KeyError becomes `MissingColumn`.
- `CapitalRecovery` (crf.dfy): the capital recovery factor, and the annuity
  it defines.
- `CostModel` (cost_model.dfy):
  - the parameter records and the mass and energy balance;
  - the four stage cost models;
  - `Evaluate`, one evaluation as a function of the parameter groups. It
    fails exactly when `calculate_tea` raises.
- `Sensitivity` (sensitivity.dfy):
  - the overrides the sweeps apply and the values they save;
  - linearity of the total cost in the electricity price;
  - proportionality of every cost to plant capacity.
- `Sweeps` (sweeps.dfy): the two sweeps as functions of the state they start
  from (`SweepLoop`, `Sweep`, `ElectricitySweep`, `ScaleSweep`), their row
  tables, and what they guarantee.
- `Breakeven` (breakeven.dfy): the break-even formulas.
- `TeaEngine` (tea_model.dfy): class `TeaModel`. It holds the five groups as
  `Option` fields and the stored results. Its methods:
  - the setters;
  - `CalculateTea`;
  - the two sweeps, written as loops over the value list. Each loop's
    invariant ties the object's state to `SweepLoop` on the prefix already
    processed;
  - the break-even analysis.

Each method's postcondition ties the new state of the object to the
specification functions. The properties are proved as lemmas about those
functions.

Quantities are exact `real`s. Python's floating point is not modelled.

## Model

| member | source | states |
|---|---|---|
| CapitalRecovery.CapitalRecoveryFactor | Levelized_Cost_of_eSAF.py:86-106 | At a zero rate: defined iff the lifetime is positive, and crf × n = 1. Otherwise: defined iff (1+r)^n ≠ 1, and crf × ((1+r)^n − 1) = r (1+r)^n. The only failure is a division by zero. |
| CapitalRecovery.CrfRepaysCapital | Levelized_Cost_of_eSAF.py:86-106 | With 1 + r ≠ 0, paying crf at the end of each year of the lifetime repays a capital of 1 exactly, in present-value terms. |
| CapitalRecovery.AnnuityClosedForm | Levelized_Cost_of_eSAF.py:104-106 | The present value of n yearly payments is related to their sum by PV × r × (1+r)^n = payment × ((1+r)^n − 1). This identity is what makes the formula an annuity. |
| CapitalRecovery.PresentValueAtZeroRate | Levelized_Cost_of_eSAF.py:104-105 | At a zero rate the present value is the plain sum of the payments, so 1/n repays the capital. |
| CapitalRecovery.CrfBounds | Levelized_Cost_of_eSAF.py:104-106 | For r > 0 and n ≥ 1 the factor is defined and lies in (r, 1 + r]. |
| CapitalRecovery.CrfOneYear | Levelized_Cost_of_eSAF.py:86-106 | Over one year the factor is 1 + r, for every rate: at a zero rate it is 1/1, otherwise r(1+r)/((1+r) − 1). |
| CostModel.Evaluate | Levelized_Cost_of_eSAF.py:309-493 | Succeeds iff every group is set and no divisor is zero: the capacity factor, 1 + CO:H2, the catalyst lifetime, and the plant capacity. A missing group gives MissingData and a zero divisor gives DivisionByZero. On success: the tables are closed, per-stage total = CAPEX + OPEX, distribution CAPEX is 0, MJ = tonnes × 1000 × 43, and levelized × MJ = total. Each stage entry is that stage's cost model. |
| CostModel.ProductionAtMostNameplate | Levelized_Cost_of_eSAF.py:367 | For actual production (nameplate × capacity factor): with a capacity factor in [0, 1] and a non-negative capacity, actual production lies between 0 and the nameplate capacity. |
| CostModel.DacStageCosts | Levelized_Cost_of_eSAF.py:350-380 | For the DAC stage function: annualised CAPEX × cf = nameplate × CO2 per kg fuel × unit CAPEX × crf: the plant is sized on design capacity, nameplate ÷ cf. OPEX (total − annualised CAPEX) = fixed % of CAPEX + CO2 actually captured × the unit cost of electricity, heat and water per kg CO2. |
| CostModel.ElectrolysisStageCosts | Levelized_Cost_of_eSAF.py:390-420 | For the electrolysis stage function: annualised CAPEX = (CO kW × CO unit cost + H2 kW × H2 unit cost) × crf. OPEX = fixed % of CAPEX + electricity kWh × price + water + catalyst. The rated power of both electrolysers, run for cf × 8760 h, draws exactly the kWh the electricity cost is charged on. |
| CostModel.FtSynthesisStageCosts | Levelized_Cost_of_eSAF.py:425-440 | For the FT stage function: annualised CAPEX = nameplate × unit CAPEX × crf: sized on nameplate, not actual, output. OPEX = (fixed % + maintenance %) of CAPEX + CAPEX × catalyst cost ÷ lifetime + fuel actually produced × the unit cost of heat, cooling at half the heating energy, and water. |
| CostModel.DistributionCostPerTonne | Levelized_Cost_of_eSAF.py:443-450 | For the distribution cost function: the annual distribution cost is actual production × (distance × cost per t·km + storage + blending). |
| CostModel.Assemble | Levelized_Cost_of_eSAF.py:458-491 | The three tables from the stage costs: every invariant of `Consistent`, with the stage CAPEX and total entries as given and production as given. |
| CostModel.SyngasSplitConservesMass | Levelized_Cost_of_eSAF.py:392-398 | co_needed + h2_needed = syngas_needed, and co_needed = ratio × h2_needed. |
| CostModel.DacDesignVersusActual | Levelized_Cost_of_eSAF.py:352-368 | The DAC plant is sized for nameplate ÷ cf while actual capture is nameplate × cf, so design × cf² = actual. |
| CostModel.ElectrolyserPowerDeliversEnergy | Levelized_Cost_of_eSAF.py:403-404 | An electrolyser of the computed kW, run for cf × 8760 h, delivers exactly the MJ its CO or H2 needs. |
| Sensitivity.WithElectricityPrice | Levelized_Cost_of_eSAF.py:528-530 | A set DAC or electrolysis group becomes that group with its electricity price replaced by the given price; an unset group stays unset. It touches no other group and never changes whether the chain can be evaluated. |
| Sensitivity.ElectricityRestoreUndoesOverride | Levelized_Cost_of_eSAF.py:520-548 | Writing back the two saved prices after any price override gives the original parameters. |
| Sensitivity.WithPlantCapacity | Levelized_Cost_of_eSAF.py:596 | A set economic group becomes that group with its capacity replaced; an unset one stays unset. Every other group is left as it was. |
| Sensitivity.CapacityRestoreUndoesOverride | Levelized_Cost_of_eSAF.py:589-615 | Writing back the saved capacity undoes any capacity override. |
| Sensitivity.EvaluableAtCapacity | Levelized_Cost_of_eSAF.py:352-463 | After a capacity override, evaluation succeeds iff the other divisors are non-zero and the new capacity is non-zero. |
| Sensitivity.DacCostAffineInElectricityPrice | Levelized_Cost_of_eSAF.py:372-381 | The DAC annual cost at price x equals the cost at price 0 plus the DAC kWh × x. |
| Sensitivity.ElectrolysisSizingIgnoresPrice | Levelized_Cost_of_eSAF.py:392-416 | The syngas, the electrolyser CAPEX and the kWh do not depend on the electricity price. |
| Sensitivity.ElectrolysisCostAffineInElectricityPrice | Levelized_Cost_of_eSAF.py:416-420 | The electrolysis annual cost is its price-0 cost plus the electrolysis kWh × x. |
| Sensitivity.TotalCostAffineInElectricityPrice | Levelized_Cost_of_eSAF.py:372-458 | The total annual cost at shared price x is the total at price 0 plus the chain's total kWh × x. |
| Sensitivity.ElectricityDemandNonNegative | Levelized_Cost_of_eSAF.py:372-416 | With non-negative consumptions, energy inputs and production, the chain's kWh is non-negative. |
| Sensitivity.LevelizedCostMonotoneInElectricityPrice | Levelized_Cost_of_eSAF.py:372-463 | Under those assumptions, a higher shared electricity price never gives a lower levelized cost. |
| Sensitivity.ProductionProportional | Levelized_Cost_of_eSAF.py:367 | Actual production at capacity c is c times that of a one-tonne plant. |
| Sensitivity.DacSizingProportional | Levelized_Cost_of_eSAF.py:352-372 | DAC CAPEX, actual CO2 capture and DAC kWh are each c times those of a one-tonne plant. |
| Sensitivity.DacStageProportional | Levelized_Cost_of_eSAF.py:352-381 | DAC CAPEX, annualised CAPEX and annual cost are each c times those of a one-tonne plant. |
| Sensitivity.ElectrolysisSizingProportional | Levelized_Cost_of_eSAF.py:392-416 | Syngas, electrolyser CAPEX and kWh are each c times those of a one-tonne plant. |
| Sensitivity.ElectrolysisStageProportional | Levelized_Cost_of_eSAF.py:403-420 | Electrolysis annualised CAPEX and annual cost are each c times those of a one-tonne plant. |
| Sensitivity.FtSizingProportional | Levelized_Cost_of_eSAF.py:426-438 | FT CAPEX and FT running costs (maintenance, catalyst, heat, cooling, water) are each c times those of a one-tonne plant. |
| Sensitivity.FtSynthesisStageProportional | Levelized_Cost_of_eSAF.py:426-440 | FT annualised CAPEX and annual cost are each c times those of a one-tonne plant. |
| Sensitivity.DistributionCostProportional | Levelized_Cost_of_eSAF.py:446-450 | The distribution cost is c times that of a one-tonne plant. |
| Sensitivity.ChainScales | Levelized_Cost_of_eSAF.py:352-450 | Every stage cost, the distribution cost and the output at capacity c are c times those of a one-tonne plant. |
| Sensitivity.AssembleScales | Levelized_Cost_of_eSAF.py:458-491 | Scaling every input of the tables by c ≠ 0 scales the CAPEX, OPEX and total totals and the MJ by c, and leaves the levelized cost unchanged. |
| Sensitivity.CostsProportionalToCapacity | Levelized_Cost_of_eSAF.py:352-463 | For any non-zero capacity: evaluation succeeds; the CAPEX, OPEX and total totals and the MJ are c times those of a one-tonne plant; the levelized cost does not depend on c. |
| Sweeps.OverrideTwice | Levelized_Cost_of_eSAF.py:528-596 | A later override of the swept value replaces an earlier one. |
| Sweeps.RestoreAfterOverride | Levelized_Cost_of_eSAF.py:520-615 | Restoring the saved values after any override gives the starting parameters. This holds for either swept value. |
| Sweeps.SweepLoop | Levelized_Cost_of_eSAF.py:526-551 | The loop records at most one sample per value, and one for every value unless an evaluation failed. |
| Sweeps.LoopRecordsValues | Levelized_Cost_of_eSAF.py:526-542 | The samples follow the values in order, and the error a loop ends with is that of evaluating the parameters it leaves in place. |
| Sweeps.Sweep | Levelized_Cost_of_eSAF.py:526-551 | On success: one sample per value, in order, and the stored results are a fresh evaluation of the parameters left in place. On failure the error is that of evaluating the parameters left in place. |
| Sweeps.FailureEndsLoop | Levelized_Cost_of_eSAF.py:526-542 | Once an evaluation in the loop has failed (the exception escapes), the remaining values change nothing. |
| Sweeps.LoopWhenEvaluable | Levelized_Cost_of_eSAF.py:526-608 | When every override can be evaluated, the loop records one sample per value, in input order, each the evaluation with that value; it ends with the last value in place and that evaluation stored. |
| Sweeps.LoopStopsAt | Levelized_Cost_of_eSAF.py:526-542 | The first value whose evaluation fails ends the sweep: the override stays in place, the results of the value before it stay stored, and the error is returned. |
| Sweeps.SweepRestores | Levelized_Cost_of_eSAF.py:544-618 | A loop that did not fail is followed by the restore and a fresh evaluation of the original parameters, also after an empty list. |
| Sweeps.ParamsAfterLoop | Levelized_Cost_of_eSAF.py:526-530 | A loop that did not fail leaves the swept value at the last value of the list. |
| Sweeps.Share | Levelized_Cost_of_eSAF.py:557-559 | A percentage share is defined iff the total is non-zero, and share × total = part × 100. |
| Sweeps.PerTonne | Levelized_Cost_of_eSAF.py:624-625 | A per-tonne value is defined iff the capacity is non-zero, and value × capacity = quantity. |
| Sweeps.ElectricityTable | Levelized_Cost_of_eSAF.py:554-559 | An empty sample list has no columns (MissingColumn); otherwise the i-th row is the price, levelized cost, stage costs, total and stage shares of the i-th sample. |
| Sweeps.ScaleTable | Levelized_Cost_of_eSAF.py:621-625 | An empty sample list has no columns (MissingColumn); otherwise the i-th row is the capacity, levelized cost, CAPEX and OPEX totals, stage costs and per-tonne CAPEX and OPEX of the i-th sample. |
| Sweeps.SharesAddUp | Levelized_Cost_of_eSAF.py:557-559 | In a row with a non-zero total, the DAC, electrolysis and FT shares plus the distribution share make 100 %. |
| Sweeps.ElectricitySweep | Levelized_Cost_of_eSAF.py:511-560 | A table has one row per price, each carrying its price, in order, whatever the starting state. A failure is the evaluation error of the parameters left in place or, for an empty list, the missing column. |
| Sweeps.ElectricitySweepSucceeds | Levelized_Cost_of_eSAF.py:519-559 | From evaluable parameters and a non-empty list: one row per price, in order, each the evaluation with both prices set to that price. Afterwards both prices are back and a fresh evaluation of the original parameters is stored. |
| Sweeps.ElectricitySweepFailsAtOnce | Levelized_Cost_of_eSAF.py:526-530 | From parameters that cannot be evaluated, the sweep fails at the first price. That price stays written and the stored results are untouched. |
| Sweeps.ElectricitySweepOfNoPrices | Levelized_Cost_of_eSAF.py:544-557 | With no prices the restore and the fresh evaluation still run, and building the table then fails. |
| Sweeps.ElectricitySweepSuccessCondition | Levelized_Cost_of_eSAF.py:519-559 | The electricity sweep returns a table iff the parameters can be evaluated and the list is not empty. |
| Sweeps.ElectricitySweepMonotone | Levelized_Cost_of_eSAF.py:372-542 | With non-negative demand, ascending prices give non-decreasing levelized costs row by row. |
| Sweeps.ScaleSweep | Levelized_Cost_of_eSAF.py:581-625 | A table has one row per capacity, each carrying its capacity, in order, whatever the starting state. A failure is the evaluation error of the parameters left in place or, for an empty list, the missing column. |
| Sweeps.ScaleRowAtCapacity | Levelized_Cost_of_eSAF.py:624-625 | At any non-zero capacity, the row's capex_per_tpy and opex_per_tonne are the CAPEX and OPEX totals of a one-tonne plant. Its levelized cost is that of a one-tonne plant. |
| Sweeps.ScaleSweepSucceeds | Levelized_Cost_of_eSAF.py:589-625 | From evaluable parameters and non-zero capacities: one row per capacity, in order, each the evaluation at that capacity. capex_per_tpy, opex_per_tonne and the levelized cost are the same in every row. The capacity is restored and a fresh evaluation is stored. |
| Sweeps.ScaleSweepStopsAtZero | Levelized_Cost_of_eSAF.py:594-608 | A zero capacity ends the sweep with a division by zero. The capacity stays at zero and the results of the capacity before it stay stored. |
| Sweeps.ScaleSweepFailsAtOnce | Levelized_Cost_of_eSAF.py:594-600 | From parameters that cannot be evaluated at any capacity, the sweep fails at the first capacity. |
| Sweeps.ScaleSweepOfNoCapacities | Levelized_Cost_of_eSAF.py:612-621 | With no capacities the restore and the fresh evaluation still run, and building the table then fails. |
| Breakeven.BreakevenFuelPrice | Levelized_Cost_of_eSAF.py:648-670 | Fails (division by zero) iff the conventional price is 0. Otherwise: cost per litre = levelized × 43 MJ/kg × 0.8 kg/L; premium + price = cost per litre; percent × price = premium × 100; tax × avoided kg CO2e per litre = premium × 1000; emission difference = 89. |
| Breakeven.RequiredCarbonTax | Levelized_Cost_of_eSAF.py:659-661 | The carbon tax, in USD per tonne, at which one litre's avoided emissions pay its premium: tax × 0.089 × 43 × 0.8 = premium × 1000. |
| Breakeven.RequiredCarbonTaxAsWritten | Levelized_Cost_of_eSAF.py:661 | The tax as the code computes it: tax × 0.089 × 43 = premium. |
| Breakeven.CarbonTaxClosesGap | Levelized_Cost_of_eSAF.py:652-661 | Crediting the reported tax on the avoided emissions brings the eSAF cost per litre down to the conventional price. |
| Breakeven.NoPremiumAtParity | Levelized_Cost_of_eSAF.py:652-661 | At a cost per litre equal to the conventional price, the premium, the percentage and the tax are all 0. |
| Breakeven.TaxMonotoneInCost | Levelized_Cost_of_eSAF.py:652-661 | A higher levelized cost never gives a lower premium or a lower tax. |
| Breakeven.AsWrittenTaxMissesBreakeven | Levelized_Cost_of_eSAF.py:661 | The computed tax is 0.8/1000 times the break-even tax, so for any non-zero premium crediting it misses the conventional price. |
| TeaEngine.TeaModel.constructor | Levelized_Cost_of_eSAF.py:14-53 | A fresh engine has no group set and no results. |
| TeaEngine.TeaModel.SetEconomicParameters | Levelized_Cost_of_eSAF.py:55-85 | Stores the four inputs with their factor, with defaults 0.08, 20, 0.9 and 100000. A division by zero in the factor is returned and leaves the group as it was. Nothing else changes. |
| TeaEngine.TeaModel.SetDacCosts | Levelized_Cost_of_eSAF.py:108-157 | Replaces the DAC group with the given values (the source's defaults) and changes nothing else. |
| TeaEngine.TeaModel.SetElectrolysisCosts | Levelized_Cost_of_eSAF.py:158-217 | Replaces the electrolysis group and changes nothing else. |
| TeaEngine.TeaModel.SetFtSynthesisCosts | Levelized_Cost_of_eSAF.py:218-270 | Replaces the FT group and changes nothing else. |
| TeaEngine.TeaModel.SetDistributionCosts | Levelized_Cost_of_eSAF.py:271-307 | Replaces the distribution group with the four fields the cost uses and changes nothing else. |
| TeaEngine.TeaModel.CalculateTea | Levelized_Cost_of_eSAF.py:309-493 | Returns `Evaluate` of the groups and leaves the groups alone. On success the stored results are replaced as a whole; on failure they are unchanged. |
| TeaEngine.TeaModel.SetElectricityPrices | Levelized_Cost_of_eSAF.py:528-548 | Writes the two prices into the DAC and the electrolysis group, leaving an unset group unset. |
| TeaEngine.TeaModel.SetPlantCapacity | Levelized_Cost_of_eSAF.py:596-615 | Writes the capacity into the economic group, leaving it unset if it is unset. |
| TeaEngine.TeaModel.AnalyzeElectricityPriceSensitivity | Levelized_Cost_of_eSAF.py:495-563 | The groups, the stored results and the table afterwards are exactly those of `ElectricitySweep` from the starting state, over the given prices or the default ten. |
| TeaEngine.TeaModel.AnalyzeScaleSensitivity | Levelized_Cost_of_eSAF.py:565-629 | The groups, the stored results and the table afterwards are exactly those of `ScaleSweep` from the starting state, over the given capacities or the default seven. |
| TeaEngine.TeaModel.CalculateBreakevenFuelPrice | Levelized_Cost_of_eSAF.py:631-678 | Returns `Breakeven.BreakevenFuelPrice` of the levelized cost, with the corrected carbon tax (see Left out). When the stored levelized cost is non-zero it is used and nothing changes. When it is absent or 0.0, one evaluation runs first: its failure is returned, and on success its results are stored and used. The groups never change. |

## Left out

- Floating point: all quantities are exact reals. IEEE-754 rounding, overflow, infinities and NaN are not modelled. This includes a NaN levelized cost, which the source's `not` test would not treat as missing.
- Non-finite table entries: pandas yields inf or NaN where a share or a per-tonne value divides by zero. They are modelled as `None`.
- Printing, `print_results`, plotting, `run_complete_analysis`, the `__main__` demo and streamlit_app.py: output and orchestration only.
- The fixed labels `pathway`, `functional_unit` and `co2_source`, and the `silent` flag of `calculate_tea`: they only affect printing.
- `transport_mode` and the distribution group's `fuel_density`: they are stored but never read by any calculation, so `SetDistributionCosts` does not take them.
- Negative project lifetimes: the lifetime is a `nat`, because `(1+r)**n` over negative integers is outside the power function modelled here.
- Sweep over a missing group: writing the swept value into an empty dictionary creates a one-key dictionary, which later fails with KeyError instead of ValueError. The model keeps the group unset. Both fail at the first evaluation, so the sweep's outcome is the same, but the model reports `MissingData` where Python raises KeyError, and it does not keep the one-key dictionary.
- The default scenario: with every default the levelized cost works out to about 0.216 USD/MJ; the code's formulas are followed.
- Breakeven.BreakevenFuelPrice: it reports the corrected carbon tax (see Findings), not the value line 661 computes. The as-written value is `RequiredCarbonTaxAsWritten`.
- TeaEngine.TeaModel.CalculateBreakevenFuelPrice: its `requiredCarbonTax` is the corrected tax of `Breakeven.BreakevenFuelPrice`, premium × 1000 / (0.089 × 43 × 0.8), not the premium / (0.089 × 43) that line 661 returns. The two differ by the factor 0.8/1000 that `Breakeven.AsWrittenTaxMissesBreakeven` proves. Every other field is the one the source returns.

## Findings

| source | as written | input that shows it | evidently intended | confidence | as-written member | corrected member |
|---|---|---|---|---|---|---|
| Levelized_Cost_of_eSAF.py:661 | The required carbon tax is the per-litre premium divided by 89/1000 × 43, the kg CO2e avoided per kg of fuel. It omits the 0.8 kg/L density and the kg-to-tonne factor. The comment on line 661 labels the result USD/kg CO2, while it is printed (676, 784) and plotted (streamlit_app.py:411-426) as USD per tonne CO2e. The missing density makes it wrong under either unit: as USD/kg the break-even value is premium / (0.089 × 43 × 0.8). | Cost per litre 2.0 USD and conventional price 1.0 USD give a premium of 1.0 USD/L. The formula works out to ≈ 0.2613, against ≈ 0.3266 USD/kg or ≈ 326.6 USD/t at break-even. That tax, credited on the 3.0616 kg CO2e one litre avoids, lowers the cost by only ≈ 0.0008 USD/L instead of 1.0. | The price per tonne CO2e at which one litre's avoided emissions pay its premium: premium × 1000 / (0.089 × 43 × 0.8), ≈ 326.6 USD/t here. This is the tax at which the dashboard's effective-cost line meets the conventional price. | not executed; high that it is wrong, medium on the intended unit | Breakeven.RequiredCarbonTaxAsWritten, Breakeven.AsWrittenTaxMissesBreakeven | Breakeven.RequiredCarbonTax, Breakeven.CarbonTaxClosesGap |
