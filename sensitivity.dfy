/** Sensitivity of the levelized cost to the electricity price and to the
    plant capacity: the parameter overrides a sweep applies, how the costs
    respond to them, and the sweep procedures themselves as functions of
    the starting state. */
module Sensitivity {
  import opened Outcomes
  import opened CostModel

  // ---------------------------------------------------------------------
  // Overrides

  /** Electricity price a sweep saves before it starts; 0.05 USD/kWh when a
      group holds no price. */
  const FallbackElectricityPrice: real := 0.05
  /** Plant capacity a sweep saves before it starts when none is set, t/year. */
  const FallbackPlantCapacity: real := 100000.0

  const DefaultElectricityPrices: seq<real> := [0.02, 0.03, 0.04, 0.05, 0.06, 0.08, 0.10, 0.12, 0.15, 0.20]
  const DefaultPlantCapacities: seq<real> := [10000.0, 25000.0, 50000.0, 100000.0, 200000.0, 500000.0, 1000000.0]

  /** Overwrites the electricity price of the DAC and of the electrolysis
      group, each with its own value; a group not set stays unset. */
  function WithElectricityPrices(p: Parameters, dacPrice: real, electrolysisPrice: real): Parameters
  {
    p.(dac := if p.dac.Some? then Some(p.dac.value.(electricityCost := dacPrice)) else None,
       electrolysis := if p.electrolysis.Some? then Some(p.electrolysis.value.(electricityCost := electrolysisPrice)) else None)
  }

  /** The shared electricity price set in both groups at once. */
  function WithElectricityPrice(p: Parameters, price: real): (q: Parameters)
    ensures Evaluable(q) <==> Evaluable(p)
    ensures q.economic == p.economic && q.ftSynthesis == p.ftSynthesis && q.distribution == p.distribution
    ensures q.dac.Some? <==> p.dac.Some?
    ensures q.dac.Some? ==> q.dac.value == p.dac.value.(electricityCost := price)
    ensures q.electrolysis.Some? <==> p.electrolysis.Some?
    ensures q.electrolysis.Some? ==> q.electrolysis.value == p.electrolysis.value.(electricityCost := price)
  {
    WithElectricityPrices(p, price, price)
  }

  function SavedDacPrice(p: Parameters): real
  {
    if p.dac.Some? then p.dac.value.electricityCost else FallbackElectricityPrice
  }

  function SavedElectrolysisPrice(p: Parameters): real
  {
    if p.electrolysis.Some? then p.electrolysis.value.electricityCost else FallbackElectricityPrice
  }

  /** Writing the saved prices back undoes any price override. */
  lemma ElectricityRestoreUndoesOverride(p: Parameters, price: real)
    ensures WithElectricityPrices(WithElectricityPrice(p, price), SavedDacPrice(p), SavedElectrolysisPrice(p)) == p
  {
  }

  /** Overwrites the plant capacity; an economic group not set stays unset. */
  function WithPlantCapacity(p: Parameters, capacity: real): (q: Parameters)
    ensures q.economic.Some? <==> p.economic.Some?
    ensures q.economic.Some? ==> q.economic.value == p.economic.value.(plantCapacityTpy := capacity)
    ensures q.dac == p.dac && q.electrolysis == p.electrolysis && q.ftSynthesis == p.ftSynthesis
    ensures q.distribution == p.distribution
  {
    p.(economic := if p.economic.Some? then Some(p.economic.value.(plantCapacityTpy := capacity)) else None)
  }

  function SavedPlantCapacity(p: Parameters): real
  {
    if p.economic.Some? then p.economic.value.plantCapacityTpy else FallbackPlantCapacity
  }

  lemma CapacityRestoreUndoesOverride(p: Parameters, capacity: real)
    ensures WithPlantCapacity(WithPlantCapacity(p, capacity), SavedPlantCapacity(p)) == p
  {
  }

  /** Evaluable except possibly for a zero plant capacity. */
  predicate EvaluableAtSomeCapacity(p: Parameters)
  {
    && Complete(p)
    && p.economic.value.capacityFactor != 0.0
    && 1.0 + p.electrolysis.value.coH2Ratio != 0.0
    && p.ftSynthesis.value.catalystLifetime != 0.0
  }

  /** Overriding the capacity makes the evaluation fail exactly when the new
      capacity is zero or another divisor is. */
  lemma EvaluableAtCapacity(p: Parameters, capacity: real)
    ensures Evaluable(WithPlantCapacity(p, capacity)) <==> EvaluableAtSomeCapacity(p) && capacity != 0.0
    ensures Evaluable(p) <==> EvaluableAtSomeCapacity(p) && p.economic.value.plantCapacityTpy != 0.0
  {
  }

  // ---------------------------------------------------------------------
  // Response to the electricity price

  /** Electricity drawn by the whole chain, kWh/year. */
  function ElectricityDemandKwh(p: Parameters): real
    requires Evaluable(p)
  {
    DacElectricityKwh(p.economic.value, p.dac.value)
      + ElectrolysisElectricityKwh(p.economic.value, p.electrolysis.value)
  }

  /** The physical inputs that make the electricity demand and the output
      non-negative. */
  predicate NonNegativeDemand(p: Parameters)
    requires Complete(p)
  {
    && ActualProduction(p.economic.value) > 0.0
    && p.dac.value.co2CaptureRate >= 0.0
    && p.dac.value.electricityConsumption >= 0.0
    && p.electrolysis.value.syngasRequirement >= 0.0
    && p.electrolysis.value.coH2Ratio >= 0.0
    && p.electrolysis.value.energyInputCo >= 0.0
    && p.electrolysis.value.energyInputH2 >= 0.0
  }

  /** The DAC cost is affine in its electricity price. */
  lemma DacCostAffineInElectricityPrice(e: EconomicParameters, d: DacCosts, price: real)
    requires e.capacityFactor != 0.0
    ensures DacStage(e, d.(electricityCost := price)).totalAnnual
            == DacStage(e, d.(electricityCost := 0.0)).totalAnnual + price * DacElectricityKwh(e, d)
  {
    var d1, d0 := d.(electricityCost := price), d.(electricityCost := 0.0);
    assert DacCapexTotal(e, d1) == DacCapexTotal(e, d0);
    assert ActualCo2Capture(e, d1) == ActualCo2Capture(e, d0);
    assert DacElectricityKwh(e, d1) == DacElectricityKwh(e, d0) == DacElectricityKwh(e, d);
  }

  /** Sizing and energy demand of the electrolysers do not read the price. */
  lemma ElectrolysisSizingIgnoresPrice(e: EconomicParameters, el: ElectrolysisCosts, price: real)
    requires e.capacityFactor != 0.0 && 1.0 + el.coH2Ratio != 0.0
    ensures SyngasNeeded(e, el.(electricityCost := price)) == SyngasNeeded(e, el)
    ensures ElectrolysisCapexTotal(e, el.(electricityCost := price)) == ElectrolysisCapexTotal(e, el)
    ensures ElectrolysisElectricityKwh(e, el.(electricityCost := price)) == ElectrolysisElectricityKwh(e, el)
  {
    var el1 := el.(electricityCost := price);
    assert CoNeeded(e, el1) == CoNeeded(e, el) && H2Needed(e, el1) == H2Needed(e, el);
    assert CoPowerKw(e, el1) == CoPowerKw(e, el) && H2PowerKw(e, el1) == H2PowerKw(e, el);
  }

  /** The electrolysis cost is affine in its electricity price. */
  lemma ElectrolysisCostAffineInElectricityPrice(e: EconomicParameters, el: ElectrolysisCosts, price: real)
    requires e.capacityFactor != 0.0 && 1.0 + el.coH2Ratio != 0.0
    ensures ElectrolysisStage(e, el.(electricityCost := price)).totalAnnual
            == ElectrolysisStage(e, el.(electricityCost := 0.0)).totalAnnual + price * ElectrolysisElectricityKwh(e, el)
  {
    ElectrolysisSizingIgnoresPrice(e, el, price);
    ElectrolysisSizingIgnoresPrice(e, el, 0.0);
    var el1, el0 := el.(electricityCost := price), el.(electricityCost := 0.0);
    var capex, kwh := ElectrolysisCapexTotal(e, el), ElectrolysisElectricityKwh(e, el);
    var rest := SyngasNeeded(e, el) * el.waterConsumption * el.waterCost
                + ActualProduction(e) * KgPerTonne * el.catalystConsumption * el.catalystCost;
    assert ElectrolysisRunningCost(e, el1) == kwh * price + rest;
    assert ElectrolysisRunningCost(e, el0) == rest;
    assert ElectrolysisStage(e, el1) == Stage(capex, e.crf, el.opexFixedPercent, kwh * price + rest);
    assert ElectrolysisStage(e, el0) == Stage(capex, e.crf, el.opexFixedPercent, rest);
  }

  /** The total annual cost is affine in the shared electricity price, with
      the chain's electricity demand as slope. */
  lemma TotalCostAffineInElectricityPrice(p: Parameters, price: real)
    requires Evaluable(p)
    ensures Evaluate(WithElectricityPrice(p, price)).Success?
    ensures Evaluate(WithElectricityPrice(p, price)).value.totalCosts.total
            == Evaluate(WithElectricityPrice(p, 0.0)).value.totalCosts.total + price * ElectricityDemandKwh(p)
  {
    var e, d, el := p.economic.value, p.dac.value, p.electrolysis.value;
    var d1, d0 := d.(electricityCost := price), d.(electricityCost := 0.0);
    var el1, el0 := el.(electricityCost := price), el.(electricityCost := 0.0);
    var q1, q0 := WithElectricityPrice(p, price), WithElectricityPrice(p, 0.0);
    assert q1.dac.value == d1 && q0.dac.value == d0;
    assert q1.electrolysis.value == el1 && q0.electrolysis.value == el0;
    TotalOfStages(q1);
    TotalOfStages(q0);
    DacCostAffineInElectricityPrice(e, d, price);
    ElectrolysisCostAffineInElectricityPrice(e, el, price);
    var rest := FtSynthesisStage(e, p.ftSynthesis.value).totalAnnual + DistributionCost(e, p.distribution.value);
    AffineSum(Evaluate(q1).value.totalCosts.total, DacStage(e, d1).totalAnnual, ElectrolysisStage(e, el1).totalAnnual,
              Evaluate(q0).value.totalCosts.total, DacStage(e, d0).totalAnnual, ElectrolysisStage(e, el0).totalAnnual,
              rest, price, DacElectricityKwh(e, d), ElectrolysisElectricityKwh(e, el));
  }

  /** The total annual cost of an evaluation is the sum of the stage costs. */
  lemma TotalOfStages(p: Parameters)
    requires Evaluable(p)
    ensures Evaluate(p).Success?
    ensures var e := p.economic.value;
      Evaluate(p).value.totalCosts.total
      == DacStage(e, p.dac.value).totalAnnual + ElectrolysisStage(e, p.electrolysis.value).totalAnnual
         + (FtSynthesisStage(e, p.ftSynthesis.value).totalAnnual + DistributionCost(e, p.distribution.value))
  {
    assert Closed(Evaluate(p).value.totalCosts);
  }

  lemma AffineSum(total1: real, a1: real, b1: real, total0: real, a0: real, b0: real, rest: real,
                  price: real, slopeA: real, slopeB: real)
    requires total1 == a1 + b1 + rest && total0 == a0 + b0 + rest
    requires a1 == a0 + price * slopeA && b1 == b0 + price * slopeB
    ensures total1 == total0 + price * (slopeA + slopeB)
  {
  }

  lemma NonNegativeProduct(a: real, b: real)
    requires a >= 0.0 && b >= 0.0
    ensures a * b >= 0.0
  {
  }

  lemma ElectricityDemandNonNegative(p: Parameters)
    requires Evaluable(p) && NonNegativeDemand(p)
    ensures ElectricityDemandKwh(p) >= 0.0
  {
    var e, d, el := p.economic.value, p.dac.value, p.electrolysis.value;
    var k := el.coH2Ratio;
    NonNegativeProduct(ActualProduction(e) * KgPerTonne, d.co2CaptureRate);
    NonNegativeProduct(ActualCo2Capture(e, d), d.electricityConsumption);
    NonNegativeProduct(ActualProduction(e) * KgPerTonne, el.syngasRequirement);
    NonNegativeProduct(k, 1.0 / (1.0 + k));
    assert k / (1.0 + k) == k * (1.0 / (1.0 + k));
    NonNegativeProduct(SyngasNeeded(e, el), k / (1.0 + k));
    NonNegativeProduct(SyngasNeeded(e, el), 1.0 / (1.0 + k));
    NonNegativeProduct(CoNeeded(e, el), el.energyInputCo);
    NonNegativeProduct(H2Needed(e, el), el.energyInputH2);
  }

  lemma QuotientMonotone(a: real, b: real, m: real)
    requires a <= b && m > 0.0
    ensures a / m <= b / m
  {
  }

  /** A higher electricity price never lowers the levelized cost. */
  lemma LevelizedCostMonotoneInElectricityPrice(p: Parameters, low: real, high: real)
    requires Evaluable(p) && NonNegativeDemand(p) && low <= high
    ensures Evaluate(WithElectricityPrice(p, low)).Success? && Evaluate(WithElectricityPrice(p, high)).Success?
    ensures Evaluate(WithElectricityPrice(p, low)).value.levelizedCost
            <= Evaluate(WithElectricityPrice(p, high)).value.levelizedCost
  {
    TotalCostAffineInElectricityPrice(p, low);
    TotalCostAffineInElectricityPrice(p, high);
    ElectricityDemandNonNegative(p);
    var demand := ElectricityDemandKwh(p);
    assert low * demand <= high * demand;
    var rLow := Evaluate(WithElectricityPrice(p, low)).value;
    var rHigh := Evaluate(WithElectricityPrice(p, high)).value;
    var mj := AnnualEnergyOutput(p.economic.value);
    assert mj > 0.0;
    assert rLow.levelizedCost == rLow.totalCosts.total / mj;
    assert rHigh.levelizedCost == rHigh.totalCosts.total / mj;
    QuotientMonotone(rLow.totalCosts.total, rHigh.totalCosts.total, mj);
  }

  // ---------------------------------------------------------------------
  // Response to the plant capacity

  /** The economic group at a plant capacity of one tonne per year. */
  function UnitPlant(e: EconomicParameters): EconomicParameters
  {
    e.(plantCapacityTpy := 1.0)
  }

  /** xC is c times x. */
  predicate Scaled(c: real, x: real, xC: real)
  {
    xC == c * x
  }

  /** Two stage costs, the second c times the first. */
  predicate ScaledStage(c: real, s: StageCost, sC: StageCost)
  {
    Scaled(c, s.capexAnnual, sC.capexAnnual) && Scaled(c, s.totalAnnual, sC.totalAnnual)
  }

  lemma ProductionProportional(e: EconomicParameters, c: real)
    ensures ActualProduction(e.(plantCapacityTpy := c)) == c * ActualProduction(UnitPlant(e))
  {
  }

  /** DAC sizing and consumption are proportional to plant capacity. */
  lemma DacSizingProportional(e: EconomicParameters, d: DacCosts, c: real)
    requires e.capacityFactor != 0.0
    ensures DacCapexTotal(e.(plantCapacityTpy := c), d) == c * DacCapexTotal(UnitPlant(e), d)
    ensures ActualCo2Capture(e.(plantCapacityTpy := c), d) == c * ActualCo2Capture(UnitPlant(e), d)
    ensures DacElectricityKwh(e.(plantCapacityTpy := c), d) == c * DacElectricityKwh(UnitPlant(e), d)
  {
    var ec, e1 := e.(plantCapacityTpy := c), UnitPlant(e);
    ProductionProportional(e, c);
    assert DesignCo2Capacity(ec, d) == c * DesignCo2Capacity(e1, d);
    assert ActualCo2Capture(ec, d) == c * ActualCo2Capture(e1, d);
  }

  /** On plain numbers: the DAC running costs of a CO2 flow and an
      electricity draw both scaled by c are c times the unscaled ones. */
  lemma DacRunningTermsScale(c: real, d: DacCosts, kwh: real, co2: real, running: real,
                             kwhC: real, co2C: real, runningC: real)
    requires kwhC == c * kwh && co2C == c * co2
    requires running == kwh * d.electricityCost + (co2 * d.heatConsumption / MjPerKwh) * d.heatCost
                        + co2 * d.waterConsumption * d.waterCost
    requires runningC == kwhC * d.electricityCost + (co2C * d.heatConsumption / MjPerKwh) * d.heatCost
                         + co2C * d.waterConsumption * d.waterCost
    ensures runningC == c * running
  {
  }

  /** Every stage's CAPEX and annual cost is proportional to plant capacity. */
  lemma DacStageProportional(e: EconomicParameters, d: DacCosts, c: real)
    requires e.capacityFactor != 0.0
    ensures Scaled(c, DacCapexTotal(UnitPlant(e), d), DacCapexTotal(e.(plantCapacityTpy := c), d))
    ensures ScaledStage(c, DacStage(UnitPlant(e), d), DacStage(e.(plantCapacityTpy := c), d))
  {
    var ec, e1 := e.(plantCapacityTpy := c), UnitPlant(e);
    DacSizingProportional(e, d, c);
    var capex1, capexC := DacCapexTotal(e1, d), DacCapexTotal(ec, d);
    var running1, runningC := DacRunningCost(e1, d), DacRunningCost(ec, d);
    DacRunningTermsScale(c, d, DacElectricityKwh(e1, d), ActualCo2Capture(e1, d), running1,
                         DacElectricityKwh(ec, d), ActualCo2Capture(ec, d), runningC);
    StageScales(c, e1.crf, d.opexFixedPercent, capex1, running1, capexC, runningC);
    assert DacStage(e1, d) == Stage(capex1, e1.crf, d.opexFixedPercent, running1);
    assert DacStage(ec, d) == Stage(capexC, e1.crf, d.opexFixedPercent, runningC);
  }

  lemma ElectrolysisSizingProportional(e: EconomicParameters, el: ElectrolysisCosts, c: real)
    requires e.capacityFactor != 0.0 && 1.0 + el.coH2Ratio != 0.0
    ensures SyngasNeeded(e.(plantCapacityTpy := c), el) == c * SyngasNeeded(UnitPlant(e), el)
    ensures ElectrolysisCapexTotal(e.(plantCapacityTpy := c), el) == c * ElectrolysisCapexTotal(UnitPlant(e), el)
    ensures ElectrolysisElectricityKwh(e.(plantCapacityTpy := c), el) == c * ElectrolysisElectricityKwh(UnitPlant(e), el)
  {
    var ec, e1 := e.(plantCapacityTpy := c), UnitPlant(e);
    ProductionProportional(e, c);
    assert SyngasNeeded(ec, el) == c * SyngasNeeded(e1, el);
    assert CoNeeded(ec, el) == c * CoNeeded(e1, el);
    assert H2Needed(ec, el) == c * H2Needed(e1, el);
    assert CoPowerKw(ec, el) == c * CoPowerKw(e1, el);
    assert H2PowerKw(ec, el) == c * H2PowerKw(e1, el);
  }

  /** Scaling a stage's CAPEX and running costs by c scales both its
      annualised CAPEX and its annual cost by c. */
  lemma StageScales(c: real, crf: real, opexFixedPercent: real, capexTotal: real, running: real,
                    capexTotalC: real, runningC: real)
    requires Scaled(c, capexTotal, capexTotalC) && Scaled(c, running, runningC)
    ensures ScaledStage(c, Stage(capexTotal, crf, opexFixedPercent, running),
                        Stage(capexTotalC, crf, opexFixedPercent, runningC))
  {
  }

  /** On plain numbers: three running-cost terms whose quantities are
      scaled by c add up to c times the unscaled sum. */
  lemma RunningTermsScale(c: real, price: real, water: real, waterCost: real, catalyst: real, catalystCost: real,
                          kwh: real, syngas: real, fuel: real, running: real,
                          kwhC: real, syngasC: real, fuelC: real, runningC: real)
    requires kwhC == c * kwh && syngasC == c * syngas && fuelC == c * fuel
    requires running == kwh * price + syngas * water * waterCost + fuel * catalyst * catalystCost
    requires runningC == kwhC * price + syngasC * water * waterCost + fuelC * catalyst * catalystCost
    ensures runningC == c * running
  {
  }

  lemma ElectrolysisStageProportional(e: EconomicParameters, el: ElectrolysisCosts, c: real)
    requires e.capacityFactor != 0.0 && 1.0 + el.coH2Ratio != 0.0
    ensures ScaledStage(c, ElectrolysisStage(UnitPlant(e), el), ElectrolysisStage(e.(plantCapacityTpy := c), el))
  {
    var ec, e1 := e.(plantCapacityTpy := c), UnitPlant(e);
    ProductionProportional(e, c);
    ElectrolysisSizingProportional(e, el, c);
    var capex1, capexC := ElectrolysisCapexTotal(e1, el), ElectrolysisCapexTotal(ec, el);
    var running1, runningC := ElectrolysisRunningCost(e1, el), ElectrolysisRunningCost(ec, el);
    RunningTermsScale(c, el.electricityCost, el.waterConsumption, el.waterCost, el.catalystConsumption, el.catalystCost,
                      ElectrolysisElectricityKwh(e1, el), SyngasNeeded(e1, el), ActualProduction(e1) * KgPerTonne,
                      running1,
                      ElectrolysisElectricityKwh(ec, el), SyngasNeeded(ec, el), ActualProduction(ec) * KgPerTonne,
                      runningC);
    StageScales(c, e1.crf, el.opexFixedPercent, capex1, running1, capexC, runningC);
    assert ElectrolysisStage(e1, el) == Stage(capex1, e1.crf, el.opexFixedPercent, running1);
    assert ElectrolysisStage(ec, el) == Stage(capexC, e1.crf, el.opexFixedPercent, runningC);
  }

  /** On plain numbers: the FT running costs of a CAPEX and a fuel output
      both scaled by c are c times the unscaled ones. */
  lemma FtRunningTermsScale(c: real, f: FtSynthesisCosts, capex: real, fuel: real, running: real,
                            capexC: real, fuelC: real, runningC: real)
    requires f.catalystLifetime != 0.0
    requires capexC == c * capex && fuelC == c * fuel
    requires running == capex * f.maintenancePercent / 100.0 + capex * f.catalystCost / f.catalystLifetime
                        + (fuel * f.energyInput / MjPerKwh) * f.heatCost
                        + (fuel * f.energyInput / MjPerKwh / 2.0) * f.coolingCost
                        + fuel * f.waterConsumption * f.waterCost
    requires runningC == capexC * f.maintenancePercent / 100.0 + capexC * f.catalystCost / f.catalystLifetime
                         + (fuelC * f.energyInput / MjPerKwh) * f.heatCost
                         + (fuelC * f.energyInput / MjPerKwh / 2.0) * f.coolingCost
                         + fuelC * f.waterConsumption * f.waterCost
    ensures runningC == c * running
  {
  }

  /** FT CAPEX and running costs are proportional to plant capacity. */
  lemma FtSizingProportional(e: EconomicParameters, f: FtSynthesisCosts, c: real)
    requires f.catalystLifetime != 0.0
    ensures FtCapexTotal(e.(plantCapacityTpy := c), f) == c * FtCapexTotal(UnitPlant(e), f)
    ensures FtRunningCost(e.(plantCapacityTpy := c), f) == c * FtRunningCost(UnitPlant(e), f)
  {
    var ec, e1 := e.(plantCapacityTpy := c), UnitPlant(e);
    ProductionProportional(e, c);
    assert FtCapexTotal(ec, f) == c * FtCapexTotal(e1, f);
    FtRunningTermsScale(c, f, FtCapexTotal(e1, f), ActualProduction(e1) * KgPerTonne, FtRunningCost(e1, f),
                        FtCapexTotal(ec, f), ActualProduction(ec) * KgPerTonne, FtRunningCost(ec, f));
  }

  lemma FtSynthesisStageProportional(e: EconomicParameters, f: FtSynthesisCosts, c: real)
    requires f.catalystLifetime != 0.0
    ensures ScaledStage(c, FtSynthesisStage(UnitPlant(e), f), FtSynthesisStage(e.(plantCapacityTpy := c), f))
  {
    var ec, e1 := e.(plantCapacityTpy := c), UnitPlant(e);
    FtSizingProportional(e, f, c);
    var capex1, capexC := FtCapexTotal(e1, f), FtCapexTotal(ec, f);
    var running1, runningC := FtRunningCost(e1, f), FtRunningCost(ec, f);
    StageScales(c, e1.crf, f.opexFixedPercent, capex1, running1, capexC, runningC);
    assert FtSynthesisStage(e1, f) == Stage(capex1, e1.crf, f.opexFixedPercent, running1);
    assert FtSynthesisStage(ec, f) == Stage(capexC, e1.crf, f.opexFixedPercent, runningC);
  }

  lemma DistributionCostProportional(e: EconomicParameters, ds: DistributionCosts, c: real)
    ensures DistributionCost(e.(plantCapacityTpy := c), ds) == c * DistributionCost(UnitPlant(e), ds)
  {
    ProductionProportional(e, c);
  }

  lemma QuotientOfScaled(c: real, a: real, b: real, aC: real, bC: real)
    requires c != 0.0 && b != 0.0 && aC == c * a && bC == c * b
    ensures aC / bC == a / b
  {
  }

  /** Every stage, the distribution cost and the output at capacity c are c
      times their values for a one-tonne-per-year plant. */
  lemma ChainScales(e: EconomicParameters, d: DacCosts, el: ElectrolysisCosts, f: FtSynthesisCosts,
                    ds: DistributionCosts, c: real)
    requires e.capacityFactor != 0.0 && 1.0 + el.coH2Ratio != 0.0 && f.catalystLifetime != 0.0
    ensures ScaledStage(c, DacStage(UnitPlant(e), d), DacStage(e.(plantCapacityTpy := c), d))
    ensures ScaledStage(c, ElectrolysisStage(UnitPlant(e), el), ElectrolysisStage(e.(plantCapacityTpy := c), el))
    ensures ScaledStage(c, FtSynthesisStage(UnitPlant(e), f), FtSynthesisStage(e.(plantCapacityTpy := c), f))
    ensures Scaled(c, DistributionCost(UnitPlant(e), ds), DistributionCost(e.(plantCapacityTpy := c), ds))
    ensures Scaled(c, ActualProduction(UnitPlant(e)), ActualProduction(e.(plantCapacityTpy := c)))
  {
    DacStageProportional(e, d, c);
    ElectrolysisStageProportional(e, el, c);
    FtSynthesisStageProportional(e, f, c);
    DistributionCostProportional(e, ds, c);
    ProductionProportional(e, c);
  }

  /** On the result tables: scaling every stage cost, the distribution cost
      and the output by c scales every table total by c and leaves the
      levelized cost unchanged. */
  lemma AssembleScales(c: real, dac: StageCost, elec: StageCost, ft: StageCost, dist: real, tonnes: real,
                       dacC: StageCost, elecC: StageCost, ftC: StageCost, distC: real, tonnesC: real,
                       t: TeaResults, tC: TeaResults)
    requires c != 0.0 && tonnes != 0.0 && Scaled(c, tonnes, tonnesC) && Scaled(c, dist, distC)
    requires ScaledStage(c, dac, dacC) && ScaledStage(c, elec, elecC) && ScaledStage(c, ft, ftC)
    requires t == Assemble(dac, elec, ft, dist, tonnes) && tC == Assemble(dacC, elecC, ftC, distC, tonnesC)
    ensures Scaled(c, t.capexBreakdown.total, tC.capexBreakdown.total)
    ensures Scaled(c, t.opexBreakdown.total, tC.opexBreakdown.total)
    ensures Scaled(c, t.totalCosts.total, tC.totalCosts.total)
    ensures Scaled(c, t.annualProductionMj, tC.annualProductionMj)
    ensures tC.levelizedCost == t.levelizedCost
  {
    QuotientOfScaled(c, t.totalCosts.total, t.annualProductionMj, tC.totalCosts.total, tC.annualProductionMj);
  }

  /** Every cost the evaluation reports is linear in the plant capacity:
      at capacity c the CAPEX, OPEX and total annual cost and the energy
      output are c times their values for a one-tonne-per-year plant, and
      the levelized cost is the same at every capacity (no economies of
      scale). */
  lemma CostsProportionalToCapacity(p: Parameters, c: real)
    requires EvaluableAtSomeCapacity(p) && c != 0.0
    ensures Evaluate(WithPlantCapacity(p, c)).Success? && Evaluate(WithPlantCapacity(p, 1.0)).Success?
    ensures Scaled(c, Evaluate(WithPlantCapacity(p, 1.0)).value.capexBreakdown.total,
                   Evaluate(WithPlantCapacity(p, c)).value.capexBreakdown.total)
    ensures Scaled(c, Evaluate(WithPlantCapacity(p, 1.0)).value.opexBreakdown.total,
                   Evaluate(WithPlantCapacity(p, c)).value.opexBreakdown.total)
    ensures Scaled(c, Evaluate(WithPlantCapacity(p, 1.0)).value.totalCosts.total,
                   Evaluate(WithPlantCapacity(p, c)).value.totalCosts.total)
    ensures Scaled(c, Evaluate(WithPlantCapacity(p, 1.0)).value.annualProductionMj,
                   Evaluate(WithPlantCapacity(p, c)).value.annualProductionMj)
    ensures Evaluate(WithPlantCapacity(p, c)).value.levelizedCost
            == Evaluate(WithPlantCapacity(p, 1.0)).value.levelizedCost
  {
    EvaluableAtCapacity(p, c);
    EvaluableAtCapacity(p, 1.0);
    var e, d, el, f, ds := p.economic.value, p.dac.value, p.electrolysis.value, p.ftSynthesis.value, p.distribution.value;
    var ec, e1 := e.(plantCapacityTpy := c), UnitPlant(e);
    ChainScales(e, d, el, f, ds, c);
    assert ActualProduction(e1) == e.capacityFactor;
    assert ActualProduction(ec) != 0.0 by {
      assert c * e.capacityFactor != 0.0;
    }
    assert WithPlantCapacity(p, c) == p.(economic := Some(ec));
    assert WithPlantCapacity(p, 1.0) == p.(economic := Some(e1));
    AssembleScales(c, DacStage(e1, d), ElectrolysisStage(e1, el), FtSynthesisStage(e1, f), DistributionCost(e1, ds),
                   ActualProduction(e1),
                   DacStage(ec, d), ElectrolysisStage(ec, el), FtSynthesisStage(ec, f), DistributionCost(ec, ds),
                   ActualProduction(ec),
                   Evaluate(WithPlantCapacity(p, 1.0)).value, Evaluate(WithPlantCapacity(p, c)).value);
  }
}
