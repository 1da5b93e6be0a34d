/** The engine object: five parameter groups that the setters fill in, the
    latest results, and the analyses that read and rewrite them. */
module TeaEngine {
  import opened Outcomes
  import opened CapitalRecovery
  import opened CostModel
  import opened Sensitivity
  import opened Sweeps
  import opened Breakeven

  class TeaModel {
    var economicParameters: Option<EconomicParameters>
    var dacCostData: Option<DacCosts>
    var electrolysisCostData: Option<ElectrolysisCosts>
    var ftSynthesisCostData: Option<FtSynthesisCosts>
    var distributionCostData: Option<DistributionCosts>
    var results: StoredResults

    /** The parameter groups as one value. */
    function Params(): Parameters
      reads this
    {
      Parameters(economicParameters, dacCostData, electrolysisCostData, ftSynthesisCostData, distributionCostData)
    }

    /** A fresh engine: no group set, no results. */
    constructor()
      ensures Params() == Parameters(None, None, None, None, None)
      ensures results == NotComputed
    {
      economicParameters := None;
      dacCostData := None;
      electrolysisCostData := None;
      ftSynthesisCostData := None;
      distributionCostData := None;
      results := NotComputed;
    }

    /** Sets the economic group together with its capital recovery factor.
        When the factor divides by zero the group is left as it was. */
    method SetEconomicParameters(discountRate: real := 0.08, projectLifetime: nat := 20,
                                 capacityFactor: real := 0.9, plantCapacityTpy: real := 100000.0)
      returns (error: Option<TeaError>)
      modifies this
      ensures var crf := CapitalRecoveryFactor(discountRate, projectLifetime);
        if crf.Success? then
          && error == None
          && Params() == old(Params()).(economic := Some(EconomicParameters(discountRate, projectLifetime,
                                                                          capacityFactor, plantCapacityTpy, crf.value)))
        else
          error == Some(crf.error) && Params() == old(Params())
      ensures results == old(results)
    {
      var crf := CapitalRecoveryFactor(discountRate, projectLifetime);
      if crf.Failure? {
        return Some(crf.error);
      }
      economicParameters := Some(EconomicParameters(discountRate, projectLifetime, capacityFactor,
                                                    plantCapacityTpy, crf.value));
      error := None;
    }

    method SetDacCosts(capexPerTco2: real := 4000.0, opexFixedPercent: real := 4.0,
                       electricityCost: real := 0.05, heatCost: real := 0.03, waterCost: real := 0.001,
                       electricityConsumption: real := 20.0, heatConsumption: real := 5.0,
                       waterConsumption: real := 5.0, co2CaptureRate: real := 3.1)
      modifies this
      ensures Params() == old(Params()).(dac := Some(DacCosts(capexPerTco2, opexFixedPercent,
        electricityCost, heatCost, waterCost, electricityConsumption, heatConsumption,
        waterConsumption, co2CaptureRate)))
      ensures results == old(results)
    {
      dacCostData := Some(DacCosts(capexPerTco2, opexFixedPercent, electricityCost, heatCost, waterCost,
                                   electricityConsumption, heatConsumption, waterConsumption, co2CaptureRate));
    }

    method SetElectrolysisCosts(capexCoPerKw: real := 3000.0, capexH2PerKw: real := 1500.0,
                                opexFixedPercent: real := 5.0, electricityCost: real := 0.05,
                                waterCost: real := 0.001, catalystCost: real := 0.02,
                                energyInputCo: real := 28.0, energyInputH2: real := 55.0,
                                waterConsumption: real := 20.0, catalystConsumption: real := 0.1,
                                coH2Ratio: real := 0.923, syngasRequirement: real := 2.13)
      modifies this
      ensures Params() == old(Params()).(electrolysis := Some(ElectrolysisCosts(capexCoPerKw, capexH2PerKw,
        opexFixedPercent, electricityCost, waterCost, catalystCost, energyInputCo, energyInputH2,
        waterConsumption, catalystConsumption, coH2Ratio, syngasRequirement)))
      ensures results == old(results)
    {
      electrolysisCostData := Some(ElectrolysisCosts(capexCoPerKw, capexH2PerKw, opexFixedPercent,
        electricityCost, waterCost, catalystCost, energyInputCo, energyInputH2, waterConsumption,
        catalystConsumption, coH2Ratio, syngasRequirement));
    }

    method SetFtSynthesisCosts(capexPerTpy: real := 15000.0, opexFixedPercent: real := 6.0,
                               catalystCost: real := 0.05, heatCost: real := 0.03, coolingCost: real := 0.02,
                               maintenancePercent: real := 2.0, energyInput: real := 25.0,
                               catalystLifetime: real := 2.0, waterConsumption: real := 5.0,
                               waterCost: real := 0.001)
      modifies this
      ensures Params() == old(Params()).(ftSynthesis := Some(FtSynthesisCosts(capexPerTpy, opexFixedPercent,
        catalystCost, heatCost, coolingCost, maintenancePercent, energyInput, catalystLifetime,
        waterConsumption, waterCost)))
      ensures results == old(results)
    {
      ftSynthesisCostData := Some(FtSynthesisCosts(capexPerTpy, opexFixedPercent, catalystCost, heatCost,
        coolingCost, maintenancePercent, energyInput, catalystLifetime, waterConsumption, waterCost));
    }

    method SetDistributionCosts(transportDistance: real := 500.0, transportCostPerTkm: real := 0.15,
                                storageCost: real := 50.0, blendingCost: real := 20.0)
      modifies this
      ensures Params() == old(Params()).(distribution := Some(DistributionCosts(transportDistance,
        transportCostPerTkm, storageCost, blendingCost)))
      ensures results == old(results)
    {
      distributionCostData := Some(DistributionCosts(transportDistance, transportCostPerTkm, storageCost, blendingCost));
    }

    /** Evaluates the chain on the current groups. Success replaces the
        stored results as a whole; a failure leaves them as they were. */
    method CalculateTea() returns (r: Result<TeaResults>)
      modifies this
      ensures r == Evaluate(old(Params()))
      ensures r.Success? <==> Evaluable(old(Params()))
      ensures Params() == old(Params())
      ensures results == if r.Success? then Computed(r.value) else old(results)
    {
      r := Evaluate(Params());
      if r.Success? {
        results := Computed(r.value);
      }
    }

    /** Writes one price into the electricity cost of both the DAC and the
        electrolysis group; a group not set stays unset. */
    method SetElectricityPrices(dacPrice: real, electrolysisPrice: real)
      modifies this
      ensures Params() == WithElectricityPrices(old(Params()), dacPrice, electrolysisPrice)
      ensures results == old(results)
    {
      if dacCostData.Some? {
        dacCostData := Some(dacCostData.value.(electricityCost := dacPrice));
      }
      if electrolysisCostData.Some? {
        electrolysisCostData := Some(electrolysisCostData.value.(electricityCost := electrolysisPrice));
      }
    }

    /** Runs the chain once per electricity price (the default list when
        none is given), restores both original prices, evaluates once more
        and returns one row per price. */
    method AnalyzeElectricityPriceSensitivity(electricityPrices: Option<seq<real>> := None)
      returns (table: Result<seq<ElectricityRow>>)
      modifies this
      ensures var o := ElectricitySweep(old(Params()), old(results),
                                        if electricityPrices.Some? then electricityPrices.value else DefaultElectricityPrices);
        Params() == o.params && results == o.stored && table == o.result
    {
      var prices := if electricityPrices.Some? then electricityPrices.value else DefaultElectricityPrices;
      ghost var p0, s0 := Params(), results;
      var originalDacPrice := if dacCostData.Some? then dacCostData.value.electricityCost else FallbackElectricityPrice;
      var originalElectrolysisPrice :=
        if electrolysisCostData.Some? then electrolysisCostData.value.electricityCost else FallbackElectricityPrice;
      var samples: seq<Sample> := [];
      var i := 0;
      while i < |prices|
        invariant 0 <= i <= |prices|
        invariant SweepLoop(ElectricityPrice, p0, s0, prices[..i]) == LoopState(Params(), results, samples, None)
      {
        var price := prices[i];
        LoopStep(ElectricityPrice, p0, s0, prices, i, Params(), results, samples);
        SetElectricityPrices(price, price);
        var r := CalculateTea();
        if r.Failure? {
          FailureEndsLoop(ElectricityPrice, p0, s0, prices, i + 1);
          SweepAfterFailure(ElectricityPrice, p0, s0, prices);
          return Failure(r.error);
        }
        samples := samples + [Sample(price, r.value)];
        i := i + 1;
      }
      assert prices[..i] == prices;
      SweepAfterLoop(ElectricityPrice, p0, s0, prices, Params(), results, samples);
      SetElectricityPrices(originalDacPrice, originalElectrolysisPrice);
      var r := CalculateTea();
      if r.Failure? {
        return Failure(r.error);
      }
      table := ElectricityTable(samples);
    }

    /** Writes a plant capacity into the economic group; a group not set
        stays unset. */
    method SetPlantCapacity(capacity: real)
      modifies this
      ensures Params() == WithPlantCapacity(old(Params()), capacity)
      ensures results == old(results)
    {
      if economicParameters.Some? {
        economicParameters := Some(economicParameters.value.(plantCapacityTpy := capacity));
      }
    }

    /** Runs the chain once per plant capacity (the default list when none
        is given), restores the original capacity, evaluates once more and
        returns one row per capacity. */
    method AnalyzeScaleSensitivity(plantCapacities: Option<seq<real>> := None)
      returns (table: Result<seq<ScaleRow>>)
      modifies this
      ensures var o := ScaleSweep(old(Params()), old(results),
                                  if plantCapacities.Some? then plantCapacities.value else DefaultPlantCapacities);
        Params() == o.params && results == o.stored && table == o.result
    {
      var capacities := if plantCapacities.Some? then plantCapacities.value else DefaultPlantCapacities;
      ghost var p0, s0 := Params(), results;
      var originalCapacity :=
        if economicParameters.Some? then economicParameters.value.plantCapacityTpy else FallbackPlantCapacity;
      var samples: seq<Sample> := [];
      var i := 0;
      while i < |capacities|
        invariant 0 <= i <= |capacities|
        invariant SweepLoop(PlantCapacity, p0, s0, capacities[..i]) == LoopState(Params(), results, samples, None)
      {
        var capacity := capacities[i];
        LoopStep(PlantCapacity, p0, s0, capacities, i, Params(), results, samples);
        SetPlantCapacity(capacity);
        var r := CalculateTea();
        if r.Failure? {
          FailureEndsLoop(PlantCapacity, p0, s0, capacities, i + 1);
          SweepAfterFailure(PlantCapacity, p0, s0, capacities);
          return Failure(r.error);
        }
        samples := samples + [Sample(capacity, r.value)];
        i := i + 1;
      }
      assert capacities[..i] == capacities;
      SweepAfterLoop(PlantCapacity, p0, s0, capacities, Params(), results, samples);
      SetPlantCapacity(originalCapacity);
      var r := CalculateTea();
      if r.Failure? {
        return Failure(r.error);
      }
      table := ScaleTable(samples);
    }

    /** The break-even analysis of the stored levelized cost; when none is
        stored (or it is exactly zero) the chain is evaluated first, and a
        failure of that evaluation is returned. */
    method CalculateBreakevenFuelPrice(conventionalFuelPrice: real := 1.0)
      returns (b: Result<BreakevenResults>)
      modifies this
      ensures Params() == old(Params())
      ensures old(results).LevelizedCost() != 0.0 ==>
        results == old(results) && b == BreakevenFuelPrice(old(results).LevelizedCost(), conventionalFuelPrice)
      ensures old(results).LevelizedCost() == 0.0 ==>
        var r := Evaluate(old(Params()));
        && results == (if r.Success? then Computed(r.value) else old(results))
        && b == (if r.Success? then BreakevenFuelPrice(r.value.levelizedCost, conventionalFuelPrice) else Failure(r.error))
    {
      if results.LevelizedCost() == 0.0 {
        var r := CalculateTea();
        if r.Failure? {
          return Failure(r.error);
        }
      }
      b := BreakevenFuelPrice(results.LevelizedCost(), conventionalFuelPrice);
    }
  }
}
