/** One steady-state evaluation of the DAC -> electrolysis -> Fischer-Tropsch
    -> distribution chain: the parameter records, the mass and energy
    balance that sizes every stage from the plant capacity, the four stage
    cost models, and the aggregation into CAPEX, OPEX and total tables and
    the levelized cost in USD/MJ. */
module CostModel {
  import opened Outcomes

  const KgPerTonne: real := 1000.0
  const MjPerKwh: real := 3.6
  const HoursPerYear: real := 8760.0
  /** MJ per kg of fuel. */
  const EnergyDensity: real := 43.0

  /** The economic parameter group; crf is derived from the first two fields
      when the group is set. */
  datatype EconomicParameters = EconomicParameters(
    discountRate: real,
    projectLifetime: nat,      // years
    capacityFactor: real,      // fraction of the year at nameplate output
    plantCapacityTpy: real,    // nameplate fuel output, t/year
    crf: real)

  /** Direct air capture. */
  datatype DacCosts = DacCosts(
    capexPerTco2: real,            // USD per (t CO2/year) of capture capacity
    opexFixedPercent: real,        // % of CAPEX per year
    electricityCost: real,         // USD/kWh
    heatCost: real,                // USD/kWh thermal
    waterCost: real,               // USD/L
    electricityConsumption: real,  // MJ/kg CO2
    heatConsumption: real,         // MJ/kg CO2
    waterConsumption: real,        // L/kg CO2
    co2CaptureRate: real)          // kg CO2 per kg fuel

  /** CO2 electrolysis to CO plus water electrolysis to H2. */
  datatype ElectrolysisCosts = ElectrolysisCosts(
    capexCoPerKw: real,            // USD/kW
    capexH2PerKw: real,            // USD/kW
    opexFixedPercent: real,        // % of CAPEX per year
    electricityCost: real,         // USD/kWh
    waterCost: real,               // USD/L
    catalystCost: real,            // USD/kg catalyst
    energyInputCo: real,           // MJ/kg CO
    energyInputH2: real,           // MJ/kg H2
    waterConsumption: real,        // L/kg syngas
    catalystConsumption: real,     // kg catalyst per kg fuel
    coH2Ratio: real,               // CO:H2 mass ratio
    syngasRequirement: real)       // kg syngas per kg fuel

  /** Fischer-Tropsch synthesis. */
  datatype FtSynthesisCosts = FtSynthesisCosts(
    capexPerTpy: real,             // USD per (t/year) of nameplate output
    opexFixedPercent: real,        // % of CAPEX per year
    catalystCost: real,            // fraction of CAPEX per catalyst charge
    heatCost: real,                // USD/kWh thermal
    coolingCost: real,             // USD/kWh cooling
    maintenancePercent: real,      // % of CAPEX per year
    energyInput: real,             // MJ/kg fuel
    catalystLifetime: real,        // years
    waterConsumption: real,        // L/kg fuel
    waterCost: real)               // USD/L

  /** Distribution; only per-tonne charges. */
  datatype DistributionCosts = DistributionCosts(
    transportDistance: real,       // km
    transportCostPerTkm: real,     // USD/(t km)
    storageCost: real,             // USD/t
    blendingCost: real)            // USD/t

  /** The five parameter groups of the engine; None is a group not yet set. */
  datatype Parameters = Parameters(
    economic: Option<EconomicParameters>,
    dac: Option<DacCosts>,
    electrolysis: Option<ElectrolysisCosts>,
    ftSynthesis: Option<FtSynthesisCosts>,
    distribution: Option<DistributionCosts>)

  /** One row of a cost table, per stage and over all stages, in USD/year. */
  datatype Breakdown = Breakdown(dac: real, electrolysis: real, ftSynthesis: real, distribution: real, total: real)

  datatype TeaResults = TeaResults(
    capexBreakdown: Breakdown,
    opexBreakdown: Breakdown,
    totalCosts: Breakdown,
    levelizedCost: real,           // USD/MJ
    annualProductionMj: real,      // MJ/year
    annualProductionTonnes: real)  // t/year

  /** What the engine holds as its latest results: nothing computed yet (a
      record whose levelized cost is 0.0), or the latest evaluation. */
  datatype StoredResults = NotComputed | Computed(tea: TeaResults)
  {
    function LevelizedCost(): real
    {
      if NotComputed? then 0.0 else tea.levelizedCost
    }
  }

  /** Annualized CAPEX and total annual cost of one stage. */
  datatype StageCost = StageCost(capexAnnual: real, totalAnnual: real)

  predicate Complete(p: Parameters)
  {
    p.economic.Some? && p.dac.Some? && p.electrolysis.Some? && p.ftSynthesis.Some? && p.distribution.Some?
  }

  /** Every divisor of the evaluation is non-zero: the capacity factor, 1 plus
      the CO:H2 ratio, the catalyst lifetime and the annual energy output. */
  predicate Evaluable(p: Parameters)
  {
    && Complete(p)
    && p.economic.value.capacityFactor != 0.0
    && 1.0 + p.electrolysis.value.coH2Ratio != 0.0
    && p.ftSynthesis.value.catalystLifetime != 0.0
    && p.economic.value.plantCapacityTpy != 0.0
  }

  /** The stage entries add up to the total entry. */
  predicate Closed(b: Breakdown)
  {
    b.total == b.dac + b.electrolysis + b.ftSynthesis + b.distribution
  }

  /** The invariants every evaluation result satisfies. */
  predicate Consistent(r: TeaResults)
  {
    && Closed(r.capexBreakdown) && Closed(r.opexBreakdown) && Closed(r.totalCosts)
    && r.capexBreakdown.distribution == 0.0
    && r.totalCosts.dac == r.capexBreakdown.dac + r.opexBreakdown.dac
    && r.totalCosts.electrolysis == r.capexBreakdown.electrolysis + r.opexBreakdown.electrolysis
    && r.totalCosts.ftSynthesis == r.capexBreakdown.ftSynthesis + r.opexBreakdown.ftSynthesis
    && r.totalCosts.distribution == r.capexBreakdown.distribution + r.opexBreakdown.distribution
    && r.capexBreakdown.total + r.opexBreakdown.total == r.totalCosts.total
    && r.annualProductionMj == r.annualProductionTonnes * KgPerTonne * EnergyDensity
    && r.levelizedCost * r.annualProductionMj == r.totalCosts.total
  }

  // ---------------------------------------------------------------------
  // Mass and energy balance

  /** Fuel actually produced, t/year: nameplate capacity times capacity factor. */
  function ActualProduction(e: EconomicParameters): real
  {
    e.plantCapacityTpy * e.capacityFactor
  }

  /** With a capacity factor between 0 and 1 the plant never produces more
      than its nameplate capacity. */
  lemma ProductionAtMostNameplate(e: EconomicParameters)
    requires 0.0 <= e.capacityFactor <= 1.0 && 0.0 <= e.plantCapacityTpy
    ensures 0.0 <= ActualProduction(e) <= e.plantCapacityTpy
  {
    FractionOf(e.plantCapacityTpy, e.capacityFactor);
    assert ActualProduction(e) == e.plantCapacityTpy * e.capacityFactor;
  }

  lemma FractionOf(x: real, f: real)
    requires 0.0 <= f <= 1.0 && 0.0 <= x
    ensures 0.0 <= x * f <= x
  {
    assert x * f <= x * 1.0;
  }

  /** Energy content of the fuel actually produced, MJ/year. */
  function AnnualEnergyOutput(e: EconomicParameters): real
  {
    ActualProduction(e) * KgPerTonne * EnergyDensity
  }

  /** CO2 capture capacity the DAC plant is built for, kg CO2/year. */
  function DesignCo2Capacity(e: EconomicParameters, d: DacCosts): real
    requires e.capacityFactor != 0.0
  {
    e.plantCapacityTpy * KgPerTonne * d.co2CaptureRate / e.capacityFactor
  }

  /** CO2 actually captured, kg CO2/year. */
  function ActualCo2Capture(e: EconomicParameters, d: DacCosts): real
  {
    ActualProduction(e) * KgPerTonne * d.co2CaptureRate
  }

  /** Syngas fed to synthesis, kg/year. */
  function SyngasNeeded(e: EconomicParameters, el: ElectrolysisCosts): real
  {
    ActualProduction(e) * KgPerTonne * el.syngasRequirement
  }

  /** The CO share of the syngas, kg/year. */
  function CoNeeded(e: EconomicParameters, el: ElectrolysisCosts): real
    requires 1.0 + el.coH2Ratio != 0.0
  {
    SyngasNeeded(e, el) * (el.coH2Ratio / (1.0 + el.coH2Ratio))
  }

  /** The H2 share of the syngas, kg/year. */
  function H2Needed(e: EconomicParameters, el: ElectrolysisCosts): real
    requires 1.0 + el.coH2Ratio != 0.0
  {
    SyngasNeeded(e, el) * (1.0 / (1.0 + el.coH2Ratio))
  }

  /** The syngas split conserves mass and honours the CO:H2 mass ratio. */
  lemma SyngasSplitConservesMass(e: EconomicParameters, el: ElectrolysisCosts)
    requires 1.0 + el.coH2Ratio != 0.0
    ensures CoNeeded(e, el) + H2Needed(e, el) == SyngasNeeded(e, el)
    ensures CoNeeded(e, el) == el.coH2Ratio * H2Needed(e, el)
  {
    var k := el.coH2Ratio;
    var s := SyngasNeeded(e, el);
    assert k / (1.0 + k) + 1.0 / (1.0 + k) == 1.0;
    assert s * (k / (1.0 + k)) + s * (1.0 / (1.0 + k)) == s * (k / (1.0 + k) + 1.0 / (1.0 + k));
    assert k / (1.0 + k) == k * (1.0 / (1.0 + k));
  }

  /** The DAC plant is sized on nameplate output divided by the capacity
      factor, while the CO2 it captures follows nameplate output times the
      capacity factor: capacity and throughput differ by a factor cf^2. */
  lemma DacDesignVersusActual(e: EconomicParameters, d: DacCosts)
    requires e.capacityFactor != 0.0
    ensures DesignCo2Capacity(e, d) * e.capacityFactor * e.capacityFactor == ActualCo2Capture(e, d)
  {
    var cf := e.capacityFactor;
    var base := e.plantCapacityTpy * KgPerTonne * d.co2CaptureRate;
    assert DesignCo2Capacity(e, d) * cf == base;
    assert ActualCo2Capture(e, d) == base * cf;
  }

  // ---------------------------------------------------------------------
  // Stage cost models

  /** A stage's annualised CAPEX and its total annual cost: the annualised
      CAPEX, fixed O&M as a percentage of CAPEX, and the running costs. */
  function Stage(capexTotal: real, crf: real, opexFixedPercent: real, running: real): StageCost
  {
    var capexAnnual := capexTotal * crf;
    StageCost(capexAnnual, capexAnnual + capexTotal * opexFixedPercent / 100.0 + running)
  }

  /** DAC CAPEX, USD: capture capacity in t CO2/year times the unit cost. */
  function DacCapexTotal(e: EconomicParameters, d: DacCosts): real
    requires e.capacityFactor != 0.0
  {
    DesignCo2Capacity(e, d) / KgPerTonne * d.capexPerTco2
  }

  /** Electricity drawn by DAC, kWh/year. */
  function DacElectricityKwh(e: EconomicParameters, d: DacCosts): real
  {
    ActualCo2Capture(e, d) * d.electricityConsumption / MjPerKwh
  }

  /** Electricity, heat and water bought by DAC, USD/year. */
  function DacRunningCost(e: EconomicParameters, d: DacCosts): real
  {
    var co2 := ActualCo2Capture(e, d);
    var electricity := DacElectricityKwh(e, d) * d.electricityCost;
    var heat := (co2 * d.heatConsumption / MjPerKwh) * d.heatCost;
    var water := co2 * d.waterConsumption * d.waterCost;
    electricity + heat + water
  }

  /** Electricity, heat and water bought per kilogram of CO2 captured, USD/kg. */
  function DacUnitRunningCost(d: DacCosts): real
  {
    d.electricityConsumption / MjPerKwh * d.electricityCost + d.heatConsumption / MjPerKwh * d.heatCost
    + d.waterConsumption * d.waterCost
  }

  function DacStage(e: EconomicParameters, d: DacCosts): StageCost
    requires e.capacityFactor != 0.0
  {
    Stage(DacCapexTotal(e, d), e.crf, d.opexFixedPercent, DacRunningCost(e, d))
  }

  /** Power of the CO electrolyser, kW: annual energy spread over the hours
      the plant runs. */
  function CoPowerKw(e: EconomicParameters, el: ElectrolysisCosts): real
    requires e.capacityFactor != 0.0 && 1.0 + el.coH2Ratio != 0.0
  {
    CoNeeded(e, el) * el.energyInputCo / MjPerKwh / HoursPerYear / e.capacityFactor
  }

  /** Power of the water electrolyser, kW. */
  function H2PowerKw(e: EconomicParameters, el: ElectrolysisCosts): real
    requires e.capacityFactor != 0.0 && 1.0 + el.coH2Ratio != 0.0
  {
    H2Needed(e, el) * el.energyInputH2 / MjPerKwh / HoursPerYear / e.capacityFactor
  }

  /** An electrolyser of the computed power, running a capacity-factor share
      of the year, delivers exactly the energy its product needs. */
  lemma ElectrolyserPowerDeliversEnergy(e: EconomicParameters, el: ElectrolysisCosts)
    requires e.capacityFactor != 0.0 && 1.0 + el.coH2Ratio != 0.0
    ensures CoPowerKw(e, el) * e.capacityFactor * HoursPerYear * MjPerKwh == CoNeeded(e, el) * el.energyInputCo
    ensures H2PowerKw(e, el) * e.capacityFactor * HoursPerYear * MjPerKwh == H2Needed(e, el) * el.energyInputH2
  {
  }

  /** Electrolysis CAPEX, USD. */
  function ElectrolysisCapexTotal(e: EconomicParameters, el: ElectrolysisCosts): real
    requires e.capacityFactor != 0.0 && 1.0 + el.coH2Ratio != 0.0
  {
    CoPowerKw(e, el) * el.capexCoPerKw + H2PowerKw(e, el) * el.capexH2PerKw
  }

  /** Electricity drawn by both electrolysers, kWh/year. */
  function ElectrolysisElectricityKwh(e: EconomicParameters, el: ElectrolysisCosts): real
    requires 1.0 + el.coH2Ratio != 0.0
  {
    (CoNeeded(e, el) * el.energyInputCo + H2Needed(e, el) * el.energyInputH2) / MjPerKwh
  }

  /** Electricity, water and catalyst bought by electrolysis, USD/year. */
  function ElectrolysisRunningCost(e: EconomicParameters, el: ElectrolysisCosts): real
    requires 1.0 + el.coH2Ratio != 0.0
  {
    var electricity := ElectrolysisElectricityKwh(e, el) * el.electricityCost;
    var water := SyngasNeeded(e, el) * el.waterConsumption * el.waterCost;
    var catalyst := ActualProduction(e) * KgPerTonne * el.catalystConsumption * el.catalystCost;
    electricity + water + catalyst
  }

  function ElectrolysisStage(e: EconomicParameters, el: ElectrolysisCosts): StageCost
    requires e.capacityFactor != 0.0 && 1.0 + el.coH2Ratio != 0.0
  {
    Stage(ElectrolysisCapexTotal(e, el), e.crf, el.opexFixedPercent, ElectrolysisRunningCost(e, el))
  }

  /** Fischer-Tropsch CAPEX, USD: sized on nameplate output. */
  function FtCapexTotal(e: EconomicParameters, f: FtSynthesisCosts): real
  {
    e.plantCapacityTpy * f.capexPerTpy
  }

  /** Maintenance, catalyst replacement, heat, cooling and water of the
      Fischer-Tropsch stage, USD/year. */
  function FtRunningCost(e: EconomicParameters, f: FtSynthesisCosts): real
    requires f.catalystLifetime != 0.0
  {
    var capexTotal := FtCapexTotal(e, f);
    var maintenance := capexTotal * f.maintenancePercent / 100.0;
    var catalyst := capexTotal * f.catalystCost / f.catalystLifetime;
    var fuel := ActualProduction(e) * KgPerTonne;
    var heat := (fuel * f.energyInput / MjPerKwh) * f.heatCost;
    var cooling := (fuel * f.energyInput / MjPerKwh / 2.0) * f.coolingCost;
    var water := fuel * f.waterConsumption * f.waterCost;
    maintenance + catalyst + heat + cooling + water
  }

  /** Heat, cooling (half the heating energy) and water bought per kilogram
      of fuel by the Fischer-Tropsch stage, USD/kg. */
  function FtUnitRunningCost(f: FtSynthesisCosts): real
  {
    f.energyInput / MjPerKwh * (f.heatCost + f.coolingCost / 2.0) + f.waterConsumption * f.waterCost
  }

  function FtSynthesisStage(e: EconomicParameters, f: FtSynthesisCosts): StageCost
    requires f.catalystLifetime != 0.0
  {
    Stage(FtCapexTotal(e, f), e.crf, f.opexFixedPercent, FtRunningCost(e, f))
  }

  /** Distribution has no CAPEX; its annual cost is per tonne actually produced. */
  function DistributionCost(e: EconomicParameters, ds: DistributionCosts): real
  {
    var actual := ActualProduction(e);
    actual * ds.transportDistance * ds.transportCostPerTkm + actual * ds.storageCost + actual * ds.blendingCost
  }

  /** The DAC stage: its CAPEX is sized on the design capacity (nameplate
      output over the capacity factor) and annualised with the capital
      recovery factor; its OPEX is fixed O&M on the CAPEX plus the unit
      running cost of every kilogram of CO2 actually captured. */
  lemma DacStageCosts(e: EconomicParameters, d: DacCosts)
    requires e.capacityFactor != 0.0
    ensures DacStage(e, d).capexAnnual * e.capacityFactor
            == e.plantCapacityTpy * d.co2CaptureRate * d.capexPerTco2 * e.crf
    ensures DacStage(e, d).totalAnnual - DacStage(e, d).capexAnnual
            == DacCapexTotal(e, d) * d.opexFixedPercent / 100.0 + ActualCo2Capture(e, d) * DacUnitRunningCost(d)
  {
    var cf, co2 := e.capacityFactor, ActualCo2Capture(e, d);
    assert DesignCo2Capacity(e, d) * cf == e.plantCapacityTpy * KgPerTonne * d.co2CaptureRate;
    assert DacCapexTotal(e, d) * cf == e.plantCapacityTpy * d.co2CaptureRate * d.capexPerTco2;
    DistributeThree(co2, d.electricityConsumption / MjPerKwh * d.electricityCost,
                    d.heatConsumption / MjPerKwh * d.heatCost, d.waterConsumption * d.waterCost);
  }

  /** The electrolysis stage: CAPEX is the rated power of both electrolysers
      at their unit costs, annualised; OPEX is fixed O&M plus the
      electricity, water and catalyst bought. The electrolysers are sized to
      deliver their product's energy in the capacity-factor share of the
      year, so their rated power over the operating hours draws exactly the
      electricity the running cost pays for. */
  lemma ElectrolysisStageCosts(e: EconomicParameters, el: ElectrolysisCosts)
    requires e.capacityFactor != 0.0 && 1.0 + el.coH2Ratio != 0.0
    ensures ElectrolysisStage(e, el).capexAnnual
            == (CoPowerKw(e, el) * el.capexCoPerKw + H2PowerKw(e, el) * el.capexH2PerKw) * e.crf
    ensures ElectrolysisStage(e, el).totalAnnual - ElectrolysisStage(e, el).capexAnnual
            == ElectrolysisCapexTotal(e, el) * el.opexFixedPercent / 100.0
               + ElectrolysisElectricityKwh(e, el) * el.electricityCost
               + SyngasNeeded(e, el) * el.waterConsumption * el.waterCost
               + ActualProduction(e) * KgPerTonne * el.catalystConsumption * el.catalystCost
    ensures (CoPowerKw(e, el) + H2PowerKw(e, el)) * e.capacityFactor * HoursPerYear == ElectrolysisElectricityKwh(e, el)
  {
    ElectrolysisEnergyBalance(e, el);
  }

  lemma ElectrolysisEnergyBalance(e: EconomicParameters, el: ElectrolysisCosts)
    requires e.capacityFactor != 0.0 && 1.0 + el.coH2Ratio != 0.0
    ensures (CoPowerKw(e, el) + H2PowerKw(e, el)) * e.capacityFactor * HoursPerYear == ElectrolysisElectricityKwh(e, el)
  {
    ElectrolyserPowerDeliversEnergy(e, el);
    var k := e.capacityFactor * HoursPerYear;
    var co, h2 := CoPowerKw(e, el), H2PowerKw(e, el);
    var coMj, h2Mj := CoNeeded(e, el) * el.energyInputCo, H2Needed(e, el) * el.energyInputH2;
    assert co * k * MjPerKwh == coMj && h2 * k * MjPerKwh == h2Mj;
    assert (co + h2) * k * MjPerKwh == coMj + h2Mj;
    assert ElectrolysisElectricityKwh(e, el) == (coMj + h2Mj) / MjPerKwh;
  }


  /** The Fischer-Tropsch stage: CAPEX is sized on nameplate output; OPEX is
      fixed O&M and maintenance as percentages of CAPEX, catalyst replaced
      over its lifetime, and the unit running cost of every kilogram of fuel
      actually produced. */
  lemma FtSynthesisStageCosts(e: EconomicParameters, f: FtSynthesisCosts)
    requires f.catalystLifetime != 0.0
    ensures FtSynthesisStage(e, f).capexAnnual == e.plantCapacityTpy * f.capexPerTpy * e.crf
    ensures FtSynthesisStage(e, f).totalAnnual - FtSynthesisStage(e, f).capexAnnual
            == FtCapexTotal(e, f) * (f.opexFixedPercent + f.maintenancePercent) / 100.0
               + FtCapexTotal(e, f) * f.catalystCost / f.catalystLifetime
               + ActualProduction(e) * KgPerTonne * FtUnitRunningCost(f)
  {
    var fuel := ActualProduction(e) * KgPerTonne;
    var heat := f.energyInput / MjPerKwh * f.heatCost;
    var cooling := f.energyInput / MjPerKwh * (f.coolingCost / 2.0);
    assert (fuel * f.energyInput / MjPerKwh) * f.heatCost == fuel * heat;
    assert (fuel * f.energyInput / MjPerKwh / 2.0) * f.coolingCost == fuel * cooling;
    assert fuel * f.waterConsumption * f.waterCost == fuel * (f.waterConsumption * f.waterCost);
    DistributeThree(fuel, heat, cooling, f.waterConsumption * f.waterCost);
  }

  /** Distribution costs a fixed amount per tonne actually produced. */
  lemma DistributionCostPerTonne(e: EconomicParameters, ds: DistributionCosts)
    ensures DistributionCost(e, ds)
            == ActualProduction(e) * (ds.transportDistance * ds.transportCostPerTkm + ds.storageCost + ds.blendingCost)
  {
    DistributeThree(ActualProduction(e), ds.transportDistance * ds.transportCostPerTkm, ds.storageCost, ds.blendingCost);
    assert ActualProduction(e) * ds.transportDistance * ds.transportCostPerTkm
           == ActualProduction(e) * (ds.transportDistance * ds.transportCostPerTkm);
  }

  lemma DistributeThree(x: real, a: real, b: real, c: real)
    ensures x * a + x * b + x * c == x * (a + b + c)
  {
  }

  // ---------------------------------------------------------------------
  // Aggregation

  /** One evaluation of the whole chain. It fails with MissingData when a
      parameter group is missing and with DivisionByZero when a divisor is
      zero; otherwise the result satisfies every table invariant. */
  function Evaluate(p: Parameters): (r: Result<TeaResults>)
    ensures r.Success? <==> Evaluable(p)
    ensures r.Failure? ==> r.error == (if Complete(p) then DivisionByZero else MissingData)
    ensures r.Success? ==> Consistent(r.value)
    ensures r.Success? ==>
      && r.value.annualProductionTonnes == ActualProduction(p.economic.value)
      && r.value.capexBreakdown.dac == DacStage(p.economic.value, p.dac.value).capexAnnual
      && r.value.capexBreakdown.electrolysis == ElectrolysisStage(p.economic.value, p.electrolysis.value).capexAnnual
      && r.value.capexBreakdown.ftSynthesis == FtSynthesisStage(p.economic.value, p.ftSynthesis.value).capexAnnual
      && r.value.totalCosts.dac == DacStage(p.economic.value, p.dac.value).totalAnnual
      && r.value.totalCosts.electrolysis == ElectrolysisStage(p.economic.value, p.electrolysis.value).totalAnnual
      && r.value.totalCosts.ftSynthesis == FtSynthesisStage(p.economic.value, p.ftSynthesis.value).totalAnnual
      && r.value.totalCosts.distribution == DistributionCost(p.economic.value, p.distribution.value)
  {
    if !Complete(p) then Failure(MissingData)
    else if !Evaluable(p) then Failure(DivisionByZero)
    else
      var e := p.economic.value;
      var dac := DacStage(e, p.dac.value);
      var elec := ElectrolysisStage(e, p.electrolysis.value);
      var ft := FtSynthesisStage(e, p.ftSynthesis.value);
      var dist := DistributionCost(e, p.distribution.value);
      assert ActualProduction(e) != 0.0 by {
        assert e.plantCapacityTpy * e.capacityFactor != 0.0;
      }
      Success(Assemble(dac, elec, ft, dist, ActualProduction(e)))
  }

  /** The result tables of one evaluation from the three stage costs, the
      distribution cost and the tonnes produced: per stage, OPEX is the total
      cost less the annualised CAPEX; the levelized cost spreads the total
      over the energy produced. */
  function Assemble(dac: StageCost, elec: StageCost, ft: StageCost, dist: real, tonnes: real): (t: TeaResults)
    requires tonnes != 0.0
    ensures Consistent(t)
    ensures t.annualProductionTonnes == tonnes
    ensures t.capexBreakdown.dac == dac.capexAnnual && t.capexBreakdown.electrolysis == elec.capexAnnual
    ensures t.capexBreakdown.ftSynthesis == ft.capexAnnual
    ensures t.totalCosts.dac == dac.totalAnnual && t.totalCosts.electrolysis == elec.totalAnnual
    ensures t.totalCosts.ftSynthesis == ft.totalAnnual && t.totalCosts.distribution == dist
  {
    var total := dac.totalAnnual + elec.totalAnnual + ft.totalAnnual + dist;
    var mj := tonnes * KgPerTonne * EnergyDensity;
    TeaResults(
      Breakdown(dac.capexAnnual, elec.capexAnnual, ft.capexAnnual, 0.0,
                dac.capexAnnual + elec.capexAnnual + ft.capexAnnual),
      Breakdown(dac.totalAnnual - dac.capexAnnual, elec.totalAnnual - elec.capexAnnual,
                ft.totalAnnual - ft.capexAnnual, dist,
                (dac.totalAnnual - dac.capexAnnual) + (elec.totalAnnual - elec.capexAnnual)
                + (ft.totalAnnual - ft.capexAnnual) + dist),
      Breakdown(dac.totalAnnual, elec.totalAnnual, ft.totalAnnual, dist, total),
      total / mj,
      mj,
      tonnes)
  }
}
