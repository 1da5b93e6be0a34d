/** Break-even of eSAF against conventional jet fuel: the levelized cost
    (USD/MJ) converted to USD per litre, the premium over the conventional
    price, and the carbon tax that would close the gap. */
module Breakeven {
  import opened Outcomes
  import opened CapitalRecovery
  import opened CostModel

  const FuelDensity: real := 0.8           // kg/L
  const EmissionDifference: real := 89.0   // g CO2e/MJ avoided by eSAF

  /** Energy in one litre of fuel, MJ/L. */
  const MjPerLitre: real := EnergyDensity * FuelDensity

  /** CO2e avoided per litre of fuel, kg/L. */
  const EmissionPerLitre: real := EmissionDifference / 1000.0 * EnergyDensity * FuelDensity

  datatype BreakevenResults = BreakevenResults(
    esafCostUsdPerLiter: real,
    conventionalFuelPrice: real,
    pricePremium: real,          // USD/L
    pricePremiumPercent: real,
    requiredCarbonTax: real,     // USD per tonne CO2e
    emissionDifference: real)    // g CO2e/MJ

  /** The carbon tax, in USD per tonne CO2e, that the engine reports, as
      written: the per-litre premium divided by the avoided emissions per
      kilogram of fuel (kg CO2e/kg), with no litre-to-kilogram conversion
      and no kilogram-to-tonne conversion. */
  function RequiredCarbonTaxAsWritten(pricePremium: real): (tax: real)
    ensures tax * (EmissionDifference / 1000.0 * EnergyDensity) == pricePremium
  {
    pricePremium / (EmissionDifference / 1000.0 * EnergyDensity)
  }

  /** The carbon tax, in USD per tonne CO2e, at which the avoided emissions
      of one litre pay exactly the per-litre premium. */
  function RequiredCarbonTax(pricePremium: real): (tax: real)
    ensures tax * EmissionPerLitre == pricePremium * 1000.0
  {
    pricePremium * 1000.0 / EmissionPerLitre
  }

  /** The per-litre cost of eSAF once a carbon tax (USD per tonne CO2e) is
      credited for the emissions it avoids, as the dashboard plots it. */
  function EffectiveCostPerLitre(esafCostPerLitre: real, carbonTax: real): real
  {
    esafCostPerLitre - carbonTax * EmissionPerLitre / 1000.0
  }

  /** The break-even analysis of a levelized cost against a conventional
      fuel price; a zero conventional price makes the percentage a
      division by zero. */
  function BreakevenFuelPrice(levelizedCost: real, conventionalFuelPrice: real): (b: Result<BreakevenResults>)
    ensures b.Failure? <==> conventionalFuelPrice == 0.0
    ensures b.Failure? ==> b.error == DivisionByZero
    ensures b.Success? ==>
      && b.value.esafCostUsdPerLiter == levelizedCost * MjPerLitre
      && b.value.conventionalFuelPrice == conventionalFuelPrice
      && b.value.pricePremium + conventionalFuelPrice == b.value.esafCostUsdPerLiter
      && b.value.pricePremiumPercent * conventionalFuelPrice == b.value.pricePremium * 100.0
      && b.value.requiredCarbonTax * EmissionPerLitre == b.value.pricePremium * 1000.0
      && b.value.emissionDifference == EmissionDifference
  {
    if conventionalFuelPrice == 0.0 then Failure(DivisionByZero)
    else
      var esafCost := levelizedCost * EnergyDensity * FuelDensity;
      var premium := esafCost - conventionalFuelPrice;
      Success(BreakevenResults(esafCost, conventionalFuelPrice, premium,
                               premium / conventionalFuelPrice * 100.0,
                               RequiredCarbonTax(premium), EmissionDifference))
  }

  /** At the reported carbon tax the effective eSAF cost per litre equals
      the conventional fuel price. */
  lemma CarbonTaxClosesGap(levelizedCost: real, conventionalFuelPrice: real)
    requires conventionalFuelPrice != 0.0
    ensures BreakevenFuelPrice(levelizedCost, conventionalFuelPrice).Success?
    ensures var b := BreakevenFuelPrice(levelizedCost, conventionalFuelPrice).value;
      EffectiveCostPerLitre(b.esafCostUsdPerLiter, b.requiredCarbonTax) == conventionalFuelPrice
  {
    var b := BreakevenFuelPrice(levelizedCost, conventionalFuelPrice).value;
    TaxCredit(b.requiredCarbonTax, b.pricePremium);
  }

  lemma TaxCredit(tax: real, premium: real)
    requires tax * EmissionPerLitre == premium * 1000.0
    ensures tax * EmissionPerLitre / 1000.0 == premium
  {
  }

  /** A cost per litre equal to the conventional price has no premium, a
      zero percentage and needs no carbon tax. */
  lemma {:induction false} NoPremiumAtParity(levelizedCost: real, conventionalFuelPrice: real)
    requires conventionalFuelPrice != 0.0 && levelizedCost * MjPerLitre == conventionalFuelPrice
    ensures BreakevenFuelPrice(levelizedCost, conventionalFuelPrice).Success?
    ensures var b := BreakevenFuelPrice(levelizedCost, conventionalFuelPrice).value;
      b.pricePremium == 0.0 && b.pricePremiumPercent == 0.0 && b.requiredCarbonTax == 0.0
  {
    var b := BreakevenFuelPrice(levelizedCost, conventionalFuelPrice).value;
    assert b.pricePremium == 0.0;
    ZeroFactor(b.pricePremiumPercent, conventionalFuelPrice);
    ZeroFactor(b.requiredCarbonTax, EmissionPerLitre);
  }

  /** A dearer eSAF needs a larger premium and a larger carbon tax. */
  lemma {:induction false} TaxMonotoneInCost(cost1: real, cost2: real, conventionalFuelPrice: real)
    requires conventionalFuelPrice != 0.0 && cost1 <= cost2
    ensures BreakevenFuelPrice(cost1, conventionalFuelPrice).Success?
    ensures BreakevenFuelPrice(cost2, conventionalFuelPrice).Success?
    ensures BreakevenFuelPrice(cost1, conventionalFuelPrice).value.pricePremium
            <= BreakevenFuelPrice(cost2, conventionalFuelPrice).value.pricePremium
    ensures BreakevenFuelPrice(cost1, conventionalFuelPrice).value.requiredCarbonTax
            <= BreakevenFuelPrice(cost2, conventionalFuelPrice).value.requiredCarbonTax
  {
    var b1 := BreakevenFuelPrice(cost1, conventionalFuelPrice).value;
    var b2 := BreakevenFuelPrice(cost2, conventionalFuelPrice).value;
    assert cost1 * MjPerLitre <= cost2 * MjPerLitre;
    AtMostFromScaled(b1.requiredCarbonTax, b2.requiredCarbonTax, EmissionPerLitre);
  }

  /** The tax as written is 0.8/1000 of the break-even tax: with any
      non-zero premium, crediting it leaves the effective cost away from
      the conventional price. */
  lemma AsWrittenTaxMissesBreakeven(esafCostPerLitre: real, conventionalFuelPrice: real)
    requires esafCostPerLitre != conventionalFuelPrice
    ensures var premium := esafCostPerLitre - conventionalFuelPrice;
      && RequiredCarbonTaxAsWritten(premium) * 1000.0 == RequiredCarbonTax(premium) * FuelDensity
      && EffectiveCostPerLitre(esafCostPerLitre, RequiredCarbonTaxAsWritten(premium)) != conventionalFuelPrice
  {
    var premium := esafCostPerLitre - conventionalFuelPrice;
    var w, t := RequiredCarbonTaxAsWritten(premium), RequiredCarbonTax(premium);
    var k := EmissionDifference / 1000.0 * EnergyDensity;
    assert EmissionPerLitre == k * FuelDensity;
    assert w * k == premium;
    assert t * (k * FuelDensity) == premium * 1000.0;
    assert (w * 1000.0) * k == (t * FuelDensity) * k;
    CancelFactor(w * 1000.0, t * FuelDensity, k);
    assert w * EmissionPerLitre / 1000.0 == premium * FuelDensity / 1000.0;
  }
}
