/** The two sensitivity sweeps as functions of the state they start from:
    for each value in turn the sweep overrides one parameter, evaluates the
    chain and records a sample; afterwards it writes the saved original
    back, evaluates once more and builds the result table. An evaluation
    that fails ends the sweep at once, with the parameters still holding
    the override. */
module Sweeps {
  import opened Outcomes
  import opened CapitalRecovery
  import opened CostModel
  import opened Sensitivity

  /** The parameter a sweep varies. */
  datatype Knob = ElectricityPrice | PlantCapacity

  /** The parameters with the knob set to x. */
  function Override(knob: Knob, p: Parameters, x: real): Parameters
  {
    match knob
    case ElectricityPrice => WithElectricityPrice(p, x)
    case PlantCapacity => WithPlantCapacity(p, x)
  }

  /** The parameters with the values saved from `start` written back. */
  function Restore(knob: Knob, start: Parameters, current: Parameters): Parameters
  {
    match knob
    case ElectricityPrice => WithElectricityPrices(current, SavedDacPrice(start), SavedElectrolysisPrice(start))
    case PlantCapacity => WithPlantCapacity(current, SavedPlantCapacity(start))
  }

  /** A later override replaces an earlier one. */
  lemma OverrideTwice(knob: Knob, p: Parameters, x: real, y: real)
    ensures Override(knob, Override(knob, p, x), y) == Override(knob, p, y)
  {
  }

  /** Restoring after any override gives back the starting parameters. */
  lemma RestoreAfterOverride(knob: Knob, p: Parameters, x: real)
    ensures Restore(knob, p, Override(knob, p, x)) == p
  {
    match knob
    case ElectricityPrice => ElectricityRestoreUndoesOverride(p, x);
    case PlantCapacity => CapacityRestoreUndoesOverride(p, x);
  }

  /** The value a sweep ran with and the results it read back. */
  datatype Sample = Sample(value: real, tea: TeaResults)

  /** The state of a sweep after some of its values: the parameters, the
      stored results, the samples so far, and the error that ended the
      sweep, if one did. */
  datatype LoopState = LoopState(params: Parameters, stored: StoredResults, samples: seq<Sample>, failure: Option<TeaError>)

  /** The loop of a sweep over the values xs, from parameters p and stored
      results `stored`. It records at most one sample per value, and one for
      every value unless an evaluation failed. */
  function SweepLoop(knob: Knob, p: Parameters, stored: StoredResults, xs: seq<real>): (s: LoopState)
    ensures |s.samples| <= |xs|
    ensures s.failure.None? ==> |s.samples| == |xs|
  {
    if |xs| == 0 then LoopState(p, stored, [], None)
    else
      var s := SweepLoop(knob, p, stored, xs[..|xs| - 1]);
      if s.failure.Some? then s
      else
        var x := xs[|xs| - 1];
        var q := Override(knob, s.params, x);
        var r := Evaluate(q);
        if r.Failure? then LoopState(q, s.stored, s.samples, Some(r.error))
        else LoopState(q, Computed(r.value), s.samples + [Sample(x, r.value)], None)
  }

  /** What a sweep leaves behind: the parameters, the stored results and
      what it returns. */
  datatype SweepOutcome<R> = SweepOutcome(params: Parameters, stored: StoredResults, result: Result<seq<R>>)

  /** A whole sweep, before the table is built from its samples. On
      success there is one sample per value, in order, and the stored
      results are the evaluation of the parameters left behind; on failure
      the error is that of evaluating the parameters left behind. */
  function Sweep(knob: Knob, p: Parameters, stored: StoredResults, xs: seq<real>): (o: SweepOutcome<Sample>)
    ensures o.result.Success? ==>
      && |o.result.value| == |xs|
      && (forall i :: 0 <= i < |xs| ==> o.result.value[i].value == xs[i])
      && Evaluate(o.params).Success?
      && o.stored == Computed(Evaluate(o.params).value)
    ensures o.result.Failure? ==>
      !Evaluable(o.params) && o.result.error == if Complete(o.params) then DivisionByZero else MissingData
  {
    var s := SweepLoop(knob, p, stored, xs);
    LoopRecordsValues(knob, p, stored, xs);
    if s.failure.Some? then SweepOutcome(s.params, s.stored, Failure(s.failure.value))
    else
      var restored := Restore(knob, p, s.params);
      var r := Evaluate(restored);
      if r.Failure? then SweepOutcome(restored, s.stored, Failure(r.error))
      else SweepOutcome(restored, Computed(r.value), Success(s.samples))
  }

  // ---------------------------------------------------------------------
  // The loop

  /** One more value: the loop over xs[..i+1] is one step of the loop over
      xs[..i]. */
  lemma LoopStep(knob: Knob, p: Parameters, stored: StoredResults, xs: seq<real>, i: nat,
                 q: Parameters, current: StoredResults, samples: seq<Sample>)
    requires i < |xs|
    requires SweepLoop(knob, p, stored, xs[..i]) == LoopState(q, current, samples, None)
    ensures var q' := Override(knob, q, xs[i]);
      var r := Evaluate(q');
      SweepLoop(knob, p, stored, xs[..i + 1])
      == if r.Failure? then LoopState(q', current, samples, Some(r.error))
         else LoopState(q', Computed(r.value), samples + [Sample(xs[i], r.value)], None)
  {
    assert xs[..i + 1][..i] == xs[..i];
  }

  /** A loop that has not failed is followed by the restore and one more
      evaluation. */
  lemma SweepAfterLoop(knob: Knob, p: Parameters, stored: StoredResults, xs: seq<real>,
                       q: Parameters, current: StoredResults, samples: seq<Sample>)
    requires SweepLoop(knob, p, stored, xs) == LoopState(q, current, samples, None)
    ensures var restored := Restore(knob, p, q);
      var r := Evaluate(restored);
      Sweep(knob, p, stored, xs)
      == if r.Failure? then SweepOutcome(restored, current, Failure(r.error))
         else SweepOutcome(restored, Computed(r.value), Success(samples))
  {
  }

  /** A loop that has failed ends the sweep with its error. */
  lemma SweepAfterFailure(knob: Knob, p: Parameters, stored: StoredResults, xs: seq<real>)
    requires SweepLoop(knob, p, stored, xs).failure.Some?
    ensures var s := SweepLoop(knob, p, stored, xs);
      Sweep(knob, p, stored, xs) == SweepOutcome(s.params, s.stored, Failure(s.failure.value))
  {
  }

  /** The samples follow the values in order, and the error a loop ends with
      is that of evaluating the parameters it leaves behind. */
  lemma {:induction false} LoopRecordsValues(knob: Knob, p: Parameters, stored: StoredResults, xs: seq<real>)
    ensures forall i :: 0 <= i < |SweepLoop(knob, p, stored, xs).samples| ==>
      SweepLoop(knob, p, stored, xs).samples[i].value == xs[i]
    ensures SweepLoop(knob, p, stored, xs).failure.Some? ==>
      Evaluate(SweepLoop(knob, p, stored, xs).params) == Failure(SweepLoop(knob, p, stored, xs).failure.value)
  {
    if |xs| > 0 {
      var init := xs[..|xs| - 1];
      LoopRecordsValues(knob, p, stored, init);
      assert forall i :: 0 <= i < |init| ==> init[i] == xs[i];
    }
  }

  /** Once an evaluation has failed, the remaining values change nothing. */
  lemma {:induction false} FailureEndsLoop(knob: Knob, p: Parameters, stored: StoredResults, xs: seq<real>, k: nat)
    requires k <= |xs|
    requires SweepLoop(knob, p, stored, xs[..k]).failure.Some?
    ensures SweepLoop(knob, p, stored, xs) == SweepLoop(knob, p, stored, xs[..k])
  {
    if k < |xs| {
      assert xs[..|xs| - 1][..k] == xs[..k];
      FailureEndsLoop(knob, p, stored, xs[..|xs| - 1], k);
    } else {
      assert xs[..k] == xs;
    }
  }

  /** The parameters the evaluation of the i-th value sees. */
  predicate EvaluableAt(knob: Knob, p: Parameters, x: real)
  {
    Evaluable(Override(knob, p, x))
  }

  /** When every override can be evaluated, the loop records one sample per
      value, in order, each the evaluation of the starting parameters with
      that value; it ends with the knob at the last value and the results
      of that evaluation stored. */
  lemma {:induction false} LoopWhenEvaluable(knob: Knob, p: Parameters, stored: StoredResults, xs: seq<real>)
    requires forall i :: 0 <= i < |xs| ==> EvaluableAt(knob, p, xs[i])
    ensures SweepLoop(knob, p, stored, xs).failure.None?
    ensures |SweepLoop(knob, p, stored, xs).samples| == |xs|
    ensures forall i :: 0 <= i < |xs| ==>
      && Evaluate(Override(knob, p, xs[i])).Success?
      && SweepLoop(knob, p, stored, xs).samples[i] == Sample(xs[i], Evaluate(Override(knob, p, xs[i])).value)
    ensures |xs| == 0 ==> SweepLoop(knob, p, stored, xs) == LoopState(p, stored, [], None)
    ensures |xs| > 0 ==> SweepLoop(knob, p, stored, xs).params == Override(knob, p, xs[|xs| - 1])
    ensures |xs| > 0 ==> SweepLoop(knob, p, stored, xs).stored == Computed(Evaluate(Override(knob, p, xs[|xs| - 1])).value)
  {
    if |xs| > 0 {
      var init := xs[..|xs| - 1];
      assert forall i :: 0 <= i < |init| ==> init[i] == xs[i];
      LoopWhenEvaluable(knob, p, stored, init);
      var s := SweepLoop(knob, p, stored, init);
      var x := xs[|xs| - 1];
      if |init| > 0 {
        OverrideTwice(knob, p, init[|init| - 1], x);
      }
      assert Override(knob, s.params, x) == Override(knob, p, x);
    }
  }

  /** When the k-th value is the first that cannot be evaluated, the loop
      stops there: the knob holds that value, the samples and stored
      results are those of the values before it, and the error is the
      evaluation's. */
  lemma LoopStopsAt(knob: Knob, p: Parameters, stored: StoredResults, xs: seq<real>, k: nat)
    requires k < |xs| && !EvaluableAt(knob, p, xs[k])
    requires forall i :: 0 <= i < k ==> EvaluableAt(knob, p, xs[i])
    ensures SweepLoop(knob, p, stored, xs).failure == Some(Evaluate(Override(knob, p, xs[k])).error)
    ensures SweepLoop(knob, p, stored, xs).params == Override(knob, p, xs[k])
    ensures k == 0 ==> SweepLoop(knob, p, stored, xs).stored == stored
    ensures k > 0 ==>
      && Evaluate(Override(knob, p, xs[k - 1])).Success?
      && SweepLoop(knob, p, stored, xs).stored == Computed(Evaluate(Override(knob, p, xs[k - 1])).value)
    ensures SweepLoop(knob, p, stored, xs).samples == SweepLoop(knob, p, stored, xs[..k]).samples
  {
    var init := xs[..k];
    assert forall i :: 0 <= i < |init| ==> init[i] == xs[i];
    LoopWhenEvaluable(knob, p, stored, init);
    StepFails(knob, p, stored, xs, k);
    FailureEndsLoop(knob, p, stored, xs, k + 1);
  }

  /** The loop over the values up to the k-th stops at the k-th. */
  lemma StepFails(knob: Knob, p: Parameters, stored: StoredResults, xs: seq<real>, k: nat)
    requires k < |xs| && !EvaluableAt(knob, p, xs[k])
    requires forall i :: 0 <= i < k ==> EvaluableAt(knob, p, xs[i])
    ensures var s := SweepLoop(knob, p, stored, xs[..k]);
      SweepLoop(knob, p, stored, xs[..k + 1])
      == LoopState(Override(knob, p, xs[k]), s.stored, s.samples, Some(Evaluate(Override(knob, p, xs[k])).error))
  {
    var init := xs[..k];
    assert forall i :: 0 <= i < |init| ==> init[i] == xs[i];
    LoopWhenEvaluable(knob, p, stored, init);
    var s := SweepLoop(knob, p, stored, init);
    if k > 0 {
      OverrideTwice(knob, p, xs[k - 1], xs[k]);
    }
    assert Override(knob, s.params, xs[k]) == Override(knob, p, xs[k]);
    assert xs[..k + 1][..k] == init && xs[..k + 1][k] == xs[k];
  }

  // ---------------------------------------------------------------------
  // The whole sweep

  /** A sweep that completes its loop writes the starting parameters back,
      whatever the list; the stored results are then a fresh evaluation of
      them, or stay as the loop left them when that evaluation fails. */
  lemma SweepRestores(knob: Knob, p: Parameters, stored: StoredResults, xs: seq<real>)
    requires SweepLoop(knob, p, stored, xs).failure.None?
    ensures Sweep(knob, p, stored, xs).params == p
    ensures Evaluate(p).Success? ==> Sweep(knob, p, stored, xs).stored == Computed(Evaluate(p).value)
    ensures Evaluate(p).Failure? ==>
      Sweep(knob, p, stored, xs).stored == SweepLoop(knob, p, stored, xs).stored
      && Sweep(knob, p, stored, xs).result == Failure(Evaluate(p).error)
  {
    var s := SweepLoop(knob, p, stored, xs);
    if |xs| == 0 {
      assert s.params == p;
    } else {
      var init := xs[..|xs| - 1];
      var t := SweepLoop(knob, p, stored, init);
      assert t.failure.None?;
      ParamsAfterLoop(knob, p, stored, init);
      if |init| > 0 {
        OverrideTwice(knob, p, init[|init| - 1], xs[|xs| - 1]);
      }
      assert s.params == Override(knob, p, xs[|xs| - 1]);
      RestoreAfterOverride(knob, p, xs[|xs| - 1]);
    }
  }

  /** A loop that has not failed leaves the knob at its last value. */
  lemma {:induction false} ParamsAfterLoop(knob: Knob, p: Parameters, stored: StoredResults, xs: seq<real>)
    requires SweepLoop(knob, p, stored, xs).failure.None?
    ensures |xs| == 0 ==> SweepLoop(knob, p, stored, xs).params == p
    ensures |xs| > 0 ==> SweepLoop(knob, p, stored, xs).params == Override(knob, p, xs[|xs| - 1])
  {
    if |xs| > 0 {
      var init := xs[..|xs| - 1];
      ParamsAfterLoop(knob, p, stored, init);
      if |init| > 0 {
        OverrideTwice(knob, p, init[|init| - 1], xs[|xs| - 1]);
      }
    }
  }

  // ---------------------------------------------------------------------
  // Result tables

  /** A stage's share of the total annual cost, in percent; a zero total
      gives a non-finite entry (None). */
  function Share(part: real, whole: real): (share: Option<real>)
    ensures share.Some? <==> whole != 0.0
    ensures share.Some? ==> share.value * whole == part * 100.0
  {
    if whole == 0.0 then None else Some(part / whole * 100.0)
  }

  /** A quantity per tonne of plant capacity; a zero capacity gives a
      non-finite entry (None). */
  function PerTonne(quantity: real, capacity: real): (perTonne: Option<real>)
    ensures perTonne.Some? <==> capacity != 0.0
    ensures perTonne.Some? ==> perTonne.value * capacity == quantity
  {
    if capacity == 0.0 then None else Some(quantity / capacity)
  }

  /** One row of the electricity-price table. */
  datatype ElectricityRow = ElectricityRow(
    electricityPrice: real,
    levelizedCost: real,
    dacCost: real,
    electrolysisCost: real,
    ftSynthesisCost: real,
    totalAnnualCost: real,
    dacContribution: Option<real>,
    electrolysisContribution: Option<real>,
    ftContribution: Option<real>)

  function ElectricityRowOf(s: Sample): ElectricityRow
  {
    var t := s.tea.totalCosts;
    ElectricityRow(s.value, s.tea.levelizedCost, t.dac, t.electrolysis, t.ftSynthesis, t.total,
                   Share(t.dac, t.total), Share(t.electrolysis, t.total), Share(t.ftSynthesis, t.total))
  }

  /** The table of an electricity sweep; a table built from no samples has
      no columns, so reading the cost columns fails. */
  function ElectricityTable(samples: seq<Sample>): (table: Result<seq<ElectricityRow>>)
    ensures table.Failure? <==> |samples| == 0
    ensures table.Failure? ==> table.error == MissingColumn
    ensures table.Success? ==> |table.value| == |samples|
    ensures table.Success? ==> forall i :: 0 <= i < |samples| ==> table.value[i] == ElectricityRowOf(samples[i])
  {
    if |samples| == 0 then Failure(MissingColumn)
    else Success(seq(|samples|, i requires 0 <= i < |samples| => ElectricityRowOf(samples[i])))
  }

  /** One row of the plant-capacity table. */
  datatype ScaleRow = ScaleRow(
    plantCapacity: real,
    levelizedCost: real,
    capexTotal: real,
    opexTotal: real,
    dacCost: real,
    electrolysisCost: real,
    ftSynthesisCost: real,
    capexPerTpy: Option<real>,
    opexPerTonne: Option<real>)

  function ScaleRowOf(s: Sample): ScaleRow
  {
    var t := s.tea;
    ScaleRow(s.value, t.levelizedCost, t.capexBreakdown.total, t.opexBreakdown.total,
             t.totalCosts.dac, t.totalCosts.electrolysis, t.totalCosts.ftSynthesis,
             PerTonne(t.capexBreakdown.total, s.value), PerTonne(t.opexBreakdown.total, s.value))
  }

  /** The table of a plant-capacity sweep; as for electricity, no samples
      means no columns. */
  function ScaleTable(samples: seq<Sample>): (table: Result<seq<ScaleRow>>)
    ensures table.Failure? <==> |samples| == 0
    ensures table.Failure? ==> table.error == MissingColumn
    ensures table.Success? ==> |table.value| == |samples|
    ensures table.Success? ==> forall i :: 0 <= i < |samples| ==> table.value[i] == ScaleRowOf(samples[i])
  {
    if |samples| == 0 then Failure(MissingColumn)
    else Success(seq(|samples|, i requires 0 <= i < |samples| => ScaleRowOf(samples[i])))
  }

  /** The stage shares of a row plus the distribution share make 100 %. */
  lemma SharesAddUp(s: Sample)
    requires Consistent(s.tea) && s.tea.totalCosts.total != 0.0
    ensures ElectricityRowOf(s).dacContribution.Some?
    ensures ElectricityRowOf(s).electrolysisContribution.Some?
    ensures ElectricityRowOf(s).ftContribution.Some?
    ensures ElectricityRowOf(s).dacContribution.value + ElectricityRowOf(s).electrolysisContribution.value
            + ElectricityRowOf(s).ftContribution.value + Share(s.tea.totalCosts.distribution, s.tea.totalCosts.total).value
            == 100.0
  {
    var t := s.tea.totalCosts;
    ShareSum(t.dac, t.electrolysis, t.ftSynthesis, t.distribution, t.total);
  }

  lemma ShareSum(a: real, b: real, c: real, d: real, total: real)
    requires total != 0.0 && total == a + b + c + d
    ensures Share(a, total).value + Share(b, total).value + Share(c, total).value + Share(d, total).value == 100.0
  {
    PercentagesAddUp(Share(a, total).value, Share(b, total).value, Share(c, total).value, Share(d, total).value,
                     a, b, c, d, total);
  }

  lemma PercentagesAddUp(sa: real, sb: real, sc: real, sd: real, a: real, b: real, c: real, d: real, total: real)
    requires total != 0.0 && total == a + b + c + d
    requires sa * total == a * 100.0 && sb * total == b * 100.0 && sc * total == c * 100.0 && sd * total == d * 100.0
    ensures sa + sb + sc + sd == 100.0
  {
    assert (sa + sb + sc + sd - 100.0) * total == 0.0;
  }

  // ---------------------------------------------------------------------
  // The electricity-price sweep

  /** The electricity sweep: the values are prices written into both the DAC
      and the electrolysis group. Whatever the starting state, a table has
      one row per price, each carrying its price, in order; a failure is the
      evaluation error of the parameters left behind or, for an empty list,
      the missing column. */
  function ElectricitySweep(p: Parameters, stored: StoredResults, prices: seq<real>): (o: SweepOutcome<ElectricityRow>)
    ensures o.result.Success? ==>
      |o.result.value| == |prices| && forall i :: 0 <= i < |prices| ==> o.result.value[i].electricityPrice == prices[i]
    ensures o.result.Failure? ==>
      || (!Evaluable(o.params) && o.result.error == if Complete(o.params) then DivisionByZero else MissingData)
      || (|prices| == 0 && o.result.error == MissingColumn)
  {
    var o := Sweep(ElectricityPrice, p, stored, prices);
    SweepOutcome(o.params, o.stored, if o.result.Failure? then Failure(o.result.error) else ElectricityTable(o.result.value))
  }


  /** Setting a price never changes whether the chain can be evaluated. */
  lemma EvaluableAtAnyPrice(p: Parameters)
    ensures forall x :: EvaluableAt(ElectricityPrice, p, x) <==> Evaluable(p)
  {
    forall x
      ensures EvaluableAt(ElectricityPrice, p, x) <==> Evaluable(p)
    {
      assert Evaluable(WithElectricityPrice(p, x)) <==> Evaluable(p);
    }
  }

  /** A sweep over a non-empty list from evaluable parameters returns one
      row per price, in input order, each row the evaluation with both
      groups' electricity price set to that price; it ends with both prices
      back at their original values and the results of a fresh evaluation
      of the original parameters stored. */
  lemma ElectricitySweepSucceeds(p: Parameters, stored: StoredResults, prices: seq<real>)
    requires Evaluable(p) && |prices| > 0
    ensures ElectricitySweep(p, stored, prices).params == p
    ensures ElectricitySweep(p, stored, prices).stored == Computed(Evaluate(p).value)
    ensures ElectricitySweep(p, stored, prices).result.Success?
    ensures |ElectricitySweep(p, stored, prices).result.value| == |prices|
    ensures forall i :: 0 <= i < |prices| ==>
      && Evaluate(WithElectricityPrice(p, prices[i])).Success?
      && ElectricitySweep(p, stored, prices).result.value[i]
         == ElectricityRowOf(Sample(prices[i], Evaluate(WithElectricityPrice(p, prices[i])).value))
      && ElectricitySweep(p, stored, prices).result.value[i].electricityPrice == prices[i]
      && ElectricitySweep(p, stored, prices).result.value[i].levelizedCost
         == Evaluate(WithElectricityPrice(p, prices[i])).value.levelizedCost
  {
    EvaluableAtAnyPrice(p);
    LoopWhenEvaluable(ElectricityPrice, p, stored, prices);
    SweepRestores(ElectricityPrice, p, stored, prices);
  }

  /** From parameters that cannot be evaluated, the sweep fails at its first
      price, leaving that price written into both groups and the stored
      results untouched. */
  lemma ElectricitySweepFailsAtOnce(p: Parameters, stored: StoredResults, prices: seq<real>)
    requires !Evaluable(p) && |prices| > 0
    ensures ElectricitySweep(p, stored, prices)
            == SweepOutcome(WithElectricityPrice(p, prices[0]), stored,
                            Failure(if Complete(p) then DivisionByZero else MissingData))
  {
    EvaluableAtAnyPrice(p);
    LoopStopsAt(ElectricityPrice, p, stored, prices, 0);
    assert Complete(WithElectricityPrice(p, prices[0])) == Complete(p);
  }

  /** With no prices the loop does nothing, but the restore and the fresh
      evaluation still run; building the table then fails. */
  lemma ElectricitySweepOfNoPrices(p: Parameters, stored: StoredResults)
    ensures ElectricitySweep(p, stored, []).params == p
    ensures ElectricitySweep(p, stored, []).stored == if Evaluable(p) then Computed(Evaluate(p).value) else stored
    ensures ElectricitySweep(p, stored, []).result
            == Failure(if Evaluable(p) then MissingColumn else if Complete(p) then DivisionByZero else MissingData)
  {
    SweepRestores(ElectricityPrice, p, stored, []);
  }

  /** The electricity sweep succeeds exactly when the parameters can be
      evaluated and the list is not empty. */
  lemma ElectricitySweepSuccessCondition(p: Parameters, stored: StoredResults, prices: seq<real>)
    ensures ElectricitySweep(p, stored, prices).result.Success? <==> Evaluable(p) && |prices| > 0
  {
    if |prices| == 0 {
      ElectricitySweepOfNoPrices(p, stored);
    } else if Evaluable(p) {
      ElectricitySweepSucceeds(p, stored, prices);
    } else {
      ElectricitySweepFailsAtOnce(p, stored, prices);
    }
  }

  predicate Ascending(xs: seq<real>)
  {
    forall i, j :: 0 <= i <= j < |xs| ==> xs[i] <= xs[j]
  }

  /** With non-negative consumptions, a sweep over ascending prices yields
      non-decreasing levelized costs. */
  lemma ElectricitySweepMonotone(p: Parameters, stored: StoredResults, prices: seq<real>)
    requires Evaluable(p) && NonNegativeDemand(p) && Ascending(prices) && |prices| > 0
    ensures ElectricitySweep(p, stored, prices).result.Success?
    ensures |ElectricitySweep(p, stored, prices).result.value| == |prices|
    ensures forall i, j :: 0 <= i <= j < |prices| ==>
      ElectricitySweep(p, stored, prices).result.value[i].levelizedCost
      <= ElectricitySweep(p, stored, prices).result.value[j].levelizedCost
  {
    ElectricitySweepSucceeds(p, stored, prices);
    var rows := ElectricitySweep(p, stored, prices).result.value;
    forall i, j | 0 <= i <= j < |prices|
      ensures rows[i].levelizedCost <= rows[j].levelizedCost
    {
      LevelizedCostMonotoneInElectricityPrice(p, prices[i], prices[j]);
    }
  }

  // ---------------------------------------------------------------------
  // The plant-capacity sweep

  /** The plant-capacity sweep: the values are capacities written into the
      economic group. Whatever the starting state, a table has one row per
      capacity, each carrying its capacity, in order; a failure is the
      evaluation error of the parameters left behind or, for an empty list,
      the missing column. */
  function ScaleSweep(p: Parameters, stored: StoredResults, capacities: seq<real>): (o: SweepOutcome<ScaleRow>)
    ensures o.result.Success? ==>
      |o.result.value| == |capacities| && forall i :: 0 <= i < |capacities| ==> o.result.value[i].plantCapacity == capacities[i]
    ensures o.result.Failure? ==>
      || (!Evaluable(o.params) && o.result.error == if Complete(o.params) then DivisionByZero else MissingData)
      || (|capacities| == 0 && o.result.error == MissingColumn)
  {
    var o := Sweep(PlantCapacity, p, stored, capacities);
    SweepOutcome(o.params, o.stored, if o.result.Failure? then Failure(o.result.error) else ScaleTable(o.result.value))
  }


  predicate AllNonZero(xs: seq<real>)
  {
    forall i :: 0 <= i < |xs| ==> xs[i] != 0.0
  }

  lemma PerTonneOfScaled(c: real, unit: real, quantity: real)
    requires c != 0.0 && Scaled(c, unit, quantity)
    ensures PerTonne(quantity, c) == Some(unit)
  {
    var v := PerTonne(quantity, c).value;
    assert v * c == unit * c;
    CancelFactor(v, unit, c);
  }

  /** The row of a capacity c: CAPEX and OPEX per tonne are those of a
      one-tonne plant, and so is the levelized cost. */
  lemma ScaleRowAtCapacity(p: Parameters, c: real)
    requires EvaluableAtSomeCapacity(p) && c != 0.0
    ensures Evaluate(WithPlantCapacity(p, c)).Success? && Evaluate(WithPlantCapacity(p, 1.0)).Success?
    ensures ScaleRowOf(Sample(c, Evaluate(WithPlantCapacity(p, c)).value)).capexPerTpy
            == Some(Evaluate(WithPlantCapacity(p, 1.0)).value.capexBreakdown.total)
    ensures ScaleRowOf(Sample(c, Evaluate(WithPlantCapacity(p, c)).value)).opexPerTonne
            == Some(Evaluate(WithPlantCapacity(p, 1.0)).value.opexBreakdown.total)
    ensures ScaleRowOf(Sample(c, Evaluate(WithPlantCapacity(p, c)).value)).levelizedCost
            == Evaluate(WithPlantCapacity(p, 1.0)).value.levelizedCost
  {
    CostsProportionalToCapacity(p, c);
    var unit, t := Evaluate(WithPlantCapacity(p, 1.0)).value, Evaluate(WithPlantCapacity(p, c)).value;
    PerTonneOfScaled(c, unit.capexBreakdown.total, t.capexBreakdown.total);
    PerTonneOfScaled(c, unit.opexBreakdown.total, t.opexBreakdown.total);
  }

  /** A sweep over non-zero capacities from evaluable parameters returns one
      row per capacity, in input order, each the evaluation at that
      capacity; CAPEX and OPEX per tonne of capacity and the levelized cost
      are the same in every row (every cost is linear in capacity); it ends
      with the capacity restored and a fresh evaluation stored. */
  lemma ScaleSweepSucceeds(p: Parameters, stored: StoredResults, capacities: seq<real>)
    requires Evaluable(p) && |capacities| > 0 && AllNonZero(capacities)
    ensures ScaleSweep(p, stored, capacities).params == p
    ensures ScaleSweep(p, stored, capacities).stored == Computed(Evaluate(p).value)
    ensures ScaleSweep(p, stored, capacities).result.Success?
    ensures |ScaleSweep(p, stored, capacities).result.value| == |capacities|
    ensures Evaluate(WithPlantCapacity(p, 1.0)).Success?
    ensures forall i :: 0 <= i < |capacities| ==>
      && Evaluate(WithPlantCapacity(p, capacities[i])).Success?
      && ScaleSweep(p, stored, capacities).result.value[i]
         == ScaleRowOf(Sample(capacities[i], Evaluate(WithPlantCapacity(p, capacities[i])).value))
      && ScaleSweep(p, stored, capacities).result.value[i].plantCapacity == capacities[i]
      && ScaleSweep(p, stored, capacities).result.value[i].capexPerTpy
         == Some(Evaluate(WithPlantCapacity(p, 1.0)).value.capexBreakdown.total)
      && ScaleSweep(p, stored, capacities).result.value[i].opexPerTonne
         == Some(Evaluate(WithPlantCapacity(p, 1.0)).value.opexBreakdown.total)
      && ScaleSweep(p, stored, capacities).result.value[i].levelizedCost == Evaluate(p).value.levelizedCost
  {
    EvaluableAtCapacity(p, 1.0);
    forall i | 0 <= i < |capacities|
      ensures EvaluableAt(PlantCapacity, p, capacities[i])
    {
      EvaluableAtCapacity(p, capacities[i]);
    }
    LoopWhenEvaluable(PlantCapacity, p, stored, capacities);
    SweepRestores(PlantCapacity, p, stored, capacities);
    var unit := Evaluate(WithPlantCapacity(p, 1.0)).value;
    var c0 := p.economic.value.plantCapacityTpy;
    CostsProportionalToCapacity(p, c0);
    CapacityRestoreUndoesOverride(p, c0);
    assert WithPlantCapacity(p, c0) == p;
    forall i | 0 <= i < |capacities|
      ensures ScaleRowAtCapacityHolds(p, capacities[i])
    {
      ScaleRowAtCapacity(p, capacities[i]);
    }
  }

  predicate ScaleRowAtCapacityHolds(p: Parameters, c: real)
  {
    && Evaluate(WithPlantCapacity(p, c)).Success? && Evaluate(WithPlantCapacity(p, 1.0)).Success?
    && var row := ScaleRowOf(Sample(c, Evaluate(WithPlantCapacity(p, c)).value));
       var unit := Evaluate(WithPlantCapacity(p, 1.0)).value;
       && row.capexPerTpy == Some(unit.capexBreakdown.total)
       && row.opexPerTonne == Some(unit.opexBreakdown.total)
       && row.levelizedCost == unit.levelizedCost
  }

  /** A zero capacity in the list ends the sweep with a division by zero:
      the capacity stays at zero and the stored results are those of the
      capacity before it. */
  lemma ScaleSweepStopsAtZero(p: Parameters, stored: StoredResults, capacities: seq<real>, k: nat)
    requires EvaluableAtSomeCapacity(p)
    requires k < |capacities| && capacities[k] == 0.0 && forall i :: 0 <= i < k ==> capacities[i] != 0.0
    ensures ScaleSweep(p, stored, capacities).params == WithPlantCapacity(p, 0.0)
    ensures ScaleSweep(p, stored, capacities).result == Failure(DivisionByZero)
    ensures k == 0 ==> ScaleSweep(p, stored, capacities).stored == stored
    ensures k > 0 ==>
      && Evaluate(WithPlantCapacity(p, capacities[k - 1])).Success?
      && ScaleSweep(p, stored, capacities).stored == Computed(Evaluate(WithPlantCapacity(p, capacities[k - 1])).value)
  {
    forall i | 0 <= i < k
      ensures EvaluableAt(PlantCapacity, p, capacities[i])
    {
      EvaluableAtCapacity(p, capacities[i]);
    }
    EvaluableAtCapacity(p, 0.0);
    LoopStopsAt(PlantCapacity, p, stored, capacities, k);
  }

  /** From parameters that fail at every capacity, the sweep fails at its
      first capacity, leaving it written into the economic group. */
  lemma ScaleSweepFailsAtOnce(p: Parameters, stored: StoredResults, capacities: seq<real>)
    requires !EvaluableAtSomeCapacity(p) && |capacities| > 0
    ensures ScaleSweep(p, stored, capacities)
            == SweepOutcome(WithPlantCapacity(p, capacities[0]), stored,
                            Failure(if Complete(p) then DivisionByZero else MissingData))
  {
    EvaluableAtCapacity(p, capacities[0]);
    LoopStopsAt(PlantCapacity, p, stored, capacities, 0);
    assert Complete(WithPlantCapacity(p, capacities[0])) == Complete(p);
  }

  /** With no capacities the restore and the fresh evaluation still run;
      building the table then fails. */
  lemma ScaleSweepOfNoCapacities(p: Parameters, stored: StoredResults)
    ensures ScaleSweep(p, stored, []).params == p
    ensures ScaleSweep(p, stored, []).stored == if Evaluable(p) then Computed(Evaluate(p).value) else stored
    ensures ScaleSweep(p, stored, []).result
            == Failure(if Evaluable(p) then MissingColumn else if Complete(p) then DivisionByZero else MissingData)
  {
    SweepRestores(PlantCapacity, p, stored, []);
  }
}
