/** The capital recovery factor: the share of a one-off capital outlay that
    must be recovered every year so that `lifetime` equal yearly payments,
    discounted at `discountRate`, pay the outlay back exactly. */
module CapitalRecovery {
  import opened Outcomes

  /** g to the power n, for the (1 + r)^n of the annuity formula. */
  function Pow(g: real, n: nat): real
  {
    if n == 0 then 1.0 else g * Pow(g, n - 1)
  }

  lemma {:induction false} PowNonzero(g: real, n: nat)
    requires g != 0.0
    ensures Pow(g, n) != 0.0
  {
    if n > 0 {
      PowNonzero(g, n - 1);
    }
  }

  lemma {:induction false} PowOfOne(n: nat)
    ensures Pow(1.0, n) == 1.0
  {
    if n > 0 {
      PowOfOne(n - 1);
    }
  }

  /** For g > 1 and n >= 1: g <= g^n, hence 1 < g^n. */
  lemma {:induction false} PowAtLeastBase(g: real, n: nat)
    requires g > 1.0 && n >= 1
    ensures g <= Pow(g, n)
  {
    if n > 1 {
      PowAtLeastBase(g, n - 1);
      assert g * g <= g * Pow(g, n - 1);
    }
  }

  /** The capital recovery factor for a discount rate r and a lifetime of n
      years: 1/n when r is exactly zero, r(1+r)^n / ((1+r)^n - 1) otherwise.
      Python raises ZeroDivisionError when the divisor is zero: n = 0 at a
      zero rate, (1+r)^n = 1 otherwise. */
  function CapitalRecoveryFactor(discountRate: real, lifetime: nat): (crf: Result<real>)
    ensures crf.Failure? ==> crf.error == DivisionByZero
    ensures discountRate == 0.0 ==> (crf.Success? <==> lifetime > 0)
    ensures discountRate != 0.0 ==> (crf.Success? <==> Pow(1.0 + discountRate, lifetime) != 1.0)
    ensures discountRate == 0.0 && crf.Success? ==> crf.value * (lifetime as real) == 1.0
    ensures discountRate != 0.0 && crf.Success? ==>
      crf.value * (Pow(1.0 + discountRate, lifetime) - 1.0) == discountRate * Pow(1.0 + discountRate, lifetime)
  {
    if discountRate == 0.0 then
      if lifetime == 0 then Failure(DivisionByZero) else Success(1.0 / lifetime as real)
    else
      var growth := Pow(1.0 + discountRate, lifetime);
      if growth - 1.0 == 0.0 then Failure(DivisionByZero)
      else Success(discountRate * growth / (growth - 1.0))
  }

  /** Present value, at discount rate r, of a payment made at the end of
      each of the first n years. */
  function PresentValue(payment: real, discountRate: real, years: nat): real
    requires 1.0 + discountRate != 0.0
  {
    if years == 0 then 0.0
    else
      PowNonzero(1.0 + discountRate, years);
      PresentValue(payment, discountRate, years - 1) + payment / Pow(1.0 + discountRate, years)
  }

  /** One step of the annuity recurrence, on plain numbers: prev is the
      value after n - 1 years, q the discounted n-th payment. */
  lemma AnnuityStep(payment: real, r: real, prev: real, q: real, gPrev: real, gN: real)
    requires prev * r * gPrev == payment * (gPrev - 1.0)
    requires gN == (1.0 + r) * gPrev
    requires q * gN == payment
    ensures (prev + q) * r * gN == payment * (gN - 1.0)
  {
    calc {
      (prev + q) * r * gN;
      prev * r * gN + (q * gN) * r;
      prev * r * gN + payment * r;
      { assert prev * r * gN == (prev * r * gPrev) * (1.0 + r); }
      payment * (gPrev - 1.0) * (1.0 + r) + payment * r;
      payment * ((1.0 + r) * gPrev) - payment;
    }
  }

  /** The closed form of the annuity: PV * r * (1+r)^n == payment * ((1+r)^n - 1). */
  lemma {:induction false} AnnuityClosedForm(payment: real, discountRate: real, years: nat)
    requires 1.0 + discountRate != 0.0
    ensures PresentValue(payment, discountRate, years) * discountRate * Pow(1.0 + discountRate, years)
            == payment * (Pow(1.0 + discountRate, years) - 1.0)
  {
    if years > 0 {
      var g := 1.0 + discountRate;
      AnnuityClosedForm(payment, discountRate, years - 1);
      PowNonzero(g, years);
      var gN := Pow(g, years);
      DivTimes(payment, gN);
      AnnuityStep(payment, discountRate, PresentValue(payment, discountRate, years - 1),
                  payment / gN, Pow(g, years - 1), gN);
    }
  }

  lemma DivTimes(a: real, b: real)
    requires b != 0.0
    ensures a / b * b == a
  {
  }

  /** At a zero rate the present value is the plain sum of the payments. */
  lemma {:induction false} PresentValueAtZeroRate(payment: real, years: nat)
    ensures PresentValue(payment, 0.0, years) == payment * (years as real)
  {
    if years > 0 {
      PresentValueAtZeroRate(payment, years - 1);
      PowOfOne(years);
    }
  }

  /** The defining property of the CRF: paying crf every year for the whole
      lifetime repays a capital of 1 exactly, in present-value terms. */
  lemma CrfRepaysCapital(discountRate: real, lifetime: nat)
    requires 1.0 + discountRate != 0.0
    requires CapitalRecoveryFactor(discountRate, lifetime).Success?
    ensures PresentValue(CapitalRecoveryFactor(discountRate, lifetime).value, discountRate, lifetime) == 1.0
  {
    var crf := CapitalRecoveryFactor(discountRate, lifetime).value;
    if discountRate == 0.0 {
      PresentValueAtZeroRate(crf, lifetime);
    } else {
      RepaysAtNonzeroRate(crf, discountRate, lifetime);
    }
  }

  lemma RepaysAtNonzeroRate(crf: real, discountRate: real, lifetime: nat)
    requires discountRate != 0.0 && 1.0 + discountRate != 0.0
    requires crf * (Pow(1.0 + discountRate, lifetime) - 1.0) == discountRate * Pow(1.0 + discountRate, lifetime)
    ensures PresentValue(crf, discountRate, lifetime) == 1.0
  {
    var g := Pow(1.0 + discountRate, lifetime);
    AnnuityClosedForm(crf, discountRate, lifetime);
    var pv := PresentValue(crf, discountRate, lifetime);
    PowNonzero(1.0 + discountRate, lifetime);
    ProductNonzero(discountRate, g);
    assert pv * discountRate * g == discountRate * g;
    assert pv * (discountRate * g) == discountRate * g;
    UnitFromProduct(pv, discountRate * g);
  }

  lemma ProductNonzero(a: real, b: real)
    requires a != 0.0 && b != 0.0
    ensures a * b != 0.0
  {
  }

  lemma UnitFromProduct(x: real, k: real)
    requires k != 0.0 && x * k == k
    ensures x == 1.0
  {
    assert (x - 1.0) * k == 0.0;
  }

  lemma GreaterFromScaled(x: real, b: real, d: real)
    requires d > 0.0 && x * d > b * d
    ensures x > b
  {
  }

  lemma AtMostFromScaled(x: real, b: real, d: real)
    requires d > 0.0 && x * d <= b * d
    ensures x <= b
  {
  }

  /** For a positive rate and a lifetime of at least one year the factor is
      defined and lies in (r, 1 + r]: above the bare interest, and at most
      the one-year repayment. */
  lemma CrfBounds(discountRate: real, lifetime: nat)
    requires discountRate > 0.0 && lifetime >= 1
    ensures CapitalRecoveryFactor(discountRate, lifetime).Success?
    ensures discountRate < CapitalRecoveryFactor(discountRate, lifetime).value <= 1.0 + discountRate
  {
    var g := 1.0 + discountRate;
    PowAtLeastBase(g, lifetime);
    var gn := Pow(g, lifetime);
    var crf := CapitalRecoveryFactor(discountRate, lifetime).value;
    assert crf * (gn - 1.0) == discountRate * gn;
    AnnuityFactorBounds(crf, discountRate, gn);
  }

  /** The bounds on plain numbers: crf (gn - 1) == r gn with gn >= 1 + r > 1. */
  lemma AnnuityFactorBounds(crf: real, r: real, gn: real)
    requires r > 0.0 && gn >= 1.0 + r
    requires crf * (gn - 1.0) == r * gn
    ensures r < crf <= 1.0 + r
  {
    var d, b := gn - 1.0, 1.0 + r;
    assert d > 0.0;
    assert crf * d == r * gn;
    assert r * gn > r * d;
    GreaterFromScaled(crf, r, d);
    assert b * d == r * gn + (gn - b);
    AtMostSum(crf * d, r * gn, b * d, gn - b);
    AtMostFromScaled(crf, b, d);
  }

  lemma AtMostSum(x: real, y: real, z: real, w: real)
    requires x == y && z == y + w && w >= 0.0
    ensures x <= z
  {
  }

  /** Over a single year the factor is the principal plus one year's
      interest; at a zero rate that is 1/1. */
  lemma CrfOneYear(discountRate: real)
    ensures CapitalRecoveryFactor(discountRate, 1) == Success(1.0 + discountRate)
  {
    if discountRate != 0.0 {
      var g := 1.0 + discountRate;
      assert Pow(g, 1) == g * Pow(g, 0) == g;
      var crf := CapitalRecoveryFactor(discountRate, 1).value;
      assert crf * (Pow(g, 1) - 1.0) == discountRate * Pow(g, 1);
      assert crf * (g - 1.0) == discountRate * g;
      assert g - 1.0 == discountRate;
      assert (crf - g) * discountRate == 0.0;
      ZeroFactor(crf - g, discountRate);
    }
  }

  lemma ZeroFactor(x: real, k: real)
    requires k != 0.0 && x * k == 0.0
    ensures x == 0.0
  {
  }

  lemma CancelFactor(x: real, y: real, k: real)
    requires k != 0.0 && x * k == y * k
    ensures x == y
  {
    assert (x - y) * k == 0.0;
  }
}
