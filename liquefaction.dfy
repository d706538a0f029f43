/** Step 3 of both liquefaction scripts, the parts they share: stresses at
    the layer, the depth reduction factor, the cyclic stress and resistance
    ratios, the factor of safety and the verdict. The scripts differ only
    in whether the overburden correction is guarded (see modules Soil3 and
    Soil2). All quantities are exact reals. */
module Liquefaction {
  import opened Wrappers
  import opened RealArith

  /** Unit weight of water (kN/m^3), as written in both scripts. */
  const UnitWeightOfWater: real := 9.81

  /** Depth of the layer (m), unit weight of the soil (kN/m^3) and depth of
      the water table (m). */
  datatype Layer = Layer(depth: real, gamma: real, gwDepth: real)

  /** The ranges the step-3 input widgets of both scripts allow. */
  predicate LayerInBounds(l: Layer) {
    0.5 <= l.depth <= 50.0 && 10.0 <= l.gamma <= 25.0 && 0.0 <= l.gwDepth <= 50.0
  }

  /** The range of the SPT N-value widget of both scripts. */
  predicate BlowCountInBounds(n: int) {
    1 <= n <= 100
  }

  /** The square root the scripts compute with `** 0.5`, which the model
      receives as a parameter: any function giving the positive root of a
      positive real. */
  ghost predicate IsSquareRoot(sqrt: real -> real) {
    forall x :: x > 0.0 ==> sqrt(x) > 0.0 && sqrt(x) * sqrt(x) == x
  }

  datatype Verdict = LiquefactionLikely | NotLikely

  /** Everything step 3 reports when it completes. */
  datatype Analysis = Analysis(
    sigmaV: real, sigmaEff: real, rd: real, cn: real, n160: real,
    csr: real, crr: real, fs: real, verdict: Verdict)

  /** How step 3 ends: with a report, with the message about an invalid
      effective stress (the guarded script only), or with Python's
      ZeroDivisionError, which stops the script. */
  datatype Outcome = Completed(analysis: Analysis) | InvalidEffectiveStress | ZeroDivisionError

  /** Total vertical stress sigma_v = gamma * z (kPa). */
  function TotalStress(l: Layer): (s: real)
    ensures l.gamma > 0.0 && l.depth > 0.0 ==> s > 0.0
  {
    assert l.gamma > 0.0 && l.depth > 0.0 ==> l.gamma * l.depth > 0.0 by {
      if l.gamma > 0.0 && l.depth > 0.0 {
        ProductPositive(l.gamma, l.depth);
      }
    }
    l.gamma * l.depth
  }

  /** Pore water pressure 9.81 * (z - zw) below the water table, 0 above it. */
  function PorePressure(l: Layer): (u: real)
    ensures u >= 0.0
    ensures u > 0.0 <==> l.depth > l.gwDepth
  {
    UnitWeightOfWater * (if l.depth > l.gwDepth then l.depth - l.gwDepth else 0.0)
  }

  /** Effective vertical stress sigma_v' = sigma_v - pore pressure: never
      more than the total stress, and equal to it at or above the water
      table. */
  function EffectiveStress(l: Layer): (s: real)
    ensures s <= TotalStress(l)
    ensures s == TotalStress(l) <==> l.depth <= l.gwDepth
  {
    TotalStress(l) - PorePressure(l)
  }

  /** Below the water table, every metre of extra depth adds 9.81 kPa to the
      gap between total and effective stress. */
  lemma PorePressureGrowth(l1: Layer, l2: Layer)
    requires l1.gamma == l2.gamma && l1.gwDepth == l2.gwDepth
    requires l1.gwDepth <= l1.depth <= l2.depth
    ensures (TotalStress(l2) - EffectiveStress(l2)) - (TotalStress(l1) - EffectiveStress(l1))
            == UnitWeightOfWater * (l2.depth - l1.depth)
  {
  }

  /** Under the widget ranges the effective stress is at least
      (gamma - 9.81) * z >= 0.19 * 0.5 = 0.095, hence strictly positive. */
  lemma EffectiveStressPositive(l: Layer)
    requires LayerInBounds(l)
    ensures EffectiveStress(l) >= (l.gamma - UnitWeightOfWater) * l.depth
    ensures EffectiveStress(l) >= 0.095
  {
    assert TotalStress(l) == l.gamma * l.depth;
    assert (l.gamma - UnitWeightOfWater) * l.depth == l.gamma * l.depth - UnitWeightOfWater * l.depth;
    assert PorePressure(l) <= UnitWeightOfWater * l.depth;
    assert l.gamma - UnitWeightOfWater >= 0.19;
    ProductNonNegative(l.gamma - UnitWeightOfWater - 0.19, l.depth);
    assert (l.gamma - UnitWeightOfWater - 0.19) * l.depth
        == (l.gamma - UnitWeightOfWater) * l.depth - 0.19 * l.depth;
    assert EffectiveStress(l) >= (l.gamma - UnitWeightOfWater) * l.depth;
    assert (l.gamma - UnitWeightOfWater - 0.19) * l.depth >= 0.0;
    assert 0.19 * l.depth >= 0.095;
  }

  /** The bound is attained: the shallowest, lightest layer with the water
      table at the surface has sigma_v' = 0.095 kPa. */
  lemma LeastEffectiveStress()
    ensures LayerInBounds(Layer(0.5, 10.0, 0.0))
    ensures EffectiveStress(Layer(0.5, 10.0, 0.0)) == 0.095
  {
  }

  /** Stress reduction factor rd = max(1 - 0.00765 z, 0.5). */
  function StressReduction(depth: real): (rd: real)
    ensures rd >= 0.5
    ensures depth >= 0.0 ==> rd <= 1.0
    ensures rd == 0.5 <==> 0.00765 * depth >= 0.5
    ensures 0.5 <= depth <= 50.0 ==> rd == 1.0 - 0.00765 * depth && 0.6175 <= rd <= 0.996175
  {
    var rd := 1.0 - 0.00765 * depth;
    if rd > 0.5 then rd else 0.5
  }

  /** Cyclic stress ratio CSR = 0.65 * (amax/g) * (sigma_v / sigma_v') * rd. */
  function CyclicStressRatio(amaxG: real, sigmaV: real, sigmaEff: real, rd: real): (csr: real)
    requires sigmaEff > 0.0
    ensures amaxG > 0.0 && sigmaV > 0.0 && rd > 0.0 ==> csr > 0.0
  {
    var ratio := sigmaV / sigmaEff;
    assert sigmaV > 0.0 ==> ratio > 0.0;
    0.65 * amaxG * ratio * rd
  }

  /** The CRR(7.5) correlation
        1/(34 - N) + N/135 + 50/(10 N + 45)^2 - 1/200
      on the corrected blow count N. Python raises ZeroDivisionError at
      N = 34, modelled as None. */
  function CyclicResistanceRatio(n160: real): (crr: Option<real>)
    requires n160 >= 0.0
    ensures crr.None? <==> n160 == 34.0
    ensures 0.0 <= n160 < 34.0 ==> crr.Some? && crr.value > 0.0
  {
    if n160 == 34.0 then None
    else
      var b := 10.0 * n160 + 45.0;
      assert b * b > 0.0;
      var crr := 1.0 / (34.0 - n160) + n160 / 135.0 + 50.0 / (b * b) - 1.0 / 200.0;
      assert n160 < 34.0 ==> crr > 0.0 by {
        if n160 < 34.0 {
          FirstTermAboveThreshold(n160);
          assert n160 / 135.0 >= 0.0;
          assert 50.0 / (b * b) > 0.0;
        }
      }
      Some(crr)
  }

  /** 1/(34 - N) >= 1/34 > 1/200 for 0 <= N < 34. */
  lemma FirstTermAboveThreshold(n160: real)
    requires 0.0 <= n160 < 34.0
    ensures 1.0 / (34.0 - n160) > 1.0 / 200.0
  {
    var d := 34.0 - n160;
    var q := 1.0 / d;
    assert q * d == 1.0;
    ScaleByPositive(1.0 / 200.0, q, d);
  }

  /** The verdict: liquefaction is likely exactly when FS < 1. */
  function Judge(fs: real): (v: Verdict)
    ensures v == LiquefactionLikely <==> fs < 1.0
  {
    if fs < 1.0 then LiquefactionLikely else NotLikely
  }

  /** What both scripts do once the overburden correction Cn is known and
      sigma_v' > 0: N1_60 = N * Cn, CSR, CRR, FS = CRR / CSR, the verdict. */
  function Assess(amaxG: real, sigmaV: real, sigmaEff: real, rd: real, cn: real, n: int): (r: Outcome)
    requires amaxG > 0.0 && sigmaEff > 0.0 && sigmaV >= sigmaEff && rd >= 0.5 && cn >= 0.0 && n >= 1
    ensures r.ZeroDivisionError? <==> n as real * cn == 34.0
    ensures !r.InvalidEffectiveStress?
    ensures r.Completed? ==>
      var a := r.analysis;
      a.sigmaV == sigmaV && a.sigmaEff == sigmaEff && a.rd == rd && a.cn == cn
      && a.n160 == n as real * cn && a.n160 >= 0.0
      && a.csr == CyclicStressRatio(amaxG, sigmaV, sigmaEff, rd)
      && CyclicResistanceRatio(a.n160) == Some(a.crr) && a.fs == a.crr / a.csr
      && a.csr > 0.0 && a.fs * a.csr == a.crr
      && (a.verdict == LiquefactionLikely <==> a.crr < a.csr)
      && (0.0 <= a.n160 < 34.0 ==> a.crr > 0.0 && a.fs > 0.0)
  {
    ProductNonNegative(n as real, cn);
    var n160 := n as real * cn;
    var csr := CyclicStressRatio(amaxG, sigmaV, sigmaEff, rd);
    match CyclicResistanceRatio(n160)
    case None => ZeroDivisionError
    case Some(crr) =>
      var fs := crr / csr;
      FactorOfSafetyBelowOne(crr, csr);
      Completed(Analysis(sigmaV, sigmaEff, rd, cn, n160, csr, crr, fs, Judge(fs)))
  }

  /** With CSR > 0, FS = CRR / CSR is below 1 exactly when CRR < CSR, and
      positive when CRR is. */
  lemma FactorOfSafetyBelowOne(crr: real, csr: real)
    requires csr > 0.0
    ensures (crr / csr) * csr == crr
    ensures crr / csr < 1.0 <==> crr < csr
    ensures crr > 0.0 ==> crr / csr > 0.0
  {
    var fs := crr / csr;
    assert fs * csr == crr;
    ScaleByPositive(fs, 1.0, csr);
    ScaleByPositive(0.0, fs, csr);
  }
}
