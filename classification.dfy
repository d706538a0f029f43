/** Step 1 of both liquefaction scripts: a simplified, USCS-style soil
    classification from the Atterberg limits, the fines content and the
    grain-size percentiles D10, D30 and D60. The two scripts contain the
    same decision tree, so it is defined once here. */
module Classification {
  import opened RealArith

  /** The five classes the decision tree can produce. */
  datatype SoilClass = CL | ML | SM | SW | SP

  /** The label a script stores under "soil_type" for each class. */
  function Label(c: SoilClass): (t: string)
    ensures |t| > 2 && t[2] == ' '
  {
    match c
    case CL => "CL (Clay with low plasticity)"
    case ML => "ML (Silt with low plasticity)"
    case SM => "SM (Silty Sand or Sandy Silt)"
    case SW => "SW (Well-Graded Sand)"
    case SP => "SP (Poorly graded Sand)"
  }

  /** Liquid and plastic limit and fines content in percent, grain sizes in mm. */
  datatype Sample = Sample(ll: real, pl: real, fines: real, d10: real, d30: real, d60: real)

  /** The smallest grain size either script's input widgets accept (mm). */
  const MinGrainSize: real := 0.001

  /** What the grain-size widgets guarantee in both scripts. */
  predicate GrainSizesValid(s: Sample) {
    s.d10 >= MinGrainSize && s.d30 >= MinGrainSize && s.d60 >= MinGrainSize
  }

  /** The sample with every grain size multiplied by k. */
  function Scaled(s: Sample, k: real): Sample {
    s.(d10 := k * s.d10, d30 := k * s.d30, d60 := k * s.d60)
  }

  /** Plasticity index PI = LL - PL. */
  function PlasticityIndex(ll: real, pl: real): (pi: real)
    ensures pi + pl == ll
    ensures pi > 0.0 <==> ll > pl
  {
    ll - pl
  }

  /** Coefficient of uniformity Cu = D60 / D10. */
  function Uniformity(d10: real, d60: real): (cu: real)
    requires d10 > 0.0 && d60 > 0.0
    ensures cu > 0.0
    ensures cu * d10 == d60
  {
    d60 / d10
  }

  /** Coefficient of curvature Cc = D30^2 / (D10 * D60). */
  function Curvature(d10: real, d30: real, d60: real): (cc: real)
    requires d10 > 0.0 && d60 > 0.0 && d30 > 0.0
    ensures cc > 0.0
    ensures cc * (d10 * d60) == d30 * d30
  {
    RatioOfProductsPositive(d30, d30, d10, d60);
    (d30 * d30) / (d10 * d60)
  }

  /** The ordered decision tree. Each class is characterised by the
      conditions of the branch that produces it; the branches are tried in
      order, so the fines content decides the family before PI, Cu or Cc
      are looked at. */
  function Classify(fines: real, pi: real, cu: real, cc: real): (c: SoilClass)
    ensures c == CL <==> fines > 50.0 && pi > 7.0
    ensures c == ML <==> fines > 50.0 && pi <= 7.0
    ensures c == SM <==> 12.0 < fines <= 50.0
    ensures c == SW <==> fines <= 12.0 && cu > 4.0 && 1.0 < cc < 3.0
    ensures c == SP <==> fines <= 12.0 && !(cu > 4.0 && 1.0 < cc < 3.0)
  {
    if fines > 50.0 then
      if pi > 7.0 then CL else ML
    else if fines > 12.0 then
      SM
    else if cu > 4.0 && 1.0 < cc < 3.0 then
      SW
    else
      SP
  }

  /** The whole of step 1: derive PI, Cu and Cc from a sample and classify it. */
  function ClassifySample(s: Sample): (c: SoilClass)
    requires GrainSizesValid(s)
    ensures s.fines > 50.0 ==> (c == CL <==> s.ll - s.pl > 7.0)
    ensures s.fines > 50.0 ==> c in {CL, ML}
    ensures 12.0 < s.fines <= 50.0 ==> c == SM
    ensures s.fines <= 12.0 ==>
      (c == SW <==> s.d60 > 4.0 * s.d10 && s.d10 * s.d60 < s.d30 * s.d30 < 3.0 * (s.d10 * s.d60))
    ensures s.fines <= 12.0 ==> c in {SW, SP}
  {
    var pi := PlasticityIndex(s.ll, s.pl);
    var cu := Uniformity(s.d10, s.d60);
    var cc := Curvature(s.d10, s.d30, s.d60);
    GradationTest(s.d10, s.d30, s.d60);
    Classify(s.fines, pi, cu, cc)
  }

  /** The gradation test "Cu > 4 and 1 < Cc < 3" restated without division. */
  lemma GradationTest(d10: real, d30: real, d60: real)
    requires d10 > 0.0 && d30 > 0.0 && d60 > 0.0
    ensures Uniformity(d10, d60) > 4.0 <==> d60 > 4.0 * d10
    ensures 1.0 < Curvature(d10, d30, d60) <==> d10 * d60 < d30 * d30
    ensures Curvature(d10, d30, d60) < 3.0 <==> d30 * d30 < 3.0 * (d10 * d60)
  {
    var cu := Uniformity(d10, d60);
    var cc := Curvature(d10, d30, d60);
    var p := d10 * d60;
    ProductPositive(d10, d60);
    ScaleByPositive(4.0, cu, d10);
    ScaleByPositive(1.0, cc, p);
    ScaleByPositive(cc, 3.0, p);
    assert cc * p == d30 * d30;
  }

  /** Cu does not change when D10 and D60 are scaled by the same factor. */
  lemma UniformityScaleInvariant(d10: real, d60: real, k: real)
    requires d10 > 0.0 && d60 > 0.0 && k > 0.0
    ensures Uniformity(k * d10, k * d60) == Uniformity(d10, d60)
  {
  }

  /** Cc does not change when D10, D30 and D60 are scaled by the same factor. */
  lemma CurvatureScaleInvariant(d10: real, d30: real, d60: real, k: real)
    requires d10 > 0.0 && d30 > 0.0 && d60 > 0.0 && k > 0.0
    ensures Curvature(k * d10, k * d30, k * d60) == Curvature(d10, d30, d60)
  {
  }

  /** The class depends on the grain sizes only through their ratios:
      measuring them in another unit gives the same class. */
  lemma ClassificationScaleInvariant(s: Sample, k: real)
    requires GrainSizesValid(s) && GrainSizesValid(Scaled(s, k)) && k > 0.0
    ensures ClassifySample(Scaled(s, k)) == ClassifySample(s)
  {
    UniformityScaleInvariant(s.d10, s.d60, k);
    CurvatureScaleInvariant(s.d10, s.d30, s.d60, k);
  }
}
