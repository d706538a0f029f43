/** The earlier script: no reset button, default widget values for a
    worked example, and no effective-stress guard, so step 3 divides by
    sigma_v' unconditionally. */
module Soil2 {
  import opened Wrappers
  import opened RealArith
  import opened Classification
  import opened Seismic
  import opened Liquefaction
  import opened Session
  import Soil3

  /** Step 3 of this script. The divisions 100 / sigma_v' and
      sigma_v / sigma_v' are unguarded; the widget ranges are what keep
      them defined. */
  function Evaluate(amaxG: real, l: Layer, n: int, sqrt: real -> real): (r: Outcome)
    requires amaxG > 0.0 && LayerInBounds(l) && BlowCountInBounds(n) && IsSquareRoot(sqrt)
    ensures !r.InvalidEffectiveStress?
    ensures r.ZeroDivisionError? <==>
      EffectiveStress(l) > 0.0 && n as real * sqrt(100.0 / EffectiveStress(l)) == 34.0
    ensures r.Completed? ==>
      var a := r.analysis;
      a.sigmaV == TotalStress(l) && a.sigmaEff == EffectiveStress(l) && a.sigmaEff > 0.0
      && a.rd == StressReduction(l.depth)
      && a.cn > 0.0 && a.cn * a.cn * a.sigmaEff == 100.0 && a.n160 == n as real * a.cn
      && a.n160 >= 0.0
      && a.csr == CyclicStressRatio(amaxG, TotalStress(l), EffectiveStress(l), StressReduction(l.depth))
      && CyclicResistanceRatio(a.n160) == Some(a.crr) && a.fs == a.crr / a.csr
      && a.csr > 0.0 && a.fs * a.csr == a.crr
      && (a.verdict == LiquefactionLikely <==> a.fs < 1.0)
  {
    var sigmaV := TotalStress(l);
    var sigmaEff := EffectiveStress(l);
    var rd := StressReduction(l.depth);
    EffectiveStressPositive(l);
    var x := 100.0 / sigmaEff;
    assert x * sigmaEff == 100.0;
    var cn := sqrt(x);
    Assess(amaxG, sigmaV, sigmaEff, rd, cn, n)
  }

  /** Within the widget ranges the two scripts' step 3 agree exactly: the
      guard the later script added changes nothing there. */
  lemma AgreesWithGuardedScript(amaxG: real, l: Layer, n: int, sqrt: real -> real)
    requires amaxG > 0.0 && LayerInBounds(l) && BlowCountInBounds(n) && IsSquareRoot(sqrt)
    ensures Evaluate(amaxG, l, n, sqrt) == Soil3.Evaluate(amaxG, l, n, sqrt)
  {
    EffectiveStressPositive(l);
  }

  /** The grain sizes and limits this script's widgets start with. */
  const DefaultSample: Sample := Sample(30.0, 20.0, 35.0, 0.1, 0.2, 0.3)

  /** The depth, unit weight and water table the widgets start with. */
  const DefaultLayer: Layer := Layer(5.0, 18.0, 2.0)

  /** The SPT N-value the widget starts with. */
  const DefaultBlowCount: int := 15

  /** With the default inputs step 1 gives PI = 10, Cu = 3, Cc = 4/3 and,
      since 12 < fines <= 50, the silty-sand class. */
  lemma DefaultSampleIsSiltySand()
    ensures GrainSizesValid(DefaultSample)
    ensures PlasticityIndex(DefaultSample.ll, DefaultSample.pl) == 10.0
    ensures Uniformity(DefaultSample.d10, DefaultSample.d60) == 3.0
    ensures Curvature(DefaultSample.d10, DefaultSample.d30, DefaultSample.d60) == 4.0 / 3.0
    ensures ClassifySample(DefaultSample) == SM
  {
  }

  /** Step 2 then maps the silty-sand label to zone IV, Z = 0.24, S = 1.2,
      amax = 2.82528 m/s^2 and amax/g = 0.288. */
  lemma DefaultDemand()
    ensures DeriveDemand(Label(SM)) == Demand("Zone IV", 0.24, 1.2, 2.82528, 0.288)
  {
    DispatchSelectsRow(SM);
  }

  /** The default layer: sigma_v = 90 kPa, sigma_v' = 60.57 kPa,
      rd = 0.96175, inside the widget ranges. */
  lemma DefaultLayerStresses()
    ensures LayerInBounds(DefaultLayer)
    ensures TotalStress(DefaultLayer) == 90.0
    ensures EffectiveStress(DefaultLayer) == 60.57
    ensures StressReduction(DefaultLayer.depth) == 0.96175
  {
  }

  /** 1.28 < sqrt(100 / 60.57) < 1.29. */
  lemma DefaultCorrectionBounds(sqrt: real -> real)
    requires IsSquareRoot(sqrt)
    ensures 1.28 < sqrt(100.0 / 60.57) < 1.29
  {
    var x := 100.0 / 60.57;
    assert 1.6384 < x < 1.6641;
    var c := sqrt(x);
    assert c > 0.0 && c * c == x;
    if c <= 1.28 {
      ScaleByPositive(1.28, c, c);
      ScaleByPositive(c, 1.28, 1.28);
      assert false;
    }
    if c >= 1.29 {
      ScaleByPositive(c, 1.29, c);
      ScaleByPositive(1.29, c, 1.29);
      assert false;
    }
  }

  /** For 19.2 < N1_60 < 19.35 the CRR correlation stays below 0.22. */
  lemma ResistanceNearDefault(n160: real)
    requires 19.2 < n160 < 19.35
    ensures CyclicResistanceRatio(n160).Some? && CyclicResistanceRatio(n160).value < 0.22
  {
    var d := 34.0 - n160;
    assert d > 14.0;
    ScaleByPositive(1.0 / 14.0, 1.0 / d, d);
    assert 1.0 / d < 1.0 / 14.0;
    var b := 10.0 * n160 + 45.0;
    assert b > 200.0;
    ScaleByPositive(200.0, b, b);
    ScaleByPositive(200.0, b, 200.0);
    assert b * b > 40000.0;
    ScaleByPositive(50.0 / (b * b), 50.0 / 40000.0, b * b);
    assert 50.0 / (b * b) < 50.0 / 40000.0;
    assert n160 / 135.0 < 19.35 / 135.0;
  }

  /** Step 3 with the default layer, N = 15 and amax/g = 0.288: CSR is
      about 0.2675 and CRR below 0.22, so FS < 1. */
  lemma DefaultLayerLikely(sqrt: real -> real)
    requires IsSquareRoot(sqrt)
    ensures var r := Evaluate(0.288, DefaultLayer, DefaultBlowCount, sqrt);
      r.Completed? && r.analysis.verdict == LiquefactionLikely
  {
    // Cn lies in (1.28, 1.29), so N1_60 = 15 Cn lies in (19.2, 19.35) and
    // CRR < 0.22, while CSR = 0.65 * 0.288 * (90 / 60.57) * 0.96175 > 0.26.
    DefaultCorrectionBounds(sqrt);
    ResistanceNearDefault(15.0 * sqrt(100.0 / 60.57));
  }

  /** End to end, the default inputs of all three steps lead to FS < 1:
      liquefaction is reported as likely. */
  lemma DefaultVerdictLikely(sqrt: real -> real)
    requires IsSquareRoot(sqrt)
    ensures var r := Evaluate(DeriveDemand(Label(ClassifySample(DefaultSample))).amaxG,
                              DefaultLayer, DefaultBlowCount, sqrt);
      r.Completed? && r.analysis.verdict == LiquefactionLikely
  {
    DefaultSampleIsSiltySand();
    DefaultDemand();
    DefaultLayerLikely(sqrt);
  }

  /** One run of this script from top to bottom: the same steps as the
      later script, without the reset button. */
  method Run(session: SessionState, classifyPressed: bool,
             sample: Sample, layer: Layer, n: int, sqrt: real -> real)
    returns (shown: Option<Outcome>)
    requires session.Valid()
    requires GrainSizesValid(sample) && LayerInBounds(layer) && BlowCountInBounds(n)
    requires IsSquareRoot(sqrt)
    modifies session
    ensures session.Valid()
    ensures Step1Key in session.state && Step2Key in session.state
    ensures !classifyPressed && !old(session.Step1Complete()) ==>
      session.state == WithFlags(old(session.state))
    ensures !classifyPressed ==>
      forall k :: k in old(session.state) && k != Step2Key && k != AmaxGKey ==>
        k in session.state && session.state[k] == old(session.state)[k]
    ensures forall k :: k !in {Step1Key, Step2Key, SoilTypeKey, AmaxGKey} ==>
      (k in session.state <==> k in old(session.state))
      && (k in session.state ==> session.state[k] == old(session.state)[k])
    ensures session.Step1Complete() <==> classifyPressed || old(session.Step1Complete())
    ensures session.Step2Complete() <==> session.Step1Complete()
    ensures classifyPressed ==> session.state[SoilTypeKey] == Text(Label(ClassifySample(sample)))
    ensures session.Step2Complete() ==>
      session.state[AmaxGKey] == Number(DeriveDemand(session.state[SoilTypeKey].s).amaxG)
    ensures shown.Some? <==> session.Step2Complete()
    ensures shown.Some? ==> shown.value == Evaluate(session.state[AmaxGKey].r, layer, n, sqrt)
  {
    session.InitFlags();
    if classifyPressed {
      var c := ClassifySample(sample);
      session.RecordClassification(Label(c));
    }
    if session.Step1Complete() {
      var d := DeriveDemand(session.state[SoilTypeKey].s);
      session.RecordDemand(d.amaxG);
    }
    if session.Step2Complete() {
      shown := Some(Evaluate(session.state[AmaxGKey].r, layer, n, sqrt));
    } else {
      shown := None;
    }
  }
}
