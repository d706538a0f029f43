/** The script with a reset button and an effective-stress guard: step 3
    computes Cn, CSR, CRR and FS only when sigma_v' > 0 and otherwise shows
    an error message. */
module Soil3 {
  import opened Wrappers
  import opened RealArith
  import opened Classification
  import opened Seismic
  import opened Liquefaction
  import opened Session

  /** Overburden correction Cn = sqrt(100 / sigma_v'), or 0 when
      sigma_v' <= 0. */
  function OverburdenCorrection(sqrt: real -> real, sigmaEff: real): (cn: real)
    requires IsSquareRoot(sqrt)
    ensures sigmaEff > 0.0 ==> cn > 0.0 && cn * cn * sigmaEff == 100.0
    ensures sigmaEff <= 0.0 ==> cn == 0.0
  {
    if sigmaEff > 0.0 then
      var x := 100.0 / sigmaEff;
      assert x * sigmaEff == 100.0;
      sqrt(x)
    else
      0.0
  }

  /** Step 3 of this script for the amax/g stored by step 2. */
  function Evaluate(amaxG: real, l: Layer, n: int, sqrt: real -> real): (r: Outcome)
    requires amaxG > 0.0 && BlowCountInBounds(n) && IsSquareRoot(sqrt)
    ensures r.InvalidEffectiveStress? <==> EffectiveStress(l) <= 0.0
    ensures r.ZeroDivisionError? <==>
      EffectiveStress(l) > 0.0 && n as real * OverburdenCorrection(sqrt, EffectiveStress(l)) == 34.0
    ensures r.Completed? ==>
      var a := r.analysis;
      a.sigmaV == TotalStress(l) && a.sigmaEff == EffectiveStress(l) && a.sigmaEff > 0.0
      && a.rd == StressReduction(l.depth)
      && a.cn > 0.0 && a.cn * a.cn * a.sigmaEff == 100.0 && a.n160 == n as real * a.cn
      && a.n160 >= 0.0
      && a.csr == CyclicStressRatio(amaxG, TotalStress(l), EffectiveStress(l), StressReduction(l.depth))
      && CyclicResistanceRatio(a.n160) == Some(a.crr) && a.fs == a.crr / a.csr
      && a.csr > 0.0 && a.fs * a.csr == a.crr
      && (a.verdict == LiquefactionLikely <==> a.fs < 1.0)
  {
    var sigmaV := TotalStress(l);
    var sigmaEff := EffectiveStress(l);
    var rd := StressReduction(l.depth);
    var cn := OverburdenCorrection(sqrt, sigmaEff);
    if sigmaEff > 0.0 then
      Assess(amaxG, sigmaV, sigmaEff, rd, cn, n)
    else
      InvalidEffectiveStress
  }

  /** Within the ranges of the input widgets the guard never fires: the
      error message about the effective stress cannot be shown. */
  lemma GuardUnreachable(amaxG: real, l: Layer, n: int, sqrt: real -> real)
    requires amaxG > 0.0 && BlowCountInBounds(n) && IsSquareRoot(sqrt)
    requires LayerInBounds(l)
    ensures !Evaluate(amaxG, l, n, sqrt).InvalidEffectiveStress?
  {
    EffectiveStressPositive(l);
  }

  /** The only positive square root of 1 is 1. */
  lemma RootOfOne(sqrt: real -> real)
    requires IsSquareRoot(sqrt)
    ensures sqrt(1.0) == 1.0
  {
    var c := sqrt(1.0);
    assert c > 0.0 && c * c == 1.0;
    ScaleByPositive(c, 1.0, c);
    ScaleByPositive(1.0, c, c);
  }

  /** A layer inside the widget ranges (gamma = 20, z = zw = 5, so
      sigma_v' = 100 and Cn = 1) with N = 34 makes N1_60 = 34, and the CRR
      formula divides by zero. */
  lemma SingularBlowCount(amaxG: real, sqrt: real -> real)
    requires amaxG > 0.0 && IsSquareRoot(sqrt)
    ensures LayerInBounds(Layer(5.0, 20.0, 5.0)) && BlowCountInBounds(34)
    ensures Evaluate(amaxG, Layer(5.0, 20.0, 5.0), 34, sqrt) == ZeroDivisionError
  {
    var l := Layer(5.0, 20.0, 5.0);
    assert EffectiveStress(l) == 100.0;
    RootOfOne(sqrt);
    assert OverburdenCorrection(sqrt, 100.0) == 1.0;
  }

  /** Just above the singularity the correlation turns negative: the same
      layer with N = 35 (N1_60 = 35) gets CRR < 0, FS < 0, and is reported
      as likely to liquefy. */
  lemma DenseLayerReportedLikely(amaxG: real, sqrt: real -> real)
    requires amaxG > 0.0 && IsSquareRoot(sqrt)
    ensures var r := Evaluate(amaxG, Layer(5.0, 20.0, 5.0), 35, sqrt);
      r.Completed? && r.analysis.n160 == 35.0 && r.analysis.crr < 0.0
      && r.analysis.verdict == LiquefactionLikely
  {
    var l := Layer(5.0, 20.0, 5.0);
    assert EffectiveStress(l) == 100.0;
    RootOfOne(sqrt);
    assert OverburdenCorrection(sqrt, 100.0) == 1.0;
    var crr := CyclicResistanceRatio(35.0);
    assert crr.Some? && crr.value < 0.0;
  }

  /** One run of the script from top to bottom. The buttons pressed in this
      run and the widget values are inputs; the session persists. Returns
      the outcome of step 3 when step 3 is shown. After a reset the script
      asks Streamlit to start a new run at once, so this run ends there. */
  method Run(session: SessionState, resetPressed: bool, classifyPressed: bool,
             sample: Sample, layer: Layer, n: int, sqrt: real -> real)
    returns (shown: Option<Outcome>)
    requires session.Valid()
    requires GrainSizesValid(sample) && BlowCountInBounds(n) && IsSquareRoot(sqrt)
    modifies session
    ensures session.Valid()
    ensures resetPressed ==> session.state == map[] && shown == None
    ensures !resetPressed ==> Step1Key in session.state && Step2Key in session.state
    ensures !resetPressed && !classifyPressed && !old(session.Step1Complete()) ==>
      session.state == WithFlags(old(session.state))
    ensures !resetPressed && !classifyPressed ==>
      forall k :: k in old(session.state) && k != Step2Key && k != AmaxGKey ==>
        k in session.state && session.state[k] == old(session.state)[k]
    ensures !resetPressed ==>
      forall k :: k !in {Step1Key, Step2Key, SoilTypeKey, AmaxGKey} ==>
        (k in session.state <==> k in old(session.state))
        && (k in session.state ==> session.state[k] == old(session.state)[k])
    ensures !resetPressed ==>
      (session.Step1Complete() <==> classifyPressed || old(session.Step1Complete()))
    ensures !resetPressed ==> (session.Step2Complete() <==> session.Step1Complete())
    ensures !resetPressed && classifyPressed ==>
      session.state[SoilTypeKey] == Text(Label(ClassifySample(sample)))
    ensures !resetPressed && session.Step2Complete() ==>
      session.state[AmaxGKey] == Number(DeriveDemand(session.state[SoilTypeKey].s).amaxG)
    ensures shown.Some? <==> !resetPressed && session.Step2Complete()
    ensures shown.Some? ==> shown.value == Evaluate(session.state[AmaxGKey].r, layer, n, sqrt)
  {
    if resetPressed {
      session.Reset();
      return None;
    }
    session.InitFlags();
    if classifyPressed {
      var c := ClassifySample(sample);
      session.RecordClassification(Label(c));
    }
    if session.Step1Complete() {
      var d := DeriveDemand(session.state[SoilTypeKey].s);
      session.RecordDemand(d.amaxG);
    }
    if session.Step2Complete() {
      shown := Some(Evaluate(session.state[AmaxGKey].r, layer, n, sqrt));
    } else {
      shown := None;
    }
  }

  /** Pressing reset and letting the script run again leaves both flags
      False, whatever the session held before. */
  method ResetThenRerun(session: SessionState, sample: Sample, layer: Layer, n: int, sqrt: real -> real)
    returns (shown: Option<Outcome>)
    requires session.Valid()
    requires GrainSizesValid(sample) && BlowCountInBounds(n) && IsSquareRoot(sqrt)
    modifies session
    ensures session.state == map[Step1Key := Flag(false), Step2Key := Flag(false)]
    ensures shown == None
  {
    shown := Run(session, true, false, sample, layer, n, sqrt);
    shown := Run(session, false, false, sample, layer, n, sqrt);
  }
}
