# Soil classification and liquefaction check — a verified model

Two near-identical Streamlit scripts, `SCLC_CIVIL_PROJECT/soil3.py` and
`SCLC_CIVIL_PROJECT/soil2.py`, lead a user through three steps:

1. **Soil classification.** PI = LL − PL, Cu = D60/D10 and Cc = D30²/(D10·D60)
   feed an ordered, USCS-style decision tree that yields one of the labels
   CL, ML, SM, SW or SP.
2. **Seismic demand.** Substring tests on the stored label pick a seismic
   zone and an amplification factor S. The zone is looked up in `zone_factors`
   to get Z, and amax/g = Z·S.
3. **Liquefaction check.** This step computes σv = γ·z,
   σv' = σv − 9.81·max(0, z − zw), rd = max(1 − 0.00765·z, 0.5),
   Cn = √(100/σv'), N1_60 = N·Cn, CSR = 0.65·(amax/g)·(σv/σv')·rd, the CRR(7.5)
   correlation, FS = CRR/CSR and the verdict (likely if FS < 1).

The steps are gated by flags kept in `st.session_state`. `soil3.py` adds a
reset button, which deletes every session key, and a guard on σv' ≤ 0: step 3
still computes σv, σv', rd, Cn and N1_60, but CSR, CRR, FS and the verdict
are replaced by an error message. `soil2.py` has neither feature, and its
widgets start at a worked example.

Files and modules:

- `classification.dfy` (`Classification`): step 1. Both scripts have the same
  decision tree token for token, so it is defined once.
- `seismic.dfy` (`Seismic`): step 2, including Python's substring test
  `sub in s` (`Contains`). It is also shared by both scripts.
- `liquefaction.dfy` (`Liquefaction`): the parts of step 3 that both scripts
  share, and `Assess`, which runs from Cn to the verdict.
- `session.dfy` (`Session`): the session dictionary as a class whose field
  `state: map<string, Value>` the methods reassign.
- `soil3.dfy` (`Soil3`): the guarded step 3, a whole run of the script, and
  the reset.
- `soil2.dfy` (`Soil2`): the unguarded step 3, a whole run of the script, and
  the worked example from the default inputs.
- `wrappers.dfy`, `arith.dfy`: `Option`, and small facts about products and
  quotients of reals.

All quantities are Dafny `real`, so arithmetic is exact. The square root
(`** 0.5`) is a parameter `sqrt: real -> real`. The only thing assumed about
it is `IsSquareRoot`: for every x > 0, sqrt(x) > 0 and sqrt(x)·sqrt(x) = x.
The widget ranges (`number_input` minima and maxima) are preconditions:
`GrainSizesValid`, `LayerInBounds` and `BlowCountInBounds`. A Python
`ZeroDivisionError`, which ends the script run, becomes the outcome
`ZeroDivisionError`. The guarded script's error message becomes
`InvalidEffectiveStress`.

Facts about the scripts that the model makes precise:

- The scripts produce only CL, ML, SM, SW and SP. They have no gravel
  classes.
- `soil2.py` has no effective-stress guard. Its divisions by σv'
  (soil2.py:114, 117) are defined only because of the widget ranges, and the
  model proves this. Its CRR division can still fail (see below).
- The guard cannot fire inside the widget ranges (`Soil3.GuardUnreachable`):
  σv' ≥ (γ − 9.81)·z ≥ 0.19·0.5 = 0.095 > 0, and the minimum is reached at
  z = 0.5, γ = 10, zw = 0 (`Liquefaction.LeastEffectiveStress`). A layer with
  the water table at or below its depth has no pore pressure, so σv' = σv.
- A CRR divisor of zero is not prevented anywhere. N1_60 = 34 is reachable
  inside the widget ranges (`Soil3.SingularBlowCount`).

## Model

| member | source | states |
|---|---|---|
| `Classification.Label` | SCLC_CIVIL_PROJECT/soil3.py:47-56 | the five label strings stored as `soil_type`, each a two-letter code followed by a space |
| `Classification.PlasticityIndex` | SCLC_CIVIL_PROJECT/soil3.py:41 | PI + PL = LL, and PI > 0 exactly when LL > PL |
| `Classification.Uniformity` | SCLC_CIVIL_PROJECT/soil3.py:42 | Cu is positive and is the ratio D60/D10 (Cu·D10 = D60) |
| `Classification.Curvature` | SCLC_CIVIL_PROJECT/soil3.py:43 | Cc is positive and Cc·(D10·D60) = D30² |
| `Classification.Classify` | SCLC_CIVIL_PROJECT/soil3.py:45-56 | total, priority-ordered tree: CL iff fines > 50 ∧ PI > 7; ML iff fines > 50 ∧ PI ≤ 7; SM iff 12 < fines ≤ 50 (whatever PI, Cu, Cc); SW iff fines ≤ 12 ∧ Cu > 4 ∧ 1 < Cc < 3; SP otherwise |
| `Classification.ClassifySample` | SCLC_CIVIL_PROJECT/soil3.py:36-56 | step 1 on a sample with grain sizes ≥ 0.001 mm: fines > 50 gives CL/ML decided by LL − PL > 7; 12 < fines ≤ 50 gives SM; fines ≤ 12 gives SW exactly when D60 > 4·D10 and D10·D60 < D30² < 3·D10·D60 |
| `Classification.GradationTest` | SCLC_CIVIL_PROJECT/soil3.py:53 | the test "cu > 4 and 1 < cc < 3" is equivalent to the same inequalities on D10, D30, D60 without division |
| `Classification.UniformityScaleInvariant` | SCLC_CIVIL_PROJECT/soil3.py:42 | Cu is unchanged when D10 and D60 are scaled by the same positive factor |
| `Classification.CurvatureScaleInvariant` | SCLC_CIVIL_PROJECT/soil3.py:43 | Cc is unchanged when D10, D30 and D60 are scaled by the same positive factor |
| `Classification.ClassificationScaleInvariant` | SCLC_CIVIL_PROJECT/soil3.py:36-56 | the class is unchanged when all grain sizes are scaled by the same positive factor (a change of unit) |
| `Seismic.SeismicZone` | SCLC_CIVIL_PROJECT/soil3.py:72-82 | the zone chosen by the substring tests is always a key of `zone_factors` (never "Zone V"), so the lookup cannot fail |
| `Seismic.Amplification` | SCLC_CIVIL_PROJECT/soil3.py:84-89 | S ∈ {1.0, 1.2, 1.5}, and S = 1.5 exactly when the label contains "CL" or "ML" |
| `Seismic.DeriveDemand` | SCLC_CIVIL_PROJECT/soil3.py:72-92 | for any label: Z = zone_factors[zone], amax/g = Z·S exactly, amax = (amax/g)·9.81, and amax/g ∈ {0.10, 0.24, 0.288, 0.36}, so amax/g ≥ 0.10 |
| `Seismic.Contains` | SCLC_CIVIL_PROJECT/soil3.py:72-86 | Python's `sub in s`: true only when sub fits in s, and always true for the empty sub |
| `Seismic.ContainsIffOccurs` | SCLC_CIVIL_PROJECT/soil3.py:72-86 | `Contains(s, sub)` holds exactly when sub occurs in s at some index i, i.e. s[i..i+|sub|] = sub |
| `Seismic.MissingCharNotContained` | SCLC_CIVIL_PROJECT/soil3.py:72-76 | `sub in s` is false whenever one character of sub does not occur in s |
| `Seismic.LabelCodes` | SCLC_CIVIL_PROJECT/soil3.py:47-56 | each label contains "CL", "ML" or "SM" exactly when it is that class's label, and no code tested before its own |
| `Seismic.DispatchSelectsRow` | SCLC_CIVIL_PROJECT/soil3.py:72-89 | the substring dispatch on each class's label yields that class's row: CL → (III, 0.16, 1.5), ML → (IV, 0.24, 1.5), SM → (IV, 0.24, 1.2), SW/SP → (II, 0.10, 1.0) |
| `Seismic.AmaxGByClass` | SCLC_CIVIL_PROJECT/soil3.py:91-92 | amax/g per class: CL 0.24, ML 0.36, SM 0.288, SW and SP 0.10 |
| `Liquefaction.TotalStress` | SCLC_CIVIL_PROJECT/soil3.py:115 | σv = γ·z is positive for positive γ and z |
| `Liquefaction.PorePressure` | SCLC_CIVIL_PROJECT/soil3.py:116 | the subtracted pore pressure is never negative, and is positive exactly below the water table |
| `Liquefaction.EffectiveStress` | SCLC_CIVIL_PROJECT/soil3.py:115-116 | σv' ≤ σv, with equality exactly when z ≤ zw |
| `Liquefaction.PorePressureGrowth` | SCLC_CIVIL_PROJECT/soil3.py:115-116 | below the water table, each extra metre of depth widens σv − σv' by 9.81 kPa |
| `Liquefaction.EffectiveStressPositive` | SCLC_CIVIL_PROJECT/soil3.py:109-116 | under the widget ranges σv' ≥ (γ − 9.81)·z and σv' ≥ 0.095 > 0 |
| `Liquefaction.LeastEffectiveStress` | SCLC_CIVIL_PROJECT/soil3.py:109-116 | z = 0.5, γ = 10, zw = 0 is inside the widget ranges and attains σv' = 0.095, so the lower bound is tight |
| `Liquefaction.StressReduction` | SCLC_CIVIL_PROJECT/soil3.py:117-118 | rd ≥ 0.5; rd ≤ 1 for z ≥ 0; rd = 0.5 exactly when 0.00765·z ≥ 0.5; for 0.5 ≤ z ≤ 50 the clamp is inactive and 0.6175 ≤ rd ≤ 0.996175 |
| `Liquefaction.CyclicStressRatio` | SCLC_CIVIL_PROJECT/soil3.py:124 | CSR > 0 when amax/g, σv, σv' and rd are positive |
| `Liquefaction.CyclicResistanceRatio` | SCLC_CIVIL_PROJECT/soil3.py:125-126 | the correlation raises ZeroDivisionError exactly at N1_60 = 34, and is positive for 0 ≤ N1_60 < 34 |
| `Liquefaction.Judge` | SCLC_CIVIL_PROJECT/soil3.py:139-142 | "likely" exactly when FS < 1 |
| `Liquefaction.FactorOfSafetyBelowOne` | SCLC_CIVIL_PROJECT/soil3.py:127 | with CSR > 0: FS·CSR = CRR, FS < 1 iff CRR < CSR, and FS > 0 when CRR > 0 |
| `Liquefaction.Assess` | SCLC_CIVIL_PROJECT/soil3.py:121-142 | from Cn on: N1_60 = N·Cn; ZeroDivisionError exactly when N1_60 = 34; otherwise CSR is the formula at line 124 on these amax/g, σv, σv', rd and is positive, CRR is the correlation at line 125 on N1_60, FS = CRR/CSR, verdict likely iff CRR < CSR, and CRR, FS > 0 when N1_60 < 34 |
| `Session.WithFlags` | SCLC_CIVIL_PROJECT/soil3.py:15-18 | initialisation adds each missing flag as False and keeps every existing key and value |
| `Session.SessionState.constructor` | SCLC_CIVIL_PROJECT/soil3.py:15-18 | a new session holds no keys: this is Streamlit's starting state, which the flag initialisation tests against |
| `Session.SessionState.InitFlags` | SCLC_CIVIL_PROJECT/soil3.py:15-18 | the dictionary becomes WithFlags of the old one, and the invariant and both flags' truth are kept |
| `Session.SessionState.RecordClassification` | SCLC_CIVIL_PROJECT/soil3.py:58-59 | stores the label, sets step1_complete, and leaves step 2's flag unchanged |
| `Session.SessionState.RecordDemand` | SCLC_CIVIL_PROJECT/soil3.py:94-95 | callable only when step 1 is complete; stores amax/g, sets step2_complete, and keeps the invariant step2 ⇒ step1 |
| `Session.SessionState.Reset` | SCLC_CIVIL_PROJECT/soil3.py:9-11 | the loop over a snapshot of the keys deletes them all: the dictionary is empty and both flags are false |
| `Soil3.OverburdenCorrection` | SCLC_CIVIL_PROJECT/soil3.py:120 | for σv' > 0, Cn > 0 and Cn²·σv' = 100; for σv' ≤ 0, Cn = 0 |
| `Soil3.Evaluate` | SCLC_CIVIL_PROJECT/soil3.py:115-144 | the error branch is taken exactly when σv' ≤ 0; ZeroDivisionError exactly when σv' > 0 and N·Cn = 34; otherwise the report has σv, σv', rd, Cn²·σv' = 100, N1_60 = N·Cn, CSR = 0.65·(amax/g)·(σv/σv')·rd > 0, CRR is the correlation on N1_60, FS = CRR/CSR and verdict likely iff FS < 1 |
| `Soil3.GuardUnreachable` | SCLC_CIVIL_PROJECT/soil3.py:109-123 | inside the widget ranges the σv' ≤ 0 error branch is never taken |
| `Soil3.SingularBlowCount` | SCLC_CIVIL_PROJECT/soil3.py:109-125 | γ = 20, z = zw = 5, N = 34 is inside the widget ranges and makes the CRR formula divide by zero |
| `Soil3.DenseLayerReportedLikely` | SCLC_CIVIL_PROJECT/soil3.py:125-142 | the same layer with N = 35 gives N1_60 = 35, CRR < 0 and the verdict "likely" |
| `Soil3.Run` | SCLC_CIVIL_PROJECT/soil3.py:9-144 | one run: reset empties the session and ends the run; otherwise no key other than step1_complete, step2_complete, soil_type and amax_g is added, removed or changed; without a classify press every key other than step2_complete and amax_g keeps its value (the stored label included); step1 becomes complete iff classify was pressed now or before, step2 ⇔ step1 afterwards, the stored label and amax/g are those steps 1 and 2 compute, and step 3 is shown iff step 2 is complete, with the outcome of `Evaluate` |
| `Soil3.ResetThenRerun` | SCLC_CIVIL_PROJECT/soil3.py:9-18 | after a reset and the following run, the session holds exactly the two flags, both False |
| `Soil2.Evaluate` | SCLC_CIVIL_PROJECT/soil2.py:103-135 | the unguarded divisions are defined for every input in the widget ranges; never the error branch; ZeroDivisionError exactly when N·√(100/σv') = 34; otherwise the same report as the guarded script: σv, σv', rd, Cn, N1_60, CSR from amax/g, CRR from the correlation, FS = CRR/CSR and the verdict |
| `Soil2.AgreesWithGuardedScript` | SCLC_CIVIL_PROJECT/soil2.py:109-120 | inside the widget ranges the unguarded step 3 gives exactly the guarded script's outcome |
| `Soil2.DefaultSampleIsSiltySand` | SCLC_CIVIL_PROJECT/soil2.py:24-50 | the default inputs give PI = 10, Cu = 3, Cc = 4/3 and class SM |
| `Soil2.DefaultDemand` | SCLC_CIVIL_PROJECT/soil2.py:66-86 | the SM label maps to zone IV, Z = 0.24, S = 1.2, amax = 2.82528 m/s², amax/g = 0.288 |
| `Soil2.DefaultLayerStresses` | SCLC_CIVIL_PROJECT/soil2.py:103-112 | the default layer is inside the widget ranges and gives σv = 90, σv' = 60.57 and rd = 0.96175 |
| `Soil2.DefaultCorrectionBounds` | SCLC_CIVIL_PROJECT/soil2.py:114 | the default Cn = √(100/60.57) lies between 1.28 and 1.29 |
| `Soil2.ResistanceNearDefault` | SCLC_CIVIL_PROJECT/soil2.py:118 | for 19.2 < N1_60 < 19.35, CRR is defined and below 0.22 |
| `Soil2.DefaultLayerLikely` | SCLC_CIVIL_PROJECT/soil2.py:109-135 | the default layer with N = 15 and amax/g = 0.288 completes with the verdict "likely" |
| `Soil2.DefaultVerdictLikely` | SCLC_CIVIL_PROJECT/soil2.py:24-135 | the default inputs, taken through all three steps, complete with the verdict "likely" |
| `Soil2.Run` | SCLC_CIVIL_PROJECT/soil2.py:9-135 | one run without a reset: no key other than step1_complete, step2_complete, soil_type and amax_g is added, removed or changed; without a classify press every key other than step2_complete and amax_g keeps its value (the stored label included); step1 becomes complete iff classify was pressed now or before, step2 ⇔ step1 afterwards, the stored label and amax/g are those steps 1 and 2 compute, and step 3 is shown iff step 2 is complete, with the outcome of `Soil2.Evaluate` |

## Left out

- Streamlit rendering is not modelled: page setup, headers, expanders, markdown,
  success and error messages. A run returns the step-3 outcome instead of
  showing it.
- `st.experimental_rerun()` is modelled as the end of the current run. The
  next run is a separate call to `Soil3.Run`.
- Floating-point arithmetic and display rounding (`:.2f`, `:.3f`) are not
  modelled; all quantities are exact reals. amax/9.81 = Z·S holds only in
  exact arithmetic.
- The square root is a parameter with only the `IsSquareRoot` property, so
  CRR and FS values are proved only as bounds. The worked example uses
  1.28 < Cn < 1.29.
- `Soil2.Evaluate` requires the widget ranges, because for σv' < 0 the script
  would go on with complex numbers from `** 0.5`. That path is outside the
  widget ranges and is not modelled.
- `Soil3.Evaluate` needs only the N-value range and amax/g > 0. The layer
  values are left free so that the guard branch can be reached, as happens
  outside the widget ranges.
- The upper limit of 10 mm on D10, D30 and D60 in `soil3.py` is not a
  precondition, because no computation depends on it.
- `import math` is unused in both scripts. The "Zone V" entry of
  `zone_factors` is kept, but no branch selects it.
- The repository's third script uses a different CRR correlation and has
  gravel classes. It is not part of this model.
