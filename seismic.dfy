/** Step 2 of both liquefaction scripts: the seismic demand derived from
    the soil label alone. The zone and the amplification factor are chosen
    by substring tests on the stored label, the zone factor by a dictionary
    lookup, and amax/g = Z * S. The two scripts contain the same code. */
module Seismic {
  import opened Classification

  /** Python's `sub in s` on strings: sub occurs as a contiguous piece of s. */
  predicate Contains(s: string, sub: string)
    ensures Contains(s, sub) ==> |sub| <= |s|
    ensures |sub| == 0 ==> Contains(s, sub)
    decreases |s|
  {
    if |s| < |sub| then false
    else s[..|sub|] == sub || Contains(s[1..], sub)
  }

  /** Acceleration due to gravity (m/s^2), as written in both scripts. */
  const Gravity: real := 9.81

  /** The `zone_factors` dictionary, with its unused "Zone V" entry. */
  const ZoneFactors: map<string, real> :=
    map["Zone II" := 0.10, "Zone III" := 0.16, "Zone IV" := 0.24, "Zone V" := 0.36]

  /** Every value amax/g can take. */
  const AmaxGValues: set<real> := {0.10, 0.24, 0.288, 0.36}

  /** The seismic demand a script derives and shows in step 2. */
  datatype Demand = Demand(zone: string, z: real, s: real, amax: real, amaxG: real)

  /** The zone chosen by the substring tests; the lookup that follows
      cannot fail. */
  function SeismicZone(soilType: string): (zone: string)
    ensures zone in ZoneFactors && zone != "Zone V"
  {
    if Contains(soilType, "CL") then "Zone III"
    else if Contains(soilType, "ML") then "Zone IV"
    else if Contains(soilType, "SM") then "Zone IV"
    else "Zone II"
  }

  /** The soil amplification factor S chosen by the substring tests. */
  function Amplification(soilType: string): (s: real)
    ensures s in {1.0, 1.2, 1.5}
    ensures s == 1.5 <==> Contains(soilType, "CL") || Contains(soilType, "ML")
  {
    if Contains(soilType, "CL") || Contains(soilType, "ML") then 1.5
    else if Contains(soilType, "SM") then 1.2
    else 1.0
  }

  /** The whole of step 2 for any stored label. amax is computed as
      Z * S * g and amax/g as amax / g, which in exact arithmetic is Z * S. */
  function DeriveDemand(soilType: string): (d: Demand)
    ensures d.zone in ZoneFactors && d.z == ZoneFactors[d.zone]
    ensures d.amaxG == d.z * d.s
    ensures d.amax == d.amaxG * Gravity
    ensures d.amaxG in AmaxGValues
    ensures d.amaxG >= 0.10
  {
    var zone := SeismicZone(soilType);
    var z := ZoneFactors[zone];
    var s := Amplification(soilType);
    var amax := z * s * Gravity;
    Demand(zone, z, s, amax, amax / Gravity)
  }

  /** The table the substring dispatch is meant to implement, one row per
      class: (zone, Z, S). */
  function IntendedRow(c: SoilClass): (string, real, real) {
    match c
    case CL => ("Zone III", 0.16, 1.5)
    case ML => ("Zone IV", 0.24, 1.5)
    case SM => ("Zone IV", 0.24, 1.2)
    case SW => ("Zone II", 0.10, 1.0)
    case SP => ("Zone II", 0.10, 1.0)
  }

  /** sub occurs in s starting at index i. */
  predicate OccursAt(s: string, sub: string, i: int) {
    0 <= i <= |s| - |sub| && s[i..i + |sub|] == sub
  }

  /** `Contains` agrees with the textbook definition: sub occurs in s at
      some index. */
  lemma {:induction false} ContainsIffOccurs(s: string, sub: string)
    ensures Contains(s, sub) <==> exists i :: OccursAt(s, sub, i)
    decreases |s|
  {
    if |s| >= |sub| {
      if s[..|sub|] == sub {
        assert OccursAt(s, sub, 0);
      } else {
        ContainsIffOccurs(s[1..], sub);
        if Contains(s[1..], sub) {
          var j :| OccursAt(s[1..], sub, j);
          assert s[j + 1..j + 1 + |sub|] == s[1..][j..j + |sub|];
          assert OccursAt(s, sub, j + 1);
        }
        if exists i :: OccursAt(s, sub, i) {
          var i :| OccursAt(s, sub, i);
          assert s[..|sub|] == s[0..0 + |sub|];
          assert s[1..][i - 1..i - 1 + |sub|] == s[i..i + |sub|];
          assert OccursAt(s[1..], sub, i - 1);
        }
      }
    }
  }

  /** A string that starts with sub contains it. */
  lemma PrefixContained(s: string, sub: string)
    requires |sub| <= |s| && s[..|sub|] == sub
    ensures Contains(s, sub)
  {
  }

  /** A string that lacks one of sub's characters does not contain sub. */
  lemma {:induction false} MissingCharNotContained(s: string, sub: string, k: nat)
    requires k < |sub| && sub[k] !in s
    ensures !Contains(s, sub)
    decreases |s|
  {
    if |s| >= |sub| {
      assert s[..|sub|][k] == s[k];
      assert sub[k] !in s[1..] by {
        forall i | 0 <= i < |s[1..]| ensures s[1..][i] != sub[k] {
          assert s[1..][i] == s[i + 1];
        }
      }
      MissingCharNotContained(s[1..], sub, k);
    }
  }

  /** Each label starts with its own two-letter code. */
  lemma LabelStartsWithCode(c: SoilClass)
    ensures |Label(c)| >= 2 && Contains(Label(c), Label(c)[..2])
  {
    PrefixContained(Label(c), Label(c)[..2]);
  }

  /** Only the clay label has a 'C'. */
  lemma NoCExceptClay(c: SoilClass)
    requires c != CL
    ensures 'C' !in Label(c)
  {
  }

  /** Neither sand-gradation label has an 'M'. */
  lemma NoMInGradedSands(c: SoilClass)
    requires c in {SW, SP}
    ensures 'M' !in Label(c)
  {
  }

  /** The silty-sand label has no 'L'. */
  lemma NoLInSiltySand()
    ensures 'L' !in Label(SM)
  {
  }

  /** Which of the three codes tested by step 2 each label contains: its
      own code, if it is one of them, and none tested before it. */
  lemma LabelCodes(c: SoilClass)
    ensures Contains(Label(c), "CL") <==> c == CL
    ensures c != CL ==> (Contains(Label(c), "ML") <==> c == ML)
    ensures c != CL && c != ML ==> (Contains(Label(c), "SM") <==> c == SM)
  {
    LabelStartsWithCode(c);
    if c == CL {
      assert Label(c)[..2] == "CL";
    } else {
      NoCExceptClay(c);
      MissingCharNotContained(Label(c), "CL", 0);
    }
    if c == ML {
      assert Label(c) == "ML (Silt with low plasticity)";
      assert Label(c)[..2] == "ML";
    }
    if c == SM {
      assert Label(c)[..2] == "SM";
      NoLInSiltySand();
      MissingCharNotContained(Label(c), "ML", 1);
    }
    if c in {SW, SP} {
      NoMInGradedSands(c);
      MissingCharNotContained(Label(c), "ML", 0);
      MissingCharNotContained(Label(c), "SM", 1);
    }
  }

  /** The substring tests on each label select exactly that class's row. */
  lemma DispatchSelectsRow(c: SoilClass)
    ensures var d := DeriveDemand(Label(c)); (d.zone, d.z, d.s) == IntendedRow(c)
  {
    LabelCodes(c);
  }

  /** amax/g for each class: 0.24 for CL, 0.36 for ML, 0.288 for SM and
      0.10 for SW and SP. */
  lemma AmaxGByClass(c: SoilClass)
    ensures DeriveDemand(Label(c)).amaxG ==
      match c
      case CL => 0.24
      case ML => 0.36
      case SM => 0.288
      case SW => 0.10
      case SP => 0.10
  {
    DispatchSelectsRow(c);
  }
}
