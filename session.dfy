/** The part of Streamlit's `st.session_state` the two scripts use: a
    dictionary that survives from one run of the script to the next and
    gates which steps are shown. */
module Session {
  import opened Seismic

  /** The kinds of value the scripts store. */
  datatype Value = Flag(b: bool) | Text(s: string) | Number(r: real)

  const Step1Key: string := "step1_complete"
  const Step2Key: string := "step2_complete"
  const SoilTypeKey: string := "soil_type"
  const AmaxGKey: string := "amax_g"

  /** The dictionary after the script's initialisation lines: each flag
      that is missing is added as False; nothing else changes. */
  function WithFlags(m: map<string, Value>): (r: map<string, Value>)
    ensures r.Keys == m.Keys + {Step1Key, Step2Key}
    ensures forall k :: k in m ==> r[k] == m[k]
    ensures Step1Key !in m ==> r[Step1Key] == Flag(false)
    ensures Step2Key !in m ==> r[Step2Key] == Flag(false)
  {
    var m1 := if Step1Key in m then m else m[Step1Key := Flag(false)];
    if Step2Key in m1 then m1 else m1[Step2Key := Flag(false)]
  }

  class SessionState {
    var state: map<string, Value>

    /** A new browser session starts with an empty dictionary. */
    constructor ()
      ensures state == map[]
    {
      state := map[];
    }

    predicate Step1Complete()
      reads this
    {
      Step1Key in state && state[Step1Key] == Flag(true)
    }

    predicate Step2Complete()
      reads this
    {
      Step2Key in state && state[Step2Key] == Flag(true)
    }

    /** The session invariant: step 1 leaves a label behind, and step 2 is
        only ever complete after step 1, with an amax/g from the table. */
    ghost predicate Valid()
      reads this
    {
      (Step1Complete() ==> SoilTypeKey in state && state[SoilTypeKey].Text?)
      && (Step2Complete() ==>
            Step1Complete() && AmaxGKey in state && state[AmaxGKey].Number?
            && state[AmaxGKey].r in AmaxGValues)
    }

    /** Both flags are created as False when missing; present keys are kept. */
    method InitFlags()
      requires Valid()
      modifies this
      ensures Valid()
      ensures state == WithFlags(old(state))
      ensures Step1Complete() == old(Step1Complete()) && Step2Complete() == old(Step2Complete())
    {
      if Step1Key !in state {
        state := state[Step1Key := Flag(false)];
      }
      if Step2Key !in state {
        state := state[Step2Key := Flag(false)];
      }
    }

    /** The end of step 1: store the label and mark the step complete. */
    method RecordClassification(soilType: string)
      requires Valid()
      modifies this
      ensures Valid() && Step1Complete()
      ensures state == old(state)[SoilTypeKey := Text(soilType)][Step1Key := Flag(true)]
      ensures Step2Complete() == old(Step2Complete())
    {
      state := state[SoilTypeKey := Text(soilType)];
      state := state[Step1Key := Flag(true)];
    }

    /** The end of step 2: store amax/g and mark the step complete. Only
        reachable inside the branch that requires step 1. */
    method RecordDemand(amaxG: real)
      requires Valid() && Step1Complete() && amaxG in AmaxGValues
      modifies this
      ensures Valid() && Step1Complete() && Step2Complete()
      ensures state == old(state)[AmaxGKey := Number(amaxG)][Step2Key := Flag(true)]
    {
      state := state[AmaxGKey := Number(amaxG)];
      state := state[Step2Key := Flag(true)];
    }

    /** The reset button: delete every key, one at a time, from a snapshot
        of the keys taken before the loop. */
    method Reset()
      modifies this
      ensures state == map[]
      ensures Valid() && !Step1Complete() && !Step2Complete()
    {
      var keys := state.Keys;
      while keys != {}
        invariant state.Keys == keys
        decreases keys
      {
        var key :| key in keys;
        state := state - {key};
        keys := keys - {key};
      }
      assert state.Keys == {};
      assert state == map[];
    }
  }
}
