/**
 * The activity tracker: the body profile used for the estimate, the add form
 * and its calorie calculation (MET x weight in kg x duration in hours).
 */
module ActivityTracker {
  import opened Wrappers
  import opened Js
  import opened Types

  /** What the MET lookup delivered: a value, or a failure of the remote call. */
  datatype MetLookup = MetFound(met: real) | MetFailed

  /** A failed lookup answers the MET of rest. */
  const RestingMet := 1.0

  function MetOf(lookup: MetLookup): (met: real)
    ensures lookup.MetFailed? ==> met == RestingMet
    ensures lookup.MetFound? ==> met == lookup.met
  {
    match lookup
    case MetFound(v) => v
    case MetFailed => RestingMet
  }

  /**
   * `Math.round(met * weight * (minutes / 60))`: the nearest whole number to
   * MET x kg x hours, halves rounding up.
   */
  function EstimateCalories(met: real, weight: real, minutes: real): (kcal: int)
    ensures var exact := met * weight * (minutes / 60.0);
      exact - 1.0 / 2.0 < kcal as real <= exact + 1.0 / 2.0
    ensures met >= 0.0 && weight >= 0.0 && minutes >= 0.0 ==> kcal >= 0
  {
    var exact := met * weight * (minutes / 60.0);
    assert met >= 0.0 && weight >= 0.0 && minutes >= 0.0 ==> exact >= 0.0 by {
      if met >= 0.0 && weight >= 0.0 && minutes >= 0.0 {
        assert met * weight >= 0.0;
      }
    }
    Round(exact)
  }

  /** MET 6 for 30 minutes at 70 kg burns 210 kcal. */
  lemma EstimateExample(met: real, weight: real, minutes: real)
    requires met == 6.0 && weight == 70.0 && minutes == 30.0
    ensures EstimateCalories(met, weight, minutes) == 210
  {
    assert met * weight * (minutes / 60.0) == 210.0;
    RoundOfInteger(210);
  }

  /** A duration of 0 minutes passes validation and burns nothing. */
  lemma ZeroMinutesBurnNothing(met: real, weight: real)
    ensures EstimateCalories(met, weight, 0.0) == 0
  {
    RoundOfInteger(0);
  }

  /** Longer sessions never burn fewer calories. */
  lemma EstimateMonotonicInDuration(met: real, weight: real, m1: real, m2: real)
    requires met >= 0.0 && weight >= 0.0 && m1 <= m2
    ensures EstimateCalories(met, weight, m1) <= EstimateCalories(met, weight, m2)
  {
    var k := met * weight;
    assert k >= 0.0;
    assert k * (m1 / 60.0) <= k * (m2 / 60.0) by {
      assert k * (m2 / 60.0) - k * (m1 / 60.0) == k * ((m2 - m1) / 60.0);
    }
    RoundMonotonic(k * (m1 / 60.0), k * (m2 / 60.0));
  }

  /**
   * The validation of the add button: a non-zero weight, a non-empty name and a
   * non-empty duration field. Only the empty duration fails; "0" passes.
   */
  predicate CanCalculate(profile: UserProfile, name: string, duration: NumText) {
    profile.weight != 0.0 && name != "" && duration != Blank
  }

  /** The two profile inputs, named after the field they write. */
  datatype ProfileField = Weight | Height

  /** `{ ...profile, [name]: Number(value) }`: the named field changes, the other is kept. */
  function UpdateProfile(p: UserProfile, field: ProfileField, value: NumText): (r: UserProfile)
    ensures field == Weight ==> r.weight == NumberOf(value) && r.height == p.height
    ensures field == Height ==> r.height == NumberOf(value) && r.weight == p.weight
  {
    match field
    case Weight => p.(weight := NumberOf(value))
    case Height => p.(height := NumberOf(value))
  }

  /** `value={profile.weight || ''}`: a zero measurement shows an empty field. */
  function ProfileText(x: real): (t: NumText)
    ensures t == Blank <==> x == 0.0
  {
    if x == 0.0 then Blank else Numeral(x)
  }

  function FieldOf(p: UserProfile, field: ProfileField): real {
    match field
    case Weight => p.weight
    case Height => p.height
  }

  /** Re-entering what a profile input shows leaves the profile as it was. */
  lemma ProfileEchoIsIdentity(p: UserProfile, field: ProfileField)
    ensures UpdateProfile(p, field, ProfileText(FieldOf(p, field))) == p
  {
  }

  /** Clearing the weight field blocks every calculation. */
  lemma ClearedWeightBlocksCalculation(p: UserProfile, name: string, duration: NumText)
    ensures !CanCalculate(UpdateProfile(p, Weight, Blank), name, duration)
  {
  }

  /** The collapsible add form and its field state. */
  class ActivityForm {
    var isOpen: bool
    var isLoading: bool
    var activityName: string
    var duration: NumText
    var intensity: Intensity

    constructor ()
      ensures !isOpen && !isLoading
      ensures activityName == "" && duration == Blank && intensity == Moderado
    {
      isOpen := false;
      isLoading := false;
      activityName := "";
      duration := Blank;
      intensity := Moderado;
    }

    /** A click on the header opens or closes the panel. */
    method Toggle()
      modifies this
      ensures isOpen == !old(isOpen)
      ensures isLoading == old(isLoading) && activityName == old(activityName)
      ensures duration == old(duration) && intensity == old(intensity)
    {
      isOpen := !isOpen;
    }

    method SetActivityName(name: string)
      modifies this
      ensures activityName == name
      ensures isOpen == old(isOpen) && isLoading == old(isLoading)
      ensures duration == old(duration) && intensity == old(intensity)
    {
      activityName := name;
    }

    method SetDuration(d: NumText)
      modifies this
      ensures duration == d
      ensures isOpen == old(isOpen) && isLoading == old(isLoading)
      ensures activityName == old(activityName) && intensity == old(intensity)
    {
      duration := d;
    }

    method SetIntensity(i: Intensity)
      modifies this
      ensures intensity == i
      ensures isOpen == old(isOpen) && isLoading == old(isLoading)
      ensures activityName == old(activityName) && duration == old(duration)
    {
      intensity := i;
    }

    /**
     * `handleCalculate`. A rejected form adds nothing, consults no MET and
     * leaves the form as it was. Otherwise the new record carries the name,
     * `Number(duration)`, the intensity, the MET used and the estimate; the
     * name and duration are cleared, the intensity is kept and loading ends.
     */
    method Calculate(profile: UserProfile, lookup: MetLookup, id: string, timestamp: string)
      returns (added: Option<ActivityLog>)
      modifies this
      ensures !CanCalculate(profile, old(activityName), old(duration)) ==>
        added == None && unchanged(this)
      ensures CanCalculate(profile, old(activityName), old(duration)) ==>
        var minutes := NumberOf(old(duration));
        var met := MetOf(lookup);
        added == Some(ActivityLog(id, old(activityName), minutes, old(intensity), met,
                                  EstimateCalories(met, profile.weight, minutes), timestamp))
        && activityName == "" && duration == Blank && intensity == old(intensity)
        && !isLoading && isOpen == old(isOpen)
    {
      if !CanCalculate(profile, activityName, duration) {
        return None;
      }
      isLoading := true;
      var met := MetOf(lookup);
      var minutes := NumberOf(duration);
      var caloriesBurned := EstimateCalories(met, profile.weight, minutes);
      added := Some(ActivityLog(id, activityName, minutes, intensity, met, caloriesBurned, timestamp));
      activityName := "";
      duration := Blank;
      isLoading := false;
    }
  }
}
