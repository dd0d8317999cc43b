/**
 * The read-only view a share link opens. It carries its own, narrower copy
 * of the macro percentage rule: only "gord" and "fat" count as fat, and there
 * is no alcohol class.
 */
module SharedMealView {
  import opened Js
  import ResultCard

  /** Calories per gram in the shared view: 9 for a fat name, else 4. */
  function Density(macroName: string): (d: int)
    ensures var lower := ToLower(macroName);
      && (d == 9 <==> Includes(lower, "gord") || Includes(lower, "fat"))
      && (d == 4 <==> !Includes(lower, "gord") && !Includes(lower, "fat"))
  {
    var lower := ToLower(macroName);
    if Includes(lower, "gord") || Includes(lower, "fat") then 9 else 4
  }

  /** The shared view's macro percentage: 0 for a 0-calorie meal, else the rounded share. */
  function MacroPercentage(macroName: string, grams: real, totalCalories: real): (p: int)
    ensures totalCalories == 0.0 ==> p == 0
    ensures totalCalories != 0.0 ==>
      var share := grams * Density(macroName) as real / totalCalories * 100.0;
      share - 1.0 / 2.0 < p as real <= share + 1.0 / 2.0
  {
    if totalCalories == 0.0 then 0
    else Round(grams * Density(macroName) as real / totalCalories * 100.0)
  }

  /** The two classifiers agree exactly on names holding neither "lipid" nor "alco". */
  lemma ClassifiersAgree(macroName: string)
    requires !Includes(ToLower(macroName), "lipid") && !Includes(ToLower(macroName), "alco")
    ensures Density(macroName) == ResultCard.Density(macroName)
    ensures forall g: real, t: real :: MacroPercentage(macroName, g, t) == ResultCard.MacroPercentage(macroName, g, t)
  {
    forall g: real, t: real
      ensures MacroPercentage(macroName, g, t) == ResultCard.MacroPercentage(macroName, g, t)
    {
      if t != 0.0 {
        assert ResultCard.MacroShare(macroName, g, t) == g * Density(macroName) as real / t * 100.0;
      }
    }
  }

  /**
   * The two classifiers disagree exactly on names holding "lipid" or "alco"
   * but neither "gord" nor "fat"; there the shared view says 4 kcal/g.
   */
  lemma DisagreeExactlyOnLipidOrAlcohol(macroName: string)
    ensures var lower := ToLower(macroName);
      Density(macroName) != ResultCard.Density(macroName) <==>
        (Includes(lower, "lipid") || Includes(lower, "alco")) && !Includes(lower, "gord") && !Includes(lower, "fat")
    ensures Density(macroName) != ResultCard.Density(macroName) ==> Density(macroName) == 4
  {
  }

  /** "Lipids": 9 kcal/g on the card, 4 in the shared view. */
  lemma LipidsDiverge(name: string)
    requires name == "Lipids"
    ensures ResultCard.Density(name) == 9 && Density(name) == 4
  {
    assert OccursAt(ToLower(name), "lipid", 0);
    LowerLacks(name, 'g');
    LowerLacks(name, 'f');
    NotIncludedByMissingChar(ToLower(name), "gord", 'g');
    NotIncludedByMissingChar(ToLower(name), "fat", 'f');
  }

  /** "Alcohol": 7 kcal/g on the card, 4 in the shared view. */
  lemma AlcoholDiverges(name: string)
    requires name == "Alcohol"
    ensures ResultCard.Density(name) == 7 && Density(name) == 4
  {
    ResultCard.DensityOfAlcohol(name);
    ResultCard.NoFatLetters(name, 'i');
  }

  /**
   * Accented labels do not reach the fragments: "Lipídios" lower-cases to
   * "lipídios", which holds no "lipid", so both views count it 4 kcal/g.
   */
  lemma AccentedLipidLabelAgrees(name: string)
    requires name == "Lipídios"
    ensures ResultCard.Density(name) == 4 && Density(name) == 4
  {
    var lower := ToLower(name);
    LowerLacks(name, 'g');
    LowerLacks(name, 'f');
    LowerLacks(name, 'a');
    NotIncludedByMissingChar(lower, "gord", 'g');
    NotIncludedByMissingChar(lower, "fat", 'f');
    NotIncludedByMissingChar(lower, "alco", 'a');
    forall k | 0 <= k <= |lower| - 5 ensures !OccursAt(lower, "lipid", k) {
      assert lower[k..k + 5][0] == lower[k] == LowerChar(name[k]);
      assert lower[k..k + 5][3] == lower[k + 3] == LowerChar(name[k + 3]);
    }
  }
}
