/**
 * The meal card: the macro share of a meal's calories, the share link and
 * share text lookups, and the edit draft a user changes before saving.
 */
module ResultCard {
  import opened Wrappers
  import opened Js
  import opened Types
  import opened NutrientMatch

  // ---------------------------------------------------------------- density

  /** The lower-cased name names a fat: it contains "gord", "fat" or "lipid". */
  predicate NamesFat(lower: string) {
    Includes(lower, "gord") || Includes(lower, "fat") || Includes(lower, "lipid")
  }

  /** Calories per gram of a macro, classified by its free-text name. */
  function Density(macroName: string): (d: int)
    ensures var lower := ToLower(macroName);
      && (d == 9 <==> NamesFat(lower))
      && (d == 7 <==> !NamesFat(lower) && Includes(lower, "alco"))
      && (d == 4 <==> !NamesFat(lower) && !Includes(lower, "alco"))
  {
    var lower := ToLower(macroName);
    var caloriesPerGram := if NamesFat(lower) then 9 else if Includes(lower, "alco") then 7 else 4;
    caloriesPerGram
  }

  /** The macro's calories as a share of the meal's calories, in percent, before rounding. */
  function MacroShare(macroName: string, grams: real, totalCalories: real): real
    requires totalCalories != 0.0
  {
    grams * Density(macroName) as real / totalCalories * 100.0
  }

  /**
   * The percentage shown beside a macro: 0 for a meal of 0 calories, otherwise
   * the share rounded to the nearest integer. A negative total is not guarded.
   */
  function MacroPercentage(macroName: string, grams: real, totalCalories: real): (p: int)
    ensures totalCalories == 0.0 ==> p == 0
    ensures totalCalories != 0.0 ==>
      MacroShare(macroName, grams, totalCalories) - 1.0 / 2.0 < p as real <= MacroShare(macroName, grams, totalCalories) + 1.0 / 2.0
  {
    if totalCalories == 0.0 then 0
    else Round(MacroShare(macroName, grams, totalCalories))
  }

  /** For a positive total, more grams never give a smaller percentage. */
  lemma MacroPercentageMonotonic(macroName: string, g1: real, g2: real, totalCalories: real)
    requires totalCalories > 0.0 && g1 <= g2
    ensures MacroPercentage(macroName, g1, totalCalories) <= MacroPercentage(macroName, g2, totalCalories)
  {
    var d := Density(macroName) as real;
    assert d > 0.0;
    assert g1 * d <= g2 * d;
    assert g1 * d / totalCalories <= g2 * d / totalCalories;
    RoundMonotonic(MacroShare(macroName, g1, totalCalories), MacroShare(macroName, g2, totalCalories));
  }

  /** A name lacking 'g', 'f' and one letter of "lipid", in either case, names no fat. */
  lemma NoFatLetters(name: string, lipidLetter: char)
    requires 'g' !in name && 'G' !in name && 'f' !in name && 'F' !in name
    requires lipidLetter in "lipid" && lipidLetter !in name && (lipidLetter as int - 32) as char !in name
    ensures !NamesFat(ToLower(name))
  {
    var lower := ToLower(name);
    LowerLacks(name, 'g');
    LowerLacks(name, 'f');
    LowerLacks(name, lipidLetter);
    NotIncludedByMissingChar(lower, "gord", 'g');
    NotIncludedByMissingChar(lower, "fat", 'f');
    NotIncludedByMissingChar(lower, "lipid", lipidLetter);
  }

  /** The Portuguese fat label counts 9 kcal/g. */
  lemma DensityOfGorduras(name: string)
    requires name == "Gorduras"
    ensures Density(name) == 9
  {
    assert OccursAt(ToLower(name), "gord", 0);
  }

  /** The fat test comes first: a name matching a fat fragment and "alco" counts as fat. */
  lemma FatWinsOverAlcohol(name: string)
    requires NamesFat(ToLower(name)) && Includes(ToLower(name), "alco")
    ensures Density(name) == 9
  {
  }

  /** An alcohol label counts 7 kcal/g. */
  lemma DensityOfAlcohol(name: string)
    requires name == "Alcohol"
    ensures Density(name) == 7
  {
    NoFatLetters(name, 'i');
    assert OccursAt(ToLower(name), "alco", 0);
  }

  /** A protein label falls through to the default 4 kcal/g. */
  lemma DensityOfProteinas(name: string)
    requires name == "Proteínas"
    ensures Density(name) == 4
  {
    NoFatLetters(name, 'l');
    LowerLacks(name, 'l');
    NotIncludedByMissingChar(ToLower(name), "alco", 'l');
  }

  // ---------------------------------------------------------------- sharing

  const MealIdQuery := "?mealId="

  /** `origin + pathname + "?mealId=" + id`: the link that reopens one meal. */
  function ShareLink(origin: string, pathname: string, id: string): (link: string)
    ensures |link| == |origin| + |pathname| + |MealIdQuery| + |id|
  {
    origin + pathname + MealIdQuery + id
  }

  /** What the share text shows for one macro: its grams, or 'N/A'. */
  datatype MacroText = NotAvailable | Grams(amount: real)

  /** `getMacro(fragment)`: the first macro whose name matches, or 'N/A' when none does. */
  function ShareMacro(meal: MealLog, fragment: string): (t: MacroText)
    ensures t.NotAvailable? <==> forall i :: 0 <= i < |meal.macros| ==> !NameMatches(meal.macros[i], fragment)
    ensures t.Grams? ==> exists i :: 0 <= i < |meal.macros| && NameMatches(meal.macros[i], fragment) && t.amount == meal.macros[i].amount
                                && forall j :: 0 <= j < i ==> !NameMatches(meal.macros[j], fragment)
  {
    match FindMacro(meal.macros, fragment)
    case None => NotAvailable
    case Some(n) => Grams(n.amount)
  }

  /** An ingredient's share is printed only when it is truthy: present and not 0. */
  predicate ShowsPercentage(ing: Ingredient) {
    ing.percentage.Some? && ing.percentage.value != 0.0
  }

  // ---------------------------------------------------------------- edit draft

  /** The top-level fields the edit form changes; only calories is a number. */
  datatype MealFieldEdit = SetTitle(title: string) | SetDescription(description: string) | SetCalories(calories: NumText)

  /** `handleInputChange`: sets the one named top-level field. */
  function ApplyMealEdit(m: MealLog, e: MealFieldEdit): (r: MealLog)
    ensures r.macros == m.macros && r.micros == m.micros && r.ingredients == m.ingredients
    ensures r.id == m.id && r.timestamp == m.timestamp && r.imageSrc == m.imageSrc
    ensures r.title == (if e.SetTitle? then e.title else m.title)
    ensures r.description == (if e.SetDescription? then e.description else m.description)
    ensures r.calories == (if e.SetCalories? then NumberOf(e.calories) else m.calories)
  {
    match e
    case SetTitle(t) => m.(title := t)
    case SetDescription(d) => m.(description := d)
    case SetCalories(c) => m.(calories := NumberOf(c))
  }

  /** `handleMacroChange`: only the amount of macro `i` changes. */
  function SetMacroAmount(macros: seq<Nutrient>, i: nat, amount: real): (r: seq<Nutrient>)
    requires i < |macros|
    ensures |r| == |macros|
    ensures forall j :: 0 <= j < |r| ==> r[j].name == macros[j].name && r[j].unit == macros[j].unit
    ensures r[i].amount == amount
    ensures forall j :: 0 <= j < |r| && j != i ==> r[j] == macros[j]
  {
    macros[i := macros[i].(amount := amount)]
  }

  /** One edit of an ingredient's row: text fields take text, amount and share take numbers. */
  datatype IngredientEdit =
    | SetName(name: string)
    | SetAmount(amount: NumText)
    | SetUnit(unit: string)
    | SetPercentage(percentage: NumText)

  /** The ingredient with the one field `e` names set. */
  function ApplyIngredientEdit(ing: Ingredient, e: IngredientEdit): (r: Ingredient)
    ensures r.name == (if e.SetName? then e.name else ing.name)
    ensures r.amount == (if e.SetAmount? then NumberOf(e.amount) else ing.amount)
    ensures r.unit == (if e.SetUnit? then e.unit else ing.unit)
    ensures r.percentage == (if e.SetPercentage? then Some(NumberOf(e.percentage)) else ing.percentage)
  {
    match e
    case SetName(n) => ing.(name := n)
    case SetAmount(a) => ing.(amount := NumberOf(a))
    case SetUnit(u) => ing.(unit := u)
    case SetPercentage(p) => ing.(percentage := Some(NumberOf(p)))
  }

  /** `handleIngredientChange`: only ingredient `i` changes, and only as `e` says. */
  function EditIngredientAt(ings: seq<Ingredient>, i: nat, e: IngredientEdit): (r: seq<Ingredient>)
    requires i < |ings|
    ensures |r| == |ings|
    ensures r[i] == ApplyIngredientEdit(ings[i], e)
    ensures forall j :: 0 <= j < |r| && j != i ==> r[j] == ings[j]
  {
    ings[i := ApplyIngredientEdit(ings[i], e)]
  }

  /** `filter((_, j) => j !== i)`: index `i` goes, the rest keep their order; no-op out of range. */
  function RemoveIngredientAt(ings: seq<Ingredient>, i: nat): (r: seq<Ingredient>)
    ensures i < |ings| ==> |r| == |ings| - 1
    ensures i < |ings| ==> forall j :: 0 <= j < |r| ==> r[j] == (if j < i then ings[j] else ings[j + 1])
    ensures i >= |ings| ==> r == ings
  {
    if i < |ings| then ings[..i] + ings[i + 1..] else ings
  }

  /** The row `handleAddIngredient` appends. */
  const NewIngredient := Ingredient("Novo Alimento", 100.0, "g", Some(0.0))

  /** `handleAddIngredient`: the new row goes at the end, the others are kept. */
  function AddIngredient(ings: seq<Ingredient>): (r: seq<Ingredient>)
    ensures |r| == |ings| + 1 && r[..|ings|] == ings && r[|ings|] == NewIngredient
  {
    ings + [NewIngredient]
  }

  /** Deleting the row just appended gives back the ingredients as they were. */
  lemma DeleteUndoesAdd(ings: seq<Ingredient>)
    ensures RemoveIngredientAt(AddIngredient(ings), |ings|) == ings
  {
    assert AddIngredient(ings)[..|ings|] == ings;
  }

  /** Re-entering a macro's current amount leaves the macros as they were. */
  lemma SetMacroAmountEcho(macros: seq<Nutrient>, i: nat)
    requires i < |macros|
    ensures SetMacroAmount(macros, i, macros[i].amount) == macros
  {
  }

  /** The three fields no edit may touch. */
  predicate SameIdentity(a: MealLog, b: MealLog) {
    a.id == b.id && a.timestamp == b.timestamp && a.imageSrc == b.imageSrc
  }

  /**
   * The card's edit state: the meal it shows (the `meal` prop, which the
   * log replaces after a save), the draft being edited and whether the
   * form is open.
   */
  class MealEditor {
    var meal: MealLog
    var editedMeal: MealLog
    var isEditing: bool

    /** No edit changes the draft's id, timestamp or image. */
    predicate Valid()
      reads this
    {
      SameIdentity(editedMeal, meal)
    }

    constructor (meal: MealLog)
      ensures Valid()
      ensures this.meal == meal && editedMeal == meal && !isEditing
    {
      this.meal := meal;
      editedMeal := meal;
      isEditing := false;
    }

    /** The edit button opens the form. */
    method StartEditing()
      requires Valid()
      modifies this
      ensures Valid()
      ensures meal == old(meal) && editedMeal == old(editedMeal) && isEditing
    {
      isEditing := true;
    }

    method InputChange(e: MealFieldEdit)
      requires Valid()
      modifies this
      ensures Valid()
      ensures meal == old(meal) && isEditing == old(isEditing)
      ensures editedMeal == ApplyMealEdit(old(editedMeal), e)
    {
      editedMeal := ApplyMealEdit(editedMeal, e);
    }

    method MacroChange(i: nat, value: NumText)
      requires Valid()
      requires i < |editedMeal.macros|
      modifies this
      ensures Valid()
      ensures editedMeal == old(editedMeal).(macros := SetMacroAmount(old(editedMeal).macros, i, NumberOf(value)))
      ensures meal == old(meal) && isEditing == old(isEditing)
    {
      var updatedMacros := SetMacroAmount(editedMeal.macros, i, NumberOf(value));
      editedMeal := editedMeal.(macros := updatedMacros);
    }

    method IngredientChange(i: nat, e: IngredientEdit)
      requires Valid()
      requires i < |editedMeal.ingredients|
      modifies this
      ensures Valid()
      ensures editedMeal == old(editedMeal).(ingredients := EditIngredientAt(old(editedMeal).ingredients, i, e))
      ensures meal == old(meal) && isEditing == old(isEditing)
    {
      var updatedIngredients := EditIngredientAt(editedMeal.ingredients, i, e);
      editedMeal := editedMeal.(ingredients := updatedIngredients);
    }

    method DeleteIngredient(i: nat)
      requires Valid()
      modifies this
      ensures Valid()
      ensures editedMeal == old(editedMeal).(ingredients := RemoveIngredientAt(old(editedMeal).ingredients, i))
      ensures meal == old(meal) && isEditing == old(isEditing)
    {
      var updatedIngredients := RemoveIngredientAt(editedMeal.ingredients, i);
      editedMeal := editedMeal.(ingredients := updatedIngredients);
    }

    method AddIngredientRow()
      requires Valid()
      modifies this
      ensures Valid()
      ensures editedMeal == old(editedMeal).(ingredients := AddIngredient(old(editedMeal).ingredients))
      ensures meal == old(meal) && isEditing == old(isEditing)
    {
      editedMeal := editedMeal.(ingredients := AddIngredient(editedMeal.ingredients));
    }

    /** `handleSave`: the draft goes to `onUpdate` unchanged and the form closes. */
    method Save() returns (updated: MealLog)
      requires Valid()
      modifies this
      ensures Valid()
      ensures updated == old(editedMeal) && SameIdentity(updated, meal)
      ensures meal == old(meal) && editedMeal == old(editedMeal) && !isEditing
    {
      updated := editedMeal;
      isEditing := false;
    }

    /**
     * The log re-renders the card (same `key`, so same state) with the meal
     * it now holds under this id: the prop changes, the draft and the form
     * flag stay as they were.
     */
    method Rerender(m: MealLog)
      requires Valid()
      requires SameIdentity(m, meal)
      modifies this
      ensures Valid()
      ensures meal == m && editedMeal == old(editedMeal) && isEditing == old(isEditing)
    {
      meal := m;
    }

    /** `handleCancel`: the draft is reset to the shown meal and the form closes. */
    method Cancel()
      requires Valid()
      modifies this
      ensures Valid()
      ensures meal == old(meal) && editedMeal == meal && !isEditing
    {
      editedMeal := meal;
      isEditing := false;
    }
  }

  /**
   * Edit a field, save (the log stores the draft and re-renders the card
   * with it), reopen the form and cancel: the form shows the saved meal,
   * not the one the card was first built with.
   */
  method EditSaveReopenCancel(m: MealLog, e: MealFieldEdit) returns (shown: MealLog)
    ensures shown == ApplyMealEdit(m, e)
  {
    var card := new MealEditor(m);
    card.StartEditing();
    card.InputChange(e);
    var updated := card.Save();
    card.Rerender(updated);
    card.StartEditing();
    card.Cancel();
    shown := card.editedMeal;
  }
}
