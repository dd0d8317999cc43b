/** The records every other part of the ledger works on. */
module Types {
  import opened Wrappers

  /** One macro- or micronutrient quantity of a meal. It has no percentage. */
  datatype Nutrient = Nutrient(name: string, amount: real, unit: string)

  /** One identified food of a meal; its share of the dish is optional. */
  datatype Ingredient = Ingredient(name: string, amount: real, unit: string, percentage: Option<real>)

  /** What the image analysis returns for one photo. */
  datatype MealAnalysis = MealAnalysis(
    title: string,
    description: string,
    calories: real,
    macros: seq<Nutrient>,
    micros: seq<Nutrient>,
    ingredients: seq<Ingredient>)

  /** A logged meal: an analysis plus its id, creation time and image data. */
  datatype MealLog = MealLog(
    id: string,
    timestamp: string,
    imageSrc: string,
    title: string,
    description: string,
    calories: real,
    macros: seq<Nutrient>,
    micros: seq<Nutrient>,
    ingredients: seq<Ingredient>)
  {
    /** The analysis part of the entry, without id, timestamp and image. */
    function Analysis(): MealAnalysis {
      MealAnalysis(title, description, calories, macros, micros, ingredients)
    }
  }

  /** `{ ...analysis, id, timestamp, imageSrc }`. */
  function NewMealLog(a: MealAnalysis, id: string, timestamp: string, imageSrc: string): MealLog {
    MealLog(id, timestamp, imageSrc, a.title, a.description, a.calories, a.macros, a.micros, a.ingredients)
  }

  /** A meal log is exactly an analysis plus id, timestamp and image: both directions. */
  lemma MealLogIsAnalysisPlusIdentity(a: MealAnalysis, m: MealLog, id: string, timestamp: string, imageSrc: string)
    ensures NewMealLog(a, id, timestamp, imageSrc).Analysis() == a
    ensures NewMealLog(m.Analysis(), m.id, m.timestamp, m.imageSrc) == m
  {
  }

  /** The daily targets: exactly five numeric fields. */
  datatype DailyGoals = DailyGoals(calories: real, protein: real, carbs: real, fat: real, burnedCalories: real)

  /** The body data used by the calorie estimate: weight in kg, height in cm. */
  datatype UserProfile = UserProfile(weight: real, height: real)

  /** The three effort levels an activity can be logged with. */
  datatype Intensity = Leve | Moderado | Vigoroso

  /** A logged activity. Its burned calories come from `Math.round`, hence an integer. */
  datatype ActivityLog = ActivityLog(
    id: string,
    name: string,
    durationMinutes: real,
    intensity: Intensity,
    metValue: real,
    caloriesBurned: int,
    timestamp: string)
}
