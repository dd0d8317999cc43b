/**
 * The sticky daily summary: totals of the meal log, calories burned, the net
 * balance and the five progress trackers against the goals.
 */
module DailySummary {
  import opened Types
  import opened NutrientMatch

  /** The food side of the day: calories and the three recognised macros. */
  datatype Totals = Totals(calories: real, protein: real, carbs: real, fat: real)

  const NoTotals := Totals(0.0, 0.0, 0.0, 0.0)

  function Plus(a: Totals, b: Totals): Totals {
    Totals(a.calories + b.calories, a.protein + b.protein, a.carbs + b.carbs, a.fat + b.fat)
  }

  /**
   * What one meal adds: all its calories, and per macro the amount of the
   * first macro whose name matches "prote", "carbo" or "gord" (0 without one).
   */
  function Contribution(m: MealLog): Totals {
    Totals(m.calories,
           AmountOrZero(m.macros, ProteinFragment),
           AmountOrZero(m.macros, CarbsFragment),
           AmountOrZero(m.macros, FatFragment))
  }

  /** The totals of a log, accumulated oldest position first as `reduce` does. */
  function FoodTotals(meals: seq<MealLog>): Totals
    decreases |meals|
  {
    if meals == [] then NoTotals
    else Plus(FoodTotals(meals[..|meals| - 1]), Contribution(meals[|meals| - 1]))
  }

  /** The calories burned by a list of activities. */
  function BurnedTotal(activities: seq<ActivityLog>): int
    decreases |activities|
  {
    if activities == [] then 0
    else BurnedTotal(activities[..|activities| - 1]) + activities[|activities| - 1].caloriesBurned
  }

  /** The `totals` reduce: one pass over the meals, adding into an accumulator. */
  method SumFoodTotals(meals: seq<MealLog>) returns (acc: Totals)
    ensures acc == FoodTotals(meals)
  {
    acc := NoTotals;
    var i := 0;
    while i < |meals|
      invariant 0 <= i <= |meals|
      invariant acc == FoodTotals(meals[..i])
    {
      var meal := meals[i];
      assert meals[..i + 1][..i] == meals[..i];
      acc := acc.(calories := acc.calories + meal.calories);
      acc := acc.(protein := acc.protein + AmountOrZero(meal.macros, ProteinFragment));
      acc := acc.(carbs := acc.carbs + AmountOrZero(meal.macros, CarbsFragment));
      acc := acc.(fat := acc.fat + AmountOrZero(meal.macros, FatFragment));
      i := i + 1;
    }
    assert meals[..|meals|] == meals;
  }

  /** The `burned` reduce over the activity list. */
  method SumBurned(activities: seq<ActivityLog>) returns (acc: int)
    ensures acc == BurnedTotal(activities)
  {
    acc := 0;
    var i := 0;
    while i < |activities|
      invariant 0 <= i <= |activities|
      invariant acc == BurnedTotal(activities[..i])
    {
      assert activities[..i + 1][..i] == activities[..i];
      acc := acc + activities[i].caloriesBurned;
      i := i + 1;
    }
    assert activities[..|activities|] == activities;
  }

  /** Totals of two pieces of a log add up: order and grouping do not matter. */
  lemma {:induction false} FoodTotalsConcat(a: seq<MealLog>, b: seq<MealLog>)
    ensures FoodTotals(a + b) == Plus(FoodTotals(a), FoodTotals(b))
    decreases |b|
  {
    if b == [] {
      assert a + b == a;
    } else {
      var b' := b[..|b| - 1];
      assert (a + b)[..|a + b| - 1] == a + b';
      assert (a + b)[|a + b| - 1] == b[|b| - 1];
      FoodTotalsConcat(a, b');
    }
  }

  /** Burned calories of two pieces of an activity list add up. */
  lemma {:induction false} BurnedTotalConcat(a: seq<ActivityLog>, b: seq<ActivityLog>)
    ensures BurnedTotal(a + b) == BurnedTotal(a) + BurnedTotal(b)
    decreases |b|
  {
    if b == [] {
      assert a + b == a;
    } else {
      var b' := b[..|b| - 1];
      assert (a + b)[..|a + b| - 1] == a + b';
      assert (a + b)[|a + b| - 1] == b[|b| - 1];
      BurnedTotalConcat(a, b');
    }
  }

  /** Prepending a meal adds exactly its contribution to the day. */
  lemma FoodTotalsPrepend(m: MealLog, meals: seq<MealLog>)
    ensures FoodTotals([m] + meals) == Plus(Contribution(m), FoodTotals(meals))
  {
    FoodTotalsConcat([m], meals);
    assert [m][..0] == [];
  }

  /** Prepending an activity adds exactly its calories to the burned total. */
  lemma BurnedTotalPrepend(a: ActivityLog, activities: seq<ActivityLog>)
    ensures BurnedTotal([a] + activities) == a.caloriesBurned + BurnedTotal(activities)
  {
    BurnedTotalConcat([a], activities);
    assert [a][..0] == [];
  }

  /** Total calories are the plain sum of the meals' calories, whatever their macros. */
  lemma {:induction false} CaloriesIgnoreMacros(meals: seq<MealLog>, others: seq<MealLog>)
    requires |meals| == |others|
    requires forall i :: 0 <= i < |meals| ==> meals[i].calories == others[i].calories
    ensures FoodTotals(meals).calories == FoodTotals(others).calories
    decreases |meals|
  {
    if meals != [] {
      CaloriesIgnoreMacros(meals[..|meals| - 1], others[..|others| - 1]);
    }
  }

  /** The fat total matches only "gord": a macro named "Fat" adds nothing to it. */
  lemma EnglishFatNameAddsNoFat(m: MealLog)
    requires |m.macros| == 1 && m.macros[0].name == "Fat"
    ensures Contribution(m).fat == 0.0
  {
    Js.LowerLacks(m.macros[0].name, 'g');
    Js.NotIncludedByMissingChar(Js.ToLower(m.macros[0].name), FatFragment, 'g');
  }

  /** Calories eaten minus calories burned; not clamped, so it may be negative. */
  function NetCalories(t: Totals, burned: int): real {
    t.calories - burned as real
  }

  /** 1800 kcal eaten and 2100 kcal burned leave a balance of -300. */
  lemma NetCaloriesMayBeNegative(meals: seq<MealLog>, activities: seq<ActivityLog>)
    requires FoodTotals(meals).calories == 1800.0 && BurnedTotal(activities) == 2100
    ensures NetCalories(FoodTotals(meals), BurnedTotal(activities)) == -300.0
  {
  }

  // ---------------------------------------------------------------- progress

  /** `goal > 0 ? current / goal * 100 : 0`. */
  function Progress(current: real, goal: real): (p: real)
    ensures goal <= 0.0 ==> p == 0.0
    ensures goal > 0.0 ==> p * goal == current * 100.0
  {
    if goal > 0.0 then current / goal * 100.0 else 0.0
  }

  /** At the goal the tracker reads exactly 100; without a goal it reads 0. */
  lemma ProgressAtGoal(goal: real)
    requires goal > 0.0
    ensures Progress(goal, goal) == 100.0
  {
  }

  /** Progress is linear in the current value. */
  lemma ProgressLinear(a: real, x: real, y: real, goal: real)
    ensures Progress(a * x + y, goal) == a * Progress(x, goal) + Progress(y, goal)
  {
    if goal > 0.0 {
      var p, px, py := Progress(a * x + y, goal), Progress(x, goal), Progress(y, goal);
      assert p * goal == (a * px + py) * goal;
    }
  }

  /** The tracker turns red exactly when progress passes 100%. */
  predicate IsOver(current: real, goal: real) {
    Progress(current, goal) > 100.0
  }

  /** Over goal means: a positive goal and a current value beyond it. */
  lemma IsOverMeansBeyondGoal(current: real, goal: real)
    ensures IsOver(current, goal) <==> goal > 0.0 && current > goal
  {
    if goal > 0.0 {
      var p := Progress(current, goal);
      assert p * goal == current * 100.0;
      if p > 100.0 {
        assert p * goal > 100.0 * goal;
      }
      if current > goal {
        assert current * 100.0 > goal * 100.0;
      }
    }
  }

  /** The bar's width: the progress clamped to 100%; the numeric label is not clamped. */
  function BarWidth(current: real, goal: real): (w: real)
    ensures w <= 100.0
    ensures w == Progress(current, goal) || (w == 100.0 && IsOver(current, goal))
  {
    var p := Progress(current, goal);
    if p < 100.0 then p else 100.0
  }

  /** The bar colour: the activity tracker's fixed orange, else red over goal, else amber. */
  datatype BarColor = Orange | Red | Amber

  /** One progress card of the summary. */
  datatype Tracker = Tracker(caption: string, current: real, goal: real, unit: string, fixedOrange: bool)

  function ColorOf(t: Tracker): (c: BarColor)
    ensures c == Orange <==> t.fixedOrange
    ensures c == Red <==> !t.fixedOrange && IsOver(t.current, t.goal)
  {
    if t.fixedOrange then Orange else if IsOver(t.current, t.goal) then Red else Amber
  }

  /** `goals.burnedCalories || 500`: an unset burn goal shows as 500 on screen. */
  function ActivityGoal(goals: DailyGoals): (g: real)
    ensures goals.burnedCalories == 0.0 ==> g == 500.0
    ensures goals.burnedCalories != 0.0 ==> g == goals.burnedCalories
  {
    if goals.burnedCalories != 0.0 then goals.burnedCalories else 500.0
  }

  /**
   * The five trackers, in their fixed order: activity, net calories, protein,
   * carbs, fat. The calorie card measures the NET balance against the goal.
   */
  function Trackers(t: Totals, burned: int, goals: DailyGoals): (r: seq<Tracker>)
    ensures |r| == 5
    ensures r[0].caption == "Atividade" && r[0].current == burned as real && r[0].goal == ActivityGoal(goals) && r[0].fixedOrange
    ensures r[1].current == NetCalories(t, burned) && r[1].goal == goals.calories
    ensures r[2].current == t.protein && r[2].goal == goals.protein
    ensures r[3].current == t.carbs && r[3].goal == goals.carbs
    ensures r[4].current == t.fat && r[4].goal == goals.fat
    ensures forall i :: 1 <= i < 5 ==> !r[i].fixedOrange
  {
    [ Tracker("Atividade", burned as real, ActivityGoal(goals), "kcal", true),
      Tracker("Calorias (Liq)", NetCalories(t, burned), goals.calories, "kcal", false),
      Tracker("Proteínas", t.protein, goals.protein, "g", false),
      Tracker("Carbos", t.carbs, goals.carbs, "g", false),
      Tracker("Gorduras", t.fat, goals.fat, "g", false) ]
  }

  /** Burning calories lowers the calorie card, since it tracks the net balance. */
  lemma BurningLowersCalorieProgress(t: Totals, b1: int, b2: int, goals: DailyGoals)
    requires b1 <= b2 && goals.calories > 0.0
    ensures Progress(Trackers(t, b2, goals)[1].current, goals.calories) <= Progress(Trackers(t, b1, goals)[1].current, goals.calories)
  {
    var n1, n2 := NetCalories(t, b1), NetCalories(t, b2);
    assert n2 <= n1;
    ProgressLinear(1.0, n2, n1 - n2, goals.calories);
    assert Progress(n1 - n2, goals.calories) >= 0.0;
  }
}
