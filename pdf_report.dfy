/**
 * The daily PDF report as the sequence of lines handed to the PDF library,
 * with the vertical cursor and the page count of its page-break rule. Lines
 * carry values, not formatted text; where on a page a line lands is not
 * modelled, only how many pages the document ends with.
 */
module PdfReport {
  import opened Wrappers
  import opened Js
  import opened Types
  import opened DailySummary
  import ResultCard

  // ------------------------------------------------------------ page layout

  /** A4 in millimetres, the library's default page. */
  const PageHeight := 297.0
  const Margin := 15.0
  /** The lowest cursor the page-break rule lets a block reach. */
  const PageBottom := PageHeight - Margin
  /** Where the cursor starts on every page. */
  const TopOfPage := 20.0

  /** `yPos + neededSpace > pageHeight - margin`: the block does not fit below the cursor. */
  predicate Breaks(y: real, needed: real) {
    y + needed > PageBottom
  }

  /** The cursor after `checkPageBreak(needed)`. */
  function CursorAfterBreak(y: real, needed: real): (r: real)
    ensures !Breaks(y, needed) ==> r == y && r + needed <= PageBottom
    ensures Breaks(y, needed) ==> r == TopOfPage
  {
    if Breaks(y, needed) then TopOfPage else y
  }

  /** After the check, a block that fits on an empty page fits below the cursor. */
  lemma BreakMakesRoom(y: real, needed: real)
    requires TopOfPage + needed <= PageBottom
    ensures CursorAfterBreak(y, needed) + needed <= PageBottom
  {
  }

  // ------------------------------------------------------------ report lines

  /** One line (or drawn element) of the report, in the order it is emitted. */
  datatype ReportLine =
    | ReportTitle
    | ReportDate(date: string)
    | Rule(thickness: real)
    | SummaryHeading
    | SummaryRow(caption: string, value: real, goal: real, unit: string, pct: int)
    | BurnedRow(burned: int, goal: real, pct: int)
    | NetRow(net: real, positive: bool)
    | ActivitiesHeading
    | ActivityRow(activity: ActivityLog)
    | MealsHeading
    | MealTitle(number: nat, title: string)
    | MealMeta(timestamp: string, calories: real)
    | MealImage(src: string)
    | MacrosHeading
    | MacroRow(nutrient: Nutrient)
    | ImageUnavailable
    | IngredientsHeading
    | IngredientRow(name: string, amount: real, unit: string, share: Option<real>)
    | Footer(page: nat, pageCount: nat)

  /** `xs.map(f)`. */
  function Each<A, B>(xs: seq<A>, f: A -> B): (r: seq<B>)
    ensures |r| == |xs|
  {
    seq(|xs|, i requires 0 <= i < |xs| => f(xs[i]))
  }

  lemma EachAt<A, B>(xs: seq<A>, f: A -> B, i: nat)
    requires i < |xs|
    ensures Each(xs, f)[i] == f(xs[i])
  {
  }

  lemma EachSnoc<A, B>(xs: seq<A>, i: nat, f: A -> B)
    requires i < |xs|
    ensures Each(xs[..i + 1], f) == Each(xs[..i], f) + [f(xs[i])]
  {
  }

  /** `goal > 0 ? Math.round(value / goal * 100) : 0`. */
  function RowPercent(value: real, goal: real): (p: int)
    ensures goal <= 0.0 ==> p == 0
    ensures goal > 0.0 ==> value / goal * 100.0 - 1.0 / 2.0 < p as real <= value / goal * 100.0 + 1.0 / 2.0
  {
    if goal > 0.0 then Round(value / goal * 100.0) else 0
  }

  /** A row's percentage is the on-screen progress of the same value, rounded. */
  lemma RowPercentIsRoundedProgress(value: real, goal: real)
    ensures RowPercent(value, goal) == Round(Progress(value, goal))
  {
    if goal <= 0.0 {
      RoundOfInteger(0);
    }
  }

  /** One entry of the nutrition part of the summary. */
  datatype SummaryItem = SummaryItem(caption: string, value: real, goal: real, unit: string)

  /** Calories eaten (not net), protein, carbs and fat, each against its goal. */
  function SummaryItems(t: Totals, goals: DailyGoals): (items: seq<SummaryItem>)
    ensures |items| == 4
    ensures items[0].value == t.calories && items[0].goal == goals.calories
    ensures items[1].value == t.protein && items[1].goal == goals.protein
    ensures items[2].value == t.carbs && items[2].goal == goals.carbs
    ensures items[3].value == t.fat && items[3].goal == goals.fat
  {
    [ SummaryItem("Calorias Ingeridas", t.calories, goals.calories, "kcal"),
      SummaryItem("Proteínas", t.protein, goals.protein, "g"),
      SummaryItem("Carboidratos", t.carbs, goals.carbs, "g"),
      SummaryItem("Gorduras", t.fat, goals.fat, "g") ]
  }

  function SummaryLine(item: SummaryItem): ReportLine {
    SummaryRow(item.caption, item.value, item.goal, item.unit, RowPercent(item.value, item.goal))
  }

  /** The burned row compares against the burn goal as saved: no 500 fallback here. */
  function BurnedLine(burned: int, goals: DailyGoals): ReportLine {
    BurnedRow(burned, goals.burnedCalories, RowPercent(burned as real, goals.burnedCalories))
  }

  /** The net balance, marked positive (green) only when above zero. */
  function NetLine(net: real): (l: ReportLine)
    ensures l.NetRow? && l.net == net && (l.positive <==> net > 0.0)
  {
    NetRow(net, net > 0.0)
  }

  function Header(date: string): seq<ReportLine> {
    [ReportTitle, ReportDate(date), Rule(0.5)]
  }

  /** Heading, the four nutrition rows, then burned, then net, then a rule. */
  function SummarySection(t: Totals, burned: int, goals: DailyGoals): (r: seq<ReportLine>)
    ensures |r| == 8
  {
    [SummaryHeading] + Each(SummaryItems(t, goals), SummaryLine)
      + [BurnedLine(burned, goals), NetLine(NetCalories(t, burned)), Rule(0.5)]
  }

  function ActivityLine(a: ActivityLog): ReportLine { ActivityRow(a) }

  /** Only a non-empty activity list gets a section: heading, one row per activity, rule. */
  function ActivitiesSection(activities: seq<ActivityLog>): seq<ReportLine> {
    if activities == [] then [] else [ActivitiesHeading] + Each(activities, ActivityLine) + [Rule(0.5)]
  }

  function MacroLine(n: Nutrient): ReportLine { MacroRow(n) }

  /** `if (ing.percentage) ingText += ...`: a zero or missing share is left off the line. */
  function IngredientLine(ing: Ingredient): (l: ReportLine)
    ensures l.IngredientRow? && l.name == ing.name && l.amount == ing.amount && l.unit == ing.unit
    ensures l.share.Some? <==> ResultCard.ShowsPercentage(ing)
    ensures l.share.Some? ==> l.share == ing.percentage
  {
    IngredientRow(ing.name, ing.amount, ing.unit, if ResultCard.ShowsPercentage(ing) then ing.percentage else None)
  }

  /**
   * One meal: its number and title, time and calories, then the image with
   * its macro list beside it (or, when the image cannot be placed, only the
   * fallback note and no macros), the ingredients and a light rule.
   */
  function MealBlock(n: nat, meal: MealLog, imageLoads: string -> bool): (b: seq<ReportLine>)
    ensures |b| >= 1 && b[0] == MealTitle(n, meal.title)
  {
    [MealTitle(n, meal.title), MealMeta(meal.timestamp, meal.calories)]
      + ImageLines(meal, imageLoads)
      + IngredientLines(meal.ingredients)
  }

  function ImageLines(meal: MealLog, imageLoads: string -> bool): seq<ReportLine> {
    if imageLoads(meal.imageSrc) then [MealImage(meal.imageSrc), MacrosHeading] + Each(meal.macros, MacroLine)
    else [ImageUnavailable]
  }

  function IngredientLines(ingredients: seq<Ingredient>): seq<ReportLine> {
    [IngredientsHeading] + Each(ingredients, IngredientLine) + [Rule(0.1)]
  }

  /** The blocks of the first `k` meals, in log order, numbered from 1. */
  function MealBlocksUpTo(meals: seq<MealLog>, k: nat, imageLoads: string -> bool): seq<ReportLine>
    requires k <= |meals|
    decreases k
  {
    if k == 0 then []
    else MealBlocksUpTo(meals, k - 1, imageLoads) + MealBlock(k, meals[k - 1], imageLoads)
  }

  /** The meal blocks of the whole log. */
  function MealBlocks(meals: seq<MealLog>, imageLoads: string -> bool): seq<ReportLine> {
    MealBlocksUpTo(meals, |meals|, imageLoads)
  }

  function MealsSection(meals: seq<MealLog>, imageLoads: string -> bool): seq<ReportLine> {
    [MealsHeading] + MealBlocks(meals, imageLoads)
  }

  /** Everything before the footers. */
  function ReportBody(meals: seq<MealLog>, goals: DailyGoals, activities: seq<ActivityLog>,
                      date: string, imageLoads: string -> bool): seq<ReportLine> {
    Header(date)
      + SummarySection(FoodTotals(meals), BurnedTotal(activities), goals)
      + ActivitiesSection(activities)
      + MealsSection(meals, imageLoads)
  }

  /** "Page i of n" for i = 1 .. n. */
  function Footers(n: nat): (r: seq<ReportLine>)
    ensures |r| == n && forall i :: 0 <= i < n ==> r[i] == Footer(i + 1, n)
  {
    seq(n, i requires 0 <= i < n => Footer(i + 1, n))
  }

  // ------------------------------------------------------------ properties

  /** The summary section written out row by row. */
  lemma SummarySectionRows(t: Totals, burned: int, goals: DailyGoals)
    ensures var items := SummaryItems(t, goals);
      SummarySection(t, burned, goals)
        == [SummaryHeading, SummaryLine(items[0]), SummaryLine(items[1]), SummaryLine(items[2]), SummaryLine(items[3]),
            BurnedLine(burned, goals), NetLine(NetCalories(t, burned)), Rule(0.5)]
  {
    var items := SummaryItems(t, goals);
    var e := Each(items, SummaryLine);
    EachAt(items, SummaryLine, 0);
    EachAt(items, SummaryLine, 1);
    EachAt(items, SummaryLine, 2);
    EachAt(items, SummaryLine, 3);
    assert e == [SummaryLine(items[0]), SummaryLine(items[1]), SummaryLine(items[2]), SummaryLine(items[3])];
  }

  /** The summary rows come in the order eaten, protein, carbs, fat, burned, net. */
  lemma SummaryOrder(t: Totals, burned: int, goals: DailyGoals)
    ensures var r := SummarySection(t, burned, goals);
      r[0] == SummaryHeading
      && r[1].SummaryRow? && r[1].value == t.calories && r[1].goal == goals.calories
      && r[2].SummaryRow? && r[2].value == t.protein
      && r[3].SummaryRow? && r[3].value == t.carbs
      && r[4].SummaryRow? && r[4].value == t.fat
      && r[5].BurnedRow? && r[5].burned == burned
      && r[6].NetRow? && r[6].net == NetCalories(t, burned)
  {
    SummarySectionRows(t, burned, goals);
  }

  /**
   * The report's calorie row holds what was eaten, the screen's calorie card
   * the net balance: they differ by exactly the calories burned.
   */
  lemma ReportComparesEatenNotNet(t: Totals, burned: int, goals: DailyGoals)
    ensures SummarySection(t, burned, goals)[1].SummaryRow?
    ensures SummarySection(t, burned, goals)[1].value - Trackers(t, burned, goals)[1].current == burned as real
  {
    SummarySectionRows(t, burned, goals);
  }

  /**
   * With no burn goal set, the report shows goal 0 and 0%, while the screen's
   * activity card measures against 500.
   */
  lemma NoBurnGoalFallbackInReport(t: Totals, burned: int, goals: DailyGoals)
    requires goals.burnedCalories == 0.0
    ensures SummarySection(t, burned, goals)[5] == BurnedRow(burned, 0.0, 0)
    ensures Trackers(t, burned, goals)[0].goal == 500.0
  {
    SummarySectionRows(t, burned, goals);
    RoundOfInteger(0);
  }

  /**
   * The activities section is present exactly when there are activities: a
   * heading, one row per activity in ledger order, and a closing rule.
   */
  lemma ActivitiesSectionShape(activities: seq<ActivityLog>)
    ensures ActivitiesSection(activities) == [] <==> activities == []
    ensures activities != [] ==>
      |ActivitiesSection(activities)| == |activities| + 2
      && ActivitiesSection(activities)[0] == ActivitiesHeading
      && (forall i :: 0 <= i < |activities| ==> ActivitiesSection(activities)[i + 1] == ActivityRow(activities[i]))
      && ActivitiesSection(activities)[|activities| + 1] == Rule(0.5)
  {
    if activities != [] {
      var e := Each(activities, ActivityLine);
      var r := [ActivitiesHeading] + e + [Rule(0.5)];
      assert r == ActivitiesSection(activities);
      forall i | 0 <= i < |activities| ensures r[i + 1] == ActivityRow(activities[i]) {
        assert r[i + 1] == e[i];
        EachAt(activities, ActivityLine, i);
      }
    }
  }

  /** Concatenation is associative. */
  lemma ConcatAssoc<T>(a: seq<T>, b: seq<T>, c: seq<T>)
    ensures (a + b) + c == a + (b + c)
  {
  }

  /** What is in either part of a concatenation is in the whole. */
  lemma InConcat<T>(x: T, a: seq<T>, b: seq<T>)
    requires x in a || x in b
    ensures x in a + b
  {
    if x in a {
      var j :| 0 <= j < |a| && a[j] == x;
      assert (a + b)[j] == x;
    } else {
      var j :| 0 <= j < |b| && b[j] == x;
      assert (a + b)[|a| + j] == x;
    }
  }

  /** Every meal among the first `k` gets a block, numbered by its position from 1. */
  lemma {:induction false} EveryMealNumberedUpTo(meals: seq<MealLog>, k: nat, imageLoads: string -> bool, i: nat)
    requires i < k <= |meals|
    ensures MealTitle(i + 1, meals[i].title) in MealBlocksUpTo(meals, k, imageLoads)
    decreases k
  {
    var front := MealBlocksUpTo(meals, k - 1, imageLoads);
    var last := MealBlock(k, meals[k - 1], imageLoads);
    assert MealBlocksUpTo(meals, k, imageLoads) == front + last;
    if i == k - 1 {
      assert last[0] in last;
      InConcat(last[0], front, last);
    } else {
      EveryMealNumberedUpTo(meals, k - 1, imageLoads, i);
      InConcat(MealTitle(i + 1, meals[i].title), front, last);
    }
  }

  /** Every meal of the log gets a block, numbered by its position from 1. */
  lemma EveryMealNumbered(meals: seq<MealLog>, imageLoads: string -> bool, i: nat)
    requires i < |meals|
    ensures MealTitle(i + 1, meals[i].title) in MealBlocks(meals, imageLoads)
  {
    EveryMealNumberedUpTo(meals, |meals|, imageLoads, i);
  }

  /** A meal whose image cannot be placed lists none of its macros. */
  lemma FailedImageDropsMacros(n: nat, meal: MealLog, imageLoads: string -> bool)
    requires !imageLoads(meal.imageSrc)
    ensures forall l :: l in MealBlock(n, meal, imageLoads) ==> !l.MacroRow? && !l.MacrosHeading?
  {
    var e := Each(meal.ingredients, IngredientLine);
    forall j | 0 <= j < |e| ensures e[j].IngredientRow? {
      EachAt(meal.ingredients, IngredientLine, j);
    }
    assert MealBlock(n, meal, imageLoads)
      == [MealTitle(n, meal.title), MealMeta(meal.timestamp, meal.calories), ImageUnavailable, IngredientsHeading] + e + [Rule(0.1)];
  }

  /** A 0% share is left off its ingredient line, like a missing one. */
  lemma ZeroShareOmitted(ing: Ingredient)
    requires ing.percentage == Some(0.0)
    ensures IngredientLine(ing).share == None
  {
  }

  // ------------------------------------------------------------ layout

  /** Where drawing stands: the cursor on the current page and the number of pages. */
  datatype Cursor = Cursor(y: real, pages: nat)

  /** `checkPageBreak(needed)` on a cursor. */
  function Break(c: Cursor, needed: real): Cursor {
    Cursor(CursorAfterBreak(c.y, needed), c.pages + (if Breaks(c.y, needed) then 1 else 0))
  }

  /** Moving down the page without a break check. */
  function Down(c: Cursor, dy: real): Cursor {
    c.(y := c.y + dy)
  }

  /** Title at 22 (11), 5, date at 12 (6), 10, rule (5). */
  const HeaderHeight := 37.0
  /** Heading at 16 (8) and 5; four rows of 6 + 2; 3, burned (6), 2; 3, net (6), 5; rule (5). */
  const SummaryHeight := 75.0
  /** Heading at 16 (8) and 10. */
  const MealsHeadingHeight := 18.0

  /** The cursor after `k` activity rows: each a check for 10, a row at 10 (5) and 2. */
  function ActivityRowsLayout(c: Cursor, k: nat): (r: Cursor)
    ensures c.pages <= r.pages <= c.pages + k
    decreases k
  {
    if k == 0 then c else Down(Break(ActivityRowsLayout(c, k - 1), 10.0), 7.0)
  }

  /** No activities, no block; otherwise a check for 40, the heading (8 + 5), the rows, 5 and a rule. */
  function ActivitiesLayout(c: Cursor, n: nat): (r: Cursor)
    ensures n == 0 ==> r == c
    ensures c.pages <= r.pages <= c.pages + n + 1
  {
    if n == 0 then c else Down(ActivityRowsLayout(Down(Break(c, 40.0), 13.0), n), 10.0)
  }

  /** The cursor after `k` ingredient lines: each a check for 10, a line at 9 (4.5) and 1. */
  function IngredientRowsLayout(c: Cursor, k: nat): (r: Cursor)
    ensures c.pages <= r.pages <= c.pages + k
    decreases k
  {
    if k == 0 then c else Down(Break(IngredientRowsLayout(c, k - 1), 10.0), 5.5)
  }

  /** A check for 30, the heading (5 + 3), the lines, then 10, the light rule (5) and 10. */
  function IngredientsLayout(c: Cursor, n: nat): (r: Cursor)
    ensures c.pages <= r.pages <= c.pages + n + 1
  {
    Down(IngredientRowsLayout(Down(Break(c, 30.0), 8.0), n), 25.0)
  }

  /** The image advances 45 + 5; the fallback note at 10 (5) and 5. */
  function ImageHeight(loads: bool): real {
    if loads then 50.0 else 10.0
  }

  /** A check for 80, title at 14 (7) and 2, time at 10 (5) and 5, the image, the ingredients. */
  function MealLayout(c: Cursor, meal: MealLog, imageLoads: string -> bool): (r: Cursor)
    ensures c.pages <= r.pages <= c.pages + |meal.ingredients| + 2
  {
    IngredientsLayout(Down(Down(Break(c, 80.0), 19.0), ImageHeight(imageLoads(meal.imageSrc))), |meal.ingredients|)
  }

  /** The cursor after the first `k` meals. */
  function MealsLayoutUpTo(c: Cursor, meals: seq<MealLog>, k: nat, imageLoads: string -> bool): (r: Cursor)
    requires k <= |meals|
    ensures c.pages <= r.pages
    decreases k
  {
    if k == 0 then c else MealLayout(MealsLayoutUpTo(c, meals, k - 1, imageLoads), meals[k - 1], imageLoads)
  }

  /** The meals heading, then every meal. */
  function MealsSectionLayout(c: Cursor, meals: seq<MealLog>, imageLoads: string -> bool): (r: Cursor)
    ensures c.pages <= r.pages
  {
    MealsLayoutUpTo(Down(c, MealsHeadingHeight), meals, |meals|, imageLoads)
  }

  /** Where the body of the report ends, from the top of the first page. */
  function ReportLayout(meals: seq<MealLog>, activities: seq<ActivityLog>, imageLoads: string -> bool): (r: Cursor)
    ensures r.pages >= 1
  {
    var afterSummary := Down(Cursor(TopOfPage, 1), HeaderHeight + SummaryHeight);
    MealsSectionLayout(ActivitiesLayout(afterSummary, |activities|), meals, imageLoads)
  }

  /** A day with nothing logged fits on one page. */
  lemma EmptyDayFitsOnePage(imageLoads: string -> bool)
    ensures ReportLayout([], [], imageLoads).pages == 1
  {
  }

  /** One meal without ingredients and no activities still fit on the first page. */
  lemma OneMealFitsOnePage(meal: MealLog, imageLoads: string -> bool)
    requires meal.ingredients == []
    ensures ReportLayout([meal], [], imageLoads).pages == 1
  {
    var c := Down(Down(Cursor(TopOfPage, 1), HeaderHeight + SummaryHeight), MealsHeadingHeight);
    assert MealsLayoutUpTo(c, [meal], 1, imageLoads) == MealLayout(c, meal, imageLoads);
  }

  /**
   * Two meals with pictures and no ingredients do not fit: the second one's
   * check for 80 starts a second page.
   */
  lemma SecondMealStartsNewPage(m1: MealLog, m2: MealLog, imageLoads: string -> bool)
    requires m1.ingredients == [] && m2.ingredients == []
    requires imageLoads(m1.imageSrc) && imageLoads(m2.imageSrc)
    ensures ReportLayout([m1, m2], [], imageLoads).pages == 2
  {
    var meals := [m1, m2];
    var c := Down(Down(Cursor(TopOfPage, 1), HeaderHeight + SummaryHeight), MealsHeadingHeight);
    var first := MealLayout(c, m1, imageLoads);
    assert MealsLayoutUpTo(c, meals, 1, imageLoads) == first;
    assert first == Cursor(252.0, 1);
    assert MealsLayoutUpTo(c, meals, 2, imageLoads) == MealLayout(first, m2, imageLoads);
  }

  // ------------------------------------------------------------ the writer

  /** The drawing state: the cursor, the number of pages and the lines emitted so far. */
  class ReportWriter {
    var y: real
    var pages: nat
    var lines: seq<ReportLine>

    /** The cursor and page count, as one value. */
    function Position(): Cursor
      reads this
    {
      Cursor(y, pages)
    }

    constructor ()
      ensures y == TopOfPage && pages == 1 && lines == []
    {
      y := TopOfPage;
      pages := 1;
      lines := [];
    }

    /** `addText`: emits a line and moves the cursor by half the font size. */
    method AddText(line: ReportLine, fontSize: real)
      modifies this
      ensures lines == old(lines) + [line] && y == old(y) + fontSize * 0.5 && pages == old(pages)
    {
      lines := lines + [line];
      y := y + fontSize * 0.5;
    }

    /** A `doc.text` or `doc.addImage` at an explicit position: the cursor stays. */
    method DrawAt(line: ReportLine)
      modifies this
      ensures lines == old(lines) + [line] && y == old(y) && pages == old(pages)
    {
      lines := lines + [line];
    }

    /** `addLine`: a horizontal rule, then 5 units down. */
    method AddRule(thickness: real)
      modifies this
      ensures lines == old(lines) + [Rule(thickness)] && y == old(y) + 5.0 && pages == old(pages)
    {
      lines := lines + [Rule(thickness)];
      y := y + 5.0;
    }

    /** `yPos += dy`. */
    method Skip(dy: real)
      modifies this
      ensures lines == old(lines) && y == old(y) + dy && pages == old(pages)
    {
      y := y + dy;
    }

    /** `checkPageBreak`: a new page, with the cursor back at the top, when the block does not fit. */
    method CheckPageBreak(needed: real)
      modifies this
      ensures y == CursorAfterBreak(old(y), needed)
      ensures pages == old(pages) + (if Breaks(old(y), needed) then 1 else 0)
      ensures lines == old(lines)
    {
      if y + needed > PageBottom {
        pages := pages + 1;
        y := TopOfPage;
      }
    }

    /** The `summaryData.forEach`: one row per item, 2 units apart. */
    method WriteSummaryRows(items: seq<SummaryItem>)
      modifies this
      ensures lines == old(lines) + Each(items, SummaryLine)
      ensures y == old(y) + 8.0 * |items| as real && pages == old(pages)
    {
      var i := 0;
      while i < |items|
        invariant 0 <= i <= |items|
        invariant lines == old(lines) + Each(items[..i], SummaryLine)
        invariant y == old(y) + 8.0 * i as real && pages == old(pages)
      {
        var item := items[i];
        AddText(SummaryRow(item.caption, item.value, item.goal, item.unit, RowPercent(item.value, item.goal)), 12.0);
        Skip(2.0);
        EachSnoc(items, i, SummaryLine);
        i := i + 1;
      }
      assert items[..|items|] == items;
    }

    /** The `activities.forEach`: a page check, then one row per activity. */
    method WriteActivityRows(activities: seq<ActivityLog>)
      modifies this
      ensures lines == old(lines) + Each(activities, ActivityLine)
      ensures Position() == ActivityRowsLayout(old(Position()), |activities|)
    {
      var i := 0;
      while i < |activities|
        invariant 0 <= i <= |activities|
        invariant lines == old(lines) + Each(activities[..i], ActivityLine)
        invariant Position() == ActivityRowsLayout(old(Position()), i)
      {
        CheckPageBreak(10.0);
        AddText(ActivityRow(activities[i]), 10.0);
        Skip(2.0);
        EachSnoc(activities, i, ActivityLine);
        i := i + 1;
      }
      assert activities[..|activities|] == activities;
    }

    /** The `meal.macros.forEach` beside the image: drawn at their own height, the cursor stays. */
    method WriteMacroRows(macros: seq<Nutrient>)
      modifies this
      ensures lines == old(lines) + Each(macros, MacroLine) && pages == old(pages) && y == old(y)
    {
      var i := 0;
      while i < |macros|
        invariant 0 <= i <= |macros|
        invariant lines == old(lines) + Each(macros[..i], MacroLine) && pages == old(pages) && y == old(y)
      {
        DrawAt(MacroRow(macros[i]));
        EachSnoc(macros, i, MacroLine);
        i := i + 1;
      }
      assert macros[..|macros|] == macros;
    }

    /** The `meal.ingredients.forEach`: a page check, then one line per ingredient. */
    method WriteIngredientRows(ingredients: seq<Ingredient>)
      modifies this
      ensures lines == old(lines) + Each(ingredients, IngredientLine)
      ensures Position() == IngredientRowsLayout(old(Position()), |ingredients|)
    {
      var i := 0;
      while i < |ingredients|
        invariant 0 <= i <= |ingredients|
        invariant lines == old(lines) + Each(ingredients[..i], IngredientLine)
        invariant Position() == IngredientRowsLayout(old(Position()), i)
      {
        CheckPageBreak(10.0);
        AddText(IngredientLine(ingredients[i]), 9.0);
        Skip(1.0);
        EachSnoc(ingredients, i, IngredientLine);
        i := i + 1;
      }
      assert ingredients[..|ingredients|] == ingredients;
    }

    /** The image with the macro list beside it, or the fallback note when the image fails. */
    method WriteImage(meal: MealLog, imageLoads: string -> bool)
      modifies this
      ensures lines == old(lines) + ImageLines(meal, imageLoads)
      ensures Position() == Down(old(Position()), ImageHeight(imageLoads(meal.imageSrc)))
    {
      if imageLoads(meal.imageSrc) {
        DrawAt(MealImage(meal.imageSrc));
        DrawAt(MacrosHeading);
        WriteMacroRows(meal.macros);
        assert lines == old(lines) + [MealImage(meal.imageSrc), MacrosHeading] + Each(meal.macros, MacroLine);
        Skip(45.0 + 5.0);
      } else {
        AddText(ImageUnavailable, 10.0);
        Skip(5.0);
      }
    }

    /** The ingredients heading, one line per ingredient, then the light separator. */
    method WriteIngredients(ingredients: seq<Ingredient>)
      modifies this
      ensures lines == old(lines) + IngredientLines(ingredients)
      ensures Position() == IngredientsLayout(old(Position()), |ingredients|)
    {
      CheckPageBreak(30.0);
      AddText(IngredientsHeading, 10.0);
      Skip(3.0);
      WriteIngredientRows(ingredients);
      Skip(10.0);
      AddRule(0.1);
      Skip(10.0);
    }

    /** One meal of the `meals.forEach`. */
    method WriteMeal(n: nat, meal: MealLog, imageLoads: string -> bool)
      modifies this
      ensures lines == old(lines) + MealBlock(n, meal, imageLoads)
      ensures Position() == MealLayout(old(Position()), meal, imageLoads)
    {
      CheckPageBreak(80.0);
      AddText(MealTitle(n, meal.title), 14.0);
      Skip(2.0);
      AddText(MealMeta(meal.timestamp, meal.calories), 10.0);
      Skip(5.0);
      var head := lines;
      WriteImage(meal, imageLoads);
      WriteIngredients(meal.ingredients);
      assert lines == head + ImageLines(meal, imageLoads) + IngredientLines(meal.ingredients);
    }

    /** The `meals.forEach((meal, index) => ...)`, numbering from 1. */
    method WriteMeals(meals: seq<MealLog>, imageLoads: string -> bool)
      modifies this
      ensures lines == old(lines) + MealBlocks(meals, imageLoads)
      ensures Position() == MealsLayoutUpTo(old(Position()), meals, |meals|, imageLoads)
    {
      var i := 0;
      while i < |meals|
        invariant 0 <= i <= |meals|
        invariant lines == old(lines) + MealBlocksUpTo(meals, i, imageLoads)
        invariant Cursor(y, pages) == MealsLayoutUpTo(old(Cursor(y, pages)), meals, i, imageLoads)
      {
        ghost var done := MealBlocksUpTo(meals, i, imageLoads);
        WriteMeal(i + 1, meals[i], imageLoads);
        ConcatAssoc(old(lines), done, MealBlock(i + 1, meals[i], imageLoads));
        i := i + 1;
      }
    }

    /** The report header: title, date and a rule. */
    method WriteHeader(date: string)
      modifies this
      ensures lines == old(lines) + Header(date)
      ensures Position() == Down(old(Position()), HeaderHeight)
    {
      AddText(ReportTitle, 22.0);
      Skip(5.0);
      AddText(ReportDate(date), 12.0);
      Skip(10.0);
      AddRule(0.5);
    }

    /** The summary block, from the totals, the burned calories and the goals. */
    method WriteSummary(totals: Totals, totalBurned: int, goals: DailyGoals)
      modifies this
      ensures lines == old(lines) + SummarySection(totals, totalBurned, goals)
      ensures Position() == Down(old(Position()), SummaryHeight)
    {
      var netCalories := NetCalories(totals, totalBurned);
      AddText(SummaryHeading, 16.0);
      Skip(5.0);
      WriteSummaryRows(SummaryItems(totals, goals));
      var rows := lines;
      Skip(3.0);
      AddText(BurnedRow(totalBurned, goals.burnedCalories, RowPercent(totalBurned as real, goals.burnedCalories)), 12.0);
      Skip(2.0);
      Skip(3.0);
      AddText(NetRow(netCalories, netCalories > 0.0), 12.0);
      Skip(5.0);
      AddRule(0.5);
      assert lines == rows + [BurnedLine(totalBurned, goals), NetLine(netCalories), Rule(0.5)];
    }

    /** The activities block: a check for 40, the heading, one row per activity, a rule. */
    method WriteActivitiesBlock(activities: seq<ActivityLog>)
      requires activities != []
      modifies this
      ensures lines == old(lines) + ActivitiesSection(activities)
      ensures Position() == ActivitiesLayout(old(Position()), |activities|)
    {
      CheckPageBreak(40.0);
      AddText(ActivitiesHeading, 16.0);
      Skip(5.0);
      ghost var head := lines;
      WriteActivityRows(activities);
      ghost var rows := Position();
      Skip(5.0);
      AddRule(0.5);
      assert Position() == Down(rows, 10.0);
      assert lines == head + Each(activities, ActivityLine) + [Rule(0.5)];
      ConcatAssoc(old(lines), [ActivitiesHeading], Each(activities, ActivityLine));
      ConcatAssoc(old(lines), [ActivitiesHeading] + Each(activities, ActivityLine), [Rule(0.5)]);
    }

    /** `if (activities.length > 0)`: the activities block, or nothing. */
    method WriteActivities(activities: seq<ActivityLog>)
      modifies this
      ensures lines == old(lines) + ActivitiesSection(activities)
      ensures Position() == ActivitiesLayout(old(Position()), |activities|)
    {
      if |activities| > 0 {
        WriteActivitiesBlock(activities);
      } else {
        assert ActivitiesSection(activities) == [];
        assert old(lines) + [] == old(lines);
      }
    }

    /** The meals heading and every meal's block. */
    method WriteMealsSection(meals: seq<MealLog>, imageLoads: string -> bool)
      modifies this
      ensures lines == old(lines) + MealsSection(meals, imageLoads)
      ensures Position() == MealsSectionLayout(old(Position()), meals, imageLoads)
    {
      AddText(MealsHeading, 16.0);
      Skip(10.0);
      WriteMeals(meals, imageLoads);
    }

    /** The footer loop: "page i of n" on every page. */
    method WriteFooters()
      modifies this
      ensures lines == old(lines) + Footers(pages) && pages == old(pages) && y == old(y)
    {
      var i := 1;
      while i <= pages
        invariant 1 <= i <= pages + 1
        invariant lines == old(lines) + Footers(pages)[..i - 1] && pages == old(pages) && y == old(y)
      {
        assert Footers(pages)[..i] == Footers(pages)[..i - 1] + [Footer(i, pages)];
        DrawAt(Footer(i, pages));
        i := i + 1;
      }
      assert Footers(pages)[..pages] == Footers(pages);
    }
  }

  /**
   * `generateDailyPDF`: the report's lines are the body (header, summary,
   * activities when there are any, meals) followed by one footer for each of
   * the pages the layout ends with.
   */
  method GenerateDailyReport(meals: seq<MealLog>, goals: DailyGoals, activities: seq<ActivityLog>,
                             date: string, imageLoads: string -> bool)
    returns (lines: seq<ReportLine>, pageCount: nat)
    ensures pageCount == ReportLayout(meals, activities, imageLoads).pages
    ensures lines == ReportBody(meals, goals, activities, date, imageLoads) + Footers(pageCount)
  {
    var w := new ReportWriter();
    w.WriteHeader(date);
    var totals := SumFoodTotals(meals);
    var totalBurned := SumBurned(activities);
    ghost var header := w.lines;
    w.WriteSummary(totals, totalBurned, goals);
    ghost var summary := w.lines;
    assert summary == Header(date) + SummarySection(FoodTotals(meals), BurnedTotal(activities), goals);
    assert w.Position() == Down(Cursor(TopOfPage, 1), HeaderHeight + SummaryHeight);
    w.WriteActivities(activities);
    ghost var upToMeals := w.lines;
    w.WriteMealsSection(meals, imageLoads);
    assert w.lines == upToMeals + MealsSection(meals, imageLoads);
    pageCount := w.pages;
    w.WriteFooters();
    lines := w.lines;
  }
}
