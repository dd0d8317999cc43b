# MY NUTRI.IA — a verified model of the daily log

MY NUTRI.IA is a single-page nutrition and activity logger. A user photographs a
meal; an image-analysis service returns its title, calories, macronutrients and
ingredients; the meal joins the day's log. The user also records physical activities
(calories estimated from a MET value, the weight and the duration), sets daily goals,
edits or deletes meals, shares a meal through a `?mealId=` link, and downloads a PDF
report of the day. Everything is kept in the browser's local storage under four keys.

This project models that core in Dafny:

- `Types` — the records: nutrient, ingredient, meal analysis, meal log entry, goals,
  profile, activity log entry.
- `Js` — the JavaScript primitives the core leans on: `Math.round`, ASCII
  `toLowerCase`, `String.includes`, and `Number()` applied to a number input's text.
- `NutrientMatch` — `macros.find(m => m.name.toLowerCase().includes(...))`.
- `ResultCard` — the meal card. Its calorie-share formula, its share link and share
  macros, and its edit form as the class `MealEditor` over the edited copy of a meal.
- `SharedMealView` — the read-only view of a shared meal, with its own weaker copy of
  the calorie-share formula. Lemmas say exactly where the two copies disagree.
- `DailySummary` — the day's totals as folds, proved against the accumulating loops.
  Also: the net balance, the progress percentage, the bar width and colour, and the
  five trackers.
- `ActivityTracker` — the MET estimate and the profile fields that feed it, and the
  activity form as the class `ActivityForm`.
- `GoalSetter` — the goals draft with blank-able fields, and the class `GoalEditor`.
- `Url` — the part of `URLSearchParams` the share link needs.
- `App` — the top-level state, kept in the class `Ledger`. It covers the load from
  storage at mount, the persistence effects, adding, updating and deleting meals and
  activities, goal coercion, and the shared-meal view.
- `PdfReport` — the report as a pure sequence of lines (`ReportBody`), its layout as
  pure functions of a cursor and page count (`ReportLayout`), the class
  `ReportWriter` with its cursor, page count and emitted lines, and
  `GenerateDailyReport`. Every writer is proved to leave the cursor and page count
  where the layout functions say. `GenerateDailyReport` is proved to emit exactly the
  body and then one footer per page, and its page count is `ReportLayout`'s.

Numbers are modelled as `real`, and integer results (rounded percentages, burned
calories) as `int`. Things outside the program are parameters:

- what the analysis service returns (`AnalysisOutcome`);
- what the MET lookup returns (`MetLookup`);
- whether an image can be drawn into the PDF (`imageLoads`);
- the outcome of a storage write (`WriteOutcome`);
- ids, timestamps, the date, the page origin and the path.

## Model

| member | source | states |
|---|---|---|
| Types.MealLogIsAnalysisPlusIdentity | types.ts:24-28 | a meal log entry is exactly an analysis plus id, timestamp and image: building one and projecting back gives the analysis, and rebuilding an entry from its parts gives the entry |
| Js.Round | components/ResultCard.tsx:24 | `Math.round` lands within one half of its argument (halves round up) |
| Js.RoundMonotonic | components/ResultCard.tsx:24 | rounding never reverses an order |
| Js.RoundOfInteger | services/pdfService.ts:69 | a whole number rounds to itself |
| Js.NumberOf | components/ResultCard.tsx:108 | `Number()` of a cleared number input is 0, of a numeral its value |
| NutrientMatch.FindMacro | components/DailySummary.tsx:52-54 | nothing is found iff no macro name, lower-cased, contains the fragment; otherwise the first one that does is returned |
| NutrientMatch.AmountOrZero | components/DailySummary.tsx:52-54 | the amount of the first matching macro, or 0 when none matches |
| ResultCard.Density | components/ResultCard.tsx:15-21 | 9 kcal/g iff the lower-cased name contains "gord", "fat" or "lipid"; 7 iff it contains none of those but "alco"; 4 otherwise |
| ResultCard.MacroPercentage | components/ResultCard.tsx:11-25 | 0 when the total is 0; otherwise within one half of grams × density / total × 100 |
| ResultCard.MacroPercentageMonotonic | components/ResultCard.tsx:23-24 | for a positive total, more grams never give a smaller percentage |
| ResultCard.DensityOfGorduras | components/ResultCard.tsx:17-18 | "Gorduras" counts 9 kcal/g |
| ResultCard.FatWinsOverAlcohol | components/ResultCard.tsx:17-21 | a name matching a fat fragment counts 9 kcal/g even when it also contains "alco" |
| ResultCard.DensityOfAlcohol | components/ResultCard.tsx:19-20 | "Alcohol" counts 7 kcal/g |
| ResultCard.DensityOfProteinas | components/ResultCard.tsx:15 | "Proteínas" keeps the default 4 kcal/g |
| ResultCard.ShareLink | components/ResultCard.tsx:58-59 | the link is as long as origin, path, `?mealId=` and the id together; its content is stated by its inverse, App.ShareLinkOpensMeal |
| ResultCard.ShareMacro | components/ResultCard.tsx:54 | the shared text says N/A iff no macro name matches, otherwise gives the amount of the first matching macro |
| ResultCard.ApplyMealEdit | components/ResultCard.tsx:104-110 | an edit changes only the field it names; calories go through `Number()`; the macros, ingredients and identity are kept |
| ResultCard.SetMacroAmount | components/ResultCard.tsx:112-116 | only the edited macro's amount changes; every name, unit and other macro is kept |
| ResultCard.SetMacroAmountEcho | components/ResultCard.tsx:112-116 | writing back a macro's own amount leaves the macros unchanged |
| ResultCard.ApplyIngredientEdit | components/ResultCard.tsx:118-125 | the named field changes; amount and percentage go through `Number()`, name and unit are kept as text |
| ResultCard.EditIngredientAt | components/ResultCard.tsx:118-125 | only the ingredient at the index changes, by that edit |
| ResultCard.RemoveIngredientAt | components/ResultCard.tsx:127-130 | the filter drops exactly the row at the index and keeps the order; an index past the end changes nothing |
| ResultCard.AddIngredient | components/ResultCard.tsx:132-137 | one new default row ("Novo Alimento", 100 g, 0 %) is appended behind the unchanged rows |
| ResultCard.DeleteUndoesAdd | components/ResultCard.tsx:127-137 | deleting the row just added restores the ingredients |
| ResultCard.MealEditor.constructor | components/ResultCard.tsx:49-50 | the card starts out of edit mode, with a copy of the meal |
| ResultCard.MealEditor.StartEditing | components/ResultCard.tsx:284 | the edit button enters edit mode; the meal and the copy are kept |
| ResultCard.MealEditor.InputChange | components/ResultCard.tsx:104-110 | the copy becomes ApplyMealEdit of the old copy; the meal and the mode are kept |
| ResultCard.MealEditor.MacroChange | components/ResultCard.tsx:112-116 | the copy's macros become SetMacroAmount with `Number()` of the text; the meal and the mode are kept |
| ResultCard.MealEditor.IngredientChange | components/ResultCard.tsx:118-125 | the copy's ingredients become EditIngredientAt of the old ones; the meal and the mode are kept |
| ResultCard.MealEditor.DeleteIngredient | components/ResultCard.tsx:127-130 | the copy's ingredients become RemoveIngredientAt of the old ones; the meal and the mode are kept |
| ResultCard.MealEditor.AddIngredientRow | components/ResultCard.tsx:132-137 | the copy's ingredients become AddIngredient of the old ones; the meal and the mode are kept |
| ResultCard.MealEditor.Save | components/ResultCard.tsx:94-97 | the copy is handed up, still with the meal's id, time and image, and edit mode ends |
| ResultCard.MealEditor.Rerender | App.tsx:271-276 | the log hands the card (same key, same state) the meal it now holds under that id: the meal is replaced, the copy and the mode are kept |
| ResultCard.MealEditor.Cancel | components/ResultCard.tsx:99-102 | the copy is reset to the meal currently shown and edit mode ends |
| ResultCard.EditSaveReopenCancel | components/ResultCard.tsx:94-102 | edit, save, re-render with the saved meal, reopen and cancel: the form shows the saved edit, not the meal the card was built with |
| SharedMealView.Density | components/SharedMealView.tsx:12-13 | 9 kcal/g iff the lower-cased name contains "gord" or "fat", else 4 |
| SharedMealView.MacroPercentage | components/SharedMealView.tsx:9-15 | 0 when the total is 0; otherwise within one half of grams × density / total × 100 |
| SharedMealView.ClassifiersAgree | components/SharedMealView.tsx:9-15 | for a name without "lipid" and "alco", the shared view and the card give the same density and percentage |
| SharedMealView.DisagreeExactlyOnLipidOrAlcohol | components/SharedMealView.tsx:13 | the two densities differ iff the lower-cased name contains "lipid" or "alco" but neither "gord" nor "fat"; there the shared view says 4 |
| SharedMealView.LipidsDiverge | components/SharedMealView.tsx:13 | "Lipids" is 9 kcal/g on the card but 4 in the shared view |
| SharedMealView.AlcoholDiverges | components/SharedMealView.tsx:13 | "Alcohol" is 7 kcal/g on the card but 4 in the shared view |
| SharedMealView.AccentedLipidLabelAgrees | components/SharedMealView.tsx:13 | "Lipídios" contains no "lipid" (the í differs), so both views give 4 |
| DailySummary.FoodTotals | components/DailySummary.tsx:50-56 | definition (the fold over the meals); its properties are in SumFoodTotals, FoodTotalsConcat, FoodTotalsPrepend and CaloriesIgnoreMacros |
| DailySummary.BurnedTotal | components/DailySummary.tsx:58 | definition (the fold over the activities); its properties are in SumBurned, BurnedTotalConcat and BurnedTotalPrepend |
| DailySummary.SumFoodTotals | components/DailySummary.tsx:50-56 | the accumulating loop over the meals computes FoodTotals |
| DailySummary.SumBurned | components/DailySummary.tsx:58 | the accumulating loop over the activities computes BurnedTotal |
| DailySummary.FoodTotalsConcat | components/DailySummary.tsx:50-56 | the totals of two logs laid end to end are the sums of their totals |
| DailySummary.BurnedTotalConcat | components/DailySummary.tsx:58 | the burned total of two lists laid end to end is the sum of theirs |
| DailySummary.FoodTotalsPrepend | components/DailySummary.tsx:50-56 | a meal put at the front of the log adds exactly its own contribution |
| DailySummary.BurnedTotalPrepend | components/DailySummary.tsx:58 | an activity put at the front adds exactly its burned calories |
| DailySummary.CaloriesIgnoreMacros | components/DailySummary.tsx:51 | the calorie total depends on the meals' calories alone |
| DailySummary.EnglishFatNameAddsNoFat | components/DailySummary.tsx:54 | a macro named "Fat" adds nothing to the fat total, which matches only "gord" |
| DailySummary.NetCalories | components/DailySummary.tsx:63 | definition (calories eaten minus burned, as in services/pdfService.ts too); its properties are in NetCaloriesMayBeNegative, BurningLowersCalorieProgress and PdfReport.ReportComparesEatenNotNet |
| DailySummary.NetCaloriesMayBeNegative | components/DailySummary.tsx:63 | the net balance is not clamped: 1800 eaten and 2100 burned give −300 |
| DailySummary.Progress | components/DailySummary.tsx:20 | 0 for a goal that is not positive; otherwise current / goal × 100 |
| DailySummary.ProgressAtGoal | components/DailySummary.tsx:20 | reaching the goal is exactly 100 % |
| DailySummary.ProgressLinear | components/DailySummary.tsx:20 | progress is linear in the current value |
| DailySummary.IsOver | components/DailySummary.tsx:21 | definition (progress above 100 %); its meaning is IsOverMeansBeyondGoal |
| DailySummary.IsOverMeansBeyondGoal | components/DailySummary.tsx:21 | over means: a positive goal, passed |
| DailySummary.BarWidth | components/DailySummary.tsx:36 | the bar is at most 100 wide: the progress, or 100 when over |
| DailySummary.ColorOf | components/DailySummary.tsx:22 | orange iff the tracker is fixed orange; red iff not and over; amber otherwise |
| DailySummary.ActivityGoal | components/DailySummary.tsx:81 | the activity goal falls back to 500 when it is 0 |
| DailySummary.Trackers | components/DailySummary.tsx:81-85 | five trackers in order: activity (burned against the goal or 500, always orange), net calories, protein, carbs, fat |
| DailySummary.BurningLowersCalorieProgress | components/DailySummary.tsx:82 | burning more never raises the calorie tracker's progress |
| ActivityTracker.MetOf | services/geminiService.ts:153-156 | a failed MET lookup falls back to 1.0 |
| ActivityTracker.EstimateCalories | components/ActivityTracker.tsx:52-53 | within one half of MET × kg × hours (`Math.round`); never negative for non-negative inputs |
| ActivityTracker.EstimateExample | components/ActivityTracker.tsx:52-53 | MET 6, 70 kg and 30 minutes burn 210 kcal |
| ActivityTracker.ZeroMinutesBurnNothing | components/ActivityTracker.tsx:52-53 | no time, no calories |
| ActivityTracker.EstimateMonotonicInDuration | components/ActivityTracker.tsx:52-53 | a longer activity never burns fewer calories |
| ActivityTracker.UpdateProfile | components/ActivityTracker.tsx:32-38 | the edited field takes `Number()` of the input and the other field is kept |
| ActivityTracker.ProfileText | components/ActivityTracker.tsx:117 | a field shows blank iff its value is 0 |
| ActivityTracker.ProfileEchoIsIdentity | components/ActivityTracker.tsx:117 | handing a field's displayed text back to the change handler leaves the profile unchanged |
| ActivityTracker.CanCalculate | components/ActivityTracker.tsx:41 | definition (a non-zero weight, a name and a duration); its consequences are in ClearedWeightBlocksCalculation and ActivityForm.Calculate |
| ActivityTracker.ClearedWeightBlocksCalculation | components/ActivityTracker.tsx:41 | once the weight is cleared, nothing can be calculated |
| ActivityTracker.ActivityForm.constructor | components/ActivityTracker.tsx:24-30 | closed, not loading, empty name and duration, moderate intensity |
| ActivityTracker.ActivityForm.Toggle | components/ActivityTracker.tsx:84 | flips the panel and changes nothing else |
| ActivityTracker.ActivityForm.SetActivityName | components/ActivityTracker.tsx:144 | sets the name only |
| ActivityTracker.ActivityForm.SetDuration | components/ActivityTracker.tsx:154 | sets the duration only |
| ActivityTracker.ActivityForm.SetIntensity | components/ActivityTracker.tsx:163 | sets the intensity only |
| ActivityTracker.ActivityForm.Calculate | components/ActivityTracker.tsx:40-76 | with a missing weight, name or duration nothing happens; otherwise it records the activity with the MET (or 1.0) and the estimate, clears name and duration, keeps the intensity, and stops loading |
| GoalSetter.DraftOf | components/GoalSetter.tsx:13 | every draft field holds its goal |
| GoalSetter.InputOf | components/GoalSetter.tsx:21 | a cleared input leaves the field empty (not 0); a numeral is its value |
| GoalSetter.SetDraftField | components/GoalSetter.tsx:19-22 | the named field takes the input and every other field is kept |
| GoalSetter.SetDraftFieldLastWins | components/GoalSetter.tsx:19-22 | two edits of one field: the last one wins |
| GoalSetter.SetDraftFieldsCommute | components/GoalSetter.tsx:19-22 | edits of different fields commute |
| GoalSetter.GoalEditor.constructor | components/GoalSetter.tsx:12-13 | closed, with the draft of the given goals |
| GoalSetter.GoalEditor.Resync | components/GoalSetter.tsx:15-17 | new goals from above replace the draft |
| GoalSetter.GoalEditor.Toggle | components/GoalSetter.tsx:34 | flips the panel and keeps the draft |
| GoalSetter.GoalEditor.InputChange | components/GoalSetter.tsx:19-22 | the draft becomes SetDraftField of the old draft |
| GoalSetter.GoalEditor.SaveChanges | components/GoalSetter.tsx:24-27 | the draft is handed up as it is and the panel closes |
| Url.UpTo | App.tsx:79 | the longest prefix without the separator; it is shorter than the text iff the separator occurs, and then the separator follows it |
| Url.After | App.tsx:79 | the text is the part before the first separator, the separator, and the rest |
| Url.SplitAtFirst | App.tsx:79 | splitting a text built around a first separator gives back its two parts |
| Url.QueryOf | App.tsx:79 | the query part never contains a fragment marker |
| Url.QueryOfJoined | App.tsx:79 | the query of base + `?` + query is that query |
| Url.Fields | App.tsx:79 | splitting always gives at least one field, none containing the separator; a text without it is one field |
| Url.JoinFields | App.tsx:79 | joining the fields of a split with its separator gives back the text |
| Url.FieldsOfSeparated | App.tsx:79 | splitting `a`, the separator and a rest, when `a` has no separator, gives `a` and then the fields of the rest |
| Url.FieldsJoin | App.tsx:79 | splitting a join of separator-free pieces gives back the pieces |
| Url.FirstValue | App.tsx:80 | there is no value iff no pair has the key; otherwise the value is that of the first pair with the key (empty when it has no `=`) |
| Url.ParamGet | App.tsx:80 | definition (the first value of the key among the `&`-separated pairs); its properties are in ParamGetSinglePair, QueryRoundTrip and App.ShareLinkOpensMeal |
| Url.ParamGetSinglePair | App.tsx:80 | `get` on `key=value` gives the value |
| Url.QueryRoundTrip | App.tsx:79-80 | `get` of the key of the single parameter of a URL gives that parameter's value |
| App.CoerceInput | App.tsx:123-132 | an empty goal input counts as 0, an amount as itself |
| App.CoerceGoals | App.tsx:123-132 | every goal is the coerced draft field |
| App.SaveUntouchedDraftKeepsGoals | App.tsx:123-132 | saving an unedited draft gives back the same goals |
| App.EmptiedFieldSavesAsZero | App.tsx:123-132 | a field cleared in the draft saves as 0 and the others keep their draft values |
| App.RemoveById | App.tsx:161 | the filtered list is no longer, holds no entry with the id, holds only entries of the original, and keeps every other entry |
| App.RemoveConcat | App.tsx:161 | filtering distributes over lists laid end to end (order kept) |
| App.RemoveAbsent | App.tsx:176 | removing an id that is not there changes nothing |
| App.RemoveIdempotent | App.tsx:161 | deleting twice is deleting once |
| App.RemoveUndoesPrepend | App.tsx:171-177 | deleting an activity just added (with a fresh id) restores the list |
| App.ReplaceById | App.tsx:167 | same length and ids; entries with the updated id become the update and others are kept |
| App.ReplaceAbsent | App.tsx:167 | updating an id that is not there changes nothing |
| App.RemoveAfterReplace | App.tsx:160-168 | deleting after an update is the same as deleting without it |
| App.FindById | App.tsx:83 | nothing is found iff no entry has the id; otherwise the first entry with that id |
| App.ResolveShare | App.tsx:78-89 | no share for a missing or empty parameter; otherwise the meal with that id from the log just read, or not found iff no entry has it |
| App.ShareLinkCarriesId | App.tsx:79-80 | the `mealId` parameter of the link the card shares reads back as the id it was built with |
| App.ShareLinkOpensMeal | App.tsx:78-89 | the link the card shares, read back at mount, opens the meal `find` returns for its id: the first logged meal carrying that id |
| App.ShareLinkOpensThatMeal | App.tsx:78-89 | when no earlier logged meal carries the same id (ids come from the clock and a random suffix, App.tsx:145), the link opens exactly that meal |
| App.LoadedOr | App.tsx:53-76 | a saved key replaces the current value and a missing key keeps it |
| App.KeysRead | App.tsx:50-94 | the keys read, in order, before the first unparsable one in a single try: at least one iff the goals parse, at least two iff the profile parses too, at least three iff the log parses too, all four iff every key parses |
| App.FailureText | App.tsx:153-156 | the message shown on a failed analysis is its own message, or "Ocorreu um erro desconhecido." when that is empty |
| App.Ledger.InSharedView | App.tsx:186-188 | definition (a non-empty shared id and a shared meal); CheckShare establishes it for a found meal and ClearShareView ends it |
| App.Ledger.CanDownloadReport | App.tsx:203 | definition (a meal or an activity is logged); AnalyzeImage and AddActivity establish it |
| App.Ledger.constructor | App.tsx:38-47 | empty log and activities, profile 0/0, goals 2000/120/250/60/400, not loading, no error, no shared meal |
| App.Ledger.LoadOnMount | App.tsx:50-94 | each key read before the first unparsable one replaces its state when saved; the share check runs only when all four keys parse |
| App.Ledger.LoadKeys | App.tsx:51-76 | the four keys in order, stopping at the first unparsable one; reports whether all parsed and the log read |
| App.Ledger.CheckShare | App.tsx:78-89 | applies ResolveShare: a found meal opens the shared view (InSharedView holds), an unknown id sets the not-found error |
| App.Ledger.PersistGoals | App.tsx:97-99 | the goals are written to their key; nothing else changes |
| App.Ledger.PersistProfile | App.tsx:102-104 | the profile is written to its key; nothing else changes |
| App.Ledger.PersistLog | App.tsx:106-116 | an empty log is not written; otherwise the log is written, or a full storage sets the quota message, or another failure is ignored |
| App.Ledger.PersistActivities | App.tsx:119-121 | the activities are written, even when empty |
| App.Ledger.GoalsChange | App.tsx:123-132 | the goals become the coerced draft |
| App.Ledger.SetProfile | App.tsx:247 | the profile from the tracker replaces the profile |
| App.Ledger.AnalyzeImage | App.tsx:134-158 | a result is prepended as a new meal with the given id, time and image, and the error is cleared; a failure shows its text; loading ends either way; after a result the report button shows |
| App.Ledger.DeleteMeal | App.tsx:160-164 | the log is filtered by id and written to storage at once, even when empty |
| App.Ledger.UpdateMeal | App.tsx:166-168 | the meal with the updated id is replaced |
| App.Ledger.AddActivity | App.tsx:171-173 | the activity is put at the front and the report button shows |
| App.Ledger.DeleteActivity | App.tsx:175-177 | the activities are filtered by id |
| App.Ledger.ClearShareView | App.tsx:179-184 | shared id, shared meal and error are cleared, so the shared view closes |
| PdfReport.CursorAfterBreak | services/pdfService.ts:31-36 | the cursor stays when the space fits above the bottom margin, and moves to the top of a new page otherwise |
| PdfReport.BreakMakesRoom | services/pdfService.ts:31-36 | after the check, any space that fits on an empty page fits |
| PdfReport.RowPercent | services/pdfService.ts:69 | 0 for a goal that is not positive; otherwise value / goal × 100 rounded |
| PdfReport.RowPercentIsRoundedProgress | services/pdfService.ts:69 | the report's percentage is the summary's progress, rounded |
| PdfReport.SummaryItems | services/pdfService.ts:61-66 | four rows in order: calories eaten, protein, carbs, fat, each against its goal |
| PdfReport.NetLine | services/pdfService.ts:82-85 | the net balance row, marked positive iff the balance is above 0 |
| PdfReport.SummarySection | services/pdfService.ts:45-88 | the section has eight lines; which line is which is stated by SummarySectionRows and SummaryOrder |
| PdfReport.SummarySectionRows | services/pdfService.ts:61-73 | rows 1–4 are the four items with their rounded percentages |
| PdfReport.SummaryOrder | services/pdfService.ts:57-88 | the section reads heading, calories, protein, carbs, fat, burned, net, rule |
| PdfReport.ReportComparesEatenNotNet | services/pdfService.ts:62 | the report compares calories eaten with the goal, while the on-screen tracker compares the net: they differ by the burned total |
| PdfReport.NoBurnGoalFallbackInReport | services/pdfService.ts:77-78 | with no burn goal the report shows goal 0 and 0 %, while the on-screen tracker falls back to 500 |
| PdfReport.ActivitiesSectionShape | services/pdfService.ts:91-102 | no section iff there are no activities; otherwise heading, one row per activity in order, and a rule |
| PdfReport.IngredientLine | services/pdfService.ts:156-157 | name, amount and unit always; the percentage iff it is truthy |
| PdfReport.ZeroShareOmitted | services/pdfService.ts:157 | a 0 % ingredient is shown without its percentage |
| PdfReport.EveryMealNumbered | services/pdfService.ts:108-113 | the i-th meal appears titled with number i + 1 |
| PdfReport.FailedImageDropsMacros | services/pdfService.ts:119-146 | when the image cannot be drawn, the meal's block holds no macro lines |
| PdfReport.ReportBody | services/pdfService.ts:38-166 | definition (header, summary, activities, meals); GenerateDailyReport is proved to emit it and the section lemmas state its parts |
| PdfReport.ActivityRowsLayout | services/pdfService.ts:95-99 | one page check (10) and a 7-unit step per activity: at most one new page per row |
| PdfReport.ActivitiesLayout | services/pdfService.ts:91-102 | nothing moves without activities; otherwise a check (40), 13 units of heading, the rows and 10 more: at most one new page per row plus one |
| PdfReport.IngredientRowsLayout | services/pdfService.ts:153-161 | one page check (10) and a 5.5-unit step per ingredient: at most one new page per row |
| PdfReport.IngredientsLayout | services/pdfService.ts:148-165 | a check (30), 8 units of heading, the rows and 25 units of separator: at most one new page per row plus one |
| PdfReport.MealLayout | services/pdfService.ts:108-166 | a check (80), 19 units of title, 50 for a drawn image or 10 for the fallback, then the ingredients: at most two new pages plus one per ingredient |
| PdfReport.MealsLayoutUpTo | services/pdfService.ts:108-166 | the meals laid out one after another; pages never decrease |
| PdfReport.MealsSectionLayout | services/pdfService.ts:104-166 | 18 units of heading, then every meal |
| PdfReport.ReportLayout | services/pdfService.ts:5-166 | from the top of the first page: header (37) and summary (75), activities, meals; at least one page |
| PdfReport.EmptyDayFitsOnePage | services/pdfService.ts:5-166 | a day with nothing logged is one page |
| PdfReport.OneMealFitsOnePage | services/pdfService.ts:104-166 | one meal without ingredients and no activities fit on one page |
| PdfReport.SecondMealStartsNewPage | services/pdfService.ts:108-110 | two meals with drawn images and no ingredients take two pages: the second fails the 80-unit check |
| PdfReport.Footers | services/pdfService.ts:169-174 | one footer per page: page i of n |
| PdfReport.ReportWriter.constructor | services/pdfService.ts:9 | cursor at 20 on the first page, nothing drawn |
| PdfReport.ReportWriter.AddText | services/pdfService.ts:12-23 | draws a line and moves the cursor down by half the font size |
| PdfReport.ReportWriter.DrawAt | services/pdfService.ts:136 | text at an explicit position: drawn, cursor unchanged |
| PdfReport.ReportWriter.AddRule | services/pdfService.ts:25-29 | draws a rule and moves the cursor down by 5 |
| PdfReport.ReportWriter.Skip | services/pdfService.ts:40 | moves the cursor only |
| PdfReport.ReportWriter.CheckPageBreak | services/pdfService.ts:31-36 | the cursor becomes CursorAfterBreak, with one more page iff it broke |
| PdfReport.ReportWriter.WriteSummaryRows | services/pdfService.ts:68-73 | one summary line per item, in order; the cursor moves 8 per item and no page is added |
| PdfReport.ReportWriter.WriteActivityRows | services/pdfService.ts:95-99 | one line per activity, in order; cursor and pages as ActivityRowsLayout says |
| PdfReport.ReportWriter.WriteMacroRows | services/pdfService.ts:135-138 | one line per macro beside the image, cursor unchanged |
| PdfReport.ReportWriter.WriteIngredientRows | services/pdfService.ts:153-161 | one IngredientLine per ingredient, in order; cursor and pages as IngredientRowsLayout says |
| PdfReport.ReportWriter.WriteImage | services/pdfService.ts:119-146 | the image with its macros, or only the fallback text when it cannot be drawn; the cursor moves 50 or 10 and no page is added |
| PdfReport.ReportWriter.WriteIngredients | services/pdfService.ts:148-165 | the ingredients heading (always), the rows and the separator; cursor and pages as IngredientsLayout says |
| PdfReport.ReportWriter.WriteMeal | services/pdfService.ts:108-166 | the meal's whole block: title, time and calories, image, ingredients, separator; cursor and pages as MealLayout says |
| PdfReport.ReportWriter.WriteMeals | services/pdfService.ts:108-166 | the blocks of all meals, numbered from 1, in order; cursor and pages as MealsLayoutUpTo says |
| PdfReport.ReportWriter.WriteHeader | services/pdfService.ts:38-43 | title, date and a rule; the cursor moves 37 and no page is added |
| PdfReport.ReportWriter.WriteSummary | services/pdfService.ts:45-88 | exactly SummarySection; the cursor moves 75 and no page is added |
| PdfReport.ReportWriter.WriteActivitiesBlock | services/pdfService.ts:92-101 | the body of the `if`, for a non-empty list: exactly ActivitiesSection (heading, one line per activity, rule); cursor and pages as ActivitiesLayout says |
| PdfReport.ReportWriter.WriteActivities | services/pdfService.ts:91-102 | exactly ActivitiesSection; cursor and pages as ActivitiesLayout says |
| PdfReport.ReportWriter.WriteMealsSection | services/pdfService.ts:104-166 | the heading and then every meal's block; cursor and pages as MealsSectionLayout says |
| PdfReport.ReportWriter.WriteFooters | services/pdfService.ts:168-174 | one footer per page, cursor and pages unchanged |
| PdfReport.GenerateDailyReport | services/pdfService.ts:5-177 | the page count is ReportLayout's; the lines drawn are header, summary, activities and meals as ReportBody says, then one footer per page |

## Left out

- Floating point: numbers are exact reals. There is no NaN or Infinity, no rounding error in `/` and `*`, and `toFixed` formatting is dropped (values are kept as numbers in the report lines).
- `toLowerCase` is modelled on ASCII letters only. Accented capitals such as "Á" are not folded, which does not change any of the substring tests used.
- `Number()` is modelled only for what a number input can hold: a blank or a numeral. Free-text parsing is not modelled.
- JSON encoding and decoding: each storage key holds a typed value, or is missing, or fails to parse.
- Storage writes other than the meal-log effect always succeed.
- React scheduling: each effect is a method the caller invokes after the change it watches. The order of effects, and the effects that also run at mount with the initial state, are not modelled. As a result, after a load aborted by an unparsable key, the initial defaults of the later keys would be written back; the model leaves that to the caller.
- Asynchrony and loading spinners between awaits: the image analysis and the MET lookup are single steps whose outcome is a parameter.
- The image-analysis call, the MET lookup call, `FileReader`, `navigator.share`, the clipboard, timers and `window.history` are not part of this model. Their results are parameters, or they are dropped (copy status).
- ActivityForm.Calculate: the catch path of the calculation (an error thrown after the MET lookup) and the alert dialogs are not modelled, because the MET lookup already absorbs its own failures and returns 1.0.
- jsPDF drawing, fonts, colours and page geometry beyond the vertical cursor: each drawn item is a line value. The line does not record the page it lands on; the cursor and page count are stated through the layout functions.
- The macro text drawn beside a meal's image is not checked against the page bottom, as in the source.
- `doc.save` and the report's file name (from the current date) are not modelled.
- Ids (`Date.now()`), timestamps and the date shown in the report are parameters.
- `URLSearchParams` percent-decoding, `+` as a space, and a query that begins without `?` are not modelled. `window.location.search` is modelled as the text after the first `?` and before `#`.
- Meal `ingredients` that are absent are modelled as an empty list, which is what every `|| []` in the source reads them as.
- ResultCard.MealEditor.MacroChange: requires the index to be in range, since the source only calls it with the index of a rendered row.
- ResultCard.MealEditor.IngredientChange: requires the index to be in range, for the same reason.
- ResultCard.ShareLink: its contract states only the length. Its content is stated by App.ShareLinkOpensMeal, which reads the link back.
- The share summary text is modelled only as far as its macro amounts (ResultCard.ShareMacro) and its percentage rule (shared with the report). The rest is formatting.
- PdfReport.SummarySection: its own contract states only the size. The rows are stated by SummarySectionRows and SummaryOrder.

## Notes

- The PDF summary lists calories eaten, protein, carbs, fat, burned and the net balance, in that order. Its calorie row compares what was eaten with the goal, while the on-screen calorie tracker compares the net balance.
- Loading at mount is one `try` block over the four keys. The first key that fails to parse stops the rest, including the share-link check. Keys are not loaded independently.
- "Lipídios" and "Álcool" lower-case to strings that do not contain "lipid" and "alco", because the accented letter differs. Both calorie-share formulas therefore give 4 kcal/g for them. The formulas disagree only on names such as "Lipids" and "Alcohol".
