/**
 * The ledger held by the application shell: today's meals and activities,
 * the goals and the profile, the share-view state and the error banner, with
 * browser storage as four fallible slots, one per saved key.
 */
module App {
  import opened Wrappers
  import opened Types
  import opened Url
  import Js
  import GoalSetter
  import ResultCard

  // ------------------------------------------------------------------ defaults

  const DefaultGoals := DailyGoals(2000.0, 120.0, 250.0, 60.0, 400.0)
  const DefaultProfile := UserProfile(0.0, 0.0)

  const NotFoundMessage := "Refeição não encontrada ou link expirado."
  const QuotaMessage := "O armazenamento local está cheio. Refeições podem não ser salvas."
  const UnknownErrorMessage := "Ocorreu um erro desconhecido."

  // ---------------------------------------------------------- goal coercion

  /** `Number(field) || 0`: an empty draft field becomes 0, a number stays itself. */
  function CoerceInput(i: GoalSetter.GoalInput): (x: real)
    ensures i.Empty? ==> x == 0.0
    ensures i.Amount? ==> x == i.value
  {
    match i
    case Empty => 0.0
    case Amount(v) => v
  }

  /** `handleGoalsChange`'s conversion of a submitted draft into numeric goals. */
  function CoerceGoals(d: GoalSetter.GoalsDraft): (g: DailyGoals)
    ensures forall f :: GoalSetter.GoalOf(g, f) == CoerceInput(GoalSetter.DraftField(d, f))
  {
    DailyGoals(CoerceInput(d.calories), CoerceInput(d.protein), CoerceInput(d.carbs),
               CoerceInput(d.fat), CoerceInput(d.burnedCalories))
  }

  /** Goals are determined by their five fields. */
  lemma GoalsExtensionality(g: DailyGoals, h: DailyGoals)
    requires forall f :: GoalSetter.GoalOf(g, f) == GoalSetter.GoalOf(h, f)
    ensures g == h
  {
    assert GoalSetter.GoalOf(g, GoalSetter.Calories) == GoalSetter.GoalOf(h, GoalSetter.Calories);
    assert GoalSetter.GoalOf(g, GoalSetter.Protein) == GoalSetter.GoalOf(h, GoalSetter.Protein);
    assert GoalSetter.GoalOf(g, GoalSetter.Carbs) == GoalSetter.GoalOf(h, GoalSetter.Carbs);
    assert GoalSetter.GoalOf(g, GoalSetter.Fat) == GoalSetter.GoalOf(h, GoalSetter.Fat);
    assert GoalSetter.GoalOf(g, GoalSetter.BurnedCalories) == GoalSetter.GoalOf(h, GoalSetter.BurnedCalories);
  }

  /** Saving an untouched draft gives back the goals it was made from. */
  lemma SaveUntouchedDraftKeepsGoals(g: DailyGoals)
    ensures CoerceGoals(GoalSetter.DraftOf(g)) == g
  {
    var h := CoerceGoals(GoalSetter.DraftOf(g));
    forall f ensures GoalSetter.GoalOf(h, f) == GoalSetter.GoalOf(g, f) {
      assert GoalSetter.DraftField(GoalSetter.DraftOf(g), f) == GoalSetter.Amount(GoalSetter.GoalOf(g, f));
    }
    GoalsExtensionality(h, g);
  }

  /**
   * A field emptied in the panel and saved becomes a goal of 0; every other
   * goal keeps what the draft held.
   */
  lemma EmptiedFieldSavesAsZero(d: GoalSetter.GoalsDraft, f: GoalSetter.GoalField)
    ensures GoalSetter.GoalOf(CoerceGoals(GoalSetter.SetDraftField(d, f, Js.Blank)), f) == 0.0
    ensures forall h :: h != f ==>
      GoalSetter.GoalOf(CoerceGoals(GoalSetter.SetDraftField(d, f, Js.Blank)), h) == CoerceInput(GoalSetter.DraftField(d, h))
  {
  }

  // ------------------------------------------------------------ list updates

  function MealIdOf(m: MealLog): string { m.id }
  function ActivityIdOf(a: ActivityLog): string { a.id }

  /** `filter(x => x.id !== id)`: drops every entry with that id, keeps the rest in order. */
  function RemoveById<T(==)>(xs: seq<T>, id: string, idOf: T -> string): (r: seq<T>)
    ensures |r| <= |xs|
    ensures forall i :: 0 <= i < |r| ==> idOf(r[i]) != id && r[i] in xs
    ensures forall i :: 0 <= i < |xs| && idOf(xs[i]) != id ==> xs[i] in r
    decreases |xs|
  {
    if xs == [] then []
    else
      var rest := RemoveById(xs[1..], id, idOf);
      assert forall i :: 1 <= i < |xs| ==> xs[i] == xs[1..][i - 1];
      if idOf(xs[0]) == id then rest else [xs[0]] + rest
  }

  /** Filtering distributes over concatenation: relative order is kept. */
  lemma {:induction false} RemoveConcat<T>(a: seq<T>, b: seq<T>, id: string, idOf: T -> string)
    ensures RemoveById(a + b, id, idOf) == RemoveById(a, id, idOf) + RemoveById(b, id, idOf)
    decreases |a|
  {
    if a == [] {
      assert a + b == b;
    } else {
      assert (a + b)[0] == a[0];
      assert (a + b)[1..] == a[1..] + b;
      RemoveConcat(a[1..], b, id, idOf);
    }
  }

  /** Removing an id nobody has changes nothing. */
  lemma {:induction false} RemoveAbsent<T>(xs: seq<T>, id: string, idOf: T -> string)
    requires forall i :: 0 <= i < |xs| ==> idOf(xs[i]) != id
    ensures RemoveById(xs, id, idOf) == xs
    decreases |xs|
  {
    if xs != [] {
      RemoveAbsent(xs[1..], id, idOf);
      assert xs == [xs[0]] + xs[1..];
    }
  }

  /** Deleting is idempotent. */
  lemma RemoveIdempotent<T>(xs: seq<T>, id: string, idOf: T -> string)
    ensures RemoveById(RemoveById(xs, id, idOf), id, idOf) == RemoveById(xs, id, idOf)
  {
    RemoveAbsent(RemoveById(xs, id, idOf), id, idOf);
  }

  /** Deleting a just-prepended entry whose id was fresh restores the list. */
  lemma RemoveUndoesPrepend<T>(x: T, xs: seq<T>, idOf: T -> string)
    requires forall i :: 0 <= i < |xs| ==> idOf(xs[i]) != idOf(x)
    ensures RemoveById([x] + xs, idOf(x), idOf) == xs
  {
    assert ([x] + xs)[1..] == xs;
    RemoveAbsent(xs, idOf(x), idOf);
  }

  /** `map(x => x.id === u.id ? u : x)`: every entry with `u`'s id becomes `u`, in place. */
  function ReplaceById<T(==)>(xs: seq<T>, u: T, idOf: T -> string): (r: seq<T>)
    ensures |r| == |xs|
    ensures forall i :: 0 <= i < |xs| ==> idOf(r[i]) == idOf(xs[i])
    ensures forall i :: 0 <= i < |xs| ==> r[i] == (if idOf(xs[i]) == idOf(u) then u else xs[i])
    decreases |xs|
  {
    if xs == [] then []
    else
      var rest := ReplaceById(xs[1..], u, idOf);
      [if idOf(xs[0]) == idOf(u) then u else xs[0]] + rest
  }

  /** Updating with an id nobody has changes nothing. */
  lemma ReplaceAbsent<T>(xs: seq<T>, u: T, idOf: T -> string)
    requires forall i :: 0 <= i < |xs| ==> idOf(xs[i]) != idOf(u)
    ensures ReplaceById(xs, u, idOf) == xs
  {
    var r := ReplaceById(xs, u, idOf);
    assert forall i :: 0 <= i < |xs| ==> r[i] == xs[i];
  }

  /** Deleting after updating is the same as deleting: the update keeps the id. */
  lemma {:induction false} RemoveAfterReplace<T>(xs: seq<T>, u: T, idOf: T -> string)
    ensures RemoveById(ReplaceById(xs, u, idOf), idOf(u), idOf) == RemoveById(xs, idOf(u), idOf)
    decreases |xs|
  {
    if xs != [] {
      var r := ReplaceById(xs, u, idOf);
      assert r[1..] == ReplaceById(xs[1..], u, idOf);
      RemoveAfterReplace(xs[1..], u, idOf);
    }
  }

  /** `find(x => x.id === id)`: the first entry with that id. */
  function FindById<T(==)>(xs: seq<T>, id: string, idOf: T -> string): (r: Option<T>)
    ensures r.None? <==> forall i :: 0 <= i < |xs| ==> idOf(xs[i]) != id
    ensures r.Some? ==> exists i :: 0 <= i < |xs| && xs[i] == r.value && idOf(xs[i]) == id &&
                                    forall j :: 0 <= j < i ==> idOf(xs[j]) != id
    decreases |xs|
  {
    if xs == [] then None
    else if idOf(xs[0]) == id then Some(xs[0])
    else
      var r := FindById(xs[1..], id, idOf);
      assert forall i :: 1 <= i < |xs| ==> xs[i] == xs[1..][i - 1];
      if r.Some? then
        var k :| 0 <= k < |xs[1..]| && xs[1..][k] == r.value && idOf(xs[1..][k]) == id &&
                 forall j :: 0 <= j < k ==> idOf(xs[1..][j]) != id;
        assert xs[k + 1] == r.value && forall j :: 0 <= j < k + 1 ==> idOf(xs[j]) != id;
        r
      else r
  }

  // ---------------------------------------------------------------- sharing

  /** The name of the query parameter a share link carries. */
  const MealIdKey := "mealId"

  /** What the startup share check decides for the `mealId` parameter. */
  datatype ShareOutcome = NoShare | Shared(id: string, meal: MealLog) | NotFound(id: string)

  /**
   * `if (mealIdFromUrl)`: no parameter, or an empty one, means the normal app;
   * otherwise the first loaded meal with that id is shown, or reported missing.
   */
  function ResolveShare(log: seq<MealLog>, param: Option<string>): (r: ShareOutcome)
    ensures r.NoShare? <==> param == None || param == Some("")
    ensures r.Shared? ==> param == Some(r.id) && FindById(log, r.id, MealIdOf) == Some(r.meal) && r.meal.id == r.id
    ensures r.NotFound? ==> param == Some(r.id) && forall i :: 0 <= i < |log| ==> log[i].id != r.id
  {
    if param == None || param == Some("") then NoShare
    else
      match FindById(log, param.value, MealIdOf)
      case Some(m) => Shared(param.value, m)
      case None => NotFound(param.value)
  }

  /** The share link's query is `?` + `mealId` + `=`. */
  lemma MealIdQueryShape()
    ensures ResultCard.MealIdQuery == ['?'] + MealIdKey + ['=']
    ensures '=' !in MealIdKey && '&' !in MealIdKey && '#' !in MealIdKey
  {
  }

  /** The `mealId` parameter of a share link reads back as the id it was built with. */
  lemma ShareLinkCarriesId(origin: string, pathname: string, id: string)
    requires '?' !in origin + pathname && '#' !in origin + pathname
    requires '&' !in id && '#' !in id
    ensures ParamGet(QueryOf(ResultCard.ShareLink(origin, pathname, id)), MealIdKey) == Some(id)
  {
    MealIdQueryShape();
    assert ResultCard.ShareLink(origin, pathname, id) == (origin + pathname) + ['?'] + MealIdKey + ['='] + id;
    QueryRoundTrip(origin + pathname, MealIdKey, id);
  }

  /**
   * Opening the link that the share button builds for a logged meal shows
   * the meal `find` returns for its id: the first logged meal with that id.
   */
  lemma ShareLinkOpensMeal(log: seq<MealLog>, i: int, origin: string, pathname: string)
    requires 0 <= i < |log| && log[i].id != ""
    requires '?' !in origin + pathname && '#' !in origin + pathname
    requires '&' !in log[i].id && '#' !in log[i].id
    ensures var link := ResultCard.ShareLink(origin, pathname, log[i].id);
            var r := ResolveShare(log, ParamGet(QueryOf(link), MealIdKey));
            r.Shared? && r.id == log[i].id && r.meal.id == log[i].id
            && FindById(log, log[i].id, MealIdOf) == Some(r.meal)
  {
    var id := log[i].id;
    var link := ResultCard.ShareLink(origin, pathname, id);
    ShareLinkCarriesId(origin, pathname, id);
    assert ParamGet(QueryOf(link), MealIdKey) == Some(id);
    var r := ResolveShare(log, Some(id));
    assert MealIdOf(log[i]) == id;
    assert !r.NotFound?;
  }

  /**
   * When no earlier entry of the log carries the meal's id (ids are made
   * from the clock and a random suffix), its share link opens that very meal.
   */
  lemma ShareLinkOpensThatMeal(log: seq<MealLog>, i: int, origin: string, pathname: string)
    requires 0 <= i < |log| && log[i].id != ""
    requires '?' !in origin + pathname && '#' !in origin + pathname
    requires '&' !in log[i].id && '#' !in log[i].id
    requires forall j :: 0 <= j < i ==> log[j].id != log[i].id
    ensures var link := ResultCard.ShareLink(origin, pathname, log[i].id);
            ResolveShare(log, ParamGet(QueryOf(link), MealIdKey)) == Shared(log[i].id, log[i])
  {
    ShareLinkOpensMeal(log, i, origin, pathname);
    var link := ResultCard.ShareLink(origin, pathname, log[i].id);
    var r := ResolveShare(log, ParamGet(QueryOf(link), MealIdKey));
    var k :| 0 <= k < |log| && log[k] == r.meal && MealIdOf(log[k]) == log[i].id &&
             forall j :: 0 <= j < k ==> MealIdOf(log[j]) != log[i].id;
    assert k == i;
  }

  // ---------------------------------------------------------------- storage

  /** One saved key: absent (or empty), a readable record, or text that fails to parse. */
  datatype Slot<T> = Missing | Saved(value: T) | Unparsable

  predicate Parsable<T>(slot: Slot<T>) { !slot.Unparsable? }

  /** The value a successful read installs, or the current one when nothing was saved. */
  function LoadedOr<T>(slot: Slot<T>, current: T): (r: T)
    ensures slot.Saved? ==> r == slot.value
    ensures !slot.Saved? ==> r == current
  {
    if slot.Saved? then slot.value else current
  }

  /** The four keys the ledger saves under. */
  datatype Storage = Storage(goals: Slot<DailyGoals>, profile: Slot<UserProfile>,
                             log: Slot<seq<MealLog>>, activities: Slot<seq<ActivityLog>>)

  /**
   * How far the single `try` of the startup load gets: the first key that
   * fails to parse aborts every later key and the share check.
   */
  function KeysRead(s: Storage): (n: nat)
    ensures n <= 4
    ensures n >= 1 <==> Parsable(s.goals)
    ensures n >= 2 <==> Parsable(s.goals) && Parsable(s.profile)
    ensures n >= 3 <==> Parsable(s.goals) && Parsable(s.profile) && Parsable(s.log)
    ensures n == 4 <==> Parsable(s.goals) && Parsable(s.profile) && Parsable(s.log) && Parsable(s.activities)
  {
    if !Parsable(s.goals) then 0
    else if !Parsable(s.profile) then 1
    else if !Parsable(s.log) then 2
    else if !Parsable(s.activities) then 3
    else 4
  }

  /** The outcome of writing the meal log. */
  datatype WriteOutcome = Written | QuotaExceeded | OtherFailure

  /** The outcome of the photo analysis: a result, or a failure with its message. */
  datatype AnalysisOutcome = Analyzed(analysis: MealAnalysis) | Failed(message: string)

  /** `err.message || 'Ocorreu um erro desconhecido.'`. */
  function FailureText(message: string): (t: string)
    ensures t != ""
    ensures message != "" ==> t == message
    ensures message == "" ==> t == UnknownErrorMessage
  {
    if message != "" then message else UnknownErrorMessage
  }

  /** The whole ledger at one moment, for stating what a handler leaves unchanged. */
  datatype AppState = AppState(
    dailyLog: seq<MealLog>,
    activities: seq<ActivityLog>,
    userProfile: UserProfile,
    dailyGoals: DailyGoals,
    isLoading: bool,
    error: Option<string>,
    sharedMealId: Option<string>,
    sharedMeal: Option<MealLog>,
    storage: Storage)

  class Ledger {
    var dailyLog: seq<MealLog>
    var activities: seq<ActivityLog>
    var userProfile: UserProfile
    var dailyGoals: DailyGoals
    var isLoading: bool
    var error: Option<string>
    var sharedMealId: Option<string>
    var sharedMeal: Option<MealLog>
    var storage: Storage

    function State(): AppState
      reads this
    {
      AppState(dailyLog, activities, userProfile, dailyGoals, isLoading, error, sharedMealId, sharedMeal, storage)
    }

    /** The initial state: empty logs, default profile and goals, over whatever is saved. */
    constructor (saved: Storage)
      ensures State() == AppState([], [], DefaultProfile, DefaultGoals, false, None, None, None, saved)
    {
      dailyLog := [];
      activities := [];
      userProfile := DefaultProfile;
      dailyGoals := DefaultGoals;
      isLoading := false;
      error := None;
      sharedMealId := None;
      sharedMeal := None;
      storage := saved;
    }

    /** The shared-meal page replaces the app while both an id and a meal are set. */
    predicate InSharedView()
      reads this
    {
      sharedMealId.Some? && sharedMealId.value != "" && sharedMeal.Some?
    }

    /** The report button appears once anything was logged today. */
    predicate CanDownloadReport()
      reads this
    {
      |dailyLog| > 0 || |activities| > 0
    }

    /**
     * The startup load, one `try` around all four keys in order (goals,
     * profile, meal log, activities) and then the share check against the
     * meal log just read. Saved keys replace the state, missing ones keep it,
     * and the first unparsable key ends the load there, share check included.
     */
    method LoadOnMount(param: Option<string>)
      modifies this
      ensures var s, n := old(storage), KeysRead(old(storage));
        dailyGoals == LoadedOr(s.goals, old(dailyGoals))
        && userProfile == (if n >= 1 then LoadedOr(s.profile, old(userProfile)) else old(userProfile))
        && dailyLog == (if n >= 2 then LoadedOr(s.log, old(dailyLog)) else old(dailyLog))
        && activities == (if n >= 3 then LoadedOr(s.activities, old(activities)) else old(activities))
      ensures KeysRead(old(storage)) < 4 ==>
        sharedMealId == old(sharedMealId) && sharedMeal == old(sharedMeal) && error == old(error)
      ensures KeysRead(old(storage)) == 4 ==>
        ShareApplied(ResolveShare(LoadedOr(old(storage).log, []), param), old(sharedMealId), old(sharedMeal), old(error))
      ensures storage == old(storage) && isLoading == old(isLoading)
    {
      var parsedLog, complete := LoadKeys();
      if complete {
        CheckShare(parsedLog, param);
      }
    }

    /** The share fields and banner after the share check decided `r`, from the given ones. */
    ghost predicate ShareApplied(r: ShareOutcome, id0: Option<string>, meal0: Option<MealLog>, error0: Option<string>)
      reads this
    {
      match r
      case NoShare => sharedMealId == id0 && sharedMeal == meal0 && error == error0
      case Shared(id, m) => sharedMealId == Some(id) && sharedMeal == Some(m) && error == error0
      case NotFound(id) => sharedMealId == Some(id) && sharedMeal == meal0 && error == Some(NotFoundMessage)
    }

    /** The four reads of the startup `try`, stopping at the first unparsable key. */
    method LoadKeys() returns (parsedLog: seq<MealLog>, complete: bool)
      modifies this
      ensures var s, n := old(storage), KeysRead(old(storage));
        dailyGoals == LoadedOr(s.goals, old(dailyGoals))
        && userProfile == (if n >= 1 then LoadedOr(s.profile, old(userProfile)) else old(userProfile))
        && dailyLog == (if n >= 2 then LoadedOr(s.log, old(dailyLog)) else old(dailyLog))
        && activities == (if n >= 3 then LoadedOr(s.activities, old(activities)) else old(activities))
      ensures complete <==> KeysRead(old(storage)) == 4
      ensures complete ==> parsedLog == LoadedOr(old(storage).log, [])
      ensures storage == old(storage) && isLoading == old(isLoading)
      ensures sharedMealId == old(sharedMealId) && sharedMeal == old(sharedMeal) && error == old(error)
    {
      complete := false;
      parsedLog := [];
      match storage.goals {
        case Saved(g) => dailyGoals := g;
        case Unparsable => return;
        case Missing =>
      }
      match storage.profile {
        case Saved(p) => userProfile := p;
        case Unparsable => return;
        case Missing =>
      }
      match storage.log {
        case Saved(l) => parsedLog := l; dailyLog := l;
        case Unparsable => return;
        case Missing =>
      }
      match storage.activities {
        case Saved(a) => activities := a;
        case Unparsable => return;
        case Missing =>
      }
      complete := true;
    }

    /** `if (mealIdFromUrl) { ... find ... }` against the log just read. */
    method CheckShare(parsedLog: seq<MealLog>, param: Option<string>)
      modifies this
      ensures ShareApplied(ResolveShare(parsedLog, param), old(sharedMealId), old(sharedMeal), old(error))
      ensures ResolveShare(parsedLog, param).Shared? ==> InSharedView()
      ensures dailyLog == old(dailyLog) && activities == old(activities) && userProfile == old(userProfile)
      ensures dailyGoals == old(dailyGoals) && isLoading == old(isLoading) && storage == old(storage)
    {
      if param.Some? && param.value != "" {
        sharedMealId := param;
        var found := FindById(parsedLog, param.value, MealIdOf);
        if found.Some? {
          sharedMeal := found;
        } else {
          error := Some(NotFoundMessage);
        }
      }
    }

    /** The goals effect writes the goals. */
    method PersistGoals()
      modifies this
      ensures State() == old(State()).(storage := old(storage).(goals := Saved(dailyGoals)))
    {
      storage := storage.(goals := Saved(dailyGoals));
    }

    /** The profile effect writes the profile. */
    method PersistProfile()
      modifies this
      ensures State() == old(State()).(storage := old(storage).(profile := Saved(userProfile)))
    {
      storage := storage.(profile := Saved(userProfile));
    }

    /** The activities effect writes the activity list, even an empty one. */
    method PersistActivities()
      modifies this
      ensures State() == old(State()).(storage := old(storage).(activities := Saved(activities)))
    {
      storage := storage.(activities := Saved(activities));
    }

    /**
     * The meal-log effect: an empty log is never written; a full storage
     * leaves the saved log as it was and raises the quota banner; any other
     * write failure is ignored. The in-memory log is never touched.
     */
    method PersistLog(outcome: WriteOutcome)
      modifies this
      ensures |dailyLog| == 0 || outcome == OtherFailure ==> State() == old(State())
      ensures |dailyLog| > 0 && outcome == Written ==>
        State() == old(State()).(storage := old(storage).(log := Saved(dailyLog)))
      ensures |dailyLog| > 0 && outcome == QuotaExceeded ==>
        State() == old(State()).(error := Some(QuotaMessage))
    {
      if |dailyLog| == 0 {
        return;
      }
      match outcome {
        case Written => storage := storage.(log := Saved(dailyLog));
        case QuotaExceeded => error := Some(QuotaMessage);
        case OtherFailure =>
      }
    }

    /** `handleGoalsChange`: the submitted draft, coerced to numbers, becomes the goals. */
    method GoalsChange(draft: GoalSetter.GoalsDraft)
      modifies this
      ensures State() == old(State()).(dailyGoals := CoerceGoals(draft))
    {
      dailyGoals := CoerceGoals(draft);
    }

    /** The profile handed up by the activity tracker replaces the profile. */
    method SetProfile(p: UserProfile)
      modifies this
      ensures State() == old(State()).(userProfile := p)
    {
      userProfile := p;
    }

    /**
     * `handleImageAnalysis`, state only: the banner is cleared, a result is
     * prepended as a new meal with the given id, time and image, a failure
     * shows its message, and loading ends either way.
     */
    method AnalyzeImage(outcome: AnalysisOutcome, id: string, timestamp: string, imageSrc: string)
      modifies this
      ensures outcome.Analyzed? ==>
        State() == old(State()).(dailyLog := [NewMealLog(outcome.analysis, id, timestamp, imageSrc)] + old(dailyLog),
                                 error := None, isLoading := false)
      ensures outcome.Failed? ==>
        State() == old(State()).(error := Some(FailureText(outcome.message)), isLoading := false)
      ensures outcome.Analyzed? ==> CanDownloadReport()
    {
      isLoading := true;
      error := None;
      match outcome {
        case Analyzed(a) =>
          var newMeal := NewMealLog(a, id, timestamp, imageSrc);
          dailyLog := [newMeal] + dailyLog;
        case Failed(message) =>
          error := Some(FailureText(message));
      }
      isLoading := false;
    }

    /** `handleDeleteMeal`: filters the log by id and writes the result at once, even when empty. */
    method DeleteMeal(id: string)
      modifies this
      ensures var newLog := RemoveById(old(dailyLog), id, MealIdOf);
        State() == old(State()).(dailyLog := newLog, storage := old(storage).(log := Saved(newLog)))
    {
      var newLog := RemoveById(dailyLog, id, MealIdOf);
      dailyLog := newLog;
      storage := storage.(log := Saved(newLog));
    }

    /** `handleUpdateMeal`: the meal with the updated meal's id is replaced where it stands. */
    method UpdateMeal(updated: MealLog)
      modifies this
      ensures State() == old(State()).(dailyLog := ReplaceById(old(dailyLog), updated, MealIdOf))
    {
      dailyLog := ReplaceById(dailyLog, updated, MealIdOf);
    }

    /** `handleAddActivity`: the newest activity comes first. */
    method AddActivity(a: ActivityLog)
      modifies this
      ensures State() == old(State()).(activities := [a] + old(activities))
      ensures CanDownloadReport()
    {
      activities := [a] + activities;
    }

    /** `handleDeleteActivity`: filters the activities by id. */
    method DeleteActivity(id: string)
      modifies this
      ensures State() == old(State()).(activities := RemoveById(old(activities), id, ActivityIdOf))
    {
      activities := RemoveById(activities, id, ActivityIdOf);
    }

    /** `clearShareView`: back to the app, with no shared meal and no banner. */
    method ClearShareView()
      modifies this
      ensures State() == old(State()).(sharedMealId := None, sharedMeal := None, error := None)
      ensures !InSharedView()
    {
      sharedMealId := None;
      sharedMeal := None;
      error := None;
    }
  }
}
