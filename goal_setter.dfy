/**
 * The goals panel: a local draft of the five daily goals, edited field by
 * field and handed to the ledger on save. An emptied input stays empty in
 * the draft instead of becoming a number.
 */
module GoalSetter {
  import opened Js
  import opened Types

  /** One draft field: the empty string, or a number. */
  datatype GoalInput = Empty | Amount(value: real)

  datatype GoalsDraft = GoalsDraft(calories: GoalInput, protein: GoalInput, carbs: GoalInput,
                                   fat: GoalInput, burnedCalories: GoalInput)

  /** The five inputs, named after the goal they write. */
  datatype GoalField = Calories | Protein | Carbs | Fat | BurnedCalories

  /** The draft a set of goals starts as: every field a number. */
  function DraftOf(g: DailyGoals): (d: GoalsDraft)
    ensures forall f :: DraftField(d, f) == Amount(GoalOf(g, f))
  {
    GoalsDraft(Amount(g.calories), Amount(g.protein), Amount(g.carbs), Amount(g.fat), Amount(g.burnedCalories))
  }

  function GoalOf(g: DailyGoals, f: GoalField): real {
    match f
    case Calories => g.calories
    case Protein => g.protein
    case Carbs => g.carbs
    case Fat => g.fat
    case BurnedCalories => g.burnedCalories
  }

  function DraftField(d: GoalsDraft, f: GoalField): GoalInput {
    match f
    case Calories => d.calories
    case Protein => d.protein
    case Carbs => d.carbs
    case Fat => d.fat
    case BurnedCalories => d.burnedCalories
  }

  /** `value === '' ? '' : Number(value)`. */
  function InputOf(value: NumText): (i: GoalInput)
    ensures i == Empty <==> value == Blank
    ensures value.Numeral? ==> i == Amount(value.value)
  {
    match value
    case Blank => Empty
    case Numeral(v) => Amount(v)
  }

  /** `{ ...prev, [name]: ... }`: the named field takes the input, the other four are kept. */
  function SetDraftField(d: GoalsDraft, f: GoalField, value: NumText): (r: GoalsDraft)
    ensures DraftField(r, f) == InputOf(value)
    ensures forall g :: g != f ==> DraftField(r, g) == DraftField(d, g)
  {
    var i := InputOf(value);
    match f
    case Calories => d.(calories := i)
    case Protein => d.(protein := i)
    case Carbs => d.(carbs := i)
    case Fat => d.(fat := i)
    case BurnedCalories => d.(burnedCalories := i)
  }

  /** The draft is determined by its five fields. */
  lemma DraftExtensionality(d: GoalsDraft, e: GoalsDraft)
    requires forall f :: DraftField(d, f) == DraftField(e, f)
    ensures d == e
  {
    assert DraftField(d, Calories) == DraftField(e, Calories);
    assert DraftField(d, Protein) == DraftField(e, Protein);
    assert DraftField(d, Carbs) == DraftField(e, Carbs);
    assert DraftField(d, Fat) == DraftField(e, Fat);
    assert DraftField(d, BurnedCalories) == DraftField(e, BurnedCalories);
  }

  /** Typing into one field twice keeps only the last input. */
  lemma SetDraftFieldLastWins(d: GoalsDraft, f: GoalField, v1: NumText, v2: NumText)
    ensures SetDraftField(SetDraftField(d, f, v1), f, v2) == SetDraftField(d, f, v2)
  {
    var a, b := SetDraftField(SetDraftField(d, f, v1), f, v2), SetDraftField(d, f, v2);
    forall g ensures DraftField(a, g) == DraftField(b, g) {
      if g != f {
        assert DraftField(a, g) == DraftField(SetDraftField(d, f, v1), g);
      }
    }
    DraftExtensionality(a, b);
  }

  /** Edits of two different fields do not interfere: their order does not matter. */
  lemma SetDraftFieldsCommute(d: GoalsDraft, f: GoalField, g: GoalField, v: NumText, w: NumText)
    requires f != g
    ensures SetDraftField(SetDraftField(d, f, v), g, w) == SetDraftField(SetDraftField(d, g, w), f, v)
  {
    var a, b := SetDraftField(SetDraftField(d, f, v), g, w), SetDraftField(SetDraftField(d, g, w), f, v);
    forall h ensures DraftField(a, h) == DraftField(b, h) {
      if h != f && h != g {
        assert DraftField(a, h) == DraftField(SetDraftField(d, f, v), h) == DraftField(d, h);
        assert DraftField(b, h) == DraftField(SetDraftField(d, g, w), h) == DraftField(d, h);
      } else if h == f {
        assert DraftField(a, h) == DraftField(SetDraftField(d, f, v), h);
      } else {
        assert DraftField(b, h) == DraftField(SetDraftField(d, g, w), h);
      }
    }
    DraftExtensionality(a, b);
  }

  /** The panel: whether it is open, and the draft it edits. */
  class GoalEditor {
    var isOpen: bool
    var localGoals: GoalsDraft

    /** The panel starts closed, with a draft of the goals it was given. */
    constructor (goals: DailyGoals)
      ensures !isOpen && localGoals == DraftOf(goals)
    {
      isOpen := false;
      localGoals := DraftOf(goals);
    }

    /** A new set of goals from the ledger replaces the whole draft. */
    method Resync(goals: DailyGoals)
      modifies this
      ensures localGoals == DraftOf(goals) && isOpen == old(isOpen)
    {
      localGoals := DraftOf(goals);
    }

    method Toggle()
      modifies this
      ensures isOpen == !old(isOpen) && localGoals == old(localGoals)
    {
      isOpen := !isOpen;
    }

    /** `handleInputChange`: one field of the draft takes the input. */
    method InputChange(field: GoalField, value: NumText)
      modifies this
      ensures localGoals == SetDraftField(old(localGoals), field, value)
      ensures isOpen == old(isOpen)
    {
      localGoals := SetDraftField(localGoals, field, value);
    }

    /** `handleSaveChanges`: the whole draft is submitted and the panel closes. */
    method SaveChanges() returns (submitted: GoalsDraft)
      modifies this
      ensures submitted == old(localGoals)
      ensures localGoals == old(localGoals) && !isOpen
    {
      submitted := localGoals;
      isOpen := false;
    }
  }
}
