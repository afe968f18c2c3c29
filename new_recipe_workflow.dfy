/**
 * NewRecipeWorkflow: the four-step wizard (time, diet, flavours, quick
 * versus prep meals) that collects the preferences for generating new
 * recipes and hands them on at the end.
 */
module NewRecipeWorkflow {
  import opened Wrappers
  import opened Text
  import opened Lists

  const TotalSteps := 4

  /** The preferences the wizard collects; `quickMealRatio` is the share of quick meals, from 0 to 1. */
  datatype RecipePreferences = RecipePreferences(
    timeAvailable: int,
    dietConstraints: seq<string>,
    flavors: seq<string>,
    quickMealRatio: real)

  const InitialPreferences := RecipePreferences(30, ["Vegetarian"], [], 0.5)

  /** The minutes field: `parseInt(text) || 0`, so unreadable text counts as no time at all. */
  function TimeFromInput(text: string): (minutes: int)
    ensures ParseInt(text).None? ==> minutes == 0
    ensures ParseInt(text).Some? ==> minutes == ParseInt(text).value
  {
    ParseInt(text).GetOr(0)
  }

  /** A typed whole number is read back as itself. */
  lemma TimeFromPrintedNumber(n: int)
    ensures TimeFromInput(IntToString(n)) == n
  {
    ParseIntToString(n);
  }

  class NewRecipeWorkflow {
    var step: int
    var preferences: RecipePreferences

    ghost predicate Valid()
      reads this
    {
      1 <= step <= TotalSteps
    }

    constructor ()
      ensures step == 1 && preferences == InitialPreferences
      ensures preferences.dietConstraints == ["Vegetarian"] && preferences.flavors == []
      ensures preferences.timeAvailable == 30
      ensures Valid()
    {
      step := 1;
      preferences := InitialPreferences;
    }

    /** handleNext: moves on before the last step; on the last step hands the preferences on. */
    method Next() returns (completed: Option<RecipePreferences>)
      requires Valid()
      modifies this
      ensures old(step) < TotalSteps ==> step == old(step) + 1 && completed.None?
      ensures old(step) == TotalSteps ==> step == old(step) && completed == Some(old(preferences))
      ensures preferences == old(preferences)
      ensures Valid()
    {
      if step < TotalSteps {
        step := step + 1;
        completed := None;
      } else {
        completed := Some(preferences);
      }
    }

    /** handleBack: one step back, never before the first. */
    method Back()
      requires Valid()
      modifies this
      ensures step == if old(step) > 1 then old(step) - 1 else old(step)
      ensures preferences == old(preferences)
      ensures Valid()
    {
      if step > 1 {
        step := step - 1;
      }
    }

    method ToggleFlavor(flavor: string)
      modifies this
      ensures preferences == old(preferences).(flavors := Toggle(old(preferences).flavors, flavor))
      ensures flavor in preferences.flavors <==> flavor !in old(preferences).flavors
      ensures step == old(step)
    {
      preferences := preferences.(flavors := Toggle(preferences.flavors, flavor));
    }

    method ToggleDiet(diet: string)
      modifies this
      ensures preferences == old(preferences).(dietConstraints := Toggle(old(preferences).dietConstraints, diet))
      ensures diet in preferences.dietConstraints <==> diet !in old(preferences).dietConstraints
      ensures step == old(step)
    {
      preferences := preferences.(dietConstraints := Toggle(preferences.dietConstraints, diet));
    }

    /** The minutes input. */
    method SetTimeFromInput(text: string)
      modifies this
      ensures preferences == old(preferences).(timeAvailable := TimeFromInput(text))
      ensures step == old(step)
    {
      preferences := preferences.(timeAvailable := TimeFromInput(text));
    }

    /** The minutes slider, which only produces multiples of 5 from 10 to 120. */
    method SetTimeFromSlider(value: int)
      requires 10 <= value <= 120 && value % 5 == 0
      modifies this
      ensures preferences == old(preferences).(timeAvailable := value)
      ensures step == old(step)
    {
      preferences := preferences.(timeAvailable := value);
    }

    /** The quick-versus-prep slider, in percent. */
    method SetQuickMealPercent(value: int)
      requires 0 <= value <= 100
      modifies this
      ensures preferences == old(preferences).(quickMealRatio := value as real / 100.0)
      ensures 0.0 <= preferences.quickMealRatio <= 1.0
      ensures step == old(step)
    {
      preferences := preferences.(quickMealRatio := value as real / 100.0);
    }
  }
}
