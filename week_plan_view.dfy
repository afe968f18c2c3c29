/**
 * WeekPlanView: the week's calendar. Each of the seven days shows the
 * meals planned for it whose recipe can be found, or "Leftover day" when
 * there are none.
 */
module WeekPlanView {
  import opened Wrappers
  import opened Types

  const Days: seq<string> := ["Monday", "Tuesday", "Wednesday", "Thursday", "Friday", "Saturday", "Sunday"]

  /** getRecipeById: the first recipe with that id, if any. */
  function RecipeById(recipes: seq<Recipe>, id: string): (r: Option<Recipe>)
    ensures r.None? <==> forall i :: 0 <= i < |recipes| ==> recipes[i].id != id
    ensures r.Some? ==> exists i :: 0 <= i < |recipes| && recipes[i] == r.value && r.value.id == id
                                    && forall j :: 0 <= j < i ==> recipes[j].id != id
  {
    if recipes == [] then None
    else if recipes[0].id == id then Some(recipes[0])
    else
      var r := RecipeById(recipes[1..], id);
      assert forall i :: 1 <= i < |recipes| ==> recipes[i] == recipes[1..][i - 1];
      r
  }

  /** A meal together with the recipe it resolved to. */
  datatype DisplayedMeal = DisplayedMeal(meal: MealPlan, recipe: Recipe)

  /** A meal is shown on `day` when it is planned for that day and its recipe is found. */
  predicate ShownOn(meal: MealPlan, recipes: seq<Recipe>, day: string) {
    meal.day == day && RecipeById(recipes, meal.recipeId).Some?
  }

  /** getMealsForDay: the meals shown on that day, with their recipes, in plan order. */
  function MealsForDay(meals: seq<MealPlan>, recipes: seq<Recipe>, day: string): (r: seq<DisplayedMeal>)
    ensures |r| <= |meals|
  {
    if meals == [] then [] else Entry(meals[0], recipes, day) + MealsForDay(meals[1..], recipes, day)
  }

  /** What one meal contributes to its day's list. */
  function Entry(m: MealPlan, recipes: seq<Recipe>, day: string): seq<DisplayedMeal> {
    var found := RecipeById(recipes, m.recipeId);
    if m.day == day && found.Some? then [DisplayedMeal(m, found.value)] else []
  }

  /**
   * The day lists exactly the meals shown on it: each entry is a meal of
   * the plan for that day paired with the recipe its id resolves to, and
   * every such meal has an entry.
   */
  lemma {:induction false} MealsForDayExact(meals: seq<MealPlan>, recipes: seq<Recipe>, day: string)
    ensures forall d :: d in MealsForDay(meals, recipes, day) ==>
      d.meal in meals && ShownOn(d.meal, recipes, day) && RecipeById(recipes, d.meal.recipeId) == Some(d.recipe)
    ensures forall m :: m in meals && ShownOn(m, recipes, day) ==>
      exists d :: d in MealsForDay(meals, recipes, day) && d.meal == m
  {
    if meals != [] {
      var m := meals[0];
      var head := Entry(m, recipes, day);
      var rest := MealsForDay(meals[1..], recipes, day);
      MealsForDayExact(meals[1..], recipes, day);
      assert MealsForDay(meals, recipes, day) == head + rest;
      assert forall x :: x in meals <==> x == m || x in meals[1..];
    }
  }

  /** The grouping keeps the plan's order: it distributes over concatenation of plans. */
  lemma {:induction false} MealsForDayConcat(a: seq<MealPlan>, b: seq<MealPlan>, recipes: seq<Recipe>, day: string)
    ensures MealsForDay(a + b, recipes, day) == MealsForDay(a, recipes, day) + MealsForDay(b, recipes, day)
  {
    if a == [] {
      assert a + b == b;
    } else {
      var ab := a + b;
      var head := Entry(a[0], recipes, day);
      calc {
        MealsForDay(ab, recipes, day);
        { assert ab[0] == a[0]; assert ab[1..] == a[1..] + b; }
        head + MealsForDay(a[1..] + b, recipes, day);
        { MealsForDayConcat(a[1..], b, recipes, day); }
        head + (MealsForDay(a[1..], recipes, day) + MealsForDay(b, recipes, day));
        (head + MealsForDay(a[1..], recipes, day)) + MealsForDay(b, recipes, day);
        MealsForDay(a, recipes, day) + MealsForDay(b, recipes, day);
      }
    }
  }

  /** One column of the calendar. */
  datatype DayColumn = DayColumn(day: string, meals: seq<DisplayedMeal>) {
    /** The column reads "Leftover day" instead of listing meals. */
    predicate IsLeftoverDay() {
      meals == []
    }
  }

  /** The seven columns, Monday to Sunday. */
  function Calendar(plan: WeekPlan, recipes: seq<Recipe>): (cal: seq<DayColumn>)
    ensures |cal| == |Days|
    ensures forall i :: 0 <= i < |cal| ==> cal[i].day == Days[i]
    ensures forall i :: 0 <= i < |cal| ==>
      (cal[i].IsLeftoverDay() <==> forall m :: m in plan.meals ==> !ShownOn(m, recipes, Days[i]))
  {
    var cal := seq(|Days|, i requires 0 <= i < |Days| => DayColumn(Days[i], MealsForDay(plan.meals, recipes, Days[i])));
    assert forall i :: 0 <= i < |cal| ==>
      (cal[i].meals == [] <==> forall m :: m in plan.meals ==> !ShownOn(m, recipes, Days[i])) by {
      forall i | 0 <= i < |cal| {
        NoMealsShown(plan.meals, recipes, Days[i]);
      }
    }
    cal
  }

  /** A day has nothing to list exactly when none of its meals can be shown. */
  lemma NoMealsShown(meals: seq<MealPlan>, recipes: seq<Recipe>, day: string)
    ensures MealsForDay(meals, recipes, day) == [] <==> forall m :: m in meals ==> !ShownOn(m, recipes, day)
  {
    var r := MealsForDay(meals, recipes, day);
    MealsForDayExact(meals, recipes, day);
    if r != [] {
      assert r[0] in r;
    }
  }

  /** Every meal on the calendar is a meal of the plan, on one of the seven days, with a recipe that was found. */
  lemma CalendarShowsOnlyResolvableMeals(plan: WeekPlan, recipes: seq<Recipe>, i: nat, d: DisplayedMeal)
    requires i < |Days| && d in Calendar(plan, recipes)[i].meals
    ensures d.meal in plan.meals && d.meal.day in Days
    ensures exists k :: 0 <= k < |recipes| && recipes[k].id == d.meal.recipeId
  {
    MealsForDayExact(plan.meals, recipes, Days[i]);
  }

  /** A meal planned for a day outside the seven, such as "Mon", appears in no column. */
  lemma OffCalendarMealsHidden(plan: WeekPlan, recipes: seq<Recipe>, m: MealPlan)
    requires m.day !in Days
    ensures forall i :: 0 <= i < |Days| ==> forall d :: d in Calendar(plan, recipes)[i].meals ==> d.meal != m
  {
    forall i | 0 <= i < |Days| {
      MealsForDayExact(plan.meals, recipes, Days[i]);
    }
  }
}
