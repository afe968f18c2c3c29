/**
 * PlanView: the planning tab. It switches between the empty state, the
 * recipe pickers for "star" and "stitch" weeks, the preferences wizard and
 * the generated week, keeps the favourite recipes, and composes the week's
 * recipe list from the chosen anchor recipes and the demo recipes.
 */
module PlanView {
  import opened Wrappers
  import opened Lists
  import opened Types

  datatype ViewMode = Empty | Workflow | WeekPlanMode | SelectStar | SelectStitch

  /** The four demo recipes the generated week is made of. */
  const MockRecipes: seq<Recipe> := [
    Recipe("1", "Chicken Pasta", 30, 4, 450,
           ["chicken breast", "pasta", "tomatoes", "garlic", "olive oil"],
           ["chicken breast", "pasta", "tomatoes"],
           ["Cook pasta", "Saut\U{00E9} chicken", "Combine"],
           None, ["dinner"], None, Quick, None, None,
           Some("Chicken"), Some("Pasta"), Some("Tomatoes")),
    Recipe("2", "Chicken Tacos", 25, 4, 380,
           ["chicken breast", "tortillas", "lettuce", "salsa", "cheese"],
           ["chicken breast", "tortillas", "lettuce"],
           ["Cook chicken", "Assemble tacos"],
           None, ["dinner"], None, Quick, None, None,
           Some("Chicken"), Some("Tortillas"), Some("Lettuce")),
    Recipe("3", "Tomato Soup", 35, 4, 180,
           ["tomatoes", "onion", "vegetable broth", "cream", "basil"],
           ["tomatoes", "onion", "vegetable broth"],
           ["Saut\U{00E9} onions", "Add tomatoes and broth", "Blend"],
           None, ["lunch"], None, Prep, None, None,
           Some("Cream"), None, Some("Tomatoes")),
    Recipe("4", "Veggie Stir-fry", 20, 4, 280,
           ["bell peppers", "broccoli", "rice", "soy sauce", "garlic"],
           ["bell peppers", "broccoli", "rice"],
           ["Cook rice", "Stir-fry vegetables"],
           None, ["dinner"], None, Quick, None, None,
           Some("Tofu"), Some("Rice"), Some("Mixed Vegetables"))
  ]

  /** The demo plan: dinner Monday, Tuesday, Thursday and Friday, lunch Wednesday. */
  function MockMeals(): seq<MealPlan> {
    [ MealPlan("1", "1", "Monday", Dinner),
      MealPlan("2", "2", "Tuesday", Dinner),
      MealPlan("3", "3", "Wednesday", Lunch),
      MealPlan("4", "4", "Thursday", Dinner),
      MealPlan("5", "1", "Friday", Dinner) ]
  }

  function MockWeekPlan(id: string, now: int): WeekPlan {
    WeekPlan(id, now, MockMeals(), ["chicken breast", "tomatoes"], now)
  }

  /** `s.slice(0, end)`: a negative end counts from the back, and the end is clamped to the list. */
  function SliceTo<T>(s: seq<T>, end: int): (r: seq<T>)
    ensures 0 <= end ==> r == s[..if end < |s| then end else |s|]
    ensures end < 0 ==> r == s[..if |s| + end < 0 then 0 else |s| + end]
  {
    var e := if end < 0 then |s| + end else end;
    var k := if e < 0 then 0 else if e > |s| then |s| else e;
    s[..k]
  }

  /**
   * The week's recipes in handleGenerateWeek: the demo recipes, or the
   * anchors followed by as many demo recipes as fit in seven.
   */
  function WeekRecipes(anchors: seq<Recipe>): (r: seq<Recipe>)
    ensures anchors == [] ==> r == MockRecipes
    ensures anchors != [] ==> r == anchors + SliceTo(MockRecipes, 7 - |anchors|)
  {
    if |anchors| > 0 then anchors + SliceTo(MockRecipes, 7 - |anchors|) else MockRecipes
  }

  /**
   * With up to seven anchors, which is all the pickers allow, the week
   * starts with the anchors in order, then the demo recipes in order, and
   * has at most seven recipes (or the four demo ones).
   */
  lemma WeekRecipesShape(anchors: seq<Recipe>)
    requires |anchors| <= 7
    ensures var r := WeekRecipes(anchors);
      r[..|anchors|] == anchors
      && r[|anchors|..] == MockRecipes[..|r| - |anchors|]
      && |r| <= (if anchors == [] then |MockRecipes| else 7)
      && |r| == |anchors| + (if 7 - |anchors| < |MockRecipes| then 7 - |anchors| else |MockRecipes|)
  {
    var r := WeekRecipes(anchors);
    if anchors != [] {
      assert r == anchors + SliceTo(MockRecipes, 7 - |anchors|);
    }
  }

  /** JavaScript truthiness of an optional flag. */
  function Truthy(b: Option<bool>): bool {
    b == Some(true)
  }

  /** handleToggleFavorite on the list: the recipes with that id get `isFavorite: !isFavorite`. */
  function ToggleFavoriteIn(recipes: seq<Recipe>, id: string): (r: seq<Recipe>)
    ensures |r| == |recipes|
    ensures forall i :: 0 <= i < |r| ==>
      if recipes[i].id == id then r[i] == recipes[i].(isFavorite := Some(!Truthy(recipes[i].isFavorite)))
      else r[i] == recipes[i]
  {
    seq(|recipes|, i requires 0 <= i < |recipes| =>
      if recipes[i].id == id then recipes[i].(isFavorite := Some(!Truthy(recipes[i].isFavorite)))
      else recipes[i])
  }

  /**
   * Toggling twice restores every recipe whose flag was set; one whose flag
   * was missing ends up explicitly not a favourite.
   */
  lemma ToggleFavoriteTwice(recipes: seq<Recipe>, id: string)
    ensures var r := ToggleFavoriteIn(ToggleFavoriteIn(recipes, id), id);
      |r| == |recipes|
      && forall i :: 0 <= i < |r| ==>
           r[i] == if recipes[i].id == id && recipes[i].isFavorite.None?
                   then recipes[i].(isFavorite := Some(false)) else recipes[i]
  {
    var once := ToggleFavoriteIn(recipes, id);
    var twice := ToggleFavoriteIn(once, id);
    forall i | 0 <= i < |twice|
      ensures twice[i] == if recipes[i].id == id && recipes[i].isFavorite.None?
                          then recipes[i].(isFavorite := Some(false)) else recipes[i]
    {
      if recipes[i].id == id {
        FlipTwice(recipes[i]);
      }
    }
  }

  lemma FlipTwice(x: Recipe)
    ensures var once := x.(isFavorite := Some(!Truthy(x.isFavorite)));
      once.(isFavorite := Some(!Truthy(once.isFavorite))) ==
        if x.isFavorite.None? then x.(isFavorite := Some(false)) else x
  {
    if x.isFavorite.Some? {
      var v := x.isFavorite.value;
      assert x.(isFavorite := Some(v)) == x;
    }
  }

  /** The recipes a past week shows: the favourites used by one of its meals, in favourites order. */
  function HistoryRecipes(favorites: seq<Recipe>, plan: WeekPlan): (r: seq<Recipe>)
    ensures forall x :: x in r <==> x in favorites && exists m :: m in plan.meals && m.recipeId == x.id
  {
    Filter(favorites, (x: Recipe) => exists m :: m in plan.meals && m.recipeId == x.id)
  }

  /**
   * A past week's recipes keep the favourites' order: the selection
   * distributes over concatenation, and a single favourite is shown exactly
   * when one of the week's meals uses it.
   */
  lemma HistoryKeepsFavoritesOrder(a: seq<Recipe>, b: seq<Recipe>, x: Recipe, plan: WeekPlan)
    ensures HistoryRecipes(a + b, plan) == HistoryRecipes(a, plan) + HistoryRecipes(b, plan)
    ensures HistoryRecipes([x], plan) == if exists m :: m in plan.meals && m.recipeId == x.id then [x] else []
  {
    FilterConcat(a, b, (x: Recipe) => exists m :: m in plan.meals && m.recipeId == x.id);
  }

  /** What the tab renders. */
  datatype Screen = Picker(star: bool) | PreferencesWizard | PlanCalendar(plan: WeekPlan) | EmptyState

  /** The view dispatch: 'week-plan' shows the calendar only when there is a plan. */
  function ScreenFor(mode: ViewMode, plan: Option<WeekPlan>): (s: Screen)
    ensures s.Picker? <==> mode == SelectStar || mode == SelectStitch
    ensures s.Picker? ==> (s.star <==> mode == SelectStar)
    ensures s == PreferencesWizard <==> mode == Workflow
    ensures s.PlanCalendar? <==> mode == WeekPlanMode && plan.Some?
    ensures s.PlanCalendar? ==> plan == Some(s.plan)
  {
    match mode
    case SelectStar => Picker(true)
    case SelectStitch => Picker(false)
    case Workflow => PreferencesWizard
    case WeekPlanMode => if plan.Some? then PlanCalendar(plan.value) else EmptyState
    case Empty => EmptyState
  }

  class PlanView {
    var viewMode: ViewMode
    var currentWeekPlan: Option<WeekPlan>
    var weekRecipes: seq<Recipe>
    var favoriteRecipes: seq<Recipe>
    var showAddRecipe: bool
    var anchorRecipes: seq<Recipe>
    const weekHistory: seq<WeekPlan>

    /** 'week-plan' is only ever entered with a plan, so it always shows the calendar. */
    ghost predicate Valid()
      reads this
    {
      viewMode == WeekPlanMode ==> currentWeekPlan.Some?
    }

    function CurrentScreen(): (s: Screen)
      reads this
      requires Valid()
      ensures viewMode == WeekPlanMode ==> s == PlanCalendar(currentWeekPlan.value)
    {
      ScreenFor(viewMode, currentWeekPlan)
    }

    /** The favourites and the week history start from the demo data, passed in. */
    constructor (favorites: seq<Recipe>, history: seq<WeekPlan>)
      ensures viewMode == Empty && currentWeekPlan == None && weekRecipes == []
      ensures favoriteRecipes == favorites && anchorRecipes == [] && !showAddRecipe
      ensures weekHistory == history
      ensures Valid()
    {
      viewMode := Empty;
      currentWeekPlan := None;
      weekRecipes := [];
      favoriteRecipes := favorites;
      showAddRecipe := false;
      anchorRecipes := [];
      weekHistory := history;
    }

    /**
     * handleGenerateWeek, with the new plan's id and the time as parameters:
     * the demo plan becomes the current plan, the week's recipes are
     * composed from the anchors, and the calendar is shown.
     */
    method GenerateWeek(preferences: WeekPreferences, id: string, now: int)
      modifies this
      ensures weekRecipes == WeekRecipes(old(anchorRecipes))
      ensures currentWeekPlan == Some(MockWeekPlan(id, now))
      ensures viewMode == WeekPlanMode
      ensures favoriteRecipes == old(favoriteRecipes) && anchorRecipes == old(anchorRecipes)
      ensures showAddRecipe == old(showAddRecipe)
      ensures Valid()
    {
      weekRecipes := WeekRecipes(anchorRecipes);
      currentWeekPlan := Some(MockWeekPlan(id, now));
      viewMode := WeekPlanMode;
    }

    /** handleRegenerate: back to the wizard, without anchors. */
    method Regenerate()
      requires Valid()
      modifies this
      ensures viewMode == Workflow && anchorRecipes == []
      ensures currentWeekPlan == old(currentWeekPlan) && favoriteRecipes == old(favoriteRecipes)
      ensures weekRecipes == old(weekRecipes) && showAddRecipe == old(showAddRecipe)
      ensures Valid()
    {
      viewMode := Workflow;
      anchorRecipes := [];
    }

    /** The empty state's "start fresh" option: the wizard, without anchors. */
    method StartFresh()
      requires Valid()
      modifies this
      ensures viewMode == Workflow && anchorRecipes == []
      ensures currentWeekPlan == old(currentWeekPlan) && favoriteRecipes == old(favoriteRecipes)
      ensures weekRecipes == old(weekRecipes) && showAddRecipe == old(showAddRecipe)
      ensures Valid()
    {
      anchorRecipes := [];
      viewMode := Workflow;
    }

    /** handleAddToWeek: the wizard, anchored on one recipe. */
    method AddToWeek(recipe: Recipe)
      requires Valid()
      modifies this
      ensures viewMode == Workflow && anchorRecipes == [recipe]
      ensures currentWeekPlan == old(currentWeekPlan) && favoriteRecipes == old(favoriteRecipes)
      ensures weekRecipes == old(weekRecipes) && showAddRecipe == old(showAddRecipe)
      ensures Valid()
    {
      anchorRecipes := [recipe];
      viewMode := Workflow;
    }

    /** handleSelectRecipes: the wizard, anchored on the recipes picked. */
    method SelectRecipes(recipes: seq<Recipe>)
      requires Valid()
      modifies this
      ensures viewMode == Workflow && anchorRecipes == recipes
      ensures currentWeekPlan == old(currentWeekPlan) && favoriteRecipes == old(favoriteRecipes)
      ensures weekRecipes == old(weekRecipes) && showAddRecipe == old(showAddRecipe)
      ensures Valid()
    {
      anchorRecipes := recipes;
      viewMode := Workflow;
    }

    /** handleStartStarRecipe and handleStartStitch: one of the two pickers. */
    method StartPicker(star: bool)
      requires Valid()
      modifies this
      ensures viewMode == if star then SelectStar else SelectStitch
      ensures currentWeekPlan == old(currentWeekPlan) && anchorRecipes == old(anchorRecipes)
      ensures favoriteRecipes == old(favoriteRecipes)
      ensures weekRecipes == old(weekRecipes) && showAddRecipe == old(showAddRecipe)
      ensures Valid()
    {
      viewMode := if star then SelectStar else SelectStitch;
    }

    /** The pickers' back button. */
    method LeavePicker()
      requires Valid()
      modifies this
      ensures viewMode == Empty
      ensures currentWeekPlan == old(currentWeekPlan) && anchorRecipes == old(anchorRecipes)
      ensures favoriteRecipes == old(favoriteRecipes)
      ensures weekRecipes == old(weekRecipes) && showAddRecipe == old(showAddRecipe)
      ensures Valid()
    {
      viewMode := Empty;
    }

    /**
     * The calendar's "modify" button, and handleRecreateWeek and
     * handleResausifyWeek, which only open the wizard, keeping the anchors.
     */
    method OpenWorkflow()
      requires Valid()
      modifies this
      ensures viewMode == Workflow
      ensures currentWeekPlan == old(currentWeekPlan) && anchorRecipes == old(anchorRecipes)
      ensures favoriteRecipes == old(favoriteRecipes)
      ensures weekRecipes == old(weekRecipes) && showAddRecipe == old(showAddRecipe)
      ensures Valid()
    {
      viewMode := Workflow;
    }

    /** The wizard's cancel button: back to the plan if there is one, else to the empty state; anchors are dropped. */
    method CancelWorkflow()
      requires Valid()
      modifies this
      ensures viewMode == if old(currentWeekPlan).Some? then WeekPlanMode else Empty
      ensures anchorRecipes == []
      ensures currentWeekPlan == old(currentWeekPlan) && favoriteRecipes == old(favoriteRecipes)
      ensures weekRecipes == old(weekRecipes) && showAddRecipe == old(showAddRecipe)
      ensures Valid()
    {
      viewMode := if currentWeekPlan.Some? then WeekPlanMode else Empty;
      anchorRecipes := [];
    }

    /** handleAddFavoriteRecipe: the recipe joins the end of the favourites, marked as a favourite. */
    method AddFavoriteRecipe(recipe: Recipe)
      requires Valid()
      modifies this
      ensures favoriteRecipes == old(favoriteRecipes) + [recipe.(isFavorite := Some(true))]
      ensures viewMode == old(viewMode) && currentWeekPlan == old(currentWeekPlan)
      ensures weekRecipes == old(weekRecipes) && anchorRecipes == old(anchorRecipes)
      ensures showAddRecipe == old(showAddRecipe)
      ensures Valid()
    {
      favoriteRecipes := favoriteRecipes + [recipe.(isFavorite := Some(true))];
    }

    method ToggleFavorite(id: string)
      requires Valid()
      modifies this
      ensures favoriteRecipes == ToggleFavoriteIn(old(favoriteRecipes), id)
      ensures viewMode == old(viewMode) && currentWeekPlan == old(currentWeekPlan)
      ensures weekRecipes == old(weekRecipes) && anchorRecipes == old(anchorRecipes)
      ensures showAddRecipe == old(showAddRecipe)
      ensures Valid()
    {
      favoriteRecipes := ToggleFavoriteIn(favoriteRecipes, id);
    }

    method SetShowAddRecipe(show: bool)
      requires Valid()
      modifies this
      ensures showAddRecipe == show
      ensures viewMode == old(viewMode) && favoriteRecipes == old(favoriteRecipes)
      ensures currentWeekPlan == old(currentWeekPlan) && weekRecipes == old(weekRecipes)
      ensures anchorRecipes == old(anchorRecipes)
      ensures Valid()
    {
      showAddRecipe := show;
    }
  }
}
