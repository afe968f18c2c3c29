/**
 * Onboarding: a three-step wizard (goal and activity, favourite foods,
 * stores) that assembles the user's profile and hands it on when the last
 * step is confirmed.
 */
module Onboarding {
  import opened Wrappers
  import opened Text
  import opened Lists
  import opened Types

  const TotalSteps := 3

  /** The partially filled profile the wizard keeps; a `None` is a property not set yet. */
  datatype ProfileDraft = ProfileDraft(
    goals: seq<string>,
    activityLevel: Option<ActivityLevel>,
    bodyWeight: Option<int>,
    favoriteIngredients: seq<string>,
    favoriteMeals: seq<string>,
    favoriteStores: seq<string>,
    foodExclusions: Option<seq<string>>)

  const InitialDraft := ProfileDraft([], Some(Light), None, [], [], [], None)

  /** The body weight field: `parseInt(text) || undefined`, so that zero and unreadable text both clear it. */
  function WeightFromInput(text: string): (w: Option<int>)
    ensures w.Some? ==> w.value != 0 && ParseInt(text) == w
    ensures w.None? ==> ParseInt(text).None? || ParseInt(text) == Some(0)
  {
    match ParseInt(text)
    case Some(v) => if v == 0 then None else Some(v)
    case None => None
  }

  /** Whatever whole number is typed is kept, unless it is zero. */
  lemma WeightRoundTrip(n: int)
    requires n != 0
    ensures WeightFromInput(IntToString(n)) == Some(n)
  {
    ParseIntToString(n);
  }

  /** canProceed: a goal on step 1, some favourites text on step 2, always on step 3. */
  predicate CanProceed(step: int, draft: ProfileDraft, favoritesText: string) {
    if step == 1 then |draft.goals| > 0
    else if step == 2 then !IsBlank(favoritesText)
    else true
  }

  /** The profile handed on when the last step is confirmed. */
  function CompletedProfile(draft: ProfileDraft, favoritesText: string): (p: UserProfile)
    ensures p.hasCompletedOnboarding
    ensures p.mealLayout == BreakfastLunchDinner && p.typicalPrepTime == 30 && p.preferredCookingDays == []
    ensures p.favoriteIngredients == (if IsBlank(favoritesText) then [] else [Trim(favoritesText)])
    ensures p.favoriteIngredients != [] ==> p.favoriteIngredients[0] != [] && !IsWhitespace(p.favoriteIngredients[0][0])
    ensures p.activityLevel == draft.activityLevel.GetOr(Moderate)
    ensures p.goals == draft.goals && p.favoriteStores == draft.favoriteStores
    ensures p.favoriteMeals == draft.favoriteMeals && p.bodyWeight == draft.bodyWeight
    ensures p.foodExclusions == draft.foodExclusions.GetOr([])
  {
    var text := Trim(favoritesText);
    UserProfile(true, None, draft.goals, draft.activityLevel.GetOr(Moderate), draft.bodyWeight,
                if text != [] then [text] else [], draft.favoriteMeals, draft.favoriteStores,
                draft.foodExclusions.GetOr([]), BreakfastLunchDinner, [], 30)
  }

  class Onboarding {
    var step: int
    var favoritesText: string
    var profile: ProfileDraft

    ghost predicate Valid()
      reads this
    {
      1 <= step <= TotalSteps
    }

    constructor ()
      ensures step == 1 && favoritesText == "" && profile == InitialDraft
      ensures Valid()
    {
      step := 1;
      favoritesText := "";
      profile := InitialDraft;
    }

    /** toggleGoal: only one goal may be chosen, so a click replaces the goals. */
    method ToggleGoal(goalId: string)
      modifies this
      ensures profile == old(profile).(goals := [goalId])
      ensures step == old(step) && favoritesText == old(favoritesText)
    {
      profile := profile.(goals := [goalId]);
    }

    method SelectActivity(level: ActivityLevel)
      modifies this
      ensures profile == old(profile).(activityLevel := Some(level))
      ensures step == old(step) && favoritesText == old(favoritesText)
    {
      profile := profile.(activityLevel := Some(level));
    }

    method SetBodyWeight(text: string)
      modifies this
      ensures profile == old(profile).(bodyWeight := WeightFromInput(text))
      ensures step == old(step) && favoritesText == old(favoritesText)
    {
      profile := profile.(bodyWeight := WeightFromInput(text));
    }

    method SetFavoritesText(text: string)
      modifies this
      ensures favoritesText == text && profile == old(profile) && step == old(step)
    {
      favoritesText := text;
    }

    /** A store badge: toggleItem on the favourite stores. */
    method ToggleStore(store: string)
      modifies this
      ensures profile == old(profile).(favoriteStores := Toggle(old(profile).favoriteStores, store))
      ensures step == old(step) && favoritesText == old(favoritesText)
    {
      profile := profile.(favoriteStores := Toggle(profile.favoriteStores, store));
    }

    /** The Back button: one step back, never before the first. */
    method Back()
      requires Valid()
      modifies this
      ensures step == if old(step) > 1 then old(step) - 1 else 1
      ensures profile == old(profile) && favoritesText == old(favoritesText)
      ensures Valid()
    {
      step := if step - 1 > 1 then step - 1 else 1;
    }

    /**
     * The Next button (disabled unless canProceed): before the last step it
     * moves on; on the last step it completes with the assembled profile and
     * stays where it is.
     */
    method Next() returns (completed: Option<UserProfile>)
      requires Valid()
      modifies this
      ensures !CanProceed(old(step), old(profile), old(favoritesText)) ==> completed.None? && step == old(step)
      ensures CanProceed(old(step), old(profile), old(favoritesText)) && old(step) < TotalSteps ==>
        completed.None? && step == old(step) + 1
      ensures old(step) == TotalSteps ==>
        completed == Some(CompletedProfile(old(profile), old(favoritesText))) && step == old(step)
      ensures profile == old(profile) && favoritesText == old(favoritesText)
      ensures Valid()
    {
      if !CanProceed(step, profile, favoritesText) {
        return None;
      }
      if step < TotalSteps {
        step := step + 1;
        completed := None;
      } else {
        completed := Some(CompletedProfile(profile, favoritesText));
      }
    }
  }
}
