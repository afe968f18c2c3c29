/**
 * The records of src/types/index.ts. Optional properties (`x?: T`) are
 * `Option`s, string unions are datatypes, `Date`s are millisecond
 * timestamps and `number`s are integers.
 */
module Types {
  import opened Wrappers

  datatype PrepComplexity = Quick | Prep

  datatype Recipe = Recipe(
    id: string,
    name: string,
    cookTime: int,
    servings: int,
    calories: int,
    ingredients: seq<string>,
    mainIngredients: seq<string>,
    instructions: seq<string>,
    image: Option<string>,
    tags: seq<string>,
    cuisine: Option<string>,
    prepComplexity: PrepComplexity,
    url: Option<string>,
    isFavorite: Option<bool>,
    protein: Option<string>,
    grain: Option<string>,
    vegetable: Option<string>)

  datatype Category = Protein | Grain | Vegetable | Dairy | PantryStaple | Other

  datatype StorageLocation = Pantry | Fridge | Freezer

  datatype PantryItem = PantryItem(
    id: string,
    name: string,
    quantity: int,
    unit: string,
    expiresAt: Option<int>,
    category: Category,
    storageLocation: StorageLocation,
    addedAt: int)

  datatype MealType = Breakfast | Lunch | Dinner

  datatype MealPlan = MealPlan(id: string, recipeId: string, day: string, mealType: MealType)

  datatype WeekPlan = WeekPlan(
    id: string,
    weekOf: int,
    meals: seq<MealPlan>,
    sharedIngredients: seq<string>,
    createdAt: int)

  /**
   * A shopping-list line as ShopView builds it: the component stores a single
   * `fromRecipe` name, not the `fromRecipes` array the interface declares.
   */
  datatype ShoppingListItem = ShoppingListItem(
    id: string,
    name: string,
    quantity: int,
    unit: string,
    purchased: bool,
    fromRecipe: Option<string>)

  datatype PrepStyle = OneBigPrep | DailyCooking

  datatype WeekPreferences = WeekPreferences(
    vibe: string,
    mustUseIngredients: seq<string>,
    avoidIngredients: seq<string>,
    cookingDays: int,
    prepStyle: PrepStyle,
    timePerDay: int,
    starRecipe: Option<Recipe>,
    anchorRecipes: Option<seq<Recipe>>)

  datatype ActivityLevel = Sedentary | Light | Moderate | VeryActive | Athlete

  datatype MealLayout = BreakfastLunchDinner | TwoMeals | Omad | Flexible

  /** The fields of UserProfile that onboarding fills in. */
  datatype UserProfile = UserProfile(
    hasCompletedOnboarding: bool,
    userId: Option<string>,
    goals: seq<string>,
    activityLevel: ActivityLevel,
    bodyWeight: Option<int>,
    favoriteIngredients: seq<string>,
    favoriteMeals: seq<string>,
    favoriteStores: seq<string>,
    foodExclusions: seq<string>,
    mealLayout: MealLayout,
    preferredCookingDays: seq<string>,
    typicalPrepTime: int)

  datatype PartnerModeStep = PartnerModeStep(
    id: string,
    stepNumber: int,
    title: string,
    description: string,
    duration: Option<int>,
    tips: seq<string>)

  datatype NoteType = RecipeNoteType | ShoppingNote | General

  /** A note as NotesPanel creates it, including the author fields it adds. */
  datatype RecipeNote = RecipeNote(
    id: string,
    recipeId: Option<string>,
    title: string,
    content: string,
    noteType: NoteType,
    createdAt: int,
    updatedAt: int,
    userId: string,
    userName: string)
}
