/**
 * SelectRecipeMode: picking the recipes a week is built around. In "star"
 * mode exactly one recipe is chosen and a click replaces it; in "stitch"
 * mode a click adds or removes a recipe, up to four of them.
 */
module SelectRecipeMode {
  import opened Wrappers
  import opened Lists
  import opened Types

  datatype Mode = Star | Stitch

  function MaxSelection(mode: Mode): (n: nat)
    ensures n >= 1
  {
    if mode == Star then 1 else 4
  }

  /** The selection after a click on the card of `id`. */
  function ToggleSelection(mode: Mode, prev: seq<string>, id: string): (r: seq<string>)
    ensures mode == Star ==> r == [id]
    ensures mode == Stitch && id in prev ==> id !in r && forall x :: x != id ==> (x in r <==> x in prev)
    ensures mode == Stitch && id !in prev && |prev| < MaxSelection(mode) ==> r == prev + [id]
    ensures mode == Stitch && id !in prev && |prev| >= MaxSelection(mode) ==> r == prev
  {
    if mode == Star then [id]
    else if id in prev then RemoveAll(prev, id)
    else if |prev| < MaxSelection(mode) then prev + [id]
    else prev
  }

  /** A selection the component can be in: no recipe twice, no more than the mode allows. */
  predicate ValidSelection(mode: Mode, selected: seq<string>) {
    NoDups(selected) && |selected| <= MaxSelection(mode)
  }

  /** Every click keeps the selection valid. */
  lemma ToggleKeepsValid(mode: Mode, prev: seq<string>, id: string)
    requires ValidSelection(mode, prev)
    ensures ValidSelection(mode, ToggleSelection(mode, prev, id))
  {
    if mode == Stitch && id in prev {
      ToggleNoDups(prev, id);
    }
  }

  /** In stitch mode, a second click on the same card undoes the first. */
  lemma StitchClickTwice(prev: seq<string>, id: string)
    requires id !in prev && |prev| < MaxSelection(Stitch)
    ensures ToggleSelection(Stitch, ToggleSelection(Stitch, prev, id), id) == prev
  {
    ToggleTwiceAbsent(prev, id);
  }

  /**
   * The recipes handed on by "Continue": those whose id is selected, in the
   * order of the recipe list; the button is disabled while nothing is selected.
   */
  function Chosen(recipes: seq<Recipe>, selected: seq<string>): (r: Option<seq<Recipe>>)
    ensures r.None? <==> selected == []
    ensures r.Some? ==> forall x :: x in r.value <==> x in recipes && x.id in selected
  {
    if selected == [] then None else Some(Filter(recipes, (x: Recipe) => x.id in selected))
  }

  /**
   * The chosen recipes keep the recipe list's order, whatever order they
   * were selected in: choosing distributes over concatenation of the list,
   * and a single recipe is chosen exactly when its id is selected.
   */
  lemma ChosenKeepsListOrder(a: seq<Recipe>, b: seq<Recipe>, x: Recipe, selected: seq<string>)
    requires selected != []
    ensures Chosen(a + b, selected).value == Chosen(a, selected).value + Chosen(b, selected).value
    ensures Chosen([x], selected).value == if x.id in selected then [x] else []
  {
    FilterConcat(a, b, (x: Recipe) => x.id in selected);
  }

  class SelectRecipeMode {
    const recipes: seq<Recipe>
    const mode: Mode
    var selectedRecipes: seq<string>

    ghost predicate Valid()
      reads this
    {
      ValidSelection(mode, selectedRecipes)
    }

    constructor (recipes: seq<Recipe>, mode: Mode)
      ensures this.recipes == recipes && this.mode == mode
      ensures selectedRecipes == [] && Valid()
    {
      this.recipes := recipes;
      this.mode := mode;
      selectedRecipes := [];
    }

    method ToggleRecipe(id: string)
      requires Valid()
      modifies this
      ensures selectedRecipes == ToggleSelection(mode, old(selectedRecipes), id)
      ensures Valid()
    {
      ToggleKeepsValid(mode, selectedRecipes, id);
      selectedRecipes := ToggleSelection(mode, selectedRecipes, id);
    }

    /** handleContinue; `None` when the disabled button cannot be pressed. */
    method Continue() returns (r: Option<seq<Recipe>>)
      ensures r == Chosen(recipes, selectedRecipes)
      ensures r.Some? ==> forall x :: x in r.value ==> x.id in selectedRecipes
    {
      r := Chosen(recipes, selectedRecipes);
    }
  }
}
