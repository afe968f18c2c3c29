/**
 * ShopView: the shopping list, with items ticked off as purchased, added
 * from a text box and removed, shown as an "items you need" list and a
 * "purchased" list.
 */
module ShopView {
  import opened Wrappers
  import opened Text
  import opened Lists
  import opened Types

  /** The list the view starts with. */
  const SeedList: seq<ShoppingListItem> := [
    ShoppingListItem("1", "chicken breast", 2, "lbs", false, Some("Chicken Pasta")),
    ShoppingListItem("2", "bell peppers", 3, "pieces", false, Some("Chicken Stir-fry")),
    ShoppingListItem("3", "vegetable broth", 1, "carton", false, Some("Tomato Soup")),
    ShoppingListItem("4", "feta cheese", 1, "container", false, Some("Greek Salad"))
  ]

  /** The list after togglePurchased(id): every item with that id changes its purchased flag, nothing else changes. */
  function TogglePurchasedIn(list: seq<ShoppingListItem>, id: string): (r: seq<ShoppingListItem>)
    ensures |r| == |list|
    ensures forall i :: 0 <= i < |list| && list[i].id == id ==>
      r[i] == list[i].(purchased := !list[i].purchased)
    ensures forall i :: 0 <= i < |list| && list[i].id != id ==> r[i] == list[i]
  {
    seq(|list|, i requires 0 <= i < |list| =>
      if list[i].id == id then list[i].(purchased := !list[i].purchased) else list[i])
  }

  /** Ticking an item twice restores the list. */
  lemma TogglePurchasedTwice(list: seq<ShoppingListItem>, id: string)
    ensures TogglePurchasedIn(TogglePurchasedIn(list, id), id) == list
  {
  }

  /** Ticking one item never changes the items of another id. */
  lemma TogglePurchasedCommutes(list: seq<ShoppingListItem>, a: string, b: string)
    ensures TogglePurchasedIn(TogglePurchasedIn(list, a), b) == TogglePurchasedIn(TogglePurchasedIn(list, b), a)
  {
  }

  /** The items still to buy, in list order. */
  function Unpurchased(list: seq<ShoppingListItem>): (r: seq<ShoppingListItem>)
    ensures forall x :: x in r <==> x in list && !x.purchased
  {
    Filter(list, (x: ShoppingListItem) => !x.purchased)
  }

  /** The items already bought, in list order. */
  function Purchased(list: seq<ShoppingListItem>): (r: seq<ShoppingListItem>)
    ensures forall x :: x in r <==> x in list && x.purchased
  {
    Filter(list, (x: ShoppingListItem) => x.purchased)
  }

  /**
   * Both views keep the list's order: each distributes over concatenation,
   * and a single item goes to exactly one of them.
   */
  lemma PurchasedKeepsListOrder(a: seq<ShoppingListItem>, b: seq<ShoppingListItem>, x: ShoppingListItem)
    ensures Unpurchased(a + b) == Unpurchased(a) + Unpurchased(b)
    ensures Purchased(a + b) == Purchased(a) + Purchased(b)
    ensures Unpurchased([x]) == (if x.purchased then [] else [x])
    ensures Purchased([x]) == (if x.purchased then [x] else [])
  {
    FilterConcat(a, b, (x: ShoppingListItem) => !x.purchased);
    FilterConcat(a, b, (x: ShoppingListItem) => x.purchased);
  }

  /** The two lists split the shopping list: no item is in both, together they hold every item once. */
  lemma PurchasedPartition(list: seq<ShoppingListItem>)
    ensures forall x :: !(x in Unpurchased(list) && x in Purchased(list))
    ensures multiset(Unpurchased(list)) + multiset(Purchased(list)) == multiset(list)
    ensures |Unpurchased(list)| + |Purchased(list)| == |list|
  {
    FilterPartition(list, (x: ShoppingListItem) => !x.purchased, (x: ShoppingListItem) => x.purchased);
  }

  /** The item addItem creates from the text box. */
  function NewItem(id: string, name: string): ShoppingListItem {
    ShoppingListItem(id, name, 1, "item", false, None)
  }

  class ShopView {
    var shoppingList: seq<ShoppingListItem>
    var newItem: string

    constructor ()
      ensures shoppingList == SeedList && newItem == ""
    {
      shoppingList := SeedList;
      newItem := "";
    }

    method SetNewItem(text: string)
      modifies this
      ensures newItem == text && shoppingList == old(shoppingList)
    {
      newItem := text;
    }

    method TogglePurchased(id: string)
      modifies this
      ensures shoppingList == TogglePurchasedIn(old(shoppingList), id)
      ensures newItem == old(newItem)
    {
      shoppingList := TogglePurchasedIn(shoppingList, id);
    }

    /**
     * addItem, with the new id as a parameter: blank text is ignored;
     * otherwise the untrimmed text becomes one unbought item at the end of
     * the list and the text box is cleared.
     */
    method AddItem(id: string) returns (added: bool)
      modifies this
      ensures added <==> !IsBlank(old(newItem))
      ensures added ==> shoppingList == old(shoppingList) + [NewItem(id, old(newItem))] && newItem == ""
      ensures !added ==> shoppingList == old(shoppingList) && newItem == old(newItem)
    {
      if Trim(newItem) == [] {
        return false;
      }
      shoppingList := shoppingList + [NewItem(id, newItem)];
      newItem := "";
      added := true;
    }

    /** removeItem: the items with that id go, the others keep their order. */
    method RemoveItem(id: string)
      modifies this
      ensures shoppingList == Filter(old(shoppingList), (x: ShoppingListItem) => x.id != id)
      ensures forall x :: x in shoppingList <==> x in old(shoppingList) && x.id != id
      ensures newItem == old(newItem)
    {
      shoppingList := Filter(shoppingList, (x: ShoppingListItem) => x.id != id);
    }
  }
}
