/** The crafting transaction of game.js (492-499) as functions over the two slot arrays:
    the recipe lookup, the availability test, the in-order removal of the inputs and the
    final addition of the output. The player's methods in module Players are proved
    against these. */
module Crafting {
  import opened Wrappers
  import opened Config
  import opened Inventory

  /** getTotalItemCount (game.js:492): units of `t` over the inventory and the hotbar. */
  function Total<T(==)>(inv: Slots<T>, hot: Slots<T>, t: T): int {
    Count(inv, t) + Count(hot, t)
  }

  /** No item is needed twice, as the keys of a recipe's input object cannot repeat. */
  predicate Distinct<T(==)>(needs: seq<Slot<T>>) {
    forall i, j :: 0 <= i < j < |needs| ==> needs[i].item != needs[j].item
  }

  predicate PositiveCounts<T>(needs: seq<Slot<T>>) {
    forall k :: 0 <= k < |needs| ==> needs[k].count >= 1
  }

  /** canCraft (game.js:495): the scan over the inputs stops at the first one the player holds
      too few of; the recipe can be made exactly when the player holds enough of every input. */
  function Available<T(==)>(inv: Slots<T>, hot: Slots<T>, needs: seq<Slot<T>>): (ok: bool)
    ensures ok <==> forall k :: 0 <= k < |needs| ==> Total(inv, hot, needs[k].item) >= needs[k].count
  {
    if needs == [] then true
    else if Total(inv, hot, needs[0].item) < needs[0].count then false
    else
      var rest := Available(inv, hot, needs[1..]);
      assert forall k :: 1 <= k < |needs| ==> needs[k] == needs[1..][k - 1];
      rest
  }

  /** The removal loop of doCraft (game.js:497): remove each input in order and stop at the
      first removal that reports failure, keeping what that removal already took. */
  function RemoveAll<T(==)>(inv: Slots<T>, hot: Slots<T>, needs: seq<Slot<T>>): (r: Removal<T>)
    requires ValidSlots(inv) && ValidSlots(hot)
    ensures |r.inventory| == |inv| && |r.hotbar| == |hot|
    ensures ValidSlots(r.inventory) && ValidSlots(r.hotbar)
    decreases |needs|
  {
    if needs == [] then Removal(inv, hot, true)
    else
      RemoveConserves(inv, hot, needs[0].item, needs[0].count);
      var r1 := RemoveSpec(inv, hot, needs[0].item, needs[0].count);
      if !r1.success then r1 else RemoveAll(r1.inventory, r1.hotbar, needs[1..])
  }

  /** The two slot arrays of the player. */
  datatype Bags<T> = Bags(inventory: Slots<T>, hotbar: Slots<T>)

  /** The slot arrays after one craft: unchanged when the inputs are not all available; after a
      failed removal, what the removals left; otherwise the output is added to the inventory. */
  function CraftSpec<T(==)>(inv: Slots<T>, hot: Slots<T>, needs: seq<Slot<T>>, output: Slot<T>): (r: Bags<T>)
    requires ValidSlots(inv) && ValidSlots(hot)
    ensures |r.inventory| == |inv| && |r.hotbar| == |hot|
  {
    if !Available(inv, hot, needs) then Bags(inv, hot)
    else
      var removed := RemoveAll(inv, hot, needs);
      if !removed.success then Bags(removed.inventory, removed.hotbar)
      else Bags(AddSpec(removed.inventory, output.item, output.count), removed.hotbar)
  }

  // ---------------------------------------------------------------- the removal loop

  /** Removing inputs that are all different from `u` leaves the units of `u` alone. */
  lemma {:induction false} RemoveAllKeepsOtherItems<T>(inv: Slots<T>, hot: Slots<T>, needs: seq<Slot<T>>, u: T)
    requires ValidSlots(inv) && ValidSlots(hot)
    requires forall k :: 0 <= k < |needs| ==> needs[k].item != u
    ensures var r := RemoveAll(inv, hot, needs);
      Count(r.inventory, u) == Count(inv, u) && Count(r.hotbar, u) == Count(hot, u)
    decreases |needs|
  {
    if needs != [] {
      RemoveKeepsOtherItems(inv, hot, needs[0].item, needs[0].count, u);
      RemoveConserves(inv, hot, needs[0].item, needs[0].count);
      var r1 := RemoveSpec(inv, hot, needs[0].item, needs[0].count);
      if r1.success {
        assert forall k :: 0 <= k < |needs[1..]| ==> needs[1..][k] == needs[k + 1];
        RemoveAllKeepsOtherItems(r1.inventory, r1.hotbar, needs[1..], u);
      }
    }
  }

  /** One removal of `n` when enough is held: it succeeds and takes exactly `n.count` units. */
  lemma RemoveOneExactly<T>(inv: Slots<T>, hot: Slots<T>, n: Slot<T>)
    requires ValidSlots(inv) && ValidSlots(hot)
    requires 1 <= n.count <= Total(inv, hot, n.item)
    ensures var r := RemoveSpec(inv, hot, n.item, n.count);
      r.success && Total(r.inventory, r.hotbar, n.item) == Total(inv, hot, n.item) - n.count
  {
    RemoveConserves(inv, hot, n.item, n.count);
  }

  /** When every input is available, no removal fails and each input's total drops by exactly
      its required count (the inputs being distinct and positive, as in every recipe). */
  lemma {:induction false} CraftRemovesExactly<T>(inv: Slots<T>, hot: Slots<T>, needs: seq<Slot<T>>)
    requires ValidSlots(inv) && ValidSlots(hot)
    requires Distinct(needs) && PositiveCounts(needs)
    requires Available(inv, hot, needs)
    ensures var r := RemoveAll(inv, hot, needs);
      && r.success
      && forall k :: 0 <= k < |needs| ==>
           Total(r.inventory, r.hotbar, needs[k].item) == Total(inv, hot, needs[k].item) - needs[k].count
    decreases |needs|
  {
    if needs != [] {
      var n := needs[0];
      var rest := needs[1..];
      RemoveOneExactly(inv, hot, n);
      var r1 := RemoveSpec(inv, hot, n.item, n.count);
      RemoveConserves(inv, hot, n.item, n.count);
      assert forall k :: 0 <= k < |rest| ==> rest[k] == needs[k + 1];
      forall k | 0 <= k < |rest|
        ensures Total(r1.inventory, r1.hotbar, rest[k].item) == Total(inv, hot, rest[k].item)
      {
        assert rest[k].item != n.item;
        RemoveKeepsOtherItems(inv, hot, n.item, n.count, rest[k].item);
      }
      CraftRemovesExactly(r1.inventory, r1.hotbar, rest);
      RemoveAllKeepsOtherItems(r1.inventory, r1.hotbar, rest, n.item);
    }
  }

  // ---------------------------------------------------------------- one craft

  /** A craft that cannot be afforded changes nothing; one that can removes exactly the inputs,
      keeps every item that is neither an input nor the output, and adds the output to the
      inventory as addToInventory does, up to the room left there. */
  lemma CraftOutcome<T>(inv: Slots<T>, hot: Slots<T>, needs: seq<Slot<T>>, output: Slot<T>)
    requires ValidSlots(inv) && ValidSlots(hot)
    requires Distinct(needs) && PositiveCounts(needs) && output.count >= 1
    ensures var r := CraftSpec(inv, hot, needs, output);
      && (!Available(inv, hot, needs) ==> r == Bags(inv, hot))
      && (Available(inv, hot, needs) ==>
            var removed := RemoveAll(inv, hot, needs);
            && r.hotbar == removed.hotbar
            && Count(r.inventory, output.item)
                 == Count(removed.inventory, output.item) + Min(output.count, Room(removed.inventory, output.item)))
  {
    if Available(inv, hot, needs) {
      CraftRemovesExactly(inv, hot, needs);
      var removed := RemoveAll(inv, hot, needs);
      AddConserves(removed.inventory, output.item, output.count);
    }
  }

  /** An item that is neither an input nor the output has the same total after a craft. */
  lemma CraftKeepsOtherItems<T>(inv: Slots<T>, hot: Slots<T>, needs: seq<Slot<T>>, output: Slot<T>, u: T)
    requires ValidSlots(inv) && ValidSlots(hot)
    requires forall k :: 0 <= k < |needs| ==> needs[k].item != u
    requires output.item != u
    ensures var r := CraftSpec(inv, hot, needs, output);
      Total(r.inventory, r.hotbar, u) == Total(inv, hot, u)
  {
    if Available(inv, hot, needs) {
      RemoveAllKeepsOtherItems(inv, hot, needs, u);
      var removed := RemoveAll(inv, hot, needs);
      if removed.success {
        AddKeepsOtherItems(removed.inventory, output.item, output.count, u);
      }
    }
  }

  // ---------------------------------------------------------------- the recipe table

  /** `recipes.find(r => r.id === id)` (game.js:496): the first recipe with that id. */
  function FindRecipe(table: seq<Recipe>, id: RecipeId): (r: Option<Recipe>)
    ensures r.None? <==> forall k :: 0 <= k < |table| ==> table[k].id != id
    ensures r.Some? ==> exists k :: 0 <= k < |table| && table[k] == r.value && r.value.id == id
                                  && (forall j :: 0 <= j < k ==> table[j].id != id)
  {
    if table == [] then None
    else if table[0].id == id then Some(table[0])
    else
      var rest := FindRecipe(table[1..], id);
      assert forall k :: 1 <= k < |table| ==> table[k] == table[1..][k - 1];
      if rest.Some? then
        var k :| 0 <= k < |table[1..]| && table[1..][k] == rest.value && rest.value.id == id
                 && (forall j :: 0 <= j < k ==> table[1..][j].id != id);
        assert table[k + 1] == rest.value;
        rest
      else rest
  }

  /** With unique ids the lookup returns the one recipe carrying the id. */
  lemma FindRecipeUnique(table: seq<Recipe>, k: int)
    requires UniqueIds(table) && 0 <= k < |table|
    ensures FindRecipe(table, table[k].id) == Some(table[k])
  {
    var r := FindRecipe(table, table[k].id);
    var j :| 0 <= j < |table| && table[j] == r.value && r.value.id == table[k].id
             && (forall i :: 0 <= i < j ==> table[i].id != table[k].id);
  }

  /** The inputs of a recipe in slot form, in their written order. */
  function Needs(inputs: seq<Stack>): (needs: seq<Slot<Item>>)
    ensures |needs| == |inputs|
    ensures forall k :: 0 <= k < |inputs| ==> needs[k] == Slot(inputs[k].item, inputs[k].count)
  {
    if inputs == [] then []
    else [Slot(inputs[0].item, inputs[0].count)] + Needs(inputs[1..])
  }

  /** doCraft (game.js:496-499) on the two slot arrays: an unknown id changes nothing. */
  function DoCraftSpec(inv: Slots<Item>, hot: Slots<Item>, table: seq<Recipe>, id: RecipeId): (r: Bags<Item>)
    requires ValidSlots(inv) && ValidSlots(hot)
    ensures |r.inventory| == |inv| && |r.hotbar| == |hot|
  {
    match FindRecipe(table, id)
    case None => Bags(inv, hot)
    case Some(recipe) => CraftSpec(inv, hot, Needs(recipe.input), Slot(recipe.output.item, recipe.output.count))
  }

  /** Every recipe of the table satisfies what the crafting lemmas assume of it. */
  lemma RecipeNeedsWellFormed(recipe: Recipe)
    requires WellFormedRecipe(recipe)
    ensures Distinct(Needs(recipe.input)) && PositiveCounts(Needs(recipe.input))
    ensures Slot(recipe.output.item, recipe.output.count).count >= 1
  {
  }

  /** Crafting a recipe of a table with unique ids and well-formed recipes (both tables of the
      game are such tables) that the player can afford takes exactly each input's count and adds
      the output. */
  lemma {:induction false} CraftFromTable(inv: Slots<Item>, hot: Slots<Item>, table: seq<Recipe>, k: int)
    requires ValidSlots(inv) && ValidSlots(hot) && 0 <= k < |table|
    requires UniqueIds(table) && forall j :: 0 <= j < |table| ==> WellFormedRecipe(table[j])
    requires Available(inv, hot, Needs(table[k].input))
    ensures var recipe := table[k];
      var r := RemoveAll(inv, hot, Needs(recipe.input));
      && DoCraftSpec(inv, hot, table, recipe.id)
           == Bags(AddSpec(r.inventory, recipe.output.item, recipe.output.count), r.hotbar)
      && forall j :: 0 <= j < |recipe.input| ==>
           Total(r.inventory, r.hotbar, recipe.input[j].item) == Total(inv, hot, recipe.input[j].item) - recipe.input[j].count
  {
    var recipe := table[k];
    FindRecipeUnique(table, k);
    RecipeNeedsWellFormed(recipe);
    CraftRemovesExactly(inv, hot, Needs(recipe.input));
  }
}
