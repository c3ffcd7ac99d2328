/** The catalog of source/db/db.ts: items, recipes and ingredient lists built
    once from import rows, an item -> recipe-ids index derived from them, and
    lookups that fail when an id is absent. Rows are sequences of already
    parsed cells; a cell of the wrong kind (or a missing one) is the hard error
    the source's type assertions raise. */
module Catalog {
  import opened Wrappers
  import opened IteratorUtils
  import opened OrderedMaps

  // ------------------------------------------------------------ data model

  datatype Cell = Num(n: int) | Str(s: string)
  type Row = seq<Cell>

  datatype CatalogError =
    | NotFound(id: int)       // "Could not find data with id ..."
    | Malformed(column: nat)  // a type assertion on a row cell failed

  datatype Item = Item(id: int, name: string, hqPossible: bool, vendorPrice: Option<int>, itemSearchCategory: Option<int>)
  datatype Recipe = Recipe(id: int, item: int, count: int)
  datatype Ingredient = Ingredient(recipe: int, item: int, count: int)

  /** `assert.number(row[column])`. */
  function NumberAt(row: Row, column: nat): Result<int, CatalogError>
  {
    if column < |row| && row[column].Num? then Success(row[column].n) else Failure(Malformed(column))
  }

  /** `assert.string(row[column])`. */
  function StringAt(row: Row, column: nat): Result<string, CatalogError>
  {
    if column < |row| && row[column].Str? then Success(row[column].s) else Failure(Malformed(column))
  }

  // ---------------------------------------------- per-row filter/map driver

  /** The shape every `normalize*` generator has: each row either fails the
      whole build, is skipped (`None`), or yields one value; rows are taken in
      order and the first failing row decides the error. */
  function FilterMapRows<A>(rows: seq<Row>, f: Row -> Result<Option<A>, CatalogError>): Result<seq<A>, CatalogError>
  {
    if rows == [] then Success([])
    else
      match f(rows[0])
      case Failure(e) => Failure(e)
      case Success(o) =>
        match FilterMapRows(rows[1..], f)
        case Failure(e) => Failure(e)
        case Success(rest) => Success((if o.Some? then [o.value] else []) + rest)
  }

  /** What one row contributes to a successful build. */
  function Kept<A>(o: Result<Option<A>, CatalogError>): seq<A>
  {
    if o.Success? && o.value.Some? then [o.value.value] else []
  }

  /** The build succeeds exactly when every row converts; it then yields, in
      row order, the value of every row that is not skipped; and a failure is
      the error of the first row that fails. */
  lemma FilterMapRowsSpec<A>(rows: seq<Row>, f: Row -> Result<Option<A>, CatalogError>)
    ensures FilterMapRows(rows, f).Success? <==> forall i :: 0 <= i < |rows| ==> f(rows[i]).Success?
    ensures FilterMapRows(rows, f).Success? ==>
      FilterMapRows(rows, f).value == Flatten(Select(rows, (row: Row) => Kept(f(row))))
    ensures FilterMapRows(rows, f).Failure? ==>
      exists i :: 0 <= i < |rows| && f(rows[i]) == Failure(FilterMapRows(rows, f).error) &&
        forall j :: 0 <= j < i ==> f(rows[j]).Success?
  {
    FilterMapRowsSucceeds(rows, f);
    if FilterMapRows(rows, f).Success? {
      FilterMapRowsValue(rows, f);
    } else {
      FilterMapRowsError(rows, f);
    }
  }

  lemma {:induction false} FilterMapRowsSucceeds<A>(rows: seq<Row>, f: Row -> Result<Option<A>, CatalogError>)
    ensures FilterMapRows(rows, f).Success? <==> forall i :: 0 <= i < |rows| ==> f(rows[i]).Success?
  {
    if rows != [] {
      FilterMapRowsSucceeds(rows[1..], f);
      assert forall i :: 0 < i < |rows| ==> rows[1..][i - 1] == rows[i];
    }
  }

  lemma {:induction false} FilterMapRowsValue<A>(rows: seq<Row>, f: Row -> Result<Option<A>, CatalogError>)
    requires FilterMapRows(rows, f).Success?
    ensures FilterMapRows(rows, f).value == Flatten(Select(rows, (row: Row) => Kept(f(row))))
  {
    if rows != [] {
      FilterMapRowsValue(rows[1..], f);
      var g := (row: Row) => Kept(f(row));
      assert Select(rows, g) == [g(rows[0])] + Select(rows[1..], g);
      assert ([g(rows[0])] + Select(rows[1..], g))[1..] == Select(rows[1..], g);
    }
  }

  lemma {:induction false} FilterMapRowsError<A>(rows: seq<Row>, f: Row -> Result<Option<A>, CatalogError>)
    requires FilterMapRows(rows, f).Failure?
    ensures exists i ::
      && 0 <= i < |rows| && f(rows[i]) == Failure(FilterMapRows(rows, f).error)
      && forall j :: 0 <= j < i ==> f(rows[j]).Success?
  {
    if f(rows[0]).Success? {
      var tail := rows[1..];
      FilterMapRowsError(tail, f);
      var i :| 0 <= i < |tail| && f(tail[i]) == Failure(FilterMapRows(tail, f).error) &&
        forall j :: 0 <= j < i ==> f(tail[j]).Success?;
      assert f(rows[i + 1]) == Failure(FilterMapRows(rows, f).error);
      assert forall j :: 0 < j < i + 1 ==> rows[j] == tail[j - 1];
    }
  }

  /** Every value of a successful build comes from some row. */
  lemma {:induction false} FilterMapRowsMember<A>(rows: seq<Row>, f: Row -> Result<Option<A>, CatalogError>, a: A)
    requires FilterMapRows(rows, f).Success? && a in FilterMapRows(rows, f).value
    ensures exists i :: 0 <= i < |rows| && f(rows[i]) == Success(Some(a))
  {
    var o := f(rows[0]).value;
    var rest := FilterMapRows(rows[1..], f).value;
    if o.Some? && o.value == a {
      assert f(rows[0]) == Success(Some(a));
    } else {
      assert a in rest;
      FilterMapRowsMember(rows[1..], f, a);
      var i :| 0 <= i < |rows[1..]| && f(rows[1..][i]) == Success(Some(a));
      assert f(rows[i + 1]) == Success(Some(a));
    }
  }

  // ------------------------------------------------------------ gil shops

  function GilShopRow(row: Row): Result<Option<int>, CatalogError>
  {
    var itemId :- NumberAt(row, 1);
    Success(Some(itemId))
  }

  /** `normalizeGilShopItems`: column 1 of every row, in order. */
  function NormalizeGilShopItems(rows: seq<Row>): Result<seq<int>, CatalogError>
  {
    FilterMapRows(rows, GilShopRow)
  }

  /** No gil-shop row is skipped: the list succeeds exactly when every row
      has a number in column 1, and is then those numbers, row by row. */
  lemma {:induction false} GilShopIds(rows: seq<Row>)
    ensures NormalizeGilShopItems(rows).Success? <==> forall i :: 0 <= i < |rows| ==> NumberAt(rows[i], 1).Success?
    ensures NormalizeGilShopItems(rows).Success? ==>
      var ids := NormalizeGilShopItems(rows).value;
      |ids| == |rows| && forall i :: 0 <= i < |rows| ==> ids[i] == NumberAt(rows[i], 1).value
  {
    if rows != [] {
      GilShopIds(rows[1..]);
      assert forall i :: 0 < i < |rows| ==> rows[1..][i - 1] == rows[i];
    }
  }

  // ----------------------------------------------------------------- items

  /** One row of `normalizeItems`: skipped when the id (column 0) is not
      positive — before the name is even looked at — or when the name
      (column 10) is empty; otherwise an item whose vendor price (column 26)
      is kept only for gil-shop items and whose search category (column 17)
      is `null` when 0. */
  function ItemRow(row: Row, gilShop: set<int>): (r: Result<Option<(int, Item)>, CatalogError>)
    ensures r.Success? <==>
      NumberAt(row, 0).Success? &&
      (NumberAt(row, 0).value <= 0 ||
       (StringAt(row, 10).Success? &&
        (StringAt(row, 10).value == "" ||
         (StringAt(row, 28).Success? && NumberAt(row, 26).Success? && NumberAt(row, 17).Success?))))
    ensures r.Failure? ==> r.error.Malformed? && r.error.column in {0, 10, 17, 26, 28}
    ensures r == Success(None) <==>
      (NumberAt(row, 0).Success? && (NumberAt(row, 0).value <= 0 || StringAt(row, 10) == Success("")))
    ensures r.Success? && r.value.Some? ==>
      var (id, item) := r.value.value;
      && id == item.id && NumberAt(row, 0) == Success(id) && id > 0
      && StringAt(row, 10) == Success(item.name) && item.name != ""
      && StringAt(row, 28).Success? && item.hqPossible == (StringAt(row, 28).value == "True")
      && NumberAt(row, 26).Success?
      && item.vendorPrice == (if id in gilShop then Some(NumberAt(row, 26).value) else None)
      && NumberAt(row, 17).Success?
      && item.itemSearchCategory == (if NumberAt(row, 17).value == 0 then None else Some(NumberAt(row, 17).value))
  {
    var id :- NumberAt(row, 0);
    if id <= 0 then Success(None)
    else
      var name :- StringAt(row, 10);
      if name == "" then Success(None)
      else
        var hqPossible :- StringAt(row, 28);
        var vendorPrice :- NumberAt(row, 26);
        var itemSearchCategory :- NumberAt(row, 17);
        Success(Some((id, Item(id, name, hqPossible == "True",
                               if id in gilShop then Some(vendorPrice) else None,
                               if itemSearchCategory != 0 then Some(itemSearchCategory) else None))))
  }

  /** `normalizeItems`, with the gil-shop ids made into a set first. */
  function NormalizeItems(rows: seq<Row>, gilShopItemIds: seq<int>): Result<seq<(int, Item)>, CatalogError>
  {
    var gilShop := set x | x in gilShopItemIds;
    FilterMapRows(rows, (row: Row) => ItemRow(row, gilShop))
  }

  /** Every normalised item has a positive id, a non-empty name, and is keyed
      by its own id. */
  lemma NormalizedItemsValid(rows: seq<Row>, gilShopItemIds: seq<int>, e: (int, Item))
    requires NormalizeItems(rows, gilShopItemIds).Success?
    requires e in NormalizeItems(rows, gilShopItemIds).value
    ensures e.0 == e.1.id && e.0 > 0 && e.1.name != ""
  {
    var gilShop := set x | x in gilShopItemIds;
    FilterMapRowsMember(rows, (row: Row) => ItemRow(row, gilShop), e);
  }

  // --------------------------------------------------------------- recipes

  /** One row of `normalizeRecipes`: skipped when the recipe id (column 0) or
      the produced item (column 4) is not positive. The yield (column 5) is
      kept whatever it is, zero included. */
  function RecipeRow(row: Row): (r: Result<Option<(int, Recipe)>, CatalogError>)
    ensures r.Success? <==>
      NumberAt(row, 0).Success? &&
      (NumberAt(row, 0).value <= 0 ||
       (NumberAt(row, 4).Success? && (NumberAt(row, 4).value <= 0 || NumberAt(row, 5).Success?)))
    ensures r.Failure? ==> r.error.Malformed? && r.error.column in {0, 4, 5}
    ensures r == Success(None) <==>
      (NumberAt(row, 0).Success? &&
       (NumberAt(row, 0).value <= 0 || (NumberAt(row, 4).Success? && NumberAt(row, 4).value <= 0)))
    ensures r.Success? && r.value.Some? ==>
      var (id, recipe) := r.value.value;
      && id == recipe.id && NumberAt(row, 0) == Success(id) && id > 0
      && NumberAt(row, 4) == Success(recipe.item) && recipe.item > 0
      && NumberAt(row, 5) == Success(recipe.count)
  {
    var id :- NumberAt(row, 0);
    if id <= 0 then Success(None)
    else
      var item :- NumberAt(row, 4);
      if item <= 0 then Success(None)
      else
        var count :- NumberAt(row, 5);
        Success(Some((id, Recipe(id, item, count))))
  }

  function NormalizeRecipes(rows: seq<Row>): Result<seq<(int, Recipe)>, CatalogError>
  {
    FilterMapRows(rows, RecipeRow)
  }

  lemma NormalizedRecipesValid(rows: seq<Row>, e: (int, Recipe))
    requires NormalizeRecipes(rows).Success? && e in NormalizeRecipes(rows).value
    ensures e.0 == e.1.id && e.0 > 0 && e.1.item > 0
  {
    FilterMapRowsMember(rows, RecipeRow, e);
  }

  // ----------------------------------------------------------- ingredients

  /** The recipe row read as a slot pair: item id in column 6 + 2k, count in
      column 7 + 2k. */
  function SlotIngredient(row: Row, recipeId: int, k: nat): Result<Ingredient, CatalogError>
  {
    var itemId :- NumberAt(row, 6 + k * 2);
    var count :- NumberAt(row, 7 + k * 2);
    Success(Ingredient(recipeId, itemId, count))
  }

  /** The first `n` slot pairs, zero counts included; both cells of every
      slot are checked, as the source does. */
  function Slots(row: Row, recipeId: int, n: nat): Result<seq<Ingredient>, CatalogError>
  {
    if n == 0 then Success([])
    else
      var prev :- Slots(row, recipeId, n - 1);
      var ingredient :- SlotIngredient(row, recipeId, n - 1);
      Success(prev + [ingredient])
  }

  predicate CountPositive(i: Ingredient)
  {
    i.count > 0
  }

  /** The number of ingredient slots of a recipe row. */
  const SlotCount := 10

  /** One row of `normalizeIngredients`: the recipe id (column 0, not
      filtered) and, in slot order, the slots whose count is positive. */
  function IngredientRow(row: Row): (r: Result<(int, seq<Ingredient>), CatalogError>)
    ensures r.Success? <==> NumberAt(row, 0).Success? && Slots(row, NumberAt(row, 0).value, SlotCount).Success?
    ensures r.Failure? && NumberAt(row, 0).Failure? ==> r.error == NumberAt(row, 0).error
    ensures r.Failure? && NumberAt(row, 0).Success? ==> r.error == Slots(row, NumberAt(row, 0).value, SlotCount).error
    ensures r.Success? ==> NumberAt(row, 0) == Success(r.value.0)
    ensures r.Success? ==> r.value.1 == Where(Slots(row, r.value.0, SlotCount).value, CountPositive)
    ensures r.Success? ==> |r.value.1| <= SlotCount
    ensures r.Success? ==> forall i :: 0 <= i < |r.value.1| ==>
      r.value.1[i].recipe == r.value.0 && r.value.1[i].count > 0
  {
    var recipeId :- NumberAt(row, 0);
    var slots :- Slots(row, recipeId, SlotCount);
    SlotsShape(row, recipeId, SlotCount);
    var kept := Where(slots, CountPositive);
    assert forall i :: 0 <= i < |kept| ==> kept[i].recipe == recipeId && kept[i].count > 0 by {
      forall i | 0 <= i < |kept| ensures kept[i].recipe == recipeId && kept[i].count > 0 {
        WhereMember(slots, CountPositive, kept[i]);
      }
    }
    SubsequenceLength(kept, slots);
    Success((recipeId, kept))
  }

  lemma {:induction false} SlotsShape(row: Row, recipeId: int, n: nat)
    requires Slots(row, recipeId, n).Success?
    ensures |Slots(row, recipeId, n).value| == n
    ensures forall x :: x in Slots(row, recipeId, n).value ==> x.recipe == recipeId
  {
    if n > 0 {
      SlotsShape(row, recipeId, n - 1);
    }
  }

  /** The slot prefix succeeds exactly when each of its slots does; it
      then holds every slot in order, and otherwise fails with the error of
      the first malformed slot. */
  lemma {:induction false} SlotsSpec(row: Row, recipeId: int, n: nat)
    ensures Slots(row, recipeId, n).Success? <==> forall k :: 0 <= k < n ==> SlotIngredient(row, recipeId, k).Success?
    ensures Slots(row, recipeId, n).Success? ==>
      && |Slots(row, recipeId, n).value| == n
      && forall k :: 0 <= k < n ==> Slots(row, recipeId, n).value[k] == SlotIngredient(row, recipeId, k).value
    ensures Slots(row, recipeId, n).Failure? ==> exists k ::
      && 0 <= k < n && SlotIngredient(row, recipeId, k) == Failure(Slots(row, recipeId, n).error)
      && forall j :: 0 <= j < k ==> SlotIngredient(row, recipeId, j).Success?
  {
    if n > 0 {
      SlotsSpec(row, recipeId, n - 1);
      var prev := Slots(row, recipeId, n - 1);
      if prev.Failure? {
        var k :| 0 <= k < n - 1 && SlotIngredient(row, recipeId, k) == Failure(prev.error)
          && forall j :: 0 <= j < k ==> SlotIngredient(row, recipeId, j).Success?;
        assert !SlotIngredient(row, recipeId, k).Success?;
      }
    }
  }

  /** Slot k is read from columns 6 + 2k (the item id) and 7 + 2k (the
      count); the item id's error comes first. */
  lemma SlotCells(row: Row, recipeId: int, k: nat)
    ensures SlotIngredient(row, recipeId, k).Success? <==>
      NumberAt(row, 6 + 2 * k).Success? && NumberAt(row, 7 + 2 * k).Success?
    ensures SlotIngredient(row, recipeId, k).Success? ==>
      SlotIngredient(row, recipeId, k).value ==
        Ingredient(recipeId, NumberAt(row, 6 + 2 * k).value, NumberAt(row, 7 + 2 * k).value)
    ensures NumberAt(row, 6 + 2 * k).Failure? ==> SlotIngredient(row, recipeId, k) == Failure(NumberAt(row, 6 + 2 * k).error)
    ensures NumberAt(row, 6 + 2 * k).Success? && NumberAt(row, 7 + 2 * k).Failure? ==>
      SlotIngredient(row, recipeId, k) == Failure(NumberAt(row, 7 + 2 * k).error)
  {
    assert 6 + 2 * k == 6 + k * 2 && 7 + 2 * k == 7 + k * 2;
  }

  lemma {:induction false} SubsequenceLength<T>(a: seq<T>, b: seq<T>)
    requires IsSubsequence(a, b)
    ensures |a| <= |b|
    decreases |b|
  {
    if a != [] {
      if a[0] == b[0] && IsSubsequence(a[1..], b[1..]) {
        SubsequenceLength(a[1..], b[1..]);
      } else {
        SubsequenceLength(a, b[1..]);
      }
    }
  }

  /** The source's nested 10-slot loop, pushing every positive-count slot. */
  method NormalizeIngredientRow(row: Row) returns (r: Result<(int, seq<Ingredient>), CatalogError>)
    ensures r == IngredientRow(row)
  {
    var recipeIdCell := NumberAt(row, 0);
    if recipeIdCell.Failure? {
      return Failure(recipeIdCell.error);
    }
    var recipeId := recipeIdCell.value;
    var recipeIngredients: seq<Ingredient> := [];
    ghost var all: seq<Ingredient> := [];
    for index := 0 to SlotCount
      invariant Slots(row, recipeId, index) == Success(all)
      invariant recipeIngredients == Where(all, CountPositive)
    {
      var itemId := NumberAt(row, 6 + index * 2);
      var count := NumberAt(row, 7 + index * 2);
      if itemId.Failure? || count.Failure? {
        SlotsFailureSticks(row, recipeId, index + 1, SlotCount);
        return if itemId.Failure? then Failure(itemId.error) else Failure(count.error);
      }
      var ingredient := Ingredient(recipeId, itemId.value, count.value);
      assert SlotIngredient(row, recipeId, index) == Success(ingredient);
      assert Slots(row, recipeId, index + 1) == Success(all + [ingredient]);
      WhereAppend(all, [ingredient], CountPositive);
      WhereSingleton(ingredient, CountPositive);
      all := all + [ingredient];
      if count.value > 0 {
        recipeIngredients := recipeIngredients + [ingredient];
      }
    }
    return Success((recipeId, recipeIngredients));
  }

  /** Once a slot is malformed, every longer slot prefix fails the same way. */
  lemma {:induction false} SlotsFailureSticks(row: Row, recipeId: int, n: nat, m: nat)
    requires n <= m && Slots(row, recipeId, n).Failure?
    ensures Slots(row, recipeId, m) == Slots(row, recipeId, n)
    decreases m - n
  {
    if n < m {
      SlotsFailureSticks(row, recipeId, n, m - 1);
    }
  }

  /** `normalizeIngredients`: one entry per recipe row, none skipped. */
  function NormalizeIngredients(rows: seq<Row>): Result<seq<(int, seq<Ingredient>)>, CatalogError>
  {
    FilterMapRows(rows, (row: Row) => var r :- IngredientRow(row); Success(Some(r)))
  }

  // --------------------------------------------------------- recipe index

  function Produces(item: int): Recipe -> bool
  {
    (r: Recipe) => r.item == item
  }

  function RecipeIdOf(r: Recipe): int
  {
    r.id
  }

  /** The item -> recipe-ids index as a left fold over the recipes in table
      order: each recipe's id is appended to its produced item's bucket. */
  function RecipeIndex(recipes: seq<Recipe>): map<int, seq<int>>
  {
    if recipes == [] then map[]
    else
      var m := RecipeIndex(recipes[..|recipes| - 1]);
      var r := recipes[|recipes| - 1];
      m[r.item := (if r.item in m then m[r.item] else []) + [r.id]]
  }

  /** An item has a bucket exactly when some recipe produces it. */
  lemma {:induction false} RecipeIndexDomain(recipes: seq<Recipe>, item: int)
    ensures item in RecipeIndex(recipes) <==> exists i :: 0 <= i < |recipes| && recipes[i].item == item
  {
    if recipes != [] {
      var init := recipes[..|recipes| - 1];
      RecipeIndexDomain(init, item);
      assert forall i :: 0 <= i < |init| ==> init[i] == recipes[i];
    }
  }

  /** An item's bucket lists the ids of the recipes producing it, in
      discovery order. */
  lemma {:induction false} RecipeIndexBucket(recipes: seq<Recipe>, item: int)
    requires item in RecipeIndex(recipes)
    ensures RecipeIndex(recipes)[item] == Select(Where(recipes, Produces(item)), RecipeIdOf)
  {
    var init := recipes[..|recipes| - 1];
    var r := recipes[|recipes| - 1];
    var m := RecipeIndex(init);
    var ws := Where(init, Produces(item));
    assert recipes == init + [r];
    WhereAppend(init, [r], Produces(item));
    WhereSingleton(r, Produces(item));
    var before: seq<int> := if item in m then m[item] else [];
    assert before == Select(ws, RecipeIdOf) by {
      if item in m {
        RecipeIndexBucket(init, item);
      } else {
        NoProducerNoRecipes(init, item);
      }
    }
    if r.item == item {
      assert Where(recipes, Produces(item)) == ws + [r];
      assert RecipeIndex(recipes)[item] == before + [r.id];
      assert Select(ws + [r], RecipeIdOf) == Select(ws, RecipeIdOf) + [r.id];
    } else {
      assert Where(recipes, Produces(item)) == ws + [];
      assert ws + [] == ws;
      assert RecipeIndex(recipes)[item] == m[item];
    }
  }

  /** An item without a bucket is produced by no recipe. */
  lemma NoProducerNoRecipes(recipes: seq<Recipe>, item: int)
    requires item !in RecipeIndex(recipes)
    ensures Where(recipes, Produces(item)) == []
  {
    RecipeIndexDomain(recipes, item);
    if Where(recipes, Produces(item)) != [] {
      WhereMember(recipes, Produces(item), Where(recipes, Produces(item))[0]);
    }
  }

  /** `buildRecipeByItemIndex`: the single pass over the recipe table. */
  method BuildRecipeByItemIndex(recipes: seq<Recipe>) returns (m: map<int, seq<int>>)
    ensures m == RecipeIndex(recipes)
    ensures forall item :: item in m ==> m[item] == Select(Where(recipes, Produces(item)), RecipeIdOf)
    ensures forall i :: 0 <= i < |recipes| ==> recipes[i].item in m
  {
    m := map[];
    for i := 0 to |recipes|
      invariant m == RecipeIndex(recipes[..i])
    {
      assert recipes[..i + 1][..i] == recipes[..i];
      var bucket := if recipes[i].item in m then m[recipes[i].item] else [];
      m := m[recipes[i].item := bucket + [recipes[i].id]];
    }
    assert recipes[..|recipes|] == recipes;
    forall item | item in m
      ensures m[item] == Select(Where(recipes, Produces(item)), RecipeIdOf)
    {
      RecipeIndexBucket(recipes, item);
    }
    forall i | 0 <= i < |recipes|
      ensures recipes[i].item in m
    {
      RecipeIndexDomain(recipes, recipes[i].item);
    }
  }

  // --------------------------------------------------------------- catalog

  datatype Catalog = Catalog(
    itemTable: OrderedMap<int, Item>,
    recipeTable: OrderedMap<int, Recipe>,
    ingredientTable: OrderedMap<int, seq<Ingredient>>,
    recipeByItemIndex: map<int, seq<int>>)
  {
    /** The tables are well-formed maps, items and recipes are keyed by their
        own ids, and the index is the one built from the recipe table. */
    ghost predicate Valid()
    {
      && itemTable.Valid() && recipeTable.Valid() && ingredientTable.Valid()
      && (forall k :: k in itemTable.entries ==> itemTable.entries[k].id == k)
      && (forall k :: k in recipeTable.entries ==> recipeTable.entries[k].id == k)
      && recipeByItemIndex == RecipeIndex(recipeTable.Values())
    }

    /** `items`, `itemIds` and `recipes`: the tables in insertion order. */
    function Items(): seq<Item>
      requires Valid()
    {
      itemTable.Values()
    }

    function ItemIds(): seq<int>
    {
      itemTable.keys
    }

    function Recipes(): seq<Recipe>
      requires Valid()
    {
      recipeTable.Values()
    }

    function GetItem(id: int): Result<Item, CatalogError>
    {
      Get(itemTable, id)
    }

    function GetRecipe(id: int): Result<Recipe, CatalogError>
    {
      Get(recipeTable, id)
    }

    function GetIngredientsForRecipe(id: int): Result<seq<Ingredient>, CatalogError>
    {
      Get(ingredientTable, id)
    }

    /** The ids in an item's bucket (none when it has no bucket). */
    function RecipeIdsForItem(id: int): seq<int>
    {
      if id in recipeByItemIndex then recipeByItemIndex[id] else []
    }

    /** `getRecipesForItem`: `getRecipe` of every id in the item's bucket. */
    function GetRecipesForItem(id: int): Result<seq<Recipe>, CatalogError>
    {
      GetAll(recipeTable, RecipeIdsForItem(id))
    }
  }

  /** `get`: the stored value when the id is present, "Could not find data"
      when it is absent. (Every stored value is an object or an array, so the
      source's falsiness test only fires on a missing key.) */
  function Get<V>(m: OrderedMap<int, V>, id: int): (r: Result<V, CatalogError>)
    ensures r.Success? <==> id in m.entries
    ensures r.Success? ==> r.value == m.entries[id]
    ensures r.Failure? ==> r.error == NotFound(id)
  {
    if id in m.entries then Success(m.entries[id]) else Failure(NotFound(id))
  }

  function GetAll<V>(m: OrderedMap<int, V>, ids: seq<int>): Result<seq<V>, CatalogError>
  {
    if ids == [] then Success([])
    else
      var v :- Get(m, ids[0]);
      var rest :- GetAll(m, ids[1..]);
      Success([v] + rest)
  }

  lemma {:induction false} GetAllRecipes(c: Catalog, ws: seq<Recipe>)
    requires forall w :: w in ws ==> w.id in c.recipeTable.entries && c.recipeTable.entries[w.id] == w
    ensures GetAll(c.recipeTable, Select(ws, RecipeIdOf)) == Success(ws)
  {
    if ws != [] {
      assert Select(ws, RecipeIdOf)[1..] == Select(ws[1..], RecipeIdOf);
      GetAllRecipes(c, ws[1..]);
      assert ws == [ws[0]] + ws[1..];
    }
  }

  /** `getRecipesForItem` yields exactly the recipes of the table producing
      the item, in table order, and nothing when the item has no bucket. */
  lemma GetRecipesForItemSpec(c: Catalog, id: int)
    requires c.Valid()
    ensures c.GetRecipesForItem(id) == Success(Where(c.Recipes(), Produces(id)))
  {
    var vals := c.Recipes();
    var ws := Where(vals, Produces(id));
    if id in c.recipeByItemIndex {
      RecipeIndexBucket(vals, id);
      assert c.RecipeIdsForItem(id) == Select(ws, RecipeIdOf);
      forall w | w in ws
        ensures w.id in c.recipeTable.entries && c.recipeTable.entries[w.id] == w
      {
        WhereMember(vals, Produces(id), w);
        var i :| 0 <= i < |vals| && vals[i] == w;
        var k := c.recipeTable.keys[i];
        assert k in c.recipeTable.entries && vals[i] == c.recipeTable.entries[k];
      }
      GetAllRecipes(c, ws);
    } else {
      NoProducerNoRecipes(vals, id);
    }
  }

  /** Building the catalog from the import rows (the fetching of those rows
      is not modelled): gil-shop ids, items, recipes and ingredient lists are
      normalised in that order, the first failure aborting the build. */
  function FromRows(itemRows: seq<Row>, gilShopRows: seq<Row>, recipeRows: seq<Row>): (r: Result<Catalog, CatalogError>)
    ensures var gilShop := NormalizeGilShopItems(gilShopRows);
      r.Success? <==>
        && gilShop.Success? && NormalizeItems(itemRows, gilShop.value).Success?
        && NormalizeRecipes(recipeRows).Success? && NormalizeIngredients(recipeRows).Success?
    ensures var gilShop := NormalizeGilShopItems(gilShopRows);
      var items := if gilShop.Success? then NormalizeItems(itemRows, gilShop.value) else Success([]);
      r.Failure? ==>
        r.error == (if gilShop.Failure? then gilShop.error
                    else if items.Failure? then items.error
                    else if NormalizeRecipes(recipeRows).Failure? then NormalizeRecipes(recipeRows).error
                    else NormalizeIngredients(recipeRows).error)
    ensures r.Success? ==>
      && r.value.itemTable == FromEntries(NormalizeItems(itemRows, NormalizeGilShopItems(gilShopRows).value).value)
      && r.value.recipeTable == FromEntries(NormalizeRecipes(recipeRows).value)
      && r.value.ingredientTable == FromEntries(NormalizeIngredients(recipeRows).value)
    ensures r.Success? ==> r.value.Valid()
  {
    var gilShopItemIds :- NormalizeGilShopItems(gilShopRows);
    var items :- NormalizeItems(itemRows, gilShopItemIds);
    var recipes :- NormalizeRecipes(recipeRows);
    var ingredients :- NormalizeIngredients(recipeRows);
    ItemsKeyedById(itemRows, gilShopItemIds);
    RecipesKeyedById(recipeRows);
    Success(Assemble(items, recipes, ingredients))
  }

  /** After a successful build, `getItem` finds exactly the ids of the
      normalised item rows, each with the item of the last row carrying it. */
  lemma FromRowsGetItem(itemRows: seq<Row>, gilShopRows: seq<Row>, recipeRows: seq<Row>, id: int)
    requires FromRows(itemRows, gilShopRows, recipeRows).Success?
    ensures var items := NormalizeItems(itemRows, NormalizeGilShopItems(gilShopRows).value).value;
      var found := FromRows(itemRows, gilShopRows, recipeRows).value.GetItem(id);
      && (found.Success? <==> exists i :: 0 <= i < |items| && items[i].0 == id)
      && (found.Success? ==> exists i :: 0 <= i < |items| && items[i] == (id, found.value) &&
                                forall j :: i < j < |items| ==> items[j].0 != id)
  {
    var items := NormalizeItems(itemRows, NormalizeGilShopItems(gilShopRows).value).value;
    FromEntriesLookup(items, id);
  }

  function ItemIdOf(item: Item): int
  {
    item.id
  }

  /** The private constructor of `DB`: the three tables, then the index. */
  function Assemble(items: seq<(int, Item)>, recipes: seq<(int, Recipe)>, ingredients: seq<(int, seq<Ingredient>)>): (c: Catalog)
    requires forall i :: 0 <= i < |items| ==> items[i].0 == items[i].1.id
    requires forall i :: 0 <= i < |recipes| ==> recipes[i].0 == recipes[i].1.id
    ensures c.itemTable == FromEntries(items) && c.recipeTable == FromEntries(recipes)
    ensures c.ingredientTable == FromEntries(ingredients)
    ensures c.Valid()
  {
    var itemTable := FromEntries(items);
    var recipeTable := FromEntries(recipes);
    KeyedTable(items, ItemIdOf);
    KeyedTable(recipes, RecipeIdOf);
    Catalog(itemTable, recipeTable, FromEntries(ingredients), RecipeIndex(recipeTable.Values()))
  }

  /** A table built from pairs keyed by their value's own id is keyed so. */
  lemma KeyedTable<V>(pairs: seq<(int, V)>, idOf: V -> int)
    requires forall i :: 0 <= i < |pairs| ==> pairs[i].0 == idOf(pairs[i].1)
    ensures forall k :: k in FromEntries(pairs).entries ==> idOf(FromEntries(pairs).entries[k]) == k
  {
    forall k | k in FromEntries(pairs).entries
      ensures idOf(FromEntries(pairs).entries[k]) == k
    {
      FromEntriesLookup(pairs, k);
    }
  }

  lemma ItemsKeyedById(rows: seq<Row>, gilShopItemIds: seq<int>)
    requires NormalizeItems(rows, gilShopItemIds).Success?
    ensures var v := NormalizeItems(rows, gilShopItemIds).value;
      forall i :: 0 <= i < |v| ==> v[i].0 == v[i].1.id
  {
    var v := NormalizeItems(rows, gilShopItemIds).value;
    forall i | 0 <= i < |v| ensures v[i].0 == v[i].1.id {
      NormalizedItemsValid(rows, gilShopItemIds, v[i]);
    }
  }

  lemma RecipesKeyedById(rows: seq<Row>)
    requires NormalizeRecipes(rows).Success?
    ensures var v := NormalizeRecipes(rows).value;
      forall i :: 0 <= i < |v| ==> v[i].0 == v[i].1.id
  {
    var v := NormalizeRecipes(rows).value;
    forall i | 0 <= i < |v| ensures v[i].0 == v[i].1.id {
      NormalizedRecipesValid(rows, v[i]);
    }
  }
}
