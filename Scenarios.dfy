/** Three small catalogs and what is proved about the reporter on them: a
    craft priced from a vendor-bought ingredient, a craft whose ingredient is
    itself crafted in batches of three, and two items crafted from each
    other, priced as written and with re-entry skipped. */
module Scenarios {
  import opened Wrappers
  import opened OrderedMaps
  import opened Catalog
  import opened MarketBoard
  import opened Reporter
  import opened ReentrySkipped

  /** Item 1 is sold by a vendor for 100; item 2 has a market category and
      is crafted (yield 1) from two of item 1 by recipe 10. */
  function VendorCraftCatalog(): Catalog
  {
    var vendorItem := Item(1, "Ingot", false, Some(100), None);
    var craftedItem := Item(2, "Plate", false, None, Some(5));
    Catalog(
      OrderedMap([1, 2], map[1 := vendorItem, 2 := craftedItem]),
      OrderedMap([10], map[10 := Recipe(10, 2, 1)]),
      OrderedMap([10], map[10 := [Ingredient(10, 1, 2)]]),
      map[2 := [10]])
  }

  /** The catalog with an empty buy board and the given sell data. */
  function VendorCraftContext(sellData: Option<Snapshot>): Context
  {
    Context(VendorCraftCatalog(), sellData, Some(map[]))
  }

  /** The cache after item 1 has been priced. */
  function VendorCache(): Cache
  {
    map[1 := [Vendor(1, 100.0)]]
  }

  /** The craft of item 2 by recipe 10 from two of item 1. */
  function PlateCraft(): CostReport
  {
    Craft(2, 200.0, 1, [IngredientReport(2, Vendor(1, 100.0))])
  }

  /** Item 1 has only its vendor possibility. */
  lemma VendorOnly(sellData: Option<Snapshot>, busy: set<int>)
    requires 1 !in busy
    ensures YieldsNonZero(VendorCraftContext(sellData).db)
    ensures CostReports(VendorCraftContext(sellData), 1, busy, map[]) == Step(Success([Vendor(1, 100.0)]), VendorCache())
  {
    var ctx := VendorCraftContext(sellData);
    assert YieldsNonZero(ctx.db);
    assert VendorPart(1, ctx.db.itemTable.entries[1]) == [Vendor(1, 100.0)];
    assert ctx.db.RecipeIdsForItem(1) == [];
    assert [Vendor(1, 100.0)] + [] == [Vendor(1, 100.0)];
  }

  /** The ingredient loop of recipe 10 prices item 1, from the cache or
      afresh; either way the cache then holds item 1. */
  lemma PlateIngredients(sellData: Option<Snapshot>, cache: Cache)
    requires cache == map[] || cache == VendorCache()
    ensures YieldsNonZero(VendorCraftContext(sellData).db) && CacheOk(cache)
    ensures IngredientLoop(VendorCraftContext(sellData), [Ingredient(10, 1, 2)], 0, {2}, cache, []) ==
            Step(Success(Some([IngredientReport(2, Vendor(1, 100.0))])), VendorCache())
  {
    VendorOnly(sellData, {2});
    var ctx := VendorCraftContext(sellData);
    var c1 := VendorCache();
    assert Optimal(ctx, 1, {2}, cache) == Step(Success(Some(Vendor(1, 100.0))), c1);
    assert [] + [IngredientReport(2, Vendor(1, 100.0))] == [IngredientReport(2, Vendor(1, 100.0))];
  }

  /** Two of item 1 at 100 each. */
  lemma PlatePrice()
    ensures CraftPrice([IngredientReport(2, Vendor(1, 100.0))]) == 200.0
  {
    assert [IngredientReport(2, Vendor(1, 100.0))][..0] == [];
    assert Round(0.0 + 2.0 * 100.0) == 200.0;
  }

  /** Item 2 has no vendor price and no board entry, so its one possibility
      is the craft. */
  lemma PlateReports(sellData: Option<Snapshot>, cache: Cache)
    requires cache == map[] || cache == VendorCache()
    ensures YieldsNonZero(VendorCraftContext(sellData).db) && CacheOk(cache)
    ensures CostReports(VendorCraftContext(sellData), 2, {}, cache).result == Success([PlateCraft()])
  {
    PlateIngredients(sellData, cache);
    PlatePrice();
    var ctx := VendorCraftContext(sellData);
    var c1 := VendorCache();
    var craft := PlateCraft();
    assert MarketPart(ctx, 2, ctx.db.itemTable.entries[2]) == Success([]);
    assert VendorPart(2, ctx.db.itemTable.entries[2]) + [] == [];
    assert {} + {2} == {2};
    assert [] + [craft] == [craft];
    assert RecipeLoop(ctx, 2, [10], 1, {2}, c1, [craft]) == Step(Success([craft]), c1);
    assert RecipeLoop(ctx, 2, [10], 0, {2}, cache, []) == Step(Success([craft]), c1);
  }

  /** With an empty buy board, item 1 costs its vendor price and item 2 the
      rounded price of two of item 1. */
  lemma VendorThenCraft()
    ensures var ctx := VendorCraftContext(None);
      && YieldsNonZero(ctx.db)
      && var one := Optimal(ctx, 1, {}, map[]);
      && one.result == Success(Some(Vendor(1, 100.0)))
      && Optimal(ctx, 2, {}, one.cache).result == Success(Some(PlateCraft()))
  {
    VendorOnly(None, {});
    PlateReports(None, VendorCache());
  }

  /** The sell board's entry for item 2: NQ sells at 500 and faster than HQ
      at 600. */
  function PlateListing(): MarketBoardInfo
  {
    MarketBoardInfo(2.0, "Gilgamesh", GradeInfo(false, 500.0, 1.0), GradeInfo(true, 600.0, 0.5))
  }

  /** Recipe 10 is reported with the NQ grade and a profit of
      round(500 * 0.95 - 200 * 1.05) = 265. */
  lemma PlateProfit()
    ensures var ctx := VendorCraftContext(Some(map[2.0 := PlateListing()]));
      && YieldsNonZero(ctx.db)
      && ProfitFor(ctx, Recipe(10, 2, 1), map[]).result ==
           Success(Some(RecipeProfitability(10, 2, "Plate", false, 1.0, 500.0, 200.0, 265.0,
                                            [IngredientReport(2, Vendor(1, 100.0))])))
  {
    var sell := Some(map[2.0 := PlateListing()]);
    var ctx := VendorCraftContext(sell);
    PlateReports(sell, map[]);
    assert Optimal(ctx, 2, {}, map[]).result == Success(Some(PlateCraft()));
    assert Lookup(ctx.sellData, 2) == Success(Some(PlateListing()));
    assert Round(500.0 * (95.0 / 100.0) - 200.0 * (105.0 / 100.0)) == 265.0;
  }

  /** Item 1 is sold by a vendor for 100; recipe 20 crafts three of item 3
      from one of item 1, and recipe 30 crafts one of item 4 from two of
      item 3. Nothing is on the market. */
  function YieldCatalog(): Catalog
  {
    Catalog(
      OrderedMap([1, 3, 4], map[1 := Item(1, "Ore", false, Some(100), None),
                                3 := Item(3, "Nugget", false, None, None),
                                4 := Item(4, "Bar", false, None, None)]),
      OrderedMap([20, 30], map[20 := Recipe(20, 3, 3), 30 := Recipe(30, 4, 1)]),
      OrderedMap([20, 30], map[20 := [Ingredient(20, 1, 1)], 30 := [Ingredient(30, 3, 2)]]),
      map[3 := [20], 4 := [30]])
  }

  function YieldContext(): Context
  {
    Context(YieldCatalog(), None, None)
  }

  /** One craft of recipe 20: three of item 3 for the price of one of item 1. */
  function NuggetCraft(): CostReport
  {
    Craft(3, 100.0, 3, [IngredientReport(1, Vendor(1, 100.0))])
  }

  /** Two of item 3 are two thirds of a craft of recipe 20. */
  function BarCraft(): CostReport
  {
    Craft(4, 67.0, 1, [IngredientReport(2, NuggetCraft())])
  }

  function OreCache(): Cache
  {
    map[1 := [Vendor(1, 100.0)]]
  }

  function NuggetCache(): Cache
  {
    map[1 := [Vendor(1, 100.0)], 3 := [NuggetCraft()]]
  }

  /** Item 1 has only its vendor possibility. */
  lemma OreOnly(busy: set<int>)
    requires 1 !in busy
    ensures YieldsNonZero(YieldContext().db)
    ensures CostReports(YieldContext(), 1, busy, map[]) == Step(Success([Vendor(1, 100.0)]), OreCache())
  {
    var ctx := YieldContext();
    assert YieldsNonZero(ctx.db);
    assert VendorPart(1, ctx.db.itemTable.entries[1]) == [Vendor(1, 100.0)];
    assert ctx.db.RecipeIdsForItem(1) == [];
    assert [Vendor(1, 100.0)] + [] == [Vendor(1, 100.0)];
  }

  lemma NuggetIngredients(busy: set<int>)
    requires 1 !in busy
    ensures YieldsNonZero(YieldContext().db)
    ensures IngredientLoop(YieldContext(), [Ingredient(20, 1, 1)], 0, busy, map[], []) ==
            Step(Success(Some([IngredientReport(1, Vendor(1, 100.0))])), OreCache())
  {
    OreOnly(busy);
    assert Optimal(YieldContext(), 1, busy, map[]) == Step(Success(Some(Vendor(1, 100.0))), OreCache());
    assert [] + [IngredientReport(1, Vendor(1, 100.0))] == [IngredientReport(1, Vendor(1, 100.0))];
  }

  /** One of item 1 at 100. */
  lemma NuggetPrice()
    ensures CraftPrice([IngredientReport(1, Vendor(1, 100.0))]) == 100.0
  {
    assert [IngredientReport(1, Vendor(1, 100.0))][..0] == [];
    assert Round(0.0 + 1.0 * 100.0) == 100.0;
  }

  /** Item 3's one possibility is the craft of recipe 20. */
  lemma NuggetReports()
    ensures YieldsNonZero(YieldContext().db)
    ensures CostReports(YieldContext(), 3, {4}, map[]) == Step(Success([NuggetCraft()]), NuggetCache())
  {
    NuggetIngredients({4, 3});
    NuggetPrice();
    var ctx := YieldContext();
    var craft := NuggetCraft();
    assert MarketPart(ctx, 3, ctx.db.itemTable.entries[3]) == Success([]);
    assert VendorPart(3, ctx.db.itemTable.entries[3]) + [] == [];
    assert {4} + {3} == {4, 3};
    assert [] + [craft] == [craft];
    assert RecipeLoop(ctx, 3, [20], 1, {4, 3}, OreCache(), [craft]) == Step(Success([craft]), OreCache());
    assert RecipeLoop(ctx, 3, [20], 0, {4, 3}, map[], []) == Step(Success([craft]), OreCache());
    assert OreCache()[3 := [craft]] == NuggetCache();
  }

  lemma BarIngredients()
    ensures YieldsNonZero(YieldContext().db)
    ensures IngredientLoop(YieldContext(), [Ingredient(30, 3, 2)], 0, {4}, map[], []) ==
            Step(Success(Some([IngredientReport(2, NuggetCraft())])), NuggetCache())
  {
    NuggetReports();
    assert Optimal(YieldContext(), 3, {4}, map[]) == Step(Success(Some(NuggetCraft())), NuggetCache());
    assert [] + [IngredientReport(2, NuggetCraft())] == [IngredientReport(2, NuggetCraft())];
  }

  /** Two of item 3 consume two thirds of a craft worth 100: round(66.67). */
  lemma BarPrice()
    ensures CraftPrice([IngredientReport(2, NuggetCraft())]) == 67.0
  {
    var rs := [IngredientReport(2, NuggetCraft())];
    assert rs[..0] == [];
    assert Factor(rs[0]) == 2.0 / 3.0;
    assert Round(0.0 + (2.0 / 3.0) * 100.0) == 67.0;
  }

  /** A crafted ingredient is paid per craft of its recipe: item 4 costs two
      thirds of item 3's craft, rounded, and not two whole crafts. */
  lemma YieldDivides()
    ensures YieldsNonZero(YieldContext().db)
    ensures Optimal(YieldContext(), 4, {}, map[]).result == Success(Some(BarCraft()))
  {
    BarIngredients();
    BarPrice();
    var ctx := YieldContext();
    var craft := BarCraft();
    assert MarketPart(ctx, 4, ctx.db.itemTable.entries[4]) == Success([]);
    assert VendorPart(4, ctx.db.itemTable.entries[4]) + [] == [];
    assert {} + {4} == {4};
    assert [] + [craft] == [craft];
    assert RecipeLoop(ctx, 4, [30], 1, {4}, NuggetCache(), [craft]) == Step(Success([craft]), NuggetCache());
    assert RecipeLoop(ctx, 4, [30], 0, {4}, map[], []) == Step(Success([craft]), NuggetCache());
  }

  /** Item 1 is crafted only from item 2 and item 2 only from item 1; neither
      has a vendor price or a market category. */
  function CycleCatalog(): Catalog
  {
    Catalog(
      OrderedMap([1, 2], map[1 := Item(1, "A", false, None, None), 2 := Item(2, "B", false, None, None)]),
      OrderedMap([11, 12], map[11 := Recipe(11, 1, 1), 12 := Recipe(12, 2, 1)]),
      OrderedMap([11, 12], map[11 := [Ingredient(11, 2, 1)], 12 := [Ingredient(12, 1, 1)]]),
      map[1 := [11], 2 := [12]])
  }

  /** The recursion re-enters item 1 while item 1 is still being priced: the
      source has no in-progress marker and recurses until the stack
      overflows, which the model reports as `Cycle(1)`; nothing is cached. */
  lemma CycleReentry()
    ensures Optimal(Context(CycleCatalog(), None, None), 1, {}, map[]) == Step(Failure(Cycle(1)), map[])
  {
    var ctx := Context(CycleCatalog(), None, None);
    assert YieldsNonZero(ctx.db);
    assert CostReports(ctx, 1, {1, 2}, map[]) == Step(Failure(Cycle(1)), map[]);
    assert IngredientLoop(ctx, [Ingredient(12, 1, 1)], 0, {1, 2}, map[], []) == Step(Failure(Cycle(1)), map[]);
    assert RecipeLoop(ctx, 2, [12], 0, {1, 2}, map[], []) == Step(Failure(Cycle(1)), map[]);
    assert {1} + {2} == {1, 2};
    assert VendorPart(2, ctx.db.itemTable.entries[2]) + [] == [];
    assert CostReports(ctx, 2, {1}, map[]) == Step(Failure(Cycle(1)), map[]);
    assert IngredientLoop(ctx, [Ingredient(11, 2, 1)], 0, {1}, map[], []) == Step(Failure(Cycle(1)), map[]);
    assert RecipeLoop(ctx, 1, [11], 0, {1}, map[], []) == Step(Failure(Cycle(1)), map[]);
    assert {} + {1} == {1};
    assert VendorPart(1, ctx.db.itemTable.entries[1]) + [] == [];
  }

  /** With re-entry skipped the same cycle resolves: the inner re-entry of
      item 1 has no possibility, so recipe 12 and then recipe 11 are
      skipped, and both items are cached with no possibility at all. */
  lemma SkippedCycle()
    ensures SkipOptimal(Context(CycleCatalog(), None, None), 1, {}, map[]) ==
            Step(Success(None), map[2 := [], 1 := []])
  {
    var ctx := Context(CycleCatalog(), None, None);
    assert YieldsNonZero(ctx.db);
    assert SkipCostReports(ctx, 1, {1, 2}, map[]) == Step(Success([]), map[]);
    assert SkipIngredientLoop(ctx, [Ingredient(12, 1, 1)], 0, {1, 2}, map[], []) == Step(Success(None), map[]);
    assert SkipRecipeLoop(ctx, 2, [12], 1, {1, 2}, map[], []) == Step(Success([]), map[]);
    assert SkipRecipeLoop(ctx, 2, [12], 0, {1, 2}, map[], []) == Step(Success([]), map[]);
    assert {1} + {2} == {1, 2};
    assert VendorPart(2, ctx.db.itemTable.entries[2]) + [] == [];
    assert SkipCostReports(ctx, 2, {1}, map[]) == Step(Success([]), map[2 := []]);
    assert SkipIngredientLoop(ctx, [Ingredient(11, 2, 1)], 0, {1}, map[], []) == Step(Success(None), map[2 := []]);
    assert SkipRecipeLoop(ctx, 1, [11], 1, {1}, map[2 := []], []) == Step(Success([]), map[2 := []]);
    assert SkipRecipeLoop(ctx, 1, [11], 0, {1}, map[], []) == Step(Success([]), map[2 := []]);
    assert {} + {1} == {1};
    assert VendorPart(1, ctx.db.itemTable.entries[1]) + [] == [];
    assert SkipCostReports(ctx, 1, {}, map[]) == Step(Success([]), map[2 := [], 1 := []]);
  }
}
