/** A variant of the reporter's recursion in which an item still being
    priced further up counts as having no possibility, so the recipe that
    re-enters it is skipped. `costReportsForItem` has no such in-progress
    marker (source/db/reporter.ts:107-114 and 139-143) and recurses until
    the stack overflows; the variant shows what one would give, and is
    proved to agree with the recursion as written wherever that recursion
    meets no cycle. */
module ReentrySkipped {
  import opened Wrappers
  import opened Catalog
  import opened Reporter

  /** The result is the error the as-written recursion reports at a
      re-entry. */
  predicate CycleMet<T>(r: Result<T, ReportError>)
  {
    r.Failure? && r.error.Cycle?
  }

  function SkipOptimal(ctx: Context, id: int, busy: set<int>, cache: Cache): (r: Step<Option<CostReport>>)
    requires YieldsNonZero(ctx.db) && CacheOk(cache)
    ensures CacheOk(r.cache) && Extends(cache, r.cache) && !CycleMet(r.result)
    ensures r.result.Success? && r.result.value.Some? ==> ReportOk(r.result.value.value)
    decreases |ItemKeys(ctx.db) - busy|, 3, 0
  {
    var s := SkipCostReports(ctx, id, busy, cache);
    match s.result
    case Failure(e) => Step(Failure(e), s.cache)
    case Success(ps) =>
      BestReportOk(ps, id);
      Step(Success(Best(ps)), s.cache)
  }

  /** A re-entered item has no possibility, and nothing is cached for it. */
  function SkipCostReports(ctx: Context, id: int, busy: set<int>, cache: Cache): (r: Step<seq<CostReport>>)
    requires YieldsNonZero(ctx.db) && CacheOk(cache)
    ensures CacheOk(r.cache) && Extends(cache, r.cache) && !CycleMet(r.result)
    ensures r.result.Success? ==> Possibilities(id, r.result.value)
    ensures id in busy && id !in cache ==> r == Step(Success([]), cache)
    decreases |ItemKeys(ctx.db) - busy|, 2, 0
  {
    if id in cache then
      assert Possibilities(id, cache[id]);
      Step(Success(cache[id]), cache)
    else if id in busy then Step(Success([]), cache)
    else match ctx.db.GetItem(id)
      case Failure(e) => Step(Failure(CatalogErr(e)), cache)
      case Success(item) =>
        match MarketPart(ctx, id, item)
        case Failure(e) => Step(Failure(e), cache)
        case Success(market) =>
          Shrinks(ItemKeys(ctx.db), busy, id);
          FrontPossibilities(ctx, id, item, market);
          var s := SkipRecipeLoop(ctx, id, ctx.db.RecipeIdsForItem(id), 0, busy + {id}, cache, VendorPart(id, item) + market);
          match s.result
          case Failure(e) => Step(Failure(e), s.cache)
          case Success(ps) =>
            CacheStore(s.cache, id, ps);
            Step(Success(ps), s.cache[id := ps])
  }

  function SkipRecipeLoop(ctx: Context, id: int, bucket: seq<int>, k: nat, busy: set<int>, cache: Cache,
                          acc: seq<CostReport>): (r: Step<seq<CostReport>>)
    requires k <= |bucket|
    requires YieldsNonZero(ctx.db) && CacheOk(cache) && Possibilities(id, acc)
    ensures CacheOk(r.cache) && Extends(cache, r.cache) && !CycleMet(r.result)
    ensures r.result.Success? ==> Possibilities(id, r.result.value)
    decreases |ItemKeys(ctx.db) - busy|, 5, |bucket| - k
  {
    if k == |bucket| then Step(Success(acc), cache)
    else match ctx.db.GetRecipe(bucket[k])
      case Failure(e) => Step(Failure(CatalogErr(e)), cache)
      case Success(recipe) =>
        match ctx.db.GetIngredientsForRecipe(recipe.id)
        case Failure(e) => Step(Failure(CatalogErr(e)), cache)
        case Success(ingredients) =>
          var s := SkipIngredientLoop(ctx, ingredients, 0, busy, cache, []);
          match s.result
          case Failure(e) => Step(Failure(e), s.cache)
          case Success(None) => SkipRecipeLoop(ctx, id, bucket, k + 1, busy, s.cache, acc)
          case Success(Some(reports)) =>
            var craft := Craft(id, CraftPrice(reports), recipe.count, reports);
            AppendCraft(id, acc, craft);
            SkipRecipeLoop(ctx, id, bucket, k + 1, busy, s.cache, acc + [craft])
  }

  function SkipIngredientLoop(ctx: Context, ingredients: seq<Ingredient>, j: nat, busy: set<int>, cache: Cache,
                              acc: seq<IngredientReport>): (r: Step<Option<seq<IngredientReport>>>)
    requires j <= |ingredients|
    requires YieldsNonZero(ctx.db) && CacheOk(cache) && ReportsOk(acc)
    ensures CacheOk(r.cache) && Extends(cache, r.cache) && !CycleMet(r.result)
    ensures r.result.Success? && r.result.value.Some? ==> ReportsOk(r.result.value.value)
    decreases |ItemKeys(ctx.db) - busy|, 4, |ingredients| - j
  {
    if j == |ingredients| then Step(Success(Some(acc)), cache)
    else
      var s := SkipOptimal(ctx, ingredients[j].item, busy, cache);
      match s.result
      case Failure(e) => Step(Failure(e), s.cache)
      case Success(None) => Step(Success(None), s.cache)
      case Success(Some(report)) =>
        SkipIngredientLoop(ctx, ingredients, j + 1, busy, s.cache, acc + [IngredientReport(ingredients[j].count, report)])
  }

  // ------------------------------------------------------------ agreement

  /** Wherever the as-written recursion meets no cycle, the variant computes
      the same result and the same cache. */
  lemma AgreeOptimal(ctx: Context, id: int, busy: set<int>, cache: Cache)
    requires YieldsNonZero(ctx.db) && CacheOk(cache)
    requires !CycleMet(Optimal(ctx, id, busy, cache).result)
    ensures SkipOptimal(ctx, id, busy, cache) == Optimal(ctx, id, busy, cache)
    decreases |ItemKeys(ctx.db) - busy|, 3, 0
  {
    AgreeCostReports(ctx, id, busy, cache);
  }

  lemma AgreeCostReports(ctx: Context, id: int, busy: set<int>, cache: Cache)
    requires YieldsNonZero(ctx.db) && CacheOk(cache)
    requires !CycleMet(CostReports(ctx, id, busy, cache).result)
    ensures SkipCostReports(ctx, id, busy, cache) == CostReports(ctx, id, busy, cache)
    decreases |ItemKeys(ctx.db) - busy|, 2, 0
  {
    if id !in cache && id !in busy && ctx.db.GetItem(id).Success? {
      var item := ctx.db.GetItem(id).value;
      if MarketPart(ctx, id, item).Success? {
        var market := MarketPart(ctx, id, item).value;
        Shrinks(ItemKeys(ctx.db), busy, id);
        FrontPossibilities(ctx, id, item, market);
        ReportsMiss(ctx, id, busy, cache, item, market);
        AgreeRecipeLoop(ctx, id, ctx.db.RecipeIdsForItem(id), 0, busy + {id}, cache, VendorPart(id, item) + market);
      }
    }
  }

  lemma AgreeRecipeLoop(ctx: Context, id: int, bucket: seq<int>, k: nat, busy: set<int>, cache: Cache,
                        acc: seq<CostReport>)
    requires k <= |bucket|
    requires YieldsNonZero(ctx.db) && CacheOk(cache) && Possibilities(id, acc)
    requires !CycleMet(RecipeLoop(ctx, id, bucket, k, busy, cache, acc).result)
    ensures SkipRecipeLoop(ctx, id, bucket, k, busy, cache, acc) == RecipeLoop(ctx, id, bucket, k, busy, cache, acc)
    decreases |ItemKeys(ctx.db) - busy|, 5, |bucket| - k
  {
    if k < |bucket| && ctx.db.GetRecipe(bucket[k]).Success? {
      var recipe := ctx.db.GetRecipe(bucket[k]).value;
      if ctx.db.GetIngredientsForRecipe(recipe.id).Success? {
        var ingredients := ctx.db.GetIngredientsForRecipe(recipe.id).value;
        RecipeLoopStep(ctx, id, bucket, k, busy, cache, acc, recipe, ingredients);
        var s := IngredientLoop(ctx, ingredients, 0, busy, cache, []);
        AgreeIngredientLoop(ctx, ingredients, 0, busy, cache, []);
        if s.result == Success(None) {
          AgreeRecipeLoop(ctx, id, bucket, k + 1, busy, s.cache, acc);
        } else if s.result.Success? {
          var reports := s.result.value.value;
          var craft := Craft(id, CraftPrice(reports), recipe.count, reports);
          AppendCraft(id, acc, craft);
          AgreeRecipeLoop(ctx, id, bucket, k + 1, busy, s.cache, acc + [craft]);
        }
      }
    }
  }

  lemma AgreeIngredientLoop(ctx: Context, ingredients: seq<Ingredient>, j: nat, busy: set<int>, cache: Cache,
                            acc: seq<IngredientReport>)
    requires j <= |ingredients|
    requires YieldsNonZero(ctx.db) && CacheOk(cache) && ReportsOk(acc)
    requires !CycleMet(IngredientLoop(ctx, ingredients, j, busy, cache, acc).result)
    ensures SkipIngredientLoop(ctx, ingredients, j, busy, cache, acc) == IngredientLoop(ctx, ingredients, j, busy, cache, acc)
    decreases |ItemKeys(ctx.db) - busy|, 4, |ingredients| - j
  {
    if j < |ingredients| {
      var s := Optimal(ctx, ingredients[j].item, busy, cache);
      IngredientLoopStep(ctx, ingredients, j, busy, cache, acc);
      AgreeOptimal(ctx, ingredients[j].item, busy, cache);
      if s.result.Success? && s.result.value.Some? {
        AgreeIngredientLoop(ctx, ingredients, j + 1, busy, s.cache,
                            acc + [IngredientReport(ingredients[j].count, s.result.value.value)]);
      }
    }
  }
}
