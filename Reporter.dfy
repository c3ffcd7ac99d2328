/** The cost and profitability reporter of source/db/reporter.ts. An item
    can be bought from a vendor, bought on the market board, or crafted from
    one of its recipes, each ingredient at its own optimal cost; the
    possibilities of an item are memoised in a per-reporter cache.

    The recursion is specified by state-passing functions that thread the
    cache; the `Reporter` class runs the same recursion as methods over its
    `cache` field and is proved equal to those functions. `busy` holds the
    items whose possibilities are being computed further up the recursion:
    the source recurses without end when recipes form a cycle (until the
    JavaScript stack overflows and throws), which the model reports as the
    error `Cycle` at the first re-entry. */
module Reporter {
  import opened Wrappers
  import opened Catalog
  import opened MarketBoard

  // ----------------------------------------------------------------- data

  datatype CostReport =
    | Vendor(item: int, price: real)
    | Market(item: int, price: real)
    | Craft(item: int, price: real, count: int, ingredients: seq<IngredientReport>)

  datatype IngredientReport = IngredientReport(count: int, costReport: CostReport)

  datatype RecipeProfitability = RecipeProfitability(
    recipeId: int, itemId: int, name: string, hq: bool,
    velocity: real, price: real, cost: real, profit: real,
    ingredients: seq<IngredientReport>)

  datatype ReportError =
    | CatalogErr(catalogError: CatalogError)  // a `getItem`/`getRecipe`/... that threw
    | BoardErr(message: string)               // a market board read before any data
    | Cycle(item: int)                        // the unbounded recursion of a recipe cycle

  type Cache = map<int, seq<CostReport>>

  /** A result together with the cache as it stands afterwards: entries
      stored before an error are kept, as the source's map keeps them. */
  datatype Step<T> = Step(result: Result<T, ReportError>, cache: Cache)

  /** What the reporter reads: the catalog and the data the two boards serve
      at the time of the call. */
  datatype Context = Context(db: Catalog, sellData: Option<Snapshot>, buyData: Option<Snapshot>)

  /** The ids of the item table, the measure of the recursion. */
  function ItemKeys(db: Catalog): set<int>
  {
    db.itemTable.entries.Keys
  }

  /** Every recipe yields a non-zero count: the division by the yield of a
      crafted ingredient is then defined. */
  ghost predicate YieldsNonZero(db: Catalog)
  {
    forall k :: k in db.recipeTable.entries ==> db.recipeTable.entries[k].count != 0
  }

  /** Rank of a possibility: vendor, then market, then the crafts. */
  function Rank(p: CostReport): nat
  {
    match p
    case Vendor(_, _) => 0
    case Market(_, _) => 1
    case Craft(_, _, _, _) => 2
  }

  /** A possibility list of item `id`: every entry is for `id`, at most one
      vendor entry comes first, at most one market entry next, the crafts
      last, and every craft has a non-zero yield. */
  ghost predicate Possibilities(id: int, ps: seq<CostReport>)
  {
    && (forall i :: 0 <= i < |ps| ==> ps[i].item == id && (ps[i].Craft? ==> ps[i].count != 0))
    && (forall i, j :: 0 <= i < j < |ps| ==> Rank(ps[i]) < Rank(ps[j]) || (ps[i].Craft? && ps[j].Craft?))
  }

  ghost predicate CacheOk(cache: Cache)
  {
    forall k :: k in cache ==> Possibilities(k, cache[k])
  }

  ghost predicate ReportOk(p: CostReport)
  {
    p.Craft? ==> p.count != 0
  }

  ghost predicate ReportsOk(rs: seq<IngredientReport>)
  {
    forall i :: 0 <= i < |rs| ==> ReportOk(rs[i].costReport)
  }

  /** The later cache keeps every entry of the earlier one. */
  ghost predicate Extends(before: Cache, after: Cache)
  {
    forall k :: k in before ==> k in after && after[k] == before[k]
  }

  // ------------------------------------------------------------- pricing

  /** `Math.round`: the nearest integer, halves rounded up. */
  function Round(x: real): real
  {
    (x + 1.0 / 2.0).Floor as real
  }

  lemma RoundSpec(x: real)
    ensures Round(x).Floor as real == Round(x)
    ensures x - 1.0 / 2.0 < Round(x) <= x + 1.0 / 2.0
  {
  }

  /** How many units of the ingredient's report a recipe consumes: a crafted
      ingredient counts in crafts of its recipe's yield. */
  function Factor(r: IngredientReport): (f: real)
    requires ReportOk(r.costReport)
    ensures r.costReport.Craft? ==> f * r.costReport.count as real == r.count as real
    ensures !r.costReport.Craft? ==> f == r.count as real
  {
    if r.costReport.Craft? then r.count as real / r.costReport.count as real else r.count as real
  }

  /** The `reduce` over the ingredient reports, starting from 0 and rounding
      after every addition. */
  function CraftPrice(rs: seq<IngredientReport>): (price: real)
    requires ReportsOk(rs)
    ensures price.Floor as real == price
  {
    if rs == [] then 0.0
    else
      Round(CraftPrice(rs[..|rs| - 1]) + UnitsCost(rs[|rs| - 1]))
  }

  /** What the units of one ingredient report consumed cost, unrounded. */
  function UnitsCost(r: IngredientReport): real
    requires ReportOk(r.costReport)
  {
    Factor(r) * r.costReport.price
  }

  /** Adding an integer commutes with rounding. */
  lemma RoundShift(n: int, x: real)
    ensures Round(n as real + x) == n as real + Round(x)
  {
    var f := (x + 1.0 / 2.0).Floor;
    var y := n as real + x + 1.0 / 2.0;
    assert f as real <= x + 1.0 / 2.0 < f as real + 1.0;
    assert (n + f) as real <= y < (n + f) as real + 1.0;
    assert y.Floor == n + f;
  }

  /** The price of every ingredient report on its own: the units consumed
      times the unit price, rounded. */
  function Term(r: IngredientReport): real
    requires ReportOk(r.costReport)
  {
    Round(UnitsCost(r))
  }

  /** The rounded terms added up. */
  ghost function TermSum(rs: seq<IngredientReport>): real
    requires ReportsOk(rs)
  {
    if rs == [] then 0.0 else TermSum(rs[..|rs| - 1]) + Term(rs[|rs| - 1])
  }

  /** Because the running total stays an integer, rounding after every
      addition is the same as adding up the individually rounded terms. */
  lemma {:induction false} CraftPriceSum(rs: seq<IngredientReport>)
    requires ReportsOk(rs)
    ensures CraftPrice(rs) == TermSum(rs)
  {
    if rs != [] {
      var init := rs[..|rs| - 1];
      var last := rs[|rs| - 1];
      assert ReportsOk(init) by {
        assert forall i :: 0 <= i < |init| ==> init[i] == rs[i];
      }
      CraftPriceSum(init);
      var n := CraftPrice(init).Floor;
      RoundShift(n, UnitsCost(last));
    }
  }

  /** The `reduce` without a seed: a possibility replaces the cheapest so far
      only when it is strictly cheaper. */
  function Cheapest(ps: seq<CostReport>): (c: CostReport)
    requires |ps| > 0
    ensures c in ps
  {
    if |ps| == 1 then ps[0]
    else
      var c := Cheapest(ps[..|ps| - 1]);
      var current := ps[|ps| - 1];
      if c.price > current.price then current else c
  }

  /** The optimal report: `null` when there is no possibility. */
  function Best(ps: seq<CostReport>): Option<CostReport>
  {
    if ps == [] then None else Some(Cheapest(ps))
  }

  /** The reduce picks a cheapest possibility, and among the cheapest the
      first one. */
  lemma {:induction false} CheapestSpec(ps: seq<CostReport>)
    requires |ps| > 0
    ensures forall i :: 0 <= i < |ps| ==> Cheapest(ps).price <= ps[i].price
    ensures exists i ::
      && 0 <= i < |ps| && ps[i] == Cheapest(ps)
      && forall j :: 0 <= j < i ==> ps[j].price > ps[i].price
  {
    if |ps| > 1 {
      var init := ps[..|ps| - 1];
      var last := |ps| - 1;
      CheapestSpec(init);
      assert forall j :: 0 <= j < last ==> ps[j] == init[j];
      var i :| 0 <= i < |init| && init[i] == Cheapest(init) &&
        forall j :: 0 <= j < i ==> init[j].price > init[i].price;
      if Cheapest(init).price > ps[last].price {
        assert ps[last] == Cheapest(ps);
        assert forall j :: 0 <= j < last ==> ps[j].price > ps[last].price;
      } else {
        assert ps[i] == Cheapest(ps);
        assert forall j :: 0 <= j < i ==> ps[j].price > ps[i].price;
      }
    } else {
      assert ps[0] == Cheapest(ps);
    }
  }

  lemma BestReportOk(ps: seq<CostReport>, id: int)
    requires Possibilities(id, ps)
    ensures Best(ps).Some? ==> ReportOk(Best(ps).value) && Best(ps).value.item == id
  {
    if ps != [] {
      CheapestSpec(ps);
    }
  }

  // ----------------------------------------------------- the possibilities

  /** The vendor possibility: a vendor price that is present and non-zero. */
  function VendorPart(id: int, item: Item): (r: seq<CostReport>)
    ensures |r| <= 1 && forall i :: 0 <= i < |r| ==> r[i].Vendor? && r[i].item == id
    ensures r != [] <==> item.vendorPrice.Some? && item.vendorPrice.value != 0
    ensures r != [] ==> r[0].price == item.vendorPrice.value as real
  {
    if item.vendorPrice.Some? && item.vendorPrice.value != 0 then [Vendor(id, item.vendorPrice.value as real)]
    else []
  }

  /** The market possibility: for an item with a non-zero search category,
      the buy board's NQ price when the board has an entry for it. Reading a
      board with no data throws. */
  function MarketPart(ctx: Context, id: int, item: Item): (r: Result<seq<CostReport>, ReportError>)
    ensures r.Success? ==> |r.value| <= 1 && forall i :: 0 <= i < |r.value| ==> r.value[i].Market? && r.value[i].item == id
    ensures var listed := item.itemSearchCategory.Some? && item.itemSearchCategory.value != 0;
      && (r.Failure? <==> listed && ctx.buyData.None?)
      && (r.Success? && r.value != [] <==> listed && ctx.buyData.Some? && item.id as real in ctx.buyData.value)
      && (r.Success? && r.value != [] ==> r.value[0].price == ctx.buyData.value[item.id as real].nq.price)
  {
    if item.itemSearchCategory.Some? && item.itemSearchCategory.value != 0 then
      match Lookup(ctx.buyData, item.id)
      case Failure(message) => Failure(BoardErr(message))
      case Success(None) => Success([])
      case Success(Some(info)) => Success([Market(id, info.nq.price)])
    else Success([])
  }

  /** The vendor and market possibilities form a possibility list. */
  lemma FrontPossibilities(ctx: Context, id: int, item: Item, market: seq<CostReport>)
    requires MarketPart(ctx, id, item) == Success(market)
    ensures Possibilities(id, VendorPart(id, item) + market)
  {
  }

  lemma Shrinks(keys: set<int>, busy: set<int>, id: int)
    requires id in keys && id !in busy
    ensures |keys - (busy + {id})| < |keys - busy|
  {
    assert keys - (busy + {id}) == (keys - busy) - {id};
  }

  /** `optimalCostReportForItem`. */
  function Optimal(ctx: Context, id: int, busy: set<int>, cache: Cache): (r: Step<Option<CostReport>>)
    requires YieldsNonZero(ctx.db) && CacheOk(cache)
    ensures CacheOk(r.cache) && Extends(cache, r.cache)
    ensures r.result.Success? ==> id in r.cache && r.result.value == Best(r.cache[id])
    ensures r.result.Success? && r.result.value.Some? ==> ReportOk(r.result.value.value)
    decreases |ItemKeys(ctx.db) - busy|, 3, 0
  {
    var s := CostReports(ctx, id, busy, cache);
    match s.result
    case Failure(e) => Step(Failure(e), s.cache)
    case Success(ps) =>
      BestReportOk(ps, id);
      Step(Success(Best(ps)), s.cache)
  }

  /** `costReportsForItem`: the cached list when there is one; otherwise the
      vendor, market and craft possibilities, in that order, stored in the
      cache before they are returned. */
  function CostReports(ctx: Context, id: int, busy: set<int>, cache: Cache): (r: Step<seq<CostReport>>)
    requires YieldsNonZero(ctx.db) && CacheOk(cache)
    ensures CacheOk(r.cache) && Extends(cache, r.cache)
    ensures r.result.Success? ==> id in r.cache && r.cache[id] == r.result.value
    ensures id in cache ==> r == Step(Success(cache[id]), cache)
    decreases |ItemKeys(ctx.db) - busy|, 2, 0
  {
    if id in cache then Step(Success(cache[id]), cache)
    else if id in busy then Step(Failure(Cycle(id)), cache)
    else match ctx.db.GetItem(id)
      case Failure(e) => Step(Failure(CatalogErr(e)), cache)
      case Success(item) =>
        match MarketPart(ctx, id, item)
        case Failure(e) => Step(Failure(e), cache)
        case Success(market) =>
          Shrinks(ItemKeys(ctx.db), busy, id);
          FrontPossibilities(ctx, id, item, market);
          var s := RecipeLoop(ctx, id, ctx.db.RecipeIdsForItem(id), 0, busy + {id}, cache, VendorPart(id, item) + market);
          match s.result
          case Failure(e) => Step(Failure(e), s.cache)
          case Success(ps) =>
            CacheStore(s.cache, id, ps);
            Step(Success(ps), s.cache[id := ps])
  }

  /** The recipe loop over the recipe ids of the item's bucket: each recipe
      is fetched, then its ingredients; a recipe one of whose ingredients
      has no cost report is skipped. */
  function RecipeLoop(ctx: Context, id: int, bucket: seq<int>, k: nat, busy: set<int>, cache: Cache,
                      acc: seq<CostReport>): (r: Step<seq<CostReport>>)
    requires k <= |bucket|
    requires YieldsNonZero(ctx.db) && CacheOk(cache) && Possibilities(id, acc)
    ensures CacheOk(r.cache) && Extends(cache, r.cache)
    ensures r.result.Success? ==> Possibilities(id, r.result.value)
    ensures r.result.Success? ==> |acc| <= |r.result.value| && r.result.value[..|acc|] == acc
    ensures r.result.Success? ==> forall i :: |acc| <= i < |r.result.value| ==> r.result.value[i].Craft?
    decreases |ItemKeys(ctx.db) - busy|, 5, |bucket| - k
  {
    if k == |bucket| then Step(Success(acc), cache)
    else match ctx.db.GetRecipe(bucket[k])
      case Failure(e) => Step(Failure(CatalogErr(e)), cache)
      case Success(recipe) =>
        match ctx.db.GetIngredientsForRecipe(recipe.id)
        case Failure(e) => Step(Failure(CatalogErr(e)), cache)
        case Success(ingredients) =>
          var s := IngredientLoop(ctx, ingredients, 0, busy, cache, []);
          match s.result
          case Failure(e) => Step(Failure(e), s.cache)
          case Success(None) => RecipeLoop(ctx, id, bucket, k + 1, busy, s.cache, acc)
          case Success(Some(reports)) =>
            var craft := Craft(id, CraftPrice(reports), recipe.count, reports);
            AppendCraft(id, acc, craft);
            var r := RecipeLoop(ctx, id, bucket, k + 1, busy, s.cache, acc + [craft]);
            if r.result.Success? then
              CraftsAfter(acc, craft, r.result.value);
              r
            else r
  }

  /** Possibilities that extend `acc + [craft]` with crafts extend `acc`
      with crafts. */
  lemma CraftsAfter(acc: seq<CostReport>, craft: CostReport, ps: seq<CostReport>)
    requires craft.Craft? && |acc| + 1 <= |ps| && ps[..|acc| + 1] == acc + [craft]
    requires forall i :: |acc| + 1 <= i < |ps| ==> ps[i].Craft?
    ensures ps[..|acc|] == acc
    ensures forall i :: |acc| <= i < |ps| ==> ps[i].Craft?
  {
    assert ps[..|acc|] == ps[..|acc| + 1][..|acc|];
    assert ps[|acc|] == ps[..|acc| + 1][|acc|];
  }

  /** A craft may follow any possibilities of the same item. */
  lemma AppendCraft(id: int, acc: seq<CostReport>, craft: CostReport)
    requires Possibilities(id, acc) && craft.Craft? && craft.item == id && craft.count != 0
    ensures Possibilities(id, acc + [craft])
  {
  }

  /** The ingredient loop of one recipe: the optimal report of every
      ingredient, or `None` as soon as one has none. */
  function IngredientLoop(ctx: Context, ingredients: seq<Ingredient>, j: nat, busy: set<int>, cache: Cache,
                          acc: seq<IngredientReport>): (r: Step<Option<seq<IngredientReport>>>)
    requires j <= |ingredients|
    requires YieldsNonZero(ctx.db) && CacheOk(cache) && ReportsOk(acc)
    ensures CacheOk(r.cache) && Extends(cache, r.cache)
    ensures r.result.Success? && r.result.value.Some? ==> ReportsOk(r.result.value.value)
    decreases |ItemKeys(ctx.db) - busy|, 4, |ingredients| - j
  {
    if j == |ingredients| then Step(Success(Some(acc)), cache)
    else
      var s := Optimal(ctx, ingredients[j].item, busy, cache);
      match s.result
      case Failure(e) => Step(Failure(e), s.cache)
      case Success(None) => Step(Success(None), s.cache)
      case Success(Some(report)) =>
        IngredientLoop(ctx, ingredients, j + 1, busy, s.cache, acc + [IngredientReport(ingredients[j].count, report)])
  }

  // ------------------------------------------------------- cost lemmas

  /** The optimal report is a cheapest possibility of the item's (now
      cached) list, the first among equals, and there is none exactly when
      the list is empty. */
  lemma OptimalIsCheapest(ctx: Context, id: int, busy: set<int>, cache: Cache)
    requires YieldsNonZero(ctx.db) && CacheOk(cache)
    ensures var r := Optimal(ctx, id, busy, cache);
      r.result.Success? ==>
        && id in r.cache
        && (r.result.value.None? <==> r.cache[id] == [])
        && (r.result.value.Some? ==>
              && (forall i :: 0 <= i < |r.cache[id]| ==> r.result.value.value.price <= r.cache[id][i].price)
              && exists i :: 0 <= i < |r.cache[id]| && r.cache[id][i] == r.result.value.value &&
                   forall j :: 0 <= j < i ==> r.cache[id][j].price > r.cache[id][i].price)
  {
    var r := Optimal(ctx, id, busy, cache);
    if r.result.Success? && r.result.value.Some? {
      CheapestSpec(r.cache[id]);
    }
  }

  /** Memoisation: once the possibilities of an item are computed, asking
      again (from anywhere in the recursion) returns them unchanged and
      leaves the cache as it is. */
  lemma Memoised(ctx: Context, id: int, busy: set<int>, cache: Cache, again: set<int>)
    requires YieldsNonZero(ctx.db) && CacheOk(cache)
    requires CostReports(ctx, id, busy, cache).result.Success?
    ensures var r := CostReports(ctx, id, busy, cache);
      && CostReports(ctx, id, again, r.cache) == r
      && Optimal(ctx, id, again, r.cache) == Step(Success(Best(r.result.value)), r.cache)
  {
  }

  /** A freshly computed list starts with the vendor possibility (exactly
      when the vendor price is present and non-zero), then the market one,
      and continues with crafts only. */
  lemma PossibilityOrder(ctx: Context, id: int, busy: set<int>, cache: Cache)
    requires YieldsNonZero(ctx.db) && CacheOk(cache)
    requires id !in cache && id !in busy
    requires CostReports(ctx, id, busy, cache).result.Success?
    ensures ctx.db.GetItem(id).Success?
    ensures MarketPart(ctx, id, ctx.db.GetItem(id).value).Success?
    ensures var ps := CostReports(ctx, id, busy, cache).result.value;
      var front := VendorPart(id, ctx.db.GetItem(id).value) + MarketPart(ctx, id, ctx.db.GetItem(id).value).value;
      && |front| <= |ps| && ps[..|front|] == front
      && forall i :: |front| <= i < |ps| ==> ps[i].Craft?
  {
  }

  /** A craft possibility exists only for an item that has a recipe in its
      bucket: an item no recipe produces is priced by vendor and market
      alone. */
  lemma {:induction false} CraftsNeedRecipes(ctx: Context, id: int, bucket: seq<int>, k: nat, busy: set<int>, cache: Cache, acc: seq<CostReport>)
    requires k <= |bucket|
    requires YieldsNonZero(ctx.db) && CacheOk(cache) && Possibilities(id, acc)
    requires RecipeLoop(ctx, id, bucket, k, busy, cache, acc).result.Success?
    ensures |RecipeLoop(ctx, id, bucket, k, busy, cache, acc).result.value| <= |acc| + (|bucket| - k)
    decreases |bucket| - k
  {
    if k < |bucket| {
      var recipe := ctx.db.GetRecipe(bucket[k]).value;
      var s := IngredientLoop(ctx, ctx.db.GetIngredientsForRecipe(recipe.id).value, 0, busy, cache, []);
      if s.result.value.None? {
        CraftsNeedRecipes(ctx, id, bucket, k + 1, busy, s.cache, acc);
      } else {
        var reports := s.result.value.value;
        CraftsNeedRecipes(ctx, id, bucket, k + 1, busy, s.cache, acc + [Craft(id, CraftPrice(reports), recipe.count, reports)]);
      }
    }
  }

  // ------------------------------------------------------- profitability

  /** The grade reported: HQ when it sells strictly faster, NQ otherwise. */
  function Grade(info: MarketBoardInfo): (g: GradeInfo)
    ensures g == info.hq || g == info.nq
    ensures g.velocity >= info.nq.velocity && g.velocity >= info.hq.velocity
    ensures info.hq.velocity == info.nq.velocity ==> g == info.nq
  {
    if info.hq.velocity > info.nq.velocity then info.hq else info.nq
  }

  /** Profit after the 5% market tax on the sale and a 5% margin on the
      cost, rounded. */
  ghost predicate ProfitConsistent(e: RecipeProfitability)
  {
    e.profit == Round(e.price * (95.0 / 100.0) - e.cost * (105.0 / 100.0))
  }

  function ProfitEntry(recipe: Recipe, item: Item, cost: CostReport, info: MarketBoardInfo): (e: RecipeProfitability)
    requires cost.Craft?
    ensures ProfitConsistent(e)
    ensures e.recipeId == recipe.id && e.itemId == item.id && e.name == item.name
    ensures e.cost == cost.price && e.ingredients == cost.ingredients
    ensures var g := Grade(info); e.hq == g.hq && e.velocity == g.velocity && e.price == g.price
    ensures e.profit.Floor as real == e.profit
  {
    var g := Grade(info);
    RecipeProfitability(recipe.id, item.id, item.name, g.hq, g.velocity, g.price, cost.price,
      Round(g.price * (95.0 / 100.0) - cost.price * (105.0 / 100.0)), cost.ingredients)
  }

  /** One recipe of the report: its output item, the optimal report of that
      item (the recipe is skipped unless it is a craft), and the item's entry
      on the sell board (skipped when absent). */
  function ProfitFor(ctx: Context, recipe: Recipe, cache: Cache): (r: Step<Option<RecipeProfitability>>)
    requires YieldsNonZero(ctx.db) && CacheOk(cache)
    ensures CacheOk(r.cache) && Extends(cache, r.cache)
    ensures r.result.Success? && r.result.value.Some? ==>
      ProfitConsistent(r.result.value.value) && r.result.value.value.recipeId == recipe.id
  {
    match ctx.db.GetItem(recipe.item)
    case Failure(e) => Step(Failure(CatalogErr(e)), cache)
    case Success(item) =>
      var s := Optimal(ctx, item.id, {}, cache);
      match s.result
      case Failure(e) => Step(Failure(e), s.cache)
      case Success(None) => Step(Success(None), s.cache)
      case Success(Some(cost)) =>
        if !cost.Craft? then Step(Success(None), s.cache)
        else match Lookup(ctx.sellData, item.id)
          case Failure(message) => Step(Failure(BoardErr(message)), s.cache)
          case Success(None) => Step(Success(None), s.cache)
          case Success(Some(info)) => Step(Success(Some(ProfitEntry(recipe, item, cost, info))), s.cache)
  }

  /** A recipe gets an entry exactly when its item exists, the item's optimal
      report is a craft and the sell board has the item; the entry carries
      that craft's cost and ingredients. */
  lemma ProfitForSpec(ctx: Context, recipe: Recipe, cache: Cache)
    requires YieldsNonZero(ctx.db) && CacheOk(cache)
    ensures var r := ProfitFor(ctx, recipe, cache);
      (r.result.Success? && r.result.value.Some?) <==>
        && ctx.db.GetItem(recipe.item).Success?
        && var id := ctx.db.GetItem(recipe.item).value.id;
           && Optimal(ctx, id, {}, cache).result.Success?
           && Optimal(ctx, id, {}, cache).result.value.Some?
           && Optimal(ctx, id, {}, cache).result.value.value.Craft?
           && Lookup(ctx.sellData, id).Success?
           && Lookup(ctx.sellData, id).value.Some?
    ensures var r := ProfitFor(ctx, recipe, cache);
      r.result.Success? && r.result.value.Some? ==>
        var id := ctx.db.GetItem(recipe.item).value.id;
        var cost := Optimal(ctx, id, {}, cache).result.value.value;
        var e := r.result.value.value;
        && e == ProfitEntry(recipe, ctx.db.GetItem(recipe.item).value, cost, Lookup(ctx.sellData, id).value.value)
        && e.cost == cost.price && e.ingredients == cost.ingredients
  {
  }

  /** The report as the generator produces it: the entries yielded, in recipe
      order, and the error that ended it early, if any. */
  datatype Report = Report(entries: seq<RecipeProfitability>, error: Option<ReportError>, cache: Cache)

  function ProfitLoop(ctx: Context, recipes: seq<Recipe>, k: nat, cache: Cache, acc: seq<RecipeProfitability>): (r: Report)
    requires k <= |recipes|
    requires YieldsNonZero(ctx.db) && CacheOk(cache)
    ensures CacheOk(r.cache) && Extends(cache, r.cache)
    ensures |acc| <= |r.entries| <= |acc| + (|recipes| - k) && r.entries[..|acc|] == acc
    ensures forall i :: |acc| <= i < |r.entries| ==> ProfitConsistent(r.entries[i])
    decreases |recipes| - k
  {
    if k == |recipes| then Report(acc, None, cache)
    else
      var s := ProfitFor(ctx, recipes[k], cache);
      match s.result
      case Failure(e) => Report(acc, Some(e), s.cache)
      case Success(None) => ProfitLoop(ctx, recipes, k + 1, s.cache, acc)
      case Success(Some(e)) =>
        var r := ProfitLoop(ctx, recipes, k + 1, s.cache, acc + [e]);
        assert r.entries[..|acc|] == (acc + [e])[..|acc|];
        r
  }

  lemma ProfitLoopStep(ctx: Context, recipes: seq<Recipe>, k: nat, cache: Cache, acc: seq<RecipeProfitability>)
    requires k < |recipes|
    requires YieldsNonZero(ctx.db) && CacheOk(cache)
    ensures var s := ProfitFor(ctx, recipes[k], cache);
      ProfitLoop(ctx, recipes, k, cache, acc) ==
        if s.result.Failure? then Report(acc, Some(s.result.error), s.cache)
        else if s.result.value.None? then ProfitLoop(ctx, recipes, k + 1, s.cache, acc)
        else ProfitLoop(ctx, recipes, k + 1, s.cache, acc + [s.result.value.value])
  {
  }

  lemma ReportsMiss(ctx: Context, id: int, busy: set<int>, cache: Cache, item: Item, market: seq<CostReport>)
    requires YieldsNonZero(ctx.db) && CacheOk(cache)
    requires id !in cache && id !in busy
    requires ctx.db.GetItem(id) == Success(item) && MarketPart(ctx, id, item) == Success(market)
    ensures id in ItemKeys(ctx.db)
    ensures var s := RecipeLoop(ctx, id, ctx.db.RecipeIdsForItem(id), 0, busy + {id}, cache, VendorPart(id, item) + market);
      CostReports(ctx, id, busy, cache) ==
        if s.result.Failure? then Step(Failure(s.result.error), s.cache)
        else Step(s.result, s.cache[id := s.result.value])
  {
  }

  lemma RecipeLoopStep(ctx: Context, id: int, bucket: seq<int>, k: nat, busy: set<int>, cache: Cache,
                       acc: seq<CostReport>, recipe: Recipe, ingredients: seq<Ingredient>)
    requires k < |bucket|
    requires YieldsNonZero(ctx.db) && CacheOk(cache) && Possibilities(id, acc)
    requires ctx.db.GetRecipe(bucket[k]) == Success(recipe)
    requires ctx.db.GetIngredientsForRecipe(recipe.id) == Success(ingredients)
    ensures recipe.count != 0
    ensures var s := IngredientLoop(ctx, ingredients, 0, busy, cache, []);
      RecipeLoop(ctx, id, bucket, k, busy, cache, acc) ==
        if s.result.Failure? then Step(Failure(s.result.error), s.cache)
        else if s.result.value.None? then RecipeLoop(ctx, id, bucket, k + 1, busy, s.cache, acc)
        else RecipeLoop(ctx, id, bucket, k + 1, busy, s.cache,
               acc + [Craft(id, CraftPrice(s.result.value.value), recipe.count, s.result.value.value)])
  {
  }

  lemma IngredientLoopStep(ctx: Context, ingredients: seq<Ingredient>, j: nat, busy: set<int>, cache: Cache,
                           acc: seq<IngredientReport>)
    requires j < |ingredients|
    requires YieldsNonZero(ctx.db) && CacheOk(cache) && ReportsOk(acc)
    ensures var s := Optimal(ctx, ingredients[j].item, busy, cache);
      IngredientLoop(ctx, ingredients, j, busy, cache, acc) ==
        if s.result.Failure? then Step(Failure(s.result.error), s.cache)
        else if s.result.value.None? then Step(Success(None), s.cache)
        else IngredientLoop(ctx, ingredients, j + 1, busy, s.cache,
               acc + [IngredientReport(ingredients[j].count, s.result.value.value)])
  {
  }

  lemma CacheStore(cache: Cache, id: int, ps: seq<CostReport>)
    requires CacheOk(cache) && Possibilities(id, ps)
    ensures CacheOk(cache[id := ps])
  {
  }

  // ------------------------------------------------ what the loops compute

  /** The cache knows an optimal report for the ingredient's item. */
  ghost predicate Resolved(cache: Cache, ing: Ingredient)
  {
    ing.item in cache && cache[ing.item] != []
  }

  /** The cache knows that the ingredient's item has no possibility at all. */
  ghost predicate Unobtainable(cache: Cache, ing: Ingredient)
  {
    ing.item in cache && cache[ing.item] == []
  }

  /** The cache knows an optimal report for every one of the ingredients. */
  ghost predicate AllResolved(cache: Cache, ingredients: seq<Ingredient>)
  {
    forall i :: 0 <= i < |ingredients| ==> Resolved(cache, ingredients[i])
  }

  /** The report of a resolved ingredient: its count and the cheapest
      possibility of its item. */
  ghost function ReportOf(cache: Cache, ing: Ingredient): (r: IngredientReport)
    requires CacheOk(cache) && Resolved(cache, ing)
    ensures ReportOk(r.costReport) && r.count == ing.count
  {
    var c := Cheapest(cache[ing.item]);
    assert Possibilities(ing.item, cache[ing.item]);
    IngredientReport(ing.count, c)
  }

  /** The reports of a recipe's ingredients, in ingredient order. */
  ghost function ReportsOf(cache: Cache, ingredients: seq<Ingredient>): (rs: seq<IngredientReport>)
    requires CacheOk(cache) && AllResolved(cache, ingredients)
    ensures |rs| == |ingredients| && forall i :: 0 <= i < |ingredients| ==> rs[i] == ReportOf(cache, ingredients[i])
    ensures ReportsOk(rs)
  {
    if ingredients == [] then []
    else [ReportOf(cache, ingredients[0])] + ReportsOf(cache, ingredients[1..])
  }

  /** The ingredient loop yields, after the reports it was given, the report
      of every remaining ingredient as the final cache determines it. */
  lemma {:induction false} IngredientLoopReports(ctx: Context, ingredients: seq<Ingredient>, j: nat, busy: set<int>,
                                                 cache: Cache, acc: seq<IngredientReport>)
    requires j <= |ingredients|
    requires YieldsNonZero(ctx.db) && CacheOk(cache) && ReportsOk(acc)
    ensures var r := IngredientLoop(ctx, ingredients, j, busy, cache, acc);
      r.result.Success? && r.result.value.Some? ==>
        && AllResolved(r.cache, ingredients[j..])
        && r.result.value.value == acc + ReportsOf(r.cache, ingredients[j..])
    decreases |ingredients| - j
  {
    if j < |ingredients| {
      var ing := ingredients[j];
      var s := Optimal(ctx, ing.item, busy, cache);
      IngredientLoopStep(ctx, ingredients, j, busy, cache, acc);
      if s.result.Success? && s.result.value.Some? {
        var next := acc + [IngredientReport(ing.count, s.result.value.value)];
        IngredientLoopReports(ctx, ingredients, j + 1, busy, s.cache, next);
        var r := IngredientLoop(ctx, ingredients, j + 1, busy, s.cache, next);
        assert s.result.value == Best(s.cache[ing.item]);
        if r.result.Success? && r.result.value.Some? {
          ReportsExtend(ingredients, j, acc, next[|acc|], s.cache, r.cache);
        }
      }
    } else {
      assert ingredients[j..] == [];
    }
  }

  /** One step of the ingredient loop's specification, away from the
      recursion: the report just appended is the one the later cache gives. */
  lemma ReportsExtend(ingredients: seq<Ingredient>, j: nat, acc: seq<IngredientReport>, x: IngredientReport,
                      early: Cache, late: Cache)
    requires j < |ingredients| && CacheOk(early) && CacheOk(late) && Extends(early, late)
    requires Resolved(early, ingredients[j])
    requires x == IngredientReport(ingredients[j].count, Cheapest(early[ingredients[j].item]))
    requires AllResolved(late, ingredients[j + 1..])
    ensures AllResolved(late, ingredients[j..])
    ensures acc + [x] + ReportsOf(late, ingredients[j + 1..]) == acc + ReportsOf(late, ingredients[j..])
  {
    var rest := ingredients[j..];
    assert rest[0] == ingredients[j] && rest[1..] == ingredients[j + 1..];
    assert x == ReportOf(late, rest[0]);
    ReportsCons(late, rest);
    assert acc + [x] + ReportsOf(late, rest[1..]) == acc + ([x] + ReportsOf(late, rest[1..]));
  }

  /** The reports of a non-empty ingredient list: the first one's, then the
      rest's. */
  lemma ReportsCons(cache: Cache, ingredients: seq<Ingredient>)
    requires CacheOk(cache) && |ingredients| > 0
    requires Resolved(cache, ingredients[0]) && AllResolved(cache, ingredients[1..])
    ensures AllResolved(cache, ingredients)
    ensures ReportsOf(cache, ingredients) == [ReportOf(cache, ingredients[0])] + ReportsOf(cache, ingredients[1..])
  {
    forall i | 1 <= i < |ingredients|
      ensures Resolved(cache, ingredients[i])
    {
      assert ingredients[i] == ingredients[1..][i - 1];
    }
  }

  /** The ingredient loop yields `None` only after meeting an ingredient the
      cache records as having no possibility. */
  lemma {:induction false} IngredientLoopGivesUp(ctx: Context, ingredients: seq<Ingredient>, j: nat, busy: set<int>,
                                                 cache: Cache, acc: seq<IngredientReport>)
    requires j <= |ingredients|
    requires YieldsNonZero(ctx.db) && CacheOk(cache) && ReportsOk(acc)
    ensures var r := IngredientLoop(ctx, ingredients, j, busy, cache, acc);
      r.result == Success(None) ==> exists i :: j <= i < |ingredients| && Unobtainable(r.cache, ingredients[i])
    decreases |ingredients| - j
  {
    if j < |ingredients| {
      var ing := ingredients[j];
      var s := Optimal(ctx, ing.item, busy, cache);
      IngredientLoopStep(ctx, ingredients, j, busy, cache, acc);
      if s.result == Success(None) {
        assert Unobtainable(s.cache, ingredients[j]);
      } else if s.result.Success? {
        var next := acc + [IngredientReport(ing.count, s.result.value.value)];
        IngredientLoopGivesUp(ctx, ingredients, j + 1, busy, s.cache, next);
      }
    }
  }

  /** The loop over a recipe's ingredients, as the recipe loop starts it:
      on success its option is `None` exactly when it met an ingredient the
      final cache records as having no possibility, and otherwise it holds
      the report of every ingredient, in order, as the final cache
      determines it. */
  lemma IngredientLoopSpec(ctx: Context, ingredients: seq<Ingredient>, busy: set<int>, cache: Cache)
    requires YieldsNonZero(ctx.db) && CacheOk(cache)
    ensures var r := IngredientLoop(ctx, ingredients, 0, busy, cache, []);
      r.result.Success? && r.result.value.Some? ==>
        AllResolved(r.cache, ingredients) && r.result.value.value == ReportsOf(r.cache, ingredients)
    ensures var r := IngredientLoop(ctx, ingredients, 0, busy, cache, []);
      r.result == Success(None) <==>
        r.result.Success? && exists i :: 0 <= i < |ingredients| && Unobtainable(r.cache, ingredients[i])
  {
    IngredientLoopReports(ctx, ingredients, 0, busy, cache, []);
    IngredientLoopGivesUp(ctx, ingredients, 0, busy, cache, []);
    assert ingredients[0..] == ingredients;
  }

  /** The craft possibility one recipe of the bucket contributes, judged by
      a cache: none unless the recipe and its ingredients are found and the
      cache resolves every ingredient. */
  ghost function CraftOf(ctx: Context, id: int, recipeId: int, cache: Cache): seq<CostReport>
    requires CacheOk(cache)
  {
    match ctx.db.GetRecipe(recipeId)
    case Failure(_) => []
    case Success(recipe) =>
      match ctx.db.GetIngredientsForRecipe(recipe.id)
      case Failure(_) => []
      case Success(ingredients) =>
        if AllResolved(cache, ingredients) then
          var reports := ReportsOf(cache, ingredients);
          [Craft(id, CraftPrice(reports), recipe.count, reports)]
        else []
  }

  /** The crafts of recipes k.. of the bucket, in bucket order. */
  ghost function CraftsFrom(ctx: Context, id: int, bucket: seq<int>, k: nat, cache: Cache): seq<CostReport>
    requires k <= |bucket| && CacheOk(cache)
    decreases |bucket| - k
  {
    if k == |bucket| then [] else CraftOf(ctx, id, bucket[k], cache) + CraftsFrom(ctx, id, bucket, k + 1, cache)
  }

  /** A recipe with an ingredient the earlier cache records as having no
      possibility contributes nothing, judged by any later cache. */
  lemma CraftOfSkipped(ctx: Context, id: int, recipeId: int, recipe: Recipe, ingredients: seq<Ingredient>,
                       early: Cache, late: Cache, i: int)
    requires CacheOk(early) && CacheOk(late) && Extends(early, late)
    requires ctx.db.GetRecipe(recipeId) == Success(recipe)
    requires ctx.db.GetIngredientsForRecipe(recipe.id) == Success(ingredients)
    requires 0 <= i < |ingredients| && Unobtainable(early, ingredients[i])
    ensures CraftOf(ctx, id, recipeId, late) == []
  {
    assert !Resolved(late, ingredients[i]);
  }

  /** A recipe whose ingredients the earlier cache resolves contributes the
      craft priced from their reports, judged by any later cache. */
  lemma CraftOfKept(ctx: Context, id: int, recipeId: int, recipe: Recipe, ingredients: seq<Ingredient>,
                    early: Cache, late: Cache, reports: seq<IngredientReport>)
    requires CacheOk(early) && CacheOk(late) && Extends(early, late)
    requires ctx.db.GetRecipe(recipeId) == Success(recipe)
    requires ctx.db.GetIngredientsForRecipe(recipe.id) == Success(ingredients)
    requires AllResolved(early, ingredients) && reports == ReportsOf(early, ingredients)
    ensures CraftOf(ctx, id, recipeId, late) == [Craft(id, CraftPrice(reports), recipe.count, reports)]
  {
    assert AllResolved(late, ingredients);
    assert reports == ReportsOf(late, ingredients);
  }

  /** The recipe loop appends to the possibilities it was given exactly the
      crafts of the bucket's recipes whose ingredients all have an optimal
      report, each priced from those reports, in bucket order. */
  lemma {:induction false} RecipeLoopSpec(ctx: Context, id: int, bucket: seq<int>, k: nat, busy: set<int>,
                                          cache: Cache, acc: seq<CostReport>)
    requires k <= |bucket|
    requires YieldsNonZero(ctx.db) && CacheOk(cache) && Possibilities(id, acc)
    ensures var r := RecipeLoop(ctx, id, bucket, k, busy, cache, acc);
      r.result.Success? ==> r.result.value == acc + CraftsFrom(ctx, id, bucket, k, r.cache)
    decreases |bucket| - k
  {
    var r := RecipeLoop(ctx, id, bucket, k, busy, cache, acc);
    if k == |bucket| {
      assert r == Step(Success(acc), cache);
    } else if ctx.db.GetRecipe(bucket[k]).Success? {
      var recipe := ctx.db.GetRecipe(bucket[k]).value;
      if ctx.db.GetIngredientsForRecipe(recipe.id).Success? {
        var ingredients := ctx.db.GetIngredientsForRecipe(recipe.id).value;
        RecipeLoopStep(ctx, id, bucket, k, busy, cache, acc, recipe, ingredients);
        var s := IngredientLoop(ctx, ingredients, 0, busy, cache, []);
        IngredientLoopSpec(ctx, ingredients, busy, cache);
        if s.result == Success(None) {
          var rest := RecipeLoop(ctx, id, bucket, k + 1, busy, s.cache, acc);
          RecipeLoopSpec(ctx, id, bucket, k + 1, busy, s.cache, acc);
          assert r == rest;
          if rest.result.Success? {
            var i :| 0 <= i < |ingredients| && Unobtainable(s.cache, ingredients[i]);
            CraftOfSkipped(ctx, id, bucket[k], recipe, ingredients, s.cache, rest.cache, i);
            CraftsFromCons(ctx, id, bucket, k, rest.cache, acc, []);
          }
        } else if s.result.Success? {
          var reports := s.result.value.value;
          var craft := Craft(id, CraftPrice(reports), recipe.count, reports);
          AppendCraft(id, acc, craft);
          var rest := RecipeLoop(ctx, id, bucket, k + 1, busy, s.cache, acc + [craft]);
          RecipeLoopSpec(ctx, id, bucket, k + 1, busy, s.cache, acc + [craft]);
          assert r == rest;
          if rest.result.Success? {
            CraftOfKept(ctx, id, bucket[k], recipe, ingredients, s.cache, rest.cache, reports);
            CraftsFromCons(ctx, id, bucket, k, rest.cache, acc, [craft]);
          }
        } else {
          assert r.result.Failure?;
        }
      } else {
        assert r.result.Failure?;
      }
    } else {
      assert r.result.Failure?;
    }
  }

  /** Unfolding `CraftsFrom` once, after an accumulator. */
  lemma CraftsFromCons(ctx: Context, id: int, bucket: seq<int>, k: nat, cache: Cache,
                       acc: seq<CostReport>, crafts: seq<CostReport>)
    requires k < |bucket| && CacheOk(cache)
    requires CraftOf(ctx, id, bucket[k], cache) == crafts
    ensures acc + crafts + CraftsFrom(ctx, id, bucket, k + 1, cache) == acc + CraftsFrom(ctx, id, bucket, k, cache)
  {
  }

  /** Once a recipe's outcome is a success, the same outcome is computed from
      any later cache: the item's possibilities are then a cache hit. */
  lemma ProfitForStable(ctx: Context, recipe: Recipe, cache: Cache, later: Cache)
    requires YieldsNonZero(ctx.db) && CacheOk(cache) && CacheOk(later)
    requires ProfitFor(ctx, recipe, cache).result.Success?
    requires Extends(ProfitFor(ctx, recipe, cache).cache, later)
    ensures ProfitFor(ctx, recipe, later).result == ProfitFor(ctx, recipe, cache).result
  {
    var item := ctx.db.GetItem(recipe.item).value;
    var s := Optimal(ctx, item.id, {}, cache);
    assert Optimal(ctx, item.id, {}, later).result == s.result;
  }

  /** The cache after recipes k..m-1 of the report have been priced. */
  ghost function CacheAfter(ctx: Context, recipes: seq<Recipe>, k: nat, m: nat, cache: Cache): (c: Cache)
    requires k <= m <= |recipes| && YieldsNonZero(ctx.db) && CacheOk(cache)
    ensures CacheOk(c) && Extends(cache, c)
    decreases m - k
  {
    if k == m then cache else CacheAfter(ctx, recipes, k + 1, m, ProfitFor(ctx, recipes[k], cache).cache)
  }

  /** The entries recipes k..m-1 get when each is priced against `cache`,
      in recipe order. */
  ghost function EntriesOn(ctx: Context, recipes: seq<Recipe>, k: nat, m: nat, cache: Cache): seq<RecipeProfitability>
    requires k <= m <= |recipes| && YieldsNonZero(ctx.db) && CacheOk(cache)
    decreases m - k
  {
    if k == m then []
    else
      EntryOf(ProfitFor(ctx, recipes[k], cache).result) + EntriesOn(ctx, recipes, k + 1, m, cache)
  }

  /** The recipes k..m-1 all succeed, each from the cache its predecessors
      left. */
  ghost predicate AllSucceed(ctx: Context, recipes: seq<Recipe>, k: nat, m: nat, cache: Cache)
    requires k <= m <= |recipes| && YieldsNonZero(ctx.db) && CacheOk(cache)
  {
    forall i :: k <= i < m ==> ProfitFor(ctx, recipes[i], CacheAfter(ctx, recipes, k, i, cache)).result.Success?
  }

  /** The report yields, after the entries it was given, the entry of every
      recipe that has one, in recipe order; when a recipe fails, the report
      carries that first failure and stops there, with the entries of the
      recipes before it. */
  lemma {:induction false} ProfitLoopSpec(ctx: Context, recipes: seq<Recipe>, k: nat, cache: Cache,
                                          acc: seq<RecipeProfitability>)
    requires k <= |recipes|
    requires YieldsNonZero(ctx.db) && CacheOk(cache)
    ensures var r := ProfitLoop(ctx, recipes, k, cache, acc);
      r.error.None? ==>
        && AllSucceed(ctx, recipes, k, |recipes|, cache)
        && r.cache == CacheAfter(ctx, recipes, k, |recipes|, cache)
        && r.entries == acc + EntriesOn(ctx, recipes, k, |recipes|, r.cache)
    ensures var r := ProfitLoop(ctx, recipes, k, cache, acc);
      r.error.Some? ==> exists m :: k <= m < |recipes| && FailsAt(ctx, recipes, k, m, cache, acc, r)
    decreases |recipes| - k
  {
    var r := ProfitLoop(ctx, recipes, k, cache, acc);
    if k == |recipes| {
      assert r == Report(acc, None, cache);
    } else {
      var s := ProfitFor(ctx, recipes[k], cache);
      ProfitLoopStep(ctx, recipes, k, cache, acc);
      if s.result.Failure? {
        assert FailsAt(ctx, recipes, k, k, cache, acc, r);
      } else {
        var next := acc + EntryOf(s.result);
        assert s.result.value.None? ==> next == acc;
        var rest := ProfitLoop(ctx, recipes, k + 1, s.cache, next);
        assert r == rest;
        ProfitLoopSpec(ctx, recipes, k + 1, s.cache, next);
        ProfitForStable(ctx, recipes[k], cache, r.cache);
        if r.error.None? {
          AllSucceedStep(ctx, recipes, k, |recipes|, cache);
          EntriesOnStep(ctx, recipes, k, |recipes|, r.cache, acc, next);
        } else {
          var m :| k + 1 <= m < |recipes| && FailsAt(ctx, recipes, k + 1, m, s.cache, next, r);
          AllSucceedStep(ctx, recipes, k, m, cache);
          EntriesOnStep(ctx, recipes, k, m, r.cache, acc, next);
          assert FailsAt(ctx, recipes, k, m, cache, acc, r);
        }
      }
    }
  }

  /** The entry a recipe's outcome contributes: its value, if there is one. */
  function EntryOf(r: Result<Option<RecipeProfitability>, ReportError>): seq<RecipeProfitability>
  {
    if r.Success? && r.value.Some? then [r.value.value] else []
  }

  /** A recipe that succeeds from `cache` followed by recipes that succeed
      from the caches after it. */
  lemma AllSucceedStep(ctx: Context, recipes: seq<Recipe>, k: nat, m: nat, cache: Cache)
    requires k < m <= |recipes| && YieldsNonZero(ctx.db) && CacheOk(cache)
    requires ProfitFor(ctx, recipes[k], cache).result.Success?
    requires AllSucceed(ctx, recipes, k + 1, m, ProfitFor(ctx, recipes[k], cache).cache)
    ensures AllSucceed(ctx, recipes, k, m, cache)
    ensures CacheAfter(ctx, recipes, k, m, cache) == CacheAfter(ctx, recipes, k + 1, m, ProfitFor(ctx, recipes[k], cache).cache)
  {
    var c := ProfitFor(ctx, recipes[k], cache).cache;
    forall i | k < i < m
      ensures CacheAfter(ctx, recipes, k, i, cache) == CacheAfter(ctx, recipes, k + 1, i, c)
    {
    }
  }

  /** The entries of recipes k..m-1 are recipe k's, then the rest. */
  lemma EntriesOnStep(ctx: Context, recipes: seq<Recipe>, k: nat, m: nat, cache: Cache,
                      acc: seq<RecipeProfitability>, next: seq<RecipeProfitability>)
    requires k < m <= |recipes| && YieldsNonZero(ctx.db) && CacheOk(cache)
    requires next == acc + EntryOf(ProfitFor(ctx, recipes[k], cache).result)
    ensures next + EntriesOn(ctx, recipes, k + 1, m, cache) == acc + EntriesOn(ctx, recipes, k, m, cache)
  {
  }

  /** What the whole report promises, from recipe 0 and no entries: without
      an error, every recipe succeeded and the entries are those of all
      recipes; with one, it is the failure of the first recipe that failed.
      The caches are the ones the report threaded through. */
  ghost predicate Reported(ctx: Context, recipes: seq<Recipe>, cache: Cache, r: Report)
    requires YieldsNonZero(ctx.db) && CacheOk(cache) && CacheOk(r.cache)
  {
    && (r.error.None? ==>
          AllSucceed(ctx, recipes, 0, |recipes|, cache) && r.entries == EntriesOn(ctx, recipes, 0, |recipes|, r.cache))
    && (r.error.Some? ==> exists m :: 0 <= m < |recipes| && FailsAt(ctx, recipes, 0, m, cache, [], r))
  }

  /** The report from recipe 0 keeps what `ProfitLoopSpec` promises. */
  lemma ProfitReport(ctx: Context, recipes: seq<Recipe>, cache: Cache)
    requires YieldsNonZero(ctx.db) && CacheOk(cache)
    ensures Reported(ctx, recipes, cache, ProfitLoop(ctx, recipes, 0, cache, []))
  {
    ProfitLoopSpec(ctx, recipes, 0, cache, []);
  }

  /** The report `r` stops at recipe m with that recipe's failure, after the
      successes of recipes k..m-1 and their entries. */
  ghost predicate FailsAt(ctx: Context, recipes: seq<Recipe>, k: nat, m: nat, cache: Cache,
                          acc: seq<RecipeProfitability>, r: Report)
    requires k <= m < |recipes| && YieldsNonZero(ctx.db) && CacheOk(cache) && CacheOk(r.cache)
  {
    && AllSucceed(ctx, recipes, k, m, cache)
    && r.entries == acc + EntriesOn(ctx, recipes, k, m, r.cache)
    && r.error.Some?
    && ProfitFor(ctx, recipes[m], CacheAfter(ctx, recipes, k, m, cache)) == Step(Failure(r.error.value), r.cache)
  }

  // -------------------------------------------------------------- the class

  class Reporter {
    const db: Catalog
    const sellMarketBoard: MarketBoard
    const buyMarketBoard: MarketBoard
    /** `_costReportCache`. */
    var cache: Cache

    ghost predicate Valid()
      reads this
    {
      YieldsNonZero(db) && CacheOk(cache)
    }

    /** The catalog and what the boards serve now. */
    function Ctx(): Context
      reads sellMarketBoard, buyMarketBoard
    {
      Context(db, sellMarketBoard.GetData(), buyMarketBoard.GetData())
    }

    constructor(db: Catalog, sellMarketBoard: MarketBoard, buyMarketBoard: MarketBoard)
      requires YieldsNonZero(db)
      ensures Valid()
      ensures this.db == db && this.sellMarketBoard == sellMarketBoard && this.buyMarketBoard == buyMarketBoard
      ensures cache == map[]
    {
      this.db := db;
      this.sellMarketBoard := sellMarketBoard;
      this.buyMarketBoard := buyMarketBoard;
      cache := map[];
    }

    /** `optimalCostReportForItem`; outside callers pass an empty `busy`. */
    method OptimalCostReportForItem(itemId: int, busy: set<int>) returns (r: Result<Option<CostReport>, ReportError>)
      requires Valid()
      modifies this
      ensures Valid()
      ensures Step(r, cache) == Optimal(Ctx(), itemId, busy, old(cache))
      decreases |ItemKeys(db) - busy|, 1
    {
      var possibilities: seq<CostReport>;
      if itemId in cache {
        possibilities := cache[itemId];
      } else {
        var reports := CostReportsForItem(itemId, busy);
        if reports.Failure? {
          return Failure(reports.error);
        }
        possibilities := reports.value;
      }
      if |possibilities| == 0 {
        return Success(None);
      }
      return Success(Some(Cheapest(possibilities)));
    }

    /** `costReportsForItem`; outside callers pass an empty `busy`. */
    method CostReportsForItem(itemId: int, busy: set<int>) returns (r: Result<seq<CostReport>, ReportError>)
      requires Valid()
      modifies this
      ensures Valid()
      ensures Step(r, cache) == CostReports(Ctx(), itemId, busy, old(cache))
      decreases |ItemKeys(db) - busy|, 0
    {
      ghost var ctx := Ctx();
      if itemId in cache {
        return Success(cache[itemId]);
      }
      if itemId in busy {
        return Failure(Cycle(itemId));
      }
      var found := db.GetItem(itemId);
      if found.Failure? {
        return Failure(CatalogErr(found.error));
      }
      var item := found.value;
      var possibilities: seq<CostReport> := [];
      if item.vendorPrice.Some? && item.vendorPrice.value != 0 {
        possibilities := possibilities + [Vendor(itemId, item.vendorPrice.value as real)];
      }
      if item.itemSearchCategory.Some? && item.itemSearchCategory.value != 0 {
        var mbData := buyMarketBoard.Get(item.id);
        if mbData.Failure? {
          return Failure(BoardErr(mbData.error));
        }
        if mbData.value.Some? {
          possibilities := possibilities + [Market(itemId, mbData.value.value.nq.price)];
        }
      }
      assert possibilities == VendorPart(itemId, item) + MarketPart(ctx, itemId, item).value;
      ReportsMiss(ctx, itemId, busy, cache, item, MarketPart(ctx, itemId, item).value);
      FrontPossibilities(ctx, itemId, item, MarketPart(ctx, itemId, item).value);
      Shrinks(ItemKeys(db), busy, itemId);
      var inner := busy + {itemId};
      var crafts := CraftPossibilities(itemId, db.RecipeIdsForItem(itemId), inner, possibilities);
      assert ctx == Ctx();
      if crafts.Failure? {
        return Failure(crafts.error);
      }
      possibilities := crafts.value;
      CacheStore(cache, itemId, possibilities);
      cache := cache[itemId := possibilities];
      return Success(possibilities);
    }

    /** The recipe loop of `costReportsForItem`: one craft possibility is
        appended per recipe of the bucket whose ingredients all have a cost
        report. */
    method CraftPossibilities(itemId: int, bucket: seq<int>, busy: set<int>, possibilities: seq<CostReport>)
      returns (r: Result<seq<CostReport>, ReportError>)
      requires Valid() && Possibilities(itemId, possibilities)
      modifies this
      ensures Valid()
      ensures Step(r, cache) == RecipeLoop(Ctx(), itemId, bucket, 0, busy, old(cache), possibilities)
      ensures r.Success? ==> r.value == possibilities + CraftsFrom(Ctx(), itemId, bucket, 0, cache)
      decreases |ItemKeys(db) - busy|, 3
    {
      ghost var ctx := Ctx();
      RecipeLoopSpec(ctx, itemId, bucket, 0, busy, cache, possibilities);
      var acc := possibilities;
      for k := 0 to |bucket|
        invariant Valid() && Possibilities(itemId, acc) && ctx == Ctx()
        invariant RecipeLoop(ctx, itemId, bucket, k, busy, cache, acc) ==
                  RecipeLoop(ctx, itemId, bucket, 0, busy, old(cache), possibilities)
      {
        var recipe := db.GetRecipe(bucket[k]);
        if recipe.Failure? {
          return Failure(CatalogErr(recipe.error));
        }
        var ingredients := db.GetIngredientsForRecipe(recipe.value.id);
        if ingredients.Failure? {
          return Failure(CatalogErr(ingredients.error));
        }
        RecipeLoopStep(ctx, itemId, bucket, k, busy, cache, acc, recipe.value, ingredients.value);
        var ingredientReports := IngredientReportsFor(ingredients.value, busy);
        if ingredientReports.Failure? {
          return Failure(ingredientReports.error);
        }
        if ingredientReports.value.None? {
          continue;
        }
        acc := acc + [Craft(itemId, CraftPrice(ingredientReports.value.value), recipe.value.count, ingredientReports.value.value)];
      }
      return Success(acc);
    }

    /** The ingredient loop of one recipe in `costReportsForItem`: `None`
        stands for the `continue recipeLoop` taken when an ingredient has no
        cost report. */
    method IngredientReportsFor(ingredients: seq<Ingredient>, busy: set<int>)
      returns (r: Result<Option<seq<IngredientReport>>, ReportError>)
      requires Valid()
      modifies this
      ensures Valid()
      ensures Step(r, cache) == IngredientLoop(Ctx(), ingredients, 0, busy, old(cache), [])
      ensures r.Success? && r.value.Some? ==>
        AllResolved(cache, ingredients) && r.value.value == ReportsOf(cache, ingredients)
      ensures r == Success(None) <==>
        r.Success? && exists i :: 0 <= i < |ingredients| && Unobtainable(cache, ingredients[i])
      decreases |ItemKeys(db) - busy|, 2
    {
      ghost var ctx := Ctx();
      IngredientLoopSpec(ctx, ingredients, busy, cache);
      var ingredientReports: seq<IngredientReport> := [];
      for j := 0 to |ingredients|
        invariant Valid() && ReportsOk(ingredientReports) && ctx == Ctx()
        invariant IngredientLoop(ctx, ingredients, j, busy, cache, ingredientReports) ==
                  IngredientLoop(ctx, ingredients, 0, busy, old(cache), [])
      {
        IngredientLoopStep(ctx, ingredients, j, busy, cache, ingredientReports);
        var costReport := OptimalCostReportForItem(ingredients[j].item, busy);
        if costReport.Failure? {
          return Failure(costReport.error);
        }
        if costReport.value.None? {
          return Success(None);
        }
        ingredientReports := ingredientReports + [IngredientReport(ingredients[j].count, costReport.value.value)];
      }
      return Success(Some(ingredientReports));
    }

    /** `recipeProfitabilityReport` over the given recipes (the catalog's
        recipes, `db.Recipes()`, by default): the entries yielded before the
        first error, and that error. */
    method RecipeProfitabilityReport(recipes: seq<Recipe>) returns (entries: seq<RecipeProfitability>, error: Option<ReportError>)
      requires Valid()
      modifies this
      ensures Valid()
      ensures Report(entries, error, cache) == ProfitLoop(Ctx(), recipes, 0, old(cache), [])
      ensures Reported(Ctx(), recipes, old(cache), Report(entries, error, cache))
    {
      entries, error := [], None;
      for k := 0 to |recipes|
        invariant Valid()
        invariant ProfitLoop(Ctx(), recipes, k, cache, entries) == ProfitLoop(Ctx(), recipes, 0, old(cache), [])
      {
        var recipe := recipes[k];
        ghost var before := cache;
        ghost var ctx := Ctx();
        ProfitLoopStep(ctx, recipes, k, before, entries);
        var item := db.GetItem(recipe.item);
        if item.Failure? {
          error := Some(CatalogErr(item.error));
          break;
        }
        var costReport := OptimalCostReportForItem(item.value.id, {});
        assert ProfitFor(ctx, recipe, before).cache == cache;
        if costReport.Failure? {
          error := Some(costReport.error);
          break;
        }
        if costReport.value.None? || !costReport.value.value.Craft? {
          continue;
        }
        var resultMarketBoardInfo := sellMarketBoard.Get(item.value.id);
        if resultMarketBoardInfo.Failure? {
          error := Some(BoardErr(resultMarketBoardInfo.error));
          break;
        }
        if resultMarketBoardInfo.value.None? {
          continue;
        }
        entries := entries + [ProfitEntry(recipe, item.value, costReport.value.value, resultMarketBoardInfo.value.value)];
      }
      ProfitReport(Ctx(), recipes, old(cache));
    }
  }
}
