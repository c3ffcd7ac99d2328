# market-moogle core, modelled in Dafny

market-moogle prices Final Fantasy XIV crafting. A catalog of items, recipes
and ingredients is built from the game's data tables. Two market-board
caches hold listing prices and sale velocities fetched from the Universalis
pricing service: one for the world where crafted goods are sold, one for
the world where ingredients are bought. A reporter works out, for every
item, the cheapest way to obtain it: buy from an NPC vendor, buy on the
market board, or craft it from one of its recipes with every ingredient at
its own cheapest cost. From those costs it reports the profit that each
recipe's output would earn on the sell market.

The model has eight modules, one file each:

- `Wrappers` holds `Option` and `Result`.
- `IteratorUtils` (source/iterator-utils.ts) holds `group`, `select`,
  `where`, `orderBy` and `into`. Each lazy generator becomes a function over
  finite sequences. `group` stays a loop that fills and flushes a buffer.
- `OrderedMaps` models the JavaScript `Map`: keys kept in insertion order,
  and a repeated key overwrites its value in place.
- `Catalog` (source/db/db.ts) holds:
  - the row normalisers, which are per-row filters whose failing type
    assertion aborts the build;
  - the item → recipe-ids index;
  - the catalog lookups, which fail on an absent id.
- `MarketBoard` (source/db/market-board.ts) holds:
  - the four-state cache (UNFETCHED, FETCHING with the previous snapshot,
    FETCHED, ERROR) as a value-level transition system, and a `MarketBoard`
    class whose `state` field the `Fetch` and `Complete` events update;
  - the reads;
  - the two response-shape validators;
  - `intoMap`;
  - the fetch job: marketable ids in batches of 100, listings then history
    per batch, then the merge.
- `Reporter` (source/db/reporter.ts) holds the memoised mutual recursion of
  `costReportsForItem` and `optimalCostReportForItem`, and the
  profitability report. It is specified by functions that thread the
  cache. A `Reporter` class with a `cache` field runs the same recursion as
  methods, and each method is proved equal to its function.
- `ReentrySkipped` holds a variant of the reporter's recursion in which an
  item still being priced further up counts as having no possibility. It
  is proved to agree with the recursion as written wherever that meets no
  cycle.
- `Scenarios` holds concrete catalogs and what is proved about the
  reporter on them:
  - a vendor-bought ingredient and a craft made from it;
  - that craft's profitability;
  - a craft whose ingredient is itself crafted three at a time;
  - two items, each crafted only from the other, as written and with
    re-entry skipped.

Behaviour of the code that the model keeps:

- **Re-entry.** `costReportsForItem` marks nothing as in progress
  (source/db/reporter.ts:107-114 and 139-143). When pricing re-enters an
  item that is still being priced, it recurses until the JavaScript stack
  overflows, which throws. A recipe cycle that is never entered does no
  harm: if an earlier ingredient of the recipe has no cost report,
  `continue recipeLoop` skips the recipe first. The model tracks the items
  being priced in a `busy` set and reports the error `Cycle(id)` at the
  first re-entry. The cache entries already stored are
  kept, as they are after a throw (`Scenarios.CycleReentry`). The
  `ReentrySkipped` variant shows what an in-progress marker would give: the
  recipe that re-enters an item is skipped, so on a two-item cycle both
  items end up with no possibility (`Scenarios.SkippedCycle`).
- **Yields.** `normalizeRecipes` keeps the yield (column 5) whatever it is,
  zero included, and so does the model (`Catalog.RecipeRow`). The reporter
  divides by the yield of a crafted ingredient
  (source/db/reporter.ts:124-127). Its members therefore require
  `YieldsNonZero` of the catalog; see "## Left out".
- **Ingredient rows.** `normalizeIngredients` skips no row, not even one
  whose recipe id is not positive. It yields one list per row, and so does
  the model.

## Model

| member | source | states |
|---|---|---|
| IteratorUtils.Group | source/iterator-utils.ts:3-19 | Fails exactly when `size <= 0`. Otherwise the batches concatenate back to the input, every batch but the last holds exactly `size` elements, and the last is non-empty and no larger. The loop over a refilled buffer is proved equal to `Chunks`. |
| IteratorUtils.ChunksPartition | source/iterator-utils.ts:8-18 | Batching is a partition: the batches concatenate to the input and have the sizes `group` promises. |
| IteratorUtils.BatchingUnique | source/iterator-utils.ts:8-18 | Any partition with those sizes is the one `Chunks` gives, so the batches are fully determined. |
| IteratorUtils.Chunks250 | source/db/market-board.ts:128-134 | 250 ids in batches of 100 give three batches, of 100, 100 and 50. |
| IteratorUtils.FlattenAppend | source/iterator-utils.ts:10-17 | Flushing a buffer appends its contents to what has been yielded so far. |
| IteratorUtils.Select | source/iterator-utils.ts:21-28 | One output per input, in order, the i-th being `fn` of the i-th input. |
| IteratorUtils.Where | source/iterator-utils.ts:30-39 | The output is a subsequence of the input, so input order is kept. |
| IteratorUtils.WhereCounts | source/iterator-utils.ts:30-39 | Every input satisfying `fn` is kept as often as it occurs; every other input occurs zero times. |
| IteratorUtils.WhereMember | source/iterator-utils.ts:34-36 | Whatever `where` yields is an input satisfying `fn`. |
| IteratorUtils.WhereSatisfies | source/iterator-utils.ts:34-36 | Every position of the output satisfies `fn`. |
| IteratorUtils.WhereAppend | source/iterator-utils.ts:62-64 | Filtering distributes over concatenation, so consuming a stream piece by piece filters the same. |
| IteratorUtils.WhereSingleton | source/iterator-utils.ts:35-37 | One element is yielded exactly when `fn` holds of it. |
| IteratorUtils.Insert | source/iterator-utils.ts:58-60 | Inserting adds exactly one occurrence of the element (multiset) and one to the length. |
| IteratorUtils.OrderBy | source/iterator-utils.ts:58-60 | The sorted output is a permutation of the input. |
| IteratorUtils.InsertSorted | source/iterator-utils.ts:58-60 | Inserting into a sorted sequence keeps it sorted, for a total comparator. |
| IteratorUtils.OrderBySorted | source/iterator-utils.ts:58-60 | `orderBy` output is sorted by the comparator when the comparator is total. |
| IteratorUtils.SortedPairwise | source/iterator-utils.ts:58-60 | For a transitive comparator, neighbour order implies order of every pair. |
| IteratorUtils.Into | source/iterator-utils.ts:66-68 | A fresh array holding the sequence's elements in order. |
| OrderedMaps.OrderedMap.Set | source/db/market-board.ts:192-195 | `Map.set`: the entry is updated, a new key is appended to the key order, and an existing key keeps its place. |
| OrderedMaps.OrderedMap.Values | source/db/db.ts:28-38 | `values()`: one value per key, in key order, each the key's entry. |
| OrderedMaps.Empty | source/db/market-board.ts:192 | A new map has no keys and no entries. |
| OrderedMaps.FromEntries | source/db/db.ts:81-88 | `new Map(pairs)` is a well-formed ordered map. |
| OrderedMaps.FromEntriesLookup | source/db/db.ts:81-88 | A key is present iff some pair carries it, and its value is that of the last such pair. |
| OrderedMaps.FromEntriesDomain | source/db/db.ts:81-88 | A key is present exactly when some pair carries it. |
| OrderedMaps.FromEntriesLast | source/db/db.ts:81-88 | For a present key, the stored value comes from one pair with that key, and no later pair has the key. |
| Catalog.FilterMapRowsSpec | source/db/db.ts:106-205 | A `normalize*` generator succeeds exactly when every row converts. It then yields, in row order, the value of every row not skipped. On failure its error is that of the first failing row. |
| Catalog.FilterMapRowsMember | source/db/db.ts:106-205 | Every yielded value is the conversion of some row. |
| Catalog.GilShopIds | source/db/db.ts:106-116 | The gil-shop list succeeds exactly when every row has a number in column 1, and is then those numbers, one per row, in order. |
| Catalog.ItemRow | source/db/db.ts:124-153 | An item row succeeds exactly when its id is a number and, for a positive id, the name is a string and, for a non-empty name, the HQ flag, vendor price and search category cells are well typed. A failure names one of those columns. The row is skipped exactly when the id is not positive or the name is empty. A kept row gives the item keyed by its id, with name, HQ flag (`"True"`), vendor price only for gil-shop items, and search category `null` when 0. |
| Catalog.NormalizedItemsValid | source/db/db.ts:118-155 | Every normalised item has a positive id and a non-empty name, and is keyed by its own id. |
| Catalog.RecipeRow | source/db/db.ts:160-175 | A recipe row succeeds exactly when its id is a number and, for a positive id, the item is a number and, for a positive item, the yield is a number; a failure names column 0, 4 or 5. The row is skipped exactly when its id or its produced item is not positive. A kept row carries columns 0, 4 and 5, so every yield is kept, zero included. |
| Catalog.NormalizedRecipesValid | source/db/db.ts:157-177 | Every normalised recipe has a positive id and produced item, and is keyed by its own id. |
| Catalog.IngredientRow | source/db/db.ts:182-203 | One ingredient row succeeds exactly when column 0 and every cell of the 10 slots are numbers. It then gives the recipe id of column 0 and, in slot order, exactly the slots whose count is positive, so at most 10 ingredients, each for that recipe. On failure the error is column 0's, or else the slot scan's. |
| Catalog.NormalizeIngredientRow | source/db/db.ts:182-203 | The nested 10-slot loop, which checks both cells of every slot and pushes the positive-count slots, equals `IngredientRow`. |
| Catalog.SlotsShape | source/db/db.ts:188-201 | A complete slot scan has one ingredient per slot, each for the row's recipe. |
| Catalog.SlotsSpec | source/db/db.ts:188-201 | A slot scan succeeds exactly when every slot does. It then holds each slot in order, and otherwise fails with the error of the first malformed slot. |
| Catalog.SlotCells | source/db/db.ts:189-192 | Slot k is read from column 6 + 2k (the item id) and column 7 + 2k (the count). It succeeds exactly when both are numbers, and the item id's error comes first. |
| Catalog.SlotsFailureSticks | source/db/db.ts:189-192 | Once a slot is malformed, every longer scan of the row fails with that slot's error. |
| Catalog.RecipeIndexDomain | source/db/db.ts:207-216 | An item has a bucket exactly when some recipe produces it. |
| Catalog.RecipeIndexBucket | source/db/db.ts:207-216 | An item's bucket is the ids of the recipes producing it, in table order. |
| Catalog.NoProducerNoRecipes | source/db/db.ts:52-53 | An item without a bucket is produced by no recipe. |
| Catalog.BuildRecipeByItemIndex | source/db/db.ts:207-216 | The single pass over the recipe table is proved equal to the fold. Every bucket lists the producing recipes' ids in order, and every produced item has a bucket. |
| Catalog.Get | source/db/db.ts:59-65 | `get`, as used by `getItem`, `getRecipe` and `getIngredientsForRecipe`: succeeds iff the id is present, with its value, and otherwise fails with `NotFound(id)`. |
| Catalog.GetAllRecipes | source/db/db.ts:52-57 | Looking up the ids of recipes stored under their own ids gives those recipes back. |
| Catalog.GetRecipesForItemSpec | source/db/db.ts:52-57 | `getRecipesForItem` yields exactly the recipes of the table producing the item, in table order, and nothing when there is no bucket. |
| Catalog.FromRows | source/db/db.ts:67-93 | The build succeeds exactly when the gil-shop, item, recipe and ingredient normalisers all do, and otherwise fails with the error of the first that fails, in that order. The item, recipe and ingredient tables are `new Map` of the normalised pairs, and the catalog is valid: tables keyed by their own ids, and the index built from the recipe table. |
| Catalog.FromRowsGetItem | source/db/db.ts:40-42 | After a successful build, `getItem` finds exactly the ids of the normalised item rows, each with the item of the last row that carries it. |
| Catalog.Assemble | source/db/db.ts:16-26 | The private constructor stores `new Map` of each list of pairs as its table. The tables and the index built from the recipe table form a valid catalog. |
| Catalog.KeyedTable | source/db/db.ts:81-88 | A table built from pairs keyed by their value's id is keyed by those ids. |
| Catalog.ItemsKeyedById | source/db/db.ts:143-153 | Every normalised item pair has its item's own id as its key. |
| Catalog.RecipesKeyedById | source/db/db.ts:175 | Every normalised recipe pair has its recipe's own id as its key. |
| MarketBoard.DataOf | source/db/market-board.ts:85-93 | `getData` serves data exactly in FETCHED, or in FETCHING with a previous snapshot, and then serves that snapshot. |
| MarketBoard.ErrorOf | source/db/market-board.ts:73-75 | There is an error exactly in the ERROR state, and it is that state's error. |
| MarketBoard.Lookup | source/db/market-board.ts:77-83 | `get` throws "Data has not been fetched." exactly when there is no data. Otherwise it gives the item's entry, or `undefined` when the item is absent. |
| MarketBoard.OnFetchRequest | source/db/market-board.ts:95-118 | A job starts exactly when none is in flight. The state is FETCHING afterwards, and unchanged when no job started. Only FETCHED data, or the snapshot already being served, is kept for stale reads, and no error remains. |
| MarketBoard.OnComplete | source/db/market-board.ts:97-110 | On the FETCHING state of a job in flight, success makes the state FETCHED with the new data and no error. Failure makes it ERROR with that error and no data. |
| MarketBoard.JoinInFlight | source/db/market-board.ts:96-117 | A second request while a job is in flight starts nothing, and both requesters see the one job's outcome. |
| MarketBoard.NoSnapshotAfterError | source/db/market-board.ts:111-115 | A refresh after a failed fetch has no stale data to serve. |
| MarketBoard.CompletionEndsJob | source/db/market-board.ts:95-115 | After a job completes, either way, the next request starts a new job. |
| MarketBoard.RefreshServesStale | source/db/market-board.ts:85-93 | While FETCHED data is being refreshed, reads answer from it, and after success from the new data. |
| MarketBoard.MarketBoard.constructor | source/db/market-board.ts:61-67 | A new board is UNFETCHED, with no data and no error. |
| MarketBoard.MarketBoard.Fetch | source/db/market-board.ts:95-118 | The state becomes `OnFetchRequest` of the old state, and the count of started jobs grows by one exactly when a job was started. |
| MarketBoard.MarketBoard.Complete | source/db/market-board.ts:97-110 | Only while a job is in flight: the state becomes FETCHED with the new data on success and ERROR with the error on failure (`OnComplete` of the old state), and no job is started. |
| MarketBoard.AssertResponseShape | source/db/market-board.ts:199-225 | Accepts exactly a response that is an object whose `items` is an array of objects, each with the required numeric fields, and returns those items. The loop returns the same result, message included, as `ShapedItems`. |
| MarketBoard.ShapedItems | source/db/market-board.ts:199-225 | The validated items succeed exactly for a well-shaped response and are its `items`. A failure is a shape error naming the first check that fails: not an object, `items` not an array, or a malformed item. |
| MarketBoard.IntoMap | source/db/market-board.ts:189-197 | The loop equals `new Map` over the items keyed by `itemID`. |
| MarketBoard.IntoMapKeys | source/db/market-board.ts:189-197 | Every entry is stored under its own `itemID`, and an id is present iff some item carries it. |
| MarketBoard.MergeListings | source/db/market-board.ts:163-183 | The merge loop over the listing values equals the specification fold. |
| MarketBoard.MergeValuesSpec | source/db/market-board.ts:163-183 | For listings with distinct ids, the merged snapshot holds an id exactly when it held it before or the history also has it. A merged id gets the listing's prices and the history's velocities; other ids are unchanged. |
| MarketBoard.MergeBatchSpec | source/db/market-board.ts:146-183 | One batch: an id is in the result iff it was already there or both responses carry it. Such an id's entry has `item` equal to the id, with the last listing's prices and the last history entry's velocities. Other entries are unchanged. |
| MarketBoard.JobBatches | source/db/market-board.ts:128-134 | The requested batches partition the marketable ids, in catalog order, into batches of 100 with a possibly shorter last one. |
| MarketBoard.MarketableIdsSpec | source/db/market-board.ts:129-133 | Only items whose search category is a number greater than 0 are requested. |
| MarketBoard.FetchJob | source/db/market-board.ts:126-187 | The job equals `FetchSpec`: batches in order; per batch listings, shape check, history, shape check, merge; the first failure, with its own error, ends the job. |
| MarketBoard.FetchBatchesSpec | source/db/market-board.ts:136-184 | From any batch on, a successful job had well-shaped responses for every remaining batch. An item is in the snapshot iff it was there already or some batch's listings and history both carry it. The last such batch gives its entry, and an entry that no batch touches is kept. |
| MarketBoard.JobSnapshot | source/db/market-board.ts:126-187 | A successful job's snapshot holds exactly the items that both responses of some batch carry, each with the entry of the last such batch. |
| Reporter.RoundSpec | source/db/reporter.ts:128 | `Math.round` gives an integer within one half of its argument, halves rounding up. |
| Reporter.CraftPrice | source/db/reporter.ts:123-129 | The running total of the craft price is rounded after every addition, so the price is an integer. |
| Reporter.Factor | source/db/reporter.ts:124-127 | A crafted ingredient is counted in crafts of its recipe: the factor times the yield is the ingredient count. Any other report counts units. |
| Reporter.RoundShift | source/db/reporter.ts:128 | Adding an integer commutes with `Math.round`. |
| Reporter.CraftPriceSum | source/db/reporter.ts:123-129 | The craft price is the sum of the separately rounded ingredient terms, round(factor · price), because the running total stays an integer. |
| Reporter.CheapestSpec | source/db/reporter.ts:147-149 | The reduce returns a possibility no dearer than any other. Among equally cheap possibilities it returns the first, because only a strictly cheaper one replaces it. |
| Reporter.BestReportOk | source/db/reporter.ts:144-149 | The optimal report, when there is one, is for the item asked about. |
| Reporter.VendorPart | source/db/reporter.ts:88-94 | At most one vendor possibility, for the requested id, present exactly when the vendor price is present and non-zero. |
| Reporter.MarketPart | source/db/reporter.ts:96-105 | For an item with a non-zero search category, fails exactly when the buy board has no data. On success it gives at most one market possibility, for the requested id. There is one exactly when such an item is on the board, and its price is the board's NQ price. |
| Reporter.Optimal | source/db/reporter.ts:139-150 | On success the item's possibilities are cached and the result is their cheapest. The cache only grows and keeps its invariant. |
| Reporter.CostReports | source/db/reporter.ts:79-137 | A cached list is returned as is, with the cache unchanged. A freshly computed list is stored under the item before it is returned, and the cache only grows. |
| Reporter.RecipeLoop | source/db/reporter.ts:107-133 | The possibilities found so far stay a prefix, everything added is a craft of this item, and the result remains a possibility list. |
| Reporter.IngredientLoop | source/db/reporter.ts:110-119 | The cache only grows and keeps its invariant, and the collected ingredient reports are well formed: every craft among them has a non-zero yield. |
| Reporter.IngredientLoopSpec | source/db/reporter.ts:108-119 | On success the loop gives `None` exactly when it met an ingredient cached with no possibility. Otherwise it gives, for every ingredient in order, its count and the cheapest of its item's cached possibilities (`ReportsOf`). |
| Reporter.IngredientLoopReports | source/db/reporter.ts:110-119 | From any point of the loop, the reports collected so far stay a prefix and are followed by the report of every remaining ingredient, each resolved in the final cache. |
| Reporter.IngredientLoopGivesUp | source/db/reporter.ts:111-114 | A `None` comes only from an ingredient whose item the final cache records with no possibility. |
| Reporter.RecipeLoopSpec | source/db/reporter.ts:107-133 | On success the loop appends to the possibilities it was given exactly `CraftsFrom` the bucket. That is one `Craft(id, CraftPrice(reports), yield, reports)` per recipe whose ingredients all have an optimal report, in bucket order, and nothing for the others. |
| Reporter.OptimalIsCheapest | source/db/reporter.ts:139-150 | There is no optimal report exactly when the item has no possibility. Otherwise the report is a cheapest possibility and the first among equals. |
| Reporter.Memoised | source/db/reporter.ts:80-83 | Once an item's list is computed, asking again returns it and its cheapest unchanged, with the cache unchanged. |
| Reporter.PossibilityOrder | source/db/reporter.ts:85-133 | A fresh list starts with the vendor possibility, then the market one, and continues with crafts only. |
| Reporter.CraftsNeedRecipes | source/db/reporter.ts:107-133 | An item has at most one craft possibility per recipe in its bucket. |
| Reporter.Grade | source/db/reporter.ts:61-64 | The reported grade has the higher velocity; HQ is chosen only when strictly faster, so NQ wins ties. |
| Reporter.ProfitEntry | source/db/reporter.ts:65-75 | The entry carries the recipe, item and name, the chosen grade's HQ flag, velocity and price, and the craft's cost and ingredients. Its profit is the integer `round(price * 0.95 - cost * 1.05)`. |
| Reporter.ProfitFor | source/db/reporter.ts:51-75 | An entry, when produced, is for this recipe and has a consistent profit. The cache only grows. |
| Reporter.ProfitForSpec | source/db/reporter.ts:51-75 | A recipe gets an entry exactly when its item exists, the item's optimal report is a craft, and the sell board has the item. The entry then carries that craft's cost and ingredients. |
| Reporter.ProfitLoop | source/db/reporter.ts:48-77 | At most one entry per recipe, in recipe order, each with a consistent profit; entries yielded before an error are kept. |
| Reporter.ProfitForStable | source/db/reporter.ts:51-75 | Once a recipe's outcome is a success it is the same against any later cache, because the item's possibilities are then a cache hit. |
| Reporter.ProfitLoopSpec | source/db/reporter.ts:48-77 | Without an error the report yields, after the given entries, `EntriesOn` the rest: the entry of every remaining recipe that has one, in recipe order. With an error there is a first failing recipe: the ones before it all succeed, the entries are theirs, and the error is that recipe's failure. |
| Reporter.ProfitReport | source/db/reporter.ts:48-77 | The report over all recipes from no entries satisfies `Reported`: all entries without an error, or the entries before the first failure with that failure. |
| Reporter.Reporter.constructor | source/db/reporter.ts:39-46 | A new reporter has an empty cache over its catalog and boards. |
| Reporter.Reporter.OptimalCostReportForItem | source/db/reporter.ts:139-150 | The method's result and new cache are those of `Optimal` on the old cache, and the invariant is kept. |
| Reporter.Reporter.CostReportsForItem | source/db/reporter.ts:79-137 | The method's result and new cache are those of `CostReports` on the old cache. |
| Reporter.Reporter.CraftPossibilities | source/db/reporter.ts:107-133 | The recipe loop, pushing onto the possibilities, equals `RecipeLoop`. On success the result is the possibilities given followed by `CraftsFrom` of the bucket on the new cache: one craft per recipe whose ingredients all have an optimal report, priced from those reports, in bucket order. |
| Reporter.Reporter.IngredientReportsFor | source/db/reporter.ts:108-119 | The ingredient loop equals `IngredientLoop`. It gives `None` exactly when it met an ingredient cached with no possibility. Otherwise it gives one report per ingredient, in order: the ingredient's count with the cheapest of its item's cached possibilities. |
| Reporter.Reporter.RecipeProfitabilityReport | source/db/reporter.ts:48-77 | The entries, the error ending the report early, and the new cache are those of `ProfitLoop` over the recipes with the old cache. Without an error every recipe succeeded and the entries are `EntriesOn` all recipes; with one, there is a first failing recipe whose failure it is, and the entries are those of the recipes before it. |
| Scenarios.VendorThenCraft | source/db/reporter.ts:79-150 | Item 1 sells at vendor for 100 and item 2 is crafted from 2 × item 1, with no buy data. Item 1 costs vendor/100 and item 2 costs craft/200. |
| Scenarios.PlateProfit | source/db/reporter.ts:48-77 | Item 2 is listed NQ 500 at velocity 1.0 and HQ 600 at 0.5. The NQ grade is chosen and the profit is round(475 − 210) = 265. |
| Scenarios.CycleReentry | source/db/reporter.ts:107-143 | Two items each crafted only from the other: pricing item 1 re-enters item 1, which is reported as `Cycle(1)` with nothing cached. |
| Scenarios.YieldDivides | source/db/reporter.ts:120-129 | Item 3 is crafted three at a time from one item 1 at 100, and item 4 from two of item 3. Item 4 costs round(2/3 · 100) = 67: a crafted ingredient is paid per craft of its recipe. |
| Scenarios.SkippedCycle | source/db/reporter.ts:107-143 | With re-entry skipped, the two-item cycle resolves: both recipes are skipped and both items are cached with no possibility. |
| ReentrySkipped.SkipCostReports | source/db/reporter.ts:79-137 | The variant never reports a cycle. A re-entered item that is not cached has no possibility and leaves the cache unchanged; everything else is as written. |
| ReentrySkipped.AgreeOptimal | source/db/reporter.ts:139-150 | Wherever the as-written `Optimal` meets no cycle, the variant gives the same result and cache. |
| ReentrySkipped.AgreeCostReports | source/db/reporter.ts:79-137 | Wherever the as-written `CostReports` meets no cycle, the variant gives the same result and cache. |
| ReentrySkipped.AgreeRecipeLoop | source/db/reporter.ts:107-133 | Wherever the as-written recipe loop meets no cycle, the variant gives the same result and cache. |
| ReentrySkipped.AgreeIngredientLoop | source/db/reporter.ts:110-119 | Wherever the as-written ingredient loop meets no cycle, the variant gives the same result and cache. |

## Left out

- Reporter.CostReports, Reporter.Optimal, Reporter.RecipeLoop, Reporter.IngredientLoop, Reporter.ProfitFor, Reporter.ProfitLoop and the `Reporter` class: they require `YieldsNonZero`, that every recipe's yield is non-zero. The source divides by the yield of a crafted ingredient without a guard (JavaScript would give `Infinity` or `NaN`), and the catalog does not exclude zero yields.
- Reporter.CostReports: re-entering an item that is still being priced is reported as the error `Cycle(id)`, where the source recurses until the stack overflows and throws. The entries cached before the error are kept, as they are when the source throws.
- `DB.from`: fetching the CSV tables is not modelled. `Catalog.FromRows` starts from the parsed rows, whose cells are numbers or strings, so `assert.array(row)` always holds.
- `normalizeItemSearchCategories` and the item-search-category table: nothing in the core reads that table. Its rows are type assertions only, with the same shape as the other normalisers.
- `items`, `itemIds` and `recipes` are the table values or keys in insertion order (`Catalog.Catalog.Items`, `ItemIds`, `Recipes`). The report's default `recipes` argument is played by the caller passing `Recipes()`.
- Network access (`Got`, its 10 retries, the URLs and query parameters) and the throttler: the two requests of a batch are functions from the batch's ids to a decoded JSON response or a `Network` error.
- Asynchrony and promises: `fetch` is the `Fetch` event, and the job settling is the `Complete` event. The outcome passed to `Complete` stands for the job's result, `FetchJob` (equal to `FetchSpec`) on the board's catalog and world; nothing links the two events mechanically. The promise the callers await is not modelled. Neither is `wait()` (source/db/market-board.ts:120-124), which only awaits that promise.
- The `state` getter (source/db/market-board.ts:69-71) is the `state` field itself.
- MarketBoard.OnComplete and MarketBoard.MarketBoard.Complete require the FETCHING state: the settle callbacks (source/db/market-board.ts:98-109) belong to the job that `fetch` started, and `_state` is FETCHING from then until one of them runs.
- The JavaScript `Error` objects and their messages: an error is a `FetchError`, `CatalogError` or `ReportError` value. The messages of the `@sindresorhus/is` assertions are not part of this model; a shape failure names the check that failed.
- Floating point: prices and velocities are reals. `Math.round` is floor of x + 1/2, and 0.95 and 1.05 are exact.
- `Reporter.RecipeProfitabilityReport`: generator laziness is not modelled. The report is materialised: the entries before the first error, then the error.
- The reporter reads the two boards' current data when it is called; a board that changes state during a report is not modelled.
- IteratorUtils.OrderBy: `Array.prototype.sort` is modelled on values as a stable insertion sort. Its sortedness is proved only for a total comparator; the order JavaScript gives for an inconsistent comparator is not modelled.
- The `Query` wrapper class: its methods are the functions they delegate to.
- IteratorUtils.Group: `size` is an integer. For a fractional JavaScript size the buffer length never equals the size, so everything comes out as one final batch; that case is not modelled.
