/** The market-board cache of source/db/market-board.ts: a four-state machine
    (UNFETCHED, FETCHING with the previous snapshot, FETCHED, ERROR), reads
    served from the current or the previous snapshot, and the fetch job that
    asks the pricing service for the marketable items in batches of 100 and
    merges the listings and history answers. The asynchronous parts become
    explicit events: `Fetch` starts (or joins) a job, `Complete` delivers its
    outcome; the network is a pair of functions from a batch of ids to a
    response. */
module MarketBoard {
  import opened Wrappers
  import opened IteratorUtils
  import opened OrderedMaps
  import opened Catalog

  // ------------------------------------------------------------ snapshots

  datatype GradeInfo = GradeInfo(hq: bool, price: real, velocity: real)
  datatype MarketBoardInfo = MarketBoardInfo(item: real, dcOrWorld: string, nq: GradeInfo, hq: GradeInfo)

  /** A snapshot, keyed by the (JavaScript number) item id. */
  type Snapshot = map<real, MarketBoardInfo>

  datatype FetchError =
    | Network(message: string)   // a request that failed after its retries
    | BadShape(message: string)  // a response the shape validators reject

  datatype BoardState =
    | Unfetched
    | Fetching(previousData: Option<Snapshot>)
    | Fetched(data: Snapshot)
    | Errored(error: FetchError)

  // ---------------------------------------------------- state and reading

  /** `getData`: FETCHED serves its data, FETCHING its previous snapshot when
      there is one; every other state has nothing to serve. */
  function DataOf(s: BoardState): (r: Option<Snapshot>)
    ensures r.Some? <==> s.Fetched? || (s.Fetching? && s.previousData.Some?)
    ensures s.Fetched? ==> r == Some(s.data)
    ensures s.Fetching? ==> r == s.previousData
  {
    match s
    case Fetched(data) => Some(data)
    case Fetching(previousData) => previousData
    case _ => None
  }

  /** The `error` accessor: only the ERROR state has one. */
  function ErrorOf(s: BoardState): (r: Option<FetchError>)
    ensures r.Some? <==> s.Errored?
    ensures s.Errored? ==> r == Some(s.error)
  {
    if s.Errored? then Some(s.error) else None
  }

  const NotFetchedMessage := "Data has not been fetched."

  /** `get`: fails when there is no data to serve, otherwise the entry of the
      item (`undefined` being `None`). */
  function Lookup(data: Option<Snapshot>, itemId: int): (r: Result<Option<MarketBoardInfo>, string>)
    ensures r.Failure? <==> data.None?
    ensures r.Failure? ==> r.error == NotFetchedMessage
    ensures r.Success? ==> (r.value.Some? <==> itemId as real in data.value)
    ensures r.Success? && r.value.Some? ==> r.value.value == data.value[itemId as real]
  {
    if data.None? then Failure(NotFetchedMessage)
    else if itemId as real in data.value then Success(Some(data.value[itemId as real]))
    else Success(None)
  }

  // ---------------------------------------------------------- transitions

  /** The synchronous part of `fetch`: unless a job is in flight, a new one is
      started (the flag) and the state becomes FETCHING, keeping the FETCHED
      data, and only that, for stale reads. */
  function OnFetchRequest(s: BoardState): (r: (BoardState, bool))
    ensures r.1 <==> !s.Fetching?
    ensures r.0.Fetching?
    ensures !r.1 ==> r.0 == s
    ensures DataOf(r.0) == (if s.Fetched? || s.Fetching? then DataOf(s) else None)
    ensures ErrorOf(r.0) == None
  {
    if s.Fetching? then (s, false)
    else (Fetching(if s.Fetched? then Some(s.data) else None), true)
  }

  /** The job's completion callbacks: success installs the new data, failure
      the error; no snapshot survives a failure. */
  function OnComplete(s: BoardState, outcome: Result<Snapshot, FetchError>): (r: BoardState)
    requires s.Fetching?
    ensures outcome.Success? ==> r.Fetched? && DataOf(r) == Some(outcome.value) && ErrorOf(r) == None
    ensures outcome.Failure? ==> r.Errored? && DataOf(r) == None && ErrorOf(r) == Some(outcome.error)
  {
    match outcome
    case Success(newData) => Fetched(newData)
    case Failure(error) => Errored(error)
  }

  /** A second request while a job is in flight changes nothing, so both
      requesters observe the outcome of the one job. */
  lemma JoinInFlight(s: BoardState, outcome: Result<Snapshot, FetchError>)
    ensures var (s1, started1) := OnFetchRequest(s);
            var (s2, started2) := OnFetchRequest(s1);
            !started2 && OnComplete(s2, outcome) == OnComplete(s1, outcome)
  {
  }

  /** After a failed fetch a new refresh has no stale data to offer: the
      snapshot from before the failure is not resurrected. */
  lemma NoSnapshotAfterError(s: BoardState, e: FetchError)
    requires s.Fetching?
    ensures DataOf(OnFetchRequest(OnComplete(s, Failure(e))).0) == None
  {
  }

  /** A completed job leaves the board idle: the next request starts a new
      job instead of joining the finished one. */
  lemma CompletionEndsJob(s: BoardState, outcome: Result<Snapshot, FetchError>)
    requires s.Fetching?
    ensures OnFetchRequest(OnComplete(s, outcome)).1
  {
  }

  /** A refresh of FETCHED data keeps answering reads from that data until
      the job completes, and from the new data afterwards. */
  lemma RefreshServesStale(d: Snapshot, newData: Snapshot, itemId: int)
    ensures var s := OnFetchRequest(Fetched(d)).0;
            && Lookup(DataOf(s), itemId) == Lookup(Some(d), itemId)
            && Lookup(DataOf(OnComplete(s, Success(newData))), itemId) == Lookup(Some(newData), itemId)
  {
  }

  class MarketBoard {
    const dcOrWorld: string
    var state: BoardState
    /** How many fetch jobs have been started: the instrumentation that shows
        that a request during FETCHING starts none. */
    ghost var jobsStarted: nat

    constructor(dcOrWorld: string)
      ensures this.dcOrWorld == dcOrWorld
      ensures state == Unfetched && jobsStarted == 0
      ensures DataOf(state) == None && ErrorOf(state) == None
    {
      this.dcOrWorld := dcOrWorld;
      state := Unfetched;
      jobsStarted := 0;
    }

    function GetData(): Option<Snapshot>
      reads this
    {
      DataOf(state)
    }

    function Error(): Option<FetchError>
      reads this
    {
      ErrorOf(state)
    }

    function Get(itemId: int): Result<Option<MarketBoardInfo>, string>
      reads this
    {
      Lookup(GetData(), itemId)
    }

    /** `fetch`: starts a job unless one is in flight, in which case the
        caller waits on that job's promise. */
    method Fetch() returns (started: bool)
      modifies this
      ensures (state, started) == OnFetchRequest(old(state))
      ensures jobsStarted == old(jobsStarted) + (if started then 1 else 0)
    {
      started := !state.Fetching?;
      if started {
        state := Fetching(if state.Fetched? then Some(state.data) else None);
        jobsStarted := jobsStarted + 1;
      }
    }

    /** The in-flight job settles: its `then` callbacks replace the state. */
    method Complete(outcome: Result<Snapshot, FetchError>)
      requires state.Fetching?
      modifies this
      ensures state == OnComplete(old(state), outcome)
      ensures outcome.Success? ==> state == Fetched(outcome.value)
      ensures outcome.Failure? ==> state == Errored(outcome.error)
      ensures jobsStarted == old(jobsStarted)
    {
      match outcome {
        case Success(newData) => state := Fetched(newData);
        case Failure(error) => state := Errored(error);
      }
    }
  }

  // ----------------------------------------------------- response shapes

  /** A decoded JSON response. */
  datatype Json =
    | JObject(fields: map<string, Json>)
    | JArray(elements: seq<Json>)
    | JNumber(n: real)
    | JString(s: string)
    | JBool(b: bool)
    | JNull

  /** `is.object`: arrays are objects too. */
  predicate IsObject(j: Json)
  {
    j.JObject? || j.JArray?
  }

  function Field(j: Json, name: string): Option<Json>
  {
    if j.JObject? && name in j.fields then Some(j.fields[name]) else None
  }

  predicate NumberField(j: Json, name: string)
  {
    Field(j, name).Some? && Field(j, name).value.JNumber?
  }

  /** The numeric field, read after validation (0 stands for what the
      validator has excluded). */
  function Number(j: Json, name: string): real
  {
    if NumberField(j, name) then Field(j, name).value.n else 0.0
  }

  const ListingFields: seq<string> := ["itemID", "minPriceNQ", "minPriceHQ"]
  const HistoryFields: seq<string> := ["itemID", "nqSaleVelocity", "hqSaleVelocity"]

  /** An element of `items`: an object with every required field numeric. */
  predicate ItemShape(item: Json, fields: seq<string>)
  {
    IsObject(item) && forall f :: f in fields ==> NumberField(item, f)
  }

  /** The whole response: an object whose `items` is an array of elements of
      the right shape. */
  predicate ResponseShape(response: Json, fields: seq<string>)
  {
    && IsObject(response)
    && Field(response, "items").Some? && Field(response, "items").value.JArray?
    && forall i :: 0 <= i < |Field(response, "items").value.elements| ==>
         ItemShape(Field(response, "items").value.elements[i], fields)
  }

  /** The shape validators, `assertUniversalisDataResponseShape` with the
      listing fields and `assertUniversalisHistoryResponseShape` with the
      history ones: the items of a well-shaped response, a failure
      otherwise. */
  method AssertResponseShape(response: Json, fields: seq<string>) returns (r: Result<seq<Json>, FetchError>)
    ensures r.Success? <==> ResponseShape(response, fields)
    ensures r.Success? ==> r.value == Field(response, "items").value.elements
    ensures r == ShapedItems(response, fields)
  {
    if !IsObject(response) {
      return Failure(BadShape("response is not an object"));
    }
    var items := Field(response, "items");
    if items.None? || !items.value.JArray? {
      return Failure(BadShape("items is not an array"));
    }
    var elements := items.value.elements;
    for i := 0 to |elements|
      invariant forall j :: 0 <= j < i ==> ItemShape(elements[j], fields)
    {
      if !ItemShape(elements[i], fields) {
        return Failure(BadShape("malformed item"));
      }
    }
    return Success(elements);
  }

  /** What the validators decide, as a value: the first check that fails
      names the failure. */
  function ShapedItems(response: Json, fields: seq<string>): (r: Result<seq<Json>, FetchError>)
    ensures r.Success? <==> ResponseShape(response, fields)
    ensures r.Success? ==> r.value == Field(response, "items").value.elements
    ensures r.Failure? ==> r.error.BadShape?
    ensures !IsObject(response) ==> r == Failure(BadShape("response is not an object"))
    ensures IsObject(response) && (Field(response, "items").None? || !Field(response, "items").value.JArray?) ==>
      r == Failure(BadShape("items is not an array"))
    ensures IsObject(response) && Field(response, "items").Some? && Field(response, "items").value.JArray? ==>
      (r == Failure(BadShape("malformed item")) <==>
       exists i :: 0 <= i < |Field(response, "items").value.elements| &&
         !ItemShape(Field(response, "items").value.elements[i], fields))
  {
    if !IsObject(response) then Failure(BadShape("response is not an object"))
    else if Field(response, "items").None? || !Field(response, "items").value.JArray? then
      Failure(BadShape("items is not an array"))
    else if ResponseShape(response, fields) then Success(Field(response, "items").value.elements)
    else Failure(BadShape("malformed item"))
  }

  // --------------------------------------------------------------- intoMap

  function ItemIdKey(j: Json): real
  {
    Number(j, "itemID")
  }

  function KeyedPair(j: Json): (real, Json)
  {
    (ItemIdKey(j), j)
  }

  function KeyedByItemId(items: seq<Json>): seq<(real, Json)>
  {
    Select(items, KeyedPair)
  }

  /** `intoMap`: the response items keyed by `itemID`, a later duplicate
      replacing an earlier one. */
  method IntoMap(items: seq<Json>) returns (m: OrderedMap<real, Json>)
    ensures m == FromEntries(KeyedByItemId(items))
  {
    m := Empty();
    for i := 0 to |items|
      invariant m == FromEntries(KeyedByItemId(items[..i]))
    {
      KeyedSnoc(items, i);
      m := m.Set(ItemIdKey(items[i]), items[i]);
    }
    assert items[..|items|] == items;
  }

  lemma KeyedSnoc(items: seq<Json>, i: nat)
    requires i < |items|
    ensures FromEntries(KeyedByItemId(items[..i + 1])) ==
      FromEntries(KeyedByItemId(items[..i])).Set(ItemIdKey(items[i]), items[i])
  {
    var pairs := KeyedByItemId(items[..i + 1]);
    var prefix := KeyedByItemId(items[..i]);
    assert |pairs[..i]| == |prefix|;
    assert forall j :: 0 <= j < i ==> pairs[..i][j] == prefix[j];
    assert pairs[..i] == prefix;
    assert pairs[i] == KeyedPair(items[i]);
  }

  /** Every entry of `intoMap` is stored under its own `itemID`, and it is the
      last item carrying that id. */
  lemma IntoMapKeys(items: seq<Json>)
    ensures forall k :: k in FromEntries(KeyedByItemId(items)).entries ==>
      ItemIdKey(FromEntries(KeyedByItemId(items)).entries[k]) == k
    ensures forall k :: k in FromEntries(KeyedByItemId(items)).entries <==>
      exists i :: 0 <= i < |items| && ItemIdKey(items[i]) == k
  {
    var pairs := KeyedByItemId(items);
    forall k
      ensures k in FromEntries(pairs).entries ==> ItemIdKey(FromEntries(pairs).entries[k]) == k
      ensures k in FromEntries(pairs).entries <==> exists i :: 0 <= i < |items| && ItemIdKey(items[i]) == k
    {
      FromEntriesLookup(pairs, k);
    }
  }

  // ----------------------------------------------------------------- merge

  /** The entry the job stores for an item present in both responses. */
  function InfoOf(data: Json, history: Json, dcOrWorld: string): MarketBoardInfo
  {
    var id := ItemIdKey(data);
    MarketBoardInfo(id, dcOrWorld,
      GradeInfo(false, Number(data, "minPriceNQ"), Number(history, "nqSaleVelocity")),
      GradeInfo(true, Number(data, "minPriceHQ"), Number(history, "hqSaleVelocity")))
  }

  /** The loop over `itemDataMap.values()`: each listing whose item the history
      map also has is stored in `newData`. */
  function MergeValues(newData: Snapshot, values: seq<Json>, history: map<real, Json>, dcOrWorld: string): Snapshot
  {
    if values == [] then newData
    else
      var m := MergeValues(newData, values[..|values| - 1], history, dcOrWorld);
      var data := values[|values| - 1];
      if ItemIdKey(data) in history then m[ItemIdKey(data) := InfoOf(data, history[ItemIdKey(data)], dcOrWorld)]
      else m
  }

  /** Merge of one batch: the listings and history responses as maps, the
      listings visited in map order. */
  function MergeBatch(newData: Snapshot, listings: seq<Json>, history: seq<Json>, dcOrWorld: string): Snapshot
  {
    var itemDataMap := FromEntries(KeyedByItemId(listings));
    var historyDataMap := FromEntries(KeyedByItemId(history));
    MergeValues(newData, itemDataMap.Values(), historyDataMap.entries, dcOrWorld)
  }

  /** The merge loop of one batch, storing into `newData` one listing at a
      time. */
  method MergeListings(newData: Snapshot, values: seq<Json>, history: map<real, Json>, dcOrWorld: string)
    returns (merged: Snapshot)
    ensures merged == MergeValues(newData, values, history, dcOrWorld)
  {
    merged := newData;
    for i := 0 to |values|
      invariant merged == MergeValues(newData, values[..i], history, dcOrWorld)
    {
      assert values[..i + 1][..i] == values[..i];
      var data := values[i];
      var id := ItemIdKey(data);
      if id !in history {
        continue;
      }
      merged := merged[id := InfoOf(data, history[id], dcOrWorld)];
    }
    assert values[..|values|] == values;
  }

  lemma {:induction false} MergeValuesSpec(newData: Snapshot, values: seq<Json>, history: map<real, Json>, dcOrWorld: string, k: real)
    requires forall i, j :: 0 <= i < j < |values| ==> ItemIdKey(values[i]) != ItemIdKey(values[j])
    ensures k in MergeValues(newData, values, history, dcOrWorld) <==>
      k in newData || (k in history && exists i :: 0 <= i < |values| && ItemIdKey(values[i]) == k)
    ensures forall i :: 0 <= i < |values| && ItemIdKey(values[i]) == k && k in history ==>
      MergeValues(newData, values, history, dcOrWorld)[k] == InfoOf(values[i], history[k], dcOrWorld)
    ensures k in newData && (k !in history || forall i :: 0 <= i < |values| ==> ItemIdKey(values[i]) != k) ==>
      MergeValues(newData, values, history, dcOrWorld)[k] == newData[k]
  {
    if values != [] {
      var init := values[..|values| - 1];
      MergeValuesSpec(newData, init, history, dcOrWorld, k);
      assert forall i :: 0 <= i < |init| ==> init[i] == values[i];
    }
  }

  /** The merged snapshot holds an item iff it was already there or both
      responses of the batch carry it; such an item's prices come from the
      listings and its velocities from the history (the last entry of each
      with that id). */
  lemma MergeBatchSpec(newData: Snapshot, listings: seq<Json>, history: seq<Json>, dcOrWorld: string, k: real)
    ensures var itemDataMap := FromEntries(KeyedByItemId(listings)).entries;
            var historyDataMap := FromEntries(KeyedByItemId(history)).entries;
            var merged := MergeBatch(newData, listings, history, dcOrWorld);
            && (k in merged <==> k in newData || (k in itemDataMap && k in historyDataMap))
            && (k in itemDataMap && k in historyDataMap ==>
                  merged[k] == InfoOf(itemDataMap[k], historyDataMap[k], dcOrWorld) && merged[k].item == k)
            && (k in newData && !(k in itemDataMap && k in historyDataMap) ==> merged[k] == newData[k])
  {
    var itemDataMap := FromEntries(KeyedByItemId(listings));
    var historyDataMap := FromEntries(KeyedByItemId(history));
    var values := itemDataMap.Values();
    IntoMapKeys(listings);
    forall i, j | 0 <= i < j < |values| ensures ItemIdKey(values[i]) != ItemIdKey(values[j]) {
      assert ItemIdKey(values[i]) == itemDataMap.keys[i];
      assert ItemIdKey(values[j]) == itemDataMap.keys[j];
    }
    MergeValuesSpec(newData, values, historyDataMap.entries, dcOrWorld, k);
    if k in itemDataMap.entries {
      var i :| 0 <= i < |itemDataMap.keys| && itemDataMap.keys[i] == k;
      assert values[i] == itemDataMap.entries[k];
    }
    forall i | 0 <= i < |values| && ItemIdKey(values[i]) == k ensures k in itemDataMap.entries {
      assert ItemIdKey(values[i]) == itemDataMap.keys[i];
    }
  }

  // ------------------------------------------------------------- fetchJob

  /** The items the job asks about: those whose search category is a number
      greater than 0. */
  predicate Marketable(item: Item)
  {
    item.itemSearchCategory.Some? && item.itemSearchCategory.value > 0
  }

  function MarketableIds(items: seq<Item>): seq<int>
  {
    Select(Where(items, Marketable), ItemIdOf)
  }

  const BatchSize := 100

  /** One batch per iteration: listings, validated and mapped, then history,
      validated and mapped, then the merge; the first failure ends the job. */
  function FetchBatches(batches: seq<seq<int>>, b: nat, newData: Snapshot, dcOrWorld: string,
                        listings: seq<int> -> Result<Json, FetchError>,
                        history: seq<int> -> Result<Json, FetchError>): Result<Snapshot, FetchError>
    requires b <= |batches|
    decreases |batches| - b
  {
    if b == |batches| then Success(newData)
    else
      var data :- listings(batches[b]);
      var dataItems :- ShapedItems(data, ListingFields);
      var hist :- history(batches[b]);
      var historyItems :- ShapedItems(hist, HistoryFields);
      FetchBatches(batches, b + 1, MergeBatch(newData, dataItems, historyItems, dcOrWorld), dcOrWorld, listings, history)
  }

  /** The validated listings and history items of one batch. */
  function BatchResponses(batch: seq<int>, listings: seq<int> -> Result<Json, FetchError>,
                          history: seq<int> -> Result<Json, FetchError>): Result<(seq<Json>, seq<Json>), FetchError>
  {
    var data :- listings(batch);
    var dataItems :- ShapedItems(data, ListingFields);
    var hist :- history(batch);
    var historyItems :- ShapedItems(hist, HistoryFields);
    Success((dataItems, historyItems))
  }

  /** Both responses of a batch carry the item. */
  predicate Carries(rs: Result<(seq<Json>, seq<Json>), FetchError>, k: real)
  {
    && rs.Success?
    && k in FromEntries(KeyedByItemId(rs.value.0)).entries
    && k in FromEntries(KeyedByItemId(rs.value.1)).entries
  }

  /** The entry a batch that carries the item stores for it. */
  function CarriedInfo(rs: Result<(seq<Json>, seq<Json>), FetchError>, k: real, dcOrWorld: string): MarketBoardInfo
    requires Carries(rs, k)
  {
    InfoOf(FromEntries(KeyedByItemId(rs.value.0)).entries[k], FromEntries(KeyedByItemId(rs.value.1)).entries[k], dcOrWorld)
  }

  /** Batch `c` carries the item and no later batch does. */
  predicate LastCarrier(batches: seq<seq<int>>, c: nat, listings: seq<int> -> Result<Json, FetchError>,
                        history: seq<int> -> Result<Json, FetchError>, k: real)
    requires c < |batches|
  {
    && Carries(BatchResponses(batches[c], listings, history), k)
    && forall d :: c < d < |batches| ==> !Carries(BatchResponses(batches[d], listings, history), k)
  }

  /** The job over several batches: when it succeeds every batch's responses
      were well shaped, an item is in the snapshot iff it was there already
      or some batch's listings and history both carry it, the last such batch
      gives its entry, and untouched entries are kept. */
  lemma {:induction false} FetchBatchesSpec(batches: seq<seq<int>>, b: nat, newData: Snapshot, dcOrWorld: string,
                                            listings: seq<int> -> Result<Json, FetchError>,
                                            history: seq<int> -> Result<Json, FetchError>, k: real)
    requires b <= |batches|
    requires FetchBatches(batches, b, newData, dcOrWorld, listings, history).Success?
    ensures var m := FetchBatches(batches, b, newData, dcOrWorld, listings, history).value;
      && (forall c :: b <= c < |batches| ==> BatchResponses(batches[c], listings, history).Success?)
      && (k in m <==> k in newData || exists c :: b <= c < |batches| && Carries(BatchResponses(batches[c], listings, history), k))
      && (forall c :: b <= c < |batches| && LastCarrier(batches, c, listings, history, k) ==>
            k in m && m[k] == CarriedInfo(BatchResponses(batches[c], listings, history), k, dcOrWorld))
      && ((forall c :: b <= c < |batches| ==> !Carries(BatchResponses(batches[c], listings, history), k)) && k in newData ==>
            m[k] == newData[k])
    decreases |batches| - b
  {
    if b < |batches| {
      var rs := BatchResponses(batches[b], listings, history);
      FetchBatchesStep(batches, b, newData, dcOrWorld, listings, history);
      var next := MergeBatch(newData, rs.value.0, rs.value.1, dcOrWorld);
      FetchBatchesSpec(batches, b + 1, next, dcOrWorld, listings, history, k);
      MergeCarried(newData, rs, dcOrWorld, k);
      var m := FetchBatches(batches, b + 1, next, dcOrWorld, listings, history).value;
      forall c | b <= c < |batches|
        ensures BatchResponses(batches[c], listings, history).Success?
      {
        if c == b {
          assert rs.Success?;
        }
      }
      forall c | b <= c < |batches| && LastCarrier(batches, c, listings, history, k)
        ensures k in m && m[k] == CarriedInfo(BatchResponses(batches[c], listings, history), k, dcOrWorld)
      {
        if c == b {
          assert forall d :: b + 1 <= d < |batches| ==> !Carries(BatchResponses(batches[d], listings, history), k);
        }
      }
    }
  }

  /** One batch of a successful job: its responses are well shaped and the
      job goes on from their merge. */
  lemma FetchBatchesStep(batches: seq<seq<int>>, b: nat, newData: Snapshot, dcOrWorld: string,
                         listings: seq<int> -> Result<Json, FetchError>,
                         history: seq<int> -> Result<Json, FetchError>)
    requires b < |batches|
    requires FetchBatches(batches, b, newData, dcOrWorld, listings, history).Success?
    ensures var rs := BatchResponses(batches[b], listings, history);
      && rs.Success?
      && FetchBatches(batches, b, newData, dcOrWorld, listings, history)
         == FetchBatches(batches, b + 1, MergeBatch(newData, rs.value.0, rs.value.1, dcOrWorld), dcOrWorld, listings, history)
  {
  }

  /** `MergeBatchSpec` in terms of what a batch carries. */
  lemma MergeCarried(newData: Snapshot, rs: Result<(seq<Json>, seq<Json>), FetchError>, dcOrWorld: string, k: real)
    requires rs.Success?
    ensures var next := MergeBatch(newData, rs.value.0, rs.value.1, dcOrWorld);
      && (k in next <==> k in newData || Carries(rs, k))
      && (Carries(rs, k) ==> next[k] == CarriedInfo(rs, k, dcOrWorld))
      && (!Carries(rs, k) && k in newData ==> next[k] == newData[k])
  {
    MergeBatchSpec(newData, rs.value.0, rs.value.1, dcOrWorld, k);
  }

  function FetchSpec(items: seq<Item>, dcOrWorld: string,
                     listings: seq<int> -> Result<Json, FetchError>,
                     history: seq<int> -> Result<Json, FetchError>): Result<Snapshot, FetchError>
  {
    FetchBatches(Chunks(MarketableIds(items), BatchSize), 0, map[], dcOrWorld, listings, history)
  }

  /** A successful job's snapshot holds exactly the items that both responses
      of some batch carry, each with the entry of the last such batch. */
  lemma {:induction false} JobSnapshot(items: seq<Item>, dcOrWorld: string,
                    listings: seq<int> -> Result<Json, FetchError>,
                    history: seq<int> -> Result<Json, FetchError>, k: real)
    requires FetchSpec(items, dcOrWorld, listings, history).Success?
    ensures var batches := Chunks(MarketableIds(items), BatchSize);
      var snapshot := FetchSpec(items, dcOrWorld, listings, history).value;
      && (k in snapshot <==> exists c :: 0 <= c < |batches| && Carries(BatchResponses(batches[c], listings, history), k))
      && (forall c :: 0 <= c < |batches| && LastCarrier(batches, c, listings, history, k) ==>
            k in snapshot && snapshot[k] == CarriedInfo(BatchResponses(batches[c], listings, history), k, dcOrWorld))
  {
    var empty: Snapshot := map[];
    FetchSpecBatches(items, dcOrWorld, listings, history);
    FetchBatchesSpec(Chunks(MarketableIds(items), BatchSize), 0, empty, dcOrWorld, listings, history, k);
  }

  lemma FetchSpecBatches(items: seq<Item>, dcOrWorld: string,
                         listings: seq<int> -> Result<Json, FetchError>,
                         history: seq<int> -> Result<Json, FetchError>)
    ensures FetchSpec(items, dcOrWorld, listings, history)
         == FetchBatches(Chunks(MarketableIds(items), BatchSize), 0, map[], dcOrWorld, listings, history)
  {
  }

  /** The batches the job requests partition the marketable ids, in catalog
      order, into batches of 100 with a possibly shorter last one. */
  lemma JobBatches(items: seq<Item>)
    ensures Flatten(Chunks(MarketableIds(items), BatchSize)) == MarketableIds(items)
    ensures Batched(Chunks(MarketableIds(items), BatchSize), BatchSize)
  {
    ChunksPartition(MarketableIds(items), BatchSize);
  }

  /** Only marketable items are requested. */
  lemma {:induction false} MarketableIdsSpec(items: seq<Item>, i: nat)
    requires i < |MarketableIds(items)|
    ensures exists item :: item in items && Marketable(item) && item.id == MarketableIds(items)[i]
  {
    var w := Where(items, Marketable);
    WhereMember(items, Marketable, w[i]);
  }

  /** `fetchJob`, with the two network calls abstracted into `listings` and
      `history`. */
  method FetchJob(items: seq<Item>, dcOrWorld: string,
                  listings: seq<int> -> Result<Json, FetchError>,
                  history: seq<int> -> Result<Json, FetchError>) returns (r: Result<Snapshot, FetchError>)
    ensures r == FetchSpec(items, dcOrWorld, listings, history)
  {
    var newData: Snapshot := map[];
    var groups := Group(MarketableIds(items), BatchSize);
    var batches := groups.value;
    for b := 0 to |batches|
      invariant FetchSpec(items, dcOrWorld, listings, history) == FetchBatches(batches, b, newData, dcOrWorld, listings, history)
    {
      var data := listings(batches[b]);
      if data.Failure? {
        return Failure(data.error);
      }
      var dataItems := AssertResponseShape(data.value, ListingFields);
      if dataItems.Failure? {
        return Failure(dataItems.error);
      }
      var itemDataMap := IntoMap(dataItems.value);
      var hist := history(batches[b]);
      if hist.Failure? {
        return Failure(hist.error);
      }
      var historyItems := AssertResponseShape(hist.value, HistoryFields);
      if historyItems.Failure? {
        return Failure(historyItems.error);
      }
      var historyDataMap := IntoMap(historyItems.value);
      newData := MergeListings(newData, itemDataMap.Values(), historyDataMap.entries, dcOrWorld);
    }
    return Success(newData);
  }
}
