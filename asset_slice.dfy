/**
 * The assets slice of the client store: the asset record the client holds,
 * the class AssetStore whose methods are the reducers and the pending /
 * fulfilled / rejected cases of the asset thunks, and the decisions
 * fetchAllAssetData takes on the fetched list. Service answers are
 * parameters.
 */
module AssetSlice {
  import opened Wrappers
  import opened Js
  import opened Sorting
  import AssetService

  /** asset_details as the client receives it; None is an absent field. */
  datatype ClientDetails = ClientDetails(unit: Option<string>, ticker: Option<string>, name: Option<string>,
                                         currency: Option<string>)

  /** An Asset as the client holds it; assetType is None when the field is absent. */
  datatype ClientAsset = ClientAsset(assetId: int, assetType: Option<string>, quantity: real, purchaseValue: real,
                                     currentValue: real, acquiredOn: Option<string>, details: ClientDetails)

  /** One point of a price history. */
  datatype PricePoint = PricePoint(date: string, price: real)

  /** `asset.asset_type?.toUpperCase() === t` */
  predicate OfType(a: ClientAsset, t: string)
  {
    a.assetType.Some? && ToUpper(a.assetType.value) == t
  }

  predicate IsGold(a: ClientAsset)
  {
    OfType(a, "GOLD")
  }

  predicate IsStock(a: ClientAsset)
  {
    OfType(a, "STOCK")
  }

  predicate IsCurrency(a: ClientAsset)
  {
    OfType(a, "CURRENCY")
  }

  /** `assets.filter(asset => asset.asset_id !== id)` */
  function WithoutAsset(assets: seq<ClientAsset>, id: int): (r: seq<ClientAsset>)
    ensures |r| <= |assets|
    ensures forall a :: a in r <==> a in assets && a.assetId != id
  {
    var r := Filter(assets, (a: ClientAsset) => a.assetId != id);
    assert forall a :: a in r ==> a.assetId != id by {
      forall a | a in r
        ensures a.assetId != id
      {
        var k :| 0 <= k < |r| && r[k] == a;
      }
    }
    r
  }

  /** Removing twice is removing once; removing an absent id changes nothing. */
  lemma {:induction false} WithoutAssetAbsent(assets: seq<ClientAsset>, id: int)
    requires forall i :: 0 <= i < |assets| ==> assets[i].assetId != id
    ensures WithoutAsset(assets, id) == assets
    decreases |assets|
  {
    if assets != [] {
      WithoutAssetAbsent(assets[1..], id);
      assert Filter(assets, (a: ClientAsset) => a.assetId != id)
          == [assets[0]] + Filter(assets[1..], (a: ClientAsset) => a.assetId != id);
    }
  }

  lemma WithoutAssetIdempotent(assets: seq<ClientAsset>, id: int)
    ensures WithoutAsset(WithoutAsset(assets, id), id) == WithoutAsset(assets, id)
  {
    var r := WithoutAsset(assets, id);
    forall i | 0 <= i < |r|
      ensures r[i].assetId != id
    {
      assert r[i] in r;
    }
    WithoutAssetAbsent(r, id);
  }

  const FetchFailed: string := "Failed to fetch assets. Please try again later."
  const SummaryFailed: string := "Failed to fetch portfolio summary. Please try again later."
  const GoldHistoryFailed: string := "Failed to fetch gold price history. Please try again later."
  const RefreshFailed: string := "Failed to refresh asset values. Please try again later."
  const AddFailed: string := "Failed to create asset. Please try again."
  const EditFailed: string := "Failed to update asset. Please try again."
  const RemoveFailed: string := "Failed to delete asset. Please try again."
  const FetchAllFailed: string := "Failed to fetch asset data. Please try again later."

  /** `Failed to fetch stock history for ${ticker}. Please try again later.` */
  function StockHistoryFailed(ticker: string): (r: string)
    ensures Includes(r, ticker)
  {
    var prefix := "Failed to fetch stock history for ";
    IncludesAfter(prefix, ticker, ". Please try again later.");
    prefix + ticker + ". Please try again later."
  }

  lemma {:induction false} IncludesAfter(prefix: string, part: string, suffix: string)
    ensures Includes(prefix + part + suffix, part)
    decreases |prefix|
  {
    if prefix == [] {
      assert part <= prefix + part + suffix;
    } else {
      assert (prefix + part + suffix)[1..] == prefix[1..] + part + suffix;
      IncludesAfter(prefix[1..], part, suffix);
    }
  }

  /** How the asset service answers a create or update: the record, or a failure with the server's error text if any. */
  datatype Reply<T> = Answered(value: T) | Refused(serverError: Option<string>)

  /**
   * addAsset / editAsset: the server's record, or a rejection carrying the
   * server's error text, the fixed message when there is none.
   */
  function MutationThunk<T>(reply: Reply<T>, fallback: string): (r: Result<T>)
    ensures r.Ok? <==> reply.Answered?
    ensures r.Ok? ==> r.value == reply.value
    ensures reply.Refused? && Truthy(reply.serverError) ==> r == Err(reply.serverError.value)
    ensures reply.Refused? && !Truthy(reply.serverError) ==> r == Err(fallback)
  {
    match reply
    case Answered(v) => Ok(v)
    case Refused(e) => Err(TextOr(e, fallback))
  }

  /** removeAsset fulfils with the id it was given. */
  function RemoveThunk(assetId: int, requestFails: bool): (r: Result<int>)
    ensures r.Ok? <==> !requestFails
    ensures r.Ok? ==> r.value == assetId
    ensures r.Err? ==> r.error == RemoveFailed
  {
    if requestFails then Err(RemoveFailed) else Ok(assetId)
  }

  // ---------------------------------------------------------------------------
  // fetchAllAssetData
  // ---------------------------------------------------------------------------

  /**
   * `assets.some(a => a.asset_type.toUpperCase() === "GOLD")`: Err when an
   * asset without a type is reached before a gold one (the call throws).
   */
  function SomeGold(assets: seq<ClientAsset>): (r: Result<bool>)
    ensures r == Ok(true) ==> exists i :: 0 <= i < |assets| && IsGold(assets[i])
    ensures r == Ok(false) ==> forall i :: 0 <= i < |assets| ==> !IsGold(assets[i])
  {
    if assets == [] then Ok(false)
    else if assets[0].assetType.None? then Err(FetchAllFailed)
    else if IsGold(assets[0]) then Ok(true)
    else
      var rest := SomeGold(assets[1..]);
      assert rest == Ok(true) ==> exists i :: 1 <= i < |assets| && IsGold(assets[i]) by {
        if rest == Ok(true) {
          var j :| 0 <= j < |assets[1..]| && IsGold(assets[1..][j]);
          assert IsGold(assets[j + 1]);
        }
      }
      rest
  }

  /** `assets.filter(a => a.asset_type.toUpperCase() === "STOCK")`: Err when some asset has no type. */
  function StockAssets(assets: seq<ClientAsset>): (r: Result<seq<ClientAsset>>)
    ensures r.Err? <==> exists i :: 0 <= i < |assets| && assets[i].assetType.None?
    ensures r.Ok? ==> r.value == Filter(assets, IsStock)
  {
    if assets == [] then Ok([])
    else if assets[0].assetType.None? then Err(FetchAllFailed)
    else
      var rest := StockAssets(assets[1..]);
      assert (exists i :: 0 <= i < |assets| && assets[i].assetType.None?)
         <==> (exists i :: 0 <= i < |assets[1..]| && assets[1..][i].assetType.None?) by {
        if exists i :: 0 <= i < |assets| && assets[i].assetType.None? {
          var i :| 0 <= i < |assets| && assets[i].assetType.None?;
          assert assets[1..][i - 1] == assets[i];
        }
      }
      match rest
      case Err(e) => Err(e)
      case Ok(ss) => Ok((if IsStock(assets[0]) then [assets[0]] else []) + ss)
  }

  /** What fetchAllAssetData dispatches after fetching the list, and whether it fulfils. */
  datatype FetchAllPlan = FetchAllPlan(goldHistory: bool, stockHistory: Option<string>, fulfilled: bool)

  /**
   * fetchAllAssetData on the fetched list (None when fetching failed): gold
   * history is requested when some asset is gold; stock history, for the
   * first stock's ticker, when that ticker is truthy. An asset without a
   * type makes the thunk throw and reject.
   */
  function PlanFetchAll(fetched: Option<seq<ClientAsset>>): (r: FetchAllPlan)
    ensures fetched.None? ==> r == FetchAllPlan(false, None, false)
  {
    match fetched
    case None => FetchAllPlan(false, None, false)
    case Some(assets) =>
      match SomeGold(assets)
      case Err(_) => FetchAllPlan(false, None, false)
      case Ok(gold) =>
        match StockAssets(assets)
        case Err(_) => FetchAllPlan(gold, None, false)
        case Ok(stocks) =>
          var ticker := if |stocks| > 0 && Truthy(stocks[0].details.ticker) then stocks[0].details.ticker else None;
          FetchAllPlan(gold, ticker, true)
  }

  lemma {:induction false} SomeGoldTyped(assets: seq<ClientAsset>)
    requires forall i :: 0 <= i < |assets| ==> assets[i].assetType.Some?
    ensures SomeGold(assets).Ok?
    decreases |assets|
  {
    if assets != [] && !IsGold(assets[0]) {
      SomeGoldTyped(assets[1..]);
    }
  }

  /**
   * When every fetched asset has a type the thunk fulfils; gold history is
   * requested iff some asset is gold (whatever the case of its type name),
   * and stock history iff the first stock asset has a non-empty ticker, for
   * that ticker.
   */
  lemma FetchAllRequests(assets: seq<ClientAsset>)
    requires forall i :: 0 <= i < |assets| ==> assets[i].assetType.Some?
    ensures PlanFetchAll(Some(assets)).fulfilled
    ensures PlanFetchAll(Some(assets)).goldHistory <==> exists i :: 0 <= i < |assets| && IsGold(assets[i])
    ensures var stocks := Filter(assets, IsStock);
      PlanFetchAll(Some(assets)).stockHistory
        == (if |stocks| > 0 && Truthy(stocks[0].details.ticker) then stocks[0].details.ticker else None)
  {
    SomeGoldTyped(assets);
  }

  /** An untyped asset makes the thunk reject. */
  lemma FetchAllRejectsUntyped(assets: seq<ClientAsset>, i: int)
    requires 0 <= i < |assets| && assets[i].assetType.None?
    ensures !PlanFetchAll(Some(assets)).fulfilled
    ensures PlanFetchAll(Some(assets)).stockHistory.None?
  {
  }

  /** The assets slice state. */
  class AssetStore {
    var assets: seq<ClientAsset>
    var summary: Option<AssetService.PortfolioSummary>
    var goldHistory: seq<PricePoint>
    var stockHistory: seq<PricePoint>
    var selectedStock: string
    var loading: bool
    var formLoading: bool
    var error: Option<string>
    var showAddForm: bool
    var selectedAssetType: Option<string>
    var editingAsset: Option<ClientAsset>
    var detailsModalType: Option<string>

    /** initialState */
    constructor ()
      ensures assets == [] && summary.None? && goldHistory == [] && stockHistory == [] && selectedStock == ""
      ensures loading && !formLoading && error.None? && !showAddForm
      ensures selectedAssetType.None? && editingAsset.None? && detailsModalType.None?
    {
      assets, summary, goldHistory, stockHistory, selectedStock := [], None, [], [], "";
      loading, formLoading, error, showAddForm := true, false, None, false;
      selectedAssetType, editingAsset, detailsModalType := None, None, None;
    }

    /** setShowAddForm: closing the form also forgets the chosen type. */
    method SetShowAddForm(show: bool)
      modifies this`showAddForm, this`selectedAssetType
      ensures showAddForm == show
      ensures !show ==> selectedAssetType.None?
      ensures show ==> selectedAssetType == old(selectedAssetType)
    {
      showAddForm := show;
      if !show {
        selectedAssetType := None;
      }
    }

    /** setSelectedAssetType: choosing a type (or none) always closes the add form. */
    method SetSelectedAssetType(t: Option<string>)
      modifies this`selectedAssetType, this`showAddForm
      ensures selectedAssetType == t && !showAddForm
    {
      selectedAssetType, showAddForm := t, false;
    }

    /**
     * setEditingAsset: the form opens on the asset's upper-cased type (none
     * when the asset or its type is absent or empty) and the details modal
     * closes.
     */
    method SetEditingAsset(a: Option<ClientAsset>)
      modifies this`editingAsset, this`selectedAssetType, this`detailsModalType
      ensures editingAsset == a && detailsModalType.None?
      ensures selectedAssetType.Some? <==> a.Some? && Truthy(a.value.assetType)
      ensures selectedAssetType.Some? ==> selectedAssetType.value == ToUpper(a.value.assetType.value)
    {
      editingAsset := a;
      selectedAssetType := if a.Some? && Truthy(a.value.assetType) then Some(ToUpper(a.value.assetType.value)) else None;
      detailsModalType := None;
    }

    method SetDetailsModalType(t: Option<string>)
      modifies this`detailsModalType
      ensures detailsModalType == t
    {
      detailsModalType := t;
    }

    method ClearAssetError()
      modifies this`error
      ensures error.None?
    {
      error := None;
    }

    /** fetchAssets.pending */
    method FetchPending()
      modifies this`loading, this`error
      ensures loading && error.None?
    {
      loading, error := true, None;
    }

    /** fetchAssets.fulfilled and refreshAssets.fulfilled: the list is replaced. */
    method ListFulfilled(fetched: seq<ClientAsset>)
      modifies this`assets, this`loading
      ensures assets == fetched && !loading
    {
      assets, loading := fetched, false;
    }

    /** fetchAssets.rejected and refreshAssets.rejected: the list is kept. */
    method ListRejected(message: string)
      modifies this`loading, this`error
      ensures !loading && error == Some(message)
    {
      loading, error := false, Some(message);
    }

    /** refreshAssets.pending sets loading and leaves the error as it is. */
    method RefreshPending()
      modifies this`loading
      ensures loading
    {
      loading := true;
    }

    /** fetchPortfolioSummary.fulfilled */
    method SummaryFulfilled(s: AssetService.PortfolioSummary)
      modifies this`summary
      ensures summary == Some(s)
    {
      summary := Some(s);
    }

    /** fetchGoldHistory.fulfilled */
    method GoldHistoryFulfilled(history: seq<PricePoint>)
      modifies this`goldHistory
      ensures goldHistory == history
    {
      goldHistory := history;
    }

    /** fetchStockHistory.fulfilled: the history and the ticker it is for. */
    method StockHistoryFulfilled(ticker: string, history: seq<PricePoint>)
      modifies this`stockHistory, this`selectedStock
      ensures stockHistory == history && selectedStock == ticker
    {
      stockHistory, selectedStock := history, ticker;
    }

    /** addAsset.pending and editAsset.pending */
    method FormPending()
      modifies this`formLoading, this`error
      ensures formLoading && error.None?
    {
      formLoading, error := true, None;
    }

    /** addAsset.fulfilled: the form closes; the list is refetched elsewhere. */
    method AddFulfilled()
      modifies this`formLoading, this`selectedAssetType
      ensures !formLoading && selectedAssetType.None?
    {
      formLoading, selectedAssetType := false, None;
    }

    /** editAsset.fulfilled: the form closes and editing ends. */
    method EditFulfilled()
      modifies this`formLoading, this`selectedAssetType, this`editingAsset
      ensures !formLoading && selectedAssetType.None? && editingAsset.None?
    {
      formLoading, selectedAssetType, editingAsset := false, None, None;
    }

    /** addAsset.rejected and editAsset.rejected */
    method FormRejected(message: string)
      modifies this`formLoading, this`error
      ensures !formLoading && error == Some(message)
    {
      formLoading, error := false, Some(message);
    }

    /** removeAsset.fulfilled: exactly the assets with that id go, the rest keep their order. */
    method RemoveFulfilled(assetId: int)
      modifies this`assets
      ensures assets == WithoutAsset(old(assets), assetId)
      ensures forall a :: a in assets <==> a in old(assets) && a.assetId != assetId
    {
      assets := WithoutAsset(assets, assetId);
    }
  }
}
