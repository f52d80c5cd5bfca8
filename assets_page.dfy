/**
 * The asset management page: a create-asset form over the page's own state
 * and the list of the user's assets. The asset service's answers are
 * parameters. The AssetType and GoldUnit enumerations are not part of this
 * model: the three asset types are a datatype, and GoldUnit's GRAM member
 * is the text "GRAM" of the asset form.
 */
module AssetsPage {
  import opened Wrappers
  import opened AssetSlice
  import AssetForm

  /** The AssetType choices of the page's select. */
  datatype AssetKind = GoldKind | StockKind | CurrencyKind

  /** The assetDetails object the page fills in; None is a field it leaves unset. */
  datatype PageDetails = PageDetails(unit: Option<string>, ticker: Option<string>, name: Option<string>,
                                     currencyCode: Option<string>)

  /**
   * assetDetails: the unit for gold, ticker and name for stock, currency
   * code and the currency's name for currency, and no other field.
   */
  function DetailsOf(kind: AssetKind, unit: string, ticker: string, name: string, currencyCode: string,
                     currencyName: string): (r: PageDetails)
    ensures kind == GoldKind ==> r == PageDetails(Some(unit), None, None, None)
    ensures kind == StockKind ==> r == PageDetails(None, Some(ticker), Some(name), None)
    ensures kind == CurrencyKind ==> r == PageDetails(None, None, Some(currencyName), Some(currencyCode))
  {
    match kind
    case GoldKind => PageDetails(Some(unit), None, None, None)
    case StockKind => PageDetails(None, Some(ticker), Some(name), None)
    case CurrencyKind => PageDetails(None, None, Some(currencyName), Some(currencyCode))
  }

  /** The createAsset call: type, quantity, purchase value (None for NaN) and details. */
  datatype CreateRequest = CreateRequest(kind: AssetKind, quantity: Option<real>, purchaseValue: Option<real>,
                                         details: PageDetails)

  const LoadFailed: string := "Failed to load assets"
  const CreateFailed: string := "Failed to create asset"

  /** The page's state. */
  class AssetsPage {
    var assetType: AssetKind
    var quantity: Option<real>
    var purchaseValue: Option<real>
    var unit: string
    var ticker: string
    var name: string
    var currencyCode: string
    var currencyName: string
    var assets: seq<ClientAsset>
    var isLoadingAssets: bool
    var isSubmitting: bool
    var error: string

    /** The useState initial values. */
    constructor ()
      ensures assetType == GoldKind && quantity == Some(0.0) && purchaseValue == Some(0.0)
      ensures unit == AssetForm.GramUnit && ticker == "" && name == "" && currencyCode == "" && currencyName == ""
      ensures assets == [] && !isLoadingAssets && !isSubmitting && error == ""
    {
      assetType, quantity, purchaseValue := GoldKind, Some(0.0), Some(0.0);
      unit, ticker, name, currencyCode, currencyName := AssetForm.GramUnit, "", "", "", "";
      assets, isLoadingAssets, isSubmitting, error := [], false, false, "";
    }

    /**
     * fetchAssets: `reply` is the service's answer, None when the call
     * throws and Some(None) when it answers null. A null list becomes the
     * empty list; a failure keeps the list and sets the load error.
     * Loading is off afterwards.
     */
    method FetchAssets(reply: Option<Option<seq<ClientAsset>>>)
      modifies this`assets, this`isLoadingAssets, this`error
      ensures reply.None? ==> assets == old(assets) && error == LoadFailed
      ensures reply.Some? ==> error == "" && assets == (if reply.value.Some? then reply.value.value else [])
      ensures !isLoadingAssets
    {
      error, isLoadingAssets := "", true;
      match reply {
        case None =>
          error := LoadFailed;
        case Some(list) =>
          assets := if list.Some? then list.value else [];
      }
      isLoadingAssets := false;
    }

    /** The form's setters: one field each. */
    method SetAssetType(kind: AssetKind)
      modifies this`assetType
      ensures assetType == kind
    {
      assetType := kind;
    }

    method SetQuantity(parsed: Option<real>)
      modifies this`quantity
      ensures quantity == parsed
    {
      quantity := parsed;
    }

    method SetPurchaseValue(parsed: Option<real>)
      modifies this`purchaseValue
      ensures purchaseValue == parsed
    {
      purchaseValue := parsed;
    }

    method SetUnit(text: string)
      modifies this`unit
      ensures unit == text
    {
      unit := text;
    }

    method SetTicker(text: string)
      modifies this`ticker
      ensures ticker == text
    {
      ticker := text;
    }

    method SetName(text: string)
      modifies this`name
      ensures name == text
    {
      name := text;
    }

    method SetCurrencyCode(text: string)
      modifies this`currencyCode
      ensures currencyCode == text
    {
      currencyCode := text;
    }

    method SetCurrencyName(text: string)
      modifies this`currencyName
      ensures currencyName == text
    {
      currencyName := text;
    }

    /**
     * handleSubmit: sends the create request for the current fields. On
     * success every field but the type is reset (the unit back to GRAM) and
     * the list is refetched with `refetch`; on failure the fields stay and
     * the error is set. Submitting is off afterwards.
     */
    method HandleSubmit(createFails: bool, refetch: Option<Option<seq<ClientAsset>>>) returns (request: CreateRequest)
      modifies this`quantity, this`purchaseValue, this`unit, this`ticker, this`name, this`currencyCode,
               this`currencyName, this`assets, this`isLoadingAssets, this`isSubmitting, this`error
      ensures request == CreateRequest(old(assetType), old(quantity), old(purchaseValue),
                                       DetailsOf(old(assetType), old(unit), old(ticker), old(name), old(currencyCode), old(currencyName)))
      ensures createFails ==> error == CreateFailed && assets == old(assets)
      ensures createFails ==> quantity == old(quantity) && purchaseValue == old(purchaseValue) && unit == old(unit)
      ensures createFails ==> ticker == old(ticker) && name == old(name)
      ensures createFails ==> currencyCode == old(currencyCode) && currencyName == old(currencyName)
      ensures !createFails ==> quantity == Some(0.0) && purchaseValue == Some(0.0) && unit == AssetForm.GramUnit
      ensures !createFails ==> ticker == "" && name == "" && currencyCode == "" && currencyName == ""
      ensures !createFails && refetch.None? ==> error == LoadFailed && assets == old(assets)
      ensures !createFails && refetch.Some? ==>
        error == "" && assets == (if refetch.value.Some? then refetch.value.value else [])
      ensures !isSubmitting
    {
      error, isSubmitting := "", true;
      request := CreateRequest(assetType, quantity, purchaseValue, DetailsOf(assetType, unit, ticker, name, currencyCode, currencyName));
      if createFails {
        error := CreateFailed;
      } else {
        quantity, purchaseValue, unit := Some(0.0), Some(0.0), AssetForm.GramUnit;
        ticker, name, currencyCode, currencyName := "", "", "", "";
        FetchAssets(refetch);
      }
      isSubmitting := false;
    }
  }

  /** The details carry exactly the fields of their kind: a unit only for gold, a currency code only for currency. */
  lemma DetailsFieldsByKind(kind: AssetKind, unit: string, ticker: string, name: string, code: string, cname: string)
    ensures var d := DetailsOf(kind, unit, ticker, name, code, cname);
      (d.unit.Some? <==> kind == GoldKind) && (d.ticker.Some? <==> kind == StockKind)
      && (d.currencyCode.Some? <==> kind == CurrencyKind) && (d.name.Some? <==> kind != GoldKind)
  {
  }
}
