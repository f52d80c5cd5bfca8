/**
 * The add / edit asset form: its default field values, the change handler,
 * the asset data it sends and which request it makes. Dates are the
 * "YYYY-MM-DD" text of an ISO timestamp; today's text and the edited
 * asset's acquisition day are parameters (the clock and date formatting).
 * The GoldUnit and Currency enumerations are not part of this model; their
 * GRAM and USD members are taken to be the texts "GRAM" and "USD".
 */
module AssetForm {
  import opened Wrappers
  import opened AssetSlice

  const GramUnit: string := "GRAM"
  const UsdCurrency: string := "USD"
  const SaveFailed: string := "Failed to save asset. Please try again."

  /** The inputs of the form, named as handleChange receives them. */
  datatype Field = Quantity | PurchaseValue | AcquiredOn | Unit | Ticker | Name | CurrencyField

  /** assetDetails of the payload: unit only for gold, ticker only for stock, name and currency always. */
  datatype DetailsPayload = DetailsPayload(unit: Option<string>, ticker: Option<string>, name: string, currency: string)

  /** The assetData the form sends; a None number is NaN. */
  datatype AssetPayload = AssetPayload(assetType: string, quantity: Option<real>, purchaseValue: Option<real>,
                                       acquiredOn: string, details: DetailsPayload)

  /** The request handleSubmit makes. */
  datatype Request = Update(assetId: int, data: AssetPayload) | Create(data: AssetPayload)

  /** The payload built from the form's fields for an asset type. */
  function PayloadOf(assetType: string, quantity: Option<real>, purchaseValue: Option<real>, acquiredOn: string,
                     unit: string, ticker: string, name: string, currency: string): (r: AssetPayload)
    ensures r.details.unit.Some? <==> assetType == "GOLD"
    ensures r.details.ticker.Some? <==> assetType == "STOCK"
    ensures r.details.unit.Some? ==> r.details.unit.value == unit
    ensures r.details.ticker.Some? ==> r.details.ticker.value == ticker
    ensures r.details.name == name && r.details.currency == currency
    ensures r.assetType == assetType && r.quantity == quantity && r.purchaseValue == purchaseValue
    ensures r.acquiredOn == acquiredOn
  {
    AssetPayload(assetType, quantity, purchaseValue, acquiredOn,
                 DetailsPayload(if assetType == "GOLD" then Some(unit) else None,
                                if assetType == "STOCK" then Some(ticker) else None, name, currency))
  }

  /** The request for a payload: update the edited asset, or create. */
  function RequestOf(asset: Option<ClientAsset>, data: AssetPayload): (r: Request)
    ensures r.Update? <==> asset.Some?
    ensures r.Update? ==> r.assetId == asset.value.assetId
    ensures r.data == data
  {
    if asset.Some? then Update(asset.value.assetId, data) else Create(data)
  }

  /** What a submission ends in: the form closes (and the page reloads), or it shows the error and calls onSubmitEnd. */
  datatype Ending = Closed | ShowsError(submitEndCalled: bool)

  /** The form's state. */
  class AssetForm {
    var quantity: Option<real>
    var purchaseValue: Option<real>
    var acquiredOn: string
    var unit: string
    var ticker: string
    var name: string
    var currency: string
    var loading: bool
    var error: string

    /**
     * The initial form data: the edited asset's values where present and
     * truthy (`x || 0` leaves a number as it is), today when
     * it has no acquisition date, and GRAM, "", "" and USD for missing
     * details; a new asset starts from those defaults with quantity and
     * value 0.
     */
    constructor (asset: Option<ClientAsset>, acquiredDay: string, today: string)
      ensures asset.None? ==> quantity == Some(0.0) && purchaseValue == Some(0.0) && acquiredOn == today
      ensures asset.None? ==> unit == GramUnit && ticker == "" && name == "" && currency == UsdCurrency
      ensures asset.Some? ==> quantity == Some(asset.value.quantity) && purchaseValue == Some(asset.value.purchaseValue)
      ensures asset.Some? ==> acquiredOn == (if Truthy(asset.value.acquiredOn) then acquiredDay else today)
      ensures asset.Some? ==> unit == TextOr(asset.value.details.unit, GramUnit)
      ensures asset.Some? ==> ticker == TextOr(asset.value.details.ticker, "")
      ensures asset.Some? ==> name == TextOr(asset.value.details.name, "")
      ensures asset.Some? ==> currency == TextOr(asset.value.details.currency, UsdCurrency)
      ensures !loading && error == ""
    {
      loading, error := false, "";
      match asset
      case None =>
        quantity, purchaseValue, acquiredOn := Some(0.0), Some(0.0), today;
        unit, ticker, name, currency := GramUnit, "", "", UsdCurrency;
      case Some(a) =>
        quantity, purchaseValue := Some(a.quantity), Some(a.purchaseValue);
        acquiredOn := if Truthy(a.acquiredOn) then acquiredDay else today;
        unit, ticker := TextOr(a.details.unit, GramUnit), TextOr(a.details.ticker, "");
        name, currency := TextOr(a.details.name, ""), TextOr(a.details.currency, UsdCurrency);
    }

    /**
     * handleChange: quantity and purchaseValue store the number parseFloat
     * reads from the text (`parsed`, None for NaN); every other field stores
     * the text itself. Nothing else changes.
     */
    method HandleChange(field: Field, text: string, parsed: Option<real>)
      modifies this`quantity, this`purchaseValue, this`acquiredOn, this`unit, this`ticker, this`name, this`currency
      ensures quantity == (if field == Quantity then parsed else old(quantity))
      ensures purchaseValue == (if field == PurchaseValue then parsed else old(purchaseValue))
      ensures acquiredOn == (if field == AcquiredOn then text else old(acquiredOn))
      ensures unit == (if field == Unit then text else old(unit))
      ensures ticker == (if field == Ticker then text else old(ticker))
      ensures name == (if field == Name then text else old(name))
      ensures currency == (if field == CurrencyField then text else old(currency))
    {
      match field
      case Quantity => quantity := parsed;
      case PurchaseValue => purchaseValue := parsed;
      case AcquiredOn => acquiredOn := text;
      case Unit => unit := text;
      case Ticker => ticker := text;
      case Name => name := text;
      case CurrencyField => currency := text;
    }

    /**
     * handleSubmit: the request for the current fields; when the service
     * fails the form shows the fixed error and calls onSubmitEnd, otherwise
     * it closes. Loading is off afterwards either way.
     */
    method Submit(assetType: string, asset: Option<ClientAsset>, requestFails: bool) returns (request: Request, ending: Ending)
      modifies this`loading, this`error
      ensures request == RequestOf(asset, PayloadOf(assetType, quantity, purchaseValue, acquiredOn, unit, ticker, name, currency))
      ensures requestFails ==> ending == ShowsError(true) && error == SaveFailed
      ensures !requestFails ==> ending == Closed && error == ""
      ensures !loading
    {
      loading, error := true, "";
      var data := PayloadOf(assetType, quantity, purchaseValue, acquiredOn, unit, ticker, name, currency);
      request := RequestOf(asset, data);
      if requestFails {
        error := SaveFailed;
        ending := ShowsError(true);
      } else {
        ending := Closed;
      }
      loading := false;
    }
  }

  /**
   * Editing a gold asset and submitting untouched sends its own quantity,
   * value and unit (GRAM when it had none) as an update of that asset, and
   * no ticker.
   */
  lemma UntouchedGoldEdit(a: ClientAsset, acquiredDay: string, today: string)
    ensures var unit := TextOr(a.details.unit, GramUnit);
      var p := PayloadOf("GOLD", Some(a.quantity), Some(a.purchaseValue), if Truthy(a.acquiredOn) then acquiredDay else today,
                         unit, TextOr(a.details.ticker, ""), TextOr(a.details.name, ""), TextOr(a.details.currency, UsdCurrency));
      var r := RequestOf(Some(a), p);
      r == Update(a.assetId, p) && p.quantity == Some(a.quantity) && p.purchaseValue == Some(a.purchaseValue)
      && p.details.unit == Some(unit) && p.details.ticker.None?
  {
  }
}
