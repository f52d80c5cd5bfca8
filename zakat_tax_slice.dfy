/**
 * The zakat and tax summary in the store: how a fetched summary is shown.
 * A summary without assets reads "Nisaab Threshold Not Met" with nothing
 * payable, and one without income "Tax Threshold Not Met" with no tax.
 * The asset breakdown is the list of its values (Object.values).
 */
module ZakatTaxSlice {
  import opened Wrappers

  datatype Status = Status(status: string, basedOn: string)

  datatype ZakatSummary = ZakatSummary(nisaabStatus: Status, currentAssets: real, cashSavings: real, totalAssets: real,
                                       breakdown: seq<real>, nisaabThreshold: real, zakatRate: real, zakatPayable: real)

  datatype DueDate = DueDate(date: string, daysRemaining: int)

  datatype TaxSummary = TaxSummary(thresholdStatus: Status, annualIncome: real, taxBracket: string, taxRate: real,
                                   taxPayable: real, dueDate: DueDate)

  /** The fetched payload; a missing part is None. */
  datatype Payload = Payload(zakat: Option<ZakatSummary>, tax: Option<TaxSummary>)

  const LoadingText: string := "Loading..."
  const NisaabNotMet: Status := Status("Nisaab Threshold Not Met", "no assets added")
  const TaxNotMet: Status := Status("Tax Threshold Not Met", "no income added")
  const MissingData: string := "API response missing expected data structure"
  const FetchFailed: string := "Failed to fetch Zakat and Tax data"

  const EmptyZakat: ZakatSummary := ZakatSummary(Status(LoadingText, LoadingText), 0.0, 0.0, 0.0, [0.0, 0.0, 0.0], 0.0, 0.0, 0.0)
  const EmptyTax: TaxSummary := TaxSummary(Status(LoadingText, LoadingText), 0.0, LoadingText, 0.0, 0.0, DueDate(LoadingText, 0))

  /** Some asset figure or breakdown value is positive. */
  predicate HasAssets(z: ZakatSummary)
  {
    z.currentAssets > 0.0 || z.cashSavings > 0.0 || z.totalAssets > 0.0 || exists i :: 0 <= i < |z.breakdown| && z.breakdown[i] > 0.0
  }

  predicate HasIncome(t: TaxSummary)
  {
    t.annualIncome > 0.0
  }

  /**
   * The zakat summary as stored: unchanged when there are assets; otherwise
   * the nisaab status says the threshold is not met and nothing is payable,
   * every other field kept.
   */
  function ZakatShown(z: ZakatSummary): (r: ZakatSummary)
    ensures HasAssets(z) ==> r == z
    ensures !HasAssets(z) ==> r.nisaabStatus == NisaabNotMet && r.zakatPayable == 0.0
    ensures r.currentAssets == z.currentAssets && r.cashSavings == z.cashSavings && r.totalAssets == z.totalAssets
    ensures r.breakdown == z.breakdown && r.nisaabThreshold == z.nisaabThreshold && r.zakatRate == z.zakatRate
  {
    if HasAssets(z) then z else z.(nisaabStatus := NisaabNotMet, zakatPayable := 0.0)
  }

  /** The tax summary as stored: unchanged with income; otherwise not met and no tax, every other field kept. */
  function TaxShown(t: TaxSummary): (r: TaxSummary)
    ensures HasIncome(t) ==> r == t
    ensures !HasIncome(t) ==> r.thresholdStatus == TaxNotMet && r.taxPayable == 0.0
    ensures r.annualIncome == t.annualIncome && r.taxBracket == t.taxBracket && r.taxRate == t.taxRate
    ensures r.dueDate == t.dueDate
  {
    if HasIncome(t) then t else t.(thresholdStatus := TaxNotMet, taxPayable := 0.0)
  }

  /** Showing a shown summary changes nothing: the adjustment keeps what it tests. */
  lemma ShownIdempotent(z: ZakatSummary, t: TaxSummary)
    ensures HasAssets(ZakatShown(z)) == HasAssets(z) && ZakatShown(ZakatShown(z)) == ZakatShown(z)
    ensures HasIncome(TaxShown(t)) == HasIncome(t) && TaxShown(TaxShown(t)) == TaxShown(t)
  {
    if !HasAssets(z) {
      var r := ZakatShown(z);
      assert r.breakdown == z.breakdown;
    }
  }

  /** fetchZakatTaxData: the service's summary, or a rejection with the error's message, the fixed text when it has none. */
  function FetchThunk(reply: Result<Option<Payload>>): (r: Result<Option<Payload>>)
    ensures r.Ok? <==> reply.Ok?
    ensures r.Ok? ==> r.value == reply.value
    ensures reply.Err? ==> r.error == (if reply.error != "" then reply.error else FetchFailed)
  {
    match reply
    case Ok(p) => Ok(p)
    case Err(message) => Err(if message != "" then message else FetchFailed)
  }

  class ZakatTaxStore {
    var zakat: ZakatSummary
    var tax: TaxSummary
    var loading: bool
    var error: Option<string>
    var hasZakatData: bool
    var hasTaxData: bool

    /** initialState: placeholder summaries, loading, and both flags set. */
    constructor ()
      ensures zakat == EmptyZakat && tax == EmptyTax && loading && error.None? && hasZakatData && hasTaxData
    {
      zakat, tax, loading, error := EmptyZakat, EmptyTax, true, None;
      hasZakatData, hasTaxData := true, true;
    }

    method ClearError()
      modifies this`error
      ensures error.None?
    {
      error := None;
    }

    method FetchPending()
      modifies this`loading, this`error
      ensures loading && error.None?
    {
      loading, error := true, None;
    }

    /**
     * fetchZakatTaxData.fulfilled: loading off. A payload with both parts
     * stores them as shown and sets each flag iff its summary has assets or
     * income; a payload missing either part sets the error and leaves the
     * summaries and flags as they were.
     */
    method FetchFulfilled(payload: Option<Payload>)
      modifies this`loading, this`zakat, this`tax, this`hasZakatData, this`hasTaxData, this`error
      ensures !loading
      ensures payload.Some? && payload.value.zakat.Some? && payload.value.tax.Some? ==>
        var z, t := payload.value.zakat.value, payload.value.tax.value;
        zakat == ZakatShown(z) && tax == TaxShown(t) && (hasZakatData <==> HasAssets(z)) && (hasTaxData <==> HasIncome(t))
        && error == old(error) && FlagsAgree()
      ensures !(payload.Some? && payload.value.zakat.Some? && payload.value.tax.Some?) ==>
        error == Some(MissingData) && zakat == old(zakat) && tax == old(tax)
        && hasZakatData == old(hasZakatData) && hasTaxData == old(hasTaxData)
    {
      loading := false;
      if payload.Some? && payload.value.zakat.Some? && payload.value.tax.Some? {
        var z, t := payload.value.zakat.value, payload.value.tax.value;
        hasZakatData := HasAssets(z);
        zakat := ZakatShown(z);
        hasTaxData := HasIncome(t);
        tax := TaxShown(t);
        ShownIdempotent(z, t);
      } else {
        error := Some(MissingData);
      }
    }

    method FetchRejected(payload: string)
      modifies this`loading, this`error
      ensures !loading && error == Some(payload)
    {
      loading, error := false, Some(payload);
    }

    /** The flags agree with the stored summaries. */
    predicate FlagsAgree()
      reads this
    {
      (hasZakatData <==> HasAssets(zakat)) && (hasTaxData <==> HasIncome(tax))
    }
  }

  /** The initial flags claim data that the placeholder summaries do not have. */
  lemma InitialFlagsDisagree()
    ensures !HasAssets(EmptyZakat) && !HasIncome(EmptyTax)
  {
  }
}
