/**
 * The zakat and income-tax summary of the backend: asset totals per type, the
 * progressive tax brackets, the nisaab threshold, zakat payable and the tax due
 * date of the July-June fiscal year. Database rows, the latest gold price and
 * the clock are parameters.
 */
module ZakatTaxController {
  import opened Wrappers
  import opened Js
  import opened Dates

  /** One row of the user's assets joined with its type name. */
  datatype AssetRow = AssetRow(assetTypeName: string, currentValue: real)

  datatype AssetTotals = AssetTotals(gold: real, cash: real, stocks: real, currency: real, total: real)

  /** The switch arm an asset falls into, chosen by its lower-cased type name. */
  datatype Bucket = GoldBucket | CashBucket | StocksBucket | CurrencyBucket | NoBucket

  function BucketOf(typeName: string): Bucket
  {
    var t := ToLower(typeName);
    if t == "gold" then GoldBucket
    else if t == "cash" then CashBucket
    else if t == "stock" then StocksBucket
    else if t == "currency" then CurrencyBucket
    else NoBucket
  }

  /** Sum of the values of the assets that fall into bucket b. */
  function SumIn(assets: seq<AssetRow>, b: Bucket): real
  {
    if assets == [] then 0.0
    else
      var last := assets[|assets| - 1];
      SumIn(assets[..|assets| - 1], b) + (if BucketOf(last.assetTypeName) == b then last.currentValue else 0.0)
  }

  /** Sum of the values of all assets. */
  function SumAll(assets: seq<AssetRow>): real
  {
    if assets == [] then 0.0 else SumAll(assets[..|assets| - 1]) + assets[|assets| - 1].currentValue
  }

  /**
   * calculateAssetTotalsByType: each asset's value goes to the total and to the
   * bucket its lower-cased type name selects; unknown types add to the total only.
   */
  method CalculateAssetTotalsByType(assets: seq<AssetRow>) returns (totals: AssetTotals)
    ensures totals.gold == SumIn(assets, GoldBucket)
    ensures totals.cash == SumIn(assets, CashBucket)
    ensures totals.stocks == SumIn(assets, StocksBucket)
    ensures totals.currency == SumIn(assets, CurrencyBucket)
    ensures totals.total == SumAll(assets)
  {
    totals := AssetTotals(0.0, 0.0, 0.0, 0.0, 0.0);
    var i := 0;
    while i < |assets|
      invariant 0 <= i <= |assets|
      invariant totals.gold == SumIn(assets[..i], GoldBucket)
      invariant totals.cash == SumIn(assets[..i], CashBucket)
      invariant totals.stocks == SumIn(assets[..i], StocksBucket)
      invariant totals.currency == SumIn(assets[..i], CurrencyBucket)
      invariant totals.total == SumAll(assets[..i])
    {
      var asset := assets[i];
      var value := asset.currentValue;
      match BucketOf(asset.assetTypeName) {
        case GoldBucket => totals := totals.(gold := totals.gold + value);
        case CashBucket => totals := totals.(cash := totals.cash + value);
        case StocksBucket => totals := totals.(stocks := totals.stocks + value);
        case CurrencyBucket => totals := totals.(currency := totals.currency + value);
        case NoBucket =>
      }
      totals := totals.(total := totals.total + value);
      assert assets[..i + 1][..i] == assets[..i];
      i := i + 1;
    }
    assert assets[..i] == assets;
  }

  /** Every asset value lands in exactly one bucket, so the total is the sum of the buckets. */
  lemma {:induction false} TotalIsSumOfBuckets(assets: seq<AssetRow>)
    ensures SumAll(assets) == SumIn(assets, GoldBucket) + SumIn(assets, CashBucket)
      + SumIn(assets, StocksBucket) + SumIn(assets, CurrencyBucket) + SumIn(assets, NoBucket)
  {
    if assets != [] {
      TotalIsSumOfBuckets(assets[..|assets| - 1]);
    }
  }

  /** The result of calculateTax: the amount, the marginal rate in percent and the bracket label. */
  datatype Tax = Tax(amount: real, rate: real, bracket: string)

  /** calculateTax: the if-chain over the six income brackets. */
  function CalculateTax(income: real): (t: Tax)
    ensures t.amount == MarginalTax(income)
    ensures income <= 600000.0 <==> t.rate == 0.0
  {
    if income <= 600000.0 then Tax(0.0, 0.0, "PKR 0 – 600,000")
    else if income <= 1200000.0 then Tax((income - 600000.0) * 0.025, 2.5, "PKR 600,001 – 1,200,000")
    else if income <= 2400000.0 then Tax(15000.0 + (income - 1200000.0) * 0.15, 15.0, "PKR 1,200,001 – 2,400,000")
    else if income <= 3600000.0 then Tax(195000.0 + (income - 2400000.0) * 0.20, 20.0, "PKR 2,400,001 – 3,600,000")
    else if income <= 6000000.0 then Tax(435000.0 + (income - 3600000.0) * 0.25, 25.0, "PKR 3,600,001 – 6,000,000")
    else Tax(1035000.0 + (income - 6000000.0) * 0.35, 35.0, "PKR 6,000,001 and above")
  }

  /** The part of income that lies above lo and at most hi. */
  function Band(income: real, lo: real, hi: real): real
  {
    if income <= lo then 0.0 else if income <= hi then income - lo else hi - lo
  }

  /**
   * A reference definition of the tax: each bracket's rate applied only to the
   * slice of income inside that bracket.
   */
  function MarginalTax(income: real): real
  {
    Band(income, 600000.0, 1200000.0) * 0.025
    + Band(income, 1200000.0, 2400000.0) * 0.15
    + Band(income, 2400000.0, 3600000.0) * 0.20
    + Band(income, 3600000.0, 6000000.0) * 0.25
    + (if income <= 6000000.0 then 0.0 else (income - 6000000.0) * 0.35)
  }

  /** At every bracket boundary the formula of the bracket above gives the same tax as the one below. */
  lemma TaxContinuousAtBoundaries()
    ensures CalculateTax(600000.0).amount == (600000.0 - 600000.0) * 0.025
    ensures CalculateTax(1200000.0).amount == 15000.0 + (1200000.0 - 1200000.0) * 0.15
    ensures CalculateTax(2400000.0).amount == 195000.0 + (2400000.0 - 2400000.0) * 0.20
    ensures CalculateTax(3600000.0).amount == 435000.0 + (3600000.0 - 3600000.0) * 0.25
    ensures CalculateTax(6000000.0).amount == 1035000.0 + (6000000.0 - 6000000.0) * 0.35
  {
  }

  lemma BandMonotone(x: real, y: real, lo: real, hi: real)
    requires x <= y && lo <= hi
    ensures 0.0 <= Band(x, lo, hi) <= Band(y, lo, hi) <= hi - lo
  {
  }

  /** More income never means less tax, and the tax is never negative. */
  lemma TaxMonotone(x: real, y: real)
    requires x <= y
    ensures 0.0 <= CalculateTax(x).amount <= CalculateTax(y).amount
  {
    BandMonotone(x, y, 600000.0, 1200000.0);
    BandMonotone(x, y, 1200000.0, 2400000.0);
    BandMonotone(x, y, 2400000.0, 3600000.0);
    BandMonotone(x, y, 3600000.0, 6000000.0);
  }

  /** The tax never exceeds 35% of the income above the exempt 600000. */
  lemma TaxBelowTopRate(income: real)
    requires income > 600000.0
    ensures CalculateTax(income).amount < (income - 600000.0) * 0.35
  {
  }

  /** Tolas of gold that make up the nisaab. */
  const NisaabTolas: real := 7.5

  /** getNisaabThreshold: the latest tola price times 7.5; no price row is an error. */
  function NisaabThreshold(latestTolaPrice: Option<real>): (r: Result<real>)
    ensures r.Err? <==> latestTolaPrice.None?
    ensures r.Err? ==> r.error == "Gold price not available"
    ensures r.Ok? ==> r.value == latestTolaPrice.value * NisaabTolas
  {
    match latestTolaPrice
    case None => Err("Gold price not available")
    case Some(price) => Ok(price * NisaabTolas)
  }

  const ZakatRate: real := 0.025

  /** Zakat due on total assets against the nisaab threshold. */
  function ZakatPayable(total: real, threshold: real): (z: real)
    ensures total >= threshold ==> z == total * ZakatRate
    ensures total < threshold ==> z == 0.0
  {
    if total >= threshold then total * ZakatRate else 0.0
  }

  /** Zakat is monotone in the assets held for a fixed threshold, as long as assets are not negative. */
  lemma ZakatMonotone(t1: real, t2: real, threshold: real)
    requires 0.0 <= t1 <= t2
    ensures ZakatPayable(t1, threshold) <= ZakatPayable(t2, threshold)
  {
  }

  /** The first calendar year of the July-June fiscal year containing now. */
  function FiscalStartYear(now: Date): int
  {
    if now.month >= 7 then now.year else now.year - 1
  }

  /** The tax due date: 31 July of the year after the fiscal year's start, always later than now. */
  function TaxDueDate(now: Date): (due: Date)
    requires ValidDate(now)
    ensures ValidDate(due) && due.month == 7 && due.day == 31
    ensures due.year == FiscalStartYear(now) + 1
    ensures Before(now, due)
  {
    Date(FiscalStartYear(now) + 1, 7, 31)
  }

  /** Math.ceil(a / b) for a positive divisor. */
  function CeilDiv(a: int, b: int): (q: int)
    requires b > 0
    ensures (q - 1) * b < a <= q * b
  {
    -((-a) / b)
  }

  /**
   * days_remaining: whole days from now to the due date, rounded up and clamped
   * at 0. The clamp never applies: it is the number of calendar days left, at least 1.
   */
  function DaysRemaining(now: Date, msOfDay: int): (n: int)
    requires ValidDate(now) && 0 <= msOfDay < MsPerDay
    ensures n == DayNumber(TaxDueDate(now)) - DayNumber(now)
    ensures n >= 1
  {
    var due := TaxDueDate(now);
    DayNumberOrder(now, due);
    var diff := StartOfDay(due) - (StartOfDay(now) + msOfDay);
    var k := DayNumber(due) - DayNumber(now);
    assert diff == k * MsPerDay - msOfDay;
    var q := CeilDiv(diff, MsPerDay);
    assert q == k;
    if q > 0 then q else 0
  }

  /** The body of a successful summary reply. */
  datatype Summary = Summary(
    nisaabStatus: string, nisaabBasedOn: string,
    currentAssets: real, cashSavings: real, totalAssets: real,
    goldAssets: real, currencyAssets: real, stockAssets: real,
    nisaabThreshold: real, zakatRatePercent: real, zakatPayable: real,
    taxStatus: string, taxBasedOn: string, annualIncome: real,
    taxBracket: string, taxRate: real, taxPayable: real,
    dueDate: Date, daysRemaining: int, preferredCurrency: string)

  datatype Reply = Unauthorized | ServerError | Success(data: Summary)

  /** getAnnualIncome: SUM over no rows is NULL, and NULL or NaN read as 0. */
  function AnnualIncome(incomeSum: Option<real>): real
  {
    match incomeSum
    case None => 0.0
    case Some(v) => v
  }

  /**
   * getZakatAndTaxSummary. `userId` 0 or absent is falsy; `incomeSum` is the
   * value of the income SUM query, whose window is fixed at 2024-07-01 up to
   * 2025-07-01 whatever the current date; `latestTolaPrice` the newest tola
   * price row.
   */
  method GetZakatAndTaxSummary(userId: Option<int>, assets: seq<AssetRow>, incomeSum: Option<real>,
                               latestTolaPrice: Option<real>, now: Date, msOfDay: int)
    returns (r: Reply)
    requires ValidDate(now) && 0 <= msOfDay < MsPerDay
    ensures (userId.None? || userId == Some(0)) <==> r.Unauthorized?
    ensures r.ServerError? <==> (!r.Unauthorized? && latestTolaPrice.None?)
    ensures r.Success? ==>
      var s := r.data;
      var total := SumAll(assets);
      s.totalAssets == total && s.currentAssets == total
      && s.cashSavings == SumIn(assets, CashBucket)
      && s.goldAssets == SumIn(assets, GoldBucket)
      && s.currencyAssets == SumIn(assets, CurrencyBucket)
      && s.stockAssets == SumIn(assets, StocksBucket)
      && s.nisaabThreshold == latestTolaPrice.value * 7.5
      && s.nisaabStatus == (if total >= s.nisaabThreshold then "Nisaab Threshold exceeded" else "Below Nisaab Threshold")
      && s.nisaabBasedOn == (if |assets| > 0 then "Current assets" else "No assets available")
      && s.zakatPayable == (if total >= s.nisaabThreshold then total * 0.025 else 0.0)
      && s.zakatRatePercent == 2.5
      && s.annualIncome == AnnualIncome(incomeSum)
      && s.taxPayable == MarginalTax(s.annualIncome)
      && s.taxBracket == CalculateTax(s.annualIncome).bracket && s.taxRate == CalculateTax(s.annualIncome).rate
      && s.taxStatus == (if s.annualIncome > 0.0 then "Tax Threshold Met" else "No Income Data")
      && s.taxBasedOn == (if s.annualIncome > 0.0 then "Annual Income" else "No income available")
      && s.dueDate == TaxDueDate(now) && s.daysRemaining == DaysRemaining(now, msOfDay)
      && Before(now, s.dueDate) && s.daysRemaining >= 1
      && s.preferredCurrency == "PKR"
  {
    if userId.None? || userId == Some(0) {
      return Unauthorized;
    }
    var totals := CalculateAssetTotalsByType(assets);
    var income := AnnualIncome(incomeSum);
    var threshold := NisaabThreshold(latestTolaPrice);
    if threshold.Err? {
      return ServerError;
    }
    var nisaab := threshold.value;
    var exceeds := totals.total >= nisaab;
    var zakat := if exceeds then totals.total * ZakatRate else 0.0;
    var tax := CalculateTax(income);
    var due := TaxDueDate(now);
    var days := DaysRemaining(now, msOfDay);
    r := Success(Summary(
      if exceeds then "Nisaab Threshold exceeded" else "Below Nisaab Threshold",
      if |assets| > 0 then "Current assets" else "No assets available",
      totals.total, totals.cash, totals.total,
      totals.gold, totals.currency, totals.stocks,
      nisaab, ZakatRate * 100.0, zakat,
      if income > 0.0 then "Tax Threshold Met" else "No Income Data",
      if income > 0.0 then "Annual Income" else "No income available",
      income, tax.bracket, tax.rate, tax.amount,
      due, days, "PKR"));
  }
}
