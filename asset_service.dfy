/**
 * The asset service of the backend. Asset types, asset metadata, assets and
 * the daily asset history are tables held by AssetDb. Every price the
 * service asks for (the live gold price per tola, a ticker's metadata and
 * current value, exchange rates) is a parameter, as is the clock.
 * A thrown error is a Failed outcome carrying the status the asset
 * controller answers with: the error's status, else 500.
 */
module AssetService {
  import opened Wrappers
  import opened Js
  import opened Sorting
  import opened Tables

  /** The AssetType enumeration. */
  const Gold: string := "gold"
  const Stock: string := "stock"
  const CurrencyType: string := "currency"

  datatype AssetDetails = AssetDetails(unit: Option<string>, ticker: Option<string>, currencyCode: Option<string>)

  /** CreateAssetDTO; acquiredOn is None when it is missing or empty. */
  datatype AssetDto = AssetDto(assetType: string, quantity: real, purchaseValue: real, acquiredOn: Option<int>, details: AssetDetails)

  /** What the stock service knows about a ticker. */
  datatype TickerMeta = TickerMeta(ticker: string, name: string, currency: string)

  /**
   * The answers of the price services for one request: the gold price per
   * tola in PKR, the ticker's metadata (None when the ticker is unknown),
   * the stock holding's current value, the rate of the currency to PKR and
   * the holding converted to USD.
   */
  datatype Market = Market(goldPerTola: real, tickerMeta: Option<TickerMeta>, stockValue: real, rateToPkr: real, usdValue: real)

  /** A row of asset_metadata. */
  datatype Metadata = Metadata(typeId: nat, unit: Option<string>, ticker: Option<string>, companyName: Option<string>, currencyCode: Option<string>)

  /** A row of assets; acquiredOn is an instant. */
  datatype Asset = Asset(userId: nat, metadataId: nat, quantity: real, purchaseValue: real, currentValue: real,
                         acquiredOn: int, valueCurrency: Option<string>)

  /** A result, or the error thrown with the status the controller answers with. */
  datatype Outcome<T> = Done(value: T) | Failed(status: int, message: string)

  /** WHERE asset_type_name = $1 */
  function NameIs(name: string): string -> bool
  {
    (n: string) => n == name
  }

  /** `ticker!` in an error message: the ticker, or "undefined". */
  function TickerText(t: Option<string>): string
  {
    if t.Some? then t.value else "undefined"
  }

  /** The error getOrCreateMetadata throws, if any. */
  function MetadataFailure(dto: AssetDto, market: Market): (r: Option<string>)
    ensures r.None? <==> dto.assetType == Gold || (dto.assetType == Stock && market.tickerMeta.Some?) || dto.assetType == CurrencyType
  {
    if dto.assetType == Gold then None
    else if dto.assetType == Stock then
      if market.tickerMeta.None? then Some("Ticker " + TickerText(dto.details.ticker) + " not found") else None
    else if dto.assetType == CurrencyType then None
    else Some("Unknown assetType " + dto.assetType)
  }

  /**
   * The WHERE clause that finds an existing metadata row: gold rows are keyed
   * on unit 'tola' and currency 'PKR' whatever unit was asked for, stock rows
   * on the ticker and currency rows on the currency code. A missing ticker or
   * code is NULL in SQL and matches nothing.
   */
  function MetadataMatch(assetType: string, details: AssetDetails, typeId: nat): Metadata -> bool
  {
    (m: Metadata) =>
      m.typeId == typeId
      && (if assetType == Gold then m.unit == Some("tola") && m.currencyCode == Some("PKR")
          else if assetType == Stock then details.ticker.Some? && m.ticker == details.ticker
          else details.currencyCode.Some? && m.currencyCode == details.currencyCode)
  }

  /** The metadata row inserted when none matches. */
  function NewMetadata(assetType: string, details: AssetDetails, typeId: nat, meta: Option<TickerMeta>): (m: Metadata)
    requires assetType == Stock ==> meta.Some?
    ensures m.typeId == typeId
    ensures assetType != Stock && assetType != Gold ==> m.currencyCode == details.currencyCode
  {
    if assetType == Gold then Metadata(typeId, Some("tola"), None, None, Some("PKR"))
    else if assetType == Stock then Metadata(typeId, None, Some(meta.value.ticker), Some(meta.value.name), Some("USD"))
    else Metadata(typeId, None, None, None, details.currencyCode)
  }

  /** Gold metadata does not depend on the requested unit or currency. */
  lemma GoldMetadataIgnoresDetails(d1: AssetDetails, d2: AssetDetails, typeId: nat, m: Metadata)
    ensures MetadataMatch(Gold, d1, typeId)(m) == MetadataMatch(Gold, d2, typeId)(m)
    ensures NewMetadata(Gold, d1, typeId, None) == NewMetadata(Gold, d2, typeId, None)
    ensures NewMetadata(Gold, d1, typeId, None).unit == Some("tola")
    ensures NewMetadata(Gold, d1, typeId, None).currencyCode == Some("PKR")
  {
  }

  /** A newly inserted metadata row is found by the same lookup next time. */
  lemma NewMetadataMatches(dto: AssetDto, typeId: nat, meta: Option<TickerMeta>)
    requires dto.assetType == Stock ==> meta.Some? && dto.details.ticker == Some(meta.value.ticker)
    requires dto.assetType == CurrencyType ==> dto.details.currencyCode.Some?
    requires dto.assetType == Gold || dto.assetType == Stock || dto.assetType == CurrencyType
    ensures MetadataMatch(dto.assetType, dto.details, typeId)(NewMetadata(dto.assetType, dto.details, typeId, meta))
  {
  }

  /** The current value stored by createAsset: the purchase value unless a live price applies. */
  function CurrentOnCreate(dto: AssetDto, market: Market): (v: real)
    ensures dto.assetType == Gold ==> v == market.goldPerTola * dto.quantity
    ensures dto.assetType == Stock ==> v == market.stockValue
    ensures dto.assetType == CurrencyType ==> v == market.rateToPkr * dto.quantity
    ensures dto.assetType != Gold && dto.assetType != Stock && dto.assetType != CurrencyType ==> v == dto.purchaseValue
  {
    var current := dto.purchaseValue;
    if dto.assetType == Gold then market.goldPerTola * dto.quantity
    else if dto.assetType == Stock then market.stockValue
    else if dto.assetType == CurrencyType then market.rateToPkr * dto.quantity
    else current
  }

  /** The current value stored by updateAsset: a currency holding is valued in USD here. */
  function CurrentOnUpdate(dto: AssetDto, market: Market): (v: real)
    ensures dto.assetType == Gold ==> v == market.goldPerTola * dto.quantity
    ensures dto.assetType == Stock ==> v == market.stockValue
    ensures dto.assetType == CurrencyType ==> v == market.usdValue
  {
    if dto.assetType == Gold then market.goldPerTola * dto.quantity
    else if dto.assetType == Stock then market.stockValue
    else if dto.assetType == CurrencyType then market.usdValue
    else dto.purchaseValue
  }

  /** Create and update value gold and stock holdings alike. */
  lemma CreateAndUpdateAgree(dto: AssetDto, market: Market)
    requires dto.assetType == Gold || dto.assetType == Stock
    ensures CurrentOnCreate(dto, market) == CurrentOnUpdate(dto, market)
  {
  }

  /** value_currency: PKR for gold, the ticker's currency for a stock, otherwise the currency code. */
  function ValueCurrency(dto: AssetDto, market: Market): (c: Option<string>)
    requires dto.assetType == Stock ==> market.tickerMeta.Some?
    ensures dto.assetType == Gold ==> c == Some("PKR")
    ensures dto.assetType == Stock ==> c == Some(market.tickerMeta.value.currency)
    ensures dto.assetType != Gold && dto.assetType != Stock ==> c == dto.details.currencyCode
  {
    if dto.assetType == Gold then Some("PKR")
    else if dto.assetType == Stock then Some(market.tickerMeta.value.currency)
    else dto.details.currencyCode
  }

  /** acquired_on: the given date, else now. */
  function AcquiredOn(dto: AssetDto, now: int): int
  {
    if dto.acquiredOn.Some? then dto.acquiredOn.value else now
  }

  /** Every asset refers to a metadata row and every metadata row to an asset type. */
  predicate Linked(types: map<nat, string>, metadata: map<nat, Metadata>, assets: map<nat, Asset>)
  {
    (forall id :: id in metadata ==> metadata[id].typeId in types)
    && (forall id :: id in assets ==> assets[id].metadataId in metadata)
  }

  /** The asset_type_name an asset joins to. */
  function TypeNameOf(types: map<nat, string>, metadata: map<nat, Metadata>, a: Asset): string
    requires a.metadataId in metadata && metadata[a.metadataId].typeId in types
  {
    types[metadata[a.metadataId].typeId]
  }

  /** WHERE asset_id = $1 AND user_id = $2 matches a row. */
  predicate Owned(assets: map<nat, Asset>, id: int, user: nat)
  {
    id >= 0 && id as nat in assets && assets[id as nat].userId == user
  }

  function OwnedBy(user: nat): Asset -> bool
  {
    (a: Asset) => a.userId == user
  }

  /** A row of fetchUserAssets: the asset joined with its type name and metadata. */
  datatype AssetRow = AssetRow(assetId: nat, asset: Asset, assetType: string, meta: Metadata)

  function RowOf(types: map<nat, string>, metadata: map<nat, Metadata>, assets: map<nat, Asset>, id: nat): AssetRow
    requires Linked(types, metadata, assets) && id in assets
  {
    var a := assets[id];
    AssetRow(id, a, TypeNameOf(types, metadata, a), metadata[a.metadataId])
  }

  /** The joined rows of the caller's assets are exactly the rows of the assets the caller owns. */
  lemma JoinedRowsOwned(types: map<nat, string>, metadata: map<nat, Metadata>, assets: map<nat, Asset>, userId: nat,
                        n: nat, joined: seq<AssetRow>)
    requires Linked(types, metadata, assets) && forall id :: id in assets ==> id < n
    requires var ids := KeysBelow(assets, OwnedBy(userId), n);
      |joined| == |ids| && forall k :: 0 <= k < |ids| ==> joined[k] == RowOf(types, metadata, assets, ids[k])
    ensures forall row :: row in joined <==>
      row.assetId in assets && assets[row.assetId].userId == userId && row == RowOf(types, metadata, assets, row.assetId)
  {
    var ids := KeysBelow(assets, OwnedBy(userId), n);
    forall row: AssetRow | row.assetId in assets && assets[row.assetId].userId == userId && row == RowOf(types, metadata, assets, row.assetId)
      ensures row in joined
    {
      assert OwnedBy(userId)(assets[row.assetId]);
      var k :| 0 <= k < |ids| && ids[k] == row.assetId;
      assert joined[k] == row;
    }
    forall row | row in joined
      ensures row.assetId in assets && assets[row.assetId].userId == userId
    {
      var k :| 0 <= k < |joined| && joined[k] == row;
      assert OwnedBy(userId)(assets[ids[k]]);
    }
  }

  /** ORDER BY a.acquired_on DESC */
  function ByAcquiredDesc(): (AssetRow, AssetRow) -> bool
  {
    (x: AssetRow, y: AssetRow) => x.asset.acquiredOn >= y.asset.acquiredOn
  }

  lemma ByAcquiredDescIsTotalPreorder()
    ensures TotalPreorder(ByAcquiredDesc())
  {
  }

  /** The value refreshAssetValues computes for one asset. */
  function RefreshedValue(typeName: string, id: nat, a: Asset, goldPerTola: real, stockValue: nat -> real, usdValue: nat -> real): (v: real)
    ensures typeName == Gold ==> v == goldPerTola * a.quantity
    ensures typeName == Stock ==> v == stockValue(id)
    ensures typeName != Gold && typeName != Stock ==> v == usdValue(id)
  {
    if typeName == Gold then goldPerTola * a.quantity
    else if typeName == Stock then stockValue(id)
    else usdValue(id)
  }

  /** The user's assets among ids below n, each with its refreshed current value. */
  function RefreshedBelow(types: map<nat, string>, metadata: map<nat, Metadata>, assets: map<nat, Asset>, user: nat,
                          goldPerTola: real, stockValue: nat -> real, usdValue: nat -> real, n: nat): (r: map<nat, Asset>)
    requires Linked(types, metadata, assets)
    ensures r.Keys == assets.Keys
  {
    map id | id in assets ::
      if id < n && assets[id].userId == user
      then assets[id].(currentValue := RefreshedValue(TypeNameOf(types, metadata, assets[id]), id, assets[id], goldPerTola, stockValue, usdValue))
      else assets[id]
  }

  /** The history after recording, for today, the refreshed value of each of the user's assets among ids below n, in id order. */
  function RecordedBelow(history: map<(nat, nat), real>, types: map<nat, string>, metadata: map<nat, Metadata>, assets: map<nat, Asset>,
                         user: nat, goldPerTola: real, stockValue: nat -> real, usdValue: nat -> real, today: nat, n: nat): (r: map<(nat, nat), real>)
    requires Linked(types, metadata, assets)
  {
    if n == 0 then history
    else
      var before := RecordedBelow(history, types, metadata, assets, user, goldPerTola, stockValue, usdValue, today, n - 1);
      var id := n - 1;
      if id in assets && assets[id].userId == user
      then before[(id, today) := RefreshedValue(TypeNameOf(types, metadata, assets[id]), id, assets[id], goldPerTola, stockValue, usdValue)]
      else before
  }

  /**
   * The recorded history holds today's refreshed value for each of the
   * user's assets below n and keeps every other entry.
   */
  lemma {:induction false} RecordedBelowEntries(history: map<(nat, nat), real>, types: map<nat, string>, metadata: map<nat, Metadata>,
                                                assets: map<nat, Asset>, user: nat, goldPerTola: real, stockValue: nat -> real,
                                                usdValue: nat -> real, today: nat, n: nat)
    requires Linked(types, metadata, assets)
    ensures forall id: nat :: id < n && id in assets && assets[id].userId == user ==>
      (id, today) in RecordedBelow(history, types, metadata, assets, user, goldPerTola, stockValue, usdValue, today, n)
      && RecordedBelow(history, types, metadata, assets, user, goldPerTola, stockValue, usdValue, today, n)[(id, today)]
         == RefreshedValue(TypeNameOf(types, metadata, assets[id]), id, assets[id], goldPerTola, stockValue, usdValue)
    ensures forall k: (nat, nat) :: !(k.1 == today && k.0 < n && k.0 in assets && assets[k.0].userId == user) ==>
      (k in RecordedBelow(history, types, metadata, assets, user, goldPerTola, stockValue, usdValue, today, n) <==> k in history)
      && (k in history ==> RecordedBelow(history, types, metadata, assets, user, goldPerTola, stockValue, usdValue, today, n)[k] == history[k])
  {
    if n > 0 {
      RecordedBelowEntries(history, types, metadata, assets, user, goldPerTola, stockValue, usdValue, today, n - 1);
    }
  }

  /** Refreshing one more id changes at most that id's current value. */
  lemma RefreshedStep(types: map<nat, string>, metadata: map<nat, Metadata>, assets: map<nat, Asset>, user: nat,
                      goldPerTola: real, stockValue: nat -> real, usdValue: nat -> real, i: nat)
    requires Linked(types, metadata, assets)
    ensures i in assets && assets[i].userId == user ==>
      RefreshedBelow(types, metadata, assets, user, goldPerTola, stockValue, usdValue, i + 1)
      == RefreshedBelow(types, metadata, assets, user, goldPerTola, stockValue, usdValue, i)[i :=
           assets[i].(currentValue := RefreshedValue(TypeNameOf(types, metadata, assets[i]), i, assets[i], goldPerTola, stockValue, usdValue))]
    ensures !(i in assets && assets[i].userId == user) ==>
      RefreshedBelow(types, metadata, assets, user, goldPerTola, stockValue, usdValue, i + 1)
      == RefreshedBelow(types, metadata, assets, user, goldPerTola, stockValue, usdValue, i)
  {
  }

  /** Recording one more id adds at most that id's entry for today. */
  lemma RecordedStep(history: map<(nat, nat), real>, types: map<nat, string>, metadata: map<nat, Metadata>, assets: map<nat, Asset>,
                     user: nat, goldPerTola: real, stockValue: nat -> real, usdValue: nat -> real, today: nat, i: nat)
    requires Linked(types, metadata, assets)
    ensures i in assets && assets[i].userId == user ==>
      RecordedBelow(history, types, metadata, assets, user, goldPerTola, stockValue, usdValue, today, i + 1)
      == RecordedBelow(history, types, metadata, assets, user, goldPerTola, stockValue, usdValue, today, i)[(i, today) :=
           RefreshedValue(TypeNameOf(types, metadata, assets[i]), i, assets[i], goldPerTola, stockValue, usdValue)]
    ensures !(i in assets && assets[i].userId == user) ==>
      RecordedBelow(history, types, metadata, assets, user, goldPerTola, stockValue, usdValue, today, i + 1)
      == RecordedBelow(history, types, metadata, assets, user, goldPerTola, stockValue, usdValue, today, i)
  {
  }

  /** An id not yet reached keeps its row. */
  lemma RefreshedNotYet(types: map<nat, string>, metadata: map<nat, Metadata>, assets: map<nat, Asset>, user: nat,
                        goldPerTola: real, stockValue: nat -> real, usdValue: nat -> real, i: nat)
    requires Linked(types, metadata, assets)
    ensures i in assets ==> RefreshedBelow(types, metadata, assets, user, goldPerTola, stockValue, usdValue, i)[i] == assets[i]
  {
  }

  /** Refreshing keeps every asset's metadata link. */
  lemma RefreshedLinked(types: map<nat, string>, metadata: map<nat, Metadata>, assets: map<nat, Asset>, user: nat,
                        goldPerTola: real, stockValue: nat -> real, usdValue: nat -> real, n: nat)
    requires Linked(types, metadata, assets)
    ensures Linked(types, metadata, RefreshedBelow(types, metadata, assets, user, goldPerTola, stockValue, usdValue, n))
  {
  }

  /**
   * mid is the metadata row getOrCreateMetadata settles on: a row of the
   * asset type's id that the lookup matches, or the row it inserts.
   */
  predicate MetadataFor(types: map<nat, string>, nextTypeId: nat, metadata: map<nat, Metadata>, dto: AssetDto, market: Market, mid: nat)
  {
    var typeId := FirstKey(types, NameIs(dto.assetType), nextTypeId);
    typeId.Some? && mid in metadata && metadata[mid].typeId == typeId.value && types[typeId.value] == dto.assetType
    && (MetadataMatch(dto.assetType, dto.details, typeId.value)(metadata[mid])
        || ((dto.assetType == Stock ==> market.tickerMeta.Some?)
            && metadata[mid] == NewMetadata(dto.assetType, dto.details, typeId.value, market.tickerMeta)))
  }

  /**
   * The asset_types table and its serial after getAssetTypeId(name): unchanged
   * when a row already has the name, else one row with the name appended under
   * the next serial.
   */
  function TypesAfter(types: map<nat, string>, next: nat, name: string): (map<nat, string>, nat)
  {
    if FirstKey(types, NameIs(name), next).Some? then (types, next) else (types[next := name], next + 1)
  }

  /**
   * The asset_metadata table, its serial and the row id after the lookup or
   * insert of getOrCreateMetadata for a type id: the first matching row with
   * the table unchanged, else one new row under the next serial.
   */
  function MetadataAfter(metadata: map<nat, Metadata>, next: nat, dto: AssetDto, typeId: nat, market: Market): (map<nat, Metadata>, nat, nat)
    requires MetadataFailure(dto, market).None?
  {
    var existing := FirstKey(metadata, MetadataMatch(dto.assetType, dto.details, typeId), next);
    if existing.Some? then (metadata, next, existing.value)
    else (metadata[next := NewMetadata(dto.assetType, dto.details, typeId, market.tickerMeta)], next + 1, next)
  }

  /** The assets, metadata, types and history tables, each with its serial. */
  class AssetDb {
    var types: map<nat, string>
    var nextTypeId: nat
    var metadata: map<nat, Metadata>
    var nextMetadataId: nat
    var assets: map<nat, Asset>
    var nextAssetId: nat
    /** asset_history keyed by (asset_id, value_date as a day number). */
    var history: map<(nat, nat), real>

    ghost predicate Valid()
      reads this
    {
      (forall id :: id in types ==> id < nextTypeId)
      && (forall id :: id in metadata ==> id < nextMetadataId)
      && (forall id :: id in assets ==> id < nextAssetId)
      && Linked(types, metadata, assets)
    }

    constructor ()
      ensures Valid() && types == map[] && metadata == map[] && assets == map[] && history == map[]
    {
      types, metadata, assets, history := map[], map[], map[], map[];
      nextTypeId, nextMetadataId, nextAssetId := 1, 1, 1;
    }

    /** getAssetTypeId: the id of the type with that name, inserting the name when there is none. */
    method GetAssetTypeId(name: string) returns (id: nat)
      requires Valid()
      modifies this`types, this`nextTypeId
      ensures Valid()
      ensures FirstKey(types, NameIs(name), nextTypeId) == Some(id) && types[id] == name
      ensures metadata == old(metadata) && nextMetadataId == old(nextMetadataId)
      ensures assets == old(assets) && nextAssetId == old(nextAssetId) && history == old(history)
      ensures FirstKey(old(types), NameIs(name), old(nextTypeId)).Some? ==>
        types == old(types) && nextTypeId == old(nextTypeId)
      ensures FirstKey(old(types), NameIs(name), old(nextTypeId)).None? ==>
        id == old(nextTypeId) && types == old(types)[id := name] && nextTypeId == id + 1
    {
      var found := FirstKey(types, NameIs(name), nextTypeId);
      if found.Some? {
        return found.value;
      }
      id := nextTypeId;
      types := types[id := name];
      nextTypeId := nextTypeId + 1;
      var again := FirstKey(types, NameIs(name), nextTypeId);
      assert NameIs(name)(types[id]);
    }

    /**
     * getOrCreateMetadata: the type id first (inserting the type name even
     * when it is not a known type), then the matching metadata row or a new one.
     */
    method GetOrCreateMetadata(dto: AssetDto, market: Market) returns (r: Outcome<nat>)
      requires Valid()
      modifies this`types, this`nextTypeId, this`metadata, this`nextMetadataId
      ensures Valid()
      ensures assets == old(assets) && nextAssetId == old(nextAssetId) && history == old(history)
      ensures (types, nextTypeId) == TypesAfter(old(types), old(nextTypeId), dto.assetType)
      ensures FirstKey(types, NameIs(dto.assetType), nextTypeId).Some?
      ensures MetadataFailure(dto, market).Some? ==>
        r == Failed(500, MetadataFailure(dto, market).value) && metadata == old(metadata) && nextMetadataId == old(nextMetadataId)
      ensures MetadataFailure(dto, market).None? ==>
        var typeId := FirstKey(types, NameIs(dto.assetType), nextTypeId).value;
        var key := MetadataMatch(dto.assetType, dto.details, typeId);
        var existing := FirstKey(old(metadata), key, old(nextMetadataId));
        r.Done?
        && (existing.Some? ==> r.value == existing.value && metadata == old(metadata) && nextMetadataId == old(nextMetadataId))
        && (existing.None? ==>
              r.value == old(nextMetadataId) && nextMetadataId == r.value + 1
              && metadata == old(metadata)[r.value := NewMetadata(dto.assetType, dto.details, typeId, market.tickerMeta)])
      ensures MetadataFailure(dto, market).None? ==>
        r.Done? && (metadata, nextMetadataId, r.value)
                   == MetadataAfter(old(metadata), old(nextMetadataId), dto, FirstKey(types, NameIs(dto.assetType), nextTypeId).value, market)
      ensures r.Done? ==> MetadataFor(types, nextTypeId, metadata, dto, market, r.value)
    {
      var typeId := GetAssetTypeId(dto.assetType);
      assert (types, nextTypeId) == TypesAfter(old(types), old(nextTypeId), dto.assetType);
      var failure := MetadataFailure(dto, market);
      if failure.Some? {
        return Failed(500, failure.value);
      }
      var existing := FirstKey(metadata, MetadataMatch(dto.assetType, dto.details, typeId), nextMetadataId);
      assert FirstKey(types, NameIs(dto.assetType), nextTypeId).value == typeId;
      if existing.Some? {
        return Done(existing.value);
      }
      var id := nextMetadataId;
      metadata := metadata[id := NewMetadata(dto.assetType, dto.details, typeId, market.tickerMeta)];
      nextMetadataId := nextMetadataId + 1;
      r := Done(id);
    }

    /**
     * createAsset: metadata, then the current value, then the asset row and
     * today's history entry. Returns the new asset's id and row.
     */
    method CreateAsset(userId: nat, dto: AssetDto, market: Market, now: int, today: nat) returns (r: Outcome<(nat, Asset)>)
      requires Valid()
      modifies this`types, this`nextTypeId, this`metadata, this`nextMetadataId, this`assets, this`nextAssetId, this`history
      ensures Valid()
      ensures (types, nextTypeId) == TypesAfter(old(types), old(nextTypeId), dto.assetType)
      ensures MetadataFailure(dto, market).Some? ==>
        r == Failed(500, MetadataFailure(dto, market).value) && assets == old(assets) && history == old(history)
        && metadata == old(metadata) && nextMetadataId == old(nextMetadataId) && nextAssetId == old(nextAssetId)
      ensures MetadataFailure(dto, market).None? ==>
        r.Done? && r.value.0 == old(nextAssetId) && r.value.0 !in old(assets)
        && assets == old(assets)[r.value.0 := r.value.1] && history == old(history)[(r.value.0, today) := r.value.1.currentValue]
      ensures MetadataFailure(dto, market).None? ==>
        r.Done? && MetadataFor(types, nextTypeId, metadata, dto, market, r.value.1.metadataId)
        && (metadata, nextMetadataId, r.value.1.metadataId)
           == MetadataAfter(old(metadata), old(nextMetadataId), dto, FirstKey(types, NameIs(dto.assetType), nextTypeId).value, market)
      ensures MetadataFailure(dto, market).None? ==>
        r.Done? && r.value.1 == Asset(userId, r.value.1.metadataId, dto.quantity, dto.purchaseValue, CurrentOnCreate(dto, market),
                                      AcquiredOn(dto, now), ValueCurrency(dto, market))
    {
      var m := GetOrCreateMetadata(dto, market);
      if m.Failed? {
        return Failed(m.status, m.message);
      }
      var metadataId := m.value;
      var current := CurrentOnCreate(dto, market);
      var a := Asset(userId, metadataId, dto.quantity, dto.purchaseValue, current, AcquiredOn(dto, now), ValueCurrency(dto, market));
      var id := InsertAsset(a, today);
      r := Done((id, a));
    }

    /** INSERT INTO assets with the next serial, then today's asset_history row. */
    method InsertAsset(a: Asset, today: nat) returns (id: nat)
      requires Valid() && a.metadataId in metadata
      modifies this`assets, this`nextAssetId, this`history
      ensures Valid()
      ensures id == old(nextAssetId) && id !in old(assets) && nextAssetId == id + 1
      ensures assets == old(assets)[id := a] && history == old(history)[(id, today) := a.currentValue]
    {
      id := nextAssetId;
      assets := assets[id := a];
      nextAssetId := nextAssetId + 1;
      history := history[(id, today) := a.currentValue];
    }

    /** UPDATE assets for an existing row, then today's asset_history row. */
    method PutAsset(id: nat, a: Asset, today: nat)
      requires Valid() && a.metadataId in metadata && id in assets
      modifies this`assets, this`history
      ensures Valid()
      ensures assets == old(assets)[id := a] && history == old(history)[(id, today) := a.currentValue]
    {
      assets := assets[id := a];
      history := history[(id, today) := a.currentValue];
    }

    /**
     * updateAsset: metadata and the current value as in createAsset (a
     * currency holding converted to USD), then the caller's row is
     * overwritten; 404 when no row matches (asset_id, user_id).
     */
    method UpdateAsset(userId: nat, assetId: int, dto: AssetDto, market: Market, now: int, today: nat) returns (r: Outcome<Asset>)
      requires Valid()
      modifies this`types, this`nextTypeId, this`metadata, this`nextMetadataId, this`assets, this`history
      ensures Valid()
      ensures (types, nextTypeId) == TypesAfter(old(types), old(nextTypeId), dto.assetType)
      ensures MetadataFailure(dto, market).Some? ==>
        r == Failed(500, MetadataFailure(dto, market).value) && assets == old(assets) && history == old(history)
        && metadata == old(metadata) && nextMetadataId == old(nextMetadataId)
      ensures MetadataFailure(dto, market).None? && !Owned(old(assets), assetId, userId) ==>
        r == Failed(404, "Not found") && assets == old(assets) && history == old(history)
      ensures MetadataFailure(dto, market).None? ==>
        var after := MetadataAfter(old(metadata), old(nextMetadataId), dto, FirstKey(types, NameIs(dto.assetType), nextTypeId).value, market);
        metadata == after.0 && nextMetadataId == after.1 && (r.Done? ==> r.value.metadataId == after.2)
      ensures MetadataFailure(dto, market).None? && Owned(old(assets), assetId, userId) ==>
        r.Done? && MetadataFor(types, nextTypeId, metadata, dto, market, r.value.metadataId)
        && r.value == Asset(userId, r.value.metadataId, dto.quantity, dto.purchaseValue, CurrentOnUpdate(dto, market),
                            AcquiredOn(dto, now), ValueCurrency(dto, market))
        && assets == old(assets)[assetId as nat := r.value]
        && history == old(history)[(assetId as nat, today) := r.value.currentValue]
    {
      var m := GetOrCreateMetadata(dto, market);
      if m.Failed? {
        return Failed(m.status, m.message);
      }
      var current := CurrentOnUpdate(dto, market);
      if !Owned(assets, assetId, userId) {
        return Failed(404, "Not found");
      }
      var id := assetId as nat;
      var a := Asset(userId, m.value, dto.quantity, dto.purchaseValue, current, AcquiredOn(dto, now), ValueCurrency(dto, market));
      PutAsset(id, a, today);
      r := Done(a);
    }

    /** deleteAsset: removes the caller's row, 404 when none matches. */
    method DeleteAsset(userId: nat, assetId: int) returns (r: Outcome<()>)
      requires Valid()
      modifies this`assets
      ensures Valid()
      ensures types == old(types) && metadata == old(metadata) && history == old(history)
      ensures !Owned(old(assets), assetId, userId) ==> r == Failed(404, "Not found") && assets == old(assets)
      ensures Owned(old(assets), assetId, userId) ==> r == Done(()) && assets == old(assets) - {assetId as nat}
    {
      if !Owned(assets, assetId, userId) {
        return Failed(404, "Not found");
      }
      assets := assets - {assetId as nat};
      r := Done(());
    }

    /** fetchUserAssets: the caller's assets joined with type and metadata, latest acquired first. */
    method FetchUserAssets(userId: nat) returns (rows: seq<AssetRow>)
      requires Valid()
      ensures SortedBy(rows, ByAcquiredDesc())
      ensures forall row :: row in rows <==>
        row.assetId in assets && assets[row.assetId].userId == userId && row == RowOf(types, metadata, assets, row.assetId)
    {
      var ids := KeysBelow(assets, OwnedBy(userId), nextAssetId);
      var typeTable, metaTable, assetTable := types, metadata, assets;
      var joined := seq(|ids|, k requires 0 <= k < |ids| => RowOf(typeTable, metaTable, assetTable, ids[k]));
      rows := SortBy(joined, ByAcquiredDesc());
      ByAcquiredDescIsTotalPreorder();
      SortBySorted(joined, ByAcquiredDesc());
      JoinedRowsOwned(types, metadata, assets, userId, nextAssetId, joined);
      forall row
        ensures row in rows <==> row in joined
      {
        assert row in rows <==> row in multiset(joined);
      }
    }

    /**
     * refreshAssetValues: every asset of the caller gets a fresh current value
     * (gold from the live price, a stock from its ticker, anything else
     * converted to USD) and today's history entry; then the list is fetched.
     */
    method RefreshAssetValues(userId: nat, goldPerTola: real, stockValue: nat -> real, usdValue: nat -> real, today: nat)
      returns (rows: seq<AssetRow>)
      requires Valid()
      modifies this`assets, this`history
      ensures Valid()
      ensures types == old(types) && metadata == old(metadata)
      ensures assets == RefreshedBelow(types, metadata, old(assets), userId, goldPerTola, stockValue, usdValue, nextAssetId)
      ensures history == RecordedBelow(old(history), types, metadata, old(assets), userId, goldPerTola, stockValue, usdValue, today, nextAssetId)
      ensures SortedBy(rows, ByAcquiredDesc())
      ensures forall row :: row in rows <==>
        row.assetId in assets && assets[row.assetId].userId == userId && row == RowOf(types, metadata, assets, row.assetId)
    {
      RecordRefreshedValues(userId, goldPerTola, stockValue, usdValue, today);
      rows := FetchUserAssets(userId);
    }

    /** The loop of refreshAssetValues: one update and one history entry per asset of the caller. */
    method RecordRefreshedValues(userId: nat, goldPerTola: real, stockValue: nat -> real, usdValue: nat -> real, today: nat)
      requires Valid()
      modifies this`assets, this`history
      ensures Valid()
      ensures types == old(types) && metadata == old(metadata) && nextAssetId == old(nextAssetId)
      ensures assets == RefreshedBelow(types, metadata, old(assets), userId, goldPerTola, stockValue, usdValue, nextAssetId)
      ensures history == RecordedBelow(old(history), types, metadata, old(assets), userId, goldPerTola, stockValue, usdValue, today, nextAssetId)
    {
      ghost var assets0 := assets;
      ghost var history0 := history;
      var i := 0;
      while i < nextAssetId
        invariant 0 <= i <= nextAssetId
        invariant types == old(types) && metadata == old(metadata) && nextAssetId == old(nextAssetId)
        invariant nextTypeId == old(nextTypeId) && nextMetadataId == old(nextMetadataId)
        invariant assets == RefreshedBelow(types, metadata, assets0, userId, goldPerTola, stockValue, usdValue, i)
        invariant history == RecordedBelow(history0, types, metadata, assets0, userId, goldPerTola, stockValue, usdValue, today, i)
      {
        RefreshedStep(types, metadata, assets0, userId, goldPerTola, stockValue, usdValue, i);
        RecordedStep(history0, types, metadata, assets0, userId, goldPerTola, stockValue, usdValue, today, i);
        RefreshedNotYet(types, metadata, assets0, userId, goldPerTola, stockValue, usdValue, i);
        if i in assets && assets[i].userId == userId {
          var a := assets[i];
          var v := RefreshedValue(TypeNameOf(types, metadata, a), i, a, goldPerTola, stockValue, usdValue);
          assets := assets[i := a.(currentValue := v)];
          history := history[(i, today) := v];
        }
        i := i + 1;
      }
      RefreshedLinked(types, metadata, assets0, userId, goldPerTola, stockValue, usdValue, nextAssetId);
    }

    /** getPortfolioSummary over the caller's assets, in asset id order. */
    method GetPortfolioSummary(userId: nat) returns (s: PortfolioSummary)
      requires Valid()
      ensures s == Summarize(Holdings(types, metadata, assets, KeysBelow(assets, OwnedBy(userId), nextAssetId)))
    {
      var ids := KeysBelow(assets, OwnedBy(userId), nextAssetId);
      s := Summarize(Holdings(types, metadata, assets, ids));
    }
  }

  /** The columns of one asset the summary queries use. */
  datatype Holding = Holding(assetType: string, purchaseValue: real, currentValue: real)

  function Holdings(types: map<nat, string>, metadata: map<nat, Metadata>, assets: map<nat, Asset>, ids: seq<nat>): (hs: seq<Holding>)
    requires Linked(types, metadata, assets)
    requires forall k :: 0 <= k < |ids| ==> ids[k] in assets
    ensures |hs| == |ids|
    ensures forall k :: 0 <= k < |ids| ==>
      hs[k] == Holding(TypeNameOf(types, metadata, assets[ids[k]]), assets[ids[k]].purchaseValue, assets[ids[k]].currentValue)
  {
    seq(|ids|, k requires 0 <= k < |ids| =>
      Holding(TypeNameOf(types, metadata, assets[ids[k]]), assets[ids[k]].purchaseValue, assets[ids[k]].currentValue))
  }

  /** SUM(current_value) */
  function SumCurrent(hs: seq<Holding>): real
  {
    if hs == [] then 0.0 else SumCurrent(hs[..|hs| - 1]) + hs[|hs| - 1].currentValue
  }

  /** SUM(purchase_value) */
  function SumPurchase(hs: seq<Holding>): real
  {
    if hs == [] then 0.0 else SumPurchase(hs[..|hs| - 1]) + hs[|hs| - 1].purchaseValue
  }

  /** SUM over rows, which is NULL when there are none. */
  function SqlSum(hs: seq<Holding>, sum: real): (r: Option<real>)
    ensures r.None? <==> hs == []
  {
    if hs == [] then None else Some(sum)
  }

  /** A NULL total in arithmetic counts as 0. */
  function OrZero(x: Option<real>): real
  {
    if x.Some? then x.value else 0.0
  }

  /** A whole number of cents. */
  predicate WholeCents(r: real)
  {
    (r * 100.0).Floor as real == r * 100.0
  }

  /** Math.round(x * 100) / 100: the nearest whole number of cents, a half cent rounding up. */
  function RoundCents(x: real): (r: real)
    ensures WholeCents(r)
    ensures x - 0.005 < r <= x + 0.005
  {
    var c := Round(x * 100.0);
    assert c as real / 100.0 * 100.0 == c as real;
    c as real / 100.0
  }

  /** Only one whole number of cents lies within a half cent of x (a half cent above excluded): RoundCents picks it. */
  lemma RoundCentsUnique(x: real, c: real)
    requires WholeCents(c)
    requires x - 0.005 < c <= x + 0.005
    ensures c == RoundCents(x)
  {
    var n := (c * 100.0).Floor;
    var m := Round(x * 100.0);
    assert RoundCents(x) * 100.0 == m as real;
    assert x * 100.0 - 0.5 < n as real <= x * 100.0 + 0.5;
    assert x * 100.0 - 0.5 < m as real <= x * 100.0 + 0.5;
    assert n == m;
  }

  datatype Roi = Roi(absolute: real, percentage: int)
  datatype TypeShare = TypeShare(assetType: string, count: nat, total: real, percentage: int)
  datatype PortfolioSummary = PortfolioSummary(totalCurrent: Option<real>, totalPurchase: Option<real>, roi: Roi, distribution: seq<TypeShare>)

  /** roi: the gain to the cent, and the gain as a rounded percentage of the purchase total (0 without one). */
  function RoiOf(current: real, purchase: real): (r: Roi)
    ensures WholeCents(r.absolute) && current - purchase - 0.005 < r.absolute <= current - purchase + 0.005
    ensures purchase <= 0.0 ==> r.percentage == 0
    ensures purchase > 0.0 ==> r.percentage == Round((current - purchase) / purchase * 100.0)
  {
    var roiAbs := current - purchase;
    Roi(RoundCents(roiAbs), if purchase > 0.0 then Round((roiAbs / purchase) * 100.0) else 0)
  }

  /** A positive percentage means a gain; a gain or break-even never gives a negative one. */
  lemma RoiPercentageSign(current: real, purchase: real)
    requires purchase > 0.0
    ensures RoiOf(current, purchase).percentage > 0 ==> current > purchase
    ensures current >= purchase ==> RoiOf(current, purchase).percentage >= 0
  {
    var x := (current - purchase) / purchase * 100.0;
    if current >= purchase {
      assert x >= 0.0;
      RoundMonotone(0.0, x);
      RoundOfInt(0);
    } else {
      assert x < 0.0;
      RoundMonotone(x, 0.0);
      RoundOfInt(0);
    }
  }

  predicate HasType(hs: seq<Holding>, t: string)
  {
    exists k :: 0 <= k < |hs| && hs[k].assetType == t
  }

  /** GROUP BY asset_type_name: the distinct type names, in order of first appearance. */
  function TypeNames(hs: seq<Holding>): (names: seq<string>)
    ensures forall i, j :: 0 <= i < j < |names| ==> names[i] != names[j]
  {
    if hs == [] then []
    else
      var init := TypeNames(hs[..|hs| - 1]);
      if hs[|hs| - 1].assetType in init then init else init + [hs[|hs| - 1].assetType]
  }

  /** The groups are exactly the types that occur. */
  lemma {:induction false} TypeNamesExact(hs: seq<Holding>)
    ensures forall t :: t in TypeNames(hs) <==> HasType(hs, t)
  {
    if hs != [] {
      var init := hs[..|hs| - 1];
      TypeNamesExact(init);
      forall t
        ensures t in TypeNames(hs) <==> HasType(hs, t)
      {
        if HasType(hs, t) {
          var k :| 0 <= k < |hs| && hs[k].assetType == t;
          if k < |hs| - 1 {
            assert init[k].assetType == t;
            assert HasType(init, t);
          }
        }
        if t in TypeNames(init) {
          assert HasType(init, t);
          var k :| 0 <= k < |init| && init[k].assetType == t;
          assert hs[k].assetType == t;
        }
      }
    }
  }

  /** SUM(current_value) over one type. */
  function TypeTotal(hs: seq<Holding>, t: string): real
  {
    if hs == [] then 0.0
    else TypeTotal(hs[..|hs| - 1], t) + (if hs[|hs| - 1].assetType == t then hs[|hs| - 1].currentValue else 0.0)
  }

  /** COUNT(*) over one type. */
  function TypeCount(hs: seq<Holding>, t: string): nat
  {
    if hs == [] then 0
    else TypeCount(hs[..|hs| - 1], t) + (if hs[|hs| - 1].assetType == t then 1 else 0)
  }

  /** One distribution entry: percentage is the type's share of total_current, 0 when that is not positive. */
  function Share(hs: seq<Holding>, t: string, totalCurrent: real): (s: TypeShare)
    ensures s.assetType == t
    ensures totalCurrent <= 0.0 ==> s.percentage == 0
    ensures totalCurrent > 0.0 ==> s.percentage == Round(TypeTotal(hs, t) / totalCurrent * 100.0)
  {
    TypeShare(t, TypeCount(hs, t), TypeTotal(hs, t),
              if totalCurrent > 0.0 then Round((TypeTotal(hs, t) / totalCurrent) * 100.0) else 0)
  }

  function Distribution(hs: seq<Holding>, names: seq<string>, totalCurrent: real): (d: seq<TypeShare>)
    ensures |d| == |names|
    ensures forall k :: 0 <= k < |names| ==> d[k] == Share(hs, names[k], totalCurrent)
  {
    if names == [] then []
    else Distribution(hs, names[..|names| - 1], totalCurrent) + [Share(hs, names[|names| - 1], totalCurrent)]
  }

  /** getPortfolioSummary's answer for the caller's holdings. */
  function Summarize(hs: seq<Holding>): (s: PortfolioSummary)
    ensures s.totalCurrent == SqlSum(hs, SumCurrent(hs)) && s.totalPurchase == SqlSum(hs, SumPurchase(hs))
    ensures s.roi == RoiOf(SumCurrent(hs), SumPurchase(hs))
    ensures s.distribution == Distribution(hs, TypeNames(hs), SumCurrent(hs))
  {
    var totalCurrent := SqlSum(hs, SumCurrent(hs));
    var totalPurchase := SqlSum(hs, SumPurchase(hs));
    PortfolioSummary(totalCurrent, totalPurchase, RoiOf(OrZero(totalCurrent), OrZero(totalPurchase)),
                     Distribution(hs, TypeNames(hs), OrZero(totalCurrent)))
  }

  /** A user without assets gets NULL totals, a zero roi and no distribution. */
  lemma EmptyPortfolio()
    ensures Summarize([]) == PortfolioSummary(None, None, Roi(0.0, 0), [])
  {
    RoundOfInt(0);
  }

  function ShareTotal(d: seq<TypeShare>): real
  {
    if d == [] then 0.0 else ShareTotal(d[..|d| - 1]) + d[|d| - 1].total
  }

  function ShareCount(d: seq<TypeShare>): nat
  {
    if d == [] then 0 else ShareCount(d[..|d| - 1]) + d[|d| - 1].count
  }

  /** Adding one holding adds its value and one to the entry of its type, if that type is listed. */
  lemma {:induction false} DistributionStep(hs: seq<Holding>, x: Holding, names: seq<string>, tc1: real, tc2: real)
    requires forall i, j :: 0 <= i < j < |names| ==> names[i] != names[j]
    ensures ShareTotal(Distribution(hs + [x], names, tc1))
         == ShareTotal(Distribution(hs, names, tc2)) + (if x.assetType in names then x.currentValue else 0.0)
    ensures ShareCount(Distribution(hs + [x], names, tc1))
         == ShareCount(Distribution(hs, names, tc2)) + (if x.assetType in names then 1 else 0)
  {
    if names != [] {
      var init := names[..|names| - 1];
      var t := names[|names| - 1];
      assert names == init + [t];
      DistributionStep(hs, x, init, tc1, tc2);
      NewTypeEntry(hs + [x], init, t, tc1);
      NewTypeEntry(hs, init, t, tc2);
      TypeStep(hs, x, t);
      assert x.assetType in names <==> x.assetType in init || x.assetType == t;
      assert t !in init;
    }
  }

  /** One more holding adds its value and one to its own type's total and count, and nothing to another type's. */
  lemma TypeStep(hs: seq<Holding>, x: Holding, t: string)
    ensures TypeTotal(hs + [x], t) == TypeTotal(hs, t) + (if x.assetType == t then x.currentValue else 0.0)
    ensures TypeCount(hs + [x], t) == TypeCount(hs, t) + (if x.assetType == t then 1 else 0)
  {
    assert (hs + [x])[..|hs|] == hs;
  }

  /** A type that does not occur has nothing to add up. */
  lemma {:induction false} AbsentType(hs: seq<Holding>, t: string)
    requires !HasType(hs, t)
    ensures TypeTotal(hs, t) == 0.0 && TypeCount(hs, t) == 0
  {
    if hs != [] {
      AbsentType(hs[..|hs| - 1], t);
    }
  }

  /** Listing one more type adds that type's total and count. */
  lemma NewTypeEntry(hs: seq<Holding>, names: seq<string>, t: string, tc: real)
    ensures ShareTotal(Distribution(hs, names + [t], tc)) == ShareTotal(Distribution(hs, names, tc)) + TypeTotal(hs, t)
    ensures ShareCount(Distribution(hs, names + [t], tc)) == ShareCount(Distribution(hs, names, tc)) + TypeCount(hs, t)
  {
    assert (names + [t])[..|names|] == names;
    var d := Distribution(hs, names + [t], tc);
    assert d[..|d| - 1] == Distribution(hs, names, tc);
  }

  /** The distribution accounts for every asset: its totals add up to total_current and its counts to the number of assets. */
  lemma {:induction false} DistributionCoversPortfolio(hs: seq<Holding>, tc: real)
    ensures ShareTotal(Distribution(hs, TypeNames(hs), tc)) == SumCurrent(hs)
    ensures ShareCount(Distribution(hs, TypeNames(hs), tc)) == |hs|
  {
    if hs != [] {
      var init := hs[..|hs| - 1];
      var x := hs[|hs| - 1];
      assert hs == init + [x];
      DistributionCoversPortfolio(init, tc);
      var names := TypeNames(init);
      assert SumCurrent(hs) == SumCurrent(init) + x.currentValue;
      DistributionStep(init, x, names, tc, tc);
      if x.assetType in names {
        assert TypeNames(hs) == names;
      } else {
        assert TypeNames(hs) == names + [x.assetType];
        TypeNamesExact(init);
        AbsentType(init, x.assetType);
        TypeStep(init, x, x.assetType);
        NewTypeEntry(hs, names, x.assetType, tc);
      }
    }
  }

  /** With no negative values, one type's total lies between 0 and the portfolio total. */
  lemma {:induction false} TypeTotalBounded(hs: seq<Holding>, t: string)
    requires forall k :: 0 <= k < |hs| ==> hs[k].currentValue >= 0.0
    ensures 0.0 <= TypeTotal(hs, t) <= SumCurrent(hs)
  {
    if hs != [] {
      TypeTotalBounded(hs[..|hs| - 1], t);
    }
  }

  /** With no negative values every distribution percentage lies in 0..100. */
  lemma SharePercentageBounded(hs: seq<Holding>, t: string)
    requires forall k :: 0 <= k < |hs| ==> hs[k].currentValue >= 0.0
    ensures 0 <= Share(hs, t, SumCurrent(hs)).percentage <= 100
  {
    var tc := SumCurrent(hs);
    TypeTotalBounded(hs, t);
    RoundOfInt(0);
    RoundOfInt(100);
    if tc > 0.0 {
      var x := TypeTotal(hs, t) / tc * 100.0;
      PercentOfWhole(TypeTotal(hs, t), tc);
      RoundMonotone(0.0, x);
      RoundMonotone(x, 100.0);
    }
  }

  /** A part of a positive whole is between 0 and 100 percent of it. */
  lemma PercentOfWhole(part: real, whole: real)
    requires 0.0 <= part <= whole && whole > 0.0
    ensures 0.0 <= part / whole * 100.0 <= 100.0
  {
    assert part / whole <= 1.0;
  }
}
