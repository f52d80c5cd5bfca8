/**
 * The asset list view: the gold, stock and currency groups of the held
 * assets, the card each group shows, and when a group's details modal is
 * open.
 */
module AssetList {
  import opened Wrappers
  import opened Js
  import opened Sorting
  import opened AssetSlice

  /** The summed current value of a list of assets. */
  function TotalValue(assets: seq<ClientAsset>): real
  {
    if assets == [] then 0.0 else assets[0].currentValue + TotalValue(assets[1..])
  }

  /** The summed quantity of a list of assets. */
  function TotalQuantity(assets: seq<ClientAsset>): real
  {
    if assets == [] then 0.0 else assets[0].quantity + TotalQuantity(assets[1..])
  }

  /** An asset of none of the three listed types (including one without a type). */
  predicate IsOther(a: ClientAsset)
  {
    !IsGold(a) && !IsStock(a) && !IsCurrency(a)
  }

  /** The three groups the view shows. */
  function GoldGroup(assets: seq<ClientAsset>): seq<ClientAsset>
  {
    Filter(assets, IsGold)
  }

  function StockGroup(assets: seq<ClientAsset>): seq<ClientAsset>
  {
    Filter(assets, IsStock)
  }

  function CurrencyGroup(assets: seq<ClientAsset>): seq<ClientAsset>
  {
    Filter(assets, IsCurrency)
  }

  /** An asset belongs to at most one group; an asset of another type to none. */
  lemma GroupsDisjoint(a: ClientAsset)
    ensures !(IsGold(a) && IsStock(a)) && !(IsGold(a) && IsCurrency(a)) && !(IsStock(a) && IsCurrency(a))
  {
    if a.assetType.Some? {
      var u := ToUpper(a.assetType.value);
      assert IsGold(a) ==> u[0] == 'G';
      assert IsStock(a) ==> u[0] == 'S';
      assert IsCurrency(a) ==> u[0] == 'C';
    }
  }

  /** What a type's card shows: its first asset, the group's value total and its quantity total. */
  datatype Card = Card(first: ClientAsset, totalValue: real, totalQuantity: real)

  /**
   * The card of a group: none for an empty group ("No ... assets");
   * otherwise the first asset, the summed current value, and the summed
   * quantity, which the currency card always shows as 0.
   */
  function CardOf(group: seq<ClientAsset>, countsQuantity: bool): (r: Option<Card>)
    ensures r.None? <==> group == []
    ensures r.Some? ==> r.value.first == group[0] && r.value.totalValue == TotalValue(group)
    ensures r.Some? ==> r.value.totalQuantity == (if countsQuantity then TotalQuantity(group) else 0.0)
  {
    if group == [] then None
    else Some(Card(group[0], TotalValue(group), if countsQuantity then TotalQuantity(group) else 0.0))
  }

  /** The three cards: gold and stock count quantity, currency does not. */
  function Cards(assets: seq<ClientAsset>): (r: (Option<Card>, Option<Card>, Option<Card>))
  {
    (CardOf(GoldGroup(assets), true), CardOf(StockGroup(assets), true), CardOf(CurrencyGroup(assets), false))
  }

  /** The details modal of a type is shown only when that type is selected and its group is not empty. */
  function DetailsModalShown(detailsModalType: Option<string>, t: string, group: seq<ClientAsset>): (r: bool)
    ensures r <==> detailsModalType == Some(t) && |group| > 0
  {
    detailsModalType == Some(t) && |group| > 0
  }

  lemma {:induction false} TotalValuePrepend(x: seq<ClientAsset>, rest: seq<ClientAsset>)
    requires |x| <= 1
    ensures TotalValue(x + rest) == TotalValue(x) + TotalValue(rest)
  {
    if x == [] {
      assert x + rest == rest;
    } else {
      assert (x + rest)[1..] == rest;
    }
  }

  /**
   * The three cards' values and the assets of other types add up to the
   * value of all the assets: every asset is counted in exactly one place.
   */
  lemma {:induction false} ValuesPartition(assets: seq<ClientAsset>)
    ensures TotalValue(assets)
      == TotalValue(GoldGroup(assets)) + TotalValue(StockGroup(assets)) + TotalValue(CurrencyGroup(assets))
         + TotalValue(Filter(assets, IsOther))
    decreases |assets|
  {
    if assets != [] {
      var a := assets[0];
      ValuesPartition(assets[1..]);
      GroupsDisjoint(a);
      TotalValuePrepend(if IsGold(a) then [a] else [], GoldGroup(assets[1..]));
      TotalValuePrepend(if IsStock(a) then [a] else [], StockGroup(assets[1..]));
      TotalValuePrepend(if IsCurrency(a) then [a] else [], CurrencyGroup(assets[1..]));
      TotalValuePrepend(if IsOther(a) then [a] else [], Filter(assets[1..], IsOther));
    }
  }

  /** Every asset of a group has that type, and every asset of the type is in the group. */
  lemma GroupMembers(assets: seq<ClientAsset>, a: ClientAsset)
    ensures a in GoldGroup(assets) <==> a in assets && IsGold(a)
    ensures a in StockGroup(assets) <==> a in assets && IsStock(a)
    ensures a in CurrencyGroup(assets) <==> a in assets && IsCurrency(a)
  {
    forall p: ClientAsset -> bool
      ensures a in Filter(assets, p) <==> a in assets && p(a)
    {
      if a in Filter(assets, p) {
        var k :| 0 <= k < |Filter(assets, p)| && Filter(assets, p)[k] == a;
      }
      if a in assets && p(a) {
        var k :| 0 <= k < |assets| && assets[k] == a;
      }
    }
  }

  /**
   * The reduce's accumulator when the summed fields arrive as text (the
   * DECIMAL columns of `SELECT a.*` come back from PostgreSQL as strings):
   * the starting number, or the text `+` yields once a text is added.
   */
  datatype JsSum = Num(n: nat) | Text(s: string)

  /** JavaScript `sum + x` for a text x: a number is written in decimal and the two texts are joined. */
  function PlusText(sum: JsSum, x: string): (r: JsSum)
    ensures r.Text?
    ensures sum.Text? ==> r.s == sum.s + x
  {
    match sum
    case Num(n) => Text(NatText(n) + x)
    case Text(t) => Text(t + x)
  }

  /** `reduce((sum, x) => sum + x, ...)` over texts, from an accumulator, left to right. */
  function ReduceFrom(sum: JsSum, texts: seq<string>): JsSum
    decreases |texts|
  {
    if texts == [] then sum else ReduceFrom(PlusText(sum, texts[0]), texts[1..])
  }

  /** Once the accumulator is text, the reduce appends every text to it in order. */
  lemma {:induction false} ReduceFromText(t: string, texts: seq<string>)
    ensures ReduceFrom(Text(t), texts) == Text(t + Join(texts, ""))
    decreases |texts|
  {
    if texts != [] {
      ReduceFromText(t + texts[0], texts[1..]);
      if |texts| == 1 {
        assert Join(texts[1..], "") == "";
      }
      assert Join(texts, "") == texts[0] + Join(texts[1..], "");
      assert t + texts[0] + Join(texts[1..], "") == t + (texts[0] + Join(texts[1..], ""));
    }
  }

  /**
   * The quantity total as written (AssetList.tsx:80): the quantities as the
   * server sends them, reduced with `+` from 0. A non-empty group gives "0"
   * followed by the quantities' texts, not their sum.
   */
  function QuantityTotalAsWritten(quantities: seq<string>): (r: JsSum)
    ensures quantities == [] ==> r == Num(0)
  {
    ReduceFrom(Num(0), quantities)
  }

  /** A non-empty group's quantity total as written is "0" followed by the quantities' texts in order. */
  lemma QuantityTotalConcatenates(quantities: seq<string>)
    requires quantities != []
    ensures QuantityTotalAsWritten(quantities) == Text("0" + Join(quantities, ""))
  {
    ReduceFromText(NatText(0) + quantities[0], quantities[1..]);
    assert NatText(0) == "0";
    assert Join(quantities, "") == quantities[0] + Join(quantities[1..], "") by {
      if |quantities| == 1 { assert Join(quantities[1..], "") == ""; }
    }
    assert "0" + quantities[0] + Join(quantities[1..], "") == "0" + (quantities[0] + Join(quantities[1..], ""));
  }

  /**
   * Two gold holdings stored with quantities 2.5 and 1: the card as written
   * shows "02.51 tola", while the numeric total of the two is 3.5.
   */
  lemma GoldQuantityConcatenated(group: seq<ClientAsset>)
    requires |group| == 2 && group[0].quantity == 2.5 && group[1].quantity == 1.0
    ensures QuantityTotalAsWritten(["2.5", "1"]) == Text("02.51")
    ensures QuantityTotalAsWritten(["2.5", "1"]).s + " tola" == "02.51 tola"
    ensures CardOf(group, true).value.totalQuantity == 3.5
  {
    QuantityTotalConcatenates(["2.5", "1"]);
    assert Join(["2.5", "1"], "") == "2.5" + "" + "1";
    assert group[1..][1..] == [];
    assert TotalQuantity(group[1..]) == 1.0;
    assert TotalQuantity(group) == 3.5;
  }

  /** Summed as numbers, the quantity total of two lists together is the sum of their totals. */
  lemma {:induction false} TotalQuantityAppend(x: seq<ClientAsset>, rest: seq<ClientAsset>)
    ensures TotalQuantity(x + rest) == TotalQuantity(x) + TotalQuantity(rest)
    decreases |x|
  {
    if x == [] {
      assert x + rest == rest;
    } else {
      assert (x + rest)[0] == x[0];
      assert (x + rest)[1..] == x[1..] + rest;
      TotalQuantityAppend(x[1..], rest);
    }
  }
}
