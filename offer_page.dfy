/**
 * The public weekly-offer page: it shows the active offer, if any, with its combo products, its
 * gift, the regular price of the combo, the saving against the combo price and the offer's dates.
 * The offer-product rows are read joined with the products table; a row whose product is gone
 * reads with no name and no price.
 */
module OfferPage {
  import opened Common
  import opened WeeklyOfferRoute

  /** The product columns the page reads for an offer row. */
  datatype CatalogueEntry = CatalogueEntry(name: string, price: real)

  /** One offer row joined with its product. */
  datatype OfferItem = OfferItem(productId: int, isGift: bool, name: Option<string>, price: Option<real>)

  /** What the page renders. */
  datatype View =
    | Placeholder
    | Shown(
        offer: Offer,
        combos: seq<OfferItem>,
        gift: Option<OfferItem>,
        regularTotal: real,
        savings: real,
        showSavings: bool,
        dates: Option<(string, string)>)

  /** The position of the first active offer, or the length when none is active. */
  function FirstActiveIndex(offers: seq<Offer>): (i: nat)
    ensures i <= |offers|
    ensures forall m :: 0 <= m < i ==> !offers[m].isActive
    ensures i < |offers| ==> offers[i].isActive
    decreases |offers|
  {
    if offers == [] then 0
    else if offers[0].isActive then 0
    else 1 + FirstActiveIndex(offers[1..])
  }

  /** The `isActive` query with `limit(1)`: the first active offer in table order. */
  function ActiveOffer(offers: seq<Offer>): (r: Option<Offer>)
    ensures r.None? <==> forall k :: 0 <= k < |offers| ==> !offers[k].isActive
    ensures r.Some? ==> r.value in offers && r.value.isActive
  {
    var i := FirstActiveIndex(offers);
    if i < |offers| then Some(offers[i]) else None
  }

  /** The left join of one row with the products table. */
  function ItemOf(row: OfferProduct, catalogue: map<int, CatalogueEntry>): (item: OfferItem)
    ensures item.productId == row.productId && item.isGift == row.isGift
    ensures item.name.Some? <==> row.productId in catalogue
    ensures item.price.Some? <==> row.productId in catalogue
    ensures row.productId in catalogue ==>
      item.name == Some(catalogue[row.productId].name) && item.price == Some(catalogue[row.productId].price)
  {
    if row.productId in catalogue then
      OfferItem(row.productId, row.isGift, Some(catalogue[row.productId].name), Some(catalogue[row.productId].price))
    else OfferItem(row.productId, row.isGift, None, None)
  }

  function ItemsOfRows(rows: seq<OfferProduct>, catalogue: map<int, CatalogueEntry>): (items: seq<OfferItem>)
    ensures |items| == |rows|
    ensures forall k :: 0 <= k < |rows| ==> items[k] == ItemOf(rows[k], catalogue)
  {
    seq(|rows|, k requires 0 <= k < |rows| => ItemOf(rows[k], catalogue))
  }

  /** The offer's rows ordered by the gift flag, non-gift rows first; rows with the same flag keep
      table order. */
  function ItemsOf(rows: seq<OfferProduct>, offerId: int, catalogue: map<int, CatalogueEntry>): seq<OfferItem> {
    ItemsOfRows(RowsWithFlag(rows, offerId, false), catalogue) + ItemsOfRows(RowsWithFlag(rows, offerId, true), catalogue)
  }

  /** `items.filter(i => !i.isGift)`. */
  function ComboItems(items: seq<OfferItem>): (r: seq<OfferItem>)
    ensures |r| <= |items|
    ensures forall k :: 0 <= k < |r| ==> !r[k].isGift
    decreases |items|
  {
    if items == [] then []
    else
      var last := items[|items| - 1];
      ComboItems(items[..|items| - 1]) + (if last.isGift then [] else [last])
  }

  /** `items.find(i => i.isGift)`. */
  function GiftItem(items: seq<OfferItem>): (r: Option<OfferItem>)
    ensures r.None? <==> forall k :: 0 <= k < |items| ==> !items[k].isGift
    ensures r.Some? ==> r.value.isGift && r.value in items
    decreases |items|
  {
    if items == [] then None
    else if items[0].isGift then Some(items[0])
    else GiftItem(items[1..])
  }

  /** `reduce((s, i) => s + (i.price ?? 0), 0)`. */
  function RegularTotal(items: seq<OfferItem>): real
    decreases |items|
  {
    if items == [] then 0.0
    else RegularTotal(items[..|items| - 1]) + items[|items| - 1].price.GetOr(0.0)
  }

  /** `slice(0, 10)`: the date part of an ISO timestamp. */
  function DatePart(s: string): (r: string)
    ensures |r| <= 10 && r <= s
    ensures |s| >= 10 ==> |r| == 10
    ensures |s| <= 10 ==> r == s
  {
    if |s| <= 10 then s else s[..10]
  }

  /** The date line: shown only when both dates are set and non-empty. */
  function DateRange(offer: Offer): (r: Option<(string, string)>)
    ensures r.Some? <==> Truthy(offer.startsAt) && Truthy(offer.endsAt)
    ensures r.Some? ==> r.value == (DatePart(offer.startsAt.value), DatePart(offer.endsAt.value))
  {
    if Truthy(offer.startsAt) && Truthy(offer.endsAt) then
      Some((DatePart(offer.startsAt.value), DatePart(offer.endsAt.value)))
    else None
  }

  /** The page: the placeholder without an active offer, otherwise the offer with its pricing. */
  function Render(offers: seq<Offer>, rows: seq<OfferProduct>, catalogue: map<int, CatalogueEntry>): (v: View)
    ensures v.Placeholder? <==> forall k :: 0 <= k < |offers| ==> !offers[k].isActive
    ensures v.Shown? ==>
      && v.offer.isActive && v.offer in offers
      && (forall k :: 0 <= k < |v.combos| ==> !v.combos[k].isGift)
      && (v.gift.Some? ==> v.gift.value.isGift)
      && v.savings == v.regularTotal - v.offer.comboPrice
      && (v.showSavings <==> v.regularTotal > v.offer.comboPrice)
    ensures v.Shown? ==> ActiveOffer(offers) == Some(v.offer)
    ensures v.Shown? ==> v.combos == ItemsOfRows(RowsWithFlag(rows, v.offer.id, false), catalogue)
    ensures v.Shown? ==>
      v.gift == (if RowsWithFlag(rows, v.offer.id, true) == [] then None
                 else Some(ItemOf(RowsWithFlag(rows, v.offer.id, true)[0], catalogue)))
    ensures v.Shown? ==> v.regularTotal == PriceSum(RowProductIds(RowsWithFlag(rows, v.offer.id, false)), catalogue)
    ensures v.Shown? ==> v.dates == DateRange(v.offer)
  {
    match ActiveOffer(offers)
    case None => Placeholder
    case Some(offer) =>
      SplitOfItems(rows, offer.id, catalogue);
      RegularTotalOfItems(RowsWithFlag(rows, offer.id, false), catalogue);
      var items := ItemsOf(rows, offer.id, catalogue);
      var combos := ComboItems(items);
      var regularTotal := RegularTotal(combos);
      var savings := regularTotal - offer.comboPrice;
      Shown(offer, combos, GiftItem(items), regularTotal, savings, savings > 0.0, DateRange(offer))
  }

  // ---------------------------------------------------------------------------------------------
  // The active offer.

  lemma {:induction false} NoneActive(offers: seq<Offer>)
    ensures CountActive(offers) == 0 <==> forall k :: 0 <= k < |offers| ==> !offers[k].isActive
    decreases |offers|
  {
    if offers != [] {
      var init := offers[..|offers| - 1];
      NoneActive(init);
      assert forall k :: 0 <= k < |init| ==> init[k] == offers[k];
    }
  }

  /** With at most one active offer, an active offer rules out every other. */
  lemma {:induction false} OthersInactive(offers: seq<Offer>, i: int)
    requires CountActive(offers) <= 1
    requires 0 <= i < |offers| && offers[i].isActive
    ensures forall j :: 0 <= j < |offers| && j != i ==> !offers[j].isActive
    decreases |offers|
  {
    var n := |offers| - 1;
    var init := offers[..n];
    assert forall k :: 0 <= k < n ==> init[k] == offers[k];
    if i == n {
      NoneActive(init);
    } else {
      assert init[i].isActive;
      NoneActive(init);
      OthersInactive(init, i);
    }
  }

  /** With at most one active offer (what offer creation keeps), the page shows that one. */
  lemma SoleActiveShown(offers: seq<Offer>, i: int)
    requires CountActive(offers) <= 1
    requires 0 <= i < |offers| && offers[i].isActive
    ensures ActiveOffer(offers) == Some(offers[i])
  {
    OthersInactive(offers, i);
  }

  /** After an active offer is created, the page shows the new offer. */
  lemma CreatedActiveOfferShown(offers: seq<Offer>, o: Offer)
    requires o.isActive
    ensures ActiveOffer(Deactivated(offers) + [o]) == Some(o)
  {
    ActiveOfferIsOnlyActive(offers, o);
    SoleActiveShown(Deactivated(offers) + [o], |offers|);
  }

  /** The first active position is determined by the flags alone. */
  lemma {:induction false} FirstActiveIndexIs(offers: seq<Offer>, i: nat)
    requires i <= |offers|
    requires forall m :: 0 <= m < i ==> !offers[m].isActive
    requires i < |offers| ==> offers[i].isActive
    ensures FirstActiveIndex(offers) == i
    decreases |offers|
  {
    if offers != [] && i > 0 {
      FirstActiveIndexIs(offers[1..], i - 1);
    }
  }

  /** Creating an inactive offer does not change which offer the page shows. */
  lemma CreatedInactiveOfferHidden(offers: seq<Offer>, o: Offer)
    requires !o.isActive
    ensures ActiveOffer(offers + [o]) == ActiveOffer(offers)
  {
    var after := offers + [o];
    var i := FirstActiveIndex(offers);
    assert forall k :: 0 <= k < |offers| ==> after[k] == offers[k];
    if i < |offers| {
      FirstActiveIndexIs(after, i);
    } else {
      FirstActiveIndexIs(after, |after|);
    }
  }

  // ---------------------------------------------------------------------------------------------
  // The items of an offer.

  lemma {:induction false} RowsWithFlagKeeps(rows: seq<OfferProduct>, offerId: int, isGift: bool)
    ensures forall k :: 0 <= k < |RowsWithFlag(rows, offerId, isGift)| ==>
      RowsWithFlag(rows, offerId, isGift)[k].offerId == offerId && RowsWithFlag(rows, offerId, isGift)[k].isGift == isGift
    decreases |rows|
  {
    if rows != [] {
      RowsWithFlagKeeps(rows[..|rows| - 1], offerId, isGift);
    }
  }

  lemma {:induction false} ComboItemsOfConcat(a: seq<OfferItem>, b: seq<OfferItem>)
    ensures ComboItems(a + b) == ComboItems(a) + ComboItems(b)
    decreases |b|
  {
    if b == [] {
      assert a + b == a;
    } else {
      var ab := a + b;
      var init, last := b[..|b| - 1], b[|b| - 1];
      var tail := if last.isGift then [] else [last];
      assert ab[..|ab| - 1] == a + init;
      assert ab[|ab| - 1] == last;
      ComboItemsOfConcat(a, init);
      calc {
        ComboItems(ab);
        ComboItems(a + init) + tail;
        ComboItems(a) + ComboItems(init) + tail;
        { assert b[..|b| - 1] == init; }
        ComboItems(a) + ComboItems(b);
      }
    }
  }

  lemma {:induction false} ComboItemsAll(items: seq<OfferItem>, isGift: bool)
    requires forall k :: 0 <= k < |items| ==> items[k].isGift == isGift
    ensures ComboItems(items) == if isGift then [] else items
    decreases |items|
  {
    if items != [] {
      var init := items[..|items| - 1];
      ComboItemsAll(init, isGift);
      assert init + [items[|items| - 1]] == items;
    }
  }

  lemma {:induction false} GiftItemOfConcat(a: seq<OfferItem>, b: seq<OfferItem>)
    requires forall k :: 0 <= k < |a| ==> !a[k].isGift
    ensures GiftItem(a + b) == GiftItem(b)
    decreases |a|
  {
    if a != [] {
      GiftItemOfConcat(a[1..], b);
      assert (a + b)[1..] == a[1..] + b;
    } else {
      assert a + b == b;
    }
  }

  /** The combo items are the offer's non-gift rows and the gift is its first gift row, whatever
      other offers' rows the table holds. */
  lemma SplitOfItems(rows: seq<OfferProduct>, offerId: int, catalogue: map<int, CatalogueEntry>)
    ensures var items := ItemsOf(rows, offerId, catalogue);
      var gifts := RowsWithFlag(rows, offerId, true);
      && ComboItems(items) == ItemsOfRows(RowsWithFlag(rows, offerId, false), catalogue)
      && GiftItem(items) == if gifts == [] then None else Some(ItemOf(gifts[0], catalogue))
  {
    var combos := ItemsOfRows(RowsWithFlag(rows, offerId, false), catalogue);
    var gifts := ItemsOfRows(RowsWithFlag(rows, offerId, true), catalogue);
    RowsWithFlagKeeps(rows, offerId, false);
    RowsWithFlagKeeps(rows, offerId, true);
    ComboItemsOfConcat(combos, gifts);
    ComboItemsAll(combos, false);
    ComboItemsAll(gifts, true);
    GiftItemOfConcat(combos, gifts);
  }

  /** For an offer just created, the page lists exactly its combo products, in the order given,
      and its gift. */
  lemma CreatedOfferItems(existing: seq<OfferProduct>, offerId: int, productIds: seq<int>, giftProductId: int,
                          catalogue: map<int, CatalogueEntry>)
    requires forall k :: 0 <= k < |existing| ==> existing[k].offerId < offerId
    ensures var items := ItemsOf(existing + OfferRows(offerId, productIds, giftProductId), offerId, catalogue);
      var combos := ComboItems(items);
      && |combos| == |productIds|
      && (forall k :: 0 <= k < |productIds| ==> combos[k] == ItemOf(OfferProduct(offerId, productIds[k], false), catalogue))
      && GiftItem(items) == Some(ItemOf(OfferProduct(offerId, giftProductId, true), catalogue))
  {
    var table := existing + OfferRows(offerId, productIds, giftProductId);
    NewOfferRowsReadBack(existing, offerId, productIds, giftProductId);
    SplitOfItems(table, offerId, catalogue);
  }

  // ---------------------------------------------------------------------------------------------
  // Pricing.

  /** The sum of catalogue prices of the given products, an unknown product counting 0. */
  function PriceSum(productIds: seq<int>, catalogue: map<int, CatalogueEntry>): real
    decreases |productIds|
  {
    if productIds == [] then 0.0
    else
      var last := productIds[|productIds| - 1];
      PriceSum(productIds[..|productIds| - 1], catalogue) + (if last in catalogue then catalogue[last].price else 0.0)
  }

  /** The product ids of some rows, in order. */
  function RowProductIds(rows: seq<OfferProduct>): (ids: seq<int>)
    ensures |ids| == |rows|
    ensures forall k :: 0 <= k < |rows| ==> ids[k] == rows[k].productId
  {
    seq(|rows|, k requires 0 <= k < |rows| => rows[k].productId)
  }

  /** The regular price of any joined rows is the sum of their products' catalogue prices, a
      product missing from the catalogue counting 0. */
  lemma {:induction false} RegularTotalOfItems(rows: seq<OfferProduct>, catalogue: map<int, CatalogueEntry>)
    ensures RegularTotal(ItemsOfRows(rows, catalogue)) == PriceSum(RowProductIds(rows), catalogue)
    decreases |rows|
  {
    if rows != [] {
      var n := |rows| - 1;
      RegularTotalOfItems(rows[..n], catalogue);
      assert ItemsOfRows(rows, catalogue)[..n] == ItemsOfRows(rows[..n], catalogue);
      assert RowProductIds(rows)[..n] == RowProductIds(rows[..n]);
    }
  }

  lemma {:induction false} RegularTotalOfRows(productIds: seq<int>, offerId: int, catalogue: map<int, CatalogueEntry>)
    ensures RegularTotal(ItemsOfRows(ComboRows(offerId, productIds), catalogue)) == PriceSum(productIds, catalogue)
    decreases |productIds|
  {
    if productIds != [] {
      var n := |productIds| - 1;
      RegularTotalOfRows(productIds[..n], offerId, catalogue);
      var items := ItemsOfRows(ComboRows(offerId, productIds), catalogue);
      assert items[..n] == ItemsOfRows(ComboRows(offerId, productIds[..n]), catalogue);
    }
  }

  /** A gift never counts towards the regular price. */
  lemma {:induction false} GiftNotCounted(items: seq<OfferItem>, gift: OfferItem)
    requires gift.isGift
    ensures RegularTotal(ComboItems(items + [gift])) == RegularTotal(ComboItems(items))
  {
    var all := items + [gift];
    assert all[..|all| - 1] == items;
    assert ComboItems(all) == ComboItems(items);
  }

  /** A newly created offer's regular price is the sum of its combo products' prices, and the
      saving is shown exactly when that sum exceeds the combo price. */
  lemma CreatedOfferPricing(offers: seq<Offer>, existing: seq<OfferProduct>, o: Offer, productIds: seq<int>,
                            giftProductId: int, catalogue: map<int, CatalogueEntry>)
    requires o.isActive
    requires forall k :: 0 <= k < |existing| ==> existing[k].offerId < o.id
    ensures var v := Render(Deactivated(offers) + [o], existing + OfferRows(o.id, productIds, giftProductId), catalogue);
      && v.Shown? && v.offer == o
      && v.regularTotal == PriceSum(productIds, catalogue)
      && (v.showSavings <==> PriceSum(productIds, catalogue) > o.comboPrice)
  {
    var table := existing + OfferRows(o.id, productIds, giftProductId);
    CreatedActiveOfferShown(offers, o);
    NewOfferRowsReadBack(existing, o.id, productIds, giftProductId);
    SplitOfItems(table, o.id, catalogue);
    RegularTotalOfRows(productIds, o.id, catalogue);
  }

  /** Dates: a full timestamp shows its first ten characters; a missing end hides the line. */
  lemma DateRangeExamples(offer: Offer)
    ensures offer.startsAt == Some("2025-01-06T00:00") && offer.endsAt == Some("2025-01-12") ==>
      DateRange(offer) == Some(("2025-01-06", "2025-01-12"))
    ensures offer.endsAt.None? ==> DateRange(offer).None?
  {
    assert "2025-01-06T00:00"[..10] == "2025-01-06";
  }
}
