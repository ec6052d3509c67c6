/**
 * Creating a weekly offer (`POST /api/weekly-offer`): an admin-only request that checks its data,
 * checks that every product it names exists, switches every other offer off when the new one is
 * active, inserts the offer and then one offer-product row per combo product plus one gift row.
 */
module WeeklyOfferRoute {
  import opened Common

  /** A row of `weekly_offers`; the timestamps are left out. */
  datatype Offer = Offer(
    id: int,
    title: string,
    description: Option<string>,
    comboPrice: real,
    stock: int,
    isActive: bool,
    startsAt: Option<string>,
    endsAt: Option<string>)

  /** A row of `weekly_offer_products`. */
  datatype OfferProduct = OfferProduct(offerId: int, productId: int, isGift: bool)

  /** The JSON body the route reads; a `stock` the client sends is not among the fields it reads. */
  datatype OfferBody = OfferBody(
    title: Option<string>,
    description: Option<string>,
    comboPrice: real,
    isActive: bool,
    startsAt: Option<string>,
    endsAt: Option<string>,
    productIds: seq<int>,
    giftProductId: int)

  datatype Response = Unauthorized | InvalidData | InvalidProduct | Created(offer: Offer)

  /** The schema default of `weekly_offers.stock`. */
  const DEFAULT_STOCK := 0

  function Status(r: Response): int {
    match r
    case Unauthorized => 401
    case InvalidData => 400
    case InvalidProduct => 400
    case Created(_) => 201
  }

  /** The data check: a truthy title, a positive combo price and at least one combo product. */
  predicate DataValid(body: OfferBody) {
    Truthy(body.title) && body.comboPrice > 0.0 && body.productIds != []
  }

  /** `[...new Set(s)]`: each value once, at its first position. */
  function Dedup(s: seq<int>): (r: seq<int>)
    ensures forall x :: x in r <==> x in s
    ensures forall i, j :: 0 <= i < j < |r| ==> r[i] != r[j]
    decreases |s|
  {
    if s == [] then []
    else
      var rest := Dedup(s[..|s| - 1]);
      assert forall x :: x in s <==> x in s[..|s| - 1] || x == s[|s| - 1] by {
        assert s == s[..|s| - 1] + [s[|s| - 1]];
      }
      if s[|s| - 1] in rest then rest else rest + [s[|s| - 1]]
  }

  /** The combo products and the gift, de-duplicated. */
  function Referenced(body: OfferBody): seq<int> {
    Dedup(body.productIds + [body.giftProductId])
  }

  /** The ids among `ids` that the products table holds: what the `inArray` query returns. */
  function Found(ids: seq<int>, table: set<int>): (r: seq<int>)
    ensures |r| <= |ids|
    ensures forall x :: x in r <==> x in ids && x in table
    decreases |ids|
  {
    if ids == [] then []
    else
      var last := ids[|ids| - 1];
      assert ids == ids[..|ids| - 1] + [last];
      Found(ids[..|ids| - 1], table) + (if last in table then [last] else [])
  }

  /** Every offer switched off. */
  function Deactivated(offers: seq<Offer>): (r: seq<Offer>)
    ensures |r| == |offers|
    ensures forall k :: 0 <= k < |offers| ==> r[k] == offers[k].(isActive := false)
  {
    seq(|offers|, k requires 0 <= k < |offers| => offers[k].(isActive := false))
  }

  /** How many offers are active. */
  function CountActive(offers: seq<Offer>): nat
    decreases |offers|
  {
    if offers == [] then 0
    else CountActive(offers[..|offers| - 1]) + (if offers[|offers| - 1].isActive then 1 else 0)
  }

  /** `productIds.map(pid => ({ offerId, productId: pid, isGift: false }))`. */
  function ComboRows(offerId: int, productIds: seq<int>): (r: seq<OfferProduct>)
    ensures |r| == |productIds|
    ensures forall k :: 0 <= k < |r| ==> r[k] == OfferProduct(offerId, productIds[k], false)
  {
    seq(|productIds|, k requires 0 <= k < |productIds| => OfferProduct(offerId, productIds[k], false))
  }

  /** The rows of one offer with the given gift flag, in table order: how the rows are read back
      as combo products and gift. */
  function RowsWithFlag(rows: seq<OfferProduct>, offerId: int, isGift: bool): seq<OfferProduct>
    decreases |rows|
  {
    if rows == [] then []
    else
      var last := rows[|rows| - 1];
      RowsWithFlag(rows[..|rows| - 1], offerId, isGift)
        + (if last.offerId == offerId && last.isGift == isGift then [last] else [])
  }

  // ---------------------------------------------------------------------------------------------

  /** The existence check is exact: as many rows come back as ids were asked for exactly when every
      referenced id is a product. */
  lemma {:induction false} FoundAllExactly(ids: seq<int>, table: set<int>)
    requires forall i, j :: 0 <= i < j < |ids| ==> ids[i] != ids[j]
    ensures |Found(ids, table)| == |ids| <==> forall x :: x in ids ==> x in table
    decreases |ids|
  {
    if ids != [] {
      var init, last := ids[..|ids| - 1], ids[|ids| - 1];
      assert ids == init + [last];
      FoundAllExactly(init, table);
      if last !in table {
        assert |Found(ids, table)| < |ids|;
      }
    }
  }

  /** The referenced ids are exactly the combo products and the gift. */
  lemma ReferencedIds(body: OfferBody)
    ensures forall x :: x in Referenced(body) <==> x in body.productIds || x == body.giftProductId
  {
  }

  /** Switching every offer off leaves none active. */
  lemma {:induction false} DeactivatedCount(offers: seq<Offer>)
    ensures CountActive(Deactivated(offers)) == 0
    decreases |offers|
  {
    if offers != [] {
      var n := |offers| - 1;
      DeactivatedCount(offers[..n]);
      assert Deactivated(offers)[..n] == Deactivated(offers[..n]);
    }
  }

  /** Appending an offer adds one to the active count exactly when it is active. */
  lemma CountActiveAppend(offers: seq<Offer>, o: Offer)
    ensures CountActive(offers + [o]) == CountActive(offers) + (if o.isActive then 1 else 0)
  {
    assert (offers + [o])[..|offers|] == offers;
  }

  /** Read back by gift flag, the rows the route writes give the combo products in order and the
      gift alone. */
  lemma {:induction false} ComboRowsReadBack(offerId: int, productIds: seq<int>)
    ensures RowsWithFlag(ComboRows(offerId, productIds), offerId, false) == ComboRows(offerId, productIds)
    ensures RowsWithFlag(ComboRows(offerId, productIds), offerId, true) == []
    decreases |productIds|
  {
    if productIds != [] {
      var n := |productIds| - 1;
      ComboRowsReadBack(offerId, productIds[..n]);
      var rows := ComboRows(offerId, productIds);
      assert rows[..n] == ComboRows(offerId, productIds[..n]);
      assert rows[..n] + [rows[n]] == rows;
    }
  }

  /** The rows for a new offer: every combo row in order, then the gift row. */
  function OfferRows(offerId: int, productIds: seq<int>, giftProductId: int): seq<OfferProduct> {
    ComboRows(offerId, productIds) + [OfferProduct(offerId, giftProductId, true)]
  }

  /** `|productIds| + 1` rows, all of the new offer, of which only the last is the gift row. */
  lemma OfferRowsShape(offerId: int, productIds: seq<int>, giftProductId: int)
    ensures var rows := OfferRows(offerId, productIds, giftProductId);
      && |rows| == |productIds| + 1
      && (forall k :: 0 <= k < |rows| ==> rows[k].offerId == offerId && (rows[k].isGift <==> k == |productIds|))
  {
  }

  /** Read back by gift flag, the rows of a new offer give its combo products in order and its
      gift alone. */
  lemma OfferRowsReadBack(offerId: int, productIds: seq<int>, giftProductId: int)
    ensures RowsWithFlag(OfferRows(offerId, productIds, giftProductId), offerId, false) == ComboRows(offerId, productIds)
    ensures RowsWithFlag(OfferRows(offerId, productIds, giftProductId), offerId, true) == [OfferProduct(offerId, giftProductId, true)]
  {
    var combo := ComboRows(offerId, productIds);
    var gift := OfferProduct(offerId, giftProductId, true);
    ComboRowsReadBack(offerId, productIds);
    RowsWithFlagOfConcat(combo, [gift], offerId, false);
    RowsWithFlagOfConcat(combo, [gift], offerId, true);
    assert [gift][..0] == [];
    assert combo + [] == combo;
  }

  /** Rows of other offers do not show up when one offer's rows are read back. */
  lemma {:induction false} RowsWithFlagOfConcat(a: seq<OfferProduct>, b: seq<OfferProduct>, offerId: int, isGift: bool)
    ensures RowsWithFlag(a + b, offerId, isGift) == RowsWithFlag(a, offerId, isGift) + RowsWithFlag(b, offerId, isGift)
    decreases |b|
  {
    if b == [] {
      assert a + b == a;
    } else {
      RowsWithFlagOfConcat(a, b[..|b| - 1], offerId, isGift);
      assert (a + b)[..|a + b| - 1] == a + b[..|b| - 1];
    }
  }

  lemma {:induction false} RowsWithFlagOtherOffers(rows: seq<OfferProduct>, offerId: int, isGift: bool)
    requires forall k :: 0 <= k < |rows| ==> rows[k].offerId != offerId
    ensures RowsWithFlag(rows, offerId, isGift) == []
    decreases |rows|
  {
    if rows != [] {
      RowsWithFlagOtherOffers(rows[..|rows| - 1], offerId, isGift);
    }
  }

  // ---------------------------------------------------------------------------------------------

  /** Every id, and every row's offer id, was handed out before; at most one offer is active. */
  ghost predicate TablesValid(offers: seq<Offer>, offerProducts: seq<OfferProduct>, nextOfferId: int) {
    && (forall k :: 0 <= k < |offers| ==> offers[k].id < nextOfferId)
    && (forall k :: 0 <= k < |offerProducts| ==> offerProducts[k].offerId < nextOfferId)
    && CountActive(offers) <= 1
  }

  /** Inserting an offer under the next id, with its rows, after switching the others off when it
      is active, keeps the tables valid. */
  lemma CreateKeepsValid(offers: seq<Offer>, offerProducts: seq<OfferProduct>, next: int, o: Offer, productIds: seq<int>, giftProductId: int)
    requires TablesValid(offers, offerProducts, next)
    requires o.id == next
    ensures TablesValid((if o.isActive then Deactivated(offers) else offers) + [o],
                        offerProducts + OfferRows(next, productIds, giftProductId), next + 1)
  {
    var before := if o.isActive then Deactivated(offers) else offers;
    if o.isActive {
      DeactivatedCount(offers);
    }
    CountActiveAppend(before, o);
    OfferRowsShape(next, productIds, giftProductId);
    var rows := offerProducts + OfferRows(next, productIds, giftProductId);
    assert forall k :: 0 <= k < |rows| ==> rows[k].offerId < next + 1 by {
      forall k | 0 <= k < |rows|
        ensures rows[k].offerId < next + 1
      {
        if k >= |offerProducts| {
          assert rows[k] == OfferRows(next, productIds, giftProductId)[k - |offerProducts|];
        }
      }
    }
  }

  /** The two tables the route writes, with the id the next inserted offer receives. */
  class OfferTables {
    var offers: seq<Offer>
    var offerProducts: seq<OfferProduct>
    var nextOfferId: int

    ghost predicate Valid()
      reads this
    {
      TablesValid(offers, offerProducts, nextOfferId)
    }

    constructor()
      ensures Valid()
      ensures offers == [] && offerProducts == [] && nextOfferId == 1
    {
      offers := [];
      offerProducts := [];
      nextOfferId := 1;
    }

    /** `POST`: 401 without a session, 400 on bad data or an unknown product, otherwise the offer
        is created; every refusal leaves both tables as they were. */
    method Create(hasSession: bool, productTable: set<int>, body: OfferBody) returns (r: Response)
      requires Valid()
      modifies this
      ensures Valid()
      ensures r == Unauthorized <==> !hasSession
      ensures r == InvalidData <==> hasSession && !DataValid(body)
      ensures r == InvalidProduct <==>
        hasSession && DataValid(body) && !(forall x :: x in Referenced(body) ==> x in productTable)
      ensures !r.Created? ==> offers == old(offers) && offerProducts == old(offerProducts) && nextOfferId == old(nextOfferId)
      ensures r.Created? ==>
        && body.title.Some?
        && r.offer == Offer(old(nextOfferId), body.title.value, body.description, body.comboPrice,
                            DEFAULT_STOCK, body.isActive, body.startsAt, body.endsAt)
        && offers == (if body.isActive then Deactivated(old(offers)) else old(offers)) + [r.offer]
        && offerProducts == old(offerProducts) + OfferRows(r.offer.id, body.productIds, body.giftProductId)
        && nextOfferId == old(nextOfferId) + 1
    {
      if !hasSession {
        return Unauthorized;
      }
      if !DataValid(body) {
        return InvalidData;
      }
      var referenced := Referenced(body);
      var found := Found(referenced, productTable);
      FoundAllExactly(referenced, productTable);
      if |found| != |referenced| {
        return InvalidProduct;
      }

      var offer := Offer(nextOfferId, body.title.value, body.description, body.comboPrice,
                         DEFAULT_STOCK, body.isActive, body.startsAt, body.endsAt);
      CreateKeepsValid(offers, offerProducts, nextOfferId, offer, body.productIds, body.giftProductId);
      if body.isActive {
        offers := Deactivated(offers);
      }
      offers := offers + [offer];
      nextOfferId := nextOfferId + 1;

      var productRows := ComboRows(offer.id, body.productIds);
      productRows := productRows + [OfferProduct(offer.id, body.giftProductId, true)];
      offerProducts := offerProducts + productRows;
      r := Created(offer);
    }
  }

  // ---------------------------------------------------------------------------------------------
  // What a created offer looks like next to the offers already there.

  /** A new active offer is the only active one afterwards, and it is the last. */
  lemma ActiveOfferIsOnlyActive(offers: seq<Offer>, o: Offer)
    requires o.isActive
    ensures var after := Deactivated(offers) + [o];
      && CountActive(after) == 1
      && forall k :: 0 <= k < |after| ==> (after[k].isActive <==> k == |offers|)
  {
    DeactivatedCount(offers);
    CountActiveAppend(Deactivated(offers), o);
  }

  /** A new inactive offer changes no other offer's flag and adds nothing to the active count. */
  lemma InactiveOfferKeepsFlags(offers: seq<Offer>, o: Offer)
    requires !o.isActive
    ensures var after := offers + [o];
      && CountActive(after) == CountActive(offers)
      && after[..|offers|] == offers
  {
    CountActiveAppend(offers, o);
  }

  /** Reading the table back for the new offer gives its combo products and its gift, whatever rows
      of earlier offers are there. */
  lemma NewOfferRowsReadBack(existing: seq<OfferProduct>, offerId: int, productIds: seq<int>, giftProductId: int)
    requires forall k :: 0 <= k < |existing| ==> existing[k].offerId < offerId
    ensures RowsWithFlag(existing + OfferRows(offerId, productIds, giftProductId), offerId, false) == ComboRows(offerId, productIds)
    ensures RowsWithFlag(existing + OfferRows(offerId, productIds, giftProductId), offerId, true) == [OfferProduct(offerId, giftProductId, true)]
  {
    var rows := OfferRows(offerId, productIds, giftProductId);
    OfferRowsReadBack(offerId, productIds, giftProductId);
    RowsWithFlagOtherOffers(existing, offerId, false);
    RowsWithFlagOtherOffers(existing, offerId, true);
    RowsWithFlagOfConcat(existing, rows, offerId, false);
    RowsWithFlagOfConcat(existing, rows, offerId, true);
  }
}
