/**
 * The admin form for a weekly offer: the choice of combo products and of one gift product, the
 * checks made before the form is sent, the body it sends, the running regular price of the chosen
 * combo and the product search.
 */
module OfferForm {
  import opened Common
  import opened JsText
  import WeeklyOfferRoute

  /** What the form knows of a product. */
  datatype FormProduct = FormProduct(id: int, name: string, brandName: Option<string>, price: real)

  /** `selectedComboIds.filter(x => x !== id)`. */
  function Without(ids: seq<int>, id: int): seq<int>
    decreases |ids|
  {
    if ids == [] then []
    else Without(ids[..|ids| - 1], id) + (if ids[|ids| - 1] == id then [] else [ids[|ids| - 1]])
  }

  /** The new combo list of `toggleCombo(id)`: out if it was in, appended at the end otherwise. */
  function Toggle(ids: seq<int>, id: int): seq<int> {
    if id in ids then Without(ids, id) else ids + [id]
  }

  predicate Distinct(ids: seq<int>) {
    forall i, j :: 0 <= i < j < |ids| ==> ids[i] != ids[j]
  }

  // ---------------------------------------------------------------------------------------------

  /** `Without` keeps every other id, in order, and drops every copy of `id`. */
  lemma {:induction false} WithoutMembers(ids: seq<int>, id: int)
    ensures forall x :: x in Without(ids, id) <==> x in ids && x != id
    ensures |Without(ids, id)| <= |ids|
    ensures Distinct(ids) ==> Distinct(Without(ids, id))
    decreases |ids|
  {
    if ids != [] {
      var init, last := ids[..|ids| - 1], ids[|ids| - 1];
      assert ids == init + [last];
      WithoutMembers(init, id);
      if Distinct(ids) {
        assert Distinct(init);
        var w := Without(ids, id);
        if last != id {
          assert last !in init;
          forall i, j | 0 <= i < j < |w| ensures w[i] != w[j] {
            if j == |w| - 1 {
              assert w[i] in Without(init, id);
            }
          }
        }
      }
    }
  }

  /** Filtering distributes over concatenation, so the order of the other ids is kept. */
  lemma {:induction false} WithoutOfConcat(a: seq<int>, b: seq<int>, id: int)
    ensures Without(a + b, id) == Without(a, id) + Without(b, id)
    decreases |b|
  {
    if b == [] {
      assert a + b == a;
    } else {
      WithoutOfConcat(a, b[..|b| - 1], id);
      assert (a + b)[..|a + b| - 1] == a + b[..|b| - 1];
    }
  }

  lemma {:induction false} WithoutAbsent(ids: seq<int>, id: int)
    requires id !in ids
    ensures Without(ids, id) == ids
    decreases |ids|
  {
    if ids != [] {
      var init := ids[..|ids| - 1];
      assert id !in init;
      WithoutAbsent(init, id);
      assert init + [ids[|ids| - 1]] == ids;
    }
  }

  /** With distinct ids, taking out the id at position `k` leaves the ids around it, in order. */
  lemma WithoutAt(ids: seq<int>, k: int)
    requires Distinct(ids)
    requires 0 <= k < |ids|
    ensures Without(ids, ids[k]) == ids[..k] + ids[k + 1..]
  {
    var id, before, after := ids[k], ids[..k], ids[k + 1..];
    assert ids == (before + [id]) + after;
    assert id !in before by {
      forall m | 0 <= m < |before| ensures before[m] != id {
        assert before[m] == ids[m];
      }
    }
    assert id !in after by {
      forall m | 0 <= m < |after| ensures after[m] != id {
        assert after[m] == ids[k + 1 + m];
      }
    }
    WithoutOfConcat(before + [id], after, id);
    WithoutOfConcat(before, [id], id);
    WithoutAbsent(before, id);
    WithoutAbsent(after, id);
    assert Without([id], id) == [] by {
      assert [id][..0] == [];
    }
    calc {
      Without(ids, id);
      Without((before + [id]) + after, id);
      Without(before + [id], id) + Without(after, id);
      (Without(before, id) + Without([id], id)) + Without(after, id);
      { assert before + [] == before; }
      before + after;
    }
  }

  /** `toggleCombo` on a chosen id takes it out and keeps the rest in order; on any other id it
      appends it; distinctness is kept both ways. */
  lemma ToggleEffect(ids: seq<int>, id: int)
    requires Distinct(ids)
    ensures id in ids ==> id !in Toggle(ids, id) && |Toggle(ids, id)| == |ids| - 1
    ensures id !in ids ==> Toggle(ids, id) == ids + [id]
    ensures forall x :: x != id ==> (x in Toggle(ids, id) <==> x in ids)
    ensures Distinct(Toggle(ids, id))
  {
    WithoutMembers(ids, id);
    if id in ids {
      var k :| 0 <= k < |ids| && ids[k] == id;
      WithoutAt(ids, k);
    }
  }

  /** Toggling an id in and out again restores a list that did not hold it. */
  lemma ToggleTwice(ids: seq<int>, id: int)
    requires id !in ids
    ensures Toggle(Toggle(ids, id), id) == ids
  {
    WithoutOfConcat(ids, [id], id);
    WithoutAbsent(ids, id);
    assert [id][..0] == [];
  }

  // ---------------------------------------------------------------------------------------------

  /** The selection held in the form's state. */
  class OfferSelection {
    var selectedComboIds: seq<int>
    var giftProductId: Option<int>

    /** The gift is never also a combo product, and no combo product is chosen twice. */
    ghost predicate Valid()
      reads this
    {
      Distinct(selectedComboIds) && (giftProductId.Some? ==> giftProductId.value !in selectedComboIds)
    }

    /** A new offer starts with nothing chosen. */
    constructor()
      ensures Valid()
      ensures selectedComboIds == [] && giftProductId == None
    {
      selectedComboIds := [];
      giftProductId := None;
    }

    /** `toggleCombo(id)`: the combo list toggles `id`, and a gift equal to `id` is cleared. */
    method ToggleCombo(id: int)
      requires Valid()
      modifies this
      ensures Valid()
      ensures selectedComboIds == Toggle(old(selectedComboIds), id)
      ensures giftProductId == if old(giftProductId) == Some(id) then None else old(giftProductId)
    {
      ToggleEffect(selectedComboIds, id);
      var before := selectedComboIds;
      selectedComboIds := Toggle(selectedComboIds, id);
      if giftProductId == Some(id) {
        giftProductId := None;
      } else if giftProductId.Some? {
        assert giftProductId.value !in before;
        assert giftProductId.value != id;
      }
    }

    /** `setGift(id)`: `id` becomes the gift and leaves the combo list; other combos keep their order. */
    method SetGift(id: int)
      requires Valid()
      modifies this
      ensures Valid()
      ensures giftProductId == Some(id)
      ensures selectedComboIds == Without(old(selectedComboIds), id)
    {
      WithoutMembers(selectedComboIds, id);
      giftProductId := Some(id);
      selectedComboIds := Without(selectedComboIds, id);
    }

    /** The gift button on the current gift: the gift is cleared, the combo list is kept. */
    method ClearGift()
      requires Valid()
      modifies this
      ensures Valid()
      ensures giftProductId == None && selectedComboIds == old(selectedComboIds)
    {
      giftProductId := None;
    }
  }

  // ---------------------------------------------------------------------------------------------
  // Submitting.

  datatype SubmitError = InvalidPrice | NoComboProduct | NoGift

  /** The form's fields as the user left them. */
  datatype FormFields = FormFields(
    title: string,
    description: string,
    comboPrice: Option<real>,
    stock: string,
    isActive: bool,
    startsAt: string,
    endsAt: string)

  /** What is sent to the route. */
  datatype Payload = Payload(
    title: string,
    description: string,
    comboPrice: real,
    stock: int,
    isActive: bool,
    startsAt: Option<string>,
    endsAt: Option<string>,
    productIds: seq<int>,
    giftProductId: int)

  /** `x || undefined` on a string field. */
  function OrUndefined(s: string): (r: Option<string>)
    ensures r == None <==> s == ""
    ensures r.Some? ==> r.value == s
  {
    if s == "" then None else Some(s)
  }

  /** `handleSubmit`: the price (already through `parseFloat`, NaN as None) must be positive, then
      a combo product must be chosen, then a truthy gift id; only then is the body built. */
  function Submit(fields: FormFields, combos: seq<int>, gift: Option<int>): (r: Result<Payload, SubmitError>)
    ensures r == Err(InvalidPrice) <==> fields.comboPrice.None? || fields.comboPrice.value <= 0.0
    ensures r == Err(NoComboProduct) <==> fields.comboPrice.Some? && fields.comboPrice.value > 0.0 && combos == []
    ensures r == Err(NoGift) <==>
      fields.comboPrice.Some? && fields.comboPrice.value > 0.0 && combos != [] && (gift.None? || gift.value == 0)
    ensures r.Ok? ==>
      && r.value.comboPrice == fields.comboPrice.value && r.value.comboPrice > 0.0
      && r.value.productIds == combos && r.value.productIds != []
      && gift == Some(r.value.giftProductId) && r.value.giftProductId != 0
    ensures r.Ok? ==>
      && r.value.title == fields.title && r.value.description == fields.description
      && r.value.isActive == fields.isActive
      && r.value.startsAt == OrUndefined(fields.startsAt) && r.value.endsAt == OrUndefined(fields.endsAt)
  {
    if fields.comboPrice.None? || fields.comboPrice.value <= 0.0 then Err(InvalidPrice)
    else if combos == [] then Err(NoComboProduct)
    else if gift.None? || gift.value == 0 then Err(NoGift)
    else
      var parsedStock := ParseInt(fields.stock);
      Ok(Payload(
        fields.title, fields.description, fields.comboPrice.value,
        if parsedStock.Some? && parsedStock.value != 0 then parsedStock.value else 0,
        fields.isActive, OrUndefined(fields.startsAt), OrUndefined(fields.endsAt), combos, gift.value))
  }

  /** The body as the route reads it: JSON keeps every field; `undefined` ones are absent. */
  function AsRouteBody(p: Payload): WeeklyOfferRoute.OfferBody {
    WeeklyOfferRoute.OfferBody(Some(p.title), Some(p.description), p.comboPrice, p.isActive,
                               p.startsAt, p.endsAt, p.productIds, p.giftProductId)
  }

  /** A body that passes the form's checks and has a title passes the route's data check; the
      route then stores stock 0 whatever stock the form sent. */
  lemma SubmittedBodyPassesRoute(fields: FormFields, combos: seq<int>, gift: Option<int>)
    requires Submit(fields, combos, gift).Ok?
    requires fields.title != ""
    ensures WeeklyOfferRoute.DataValid(AsRouteBody(Submit(fields, combos, gift).value))
  {
  }

  /** The stock sent is the parsed integer, or 0 when it is NaN (or 0). */
  lemma SubmittedStock(fields: FormFields, combos: seq<int>, gift: Option<int>, n: int)
    requires Submit(fields, combos, gift).Ok?
    ensures Submit(fields, combos, gift).value.stock == ParseInt(fields.stock).GetOr(0)
    ensures fields.stock == IntToDecimal(n) ==> Submit(fields, combos, gift).value.stock == n
  {
    if fields.stock == IntToDecimal(n) {
      ParseIntOfDecimal(n);
    }
  }

  // ---------------------------------------------------------------------------------------------
  // Regular price of the chosen combo, and the product search.

  /** `products.find(x => x.id === id)?.price ?? 0`. */
  function PriceOf(products: seq<FormProduct>, id: int): real
    decreases |products|
  {
    if products == [] then 0.0
    else if products[0].id == id then products[0].price
    else PriceOf(products[1..], id)
  }

  /** `comboTotal`: the prices of the chosen ids added up in order. */
  function ComboTotal(ids: seq<int>, products: seq<FormProduct>): real
    decreases |ids|
  {
    if ids == [] then 0.0 else ComboTotal(ids[..|ids| - 1], products) + PriceOf(products, ids[|ids| - 1])
  }

  /** The price found is the first product's with that id, and an unknown id counts 0. */
  lemma {:induction false} PriceOfFirst(products: seq<FormProduct>, id: int)
    ensures (forall k :: 0 <= k < |products| ==> products[k].id != id) ==> PriceOf(products, id) == 0.0
    ensures forall k :: 0 <= k < |products| && products[k].id == id && (forall j :: 0 <= j < k ==> products[j].id != id) ==>
      PriceOf(products, id) == products[k].price
    decreases |products|
  {
    if products != [] {
      PriceOfFirst(products[1..], id);
      forall k | 0 <= k < |products| && products[k].id == id && (forall j :: 0 <= j < k ==> products[j].id != id)
        ensures PriceOf(products, id) == products[k].price
      {
        if k > 0 {
          assert products[0].id != id;
          assert products[1..][k - 1] == products[k];
          forall j | 0 <= j < k - 1 ensures products[1..][j].id != id {
            assert products[1..][j] == products[j + 1];
          }
        }
      }
      if forall k :: 0 <= k < |products| ==> products[k].id != id {
        assert products[0].id != id;
        forall k | 0 <= k < |products| - 1 ensures products[1..][k].id != id {
          assert products[1..][k] == products[k + 1];
        }
      }
    }
  }

  lemma {:induction false} ComboTotalOfConcat(a: seq<int>, b: seq<int>, products: seq<FormProduct>)
    ensures ComboTotal(a + b, products) == ComboTotal(a, products) + ComboTotal(b, products)
    decreases |b|
  {
    if b == [] {
      assert a + b == a;
    } else {
      ComboTotalOfConcat(a, b[..|b| - 1], products);
      assert (a + b)[..|a + b| - 1] == a + b[..|b| - 1];
    }
  }

  /** Toggling a combo product in or out moves the regular price by that product's price. */
  lemma ComboTotalOfToggle(ids: seq<int>, id: int, products: seq<FormProduct>)
    requires Distinct(ids)
    ensures id !in ids ==> ComboTotal(Toggle(ids, id), products) == ComboTotal(ids, products) + PriceOf(products, id)
    ensures id in ids ==> ComboTotal(Toggle(ids, id), products) == ComboTotal(ids, products) - PriceOf(products, id)
  {
    assert [id][..0] == [];
    if id in ids {
      var k :| 0 <= k < |ids| && ids[k] == id;
      WithoutAt(ids, k);
      var before, after := ids[..k], ids[k + 1..];
      assert ids == (before + [id]) + after;
      ComboTotalOfConcat(before + [id], after, products);
      ComboTotalOfConcat(before, [id], products);
      ComboTotalOfConcat(before, after, products);
    } else {
      ComboTotalOfConcat(ids, [id], products);
    }
  }

  /** The text the search looks in: `${name} ${brandName ?? ""}`, lower-cased. */
  function SearchText(p: FormProduct): string {
    ToLower(p.name + " " + p.brandName.GetOr(""))
  }

  /** `filtered`: the products whose search text contains the lower-cased search, in order. */
  function Filtered(products: seq<FormProduct>, search: string): seq<FormProduct>
    decreases |products|
  {
    if products == [] then []
    else
      var last := products[|products| - 1];
      Filtered(products[..|products| - 1], search)
        + (if Includes(SearchText(last), ToLower(search)) then [last] else [])
  }

  /** A product is listed exactly when it matches; the empty search lists every product in order. */
  lemma {:induction false} FilteredMembers(products: seq<FormProduct>, search: string)
    ensures forall p :: p in Filtered(products, search) <==> p in products && Includes(SearchText(p), ToLower(search))
    ensures |Filtered(products, search)| <= |products|
    ensures search == "" ==> Filtered(products, search) == products
    decreases |products|
  {
    if products != [] {
      var init, last := products[..|products| - 1], products[|products| - 1];
      assert products == init + [last];
      FilteredMembers(init, search);
      IncludesEmpty(SearchText(last));
    }
  }

  /** The search keeps order: filtering a list made of two parts filters each part in place. */
  lemma {:induction false} FilteredOfConcat(a: seq<FormProduct>, b: seq<FormProduct>, search: string)
    ensures Filtered(a + b, search) == Filtered(a, search) + Filtered(b, search)
    decreases |b|
  {
    if b == [] {
      assert a + b == a;
    } else {
      var ab := a + b;
      var init, last := b[..|b| - 1], b[|b| - 1];
      var tail := if Includes(SearchText(last), ToLower(search)) then [last] else [];
      assert ab[..|ab| - 1] == a + init;
      assert ab[|ab| - 1] == last;
      FilteredOfConcat(a, init, search);
      calc {
        Filtered(ab, search);
        Filtered(a + init, search) + tail;
        Filtered(a, search) + Filtered(init, search) + tail;
        { assert b[..|b| - 1] == init; }
        Filtered(a, search) + Filtered(b, search);
      }
    }
  }
}
