/**
 * The catalogue home page: it reads category, brand, sort and page from the query string,
 * normalises them, shows one page of 24 products and builds the links of its pager. The brand
 * links it renders come from the brand filter.
 */
module CataloguePage {
  import opened Common
  import opened JsText
  import opened Query
  import BrandFilter

  /** The query-string values the page receives; each is absent or one string. */
  datatype PageParams = PageParams(brand: Option<string>, category: Option<string>, sort: Option<string>, page: Option<string>)

  datatype SortDir = Asc | Desc

  /** The normalised state the pager's links keep. */
  datatype PageState = PageState(category: Option<string>, brand: Option<string>, sort: SortDir)

  /** `PAGE_SIZE`. */
  const PAGE_SIZE := 24

  /** The category filter: only the two known categories, compared exactly. */
  function NormalizeCategory(category: Option<string>): (r: Option<string>)
    ensures r.Some? <==> category == Some("parfum") || category == Some("cosmetic")
    ensures r.Some? ==> r == category
  {
    if category == Some("parfum") || category == Some("cosmetic") then category else None
  }

  /** Descending only for exactly "desc". */
  function NormalizeSort(sort: Option<string>): (r: SortDir)
    ensures r == Desc <==> sort == Some("desc")
  {
    if sort == Some("desc") then Desc else Asc
  }

  /** `Math.max(1, parseInt(page ?? "1", 10))`; NaN (None) propagates through `Math.max`. */
  function NormalizePage(page: Option<string>): (r: Option<int>)
    ensures page.None? ==> r == Some(1)
    ensures r.None? <==> ParseInt(page.GetOr("1")).None?
    ensures r.Some? ==> r.value >= 1
    ensures r.Some? && ParseInt(page.GetOr("1")).value >= 1 ==> r.value == ParseInt(page.GetOr("1")).value
    ensures r.Some? && ParseInt(page.GetOr("1")).value < 1 ==> r.value == 1
  {
    ParseIntOfDecimal(1);
    match ParseInt(page.GetOr("1"))
    case None => None
    case Some(n) => Some(if n < 1 then 1 else n)
  }

  function StateOf(params: PageParams): PageState {
    PageState(NormalizeCategory(params.category), params.brand, NormalizeSort(params.sort))
  }

  /** The rows skipped before a page. */
  function Offset(page: int): int {
    (page - 1) * PAGE_SIZE
  }

  /** `Math.ceil(total / PAGE_SIZE)`. */
  function PageCount(total: nat): nat {
    (total + PAGE_SIZE - 1) / PAGE_SIZE
  }

  /** `buildPageUrl(p)`: category, brand, sort (only when descending), page (only past the first). */
  function BuildPageUrl(state: PageState, p: int): Link {
    Href(SetAll(PageEntries(state, p)))
  }

  function PageEntries(state: PageState, p: int): seq<Entry> {
    [ Entry("category", state.category),
      Entry("brand", state.brand),
      Entry("sort", if state.sort == Desc then Some("desc") else None),
      Entry("page", if p > 1 then Some(IntToDecimal(p)) else None) ]
  }

  /** The values a link carries, as the page reads them on the next visit. */
  function ReadParams(ps: seq<Param>): PageParams {
    PageParams(Get(ps, "brand"), Get(ps, "category"), Get(ps, "sort"), Get(ps, "page"))
  }

  predicate ShowPagination(pageCount: nat) { pageCount > 1 }

  /** "Back": a page before this one; a NaN page shows none. */
  predicate ShowBack(page: Option<int>) { page.Some? && page.value > 1 }

  /** "Next": a page after this one. */
  predicate ShowNext(page: Option<int>, pageCount: nat) { page.Some? && page.value < pageCount }

  /** The numbered links, 1 to `pageCount`. */
  function PageNumbers(pageCount: nat): (r: seq<int>)
    ensures |r| == pageCount
    ensures forall k :: 0 <= k < pageCount ==> r[k] == k + 1
    ensures forall p :: p in r <==> 1 <= p <= pageCount
    ensures forall i, j :: 0 <= i < j < |r| ==> r[i] < r[j]
    decreases pageCount
  {
    if pageCount == 0 then [] else PageNumbers(pageCount - 1) + [pageCount]
  }

  /** What the page hands the brand filter: the category, and the sort only when descending. */
  function BrandFilterUrl(state: PageState, slug: Option<string>): Link {
    BrandFilter.BuildUrl(state.category, if state.sort == Desc then Some("desc") else None, slug)
  }

  /** A state the page itself produces: a known category or none, a brand that is absent or
      non-empty (an empty one is dropped from links). */
  predicate Normalized(state: PageState) {
    NormalizeCategory(state.category) == state.category && (state.brand.Some? ==> state.brand.value != "")
  }

  // ---------------------------------------------------------------------------------------------

  /** A numeric page is clamped to at least 1, and a page written by `String(n)` reads back as n. */
  lemma NormalizePageOfDecimal(n: int)
    ensures NormalizePage(Some(IntToDecimal(n))) == Some(if n < 1 then 1 else n)
  {
    ParseIntOfDecimal(n);
  }

  /** `pageCount` is the ceiling: no pages for no products, otherwise the last page is non-empty
      and holds the last product. */
  lemma PageCountIsCeiling(total: nat)
    ensures PageCount(total) == 0 <==> total == 0
    ensures total > 0 ==> (PageCount(total) - 1) * PAGE_SIZE < total <= PageCount(total) * PAGE_SIZE
  {
  }

  /** Every numbered page starts inside the listing, on a multiple of the page size. */
  lemma NumberedPagesNonEmpty(total: nat, p: int)
    requires 1 <= p <= PageCount(total)
    ensures 0 <= Offset(p) < total
    ensures Offset(p) % PAGE_SIZE == 0
  {
    PageCountIsCeiling(total);
  }

  /** A pager link carries each of the four values as its entry sets it. */
  lemma PageUrlValues(state: PageState, p: int)
    requires state.category.Some? ==> state.category.value != ""
    ensures var ps := SetAll(PageEntries(state, p));
      && Get(ps, "category") == (if Truthy(state.category) then state.category else None)
      && Get(ps, "brand") == (if Truthy(state.brand) then state.brand else None)
      && Get(ps, "sort") == (if state.sort == Desc then Some("desc") else None)
      && Get(ps, "page") == (if p > 1 then Some(IntToDecimal(p)) else None)
  {
    var entries := PageEntries(state, p);
    StorefrontKeysDistinct();
    assert DistinctKeys(entries);
    SetAllGetAt(entries, 0);
    SetAllGetAt(entries, 1);
    SetAllGetAt(entries, 2);
    SetAllGetAt(entries, 3);
  }

  /** Every pager link, read back by the page, gives the same normalised state and the page it
      names. */
  lemma PageUrlRoundTrip(state: PageState, p: int)
    requires Normalized(state)
    requires p >= 1
    ensures var ps := ParamsOf(BuildPageUrl(state, p));
      && StateOf(ReadParams(ps)) == state
      && NormalizePage(ReadParams(ps).page) == Some(p)
  {
    assert state.category.Some? ==> state.category.value != "";
    PageUrlValues(state, p);
    if p > 1 {
      NormalizePageOfDecimal(p);
    }
  }

  /** The keys of a pager link: those of category, brand, descending sort and a page past the
      first, in that order; with none of them the link is the bare path. */
  lemma PageUrlKeys(state: PageState, p: int)
    ensures Keys(ParamsOf(BuildPageUrl(state, p))) ==
      (if Truthy(state.category) then ["category"] else [])
      + (if Truthy(state.brand) then ["brand"] else [])
      + (if state.sort == Desc then ["sort"] else [])
      + (if p > 1 then ["page"] else [])
    ensures BuildPageUrl(state, p) == Root <==>
      !Truthy(state.category) && !Truthy(state.brand) && state.sort != Desc && p <= 1
  {
    var entries := PageEntries(state, p);
    SetAllKeys(entries);
    assert entries[..3][..2] == entries[..2];
    assert entries[..2][..1] == entries[..1];
    assert entries[..1][..0] == [];
    assert p > 1 ==> Truthy(entries[3].value);
    assert SetKeys(entries[..1]) == (if Truthy(state.category) then ["category"] else []);
    assert SetKeys(entries[..2]) == SetKeys(entries[..1]) + (if Truthy(state.brand) then ["brand"] else []);
    assert SetKeys(entries[..3]) == SetKeys(entries[..2]) + (if state.sort == Desc then ["sort"] else []);
  }

  /** "Back" and "Next", read back by the page, keep the state and name the page before and the
      page after this one; "Next" stays within the numbered pages. */
  lemma NeighbourLinksRoundTrip(state: PageState, page: Option<int>, pageCount: nat)
    requires Normalized(state)
    requires page.Some? && page.value >= 1
    ensures ShowBack(page) ==>
      StateOf(ReadParams(ParamsOf(BuildPageUrl(state, page.value - 1)))) == state
      && NormalizePage(ReadParams(ParamsOf(BuildPageUrl(state, page.value - 1))).page) == Some(page.value - 1)
      && 1 <= page.value - 1
    ensures ShowNext(page, pageCount) ==>
      StateOf(ReadParams(ParamsOf(BuildPageUrl(state, page.value + 1)))) == state
      && NormalizePage(ReadParams(ParamsOf(BuildPageUrl(state, page.value + 1))).page) == Some(page.value + 1)
      && 1 <= page.value + 1 <= pageCount && ShowPagination(pageCount)
  {
    if ShowBack(page) {
      PageUrlRoundTrip(state, page.value - 1);
    }
    if ShowNext(page, pageCount) {
      PageUrlRoundTrip(state, page.value + 1);
    }
  }

  /** A brand link from the page keeps the page's category and sort, switches to that brand and
      goes back to page 1; the "all" link drops the brand. */
  lemma BrandLinkRoundTrip(state: PageState, slug: Option<string>)
    requires Normalized(state)
    requires slug.Some? ==> slug.value != ""
    ensures var ps := ParamsOf(BrandFilterUrl(state, slug));
      && StateOf(ReadParams(ps)) == state.(brand := slug)
      && NormalizePage(ReadParams(ps).page) == Some(1)
  {
    var sort := if state.sort == Desc then Some("desc") else None;
    BrandFilter.BuildUrlParams(state.category, sort, slug);
    assert state.category.Some? ==> Truthy(state.category);
  }
}
