/**
 * The brand links of the storefront: an "all" link and one link per brand, each keeping the
 * current category and sort order. The page is not carried, so a brand change starts at page 1.
 */
module BrandFilter {
  import opened Common
  import opened Query

  /** `buildUrl(slug)`: `category`, `brand`, `sort`, each only when truthy. */
  function BuildUrl(currentCategory: Option<string>, currentSort: Option<string>, slug: Option<string>): Link {
    Href(SetAll([Entry("category", currentCategory), Entry("brand", slug), Entry("sort", currentSort)]))
  }

  /** The "all" link is highlighted when no brand is chosen. */
  predicate AllActive(currentBrand: Option<string>) {
    !Truthy(currentBrand)
  }

  /** A brand link is highlighted when its slug is the current brand. */
  predicate BrandActive(currentBrand: Option<string>, slug: string) {
    currentBrand == Some(slug)
  }

  // ---------------------------------------------------------------------------------------------

  /** The link carries exactly the truthy ones of category, brand and sort, in that order. */
  lemma BuildUrlParams(currentCategory: Option<string>, currentSort: Option<string>, slug: Option<string>)
    ensures var ps := ParamsOf(BuildUrl(currentCategory, currentSort, slug));
      && Keys(ps) == (if Truthy(currentCategory) then ["category"] else [])
                     + (if Truthy(slug) then ["brand"] else [])
                     + (if Truthy(currentSort) then ["sort"] else [])
      && Get(ps, "category") == (if Truthy(currentCategory) then currentCategory else None)
      && Get(ps, "brand") == (if Truthy(slug) then slug else None)
      && Get(ps, "sort") == (if Truthy(currentSort) then currentSort else None)
      && Get(ps, "page") == None
    ensures BuildUrl(currentCategory, currentSort, slug) == Root <==>
      !Truthy(currentCategory) && !Truthy(slug) && !Truthy(currentSort)
  {
    BuildUrlKeys(currentCategory, currentSort, slug);
    BuildUrlValues(currentCategory, currentSort, slug);
  }

  /** The keys of the link: those of the truthy entries, in order. */
  lemma BuildUrlKeys(currentCategory: Option<string>, currentSort: Option<string>, slug: Option<string>)
    ensures Keys(SetAll([Entry("category", currentCategory), Entry("brand", slug), Entry("sort", currentSort)])) ==
      (if Truthy(currentCategory) then ["category"] else [])
      + (if Truthy(slug) then ["brand"] else [])
      + (if Truthy(currentSort) then ["sort"] else [])
  {
    var entries := [Entry("category", currentCategory), Entry("brand", slug), Entry("sort", currentSort)];
    SetAllKeys(entries);
    assert entries[..2][..1] == entries[..1];
    assert entries[..1][..0] == [];
    assert SetKeys(entries[..1]) == (if Truthy(currentCategory) then ["category"] else []);
    assert SetKeys(entries[..2]) == SetKeys(entries[..1]) + (if Truthy(slug) then ["brand"] else []);
  }

  /** The value each key reads back as. */
  lemma BuildUrlValues(currentCategory: Option<string>, currentSort: Option<string>, slug: Option<string>)
    ensures var ps := SetAll([Entry("category", currentCategory), Entry("brand", slug), Entry("sort", currentSort)]);
      && Get(ps, "category") == (if Truthy(currentCategory) then currentCategory else None)
      && Get(ps, "brand") == (if Truthy(slug) then slug else None)
      && Get(ps, "sort") == (if Truthy(currentSort) then currentSort else None)
      && Get(ps, "page") == None
  {
    var entries := [Entry("category", currentCategory), Entry("brand", slug), Entry("sort", currentSort)];
    StorefrontKeysDistinct();
    assert DistinctKeys(entries);
    SetAllReadBack(entries, "page");
    SetAllGetAt(entries, 0);
    SetAllGetAt(entries, 1);
    SetAllGetAt(entries, 2);
  }

  /** "All" and the brand links: with non-empty, distinct slugs at most one link is highlighted. */
  lemma AtMostOneActive(currentBrand: Option<string>, slugs: seq<string>)
    requires forall k :: 0 <= k < |slugs| ==> slugs[k] != ""
    requires forall i, j :: 0 <= i < j < |slugs| ==> slugs[i] != slugs[j]
    ensures AllActive(currentBrand) ==> forall k :: 0 <= k < |slugs| ==> !BrandActive(currentBrand, slugs[k])
    ensures forall i, j ::
      0 <= i < |slugs| && 0 <= j < |slugs| && BrandActive(currentBrand, slugs[i]) && BrandActive(currentBrand, slugs[j]) ==>
        i == j
  {
  }
}
