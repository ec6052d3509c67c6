/**
 * The category links of the storefront: "all", perfumes and cosmetics. Each link keeps only the
 * sort order, so choosing a category drops the brand and the page.
 */
module CategoryFilter {
  import opened Common
  import opened Query

  /** The values of the three entries, in display order; `None` is "all". */
  const CATEGORIES: seq<Option<string>> := [None, Some("parfum"), Some("cosmetic")]

  /** `buildUrl(category)`: `category`, then `sort`, each only when truthy. */
  function BuildUrl(currentSort: Option<string>, category: Option<string>): Link {
    Href(SetAll([Entry("category", category), Entry("sort", currentSort)]))
  }

  /** An entry is highlighted when its value is the current category. */
  predicate IsActive(currentCategory: Option<string>, value: Option<string>) {
    currentCategory == value
  }

  // ---------------------------------------------------------------------------------------------

  /** The link carries the category and the sort it was given, in that order, and nothing else. */
  lemma BuildUrlParams(currentSort: Option<string>, category: Option<string>)
    ensures var ps := ParamsOf(BuildUrl(currentSort, category));
      && Keys(ps) == (if Truthy(category) then ["category"] else []) + (if Truthy(currentSort) then ["sort"] else [])
      && Get(ps, "category") == (if Truthy(category) then category else None)
      && Get(ps, "sort") == (if Truthy(currentSort) then currentSort else None)
      && Get(ps, "brand") == None && Get(ps, "page") == None
    ensures BuildUrl(currentSort, category) == Root <==> !Truthy(category) && !Truthy(currentSort)
  {
    BuildUrlKeys(currentSort, category);
    BuildUrlValues(currentSort, category);
  }

  /** The keys of the link: those of the truthy entries, in order. */
  lemma BuildUrlKeys(currentSort: Option<string>, category: Option<string>)
    ensures Keys(SetAll([Entry("category", category), Entry("sort", currentSort)])) ==
      (if Truthy(category) then ["category"] else []) + (if Truthy(currentSort) then ["sort"] else [])
  {
    var entries := [Entry("category", category), Entry("sort", currentSort)];
    SetAllKeys(entries);
    assert SetKeys(entries[..1]) == (if Truthy(category) then ["category"] else []) by {
      assert entries[..1][..0] == [];
    }
  }

  /** The value each key reads back as. */
  lemma BuildUrlValues(currentSort: Option<string>, category: Option<string>)
    ensures var ps := SetAll([Entry("category", category), Entry("sort", currentSort)]);
      && Get(ps, "category") == (if Truthy(category) then category else None)
      && Get(ps, "sort") == (if Truthy(currentSort) then currentSort else None)
      && Get(ps, "brand") == None && Get(ps, "page") == None
  {
    var entries := [Entry("category", category), Entry("sort", currentSort)];
    StorefrontKeysDistinct();
    assert DistinctKeys(entries);
    SetAllReadBack(entries, "brand");
    SetAllReadBack(entries, "page");
    SetAllGetAt(entries, 0);
    SetAllGetAt(entries, 1);
  }

  /** A category in the list highlights exactly one entry; any other value highlights none. */
  lemma ExactlyOneActive(currentCategory: Option<string>)
    ensures currentCategory in CATEGORIES ==>
      exists k :: 0 <= k < |CATEGORIES| && IsActive(currentCategory, CATEGORIES[k])
        && forall j :: 0 <= j < |CATEGORIES| && j != k ==> !IsActive(currentCategory, CATEGORIES[j])
    ensures currentCategory !in CATEGORIES ==>
      forall k :: 0 <= k < |CATEGORIES| ==> !IsActive(currentCategory, CATEGORIES[k])
  {
    assert "parfum" != "cosmetic" by {
      assert "parfum"[0] == 'p' && "cosmetic"[0] == 'c';
    }
    assert forall i, j :: 0 <= i < j < |CATEGORIES| ==> CATEGORIES[i] != CATEGORIES[j];
    if currentCategory == None {
      assert IsActive(currentCategory, CATEGORIES[0]);
    } else if currentCategory == Some("parfum") {
      assert IsActive(currentCategory, CATEGORIES[1]);
    } else if currentCategory == Some("cosmetic") {
      assert IsActive(currentCategory, CATEGORIES[2]);
    }
  }
}
