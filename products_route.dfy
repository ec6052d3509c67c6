/**
 * The products API: the listing's paging metadata (`GET`) and the checks and normalisation of a
 * new product's form fields (`POST`). The database reads and the insert are not modelled; the
 * listing's total is a parameter and a successful `POST` returns the values it would insert.
 */
module ProductsRoute {
  import opened Common
  import opened JsText
  import opened Query
  import CataloguePage
  import ImageUpload

  /** The paging part of the `GET` response. */
  datatype ListMeta = ListMeta(total: nat, pageCount: nat, page: Option<int>)

  /** `GET`: the page parameter normalised as on the catalogue page, the total and the page count. */
  function ListingMeta(params: seq<Param>, total: nat): (meta: ListMeta)
    ensures meta.total == total
    ensures meta.pageCount == CataloguePage.PageCount(total)
    ensures meta.page == CataloguePage.NormalizePage(Get(params, "page"))
    ensures meta.page.Some? ==> meta.page.value >= 1
    ensures Get(params, "page").None? ==> meta.page == Some(1)
    ensures meta.pageCount == 0 <==> total == 0
    ensures total > 0 ==> (meta.pageCount - 1) * CataloguePage.PAGE_SIZE < total <= meta.pageCount * CataloguePage.PAGE_SIZE
  {
    CataloguePage.PageCountIsCeiling(total);
    ListMeta(total, CataloguePage.PageCount(total), CataloguePage.NormalizePage(Get(params, "page")))
  }

  /** `GET` sorts descending exactly for `sort=desc`. */
  function ListingSort(params: seq<Param>): (r: CataloguePage.SortDir)
    ensures r == CataloguePage.Desc <==> Get(params, "sort") == Some("desc")
  {
    CataloguePage.NormalizeSort(Get(params, "sort"))
  }

  datatype Category = Parfum | Cosmetic

  /** The multipart fields of a new product; `price` is already through `parseFloat` (NaN as None). */
  datatype ProductForm = ProductForm(
    name: Option<string>,
    brandId: Option<string>,
    description: Option<string>,
    price: Option<real>,
    stock: Option<string>,
    image: Option<ImageUpload.UploadFile>,
    category: Option<string>)

  /** The values inserted; the slug is derived from the name by code this model does not include. */
  datatype NewProduct = NewProduct(
    name: string,
    brandId: int,
    category: Category,
    description: Option<string>,
    price: real,
    stock: int,
    imageUrl: Option<string>)

  datatype CreateError = MissingFields | Upload(error: ImageUpload.UploadError)

  /** `parseInt(formData.get(f) as string, 10)`: an absent field becomes the string "null". */
  function ParseField(field: Option<string>): Option<int> {
    ParseInt(field.GetOr("null"))
  }

  /** `(description)?.trim() || null`. */
  function NormalizeDescription(description: Option<string>): (r: Option<string>)
    ensures r.Some? ==> r.value != "" && description.Some? && r.value == Trim(description.value)
    ensures r.None? <==> description.None? || Trim(description.value) == ""
  {
    if description.Some? && Trim(description.value) != "" then Some(Trim(description.value)) else None
  }

  /** `categoryRaw === "cosmetic" ? "cosmetic" : "parfum"`. */
  function NormalizeCategory(category: Option<string>): (r: Category)
    ensures r == Cosmetic <==> category == Some("cosmetic")
  {
    if category == Some("cosmetic") then Cosmetic else Parfum
  }

  /** The `POST` guard: the trimmed name is empty or missing, or brandId, price or stock is NaN. */
  predicate FieldsMissing(form: ProductForm) {
    || form.name.None? || Trim(form.name.value) == ""
    || ParseField(form.brandId).None? || form.price.None? || ParseField(form.stock).None?
  }

  /** `POST`: a truthy trimmed name and numeric brand id, price and stock are required; a non-empty
      image must pass the upload checks; then the product is built. */
  function CreateProduct(form: ProductForm, uuid: string): (r: Result<NewProduct, CreateError>)
    ensures r == Err(MissingFields) <==> FieldsMissing(form)
    ensures r.Ok? ==>
      && form.name.Some? && r.value.name == Trim(form.name.value) && r.value.name != ""
      && Some(r.value.brandId) == ParseField(form.brandId)
      && Some(r.value.price) == form.price
      && Some(r.value.stock) == ParseField(form.stock)
      && r.value.description == NormalizeDescription(form.description)
      && r.value.category == NormalizeCategory(form.category)
    ensures r.Ok? ==> (r.value.imageUrl.Some? <==> form.image.Some? && form.image.value.size > 0)
    ensures r.Err? && r.error.Upload? ==> form.image.Some? && form.image.value.size > 0
    ensures r.Ok? && r.value.imageUrl.Some? ==>
      form.image.Some? && ImageUpload.SaveUploadedFile(form.image.value, uuid) == Ok(r.value.imageUrl.value)
    ensures r.Err? && r.error.Upload? <==>
      && !FieldsMissing(form) && form.image.Some? && form.image.value.size > 0
      && ImageUpload.SaveUploadedFile(form.image.value, uuid).Err?
    ensures r.Err? && r.error.Upload? ==>
      form.image.Some? && ImageUpload.SaveUploadedFile(form.image.value, uuid) == Err(r.error.error)
  {
    var name := if form.name.Some? then Some(Trim(form.name.value)) else None;
    var brandId := ParseField(form.brandId);
    var stock := ParseField(form.stock);
    if !Truthy(name) || brandId.None? || form.price.None? || stock.None? then Err(MissingFields)
    else
      var imageUrl: Result<Option<string>, CreateError> :=
        if form.image.Some? && form.image.value.size > 0 then
          match ImageUpload.SaveUploadedFile(form.image.value, uuid)
          case Ok(url) => Ok(Some(url))
          case Err(e) => Err(Upload(e))
        else Ok(None);
      if imageUrl.Err? then Err(imageUrl.error)
      else
        Ok(NewProduct(name.value, brandId.value, NormalizeCategory(form.category),
                      NormalizeDescription(form.description), form.price.value, stock.value, imageUrl.value))
  }

  // ---------------------------------------------------------------------------------------------

  /** The page is not clamped to the page count: asking for page 5 of an empty listing echoes 5. */
  lemma PageNotClamped()
    ensures var meta := ListingMeta([Param("page", "5")], 0);
      meta.pageCount == 0 && meta.page == Some(5)
  {
    assert Get([Param("page", "5")], "page") == Some("5");
    CataloguePage.NormalizePageOfDecimal(5);
    assert IntToDecimal(5) == "5";
  }

  /** The route itself accepts any number: a zero price and a negative stock pass. */
  lemma NoRangeChecks(name: string)
    requires Trim(name) != ""
    ensures var form := ProductForm(Some(name), Some("1"), None, Some(0.0), Some("-3"), None, None);
      && CreateProduct(form, "").Ok?
      && CreateProduct(form, "").value.price == 0.0
      && CreateProduct(form, "").value.stock == -3
  {
    ParseFieldExamples();
  }

  /** The fields "1" and "-3" parse as the numbers they name. */
  lemma ParseFieldExamples()
    ensures ParseField(Some("1")) == Some(1)
    ensures ParseField(Some("-3")) == Some(-3)
  {
    ParseIntOfDecimal(1);
    assert IntToDecimal(1) == "1";
    ParseIntOfDecimal(-3);
    assert IntToDecimal(-3) == "-3";
  }

  /** An absent field is never numeric, so brand id and stock are required. */
  lemma AbsentNumberRejected()
    ensures ParseField(None) == None
  {
    assert !IsSpace('n') && !IsDigit('n');
    assert TrimStart("null") == "null";
  }

  /** The description is trimmed, and one that trims to nothing is stored as null. */
  lemma DescriptionExamples()
    ensures NormalizeDescription(Some(" \t")) == None
    ensures NormalizeDescription(None) == None
  {
    assert TrimStart(" \t") == "" by {
      assert " \t"[1..] == "\t";
      assert "\t"[1..] == "";
    }
  }

  /** A non-empty image of a type outside the allow-list makes the whole request fail. */
  lemma UploadErrorFails(form: ProductForm, uuid: string)
    requires form.name.Some? && Trim(form.name.value) != ""
    requires ParseField(form.brandId).Some? && form.price.Some? && ParseField(form.stock).Some?
    requires form.image.Some? && form.image.value.size > 0
    requires form.image.value.mimeType !in ImageUpload.ALLOWED_MIME_TYPES
    ensures CreateProduct(form, uuid) == Err(Upload(ImageUpload.UnsupportedType(form.image.value.mimeType)))
  {
  }
}
