# Parfume storefront: a verified model of its core logic

Parfume is a small Next.js shop for perfume and cosmetics. Its catalogue page lists products 24 to a
page, with filters by category and brand. Customers fill a client-side cart and place orders through
an API route that checks stock and writes the order in one SQLite transaction. Administrators create
products and a weekly "combo + gift" offer, and can export products as CSV. The public offer page
shows the active offer with its regular price and the saving.

This project models that logic in Dafny and proves what each piece promises. There is one module
per source file:

- **Orders** (`orders.dfy`): the order route is the class `Store`, whose method `PlaceOrder` runs
  the route's two loops.
  - The validation loop is the method `CollectSnapshots`. It is proved equal to the specification
    function `Scan`.
  - The write loop appends the order and its items and lowers stock.
  - An error leaves every table as it was.
- **Cart** (`cart.dfy`): the cart store's operations as pure functions over the list of lines.
- **WeeklyOfferRoute** (`weekly_offer.dfy`): offer creation is the method `OfferTables.Create` over
  the two tables it writes.
- **OfferForm** (`offer_form.dfy`):
  - The admin form's combo and gift selection is the class `OfferSelection`. Its invariant is that
    the gift is never also a combo product.
  - The submit checks, the combo total and the product search are pure functions.
- **OfferPage** (`offer_page.dfy`): the public weekly-offer page. It covers the active offer, the
  combo/gift split, the regular total, the saving and the date line.
- **Csv** (`csv.dfy`): `toCsv`, plus a reader for one line. The reader is used to prove that every
  row line reads back as the row's cells.
- **CataloguePage** (`catalogue_page.dfy`): the home page's parameter normalisation, paging and
  pager links.
- **ProductsRoute** (`products_route.dfy`): the products API.
  - `GET` paging metadata.
  - `POST` field parsing and validation.
- **BrandFilter** (`brand_filter.dfy`) and **CategoryFilter** (`category_filter.dfy`): the link
  builders and their active-link predicates.
- **ImageUpload** (`image_upload.dfy`): the type and size checks of an uploaded image, and the
  name it is stored under.

Shared helper modules:

- **Common**: Option and Result, and JavaScript truthiness of an optional string.
- **JsText**: the JavaScript string and number built-ins the code relies on. These are `parseInt`,
  `String(n)`, `trim`, `toLowerCase`, `includes`, `split` and `join`.
- **Query**: `URLSearchParams` as an ordered list of key/value pairs, the `qs ? "/?" + qs : "/"`
  link shape, and a run of conditional `set` calls with its read-back lemmas.

## Model

| member | source | states |
|---|---|---|
| Orders.IncompleteRequestRefused | src/app/api/orders/route.ts:20-22 | a missing or empty contact field, or absent or empty `items`, gives the "missing required fields" error before any lookup |
| Orders.CollectSnapshots | src/app/api/orders/route.ts:30-59 | the validation loop (one lookup and stock check per item in input order, snapshot push, running total) returns exactly `Scan` of the items |
| Orders.ScanErrPersists | src/app/api/orders/route.ts:38-50 | once an item has thrown, later items do not change the outcome |
| Orders.ScanOkIff | src/app/api/orders/route.ts:38-50 | the loop succeeds iff no item is missing or short of stock |
| Orders.ScanSnapshots | src/app/api/orders/route.ts:52-57 | a successful loop pushes one snapshot per item, in order, with the product's name and price and the item's quantity |
| Orders.ScanTotal | src/app/api/orders/route.ts:30-58 | a successful loop's running total is the sum of price * quantity over the items |
| Orders.ScanSucceeds | src/app/api/orders/route.ts:38-59 | the loop succeeds iff no item is missing or short of stock; it then snapshots every item in order (id, name and price from the table, quantity) and the total is the sum of price * quantity |
| Orders.ScanFailsAtFirstFailure | src/app/api/orders/route.ts:38-50 | the loop fails with the error of the first failing item |
| Orders.ScanErrorIsFirstFailure | src/app/api/orders/route.ts:38-50 | a failing loop always has a first failing item, and its error is the one reported |
| Orders.ValidateOutcome | src/app/api/orders/route.ts:29-59 | for a complete request: the first failing line's error (not found, or `stock < quantity`) is the result; otherwise there is one snapshot per line and the total is the sum of price * quantity |
| Orders.ItemsOfRows | src/app/api/orders/route.ts:82-83 | one order item per snapshot, in order, under the new order id |
| Orders.ApplyStockEffect | src/app/api/orders/route.ts:78-85 | the stock loop keeps every product key, changes only `stock`, and lowers each product's stock by the summed quantity of its snapshots |
| Orders.DemandOfDistinct | src/app/api/orders/route.ts:82-85 | with distinct product ids, a product's total demand is its one line's quantity |
| Orders.DemandAbsent | src/app/api/orders/route.ts:82-85 | a product no line names has no demand |
| Orders.Store.PlaceOrder | src/app/api/orders/route.ts:20-105 | refused exactly when validation fails, with that error and every table unchanged; otherwise one confirmed order with the total, one item per line, stock lowered, and `(orderId, totalAmount)` returned |
| Orders.Store.WriteRows | src/app/api/orders/route.ts:78-85 | the write loop appends one order item per snapshot, in order, and applies each stock decrement; the orders table and the id counter are unchanged |
| Orders.SuccessfulOrderEffect | src/app/api/orders/route.ts:52-85 | after success, the stored items add up to the total; item k carries line k's product name and price as read at order time; each product's stock is lowered by the quantities naming it |
| Orders.OrderRowsEffect | src/app/api/orders/route.ts:52-83 | after a successful loop the written items are one per line, in order, with the product's name and price, and add up to the total |
| Orders.OrderStockEffect | src/app/api/orders/route.ts:84-85 | after a successful loop the stock writes keep every product and lower each stock by the summed quantity of the lines naming it |
| Orders.RowsOfSnapshots | src/app/api/orders/route.ts:58-100 | the total stored and returned equals the sum of unit price * quantity over the inserted items |
| Orders.DistinctOrderKeepsStock | src/app/api/orders/route.ts:48-50 | with distinct product ids, success never makes a non-negative stock negative, and ordering exactly the stock leaves 0 |
| Orders.DuplicateLinesOversell | src/app/api/orders/route.ts:48-84 | two lines for a product with one unit left both pass the check and leave stock -1 |
| Orders.NegativeQuantityAccepted | src/app/api/orders/route.ts:48-84 | a quantity of -2 passes the check, gives total -20 for price 10, and raises the stock from 0 to 2 |
| Cart.UpdateQuantity | src/stores/cart.ts:51-59 | a quantity of 0 or less removes the line; otherwise only its quantity is set |
| Cart.TotalsOfConcat | src/stores/cart.ts:63-67 | both totals add up over concatenation |
| Cart.TotalsOfUpdateAt | src/stores/cart.ts:63-67 | changing one line's quantity changes the totals by that line's difference alone |
| Cart.RemoveItemOfConcat | src/stores/cart.ts:46-49 | removing an id distributes over concatenation, so the remaining lines keep their order |
| Cart.RemoveItemAbsent | src/stores/cart.ts:46-49 | removing an id not in the cart is a no-op |
| Cart.RemoveItemSubset | src/stores/cart.ts:46-49 | a line stays iff it is in the cart and has another id; distinct ids stay distinct |
| Cart.AddNewItem | src/stores/cart.ts:43 | adding a product not in the cart appends it at the end with quantity 1; totals grow by 1 and by its price |
| Cart.IncrementAt | src/stores/cart.ts:31-42 | with distinct ids, incrementing line k's product touches line k alone |
| Cart.LineCostOfIncrement | src/stores/cart.ts:67 | one more unit costs one more unit price |
| Cart.SameIdsKeepDistinct | src/stores/cart.ts:36-40 | changing quantities alone keeps ids distinct |
| Cart.AddExistingItem | src/stores/cart.ts:31-42 | adding a product already on line k raises its quantity by 1; length, order, other lines and distinctness are kept; totals grow by 1 and by that line's stored price |
| Cart.AddExistingIncrements | src/stores/cart.ts:31-42 | for a product already on line k, `addItem` is that line's quantity plus one, and ids stay distinct |
| Cart.IncrementTotals | src/stores/cart.ts:63-67 | one more unit on a line is one more item and one more unit price in the totals |
| Cart.OnlyLineWithId | src/stores/cart.ts:29-61 | with distinct ids, no line other than k carries line k's id |
| Cart.RemoveOwnLine | src/stores/cart.ts:48 | a one-line cart without that line's id is empty |
| Cart.RemoveAt | src/stores/cart.ts:48 | removing an id found only on line k leaves the lines before and after it, in order |
| Cart.RemoveBetween | src/stores/cart.ts:48 | filtering out the id of a line that no line around it carries leaves exactly the lines around it |
| Cart.TotalsOfLine | src/stores/cart.ts:63-67 | a single line's totals are its quantity and its line cost |
| Cart.TotalsWithoutLine | src/stores/cart.ts:63-67 | dropping line k takes its quantity and its cost off the totals |
| Cart.TotalsBetween | src/stores/cart.ts:63-67 | dropping a line from between two others takes its quantity and cost off the totals |
| Cart.RemovePresentItem | src/stores/cart.ts:46-49 | with distinct ids, removing line k's product drops exactly line k, keeps the rest in order, and lowers both totals by that line |
| Cart.UpdateQuantityEffect | src/stores/cart.ts:51-59 | with distinct ids: a quantity of 0 or less equals `removeItem`; a positive one sets line k alone and moves the totals by the difference |
| Cart.OperationsKeepDistinct | src/stores/cart.ts:29-61 | add, remove, update and clear all keep product ids distinct |
| Cart.ClearedTotals | src/stores/cart.ts:61-67 | an empty cart counts 0 items and costs 0 |
| WeeklyOfferRoute.Dedup | src/app/api/weekly-offer/route.ts:42 | `[...new Set(s)]`: the same members, each once |
| WeeklyOfferRoute.Found | src/app/api/weekly-offer/route.ts:43-46 | the referenced ids that are products, no more than were asked for |
| WeeklyOfferRoute.FoundAllExactly | src/app/api/weekly-offer/route.ts:48 | for de-duplicated ids, the count check passes iff every referenced id is a product |
| WeeklyOfferRoute.ReferencedIds | src/app/api/weekly-offer/route.ts:42 | the referenced ids are the combo ids and the gift id |
| WeeklyOfferRoute.DeactivatedCount | src/app/api/weekly-offer/route.ts:54-58 | after deactivation no offer is active |
| WeeklyOfferRoute.CountActiveAppend | src/app/api/weekly-offer/route.ts:60-70 | inserting an offer adds 1 to the active count iff it is active |
| WeeklyOfferRoute.ComboRowsReadBack | src/app/api/weekly-offer/route.ts:74-78 | the combo rows read back as themselves among non-gift rows and as nothing among gift rows |
| WeeklyOfferRoute.OfferRows | src/app/api/weekly-offer/route.ts:74-81 | the combo rows followed by the gift row |
| WeeklyOfferRoute.OfferRowsShape | src/app/api/weekly-offer/route.ts:74-81 | one row more than there are combo ids, all under the new offer id, and only the last is the gift row |
| WeeklyOfferRoute.OfferRowsReadBack | src/app/api/weekly-offer/route.ts:74-81 | read back by gift flag, the rows give the combo ids in order as non-gift rows, and the gift alone |
| WeeklyOfferRoute.RowsWithFlagOfConcat | src/app/api/weekly-offer/route.ts:81 | reading the rows of one offer and flag distributes over appended rows |
| WeeklyOfferRoute.RowsWithFlagOtherOffers | src/app/api/weekly-offer/route.ts:81 | rows of other offers contribute nothing |
| WeeklyOfferRoute.OfferTables.Create | src/app/api/weekly-offer/route.ts:20-87 | 401 iff there is no session; 400 iff the data is invalid (title, price > 0, non-empty ids); 400 iff a referenced product is missing; a refusal changes nothing; otherwise the offer is inserted with stock 0, all others are deactivated when it is active, and its rows are appended; at most one offer stays active |
| WeeklyOfferRoute.CreateKeepsValid | src/app/api/weekly-offer/route.ts:54-81 | inserting an offer under the next id, after deactivating the others when it is active, with its rows, keeps every id handed out and at most one offer active |
| WeeklyOfferRoute.ActiveOfferIsOnlyActive | src/app/api/weekly-offer/route.ts:54-67 | after creating an active offer it is the only active offer |
| WeeklyOfferRoute.InactiveOfferKeepsFlags | src/app/api/weekly-offer/route.ts:54 | creating an inactive offer leaves the existing offers' flags and the active count as they were |
| WeeklyOfferRoute.NewOfferRowsReadBack | src/app/api/weekly-offer/route.ts:74-81 | the table read for the new offer gives exactly its combo rows and its one gift row, whatever older rows exist |
| OfferForm.WithoutMembers | src/components/admin/WeeklyOfferForm.tsx:51-60 | the filter keeps exactly the other ids and keeps distinctness |
| OfferForm.WithoutOfConcat | src/components/admin/WeeklyOfferForm.tsx:51-60 | the filter distributes over concatenation, so other ids keep their order |
| OfferForm.WithoutAbsent | src/components/admin/WeeklyOfferForm.tsx:60 | filtering an absent id is a no-op |
| OfferForm.WithoutAt | src/components/admin/WeeklyOfferForm.tsx:51 | with distinct ids, filtering the id at k leaves the ids before and after it, in order |
| OfferForm.ToggleEffect | src/components/admin/WeeklyOfferForm.tsx:50-52 | a present id is removed; an absent one is appended at the end; other ids are unaffected; distinctness is kept |
| OfferForm.ToggleTwice | src/components/admin/WeeklyOfferForm.tsx:50-52 | toggling an absent id twice restores the list |
| OfferForm.OfferSelection.constructor | src/components/admin/WeeklyOfferForm.tsx:40-41 | no combos and no gift for a new offer |
| OfferForm.OfferSelection.ToggleCombo | src/components/admin/WeeklyOfferForm.tsx:49-55 | the combo list is toggled and a gift equal to the id is cleared; the gift is never a combo |
| OfferForm.OfferSelection.SetGift | src/components/admin/WeeklyOfferForm.tsx:57-61 | the id becomes the gift and leaves the combo list; other combos keep their order |
| OfferForm.OfferSelection.ClearGift | src/components/admin/WeeklyOfferForm.tsx:232 | the gift is cleared and the combos are kept |
| OfferForm.OrUndefined | src/components/admin/WeeklyOfferForm.tsx:88-89 | an empty string becomes undefined: absent iff empty, otherwise the string itself |
| OfferForm.Submit | src/components/admin/WeeklyOfferForm.tsx:66-92 | the price error iff the price is NaN or <= 0; then the no-combo error iff there are no combos; then the no-gift error iff there is no truthy gift; otherwise a payload with the title, description and active flag as entered, empty dates as undefined, and stock `parseInt(stock)`, or 0 when that is NaN |
| OfferForm.SubmittedBodyPassesRoute | src/components/admin/WeeklyOfferForm.tsx:66-92 | a submitted payload with a title passes the route's data check |
| OfferForm.SubmittedStock | src/components/admin/WeeklyOfferForm.tsx:86 | the stock sent is the parsed integer or 0, and a decimal `n` is sent as n |
| OfferForm.PriceOfFirst | src/components/admin/WeeklyOfferForm.tsx:117-118 | an unknown id is priced 0; otherwise the first product with that id gives the price |
| OfferForm.ComboTotalOfConcat | src/components/admin/WeeklyOfferForm.tsx:116-119 | the combo total adds up over concatenation |
| OfferForm.ComboTotalOfToggle | src/components/admin/WeeklyOfferForm.tsx:50-119 | toggling an id moves the combo total by that product's price, in or out |
| OfferForm.FilteredMembers | src/components/admin/WeeklyOfferForm.tsx:45-47 | a product is listed iff its lower-cased "name brand" contains the lower-cased search; the empty search lists all in order |
| OfferForm.FilteredOfConcat | src/components/admin/WeeklyOfferForm.tsx:45-47 | the search keeps the products' order: filtering two parts one after the other filters each in place |
| OfferPage.FirstActiveIndex | src/app/sedmichno-predlozhenie/page.tsx:21-25 | the first position holding an active offer, or the length when none does |
| OfferPage.ActiveOffer | src/app/sedmichno-predlozhenie/page.tsx:21-25 | none iff no offer is active; otherwise an active offer from the table |
| OfferPage.ItemOf | src/app/sedmichno-predlozhenie/page.tsx:50-63 | the left join keeps the row's product id and gift flag, with name and price present iff the product exists, and then equal to the product's name and price |
| OfferPage.ComboItems | src/app/sedmichno-predlozhenie/page.tsx:67 | no gift item among the combo items, and no more than there were items |
| OfferPage.GiftItem | src/app/sedmichno-predlozhenie/page.tsx:68 | none iff no item is a gift; otherwise a gift item from the list |
| OfferPage.DatePart | src/app/sedmichno-predlozhenie/page.tsx:83 | `slice(0, 10)`: a prefix of at most 10 characters, exactly 10 when there are that many, the whole string when it is no longer than 10 |
| OfferPage.DateRange | src/app/sedmichno-predlozhenie/page.tsx:81-85 | shown iff both dates are non-empty, as their first 10 characters |
| OfferPage.Render | src/app/sedmichno-predlozhenie/page.tsx:21-163 | the placeholder iff no offer is active; otherwise the offer the active query returns, its non-gift rows joined with the products in table order, its first gift row as the gift, a regular total equal to the sum of those products' prices (a missing product counting 0), savings = regular total - combo price, the savings row iff savings > 0, and the date line of the offer |
| OfferPage.NoneActive | src/app/sedmichno-predlozhenie/page.tsx:21-27 | the active count is 0 iff no offer is active |
| OfferPage.OthersInactive | src/app/sedmichno-predlozhenie/page.tsx:21-25 | with at most one active offer, an active offer rules out every other |
| OfferPage.SoleActiveShown | src/app/sedmichno-predlozhenie/page.tsx:21-25 | with at most one active offer, the page shows that offer |
| OfferPage.CreatedActiveOfferShown | src/app/sedmichno-predlozhenie/page.tsx:21-25 | after an active offer is created, the page shows it |
| OfferPage.FirstActiveIndexIs | src/app/sedmichno-predlozhenie/page.tsx:21-25 | the first active position is fixed by the flags alone |
| OfferPage.CreatedInactiveOfferHidden | src/app/sedmichno-predlozhenie/page.tsx:21-25 | creating an inactive offer does not change the offer shown |
| OfferPage.RowsWithFlagKeeps | src/app/sedmichno-predlozhenie/page.tsx:64-65 | the rows read for an offer and flag all carry that offer id and flag |
| OfferPage.ComboItemsOfConcat | src/app/sedmichno-predlozhenie/page.tsx:67 | the combo filter distributes over concatenation |
| OfferPage.ComboItemsAll | src/app/sedmichno-predlozhenie/page.tsx:67 | the filter keeps an all-combo list whole and empties an all-gift list |
| OfferPage.GiftItemOfConcat | src/app/sedmichno-predlozhenie/page.tsx:68 | `find` skips a gift-free prefix |
| OfferPage.SplitOfItems | src/app/sedmichno-predlozhenie/page.tsx:64-68 | the combo items are the offer's non-gift rows in order; the gift is its first gift row |
| OfferPage.RegularTotalOfItems | src/app/sedmichno-predlozhenie/page.tsx:69 | the regular total of any joined rows is the sum of their products' catalogue prices, a missing product counting 0 |
| OfferPage.CreatedOfferItems | src/app/sedmichno-predlozhenie/page.tsx:64-68 | for an offer just created, the combo items are its combo ids in the order given, and the gift item is its gift |
| OfferPage.RegularTotalOfRows | src/app/sedmichno-predlozhenie/page.tsx:69 | the regular total of combo rows is the sum of their catalogue prices, a missing product counting 0 |
| OfferPage.GiftNotCounted | src/app/sedmichno-predlozhenie/page.tsx:67-69 | a gift item never changes the regular total |
| OfferPage.CreatedOfferPricing | src/app/sedmichno-predlozhenie/page.tsx:69-163 | a newly created active offer is shown with regular total = the sum of its combo products' prices, and the saving shows iff that sum exceeds the combo price |
| OfferPage.DateRangeExamples | src/app/sedmichno-predlozhenie/page.tsx:81-85 | a timestamp shows its date part; a missing end date hides the line |
| Csv.NeedsQuoting | src/lib/csv.ts:6 | quoting is forced by a comma, a quote or a line feed |
| Csv.DoubleQuotes | src/lib/csv.ts:7 | `replace(/"/g, '""')` never shortens the value |
| Csv.Escape | src/lib/csv.ts:4-9 | a value needing no quotes is written verbatim; any other is wrapped in quotes |
| Csv.LinesReadBack | src/lib/csv.ts:10-13 | after the header, one line per row, each reading back as that row's cells under the first row's keys ("" for a missing key or null); all lines empty when the first row has no keys |
| Csv.HeaderReadsBack | src/lib/csv.ts:11 | the header line is the first row's keys joined by "," unescaped, reading back as the keys when none needs quoting |
| Csv.ToCsv | src/lib/csv.ts:1-15 | always starts with the BOM; it is the BOM alone iff there are no rows; otherwise the BOM, then the lines joined by CR LF with no terminator after the last |
| Csv.FieldEnd | src/lib/csv.ts:8 | reference reader of section 2 of RFC 4180, against which the unquoted output is read: an unquoted field ends at the first comma, or at the end of the line |
| Csv.ParseUnquoted | src/lib/csv.ts:8 | reference reader of section 2 of RFC 4180: an unquoted field and what follows it make up the input; the field holds no comma and the rest is empty or starts with one |
| Csv.ParseQuoted | src/lib/csv.ts:7 | reference reader of section 2 of RFC 4180, against which the quoted output is read: a quoted field's reading consumes input |
| Csv.ParseField | src/lib/csv.ts:6-8 | reference reader of section 2 of RFC 4180: a field's reading never grows the rest |
| Csv.ParseQuotedOfDoubled | src/lib/csv.ts:7 | a quoted value with its quotes doubled reads back as the value |
| Csv.DoubleQuotesOfFirst | src/lib/csv.ts:7 | the escaped text of a value is its first character, doubled when a quote, followed by the escaped rest |
| Csv.ParseQuotedOfPair | src/lib/csv.ts:7 | inside a quoted field, a doubled quote reads as one quote |
| Csv.ParseQuotedOfChar | src/lib/csv.ts:7 | inside a quoted field, any other character reads as itself |
| Csv.ParseUnquotedOf | src/lib/csv.ts:8 | a comma-free value reads back as itself |
| Csv.ParseFieldOfEscape | src/lib/csv.ts:4-9 | every escaped value reads back as itself before a comma or the line's end |
| Csv.ParseFieldsOfEscaped | src/lib/csv.ts:12 | escaped values joined by "," read back as the values |
| Csv.ParseFieldsOfEscapedOne | src/lib/csv.ts:12 | a line of one escaped value reads back as that value |
| Csv.ParseFieldsOfEscapedStep | src/lib/csv.ts:12 | an escaped value, a comma and a line reading back as the other values read back as all of them |
| Csv.ParseFieldsOfFirst | src/lib/csv.ts:12 | a field, a comma and a line of fields read as that field followed by those fields |
| Csv.RowLineReadsBack | src/lib/csv.ts:12 | every row line reads back as the row's cells under the header keys |
| Csv.CarriageReturnNotQuoted | src/lib/csv.ts:6 | a value with only a carriage return is not quoted |
| Csv.QuoteIsDoubled | src/lib/csv.ts:7 | `a"` is written as `"a"""` |
| CataloguePage.NormalizeCategory | src/app/page.tsx:24-27 | a category iff it is exactly "parfum" or "cosmetic", otherwise none |
| CataloguePage.NormalizeSort | src/app/page.tsx:28-29 | descending iff the param is exactly "desc" |
| CataloguePage.NormalizePage | src/app/page.tsx:30 | a missing page is 1; NaN iff `parseInt` fails; otherwise at least 1: a numeric page of at least 1 is kept and one below 1 becomes 1 |
| CataloguePage.NormalizePageOfDecimal | src/app/page.tsx:30 | a page written by `String(n)` reads back as `max(1, n)` |
| CataloguePage.PageCountIsCeiling | src/app/page.tsx:90 | 0 pages iff 0 products; otherwise `(pageCount-1)*24 < total <= pageCount*24` |
| CataloguePage.NumberedPagesNonEmpty | src/app/page.tsx:80-81 | every numbered page starts inside the listing, at a multiple of 24 |
| CataloguePage.NeighbourLinksRoundTrip | src/app/page.tsx:134-157 | "Back" and "Next" links, read back by the page, keep the state and name the page before and after; "Next" stays within 1 to `pageCount` and only appears within the pager |
| CataloguePage.PageNumbers | src/app/page.tsx:144 | the numbered links are exactly the pages 1 to `pageCount`, ascending |
| CataloguePage.PageUrlRoundTrip | src/app/page.tsx:24-100 | every pager link, read back by the page, gives the same category, brand and sort and the page it names |
| CataloguePage.PageUrlValues | src/app/page.tsx:92-100 | a pager link carries the category and brand when truthy, `sort=desc` only when descending, and the page only past the first |
| CataloguePage.PageUrlKeys | src/app/page.tsx:92-100 | a pager link's keys are category, brand, sort and page, each only when set, in that order; the link is the bare path iff none is set |
| CataloguePage.BrandLinkRoundTrip | src/app/page.tsx:116-121 | a brand link keeps the page's category and sort, sets that brand and returns to page 1 |
| ProductsRoute.ListingMeta | src/app/api/products/route.ts:13-59 | the response's total; a page count of 0 iff there are no products, otherwise the ceiling of total/24; the page normalised as on the catalogue page: at least 1 when numeric, 1 when absent |
| ProductsRoute.ListingSort | src/app/api/products/route.ts:12 | descending iff `sort` is exactly "desc" |
| ProductsRoute.PageNotClamped | src/app/api/products/route.ts:46-58 | page 5 of an empty listing echoes page 5 with 0 pages |
| ProductsRoute.NormalizeDescription | src/app/api/products/route.ts:66 | the trimmed description, or null iff it is absent or trims to "" |
| ProductsRoute.NormalizeCategory | src/app/api/products/route.ts:90-91 | cosmetic iff the field is exactly "cosmetic", otherwise parfum |
| ProductsRoute.CreateProduct | src/app/api/products/route.ts:62-97 | the missing-fields error iff the trimmed name is empty or missing or brandId, price or stock is NaN; otherwise an upload error iff a non-empty image fails the upload checks, and it is that check's error; otherwise the parsed values, with the saved file's URL iff a non-empty image was sent |
| ProductsRoute.NoRangeChecks | src/app/api/products/route.ts:71 | price 0 and stock -3 are accepted |
| ProductsRoute.AbsentNumberRejected | src/app/api/products/route.ts:65-68 | an absent numeric field parses as NaN |
| ProductsRoute.DescriptionExamples | src/app/api/products/route.ts:66 | a blank or absent description is stored as null |
| ProductsRoute.UploadErrorFails | src/app/api/products/route.ts:79-85 | a non-empty image of a refused type fails the request with that type's error |
| BrandFilter.BuildUrlParams | src/components/storefront/BrandFilter.tsx:18-25 | the link holds exactly the truthy ones of category, brand and sort, in that order; it is `/` iff none is truthy |
| BrandFilter.BuildUrlKeys | src/components/storefront/BrandFilter.tsx:18-25 | the keys of a brand link are the truthy ones of category, brand and sort, in that order |
| BrandFilter.BuildUrlValues | src/components/storefront/BrandFilter.tsx:18-25 | each of category, brand and sort reads back as its value when truthy, and page is absent |
| BrandFilter.AtMostOneActive | src/components/storefront/BrandFilter.tsx:33-46 | with non-empty distinct slugs, "all" active excludes every brand, and at most one brand is active |
| CategoryFilter.BuildUrlParams | src/components/storefront/CategoryFilter.tsx:16-22 | the link holds exactly the truthy ones of category and sort, in that order, never brand or page; it is `/` iff neither is truthy |
| CategoryFilter.BuildUrlKeys | src/components/storefront/CategoryFilter.tsx:16-22 | the keys of a category link are the truthy ones of category and sort, in that order |
| CategoryFilter.BuildUrlValues | src/components/storefront/CategoryFilter.tsx:16-22 | category and sort read back as their values when truthy; brand and page are absent |
| CategoryFilter.ExactlyOneActive | src/components/storefront/CategoryFilter.tsx:9-32 | a current category among the three values highlights exactly one entry; any other value highlights none |
| ImageUpload.SaveUploadedFile | src/lib/image-upload.ts:8-20 | an error iff the type is not allowed or the size exceeds 5 MiB, with the type checked first; otherwise `/uploads/` + uuid + "." + extension |
| ImageUpload.Extension | src/lib/image-upload.ts:15 | the extension holds no dot |
| ImageUpload.ExtensionAfterLastDot | src/lib/image-upload.ts:15 | the whole name when there is no dot; otherwise what follows the last dot |
| ImageUpload.TypeCheckedFirst | src/lib/image-upload.ts:9-11 | a refused type gives the type error whatever the size |
| ImageUpload.SizeLimitInclusive | src/lib/image-upload.ts:12-14 | exactly 5242880 bytes are accepted and 5242881 refused |
| ImageUpload.ExtensionExample | src/lib/image-upload.ts:15 | "a.png" has extension "png", and "photo" is its own extension |
| Query.Href | src/app/page.tsx:98-99 | `/` iff there are no params; otherwise the link carries them |
| Query.GetFirst | src/app/page.tsx:93-97 | `get` is absent iff no pair has the key; otherwise it is the first pair's value |
| Query.GetOfSetIf | src/app/page.tsx:94-97 | after a conditional `set` of a new key, reading that key gives the value if truthy; other keys are unaffected |
| Query.SetAllReadBack | src/app/page.tsx:93-97 | for distinct keys, each key reads back as its entry's value when truthy and is absent otherwise, and a key no entry has is absent |
| Query.SetAllKeys | src/app/page.tsx:93-97 | the built list holds the keys of the truthy entries, in order, and no other key |
| JsText.ParseIntOfDecimal | src/app/page.tsx:30 | `parseInt(String(n), 10) == n` for every integer |
| JsText.JoinSplit | src/lib/image-upload.ts:15 | joining the pieces of `split` with the separator gives the string back |
| JsText.Split | src/lib/image-upload.ts:15 | `split` yields at least one piece and no piece holds the separator |

## Left out

- Email: the order confirmation mail is foreign I/O sent after the transaction, and its failure is only logged.
- Authentication: the admin session is a boolean input of `OfferTables.Create`; JWTs, cookies and password hashing are not modelled.
- Database wiring: tables are Dafny maps and sequences.
  - Transaction isolation under concurrent requests is not modelled; "an error leaves the tables unchanged" is modelled.
  - Timestamps (`createdAt`, `updatedAt`) and the `order_items` row ids are not modelled.
- Floating point: prices are Dafny `real`, so IEEE rounding and `toFixed` formatting are left out.
- `parseFloat`: abstract; callers pass its result as an optional real, with NaN as none.
- `parseInt`: modelled concretely for radix 10. It skips leading white space, takes a sign and the longest run of ASCII digits; fractional and exponent forms are not special-cased. Integers are unbounded, so the loss of precision past 2^53 and the exponent form `String(n)` takes from 1e21 on are not modelled.
- Lower-casing covers ASCII and the basic Cyrillic capitals (U+0400 to U+042F) only.
- ProductsRoute.CreateProduct: the slug comes from `slugify`, which is not part of this model, and the insert is not modelled.
  - The result is the values that would be inserted.
  - The products listing query (brand filter, join, order) is not modelled either.
- The `GET` listings of offers and orders, `/api/upload` and the product export query are not modelled; CSV serialisation of given rows is.
- Cart persistence to `localStorage`, router and toast effects, `writeFile` and `randomUUID` are not modelled; the UUID is a parameter of `SaveUploadedFile`.
- Bundles: the checkout form sends them, but the order route never reads them, so they are not modelled. The cart store does not define them.
- URL form-encoding: modelled as an ordered list of key/value pairs. This assumes the encoding is injective, and each parameter is read as one string.
- OfferPage.ActiveOffer: the query takes some active offer with `limit(1)`; the model takes the first in table order. With at most one active offer, which `Create` keeps, this choice does not matter (`SoleActiveShown`).
- OfferPage.ItemsOf: ordering by the gift flag leaves ties in SQLite's scan order; the model keeps table order within each flag.
- OfferPage.ComboItems: its own contract states only that no gift is kept. That it keeps exactly the non-gift items in order is stated by `ComboItemsOfConcat` and `ComboItemsAll`.
- WeeklyOfferRoute.OfferTables.Create: the JSON body always carries `comboPrice` and `productIds`; a body missing them, where the route would throw, is not modelled.
- OfferForm.Submit: the edit path (`isEdit`, `PUT`) and the network request are not modelled.
- Orders.Store.PlaceOrder: quantities and product ids are modelled as integers. The route never checks that the JSON numbers are integers, so a quantity of 1.5 would leave a fractional stock, and a missing quantity makes `totalAmount` NaN; neither is modelled.
- Cart.UpdateQuantity: the cart's quantities are integers here; the store accepts any JavaScript number.
- Orders.Store.PlaceOrder: the error cases are the route's own two errors and missing fields; other database errors are not modelled.
