# Finished-goods store: a verified model of its core logic

This project models in Dafny the parts of the finished-goods (FG) store of
the sepm211 application that hold real sequential logic, and proves what
they promise. The application is a React front end over a Firebase
real-time database. The parts modelled are:

- **Direct-representative approvals** (`directRepresentativeService.js`).
  - A sales request's items are normalised through ordered fallbacks:
    `items` as an object or JSON text, then a flat `product`/`quantity`
    pair, then `products`.
  - The total quantity is summed with numeric coercion, and a NaN total is
    stored as 0.
  - Approval writes a history record, the request's audit fields and one
    notification per FG Store manager.
  - Rejection writes only the request's status fields.
  - The listing applies defaults to each stored request.
  - The store is a class `RepStore` holding the database's maps and an
    ordered log of writes.
- **Dispatch of an approved request** (`DispatchModal.jsx`).
  - The form state is a class `DispatchForm`.
  - The candidate batches of each item come from the bulk and packaged
    inventories.
  - Batch quantities are upserted per (batch id, type).
  - The dispatch quantity is clamped.
  - Submission refuses any item whose selected total is not exactly its
    dispatch quantity, and otherwise builds the payload.
- **Direct showrooms** (`directShowroomService.js`).
  - A class `ShowroomRepo` holds the `direct_showrooms` table and the
    `users` table, plus the ordered writes.
  - Create, update and soft delete check the code and keep the
    manager↔showroom back-references.
  - The queries are the listing (newest first), the active subset, the
    lookup by code and the staff of a showroom.
- **Spreadsheet upload of products and prices** (`AddProductsAndPricing.jsx`).
  - The row validator (`validateData`) checks required fields and
    enumerated domains, with rules that depend on the product type.
  - Warnings never make a row invalid.
  - The location fallback list applies when no active locations exist.
  - Saving turns each valid row into inventory and pricing calls.
- **Report pages.**
  - Price history (`PriceHistory.jsx`): the product-id→name map in which
    later sources win, name enrichment, the sorted product list, the
    five-way filter, the summary counts and the change amount.
  - Expiry tracking (`ExpiryManagement.jsx`): the dated stock in expiry
    order, the four-way status, the filter and the summary.
  - Location management (`LocationManagement.jsx`): items are attributed
    to locations in place over an array, then come the rounded utilisation
    percentages, the page statistics and the colour bands.

Files: `js.dfy` (JavaScript values, truthiness, `Number`, string helpers,
`Array.prototype.filter`), `sorting.dfy` (stable sort by a numeric key),
`stock.dfy` (the combined inventory), `approval.dfy`, `dispatch.dfy`,
`showroom.dfy`, `upload.dfy`, `price_history.dfy`, `expiry.dfy`,
`locations.dfy`.

Behaviour as written that the model keeps, and proves:

- **Showroom codes.** The creation probe compares the code exactly, but
  the code is stored uppercased. So `"ds001"` passes the probe when
  `"DS001"` is stored, and a duplicate is created
  (`Showrooms.LowerCaseCodePassesProbe`). A changed code on update is
  stored as given.
- **Manager back-references.** An update that carries no `manager_id`
  clears the current manager's back-reference
  (`Showrooms.UpdateWithoutManagerClearsBackReference`).
- **Quantity total.** One quantity that converts to NaN makes the stored
  total 0, not just that item's share
  (`Approval.NaNQuantityZeroesTotal`). A `null` item makes the quantity
  read throw, and the approval fails before any write.
- **Pricing key.** The key tests only the `Variant Name` column. A units
  row that names its variant under `variantName` is priced under the bare
  product id (`ProductUpload.VariantAliasNotInKey`).
- **Upload warnings.** The currency and price-type warnings say a default
  is used, but the save stores the non-standard value as read whenever it
  is not empty (`ProductUpload.NonStandardValuesStoredAsRead`).
- **Expiry search.** An item with neither a product name nor a batch
  number is hidden even when the search is empty
  (`Expiry.UnnamedItemsAreHidden`).

## Model

| member | source | states |
|---|---|---|
| Approval.PairCandidate | src/services/directRepresentativeService.js:82-93 | the fallback built from `product`/`quantity` is an object with exactly one key |
| Approval.Candidates | src/services/directRepresentativeService.js:64-107 | the fallbacks are consulted with the `items` field first |
| Approval.FirstWithItems | src/services/directRepresentativeService.js:66-114 | the chosen candidate holds items and every candidate before it is missing or empty; when none is chosen, every candidate is missing or empty |
| Approval.FirstWithItemsIsFirst | src/services/directRepresentativeService.js:66-114 | whichever candidate is the first to hold items is the one chosen |
| Approval.CanonicalItems | src/services/directRepresentativeService.js:64-114 | a successful normalisation is an object with at least one key; the only failure is "no items found" |
| Approval.NormalizeItems | src/services/directRepresentativeService.js:64-114 | the imperative reassignment of `items` through the fallbacks gives exactly the canonical mapping or the same error |
| Approval.ItemsObjectIsUsedAsIs | src/services/directRepresentativeService.js:76-78 | a non-empty object `items` is the mapping, unchanged |
| Approval.ParsedItemsStringIsUsed | src/services/directRepresentativeService.js:67-71 | a string `items` that parses to a non-empty object is the parsed mapping |
| Approval.UnparseableItemsFallsThrough | src/services/directRepresentativeService.js:68-75 | a string `items` that fails to parse normalises exactly as a request without `items` |
| Approval.ProductPairGivesOneEntry | src/services/directRepresentativeService.js:82-93 | with no items and a truthy pair, the mapping has one entry keyed by the product, with `name` the product and `qty` `Number(quantity)` |
| Approval.ProductsUsedOnlyAsLastResort | src/services/directRepresentativeService.js:95-106 | if the `products` field is the mapping used, `items` held nothing and there was no product pair |
| Approval.PairUsedOnlyAsFallback | src/services/directRepresentativeService.js:82 | if the pair's mapping is the one used, `items` held nothing and both pair fields are truthy |
| Approval.UnparseableProductsFails | src/services/directRepresentativeService.js:96-114 | an unparseable `products` string stays a string, fails the object check and approval fails |
| Approval.NoSourceFails | src/services/directRepresentativeService.js:110-114 | a request without `items`, pair or `products` fails with "no items found" |
| Approval.ItemQuantity | src/services/directRepresentativeService.js:147-161 | reading an item's quantity fails exactly for a null item, because a property read on null throws |
| Approval.SumQuantities | src/services/directRepresentativeService.js:145-165 | the sum fails exactly when some item is null, and is NaN exactly when some item's quantity converts to NaN |
| Approval.StoredTotalIsSum | src/services/directRepresentativeService.js:145-178 | without NaN quantities the stored total is the sum of the item quantities |
| Approval.NaNQuantityZeroesTotal | src/services/directRepresentativeService.js:178-196 | one NaN quantity makes the stored `totalQuantity` 0 |
| Approval.ApprovedItems | src/services/directRepresentativeService.js:110-165 | approval's items succeed exactly when normalisation and summing both succeed; the items are the canonical mapping, and each failure keeps its own error |
| Approval.FanOut | src/services/directRepresentativeService.js:290-299 | the fan-out issues one write per FG Store manager |
| Approval.FanOutWritesPerEntry | src/services/directRepresentativeService.js:290-299 | each user id gets as many notification writes as it has manager entries |
| Approval.FanOutOnePerManager | src/services/directRepresentativeService.js:290-299 | with distinct user ids, every FG Store manager gets exactly one notification and every other user none |
| Approval.RepStore.Notify | src/services/directRepresentativeService.js:295-298 | one notification is pushed under the next key to the user's inbox and logged; nothing else changes |
| Approval.RepStore.NotifyFgStore | src/services/directRepresentativeService.js:267-303 | the loop logs exactly the fan-out writes, delivers them to the inboxes, and advances the push key once per manager |
| Approval.RepStore.RecordApproval | src/services/directRepresentativeService.js:207-236 | a new history record is pushed under the next key, then the request is updated, then the managers are notified, in that order |
| Approval.RepStore.Approve | src/services/directRepresentativeService.js:39-243 | approval fails for an unknown request or unusable items and then changes nothing; otherwise it stores the record, sets the audit fields and logs the writes |
| Approval.RepStore.Reject | src/services/directRepresentativeService.js:246-264 | rejection writes only the rejection fields of the request; no history record and no notification |
| Approval.ApprovedRequestFields | src/services/directRepresentativeService.js:119-125 | an approved request has status 'Approved', the timestamps and the approver fields, and keeps every other field |
| Approval.RejectedRequestFields | src/services/directRepresentativeService.js:250-256 | a rejected request has status 'Rejected', the rejecting user and a reason defaulting to 'Request rejected', and keeps every other field |
| Approval.HistoryRecordShape | src/services/directRepresentativeService.js:182-201 | the history record is 'Approved', typed 'direct_rep_sale' and not dispatched or completed; it carries the same items; a non-zero total means no NaN quantity |
| Approval.ListRequests | src/services/directRepresentativeService.js:10-31 | the listing has one entry per stored request, in order |
| Approval.ListedRequestFields | src/services/directRepresentativeService.js:19-28 | a listed request carries the type tag, non-empty defaults for items, priority and role, and every other stored field or its id |
| Dispatch.InitialItems | src/pages/FinishedGoodsStore/DispatchModal.jsx:9-20 | every request item starts with `dispatchQty` equal to its `qty` and no batch selected, and no other key appears |
| Dispatch.InStockFor | src/pages/FinishedGoodsStore/DispatchModal.jsx:44-50 | the candidates are exactly the records of the product with positive stock |
| Dispatch.AvailableFor | src/pages/FinishedGoodsStore/DispatchModal.jsx:41-56 | the bulk and packaged candidates of an item are exactly the matching records with stock |
| Dispatch.IndexOf | src/pages/FinishedGoodsStore/DispatchModal.jsx:80-82 | `findIndex` gives the first entry for the same (id, type), or -1 when there is none |
| Dispatch.UpsertSelection | src/pages/FinishedGoodsStore/DispatchModal.jsx:79-100 | the scan and the in-place replace, splice or push give exactly the upserted selection |
| Dispatch.UpsertKeepsOthers | src/pages/FinishedGoodsStore/DispatchModal.jsx:84-100 | entries of other batches are unchanged and keep their order |
| Dispatch.UpsertSetsEntry | src/pages/FinishedGoodsStore/DispatchModal.jsx:84-100 | after the change, the batch has one entry with the quantity when it is positive, and none otherwise |
| Dispatch.UpsertKeepsUnique | src/pages/FinishedGoodsStore/DispatchModal.jsx:80-100 | at most one entry per (batch id, type) is kept, and no entry appears except the old ones and the new one |
| Dispatch.UpsertAt | src/pages/FinishedGoodsStore/DispatchModal.jsx:84-100 | the index-based replace and splice agree with the upsert |
| Dispatch.UpsertKeepsPositive | src/pages/FinishedGoodsStore/DispatchModal.jsx:84-100 | every selected quantity stays positive after a change |
| Dispatch.TotalSelected | src/pages/FinishedGoodsStore/DispatchModal.jsx:112-115 | the total of no selection is 0; with positive quantities the total is non-negative and 0 only when nothing is selected |
| Dispatch.TotalSelectedAppend | src/pages/FinishedGoodsStore/DispatchModal.jsx:112-115 | the total of two selections in a row is the sum of their totals |
| Dispatch.UpsertTotal | src/pages/FinishedGoodsStore/DispatchModal.jsx:112-115 | the selected total after the change is the other batches' total plus the new quantity if positive |
| Dispatch.ClampDispatchQty | src/pages/FinishedGoodsStore/DispatchModal.jsx:128 | the dispatch quantity stays in `[0, qty]`; unparseable input gives 0; an in-range value is kept; too large a value gives `qty` |
| Dispatch.ItemError | src/pages/FinishedGoodsStore/DispatchModal.jsx:160-169 | an item has no error exactly when its dispatch quantity is not positive or its selected total equals it; otherwise a zero total reports no batches, a smaller total too few and a larger total too many, with the total and the quantity |
| Dispatch.NoBatchesIffNothingSelected | src/pages/FinishedGoodsStore/DispatchModal.jsx:160-163 | with positive selected quantities, an item to dispatch reports no batches exactly when nothing is selected for it |
| Dispatch.NonPositiveQuantitySkipped | src/pages/FinishedGoodsStore/DispatchModal.jsx:157-184 | an item whose dispatch quantity is not positive has no error and no payload entry |
| Dispatch.ValidationErrors | src/pages/FinishedGoodsStore/DispatchModal.jsx:157-171 | there is at most one error per item |
| Dispatch.NoErrorsIffExact | src/pages/FinishedGoodsStore/DispatchModal.jsx:159-176 | there are no errors exactly when every item to dispatch has exactly its quantity selected |
| Dispatch.Lines | src/pages/FinishedGoodsStore/DispatchModal.jsx:187-193 | there is one payload batch line per selected batch, in order |
| Dispatch.LineTotalIsSelected | src/pages/FinishedGoodsStore/DispatchModal.jsx:187-193 | the batch lines carry the selected total unchanged |
| Dispatch.DispatchData | src/pages/FinishedGoodsStore/DispatchModal.jsx:181-196 | the payload has at most one entry per item |
| Dispatch.DispatchDataEntries | src/pages/FinishedGoodsStore/DispatchModal.jsx:182-184 | an item is in the payload exactly when its dispatch quantity is positive and its selection non-empty |
| Dispatch.DispatchDataLines | src/pages/FinishedGoodsStore/DispatchModal.jsx:184-194 | each payload entry is the item's name, its dispatch quantity and its selection as batch lines |
| Dispatch.PayloadQuantitiesMatch | src/pages/FinishedGoodsStore/DispatchModal.jsx:181-196 | when validation passes, every payload entry's batch quantities add up to its `qty` |
| Dispatch.PassedItemsAreIncluded | src/pages/FinishedGoodsStore/DispatchModal.jsx:173-184 | when validation passes, an item is dispatched exactly when its dispatch quantity is positive |
| Dispatch.CollectErrors | src/pages/FinishedGoodsStore/DispatchModal.jsx:157-171 | the `forEach` loop collects exactly the validation errors, in item order |
| Dispatch.CollectDispatchData | src/pages/FinishedGoodsStore/DispatchModal.jsx:181-196 | the `forEach` loop builds exactly the payload entries, in item order |
| Dispatch.DispatchForm.constructor | src/pages/FinishedGoodsStore/DispatchModal.jsx:9-20 | the form starts with the request's item ids and their initial dispatch items |
| Dispatch.DispatchForm.ChangeBatchQuantity | src/pages/FinishedGoodsStore/DispatchModal.jsx:76-110 | only the item's selection changes, to its upsert, and it keeps one entry per batch, each with a positive quantity |
| Dispatch.DispatchForm.ChangeQuantity | src/pages/FinishedGoodsStore/DispatchModal.jsx:125-137 | only the item's `dispatchQty` changes, to the clamped value |
| Dispatch.DispatchForm.Submit | src/pages/FinishedGoodsStore/DispatchModal.jsx:153-206 | submission fails with the errors exactly when there are errors, and makes no call then; otherwise it returns the payload with the user's fields and the trimmed notes |
| Showrooms.Created | src/services/directShowroomService.js:61-84 | the name, location and city are stored as given, the code uppercased, and the status, manager, opening hours and metadata defaults apply; the timestamps and creator are set |
| Showrooms.Updated | src/services/directShowroomService.js:121-126 | each given field replaces the stored one and others are kept; the creation fields are kept and `updated_at` is set |
| Showrooms.EmptyUpdateOnlyStamps | src/services/directShowroomService.js:121-126 | an update that carries no field leaves the record as it was except for `updated_at` |
| Showrooms.FirstWithCode | src/services/directShowroomService.js:43 | `find` gives an entry with exactly the code, and nothing exactly when no entry has it |
| Showrooms.ActiveOnly | src/services/directShowroomService.js:22 | the active showrooms are exactly the listed ones with status 'active' |
| Showrooms.ActiveOnlyAppend | src/services/directShowroomService.js:22 | the active filter keeps order, so the active list keeps the newest-first order of the full listing |
| Showrooms.ManagerWrites | src/services/directShowroomService.js:128-142 | at most two user writes: clear the old manager when the manager changes, then point the new manager here |
| Showrooms.ManagerMoves | src/services/directShowroomService.js:128-142 | when the manager changes, the old manager's back-reference is cleared and the new one's points to the showroom, with the name and code falling back to the stored ones |
| Showrooms.SameManagerRefreshed | src/services/directShowroomService.js:128-142 | keeping the same manager only refreshes its back-reference |
| Showrooms.UpdateWithoutManagerClearsBackReference | src/services/directShowroomService.js:118-134 | an update without `manager_id` clears the current manager's back-reference |
| Showrooms.ShowroomRepo.Entries | src/services/directShowroomService.js:10-12 | the entries are every stored showroom tagged with its id, in push order |
| Showrooms.ShowroomRepo.All | src/services/directShowroomService.js:10-13 | the listing is a permutation of the entries, newest `created_at` first, with a missing value counted as 0 |
| Showrooms.ShowroomRepo.AllListsEveryShowroom | src/services/directShowroomService.js:10-13 | every stored showroom is listed, and every listed entry is a stored showroom with its own id |
| Showrooms.ShowroomRepo.Active | src/services/directShowroomService.js:19-26 | the active listing is exactly the listed showrooms with status 'active' |
| Showrooms.ShowroomRepo.ByCode | src/services/directShowroomService.js:40-47 | the lookup finds a listed showroom with exactly the code, and nothing exactly when none has it |
| Showrooms.ShowroomRepo.Staff | src/services/directShowroomService.js:175-177 | the staff are exactly the users whose `showroom_id` is the showroom |
| Showrooms.ShowroomRepo.CodeClashIsAnyOther | src/services/directShowroomService.js:111-116 | an update's code clashes exactly when the code is truthy, changed, and held by another showroom |
| Showrooms.ShowroomRepo.Create | src/services/directShowroomService.js:49-100 | creation fails without a user or when the exact code exists, and then changes nothing; otherwise it pushes the new record, then points the manager at it |
| Showrooms.ShowroomRepo.Push | src/services/directShowroomService.js:86-94 | the record gets the next id, and the manager's user write follows the showroom write |
| Showrooms.ShowroomRepo.ReassignManager | src/services/directShowroomService.js:128-142 | the users table and the log receive exactly the manager writes; the showroom table is unchanged |
| Showrooms.ShowroomRepo.Update | src/services/directShowroomService.js:102-148 | update fails without a user, for an unknown id or on a code clash, and then changes nothing; otherwise it merges the changes, then writes the back-references |
| Showrooms.ShowroomRepo.ApplyUpdate | src/services/directShowroomService.js:121-142 | the merged record is written first, then the manager writes |
| Showrooms.ShowroomRepo.Delete | src/services/directShowroomService.js:150-168 | delete is soft: the record stays with status 'inactive', and the manager's back-reference is cleared first, so the manager leaves the staff |
| Showrooms.LowerCaseCodePassesProbe | src/services/directShowroomService.js:56-63 | with "DS001" stored, "ds001" passes the probe and is stored as "DS001" |
| ProductUpload.Either | src/pages/FinishedGoodsStore/AddProductsAndPricing.jsx:114-119 | `row[a] \|\| row[b]` is absent exactly when neither cell is truthy, and prefers the first name |
| ProductUpload.KindOf | src/pages/FinishedGoodsStore/AddProductsAndPricing.jsx:146-185 | the row's type-specific fields are read as bulk exactly for 'bulk' and as units exactly for 'units' |
| ProductUpload.NoErrorsIffAcceptable | src/pages/FinishedGoodsStore/AddProductsAndPricing.jsx:113-211 | a row has no errors exactly when it meets every required field and domain rule, stated positively |
| ProductUpload.ValidRowHasKnownType | src/pages/FinishedGoodsStore/AddProductsAndPricing.jsx:114-139 | a valid row has type 'bulk' or 'units' and a name, an id and a batch number |
| ProductUpload.UnvalidatedColumnsDoNotMatter | src/pages/FinishedGoodsStore/AddProductsAndPricing.jsx:113-211 | changing a column outside those validated for the row's type changes neither its fields nor its errors |
| ProductUpload.Warnings | src/pages/FinishedGoodsStore/AddProductsAndPricing.jsx:141-223 | each warning is raised exactly when its condition holds: a non-empty location not among the available ones, variant or units columns on a bulk row, a quantity column on a units row, a currency outside LKR/USD/EUR, a price type outside the four standard ones |
| ProductUpload.RowWarningConditions | src/pages/FinishedGoodsStore/AddProductsAndPricing.jsx:141-223 | the same conditions stated of the row's own cells: the trimmed location, the product type, which of the variant, units and quantity columns are filled, the case-mapped currency and price type |
| ProductUpload.WarningColumnsAreNotValidated | src/pages/FinishedGoodsStore/AddProductsAndPricing.jsx:141-225 | the location, currency and price-type columns never change a row's errors |
| ProductUpload.ResultFor | src/pages/FinishedGoodsStore/AddProductsAndPricing.jsx:108-233 | each result has row number `index + 2`, the row's errors and warnings, and is valid exactly when it has no errors |
| ProductUpload.CountValid | src/pages/FinishedGoodsStore/AddProductsAndPricing.jsx:251 | the valid count is at most the number of results |
| ProductUpload.AllValidIffCount | src/pages/FinishedGoodsStore/AddProductsAndPricing.jsx:251 | the valid count equals the length exactly when every result is valid |
| ProductUpload.Validated | src/pages/FinishedGoodsStore/AddProductsAndPricing.jsx:108-238 | there is exactly one result per row |
| ProductUpload.ValidatedAt | src/pages/FinishedGoodsStore/AddProductsAndPricing.jsx:108-233 | result `i` is row `i`'s result, numbered `i + 2` |
| ProductUpload.ValidateData | src/pages/FinishedGoodsStore/AddProductsAndPricing.jsx:104-252 | the loop produces exactly the row-by-row results, and returns true exactly when every row is valid |
| ProductUpload.CountValidRows | src/pages/FinishedGoodsStore/AddProductsAndPricing.jsx:251 | the loop counts exactly the valid results |
| ProductUpload.ActiveCodes | src/pages/FinishedGoodsStore/AddProductsAndPricing.jsx:44-47 | the codes listed are exactly those of active locations, and the list is empty exactly when none is active |
| ProductUpload.AvailableLocations | src/pages/FinishedGoodsStore/AddProductsAndPricing.jsx:40-56 | the list is never empty: the active codes when there are any, else FG-A1, FG-A2, FG-B1, FG-B2 |
| ProductUpload.StoredLocation | src/pages/FinishedGoodsStore/AddProductsAndPricing.jsx:363 | the stored location is the row's location when it is available, else 'FG-A1' |
| ProductUpload.PricingKey | src/pages/FinishedGoodsStore/AddProductsAndPricing.jsx:406-408 | the key is `productId_variant` for a units row with a 'Variant Name' cell, else the product id |
| ProductUpload.VariantAliasNotInKey | src/pages/FinishedGoodsStore/AddProductsAndPricing.jsx:406-408 | a units row without a 'Variant Name' column is priced under the bare product id |
| ProductUpload.RowCalls | src/pages/FinishedGoodsStore/AddProductsAndPricing.jsx:339-416 | a row issues its type's inventory call at the stored location, then the price update under the pricing key, with the currency and price type as read, or LKR and retail when they read empty |
| ProductUpload.NonStandardValuesStoredAsRead | src/pages/FinishedGoodsStore/AddProductsAndPricing.jsx:214-340 | a currency or price type that was warned about as non-standard is stored as read, not replaced by the default the warning names, unless it is empty |
| ProductUpload.Attempted | src/pages/FinishedGoodsStore/AddProductsAndPricing.jsx:329-422 | the calls issued are a prefix of the row's calls, and every call before the last was accepted |
| ProductUpload.AttemptedAll | src/pages/FinishedGoodsStore/AddProductsAndPricing.jsx:329-422 | when every call is accepted, all of them are issued |
| ProductUpload.AttemptedPrefix | src/pages/FinishedGoodsStore/AddProductsAndPricing.jsx:329-422 | after `k` accepted calls the next one is issued, and the row stops there if it is refused |
| ProductUpload.ValidRows | src/pages/FinishedGoodsStore/AddProductsAndPricing.jsx:311 | the saved rows are exactly the valid results, as many as the valid count |
| ProductUpload.ValidRowsAppend | src/pages/FinishedGoodsStore/AddProductsAndPricing.jsx:311 | the filter keeps order: the valid rows of two runs of results are those of the first followed by those of the second |
| ProductUpload.Plans | src/pages/FinishedGoodsStore/AddProductsAndPricing.jsx:328-416 | there is one call plan per valid row, in order |
| ProductUpload.Saved | src/pages/FinishedGoodsStore/AddProductsAndPricing.jsx:418-421 | no more rows are saved than there are plans |
| ProductUpload.SaveRow | src/pages/FinishedGoodsStore/AddProductsAndPricing.jsx:329-422 | a row issues its calls until one is refused, and succeeds exactly when none is |
| ProductUpload.SavePlans | src/pages/FinishedGoodsStore/AddProductsAndPricing.jsx:324-423 | the loop counts the rows saved, the successes and errors add up to the rows, and the call log is all rows' issued calls in order |
| ProductUpload.SaveToDatabase | src/pages/FinishedGoodsStore/AddProductsAndPricing.jsx:310-444 | saving is refused with no calls exactly when no row is valid; otherwise every valid row is attempted and the counts are reported |
| PriceHistory.NamesDomain | src/pages/FinishedGoodsStore/PriceHistory.jsx:57-91 | an id is in the name map exactly when some source pair has a non-empty id and name, and every mapped name is non-empty |
| PriceHistory.NamesLastWins | src/pages/FinishedGoodsStore/PriceHistory.jsx:57-91 | an id maps to the name of the last pair that names it |
| PriceHistory.NamesAppend | src/pages/FinishedGoodsStore/PriceHistory.jsx:57-91 | the map of later pairs overrides that of earlier pairs |
| PriceHistory.SetNames | src/pages/FinishedGoodsStore/PriceHistory.jsx:60-64 | one source's `forEach` updates the map with exactly that source's names |
| PriceHistory.BuildNameMap | src/pages/FinishedGoodsStore/PriceHistory.jsx:57-91 | the map is filled from bulk, packaged, production and pricing in order, and pricing names win |
| PriceHistory.BeforeFirst | src/pages/FinishedGoodsStore/PriceHistory.jsx:104 | `split('_')[0]` is a prefix without '_', ending just before the first '_' when there is one |
| PriceHistory.NameFor | src/pages/FinishedGoodsStore/PriceHistory.jsx:97-98 | a name is found exactly when the map holds a non-empty name for the id |
| PriceHistory.Enrich | src/pages/FinishedGoodsStore/PriceHistory.jsx:94-111 | only a blank name of a record with an id is filled in, by direct lookup first, then by the id before the first '_'; otherwise the record is unchanged |
| PriceHistory.EnrichIdempotent | src/pages/FinishedGoodsStore/PriceHistory.jsx:94-112 | enriching twice is enriching once |
| PriceHistory.EnrichAll | src/pages/FinishedGoodsStore/PriceHistory.jsx:94-112 | the enriched history keeps length and order, changes only names, and leaves named records as they are |
| PriceHistory.StrictlySortedUnique | src/pages/FinishedGoodsStore/PriceHistory.jsx:121 | two strictly sorted lists with the same names are equal, so the product list is determined by its names |
| PriceHistory.SortNames | src/pages/FinishedGoodsStore/PriceHistory.jsx:121 | `Array.from(set).sort()` is strictly sorted and holds exactly the set's names |
| PriceHistory.ProductList | src/pages/FinishedGoodsStore/PriceHistory.jsx:114-121 | the product list is sorted without duplicates and holds exactly the mapped names and the records' non-empty names |
| PriceHistory.DisplayName | src/pages/FinishedGoodsStore/PriceHistory.jsx:145 | the shown name is never empty |
| PriceHistory.Filtered | src/pages/FinishedGoodsStore/PriceHistory.jsx:144-168 | the filtered history is a subset holding exactly the records every filter keeps |
| PriceHistory.FilteredAppend | src/pages/FinishedGoodsStore/PriceHistory.jsx:144-168 | filtering keeps the input order |
| PriceHistory.NoFiltersShowAll | src/pages/FinishedGoodsStore/PriceHistory.jsx:144-168 | with every filter input empty, the whole history is shown |
| PriceHistory.InvalidDateHidesAll | src/pages/FinishedGoodsStore/PriceHistory.jsx:154-155 | a date filter that does not parse hides every record |
| PriceHistory.EndDayIncluded | src/pages/FinishedGoodsStore/PriceHistory.jsx:153-155 | a record at any moment of the end date's day passes the upper bound, with `timestamp`, else `recordedAt`, else 0 |
| PriceHistory.ChangesPartition | src/pages/FinishedGoodsStore/PriceHistory.jsx:208-210 | every record is an increase, a decrease or unchanged, exactly one of them |
| PriceHistory.ProductNames | src/pages/FinishedGoodsStore/PriceHistory.jsx:214 | the distinct names are at most the records, none only for no records, and exactly the records' names |
| PriceHistory.SummaryOf | src/pages/FinishedGoodsStore/PriceHistory.jsx:207-217 | increases plus decreases never exceed the total; there are no more products than records, and some exactly when records exist; the average is 0 for no records |
| PriceHistory.SumChangeWithin | src/pages/FinishedGoodsStore/PriceHistory.jsx:211-212 | the sum of changes lies between n times the smallest and n times the largest change |
| PriceHistory.AverageWithin | src/pages/FinishedGoodsStore/PriceHistory.jsx:211-212 | the average change lies between the smallest and the largest change |
| PriceHistory.ChangeAmount | src/pages/FinishedGoodsStore/PriceHistory.jsx:228 | the amount is non-negative, zero exactly when the prices are equal, and one of the two differences |
| PriceHistory.ChangeAmountSymmetric | src/pages/FinishedGoodsStore/PriceHistory.jsx:181 | swapping the old and the new price leaves the amount unchanged |
| Stock.Combine | src/pages/FinishedGoodsStore/LocationManagement.jsx:64-67 | the combined inventory is the bulk records tagged bulk followed by the packaged records tagged units |
| Sorting.SortBy | src/pages/FinishedGoodsStore/ExpiryManagement.jsx:46 | the sort output is ordered by the key and is a permutation of the input |
| Sorting.InsertOfKey | src/pages/FinishedGoodsStore/ExpiryManagement.jsx:46 | an inserted element comes after every element of its key already placed |
| Sorting.SortByStable | src/pages/FinishedGoodsStore/ExpiryManagement.jsx:46 | the sort is stable: the elements of each key come out in their input order |
| Expiry.Classify | src/pages/FinishedGoodsStore/ExpiryManagement.jsx:64-70 | negative days is expired, 0–7 critical, 8–30 warning, more is good; each holds in both directions |
| Expiry.ClassifyMonotone | src/pages/FinishedGoodsStore/ExpiryManagement.jsx:67-70 | more days to expiry never gives a more severe status |
| Expiry.ExpiryStatus | src/pages/FinishedGoodsStore/ExpiryManagement.jsx:56-71 | there is no status exactly when there is no expiry date; otherwise the status is the classification of the days left |
| Expiry.HasExpiry | src/pages/FinishedGoodsStore/ExpiryManagement.jsx:43 | the dated records are exactly those with an expiry date, as a sub-multiset of the input |
| Expiry.Tracked | src/pages/FinishedGoodsStore/ExpiryManagement.jsx:40-46 | the tracked list is a permutation of the dated combined stock, sorted by expiry day |
| Expiry.Filtered | src/pages/FinishedGoodsStore/ExpiryManagement.jsx:73-81 | the filtered items are exactly those matching both the search and the status filter |
| Expiry.FilteredAppend | src/pages/FinishedGoodsStore/ExpiryManagement.jsx:73-81 | filtering keeps the input order |
| Expiry.FilterAllIsSearchOnly | src/pages/FinishedGoodsStore/ExpiryManagement.jsx:78 | with filter 'all' only the search decides |
| Expiry.UnnamedItemsAreHidden | src/pages/FinishedGoodsStore/ExpiryManagement.jsx:75-76 | an item with neither a product name nor a batch number is never shown |
| Expiry.CountStatus | src/pages/FinishedGoodsStore/ExpiryManagement.jsx:85-87 | a status count never exceeds the number of items |
| Expiry.SummaryOf | src/pages/FinishedGoodsStore/ExpiryManagement.jsx:83-90 | the total is the item count and expired + critical + warning is at most the total |
| Expiry.StatusCountsPartition | src/pages/FinishedGoodsStore/ExpiryManagement.jsx:84-87 | the four status counts add up to the number of items |
| Expiry.StatusCountsBounded | src/pages/FinishedGoodsStore/ExpiryManagement.jsx:83-90 | expired + critical + warning never exceeds the total |
| Locations.FirstWithCode | src/pages/FinishedGoodsStore/LocationManagement.jsx:72 | `find` gives the first location with exactly the code, and none exactly when no location has it |
| Locations.AttributedTo | src/pages/FinishedGoodsStore/LocationManagement.jsx:71-77 | a location's items are at most the inventory |
| Locations.AttributedMatch | src/pages/FinishedGoodsStore/LocationManagement.jsx:71-77 | every item attributed to a location is in the inventory and has that location as the first with its code |
| Locations.AttributedOnce | src/pages/FinishedGoodsStore/LocationManagement.jsx:71-77 | no item is attributed to two locations |
| Locations.Matched | src/pages/FinishedGoodsStore/LocationManagement.jsx:71-77 | the matched items are at most the inventory |
| Locations.AttributedSnoc | src/pages/FinishedGoodsStore/LocationManagement.jsx:71-77 | attributing one more item extends exactly the list of the location it goes to |
| Locations.FindByCode | src/pages/FinishedGoodsStore/LocationManagement.jsx:72 | the search over the location array finds the first location with the code |
| Locations.AttributeItem | src/pages/FinishedGoodsStore/LocationManagement.jsx:72-76 | one item is pushed onto its first matching location, and that count goes up by one; no other location and no code changes |
| Locations.Attribute | src/pages/FinishedGoodsStore/LocationManagement.jsx:71-77 | after the loop every location holds exactly its attributed items, in order, and its count is their number |
| Locations.Utilization | src/pages/FinishedGoodsStore/LocationManagement.jsx:80-87 | with a capacity, the rounded percentage of count over capacity, rounding halves up; without one, 100 if the location has items, else 0 |
| Locations.UtilizationBounds | src/pages/FinishedGoodsStore/LocationManagement.jsx:80-87 | an empty location is at 0%, one at or over capacity at 100% or more, one within capacity at most 100% |
| Locations.UtilizationMonotone | src/pages/FinishedGoodsStore/LocationManagement.jsx:80-87 | more items never lower a location's utilisation |
| Locations.SetUtilization | src/pages/FinishedGoodsStore/LocationManagement.jsx:80-87 | each location's utilisation is set from its count and capacity, and nothing else changes |
| Locations.StatsOf | src/pages/FinishedGoodsStore/LocationManagement.jsx:92-105 | the stats count all locations, the full and empty counts are bounded by it, and overall utilisation is 0 without capacity |
| Locations.FullAndEmptyDisjoint | src/pages/FinishedGoodsStore/LocationManagement.jsx:95-96 | no location is both full and empty, so full plus empty is at most the location count |
| Locations.UsedCapacityIsMatched | src/pages/FinishedGoodsStore/LocationManagement.jsx:94 | the used capacity is the number of matched items, and at most the inventory size |
| Locations.LoadData | src/pages/FinishedGoodsStore/LocationManagement.jsx:64-105 | every location ends with its attributed items, count and utilisation; the stats are those of the locations, used capacity is at most the inventory, and full plus empty is at most the total |
| Locations.UtilizationColour | src/pages/FinishedGoodsStore/LocationManagement.jsx:114-119 | red from 90, orange from 75, yellow from 50, else green; each holds in both directions |
| Locations.ColourMonotone | src/pages/FinishedGoodsStore/LocationManagement.jsx:114-119 | a higher percentage never shows a cooler colour |

## Left out

- Firebase I/O: reads become the state of the classes, and writes become ordered logs of written values. The database's own refusal of a value (for example NaN) is not modelled; every write succeeds.
- Concurrency and atomicity: operations are sequential and single-client. Read-then-write races between clients are not modelled.
- The signed-in user (`auth.currentUser`, `useAuth`) and the clock (`Date.now()`) are parameters.
- `JSON.parse`, `Number(text)`, `String(value)` as a property key, and `parseInt`/`parseFloat` are parameters. Prices and the quantities of approval, upload and stock are `real`, with NaN as its own value; the dispatch modal's quantities are integers (next line). IEEE rounding and Infinity are not modelled.
- `Math.round` is modelled as exact rounding half up of the rational count/capacity. `parseInt(capacity) || 0` is a `nat` capacity.
- Dates: parsing of date text, `setHours` and `Math.ceil` of the millisecond difference are not modelled. Days to expiry are `dayOf(expiryDate) - today` with `dayOf` a parameter. The price-history date inputs are parsed by a parameter `dateOf` that returns None for an invalid date. The upload's expiry check accepts any `YYYY-MM-DD` text with month 1 to 12 and day 1 to 31, which is how V8 (Chrome, Node) parses such text; engines that reject a day past the month's end (such as "2025-02-30") are not modelled.
- Case mapping (`toUpperCase`, `toLowerCase`) is ASCII-only. Trimming follows `String.prototype.trim`: it strips ECMAScript's WhiteSpace and LineTerminator characters (TAB, VT, FF, space, NBSP, U+1680, U+2000 to U+200A, U+202F, U+205F, U+3000, U+FEFF, LF, CR, U+2028, U+2029). The default string sort compares characters rather than UTF-16 code units.
- `Object.entries`, `Object.values` and `Map` iteration order is the order of the modelled sequences. Stored requests and users are lists of (key, value) pairs in database order.
- `fgPricingService.calculatePriceChange`, the inventory and pricing services called on save, and the dispatch service are not part of this model. Their results are parameters (`priceChange`, `accepts`), and the dispatch call is the returned payload.
- Dispatch.RequestItem: the approved `qty` is an integer. A request item whose `qty` is missing (an items mapping keyed by `quantity`, or holding bare numbers) enters the modal as `qty` 0, which reproduces the source's silent skip (`Dispatch.NonPositiveQuantitySkipped`). A fractional approved `qty` (possible from `Number(quantity)`) is not modelled; it could never equal a sum of `parseInt` batch quantities.
- PriceHistory.ProductNames: a record without a product name is read as having the name "", so it and a record named "" count as one product, where `new Set(...)` counts undefined and "" as two.
- PriceHistory.SummaryOf: prices are `real` with a missing price read as 0. The average passes the stored prices to `calculatePriceChange`, where the page passes a missing price as undefined.
- Release-code generation on save uses `Math.random` and the current date, and is left out. The read of an existing inventory record on save does not change the call made, and is left out.
- Excel import and export, the template download, `FileReader`, and all rendering and colour classes other than the utilisation bands are left out.
- `toggleBatchSelector`, `getSelectedQuantityForBatch` and `getAvailableQuantity` in the dispatch modal are display helpers and are left out.
- `handleViewProductAnalytics` calls a pricing service that is not part of this model.
- The search and status filter of the location page (`filteredLocations`) is left out.
- `getShowroomById` is folded into update and delete as their not-found case. `assignManagerToShowroom` is an update whose changes carry only a manager. `getShowroomStats` is a count over `getShowroomStaff` and is left out.
- Approval.ItemQuantity: the contract states only when the read fails. The order `qty`, then `quantity`, then the number itself, then 0 is stated by its definition and is used through `SumQuantities` and `StoredTotalIsSum`.
- Error messages are modelled as datatype constructors rather than text. Console logging is left out.
