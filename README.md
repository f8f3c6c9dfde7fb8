# salasa5 marketplace core in Dafny

salasa5 is a B2B marketplace that brings together suppliers, merchants and shipping companies. Its server is a Flask API over SQLAlchemy tables. Its clients are several React front ends, which keep most of their state in the browser's `localStorage`.

This project models the parts of the system that hold business rules, and proves what those rules promise.

**Server routes**
- `AuthGate`: the role gate shared by the three route files.
- `MerchantRoutes`: accepting quotations, direct purchase orders, payments and favourite suppliers.
- `ShippingRoutes`: shipments, tracking timelines, public tracking and shipping quotes.
- `SupplierRoutes`: quotations, product updates, status updates, merchant creation, the inventory report and the settings upsert.
- `BackendModels`: the status values these routes use.
- `JsonText`: Python's `json.dumps` and `json.loads` as the supplier's settings use them. Values are `None`, booleans, integers, strings, lists and objects; keys of an object are kept in insertion order.

Each route is a method of a store class. The store's fields are the tables the route reads and writes, and the method returns the HTTP status code and the data the route sends back.

**Browser stores**
- `LocalStorage`: the `storage` object. The browser store is a map from key to stored value.
- `MarketplaceStore`: the marketplace manager, covering offers, requests, responses, search, recommendations and stats.

**Pages and components**
- The merchant dashboard (`MerchantDashboard`) and the supplier dashboard (`SupplierDashboard`), with the partner handlers both share (`Partners`).
- The notification panel (`Notifications`).
- The supplier's order wizard (`SupplierOrderModal`) and partner wizard (`AddPartnerModal`).
- The exhibition gallery (`ExhibitionGallery`).
- Market opportunities (`MarketOpportunities`).
- The supplier's order management page (`SupplierOrders`).
- The shipping company's shipments page (`ShippingShipments`).
- The team window (`TeamModal`).
- The supplier's partners page (`SupplierMerchants`).
- The shared marketplace page (`MarketplacePage`).

A component whose handlers replace its state is a class with that state as fields, and each handler is a method. The filters, sorts, counters and validators are functions, and lemmas state their properties.

`Common` holds the shared pieces:
- JavaScript's `x || fallback`;
- `trim` and `split()`;
- the e-mail pattern;
- case-insensitive `includes`;
- `filter`, `findIndex`, counts and sums;
- `new Set`;
- a sort proved to give an ordered permutation.

Money is `real`, so VAT and discounts are exact. Generated ids, clocks, the API's answers and the answers to confirmation dialogs are parameters.

## Model

| member | source | states |
|---|---|---|
| AuthGate.RequireRole | business-platform-api/src/routes/merchant.py:11-43 | A session of the expected type decides alone (404 without a profile); otherwise 401 exactly when the header is missing, not `Bearer <token>` or the token does not decode, 403 exactly when the token names another role, 404 when the user or profile is missing, and a granted caller's profile is the user's profile for that role |
| AuthGate.BlankHeaderCrashes | business-platform-api/src/routes/merchant.py:21-26 | As written, a header made only of white space passes the emptiness test and `parts[0]` raises: the request is answered 500, not 401 |
| AuthGate.AsWrittenAgreesOffBlankHeaders | business-platform-api/src/routes/merchant.py:20-43 | The gate as written and the corrected gate give the same answer on every request whose header is absent, empty or not blank |
| AuthGate.WellFormedHeader | business-platform-api/src/routes/merchant.py:25-29 | `Bearer <token>` yields the token for every non-empty token without white space |
| AuthGate.WrongRoleTokenIsForbidden | business-platform-api/src/routes/merchant.py:33-37 | A valid token whose `type` claim is another role is refused with 403 unless the session already admits the caller |
| AuthGate.RightRoleTokenIsGranted | business-platform-api/src/routes/merchant.py:29-43 | A valid token of the right role for a user owning a profile of that role admits exactly that profile |
| AuthGate.RequireMerchant | business-platform-api/src/routes/merchant.py:11-43 | A granted merchant is some user's merchant profile; 403 never happens to a caller whose session is a merchant session |
| AuthGate.RequireSupplier | business-platform-api/src/routes/supplier.py:11-43 | The same for the supplier gate |
| AuthGate.RequireShippingCompany | business-platform-api/src/routes/shipping.py:26-55 | The same for the shipping-company gate |
| BackendModels.ShipmentCodesDistinct | business-platform-api/src/models/shipping.py:101 | Two shipment statuses are stored as the same string iff they are the same status, so the milestone tests on the stored string pick out exactly `confirmed`, `picked_up` and `delivered` |
| BackendModels.QuotationCodesDistinct | business-platform-api/src/models/supplier.py:132 | Two quotation statuses are stored as the same string iff they are the same status, so the test on the stored string in accept_quotation picks out exactly `sent` |
| MerchantRoutes.CopiedItemsKeepTotals | business-platform-api/src/routes/merchant.py:515-526 | Accepting a quotation copies its lines one for one (product, name, quantity, prices), so the order lines add up to the quotation lines' total |
| MerchantRoutes.AcceptedOrderIsConsistent | business-platform-api/src/routes/merchant.py:497-526 | A quotation whose total is the sum of its lines yields a purchase order whose total is the sum of its order lines |
| MerchantRoutes.AcceptIsOnce | business-platform-api/src/routes/merchant.py:490-491 | Once a quotation is accepted, accepting it again answers 400 |
| MerchantRoutes.OnlySentIsAccepted | business-platform-api/src/routes/merchant.py:490-491 | Of all the statuses a quotation of the merchant can hold, exactly `sent` is accepted; every other one answers 400 |
| MerchantRoutes.ComputeDirectTotal | business-platform-api/src/routes/merchant.py:600-605 | The loop's total is the sum over the request lines of quantity times unit price, a missing key counting as 0 |
| MerchantRoutes.DirectTotalMatchesLines | business-platform-api/src/routes/merchant.py:600-634 | The order's total equals the sum of the stored line totals |
| MerchantRoutes.MissingQuantityLine | business-platform-api/src/routes/merchant.py:602-631 | A line sent without a quantity is stored with quantity 1 but contributes 0 to its line total and to the order total |
| MerchantRoutes.NextPaymentStatus | business-platform-api/src/routes/merchant.py:743-746 | The order becomes `paid` iff the paid amount reaches the total, `partial` iff it is positive and short of it, and otherwise keeps its status |
| MerchantRoutes.PendingPaymentNotCounted | business-platform-api/src/routes/merchant.py:723-741 | A payment recorded by the route is `pending`, so it never counts in the completed sum a later payment reads |
| MerchantRoutes.PaymentCodeAsWritten | business-platform-api/src/routes/merchant.py:736-758 | The handler answers 500 exactly when it would otherwise answer 201 and the order's completed payments add up to a non-zero sum (a `Decimal` plus a `float` raises); otherwise the code of `PaymentCode` |
| MerchantRoutes.PaidOrderAnswers500 | business-platform-api/src/routes/merchant.py:736-758 | For an order of this merchant with one completed payment, a further payment answers 500 as written, while the corrected handler answers 201 |
| MerchantRoutes.CompletedInstallmentsAccumulate | business-platform-api/src/routes/merchant.py:736-746 | With completed payments counted as intended, a first completed payment plus a second one that covers the rest of the total make the order `paid` |
| MerchantRoutes.InstallmentsDoNotAccumulate | business-platform-api/src/routes/merchant.py:736-746 | Two installments that each fall short leave the order `partial` even when together they cover the total |
| MerchantRoutes.RemoveUndoesAdd | business-platform-api/src/routes/merchant.py:280-313 | Removing the favourite just added gives back the previous favourites |
| MerchantRoutes.RemovedIsGone | business-platform-api/src/routes/merchant.py:305-313 | After removal the pair is no longer a favourite |
| MerchantRoutes.UniqueAfterFilter | business-platform-api/src/routes/merchant.py:305-313 | Removing a pair keeps the (merchant, supplier) uniqueness of the favourites table |
| MerchantRoutes.MerchantStore.constructor | business-platform-api/src/routes/merchant.py:9 | The store starts with the given quotations, suppliers and products and no orders, items, payments or favourites |
| MerchantRoutes.MerchantStore.AcceptQuotation | business-platform-api/src/routes/merchant.py:475-541 | 404 for a quotation not of this merchant, 400 unless it is `sent`, 500 for a requested delivery date `strptime` rejects; on 201 the order carries the quotation's supplier, total and currency, its lines are the copied lines, the quotation turns `accepted` with `updated_at` set to the current time, and nothing changes on failure |
| MerchantRoutes.MerchantStore.CreatePurchaseOrderDirect | business-platform-api/src/routes/merchant.py:581-646 | 400 iff `supplier_id` or `items` is missing or `items` is not a non-empty list; 500 iff the request passes those checks but its delivery date does not parse or a line names a missing product; 201 iff neither, and then the order total is the sum of the line totals and the lines are stored in request order; nothing is written unless 201 |
| MerchantRoutes.MerchantStore.CreatePayment | business-platform-api/src/routes/merchant.py:698-759 | As written: 400 for a missing field, 404 for an order not of this merchant, 500 with nothing written once the order has a completed payment; on 201 a `pending` payment is appended and the order's payment status is the one computed from this amount |
| MerchantRoutes.MerchantStore.AddFavoriteSupplier | business-platform-api/src/routes/merchant.py:257-296 | 404 for an unknown supplier, 400 for an existing favourite, 201 iff the supplier exists and is not yet a favourite, in which case the pair is appended; the table stays unique |
| MerchantRoutes.MerchantStore.RemoveFavoriteSupplier | business-platform-api/src/routes/merchant.py:298-321 | 200 iff the pair was a favourite (else 404), the pair's row is removed and it is no longer a favourite |
| ShippingRoutes.TrackingNumberShape | business-platform-api/src/routes/shipping.py:150 | A tracking number is 18 characters: `SH`, eight digits that read back as the creation date, and eight upper-case hexadecimal digits taken from the UUID |
| ShippingRoutes.LookupCode | business-platform-api/src/routes/shipping.py:137-195 | Corrected lookup: 404 exactly for an unknown id (or a handler's own 404), otherwise the handler's code |
| ShippingRoutes.LookupCodeAsWritten | business-platform-api/src/routes/shipping.py:192-219 | As written: 500 exactly for an unknown id (the caught `NotFound`) or a handler's own 500, otherwise the handler's code |
| ShippingRoutes.UnknownIdAnswers500 | business-platform-api/src/routes/shipping.py:192-219 | As written, `get_or_404` raises inside the handler's `try`, so an unknown id gets 500; the two lookups differ exactly there |
| ShippingRoutes.HistoryViews | business-platform-api/src/routes/shipping.py:139-410 | The public and the detailed history hold exactly the shipment's events, oldest first and newest first respectively |
| ShippingRoutes.AppendOnlyTimeline | business-platform-api/src/routes/shipping.py:176-233 | Appending an event extends that shipment's history by it and leaves every other shipment's history unchanged |
| ShippingRoutes.StatusUpdateEffect | business-platform-api/src/routes/shipping.py:195-205 | Any status is accepted without a transition check; `confirmed`, `picked_up` and `delivered` stamp their own milestone only, and nothing but status, milestones and `updated_at` changes |
| ShippingRoutes.MilestonesOfEnumeration | business-platform-api/src/routes/shipping.py:199-204 | For every status of the schema's enumeration, `confirmed`, `picked_up` and `delivered` each stamp their own milestone with the current time, and every other status leaves all three milestones as they were |
| ShippingRoutes.OneMilestonePerUpdate | business-platform-api/src/routes/shipping.py:199-204 | A single update stamps at most one milestone |
| ShippingRoutes.ShippingStore.constructor | business-platform-api/src/seed_merchant_data.py:279-316 | The store starts from the given shipments, tracking events and shipping quotes, each row keyed by its id and the tracking numbers distinct |
| ShippingRoutes.ShippingStore.CreateShipment | business-platform-api/src/routes/shipping.py:146-188 | 201 iff every required key is present, the pickup date and any delivery date parse, and the tracking number is unused; then a `pending` row with that number and one creation event are added; otherwise 500 and nothing is written |
| ShippingRoutes.ShippingStore.UpdateShipmentStatus | business-platform-api/src/routes/shipping.py:191-218 | 200 for a known id with a status: the row gets the status and milestone, one event with that status is appended; an unknown id or a missing status answers 500 as the handler's `except` does, and nothing changes on failure |
| ShippingRoutes.ShippingStore.AddTrackingUpdate | business-platform-api/src/routes/shipping.py:221-240 | 201 iff status and description are present, appending one event without looking the shipment up and without touching any row |
| ShippingRoutes.ShippingStore.TrackShipment | business-platform-api/src/routes/shipping.py:403-422 | 404 iff no shipment has that tracking number; otherwise that shipment's status and dates with its history oldest first |
| ShippingRoutes.ShippingStore.GetShipment | business-platform-api/src/routes/shipping.py:134-143 | The row with its history newest first; an unknown id answers 500, since the handler's `except` catches the not-found error |
| ShippingRoutes.ShippingStore.SendShippingQuote | business-platform-api/src/routes/shipping.py:294-304 | A known quote becomes `sent` with `sent_at` stamped and nothing else changes; an unknown quote answers 500 with nothing written |
| ShippingRoutes.ShippingStore.RespondToQuote | business-platform-api/src/routes/shipping.py:307-322 | A known quote takes the given status and `responded_at`; `notes` changes only when the key is present; an unknown quote or a missing status is 500 with nothing written |
| SupplierRoutes.StoredLines | business-platform-api/src/routes/supplier.py:275-286 | One stored line per request line, in order |
| SupplierRoutes.QuotationTotal | business-platform-api/src/routes/supplier.py:257-260 | The loop's total is the sum of the stored line totals |
| SupplierRoutes.StoredLineTotals | business-platform-api/src/routes/supplier.py:277-284 | Each stored line keeps the request's product, name, quantity and unit price, and its total is quantity times unit price |
| SupplierRoutes.PatchChangesOnlyGivenKeys | business-platform-api/src/routes/supplier.py:159-178 | Each of the nine product columns (name, description, category, price, stock, minimum order, unit, images, active flag) takes the sent value when its key is in the payload and keeps its value otherwise; id and owner never change and `updated_at` is stamped |
| SupplierRoutes.EmptyPatchTouchesOnlyTimestamp | business-platform-api/src/routes/supplier.py:159-180 | An empty payload only moves `updated_at` |
| SupplierRoutes.PatchIdempotent | business-platform-api/src/routes/supplier.py:159-180 | Sending the same payload twice equals sending it once (at the later time) |
| SupplierRoutes.StatusUpdateCode | business-platform-api/src/routes/supplier.py:308-372 | 200 iff the row is the supplier's and a status is sent, 404 iff the row is missing or another supplier's, 400 otherwise; any status value is taken |
| SupplierRoutes.GenerateReport | business-platform-api/src/routes/supplier.py:682-730 | The report the handler is meant to create (as written it creates none, see `GenerateReportCodeAsWritten`): 400 iff `report_type` or `title` is missing; otherwise 500 iff `date_from` or `date_to` does not parse. The report keeps the sent type, title and dates. `sales` holds the number of orders and the sum of their amounts. `inventory` holds the number of products, the count with stock below 10 and the count with stock 0, with out ≤ low ≤ total. Any other type stores empty data |
| SupplierRoutes.GenerateReportCodeAsWritten | business-platform-api/src/routes/supplier.py:682-730 | As written the handler answers 400 iff `report_type` or `title` is missing and never 201: the supplier `Report` model has none of the columns the handler passes |
| SupplierRoutes.ReportNeverCreated | business-platform-api/src/routes/supplier.py:717-730 | The handler as written and the intended report agree on the 400; every request the intended handler answers with a report gets 500 as written |
| SupplierRoutes.InventoryCountsNest | business-platform-api/src/routes/supplier.py:706-710 | Out-of-stock count ≤ low-stock count ≤ product count |
| SupplierRoutes.NewProductCountsInBoth | business-platform-api/src/routes/supplier.py:708-709 | Adding a product with stock 0 raises both the low-stock and the out-of-stock count by one |
| SupplierRoutes.NewOrderInSales | business-platform-api/src/routes/supplier.py:699-705 | One more order raises the sales revenue by exactly that order's amount |
| SupplierRoutes.NonStringRoundTrip | business-platform-api/src/routes/supplier.py:752-781 | A non-string setting value reads back as the value stored. This covers null, booleans, integers, lists and objects, nested to any depth |
| SupplierRoutes.StringRoundTrip | business-platform-api/src/routes/supplier.py:752-781 | A string reads back as itself exactly when it is non-empty and `json.loads` raises on it. `"true"` reads back as a boolean and `""` as null |
| SupplierRoutes.UpsertAll | business-platform-api/src/routes/supplier.py:771-782 | No setting is lost, and every key of the sent object is present for the user afterwards |
| SupplierRoutes.UpsertAllEffect | business-platform-api/src/routes/supplier.py:771-782 | Every sent key holds its value's stored text; every other setting, including other users', is unchanged |
| SupplierRoutes.SettingsReadBack | business-platform-api/src/routes/supplier.py:752-781 | After an update, every non-string value of the sent object reads back for that user and key exactly as it was sent |
| SupplierRoutes.SupplierStore.constructor | business-platform-api/src/routes/supplier.py:9 | The store starts with the given products, quotations and orders and no users, merchants or settings |
| SupplierRoutes.SupplierStore.CreateQuotation | business-platform-api/src/routes/supplier.py:240-299 | 400 for a missing title or items, 500 for a line missing a key the handler indexes or a `valid_until` that does not parse; on 201 a `draft` quotation whose total is the sum of its stored lines |
| SupplierRoutes.SupplierStore.UpdateProduct | business-platform-api/src/routes/supplier.py:146-188 | 404 unless the product is the supplier's; on 200 the product becomes the patched row and no other product changes |
| SupplierRoutes.SupplierStore.UpdateQuotationStatus | business-platform-api/src/routes/supplier.py:301-327 | The status code of `StatusUpdateCode`; on 200 only that quotation changes: its status becomes the value sent and `updated_at` the current time |
| SupplierRoutes.SupplierStore.UpdateOrderStatus | business-platform-api/src/routes/supplier.py:359-385 | The same for a supplier order, `updated_at` included |
| SupplierRoutes.SupplierStore.CreateMerchant | business-platform-api/src/routes/supplier.py:425-472 | 400 without a truthy `store_name`, 409 for a given e-mail already in use, 201 iff the store name is truthy and the address used (given or placeholder) is free, adding an active merchant user and its profile; e-mails stay unique |
| SupplierRoutes.SupplierStore.UpdateSettings | business-platform-api/src/routes/supplier.py:763-792 | 401 without a session user. 500 with nothing written when the body is not a JSON object. Otherwise 200, with each member of the object upserted in turn |
| JsonText.LoadsDumps | business-platform-api/src/routes/supplier.py:752-779 | `json.loads(json.dumps(v))` is `v` for every value whose objects have distinct keys |
| JsonText.DumpsParses | business-platform-api/src/routes/supplier.py:752-779 | The scanner reads the text of a value back as that value when a `,`, `]`, `}` or the end of the text follows it. The read is exact, and what follows is left unread |
| JsonText.StringParses | business-platform-api/src/routes/supplier.py:752-779 | The escaped text of a string and its closing quote read back as the string |
| JsonText.EscapeParses | business-platform-api/src/routes/supplier.py:774-779 | Every character's escape reads back as that character. This holds for the short escapes, printable ASCII, `\uXXXX`, and surrogate pairs above the Basic Multilingual Plane |
| JsonText.Hex4RoundTrip | business-platform-api/src/routes/supplier.py:774-779 | The four lower-case hexadecimal digits of a code unit read back as it |
| JsonText.SurrogatesJoin | business-platform-api/src/routes/supplier.py:774-779 | A code point above the Basic Multilingual Plane splits into a high and a low surrogate that join back into it |
| JsonText.NumberParses | business-platform-api/src/routes/supplier.py:752-779 | The decimal text of an integer, negative ones included, reads back as that integer |
| JsonText.DictDistinct | business-platform-api/src/routes/supplier.py:752-753 | Members with distinct keys build the object in the order written |
| JsonText.LoadsSpaced | business-platform-api/src/routes/supplier.py:752-753 | White space around a value is skipped |
| JsonText.LoadsTrue | business-platform-api/src/routes/supplier.py:752-753 | The text `true` reads as the boolean true |
| JsonText.LoadsFloat | business-platform-api/src/routes/supplier.py:752-753 | `1.5` is read as a float, which is outside the model's values |
| JsonText.LoadsTrailingComma | business-platform-api/src/routes/supplier.py:752-753 | `[1,]` raises |
| JsonText.LoadsRepeatedKey | business-platform-api/src/routes/supplier.py:752-753 | Of a repeated key, the last value wins, at the place of the first occurrence |
| LocalStorage.Stamp | frontend/src/utils/localStorage.ts:156-160 | The new record carries the generated id and timestamp and every other given field unchanged |
| LocalStorage.UpdateByIdSpec | frontend/src/utils/localStorage.ts:173-181 | `null` exactly when no record has the id; otherwise only the first record with the id changes, taking every updated field and keeping its other fields |
| LocalStorage.DeleteByIdSpec | frontend/src/utils/localStorage.ts:183-188 | Exactly the records without the id remain, and the result is true exactly when a record had the id |
| LocalStorage.NormalizeLabel | frontend/src/utils/localStorage.ts:368-376 | Only the three Arabic partner labels change, each to its code |
| LocalStorage.NormalizeAll | frontend/src/utils/localStorage.ts:377 | One partner out per partner in |
| LocalStorage.NormalizeIdempotent | frontend/src/utils/localStorage.ts:366-381 | Normalising twice equals normalising once |
| LocalStorage.NormalizeTouchesOnlyLabels | frontend/src/utils/localStorage.ts:377-381 | Normalising keeps every record's keys and every field but `type`; a list without Arabic labels comes back unchanged (so nothing is written) |
| LocalStorage.GetStats | frontend/src/utils/localStorage.ts:416-444 | Each sub-count is at most its total; total revenue is the sum of order amounts, and with non-negative amounts today's revenue is at most the total |
| LocalStorage.PartRevenueAtMost | frontend/src/utils/localStorage.ts:441-442 | The revenue of any subset of non-negative orders is at most the total revenue |
| LocalStorage.StampAll | frontend/src/utils/localStorage.ts:475-501 | Seeding appends each sample stamped with its own id, one for one |
| LocalStorage.Storage.constructor | frontend/src/utils/localStorage.ts:147 | The store holds the given browser storage |
| LocalStorage.Storage.AddRecord | frontend/src/utils/localStorage.ts:154-171 | Throws (and writes nothing) iff the stored text does not parse; otherwise the stamped record is appended and every other key is unchanged |
| LocalStorage.Storage.UpdateRecord | frontend/src/utils/localStorage.ts:173-181 | Throws iff the text does not parse, `null` iff no record has the id (no write); otherwise the merged record replaces the first match |
| LocalStorage.Storage.DeleteRecord | frontend/src/utils/localStorage.ts:183-188 | The filtered array is always written back and the result says whether a record was dropped |
| LocalStorage.Storage.GetPartners | frontend/src/utils/localStorage.ts:362-386 | Missing, empty or unreadable data reads as `[]`; the normalised list is returned and written back only when normalising changed it |
| LocalStorage.Storage.AddPartner | frontend/src/utils/localStorage.ts:388-398 | The stamped partner is appended to what `getPartners` returns and written back |
| LocalStorage.Storage.DeletePartner | frontend/src/utils/localStorage.ts:400-405 | The partners without the id are written back, and the result is true iff one had it |
| LocalStorage.Storage.ClearAll | frontend/src/utils/localStorage.ts:350-359 | Exactly the application's eight keys are removed; every other key stays |
| LocalStorage.Storage.SeedData | frontend/src/utils/localStorage.ts:449-505 | Samples go only into an empty products or orders list; a products text that does not parse throws before any write, an orders text after the products were seeded; when neither throws the market keys are reseeded with the given fixtures; every other key keeps its value |
| LocalStorage.Reseeded | frontend/src/utils/localStorage.ts:509-818 | After a reseed the three market keys read back as exactly the fixtures, whatever they held, and every other key is unchanged |
| LocalStorage.ReseedForgetsMarket | frontend/src/utils/localStorage.ts:405-411 | Removing the market keys before reseeding changes nothing, so `resetMarketData` is a reseed; reseeding twice equals reseeding once |
| LocalStorage.Storage.SeedMarketData | frontend/src/utils/localStorage.ts:509-818 | The three market keys removed and filled one fixture at a time; the new store is `Reseeded` of the old |
| LocalStorage.Storage.ResetMarketData | frontend/src/utils/localStorage.ts:405-411 | The new store is `Reseeded` of the old |
| LocalStorage.SecondGetPartnersWritesNothing | frontend/src/utils/localStorage.ts:378-381 | After one `getPartners` wrote back, a second reads the same list and writes nothing |
| LocalStorage.AddPartnerOverGarbledData | frontend/src/utils/localStorage.ts:362-398 | When the stored partners do not parse, `addPartner` leaves only the new partner: the old text is lost |
| MarketplaceStore.OffersMatchingSpec | business-platform/backup/frontend-2025-10-04_12-27-42/src/utils/marketplaceManager.ts:40-62 | An offer is returned iff it is stored and meets every given criterion: category, inclusive price range, location, minimum rating, verified flag, quality, response time and every required certification |
| MarketplaceStore.NoCriteriaKeepsAllOffers | business-platform/backup/frontend-2025-10-04_12-27-42/src/utils/marketplaceManager.ts:40-62 | Filters naming no criterion return every stored offer, in order |
| MarketplaceStore.BudgetOverlap | business-platform/backup/frontend-2025-10-04_12-27-42/src/utils/marketplaceManager.ts:119 | The budget test keeps exactly the requests whose budget interval shares a price with the filter's interval |
| MarketplaceStore.RequestsMatchingSpec | business-platform/backup/frontend-2025-10-04_12-27-42/src/utils/marketplaceManager.ts:108-129 | A request is returned iff it is stored and passes every given criterion; under a budget criterion its budget overlaps the filter's |
| MarketplaceStore.ServicesMatchingSpec | business-platform/backup/frontend-2025-10-04_12-27-42/src/utils/marketplaceManager.ts:182-207 | A service is returned iff it is stored and passes every criterion; a same-day criterion keeps only same-day services and a coverage criterion only services covering the area |
| MarketplaceStore.NewOffer | business-platform/backup/frontend-2025-10-04_12-27-42/src/utils/marketplaceManager.ts:16-30 | The stored offer is the draft with a fresh id, both timestamps set to now and zero counters with satisfaction 5 |
| MarketplaceStore.NewRequest | business-platform/backup/frontend-2025-10-04_12-27-42/src/utils/marketplaceManager.ts:85-99 | A new request has the fresh id, no received offers and zero counters, so its counters agree with its offers |
| MarketplaceStore.NewService | business-platform/backup/frontend-2025-10-04_12-27-42/src/utils/marketplaceManager.ts:159-172 | A new service has the fresh id and the default stats (0 deliveries, 95 on time, 4.8, "2-3 أيام") |
| MarketplaceStore.MergeOffer | business-platform/backup/frontend-2025-10-04_12-27-42/src/utils/marketplaceManager.ts:71-75 | The merged offer is always stamped with the merge time, whatever `updatedAt` the update carries |
| MarketplaceStore.MergeOfferSpec | business-platform/backup/frontend-2025-10-04_12-27-42/src/utils/marketplaceManager.ts:71-75 | Every key the update carries (any key of an offer, id and supplier included) takes the given value, and every key it leaves out keeps the offer's value |
| MarketplaceStore.EmptyOfferPatch | business-platform/backup/frontend-2025-10-04_12-27-42/src/utils/marketplaceManager.ts:71-75 | An update with no keys only moves `updatedAt` |
| MarketplaceStore.MergeOfferIdempotent | business-platform/backup/frontend-2025-10-04_12-27-42/src/utils/marketplaceManager.ts:71-75 | Applying the same update twice equals applying it once |
| MarketplaceStore.WithResponse | business-platform/backup/frontend-2025-10-04_12-27-42/src/utils/marketplaceManager.ts:145-150 | The response is appended, the offer counter goes up by one and the average is the mean price over all received offers; nothing else changes |
| MarketplaceStore.WithResponseKeepsStats | business-platform/backup/frontend-2025-10-04_12-27-42/src/utils/marketplaceManager.ts:145-150 | When a request's counters agree with its offers before a response they agree after it |
| MarketplaceStore.AverageWithinOfferedPrices | business-platform/backup/frontend-2025-10-04_12-27-42/src/utils/marketplaceManager.ts:149 | The average offer price lies between the lowest and the highest price offered |
| MarketplaceStore.SmartSearchSpec | business-platform/backup/frontend-2025-10-04_12-27-42/src/utils/marketplaceManager.ts:210-248 | Each result list holds exactly the stored items of its kind whose searched fields contain the query ignoring case, and is empty when the type selects another kind |
| MarketplaceStore.EmptySearchFindsAll | business-platform/backup/frontend-2025-10-04_12-27-42/src/utils/marketplaceManager.ts:210-248 | An empty query with no type returns everything stored |
| MarketplaceStore.ForSupplierSpec | business-platform/backup/frontend-2025-10-04_12-27-42/src/utils/marketplaceManager.ts:265-280 | Supplier recommendations are min(10, active requests) active requests ordered by largest budget, then earliest delivery date |
| MarketplaceStore.ForSupplierIsTop | business-platform/backup/frontend-2025-10-04_12-27-42/src/utils/marketplaceManager.ts:265-280 | Every active request left out ranks no higher than each one recommended |
| MarketplaceStore.ForMerchantSpec | business-platform/backup/frontend-2025-10-04_12-27-42/src/utils/marketplaceManager.ts:282-295 | Merchant recommendations are min(10, active offers) active offers ordered by best supplier rating, then lowest price |
| MarketplaceStore.ForMerchantIsTop | business-platform/backup/frontend-2025-10-04_12-27-42/src/utils/marketplaceManager.ts:282-295 | Every active offer left out ranks no higher than each one recommended |
| MarketplaceStore.AsRequestListings | business-platform/backup/frontend-2025-10-04_12-27-42/src/utils/marketplaceManager.ts:297-309 | One listing per request, in order |
| MarketplaceStore.AsOfferListings | business-platform/backup/frontend-2025-10-04_12-27-42/src/utils/marketplaceManager.ts:297-309 | One listing per offer, in order |
| MarketplaceStore.ForShippingSpec | business-platform/backup/frontend-2025-10-04_12-27-42/src/utils/marketplaceManager.ts:297-309 | Shipping recommendations are at most ten, each an active stored request or an active stored offer without shipping included |
| MarketplaceStore.Recommendations | business-platform/backup/frontend-2025-10-04_12-27-42/src/utils/marketplaceManager.ts:251-263 | At most ten recommendations, and none for an unknown user type |
| MarketplaceStore.ListedIffInAll | business-platform/backup/frontend-2025-10-04_12-27-42/src/utils/marketplaceManager.ts:317-320 | A category is in the de-duplicated list iff some offer or request carries it |
| MarketplaceStore.StatsCategories | business-platform/backup/frontend-2025-10-04_12-27-42/src/utils/marketplaceManager.ts:312-346 | The totals are the three list lengths; the category rows are pairwise distinct and name exactly the categories some offer or request carries |
| MarketplaceStore.StatsRows | business-platform/backup/frontend-2025-10-04_12-27-42/src/utils/marketplaceManager.ts:322-332 | Every category row counts at least one offer or request, and a row without offers has average price 0 (the `|| 0` of the NaN) |
| MarketplaceStore.CategoryAverageWithinPrices | business-platform/backup/frontend-2025-10-04_12-27-42/src/utils/marketplaceManager.ts:330 | A category's average price lies between its cheapest and its dearest offer |
| MarketplaceStore.MarketplaceManager.constructor | business-platform/backup/frontend-2025-10-04_12-27-42/src/utils/marketplaceManager.ts:7-14 | A fresh manager has three empty lists whose counters agree |
| MarketplaceStore.MarketplaceManager.AddSupplierOffer | business-platform/backup/frontend-2025-10-04_12-27-42/src/utils/marketplaceManager.ts:16-38 | Exactly one offer, the new one, is appended; the other lists are unchanged |
| MarketplaceStore.MarketplaceManager.AddMerchantRequest | business-platform/backup/frontend-2025-10-04_12-27-42/src/utils/marketplaceManager.ts:85-106 | Exactly one request is appended and the counters keep agreeing with the offers |
| MarketplaceStore.MarketplaceManager.AddShippingService | business-platform/backup/frontend-2025-10-04_12-27-42/src/utils/marketplaceManager.ts:159-180 | Exactly one service, with the default stats, is appended |
| MarketplaceStore.MarketplaceManager.UpdateSupplierOffer | business-platform/backup/frontend-2025-10-04_12-27-42/src/utils/marketplaceManager.ts:65-81 | `null` and no write iff no offer has the id; otherwise only the first offer with the id is merged |
| MarketplaceStore.MarketplaceManager.AddSupplierResponse | business-platform/backup/frontend-2025-10-04_12-27-42/src/utils/marketplaceManager.ts:132-156 | `null` and no write iff no request has the id; otherwise only that request takes the response and the counters keep agreeing |
| MarketplaceStore.MarketplaceManager.ClearAllData | business-platform/backup/frontend-2025-10-04_12-27-42/src/utils/marketplaceManager.ts:365-369 | All three lists are emptied |
| ExhibitionGallery.NewExhibitionSpec | business-platform/backup/frontend-2025-10-04_12-27-42/src/components/supplier/ExhibitionGallery.tsx:120-195 | A created exhibition belongs to the supplier, has no items, categories or shares and is public unless the form chose a visibility; the automatic default one is private |
| ExhibitionGallery.EditWhere | business-platform/backup/frontend-2025-10-04_12-27-42/src/components/supplier/ExhibitionGallery.tsx:204-209 | One exhibition out per exhibition in |
| ExhibitionGallery.EditWhereFrame | business-platform/backup/frontend-2025-10-04_12-27-42/src/components/supplier/ExhibitionGallery.tsx:204-239 | Only the exhibitions with that id change, each by the same edit; the others are kept in place |
| ExhibitionGallery.MergeSpec | business-platform/backup/frontend-2025-10-04_12-27-42/src/components/supplier/ExhibitionGallery.tsx:204-209 | A merge sets each field the update gives (title, description, banner, theme, visibility, settings), keeps each field it leaves out, stamps `updatedAt`, and never touches id, owner, items, categories, statistics or creation time |
| ExhibitionGallery.AddItemSpec | business-platform/backup/frontend-2025-10-04_12-27-42/src/components/supplier/ExhibitionGallery.tsx:224-243 | Adding appends the item; the categories stay as they were when the item's category is already listed and gain it at the end otherwise |
| ExhibitionGallery.EditKeepsCategoriesDistinct | business-platform/backup/frontend-2025-10-04_12-27-42/src/components/supplier/ExhibitionGallery.tsx:235 | Every edit keeps each exhibition's category list free of duplicates |
| ExhibitionGallery.PatchItemSpec | business-platform/backup/frontend-2025-10-04_12-27-42/src/components/supplier/ExhibitionGallery.tsx:246-258 | Editing an item changes only the items with that id, field by field as given, keeping number and order of items |
| ExhibitionGallery.DropItemSpec | business-platform/backup/frontend-2025-10-04_12-27-42/src/components/supplier/ExhibitionGallery.tsx:261-273 | Deleting an item removes exactly the items with that id and keeps the rest |
| ExhibitionGallery.Toggled | business-platform/backup/frontend-2025-10-04_12-27-42/src/components/supplier/ExhibitionGallery.tsx:647 | The switch makes an exhibition public iff it was not public |
| ExhibitionGallery.ToggledTwice | business-platform/backup/frontend-2025-10-04_12-27-42/src/components/supplier/ExhibitionGallery.tsx:647-648 | Switching twice restores a public or private exhibition; a subscribers-only one ends up private |
| ExhibitionGallery.FinalPriceBounds | business-platform/backup/frontend-2025-10-04_12-27-42/src/components/supplier/ExhibitionGallery.tsx:285-287 | Without a discount the published price is the price; a discount in [0, 100] on a non-negative price gives a price between 0 and the price |
| ExhibitionGallery.Listings | business-platform/backup/frontend-2025-10-04_12-27-42/src/components/supplier/ExhibitionGallery.tsx:370-406 | One market item per exhibition item, in order |
| ExhibitionGallery.FilteredItemsSpec | business-platform/backup/frontend-2025-10-04_12-27-42/src/components/supplier/ExhibitionGallery.tsx:458-473 | The gallery's `getFilteredItems` helper, which no view calls, keeps an item iff it is in the exhibition, matches the search in its name, description or a tag (if any) and is in the chosen category (unless `all`). With neither, it keeps every item in order |
| ExhibitionGallery.ViewItemsSpec | business-platform/backup/frontend-2025-10-04_12-27-42/src/components/supplier/ExhibitionGallery.tsx:710-717 | The open exhibition draws an item iff it is in the exhibition, its name or description matches the search (if any) and it is in the chosen category (unless `all`). With neither, every item is drawn in order |
| ExhibitionGallery.ViewWithinHelper | business-platform/backup/frontend-2025-10-04_12-27-42/src/components/supplier/ExhibitionGallery.tsx:458-717 | Every item the view draws is kept by the unused helper too. An item that matches the search only through a tag is kept by the helper but not drawn |
| ExhibitionGallery.Gallery.constructor | business-platform/backup/frontend-2025-10-04_12-27-42/src/components/supplier/ExhibitionGallery.tsx:97-100 | A gallery starts with no exhibitions and an empty market |
| ExhibitionGallery.Gallery.Load | business-platform/backup/frontend-2025-10-04_12-27-42/src/components/supplier/ExhibitionGallery.tsx:103-117 | A stored non-empty list is loaded as it is; no key or an empty list yields the private default exhibition; afterwards there is at least one |
| ExhibitionGallery.Gallery.CreateExhibition | business-platform/backup/frontend-2025-10-04_12-27-42/src/components/supplier/ExhibitionGallery.tsx:163-201 | Refused (null, nothing written) iff an exhibition exists; otherwise the new exhibition is the only one |
| ExhibitionGallery.Gallery.UpdateExhibition | business-platform/backup/frontend-2025-10-04_12-27-42/src/components/supplier/ExhibitionGallery.tsx:204-212 | The given fields, settings included, are merged into the exhibitions with that id; the others are kept |
| ExhibitionGallery.Gallery.SaveSettings | business-platform/backup/frontend-2025-10-04_12-27-42/src/components/supplier/ExhibitionGallery.tsx:1316-1322 | The settings window's save merges exactly its settings and visibility into that exhibition |
| ExhibitionGallery.Gallery.ToggleVisibility | business-platform/backup/frontend-2025-10-04_12-27-42/src/components/supplier/ExhibitionGallery.tsx:645-649 | Exhibition k gets the toggled visibility through the update |
| ExhibitionGallery.Gallery.DeleteExhibition | business-platform/backup/frontend-2025-10-04_12-27-42/src/components/supplier/ExhibitionGallery.tsx:215-221 | Unconfirmed: nothing changes; confirmed: exactly the exhibitions with other ids remain |
| ExhibitionGallery.Gallery.AddItemToExhibition | business-platform/backup/frontend-2025-10-04_12-27-42/src/components/supplier/ExhibitionGallery.tsx:224-243 | The item, with its id, exhibition id and creation time, is added to the exhibitions with that id |
| ExhibitionGallery.Gallery.UpdateItem | business-platform/backup/frontend-2025-10-04_12-27-42/src/components/supplier/ExhibitionGallery.tsx:246-258 | The item edit is applied within the exhibitions with that id |
| ExhibitionGallery.Gallery.DeleteItem | business-platform/backup/frontend-2025-10-04_12-27-42/src/components/supplier/ExhibitionGallery.tsx:261-273 | Unconfirmed: nothing changes; confirmed: the item is dropped from the exhibitions with that id |
| ExhibitionGallery.Gallery.PublishItemToMarket | business-platform/backup/frontend-2025-10-04_12-27-42/src/components/supplier/ExhibitionGallery.tsx:276-345 | Publishes iff an exhibition has the id; then one market item at the discounted price, titled after that exhibition, is appended and its share count goes up by one; otherwise nothing changes |
| ExhibitionGallery.Gallery.PublishExhibitionToMarket | business-platform/backup/frontend-2025-10-04_12-27-42/src/components/supplier/ExhibitionGallery.tsx:348-431 | A missing or empty exhibition or a declined confirm publishes nothing; otherwise every item, in order, is appended to the market and the shares go up by their number |
| MarketOpportunities.OpportunitiesFor | business-platform/backup/frontend-2025-10-04_12-27-42/src/components/MarketOpportunities.tsx:43-184 | A known user type gets its list from the table; any other gets none |
| MarketOpportunities.Rank | business-platform/backup/frontend-2025-10-04_12-27-42/src/components/MarketOpportunities.tsx:309 | The priority ranks lie between 1 and 3 |
| MarketOpportunities.ShownSpec | business-platform/backup/frontend-2025-10-04_12-27-42/src/components/MarketOpportunities.tsx:288-324 | For every search and type, the panel holds each opportunity passing the search (title, description or a tag) and the type filter exactly as often as the list does, and no other, ordered by the chosen key from largest to smallest; the priority order puts every high before every medium before every low |
| MarketOpportunities.SearchedThenTyped | business-platform/backup/frontend-2025-10-04_12-27-42/src/components/MarketOpportunities.tsx:288-304 | Searching and then filtering by type keeps the list order and equals one filter by both tests |
| MarketOpportunities.FirstIsMostUrgent | business-platform/backup/frontend-2025-10-04_12-27-42/src/components/MarketOpportunities.tsx:306-310 | With no search, all types and the priority sort, the first opportunity shown has the highest priority of all |
| MarketOpportunities.StripCommas | business-platform/backup/frontend-2025-10-04_12-27-42/src/components/MarketOpportunities.tsx:312 | `replace(/,/g, '')` leaves no comma |
| MarketOpportunities.LeadingDigits | business-platform/backup/frontend-2025-10-04_12-27-42/src/components/MarketOpportunities.tsx:312 | The digit run `parseInt` reads stops at the first non-digit |
| MarketOpportunities.StripCommasAppend | business-platform/backup/frontend-2025-10-04_12-27-42/src/components/MarketOpportunities.tsx:312 | Stripping commas commutes with prefixing comma-free text |
| MarketOpportunities.LeadingDigitsOfNumber | business-platform/backup/frontend-2025-10-04_12-27-42/src/components/MarketOpportunities.tsx:312 | Digits followed by a non-digit form a digit run of exactly their length |
| MarketOpportunities.DigitsThen | business-platform/backup/frontend-2025-10-04_12-27-42/src/components/MarketOpportunities.tsx:312-313 | Digits followed by anything but a digit or a comma read as those digits |
| MarketOpportunities.LeadingDigitsThen | business-platform/backup/frontend-2025-10-04_12-27-42/src/components/MarketOpportunities.tsx:312-313 | The same for the text after sign and white space handling |
| MarketOpportunities.RevenueOfAmount | business-platform/backup/frontend-2025-10-04_12-27-42/src/components/MarketOpportunities.tsx:312-345 | An amount written in digits followed by a unit ("45000 ريال") reads back as that amount |
| MarketOpportunities.ParseDigitsAppend | business-platform/backup/frontend-2025-10-04_12-27-42/src/components/MarketOpportunities.tsx:312 | The value of concatenated digit strings is the first shifted by the second's length plus the second |
| MarketOpportunities.RevenueOfGroupedAmount | business-platform/backup/frontend-2025-10-04_12-27-42/src/components/MarketOpportunities.tsx:312-345 | An amount with a thousands comma and a unit ("85,000 ريال") reads back as that amount |
| MarketOpportunities.DropComma | business-platform/backup/frontend-2025-10-04_12-27-42/src/components/MarketOpportunities.tsx:312 | A comma after a run of digits does not change the amount read |
| MarketOpportunities.NoNumberIsZero | business-platform/backup/frontend-2025-10-04_12-27-42/src/components/MarketOpportunities.tsx:312-313 | Text starting with neither a digit, a sign, white space nor a comma reads as 0 |
| MarketOpportunities.AvgSuccessSpec | business-platform/backup/frontend-2025-10-04_12-27-42/src/components/MarketOpportunities.tsx:329 | The rounded mean success rate is NaN exactly for an empty list and otherwise lies between the lowest and the highest rate |
| MarketOpportunities.StatsSpec | business-platform/backup/frontend-2025-10-04_12-27-42/src/components/MarketOpportunities.tsx:326-332 | The total is the list length, each count is the number of opportunities of its kind and at most the total, and the average is NaN only for an empty list |
| MarketOpportunities.PublicFromSpec | business-platform/backup/frontend-2025-10-04_12-27-42/src/components/MarketOpportunities.tsx:188-212 | An exhibition is on the tab iff it is public and listed in some readable `exhibitions_` entry |
| MarketOpportunities.Board.constructor | business-platform/backup/frontend-2025-10-04_12-27-42/src/components/MarketOpportunities.tsx:187 | The board starts with no exhibitions and the given market |
| MarketOpportunities.Board.LoadExhibitions | business-platform/backup/frontend-2025-10-04_12-27-42/src/components/MarketOpportunities.tsx:188-212 | The loop gathers exactly the public exhibitions of the readable entries, in key order |
| MarketOpportunities.Board.SendToMarketplace | business-platform/backup/frontend-2025-10-04_12-27-42/src/components/MarketOpportunities.tsx:335-372 | Refused without a signed-in user (market unchanged); otherwise exactly one offer priced at the parsed revenue is appended |
| MerchantDashboard.OrOne | frontend/src/pages/MerchantDashboard.tsx:115 | `Number(x) \|\| 1` never yields 0: a missing, zero or unparsable quantity counts as one |
| MerchantDashboard.LineAmountSpec | frontend/src/pages/MerchantDashboard.tsx:111-125 | a budget line is price × quantity after normalisation; a missing price contributes nothing and a missing quantity counts the price once |
| MerchantDashboard.BudgetSpec | frontend/src/pages/MerchantDashboard.tsx:125 | without product lines the budget is the form's value (0 when absent); with lines of non-negative prices and quantities the budget is non-negative |
| MerchantDashboard.NewOrderSpec | frontend/src/pages/MerchantDashboard.tsx:105-138 | a new order is open, due seven days after today, not yet published, carries the storage id, keeps one normalised line per form product, and its budget is the sum of its lines when it has any |
| MerchantDashboard.ReplaceWhere | frontend/src/pages/MerchantDashboard.tsx:249-250 | the page list keeps its length; every order with the id is replaced, all others are kept in place |
| MerchantDashboard.ReplaceOpenCount | frontend/src/pages/MerchantDashboard.tsx:185 | replacing the orders with an id by a non-open order lowers the open-orders figure by exactly the number of open orders with that id |
| MerchantDashboard.Dashboard.constructor | frontend/src/pages/MerchantDashboard.tsx:60-75 | the page starts from the saved orders and the saved favourites |
| MerchantDashboard.Dashboard.ToggleFavorite | frontend/src/pages/MerchantDashboard.tsx:78-88 | the item leaves the favourites when it was in them and joins them otherwise; nothing else changes |
| MerchantDashboard.Dashboard.PublishOrder | frontend/src/pages/MerchantDashboard.tsx:216-255 | publishing succeeds exactly when the order is not yet recorded as published; then one market item and one record are appended and the saved order gets its publication time, otherwise nothing changes |
| MerchantDashboard.Dashboard.AddOrder | frontend/src/pages/MerchantDashboard.tsx:97-164 | the new order is saved and shown last; a market order is published once (and never twice for the same id); an order naming a shipping service gets exactly one shipping job |
| MerchantDashboard.Dashboard.CancelOrder | frontend/src/pages/MerchantDashboard.tsx:308-320 | the first saved order with the id becomes cancelled and replaces its copies on the page, the open-orders figure drops by the open copies; an unknown id changes nothing |
| Notifications.MarkRead | frontend/src/components/NotificationSystem.tsx:340-346 | the list keeps its length and order; the notifications with the id become read and no other notification changes |
| Notifications.MarkAllRead | frontend/src/components/NotificationSystem.tsx:366-368 | the list keeps its length and order and every notification becomes read |
| Notifications.MarkReadCount | frontend/src/components/NotificationSystem.tsx:339-348 | marking an id read lowers the number of unread notifications by exactly the unread notifications with that id |
| Notifications.RemoveCount | frontend/src/components/NotificationSystem.tsx:351-363 | deleting an id lowers the number of unread notifications by exactly the unread notifications with that id |
| Notifications.MarkAllReadCount | frontend/src/components/NotificationSystem.tsx:365-370 | after marking all read, no notification is unread, matching the counter reset to 0 |
| Notifications.AtMostOneWithId | frontend/src/components/NotificationSystem.tsx:351-355 | with unique ids, an id names at most one notification, so `find` and `filter` agree on which notification goes |
| Notifications.UnreadWithCount | frontend/src/components/NotificationSystem.tsx:353-359 | with unique ids, the unread notifications with an id number one when the first with that id is unread and zero otherwise |
| Notifications.KeepsUniqueIds | frontend/src/components/NotificationSystem.tsx:339-370 | marking read, marking all read and deleting keep the ids unique |
| Notifications.ShownSpec | frontend/src/components/NotificationSystem.tsx:373-383 | the unread tab holds exactly the unread notifications (as many as the counter), the priority tab exactly the high and urgent ones, and the default tab everything |
| Notifications.NotificationSystem.constructor | frontend/src/components/NotificationSystem.tsx:226-231 | the panel starts with the user type's notifications and a counter equal to the number of unread ones |
| Notifications.NotificationSystem.AddNotification | frontend/src/components/NotificationSystem.tsx:313-323 | the new unread notification goes first and the counter rises by one, so the counter still equals the unread count when the id is new |
| Notifications.NotificationSystem.MarkAsRead | frontend/src/components/NotificationSystem.tsx:339-348 | clicking an unread notification marks it read and lowers the counter by one, keeping counter and unread count equal |
| Notifications.NotificationSystem.DeleteNotification | frontend/src/components/NotificationSystem.tsx:351-363 | the notification with the id goes; the counter drops by one (never below 0) exactly when it was unread, keeping counter and unread count equal |
| Notifications.NotificationSystem.MarkAllAsRead | frontend/src/components/NotificationSystem.tsx:365-370 | every notification is read and the counter is 0 |
| Partners.PayloadSpec | frontend/src/pages/MerchantDashboard.tsx:322-330 | every payload field is trimmed, and the name is the business name, else the contact person, else the default name |
| Partners.ClashSymmetric | frontend/src/pages/MerchantDashboard.tsx:333-338 | the duplicate test (same e-mail ignoring case, same phone, or same name ignoring case, each only when both sides are non-empty) does not depend on which side is the new partner |
| Partners.EmptyPayloadNeverDuplicate | frontend/src/pages/MerchantDashboard.tsx:333-338 | a payload with no name, e-mail or phone is never a duplicate of anyone |
| Partners.AddKeepsClashFree | frontend/src/pages/supplier/Dashboard.tsx:210-230 | adding only partners that pass the duplicate test keeps the saved list, and the list on the page, free of two partners sharing an e-mail, phone or name |
| Partners.RemoveSpec | frontend/src/pages/MerchantDashboard.tsx:356-361 | removing an id keeps exactly the partners with other ids and keeps the list clash-free |
| Partners.PartnerBook.constructor | frontend/src/pages/supplier/Dashboard.tsx:184-186 | the page shows the saved partners |
| Partners.PartnerBook.AddPartner | frontend/src/pages/MerchantDashboard.tsx:322-354 | a payload that duplicates a saved partner writes nothing; otherwise the stamped partner is saved last and shown first, and a clash-free saved list stays clash-free |
| Partners.PartnerBook.DeletePartner | frontend/src/pages/supplier/Dashboard.tsx:377-381 | the partner leaves the page exactly when a saved partner with the id existed and was deleted from storage |
| SupplierOrderModal.CalculateTotalsSpec | frontend/src/components/supplier/AddOrderModal.tsx:97-105 | the subtotal is the sum of the line totals, tax is 15% of the discounted subtotal and the total is the discounted subtotal plus tax; a percentage in [0, 100] over non-negative lines keeps the discount within the subtotal and the total between 0 and 115% of it |
| SupplierOrderModal.DiscountWithin | frontend/src/components/supplier/AddOrderModal.tsx:99-102 | a percentage in [0, 100] of a non-negative subtotal is a discount within it, and the taxed remainder lies between 0 and 115% of the subtotal |
| SupplierOrderModal.DiscountAmountReadAsPercent | frontend/src/components/supplier/AddOrderModal.tsx:130 | as written, re-entering the quantity of a 1000-riyal line with a 10% discount recomputes a 100% discount and a total of 0; the corrected recalculation leaves the order unchanged |
| SupplierOrderModal.RecalculateKeepsPercent | frontend/src/components/supplier/AddOrderModal.tsx:570 | recalculating after a line edit keeps the discount percentage the discount field shows |
| SupplierOrderModal.PickQuantity | frontend/src/components/supplier/AddOrderModal.tsx:108 | `selectedProducts[id] \|\| 1` is never 0: the chosen quantity when there is a non-zero one, else 1 |
| SupplierOrderModal.AddLineSpec | frontend/src/components/supplier/AddOrderModal.tsx:107-128 | after adding, the product has a line with the chosen quantity; an existing line is updated in place (the list keeps its length), a new product is appended; other lines are untouched, and unique products and line totals stay consistent |
| SupplierOrderModal.RemoveLinesSpec | frontend/src/components/supplier/AddOrderModal.tsx:138-139 | exactly the lines of other products remain, and unique products and consistent line totals are kept |
| SupplierOrderModal.SetQuantitySpec | frontend/src/components/supplier/AddOrderModal.tsx:154-158 | the lines of the product take the quantity and a recomputed total at the same price, the other lines are unchanged, and unique products and consistent totals are kept |
| SupplierOrderModal.StepValidIff | frontend/src/components/supplier/AddOrderModal.tsx:178-192 | step 1 passes exactly with a partner, step 2 exactly with a line, step 3 exactly with a delivery date and a non-blank address, and step 4 always |
| SupplierOrderModal.NextStep | frontend/src/components/supplier/AddOrderModal.tsx:196 | the next step is one more, never past 4 |
| SupplierOrderModal.PreviousStep | frontend/src/components/supplier/AddOrderModal.tsx:201 | the previous step is one less, never before 1 |
| SupplierOrderModal.AddOrderModal.constructor | frontend/src/components/supplier/AddOrderModal.tsx:77-95 | the wizard opens on step 1 with the empty cash order, no errors and no chosen quantities |
| SupplierOrderModal.AddOrderModal.SelectPartner | frontend/src/components/supplier/AddOrderModal.tsx:227-232 | only the partner id and name of the order change, and the totals stay consistent |
| SupplierOrderModal.AddOrderModal.SelectQuantity | frontend/src/components/supplier/AddOrderModal.tsx:399-402 | only that product's chosen quantity changes, to `parseInt(...) || 1`: a non-zero whole number, the parsed one when it is not 0 |
| SupplierOrderModal.AddOrderModal.SetDelivery | frontend/src/components/supplier/AddOrderModal.tsx:510-546 | only the delivery date and address change |
| SupplierOrderModal.AddOrderModal.AddProduct | frontend/src/components/supplier/AddOrderModal.tsx:107-136 | the lines become the added lines and the totals are recomputed as the source does, with the stored discount amount passed as the percentage; lines, totals and unique products stay consistent |
| SupplierOrderModal.AddOrderModal.RemoveProduct | frontend/src/components/supplier/AddOrderModal.tsx:138-146 | the product's lines go and the totals are recomputed with the stored discount amount passed as the percentage; the order stays consistent |
| SupplierOrderModal.AddOrderModal.UpdateQuantity | frontend/src/components/supplier/AddOrderModal.tsx:148-166 | a quantity of 0 or less removes the product; otherwise its lines take the quantity; the totals are recomputed with the stored discount amount passed as the percentage, and the order stays consistent |
| SupplierOrderModal.AddOrderModal.UpdateDiscount | frontend/src/components/supplier/AddOrderModal.tsx:168-176 | discount, tax and total are recomputed at the new percentage while lines and subtotal stay; the order stays consistent |
| SupplierOrderModal.AddOrderModal.HandleNext | frontend/src/components/supplier/AddOrderModal.tsx:194-198 | the current step's errors are shown, and the step advances (never past 4) exactly when there are none |
| SupplierOrderModal.AddOrderModal.HandlePrevious | frontend/src/components/supplier/AddOrderModal.tsx:200-202 | the step goes back one, never before 1; nothing else changes |
| SupplierOrderModal.AddOrderModal.HandleSubmit | frontend/src/components/supplier/AddOrderModal.tsx:204-225 | the order is handed over exactly when the current step validates, and then the wizard returns to step 1 with the empty order; otherwise only the errors change |
| SupplierOrders.ActionsSpec | frontend/src/pages/supplier/SupplierOrdersManagement.tsx:358-389 | a pending order can be accepted or refused, a confirmed one prepared, a prepared one shipped, and nothing else; every button moves the order forward, only pending orders can be refused, and no button marks an order delivered |
| SupplierOrders.PressesToShipped | frontend/src/pages/supplier/SupplierOrdersManagement.tsx:358-389 | three presses take a pending order to shipped, and no sequence of presses takes an order that is not delivered to delivered |
| SupplierOrders.SetStatus | frontend/src/pages/supplier/SupplierOrdersManagement.tsx:137-139 | the list keeps its length and order; the orders with the id take the status and every other order is unchanged |
| SupplierOrders.SetStatusCounts | frontend/src/pages/supplier/SupplierOrdersManagement.tsx:95-100 | after a status change, each other status's tab loses exactly the orders with the id that held it, and the new status's tab gains every order with the id that held another status |
| SupplierOrders.TabCounts | frontend/src/pages/supplier/SupplierOrdersManagement.tsx:94-101 | there are six tab figures, the "all" tab first |
| SupplierOrders.TabCountsSpec | frontend/src/pages/supplier/SupplierOrdersManagement.tsx:94-101 | the "all" tab counts every order, and the five status tabs plus the cancelled orders add up to it |
| SupplierOrders.FilteredSpec | frontend/src/pages/supplier/SupplierOrdersManagement.tsx:143-149 | an order is listed exactly when the search matches its merchant name or id (ignoring case) and it passes both the status and priority selectors; an empty search with "all" lists every order |
| SupplierOrders.OrdersPage.constructor | frontend/src/pages/supplier/SupplierOrdersManagement.tsx:33 | the page starts with the given orders |
| SupplierOrders.OrdersPage.UpdateOrderStatus | frontend/src/pages/supplier/SupplierOrdersManagement.tsx:137-140 | the orders with the id take the new status and nothing else changes |
| SupplierOrders.OrdersPage.Press | frontend/src/pages/supplier/SupplierOrdersManagement.tsx:358-389 | a button on a card moves the order to the status it offers, which lies further along the way |
| ShippingShipments.NextStepSpec | enhanced-business-platform/src/components/shipping/ShippingShipments.jsx:457-505 | the card's button exists exactly for the first five statuses of the delivery chain and moves the shipment to the next one; delivered and cancelled shipments have no button |
| ShippingShipments.WalkFromPending | enhanced-business-platform/src/components/shipping/ShippingShipments.jsx:457-505 | from pending, n presses reach the n-th status of the chain: five presses deliver the shipment and a sixth finds no button |
| ShippingShipments.WalkAlong | enhanced-business-platform/src/components/shipping/ShippingShipments.jsx:457-505 | n presses from a status of the chain reach the status n places later |
| ShippingShipments.WalkAppend | enhanced-business-platform/src/components/shipping/ShippingShipments.jsx:457-505 | pressing m times and then n times is the same as pressing m + n times |
| ShippingShipments.NeverCancelled | enhanced-business-platform/src/components/shipping/ShippingShipments.jsx:457-505 | no button leads to cancelled |
| ShippingShipments.StatusTextSpec | enhanced-business-platform/src/components/shipping/ShippingShipments.jsx:196-215 | every known status gets an Arabic label that is not itself a status code, and any other status is shown as it is |
| ShippingShipments.StatusLabelsDistinct | enhanced-business-platform/src/components/shipping/ShippingShipments.jsx:196-215 | different known statuses get different labels |
| ShippingShipments.SetStatus | enhanced-business-platform/src/components/shipping/ShippingShipments.jsx:238-242 | the list keeps its length and order; the shipments with the id take the status and every other shipment is unchanged |
| ShippingShipments.FilteredSpec | enhanced-business-platform/src/components/shipping/ShippingShipments.jsx:168-173 | a shipment is listed exactly when the search matches its tracking number or merchant name (ignoring case) and its status passes the selector; an empty search with "all" lists everything |
| ShippingShipments.CountersSpec | enhanced-business-platform/src/components/shipping/ShippingShipments.jsx:272-313 | the pending, in-transit and delivered counters together never exceed the total |
| ShippingShipments.ShipmentsPage.constructor | enhanced-business-platform/src/components/shipping/ShippingShipments.jsx:31-165 | the page starts with the given shipments |
| ShippingShipments.ShipmentsPage.HandleStatusUpdate | enhanced-business-platform/src/components/shipping/ShippingShipments.jsx:238-242 | the shipments with the id take the new status and nothing else changes |
| ShippingShipments.ShipmentsPage.Advance | enhanced-business-platform/src/components/shipping/ShippingShipments.jsx:457-505 | the card's button moves the shipment to the next status of the chain |
| SupplierDashboard.LoadSettings | frontend/src/pages/supplier/Dashboard.tsx:79-86 | a saved value is used as it is; nothing saved, an empty string or unparsable text gives the defaults, with every section on |
| SupplierDashboard.PersistRoundTrip | frontend/src/pages/supplier/Dashboard.tsx:79-94 | settings the page writes are read back unchanged the next time it opens, and a page opened with nothing usable saved writes the defaults |
| SupplierDashboard.VisibleSpec | frontend/src/pages/supplier/Dashboard.tsx:259-338 | a section is drawn exactly when its switch is on |
| SupplierDashboard.OnThePage | frontend/src/pages/supplier/Dashboard.tsx:259-338 | every switchable section has its place on the page |
| SupplierDashboard.DefaultShowsAll | frontend/src/pages/supplier/Dashboard.tsx:71-86 | a page with nothing usable saved draws all six sections, in page order |
| SupplierDashboard.SettingsPanel.constructor | frontend/src/pages/supplier/Dashboard.tsx:79-94 | opening the page loads the settings and writes them back under the same key |
| TeamModal.ValidSpec | business-platform/backup/frontend-2025-10-04_12-27-42/src/components/supplier/TeamModal.tsx:151-170 | a form passes exactly when name, e-mail and department are not blank, the e-mail is well formed and, when adding, no member has that e-mail; an edit is judged as if the list were empty |
| TeamModal.TogglePermissionSpec | business-platform/backup/frontend-2025-10-04_12-27-42/src/components/supplier/TeamModal.tsx:233-240 | after the toggle a permission is held exactly when it was not held before, the others are untouched; toggling twice gives back the same permissions, and the same list when the permission was not held |
| TeamModal.ToggleTwiceReorders | business-platform/backup/frontend-2025-10-04_12-27-42/src/components/supplier/TeamModal.tsx:233-240 | toggling a held permission twice moves it to the end of the list, so the list is restored only as a set |
| TeamModal.GetRoleInfoSpec | business-platform/backup/frontend-2025-10-04_12-27-42/src/components/supplier/TeamModal.tsx:242-244 | the result is always one of the five roles: a known role gets its own entry and any other role the viewer's |
| TeamModal.FilteredSpec | business-platform/backup/frontend-2025-10-04_12-27-42/src/components/supplier/TeamModal.tsx:144-149 | a member is listed exactly when the search matches the name or e-mail (ignoring case) and the role passes the role choice; an empty search with no role lists everyone |
| TeamModal.MergeWhere | business-platform/backup/frontend-2025-10-04_12-27-42/src/components/supplier/TeamModal.tsx:209-213 | the list keeps its length and order; the members with the edited id take the form's fields and the others are unchanged |
| TeamModal.DeleteKeepsOwners | business-platform/backup/frontend-2025-10-04_12-27-42/src/components/supplier/TeamModal.tsx:227-230 | deleting through a member's button (owners have none), in a list with unique ids, removes that member and keeps every other member, every owner among them |
| TeamModal.TeamEditor.constructor | business-platform/backup/frontend-2025-10-04_12-27-42/src/components/supplier/TeamModal.tsx:89-142 | the window starts with the given members, the blank employee form, no member being edited and no errors |
| TeamModal.TeamEditor.AddMember | business-platform/backup/frontend-2025-10-04_12-27-42/src/components/supplier/TeamModal.tsx:172-199 | a valid form becomes a pending, never-logged-in member at the end of the list and the form is cleared and closed; an invalid form changes only the errors |
| TeamModal.TeamEditor.EditMember | business-platform/backup/frontend-2025-10-04_12-27-42/src/components/supplier/TeamModal.tsx:201-205 | the form is opened and filled with the member, who becomes the member being edited |
| TeamModal.TeamEditor.UpdateMember | business-platform/backup/frontend-2025-10-04_12-27-42/src/components/supplier/TeamModal.tsx:207-225 | a valid form (without the taken-e-mail check) is merged into the members with the edited id and the form is cleared and closed; an invalid form changes only the errors |
| TeamModal.TeamEditor.DeleteMember | business-platform/backup/frontend-2025-10-04_12-27-42/src/components/supplier/TeamModal.tsx:227-231 | after a confirmed dialog exactly the members with the id go; a declined dialog changes nothing |
| TeamModal.TeamEditor.TogglePermissionBox | business-platform/backup/frontend-2025-10-04_12-27-42/src/components/supplier/TeamModal.tsx:233-240 | only the form's permissions change, by the toggle |
| AddPartnerModal.CompanyErrorsSpec | frontend/src/components/supplier/AddPartnerModal.tsx:127-132 | the company step records no error exactly when business name and contact person are not blank and business type, partner type and category are chosen |
| AddPartnerModal.ContactErrorsSpec | frontend/src/components/supplier/AddPartnerModal.tsx:133-142 | the contact step records no error exactly when the e-mail is well formed, the phone is not blank and a city is chosen |
| AddPartnerModal.LegalErrorsSpec | frontend/src/components/supplier/AddPartnerModal.tsx:143-146 | the legal step records no error exactly when commercial register and tax number are not blank |
| AddPartnerModal.StepValidSpec | frontend/src/components/supplier/AddPartnerModal.tsx:124-150 | what each of the first three steps demands, in both directions, and that step 4 demands nothing |
| AddPartnerModal.DefaultFailsEveryCheckedStep | frontend/src/components/supplier/AddPartnerModal.tsx:96-122 | the blank record the wizard opens with passes none of the first three steps |
| AddPartnerModal.EditKeepsOtherSteps | frontend/src/components/supplier/AddPartnerModal.tsx:325-785 | typing into an input of one step leaves the verdict on every other step unchanged |
| AddPartnerModal.SameTextSameVerdicts | frontend/src/components/supplier/AddPartnerModal.tsx:124-150 | the verdicts depend on the text inputs alone, not on documents, logo or amounts |
| AddPartnerModal.DropIndexSpec | frontend/src/components/supplier/AddPartnerModal.tsx:212-217 | removing a document drops exactly the one at the index and keeps the others in order; an index outside the list changes nothing |
| AddPartnerModal.PartnerTypeLabelSpec | frontend/src/components/supplier/AddPartnerModal.tsx:226-234 | an empty type shows a dash; the three partner types show Arabic labels that the stored-partner clean-up maps back to the codes; any other text shows as it is |
| AddPartnerModal.PartnerWizard.constructor | frontend/src/components/supplier/AddPartnerModal.tsx:93-122 | the wizard opens on step 1 with the blank record, no errors and nothing handed over |
| AddPartnerModal.PartnerWizard.Next | frontend/src/components/supplier/AddPartnerModal.tsx:152-156 | the current step's errors are shown, and the wizard moves on (never past step 4) exactly when there are none; every step before the current one has passed |
| AddPartnerModal.PartnerWizard.Previous | frontend/src/components/supplier/AddPartnerModal.tsx:158-160 | one step back, never before step 1, and nothing else changes |
| AddPartnerModal.PartnerWizard.Edit | frontend/src/components/supplier/AddPartnerModal.tsx:325-785 | typing sets exactly that input, and the steps already passed stay passed |
| AddPartnerModal.PartnerWizard.EditAmount | frontend/src/components/supplier/AddPartnerModal.tsx:742-757 | a number input stores the parsed number, or 0 for text that is not a number |
| AddPartnerModal.PartnerWizard.UploadFiles | frontend/src/components/supplier/AddPartnerModal.tsx:197-210 | documents are appended in order; a logo upload keeps the first chosen file, and choosing none keeps the old logo |
| AddPartnerModal.PartnerWizard.RemoveDocument | frontend/src/components/supplier/AddPartnerModal.tsx:212-217 | the document at the index goes and the others keep their order; nothing else in the record changes |
| AddPartnerModal.PartnerWizard.Submit | frontend/src/components/supplier/AddPartnerModal.tsx:162-195 | the record handed over has passed every step's checks, and the wizard starts again from the blank record at step 1 |
| SupplierMerchants.Repeat | enhanced-business-platform/src/components/supplier/SupplierMerchants.jsx:265-276 | n copies of the star, none when n is not positive |
| SupplierMerchants.CeilOfFloor | enhanced-business-platform/src/components/supplier/SupplierMerchants.jsx:262-273 | a whole rating has no half star and its ceiling is its floor; a fractional rating has a half star and its ceiling is one more |
| SupplierMerchants.StarsSpec | enhanced-business-platform/src/components/supplier/SupplierMerchants.jsx:260-279 | a rating from 0 to 5 is drawn as exactly five stars: as many full stars as its whole part, a half star exactly when it has a fraction, and empty stars for the rest |
| SupplierMerchants.CountRepeat | enhanced-business-platform/src/components/supplier/SupplierMerchants.jsx:265-276 | a run of n copies of a star holds n of that star and none of any other |
| SupplierMerchants.RenderStars | enhanced-business-platform/src/components/supplier/SupplierMerchants.jsx:260-279 | the loop of full stars, the half-star test and the loop of empty stars produce the stars of the rating, in that order |
| SupplierMerchants.RatingBandsPartition | enhanced-business-platform/src/components/supplier/SupplierMerchants.jsx:225-228 | "all" lets every partner through; a rated partner falls in exactly one of the high, medium and low bands, and an unrated one in none |
| SupplierMerchants.TypeDefaultsToMerchant | enhanced-business-platform/src/components/supplier/SupplierMerchants.jsx:229 | a partner without a type is listed among the merchants and not among the shipping companies |
| SupplierMerchants.FilteredSpec | enhanced-business-platform/src/components/supplier/SupplierMerchants.jsx:221-232 | a partner is listed exactly when the search (ignoring case) hits its name, e-mail or business type and it passes both the rating and type selectors; an empty search with both selectors on "all" lists everyone, in order |
| SupplierMerchants.StatsSpec | enhanced-business-platform/src/components/supplier/SupplierMerchants.jsx:302-346 | the VIP figure never exceeds the active one, nor the active figure the number of partners |
| SupplierMerchants.NewPartnerSpec | enhanced-business-platform/src/components/supplier/SupplierMerchants.jsx:200-217 | whatever the API answers, the new partner has the form's type and services, a zero rating (the low band), no status and nothing spent; its name is the form's unless the API names it, its id is the API's unless that is missing or zero, and after a failed call its id is the current time |
| SupplierMerchants.AddKeepsStats | enhanced-business-platform/src/components/supplier/SupplierMerchants.jsx:203-346 | adding a partner raises the partner count by one and leaves active, VIP and total spent unchanged |
| SupplierMerchants.Initial | enhanced-business-platform/src/components/supplier/SupplierMerchants.jsx:23-31 | the partners key when it holds a list; the older merchants key when the first is missing or empty; no partners when the stored text cannot be read |
| SupplierMerchants.PartnersPage.constructor | enhanced-business-platform/src/components/supplier/SupplierMerchants.jsx:23-165 | the page shows the stored partners, or the fixture partners when none are stored, and writes the list back under the partners key |
| SupplierMerchants.PartnersPage.OpenAddPartner | enhanced-business-platform/src/components/supplier/SupplierMerchants.jsx:170-173 | the form is reset to a blank merchant and shown; the partners are unchanged |
| SupplierMerchants.PartnersPage.UpdateForm | enhanced-business-platform/src/components/supplier/SupplierMerchants.jsx:38 | typing changes only the form |
| SupplierMerchants.PartnersPage.AddPartner | enhanced-business-platform/src/components/supplier/SupplierMerchants.jsx:177-219 | a blank name is refused with nothing changed; otherwise exactly one partner goes to the head of the list whether the API call succeeded or failed, the list is saved and the form closes |
| MarketplacePage.VisibleTabs | business-platform/backup/frontend-2025-10-04_12-27-42/src/pages/Marketplace.tsx:52-59 | at least one tab is visible |
| MarketplacePage.VisibleTabsSpec | business-platform/backup/frontend-2025-10-04_12-27-42/src/pages/Marketplace.tsx:52-59 | a shipping company sees exactly the services tab; everybody else, signed in or not, sees all three tabs |
| MarketplacePage.ResetTab | business-platform/backup/frontend-2025-10-04_12-27-42/src/pages/Marketplace.tsx:62-67 | after the effect the active tab is always a visible one |
| MarketplacePage.ResetTabSpec | business-platform/backup/frontend-2025-10-04_12-27-42/src/pages/Marketplace.tsx:62-67 | a visible tab stays; a hidden one gives way to the first visible tab (the services tab for a shipping company); resetting twice is the same as resetting once |
| MarketplacePage.CategoryPoolSpec | business-platform/backup/frontend-2025-10-04_12-27-42/src/pages/Marketplace.tsx:71-75 | the pool holds the category of every item, order and service (a service without one under the default shipping category) and nothing else |
| MarketplacePage.AllCategoriesSpec | business-platform/backup/frontend-2025-10-04_12-27-42/src/pages/Marketplace.tsx:70-78 | the category list opens with "all", offers exactly the non-empty categories in use, each once, and always offers every service's category |
| MarketplacePage.SortFilterSpec | business-platform/backup/frontend-2025-10-04_12-27-42/src/pages/Marketplace.tsx:104-160 | a filtered and sorted list is ordered by the comparator, is a permutation of the filtered list, and holds exactly the elements that pass the test |
| MarketplacePage.ProductsShownSpec | business-platform/backup/frontend-2025-10-04_12-27-42/src/pages/Marketplace.tsx:105-125 | the products tab lists exactly the items whose name or description matches the search and whose category passes, cheapest, dearest, best rated or newest first as chosen |
| MarketplacePage.OrdersShownSpec | business-platform/backup/frontend-2025-10-04_12-27-42/src/pages/Marketplace.tsx:126-146 | the orders tab lists only open orders, exactly those the search and the category let through, ordered by the chosen sort |
| MarketplacePage.ServicesShownSpec | business-platform/backup/frontend-2025-10-04_12-27-42/src/pages/Marketplace.tsx:147-166 | as written, the services tab lists exactly the services the search lets through whose stored category equals the chosen one (any under "all"), cheapest, dearest or best rated first |
| MarketplacePage.AsWrittenAgreesWhenCategorised | business-platform/backup/frontend-2025-10-04_12-27-42/src/pages/Marketplace.tsx:74-153 | when every service has a non-empty category, the page's filter and the corrected one show the same list |
| MarketplacePage.UncategorisedServiceHidden | business-platform/backup/frontend-2025-10-04_12-27-42/src/pages/Marketplace.tsx:74-153 | as written, a service without a category is offered under the default shipping category in the list, yet choosing that category hides it |
| MarketplacePage.EveryServiceFoundUnderItsCategory | business-platform/backup/frontend-2025-10-04_12-27-42/src/pages/Marketplace.tsx:70-166 | comparing on the listed category, choosing an offered category with an empty search shows every service listed under it |
| MarketplacePage.Page.constructor | business-platform/backup/frontend-2025-10-04_12-27-42/src/pages/Marketplace.tsx:13-67 | the page opens with no favourites, the loaded lists, and the products tab, or the services tab for a shipping company |
| MarketplacePage.Page.SelectTab | business-platform/backup/frontend-2025-10-04_12-27-42/src/pages/Marketplace.tsx:16-67 | clicking a visible tab makes it active; a hidden tab is replaced by the first visible one; nothing else changes |
| MarketplacePage.Page.ChangeUser | business-platform/backup/frontend-2025-10-04_12-27-42/src/pages/Marketplace.tsx:62-67 | when another user signs in the active tab is re-checked against that user's visible tabs |
| MarketplacePage.Page.Reload | business-platform/backup/frontend-2025-10-04_12-27-42/src/pages/Marketplace.tsx:34-43 | the update and storage listeners replace the three lists and nothing else |
| MarketplacePage.Page.ToggleFavorite | business-platform/backup/frontend-2025-10-04_12-27-42/src/pages/Marketplace.tsx:214-222 | the item's heart flips: it is a favourite afterwards exactly when it was not before; the other favourites stay |
| MarketplacePage.Page.Listed | business-platform/backup/frontend-2025-10-04_12-27-42/src/pages/Marketplace.tsx:104-166 | the list on screen is the product, order or service list exactly when that tab is active, holding exactly the entries the search and the category let through (open orders only; services compared on their stored category, as the page does) |
| Common.OrElse | business-platform/backup/frontend-2025-10-04_12-27-42/src/pages/Marketplace.tsx:74 | `x \|\| fallback` on text: a present non-empty value is kept, a missing or empty one gives the fallback |
| Common.FirstIndex | frontend/src/components/supplier/AddOrderModal.tsx:109 | `findIndex`: a found index is the first element passing the test, and nothing is found exactly when no element passes |
| Common.Toggle | frontend/src/pages/MerchantDashboard.tsx:78-88 | toggling puts the item in the set exactly when it was not in it and leaves every other item as it was |
| Common.ToggleTwice | business-platform/backup/frontend-2025-10-04_12-27-42/src/pages/Marketplace.tsx:214-222 | toggling the same item twice gives back the original set |
| Common.EmailExamples | frontend/src/components/supplier/AddPartnerModal.tsx:139-140 | the e-mail pattern accepts a plain address and rejects one without a dot in the domain and one with two @ signs |
| Common.WellFormedEmailShape | business-platform/backup/frontend-2025-10-04_12-27-42/src/components/supplier/TeamModal.tsx:158-160 | an address the e-mail pattern accepts is non-empty, not blank and holds no white space |
| Common.LowerIdempotent | enhanced-business-platform/src/components/shipping/ShippingShipments.jsx:169-170 | lower-casing twice is lower-casing once |
| Common.ContainsIffOccurs | enhanced-business-platform/src/components/shipping/ShippingShipments.jsx:169-170 | `includes` holds exactly when the text occurs at some offset |
| Common.EmptyQueryMatches | enhanced-business-platform/src/components/shipping/ShippingShipments.jsx:169-170 | an empty search matches every field |
| Common.MatchesSelf | frontend/src/pages/supplier/SupplierOrdersManagement.tsx:144-145 | searching for a field's own text finds it |
| Common.TrimEmptyIffBlank | frontend/src/components/supplier/AddPartnerModal.tsx:128-129 | `!s.trim()` holds exactly when the text is blank |
| Common.TrimIsTrimmed | frontend/src/pages/MerchantDashboard.tsx:323-328 | trimmed text has no white space at either end, and trimming again changes nothing |
| Common.SplitWordsEmptyIffBlank | business-platform-api/src/routes/merchant.py:25-26 | `split()` gives no words exactly when the header is blank |
| Common.TwoWords | business-platform-api/src/routes/merchant.py:25-26 | two space-free words joined by one space split into exactly those two words |
| Common.DigitsRoundTrip | business-platform/backup/frontend-2025-10-04_12-27-42/src/components/MarketOpportunities.tsx:312 | a number below 10^w written as w zero-padded digits reads back as itself |
| Common.NatText | business-platform/backup/frontend-2025-10-04_12-27-42/src/components/MarketOpportunities.tsx:312 | a number's decimal text is non-empty and made of digits only |
| Common.NatTextRoundTrip | business-platform/backup/frontend-2025-10-04_12-27-42/src/components/MarketOpportunities.tsx:312 | a number's decimal text reads back as the number, and only zero starts with a 0 |
| Common.MeanBetween | business-platform/backup/frontend-2025-10-04_12-27-42/src/utils/marketplaceManager.ts:149 | the average of a non-empty list lies between any lower and upper bound of its values |
| Common.DistinctSpec | business-platform/backup/frontend-2025-10-04_12-27-42/src/pages/Marketplace.tsx:71-75 | `Array.from(new Set(xs))` holds every element of xs once and nothing else |
| Common.SortBySpec | business-platform/backup/frontend-2025-10-04_12-27-42/src/pages/Marketplace.tsx:115-125 | sorting with a total comparator gives an ordered permutation of the list |
| Common.DescThenAscOrders | business-platform/backup/frontend-2025-10-04_12-27-42/src/utils/marketplaceManager.ts:269-277 | ordering by one key descending, then by a second ascending, is total and transitive |
| Common.TopOrdered | business-platform/backup/frontend-2025-10-04_12-27-42/src/utils/marketplaceManager.ts:265-280 | the first n of a sorted list are at most n elements of the list, in order |
| Common.TakeSortedIsTop | business-platform/backup/frontend-2025-10-04_12-27-42/src/utils/marketplaceManager.ts:265-280 | every element kept among the first n comes before every element left out |

## Left out

- Flask routing, request JSON parsing, SQLAlchemy sessions, `to_dict` serialisation and commit/rollback: each handler is a method on in-memory tables that writes nothing when it fails.
- JWT signing and `decode_token`, and password hashing: token decoding is a table of the tokens that decode to a payload.
- `uuid`, `datetime.now`/`datetime.utcnow`, `Date.now`, `new Date().toISOString()` and `Math.random` ids: generated values are parameters of the operations that use them.
- The seed scripts (`seed_data.py`, `seed_merchant_data.py`) and the components' fixture and mock data: they only fill tables, so the initial contents are constructor parameters.
- JSX rendering, toasts, `alert`, icons, colours and labels that are only presentation: they compute nothing the other operations read.
- `window.confirm` dialogs: the answer is a boolean parameter.
- `window.dispatchEvent` and storage event listeners: only the reload they cause is modelled.
- The notification timer, the notification sound and the random choice of a notification template: time, audio and randomness are outside the model; the arrival of a notification is an operation with its contents as parameters.
- The popularity sorts that order by `Math.random()`: a random order has no contract to state.
- `public/app.js` and the presentation-only pages and components: they hold no logic of the core.
- Floating point: money, ratings and percentages are exact `real`s, so rounding by `toFixed`, `toLocaleString` and float error are not modelled.
- `toLowerCase` is modelled on ASCII letters only. JavaScript's `\s` and `trim`, and Python's `str.split()` used on the `Authorization` header, are modelled by one fixed set of white-space characters (`IsSpace`): the other Unicode separators both languages also split on (U+1680, U+2000 to U+200A, U+2028, U+2029, U+202F, U+205F, U+3000, and for Python U+001C to U+001F and U+0085) are not in it, and U+FEFF is in it although Python's `split()` keeps it.
- `Array.prototype.sort` is modelled as an insertion sort: the result is proved ordered and a permutation, but no particular order of ties is claimed.
- Dates are their millisecond values; text that `Date` cannot parse is not modelled.
- `parseInt` with a hexadecimal prefix, and record keys inherited from JavaScript prototypes, are not modelled.
- A `null` rating is modelled as an absent rating; in JavaScript `null < 3.5` holds, which the model does not reproduce.
- Two `Date.now()` readings taken in one handler are modelled as one reading `now`.
- The average success rate of an empty list of opportunities (`0 / 0`, `NaN` in JavaScript) is modelled as an explicit `NotANumber` value.
- Exceptions thrown by `localStorage.setItem` (quota) and stored JSON that is not an array are not modelled.
- The marketplace manager's getters run `JSON.parse(stored || '[]')` without a `try`, so garbled stored text throws in the source; the model's three lists always hold parsed arrays and cannot express that. (The `storage` object's garbled-text paths are modelled.)
- `onClose` callbacks and the mirror of merchant orders kept by the parent page are not modelled: they belong to components outside this model.
- The logo upload input, which is not wired to any handler, is not modelled.
- `getStatusColor`, `getStatusText` and the icon and label helpers of the supplier's merchant list, and `handleContactProvider`, are not modelled: they only choose how something is shown.
- The fixture records `seedMarketData` writes (localStorage.ts:515-818) are parameters of `LocalStorage.Storage.SeedMarketData`: their contents are not spelled out.
- `assignOrderToPartner` of the merchant dashboard is not modelled as an operation of its own: its order update is `LocalStorage.Storage.UpdateRecord`, and the shipping-job log it appends under `business_shipping_jobs` is read by nothing in this model.
- SupplierMerchants.StarsSpec: requires a rating between 0 and 5, because a larger rating draws more than five stars and the source never stores one.
- TeamModal.TogglePermissionSpec: toggling twice is the identity on the set of permissions only; when the permission was held it moves to the end of the list (see `TeamModal.ToggleTwiceReorders`).
- TeamModal.TeamEditor.UpdateMember: merges only the form's fields into the edited member, while the source spreads the whole edited object; the other fields are equal in both.
- TeamModal.MergeWhere: merges only the form's fields, for the same reason.
- Common.SortBySpec: does not claim stability.
- Floats in JSON are not modelled. A request value that is a float is outside `JsonValue`. A stored text that `json.loads` reads as a float (including `NaN` and `Infinity`) reads back as `ReturnsUnmodelled`.
- A JSON string with an unpaired surrogate escape decodes, in Python, to a `str` holding a lone surrogate, which Dafny's `char` cannot hold; it reads back as `ReturnsUnmodelled`.
- Python's limit of 4300 digits on converting text to `int`, and the `RecursionError` of deeply nested JSON, are not modelled: the model reads numbers of any length and values of any depth.
- SupplierDashboard.LoadSettings: a saved text is either a whole settings object or unparsable; saved JSON that parses to something else (`{}`, which hides every section, or `null`, which makes the page throw) is not represented.
- A `NULL` value column in the settings table is not modelled: the stored value is always a string, and the empty string reads back as null as `NULL` would.

## Findings

| source | as written | input that shows it | evidently intended | confidence | as-written member | corrected member |
|---|---|---|---|---|---|---|
| business-platform-api/src/routes/merchant.py:21-26 | a header of only white space splits into no words and `parts[0]` raises, so the gate answers 500 (the same code guards the supplier and shipping handlers) | `Authorization: "   "` | refuse with 401 like any other malformed header | high, not executed | AuthGate.BlankHeaderCrashes | AuthGate.RequireRole |
| business-platform-api/src/routes/merchant.py:736-758 | the completed-payment sum is a `Decimal` (a `Numeric(12,2)` column) and `total_paid += float(amount)` raises `TypeError`, so the handler answers 500 | a payment on an order that already has a completed payment (as the seed data creates) | record the payment and count the completed ones | high, not executed | MerchantRoutes.PaidOrderAnswers500 | MerchantRoutes.CompletedInstallmentsAccumulate |
| business-platform-api/src/routes/supplier.py:717-730 | `Report` (the supplier models' complaint record) has no `report_type`, `title`, `date_from` or `date_to` column and no `set_data`, so its constructor raises and every request past the field check answers 500 | `{"report_type": "sales", "title": "t"}` | create the report with its data | high, not executed | SupplierRoutes.ReportNeverCreated | SupplierRoutes.GenerateReport |
| business-platform-api/src/routes/shipping.py:192-219 | `get_or_404` runs inside `try/except Exception`, so the not-found answer is caught and becomes 500 | a shipment id that does not exist | answer 404 | high, not executed | ShippingRoutes.UnknownIdAnswers500 | ShippingRoutes.LookupCode |
| frontend/src/components/supplier/AddOrderModal.tsx:130-160 | the stored discount amount is passed to `calculateTotals` as a percentage after every change of the lines | one line of 1000 with a 10% discount (amount 100), then a quantity change: the discount becomes 1000 and the total 0 | keep the 10% discount | high, not executed | SupplierOrderModal.DiscountAmountReadAsPercent | SupplierOrderModal.RecalculateKeepsPercent |
| business-platform/backup/frontend-2025-10-04_12-27-42/src/pages/Marketplace.tsx:74-153 | a service without a category is listed under "خدمة شحن" but choosing that category hides it | a service with no category while "خدمة شحن" is selected | the service is shown | low (the type declares the category as always present), not executed | MarketplacePage.UncategorisedServiceHidden | MarketplacePage.EveryServiceFoundUnderItsCategory |
