# Nujuum Arts storefront — a verified model of its rules

This project models, in Dafny, the business rules of the Nujuum Arts storefront: a Next.js
shop that sells artworks, with an admin panel. The model covers:

- the cart and checkout pricing (flat shipping below the free-shipping threshold, 8% tax);
- the checkout and contact forms: their validators, input handlers and submit flows;
- the contact, orders, products, admin-login and dashboard API handlers;
- the shop's filter and sort pipeline and the product detail page's quantity stepper;
- the admin orders page, the order-management page, the admin products page and the
  session guard of the admin area;
- the single-page navigation shell and the theme hook;
- the sample data of `lib/mock-data.ts`.

Each source file is one module. Pure rules are functions, with lemmas that state what the
source promises. Components and handlers that change state are classes whose fields are the
component's state, plus the tables and browser storage it writes. Their methods state the
whole new state, usually in terms of a specification function that the lemmas are about.
Databases, mailers, `fetch`, clocks, timers and the browser are not modelled. Their
outcomes (a failed insert, a thrown request, the current time, a timer firing, a hidden tab)
are method parameters.

Money is `real`. Strings are sequences of characters. Trimming and lower-casing follow
JavaScript's rules restricted to ASCII. Timestamps are integers of milliseconds. A JSON field
that may be absent is an `Option`, and JavaScript truthiness of such a field is
`Json.Truthy` (present and non-empty) or `Json.TruthyNumber` (present and non-zero).

Three behaviours of the code worth knowing:

- The order total the checkout page sends includes the 8% tax. The orders API stores
  subtotal, shipping and total exactly as sent and checks nothing about them, so a stored
  total is not subtotal + shipping.
- When the item insert of a new order fails, the API deletes the order row but never checks
  that delete. `OrdersApi.OrderStore.Post` says that a failed delete leaves the order
  behind. All-or-nothing holds only when the delete succeeds (`FailedItemsLeaveNoOrder`).
- The contact API answers 500 when the notification e-mail fails, even if the message was
  stored. The e-mail is not treated as a best-effort side effect.

Some behaviours of the code are surprising, and lemmas state them:

- A capitalised 'Pending' gets the pending colour but no action button
  (`OrderManagement.CapitalisedPendingHasColourButNoActions`).
- Orders placed at checkout are 'pending', and the admin orders page offers no action for
  'pending' (`OrdersPage.CheckoutOrdersHaveNoActions`).
- Typing into an address field never clears an address error (`Checkout.AddressEditsClearNothing`).
- A stored login time that `parseInt` reads as NaN never expires (`AdminSession.UnreadableTimeNeverExpires`).
- The sample product "Nature's Symphony" has a slug the products page would not derive from
  its title (`AdminProducts.MockSlugNotDerived`).
- After an admin logout, a product page opened earlier is shown instead of the home page
  (`AppNavigation.LogoutKeepsOpenProduct`).

## Model

| member | source | states |
|---|---|---|
| Pricing.Shipping | components/pages/CartPage.tsx:23 | shipping is 0 exactly when the subtotal is above 200, and 25 otherwise |
| Pricing.Tax | components/pages/CartPage.tsx:24 | tax is 8% of the subtotal |
| Pricing.Total | components/pages/CartPage.tsx:25 | the total is subtotal + shipping + tax |
| Pricing.LineTotal | components/pages/CartPage.tsx:150 | a line's total is its price times its quantity |
| Pricing.TotalCoversSubtotal | components/pages/CartPage.tsx:24-25 | for a non-negative subtotal the total is at least the subtotal and exceeds it by exactly shipping + 8% |
| Pricing.ShippingBoundary | components/pages/CartPage.tsx:23-25 | exactly 200 still pays 25 shipping (total 241); 200.01 ships free |
| Pricing.Note | components/pages/CartPage.tsx:194-204 | the free-shipping note shows iff shipping is 0; "add $X more" shows iff shipping is positive, with X = 200 − subtotal ≥ 0 |
| Pricing.NoteAtThreshold | components/pages/CartPage.tsx:194-204 | at exactly 200 the page asks for $0 more |
| Pricing.View | components/pages/CartPage.tsx:27 | an empty cart renders the empty state; otherwise one line total price × quantity per item, with the cart's total and note (see also line 150) |
| Pricing.DecrementRequest | components/pages/CartPage.tsx:129-130 | the minus button is disabled iff quantity ≤ 1, otherwise it asks for quantity − 1 ≥ 1 |
| Pricing.IncrementRequest | components/pages/CartPage.tsx:140 | the plus button asks for exactly one more than the current quantity |
| Pricing.DecrementUndoesIncrement | components/pages/CartPage.tsx:129-140 | from any quantity of at least 1, the minus button asks for the quantity the plus button started from |
| Domain.StatusNameInjective | types/index.ts:68 | distinct statuses have distinct database names |
| Domain.CountIn | components/admin/OrdersPage.tsx:85-91 | a bucket count never exceeds the number of orders |
| Domain.CountDisjointUnion | app/api/dashboard/route.ts:29-43 | counts into disjoint buckets add up to the count into their union |
| Domain.CountMissing | app/api/dashboard/route.ts:29-43 | a bucket no status falls into counts 0 |
| Domain.CountInSnoc | app/api/dashboard/route.ts:29-43 | one more status adds one to exactly the buckets it falls into |
| Domain.CountInIsFilterLength | app/api/dashboard/route.ts:29-43 | a bucket's count is the length of the list filtered to that bucket, as `filter(...).length` computes it |
| Domain.CountAll | app/api/dashboard/route.ts:29-43 | a bucket every status falls into counts them all |
| EmailRules.ServerEmailShape | app/api/contact/route.ts:48-54 | an address the anchored pattern accepts has no whitespace and exactly one '@' |
| EmailRules.ServerImpliesClient | app/api/contact/route.ts:48 | every address the API accepts also passes the pages' unanchored check |
| EmailRules.ClientDoesNotImplyServer | components/pages/ContactPage.tsx:62 | "a@b@c.d" passes the pages' check and is refused by the API |
| EmailRules.TwoAtsRefused | app/api/contact/route.ts:48 | any string with two '@' characters is refused by the API |
| EmailRules.ClientOkNotBlank | components/pages/CheckoutPage.tsx:45-49 | an address that passes the pages' check is not blank, so the e-mail field never gets both messages |
| EmailRules.ClientEmailOk | components/pages/ContactPage.tsx:62 | the pages' unanchored check: some non-whitespace, an '@', non-whitespace, a '.', non-whitespace, anywhere in the string; the checkout page uses the same check |
| EmailRules.ServerEmailOk | app/api/contact/route.ts:48 | the API's anchored check: the whole string is a non-empty run without whitespace or '@', an '@', such a run, a '.', and such a run |
| Checkout.AddRule | components/pages/CheckoutPage.tsx:38-73 | checking one more rule adds that rule's message exactly when the rule fails |
| Checkout.RulesInOrder | components/pages/CheckoutPage.tsx:38-73 | the seven rules checked in order are all of the form's keys |
| Checkout.ValidateForm | components/pages/CheckoutPage.tsx:38-73 | the error map has one entry per failing rule and nothing else, and the result is true iff the map is empty |
| Checkout.ValidIffAllRulesPass | components/pages/CheckoutPage.tsx:38-73 | the error map is empty iff every one of the seven rules passes |
| Checkout.AllRulesPassIff | components/pages/CheckoutPage.tsx:38-73 | the rules pass iff name, phone, line 1, city, postcode and country are non-blank and the e-mail passes the check; line 2 is not checked |
| Checkout.EmailMessage | components/pages/CheckoutPage.tsx:45-49 | a blank e-mail gets 'Email is required'; a non-blank one that fails the check gets 'Email is invalid'; a passing one gets no entry |
| Checkout.MissingEmailAndPhone | components/pages/CheckoutPage.tsx:38-73 | every failing field is recorded, not just the first |
| Checkout.SegmentBeforeDot | components/pages/CheckoutPage.tsx:92-98 | `field.split('.')[1]` is a prefix of the text after "address." containing no '.' |
| Checkout.KeyNamed | components/pages/CheckoutPage.tsx:92-98 | the error key looked up by a field name is the one with that name, or none when no key has it |
| Checkout.ClearedOnInput | components/pages/CheckoutPage.tsx:92-98 | an edit keeps the same keys, sets the entry named like the field to "" and leaves every other entry alone |
| Checkout.AddressEditsClearNothing | components/pages/CheckoutPage.tsx:56-68 | an edit of an 'address.*' field clears no error, because the address errors are keyed addressLine1, city, postcode and country (see also lines 92-98) |
| Checkout.ShippingAddressSegments | components/pages/CheckoutPage.tsx:112-127 | the shipping address is "line1, [line2, ]city, postcode, country", with the line-2 segment present iff line 2 is non-empty |
| Checkout.PayloadItems | components/pages/CheckoutPage.tsx:112-127 | one payload item per cart line, in cart order, copying id, name, quantity and price |
| Checkout.PayloadMatchesCartPage | components/pages/CheckoutPage.tsx:33-36 | the payload's total equals the cart page's total (tax included) for the same subtotal, its payment method is 'pending' and it has one item per cart line (see also lines 112-127) |
| Checkout.StoredItems | components/pages/CheckoutPage.tsx:150-156 | the stored order has one item per cart line, in order, each with that line's product id, its name as title, its price, quantity and image |
| Checkout.StoredOrderOf | components/pages/CheckoutPage.tsx:143-171 | the order kept in browser storage has the returned id, status 'pending', the stored items of the cart, the form as customer, the time, the subtotal, and a total of subtotal + shipping + 8% tax |
| Checkout.StoredOrderMatchesPayload | components/pages/CheckoutPage.tsx:112-171 | the order kept in browser storage agrees with the order sent to the API: same items (product, name, price, quantity), subtotal, total, customer name, e-mail and phone, and an address that renders to the sent shipping address |
| Checkout.SegmentOfWord | components/pages/CheckoutPage.tsx:76-80 | a field name without '.' is its own segment |
| Checkout.EditSetsOnlyItsField | components/pages/CheckoutPage.tsx:75-90 | an edit of 'name', 'email', 'phone' or 'address.line1' … 'address.country' sets exactly that field; any other name outside 'address.' leaves the form as it was |
| Checkout.Violations | components/pages/CheckoutPage.tsx:38-73 | the error map: one entry per rule of the form's seven keys that fails, holding that rule's message |
| Checkout.WithField | components/pages/CheckoutPage.tsx:75-90 | the form after an input: 'address.X' sets address field X, a top-level name sets that field |
| Checkout.ShippingAddress | components/pages/CheckoutPage.tsx:116 | line 1, then line 2 only when non-empty, then city, postcode and country, joined by ', ' |
| Checkout.Payload | components/pages/CheckoutPage.tsx:112-127 | the request body: the form's name, e-mail and phone, the shipping address, payment 'pending', one item per cart line, the subtotal, shipping and total |
| Checkout.CheckoutPage.constructor | components/pages/CheckoutPage.tsx:17-31 | the page starts with an empty form, no errors, not processing, and the cart and stored orders it is given |
| Checkout.CheckoutPage.HandleInputChange | components/pages/CheckoutPage.tsx:92-98 | the form gets the edited field and the error map is cleared as ClearedOnInput says; nothing else changes |
| Checkout.CheckoutPage.HandleSubmit | components/pages/CheckoutPage.tsx:101-179 | an invalid form sends nothing and only shows its errors; success appends the 'pending' order, clears the cart and navigates to 'confirmation/<id>'; any failure makes the errors exactly {submit} and leaves cart and stored orders alone |
| Contact.AddRule | components/pages/ContactPage.tsx:53-78 | checking one more field adds its message exactly when its rule fails |
| Contact.RulesInOrder | components/pages/ContactPage.tsx:53-78 | the four fields checked in order are all of them |
| Contact.ValidateForm | components/pages/ContactPage.tsx:53-78 | the error map has one entry per failing rule and nothing else, and the result is true iff it is empty |
| Contact.ValidIffAllRulesPass | components/pages/ContactPage.tsx:53-78 | the error map is empty iff all four rules pass |
| Contact.AllRulesPassIff | components/pages/ContactPage.tsx:56-74 | the rules pass iff the name is non-blank, the e-mail passes the check, the subject is non-empty and the trimmed message has at least 10 characters |
| Contact.MessageRuleByLength | components/pages/ContactPage.tsx:70-74 | a blank message is 'required', a trimmed length of 1 to 9 is 'too short', and 10 or more passes |
| Contact.CounterLength | components/pages/ContactPage.tsx:325 | the counter under the message shows the untrimmed message length |
| Contact.SubjectNotTrimmed | components/pages/ContactPage.tsx:66-68 | a subject of one space passes, because the subject is not trimmed |
| Contact.PaddedMessageRefused | components/pages/ContactPage.tsx:72 | "a" and nine spaces shows 10 on the counter and is still refused as too short (see also line 325) |
| Contact.KeyNamed | components/pages/ContactPage.tsx:80-92 | the field an edit writes is the one with that name, or none |
| Contact.ClearedOnInput | components/pages/ContactPage.tsx:86-92 | an edit keeps the same keys, resets the edited field's entry to "" and leaves the others alone |
| Contact.EditSetsOnlyItsField | components/pages/ContactPage.tsx:80-84 | an edit sets the edited field and leaves the other three as they were |
| Contact.ContactPage.HandleInputChange | components/pages/ContactPage.tsx:80-92 | the form and the error map change as WithField and ClearedOnInput say, and nothing else changes |
| Contact.ContactPage.HandleSubmit | components/pages/ContactPage.tsx:95-116 | the errors become the validator's map; an invalid form changes nothing else; a valid one is accepted, shows the thank-you state and resets all four fields |
| Contact.Violations | components/pages/ContactPage.tsx:53-78 | the error map: one entry per field whose rule fails, holding that rule's message |
| Contact.WithField | components/pages/ContactPage.tsx:80-84 | the form after an input: the named field gets the value; a name that is not a form field leaves the form as it was |
| Contact.ContactPage.constructor | components/pages/ContactPage.tsx:16-24 | the page starts with an empty form, no errors, not submitting and not submitted |
| ContactApi.RequestCheck | app/api/contact/route.ts:37-54 | the request goes on iff name, e-mail and message are truthy and the address passes the anchored pattern; an unreadable body is 500, a missing field 400, a bad address 400 |
| ContactApi.AcceptedPassesPageCheck | app/api/contact/route.ts:48 | every request the API accepts passes the contact page's own e-mail check |
| ContactApi.ResponseId | app/api/contact/route.ts:105 | the success id is 'email-only' when the insert failed or gave an empty id, and the new row's id otherwise (see also lines 72-75) |
| ContactApi.Acceptable | app/api/contact/route.ts:40-54 | a request goes on iff name, e-mail and message are truthy and the anchored pattern accepts the e-mail |
| ContactApi.RowOf | app/api/contact/route.ts:61-68 | the inserted row carries the request's name, e-mail, phone, subject and message with status 'new' |
| ContactApi.ContactInbox.constructor | app/api/contact/route.ts:59-60 | the handler starts from the given contact_messages rows |
| ContactApi.ContactInbox.Post | app/api/contact/route.ts:37-111 | a refused request touches nothing; an accepted one stores its row unless the insert fails, then answers 200 when the mail is sent and 500 when it fails or throws, keeping a saved row |
| ContactApi.DoubleAtRefused | app/api/contact/route.ts:48-54 | "a@b@c.d" is refused with 400 although the pages accept it |
| OrdersApi.BodyCheck | app/api/orders/route.ts:65-70 | POST goes on iff name, e-mail and address are truthy and items is a non-empty array; the phone is optional |
| OrdersApi.Acceptable | app/api/orders/route.ts:65 | a body is acceptable iff name, e-mail and address are truthy and items is a non-empty array; the phone is optional |
| OrdersApi.RowOf | app/api/orders/route.ts:73-88 | the new row has status 'pending', payment method defaulting to 'pending', user id null unless truthy, and the amounts stored exactly as sent |
| OrdersApi.ItemRows | app/api/orders/route.ts:96-101 | one item row per input item, in order, each pointing at the new order with the item's product, quantity and price |
| OrdersApi.WithoutOrder | app/api/orders/route.ts:103-112 | the compensating delete removes exactly the rows with that id |
| OrdersApi.RollbackRestores | app/api/orders/route.ts:103-112 | deleting a freshly appended row whose id is fresh restores the table |
| OrdersApi.NewestFirstIsTotalPreorder | app/api/orders/route.ts:26 | newest-first is a total preorder, so sorting by it is well defined |
| OrdersApi.NewestFirst | app/api/orders/route.ts:26 | rows are compared by creation time, newest first |
| OrdersApi.OrderStore.Post | app/api/orders/route.ts:62-118 | a refused body or a failed order insert changes nothing; success appends the row and its items and answers 201; a failed item insert leaves the items alone and deletes the order unless that delete fails |
| OrdersApi.OrderStore.Get | app/api/orders/route.ts:20-45 | GET lists exactly the rows of the given user (all rows without one), each as many times as it is stored, newest first; a failed query is 500 |
| OrdersApi.OrderStore.constructor | app/api/orders/route.ts:72-75 | the handler starts from the given orders and order_items rows |
| OrdersApi.FailedItemsLeaveNoOrder | app/api/orders/route.ts:90-112 | with a fresh id and a working delete, a POST whose items fail leaves the orders table as it was |
| OrdersApi.CheckoutPayloadAccepted | app/api/orders/route.ts:65-88 | what the checkout page sends after its own validation, for a non-empty cart, passes this handler and is stored as 'pending' |
| ProductsApi.Get | app/api/products/route.ts:5-110 | GET returns the eight fixed products, all in stock and all with an original price (see also lines 112-125) |
| ProductsApi.CatalogueDiscountsConsistent | app/api/products/route.ts:5-110 | every listed price is below its original price, and the discount is a percentage equal to the saving rounded to the nearest whole number |
| ProductsApi.CatalogueIdsDistinct | app/api/products/route.ts:5-110 | the listed ids are pairwise distinct |
| ProductsApi.NewProduct | app/api/products/route.ts:147-161 | the echoed product copies the five fields, keeps a truthy original price (else null), a discount or 0, and in_stock defaulting to true only when absent |
| ProductsApi.Post | app/api/products/route.ts:127-165 | 500 for an unreadable body, 400 when a required field is falsy, and 201 with the new product iff the body is acceptable |
| ProductsApi.ZeroPriceRefused | app/api/products/route.ts:139-144 | a price of 0 is refused like a missing one |
| ProductsApi.Acceptable | app/api/products/route.ts:139 | a body is acceptable iff name, description, price, image and category are truthy, a price of 0 being falsy |
| ProductsApi.ExplicitOutOfStockKept | app/api/products/route.ts:156 | an explicit `inStock: false` is kept |
| AdminAuthApi.Post | app/api/admin/auth/route.ts:6-41 | an unreadable body is 500; a missing configuration is 500; success is 200 with the admin user iff both values match exactly; any other input is 401 |
| AdminAuthApi.ResponseHidesPassword | app/api/admin/auth/route.ts:19-34 | the response does not depend on the submitted password beyond whether it matched |
| AdminAuthApi.MismatchesLookAlike | app/api/admin/auth/route.ts:29-34 | a wrong e-mail and a wrong password get the same 401 response |
| AdminAuthApi.Configured | app/api/admin/auth/route.ts:11 | the handler is configured iff both environment variables are non-empty |
| AdminAuthApi.Matches | app/api/admin/auth/route.ts:19 | the submitted e-mail and password equal the configured ones exactly |
| Shop.ParseSortKey | components/pages/ShopPage.tsx:44-56 | each named key selects its own order, and every other value selects newest first |
| Shop.BeforeIsTotalPreorder | components/pages/ShopPage.tsx:44-56 | every sort key's comparator is total and transitive |
| Shop.FilteredAndSortedSpec | components/pages/ShopPage.tsx:35-59 | the shop shows exactly the products the filters keep, as a permutation of the filtered list, ordered by the sort key, with products the key ranks equal left in catalogue order |
| Shop.Filtered | components/pages/ShopPage.tsx:35-40 | the products whose name or description contains the query, case-insensitively, and whose category matches the type unless it is 'all', in catalogue order |
| Shop.MatchesSearch | components/pages/ShopPage.tsx:36-37 | the lower-cased query occurs in the lower-cased name or description |
| Shop.MatchesType | components/pages/ShopPage.tsx:38 | the type filter is 'all' or the product's category |
| Shop.Before | components/pages/ShopPage.tsx:42-56 | the order of each sort key: creation time up or down, price up or down, or name |
| Shop.FilteredAndSorted | components/pages/ShopPage.tsx:34-59 | the filtered products sorted by the order of the selected key |
| Shop.AddDisabled | components/pages/ShopPage.tsx:287 | the current page's Add button is disabled when the product is in the cart or out of stock (see also line 369) |
| Shop.OldAddDisabled | components/pages/ShopPage-old.tsx:275 | the old page's Add button is disabled only when the product is in the cart (see also line 343) |
| Shop.LowStockWarning | components/pages/ShopPage-old.tsx:288 | the old page warns 'Only N left in stock!' when stock is at most 3 (see also line 332) |
| Shop.ShopFilters.constructor | components/pages/ShopPage.tsx:19-21 | the filters start with an empty query, type 'all' and sort key 'newest' |
| Shop.ShopFilters.Shown | components/pages/ShopPage.tsx:34-59 | the products shown for the current query, type and sort key |
| Shop.SortKeyOrders | components/pages/ShopPage.tsx:44-56 | 'price-low' gives non-decreasing prices, 'price-high' non-increasing prices, 'oldest' ascending creation times and 'name' the name order |
| Shop.UnknownKeySortsNewestFirst | components/pages/ShopPage.tsx:53-55 | 'newest' and every unrecognised key sort by creation time, newest first |
| Shop.EmptyQueryKeepsAll | components/pages/ShopPage.tsx:36-43 | an empty query with type 'all' keeps the whole catalogue |
| Shop.AddRulesDiffer | components/pages/ShopPage.tsx:287 | the current and old pages' Add rules differ exactly on out-of-stock products not in the cart |
| Shop.ShopFilters.ClearFilters | components/pages/ShopPage.tsx:216-219 | Clear Filters resets the query and the type and keeps the sort key |
| ProductDetail.MaxQuantity | components/pages/ProductDetailPage.tsx:52 | the stepper's maximum is 10 in stock and 0 otherwise |
| ProductDetail.StepDown | components/pages/ProductDetailPage.tsx:202-205 | the minus button is disabled iff q ≤ 1, otherwise it sets q − 1 ≥ 1 |
| ProductDetail.StepUp | components/pages/ProductDetailPage.tsx:209-212 | the plus button is disabled iff q reaches the maximum, otherwise it sets q + 1 ≤ maximum |
| ProductDetail.StepsKeepRange | components/pages/ProductDetailPage.tsx:19 | both buttons keep the quantity within its range (see also lines 202-212) |
| ProductDetail.RangeForProduct | components/pages/ProductDetailPage.tsx:19 | an in-stock product's quantity stays in 1..10, and an out-of-stock one stays at 1 (see also line 52) |
| ProductDetail.ProductDetailPage.Decrement | components/pages/ProductDetailPage.tsx:202-205 | the quantity becomes StepDown's value, or stays when the button is disabled |
| ProductDetail.ProductDetailPage.Increment | components/pages/ProductDetailPage.tsx:209-212 | the quantity becomes StepUp's value, or stays when the button is disabled |
| ProductDetail.ProductDetailPage.AddToCart | components/pages/ProductDetailPage.tsx:54-62 | nothing is sent when the maximum is 0; otherwise the product's id, name, price and image are sent without the quantity, which resets to 1 |
| ProductDetail.RelatedSpec | components/pages/ProductDetailPage.tsx:309-311 | four related products, or all of them when there are fewer, none with the product's id, all of its category, being the first such products in catalogue order |
| ProductDetail.SkuShape | components/pages/ProductDetailPage.tsx:288 | the SKU is 'ART-' plus the id zero-padded to four characters; longer ids are kept as they are |
| ProductDetail.Related | components/pages/ProductDetailPage.tsx:309-311 | the first four catalogue products with another id and the same category |
| ProductDetail.Sku | components/pages/ProductDetailPage.tsx:288 | 'ART-' followed by the id left-padded with '0' to four characters |
| ProductDetail.ProductDetailPage.constructor | components/pages/ProductDetailPage.tsx:19 | the page opens on its product with quantity 1 |
| OrdersPage.Dedupe | components/admin/OrdersPage.tsx:27-29 | the kept orders come from the input and have pairwise distinct ids |
| OrdersPage.DedupeKeepsFirsts | components/admin/OrdersPage.tsx:27-29 | the kept orders are exactly the first occurrences of each id |
| OrdersPage.DedupeKeepsEveryId | components/admin/OrdersPage.tsx:27-29 | every id of the input survives |
| OrdersPage.FirstIndex | components/admin/OrdersPage.tsx:27-29 | every order has a first occurrence of its id at or before it |
| OrdersPage.MockOrderWins | components/admin/OrdersPage.tsx:23-29 | a mock order beats a stored order with the same id |
| OrdersPage.LoadedSpec | components/admin/OrdersPage.tsx:23-31 | the loaded list has unique ids, contains only merged orders, keeps every id and is sorted newest first |
| OrdersPage.Loaded | components/admin/OrdersPage.tsx:23-31 | the sample orders then the stored ones, de-duplicated by id, newest first |
| OrdersPage.NewestFirst | components/admin/OrdersPage.tsx:31 | orders are compared by creation time, newest first |
| OrdersPage.FilteredOrders | components/admin/OrdersPage.tsx:34-40 | an order is shown iff the query matches its id, name or e-mail and the status filter is 'all' or its status |
| OrdersPage.NoFilterShowsAll | components/admin/OrdersPage.tsx:34-40 | an empty query with 'all' shows every order in order |
| OrdersPage.MatchesSearch | components/admin/OrdersPage.tsx:35-37 | the lower-cased query occurs in the lower-cased order id, customer name or customer e-mail |
| OrdersPage.MatchesStatus | components/admin/OrdersPage.tsx:38 | the status filter is 'all' or the order's status name |
| OrdersPage.OfferedActions | components/admin/OrdersPage.tsx:245-276 | 'reviewing' offers accept or reject, 'accepted' offers fulfil, and every other status offers nothing |
| OrdersPage.ActionsEndInTwoSteps | components/admin/OrdersPage.tsx:245-276 | the only two-action path is reviewing → accepted → fulfilled, which ends there |
| OrdersPage.CheckoutOrdersHaveNoActions | components/admin/OrdersPage.tsx:245-276 | an order placed at checkout ('pending') is offered no action |
| OrdersPage.Patched | components/admin/OrdersPage.tsx:70-73 | on an ok reply only the orders with the key change, and only their status |
| OrdersPage.PatchedSelection | components/admin/OrdersPage.tsx:76-78 | the open order is patched iff its key matches |
| OrdersPage.StatsAtMostTotal | components/admin/OrdersPage.tsx:85-91 | the four buckets are disjoint and together count at most the total |
| OrdersPage.StatsAddsOrder | components/admin/OrdersPage.tsx:85-91 | one more order adds one to the total and one to exactly the bucket of its status |
| OrdersPage.UncountedStatuses | components/admin/OrdersPage.tsx:85-91 | shipped and confirmed orders fall into no bucket |
| OrdersPage.Stats | components/admin/OrdersPage.tsx:85-91 | the order count and the counts of the reviewing, accepted, fulfilled and rejected buckets |
| OrdersPage.OrdersView.constructor | components/admin/OrdersPage.tsx:21-32 | the page starts with the loaded list and no order open |
| OrdersPage.OrdersView.Select | components/admin/OrdersPage.tsx:200-240 | View opens the order and leaves the list alone |
| OrdersPage.OrdersView.HandleStatusUpdate | components/admin/OrdersPage.tsx:62-83 | an ok reply patches the list and the open order; a non-ok reply or an exception changes nothing |
| OrdersPage.PatchKeepsIds | components/admin/OrdersPage.tsx:70-73 | an update keeps the list's length, ids and order |
| OrderManagement.NextActions | components/admin/OrderManagementPage.tsx:202-241 | pending → confirmed or cancelled; confirmed → processing; processing → shipped; shipped → delivered; anything else → none |
| OrderManagement.CancelOnlyFromPending | components/admin/OrderManagementPage.tsx:202-217 | only 'pending' offers two actions, and only 'pending' leads to 'cancelled' |
| OrderManagement.ActionsRaiseRank | components/admin/OrderManagementPage.tsx:202-241 | every action moves strictly forward, so the graph is acyclic |
| OrderManagement.PathsFromPending | components/admin/OrderManagementPage.tsx:202-241 | a path from 'pending' either cancels at once and stops, or follows the lifecycle |
| OrderManagement.TerminalPathsFromPending | components/admin/OrderManagementPage.tsx:202-241 | from 'pending', a terminal status is reached only by four actions to 'delivered' or one to 'cancelled' |
| OrderManagement.ColorOf | components/admin/OrderManagementPage.tsx:90-100 | the colour is looked up on the lower-cased status, and unknown statuses are gray |
| OrderManagement.ColorIgnoresCase | components/admin/OrderManagementPage.tsx:90-100 | the colour does not depend on letter case |
| OrderManagement.CapitalisedPendingHasColourButNoActions | components/admin/OrderManagementPage.tsx:90-100 | 'Pending' gets the pending colour but no action (see also lines 202-217) |
| OrderManagement.WithStatus | components/admin/OrderManagementPage.tsx:70-75 | the update gives every row with the id the new status and leaves other rows alone |
| OrderManagement.NewestFirst | components/admin/OrderManagementPage.tsx:59 | the list is ordered by creation time, newest first |
| OrderManagement.OrderManagementPage.constructor | components/admin/OrderManagementPage.tsx:36-38 | the page starts loading, with no orders, no error and no alert, over the given orders table |
| OrderManagement.OrderManagementPage.FetchOrders | components/admin/OrderManagementPage.tsx:42-68 | the list becomes the table newest first, or the error is set; loading ends either way |
| OrderManagement.OrderManagementPage.UpdateOrderStatus | components/admin/OrderManagementPage.tsx:70-84 | a failed update alerts and changes nothing else; a successful one updates the table and re-fetches the list, leaving the error message as it was |
| OrderManagement.OrderManagementPage.Render | components/admin/OrderManagementPage.tsx:102-103 | loading first, then the error, then the list |
| OrderManagement.RefetchShowsUpdate | components/admin/OrderManagementPage.tsx:70-84 | after a successful update and re-fetch the list holds the updated order |
| Dashboard.SumTotalsAppend | app/api/dashboard/route.ts:46-48 | the sum of totals adds up over any split |
| Dashboard.RevenueAppend | app/api/dashboard/route.ts:46-48 | revenue adds up over any split of the table |
| Dashboard.RevenueOfOne | app/api/dashboard/route.ts:46-48 | one row adds its total (a missing one as 0) iff it is fulfilled or delivered |
| Dashboard.RevenueBounds | app/api/dashboard/route.ts:46-48 | with no negative totals, revenue lies between 0 and the sum of all totals |
| Dashboard.Revenue | app/api/dashboard/route.ts:46-48 | revenue is the sum of the totals of the fulfilled and delivered orders, a missing total counting 0 |
| Dashboard.OutOfStockFirst | app/api/dashboard/route.ts:80-88 | the first five out-of-stock products in table order, or all of them when there are fewer |
| Dashboard.Get | app/api/dashboard/route.ts:9-109 | a failed count, orders or recent query is 500; otherwise the product count, the four bucket counts of the order statuses, the fulfilled-or-delivered revenue, the first five recent orders and the first five out-of-stock products, or [] when the low-stock query fails |
| Dashboard.GetAddsRow | app/api/dashboard/route.ts:29-48 | one more order row adds one to exactly the bucket of its status, and its total (null as 0) to the revenue iff it is fulfilled or delivered |
| Dashboard.AllFulfilledCounted | app/api/dashboard/route.ts:29-43 | a table of fulfilled and delivered orders counts every row as fulfilled and none elsewhere |
| Dashboard.BucketsAtMostOrders | app/api/dashboard/route.ts:29-43 | the four buckets together count at most the number of orders |
| Dashboard.InFlightOrdersUncounted | app/api/dashboard/route.ts:29-48 | confirmed, processing and shipped orders are in no bucket and earn no revenue |
| Dashboard.NullOrdersCountNothing | app/api/dashboard/route.ts:29-48 | a null orders result counts like an empty table |
| MockData.MockStatsValues | lib/mock-data.ts:185-191 | the sample figures are six products, one pending, one fulfilled and revenue 450 |
| MockData.StatsOf | lib/mock-data.ts:185-191 | the sample figures: the product count, the number of 'reviewing' orders as pending, the number of 'fulfilled' orders and their summed totals |
| MockData.PendingNotCounted | lib/mock-data.ts:187 | a 'pending' order is not counted as pending |
| MockData.MockOrdersConsistent | lib/mock-data.ts:97-179 | every sample order's subtotal is Σ price × quantity of its lines, and its total equals its subtotal |
| MockData.MockOrderIdsDistinct | lib/mock-data.ts:94 | the sample order ids are pairwise distinct (see also lines 122 and 156) |
| MockData.MockLinesAtCataloguePrice | lib/mock-data.ts:4-179 | every ordered line is priced at the catalogue price of its product |
| AdminProducts.DashRuns | components/admin/ProductsPage.tsx:40 | the result is no longer than the input and contains no whitespace |
| AdminProducts.DashRunsKeepsWord | components/admin/ProductsPage.tsx:40 | a leading non-whitespace character is kept as it is |
| AdminProducts.DashRunsCollapses | components/admin/ProductsPage.tsx:40 | a leading whitespace run, however long, becomes one '-' |
| AdminProducts.DashRunsPrefix | components/admin/ProductsPage.tsx:40 | the characters before the first whitespace come through unchanged |
| AdminProducts.DashRunsChars | components/admin/ProductsPage.tsx:40 | every character of the result is '-' or a character of the input |
| AdminProducts.DashRunsOfWord | components/admin/ProductsPage.tsx:40 | a string without whitespace comes through unchanged |
| AdminProducts.DashRunsAtRun | components/admin/ProductsPage.tsx:40 | a word followed by a maximal whitespace run gives the word, one '-', and the result for the rest |
| AdminProducts.DashRunsKeepsChars | components/admin/ProductsPage.tsx:40 | every non-whitespace character of the input survives |
| AdminProducts.SlugShape | components/admin/ProductsPage.tsx:40 | a slug has no whitespace and no upper-case letter, and is no longer than its title (see also line 79) |
| AdminProducts.Slug | components/admin/ProductsPage.tsx:40 | the slug is the lower-cased title with every whitespace run replaced by one '-' (see also line 79) |
| AdminProducts.SlugIdempotent | components/admin/ProductsPage.tsx:40 | deriving a slug from a slug changes nothing (see also line 79) |
| AdminProducts.SlugOfOneWord | components/admin/ProductsPage.tsx:40 | a title without whitespace is only lower-cased (see also line 79) |
| AdminProducts.SlugKeepsChars | components/admin/ProductsPage.tsx:40 | a slug keeps every title character that is neither whitespace nor upper case (see also line 79) |
| AdminProducts.MockSlugNotDerived | components/admin/ProductsPage.tsx:40 | the sample slug "natures-symphony" is not what the page derives from "Nature's Symphony" |
| AdminProducts.Searched | components/admin/ProductsPage.tsx:29-32 | a product is listed iff the lower-cased query occurs in its lower-cased title or type |
| AdminProducts.MatchesSearch | components/admin/ProductsPage.tsx:29-32 | the lower-cased query occurs in the lower-cased title or type |
| AdminProducts.SubmitEnabled | components/admin/ProductsPage.tsx:225 | the submit button is enabled iff title, price, type and stock are all non-empty |
| AdminProducts.ProductsPage.constructor | components/admin/ProductsPage.tsx:16-27 | the page starts with the given products, an empty query, the dialog closed, nothing being edited and an empty form with one image field |
| AdminProducts.SavedImages | components/admin/ProductsPage.tsx:43 | the saved images are exactly the non-blank entries (see also line 82) |
| AdminProducts.FromForm | components/admin/ProductsPage.tsx:36-58 | the product built from the form has its id, time, title, derived slug, description, type, price, stock, and as images exactly the form's non-blank entries in order (see also lines 76-87) |
| AdminProducts.ReplaceById | components/admin/ProductsPage.tsx:76-87 | only products with the editing id are replaced; length and order are kept |
| AdminProducts.WithoutId | components/admin/ProductsPage.tsx:99-103 | delete removes every product with the id and nothing else |
| AdminProducts.AddThenDeleteRestores | components/admin/ProductsPage.tsx:49-58 | adding a product with a fresh id and deleting it restores the list (see also lines 99-103) |
| AdminProducts.DeleteMissingIdKeepsAll | components/admin/ProductsPage.tsx:99-103 | deleting an absent id changes nothing |
| AdminProducts.WithImageField | components/admin/ProductsPage.tsx:105-110 | adding a field appends one empty entry |
| AdminProducts.WithImageAt | components/admin/ProductsPage.tsx:112-117 | updating field i changes only entry i |
| AdminProducts.WithoutImageAt | components/admin/ProductsPage.tsx:119-124 | removing field i deletes only entry i |
| AdminProducts.ProductsPage.AddProduct | components/admin/ProductsPage.tsx:36-59 | add appends exactly the new product at the end and resets the form to empty with one image field |
| AdminProducts.ProductsPage.EditProduct | components/admin/ProductsPage.tsx:61-71 | the form is filled from the product, with at least one image field, and the product is remembered for update; the search query and the add dialog are unchanged |
| AdminProducts.ProductsPage.UpdateProduct | components/admin/ProductsPage.tsx:73-97 | update replaces only the edited product, keeping its id and creation time, then resets the form; the search query and the add dialog are unchanged |
| AdminProducts.ProductsPage.DeleteProduct | components/admin/ProductsPage.tsx:99-103 | a confirmed delete removes the products with the id; an unconfirmed one changes nothing; the search query and the add dialog are unchanged |
| AdminProducts.ProductsPage.AddImageField | components/admin/ProductsPage.tsx:105-110 | one empty image field is appended; the product being edited, the search query and the add dialog are unchanged |
| AdminProducts.ProductsPage.UpdateImageField | components/admin/ProductsPage.tsx:112-117 | only the given field changes; the product being edited, the search query and the add dialog are unchanged |
| AdminProducts.ProductsPage.RemoveImageField | components/admin/ProductsPage.tsx:119-124 | only the given field is removed, and the list never becomes empty (see also line 198); the product being edited, the search query and the add dialog are unchanged |
| AdminProducts.UpdateTouchesOnlyItsId | components/admin/ProductsPage.tsx:76-87 | products with other ids are unchanged and the edited ones keep their id |
| AdminSession.DigitPrefix | components/admin/AdminAuthWrapper.tsx:30 | the longest prefix of digits of the radix |
| AdminSession.ParseInt | components/admin/AdminAuthWrapper.tsx:30 | parseInt is NaN iff no decimal digit follows the leading whitespace and sign; after a '0x' or '0X' prefix it reads base 16, and is NaN iff no hex digit follows the prefix |
| AdminSession.Unsigned | components/admin/AdminAuthWrapper.tsx:30 | the text parseInt reads digits from: leading whitespace and one sign dropped |
| AdminSession.HexPrefixed | components/admin/AdminAuthWrapper.tsx:30 | the text after whitespace and sign starts with '0x' or '0X' |
| AdminSession.HexDigitsValue | components/admin/AdminAuthWrapper.tsx:30 | "1A" is two hex digits worth 26 |
| AdminSession.ParseHexPrefixed | components/admin/AdminAuthWrapper.tsx:30 | after a '0x' prefix parseInt reads the following hex digits in base 16 |
| AdminSession.HexPrefixReadInBase16 | components/admin/AdminAuthWrapper.tsx:30 | parseInt("0x1A") is 26 |
| AdminSession.EmptyHexIsNaN | components/admin/AdminAuthWrapper.tsx:30 | parseInt("0x") is NaN: a hex prefix with no digit after it reads nothing |
| AdminSession.ZeroReadsZero | components/admin/AdminAuthWrapper.tsx:30 | parseInt("0") is 0: a lone "0" is not a hex prefix |
| AdminSession.IntToString | components/admin/AdminAuthWrapper.tsx:39 | a written time is a non-empty string of digits |
| AdminSession.DigitsValueOfString | components/admin/AdminAuthWrapper.tsx:30 | the digits of a number denote that number (see also line 39) |
| AdminSession.ParseIntRoundTrip | components/admin/AdminAuthWrapper.tsx:30 | reading back a written time gives the time (see also line 39) |
| AdminSession.UnsignedOfDigits | components/admin/AdminAuthWrapper.tsx:30 | a non-empty digit string has no whitespace, sign or hex prefix to skip |
| AdminSession.ParseDigits | components/admin/AdminAuthWrapper.tsx:30 | parseInt of a non-empty digit string is the number its digits denote |
| AdminSession.ExpiryBoundary | components/admin/AdminAuthWrapper.tsx:29-33 | a session exactly five minutes old is still valid, and one millisecond more expires it |
| AdminSession.UnreadableTimeNeverExpires | components/admin/AdminAuthWrapper.tsx:30-33 | a time that parseInt reads as NaN never expires |
| AdminSession.Expired | components/admin/AdminAuthWrapper.tsx:29-33 | a session is expired iff its time parses and lies more than five minutes before now |
| AdminSession.StoredSession | components/admin/AdminAuthWrapper.tsx:24-28 | a session is stored iff the flag is 'true' and the time is a non-empty string |
| AdminSession.SoonIsNaN | components/admin/AdminAuthWrapper.tsx:30 | "soon" is read as NaN |
| AdminSession.OutcomeOf | components/admin/AdminAuthWrapper.tsx:122-136 | the login succeeds iff the API authenticated, and a failure carries the API's error |
| AdminSession.AdminAuthWrapper.HandleLogout | components/admin/AdminAuthWrapper.tsx:141-146 | both keys are removed, the user is signed out and the error cleared; signing out a signed-in admin stops the inactivity timer (see also lines 81-105) |
| AdminSession.AdminAuthWrapper.constructor | components/admin/AdminAuthWrapper.tsx:15-17 | on mount the admin is signed out, loading, with no error and no inactivity timer, over the given session storage |
| AdminSession.AdminAuthWrapper.SignIn | components/admin/AdminAuthWrapper.tsx:37 | signing in sets the flag and, when it was off, starts the ten-minute inactivity timer (see also lines 92-94) |
| AdminSession.AdminAuthWrapper.CheckAuth | components/admin/AdminAuthWrapper.tsx:22-42 | a live stored session signs in and rewrites the time to now; an expired one logs out; without one only loading ends; a restore that signs in starts the ten-minute inactivity timer (see also lines 86-92) |
| AdminSession.AdminAuthWrapper.ResetInactivityTimer | components/admin/AdminAuthWrapper.tsx:68-79 | the deadline moves ten minutes on, and the time is rewritten only while the flag is 'true' |
| AdminSession.AdminAuthWrapper.InactivityTimerFires | components/admin/AdminAuthWrapper.tsx:71-73 | once the deadline is reached the user is logged out and the timer is spent; before it nothing happens |
| AdminSession.AdminAuthWrapper.HiddenCheck | components/admin/AdminAuthWrapper.tsx:48-57 | one minute after hiding, the user is logged out iff the tab is still hidden, and that logout stops the inactivity timer |
| AdminSession.AdminAuthWrapper.BeforeUnload | components/admin/AdminAuthWrapper.tsx:60-64 | closing the tab removes both keys |
| AdminSession.AdminAuthWrapper.HandleLogin | components/admin/AdminAuthWrapper.tsx:108-139 | success stores both keys and signs in; a rejection shows the server error or the fallback; an exception shows the fixed message; loading ends; a successful login starts the ten-minute inactivity timer, which a failed one leaves as it was |
| AdminSession.AdminAuthWrapper.Render | components/admin/AdminAuthWrapper.tsx:153-173 | the spinner while loading, the login form while signed out, the content otherwise |
| AdminSession.FreshLoginRestores | components/admin/AdminAuthWrapper.tsx:24-40 | a login is restored by checkAuth at any time up to five minutes later (see also lines 124-129) |
| AdminSession.LogoutIdempotent | components/admin/AdminAuthWrapper.tsx:141-146 | after a logout no session is stored, and a second logout changes nothing more |
| AdminSession.WrongCredentialsShowServerError | components/admin/AdminAuthWrapper.tsx:130-133 | wrong credentials show the API's 'Invalid credentials' |
| AdminSession.IdleAfterLogin | components/admin/AdminAuthWrapper.tsx:66-105 | a signed-out admin who logs in and then stays idle for ten minutes is logged out, with no session stored and no timer left (see also lines 124-129) |
| AdminSession.IdleAfterRestore | components/admin/AdminAuthWrapper.tsx:66-105 | a session restored on mount, followed by ten minutes without activity, is logged out, with no session stored and no timer left (see also lines 22-42) |
| AppNavigation.Navigate | App.tsx:48-63 | 'product/X' opens product X on 'shop' keeping the order id; 'confirmation/X' opens order X on 'checkout' keeping the slug; any other target becomes the page and clears both |
| AppNavigation.NavigateToProduct | App.tsx:50-53 | opening a product sets exactly the slug and the shop page |
| AppNavigation.NavigateToConfirmation | App.tsx:54-57 | opening a confirmation sets exactly the order id and the checkout page |
| AppNavigation.DemoLogin | App.tsx:74-87 | only admin@nujuumarts.com with admin123 logs in, as 'Admin User'; anything else gives 'Invalid email or password' |
| AppNavigation.AdminViewOf | App.tsx:120-129 | 'products' and 'orders' select their views, and anything else the overview |
| AppNavigation.PageScreen | App.tsx:182-219 | the page switch shows home for every page other than shop, cart, checkout, about and contact |
| AppNavigation.RenderPage | App.tsx:106-219 | the admin login form first, the admin panel iff on 'admin' and authenticated, then the product page whenever a slug is set, then the confirmation of the order id whenever one is set, then the page switch |
| AppNavigation.UnauthenticatedAdminShowsHome | App.tsx:119 | an 'admin' page without a login shows home (see also lines 213-218) |
| AppNavigation.PlainTargetShowsItsPage | App.tsx:58-62 | a plain target renders its own page, whatever was open before (see also lines 182-219) |
| AppNavigation.ProductHidesConfirmation | App.tsx:54-57 | with a product open, a confirmation link still shows the product (see also lines 159-168) |
| AppNavigation.AdminPanelOverridesProduct | App.tsx:119-140 | the authenticated admin panel shows even while a slug is set |
| AppNavigation.LogoutKeepsOpenProduct | App.tsx:95-100 | logout keeps the slug, so a product opened earlier shows instead of home (see also lines 159-168) |
| AppNavigation.App.HandleNavigation | App.tsx:48-63 | the three navigation fields change as Navigate says, and nothing else |
| AppNavigation.App.ShowAdminLogin | App.tsx:102-104 | only the page changes, to 'admin-login' |
| AppNavigation.App.LoginFormBack | App.tsx:112 | the login form's back button sets only the page, to 'home' |
| AppNavigation.App.constructor | App.tsx:37-46 | the app starts on 'home' with no slug or order id, no admin signed in, the overview view, no login error and no spinner |
| AppNavigation.App.HandleAdminLogin | App.tsx:65-93 | the demo credentials sign in and open the overview on 'admin'; anything else sets only the error; the spinner is off at the end |
| AppNavigation.App.HandleAdminLogout | App.tsx:95-100 | the user is cleared and the page returns to home with the overview selected |
| AppNavigation.App.SetAdminView | App.tsx:134 | the admin layout's switch sets only the view |
| DarkMode.InitialDark | hooks/useDarkMode.ts:8-11 | the mode starts dark iff 'dark' is saved, or nothing is saved and the system prefers dark; a saved 'light' overrides the system |
| DarkMode.ThemeName | hooks/useDarkMode.ts:27 | the stored name is 'dark' iff the mode is dark |
| DarkMode.StoredThemeReadBack | hooks/useDarkMode.ts:8-11 | a stored preference is read back as the mode it was stored for (see also line 27) |
| DarkMode.ThemeState.constructor | hooks/useDarkMode.ts:6-20 | after mounting, the mode is the initial mode and the document class matches it |
| DarkMode.ThemeState.Toggle | hooks/useDarkMode.ts:22-35 | the mode flips, its name is stored and the document class matches it |
| DarkMode.ToggleTwice | hooks/useDarkMode.ts:22-35 | two toggles restore the mode and the document class |
| Sorting.InsertSorted | components/pages/ShopPage.tsx:43-56 | inserting into a sorted list keeps it sorted |
| Sorting.SortSorted | components/pages/ShopPage.tsx:43-56 | the sort's result is sorted by a total preorder |
| Sorting.SortKeepsElements | components/pages/ShopPage.tsx:43-56 | the sort keeps exactly the elements, as a permutation |
| Sorting.TiedWith | components/pages/ShopPage.tsx:43-56 | the elements the order ranks equal to a given one |
| Sorting.FilterCons | components/pages/ShopPage.tsx:43-56 | filtering a list with a first element gives that element if it is kept, then the rest filtered |
| Sorting.NotTiedPast | components/pages/ShopPage.tsx:43-56 | two elements the order puts strictly apart are never both tied with the same element |
| Sorting.InsertKeepsTies | components/pages/ShopPage.tsx:43-56 | inserting an element puts it before every element it is tied with, and leaves the order of each tie class otherwise as it was |
| Sorting.SortStable | components/pages/ShopPage.tsx:43-56 | the sort is stable: the elements of each tie class keep their input order |
| Sorting.SortDistinct | components/admin/OrdersPage.tsx:31 | sorting keeps keys pairwise distinct |
| Seqs.FilterAppend | components/admin/OrdersPage.tsx:34-40 | filtering distributes over concatenation |
| Seqs.FilterAll | components/admin/OrdersPage.tsx:34-40 | a filter that keeps everything returns the list |
| Seqs.FilterNone | app/api/dashboard/route.ts:46-48 | a filter that keeps nothing returns [] |
| Text.BlankIffAllSpace | components/pages/CheckoutPage.tsx:42 | a string is blank after trim iff all its characters are whitespace |
| Text.LowerIdempotent | components/pages/ShopPage.tsx:37 | lower-casing twice is lower-casing once |
| Text.LexLeTotal | components/pages/ShopPage.tsx:51-52 | the name order compares any two names |
| Text.Take | components/pages/ProductDetailPage.tsx:311 | `slice(0, n)` keeps the first n elements, or the whole list when it is shorter |
| Text.LexLeTransitive | components/pages/ShopPage.tsx:51-52 | the name order is transitive |

## Left out

- Floating point: money is `real`, so `toFixed(2)` display rounding and the dashboard's rounding of revenue to cents (app/api/dashboard/route.ts:96) are not modelled.
- Shop.Before: `localeCompare` is replaced by lexicographic order on character codes, and `new Date(...)` parsing of creation times by integer timestamps.
- Text.Lower, Text.Trim: ASCII only; Unicode case mapping and Unicode whitespace are not modelled.
- The cart store (its context, persistence and quantity updates) is outside the model: the cart pages read its lines and subtotal as inputs, and the checkout's `clearCart` empties a field.
- OrdersPage.MatchesSearch, OrdersPage.FilteredOrders, OrdersPage.NoFilterShowsAll: the search reads `order.id`, `order.customer_name` and `order.customer_email`, but neither the sample orders of lib/mock-data.ts:92-182 nor the orders the checkout stores have those fields (they carry `orderId` and a nested `customer`). As written, `order.id.toLowerCase()` at components/admin/OrdersPage.tsx:35 throws on the first order, so the page fails on every render once orders are loaded. The model gives every order an id, a customer name and an e-mail and states the search the page evidently means; the crash is not modelled.
- Checkout.WithField: a field name that is neither a form field nor 'address.' plus an address field adds a property the form type does not have; the model leaves the form unchanged for such names, which the page never passes.
- AdminSession.ParseInt: only the radix-less `parseInt` call of the source is modelled (bases 10 and 16); the value is unbounded, so precision loss above 2^53 is not modelled.
- Timers, event listeners and tab visibility are parameters of the session-guard methods (`now`, `stillHidden`, a timer firing); the `Date.now()` clock is a parameter everywhere.
- OrdersApi.OrderStore.Post: the item insert is one step that either stores every item row or none.
- ProductsApi.NewProduct: an explicit `inStock: null` is not distinguished from an absent field (both default to true in the model; the source keeps null).
- ProductsApi.Get, OrdersApi.OrderStore.Get: the GET handlers are modelled over the data they read; the per-id routes app/api/orders/[id]/route.ts and app/api/products/[id]/route.ts are not part of this model.
- AdminProducts.ProductsPage: `parseFloat`/`parseInt` of the price and stock fields, the number-to-text conversion when editing, the new id and the creation time are parameters.
- The fixed catalogue's `created_at` and `updated_at` (app/api/products/route.ts, set to the request time) are not part of this model; the model of lib/mock-data.ts leaves out the sample products' descriptions and image URLs and the sample orders' customer phones, addresses, item titles and item images, and keeps every creation time.
- Shop.OldAddDisabled, Shop.LowStockWarning: the old shop page is modelled only for its Add rule and low-stock warning; its filter and sort are the same as the current page's.
- OrderManagement.OrderManagementPage.UpdateOrderStatus: the re-fetch after an update is treated as finished before the handler returns.
- Dashboard.Get: statuses are the enumerated ones; a row with a status outside the enumeration cannot be expressed.
- AppNavigation.App.HandleAdminLogin: the simulated one-second wait cannot fail, so the 'Login failed' branch is unreachable and not modelled.
- Contact.ContactPage.HandleSubmit: the simulated submission cannot fail, so its catch branch is not modelled.
- Rendering, animation and styling of every component, and the e-mail HTML templates of lib/email.ts, are not part of this model.
