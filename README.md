# Techzone backend: order fulfilment, catalog and accounts in Dafny

This project models the core of the Techzone backend, a NestJS shop that sells software licence keys:

- **Order fulfilment:**
  - the checkout planner, which validates a cart against stock, licences and prices and builds the payment provider's line items;
  - idempotent order creation per checkout session;
  - the payment webhook, a state machine of signature, event kind, order creation, licence allocation and fulfilment;
  - licence allocation itself (`getLicense`).
- **The product store:**
  - the query rewriting of `find`;
  - licence lookup with a limit;
  - bulk licence updates;
  - SKU and licence deletion.
- **The catalog rules:**
  - duplicate product names;
  - pagination metadata;
  - SKU additions;
  - the `$set` key mapping of a SKU update;
  - licence-key add, update and remove;
  - review eligibility and the stored average rating.
- **The account rules:**
  - sign-up with its admin secret and one-time password (OTP);
  - the login gate;
  - email verification with expiry;
  - OTP re-sending;
  - name and password updates.

The project has two layers.

- **Functions over values.** `Fulfillment`, `Catalog`, `Accounts`, `Inventory`, `OrderStore` and `ProductQuery` describe each operation over the collections as values. Collections are sequences in the database's natural order, so "the first document that matches" (`findOne`, the positional `$`, `.limit`) is well defined. Exceptions become `Err` values of a `Result`. Lemmas state what each operation promises.
- **Classes with state.** The repositories (`ProductRepository`, `OrdersRepository`, `UserRepository`) and the services (`OrdersService`, `ProductsService`, `UsersService`) are classes. Their methods perform the source's steps one request at a time, loops included, and are proved to reach exactly the state and answer that the functions describe.

Inputs the code gets from outside are parameters:

- the payment provider's signature verdict, line items, session outcome and created ids;
- random draws, ids and SKU codes;
- the clock;
- the password-hash comparison and the hash itself.

Where the code and the specification disagree, the model follows the code:

- **A redelivered completion event.** The webhook does not skip it quietly. `create` refuses the second order with Conflict, so the webhook fails before any allocation (`Fulfillment.WebhookDuplicateIsRefused`).
- **Allocation does not mark every selected licence sold.** `getLicense` stamps the order id on each of them but sets `isSold` only when the new stock is exactly 0. It also writes a negative stock without complaint (`Fulfillment.GetLicenseMayDriveStockNegative`, `Fulfillment.ZeroStockMayLeaveUnsoldLicense`).
- **Stored orders carry no licence keys.** The keys are written into an in-memory copy of the order, but the persisted update spreads the order payload. The stored items therefore stay without keys (`Fulfillment.SettleNewOrder`).
- **The SKU schema declares no `stock` field**, yet the services read and write `skuDetails.$.stock`. The model keeps stock as the services use it.

## Model

| member | source | states |
|---|---|---|
| Fulfillment.ItemAsWrittenOutcome | src/orders/orders.service.ts:125-171 | a cart entry is NotFound exactly when no product embeds the SKU; otherwise it passes exactly when stock covers the quantity and a price id is given, and its line carries that price, the quantity, maximum = stock and minimum = 1 if stock > 1 else 0 |
| Fulfillment.CheckItemOutcome | src/orders/orders.service.ts:146-155 | with the licence check corrected, an entry passes exactly when the written checks pass and an unsold licence exists; otherwise it fails with the written error, or BadRequest when only the licence is missing |
| Fulfillment.CheckoutLicenceCheckNeverFires | src/orders/orders.service.ts:146-155 | a SKU with stock but no licence passes the check as written and is refused by the corrected one |
| Fulfillment.CollectOk | src/orders/orders.service.ts:124-172 | the cart loop completes exactly when every entry passes, with one line per entry in cart order |
| Fulfillment.CollectFirstError | src/orders/orders.service.ts:124-172 | a loop that stops returns the error of the first failing entry, all earlier entries having passed |
| Fulfillment.CollectStops | src/orders/orders.service.ts:124-172 | once an entry fails after passing ones, the loop's outcome is that error whatever follows |
| Fulfillment.CheckoutAccepts | src/orders/orders.service.ts:108-214 | the provider is reached exactly for a non-empty cart whose every entry passes; the lines sent are one per entry, in order, each the entry's line, and each entry has an unsold licence |
| Fulfillment.CheckoutRejects | src/orders/orders.service.ts:124-176 | an empty cart is BadRequest; otherwise a failing plan returns the error of its first failing entry |
| OrdersServices.OrdersService.CheckEntry | src/orders/orders.service.ts:125-171 | the per-entry checks, made through the repository, answer what `CheckItem` prescribes and change nothing |
| OrdersServices.OrdersService.Checkout | src/orders/orders.service.ts:108-214 | the cart loop answers `Fulfillment.Checkout`: provider session URL, BadRequest for an unknown price or empty plan, InternalServerError for any other provider failure; no store is modified |
| Fulfillment.CreateOrderOnce | src/orders/orders.service.ts:29-43 | a session that already has an order gets Conflict and nothing is stored; otherwise exactly one pending, undelivered order is appended and the session has exactly one order |
| OrdersServices.OrdersService.Create | src/orders/orders.service.ts:29-43 | the lookup and insert leave the order store as `CreateOrder` says, answering Conflict or the new order |
| Fulfillment.GetLicense | src/orders/orders.service.ts:317-332 | allocation fails, with NotFound, exactly when the product is missing or holds no SKU with the item's code |
| Fulfillment.GetLicenseKeys | src/orders/orders.service.ts:333-339 | the returned keys are those of the selected licences in selection order: unsold licences of that SKU, exactly min(quantity, available) of them for a positive quantity, all of them otherwise |
| Fulfillment.GetLicenseStock | src/orders/orders.service.ts:343-352 | the resolved SKU is embedded in some product; the SKU the positional `$` selects gets `stock - quantity`, whatever its sign, and nothing else in any product changes |
| Fulfillment.GetLicenseLicences | src/orders/orders.service.ts:354-377 | exactly the selected licences change: each gets the order id and keeps its key, and is sold exactly when the new stock is 0 (or it was sold already) |
| Fulfillment.GetLicenseMayDriveStockNegative | src/orders/orders.service.ts:343-352 | an order for 3 units of a SKU with 1 in stock leaves stock -2 |
| Fulfillment.ZeroStockMayLeaveUnsoldLicense | src/orders/orders.service.ts:354-377 | when stock reaches 0, only the selected licence is sold and another unsold licence of the SKU stays unsold |
| OrdersServices.OrdersService.ResolveSku | src/orders/orders.service.ts:319-332 | the product and SKU lookups resolve exactly the SKU `AllocationSku` describes, or none, and change nothing |
| OrdersServices.OrdersService.StoreAllocation | src/orders/orders.service.ts:341-377 | the stock write and the licence update leave products and licences exactly as `Fulfillment.Allocate` describes for the selected licences |
| OrdersServices.OrdersService.GetLicense | src/orders/orders.service.ts:317-382 | the repository calls leave products and licences as `Fulfillment.GetLicense` says and answer its keys |
| OrdersServices.OrdersService.FullfillOrder | src/orders/orders.service.ts:384-397 | the first order of the session is replaced by the update, or nothing changes when the session has none |
| Fulfillment.AllocateAllFails | src/orders/orders.service.ts:238-245 | the `Promise.all` pass fails, with NotFound, exactly when some item's product or SKU code is missing from the catalog as it stood before the pass; a failing item does not keep the other items from allocating |
| Fulfillment.AllocateAllKeepsCatalog | src/orders/orders.service.ts:238-245 | the whole pass changes no product and no SKU except for SKU stock |
| Fulfillment.OrderObject | src/orders/orders.service.ts:278-315 | the order payload is built exactly when the provider lists line items that all have a price, carrying the session id, payment status, user and one entry per line; otherwise InternalServerError |
| Fulfillment.WebhookGuards | src/orders/orders.service.ts:219-235 | an invalid signature is BadRequest with no change; any other event kind is acknowledged with no change |
| Fulfillment.WebhookDuplicateIsRefused | src/orders/orders.service.ts:236-237 | a completion event for a session that already has an order is Conflict and changes nothing |
| Fulfillment.WebhookNewSession | src/orders/orders.service.ts:236-251 | a new session gets exactly one pending order; unpaid stops there, paid goes on to settle |
| Fulfillment.SettleNewOrder | src/orders/orders.service.ts:238-251 | settling a just-stored order allocates every item; when the pass fails (see `AllocateAllFails`) the other items' writes stay and the order stays pending, otherwise the order is completed and delivered, its stored items hold no keys, and the session still has one order |
| Fulfillment.WebhookRedeliveryIsNoOp | src/orders/orders.service.ts:216-276 | a second delivery of a processed event is Conflict and leaves the stores as the first left them |
| OrdersServices.OrdersService.Webhook | src/orders/orders.service.ts:216-276 | the steps made call by call reach the result and stores `Fulfillment.Webhook` describes |
| Fulfillment.AllocateAllStep | src/orders/orders.service.ts:238-245 | a failing item writes nothing and leaves the pass failed; an allocated item adds exactly its own `getLicense` writes, whatever failed before it |
| OrdersServices.OrdersService.AllocateItems | src/orders/orders.service.ts:238-245 | the item loop runs `getLicense` for every item, as `Promise.all` does, leaves products and licences as `Fulfillment.AllocateAll` describes and reports the first failure |
| OrdersServices.OrdersService.Settle | src/orders/orders.service.ts:238-251 | the item loop and the final update reach the result and stores `Fulfillment.Settle` describes |
| OrderStore.SessionIndex | src/shared/repositories/order.repository.ts:17-19 | `findOne` by session id finds the first order of that session, or none exactly when no order has it |
| OrderStore.UpdateBySession | src/shared/repositories/order.repository.ts:25-27 | only the first order of the session is replaced; every other order is unchanged |
| OrderStore.NewOrder | src/shared/repositories/order.repository.ts:21-23 | a created order is pending and undelivered, for the payload's session and order id, with one item per entry and no keys |
| ProductQuery.SearchStep | src/shared/repositories/product.repository.ts:59-62 | a truthy `search` that `RegExp` rejects fails with status 500 and changes nothing; one it accepts is removed and replaced by a `productName` pattern of its text; every other key is kept |
| ProductQuery.SortOrder | src/shared/repositories/product.repository.ts:64-86 | "asc" is 1, "desc" is -1, and nothing else is a direction |
| ProductQuery.SortStep | src/shared/repositories/product.repository.ts:64-86 | a truthy sort key must be a direction, which moves into the sort options and leaves the query; anything else is BadRequest |
| ProductQuery.RewriteFindOutcome | src/shared/repositories/product.repository.ts:58-93 | `find` fails with status 500, leaving the query as it was, exactly when a truthy `search` is no pattern; otherwise with BadRequest exactly when a truthy `avgRating` or `createdAt` is not a direction; on success both are moved to the sort, `search` becomes a `productName` pattern, and other query and sort keys are untouched |
| ProductStore.ProductRepository.Find | src/shared/repositories/product.repository.ts:58-93 | the in-place rewrite of the query and sort objects ends in the state `RewriteFind` describes, including the rewrites made before a rejection |
| Inventory.FindLicense | src/shared/repositories/product.repository.ts:109-116 | the result is a prefix of the matches in natural order: min(limit, matches) of them for a positive limit, every match with no limit or a limit of 0 or below |
| Inventory.MatchingEmpty | src/shared/repositories/product.repository.ts:109-116 | no licence matches exactly when the lookup returns nothing |
| Inventory.UpdateLicenseMany | src/shared/repositories/product.repository.ts:124-126 | exactly the licences with a listed id get the order id, and are sold when the update sells, keeping their id, key, product and SKU; all others are unchanged |
| Inventory.DeleteSku | src/shared/repositories/product.repository.ts:128-137 | only that product's SKU list changes: it no longer holds the SKU id, all its other SKUs remain in their order, and no SKU is added |
| Inventory.SkusWithout | src/shared/repositories/product.repository.ts:128-137 | the `$pull` keeps exactly the SKUs with another id, in their order, and changes nothing when none has the id |
| Inventory.DeleteAllLicences | src/shared/repositories/product.repository.ts:139-143 | with a truthy product id, exactly that product's licences go; otherwise exactly that SKU's licences go |
| Inventory.SetSkuStock | src/orders/orders.service.ts:345-352 | the positional `$` write: in the first product embedding the SKU, the first SKU with that id gets the new stock; nothing else changes, and with no owner nothing changes at all |
| Inventory.SetSkuStockKeepsCatalog | src/orders/orders.service.ts:345-352 | the stock write changes nothing in the catalog but a SKU's stock |
| Inventory.SetSkuStockReports | src/orders/orders.service.ts:345-352 | after the write the store reports the written stock for that SKU |
| ProductStore.ProductRepository.CreateLicense | src/shared/repositories/product.repository.ts:95-103 | a new unsold licence of that product and SKU, without an order, is appended |
| ProductStore.ProductRepository.RemoveLicense | src/shared/repositories/product.repository.ts:105-107 | the first licence with the id is removed and returned, or nothing happens when there is none |
| ProductStore.ProductRepository.UpdateLicense | src/shared/repositories/product.repository.ts:118-122 | only the first licence with the id gets the new key, and it is returned |
| Catalog.CreateProductOutcome | src/products/products.service.ts:37-68 | a taken name is Conflict with nothing stored and any other name is accepted; then exactly the product is appended, with the provider product id when it named none, and unique names stay unique |
| ProductsServices.ProductsService.CreateProduct | src/products/products.service.ts:37-68 | the lookup and insert leave the catalog as `Catalog.CreateProduct` says |
| Catalog.CeilDivIsCeiling | src/products/products.service.ts:116 | `Math.ceil(a / b)` is the least whole number at or above the quotient, for either sign of `b` |
| Catalog.PageMetadataMeaning | src/products/products.service.ts:82-117 | page defaults to 1 and limit to 12; skip counts the earlier pages' documents; for a positive limit the pages are the fewest that hold every product, and 0 exactly when there are none |
| Catalog.ListProducts | src/products/products.service.ts:100-121 | an empty page is NotFound; otherwise the listing holds the page's products and the reported total |
| ProductsServices.ProductsService.FindAllProducts | src/products/products.service.ts:70-125 | `homePage` leaves the query whether or not it is truthy; a truthy one answers the aggregation, NotFound when empty; otherwise the rewritten query and the answer are those of `RewriteFind` and `ListProducts` for the defaulted options |
| Catalog.HomeProducts | src/products/products.service.ts:88-98 | the home page is NotFound exactly when the aggregation answers no document, and otherwise answers its documents |
| Catalog.UpdateSkusOutcome | src/products/products.service.ts:287-345 | an unknown product is NotFound; a created price without id is InternalServerError; every other update is accepted and the SKUs are appended in order, each with its code and a non-empty price id, keeping a given price id |
| ProductsServices.ProductsService.UpdateProductSku | src/products/products.service.ts:303-335 | the in-place loop over the array leaves every SKU prepared and the catalog as `UpdateSkus` says |
| Catalog.UpdateDocMapsEveryKey | src/products/products.service.ts:388-391 | every key k of a body with distinct keys has the path `skuDetails.$.k` with its value, and the document has no other path |
| Catalog.UpdateDocValue | src/products/products.service.ts:388-391 | a path is present exactly for the keys of the body and holds the body's value, the later entry winning |
| Catalog.UpdateDocSetsBody | src/products/products.service.ts:388-396 | setting the document built from a body gives the SKU whose every field is the body's value, or the old one when the body has none |
| Catalog.SetEntryValues | src/products/products.service.ts:367-386 | assigning `data.stripePriceId` gives it the new value and leaves every other key's value |
| Catalog.SetEntryKeys | src/products/products.service.ts:367-386 | the assignment adds that key, if new, to the body's keys and no other |
| Catalog.SetEntryDistinct | src/products/products.service.ts:367-386 | the assignment keeps the keys distinct |
| Catalog.UpdateSkuByIdOutcome | src/products/products.service.ts:347-406 | a missing product or SKU is NotFound; otherwise only that SKU changes, to what the body describes, with the new price id when the price changed and the old price when it did not |
| ProductsServices.ProductsService.UpdateProductSkuById | src/products/products.service.ts:347-406 | the checks, price handling and `$set` leave the catalog as `UpdateSkuById` says |
| Catalog.SkuCheck | src/products/products.service.ts:418-426 | the product and SKU checks pass exactly when the product exists and holds the SKU, and otherwise fail with NotFound |
| Catalog.AddLicenseOutcome | src/products/products.service.ts:408-446 | a missing product or SKU is NotFound, an empty key BadRequest, and every other request is accepted; then exactly one unsold licence of that product and SKU is appended |
| ProductsServices.ProductsService.AddProductSkuLicense | src/products/products.service.ts:408-446 | the checks and insert leave the licences as `AddLicense` says |
| Catalog.RemoveLicenseOutcome | src/products/products.service.ts:448-466 | an unknown id is NotFound; otherwise exactly the first licence with that id is removed, order kept |
| ProductsServices.ProductsService.RemoveProductSkuLicense | src/products/products.service.ts:448-466 | the removal leaves the licences as `RemoveLicenseById` says and returns the removed licence |
| Catalog.ListLicenses | src/products/products.service.ts:468-500 | a missing product or SKU is NotFound; otherwise exactly the licences of that product and SKU are listed |
| ProductsServices.ProductsService.GetProductSkuLicenses | src/products/products.service.ts:468-500 | the repository calls answer `ListLicenses` and change nothing |
| Catalog.UpdateLicenseKeyOutcome | src/products/products.service.ts:502-545 | corrected: missing product, SKU or licence id is NotFound, an empty key BadRequest, every other request is accepted; then only the first licence with the id gets the key; it agrees with the written code whenever the id exists |
| Catalog.UpdateLicenseKeyUnknownIdPasses | src/products/products.service.ts:527-530 | with an unknown licence id the written code answers success with no change, the corrected one NotFound |
| ProductsServices.ProductsService.UpdateProductSkuLicense | src/products/products.service.ts:502-545 | the corrected checks and update leave the licences as `UpdateLicenseKey` says |
| Catalog.NewAverageIsCurrent | src/products/products.service.ts:578-601 | the corrected average is made of exactly the ratings stored after the push |
| Catalog.NewAverageAsWrittenIgnoresNewRating | src/products/products.service.ts:578-589 | after a 5 and a new 1 the written average is 5.0 where the stored reviews average 3.0 |
| Catalog.AddReviewOutcome | src/products/products.service.ts:547-611 | for a review whose customer is the sending user: unknown product is NotFound; a user who already reviewed it or has no order holding it is BadRequest; every other review is accepted, and then only that product gains the review, holds a review by the user, and its average is current |
| Catalog.AddReviewOnce | src/products/products.service.ts:558-567 | after an accepted review, any further review of the same product by the same user is BadRequest |
| ProductsServices.ProductsService.CollectRatings | src/products/products.service.ts:579-582 | the `forEach` loop collects the ratings of the reviews in order |
| ProductsServices.ProductsService.AddProductReview | src/products/products.service.ts:547-611 | the checks, ratings loop and update leave the catalog as `AddReview` says |
| Inventory.FeedbackWithout | src/products/products.service.ts:598-601 | the `$pull` keeps exactly the reviews with another id |
| Catalog.RemoveReviewOutcome | src/products/products.service.ts:613-657 | unknown product or review is NotFound; otherwise only that product's reviews and average change, the review is gone, every other review stays and none is added, and the average is that of the remaining reviews, "0" when none remain |
| ProductsServices.ProductsService.CollectOtherRatings | src/products/products.service.ts:630-635 | the `forEach` loop collects, in order, the ratings of every review except the removed one |
| ProductsServices.ProductsService.RemoveProductReview | src/products/products.service.ts:613-657 | the filtered ratings loop and the update leave the catalog as `RemoveReview` says |
| Accounts.Otp | src/users/users.service.ts:60 | the OTP lies in [100000, 999999] |
| Accounts.OtpTextRoundTrip | src/users/users.service.ts:60-69 | the stored OTP text reads back as the drawn number |
| Accounts.OtpTextIsSixDigits | src/users/users.service.ts:60-69 | the stored OTP text is six decimal digits |
| Accounts.CreateUserOutcome | src/users/users.service.ts:36-69 | an admin with a secret other than the configured one is InternalServerError; a taken email is Conflict with nothing stored; every other sign-up is accepted, and then one user is appended with the new id, the name and the email: verified exactly when admin, with the hash, a six-digit OTP and an expiry ten minutes ahead; emails stay unique |
| UsersServices.UsersService.Create | src/users/users.service.ts:30-102 | the in-place rewrite of the body sets the hash and `isVerified` (true for admins, false for customers) and the store changes as `CreateUser` says |
| Accounts.LoginOutcome | src/users/users.service.ts:112-126 | every refusal is Unauthorized; a login succeeds exactly for the first user with the email when verified and the password matches |
| UsersServices.UsersService.Login | src/users/users.service.ts:104-153 | the lookups answer what `Login` prescribes |
| Accounts.VerifyEmailOutcome | src/users/users.service.ts:155-183 | verification succeeds exactly when the email is known, the stored OTP is the one given and has not expired; refusals are Unauthorized and change nothing; success sets `isVerified` of that user and nothing else |
| UsersServices.UsersService.VerifyEmail | src/users/users.service.ts:155-183 | the checks and update leave the users as `VerifyEmail` says |
| Accounts.SendOtpOutcome | src/users/users.service.ts:185-206 | an unknown email is Unauthorized and a verified user InternalServerError with nothing changed; every unverified user is accepted, and then only that user's OTP and expiry change, to a six-digit OTP valid for ten minutes |
| Accounts.SendOtpThenVerify | src/users/users.service.ts:155-206 | the OTP just sent verifies the account until it expires, after which no new OTP is sent |
| UsersServices.UsersService.SendOtpEmail | src/users/users.service.ts:185-234 | the checks and update leave the users as `SendOtp` says |
| Accounts.UpdateProfileOutcome | src/users/users.service.ts:311-350 | BadRequest exactly when neither field is given or a new password comes without the old one for a known user; Unauthorized exactly for an unknown user or a wrong old password; every other request is accepted, and then only that user's password hash and/or name change |
| Accounts.UpdatesKeepEmails | src/users/users.service.ts:155-350 | the verification, OTP, password and name writes keep emails unique |
| UsersServices.UsersService.UpdatePasswordOrName | src/users/users.service.ts:311-365 | the checks and writes leave the users as `UpdateProfile` says and answer the stored name and email |

## Left out

- Payment provider calls are parameters: session creation, line-item listing, signature verification, products and prices. Their answers are given to the model; the calls themselves are not modelled.
- Mail sending and templates, JWT signing, and bcrypt hashing and comparison are not modelled. The hash is a given string and the comparison a given function. A missing mail template, which the code reports as InternalServerError after the store is written, is not modelled.
- Random values and the clock are given as parameters: order ids, SKU codes, OTP draws and the current time.
- `findProductWithGroupBy`, the aggregation behind the home page of `findAllProducts`, is not modelled: its semantics live in the database, and its answer is given as a parameter.
- `new RegExp(search, 'i')` is not modelled: whether it accepts the search text is given as a parameter, and the pattern is kept as its source text.
- `paginate` is not modelled: its matching, paging and sorting live in the database library. `find` is given the page it answers.
- Average ratings are kept as the list of ratings they average. The floating-point text of `toFixed(2)` is not modelled.
- The webhook allocates the items of an order with `Promise.all`: every `getLicense` call runs, and one rejection does not cancel the others. The model runs every item, keeps the first failure, and takes the items one after another, each seeing the writes of the earlier ones. Interleavings in which two items of the same SKU read the same stock or select the same licences are not modelled.
- New documents get their database id as a parameter.
- Both the order and licence schemas are not part of this model. A new order is taken to be pending and undelivered, and a new licence unsold and without an order.
- `forgotPassword`, `findAll` and `remove` of the users service are not part of this model. Neither are the product image upload, `findOneProduct`, `updateProduct` and `removeProduct`.
- The controllers call `deleteProductSkuById`, which the products service does not define. The repository's `deleteSku` and `deleteAllLicences` are modelled on their own.
- Fulfillment.CheckItem, OrdersServices.OrdersService.CheckEntry and OrdersServices.OrdersService.Checkout check for an unsold licence, which the code as written does not (see Findings).
- Catalog.UpdateLicenseKey and ProductsServices.ProductsService.UpdateProductSkuLicense refuse an unknown licence id, which the code as written does not (see Findings).
- Catalog.NewAverage and ProductsServices.ProductsService.AddProductReview count the new rating in the average, which the code as written does not (see Findings).
- UsersServices.UsersService.Login: the removal of the `token` field touches no field of the user schema and is not modelled.

## Findings

| source | as written | input that shows it | evidently intended | confidence | as-written member | corrected member |
|---|---|---|---|---|---|---|
| src/orders/orders.service.ts:146-155 | `!availableItems` tests the array that `findLicense` returns; an array is never falsy, so the check never rejects | a SKU with stock 5, a price id, and no licences: checkout proceeds | refuse a cart entry whose SKU has no unsold licence | not executed | Fulfillment.CheckoutLicenceCheckNeverFires | Fulfillment.CheckItemOutcome |
| src/products/products.service.ts:527-530 | `!license` tests the array that `findLicense` returns, so an unknown licence id passes and the update matches nothing | an existing product and SKU, key "KEY-9", licence id "l9" with no licences: success, no change | NotFound for an unknown licence id | not executed | Catalog.UpdateLicenseKeyUnknownIdPasses | Catalog.UpdateLicenseKeyOutcome |
| src/products/products.service.ts:578-589 | the average is taken over the existing reviews only; the rating being added is left out | one review rated 5, then a new review rated 1: stores 5.00 instead of 3.00 | the average of all reviews stored after the push | not executed | Catalog.NewAverageAsWrittenIgnoresNewRating | Catalog.NewAverageIsCurrent |
