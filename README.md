# Hari Om Fashion storefront — a Dafny model

This project models the core of the Hari Om Fashion clothing storefront. It covers three parts.

- The Express/Mongoose backend:
  - order creation, payment verification, cash-on-delivery settlement and the payment webhook;
  - the payment ledger and its statistics;
  - the cart, wishlist, product, review, profile, authentication and admin-login routes;
  - the admin order-status route and the dashboard counts.
- The customer-facing React pages:
  - cart totals and checkout;
  - the shop filters;
  - product cards and the product detail page;
  - the review widget and the home page's toasts, trending list and banner.
- The admin pages: orders, payments, the product form and categories.

Database collections become `map`s from document id to document. A handler that updates documents in place is a method of a class holding those maps, and its `ensures` clauses give the new state. The decisions those handlers make (which error, which document) are pure functions. Lemmas about those functions state what the code promises:
- round trips;
- the ledger mirroring every order's paid flag;
- idempotence;
- totals agreeing between the client and the server.

React component state becomes a class whose methods are the event handlers. The callbacks are given as parameters. These include:
- the HMAC function, JWT verification and signing;
- the Razorpay order creation, the Cloudinary upload and the file encoder;
- object URLs and `Number()` parsing.

Time is given as an integer parameter.

Modules:
- Shared modules:
  - `Wrappers` holds optional values and HTTP replies.
  - `Text` holds JavaScript string methods; `trim` removes ASCII whitespace only.
  - `Values` holds dynamic JSON values with JavaScript truthiness and `??`.
  - `Listing` holds filter, count, subsequence and newest-first sorting.
  - `Accounts` holds the user document.
- Order and payment modules:
  - `OrderSchema` holds the order and payment schemas.
  - `OrderService` holds order creation, verification, COD, the webhook, admin status and the order listings.
  - `LedgerStats` holds the admin payment summary.
  - `Dashboard` holds the dashboard counts.
- Other backend route modules:
  - `Cart` and `Wishlist` hold the per-user lists.
  - `ProductRoutes` holds the mounted product router.
  - `ProductRouter` holds the second product router, kept in `models/Product.js`.
  - `ProductBinding` says what `Product` is bound to in the files that import `models/Product.js`.
  - `Reviews`, `Profile`, `Auth` and `AdminLogin` hold the other backend routes.
- Frontend modules:
  - `CartPage`, `Checkout`, `Shop`, `ProductCard`, `ProductDetail`, `ReviewWidget` and `Home` are the customer pages and components.
  - `Display` holds rounding, star rows and carousel arithmetic.
  - `ImageUrls` holds image URL normalisation.
  - `OrdersPage`, `PaymentsPage`, `ProductAdmin` and `AdminCategories` are the admin pages.

## Model

| member | source | states |
|---|---|---|
| OrderSchema.ParseMethod | Backend/models/Order.js:17 | a payment method is accepted exactly when it is one of COD, UPI, CARD, and the parsed method prints back as the input |
| OrderSchema.ParseMethodName | Backend/models/Order.js:17 | parsing the name of any method gives that method back (round trip) |
| OrderSchema.ItemImage | Backend/models/Order.js:3-9 | an item's image is the supplied one, or the empty-string default |
| OrderSchema.NewOrder | Backend/models/Order.js:11-28 | an order document is valid exactly when it has a user, a total, an enumerated method and valid items; the stored fields are the given ones, with a shipping fee of 49, status "Pending" and unpaid as defaults |
| OrderSchema.LedgerMethodOf | Backend/routes/orderRoutes.js:84 | the ledger record stores the order's own method string, so never the "Pending" placeholder |
| OrderSchema.NewPayment | Backend/models/Payment.js:3-21 | a ledger record is valid exactly when order, user and amount are present; the method and status default to Pending |
| OrderService.RequestedIds | Backend/routes/orderRoutes.js:36 | the ids looked up are the requested product ids, in order |
| OrderService.FoundCountMatches | Backend/routes/orderRoutes.js:36-40 | the found count equals the requested count exactly when every id is in the catalogue and no id repeats, so a duplicated id is refused as "Some products not found" |
| OrderService.Thumbnail | Backend/routes/orderRoutes.js:50 | an item's image is the product's main image, else its first image, else empty |
| OrderService.Snapshot | Backend/routes/orderRoutes.js:43-52 | an order item copies the catalogue name and price, the requested quantity and the thumbnail |
| OrderService.Snapshots | Backend/routes/orderRoutes.js:43-52 | the items are one snapshot per request line, in order |
| OrderService.ItemsTotalAppend | Backend/routes/orderRoutes.js:54-56 | the items total of a concatenation is the sum of the totals |
| OrderService.ItemsTotal | Backend/routes/orderRoutes.js:54-57 | the items total (Σ price × quantity, the `reduce`) is never negative when no price or quantity is; its partners are ItemsTotalAppend and Checkout.ItemsTotalMatchesSubtotal |
| OrderService.SnapshotsValid | Backend/models/Order.js:3-9 | the snapshot lines pass the item schema exactly when every requested product id is non-empty and its catalogue product has a name |
| OrderService.Plan | Backend/routes/orderRoutes.js:25-63 | with `Product` a product collection: each guard's error in source order (no items, bad method, unknown or repeated products, unknown user, incomplete profile); on success the items are the catalogue snapshots and total = items total + shipping fee (49 by default), and the draft passes the order schema; conversely the order is accepted exactly when every guard passes and the schema accepts the lines (`Placeable`) |
| OrderService.PlanWith | Backend/routes/orderRoutes.js:25-40 | the two request checks come first under any binding; past them, `Product.find` on the router answers 500, and a product collection gives `Plan`, so it accepts exactly the `Placeable` requests |
| OrderService.AsImportedPlacesNoOrder | Backend/routes/orderRoutes.js:34-40 | with `Product` as imported, every request is refused, with 500 once it passes the two checks |
| OrderService.Placed | Backend/routes/orderRoutes.js:66-74 | a placed order keeps the draft's items, total and fee; a COD order is "Pending" and unpaid, any other is "Created" and marked paid |
| OrderService.PlacedPayment | Backend/routes/orderRoutes.js:81-87 | the ledger record carries the order's total and method, and is Paid exactly when the order is not COD |
| OrderService.SessionFor | Backend/routes/orderRoutes.js:91-105 | a gateway session exists exactly for non-COD orders, requested for the total in paise (×100) in INR with the order id as receipt |
| OrderService.Bumped | Backend/routes/orderRoutes.js:77-78 | placing an order raises the user's order count by one (missing counts as 0) and changes nothing else |
| Accounts.NextOrderCount | Backend/routes/orderRoutes.js:77 | `(orders \|\| 0) + 1` |
| Accounts.WithoutPassword | Backend/routes/user.js:30 | the public user has every field of the stored user except the password |
| OrderService.Settle | Backend/routes/orderRoutes.js:139-147 | settling marks the order paid and "Processing" with the given result and time, and leaves every other field alone |
| OrderService.SettleTwice | Backend/routes/orderRoutes.js:139-147 | settling twice with the same result equals settling once at the later time |
| OrderService.FindLedger | Backend/routes/orderRoutes.js:150 | finds the first ledger record of an order, or reports that there is none |
| OrderService.SettleLedger | Backend/routes/orderRoutes.js:150-155 | only the order's first ledger record changes, to Paid with the given method; none found leaves the ledger unchanged |
| OrderService.CreateKeepsLedger | Backend/routes/orderRoutes.js:66-87 | creating an order and its ledger record together keeps every order's ledger record mirroring its paid flag |
| OrderService.SettleKeepsLedger | Backend/routes/orderRoutes.js:139-155 | settling an order and its ledger record together keeps the mirror |
| OrderService.SamePaidFlagKeepsLedger | Backend/routes/adminOrders.js:35-38 | a change that keeps the paid flag (an admin status change) keeps the mirror |
| OrderService.VerifyDecision | Backend/routes/orderRoutes.js:119-137 | missing signature is 400, missing key secret 500, a wrong HMAC of `orderId\|paymentId` 400; a matching signature with a missing or unknown order id is exactly 404 "Order not found"; success exactly when the signature matches and the order exists |
| OrderService.ClientResult | Backend/routes/orderRoutes.js:139-147 | the stored payment result holds the client's payment id, status "Paid" and the signed evidence |
| OrderService.ManualId | Backend/routes/orderRoutes.js:175 | the COD payment id is "manual_" followed by the time |
| OrderService.Correlator | Backend/routes/paymentWebhook.js:30 | the webhook finds the order by the notes' order id, else the receipt, and never by an empty string |
| OrderService.WebhookDecision | Backend/routes/paymentWebhook.js:11-58 | a signature other than the HMAC of the raw body is 400; a correctly signed "payment.captured" event with a payment entity settles an order exactly when its correlator names an existing order, and that order with that entity; a missing or unknown correlator and every other event are acknowledged without change; an unreadable body or a captured event without a payment is 500 |
| OrderService.CapturedResult | Backend/routes/paymentWebhook.js:35-43 | the webhook's payment result is the gateway entity, status "Captured" |
| OrderService.WebhookChangesOnlyCaptured | Backend/routes/paymentWebhook.js:28 | an event other than payment.captured never selects an order to settle |
| OrderService.WebhookCanDesyncLedger | Backend/routes/paymentWebhook.js:35-43 | there is a mirrored store in which the webhook's settlement leaves the order paid and its ledger record Pending |
| OrderService.WebhookOnPaidKeepsLedger | Backend/routes/paymentWebhook.js:35-43 | on an order that is already paid, the webhook keeps the mirror |
| OrderService.AdminStatusExcludesLifecycle | Backend/routes/adminOrders.js:27-29 | the admin can never set "Processing" or "Created" |
| OrderService.StatusDecision | Backend/routes/adminOrders.js:23-43 | the status is accepted exactly when it is one of the five admin statuses and the order exists; otherwise 400 or 404 |
| OrderService.AnyAdminStatusApplies | Backend/routes/adminOrders.js:27-38 | any admin status applied to an existing order is accepted |
| OrderService.AllOrders | Backend/routes/adminOrders.js:13 | the admin listing is a newest-first permutation of all orders |
| OrderService.MineNewestFirstContents | Backend/routes/orderRoutes.js:198 | the user's listing holds exactly that user's orders |
| OrderService.LatestIsNewest | Backend/routes/orderRoutes.js:195-207 | the first of the user's listing is at least as new as every order of that user |
| OrderService.Latest | Backend/routes/orderRoutes.js:195-207 | 404 exactly when the user has no order; otherwise one of the user's orders that no other order of that user post-dates |
| OrderService.Store.constructor | Backend/routes/orderRoutes.js:7-10 | an empty order store over a catalogue and users, mirrored |
| OrderService.Store.CreateOrder | Backend/routes/orderRoutes.js:25-116 | under either binding of `Product`, a refused `PlanWith` changes nothing; an accepted one adds the order, bumps the user's count and appends its ledger record, keeping the mirror; with a product collection every `Placeable` request is stored under the new id with one new ledger record |
| OrderService.Store.Verify | Backend/routes/orderRoutes.js:119-162 | on a verified signature, the order is settled and its ledger record is Paid with the order's method, keeping the mirror; otherwise nothing changes |
| OrderService.Store.PayCod | Backend/routes/orderRoutes.js:165-192 | an existing order is settled with a manual id and its ledger record is set to Paid/COD; unknown is 404 |
| OrderService.Store.Webhook | Backend/routes/paymentWebhook.js:11-58 | only a captured, signed event for a known order settles that order; the ledger is never touched |
| OrderService.Store.UpdateStatus | Backend/routes/adminOrders.js:23-43 | an accepted status replaces only the status field, keeping the mirror |
| OrderService.CodOrderExample | Backend/routes/orderRoutes.js:43-58 | two Kurtis at 500 and a Dupatta at 0 by COD total 1049 with the default fee, and the Dupatta falls back to its first image |
| OrderService.CodOrderAsImported | Backend/models/Product.js:2 | the same order is placed for 1049 with a product collection and answered 500 with `Product` as imported |
| LedgerStats.PaymentStats | Backend/routes/adminPaymentRoutes.js:19-28 | the loop computes the tally of the ledger |
| LedgerStats.TallyCounts | Backend/routes/adminPaymentRoutes.js:11-28 | pending counts Pending records; card/upi/cod count settled records of each method; the amount is the sum |
| LedgerStats.TallyBound | Backend/routes/adminPaymentRoutes.js:19-28 | the four counts are non-negative and together at most the number of records |
| LedgerStats.TallyExact | Backend/routes/adminPaymentRoutes.js:19-28 | the four counts miss exactly the settled records whose method is the Pending placeholder |
| LedgerStats.Transactions | Admin/src/pages/Payment.jsx:94 | the "Transactions" figure is card + upi + cod |
| LedgerStats.TransactionsAreSettled | Admin/src/pages/Payment.jsx:94 | the Transactions figure counts the settled records with a real method |
| Dashboard.DashboardCounts | Backend/routes/dashboardRoutes.js:10-16 | with `Product` a product collection, the counts are the sizes of the three collections |
| Dashboard.CountsWith | Backend/routes/dashboardRoutes.js:10-21 | with `Product` as imported the route answers 500; with a product collection it answers the three sizes |
| Dashboard.OrderPaymentCounts | Backend/routes/dashboardRoutes.js:24-37 | cod counts COD orders, card and upi count paid ones, pending counts unpaid ones |
| Dashboard.PaymentCountsOverlap | Backend/routes/dashboardRoutes.js:27-30 | the four buckets add up to the order count plus the unpaid COD orders, which are counted twice |
| Dashboard.Summaries | Backend/routes/dashboardRoutes.js:42-46 | one summary per user, in order |
| Dashboard.UsersListing | Backend/routes/dashboardRoutes.js:40-53 | the listing is a newest-first permutation of the user summaries and its count is their number |
| Cart.IndexOf | Backend/routes/cart.js:33 | `findIndex`: the first line of the product, or none when absent |
| Cart.MergeAdd | Backend/routes/cart.js:34-38 | a new product is appended; a present one keeps the cart's length |
| Cart.MergeAddEffect | Backend/routes/cart.js:33-38 | adding keeps products distinct, raises that product's quantity by the amount and leaves every other product's quantity |
| Cart.IndexOfLast | Backend/routes/cart.js:33 | an appended new product is found at the end |
| Cart.IndexOfAppend | Backend/routes/cart.js:33 | appending another product does not move a product's index |
| Cart.IndexOfUpdate | Backend/routes/cart.js:34-38 | changing a line's quantity does not move any product's index |
| Cart.RemoveProduct | Backend/routes/cart.js:78 | the product's lines are gone and every other line stays, as many times as it occurred, in order |
| Cart.RemoveAbsent | Backend/routes/cart.js:78 | removing an absent product changes nothing |
| Cart.AddIgnoresSize | Backend/routes/cart.js:25-47 | the chosen size plays no part in acceptance or in the merge |
| Cart.CartStore.constructor | Backend/routes/cart.js:11-22 | no carts yet |
| Cart.CartStore.Get | Backend/routes/cart.js:11-22 | a user's cart, created empty on first read |
| Cart.CartStore.Add | Backend/routes/cart.js:25-47 | missing product or quantity is 400; otherwise the line is merged into the user's cart |
| Cart.CartStore.Update | Backend/routes/cart.js:50-69 | 404 for no cart or product not in it; otherwise only that line's quantity changes |
| Cart.CartStore.Remove | Backend/routes/cart.js:72-86 | 404 for no cart; otherwise the product's lines are removed |
| Cart.CartStore.Clear | Backend/routes/cart.js:89-101 | 404 for no cart; otherwise the cart becomes empty |
| Wishlist.WithProduct | Backend/routes/wishlist.js:31-32 | adding a present product changes nothing; an absent one is appended |
| Wishlist.WithProductIdempotent | Backend/routes/wishlist.js:31-32 | adding twice equals adding once, and a wishlist without duplicates stays without |
| Wishlist.WithoutProduct | Backend/routes/wishlist.js:50 | the product is gone and every other entry stays, as many times as it occurred, in order |
| Wishlist.WithoutAbsent | Backend/routes/wishlist.js:31-50 | removing an absent product changes nothing, and add then remove leaves the other products |
| Wishlist.WishlistStore.constructor | Backend/routes/wishlist.js:11-20 | no wishlists yet |
| Wishlist.WishlistStore.Get | Backend/routes/wishlist.js:11-20 | a user's wishlist, created empty on first read |
| Wishlist.WishlistStore.Add | Backend/routes/wishlist.js:23-41 | a missing product id is 400; otherwise the product is added once |
| Wishlist.WishlistStore.Remove | Backend/routes/wishlist.js:44-58 | 404 for no wishlist; otherwise the product is removed |
| ProductRoutes.ParseList | Backend/routes/product.js:10-15 | a string is split on commas, trimmed, and blank fields dropped; an array is kept; anything else is empty |
| ProductRoutes.ParseListJoin | Backend/routes/product.js:10-15 | parsing the comma-join of clean fields gives the fields back (round trip) |
| Text.Trim | Backend/routes/reviewRoutes.js:26-28 | `trim()`: the result has no whitespace at either end, is no longer than the input, and is empty exactly when the input is blank |
| Text.SplitTrimmedJoin | Backend/routes/product.js:10-15 | the same round trip at the level of split, trim and filter |
| ProductRoutes.ImagesToUpload | Backend/routes/product.js:45-46 | an array uploads its entries; a non-empty string is iterated and uploads each of its characters; other values upload nothing |
| ProductRoutes.Uploaded | Backend/routes/product.js:44-52 | one uploaded URL per image, in order |
| ProductRoutes.UploadAll | Backend/routes/product.js:44-52 | the upload loop returns one URL per image, in order |
| ProductRoutes.FirstOr | Backend/routes/product.js:70 | `urls[0] \|\| fallback` |
| ProductRoutes.TrendingOnCreate | Backend/routes/product.js:65-68 | a string is trending exactly when it is "true"; any other value by its truthiness |
| ProductRoutes.Created | Backend/routes/product.js:55-71 | the new product copies the body, parses sizes and colours, and takes the uploaded URLs and their first as main image |
| ProductRoutes.TrendingOnUpdate | Backend/routes/product.js:126-129 | a string sets `== "true"`; a missing value keeps the stored flag; anything else replaces it |
| ProductRoutes.Updated | Backend/routes/product.js:105-131 | each field is the body's value unless null or undefined; sizes and colours only when truthy; images only when new ones were uploaded; main image the first image or the old one |
| ProductRoutes.UpdateWithEmptyBody | Backend/routes/product.js:117-131 | an empty update changes nothing but the main-image fallback |
| ProductRoutes.UpdateIdempotent | Backend/routes/product.js:105-131 | applying the same update twice equals applying it once |
| ProductRoutes.ProductStore.constructor | Backend/routes/product.js:20 | no products yet |
| ProductRoutes.CreateAccepted | Backend/routes/product.js:37 | the create guard: a missing name, price or category is refused, and so are a zero price and an empty name or category |
| ProductRoutes.ProductStore.Create | Backend/routes/product.js:20-79 | missing name, price or category is 400; past that, `new Product` on the router answers 500 and stores nothing; with a product collection the created product is stored under its new id |
| ProductRoutes.ProductStore.Update | Backend/routes/product.js:84-139 | with `Product` as imported, 500 and nothing changes; with a product collection, unknown id is 404, otherwise the stored product becomes its update |
| ProductRoutes.ProductStore.Delete | Backend/routes/product.js:144-154 | with `Product` as imported, 500 and nothing changes; with a product collection, unknown id is 404, otherwise only that product is removed |
| Values.Coalesce | Backend/routes/product.js:117-123 | `v ?? fallback`: the fallback exactly when v is null or undefined |
| ProductRouter.Field | Backend/models/Product.js:43-46 | a body field, undefined when absent |
| ProductRouter.ParseListLoose | Backend/models/Product.js:13-16 | a string becomes the list of its trimmed non-blank comma fields; anything else passes through |
| ProductRouter.CreateCheck | Backend/models/Product.js:48-52 | missing name or price is refused first, then a missing category; accepted exactly when all three are truthy |
| ProductRouter.CopiedFields | Backend/models/Product.js:61-68 | the name, prices, category and descriptive fields are the body's |
| ProductRouter.WithComputed | Backend/models/Product.js:69-75 | the parsed lists, the strict trending flag, the uploads and zero counters are stored, and every other field is kept |
| ProductRouter.CreatedDoc | Backend/models/Product.js:61-76 | the document copies the seven scalar fields of the body (`CopiesBody`), parses lists, sets trending to `== "true"`, takes the uploads and their first as main image, and starts with rating and review count 0 (`ComputesFields`) |
| ProductRouter.ConvertTruthy | Backend/models/Product.js:101-104 | a truthy field is converted and every other field is unchanged |
| ProductRouter.WithUploads | Backend/models/Product.js:91-98 | uploads, when there are any, set images and main image and nothing else |
| ProductRouter.Updates | Backend/models/Product.js:89-104 | the update object has the body's keys plus images and main image when files were uploaded |
| ProductRouter.ConversionsFields | Backend/models/Product.js:101-104 | the three conversions change sizes, colors and isTrending only when truthy, and leave the image fields alone |
| ProductRouter.UpdatesFields | Backend/models/Product.js:91-104 | each converted field of the update object, and the untouched image fields without uploads |
| ProductRouter.UpdateKeepsOtherFields | Backend/models/Product.js:106-112 | a stored field that the update does not name is kept |
| ProductRouter.DocStore.constructor | Backend/models/Product.js:33 | no documents yet |
| ProductRouter.DocStore.Create | Backend/models/Product.js:33-84 | a refused body is 400 with its message; past the guards, `new Product` on the router answers 500 and stores nothing; with a product collection the created document is stored |
| ProductRouter.DocStore.Update | Backend/models/Product.js:87-119 | with `Product` as imported, 500 and nothing changes; with a product collection, unknown id is 404, otherwise the stored document is merged with the update object |
| ProductRouter.DocStore.Delete | Backend/models/Product.js:122-132 | with `Product` as imported, 500 and nothing changes; with a product collection, unknown id is 404, otherwise only that document is removed |
| Reviews.NumberOf | Backend/routes/reviewRoutes.js:20-22 | `Number(rating)`: a number is kept, a string is parsed, undefined is not a number |
| Reviews.CreateReview | Backend/routes/reviewRoutes.js:9-38 | with `Product` a product collection: missing user, rating or comment is 400; unknown product 404; out-of-range rating 400; a stored review has the trimmed texts, the parsed rating and the product; every well-formed request is accepted; a schema failure is 500 with Mongoose's message "Review validation failed: " followed by "<path>: Path `<path>` is required." for each empty path |
| Reviews.CreateReviewWith | Backend/routes/reviewRoutes.js:14-17 | the field check comes first under any binding; past it, `Product.findById` on the router answers 500 with the TypeError's message, and a product collection gives `CreateReview` |
| Reviews.AsImportedStoresNoReview | Backend/routes/reviewRoutes.js:17 | with `Product` as imported, no request stores a review |
| Reviews.SchemaValid | Backend/models/Review.js:5-8 | for trimmed texts and a rating in 1..5, the schema accepts exactly when no required path is empty |
| Reviews.MissingPaths | Backend/models/Review.js:5-8 | the empty required paths, in schema order: none exactly when product, user and comment are all given |
| Reviews.ValidationMessage | Backend/routes/reviewRoutes.js:34-36 | a single failing path gives "Review validation failed: " and that path's required-error text |
| Reviews.BlankUserReachesSchema | Backend/models/Review.js:5-8 | a whitespace-only user name passes the route's guard and fails only at the schema, as a 500 "Review validation failed: user: Path `user` is required." |
| Reviews.ForProduct | Backend/routes/reviewRoutes.js:52-61 | exactly the product's reviews, newest first |
| Reviews.AllReviews | Backend/routes/reviewRoutes.js:41-49 | a newest-first permutation of all reviews |
| Reviews.DeleteReview | Backend/routes/reviewRoutes.js:64-75 | 404 exactly for an unknown id; otherwise only that review is removed |
| Profile.MergeAddress | Backend/routes/user.js:58-65 | each address field takes the body's value when truthy, else keeps the stored one |
| Profile.UpdatedProfile | Backend/routes/user.js:52-65 | phone when truthy, address merged when given; name, email, admin flag, password, orders and creation time are kept |
| Profile.UpdateKeepsFilled | Backend/routes/user.js:57-65 | an update never empties a filled phone, address line or pincode |
| Profile.UpdateIdempotent | Backend/routes/user.js:52-65 | the same update twice equals once |
| Profile.UpdateCompletesProfile | Backend/routes/user.js:52-65 | a phone with an address line and pincode makes the profile complete for checkout |
| Profile.ProfileStore.constructor | Backend/routes/user.js:23 | the store over the given users |
| Profile.ProfileStore.Me | Backend/routes/user.js:23-40 | 401 without a user, 404 for an unknown one, else the user without password |
| Profile.ProfileStore.UpdateMe | Backend/routes/user.js:45-75 | 401/404 leave users alone; otherwise the user becomes the updated profile and is returned without password |
| Auth.JwtSecret | Backend/middleware/authMiddleware.js:4 | the environment secret when set, else a non-empty default |
| Auth.TokenOf | Backend/middleware/authMiddleware.js:13 | the token after "Bearer " contains no space |
| Auth.TokenAfterBearer | Backend/middleware/authMiddleware.js:13 | the token is the first space-separated word after "Bearer " |
| Auth.BearerTokenRoundTrip | Backend/middleware/authMiddleware.js:9-13 | a space-free token put after "Bearer " is read back unchanged |
| Auth.AuthDecision | Backend/middleware/authMiddleware.js:6-33 | no Bearer header is 401 "No token provided"; success exactly for a verified token whose id is a known user, which is then admitted as that user; every failure is 401 |
| Auth.KnownUserAdmitted | Backend/middleware/authMiddleware.js:16-28 | a Bearer header whose token decodes to a stored user's id is admitted as that user |
| Auth.ErrorClassification | Backend/middleware/authMiddleware.js:16-32 | an expired token, an invalid token and an unknown user each get their own 401 message |
| Auth.Request.constructor | Backend/middleware/authMiddleware.js:6 | a request without user |
| Auth.Authenticate | Backend/middleware/authMiddleware.js:6-33 | it decides as AuthDecision, so a verified token of a known user always gets through; on success the request carries the user's `_id name email isAdmin phone address` and its id, and `next` runs once; on failure the request is unchanged |
| AdminLogin.Credentials | Backend/routes/admin.js:6-7 | the environment's credentials, else the defaults |
| AdminLogin.Login | Backend/routes/admin.js:11-29 | missing fields are 400; success exactly when both match the credentials, and the token signs the username; otherwise 401 |
| AdminLogin.DefaultsApply | Backend/routes/admin.js:6-24 | without environment settings, exactly the default pair logs in |
| CartPage.LinePrice | Frontend/src/pages/Cart.jsx:10-13 | a line's price, 0 when the product or its price is missing |
| CartPage.SubtotalAppend | Frontend/src/pages/Cart.jsx:10-13 | the subtotal of a concatenation is the sum of the subtotals |
| CartPage.Subtotal | Frontend/src/pages/Cart.jsx:10-13 | the bag's `reduce` total is never negative when no price or quantity is; its partners are SubtotalAppend and Checkout.ItemsTotalMatchesSubtotal |
| CartPage.GrandTotal | Frontend/src/pages/Cart.jsx:167-171 | the grand total is the subtotal plus the 49 shipping fee |
| CartPage.QuantityUpdate | Frontend/src/pages/Cart.jsx:61-62 | a quantity is sent exactly when it is at least 1 |
| CartPage.ControlsKeepQuantityPositive | Frontend/src/pages/Cart.jsx:116-117 | the enabled − and + buttons always send a quantity of at least 1; a disabled − would not |
| Checkout.Total | Frontend/src/pages/Checkout.jsx:33-38 | the checkout total is the subtotal plus shipping, the same as the cart page's |
| Checkout.SaveBody | Frontend/src/pages/Checkout.jsx:67-79 | the profile save sends the phone and an address |
| Checkout.SubmitGuardMatchesServer | Frontend/src/pages/Checkout.jsx:190-197 | a form the page lets through makes the saved profile complete, so the server's profile check passes |
| Checkout.RequestItems | Frontend/src/pages/Checkout.jsx:95-98 | one request line per cart line with its product id and quantity, or a crash when a product is missing |
| Checkout.ItemsTotalMatchesSubtotal | Frontend/src/pages/Checkout.jsx:33-36 | with catalogue prices equal to the cart's, the server's items total equals the page's subtotal |
| Checkout.CheckoutTotalMatchesServer | Frontend/src/pages/Checkout.jsx:37-38 | with agreeing prices, the server's stored total equals the total the page showed |
| Checkout.PlaceOutcome | Frontend/src/pages/Checkout.jsx:82-188 | empty cart, failed save and crash are caught in that order; COD completes exactly on a successful reply; the gateway opens exactly for a razorpay session when the script is loaded; a failure shows the server's message or the default |
| Checkout.CodNeverOpensGateway | Frontend/src/pages/Checkout.jsx:110-115 | a successful COD order always goes to the success page and never opens the gateway |
| Checkout.CheckoutPage.constructor | Frontend/src/pages/Checkout.jsx:24-31 | the page's initial state |
| Checkout.CheckoutPage.PlaceOrder | Frontend/src/pages/Checkout.jsx:82-188 | the state after each outcome: toast, loading flag, sent request, cart cleared and navigation only for COD, gateway only when opened |
| Checkout.CheckoutPage.PaymentHandled | Frontend/src/pages/Checkout.jsx:139-160 | a verified payment clears the cart and navigates; a refused one keeps the cart and shows the message |
| Checkout.CheckoutPage.Submit | Frontend/src/pages/Checkout.jsx:190-197 | an incomplete form only shows a toast; otherwise the order is placed |
| Display.Round | Frontend/src/components/ProductCard.jsx:97-104 | `Math.round`: the nearest integer, halves rounding up |
| Display.Fixed1 | Frontend/src/components/Review.jsx:76-80 | `toFixed(1)` on exact reals: within half a tenth |
| Display.Stars | Frontend/src/components/ProductCard.jsx:97-104 | five stars, the first round(rating) of them filled |
| Display.StarsArePrefix | Frontend/src/components/ProductCard.jsx:97-104 | the filled stars are a prefix; ratings from 4.5 fill all, below 0.5 none |
| Display.SumRatingsBounds | Frontend/src/components/Review.jsx:76-80 | a sum of ratings lies between count×low and count×high |
| Display.AverageInRange | Frontend/src/components/Review.jsx:76-80 | an average of 1..5 ratings lies in 1..5 |
| Display.Prev | Frontend/src/components/ProductCard.jsx:88-91 | the previous index wraps and stays in range |
| Display.Next | Frontend/src/components/ProductCard.jsx:92-95 | the next index wraps and stays in range |
| Display.CarouselWraps | Frontend/src/components/ProductCard.jsx:88-95 | next and previous are the modular steps and undo each other |
| ImageUrls.StripLeadingSlashes | Frontend/src/components/ProductCard.jsx:13-19 | removes exactly the leading slashes |
| ImageUrls.BackendUrlIsHttps | Frontend/src/components/ProductCard.jsx:8 | the backend URL is an https URL |
| ImageUrls.HttpsPrefix | Frontend/src/components/ProductCard.jsx:13-19 | anything after "https://" is an https and not an http URL |
| ImageUrls.HttpsIsNotHttp | Frontend/src/components/ProductCard.jsx:13-19 | the two URL tests never both hold |
| ImageUrls.Resolve | Frontend/src/components/ProductCard.jsx:13-19 | `normalizeImageUrl` for a present image: an https URL is kept as it is |
| ImageUrls.ResolveIsHttps | Frontend/src/components/ProductCard.jsx:13-19 | every normalised image is an https URL |
| ImageUrls.ResolveIdempotent | Frontend/src/components/ProductCard.jsx:13-19 | normalising twice equals normalising once |
| ImageUrls.ResolveRelative | Frontend/src/components/ProductCard.jsx:13-19 | a relative path is put under the backend URL, with or without a leading slash |
| ProductCard.Normalize | Frontend/src/components/ProductCard.jsx:9-19 | an empty image becomes the placeholder; any other becomes an https URL |
| ProductCard.CardImages | Frontend/src/components/ProductCard.jsx:32-35 | the normalised images, or the normalised main image alone; never empty, no entry blank |
| ProductCard.ArrowsStayInRange | Frontend/src/components/ProductCard.jsx:88-95 | the carousel arrows keep the index inside the card's images |
| ProductCard.WishlistedIsMembership | Frontend/src/components/ProductCard.jsx:38 | the heart is filled exactly when the product is in the wishlist |
| ProductDetail.Normalize | Frontend/src/components/ProductDetail.jsx:22-29 | no URL exactly for an empty image; otherwise the resolved URL |
| ProductDetail.ResolvedPresent | Frontend/src/components/ProductDetail.jsx:64-72 | the non-empty images, resolved, all https |
| ProductDetail.ResolvedPresentAll | Frontend/src/components/ProductDetail.jsx:64-72 | with no empty image, every image is kept and resolved in order |
| ProductDetail.DetailImages | Frontend/src/components/ProductDetail.jsx:64-72 | the resolved images, else the main image, else nothing |
| ProductDetail.PageAndTileAgree | Frontend/src/components/ProductDetail.jsx:64-72 | for non-empty images the detail page and the card show the same list |
| ProductDetail.AddToCart | Frontend/src/components/ProductDetail.jsx:74-91 | log in first, then choose a size, then refuse a duplicate; otherwise one item of the product and size is added |
| ProductDetail.AddedItemAccepted | Frontend/src/components/ProductDetail.jsx:79-91 | every request the page sends passes the cart route's guard |
| ProductDetail.UpdateRating | Frontend/src/components/ProductDetail.jsx:291-300 | new ratings set the count and the average; none keeps the product |
| ProductDetail.UpdatedRatingInRange | Frontend/src/components/ProductDetail.jsx:291-300 | the new average is in 1..5 and shows at least one star |
| ReviewWidget.CountRating | Frontend/src/components/Review.jsx:73-75 | a star count is at most the number of reviews |
| ReviewWidget.Histogram | Frontend/src/components/Review.jsx:73-75 | five bars, from 5 stars down to 1, each counting its rating |
| ReviewWidget.HistogramCountsAll | Frontend/src/components/Review.jsx:73-75 | the bars count at most every review, and exactly every review when ratings are whole stars |
| ReviewWidget.Summary | Frontend/src/components/Review.jsx:76-80 | the count and the average to one decimal, 0 when empty |
| ReviewWidget.SummaryInRange | Frontend/src/components/Review.jsx:76-80 | the shown average of 1..5 ratings lies in 1..5 |
| ReviewWidget.AddReview | Frontend/src/components/Review.jsx:44-62 | log in first; blank fields are refused; otherwise the trimmed texts and rating are posted |
| ReviewWidget.AfterPost | Frontend/src/components/Review.jsx:62 | an accepted review resets the form to 5 stars; a refused one keeps it |
| ReviewWidget.FormPassesServer | Frontend/src/components/Review.jsx:44-59 | every review the widget posts for an existing product is accepted by the server |
| Shop.Filtered | Frontend/src/pages/Shop.jsx:32-38 | the products matching category (case-insensitive), price range and size, each as many times as listed, in order |
| Shop.InitialFiltersHideExpensive | Frontend/src/pages/Shop.jsx:10-12 | the initial filters show exactly the products priced 0..100000 |
| Shop.CategoryMatching | Frontend/src/pages/Shop.jsx:34-36 | a product without category never matches a category; case does not matter |
| Shop.BucketsShareEndpoints | Frontend/src/pages/Shop.jsx:84-90 | a price of 500 matches both of the first two buckets |
| Shop.BucketsCover | Frontend/src/pages/Shop.jsx:84-90 | every price in 0..100000 falls in some bucket |
| Home.Without | Frontend/src/pages/Home.jsx:68 | removing a toast keeps exactly the others, in order, as many as the toasts with another id |
| Home.FilterKeepsDescending | Frontend/src/pages/Home.jsx:61-68 | removal keeps the toasts newest first |
| Home.ShowThenRemove | Frontend/src/pages/Home.jsx:59-68 | showing a toast then removing it restores the list |
| Home.RemoveDropsOne | Frontend/src/pages/Home.jsx:68 | removal drops at most one toast, and none for an absent id |
| Home.FilterDropsAtMostOne | Frontend/src/pages/Home.jsx:68 | with strictly descending ids, a filter by one id drops at most one entry, and none for an absent id |
| Home.ToastQueue.constructor | Frontend/src/pages/Home.jsx:57-58 | no toasts, next id 1 |
| Home.ToastQueue.Show | Frontend/src/pages/Home.jsx:59-67 | the toast gets the next id, larger than every shown one, is put first, and is scheduled for removal only when its lifetime is positive |
| Home.ToastQueue.Remove | Frontend/src/pages/Home.jsx:68 | only the toast with that id is removed |
| Home.Trending | Frontend/src/pages/Home.jsx:129-143 | the trending products in order, each as often as in the data, none when there is no data, and the error toast when the data is not a list |
| Home.TrendingIdempotent | Frontend/src/pages/Home.jsx:134 | filtering the trending list again changes nothing |
| Home.NextSlide | Frontend/src/pages/Home.jsx:146-151 | the next banner, always in range |
| Home.NextSlideIsNext | Frontend/src/pages/Home.jsx:148 | the banner step is the carousel's next step |
| Home.SlideAfter | Frontend/src/pages/Home.jsx:146-151 | the banner shown after k ticks is in range |
| Home.NextSlideSteps | Frontend/src/pages/Home.jsx:148 | below the last banner the step adds one; the last wraps to 0 |
| Home.SlideAfterCounts | Frontend/src/pages/Home.jsx:146-151 | fewer ticks than banners show banner k |
| Home.SlideAfterCycles | Frontend/src/pages/Home.jsx:146-151 | the banners repeat with a period equal to their number |
| OrdersPage.RowOf | Admin/src/pages/Orders.jsx:102 | a row shows the order's id, status, total and fee |
| OrdersPage.ChoicesAreAdminStatuses | Admin/src/pages/Orders.jsx:106-110 | the page's choices are exactly the statuses the server accepts |
| OrdersPage.SelectedStatus | Admin/src/pages/Orders.jsx:102 | the selected status, "Pending" when absent |
| OrdersPage.AfterStatusChange | Admin/src/pages/Orders.jsx:30-49 | an accepted change sets the matching rows' status to the server's; a refusal changes nothing |
| OrdersPage.PageFollowsServer | Admin/src/pages/Orders.jsx:36-42 | after any choice from the list, the row shows exactly the status chosen |
| OrdersPage.DisplayedTotal | Admin/src/pages/Orders.jsx:162 | the "Total" line as written: above the stored total whenever a fee applies |
| OrdersPage.DisplayedTotalCountsShippingTwice | Admin/src/pages/Orders.jsx:162 | for every placed order, the displayed total is the items total plus twice the shipping fee |
| OrdersPage.IntendedFigures | Admin/src/pages/Orders.jsx:160-162 | subtotal plus shipping equals the total |
| OrdersPage.IntendedFiguresMatchOrder | Admin/src/pages/Orders.jsx:160-162 | the corrected summary shows the items total, the fee and the stored total |
| PaymentsPage.StatusText | Admin/src/pages/Payment.jsx:44-48 | a stored status reads "Paid" or "Pending" |
| PaymentsPage.RowOf | Backend/routes/adminPaymentRoutes.js:9 | a row has the raw order id, the method, the status, and a user only when the user exists |
| PaymentsPage.Rows | Backend/routes/adminPaymentRoutes.js:9 | one row per ledger record, in order |
| PaymentsPage.Filtered | Admin/src/pages/Payment.jsx:33-61 | the rows matching method and status (case-insensitive) and the search term, each as many times as it occurs, in order |
| PaymentsPage.OrderIdNeverSearched | Admin/src/pages/Payment.jsx:50-57 | an unpopulated order is never matched by its id |
| PaymentsPage.SuccessShowsNothing | Admin/src/pages/Payment.jsx:44-48 | the "Success" status filter always shows an empty list |
| PaymentsPage.StoredStatusNotSuccess | Admin/src/pages/Payment.jsx:135-138 | neither stored status equals "Success", in any case |
| PaymentsPage.IntendedSuccessShowsPaid | Admin/src/pages/Payment.jsx:135-138 | with "Success" read as "Paid", the filter shows exactly the paid rows |
| PaymentsPage.TotalPages | Admin/src/pages/Payment.jsx:76 | `ceil(n / 5)`: enough pages for every row, no extra page |
| PaymentsPage.PageRows | Admin/src/pages/Payment.jsx:73-75 | a page holds at most five rows, the slice at its offset |
| PaymentsPage.PagesPartition | Admin/src/pages/Payment.jsx:73-76 | every row appears on page i/5+1 at position i%5, and that page exists |
| PaymentsPage.Page.constructor | Admin/src/pages/Payment.jsx:9-15 | no data yet, filters "All", page 1 |
| PaymentsPage.Page.ApplyFilters | Admin/src/pages/Payment.jsx:33-61 | once loaded, the filtered rows are recomputed and the page reset to 1 |
| PaymentsPage.Page.Load | Admin/src/pages/Payment.jsx:19-24 | loading stores the rows and filters them |
| PaymentsPage.Page.SetFilters | Admin/src/pages/Payment.jsx:33-61 | a filter change refilters and returns to page 1 |
| PaymentsPage.Page.GoToPage | Admin/src/pages/Payment.jsx:73-76 | only the page number changes |
| PaymentsPage.Page.Shown | Admin/src/pages/Payment.jsx:73-75 | at most five rows, all among the filtered ones |
| ProductAdmin.ToggleSize | Admin/src/pages/ProductAdmin.jsx:272-277 | a present size is removed everywhere, the rest kept in order with every copy; an absent one is appended |
| ProductAdmin.ToggleTwice | Admin/src/pages/ProductAdmin.jsx:272-277 | toggling twice restores the list when the size was absent, and the set of sizes always |
| ProductAdmin.FilterAppendDrop | Admin/src/pages/ProductAdmin.jsx:275 | dropping a just-appended size gives the list back |
| ProductAdmin.ColorsOf | Admin/src/pages/ProductAdmin.jsx:255 | colour i is comma field i of the text, trimmed; as many colours as fields, at least one |
| ProductAdmin.ColorsKeepText | Admin/src/pages/ProductAdmin.jsx:253-255 | text typed without spaces is shown back unchanged by the join of its colours |
| ProductAdmin.ColorsRoundTrip | Admin/src/pages/ProductAdmin.jsx:253-255 | typing back the displayed join gives the same colours |
| Text.Split | Admin/src/pages/ProductAdmin.jsx:255 | `split(",")`: at least one part, and no part holds the separator |
| Text.JoinSplit | Admin/src/pages/ProductAdmin.jsx:253-255 | joining the split parts gives the text back |
| Text.SplitJoin | Admin/src/pages/ProductAdmin.jsx:253-255 | splitting the join of separator-free parts gives the parts back |
| ProductAdmin.Splice | Admin/src/pages/ProductAdmin.jsx:78-89 | `splice(index, 1)`: one entry removed, or none past the end |
| ProductAdmin.PayloadImages | Admin/src/pages/ProductAdmin.jsx:142-153 | the encoded main image first, then the sub-images in order |
| ProductAdmin.EditPreviews | Admin/src/pages/ProductAdmin.jsx:111-122 | the previews are the stored images other than the main one, each as many times as stored, in order |
| ProductAdmin.EditForm | Admin/src/pages/ProductAdmin.jsx:111-122 | editing loads all eight scalar fields of the product, with missing lists empty and no files |
| ProductAdmin.FormPage.constructor | Admin/src/pages/ProductAdmin.jsx:25-38 | the empty form, previews aligned with sub-images |
| ProductAdmin.FormPage.ToggleSizeButton | Admin/src/pages/ProductAdmin.jsx:272-277 | only the sizes change, by a toggle |
| ProductAdmin.FormPage.TypeColors | Admin/src/pages/ProductAdmin.jsx:253-255 | only the colours change, to the parsed text |
| ProductAdmin.FormPage.MainUpload | Admin/src/pages/ProductAdmin.jsx:64-69 | a chosen file becomes the main image and its preview |
| ProductAdmin.FormPage.SubUpload | Admin/src/pages/ProductAdmin.jsx:71-76 | more than four sub-images are refused with an alert; otherwise files and previews are appended together, keeping them aligned and at most four |
| ProductAdmin.FormPage.RemoveSubImage | Admin/src/pages/ProductAdmin.jsx:78-89 | the same index leaves both the files and the previews, keeping them aligned |
| ProductAdmin.FormPage.Reset | Admin/src/pages/ProductAdmin.jsx:91-109 | back to the empty form, out of edit mode |
| ProductAdmin.FormPage.Edit | Admin/src/pages/ProductAdmin.jsx:111-122 | edit mode with the product's form and previews |
| ProductAdmin.FormPage.CollectImages | Admin/src/pages/ProductAdmin.jsx:142-153 | the loop encodes the payload images |
| ProductAdmin.FormPage.Submit | Admin/src/pages/ProductAdmin.jsx:136-177 | no name or price: an alert and no request; otherwise the form and its images are sent to the edit or create route; success alerts and resets, failure alerts the server's message |
| AdminCategories.ProductsOf | Admin/src/pages/AdminCatagery.jsx:23 | a list response is kept, anything else is empty |
| Text.Lower | Admin/src/pages/AdminCatagery.jsx:56 | `toLowerCase()`: the same length, each character lowered (ASCII letters only; see Left out) |
| AdminCategories.View | Admin/src/pages/AdminCatagery.jsx:53-57 | "All" shows every product; a category shows exactly its products, in order, each as often as in the list |
| AdminCategories.AfterDelete | Admin/src/pages/AdminCatagery.jsx:37-50 | a deletion removes exactly the products with that id, keeping every other one in order and with its multiplicity; a failure keeps the list |
| AdminCategories.DeleteAbsent | Admin/src/pages/AdminCatagery.jsx:44 | deleting an id not shown changes nothing |
| AdminCategories.ChoicesMatchShop | Admin/src/pages/AdminCatagery.jsx:5 | "All" and the five categories of the shop, up to case |

## Left out

- The HMAC, JWT signing and verification, the Razorpay order API, Cloudinary uploads, FileReader encoding, object URLs and `Number()` string parsing are function parameters. Their cryptography and parsing are not modelled.
- Clocks are integer parameters. The `setTimeout` and `setInterval` timers are not run: the toast queue records which ids it scheduled, and the banner is modelled by its tick count.
- Concurrency, `await` interleavings and React re-render timing are not modelled. Every handler runs to completion on the state it read.
- Mongoose ObjectId cast failures, database exceptions and most `catch` blocks that answer 500 are not modelled. The exceptions are the review schema failure, the webhook's generic 500, and the TypeErrors thrown by calls on `Product` (see `ProductBinding`).
- Backend/index.js, the route mounting and Backend/models/User.js are not part of this model. The user document is reconstructed from its uses.
- The GET listing, category and single-product routes of both product routers are not modelled.
- The router in Backend/models/Product.js is modelled as a separate store (`ProductRouter`). Which router serves requests is decided by index.js, which is not part of this model.
- Floating point: `toFixed(1)` and `Math.round` are modelled on exact reals. Prices and amounts are integers.
- Admin form prices are strings, and are only checked for emptiness.
- ProductDetail's `isInCart` compares the cart entry's own `_id`. The model follows the comparison the code makes. The hook wiring of Review.jsx (fetching, `onUpdateRating`) is not modelled, only its computations.
- Not modelled:
  - the ProductCard wishlist toggle request;
  - the ProductAdmin delete button;
  - the order print view and the toast texts of the admin orders page.
- Pages that only lay out static content are not modelled: About, Contact, Footer, Navbar, Login/Register forms and the admin Sidebar, Users and Review pages.
- Checkout's crash on a cart line without a product happens before the `try`, so `loading` stays true. `Checkout.CheckoutPage.PlaceOrder` states that outcome as it is, without recovery.
- Profile.UpdatedProfile: the stored user is assumed to have an address object. The source reads `user.address.line` without a guard, and would answer 500 for a user stored without one.
- OrderService.Store.Webhook: the webhook settles the order without touching its ledger record. `OrderService.WebhookCanDesyncLedger` exhibits a store where the paid flag and the ledger then disagree. This is stated as a property of the code, with no corrected variant. Whether the ledger was meant to follow is not evident from the source.
- OrderService.Store.PayCod: it records the method as COD on the ledger even for a CARD or UPI order, as the source does.
- OrderService.Plan: it states the order decision with `Product` a product collection, which the code evidently means. As written, `Product` is the router of Backend/models/Product.js, and `Product.find` makes the route answer 500 once the two request checks pass. `OrderService.PlanWith` states that behaviour and `OrderService.Store.CreateOrder` follows it (see Findings).
- Reviews.CreateReview: it states the decision with `Product` a product collection. As written, `Product.findById` throws once the field check passes, and the route answers 500. `Reviews.CreateReviewWith` states that behaviour (see Findings).
- Dashboard.DashboardCounts: it gives the three sizes with `Product` a product collection. As written, `Product.countDocuments` throws and the route answers 500. `Dashboard.CountsWith` states that behaviour (see Findings).
- ProductRoutes.ProductStore.Create and ProductRouter.DocStore.Create: as written, `new Product(...)` throws and the handler answers 500. The error's message depends on the Express version, so it is a parameter.
- OrderService.Store.CreateOrder: the gateway's order creation is a total function here. In the source, when `razorpay.orders.create` throws (Backend/routes/orderRoutes.js:91-96), the order, the user's order count and the ledger record are already written, and yet the client gets 500 "Failed to place order".
- A request line's quantity is always a number here (`ItemRequest.quantity: int`). In the source a line without one gives a NaN total, which the order schema refuses, so the route answers 500.
- OrderService.SessionFor: the session reports the amount and currency sent to the gateway. The source copies the gateway's echo of them (`razorOrder.amount`, `razorOrder.currency`); the gateway API is not part of this model.
- Text.Lower: it lowers the ASCII letters A-Z only. JavaScript's `toLowerCase` maps every Unicode letter ("É" to "é"), so the case-insensitive tests of Shop, PaymentsPage, AdminCategories and ImageUrls treat non-ASCII letters as distinct where the source does not.
- Text.Trim: it removes ASCII whitespace only. JavaScript's `trim` also removes the other Unicode space characters and line terminators.

## Findings

| source | as written | input that shows it | evidently intended | confidence | as-written member | corrected member |
|---|---|---|---|---|---|---|
| Admin/src/pages/Orders.jsx:160-162 | the order summary shows "Total" as `total + (shippingFee ?? 49)` and "Subtotal" as `total`, but the stored total already includes the fee (Backend/routes/orderRoutes.js:58) | one Kurti at 500 by COD: stored total 549, page shows 598 | subtotal = items total, shipping = fee, total = stored total | not executed | OrdersPage.DisplayedTotalCountsShippingTwice | OrdersPage.IntendedFiguresMatchOrder |
| Backend/models/Product.js:2 | the file imports itself, and its default export is its router (line 172). So `Product` in orderRoutes.js, reviewRoutes.js, dashboardRoutes.js, product.js and models/Product.js is an Express router: `find`, `findById`, `countDocuments`, `findByIdAndUpdate`, `findByIdAndDelete` and `new Product(...).save()` throw, and each handler answers 500 | the COD order of two Kurtis at 500 and a Dupatta at 0 by a user with a complete profile: 500 "Failed to place order" instead of an order totalling 1049 | `Product` is the Mongoose product model, and the handlers query the product collection | not executed | OrderService.CodOrderAsImported | OrderService.Plan |
| Admin/src/pages/Payment.jsx:135-138 | the status filter offers "Success" and "Failed", but ledger statuses are only "Paid" and "Pending" (Backend/models/Payment.js:14-18), and the filter at lines 44-48 compares them literally | any ledger with the "Success" filter: the table is always empty | "Success" selects the paid records | not executed | PaymentsPage.SuccessShowsNothing | PaymentsPage.IntendedSuccessShowsPaid |
