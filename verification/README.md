# GLIZMIA backend: order, payment and product rules in Dafny

This project models the order and payment workflow and the product
administration of the GLIZMIA e-commerce backend (an Express and Mongoose
service), and proves properties of that model.

- **Order workflow** (`BACKEND/Routes/RazorpayRouter.js`): create-order checks
  the cart and the customer, prices each line at its effective price, asks the
  Razorpay gateway for a checkout order of the total in paise, and saves a
  `pending` order. Payment verification compares the client's signature with
  the HMAC-SHA256 of `razorpay_order_id|razorpay_payment_id` and marks the order
  `paid` or `failed`. The webhook authenticates the raw body and applies
  `payment.captured` or `payment.failed`. Then there are the order lookup and
  the paginated listing.
- **Mock twin** (`BACKEND/Routes/RazorpayRouterSimple.js`): the same
  create-order with a gateway that always succeeds (`order_mock_<now>`), and a
  verification that marks the order paid without any check. Its lookup, listing
  and pricing loop are the same code as the real router's. The model shares
  them: `Pricing.PriceCart` is lines 33-60 as well as 55-82, and
  `RazorpayRouter.GetOrder` and `RazorpayRouter.ListOrders` are lines 153-216
  as well.
- **Product administration** (`BACKEND/Routes/AdminRouter.js`): a fixed chain
  of guards whose first failure decides the 400 message, then create, update,
  delete and image fetch over the product store.
- **Records** (`BACKEND/Model/Order.js`, `BACKEND/Model/Product.js`):
  datatypes with the schema's enum, bounds and defaults as predicates and
  constructor functions.

Modules: `Base` (optional fields, replies), `JsText` (JavaScript `trim`),
`ProductModel`, `OrderModel`, `Pricing`, `Paging`, `OrderLedger`,
`RazorpayRouter`, `RazorpayRouterSimple`, `AdminRouter`.

Modelling choices:
- The order collection is `OrderLedger.Ledger`, a class whose `orders` field is
  a sequence in insertion order. `findOne` is the first match
  (`OrderLedger.FindFirst`), and the listing's `createdAt` descending sort is
  the reverse of that order. `save` of a new order runs the schema's
  validation and the unique index on `orderId` (`OrderLedger.CanInsert`).
  Verify and webhook change one element in place.
- The product collection is `AdminRouter.ProductStore`, a class over a map
  from product id to product.
- HMAC-SHA256 (RFC 2104) is a function parameter `hmac(secret, message)`. The
  key secret and the webhook secret are separate parameters. Each is optional:
  an unset environment variable makes `createHmac` throw, so the handler
  replies 500.
- The gateway client is a function parameter from checkout request to
  checkout order, or failure. The mock router passes a gateway that always
  answers.
- Generated identifiers (`generateOrderId`, the mock's `Date.now()`, Mongo
  `_id`s) are parameters.
- Money is whole rupees as integers, so the paise amount is exactly
  `total * 100`.
- Request fields are `Option`s, `None` standing for both `undefined` and
  `null` where the two lead to the same outcome: a guard rejects both, or
  both leave the stored field without a value. The product's `imageUrl` and
  the address's `country` are `Base.Field`s (absent, `null` or a string),
  because a schema default replaces only an absent value and an update
  writes a `null`. JavaScript
  truthiness of a string is `Base.Truthy`: present and non-empty.
- Status writes are unguarded, as in the code: verify and webhook overwrite
  the status whatever it was. `RazorpayRouter.PaidOrderCanFail` and
  `RazorpayRouter.WebhookOverridesVerification` show a `paid` order ending
  `failed`. A design that only allows `pending -> paid` and `pending -> failed`
  would differ; the model follows the code.
- An order-id collision at save, and a gateway failure, reply 500 "Failed to
  create order", as the code's catch block does. The code has no separate
  conflict error.

## Model

| member | source | states |
|---|---|---|
| JsText.Trim | BACKEND/Routes/AdminRouter.js:26 | `trim` leaves no white space at either end, never lengthens, and yields the empty string exactly when the input is blank |
| JsText.TrimCutsEnds | BACKEND/Routes/AdminRouter.js:26 | the trimmed string is the input itself with white space removed from its start and its end, and nothing else |
| JsText.TrimIdempotent | BACKEND/Model/Product.js:5 | trimming an already trimmed name changes nothing, so stored names stay trimmed |
| ProductModel.Stored | BACKEND/Model/Product.js:3-17 | supplied discount, image URL, description and stock are stored as given; absent ones take the schema defaults (discount 0, image URL and description empty, stock 0), while a `null` image URL is stored as `null`; the name is stored trimmed; fields within the bounds give a schema-valid product |
| OrderModel.StatusNameInjective | BACKEND/Model/Order.js:84-88 | the five status values are stored as five distinct strings |
| OrderModel.StoredAddress | BACKEND/Model/Order.js:30-39 | the address keeps the given parts; the country is `India` when it is left out or no address is sent, stays `null` when sent as `null`, and is kept as given otherwise |
| OrderModel.NewOrder | BACKEND/Routes/RazorpayRouter.js:103-115 | a new order is `pending`, with shipping 0, total = subtotal + shipping, currency INR, and no payment id or signature |
| Pricing.EffectivePrice | BACKEND/Routes/RazorpayRouter.js:67-69 | the unit price charged is never above the list price, and is either the list price or a positive discount price |
| Pricing.DiscountAppliesIff | BACKEND/Routes/RazorpayRouterSimple.js:45-47 | the charged price is below the list price if and only if 0 < discountPrice < price, and then it is the discount price |
| Pricing.DiscountBoundaries | BACKEND/Routes/RazorpayRouter.js:67-69 | a discount of 0, equal to the price, or above it charges the list price |
| Pricing.PriceCart | BACKEND/Routes/RazorpayRouter.js:55-82 | succeeds exactly when every product exists; then subtotal = sum of effective price x quantity, with one snapshot per line in cart order copying name, price, discount and image URL; else the 400 names the first unknown product |
| Pricing.SubtotalAppend | BACKEND/Routes/RazorpayRouter.js:71-72 | the subtotal of two carts in sequence is the sum of their subtotals |
| Pricing.SubtotalBounds | BACKEND/Routes/RazorpayRouter.js:67-72 | with a schema-valid catalog and quantities of at least 1, 0 <= subtotal <= the undiscounted subtotal |
| Pricing.WorkedExample | BACKEND/Routes/RazorpayRouterSimple.js:45-50 | 2 x 100 plus 1 x (50 discounted to 40) prices at 240 |
| Paging.PageCount | BACKEND/Routes/RazorpayRouter.js:258 | the page count holds all entries, and one page fewer would not (ceil(total/limit)) |
| Paging.PageCountIsCeiling | BACKEND/Routes/RazorpayRouterSimple.js:204 | k pages of `limit` hold `total` entries if and only if k >= the page count |
| Paging.PageCountExample | BACKEND/Routes/RazorpayRouter.js:258 | limit 10 and total 25 give 3 pages |
| Paging.Window | BACKEND/Routes/RazorpayRouter.js:248-249 | the page returns at most `limit` entries, the ones starting at the skip offset |
| Paging.PageNonEmptyIff | BACKEND/Routes/RazorpayRouter.js:248-258 | page p (skip (p-1) x limit) is non-empty if and only if p <= the page count |
| Paging.FirstPagesPrefix | BACKEND/Routes/RazorpayRouter.js:248-249 | pages 1..k together are exactly the first k x limit entries |
| Paging.AllPagesListEverything | BACKEND/Routes/RazorpayRouterSimple.js:194-204 | reading pages 1 to the page count lists every entry exactly once, in order |
| OrderLedger.FindFirst | BACKEND/Routes/RazorpayRouter.js:153 | the lookup returns the first matching order, or reports that none matches |
| OrderLedger.FindByOrderIdIsUnique | BACKEND/Model/Order.js:4-8 | with unique order ids, the lookup by orderId finds the one order carrying it |
| OrderLedger.SameCreationFieldsKeepValid | BACKEND/Routes/RazorpayRouter.js:296-311 | changing only status and payment ids keeps the order ids unique and every order schema-valid |
| OrderLedger.WithStatus | BACKEND/Routes/RazorpayRouter.js:240-243 | the status filter keeps exactly the orders stored with that status |
| OrderLedger.WithStatusAppend | BACKEND/Routes/RazorpayRouter.js:240-247 | filtering two stretches of the ledger is filtering each in turn, so the filter keeps the stored order |
| OrderLedger.WithStatusCount | BACKEND/Routes/RazorpayRouter.js:251 | the filter keeps exactly as many orders as `countDocuments` counts for the status query |
| OrderLedger.NewestFirst | BACKEND/Routes/RazorpayRouter.js:247 | the listing order is the stored order reversed, newest first |
| RazorpayRouter.CreateOrder | BACKEND/Routes/RazorpayRouter.js:35-128 | missing items, incomplete customer, or an unknown product (the first one) give the 400s; a gateway or save failure gives 500; every error leaves the ledger unchanged; success appends one pending order priced by the cart with the gateway's id, and returns the gateway order and the orderId |
| RazorpayRouter.VerifyPayment | BACKEND/Routes/RazorpayRouter.js:140-195 | missing field 400 and unknown order 404, both unchanged; a matching HMAC sets paid, payment id and signature; otherwise only the status becomes failed; whatever the prior status; no other order and no creation field changes |
| RazorpayRouter.Webhook | BACKEND/Routes/RazorpayRouter.js:273-318 | a bad signature gives 400 and no change; `payment.captured` sets paid and the payment id on the first order with that gateway order id; `payment.failed` sets only failed; other events or no match succeed with no change |
| RazorpayRouter.GetOrder | BACKEND/Routes/RazorpayRouter.js:207-224 | returns a stored order with the requested id exactly when one exists, else 404 |
| RazorpayRouter.ListOrders | BACKEND/Routes/RazorpayRouter.js:236-261 | page and limit default to 1 and 10; returns at most `limit` stored orders, only those with the filtered status, newest first from offset (page-1) x limit; total is the number of orders with that status, or of all orders without a filter; pages = ceil(total/limit); the page is non-empty iff page <= pages |
| RazorpayRouter.PaidOrderCanFail | BACKEND/Routes/RazorpayRouter.js:186-189 | a paid order re-verified with a wrong signature becomes failed, keeping its payment id and pricing |
| RazorpayRouter.WebhookOverridesVerification | BACKEND/Routes/RazorpayRouter.js:303-311 | an order confirmed paid by verification becomes failed on a later `payment.failed` webhook |
| RazorpayRouterSimple.CreateMockOrder | BACKEND/Routes/RazorpayRouterSimple.js:13-102 | same 400s as the real handler with nothing saved; a valid cart saves the pending order with gateway id `order_mock_<now>`, the customer, one snapshot per line and pricing {subtotal, 0, subtotal, INR}, and replies with the mock key and amount = subtotal x 100 in INR, unless the orderId is already taken, which gives 500 with nothing saved |
| RazorpayRouterSimple.MockVerifyPayment | BACKEND/Routes/RazorpayRouterSimple.js:114-141 | unknown order gives 404 and no change; otherwise the order becomes paid with the supplied payment id and signature copied unchecked, and the reply echoes orderId, status and total |
| AdminRouter.Validate | BACKEND/Routes/AdminRouter.js:26-34 | passes exactly the acceptable products; otherwise returns a guard that fails, and no earlier guard in the chain fails |
| AdminRouter.AcceptableIffNoGuardFails | BACKEND/Routes/AdminRouter.js:51-59 | a product is acceptable if and only if no guard of the chain rejects it |
| AdminRouter.UploadedImage | BACKEND/Routes/AdminRouter.js:35-37 | inline image data is attached exactly when both the base64 data and the content type are present |
| AdminRouter.NewProduct | BACKEND/Routes/AdminRouter.js:24-38 | an accepted create stores the trimmed name and the given fields; an absent image URL takes the default `""`, a `null` one is stored as `null`; the result meets the schema |
| AdminRouter.UpdatedProduct | BACKEND/Routes/AdminRouter.js:49-67 | an accepted update replaces the submitted fields; a `null` image URL clears the stored one, an absent one keeps it; a missing upload keeps the stored image; the result meets the schema |
| AdminRouter.ProductStore.Create | BACKEND/Routes/AdminRouter.js:21-43 | a rejected input gives the first failing guard's 400 and stores nothing; an accepted one is stored under the new id; an id collision gives 400 and no change |
| AdminRouter.ProductStore.Update | BACKEND/Routes/AdminRouter.js:45-73 | validation first; an absent id gives 404 with the store unchanged; else exactly that product is replaced |
| AdminRouter.ProductStore.Delete | BACKEND/Routes/AdminRouter.js:75-84 | an absent id gives 404 with no change; else exactly that product is removed |
| AdminRouter.ProductStore.FetchImage | BACKEND/Routes/AdminRouter.js:87-99 | 404 exactly when the product, its image or the image data is missing; else the data with its content type or `application/octet-stream` |

## Left out

- HMAC-SHA256 itself: a parameter. Only equality of hex strings matters to the code, and the comparison is not constant-time.
- The Razorpay client set-up and its fallback client (`BACKEND/Routes/RazorpayRouter.js:11-27`): a foreign library. It is reduced to a gateway that returns a checkout order or fails, in which case nothing is saved.
- `GET /api/razorpay/key`, `/admin/health` and `GET /admin/products`: they return constants or the raw collection. There is no rule to state.
- `BACKEND/start-server.js`, `BACKEND/test-routes.js` and `BACKEND/app.js`: process wiring only.
- `generateOrderId` and the mock gateway's `Date.now()`: time and randomness. The ids are parameters, and only the unique index at save is modelled, not the uniqueness of generated ids.
- Floating point: prices, quantities and totals are integers. `Math.round(total * 100)` is exact multiplication, and NaN and fractional quantities are not modelled.
- `JSON.parse` of the webhook body: the parsed event is a separate parameter. The model does not tie it to the raw body, and a body that is not JSON is `None`.
- `.populate` of product references in the order lookup and the listing: the stored snapshot is returned.
- RazorpayRouter.ListOrders: a supplied page or limit must be at least 1; absent ones default to 1 and 10 as in the code. The code coerces query strings. A limit of 0 means no limit to Mongo, so the whole filtered list comes back, with `pages` reported as `Infinity` (or `NaN` when nothing matches), which JSON sends as `null`. Page 0 or a negative value gives a negative skip, which Mongo rejects. The reply's `current` is the number, not the query string.
- Ties in `createdAt`: newest-first is the reverse of insertion order.
- Mongo failures other than the modelled ones (malformed ids that fail to cast, database outages): they reach the catch blocks and are not modelled.
- RazorpayRouterSimple.MockVerifyPayment: the request's orderId is taken as a string. A request without one depends on how Mongoose casts an `undefined` filter, which is not modelled.
- AdminRouter.UpdatedProduct: assumes the update drops keys whose value is `undefined` (Mongoose 7 behaviour), so an absent image URL keeps the stored one, while a `null` one is written.
- OrderModel.StoredAddress: an `address: null` is treated like a missing address, so the country becomes `India`. What Mongoose stores when a nested path with a default is set to `null` is not modelled.
- Decoding of uploaded base64 images: the image data is kept as the uploaded text.
- `String(description)` and `String(imageUrl)` coercion of non-string values: the description is a string or absent, and the image URL a string, `null` or absent.
- Partial failure in the real create-order: a checkout order created at the gateway but not saved locally has no local trace, and the model keeps none either.
- Concurrent races between verify and webhook: each handler is one atomic step. Their interleavings are sequences of such steps, and the two scenario methods show such sequences.
