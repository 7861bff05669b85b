# Fit-Gain store core, modelled in Dafny

Fit-Gain is a storefront for gym equipment and supplements. This project models
its business rules:

- **Payments.** A customer pays for a checkout by bank transfer. The payment is
  saved together with a ledger entry (a payment-type transaction), and the paid
  items are cleared from the cart in the same database session. The customer
  then uploads transfer evidence.
- **Admin settlement.** An admin confirms or rejects a payment, or refunds it
  directly. The refund writes a refund-type transaction and marks the payment's
  ledger entry refunded.
- **Refund requests.** A customer may ask for a refund of a completed
  transaction. An admin approves or rejects the request, or withdraws it.
- **Report.** The admin report counts the ledger by type and by status and nets
  payments against refunds.
- **Cart.** Customers add, change and remove cart lines. The bulk purchase
  checks the stock of every selected line before it writes anything, then
  lowers the stock and deletes the lines.
- **Checkouts.** A checkout is an order with required shipping fields. Its
  status is one of "Pending", "In Progress" or "Completed", and a completed
  order cannot be deleted.
- **Products.** Creating a product fills in defaults. Editing merges only the
  supplied fields. Taking stock off a product refuses to go below zero. The
  catalogue filter builds a query. Stored image paths are shown with
  backslashes rewritten to slashes.
- **Client payment state.** The web client keeps a payment state (a Redux
  slice). Each settled request updates that state.
- **Payment form.** The customer's payment form validates the account number
  and the evidence file before it submits.

## How the model is built

**The store.** The database is the class `Store.Database`. It has one `seq`
field per collection, kept in insertion order, so `findById`/`findOne` return
the first match (`Common.FindFirst`). A `nextId` counter stands for fresh
ObjectIds. `Database.Valid()` collects the cross-record invariants every
handler keeps:

- every ledger entry mirrors its payment (same payment, owner and amount, and
  the checkout for a payment-type entry);
- every payment has its payment-type entry;
- every refund request names a stored transaction;
- at most one pending request exists per transaction;
- a refund entry always comes after its payment's payment-type entry;
- product and cart identifiers are fresh and unique;
- every stored checkout status is one of the three accepted ones.

**Handlers.** Each backend handler is a method on the store. Its `ensures`
states the answer (`Common.Response`) and the whole new store as a function of
the old one for every branch that the store invariants leave reachable. A failure that the source raises inside its
`try` answers ServerError and keeps whatever was saved before it.

**Client state.** The slice is the class `PaymentSlice.PaymentSlice`. Its
one-element list updates are functions whose contracts say which element
changes, and that nothing else does.

**Form validators.** The validators are functions that return the verdict
together with the error text the form shows.

**Callers and request values.** The authenticated caller, the `is-admin`
header and request values are parameters. A value that may be absent or
malformed is an `Option`, or a `ProductController.NumberField` for numbers
that arrive as text.

## Model

| member | source | states |
|---|---|---|
| Store.FirstEntryIsPaymentEntry | backend/controllers/payment.controller.js:155-157 | On a consistent ledger, the first entry of a payment (`findOne({ paymentId })`) is its payment-type entry. |
| Store.PendingAfterAppendRequest | backend/controllers/payment.controller.js:316-326 | Adding a pending request for a transaction with no pending request keeps "at most one pending request per transaction". |
| Store.ValidAfterAppendRequest | backend/controllers/payment.controller.js:321-326 | Saving a new refund request for a stored transaction that has no pending request keeps every invariant. |
| Store.ValidAfterRequestStatus | backend/controllers/payment.controller.js:392-393 | Deciding a refund request keeps every invariant. |
| Store.ValidAfterRemoveRequest | backend/controllers/payment.controller.js:369 | Removing a refund request keeps every invariant. |
| Store.ValidAfterPaymentWrite | backend/controllers/payment.controller.js:80-81 | Rewriting a payment's status or evidence keeps every invariant. |
| Store.ValidAfterTransactionStatus | backend/controllers/payment.controller.js:155-157 | Rewriting a ledger entry's status keeps every invariant. |
| Store.ValidAfterAppendTransaction | backend/controllers/payment.controller.js:202-209 | Appending an entry that mirrors its payment, after the payment's own entry, keeps every invariant. |
| Store.ValidAfterCartAppend | backend/controllers/cart.controller.js:18-24 | A cart line with a fresh id keeps the cart ids unique. |
| Store.ValidAfterCartRemove | backend/controllers/cart.controller.js:99 | Deleting a cart line keeps every invariant. |
| Store.CartsAfterFilter | backend/controllers/cart.controller.js:146 | What `deleteMany` leaves is a sub-list of the cart, with the ids still unique. |
| Store.ValidAfterProductsWrite | backend/controllers/cart.controller.js:137-144 | A stock write that keeps every product's id keeps every invariant. |
| Store.ValidAfterProductAppend | backend/controllers/product.controller.js:56-79 | A product with a fresh id keeps the product ids unique. |
| Store.ValidAfterCheckoutAppend | backend/controllers/checkout.controller.js:13-26 | A new checkout with an accepted status keeps every invariant. |
| Store.ValidAfterCheckoutStatus | backend/controllers/checkout.controller.js:92-96 | Setting an accepted checkout status keeps every invariant. |
| Store.ValidAfterCheckoutRemove | backend/controllers/checkout.controller.js:75 | Deleting a checkout keeps every invariant. |
| PaymentController.NewPaymentEntry | backend/controllers/payment.controller.js:25-31 | The entry written with a payment is a completed payment-type entry with the payment's id, owner, amount and checkout. |
| PaymentController.DeleteFirstRowGroups | backend/controllers/payment.controller.js:44-47 | One `deleteOne({ user, product })` removes the first of that user's lines for that product and leaves every other (user, product) group unchanged. |
| PaymentController.DeleteForItemsGroups | backend/controllers/payment.controller.js:43-48 | After one delete per checkout item, a (user, product) group loses one line per item naming it (down to none), and other users' groups are unchanged. |
| PaymentController.PaidProductsLeaveCart | backend/controllers/payment.controller.js:43-48 | After the clean-up the caller keeps lines of a product only where the cart held more lines of it than the checkout has items naming it. |
| PaymentController.ClearPaidItems | backend/controllers/payment.controller.js:43-48 | The loop over the checkout items computes exactly DeleteForItems. |
| PaymentController.CartsAfterDeleteForItems | backend/controllers/payment.controller.js:43-48 | The clean-up keeps the cart ids unique and fresh. |
| PaymentController.ValidAfterPayment | backend/controllers/payment.controller.js:17-51 | A committed payment session (payment, completed entry, cart clean-up) keeps every invariant. |
| PaymentController.AddPaymentMethod | backend/controllers/payment.controller.js:9-59 | All or nothing: Created exactly when the account number, amount and checkout id are given and the checkout exists. Then one pending payment, its mirroring completed entry and the cart clean-up are committed together. Otherwise ServerError and the store is unchanged. |
| PaymentController.UploadEvidence | backend/controllers/payment.controller.js:62-87 | No file gives BadRequest, an unknown payment gives NotFound, and neither writes. A file for a known payment gives Ok, and only that payment's evidence is replaced. |
| PaymentController.SettlePayment | backend/controllers/payment.controller.js:140-188 | Non-admin gives Forbidden and an unknown payment gives NotFound, both without a write. Otherwise the payment becomes confirmed or rejected and its payment-type entry completed or failed, whatever either status was before. |
| PaymentController.RefundEntry | backend/controllers/payment.controller.js:202-208 | The refund entry is a refunded refund-type entry with the payment's id, owner and amount. |
| PaymentController.ValidAfterRefund | backend/controllers/payment.controller.js:202-213 | A refund (entry appended, original entry marked refunded) keeps every invariant. |
| PaymentController.RefundOnReport | backend/controllers/payment.controller.js:229-237 | After a refund the report's net amount drops by the payment's amount, refunds rise by one and payments stay the same. |
| PaymentController.IssueRefund | backend/controllers/payment.controller.js:190-219 | Non-admin gives Forbidden. A missing or unconfirmed payment gives BadRequest. Neither writes. An admin refunding a confirmed payment gets Ok: the refund entry is appended and the payment-type entry marked refunded; the payment stays confirmed and the net amount drops by its amount. |
| PaymentController.GetTransactionReport | backend/controllers/payment.controller.js:221-243 | Admins get the report, whose type counts sum to the ledger's size and whose net amount is payments minus refunds. Others get Forbidden. |
| PaymentController.CreateRefundRequest | backend/controllers/payment.controller.js:306-331 | An unknown transaction gives NotFound. A transaction that is not completed, or has a pending request, gives BadRequest. A missing owner or reason gives ServerError. None of these writes. Otherwise exactly one pending request is added. |
| PaymentController.DeleteRefundRequest | backend/controllers/payment.controller.js:354-376 | Forbidden, NotFound, or BadRequest for a processed request, all without a write. Otherwise only that request is removed. |
| PaymentController.DecisionFor | backend/controllers/payment.controller.js:392 | The decision is "approved" exactly for the action "approve" and never "pending". |
| PaymentController.HandleRefundRequest | backend/controllers/payment.controller.js:378-424 | Only a pending request is decided. A rejection writes only the decision. An approval saves the decision first, then refunds a confirmed or pending payment; for any other payment status it answers BadRequest with the approval kept and no refund written. |
| Reporting.BuildReport | backend/controllers/payment.controller.js:229-237 | totalPayments + totalRefunds is the ledger's size, the four status counts also sum to it, and totalAmount is the sum of payment amounts minus the sum of refund amounts. |
| Reporting.FoldIsNetAmount | backend/controllers/payment.controller.js:232 | The `reduce` fold equals its seed plus payments minus refunds. |
| Reporting.KindsPartition | backend/models/transaction.model.js:13-17 | Every entry is of exactly one of the two types. |
| Reporting.StatusesPartition | backend/models/transaction.model.js:8-12 | Every entry has exactly one of the four statuses. |
| Reporting.StatusChangeKeepsSums | backend/controllers/payment.controller.js:211-213 | A status write leaves the per-type sums and counts unchanged. |
| Reporting.RefundLowersNetAmount | backend/controllers/payment.controller.js:202-213 | Marking an entry refunded and appending a refund entry lowers the net amount by the refund's amount. |
| Pagination.OrDefault | backend/controllers/payment.controller.js:91-92 | `parseInt(q) \|\| d` is the parsed value unless it is NaN or 0, and then the default. |
| Pagination.CeilDiv | backend/controllers/payment.controller.js:107 | `Math.ceil(a / b)` is bounded as a ceiling on both sides, for either sign of b. |
| Pagination.WindowBounds | backend/controllers/payment.controller.js:117-133 | For a positive page and limit the skip is non-negative, the page count never exceeds the record count, and the count is at least 1 when there are records. |
| Pagination.PagesPartitionRecords | backend/controllers/payment.controller.js:247-260 | For a positive limit every record lies in the window of exactly one page, which is in range. |
| CartController.CreateCartItem | backend/controllers/cart.controller.js:4-32 | No user gives Unauthorized. A missing product or a quantity below 1 gives BadRequest. An unknown product gives NotFound. A negative price fails the schema and gives ServerError. Otherwise one line with the product's current price is added. |
| CartController.UpdateCartItem | backend/controllers/cart.controller.js:67-91 | A quantity below 1 gives BadRequest. A line not owned by the caller gives NotFound without a write. Otherwise only that line's quantity changes. |
| CartController.DeleteCartItem | backend/controllers/cart.controller.js:93-107 | Only the caller's line with that id is removed. Another user's line gives NotFound and stays. |
| CartController.StockCheckOkIff | backend/controllers/cart.controller.js:127-135 | The in-order check passes exactly when every line's product exists and holds at least that line's quantity. |
| CartController.CheckStock | backend/controllers/cart.controller.js:127-135 | The loop's verdict is StockCheck. |
| CartController.ApplyDecrements | backend/controllers/cart.controller.js:137-144 | The stock updates keep the number of products. |
| CartController.DecrementsKeepIds | backend/controllers/cart.controller.js:137-144 | The stock updates keep every product's id. |
| CartController.DecrementsAt | backend/controllers/cart.controller.js:137-144 | Each product loses exactly the total quantity the selected lines ask of it, and nothing else about it changes. |
| CartController.DecrementStock | backend/controllers/cart.controller.js:137-144 | The loop computes ApplyDecrements. |
| CartController.CountCheckIsExact | backend/controllers/cart.controller.js:120-125 | As many lines are found as ids sent exactly when the ids are distinct and each names one of the caller's lines. |
| CartController.BulkDeleteAndUpdate | backend/controllers/cart.controller.js:109-156 | No user gives Unauthorized and missing or empty ids give BadRequest. A count mismatch gives NotFound, a vanished product ServerError and a line over stock BadRequest, all without a write. Otherwise the stock drops per line and exactly the selected lines are deleted. |
| CartController.DistinctProductsKeepStock | backend/controllers/cart.controller.js:127-144 | When the selected lines name distinct products, a passed check leaves no stock below zero. |
| CartController.SumQtyDistinct | backend/controllers/cart.controller.js:127-135 | With distinct products, a product's total demand is that of its one line. |
| CartController.SameProductTwiceOverdraws | backend/controllers/cart.controller.js:127-144 | Two lines of one product, each within stock 3 and together asking 4, pass the check and leave stock -1. |
| CheckoutController.OrderOf | backend/controllers/checkout.controller.js:13-25 | A new order belongs to the caller, carries the form's total, items and mail, and starts as "Pending". |
| CheckoutController.AddCheckout | backend/controllers/checkout.controller.js:3-34 | No user gives Unauthorized. A missing field or no items gives BadRequest without a write. Otherwise exactly that order is added. |
| CheckoutController.DeleteFound | backend/controllers/checkout.controller.js:69-75 | A missing order gives NotFound and a completed one BadRequest, both kept. Otherwise only that order is removed. |
| CheckoutController.DeleteCheckout | backend/controllers/checkout.controller.js:62-80 | Only the caller's own order is found; it is deleted unless it is completed. |
| CheckoutController.AdminDeleteCheckout | backend/controllers/checkout.controller.js:134-152 | Forbidden unless the header is exactly "true". Otherwise any user's order is deleted unless it is completed. |
| CheckoutController.SetFoundStatus | backend/controllers/checkout.controller.js:92-101 | Only the found order's status changes. |
| CheckoutController.StatusUpdate | backend/controllers/checkout.controller.js:82-106 | Only the three listed statuses are accepted (BadRequest otherwise). Only the caller's order's status changes, from any status. |
| CheckoutController.AdminStatusUpdate | backend/controllers/checkout.controller.js:108-132 | Forbidden unless the header is "true" and BadRequest for an unlisted status. Otherwise any order's status changes. |
| CheckoutController.LookupsIgnoreStatus | backend/controllers/checkout.controller.js:92-96 | A status write moves no order in either lookup. |
| CheckoutController.ReopenedOrderIsDeletable | backend/controllers/checkout.controller.js:72-101 | The owner can set a completed order back to "Pending", after which the delete finds it and no longer refuses it. |
| ProductController.NormalizeImagePath | backend/controllers/product.controller.js:160 | The rewritten path has the same length and no backslash. |
| ProductController.NormalizeKeepsOthers | backend/controllers/product.controller.js:198 | Each character keeps its place; only backslashes become slashes. |
| ProductController.NormalizeFixesCleanPaths | backend/controllers/product.controller.js:218 | A path without backslashes is left unchanged. |
| ProductController.NormalizeIdempotent | backend/controllers/product.controller.js:223 | Rewriting twice is rewriting once. |
| ProductController.ShownImage | backend/controllers/product.controller.js:255-258 | A listing shows null for an empty image and the rewritten path otherwise. |
| ProductController.ImagePath | backend/controllers/product.controller.js:77 | An uploaded image is kept under "uploads/product/". |
| ProductController.OrElse | backend/controllers/product.controller.js:129-135 | `x \|\| fallback` on text gives x when x is non-empty, otherwise the fallback. |
| ProductController.NewProductDefaults | backend/controllers/product.controller.js:56-65 | A new product takes the form's values, "New" when no condition is given and "No guidance available" when no guidance is given, and passes the schema's required fields. |
| ProductController.AddProducts | backend/controllers/product.controller.js:45-87 | A missing name, description, category, quantity, price or image gives BadRequest. A NaN number gives ServerError. Neither writes. Otherwise exactly the new product is added. |
| ProductController.MergeFields | backend/controllers/product.controller.js:129-135 | Field by field: a field the form leaves empty or absent keeps its stored value, and a supplied one replaces it. Without an upload the image is kept, with one it becomes the upload's path. The id never changes. |
| ProductController.MergeNothingIsIdentity | backend/controllers/product.controller.js:129-135 | An edit that supplies nothing leaves the product as it is. |
| ProductController.MergeIdempotent | backend/controllers/product.controller.js:126-135 | Applying one edit twice equals applying it once. |
| ProductController.UpdateProduct | backend/controllers/product.controller.js:89-145 | A malformed id gives BadRequest and an unknown product NotFound. A NaN number or a failing save gives ServerError. None of these writes. Otherwise only that product becomes the merge. |
| ProductController.UpdateProductQuantity | backend/controllers/product.controller.js:267-302 | A malformed id or missing quantity gives BadRequest and an unknown product NotFound. A result below zero gives BadRequest and a NaN quantity ServerError, without a write. Otherwise the stock is old minus requested, so no product goes below zero by this path, and the answer shows the normalised image. |
| ProductController.FilterProducts | backend/controllers/product.controller.js:236-251 | The name filter is present exactly for a non-empty name. A product matches the category and condition filters exactly when its category equals an "Equipment"/"Supplement" category, and its condition is "New" for "Brand New" and "Used" for "Secondary". Any other value adds no filter. |
| PaymentSlice.WithPaymentStatus | frontend/src/redux/slices/paymentSlice.js:188-195 | Only the first payment with the id takes the status. Every other element is unchanged, and nothing changes when none matches. |
| PaymentSlice.WithEvidence | frontend/src/redux/slices/paymentSlice.js:184-187 | Only the first payment with the id takes the evidence. |
| PaymentSlice.WithRequestStatus | frontend/src/redux/slices/paymentSlice.js:247-250 | Only the first request with the id takes the status. |
| PaymentSlice.MarkRefunded | frontend/src/redux/slices/paymentSlice.js:201-204 | Only the found transaction is marked refunded. |
| PaymentSlice.SettleTwiceIsOnce | frontend/src/redux/slices/paymentSlice.js:188-191 | Confirming (or rejecting) the same payment twice equals doing it once. |
| PaymentSlice.LastSettlementWins | frontend/src/redux/slices/paymentSlice.js:188-195 | Of two decisions on one payment only the later one shows. |
| PaymentSlice.AsWrittenNeverMarks | frontend/src/redux/slices/paymentSlice.js:201-204 | When no listed transaction has the refunded payment's id as its own id (always the case, since ids are unique across collections), the reducer as written leaves the list unchanged. |
| PaymentSlice.AsWrittenMissesTheEntry | frontend/src/redux/slices/paymentSlice.js:199-205 | With the lookup as written, a refunded payment's listed entry is not marked, although the store marked it. |
| PaymentSlice.RefundedEntryAgreesWithStore | frontend/src/redux/slices/paymentSlice.js:199-205 | The corrected update shows, for every listed entry, exactly what the refund stored. |
| PaymentSlice.FallbackMessage | frontend/src/redux/slices/paymentSlice.js:177-261 | Exactly the six requests with a rejected case have a non-empty fallback message. |
| PaymentSlice.RejectionMessage | frontend/src/redux/slices/paymentSlice.js:179 | The message is the payload's if truthy, else the error's if truthy, else the fallback, and is never empty. |
| PaymentSlice.PaymentSlice.constructor | frontend/src/redux/slices/paymentSlice.js:143-153 | Empty lists, total 0, page 1, pages 1, no report, idle, no error. |
| PaymentSlice.PaymentSlice.ClearError | frontend/src/redux/slices/paymentSlice.js:155-157 | Only the error is cleared. |
| PaymentSlice.PaymentSlice.RequestPending | frontend/src/redux/slices/paymentSlice.js:161-163 | A handled request shows loading; the others change nothing. |
| PaymentSlice.PaymentSlice.RequestRejected | frontend/src/redux/slices/paymentSlice.js:206-209 | A handled failure sets failed and a non-empty error; nothing else changes. |
| PaymentSlice.PaymentSlice.FetchPaymentsFulfilled | frontend/src/redux/slices/paymentSlice.js:164-176 | The admin listing replaces the payments and the user's listing the transactions, never both. The paging numbers are copied only when the total is not 0. |
| PaymentSlice.PaymentSlice.AddPaymentMethodFulfilled | frontend/src/redux/slices/paymentSlice.js:181-183 | The payments grow by the created one at the end, and the earlier ones are unchanged. |
| PaymentSlice.PaymentSlice.UploadEvidenceFulfilled | frontend/src/redux/slices/paymentSlice.js:184-187 | Only the matching payment's evidence changes. |
| PaymentSlice.PaymentSlice.ConfirmPaymentFulfilled | frontend/src/redux/slices/paymentSlice.js:188-191 | Only the matching payment becomes confirmed. |
| PaymentSlice.PaymentSlice.RejectPaymentFulfilled | frontend/src/redux/slices/paymentSlice.js:192-195 | Only the matching payment becomes rejected. |
| PaymentSlice.PaymentSlice.IssueRefundFulfilled | frontend/src/redux/slices/paymentSlice.js:199-205 | Status succeeded. Only the refunded payment's payment-type entry is marked refunded, using the corrected lookup of the finding below. |
| PaymentSlice.PaymentSlice.GetTransactionReportFulfilled | frontend/src/redux/slices/paymentSlice.js:213-216 | The report is stored and status is succeeded. |
| PaymentSlice.PaymentSlice.CreateRefundRequestFulfilled | frontend/src/redux/slices/paymentSlice.js:224-226 | Only the status changes. |
| PaymentSlice.PaymentSlice.GetRefundRequestsFulfilled | frontend/src/redux/slices/paymentSlice.js:234-237 | The requests are replaced and status is succeeded. |
| PaymentSlice.PaymentSlice.HandleRefundRequestFulfilled | frontend/src/redux/slices/paymentSlice.js:245-257 | The request takes the returned status. Its transaction is marked refunded only when that status is approved. |
| PaymentForm.DigitRunIff | frontend/src/pages/UserPaymentForm.jsx:33 | `^\d{lo,hi}$` matches exactly the all-digit texts of length lo to hi. |
| PaymentForm.ValidateAccountNumber | frontend/src/pages/UserPaymentForm.jsx:28-39 | Empty input fails with "Account number is required", and success clears the message. |
| PaymentForm.AccountNumberIff | frontend/src/pages/UserPaymentForm.jsx:33-38 | The number passes exactly when it is 8 to 17 digits. Any other non-empty text gets the format message. |
| PaymentForm.ValidateEvidence | frontend/src/pages/UserPaymentForm.jsx:41-57 | It passes exactly for a file of at most 5·1024·1024 bytes of an accepted type. The size message wins when both checks fail. |
| PaymentForm.SubmitGuard | frontend/src/pages/UserPaymentForm.jsx:59-66 | Both validators always run and set their messages. The form proceeds exactly when both pass, a checkout id is present and the total is truthy. |

## Left out

- File I/O: multer storage, renaming and unlinking uploads, and the product folders. Evidence and images are opaque path strings.
- MongoDB sessions and concurrency. Handlers run one at a time. The race windows are not modelled: the check-then-insert of a refund request, and the separate saves in confirm, refund and approve. `addPaymentMethod`'s session is modelled as one commit.
- Authentication (JWT, the auth middleware, bcrypt). The caller `{userId, isAdmin}` and the `is-admin` header are inputs. The refund-request route carries no authentication, so its owner is taken from the body as given.
- Text parsing of numbers (`parseInt`, `parseFloat`). A numeric field is `Absent`, `NaN` or a whole number; fractional prices are not represented. Money is an integer amount (for example cents), so floating-point rounding is not modelled.
- ObjectId validity and cast errors are an `Option` id. A malformed id in a query (for example a non-numeric quantity in updateCartItem, whose catch answers 400) is not modelled beyond that.
- Identifiers are natural numbers drawn from one counter, so their text in image paths is decimal rather than ObjectId hex.
- The listing endpoints (myTransactions, getTransactions, getAllPayments, getRefundRequests, getAll/getById/getLatest products, cart and checkout listings): only their paging arithmetic is modelled. Query execution, sorting, `populate` and the case-insensitive name regex are not.
- The slice's asynchronous thunks (the network calls) are left out. Only the reducer transitions are modelled, and `fetchPayments.fulfilled`'s `data.payments || data` fallback takes the named field.
- CartController.BulkDeleteAndUpdate: `Promise.all` runs the stock updates concurrently, and they are modelled in line order. A thrown update after some have applied is not modelled.
- PaymentController.SettlePayment, PaymentController.IssueRefund and PaymentController.HandleRefundRequest: the source's 404 and 500 paths for a missing ledger entry or payment are unreachable under the store invariants. The methods keep those branches, and their contracts state every reachable outcome, including the success answer (for IssueRefund, Ok for an admin refunding a confirmed payment).
- PaymentSlice.PaymentSlice.IssueRefundFulfilled: follows the intended lookup (the refunded payment's payment-type entry) rather than the source's `_id` comparison, which never matches and leaves the list unchanged. The code's own behaviour is PaymentSlice.RefundedAsWritten, with PaymentSlice.AsWrittenNeverMarks and PaymentSlice.AsWrittenMissesTheEntry.
- The code and the design description disagree in these places, and the model follows the code:
  - a duplicate pending refund request answers 400, not a conflict;
  - a refunded payment stays confirmed, so it can be refunded again;
  - a buyer may move a completed checkout back to any status, so it can then be deleted (CheckoutController.ReopenedOrderIsDeletable).

## Findings

| source | as written | input that shows it | evidently intended | confidence | as-written member | corrected member |
|---|---|---|---|---|---|---|
| frontend/src/redux/slices/paymentSlice.js:199-205 | After a refund, the reducer looks for a transaction whose own `_id` equals the request's argument. That argument is the refunded payment's id (the route is `/refund/:id`). | The transactions list `[Transaction(id 1, paymentId 0, payment type, completed)]` and a refund of payment 0: no element is marked, although the server marked entry 1 refunded. | Mark the payment-type entry of the refunded payment as refunded, as the server does. | not executed | PaymentSlice.AsWrittenMissesTheEntry, PaymentSlice.AsWrittenNeverMarks | PaymentSlice.RefundedEntryAgreesWithStore |
