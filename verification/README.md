# Order/inventory service: store, order lifecycle and payment webhook

This project models the core of a small order and inventory service.

- Products carry a unique SKU, a price and a stock count.
- Orders reserve stock from one product.
- Orders move through the statuses PENDING, PAID, SHIPPED and CANCELED.
- A signed payment webhook marks orders as paid.

The model has five modules:

- `Models` (models.dfy) holds the records, the request shapes and their declared field constraints. It also holds the field-by-field product edit.
- `Lifecycle` (lifecycle.dfy) holds the business rules that order operations check before writing anything:
  - the status transition table;
  - the status step and the quantity step of an order update;
  - the payment step.

  Python's `LookupError` and `ValueError` become the `NotFound` and `Conflict(reason)` constructors of `Outcome`. There is one `Reason` per distinct error message. A commit that the database refuses is `StoreError`.
- `Ledger` (ledger.dfy) says what stock accounting means. A product's *units* are its stock plus the quantities of the orders that reference it. Order operations move units between the two without changing the sum.
- `Webhooks` (webhooks.dfy) is the webhook handler's decision procedure, as a pure function. The checks run in this order: header, signature, body, event kind, order id. The HMAC-SHA256 signer and the JSON reader are function-typed parameters.
- `Inventory` (inventory.dfy) is the store. Class `Store` keeps:
  - the product and order tables, as maps from id to record;
  - the two id counters.

  It has one method per database operation, plus the webhook handler. Each method is one unit of work: it commits all of its writes, or on any error leaves the store `unchanged`. Every method preserves `Valid()`, which says:
  - ids are below the counters;
  - SKUs are unique;
  - prices are positive;
  - every order references a stored product.

  Every order operation keeps each product's units (`Accounted`) exactly as they were.

The intended lifecycle is PENDING → PAID → SHIPPED. In it, an order is canceled only by deleting it while PENDING, no status is entered twice, and stock never goes negative. The code allows more, and the model follows the code:

- An order update may set a PENDING or PAID order to CANCELED. This returns no stock.
- An order update may set a PAID order back to PENDING.
- An order update may change the quantity of a SHIPPED or CANCELED order when no status is supplied.
- `mark_order_paid` accepts an order that is already PAID.
- Order creation accepts any quantity, including zero and negative ones. Deleting such an order can therefore drive a product's stock below zero (`NegativeStockReachable`). For this reason non-negative stock is not part of `Valid()`. Each operation instead states when it preserves `StockNonNegative()`.

## Model

| member | source | states |
|---|---|---|
| Models.AllStatuses | app/models.py:6-10 | the order status enumeration has exactly four members, and every status is one of them |
| Models.StatusCases | app/models.py:6-10 | PENDING, PAID, SHIPPED and CANCELED are all the statuses there are |
| Models.ApplyProductUpdate | app/crud.py:30-31 | every supplied field replaces the product's field and every absent field is kept; a valid product edited by a valid request still has price > 0 and stock >= 0 |
| Models.ProductFieldsValid | app/models.py:15-16 | a product's declared field constraints: price > 0 and stock >= 0 |
| Models.ValidProductCreate | app/models.py:22-23 | a creation request meets the product field constraints it inherits |
| Models.ValidProductUpdate | app/models.py:28-32 | an edit request's price, when supplied, is > 0 and its stock, when supplied, is >= 0; SKU and name are unconstrained |
| Models.ValidOrderUpdate | app/models.py:52-54 | an order edit's quantity, when supplied, is > 0; the status is unconstrained |
| Lifecycle.Transition | app/crud.py:69-76 | the status moves an order update lets through: SHIPPED only from PAID; nothing out of SHIPPED or CANCELED; from PAID anything; from PENDING any status but SHIPPED |
| Lifecycle.Deletable | app/crud.py:97-98 | only PENDING orders may be deleted; a deletable order cannot be shipped yet, and payment would move it to PAID; these are exactly the statuses that payment changes |
| Lifecycle.StatusStep | app/crud.py:69-76 | with no status requested the order keeps its status; otherwise the result is the requested status or a refusal |
| Lifecycle.StatusStepFollowsTable | app/crud.py:69-76 | the status step accepts exactly the moves of the transition table; SHIPPED from a status other than PAID is refused as not paid; any other status on a CANCELED or SHIPPED order is refused as final |
| Lifecycle.QuantityStep | app/crud.py:77-87 | no quantity requested leaves stock and quantity alone; an accepted change keeps stock + quantity constant and sets a positive quantity equal to the requested one |
| Lifecycle.QuantityStepRefusals | app/crud.py:78-84 | a quantity <= 0 is refused, and only then; an increase is refused exactly when the stock is smaller than the added units; an accepted change leaves a non-negative stock non-negative |
| Lifecycle.ValidatedQuantityPassesCheck | app/models.py:52-54 | a request whose quantity meets the declared `> 0` constraint never meets the non-positive-quantity refusal |
| Lifecycle.PayStep | app/crud.py:111-115 | the payment step succeeds exactly for PENDING and PAID orders, which are exactly the statuses the transition table lets move to PAID; it yields PAID, and otherwise refuses because only PENDING orders can be paid |
| Lifecycle.PayStepIdempotent | app/crud.py:111-112 | paying an order again after a successful payment gives the same result |
| Ledger.ReservedFrame | app/crud.py:53 | adding, resizing or removing one order changes the units reserved against a product by exactly the change in that order's share |
| Ledger.ReservedNone | app/crud.py:11-13 | a product no order references has nothing reserved |
| Ledger.UnitsAfterExchange | app/crud.py:85 | moving units between a product's stock and one of its orders, in either direction, leaves every product's units unchanged |
| Ledger.UnitsAddProduct | app/crud.py:11-13 | a new product enters with its stock as its units, and no other product's units move |
| Webhooks.Decide | app/routers/webhooks.py:12-26 | a missing or empty header is answered 400; a non-ASCII header or digest is answered 500, as the comparison raises; a wrong signature is answered 401, and only then; an unreadable body or an unconvertible order id gives 500; an event other than payment.succeeded is ignored, and only then; an order id that is not numeric gives 409; the store is asked to mark the order paid exactly when the request is authentic, the event is payment.succeeded and the order id is an integer |
| Webhooks.PaidResponse | app/routers/webhooks.py:26-31 | success reports the order id; a missing order is answered 404 and a refused payment 409, and only then |
| Webhooks.MissingSignatureDecidedFirst | app/routers/webhooks.py:13-15 | without a signature header the answer depends neither on the signature nor on the body |
| Webhooks.BodyReadOnlyAfterAuthentication | app/routers/webhooks.py:16-20 | an unauthenticated request is answered without reading the body, and the store is never asked to mark anything |
| Webhooks.TamperedBodyRejected | app/routers/webhooks.py:16-18 | a body altered after signing, sent with the original signature, is answered 401 whenever the two bodies' signatures differ |
| Inventory.SkuLookedUp | app/crud.py:27 | the duplicate-SKU lookup runs only for a supplied SKU that is non-empty (an empty string is false in the source's test) and differs from the current one |
| Inventory.SkusUniqueAdd | app/crud.py:9-13 | adding a product whose SKU no product carries keeps SKUs unique |
| Inventory.EditedSku | app/crud.py:27-33 | once the lookup has passed, an edit takes another product's SKU exactly when it sets an empty SKU that another product holds; otherwise SKUs stay unique |
| Inventory.Store.Valid | app/models.py:12-35 | what every committed state satisfies, and every store method preserves: unique SKUs (the unique index), positive prices, every order referencing a stored product (the non-null foreign key), and ids below the counters |
| Inventory.Store.constructor | app/database.py:6-7 | the store starts with no products and no orders, and both counters at 1 |
| Inventory.Store.GetProduct | app/crud.py:20-21 | the product stored under the id, or none exactly when there is none |
| Inventory.Store.GetOrder | app/crud.py:61-62 | the order stored under the id, or none exactly when there is none |
| Inventory.Store.CreateProduct | app/crud.py:7-15 | refused as a duplicate exactly when the SKU is taken; otherwise stores the product under a fresh id and changes nothing else; the new product's units are its stock |
| Inventory.Store.UpdateProduct | app/crud.py:23-35 | missing product gives NotFound; a non-empty new SKU held by another product gives a duplicate refusal; an empty SKU held by another product is refused by the unique index at commit; otherwise the product becomes the edited record, and only its stock term of the units moves |
| Inventory.Store.DeleteProduct | app/crud.py:37-43 | a missing product gives NotFound; a product that orders reference cannot be committed away; otherwise only that product is removed |
| Inventory.Store.CreateOrder | app/crud.py:46-59 | a missing product gives NotFound; a stock below the quantity gives an insufficient-stock refusal; otherwise a PENDING order is stored under a fresh id and the product's stock drops by the quantity; every product's units are conserved |
| Inventory.Store.UpdateOrder | app/crud.py:64-91 | a missing order gives NotFound; the status rules are applied first, then the quantity rules, and the first refusal aborts with nothing written; otherwise the order and its product's stock are both rewritten as the two steps say; units are conserved, and non-negative stock and positive quantities are preserved |
| Inventory.Store.DeleteOrder | app/crud.py:93-105 | a missing order gives NotFound; only a PENDING order is deleted; its quantity returns to the product's stock; units are conserved |
| Inventory.Store.MarkOrderPaid | app/crud.py:107-119 | a missing order gives NotFound; a PAID order is returned as is, with nothing written; a PENDING order becomes PAID; anything else is refused; stock is never touched |
| Inventory.Store.WebhookPayment | app/routers/webhooks.py:10-31 | an answer the decision procedure gives without the store leaves the store unchanged; an authenticated payment event for an existing PENDING or PAID order marks it PAID and reports the id; a missing order gives 404 and a refused payment 409, both with nothing written |
| Inventory.PaymentRetried | app/crud.py:111-112 | a payment retried after it succeeded gets the same answer and changes nothing more |
| Inventory.DuplicateDelivery | app/routers/webhooks.py:23-31 | a payment event delivered twice for a PENDING order makes it PAID once, and both deliveries report success |
| Inventory.SmokeSetup | app/tests/smoke_tests.py:14-25 | a product with stock 5 and an order of 2 leave stock 3 and one PENDING order |
| Inventory.SmokeScenario | app/tests/smoke_tests.py:13-40 | the smoke scenario with the payment notice signed over the exact bytes sent: the notice is processed, the paid order ships with quantity 2, deleting the shipped order is refused, and the stock stays 3 |
| Inventory.SmokeScriptPayment | app/tests/smoke_tests.py:9-31 | the script as written signs a compact serialization of the body and sends a differently spaced one; whenever their signatures differ the notice is answered 401 and the order stays PENDING with stock 3 |
| Inventory.NegativeStockReachable | app/crud.py:46-59 | an order of -5 on a product with stock 0, an order of 5, and deletion of the first order leave stock -5 |

## Left out

- HTTP routing and response shaping are not modelled beyond the webhook's status codes. The routers turn `LookupError` into 404 and `ValueError` into 409.
- The database, sessions and commit machinery become map updates. Transaction isolation and concurrent requests against one product are not modelled, because each method is one atomic step.
- Ids come from counters starting at 1. The model does not capture SQLite handing out a deleted maximum id again.
- The HMAC-SHA256 digest and the JSON parser are the parameters `sign` and `parse`. Constant-time behaviour of the comparison is not modelled; its result and its TypeError on non-ASCII strings are.
- Prices are `real`. Floating-point rounding is not modelled.
- `created_at` is a parameter (`now`), because it comes from the clock.
- `list_products` (app/crud.py:17-18) only reads the whole product table. The model exposes that table as the `products` field.
- Request validation happens before the store is called. It becomes the `ValidProductCreate` and `ValidProductUpdate` preconditions of the store methods.
- Response-model validation is not modelled. It runs after the commit. For example, an order stored with a quantity <= 0 is answered with a server error even though it was written.
- An explicit `null` for a product field (`"sku": null`) would be written as null and refused by the database. The model's `None` always means "not supplied".
- Inventory.Store.DeleteProduct: the model refuses, with nothing written, to delete a product that orders still reference. This assumes the ORM's nulling of the non-null `product_id` column fails at commit. It does not model a database configured to cascade or to accept the null.
- Inventory.Store.UpdateProduct: a refusal by the unique index at commit is `StoreError`, which the routers do not catch. The model does not distinguish the resulting HTTP 500 from other server errors.
- Inventory.Store.CreateProduct, Inventory.Store.UpdateProduct: stock is an unbounded integer. The database columns are 64-bit. A stock outside that range is refused when the database stores it, which is an unhandled server error with nothing written. The model accepts it.
- Inventory.Store.CreateOrder: a quantity, or a resulting stock, outside the 64-bit range fails at commit in the source, with nothing written. The model accepts it. An example is a quantity of -(2^63) on stock 1.
- Inventory.Store.UpdateOrder: a requested quantity, or a resulting stock, outside the 64-bit range fails at commit in the source. The model accepts it.
- Inventory.Store.DeleteOrder: a stock that returning the order's quantity pushes outside the 64-bit range fails at commit in the source, with nothing written. The model accepts it.
- Inventory.Store.GetProduct, Inventory.Store.GetOrder, Inventory.Store.UpdateProduct, Inventory.Store.DeleteProduct, Inventory.Store.CreateOrder, Inventory.Store.UpdateOrder, Inventory.Store.DeleteOrder, Inventory.Store.MarkOrderPaid: a product or order id outside the 64-bit range makes the source's lookup raise an error that no handler catches. That is a server error with nothing written. The model answers NotFound, or None for the two getters.
- Inventory.Store.WebhookPayment: an order id outside the 64-bit range makes the source's lookup fail with a server error. The model answers 404 instead.
- Webhooks.Decide: an order id that converts to an integer is taken as given. This includes Python's truncating `int()` of a float. The conversion itself belongs to `parse`.

## Findings

| source | as written | input that shows it | evidently intended | confidence | as-written member | corrected member |
|---|---|---|---|---|---|---|
| app/tests/smoke_tests.py:9-31 | the payment step signs `json.dumps(body, separators=(',', ':'))` but posts the body through `json=body`, which serializes with `", "` and `": "` separators | body `{"order_id": 1, "event": "payment.succeeded"}`: the compact and the spaced bytes differ, and so do their HMAC-SHA256 signatures; the handler answers 401 and the script stops at step 3 | sign exactly the bytes that are sent, so that the notice is processed (200) and the order ships | high (not executed) | Inventory.SmokeScriptPayment | Inventory.SmokeScenario |
