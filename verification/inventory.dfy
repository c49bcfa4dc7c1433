/** The store behind app/crud.py: products and orders keyed by id, with the
    operations that check their preconditions and then update stock and
    order together. Every operation is one unit of work: it either commits
    all of its writes or, on any error, none of them. */
module Inventory {
  import opened Models
  import opened Lifecycle
  import opened Ledger
  import opened Webhooks

  /** Whether some product carries `sku`. */
  predicate SkuTaken(products: map<int, Product>, sku: string) {
    exists k :: k in products && products[k].sku == sku
  }

  /** Whether a product other than `id` carries `sku`. */
  predicate SkuTakenByOther(products: map<int, Product>, id: int, sku: string) {
    exists k :: k in products && k != id && products[k].sku == sku
  }

  /** No two products share a SKU. */
  ghost predicate SkusUnique(products: map<int, Product>) {
    forall i, j :: i in products && j in products && products[i].sku == products[j].sku ==> i == j
  }

  lemma SkusUniqueAdd(products: map<int, Product>, id: int, p: Product)
    requires SkusUnique(products) && id !in products && !SkuTaken(products, p.sku)
    ensures SkusUnique(products[id := p])
  {
  }

  /** An edit of product `id` keeps SKUs unique unless it takes another
      product's SKU, which (when the lookup is passed) only an empty SKU can. */
  lemma EditedSku(products: map<int, Product>, id: int, u: ProductUpdate)
    requires SkusUnique(products) && id in products
    requires !(SkuLookedUp(u.sku, products[id].sku) && SkuTaken(products, u.sku.value))
    ensures var p := ApplyProductUpdate(products[id], u);
            && (SkuTakenByOther(products, id, p.sku) <==>
                  u.sku == Some("") && products[id].sku != "" && SkuTaken(products, ""))
            && (!SkuTakenByOther(products, id, p.sku) ==> SkusUnique(products[id := p]))
  {
  }

  /** Whether a product edit looks the requested SKU up: only when one is
      supplied, is non-empty (an empty string is false in the source's test)
      and differs from the product's current SKU. */
  predicate SkuLookedUp(requested: Option<string>, current: string) {
    requested.Some? && requested.value != "" && requested.value != current
  }

  class Store {
    var products: map<int, Product>
    var orders: map<int, Order>
    /** The id the database hands to the next product, and to the next order. */
    var nextProductId: int
    var nextOrderId: int

    /** What every committed state satisfies: ids below the counters, unique
        SKUs (the unique index on sku), positive prices, and every order
        referencing a stored product (the non-null product_id column). */
    ghost predicate Valid()
      reads this
    {
      && 1 <= nextProductId && 1 <= nextOrderId
      && (forall id :: id in products ==> 1 <= id < nextProductId)
      && (forall id :: id in orders ==> 1 <= id < nextOrderId)
      && SkusUnique(products)
      && (forall id :: id in products ==> products[id].price > 0.0)
      && (forall id :: id in orders ==> orders[id].productId in products)
    }

    ghost predicate StockNonNegative()
      reads this
    {
      forall id :: id in products ==> products[id].stock >= 0
    }

    ghost predicate QuantitiesPositive()
      reads this
    {
      forall id :: id in orders ==> orders[id].quantity > 0
    }

    /** The units the store accounts for under product `pid`: its stock
        plus the quantities its orders hold. */
    ghost function Accounted(pid: int): int
      reads this
    {
      Units(products, orders, nextOrderId, pid)
    }

    constructor ()
      ensures Valid() && StockNonNegative() && QuantitiesPositive()
      ensures products == map[] && orders == map[] && nextProductId == 1 && nextOrderId == 1
    {
      products, orders := map[], map[];
      nextProductId, nextOrderId := 1, 1;
    }

    function GetProduct(id: int): (r: Option<Product>)
      reads this
      ensures r.Some? <==> id in products
      ensures r.Some? ==> r.value == products[id]
    {
      if id in products then Some(products[id]) else None
    }

    function GetOrder(id: int): (r: Option<Order>)
      reads this
      ensures r.Some? <==> id in orders
      ensures r.Some? ==> r.value == orders[id]
    {
      if id in orders then Some(orders[id]) else None
    }

    method CreateProduct(data: ProductCreate) returns (r: Outcome<int>)
      requires Valid() && ValidProductCreate(data)
      modifies this
      ensures Valid()
      ensures r.Ok? || r == Conflict(DuplicateSku)
      ensures r == Conflict(DuplicateSku) <==> SkuTaken(old(products), data.sku)
      ensures !r.Ok? ==> unchanged(this)
      ensures r.Ok? ==> r.value == old(nextProductId) && r.value !in old(products)
                        && products == old(products)[r.value := Product(data.sku, data.name, data.price, data.stock)]
                        && orders == old(orders) && nextOrderId == old(nextOrderId)
                        && nextProductId == old(nextProductId) + 1
      ensures r.Ok? ==> Accounted(r.value) == data.stock
      ensures forall pid :: (!r.Ok? || pid != r.value) ==> Accounted(pid) == old(Accounted(pid))
      ensures old(StockNonNegative()) ==> StockNonNegative()
      ensures QuantitiesPositive() == old(QuantitiesPositive())
    {
      if SkuTaken(products, data.sku) {
        return Conflict(DuplicateSku);
      }
      var prod := Product(data.sku, data.name, data.price, data.stock);
      var id := nextProductId;
      assert !Referenced(orders, id);
      SkusUniqueAdd(products, id, prod);
      products := products[id := prod];
      nextProductId := nextProductId + 1;
      assert Accounted(id) == data.stock && forall pid :: pid != id ==> Accounted(pid) == old(Accounted(pid)) by {
        UnitsAddProduct(old(products), orders, nextOrderId, id, prod);
      }
      r := Ok(id);
    }

    method UpdateProduct(id: int, data: ProductUpdate) returns (r: Outcome<Product>)
      requires Valid() && ValidProductUpdate(data)
      modifies this
      ensures Valid()
      ensures r.Ok? || r == NotFound || r == Conflict(DuplicateSku) || r == StoreError
      ensures r == NotFound <==> id !in old(products)
      ensures r == Conflict(DuplicateSku) <==>
                id in old(products) && SkuLookedUp(data.sku, old(products)[id].sku)
                && SkuTaken(old(products), data.sku.value)
      ensures r == StoreError <==>
                id in old(products) && data.sku == Some("") && old(products)[id].sku != ""
                && SkuTaken(old(products), "")
      ensures !r.Ok? ==> unchanged(this)
      ensures r.Ok? ==> r.value == ApplyProductUpdate(old(products)[id], data)
                        && products == old(products)[id := r.value]
                        && orders == old(orders)
                        && nextProductId == old(nextProductId) && nextOrderId == old(nextOrderId)
      ensures r.Ok? ==> Accounted(id) == old(Accounted(id)) - old(products)[id].stock + r.value.stock
      ensures forall pid :: pid != id ==> Accounted(pid) == old(Accounted(pid))
      ensures old(StockNonNegative()) ==> StockNonNegative()
    {
      if id !in products {
        return NotFound;
      }
      var prod := products[id];
      if SkuLookedUp(data.sku, prod.sku) {
        if SkuTaken(products, data.sku.value) {
          return Conflict(DuplicateSku);
        }
      }
      EditedSku(products, id, data);
      prod := ApplyProductUpdate(prod, data);
      // The commit fails on the unique index when another product holds the SKU.
      if SkuTakenByOther(products, id, prod.sku) {
        return StoreError;
      }
      products := products[id := prod];
      r := Ok(prod);
    }

    method DeleteProduct(id: int) returns (r: Outcome<()>)
      requires Valid()
      modifies this
      ensures Valid()
      ensures r.Ok? || r == NotFound || r == StoreError
      ensures r == NotFound <==> id !in old(products)
      ensures r == StoreError <==> id in old(products) && Referenced(old(orders), id)
      ensures !r.Ok? ==> unchanged(this)
      ensures r.Ok? ==> products == old(products) - {id} && orders == old(orders)
                        && nextProductId == old(nextProductId) && nextOrderId == old(nextOrderId)
      ensures r.Ok? ==> Accounted(id) == 0
      ensures forall pid :: pid != id ==> Accounted(pid) == old(Accounted(pid))
      ensures old(StockNonNegative()) ==> StockNonNegative()
    {
      if id !in products {
        return NotFound;
      }
      // The commit fails when orders still reference the product: their
      // product_id would have to become null.
      if Referenced(orders, id) {
        return StoreError;
      }
      products := products - {id};
      r := Ok(());
    }

    method CreateOrder(data: OrderCreate, now: int) returns (r: Outcome<int>)
      requires Valid()
      modifies this
      ensures Valid()
      ensures r.Ok? || r == NotFound || r == Conflict(InsufficientStock)
      ensures r == NotFound <==> data.productId !in old(products)
      ensures r == Conflict(InsufficientStock) <==>
                data.productId in old(products) && old(products)[data.productId].stock < data.quantity
      ensures !r.Ok? ==> unchanged(this)
      ensures r.Ok? ==> var p := old(products)[data.productId];
                        && r.value == old(nextOrderId) && r.value !in old(orders)
                        && orders == old(orders)[r.value := Order(data.productId, data.quantity, PENDING, now)]
                        && products == old(products)[data.productId := p.(stock := p.stock - data.quantity)]
                        && nextOrderId == old(nextOrderId) + 1 && nextProductId == old(nextProductId)
      ensures forall pid :: Accounted(pid) == old(Accounted(pid))
      ensures old(StockNonNegative()) ==> StockNonNegative()
      ensures old(QuantitiesPositive()) && data.quantity > 0 ==> QuantitiesPositive()
    {
      if data.productId !in products {
        return NotFound;
      }
      var prod := products[data.productId];
      if prod.stock < data.quantity {
        return Conflict(InsufficientStock);
      }
      ghost var ps0, os0, n0 := products, orders, nextOrderId;
      prod := prod.(stock := prod.stock - data.quantity);
      var order := Order(data.productId, data.quantity, PENDING, now);
      var id := nextOrderId;
      orders := orders[id := order];
      products := products[data.productId := prod];
      nextOrderId := nextOrderId + 1;
      assert forall pid :: Accounted(pid) == old(Accounted(pid)) by {
        UnitsAfterExchange(ps0, os0, orders, id, n0, nextOrderId, data.productId, prod.stock);
      }
      r := Ok(id);
    }

    method UpdateOrder(id: int, data: OrderUpdate) returns (r: Outcome<Order>)
      requires Valid()
      modifies this
      ensures Valid()
      ensures r == NotFound <==> id !in old(orders)
      ensures id in old(orders) ==>
                var o := old(orders)[id];
                var p := old(products)[o.productId];
                var s := StatusStep(o.status, data.status);
                var q := QuantityStep(Holding(p.stock, o.quantity), data.quantity);
                && (s.Conflict? ==> r == Conflict(s.reason))
                && (s.Ok? && q.Conflict? ==> r == Conflict(q.reason))
                && (s.Ok? && q.Ok? ==>
                      && r == Ok(o.(status := s.value, quantity := q.value.quantity))
                      && products == old(products)[o.productId := p.(stock := q.value.stock)])
      ensures !r.Ok? ==> unchanged(this)
      ensures r.Ok? ==> orders == old(orders)[id := r.value]
                        && nextProductId == old(nextProductId) && nextOrderId == old(nextOrderId)
      ensures forall pid :: Accounted(pid) == old(Accounted(pid))
      ensures old(StockNonNegative()) ==> StockNonNegative()
      ensures old(QuantitiesPositive()) ==> QuantitiesPositive()
    {
      if id !in orders {
        return NotFound;
      }
      ghost var ps0, os0 := products, orders;
      var order := orders[id];
      var prod := products[order.productId];
      // The status checks come first, then the quantity checks; nothing is
      // written unless both pass.
      var status := StatusStep(order.status, data.status);
      if status.Conflict? {
        return Conflict(status.reason);
      }
      var holding := QuantityStep(Holding(prod.stock, order.quantity), data.quantity);
      if holding.Conflict? {
        return Conflict(holding.reason);
      }
      order := order.(status := status.value, quantity := holding.value.quantity);
      prod := prod.(stock := holding.value.stock);
      // The commit writes the edited product and order rows back together.
      products := products[order.productId := prod];
      orders := orders[id := order];
      assert forall pid :: Accounted(pid) == old(Accounted(pid)) by {
        UnitsAfterExchange(ps0, os0, orders, id, nextOrderId, nextOrderId, order.productId, prod.stock);
      }
      r := Ok(order);
    }

    method DeleteOrder(id: int) returns (r: Outcome<()>)
      requires Valid()
      modifies this
      ensures Valid()
      ensures r.Ok? || r == NotFound || r == Conflict(OnlyPendingDeletable)
      ensures r == NotFound <==> id !in old(orders)
      ensures r == Conflict(OnlyPendingDeletable) <==> id in old(orders) && !Deletable(old(orders)[id].status)
      ensures !r.Ok? ==> unchanged(this)
      ensures r.Ok? ==> var o := old(orders)[id];
                        var p := old(products)[o.productId];
                        && orders == old(orders) - {id}
                        && products == old(products)[o.productId := p.(stock := p.stock + o.quantity)]
                        && nextProductId == old(nextProductId) && nextOrderId == old(nextOrderId)
      ensures forall pid :: Accounted(pid) == old(Accounted(pid))
      ensures old(StockNonNegative() && (id in orders ==> orders[id].quantity >= 0)) ==> StockNonNegative()
      ensures old(QuantitiesPositive()) ==> QuantitiesPositive()
    {
      if id !in orders {
        return NotFound;
      }
      var order := orders[id];
      if !Deletable(order.status) {
        return Conflict(OnlyPendingDeletable);
      }
      ghost var ps0, os0 := products, orders;
      // Return the reserved stock to the product.
      var prod := products[order.productId];
      prod := prod.(stock := prod.stock + order.quantity);
      products := products[order.productId := prod];
      orders := orders - {id};
      assert forall pid :: Accounted(pid) == old(Accounted(pid)) by {
        UnitsAfterExchange(ps0, os0, orders, id, nextOrderId, nextOrderId, order.productId, prod.stock);
      }
      r := Ok(());
    }

    method MarkOrderPaid(id: int) returns (r: Outcome<Order>)
      requires Valid()
      modifies this
      ensures Valid()
      ensures r.Ok? || r == NotFound || r == Conflict(OnlyPendingPayable)
      ensures r == NotFound <==> id !in old(orders)
      ensures id in old(orders) ==>
                var o := old(orders)[id];
                && (r.Ok? <==> PayStep(o.status).Ok?)
                && (r.Ok? ==> r.value == o.(status := PAID))
                && (o.status == PAID ==> r == Ok(o) && unchanged(this))
      ensures !r.Ok? ==> unchanged(this)
      ensures r.Ok? ==> r.value.status == PAID && orders == old(orders)[id := r.value]
      ensures products == old(products)
      ensures nextProductId == old(nextProductId) && nextOrderId == old(nextOrderId)
      ensures forall pid :: Accounted(pid) == old(Accounted(pid))
      ensures QuantitiesPositive() == old(QuantitiesPositive())
    {
      if id !in orders {
        return NotFound;
      }
      var order := orders[id];
      if order.status == PAID {
        return Ok(order);
      }
      if order.status != PENDING {
        return Conflict(OnlyPendingPayable);
      }
      ghost var os0 := orders;
      order := order.(status := PAID);
      orders := orders[id := order];
      assert forall k :: k in orders ==> k in os0 && orders[k].quantity == os0[k].quantity;
      assert forall pid :: Accounted(pid) == old(Accounted(pid)) by {
        UnitsAfterExchange(products, os0, orders, id, nextOrderId, nextOrderId, order.productId,
                           products[order.productId].stock);
        assert products[order.productId := products[order.productId].(stock := products[order.productId].stock)] == products;
      }
      r := Ok(order);
    }

    /** The payment webhook: decide from the header, signature and body,
        and only for an authenticated payment event mark the order paid. */
    method WebhookPayment(secret: string, raw: Bytes, header: Option<string>,
                          sign: (string, Bytes) -> string, parse: Bytes -> Payload) returns (resp: Response)
      requires Valid()
      modifies this
      ensures Valid()
      ensures var d := Decide(secret, raw, header, sign, parse);
              && (d.Respond? ==> resp == d.resp && unchanged(this))
              && (d.MarkPaid? && d.orderId !in old(orders) ==> resp == OrderNotFound && unchanged(this))
              && (d.MarkPaid? && d.orderId in old(orders) ==>
                    var o := old(orders)[d.orderId];
                    if PayStep(o.status).Ok? then
                      && resp == PaymentProcessed(d.orderId)
                      && orders == old(orders)[d.orderId := o.(status := PAID)]
                      && products == old(products)
                      && nextProductId == old(nextProductId) && nextOrderId == old(nextOrderId)
                    else resp == PaymentConflict && unchanged(this))
      ensures forall pid :: Accounted(pid) == old(Accounted(pid))
    {
      var d := Decide(secret, raw, header, sign, parse);
      match d
      case Respond(answer) =>
        resp := answer;
      case MarkPaid(orderId) =>
        var out := MarkOrderPaid(orderId);
        resp := PaidResponse(orderId, out);
    }
  }

  /** A payment notice retried after it succeeded changes nothing more and
      gets the same answer. */
  method PaymentRetried(s: Store, id: int) returns (first: Outcome<Order>, second: Outcome<Order>)
    requires s.Valid()
    modifies s
    ensures s.Valid()
    ensures first.Ok? ==> second == first
    ensures s.orders == if first.Ok? then old(s.orders)[id := first.value] else old(s.orders)
    ensures s.products == old(s.products)
    ensures s.nextProductId == old(s.nextProductId) && s.nextOrderId == old(s.nextOrderId)
  {
    first := s.MarkOrderPaid(id);
    second := s.MarkOrderPaid(id);
  }

  /** The same authenticated payment event delivered twice for a PENDING
      order: the order becomes PAID once and both deliveries succeed. */
  method DuplicateDelivery(s: Store, secret: string, raw: Bytes, header: Option<string>,
                           sign: (string, Bytes) -> string, parse: Bytes -> Payload)
    returns (first: Response, second: Response)
    requires s.Valid()
    requires Decide(secret, raw, header, sign, parse).MarkPaid?
    requires Decide(secret, raw, header, sign, parse).orderId in s.orders
    requires s.orders[Decide(secret, raw, header, sign, parse).orderId].status == PENDING
    modifies s
    ensures var id := Decide(secret, raw, header, sign, parse).orderId;
            && first == second == PaymentProcessed(id)
            && s.orders == old(s.orders)[id := old(s.orders)[id].(status := PAID)]
            && s.products == old(s.products)
  {
    first := s.WebhookPayment(secret, raw, header, sign, parse);
    second := s.WebhookPayment(secret, raw, header, sign, parse);
  }

  /** The first half of the service's smoke scenario: an empty store gets a
      product with stock 5 and an order of 2 for it. */
  method SmokeSetup() returns (s: Store)
    ensures fresh(s) && s.Valid() && s.nextOrderId == 2
    ensures s.products == map[1 := Product("SKU-1", "Test Widget", 9.99, 3)]
    ensures s.orders == map[1 := Order(1, 2, PENDING, 0)]
  {
    s := new Store();
    var p := s.CreateProduct(ProductCreate("SKU-1", "Test Widget", 9.99, 5));
    var o := s.CreateOrder(OrderCreate(p.value, 2), 0);
  }

  /** The service's smoke scenario: a product with stock 5, an order of 2,
      a signed payment notice, shipping, and a refused deletion. */
  method SmokeScenario(secret: string, raw: Bytes, sign: (string, Bytes) -> string, parse: Bytes -> Payload)
    returns (stockAfterOrder: int, paid: Response, shipped: Outcome<Order>, deleted: Outcome<()>, stockAtEnd: int)
    requires sign(secret, raw) != "" && Ascii(sign(secret, raw))
    requires parse(raw) == Event(Some(PaymentSucceeded), Integer(1))
    ensures stockAfterOrder == 3 && stockAtEnd == 3
    ensures paid == PaymentProcessed(1)
    ensures shipped.Ok? && shipped.value.status == SHIPPED && shipped.value.quantity == 2
    ensures deleted == Conflict(OnlyPendingDeletable)
  {
    var s := SmokeSetup();
    stockAfterOrder := s.products[1].stock;
    paid := s.WebhookPayment(secret, raw, Some(sign(secret, raw)), sign, parse);
    assert s.orders == map[1 := Order(1, 2, PAID, 0)] && s.products[1].stock == 3;
    shipped := s.UpdateOrder(1, OrderUpdate(None, Some(SHIPPED)));
    deleted := s.DeleteOrder(1);
    stockAtEnd := s.products[1].stock;
  }

  /** The smoke script's payment step as written: it signs one serialization
      of the body (`compact`) and sends another (`spaced`). Whenever the two
      serializations' signatures differ, the notice is refused as unsigned and
      the order stays PENDING, so the script stops at its third step. */
  method SmokeScriptPayment(secret: string, compact: Bytes, spaced: Bytes,
                            sign: (string, Bytes) -> string, parse: Bytes -> Payload)
    returns (resp: Response, status: OrderStatus, stock: int)
    requires sign(secret, compact) != "" && Ascii(sign(secret, compact)) && Ascii(sign(secret, spaced))
    requires sign(secret, spaced) != sign(secret, compact)
    ensures resp == InvalidSignature
    ensures status == PENDING && stock == 3
  {
    var s := SmokeSetup();
    resp := s.WebhookPayment(secret, spaced, Some(sign(secret, compact)), sign, parse);
    status := s.orders[1].status;
    stock := s.products[1].stock;
  }

  /** Orders with a non-positive quantity are accepted, and deleting one
      such order later can drive a product's stock below zero. */
  method NegativeStockReachable() returns (stock: int)
    ensures stock == -5
  {
    var s := new Store();
    var p := s.CreateProduct(ProductCreate("SKU-1", "Widget", 1.0, 0));
    var credit := s.CreateOrder(OrderCreate(p.value, -5), 0);
    var draw := s.CreateOrder(OrderCreate(p.value, 5), 0);
    var deleted := s.DeleteOrder(credit.value);
    stock := s.products[p.value].stock;
  }
}
