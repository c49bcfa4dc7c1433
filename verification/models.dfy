/** Records and request shapes of the order/inventory service (app/models.py),
    with the field constraints their declarations carry. Prices are carried as
    `real`; timestamps are plain integers supplied by the caller. */
module Models {

  datatype Option<T> = None | Some(value: T) {
    /** The carried value, or `default` when the field was not supplied. */
    function GetOr(default: T): T {
      match this
      case Some(v) => v
      case None => default
    }
  }

  /** Lifecycle status of an order. */
  datatype OrderStatus = PENDING | PAID | SHIPPED | CANCELED

  /** The status enumeration has exactly four members. */
  function AllStatuses(): (r: set<OrderStatus>)
    ensures |r| == 4
    ensures forall s: OrderStatus :: s in r
  {
    var r := {PENDING, PAID, SHIPPED, CANCELED};
    assert r == {PENDING} + {PAID} + {SHIPPED} + {CANCELED};
    StatusCases(r);
    r
  }

  lemma StatusCases(r: set<OrderStatus>)
    requires r == {PENDING, PAID, SHIPPED, CANCELED}
    ensures forall s: OrderStatus :: s in r
  {
    forall s: OrderStatus ensures s in r {
      match s
      case PENDING =>
      case PAID =>
      case SHIPPED =>
      case CANCELED =>
    }
  }

  /** A stored product; `sku` is unique across the store. */
  datatype Product = Product(sku: string, name: string, price: real, stock: int)

  /** The declared constraints of a product's fields: price > 0, stock >= 0. */
  predicate ProductFieldsValid(price: real, stock: int) {
    price > 0.0 && stock >= 0
  }

  /** Request shape for creating a product; every field is required. */
  datatype ProductCreate = ProductCreate(sku: string, name: string, price: real, stock: int)

  predicate ValidProductCreate(d: ProductCreate) {
    ProductFieldsValid(d.price, d.stock)
  }

  /** Request shape for editing a product; `None` means "not supplied". */
  datatype ProductUpdate = ProductUpdate(sku: Option<string>, name: Option<string>,
                                         price: Option<real>, stock: Option<int>)

  /** A supplied price must be > 0 and a supplied stock >= 0. */
  predicate ValidProductUpdate(u: ProductUpdate) {
    (u.price.Some? ==> u.price.value > 0.0) && (u.stock.Some? ==> u.stock.value >= 0)
  }

  /** Copies every supplied field of `u` onto `p` and leaves the others alone. */
  function ApplyProductUpdate(p: Product, u: ProductUpdate): (r: Product)
    ensures u.sku.None? ==> r.sku == p.sku
    ensures u.sku.Some? ==> r.sku == u.sku.value
    ensures u.name.None? ==> r.name == p.name
    ensures u.name.Some? ==> r.name == u.name.value
    ensures u.price.None? ==> r.price == p.price
    ensures u.price.Some? ==> r.price == u.price.value
    ensures u.stock.None? ==> r.stock == p.stock
    ensures u.stock.Some? ==> r.stock == u.stock.value
    ensures ProductFieldsValid(p.price, p.stock) && ValidProductUpdate(u) ==> ProductFieldsValid(r.price, r.stock)
  {
    Product(u.sku.GetOr(p.sku), u.name.GetOr(p.name), u.price.GetOr(p.price), u.stock.GetOr(p.stock))
  }

  /** A stored order. It references exactly one product; the declared
      constraint quantity > 0 is not enforced when the order is stored. */
  datatype Order = Order(productId: int, quantity: int, status: OrderStatus, createdAt: int)

  /** Request shape for placing an order: no constraint on `quantity`. */
  datatype OrderCreate = OrderCreate(productId: int, quantity: int)

  /** Request shape for editing an order; `None` means "not supplied". */
  datatype OrderUpdate = OrderUpdate(quantity: Option<int>, status: Option<OrderStatus>)

  /** A supplied quantity must be > 0. */
  predicate ValidOrderUpdate(u: OrderUpdate) {
    u.quantity.Some? ==> u.quantity.value > 0
  }
}
