/** The order state machine and the stock rules that the order operations of
    app/crud.py check before they write anything. Each rule is a pure function
    from the loaded state and the request to either the values to write or the
    business-rule violation that aborts the operation. */
module Lifecycle {
  import opened Models

  /** Why an operation was refused as a business-rule violation; one
      constructor per distinct error the source raises. */
  datatype Reason =
    | DuplicateSku                  // "SKU already exists"
    | InsufficientStock             // "Insufficient stock"
    | NotPaidBeforeShipped          // "Order must be PAID before SHIPPED"
    | CanceledIsFinal               // "Cannot change a CANCELED order"
    | ShippedIsFinal                // "Cannot change a SHIPPED order"
    | NonPositiveQuantity           // "Quantity must be > 0"
    | InsufficientStockForIncrease  // "Insufficient stock for quantity increase"
    | OnlyPendingDeletable          // "Only PENDING orders can be deleted"
    | OnlyPendingPayable            // "Only PENDING orders can be marked PAID"

  /** Result of a store operation: the value returned, a missing record
      (LookupError), a business-rule violation (ValueError), or a commit the
      database refuses because of a column or uniqueness constraint. */
  datatype Outcome<T> = Ok(value: T) | NotFound | Conflict(reason: Reason) | StoreError

  /** The transition table: which status an order in status `from` may be
      set to through an order update. */
  predicate Transition(from: OrderStatus, to: OrderStatus): (allowed: bool)
    ensures allowed && to == SHIPPED ==> from == PAID
    ensures from == SHIPPED || from == CANCELED ==> !allowed
    ensures from != SHIPPED && from != CANCELED && to != SHIPPED ==> allowed
    ensures from == PAID ==> allowed
  {
    match from
    case PENDING => to == PENDING || to == PAID || to == CANCELED
    case PAID => true
    case SHIPPED => false
    case CANCELED => false
  }

  /** The status part of an order update: the status the order will carry,
      or the first rule the request breaks. */
  function StatusStep(current: OrderStatus, requested: Option<OrderStatus>): (r: Outcome<OrderStatus>)
    ensures r.Ok? || r.Conflict?
    ensures r.Ok? ==> r.value == requested.GetOr(current)
  {
    if requested.None? then Ok(current)
    else if requested.value == SHIPPED && current != PAID then Conflict(NotPaidBeforeShipped)
    else if current == CANCELED then Conflict(CanceledIsFinal)
    else if current == SHIPPED then Conflict(ShippedIsFinal)
    else Ok(requested.value)
  }

  /** The status step accepts exactly the moves of the transition table;
      shipping requires payment first, and a CANCELED or SHIPPED order
      accepts no status at all. */
  lemma StatusStepFollowsTable(current: OrderStatus, requested: Option<OrderStatus>)
    ensures StatusStep(current, requested).Ok? <==> requested.None? || Transition(current, requested.value)
    ensures requested == Some(SHIPPED) && current != PAID ==>
              StatusStep(current, requested) == Conflict(NotPaidBeforeShipped)
    ensures requested.Some? && requested.value != SHIPPED && current == CANCELED ==>
              StatusStep(current, requested) == Conflict(CanceledIsFinal)
    ensures requested.Some? && requested.value != SHIPPED && current == SHIPPED ==>
              StatusStep(current, requested) == Conflict(ShippedIsFinal)
  {
  }

  /** A product's stock together with the quantity one of its orders holds. */
  datatype Holding = Holding(stock: int, quantity: int)

  /** The quantity part of an order update: the product's new stock and the
      order's new quantity, or the rule the request breaks. */
  function QuantityStep(h: Holding, requested: Option<int>): (r: Outcome<Holding>)
    ensures r.Ok? || r.Conflict?
    ensures requested.None? ==> r == Ok(h)
    ensures r.Ok? ==> r.value.stock + r.value.quantity == h.stock + h.quantity
    ensures r.Ok? && requested.Some? ==> r.value.quantity == requested.value && r.value.quantity > 0
  {
    if requested.None? then Ok(h)
    else if requested.value <= 0 then Conflict(NonPositiveQuantity)
    else
      var delta := requested.value - h.quantity;
      if delta != 0 && delta > 0 && h.stock < delta then Conflict(InsufficientStockForIncrease)
      else Ok(Holding(h.stock - delta, requested.value))
  }

  /** The quantity step refuses a non-positive quantity, and refuses an
      increase exactly when the stock cannot cover the added units; whatever
      it accepts leaves a non-negative stock non-negative. */
  lemma QuantityStepRefusals(h: Holding, requested: Option<int>)
    ensures QuantityStep(h, requested) == Conflict(NonPositiveQuantity) <==>
              requested.Some? && requested.value <= 0
    ensures QuantityStep(h, requested) == Conflict(InsufficientStockForIncrease) <==>
              requested.Some? && requested.value > 0 && h.quantity < requested.value
              && h.stock < requested.value - h.quantity
    ensures QuantityStep(h, requested).Ok? <==>
              !(requested.Some? && (requested.value <= 0
                                    || (h.quantity < requested.value && h.stock < requested.value - h.quantity)))
    ensures QuantityStep(h, requested).Ok? && h.stock >= 0 ==> QuantityStep(h, requested).value.stock >= 0
  {
  }

  /** A request whose quantity passed the request-shape validation never
      meets the quantity check's refusal of non-positive values. */
  lemma ValidatedQuantityPassesCheck(h: Holding, u: OrderUpdate)
    requires ValidOrderUpdate(u)
    ensures QuantityStep(h, u.quantity) != Conflict(NonPositiveQuantity)
  {
    QuantityStepRefusals(h, u.quantity);
  }

  /** The payment step: the status after a successful payment notice, or
      the refusal. An order that is already PAID is accepted as it is. */
  function PayStep(current: OrderStatus): (r: Outcome<OrderStatus>)
    ensures r.Ok? <==> current == PENDING || current == PAID
    ensures r.Ok? <==> Transition(current, PAID)
    ensures r.Ok? ==> r.value == PAID
    ensures !r.Ok? ==> r == Conflict(OnlyPendingPayable)
  {
    if current == PAID then Ok(current)
    else if current != PENDING then Conflict(OnlyPendingPayable)
    else Ok(PAID)
  }

  /** Paying an order twice leaves it where paying it once does. */
  lemma PayStepIdempotent(current: OrderStatus)
    ensures PayStep(current).Ok? ==> PayStep(PayStep(current).value) == PayStep(current)
  {
  }

  /** Only a PENDING order may be deleted: an order that cannot be shipped
      yet and that a payment would move to PAID. */
  predicate Deletable(status: OrderStatus): (ok: bool)
    ensures ok ==> StatusStep(status, Some(SHIPPED)) == Conflict(NotPaidBeforeShipped)
    ensures ok ==> PayStep(status) == Ok(PAID) && PAID != status
    ensures ok <==> PayStep(status).Ok? && PayStep(status).value != status
  {
    status == PENDING
  }
}
