/** The payment webhook's decision procedure (app/routers/webhooks.py): the
    signature header, then the signature, then the event kind, then the
    order id, in that order. The message authentication code and the JSON
    parser are parameters: `sign(secret, raw)` stands for the hex HMAC-SHA256
    digest of the raw body and `parse(raw)` for what the handler reads out of
    the JSON body. */
module Webhooks {
  import opened Models
  import opened Lifecycle

  type Bytes = seq<bv8>

  /** What converting the body's `order_id` value to an integer gives: a
      number; a ValueError, which the handler answers as a refusal (a
      non-numeric string, or a NaN number); or an error the handler does not
      catch (a TypeError for an absent, null, list or object value, or an
      OverflowError for an infinite number such as `1e400`). */
  datatype OrderRef = Integer(n: int) | NotNumeric | NotConvertible

  /** The parsed body: unreadable (not JSON, or JSON that is not an object),
      or an object with its `event` string (None when absent or not a
      string) and its `order_id` conversion. */
  datatype Payload = Unreadable | Event(kind: Option<string>, orderRef: OrderRef)

  /** The only event kind that triggers a transition. */
  const PaymentSucceeded: string := "payment.succeeded"

  /** The handler's responses, with their HTTP status. */
  datatype Response =
    | MissingSignature          // 400
    | InvalidSignature          // 401
    | Ignored                   // 200, {"detail": "Ignored"}
    | PaymentProcessed(orderId: int)  // 200, {"detail": "Payment processed", "order_id": ...}
    | OrderNotFound             // 404
    | PaymentConflict           // 409
    | ServerError               // 500, an exception the handler does not catch

  /** What the handler does before it touches the store: answer at once, or
      mark order `orderId` paid. */
  datatype Decision = Respond(resp: Response) | MarkPaid(orderId: int)

  /** Whether every character of `s` is ASCII; the constant-time string
      comparison raises a TypeError on any other string. */
  predicate Ascii(s: string) {
    forall i :: 0 <= i < |s| ==> s[i] < 128 as char
  }

  /** The header is present, non-empty, ASCII and equal to the body's signature. */
  predicate Authentic(secret: string, raw: Bytes, header: Option<string>, sign: (string, Bytes) -> string) {
    header.Some? && header.value != "" && Ascii(header.value) && sign(secret, raw) == header.value
  }

  /** The signature comparison can be made: the header is present and
      non-empty and both strings are ASCII. */
  predicate Comparable(secret: string, raw: Bytes, header: Option<string>, sign: (string, Bytes) -> string) {
    header.Some? && header.value != "" && Ascii(header.value) && Ascii(sign(secret, raw))
  }

  function Decide(secret: string, raw: Bytes, header: Option<string>,
                  sign: (string, Bytes) -> string, parse: Bytes -> Payload): (d: Decision)
    ensures d == Respond(MissingSignature) <==> header.None? || header == Some("")
    ensures header.Some? && header.value != "" && !Comparable(secret, raw, header, sign) ==>
              d == Respond(ServerError)
    ensures d == Respond(InvalidSignature) <==>
              Comparable(secret, raw, header, sign) && sign(secret, raw) != header.value
    ensures d.MarkPaid? <==>
              Authentic(secret, raw, header, sign) && parse(raw).Event?
              && parse(raw).kind == Some(PaymentSucceeded) && parse(raw).orderRef.Integer?
    ensures d.MarkPaid? ==> parse(raw).orderRef == Integer(d.orderId)
    ensures d == Respond(Ignored) <==>
              Authentic(secret, raw, header, sign) && parse(raw).Event? && parse(raw).kind != Some(PaymentSucceeded)
    ensures Authentic(secret, raw, header, sign)
            && (parse(raw).Unreadable? || parse(raw) == Event(Some(PaymentSucceeded), NotConvertible)) ==>
              d == Respond(ServerError)
    ensures d == Respond(PaymentConflict) <==>
              Authentic(secret, raw, header, sign) && parse(raw) == Event(Some(PaymentSucceeded), NotNumeric)
    ensures d.Respond? ==> !d.resp.PaymentProcessed? && d.resp != OrderNotFound
  {
    if header.None? || header.value == "" then Respond(MissingSignature)
    else if !Ascii(sign(secret, raw)) || !Ascii(header.value) then Respond(ServerError)
    else if sign(secret, raw) != header.value then Respond(InvalidSignature)
    else
      match parse(raw)
      case Unreadable => Respond(ServerError)
      case Event(kind, ref) =>
        if kind != Some(PaymentSucceeded) then Respond(Ignored)
        else
          match ref
          case Integer(n) => MarkPaid(n)
          case NotNumeric => Respond(PaymentConflict)
          case NotConvertible => Respond(ServerError)
  }

  /** The response to a payment event once the store has answered the
      mark-paid step for order `id`: a missing order is 404, a refused
      transition 409. */
  function PaidResponse(id: int, out: Outcome<Order>): (resp: Response)
    ensures resp == PaymentProcessed(id) <==> out.Ok?
    ensures resp == OrderNotFound <==> out.NotFound?
    ensures resp == PaymentConflict <==> out.Conflict?
  {
    match out
    case Ok(_) => PaymentProcessed(id)
    case NotFound => OrderNotFound
    case Conflict(_) => PaymentConflict
    case StoreError => ServerError
  }

  /** A request without a signature is refused before the signature is
      computed or the body read: the answer depends on neither. */
  lemma MissingSignatureDecidedFirst(secret: string, raw: Bytes, header: Option<string>,
                                     sign1: (string, Bytes) -> string, sign2: (string, Bytes) -> string,
                                     parse1: Bytes -> Payload, parse2: Bytes -> Payload)
    requires header.None? || header == Some("")
    ensures Decide(secret, raw, header, sign1, parse1) == Decide(secret, raw, header, sign2, parse2)
  {
  }

  /** An unauthenticated request is answered without reading the body. */
  lemma BodyReadOnlyAfterAuthentication(secret: string, raw: Bytes, header: Option<string>,
                                        sign: (string, Bytes) -> string,
                                        parse1: Bytes -> Payload, parse2: Bytes -> Payload)
    requires !Authentic(secret, raw, header, sign)
    ensures Decide(secret, raw, header, sign, parse1) == Decide(secret, raw, header, sign, parse2)
    ensures Decide(secret, raw, header, sign, parse1).Respond?
  {
  }

  /** A body altered after signing, sent with the original body's signature,
      is refused when the two bodies' signatures differ. */
  lemma TamperedBodyRejected(secret: string, raw: Bytes, tampered: Bytes,
                             sign: (string, Bytes) -> string, parse: Bytes -> Payload)
    requires sign(secret, raw) != "" && Ascii(sign(secret, raw)) && Ascii(sign(secret, tampered))
    requires sign(secret, tampered) != sign(secret, raw)
    ensures Decide(secret, tampered, Some(sign(secret, raw)), sign, parse) == Respond(InvalidSignature)
  {
  }
}
