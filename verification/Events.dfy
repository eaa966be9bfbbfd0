/** The `order.placed` contract (src/messaging/events.ts), the outbox row that carries it
    (src/outbox/outbox.ts), and the consumer's reading of a message body
    (src/messaging/consumer.ts, parseOrderPlaced). */
module Events {
  import opened Base

  const ROUTING_KEY := "order.placed"

  datatype Line = Line(productId: int, quantity: int)

  datatype OrderData = OrderData(
    orderId: nat,
    customerEmail: string,
    totalCents: int,
    currency: string,
    items: seq<Line>)

  datatype OrderPlaced = OrderPlaced(eventId: string, kind: string, occurredAt: string, data: OrderData)

  function EventId(orderId: nat): string { "order-placed:" + Decimal(orderId) }

  function ReceiptJobId(orderId: int): string { "receipt-order-" + IntText(orderId) }

  function BuildOrderPlaced(data: OrderData, occurredAt: string): OrderPlaced {
    OrderPlaced(EventId(data.orderId), ROUTING_KEY, occurredAt, data)
  }

  /** A field of a parsed JSON body, as far as the consumer looks at it. */
  datatype Field = Text(text: string) | Num(num: real) | Other

  /** What arrives from the broker: bytes that are not JSON, or a JSON value whose relevant
      fields may have any type (an absent field is `Other`). */
  datatype Body = Unreadable | Body(eventId: Field, kind: Field, orderId: Field)

  datatype Parsed = Parsed(eventId: string, orderId: int)

  function Serialize(e: OrderPlaced): Body {
    Body(Text(e.eventId), Text(e.kind), Num(e.data.orderId as real))
  }

  predicate IsInteger(f: Field) { f.Num? && f.num.Floor as real == f.num }

  function ParseOrderPlaced(b: Body): Option<Parsed> {
    if b.Body? && b.eventId.Text? && b.kind == Text(ROUTING_KEY) && IsInteger(b.orderId)
    then Some(Parsed(b.eventId.text, b.orderId.num.Floor))
    else None
  }

  /** The body published for order `o`, whatever the rest of the event holds, reads back as
      `o` under the event id derived from `o`. */
  lemma BuiltEventParses(data: OrderData, occurredAt: string)
    ensures BuildOrderPlaced(data, occurredAt).data == data && BuildOrderPlaced(data, occurredAt).occurredAt == occurredAt
    ensures ParseOrderPlaced(Serialize(BuildOrderPlaced(data, occurredAt)))
         == Some(Parsed(EventId(data.orderId), data.orderId))
  {
    assert (data.orderId as real).Floor == data.orderId;
  }

  /** Accepted as event `id` of order `o` is exactly the JSON body with that text as event id,
      the type "order.placed" and that whole number as order id; all else is poison. */
  lemma AcceptedBodies(b: Body, id: string, o: int)
    ensures ParseOrderPlaced(b) == Some(Parsed(id, o)) <==> b == Body(Text(id), Text("order.placed"), Num(o as real))
  {
    assert (o as real).Floor == o;
  }

  /** Distinct orders never share an event id or a receipt job id. */
  lemma KeysInjective(m: nat, n: nat)
    ensures EventId(m) == EventId(n) ==> m == n
    ensures ReceiptJobId(m) == ReceiptJobId(n) ==> m == n
  {
    if EventId(m) == EventId(n) { PrefixedDecimalInjective("order-placed:", m, n); }
    if ReceiptJobId(m) == ReceiptJobId(n) { PrefixedDecimalInjective("receipt-order-", m, n); }
  }
}
