/** `insertOrderWithEvent` of src/orders/orders.service.ts: price the requested items against
    the catalogue, store the order and put its event into the outbox, all on the caller's
    transaction. */
module Orders {
  import opened Base
  import opened Events

  datatype Price = Price(priceCents: int, currency: string)

  /** `number` is Number(productId), None when that is NaN. */
  datatype ItemRequest = ItemRequest(productId: string, number: Option<int>, quantity: int)

  datatype Dto = Dto(customerEmail: string, items: seq<ItemRequest>)

  datatype OrderItem = OrderItem(productId: int, quantity: int, priceAtPurchaseCents: int)

  datatype OrderRow = OrderRow(
    userId: Option<nat>, customerEmail: string, status: string,
    totalCents: int, currency: string, items: seq<OrderItem>)

  /** idempotency_keys without its key column; `order_id` is nullable. */
  datatype KeyRow = KeyRow(hash: string, orderId: Option<nat>)

  datatype Db = Db(
    products: map<int, Price>,
    keys: map<string, KeyRow>,
    orders: map<nat, OrderRow>,
    outbox: seq<OrderPlaced>,
    nextOrderId: nat)

  predicate Known(products: map<int, Price>, item: ItemRequest) {
    item.number.Some? && item.number.value in products
  }

  /** What the loop over `dto.items` accumulates. */
  datatype Draft = Draft(items: seq<OrderItem>, totalCents: int, currency: string)

  const NoItems := Draft([], 0, "UAH")

  function LineCents(item: OrderItem): int { item.priceAtPurchaseCents * item.quantity }

  function AddItem(d: Draft, item: ItemRequest, products: map<int, Price>): Draft
    requires Known(products, item)
  {
    var price := products[item.number.value];
    var line := OrderItem(item.number.value, item.quantity, price.priceCents);
    Draft(d.items + [line], d.totalCents + LineCents(line), price.currency)
  }

  function RowOf(dto: Dto, user: Option<nat>, d: Draft): OrderRow {
    OrderRow(user, dto.customerEmail, "created", d.totalCents, d.currency, d.items)
  }

  function LinesOf(items: seq<OrderItem>): seq<Line> {
    seq(|items|, i requires 0 <= i < |items| => Line(items[i].productId, items[i].quantity))
  }

  function EventData(orderId: nat, o: OrderRow): OrderData {
    OrderData(orderId, o.customerEmail, o.totalCents, o.currency, LinesOf(o.items))
  }

  /** The draft after the whole loop. */
  function DraftOf(products: map<int, Price>, items: seq<ItemRequest>): Draft
    requires forall i :: 0 <= i < |items| ==> Known(products, items[i])
  {
    if items == [] then NoItems
    else AddItem(DraftOf(products, items[..|items| - 1]), items[|items| - 1], products)
  }

  // ---------------------------------------------------------------- what an order should be

  function Total(items: seq<OrderItem>): int {
    if items == [] then 0
    else
      var last := items[|items| - 1];
      Total(items[..|items| - 1]) + last.priceAtPurchaseCents * last.quantity
  }

  /** The items answer the first |items| lines of the request, whatever their prices. */
  ghost predicate Answers(items: seq<OrderItem>, wanted: seq<ItemRequest>) {
    && |items| <= |wanted|
    && forall i :: 0 <= i < |items| ==>
         wanted[i].number == Some(items[i].productId) && wanted[i].quantity == items[i].quantity
  }

  ghost predicate DraftOk(d: Draft, wanted: seq<ItemRequest>) {
    Answers(d.items, wanted) && d.totalCents == Total(d.items)
  }

  lemma AddItemOk(d: Draft, wanted: seq<ItemRequest>, products: map<int, Price>)
    requires DraftOk(d, wanted) && |d.items| < |wanted| && Known(products, wanted[|d.items|])
    ensures DraftOk(AddItem(d, wanted[|d.items|], products), wanted)
  {
    var d' := AddItem(d, wanted[|d.items|], products);
    assert d'.items[..|d'.items| - 1] == d.items;
  }

  /** Every line carries the price the catalogue has. */
  ghost predicate AtListPrice(items: seq<OrderItem>, products: map<int, Price>) {
    forall i :: 0 <= i < |items| ==>
      && items[i].productId in products
      && items[i].priceAtPurchaseCents == products[items[i].productId].priceCents
  }

  /** The finished draft has one line per requested item, at list price, in order; its total is
      their sum; its currency is that of the last product, whatever the others have. */
  lemma {:induction false} DraftOfIs(products: map<int, Price>, items: seq<ItemRequest>)
    requires forall i :: 0 <= i < |items| ==> Known(products, items[i])
    ensures var d := DraftOf(products, items);
      && |d.items| == |items| && DraftOk(d, items) && AtListPrice(d.items, products)
      && d.currency == if items == [] then "UAH" else products[items[|items| - 1].number.value].currency
    decreases |items|
  {
    if items != [] {
      var init := items[..|items| - 1];
      DraftOfIs(products, init);
      var d := DraftOf(products, init);
      assert DraftOk(d, items);
      AddItemOk(d, items, products);
      AtListPriceSnoc(d, items[|items| - 1], products);
    }
  }

  lemma AtListPriceSnoc(d: Draft, item: ItemRequest, products: map<int, Price>)
    requires AtListPrice(d.items, products) && Known(products, item)
    ensures AtListPrice(AddItem(d, item, products).items, products)
  {
  }

  ghost predicate FirstUnknown(products: map<int, Price>, items: seq<ItemRequest>, i: nat) {
    i < |items| && !Known(products, items[i]) && forall j :: 0 <= j < i ==> Known(products, items[j])
  }

  /** The event says of the order, field by field and line by line, what the order says. */
  ghost predicate IsEventOf(e: OrderPlaced, o: nat, order: OrderRow) {
    && e.eventId == "order-placed:" + Decimal(o) && e.kind == "order.placed"
    && e.data.orderId == o && e.data.customerEmail == order.customerEmail
    && e.data.totalCents == order.totalCents && e.data.currency == order.currency
    && |e.data.items| == |order.items|
    && forall i :: 0 <= i < |order.items| ==>
         && e.data.items[i].productId == order.items[i].productId
         && e.data.items[i].quantity == order.items[i].quantity
  }

  /** The order is what this user asked for in this request, priced by this catalogue. */
  ghost predicate IsOrderFor(order: OrderRow, dto: Dto, user: Option<nat>, products: map<int, Price>) {
    && order.userId == user && order.customerEmail == dto.customerEmail && order.status == "created"
    && |order.items| == |dto.items| && Answers(order.items, dto.items) && AtListPrice(order.items, products)
    && order.totalCents == Total(order.items)
    && order.currency == if order.items == [] then "UAH" else products[order.items[|order.items| - 1].productId].currency
  }

  /** The order is stored under this id, and its event is the last in the outbox. */
  ghost predicate RightlyStored(db: Db, id: nat, dto: Dto, user: Option<nat>) {
    && id in db.orders && IsOrderFor(db.orders[id], dto, user, db.products)
    && db.outbox != [] && IsEventOf(db.outbox[|db.outbox| - 1], id, db.orders[id])
  }

  lemma OrderIsRight(products: map<int, Price>, dto: Dto, user: Option<nat>, id: nat, at: string)
    requires forall i :: 0 <= i < |dto.items| ==> Known(products, dto.items[i])
    ensures var order := RowOf(dto, user, DraftOf(products, dto.items));
      IsOrderFor(order, dto, user, products) && IsEventOf(BuildOrderPlaced(EventData(id, order), at), id, order)
  {
    DraftOfIs(products, dto.items);
    var items := DraftOf(products, dto.items).items;
    if items != [] {
      assert dto.items[|items| - 1].number == Some(items[|items| - 1].productId);
    }
  }

  datatype Inserted = Inserted(orderId: nat) | NotFound(productId: string)

  class Manager {
    var db: Db

    constructor (initial: Db)
      ensures db == initial
    {
      db := initial;
    }

    /** One order row and one outbox row, or the first unknown product and nothing. */
    method InsertOrderWithEvent(dto: Dto, user: Option<nat>, occurredAt: string)
      returns (r: Inserted, d: Draft)
      modifies this
      ensures r.Inserted? <==> forall i :: 0 <= i < |dto.items| ==>
        dto.items[i].number.Some? && dto.items[i].number.value in db.products
      ensures r.NotFound? ==>
        && db == old(db)
        && exists i: nat :: FirstUnknown(db.products, dto.items, i) && r.productId == dto.items[i].productId
      ensures r.Inserted? ==>
        && r.orderId == old(db.nextOrderId)
        && d == DraftOf(db.products, dto.items)
        && db == old(db).(
             orders := old(db.orders)[r.orderId := RowOf(dto, user, d)],
             outbox := old(db.outbox) + [BuildOrderPlaced(EventData(r.orderId, RowOf(dto, user, d)), occurredAt)],
             nextOrderId := r.orderId + 1)
      ensures forall id :: r == Inserted(id) ==> RightlyStored(db, id, dto, user)
    {
      var unknown;
      d, unknown := PriceItems(db.products, dto.items);
      if unknown.Some? {
        return NotFound(dto.items[unknown.value].productId), d;
      }
      OrderIsRight(db.products, dto, user, db.nextOrderId, occurredAt);
      var id, order := db.nextOrderId, RowOf(dto, user, d);
      db := db.(orders := db.orders[id := order], nextOrderId := id + 1);
      db := db.(outbox := db.outbox + [BuildOrderPlaced(EventData(id, order), occurredAt)]);
      r := Inserted(id);
    }
  }

  /** The loop over the items, up to the first unknown product. */
  method PriceItems(products: map<int, Price>, items: seq<ItemRequest>) returns (d: Draft, unknown: Option<nat>)
    ensures unknown.None? ==> (forall i :: 0 <= i < |items| ==> Known(products, items[i])) && d == DraftOf(products, items)
    ensures unknown.Some? ==> FirstUnknown(products, items, unknown.value)
  {
    d := NoItems;
    var i := 0;
    while i < |items|
      invariant 0 <= i <= |items|
      invariant forall j :: 0 <= j < i ==> Known(products, items[j])
      invariant d == DraftOf(products, items[..i])
    {
      if !Known(products, items[i]) {
        return d, Some(i);
      }
      assert items[..i + 1][..i] == items[..i];
      d := AddItem(d, items[i], products);
      i := i + 1;
    }
    assert items[..|items|] == items;
    unknown := None;
  }
}
