/** `checkout` (src/checkout.ts): what one call does when it has the database to itself, and
    the imperative transaction that does it. */
module Checkout {
  import opened Events

  datatype Product = Product(stock: int, priceCents: int)

  datatype User = User(balanceCents: int, email: string)

  datatype Order = Order(id: nat, userId: nat, customerEmail: string, status: string, totalCents: int, currency: string)

  datatype Item = Item(orderId: nat, productId: nat, quantity: int, priceCents: int)

  /** Committed contents of the tables a checkout touches; `jobs` holds the order ids of the
      post-processing jobs, `outbox` the data of the order.placed rows. */
  datatype Shop = Shop(
    products: map<nat, Product>,
    users: map<nat, User>,
    orders: seq<Order>,
    items: seq<Item>,
    jobs: seq<nat>,
    outbox: seq<OrderData>)

  datatype Request = Request(userId: nat, productId: nat, quantity: int)

  datatype Verdict = Placed(orderId: nat) | BadQuantity | InsufficientStock | InsufficientFunds | Failed

  const CURRENCY := "UAH"

  predicate StockGuard(shop: Shop, req: Request) {
    req.productId in shop.products && shop.products[req.productId].stock >= req.quantity
  }

  predicate FundsGuard(shop: Shop, userId: nat, amount: int) {
    userId in shop.users && shop.users[userId].balanceCents >= amount
  }

  function OrderRow(id: nat, req: Request, price: int, email: string): Order {
    Order(id, req.userId, email, "paid", price * req.quantity, CURRENCY)
  }

  function EventRow(id: nat, req: Request, price: int, email: string): OrderData {
    OrderData(id, email, price * req.quantity, CURRENCY, [Line(req.productId, req.quantity)])
  }

  /** Everything a successful checkout writes: two new row versions and four new rows. */
  function Write(shop: Shop, req: Request, id: nat, price: int, email: string, stock: int, balance: int): Shop {
    Shop(shop.products[req.productId := Product(stock, price)],
         shop.users[req.userId := User(balance, email)],
         shop.orders + [OrderRow(id, req, price, email)],
         shop.items + [Item(id, req.productId, req.quantity, price)],
         shop.jobs + [id],
         shop.outbox + [EventRow(id, req, price, email)])
  }

  /** One checkout alone with the database; `id` is the order id the sequence would give. */
  function Serial(shop: Shop, req: Request, id: nat): (Shop, Verdict) {
    if req.quantity <= 0 then (shop, BadQuantity)
    else if !StockGuard(shop, req) then (shop, InsufficientStock)
    else
      var p := shop.products[req.productId];
      var total := p.priceCents * req.quantity;
      if !FundsGuard(shop, req.userId, total) then (shop, InsufficientFunds)
      else
        var u := shop.users[req.userId];
        (Write(shop, req, id, p.priceCents, u.email, p.stock - req.quantity, u.balanceCents - total), Placed(id))
  }

  // ---------------------------------------------------------------- the transaction

  class Database {
    var shop: Shop
    var nextOrderId: nat

    constructor (initial: Shop, firstId: nat)
      ensures shop == initial && nextOrderId == firstId
    {
      shop, nextOrderId := initial, firstId;
    }

    /** `commits` is false when a later statement or the COMMIT itself fails; the order id
        drawn from the sequence is then gone, everything else is rolled back. */
    method Checkout(userId: nat, productId: nat, quantity: int, commits: bool) returns (v: Verdict)
      modifies this
      ensures var (shop', v') := Serial(old(shop), Request(userId, productId, quantity), old(nextOrderId));
        && v == (if v'.Placed? && !commits then Failed else v')
        && shop == (if v'.Placed? && !commits then old(shop) else shop')
        && nextOrderId == old(nextOrderId) + (if v'.Placed? then 1 else 0)
      ensures v.Placed? ==>
        && productId in old(shop.products) && userId in old(shop.users)
        && var p, u := old(shop.products)[productId], old(shop.users)[userId];
        && shop.products == old(shop.products)[productId := Product(p.stock - quantity, p.priceCents)]
        && shop.users == old(shop.users)[userId := User(u.balanceCents - p.priceCents * quantity, u.email)]
      ensures !v.Placed? ==> shop == old(shop)
    {
      if quantity <= 0 {
        return BadQuantity;
      }
      var tx := shop;
      // 1. stock
      if productId !in tx.products || tx.products[productId].stock < quantity {
        return InsufficientStock;
      }
      var product := tx.products[productId];
      tx := tx.(products := tx.products[productId := product.(stock := product.stock - quantity)]);
      var priceCents := product.priceCents;
      var totalCents := priceCents * quantity;
      // 2. balance
      if userId !in tx.users || tx.users[userId].balanceCents < totalCents {
        return InsufficientFunds;
      }
      var user := tx.users[userId];
      tx := tx.(users := tx.users[userId := user.(balanceCents := user.balanceCents - totalCents)]);
      // 3. order and item
      var id := nextOrderId;
      nextOrderId := nextOrderId + 1;
      tx := tx.(orders := tx.orders + [Order(id, userId, user.email, "paid", totalCents, CURRENCY)]);
      tx := tx.(items := tx.items + [Item(id, productId, quantity, priceCents)]);
      // 4. post-processing job, 5. outbox row
      tx := tx.(jobs := tx.jobs + [id]);
      tx := tx.(outbox := tx.outbox + [OrderData(id, user.email, totalCents, CURRENCY, [Line(productId, quantity)])]);
      if !commits {
        return Failed;
      }
      shop := tx;
      return Placed(id);
    }
  }

  /** Who is refused, and why: the guards in their order. */
  lemma VerdictIs(shop: Shop, req: Request, id: nat)
    ensures var v, q := Serial(shop, req, id).1, req.quantity;
      var inStock := req.productId in shop.products && shop.products[req.productId].stock >= q;
      var canPay := inStock && req.userId in shop.users
                    && shop.users[req.userId].balanceCents >= shop.products[req.productId].priceCents * q;
      && (v == BadQuantity <==> q <= 0)
      && (v == InsufficientStock <==> q > 0 && !inStock)
      && (v == InsufficientFunds <==> q > 0 && inStock && !canPay)
      && (v == Placed(id) <==> q > 0 && canPay)
  {
  }

  // ---------------------------------------------------------------- conservation

  /** Units of product `p` sold, according to the item rows. */
  function UnitsSold(items: seq<Item>, p: nat): int {
    if items == [] then 0
    else
      var last := items[|items| - 1];
      UnitsSold(items[..|items| - 1], p) + (if last.productId == p then last.quantity else 0)
  }

  /** Cents charged to user `u`, according to the order rows. */
  function CentsCharged(orders: seq<Order>, u: nat): int {
    if orders == [] then 0
    else
      var last := orders[|orders| - 1];
      CentsCharged(orders[..|orders| - 1], u) + (if last.userId == u then last.totalCents else 0)
  }

  function Stock(shop: Shop, p: nat): int { if p in shop.products then shop.products[p].stock else 0 }

  function Balance(shop: Shop, u: nat): int { if u in shop.users then shop.users[u].balanceCents else 0 }

  ghost predicate NonNegative(shop: Shop) {
    && (forall p :: p in shop.products ==> shop.products[p].stock >= 0)
    && (forall u :: u in shop.users ==> shop.users[u].balanceCents >= 0)
  }

  /** Order, item, job and outbox row number i describe one and the same checkout. */
  ghost predicate RowsAgree(order: Order, item: Item, job: nat, event: OrderData) {
    && order.id == item.orderId == job == event.orderId
    && order.totalCents == item.priceCents * item.quantity == event.totalCents
    && event.items == [Line(item.productId, item.quantity)]
    && event.customerEmail == order.customerEmail && event.currency == order.currency == CURRENCY
    && item.quantity > 0
  }

  /** `shop` is `before` with n more checkouts: n more rows in each of the four tables, the i-th
      new ones about one and the same checkout, under an order id of its own. */
  ghost predicate Grown(before: Shop, shop: Shop, n: nat) {
    && before.orders <= shop.orders && before.items <= shop.items
    && before.jobs <= shop.jobs && before.outbox <= shop.outbox
    && |shop.orders| == |before.orders| + n && |shop.items| == |before.items| + n
    && |shop.jobs| == |before.jobs| + n && |shop.outbox| == |before.outbox| + n
    && (forall i :: 0 <= i < n ==> NewRowsAgree(before, shop, i))
    && (forall i, j :: 0 <= i < j < |shop.orders| && |before.orders| <= j ==> shop.orders[i].id != shop.orders[j].id)
  }

  ghost predicate NewRowsAgree(before: Shop, shop: Shop, i: nat) {
    && |before.orders| + i < |shop.orders| && |before.items| + i < |shop.items|
    && |before.jobs| + i < |shop.jobs| && |before.outbox| + i < |shop.outbox|
    && RowsAgree(shop.orders[|before.orders| + i], shop.items[|before.items| + i],
                 shop.jobs[|before.jobs| + i], shop.outbox[|before.outbox| + i])
  }

  lemma SerialConserves(shop: Shop, req: Request, id: nat, p: nat, u: nat)
    ensures var shop' := Serial(shop, req, id).0;
      && Stock(shop', p) + UnitsSold(shop'.items, p) == Stock(shop, p) + UnitsSold(shop.items, p)
      && Balance(shop', u) + CentsCharged(shop'.orders, u) == Balance(shop, u) + CentsCharged(shop.orders, u)
      && (NonNegative(shop) ==> NonNegative(shop'))
  {
    var shop' := Serial(shop, req, id).0;
    if shop' != shop {
      assert shop'.items[..|shop'.items| - 1] == shop.items;
      assert shop'.orders[..|shop'.orders| - 1] == shop.orders;
    }
  }

  /** A checkout that is placed grows the tables by one row each, any other by none. */
  lemma SerialGrows(before: Shop, shop: Shop, n: nat, req: Request, id: nat)
    requires Grown(before, shop, n) && forall i :: 0 <= i < |shop.orders| ==> shop.orders[i].id != id
    ensures var (shop', v) := Serial(shop, req, id); Grown(before, shop', if v.Placed? then n + 1 else n)
  {
    var (shop', v) := Serial(shop, req, id);
    if v.Placed? {
      forall i | 0 <= i < n + 1 ensures NewRowsAgree(before, shop', i) {
        assert i < n ==> NewRowsAgree(before, shop, i);
      }
    }
  }

  // ---------------------------------------------------------------- prices, and who pays them

  /** No product or user has come or gone, and prices and e-mail addresses are the same. */
  ghost predicate SameCatalogue(before: Shop, shop: Shop) {
    && before.products.Keys == shop.products.Keys && before.users.Keys == shop.users.Keys
    && (forall p :: p in before.products ==> shop.products[p].priceCents == before.products[p].priceCents)
    && (forall u :: u in before.users ==> shop.users[u].email == before.users[u].email)
  }

  /** The i-th new rows are those of this request under this id: the product's list price, the
      buyer's own id and e-mail, and a total of price times quantity. */
  ghost predicate ChargedAtList(before: Shop, shop: Shop, i: nat, req: Request, id: nat) {
    && req.productId in before.products && req.userId in before.users
    && |before.orders| + i < |shop.orders| && |before.items| + i < |shop.items|
    && |before.jobs| + i < |shop.jobs| && |before.outbox| + i < |shop.outbox|
    && var price, email := before.products[req.productId].priceCents, before.users[req.userId].email;
    && shop.items[|before.items| + i] == Item(id, req.productId, req.quantity, price)
    && shop.orders[|before.orders| + i] == Order(id, req.userId, email, "paid", price * req.quantity, "UAH")
    && shop.jobs[|before.jobs| + i] == id
    && shop.outbox[|before.outbox| + i]
         == OrderData(id, email, price * req.quantity, "UAH", [Line(req.productId, req.quantity)])
  }

  lemma SerialCharges(before: Shop, shop: Shop, n: nat, req: Request, id: nat)
    requires SameCatalogue(before, shop) && Grown(before, shop, n)
    ensures var (shop', v) := Serial(shop, req, id);
      SameCatalogue(before, shop') && (v.Placed? ==> ChargedAtList(before, shop', n, req, id))
  {
  }

  /** Rows once written stay as they are. */
  lemma SerialKeepsRows(before: Shop, shop: Shop, i: nat, r: Request, o: nat, req: Request, id: nat)
    requires ChargedAtList(before, shop, i, r, o)
    ensures ChargedAtList(before, Serial(shop, req, id).0, i, r, o)
  {
  }
}
