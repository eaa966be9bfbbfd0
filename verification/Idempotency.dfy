/** `createIdempotent` of src/orders/orders.service.ts under concurrency: any number of
    requests with any keys and bodies, interleaved statement by statement, failing anywhere
    and retried as new requests, while the catalogue changes underneath.

    READ COMMITTED with a unique index: what a transaction has written stays in the state of
    its request until COMMIT, except that an INSERT of a key another open transaction has
    inserted waits for that transaction to end. */
module Idempotency {
  import opened Base
  import opened Events
  import opened Orders

  function StoredKey(user: Option<nat>, clientKey: string): string {
    match user
    case None => clientKey
    case Some(u) => Decimal(u) + ":" + clientKey
  }

  /** A request; `key` is the stored form of its key. */
  datatype Call = Call(user: Option<nat>, clientKey: string, key: string, hash: string, dto: Dto)

  function NewCall(user: Option<nat>, clientKey: string, hash: string, dto: Dto): Call {
    Call(user, clientKey, StoredKey(user, clientKey), hash, dto)
  }

  datatype Answer = Created(orderId: nat) | Replayed(orderId: nat) | Unprocessable

  datatype Stage =
    | Open
    | Pricing(draft: Draft)                                       // the key is inserted
    | Saved(orderId: nat, draft: Draft)                           // and the order
    | Enqueued(orderId: nat, draft: Draft, event: OrderPlaced)    // and the outbox row
    | Linked(orderId: nat, draft: Draft, event: OrderPlaced)      // and order_id is set
    | Conflict                                                    // the INSERT returned no row
    | Found(row: KeyRow)
    | Committed(orderId: nat)
    | Answered(answer: Answer)
    | Failed

  predicate HasOrder(g: Stage) { g.Saved? || g.Enqueued? || g.Linked? }

  predicate Holds(g: Stage) { g.Pricing? || HasOrder(g) }

  predicate Ended(g: Stage) { g.Answered? || g.Failed? }

  /** `origin` is a history: the request that made each order. */
  datatype State = State(db: Db, calls: seq<Call>, stages: seq<Stage>, origin: map<nat, nat>)

  datatype Step =
    | Arrive(user: Option<nat>, clientKey: string, hash: string, dto: Dto)
    | SetProduct(id: int, price: Price)
    | DropProduct(id: int)
    | Claim(r: nat)
    | PriceItem(r: nat)
    | Save(r: nat)
    | Enqueue(r: nat, occurredAt: string)
    | Link(r: nat)
    | Commit(r: nat)
    | Find(r: nat)
    | Reply(r: nat)
    | Fail(r: nat)

  ghost predicate Blocked(s: State, r: nat)
    requires |s.calls| == |s.stages| && r < |s.calls|
  {
    exists q :: 0 <= q < |s.calls| && Holds(s.stages[q]) && s.calls[q].key == s.calls[r].key
  }

  ghost predicate Enabled(s: State, step: Step) {
    |s.calls| == |s.stages| &&
    match step
    case Arrive(_, _, _, _) => true
    case SetProduct(_, _) => true
    case DropProduct(_) => true
    case Claim(r) => r < |s.stages| && s.stages[r].Open? && !Blocked(s, r)
    case PriceItem(r) =>
      r < |s.stages| && s.stages[r].Pricing? && |s.stages[r].draft.items| < |s.calls[r].dto.items|
    case Save(r) =>
      r < |s.stages| && s.stages[r].Pricing? && |s.stages[r].draft.items| == |s.calls[r].dto.items|
    case Enqueue(r, _) => r < |s.stages| && s.stages[r].Saved?
    case Link(r) => r < |s.stages| && s.stages[r].Enqueued?
    case Commit(r) => r < |s.stages| && s.stages[r].Linked?
    case Find(r) => r < |s.stages| && s.stages[r].Conflict? && s.calls[r].key in s.db.keys
    case Reply(r) =>
      r < |s.stages| && (s.stages[r].Committed? || (s.stages[r].Found? && s.stages[r].row.orderId.Some?))
    case Fail(r) => r < |s.stages| && !Ended(s.stages[r])
  }

  function Goto(s: State, r: nat, g: Stage): State
    requires r < |s.stages|
  {
    s.(stages := s.stages[r := g])
  }

  /** The key row, the order and its event become visible together. */
  function Publish(db: Db, c: Call, g: Stage): Db
    requires g.Linked?
  {
    db.(keys := db.keys[c.key := KeyRow(c.hash, Some(g.orderId))],
        orders := db.orders[g.orderId := RowOf(c.dto, c.user, g.draft)],
        outbox := db.outbox + [g.event])
  }

  function AnswerOf(c: Call, g: Stage): Answer
    requires g.Committed? || (g.Found? && g.row.orderId.Some?)
  {
    if g.Committed? then Created(g.orderId)
    else if g.row.hash != c.hash then Unprocessable
    else Replayed(g.row.orderId.value)
  }

  ghost function Apply(s: State, step: Step): State
    requires Enabled(s, step)
  {
    match step
    case Arrive(user, clientKey, hash, dto) =>
      s.(calls := s.calls + [NewCall(user, clientKey, hash, dto)], stages := s.stages + [Open])
    case SetProduct(id, price) => s.(db := s.db.(products := s.db.products[id := price]))
    case DropProduct(id) => s.(db := s.db.(products := s.db.products - {id}))
    case Claim(r) => Goto(s, r, if s.calls[r].key in s.db.keys then Conflict else Pricing(NoItems))
    case PriceItem(r) =>
      var draft := s.stages[r].draft;
      var item := s.calls[r].dto.items[|draft.items|];
      Goto(s, r, if Known(s.db.products, item) then Pricing(AddItem(draft, item, s.db.products)) else Failed)
    case Save(r) =>
      Goto(s, r, Saved(s.db.nextOrderId, s.stages[r].draft)).(db := s.db.(nextOrderId := s.db.nextOrderId + 1))
    case Enqueue(r, at) =>
      var g := s.stages[r];
      var order := RowOf(s.calls[r].dto, s.calls[r].user, g.draft);
      Goto(s, r, Enqueued(g.orderId, g.draft, BuildOrderPlaced(EventData(g.orderId, order), at)))
    case Link(r) => Goto(s, r, Linked(s.stages[r].orderId, s.stages[r].draft, s.stages[r].event))
    case Commit(r) =>
      var g := s.stages[r];
      Goto(s, r, Committed(g.orderId)).(db := Publish(s.db, s.calls[r], g), origin := s.origin[g.orderId := r])
    case Find(r) => Goto(s, r, Found(s.db.keys[s.calls[r].key]))
    case Reply(r) => Goto(s, r, Answered(AnswerOf(s.calls[r], s.stages[r])))
    case Fail(r) => Goto(s, r, Failed)
  }

  function Init(products: map<int, Price>, firstId: nat): State {
    State(Db(products, map[], map[], [], firstId), [], [], map[])
  }

  ghost predicate Runs(s: State, steps: seq<Step>)
    decreases |steps|
  {
    steps == [] || (Enabled(s, steps[0]) && Runs(Apply(s, steps[0]), steps[1..]))
  }

  ghost function Final(s: State, steps: seq<Step>): State
    requires Runs(s, steps)
    decreases |steps|
  {
    if steps == [] then s else Final(Apply(s, steps[0]), steps[1..])
  }

  // ---------------------------------------------------------------- invariant

  ghost predicate OrderNamed(o: nat, r: nat, keys: map<string, KeyRow>, calls: seq<Call>) {
    r < |calls| && calls[r].key in keys && keys[calls[r].key] == KeyRow(calls[r].hash, Some(o))
  }

  ghost predicate KeyNamed(k: string, row: KeyRow, origin: map<nat, nat>, calls: seq<Call>) {
    && row.orderId.Some? && row.orderId.value in origin
    && origin[row.orderId.value] < |calls| && calls[origin[row.orderId.value]].key == k
  }

  /** Committed keys and committed orders name each other. */
  ghost predicate KeysOk(keys: map<string, KeyRow>, origin: map<nat, nat>, calls: seq<Call>) {
    && (forall o :: o in origin ==> OrderNamed(o, origin[o], keys, calls))
    && (forall k :: k in keys ==> KeyNamed(k, keys[k], origin, calls))
  }

  /** An order is what its request asked for, at whatever prices it met. */
  ghost predicate Fulfils(order: OrderRow, c: Call) {
    && order.userId == c.user && order.customerEmail == c.dto.customerEmail && order.status == "created"
    && |order.items| == |c.dto.items| && Answers(order.items, c.dto.items)
    && order.totalCents == Total(order.items)
  }

  ghost predicate Placed(order: OrderRow, r: nat, calls: seq<Call>) { r < |calls| && Fulfils(order, calls[r]) }

  ghost predicate OrdersOk(orders: map<nat, OrderRow>, origin: map<nat, nat>, calls: seq<Call>, nextOrderId: nat) {
    && orders.Keys == origin.Keys
    && (forall o :: o in orders ==> o < nextOrderId && Placed(orders[o], origin[o], calls))
  }

  ghost predicate HasEvent(outbox: seq<OrderPlaced>, o: nat) {
    exists i :: 0 <= i < |outbox| && outbox[i].data.orderId == o
  }

  /** One event per order, and none without an order. */
  ghost predicate OutboxOk(outbox: seq<OrderPlaced>, orders: map<nat, OrderRow>) {
    && (forall i :: 0 <= i < |outbox| ==>
          var o := outbox[i].data.orderId; o in orders && IsEventOf(outbox[i], o, orders[o]))
    && (forall i, j :: 0 <= i < j < |outbox| ==> outbox[i].data.orderId != outbox[j].data.orderId)
    && (forall o :: o in orders ==> HasEvent(outbox, o))
  }

  ghost predicate StageOk(g: Stage, c: Call, r: nat, keys: map<string, KeyRow>, origin: map<nat, nat>, nextOrderId: nat) {
    var k := c.key;
    && (Holds(g) ==> k !in keys && DraftOk(g.draft, c.dto.items))
    && (HasOrder(g) ==> |g.draft.items| == |c.dto.items| && g.orderId < nextOrderId && g.orderId !in origin)
    && (g.Enqueued? || g.Linked? ==> IsEventOf(g.event, g.orderId, RowOf(c.dto, c.user, g.draft)))
    && (g.Conflict? ==> k in keys)
    && (g.Found? ==> k in keys && keys[k] == g.row)
    && (g.Committed? ==> g.orderId in origin && origin[g.orderId] == r)
    && (g.Answered? && g.answer.Created? ==> g.answer.orderId in origin && origin[g.answer.orderId] == r)
    && (g.Answered? && g.answer.Replayed? ==> k in keys && keys[k] == KeyRow(c.hash, Some(g.answer.orderId)))
    && (g.Answered? && g.answer.Unprocessable? ==> k in keys && keys[k].hash != c.hash)
  }

  ghost predicate Apart(a: Stage, ka: string, b: Stage, kb: string) {
    && (Holds(a) && Holds(b) ==> ka != kb)
    && (HasOrder(a) && HasOrder(b) ==> a.orderId != b.orderId)
  }

  ghost predicate StagesOk(stages: seq<Stage>, calls: seq<Call>, keys: map<string, KeyRow>, origin: map<nat, nat>, nextOrderId: nat) {
    && |stages| == |calls|
    && (forall r :: 0 <= r < |stages| ==> StageOk(stages[r], calls[r], r, keys, origin, nextOrderId))
    && (forall q, r :: 0 <= q < r < |stages| ==> Apart(stages[q], calls[q].key, stages[r], calls[r].key))
  }

  ghost predicate CallsOk(calls: seq<Call>) {
    forall r :: 0 <= r < |calls| ==> calls[r].key == StoredKey(calls[r].user, calls[r].clientKey)
  }

  ghost predicate Inv(s: State) {
    && CallsOk(s.calls)
    && KeysOk(s.db.keys, s.origin, s.calls)
    && OrdersOk(s.db.orders, s.origin, s.calls, s.db.nextOrderId)
    && OutboxOk(s.db.outbox, s.db.orders)
    && StagesOk(s.stages, s.calls, s.db.keys, s.origin, s.db.nextOrderId)
  }

  /** A step that moves one request to a stage that is in order and claims nothing new. */
  lemma StagesMove(s: State, r: nat, g: Stage, nextOrderId: nat)
    requires StagesOk(s.stages, s.calls, s.db.keys, s.origin, s.db.nextOrderId) && r < |s.stages|
    requires s.db.nextOrderId <= nextOrderId
    requires StageOk(g, s.calls[r], r, s.db.keys, s.origin, nextOrderId)
    requires Holds(g) ==> Holds(s.stages[r]) || !Blocked(s, r)
    requires HasOrder(g) ==> (HasOrder(s.stages[r]) && s.stages[r].orderId == g.orderId) || g.orderId >= s.db.nextOrderId
    ensures StagesOk(s.stages[r := g], s.calls, s.db.keys, s.origin, nextOrderId)
  {
    var stages := s.stages[r := g];
    forall q | 0 <= q < |stages| && q != r
      ensures StageOk(stages[q], s.calls[q], q, s.db.keys, s.origin, nextOrderId)
      ensures Apart(stages[q], s.calls[q].key, g, s.calls[r].key) && Apart(g, s.calls[r].key, stages[q], s.calls[q].key)
    {
      assert StageOk(s.stages[q], s.calls[q], q, s.db.keys, s.origin, s.db.nextOrderId);
      assert q < r ==> Apart(s.stages[q], s.calls[q].key, s.stages[r], s.calls[r].key);
      assert r < q ==> Apart(s.stages[r], s.calls[r].key, s.stages[q], s.calls[q].key);
    }
  }

  lemma InvCommit(s: State, r: nat)
    requires Inv(s) && Enabled(s, Commit(r))
    ensures Inv(Apply(s, Commit(r)))
  {
    var s' := Apply(s, Commit(r));
    var c, g := s.calls[r], s.stages[r];
    assert StageOk(g, c, r, s.db.keys, s.origin, s.db.nextOrderId);
    OutboxGrows(s.db.outbox, s.db.orders, g.event, g.orderId, RowOf(c.dto, c.user, g.draft));
    KeysGrow(s.db.keys, s.origin, s.calls, r, g.orderId);
    OrdersGrow(s.db.orders, s.origin, s.calls, s.db.nextOrderId, g.orderId, r, RowOf(c.dto, c.user, g.draft));
    CommitStages(s, r);
  }

  lemma OutboxGrows(outbox: seq<OrderPlaced>, orders: map<nat, OrderRow>, e: OrderPlaced, o: nat, order: OrderRow)
    requires OutboxOk(outbox, orders) && o !in orders && IsEventOf(e, o, order)
    ensures OutboxOk(outbox + [e], orders[o := order])
  {
    var outbox' := outbox + [e];
    forall p | p in orders[o := order] ensures HasEvent(outbox', p) {
      if p == o {
        assert outbox'[|outbox|].data.orderId == o;
      } else {
        var i :| 0 <= i < |outbox| && outbox[i].data.orderId == p;
        assert outbox'[i] == outbox[i];
      }
    }
  }

  lemma KeysGrow(keys: map<string, KeyRow>, origin: map<nat, nat>, calls: seq<Call>, r: nat, o: nat)
    requires KeysOk(keys, origin, calls) && r < |calls| && calls[r].key !in keys && o !in origin
    ensures KeysOk(keys[calls[r].key := KeyRow(calls[r].hash, Some(o))], origin[o := r], calls)
  {
    var keys', origin' := keys[calls[r].key := KeyRow(calls[r].hash, Some(o))], origin[o := r];
    forall p | p in origin' ensures OrderNamed(p, origin'[p], keys', calls) {
      assert p != o ==> OrderNamed(p, origin[p], keys, calls);
    }
    forall k | k in keys' ensures KeyNamed(k, keys'[k], origin', calls) {
      assert k != calls[r].key ==> KeyNamed(k, keys[k], origin, calls);
    }
  }

  lemma OrdersGrow(orders: map<nat, OrderRow>, origin: map<nat, nat>, calls: seq<Call>, nextOrderId: nat,
                   o: nat, r: nat, order: OrderRow)
    requires OrdersOk(orders, origin, calls, nextOrderId) && o < nextOrderId && Placed(order, r, calls)
    ensures OrdersOk(orders[o := order], origin[o := r], calls, nextOrderId)
  {
  }

  /** What a commit by request r means for another request that does not hold r's key or id. */
  lemma OtherStage(g: Stage, c: Call, q: nat, keys: map<string, KeyRow>, origin: map<nat, nat>, nextOrderId: nat,
                   key: string, row: KeyRow, o: nat, r: nat)
    requires StageOk(g, c, q, keys, origin, nextOrderId) && key !in keys && o !in origin
    requires (Holds(g) ==> c.key != key) && (HasOrder(g) ==> g.orderId != o)
    ensures StageOk(g, c, q, keys[key := row], origin[o := r], nextOrderId)
  {
  }

  lemma CommitStages(s: State, r: nat)
    requires StagesOk(s.stages, s.calls, s.db.keys, s.origin, s.db.nextOrderId) && Enabled(s, Commit(r))
    ensures var s' := Apply(s, Commit(r)); StagesOk(s'.stages, s'.calls, s'.db.keys, s'.origin, s'.db.nextOrderId)
  {
    var s', c, g := Apply(s, Commit(r)), s.calls[r], s.stages[r];
    assert StageOk(g, c, r, s.db.keys, s.origin, s.db.nextOrderId);
    forall q | 0 <= q < |s.stages| && q != r
      ensures StageOk(s'.stages[q], s.calls[q], q, s'.db.keys, s'.origin, s.db.nextOrderId)
    {
      assert q < r ==> Apart(s.stages[q], s.calls[q].key, g, c.key);
      assert r < q ==> Apart(g, c.key, s.stages[q], s.calls[q].key);
      OtherStage(s.stages[q], s.calls[q], q, s.db.keys, s.origin, s.db.nextOrderId,
                 c.key, KeyRow(c.hash, Some(g.orderId)), g.orderId, r);
    }
  }

  lemma InvArrive(s: State, step: Step)
    requires Inv(s) && step.Arrive?
    ensures Inv(Apply(s, step))
  {
    var calls' := Apply(s, step).calls;
    forall o | o in s.origin
      ensures OrderNamed(o, s.origin[o], s.db.keys, calls') && Placed(s.db.orders[o], s.origin[o], calls')
    {
      assert OrderNamed(o, s.origin[o], s.db.keys, s.calls) && Placed(s.db.orders[o], s.origin[o], s.calls);
    }
    forall k | k in s.db.keys ensures KeyNamed(k, s.db.keys[k], s.origin, calls') {
      assert KeyNamed(k, s.db.keys[k], s.origin, s.calls);
    }
  }

  lemma InvMove(s: State, step: Step)
    requires Inv(s) && Enabled(s, step)
    requires !step.Arrive? && !step.SetProduct? && !step.DropProduct? && !step.Commit?
    ensures Inv(Apply(s, step))
  {
    var r, s' := step.r, Apply(s, step);
    assert StageOk(s.stages[r], s.calls[r], r, s.db.keys, s.origin, s.db.nextOrderId);
    MoveOk(s, step);
    StagesMove(s, r, s'.stages[r], s'.db.nextOrderId);
  }

  /** The request that moves lands in a stage that is in order. */
  lemma MoveOk(s: State, step: Step)
    requires StagesOk(s.stages, s.calls, s.db.keys, s.origin, s.db.nextOrderId) && Enabled(s, step)
    requires s.db.nextOrderId !in s.origin
    requires !step.Arrive? && !step.SetProduct? && !step.DropProduct? && !step.Commit?
    ensures var s' := Apply(s, step);
      StageOk(s'.stages[step.r], s.calls[step.r], step.r, s.db.keys, s.origin, s'.db.nextOrderId)
  {
    var r := step.r;
    var g, c := s.stages[r], s.calls[r];
    assert StageOk(g, c, r, s.db.keys, s.origin, s.db.nextOrderId);
    match step {
      case PriceItem(_) =>
        if Apply(s, step).stages[r].Pricing? { PriceOk(g, c, r, s.db.keys, s.origin, s.db.nextOrderId, s.db.products); }
      case Save(_) => SaveOk(g, c, r, s.db.keys, s.origin, s.db.nextOrderId);
      case Enqueue(_, at) => EnqueueOk(g, c, r, s.db.keys, s.origin, s.db.nextOrderId, at);
      case Reply(_) => ReplyOk(g, c, r, s.db.keys, s.origin, s.db.nextOrderId);
      case Claim(_) => ClaimOk(c, r, s.db.keys, s.origin, s.db.nextOrderId);
      case _ =>
    }
  }

  lemma ClaimOk(c: Call, r: nat, keys: map<string, KeyRow>, origin: map<nat, nat>, nextOrderId: nat)
    ensures StageOk(if c.key in keys then Conflict else Pricing(NoItems), c, r, keys, origin, nextOrderId)
  {
  }

  lemma PriceOk(g: Stage, c: Call, r: nat, keys: map<string, KeyRow>, origin: map<nat, nat>, nextOrderId: nat, products: map<int, Price>)
    requires StageOk(g, c, r, keys, origin, nextOrderId) && g.Pricing? && |g.draft.items| < |c.dto.items|
    requires Known(products, c.dto.items[|g.draft.items|])
    ensures StageOk(Pricing(AddItem(g.draft, c.dto.items[|g.draft.items|], products)), c, r, keys, origin, nextOrderId)
  {
    AddItemOk(g.draft, c.dto.items, products);
  }

  lemma ReplyOk(g: Stage, c: Call, r: nat, keys: map<string, KeyRow>, origin: map<nat, nat>, nextOrderId: nat)
    requires StageOk(g, c, r, keys, origin, nextOrderId)
    requires g.Committed? || (g.Found? && g.row.orderId.Some?)
    ensures StageOk(Answered(AnswerOf(c, g)), c, r, keys, origin, nextOrderId)
  {
  }

  lemma SaveOk(g: Stage, c: Call, r: nat, keys: map<string, KeyRow>, origin: map<nat, nat>, nextOrderId: nat)
    requires StageOk(g, c, r, keys, origin, nextOrderId) && g.Pricing? && |g.draft.items| == |c.dto.items|
    requires nextOrderId !in origin
    ensures StageOk(Saved(nextOrderId, g.draft), c, r, keys, origin, nextOrderId + 1)
  {
  }

  lemma EnqueueOk(g: Stage, c: Call, r: nat, keys: map<string, KeyRow>, origin: map<nat, nat>, nextOrderId: nat, at: string)
    requires StageOk(g, c, r, keys, origin, nextOrderId) && g.Saved?
    ensures var event := BuildOrderPlaced(EventData(g.orderId, RowOf(c.dto, c.user, g.draft)), at);
      StageOk(Enqueued(g.orderId, g.draft, event), c, r, keys, origin, nextOrderId)
  {
  }

  lemma InvStep(s: State, step: Step)
    requires Inv(s) && Enabled(s, step)
    ensures Inv(Apply(s, step))
  {
    match step {
      case Arrive(_, _, _, _) => InvArrive(s, step);
      case SetProduct(_, _) =>
      case DropProduct(_) =>
      case Commit(r) => InvCommit(s, r);
      case _ => InvMove(s, step);
    }
  }

  lemma {:induction false} InvRun(s: State, steps: seq<Step>)
    requires Inv(s) && Runs(s, steps)
    ensures Inv(Final(s, steps))
    decreases |steps|
  {
    if steps != [] {
      InvStep(s, steps[0]);
      InvRun(Apply(s, steps[0]), steps[1..]);
    }
  }

  // ---------------------------------------------------------------- theorems

  predicate Succeeded(g: Stage) { g.Answered? && !g.answer.Unprocessable? }

  predicate SamePair(a: Call, b: Call) { a.user == b.user && a.clientKey == b.clientKey }

  /** However requests interleave, fail and are retried, one (user, key) pair has at most one
      order; and every order has exactly one outbox row, which carries that order. */
  lemma OneOrderPerKey(products: map<int, Price>, firstId: nat, steps: seq<Step>)
    requires Runs(Init(products, firstId), steps)
    ensures var s := Final(Init(products, firstId), steps);
      && s.origin.Keys == s.db.orders.Keys
      && (forall o :: o in s.origin ==> s.origin[o] < |s.calls|)
      && (forall o, p :: o in s.origin && p in s.origin && SamePair(s.calls[s.origin[o]], s.calls[s.origin[p]]) ==> o == p)
      && OutboxOk(s.db.outbox, s.db.orders)
  {
    InvRun(Init(products, firstId), steps);
    var s := Final(Init(products, firstId), steps);
    forall o | o in s.origin ensures OrderNamed(o, s.origin[o], s.db.keys, s.calls) {}
  }

  /** All successful answers under one key carry the same order, at most one of them as new,
      and that order is committed. */
  lemma SameAnswer(products: map<int, Price>, firstId: nat, steps: seq<Step>, q: nat, r: nat)
    requires Runs(Init(products, firstId), steps)
    ensures var s := Final(Init(products, firstId), steps);
      && |s.stages| == |s.calls|
      && (q < |s.calls| && r < |s.calls| && SamePair(s.calls[q], s.calls[r]) && Succeeded(s.stages[q]) && Succeeded(s.stages[r]) ==>
            && s.stages[q].answer.orderId == s.stages[r].answer.orderId && s.stages[r].answer.orderId in s.db.orders
            && (s.stages[q].answer.Created? && s.stages[r].answer.Created? ==> q == r))
  {
    InvRun(Init(products, firstId), steps);
    var s := Final(Init(products, firstId), steps);
    if q < |s.calls| && r < |s.calls| && Succeeded(s.stages[q]) && Succeeded(s.stages[r]) {
      AnswerIsKeyed(s, q);
      AnswerIsKeyed(s, r);
    }
  }

  lemma AnswerIsKeyed(s: State, r: nat)
    requires Inv(s) && r < |s.calls| && Succeeded(s.stages[r])
    ensures var k, o := s.calls[r].key, s.stages[r].answer.orderId;
      && o in s.origin && o in s.db.orders
      && k in s.db.keys && s.db.keys[k] == KeyRow(s.calls[r].hash, Some(o))
      && (s.stages[r].answer.Created? ==> s.origin[o] == r)
  {
    var g := s.stages[r];
    assert StageOk(g, s.calls[r], r, s.db.keys, s.origin, s.db.nextOrderId);
    if g.answer.Created? {
      assert OrderNamed(g.answer.orderId, r, s.db.keys, s.calls);
    } else {
      assert KeyNamed(s.calls[r].key, s.db.keys[s.calls[r].key], s.origin, s.calls);
    }
  }

  /** Once a key has an order, a request with that key and another body hash has created
      nothing and is never answered with an order. */
  lemma OtherBodyCreatesNothing(products: map<int, Price>, firstId: nat, steps: seq<Step>, o: nat, r: nat)
    requires Runs(Init(products, firstId), steps)
    requires var s := Final(Init(products, firstId), steps);
      && o in s.origin && s.origin[o] < |s.calls| && r < |s.calls|
      && SamePair(s.calls[s.origin[o]], s.calls[r]) && s.calls[s.origin[o]].hash != s.calls[r].hash
    ensures var s := Final(Init(products, firstId), steps);
      && (forall p :: p in s.origin ==> s.origin[p] != r)
      && r < |s.stages| && !Succeeded(s.stages[r])
  {
    InvRun(Init(products, firstId), steps);
    var s := Final(Init(products, firstId), steps);
    assert OrderNamed(o, s.origin[o], s.db.keys, s.calls);
    forall p | p in s.origin ensures s.origin[p] != r {
      assert OrderNamed(p, s.origin[p], s.db.keys, s.calls);
    }
    if Succeeded(s.stages[r]) { AnswerIsKeyed(s, r); }
  }

  lemma FirstColon(u: nat, k: string)
    ensures var s, n := Decimal(u) + ":" + k, |Decimal(u)|;
      s[n] == ':' && s[..n] == Decimal(u) && s[n + 1..] == k && forall i :: 0 <= i < n ==> s[i] != ':'
  {
    var a := Decimal(u);
    assert forall i :: 0 <= i < |a| ==> (a + ":" + k)[i] == a[i];
  }

  lemma ColonSplits(u: nat, k: string, v: nat, l: string)
    requires Decimal(u) + ":" + k == Decimal(v) + ":" + l
    ensures u == v && k == l
  {
    FirstColon(u, k);
    FirstColon(v, l);
    assert |Decimal(u)| == |Decimal(v)|;
    DecimalInjective(u, v);
  }

  /** Two authenticated (user, key) pairs share a stored key only if they are the same pair.
      An anonymous key collides with an authenticated one exactly when the client writes the
      user's prefix itself. */
  lemma StoredKeysCollideIff(u: Option<nat>, k: string, v: Option<nat>, l: string)
    ensures (StoredKey(u, k) == StoredKey(v, l)) <==>
            ((u == v && k == l)
             || (u.None? && v.Some? && k == Decimal(v.value) + ":" + l)
             || (v.None? && u.Some? && l == Decimal(u.value) + ":" + k))
  {
    if u.Some? && v.Some? && StoredKey(u, k) == StoredKey(v, l) { ColonSplits(u.value, k, v.value, l); }
  }

  ghost predicate Authenticated(calls: seq<Call>) {
    forall i :: 0 <= i < |calls| ==> calls[i].user.Some?
  }

  /** Equal hashes mean equal bodies. */
  ghost predicate HashesTellBodiesApart(calls: seq<Call>) {
    forall i, j :: 0 <= i < |calls| && 0 <= j < |calls| && calls[i].hash == calls[j].hash ==> calls[i].dto == calls[j].dto
  }

  /** With authenticated callers, the order of every successful answer, replayed or new,
      belongs to the caller, was made under the caller's own key, and is the one this very
      body asks for; its total is the sum of its lines at the prices they were bought at,
      however prices moved during the request. */
  lemma AnswerIsOwnOrder(products: map<int, Price>, firstId: nat, steps: seq<Step>, r: nat)
    requires Runs(Init(products, firstId), steps)
    requires var s := Final(Init(products, firstId), steps);
      && r < |s.calls| == |s.stages| && Succeeded(s.stages[r])
      && Authenticated(s.calls) && HashesTellBodiesApart(s.calls)
    ensures var s := Final(Init(products, firstId), steps);
      var o := s.stages[r].answer.orderId;
      && o in s.db.orders && o in s.origin && s.origin[o] < |s.calls|
      && SamePair(s.calls[r], s.calls[s.origin[o]])
      && Fulfils(s.db.orders[o], s.calls[r])
  {
    InvRun(Init(products, firstId), steps);
    var s := Final(Init(products, firstId), steps);
    AnswerIsKeyed(s, r);
    var o := s.stages[r].answer.orderId;
    var c, d := s.calls[r], s.calls[s.origin[o]];
    assert KeyNamed(c.key, s.db.keys[c.key], s.origin, s.calls) && OrderNamed(o, s.origin[o], s.db.keys, s.calls);
    StoredKeysCollideIff(c.user, c.clientKey, d.user, d.clientKey);
    assert Placed(s.db.orders[o], s.origin[o], s.calls);
  }

  /** A failed attempt that held the key changes no table and leaves the key free: any other
      request with it can claim at once and goes on to make the order. */
  lemma RolledBackLeavesKeyFree(s: State, r: nat, q: nat)
    requires Inv(s) && r < |s.stages| && q < |s.stages| && Holds(s.stages[r])
    requires s.stages[q] == Open && s.calls[q].key == s.calls[r].key
    ensures var s' := Apply(s, Fail(r));
      && !Enabled(s, Claim(q))
      && s'.db == s.db
      && Enabled(s', Claim(q)) && Apply(s', Claim(q)).stages[q] == Pricing(NoItems)
  {
    var s' := Apply(s, Fail(r));
    assert StageOk(s.stages[r], s.calls[r], r, s.db.keys, s.origin, s.db.nextOrderId);
    forall p | 0 <= p < |s'.stages| && Holds(s'.stages[p]) ensures s.calls[p].key != s.calls[q].key {
      assert p < r ==> Apart(s.stages[p], s.calls[p].key, s.stages[r], s.calls[r].key);
      assert r < p ==> Apart(s.stages[r], s.calls[r].key, s.stages[p], s.calls[p].key);
    }
  }

  /** A committed key row is never changed: a retry at any later time meets the same order. */
  lemma {:induction false} KeysAreForever(s: State, steps: seq<Step>, k: string)
    requires Inv(s) && Runs(s, steps) && k in s.db.keys
    ensures k in Final(s, steps).db.keys && Final(s, steps).db.keys[k] == s.db.keys[k]
    decreases |steps|
  {
    if steps != [] {
      InvStep(s, steps[0]);
      assert steps[0].Commit? ==> StageOk(s.stages[steps[0].r], s.calls[steps[0].r], steps[0].r, s.db.keys, s.origin, s.db.nextOrderId);
      KeysAreForever(Apply(s, steps[0]), steps[1..], k);
    }
  }

  /** The own next step of a request that has not ended, other than failing. */
  function NextStep(g: Stage, c: Call, r: nat, at: string): Step
    requires !Ended(g)
  {
    match g
    case Open => Claim(r)
    case Pricing(d) => if |d.items| < |c.dto.items| then PriceItem(r) else Save(r)
    case Saved(_, _) => Enqueue(r, at)
    case Enqueued(_, _, _) => Link(r)
    case Linked(_, _, _) => Commit(r)
    case Conflict => Find(r)
    case Found(_) => Reply(r)
    case Committed(_) => Reply(r)
  }

  ghost predicate CanGoOn(s: State, r: nat, at: string) {
    && |s.stages| == |s.calls| && r < |s.stages| && !Ended(s.stages[r])
    && Enabled(s, NextStep(s.stages[r], s.calls[r], r, at))
  }

  ghost predicate Blocks(s: State, q: nat, r: nat) {
    && |s.stages| == |s.calls| && q < |s.stages| && r < |s.stages|
    && Holds(s.stages[q]) && s.calls[q].key == s.calls[r].key
  }

  lemma CanMove(s: State, r: nat, at: string)
    requires Inv(s) && r < |s.stages| && !Ended(s.stages[r]) && !s.stages[r].Open?
    ensures CanGoOn(s, r, at)
  {
    var g, c := s.stages[r], s.calls[r];
    assert StageOk(g, c, r, s.db.keys, s.origin, s.db.nextOrderId);
    assert c.key in s.db.keys ==> KeyNamed(c.key, s.db.keys[c.key], s.origin, s.calls);
    assert g.Pricing? ==> Answers(g.draft.items, c.dto.items);
  }

  lemma HolderCanMove(s: State, q: nat, r: nat, at: string)
    requires Inv(s) && Blocks(s, q, r)
    ensures CanGoOn(s, q, at)
  {
    CanMove(s, q, at);
  }

  /** Nobody waits in a circle: a request that has not ended can move, or else the one that
      holds its key can. */
  lemma NoDeadlock(s: State, r: nat, at: string)
    requires Inv(s) && r < |s.stages| && !Ended(s.stages[r])
    ensures CanGoOn(s, r, at) ||
            exists q: nat :: Blocks(s, q, r) && CanGoOn(s, q, at)
  {
    if !s.stages[r].Open? {
      CanMove(s, r, at);
    } else if Blocked(s, r) {
      var q: nat :| q < |s.calls| && Holds(s.stages[q]) && s.calls[q].key == s.calls[r].key;
      assert Blocks(s, q, r);
      HolderCanMove(s, q, r, at);
    }
  }

  // ---------------------------------------------------------------- prices as they were met

  /** What request r reads from the catalogue in this step. */
  ghost function LookupAt(s: State, step: Step, r: nat): seq<Price>
    requires Enabled(s, step)
  {
    if step == PriceItem(r) then
      var item := s.calls[r].dto.items[|s.stages[r].draft.items|];
      if item.number.Some? && item.number.value in s.db.products then [s.db.products[item.number.value]] else []
    else []
  }

  /** Everything request r reads from the catalogue during a run, in order. */
  ghost function Lookups(s: State, steps: seq<Step>, r: nat): seq<Price>
    requires Runs(s, steps)
    decreases |steps|
  {
    if steps == [] then [] else LookupAt(s, steps[0], r) + Lookups(Apply(s, steps[0]), steps[1..], r)
  }

  /** Each line has the price that was read for it; the currency is that of the last. */
  ghost predicate PricedBy(items: seq<OrderItem>, currency: string, seen: seq<Price>) {
    && |seen| == |items|
    && (forall i :: 0 <= i < |items| ==> items[i].priceAtPurchaseCents == seen[i].priceCents)
    && currency == if seen == [] then "UAH" else seen[|seen| - 1].currency
  }

  ghost predicate SeenBy(s: State, r: nat, seen: seq<Price>) {
    && (r >= |s.stages| || s.stages[r].Open? ==> seen == [])
    && (r < |s.stages| && Holds(s.stages[r]) ==> PricedBy(s.stages[r].draft.items, s.stages[r].draft.currency, seen))
    && (forall o :: o in s.origin && o in s.db.orders && s.origin[o] == r ==>
          PricedBy(s.db.orders[o].items, s.db.orders[o].currency, seen))
  }

  lemma LookupPrices(d: Draft, item: ItemRequest, products: map<int, Price>, seen: seq<Price>)
    requires PricedBy(d.items, d.currency, seen) && Known(products, item)
    ensures var d' := AddItem(d, item, products);
      PricedBy(d'.items, d'.currency, seen + [products[item.number.value]])
  {
  }

  /** A request that still holds its key has made no order yet. */
  lemma HolderHasNoOrder(s: State, r: nat, o: nat)
    requires Inv(s) && r < |s.stages| && Holds(s.stages[r]) && o in s.origin
    ensures s.origin[o] != r
  {
    assert OrderNamed(o, s.origin[o], s.db.keys, s.calls);
    assert StageOk(s.stages[r], s.calls[r], r, s.db.keys, s.origin, s.db.nextOrderId);
  }

  lemma SeenLookup(s: State, r: nat, seen: seq<Price>)
    requires Inv(s) && Enabled(s, PriceItem(r)) && SeenBy(s, r, seen)
    ensures SeenBy(Apply(s, PriceItem(r)), r, seen + LookupAt(s, PriceItem(r), r))
  {
    forall o | o in s.origin ensures s.origin[o] != r {
      HolderHasNoOrder(s, r, o);
    }
    var draft := s.stages[r].draft;
    var item := s.calls[r].dto.items[|draft.items|];
    if Known(s.db.products, item) { LookupPrices(draft, item, s.db.products, seen); }
  }

  lemma SeenOwnCommit(s: State, r: nat, seen: seq<Price>)
    requires Inv(s) && Enabled(s, Commit(r)) && SeenBy(s, r, seen)
    ensures SeenBy(Apply(s, Commit(r)), r, seen)
  {
    forall o | o in s.origin ensures s.origin[o] != r {
      HolderHasNoOrder(s, r, o);
    }
  }

  lemma SeenOthersCommit(s: State, q: nat, r: nat, seen: seq<Price>)
    requires Enabled(s, Commit(q)) && q != r && SeenBy(s, r, seen) && s.stages[q].orderId !in s.origin
    ensures SeenBy(Apply(s, Commit(q)), r, seen)
  {
  }

  lemma SeenOther(s: State, step: Step, r: nat, seen: seq<Price>)
    requires Enabled(s, step) && SeenBy(s, r, seen) && step != PriceItem(r) && !step.Commit?
    requires |s.calls| == |s.stages|
    ensures SeenBy(Apply(s, step), r, seen)
  {
  }

  lemma SeenStep(s: State, step: Step, r: nat, seen: seq<Price>)
    requires Inv(s) && Enabled(s, step) && SeenBy(s, r, seen)
    ensures SeenBy(Apply(s, step), r, seen + LookupAt(s, step, r))
  {
    if step == PriceItem(r) {
      SeenLookup(s, r, seen);
    } else {
      assert seen + LookupAt(s, step, r) == seen;
      if step == Commit(r) {
        SeenOwnCommit(s, r, seen);
      } else if step.Commit? {
        assert StageOk(s.stages[step.r], s.calls[step.r], step.r, s.db.keys, s.origin, s.db.nextOrderId);
        SeenOthersCommit(s, step.r, r, seen);
      } else {
        SeenOther(s, step, r, seen);
      }
    }
  }

  lemma {:induction false} SeenRun(s: State, steps: seq<Step>, r: nat, seen: seq<Price>)
    requires Inv(s) && Runs(s, steps) && SeenBy(s, r, seen)
    ensures SeenBy(Final(s, steps), r, seen + Lookups(s, steps, r))
    decreases |steps|
  {
    if steps == [] {
      assert seen + [] == seen;
    } else {
      var s1, now := Apply(s, steps[0]), LookupAt(s, steps[0], r);
      SeenStep(s, steps[0], r, seen);
      InvStep(s, steps[0]);
      SeenRun(s1, steps[1..], r, seen + now);
      AppendAssoc(seen, now, Lookups(s1, steps[1..], r));
    }
  }

  lemma AppendAssoc<T>(a: seq<T>, b: seq<T>, c: seq<T>)
    ensures a + b + c == a + (b + c)
  {
  }

  /** Every committed order and its event, field by field: status "created"; one line per item
      at the price its request read for it, whatever the catalogue did before and after; the
      currency read last; and one event that repeats the order exactly. */
  lemma OrdersAsPriced(products: map<int, Price>, firstId: nat, steps: seq<Step>, o: nat)
    requires Runs(Init(products, firstId), steps) && o in Final(Init(products, firstId), steps).db.orders
    ensures var s := Final(Init(products, firstId), steps);
      && o in s.origin && s.origin[o] < |s.calls|
      && s.db.orders[o].status == "created"
      && PricedBy(s.db.orders[o].items, s.db.orders[o].currency, Lookups(Init(products, firstId), steps, s.origin[o]))
      && exists i :: 0 <= i < |s.db.outbox| && IsEventOf(s.db.outbox[i], o, s.db.orders[o])
  {
    var s := Final(Init(products, firstId), steps);
    InvRun(Init(products, firstId), steps);
    OrderAndEvent(s, o);
    var seen := Lookups(Init(products, firstId), steps, s.origin[o]);
    SeenRun(Init(products, firstId), steps, s.origin[o], []);
    assert [] + seen == seen;
  }

  lemma OrderAndEvent(s: State, o: nat)
    requires Inv(s) && o in s.db.orders
    ensures o in s.origin && s.origin[o] < |s.calls| && s.db.orders[o].status == "created"
    ensures exists i :: 0 <= i < |s.db.outbox| && IsEventOf(s.db.outbox[i], o, s.db.orders[o])
  {
    assert Placed(s.db.orders[o], s.origin[o], s.calls);
    assert HasEvent(s.db.outbox, o);
    var i :| 0 <= i < |s.db.outbox| && s.db.outbox[i].data.orderId == o;
    assert IsEventOf(s.db.outbox[i], o, s.db.orders[o]);
  }

  // ---------------------------------------------------------------- one request on its own

  predicate AllKnown(products: map<int, Price>, items: seq<ItemRequest>) {
    forall i :: 0 <= i < |items| ==> Known(products, items[i])
  }

  function Order(db: Db, c: Call): OrderRow
    requires AllKnown(db.products, c.dto.items)
  {
    RowOf(c.dto, c.user, DraftOf(db.products, c.dto.items))
  }

  function Event(db: Db, c: Call, at: string): OrderPlaced
    requires AllKnown(db.products, c.dto.items)
  {
    BuildOrderPlaced(EventData(db.nextOrderId, Order(db, c)), at)
  }

  /** Tables and answer after a request nobody interferes with; None is a thrown error. */
  function Served(db: Db, c: Call, at: string, commits: bool): (Db, Option<Answer>) {
    if c.key in db.keys then
      var row := db.keys[c.key];
      (db, if !commits then None
           else if row.hash != c.hash then Some(Unprocessable)
           else if row.orderId.None? then None
           else Some(Replayed(row.orderId.value)))
    else if !AllKnown(db.products, c.dto.items) then (db, None)
    else
      var id := db.nextOrderId;
      if !commits then (db.(nextOrderId := id + 1), None)
      else
        (db.(keys := db.keys[c.key := KeyRow(c.hash, Some(id))],
             orders := db.orders[id := Order(db, c)],
             outbox := db.outbox + [Event(db, c, at)],
             nextOrderId := id + 1),
         Some(Created(id)))
  }

  /** The whole call; on an error the transaction's writes are undone, all but the number
      drawn for the order. */
  method CreateIdempotent(manager: Manager, dto: Dto, hash: string, clientKey: string, user: Option<nat>,
                          occurredAt: string, commits: bool) returns (answer: Option<Answer>)
    modifies manager
    ensures (manager.db, answer) == Served(old(manager.db), NewCall(user, clientKey, hash, dto), occurredAt, commits)
  {
    var c := NewCall(user, clientKey, hash, dto);
    if c.key !in manager.db.keys {
      answer := ClaimAndInsert(manager, c, occurredAt, commits);
      return;
    }
    var existing := manager.db.keys[c.key];
    if !commits {
      return None;
    }
    if existing.hash != c.hash {
      return Some(Unprocessable);
    }
    return if existing.orderId.None? then None else Some(Replayed(existing.orderId.value));
  }

  /** The transaction of a call whose key is free. */
  method ClaimAndInsert(manager: Manager, c: Call, occurredAt: string, commits: bool) returns (answer: Option<Answer>)
    requires c.key !in manager.db.keys
    modifies manager
    ensures (manager.db, answer) == Served(old(manager.db), c, occurredAt, commits)
  {
    var before := manager.db;
    manager.db := before.(keys := before.keys[c.key := KeyRow(c.hash, None)]);
    var saved, draft := manager.InsertOrderWithEvent(c.dto, c.user, occurredAt);
    if saved.NotFound? {
      manager.db := before;
      return None;
    }
    var id := saved.orderId;
    ServedNew(before, c, occurredAt, commits);
    if !commits {
      manager.db := before.(nextOrderId := manager.db.nextOrderId);
      return None;
    }
    ghost var inserted := manager.db;
    manager.db := manager.db.(keys := manager.db.keys[c.key := KeyRow(c.hash, Some(id))]);
    LinkedKeys(before, inserted, c, id, RowOf(c.dto, c.user, draft), occurredAt);
    return Some(Created(id));
  }

  /** A new order's tables. */
  function WithOrder(db: Db, c: Call, id: nat, order: OrderRow, at: string): Db {
    Db(db.products, db.keys[c.key := KeyRow(c.hash, Some(id))], db.orders[id := order],
       db.outbox + [BuildOrderPlaced(EventData(id, order), at)], id + 1)
  }

  lemma ServedNew(db: Db, c: Call, at: string, commits: bool)
    requires c.key !in db.keys && AllKnown(db.products, c.dto.items)
    ensures var id := db.nextOrderId;
      Served(db, c, at, commits) ==
        if commits then (WithOrder(db, c, id, RowOf(c.dto, c.user, DraftOf(db.products, c.dto.items)), at), Some(Created(id)))
        else (db.(nextOrderId := id + 1), None)
  {
  }

  lemma LinkedKeys(before: Db, inserted: Db, c: Call, id: nat, order: OrderRow, at: string)
    requires inserted == before.(
      keys := before.keys[c.key := KeyRow(c.hash, None)], orders := before.orders[id := order],
      outbox := before.outbox + [BuildOrderPlaced(EventData(id, order), at)], nextOrderId := id + 1)
    ensures inserted.(keys := inserted.keys[c.key := KeyRow(c.hash, Some(id))]) == WithOrder(before, c, id, order, at)
  {
  }

  lemma RunsCons(s: State, step: Step, rest: seq<Step>)
    requires Enabled(s, step) && Runs(Apply(s, step), rest)
    ensures Runs(s, [step] + rest) && Final(s, [step] + rest) == Final(Apply(s, step), rest)
  {
    assert ([step] + rest)[1..] == rest;
  }

  lemma {:induction false} RunsAppend(s: State, a: seq<Step>, b: seq<Step>)
    requires Runs(s, a) && Runs(Final(s, a), b)
    ensures Runs(s, a + b) && Final(s, a + b) == Final(Final(s, a), b)
    decreases |a|
  {
    if a == [] {
      assert a + b == b;
    } else {
      assert (a + b)[0] == a[0] && (a + b)[1..] == a[1..] + b;
      RunsAppend(Apply(s, a[0]), a[1..], b);
    }
  }

  function Prices(r: nat, n: nat): seq<Step> { seq(n, _ => PriceItem(r)) }

  /** The first n lookups of a request. */
  lemma {:induction false} PricesRun(s: State, r: nat, n: nat)
    requires |s.calls| == |s.stages| && r < |s.stages| && s.stages[r] == Pricing(NoItems)
    requires n <= |s.calls[r].dto.items| && AllKnown(s.db.products, s.calls[r].dto.items[..n])
    ensures Runs(s, Prices(r, n))
    ensures Final(s, Prices(r, n)) == Goto(s, r, Pricing(DraftOf(s.db.products, s.calls[r].dto.items[..n])))
  {
    var items := s.calls[r].dto.items;
    if n == 0 {
      assert s.stages[r := s.stages[r]] == s.stages;
    } else {
      assert items[..n][..n - 1] == items[..n - 1];
      PricesRun(s, r, n - 1);
      DraftOfIs(s.db.products, items[..n - 1]);
      var mid := Final(s, Prices(r, n - 1));
      assert items[..n][n - 1] == items[n - 1];
      RunsCons(mid, PriceItem(r), []);
      RunsAppend(s, Prices(r, n - 1), [PriceItem(r)] + []);
      assert Prices(r, n - 1) + ([PriceItem(r)] + []) == Prices(r, n);
    }
  }

  function Writing(r: nat, at: string): seq<Step> { [Save(r)] + ([Enqueue(r, at)] + ([Link(r)] + [])) }

  /** The state with an order id drawn and request r moved. */
  function Drawn(s: State, r: nat, g: Stage): State
    requires r < |s.stages|
  {
    Goto(s, r, g).(db := s.db.(nextOrderId := s.db.nextOrderId + 1))
  }

  lemma SaveTo(s: State, r: nat)
    requires |s.calls| == |s.stages| && r < |s.stages| && AllKnown(s.db.products, s.calls[r].dto.items)
    requires s.stages[r] == Pricing(DraftOf(s.db.products, s.calls[r].dto.items))
    ensures Enabled(s, Save(r)) && Apply(s, Save(r)) == Drawn(s, r, Saved(s.db.nextOrderId, s.stages[r].draft))
  {
    DraftOfIs(s.db.products, s.calls[r].dto.items);
  }

  lemma EnqueueTo(s: State, r: nat, id: nat, d: Draft, at: string)
    requires |s.calls| == |s.stages| && r < |s.stages|
    ensures var event := BuildOrderPlaced(EventData(id, RowOf(s.calls[r].dto, s.calls[r].user, d)), at);
      && Enabled(Drawn(s, r, Saved(id, d)), Enqueue(r, at))
      && Apply(Drawn(s, r, Saved(id, d)), Enqueue(r, at)) == Drawn(s, r, Enqueued(id, d, event))
  {
    var event := BuildOrderPlaced(EventData(id, RowOf(s.calls[r].dto, s.calls[r].user, d)), at);
    assert s.stages[r := Saved(id, d)][r := Enqueued(id, d, event)] == s.stages[r := Enqueued(id, d, event)];
  }

  lemma LinkTo(s: State, r: nat, id: nat, d: Draft, event: OrderPlaced)
    requires |s.calls| == |s.stages| && r < |s.stages|
    ensures Enabled(Drawn(s, r, Enqueued(id, d, event)), Link(r))
    ensures Apply(Drawn(s, r, Enqueued(id, d, event)), Link(r)) == Drawn(s, r, Linked(id, d, event))
  {
    assert s.stages[r := Enqueued(id, d, event)][r := Linked(id, d, event)] == s.stages[r := Linked(id, d, event)];
  }

  /** The three writes after the lookups. */
  lemma WritingRun(s: State, r: nat, at: string)
    requires |s.calls| == |s.stages| && r < |s.stages| && AllKnown(s.db.products, s.calls[r].dto.items)
    requires s.stages[r] == Pricing(DraftOf(s.db.products, s.calls[r].dto.items))
    ensures Runs(s, Writing(r, at))
    ensures Final(s, Writing(r, at)) == Drawn(s, r, Linked(s.db.nextOrderId, s.stages[r].draft, Event(s.db, s.calls[r], at)))
  {
    var id, d, event := s.db.nextOrderId, s.stages[r].draft, Event(s.db, s.calls[r], at);
    SaveTo(s, r);
    EnqueueTo(s, r, id, d, at);
    LinkTo(s, r, id, d, event);
    ThreeSteps(s, Save(r), Enqueue(r, at), Link(r),
               Drawn(s, r, Saved(id, d)), Drawn(s, r, Enqueued(id, d, event)), Drawn(s, r, Linked(id, d, event)));
  }

  lemma ThreeSteps(s: State, a: Step, b: Step, c: Step, s1: State, s2: State, s3: State)
    requires Enabled(s, a) && Apply(s, a) == s1 && Enabled(s1, b) && Apply(s1, b) == s2 && Enabled(s2, c) && Apply(s2, c) == s3
    ensures Runs(s, [a] + ([b] + ([c] + []))) && Final(s, [a] + ([b] + ([c] + []))) == s3
  {
    RunsCons(s2, c, []);
    RunsCons(s1, b, [c] + []);
    RunsCons(s, a, [b] + ([c] + []));
  }

  function Ending(r: nat): seq<Step> { [Commit(r)] + ([Reply(r)] + []) }

  lemma EndingRun(s: State, r: nat)
    requires |s.calls| == |s.stages| && r < |s.stages| && s.stages[r].Linked?
    ensures var g := s.stages[r];
      && Runs(s, Ending(r))
      && Final(s, Ending(r)) ==
           State(Publish(s.db, s.calls[r], g), s.calls, s.stages[r := Answered(Created(g.orderId))], s.origin[g.orderId := r])
  {
    var s1 := Apply(s, Commit(r));
    RunsCons(s1, Reply(r), []);
    RunsCons(s, Commit(r), [Reply(r)] + []);
    assert s1.stages[r := Answered(Created(s.stages[r].orderId))] == s.stages[r := Answered(Created(s.stages[r].orderId))];
  }

  function Closing(r: nat, at: string): seq<Step> { Writing(r, at) + Ending(r) }

  lemma ClosingRun(s: State, r: nat, at: string)
    requires |s.calls| == |s.stages| && r < |s.stages| && AllKnown(s.db.products, s.calls[r].dto.items)
    requires s.stages[r] == Pricing(DraftOf(s.db.products, s.calls[r].dto.items)) && s.calls[r].key !in s.db.keys
    ensures var id := s.db.nextOrderId;
      && Runs(s, Closing(r, at))
      && Final(s, Closing(r, at)) ==
           State(Served(s.db, s.calls[r], at, true).0, s.calls, s.stages[r := Answered(Created(id))], s.origin[id := r])
  {
    WritingRun(s, r, at);
    var s3 := Final(s, Writing(r, at));
    EndingRun(s3, r);
    RunsAppend(s, Writing(r, at), Ending(r));
    var done := Answered(Created(s.db.nextOrderId));
    assert s3.stages[r := done] == s.stages[r := done];
  }

  /** The first item from i on that the catalogue does not know, or the number of items. */
  function FirstUnknownFrom(products: map<int, Price>, items: seq<ItemRequest>, i: nat): (n: nat)
    requires i <= |items|
    ensures i <= n <= |items| && forall j :: i <= j < n ==> Known(products, items[j])
    ensures n < |items| ==> !Known(products, items[n])
    decreases |items| - i
  {
    if i == |items| || !Known(products, items[i]) then i else FirstUnknownFrom(products, items, i + 1)
  }

  function KnownPrefix(products: map<int, Price>, items: seq<ItemRequest>): (n: nat)
    ensures n <= |items| && AllKnown(products, items[..n])
    ensures n < |items| ==> !Known(products, items[n])
    ensures n == |items| <==> AllKnown(products, items)
  {
    FirstUnknownFrom(products, items, 0)
  }

  /** The protocol's steps for one request that nobody interferes with. */
  function ServeSteps(db: Db, c: Call, r: nat, at: string, commits: bool): seq<Step> {
    var n := KnownPrefix(db.products, c.dto.items);
    if c.key in db.keys then [Claim(r)] + ([Find(r)] + ([if commits then Reply(r) else Fail(r)] + []))
    else if n < |c.dto.items| then Opening(r, n) + ([PriceItem(r)] + [])
    else Opening(r, n) + (if commits then Closing(r, at) else Writing(r, at) + ([Fail(r)] + []))
  }

  /** Where the request ends: answered, or failed with an error. */
  function EndStage(answer: Option<Answer>): Stage { if answer.Some? then Answered(answer.value) else Failed }

  /** The call's steps are a run that ends with these tables and in this stage. */
  ghost predicate RunsTo(s: State, steps: seq<Step>, db: Db, r: nat, g: Stage)
    requires r < |s.stages|
  {
    Runs(s, steps) && Final(s, steps).db == db && Final(s, steps).stages == s.stages[r := g]
  }

  /** Every call, whether it creates, replays, is refused, or fails on an unknown product or at
      its commit, does to the tables and answers what the protocol's steps do. */
  lemma ServingIsRun(s: State, r: nat, at: string, commits: bool)
    requires Inv(s) && r < |s.stages| && s.stages[r] == Open && !Blocked(s, r)
    ensures var c := s.calls[r];
      var (db', answer) := Served(s.db, c, at, commits);
      RunsTo(s, ServeSteps(s.db, c, r, at, commits), db', r, EndStage(answer))
  {
    if s.calls[r].key in s.db.keys {
      CommittedKeyHasOrder(s, r);
      ReplayServed(s, r, at, commits);
    } else if !AllKnown(s.db.products, s.calls[r].dto.items) {
      UnknownServed(s, r, at, commits);
    } else {
      NewServed(s, r, at, commits);
    }
  }

  lemma ReplayAnswer(db: Db, c: Call, at: string, commits: bool)
    requires c.key in db.keys && db.keys[c.key].orderId.Some?
    ensures Served(db, c, at, commits).0 == db
    ensures EndStage(Served(db, c, at, commits).1) ==
            if commits then Answered(AnswerOf(c, Found(db.keys[c.key]))) else Failed
  {
  }

  lemma CommittedKeyHasOrder(s: State, r: nat)
    requires Inv(s) && r < |s.calls| && s.calls[r].key in s.db.keys
    ensures s.db.keys[s.calls[r].key].orderId.Some?
  {
    assert KeyNamed(s.calls[r].key, s.db.keys[s.calls[r].key], s.origin, s.calls);
  }

  lemma ReplayServed(s: State, r: nat, at: string, commits: bool)
    requires |s.calls| == |s.stages| && r < |s.stages| && s.stages[r] == Open && !Blocked(s, r)
    requires s.calls[r].key in s.db.keys && s.db.keys[s.calls[r].key].orderId.Some?
    ensures var served := Served(s.db, s.calls[r], at, commits);
      RunsTo(s, ServeSteps(s.db, s.calls[r], r, at, commits), served.0, r, EndStage(served.1))
  {
    ReplayAnswer(s.db, s.calls[r], at, commits);
    ReplayRun(s, r, commits);
  }

  lemma UnknownServed(s: State, r: nat, at: string, commits: bool)
    requires |s.calls| == |s.stages| && r < |s.stages| && s.stages[r] == Open && !Blocked(s, r)
    requires s.calls[r].key !in s.db.keys && !AllKnown(s.db.products, s.calls[r].dto.items)
    ensures var served := Served(s.db, s.calls[r], at, commits);
      RunsTo(s, ServeSteps(s.db, s.calls[r], r, at, commits), served.0, r, EndStage(served.1))
  {
    UnknownRun(s, r);
  }

  lemma NewServed(s: State, r: nat, at: string, commits: bool)
    requires |s.calls| == |s.stages| && r < |s.stages| && s.stages[r] == Open && !Blocked(s, r)
    requires s.calls[r].key !in s.db.keys && AllKnown(s.db.products, s.calls[r].dto.items)
    ensures var served := Served(s.db, s.calls[r], at, commits);
      RunsTo(s, ServeSteps(s.db, s.calls[r], r, at, commits), served.0, r, EndStage(served.1))
  {
    if commits { CreationRun(s, r, at); } else { FailedCommitRun(s, r, at); }
  }

  function Opening(r: nat, n: nat): seq<Step> { [Claim(r)] + Prices(r, n) }

  /** The claim and the lookups of the first n items. */
  lemma OpeningRun(s: State, r: nat, n: nat)
    requires |s.calls| == |s.stages| && r < |s.stages| && s.stages[r] == Open && !Blocked(s, r)
    requires s.calls[r].key !in s.db.keys && n <= |s.calls[r].dto.items|
    requires AllKnown(s.db.products, s.calls[r].dto.items[..n])
    ensures Runs(s, Opening(r, n))
    ensures Final(s, Opening(r, n)) == Goto(s, r, Pricing(DraftOf(s.db.products, s.calls[r].dto.items[..n])))
  {
    var s1, items := Apply(s, Claim(r)), s.calls[r].dto.items;
    PricesRun(s1, r, n);
    RunsCons(s, Claim(r), Prices(r, n));
    var priced := Pricing(DraftOf(s.db.products, items[..n]));
    assert s1.stages[r := priced] == s.stages[r := priced];
  }

  lemma UnknownRun(s: State, r: nat)
    requires |s.calls| == |s.stages| && r < |s.stages| && s.stages[r] == Open && !Blocked(s, r)
    requires s.calls[r].key !in s.db.keys && !AllKnown(s.db.products, s.calls[r].dto.items)
    ensures var n := KnownPrefix(s.db.products, s.calls[r].dto.items);
      var steps := Opening(r, n) + ([PriceItem(r)] + []);
      RunsTo(s, steps, s.db, r, Failed)
  {
    var items := s.calls[r].dto.items;
    var n := KnownPrefix(s.db.products, items);
    OpeningRun(s, r, n);
    DraftOfIs(s.db.products, items[..n]);
    var mid := Final(s, Opening(r, n));
    RunsCons(mid, PriceItem(r), []);
    RunsAppend(s, Opening(r, n), [PriceItem(r)] + []);
    assert mid.stages[r := Failed] == s.stages[r := Failed];
  }

  lemma CreationRun(s: State, r: nat, at: string)
    requires |s.calls| == |s.stages| && r < |s.stages| && s.stages[r] == Open && !Blocked(s, r)
    requires s.calls[r].key !in s.db.keys && AllKnown(s.db.products, s.calls[r].dto.items)
    ensures var steps := Opening(r, |s.calls[r].dto.items|) + Closing(r, at);
      RunsTo(s, steps, Served(s.db, s.calls[r], at, true).0, r, Answered(Created(s.db.nextOrderId)))
  {
    var items := s.calls[r].dto.items;
    assert items[..|items|] == items;
    OpeningRun(s, r, |items|);
    ClosingRun(Final(s, Opening(r, |items|)), r, at);
    RunsAppend(s, Opening(r, |items|), Closing(r, at));
  }

  lemma FailedCommitRun(s: State, r: nat, at: string)
    requires |s.calls| == |s.stages| && r < |s.stages| && s.stages[r] == Open && !Blocked(s, r)
    requires s.calls[r].key !in s.db.keys && AllKnown(s.db.products, s.calls[r].dto.items)
    ensures var steps := Opening(r, |s.calls[r].dto.items|) + (Writing(r, at) + ([Fail(r)] + []));
      RunsTo(s, steps, s.db.(nextOrderId := s.db.nextOrderId + 1), r, Failed)
  {
    var items := s.calls[r].dto.items;
    assert items[..|items|] == items;
    OpeningRun(s, r, |items|);
    var s1 := Final(s, Opening(r, |items|));
    WritingRun(s1, r, at);
    var s2 := Final(s1, Writing(r, at));
    RunsCons(s2, Fail(r), []);
    RunsAppend(s1, Writing(r, at), [Fail(r)] + []);
    RunsAppend(s, Opening(r, |items|), Writing(r, at) + ([Fail(r)] + []));
    assert s2.stages[r := Failed] == s.stages[r := Failed];
  }

  lemma ReplayRun(s: State, r: nat, commits: bool)
    requires |s.calls| == |s.stages| && r < |s.stages| && s.stages[r] == Open && !Blocked(s, r)
    requires var k := s.calls[r].key; k in s.db.keys && s.db.keys[k].orderId.Some?
    ensures var steps := [Claim(r)] + ([Find(r)] + ([if commits then Reply(r) else Fail(r)] + []));
      var found := Found(s.db.keys[s.calls[r].key]);
      RunsTo(s, steps, s.db, r, if commits then Answered(AnswerOf(s.calls[r], found)) else Failed)
  {
    var found := Found(s.db.keys[s.calls[r].key]);
    var end := if commits then Answered(AnswerOf(s.calls[r], found)) else Failed;
    var s1, s2, s3 := Goto(s, r, Conflict), Goto(s, r, found), Goto(s, r, end);
    assert s1.stages[r := found] == s2.stages && s2.stages[r := end] == s3.stages;
    ThreeSteps(s, Claim(r), Find(r), if commits then Reply(r) else Fail(r), s1, s2, s3);
  }
}
