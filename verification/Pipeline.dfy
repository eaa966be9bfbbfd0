/** The transactional outbox pipeline as a labelled transition system: orders commit with
    their outbox row, relays claim / publish / mark, the broker queues, redelivers and
    dead-letters, consumers deduplicate, notify and acknowledge, and the retention job deletes
    old rows.  Every process may die between any two statements.

    Granularity: one transition per SQL statement or broker call.  What a transaction has
    written but not committed is invisible to everybody else, so it lives in the state of
    the process that wrote it and reaches the tables at COMMIT. */
module Pipeline {
  import opened Base
  import opened Events
  import opened Outbox

  /** src/messaging/rabbitmq.config.ts: returns a message survives before it is dead-lettered. */
  const DELIVERY_LIMIT: nat := 3

  /** An open relay transaction: the rows it locked, how many of them the broker confirmed,
      whether the next one failed, and whether the closing UPDATEs have been issued. */
  datatype Relay = Relay(startedAt: nat, batch: seq<Row>, sent: nat, failed: bool, marked: bool)

  /** The producing side.  `published` is a history: row ids in the order of their confirms. */
  datatype Db = Db(
    now: nat,
    orders: set<nat>,
    usedIds: set<nat>,
    outbox: seq<Row>,
    relays: map<nat, Relay>,
    published: seq<nat>)

  datatype Message = Message(body: Body, bounces: nat)

  /** How far a delivery has got: nothing done; inbox row inserted; effect row inserted too
      (both uncommitted); transaction committed; receipt job enqueued. */
  datatype Stage = Received | Claimed | Written | Committed | Notified

  datatype Handler = Handler(msg: Message, stage: Stage)

  /** `wire`: publishes the relay gave up on that the broker may still store.
      `handlers`: deliveries that are not settled yet, by delivery tag. */
  datatype Broker = Broker(
    wire: multiset<Body>,
    queue: multiset<Message>,
    dlq: multiset<Message>,
    handlers: map<nat, Handler>)

  /** The consuming side.  `applied` is a history: event ids whose transaction reported
      "applied now"; `receipts`: receipt job ids ever enqueued; `tasksOn`: whether a receipt
      queue is configured at all. */
  datatype Store = Store(
    tasksOn: bool,
    inbox: set<string>,
    effects: map<string, int>,
    applied: seq<string>,
    receipts: set<string>)

  datatype State = State(db: Db, broker: Broker, store: Store)

  /** A publish is confirmed, fails with nothing stored, or times out with its fate open. */
  datatype Outcome = Confirmed | Refused | TimedOut

  datatype DbStep =
    | Tick(elapsed: nat)
    | Place(data: OrderData, rowId: nat, createdAt: nat, occurredAt: string)
    | Claim(relay: nat, since: nat, limit: nat)
    | Publish(relay: nat, outcome: Outcome)
    | Mark(relay: nat)
    | CommitRelay(relay: nat)
    | KillRelay(relay: nat)
    | DeleteOld

  datatype BrokerStep =
    | LateStore(body: Body)
    | LateLoss(body: Body)
    | Stray(body: Body)
    | Deliver(tag: nat, msg: Message)
    | RejectPoison(tag: nat)
    | InsertInbox(tag: nat)
    | InsertEffect(tag: nat)
    | CommitEffect(tag: nat)
    | Notify(tag: nat)
    | Ack(tag: nat)
    | Return(tag: nat)

  datatype Step = Produce(p: DbStep) | Consume(c: BrokerStep)

  // ---------------------------------------------------------------- producing side

  function LockedIds(relays: map<nat, Relay>): set<nat> {
    set k, r | k in relays && r in relays[k].batch :: r.id
  }

  predicate DbEnabled(db: Db, step: DbStep) {
    match step
    case Tick(_) => true
    case Place(data, rowId, createdAt, _) =>
      data.orderId !in db.orders && rowId !in db.usedIds && createdAt <= db.now
    case Claim(k, _, _) => k !in db.relays
    case Publish(k, _) =>
      k in db.relays && db.relays[k].sent < |db.relays[k].batch| && !db.relays[k].failed && !db.relays[k].marked
    case Mark(k) =>
      k in db.relays && !db.relays[k].marked && (db.relays[k].failed || db.relays[k].sent == |db.relays[k].batch|)
    case CommitRelay(k) => k in db.relays && db.relays[k].marked && db.relays[k].sent <= |db.relays[k].batch|
    case KillRelay(k) => k in db.relays
    case DeleteOld => true
  }

  /** `sentIds`: the ids of the confirmed prefix of the batch. */
  function SentIds(r: Relay): set<nat>
    requires r.sent <= |r.batch|
  {
    Ids(r.batch[..r.sent])
  }

  function FailedId(r: Relay): Option<nat> {
    if r.failed && r.sent < |r.batch| then Some(r.batch[r.sent].id) else None
  }

  function NewRow(step: DbStep): Row
    requires step.Place?
  {
    Row(step.rowId, step.createdAt, BuildOrderPlaced(step.data, step.occurredAt), None, 0)
  }

  function DbNext(db: Db, step: DbStep): Db
    requires DbEnabled(db, step)
  {
    match step
    case Tick(d) => db.(now := db.now + d)
    case Place(data, rowId, _, _) =>
      db.(orders := db.orders + {data.orderId},
          usedIds := db.usedIds + {rowId},
          outbox := InsertRow(db.outbox, NewRow(step)))
    case Claim(k, since, limit) =>
      db.(relays := db.relays[k :=
            Relay(db.now, SelectBatch(db.outbox, LockedIds(db.relays), since, limit), 0, false, false)])
    case Publish(k, outcome) =>
      var r := db.relays[k];
      if outcome == Confirmed then
        db.(relays := db.relays[k := r.(sent := r.sent + 1)], published := db.published + [r.batch[r.sent].id])
      else
        db.(relays := db.relays[k := r.(failed := true)])
    case Mark(k) => db.(relays := db.relays[k := db.relays[k].(marked := true)])
    case CommitRelay(k) =>
      var r := db.relays[k];
      db.(outbox := MarkRows(db.outbox, SentIds(r), FailedId(r), r.startedAt), relays := db.relays - {k})
    case KillRelay(k) => db.(relays := db.relays - {k})
    case DeleteOld => db.(outbox := CleanUp(db.outbox, db.now))
  }

  /** What a step of the producing side does to the broker. */
  function Accept(db: Db, step: DbStep, b: Broker): Broker
    requires DbEnabled(db, step)
  {
    if step.Publish? then
      var r := db.relays[step.relay];
      var body := Serialize(r.batch[r.sent].payload);
      match step.outcome
      case Confirmed => b.(queue := b.queue + multiset{Message(body, 0)})
      case Refused => b
      case TimedOut => b.(wire := b.wire + multiset{body})
    else b
  }

  // ---------------------------------------------------------------- consuming side

  predicate Carries(m: Message, id: string) {
    var p := ParseOrderPlaced(m.body);
    p.Some? && p.value.eventId == id
  }

  /** The delivery's open transaction has inserted the inbox row `id`. */
  predicate Holds(h: Handler, id: string) {
    (h.stage == Claimed || h.stage == Written) && Carries(h.msg, id)
  }

  predicate AtStage(b: Broker, k: nat, stage: Stage) {
    k in b.handlers && b.handlers[k].stage == stage && ParseOrderPlaced(b.handlers[k].msg.body).Some?
  }

  function HandlerEvent(b: Broker, k: nat): Parsed
    requires k in b.handlers && ParseOrderPlaced(b.handlers[k].msg.body).Some?
  {
    ParseOrderPlaced(b.handlers[k].msg.body).value
  }

  ghost predicate ConsumeEnabled(b: Broker, step: BrokerStep) {
    match step
    case LateStore(body) => body in b.wire
    case LateLoss(body) => body in b.wire
    case Stray(body) => ParseOrderPlaced(body).None?
    case Deliver(k, m) => k !in b.handlers && m in b.queue
    case RejectPoison(k) => k in b.handlers && ParseOrderPlaced(b.handlers[k].msg.body).None?
    case InsertInbox(k) =>
      // an uncommitted insert of the same key by another transaction makes this one wait
      AtStage(b, k, Received) &&
      forall j :: j in b.handlers && j != k ==> !Holds(b.handlers[j], HandlerEvent(b, k).eventId)
    case InsertEffect(k) => AtStage(b, k, Claimed)
    case CommitEffect(k) => AtStage(b, k, Written)
    case Notify(k) => AtStage(b, k, Committed)
    case Ack(k) => AtStage(b, k, Notified)
    case Return(k) => k in b.handlers
  }

  /** reject(requeue = true), a closed channel or a dead process: the broker takes the message
      back and dead-letters it once it has bounced too often. */
  function TakeBack(b: Broker, m: Message): Broker {
    var m' := Message(m.body, m.bounces + 1);
    if m'.bounces > DELIVERY_LIMIT then b.(dlq := b.dlq + multiset{m'}) else b.(queue := b.queue + multiset{m'})
  }

  function SetStage(b: Broker, k: nat, stage: Stage): Broker
    requires k in b.handlers
  {
    b.(handlers := b.handlers[k := Handler(b.handlers[k].msg, stage)])
  }

  ghost function BrokerNext(b: Broker, inbox: set<string>, step: BrokerStep): Broker
    requires ConsumeEnabled(b, step)
  {
    match step
    case LateStore(body) => b.(wire := b.wire - multiset{body}, queue := b.queue + multiset{Message(body, 0)})
    case LateLoss(body) => b.(wire := b.wire - multiset{body})
    case Stray(body) => b.(queue := b.queue + multiset{Message(body, 0)})
    case Deliver(k, m) => b.(queue := b.queue - multiset{m}, handlers := b.handlers[k := Handler(m, Received)])
    case RejectPoison(k) => b.(dlq := b.dlq + multiset{b.handlers[k].msg}, handlers := b.handlers - {k})
    case InsertInbox(k) => SetStage(b, k, if HandlerEvent(b, k).eventId in inbox then Committed else Claimed)
    case InsertEffect(k) => SetStage(b, k, Written)
    case CommitEffect(k) => SetStage(b, k, Committed)
    case Notify(k) => SetStage(b, k, Notified)
    case Ack(k) => b.(handlers := b.handlers - {k})
    case Return(k) => TakeBack(b.(handlers := b.handlers - {k}), b.handlers[k].msg)
  }

  ghost function StoreNext(b: Broker, st: Store, step: BrokerStep): Store
    requires ConsumeEnabled(b, step)
  {
    match step
    case CommitEffect(k) =>
      var p := HandlerEvent(b, k);
      st.(inbox := st.inbox + {p.eventId},
          effects := if p.eventId in st.effects then st.effects else st.effects[p.eventId := p.orderId],
          applied := st.applied + [p.eventId])
    case Notify(k) =>
      if st.tasksOn then st.(receipts := st.receipts + {ReceiptJobId(HandlerEvent(b, k).orderId)}) else st
    case _ => st
  }

  // ---------------------------------------------------------------- runs

  ghost predicate Enabled(s: State, step: Step) {
    match step
    case Produce(p) => DbEnabled(s.db, p)
    case Consume(c) => ConsumeEnabled(s.broker, c)
  }

  ghost function Apply(s: State, step: Step): State
    requires Enabled(s, step)
  {
    match step
    case Produce(p) => s.(db := DbNext(s.db, p), broker := Accept(s.db, p, s.broker))
    case Consume(c) =>
      s.(broker := BrokerNext(s.broker, s.store.inbox, c), store := StoreNext(s.broker, s.store, c))
  }

  function Init(tasksOn: bool, now: nat): State {
    State(Db(now, {}, {}, [], map[], []),
          Broker(multiset{}, multiset{}, multiset{}, map[]),
          Store(tasksOn, {}, map[], [], {}))
  }

  ghost predicate Runs(s: State, steps: seq<Step>)
    decreases |steps|
  {
    steps == [] || (Enabled(s, steps[0]) && Runs(Apply(s, steps[0]), steps[1..]))
  }

  ghost function Final(s: State, steps: seq<Step>): State
    requires Runs(s, steps)
    decreases |steps|
  {
    if steps == [] then s else Final(Apply(s, steps[0]), steps[1..])
  }

  lemma RunsCons(s: State, step: Step, rest: seq<Step>)
    requires Enabled(s, step) && Runs(Apply(s, step), rest)
    ensures Runs(s, [step] + rest) && Final(s, [step] + rest) == Final(Apply(s, step), rest)
  {
    assert ([step] + rest)[1..] == rest;
  }

  lemma {:induction false} RunsAppend(s: State, a: seq<Step>, b: seq<Step>)
    requires Runs(s, a) && Runs(Final(s, a), b)
    ensures Runs(s, a + b) && Final(s, a + b) == Final(Final(s, a), b)
    decreases |a|
  {
    if a == [] {
      assert a + b == b;
    } else {
      assert (a + b)[0] == a[0] && (a + b)[1..] == a[1..] + b;
      RunsAppend(Apply(s, a[0]), a[1..], b);
    }
  }

  // ---------------------------------------------------------------- invariant: producing side

  ghost predicate FromOrder(r: Row, orders: set<nat>) {
    r.payload.data.orderId in orders && r.payload == BuildOrderPlaced(r.payload.data, r.payload.occurredAt)
  }

  ghost predicate OutboxOk(outbox: seq<Row>, usedIds: set<nat>, orders: set<nat>) {
    && Sorted(outbox)
    && UniqueIds(outbox)
    && (forall r :: r in outbox ==> r.id in usedIds && FromOrder(r, orders))
  }

  /** A relay's locked rows are still in the table exactly as it read them. */
  ghost predicate RelayOk(outbox: seq<Row>, r: Relay) {
    && r.sent <= |r.batch|
    && (r.failed ==> r.sent < |r.batch|)
    && (r.marked ==> r.failed || r.sent == |r.batch|)
    && UniqueIds(r.batch)
    && (forall b :: b in r.batch ==> b in outbox && b.publishedAt.None?)
  }

  ghost predicate RelaysOk(outbox: seq<Row>, relays: map<nat, Relay>) {
    && (forall k :: k in relays ==> RelayOk(outbox, relays[k]))
    && (forall j, k :: j in relays && k in relays && j != k ==> Ids(relays[j].batch) !! Ids(relays[k].batch))
  }

  ghost predicate DbInv(db: Db) {
    OutboxOk(db.outbox, db.usedIds, db.orders) && RelaysOk(db.outbox, db.relays)
  }

  lemma MarkKeepsOrder(outbox: seq<Row>, sent: set<nat>, failed: Option<nat>, now: nat)
    requires Sorted(outbox) && UniqueIds(outbox)
    ensures Sorted(MarkRows(outbox, sent, failed, now)) && UniqueIds(MarkRows(outbox, sent, failed, now))
  {
    var marked := MarkRows(outbox, sent, failed, now);
    assert forall i :: 0 <= i < |outbox| ==> marked[i].id == outbox[i].id && marked[i].createdAt == outbox[i].createdAt;
  }

  lemma OutboxMark(outbox: seq<Row>, usedIds: set<nat>, orders: set<nat>, sent: set<nat>, failed: Option<nat>, now: nat)
    requires OutboxOk(outbox, usedIds, orders)
    ensures OutboxOk(MarkRows(outbox, sent, failed, now), usedIds, orders)
  {
    MarkKeepsOrder(outbox, sent, failed, now);
    MarkRowsMembers(outbox, sent, failed, now);
    forall m | m in MarkRows(outbox, sent, failed, now) ensures m.id in usedIds && FromOrder(m, orders) {
      var r :| r in outbox && m == MarkRow(r, sent, failed, now);
    }
  }

  lemma OutboxStep(db: Db, step: DbStep)
    requires OutboxOk(db.outbox, db.usedIds, db.orders) && DbEnabled(db, step)
    ensures var db' := DbNext(db, step); OutboxOk(db'.outbox, db'.usedIds, db'.orders)
  {
    match step {
      case Place(_, rowId, _, _) =>
        InsertRowMembers(db.outbox, NewRow(step));
        InsertRowOrder(db.outbox, NewRow(step));
      case CommitRelay(k) =>
        var r := db.relays[k];
        OutboxMark(db.outbox, db.usedIds, db.orders, SentIds(r), FailedId(r), r.startedAt);
      case DeleteOld => CleanUpMembers(db.outbox, db.now);
      case _ =>
    }
  }

  lemma RelaysCommit(db: Db, k: nat)
    requires DbInv(db) && DbEnabled(db, CommitRelay(k))
    ensures var db' := DbNext(db, CommitRelay(k)); RelaysOk(db'.outbox, db'.relays)
  {
    var r, db' := db.relays[k], DbNext(db, CommitRelay(k));
    var sent, failed := SentIds(r), FailedId(r);
    MarkRowsMembers(db.outbox, sent, failed, r.startedAt);
    assert sent <= Ids(r.batch) && (failed.Some? ==> failed.value in Ids(r.batch));
    forall j | j in db'.relays ensures RelayOk(db'.outbox, db'.relays[j]) {
      forall b | b in db.relays[j].batch ensures b in db'.outbox {
        assert b.id in Ids(db.relays[j].batch);
        assert MarkRow(b, sent, failed, r.startedAt) == b;
      }
    }
  }

  lemma RelaysClaim(db: Db, k: nat, since: nat, limit: nat)
    requires DbInv(db) && DbEnabled(db, Claim(k, since, limit))
    ensures var db' := DbNext(db, Claim(k, since, limit)); RelaysOk(db'.outbox, db'.relays)
  {
    var locked := LockedIds(db.relays);
    SelectBatchMembers(db.outbox, locked, since, limit);
    var batch := SelectBatch(db.outbox, locked, since, limit);
    forall j | j in db.relays ensures Ids(db.relays[j].batch) !! Ids(batch) {
      assert Ids(db.relays[j].batch) <= locked;
    }
  }

  /** Relays do not care about rows they have not locked. */
  lemma RelaysFrame(outbox: seq<Row>, outbox': seq<Row>, relays: map<nat, Relay>)
    requires RelaysOk(outbox, relays)
    requires forall r :: r in outbox && r.publishedAt.None? ==> r in outbox'
    ensures RelaysOk(outbox', relays)
  {
    forall k | k in relays ensures RelayOk(outbox', relays[k]) {
      assert RelayOk(outbox, relays[k]);
    }
  }

  lemma RelaysStep(db: Db, step: DbStep)
    requires DbInv(db) && DbEnabled(db, step)
    ensures var db' := DbNext(db, step); RelaysOk(db'.outbox, db'.relays)
  {
    var db' := DbNext(db, step);
    match step {
      case Place(_, _, _, _) =>
        InsertRowMembers(db.outbox, NewRow(step));
        RelaysFrame(db.outbox, db'.outbox, db.relays);
      case Claim(k, since, limit) => RelaysClaim(db, k, since, limit);
      case CommitRelay(k) => RelaysCommit(db, k);
      case DeleteOld =>
        CleanUpMembers(db.outbox, db.now);
        RelaysFrame(db.outbox, db'.outbox, db.relays);
      case _ =>
    }
  }

  // ---------------------------------------------------------------- invariant: consuming side

  /** Unreadable, or the serialized event of a committed order. */
  ghost predicate Genuine(b: Body, orders: set<nat>) {
    var p := ParseOrderPlaced(b);
    p.Some? ==>
      0 <= p.value.orderId && p.value.orderId in orders && p.value.eventId == EventId(p.value.orderId)
  }

  /** A message with body `x` is on the wire, queued, dead-lettered or being handled. */
  ghost predicate Known(b: Broker, x: Body) {
    || x in b.wire
    || (exists m :: m in b.queue && m.body == x)
    || (exists m :: m in b.dlq && m.body == x)
    || (exists k :: k in b.handlers && b.handlers[k].msg.body == x)
  }

  ghost predicate MessagesOk(b: Broker, orders: set<nat>) {
    forall x :: Known(b, x) ==> Genuine(x, orders)
  }

  /** Every copy that may still be delivered has been returned at most 3 times; what is dead is
      unreadable or has been returned a fourth time. */
  ghost predicate BouncesOk(b: Broker) {
    && (forall m :: m in b.queue ==> m.bounces <= 3)
    && (forall k :: k in b.handlers ==> b.handlers[k].msg.bounces <= 3)
    && (forall m :: m in b.dlq ==> m.bounces == 4 || ParseOrderPlaced(m.body).None?)
  }

  ghost predicate StoreOk(st: Store, orders: set<nat>) {
    && st.inbox == st.effects.Keys
    && (forall id :: id in st.effects ==>
          0 <= st.effects[id] && st.effects[id] in orders && id == EventId(st.effects[id]))
    && Distinct(st.applied)
    && (forall id :: id in st.applied <==> id in st.inbox)
  }

  ghost predicate HandlerOk(h: Handler, st: Store) {
    var p := ParseOrderPlaced(h.msg.body);
    && (h.stage != Received ==> p.Some?)
    && (h.stage == Claimed || h.stage == Written ==> p.value.eventId !in st.inbox)
    && (h.stage == Committed || h.stage == Notified ==> p.value.eventId in st.inbox)
    && (h.stage == Notified && st.tasksOn ==> ReceiptJobId(p.value.orderId) in st.receipts)
  }

  ghost predicate HandlersOk(handlers: map<nat, Handler>, st: Store) {
    && (forall k :: k in handlers ==> HandlerOk(handlers[k], st))
    && (forall j, k, id :: j in handlers && k in handlers && j != k && Holds(handlers[j], id) ==> !Holds(handlers[k], id))
  }

  ghost predicate ConsumerInv(b: Broker, st: Store, orders: set<nat>) {
    MessagesOk(b, orders) && BouncesOk(b) && StoreOk(st, orders) && HandlersOk(b.handlers, st)
  }

  lemma ReturnKnown(b: Broker, inbox: set<string>, k: nat, x: Body)
    requires ConsumeEnabled(b, Return(k)) && Known(BrokerNext(b, inbox, Return(k)), x)
    ensures Known(b, x)
  {
    assert b.handlers[k].msg.body == x || Known(b.(handlers := b.handlers - {k}), x);
  }

  /** Steps between the broker's own places. */
  lemma MovedKnown(b: Broker, inbox: set<string>, step: BrokerStep, x: Body)
    requires ConsumeEnabled(b, step) && Known(BrokerNext(b, inbox, step), x)
    requires step.LateStore? || step.LateLoss? || step.Stray?
    ensures Known(b, x) || step == Stray(x)
  {
    var b' := BrokerNext(b, inbox, step);
    assert b'.handlers == b.handlers && b'.dlq == b.dlq;
  }

  /** The consuming side moves messages about but never makes one up. */
  lemma NothingInvented(b: Broker, inbox: set<string>, step: BrokerStep, x: Body)
    requires ConsumeEnabled(b, step) && Known(BrokerNext(b, inbox, step), x)
    ensures Known(b, x) || step == Stray(x)
  {
    var b' := BrokerNext(b, inbox, step);
    if step.Return? {
      ReturnKnown(b, inbox, step.tag, x);
    } else if step.LateStore? || step.LateLoss? || step.Stray? {
      MovedKnown(b, inbox, step, x);
    } else if step.Deliver? {
      assert step.msg in b.queue;
    } else {
      assert b'.wire == b.wire && b'.queue == b.queue;
    }
  }

  /** A copy with body `x` is queued, dead-lettered or being handled. */
  ghost predicate Held(b: Broker, x: Body) {
    || (exists m :: m in b.queue && m.body == x)
    || (exists m :: m in b.dlq && m.body == x)
    || (exists k :: k in b.handlers && b.handlers[k].msg.body == x)
  }

  lemma DeliveryKept(b: Broker, inbox: set<string>, step: BrokerStep, k: nat)
    requires ConsumeEnabled(b, step) && k in b.handlers && step != Ack(k)
    ensures Held(BrokerNext(b, inbox, step), b.handlers[k].msg.body)
  {
    var b', m := BrokerNext(b, inbox, step), b.handlers[k].msg;
    if step == Return(k) {
      var m' := Message(m.body, m.bounces + 1);
      assert m' in b'.queue || m' in b'.dlq;
    } else if step == RejectPoison(k) {
      assert m in b'.dlq;
    } else {
      HandlerStays(b, inbox, step, k);
    }
  }

  lemma HandlerStays(b: Broker, inbox: set<string>, step: BrokerStep, k: nat)
    requires ConsumeEnabled(b, step) && k in b.handlers && step != Ack(k) && step != Return(k) && step != RejectPoison(k)
    ensures var handlers' := BrokerNext(b, inbox, step).handlers; k in handlers' && handlers'[k].msg == b.handlers[k].msg
  {
  }

  lemma StoredKept(b: Broker, inbox: set<string>, step: BrokerStep, m: Message)
    requires ConsumeEnabled(b, step) && (m in b.queue || m in b.dlq)
    ensures Held(BrokerNext(b, inbox, step), m.body)
  {
    var b' := BrokerNext(b, inbox, step);
    assert m in b'.queue || m in b'.dlq || (step.Deliver? && b'.handlers[step.tag].msg == m);
  }

  /** Nothing the broker has taken is dropped: a copy, readable or not, goes on being held,
      unless this very delivery is acknowledged, which poison never is. */
  lemma NothingDropped(b: Broker, inbox: set<string>, step: BrokerStep, x: Body)
    requires ConsumeEnabled(b, step) && Held(b, x)
    requires step.Ack? ==> b.handlers[step.tag].msg.body != x
    ensures Held(BrokerNext(b, inbox, step), x)
    ensures step.Ack? ==> ParseOrderPlaced(b.handlers[step.tag].msg.body).Some?
  {
    if m :| (m in b.queue || m in b.dlq) && m.body == x {
      StoredKept(b, inbox, step, m);
    } else {
      var k :| k in b.handlers && b.handlers[k].msg.body == x;
      DeliveryKept(b, inbox, step, k);
    }
  }

  lemma MessagesStep(b: Broker, inbox: set<string>, orders: set<nat>, step: BrokerStep)
    requires MessagesOk(b, orders) && ConsumeEnabled(b, step)
    ensures MessagesOk(BrokerNext(b, inbox, step), orders)
  {
    forall x | Known(BrokerNext(b, inbox, step), x) ensures Genuine(x, orders) {
      NothingInvented(b, inbox, step, x);
    }
  }

  lemma BouncesReturn(b: Broker, inbox: set<string>, k: nat)
    requires BouncesOk(b) && ConsumeEnabled(b, Return(k))
    ensures BouncesOk(BrokerNext(b, inbox, Return(k)))
  {
    assert b.handlers[k].msg.bounces <= 3;
  }

  lemma BouncesPoison(b: Broker, inbox: set<string>, k: nat)
    requires BouncesOk(b) && ConsumeEnabled(b, RejectPoison(k))
    ensures BouncesOk(BrokerNext(b, inbox, RejectPoison(k)))
  {
  }

  lemma BouncesStep(b: Broker, inbox: set<string>, step: BrokerStep)
    requires BouncesOk(b) && ConsumeEnabled(b, step)
    ensures BouncesOk(BrokerNext(b, inbox, step))
  {
    if step.Return? {
      BouncesReturn(b, inbox, step.tag);
    } else if step.RejectPoison? {
      BouncesPoison(b, inbox, step.tag);
    } else if step.LateStore? || step.LateLoss? || step.Stray? {
      BouncesArrive(b, inbox, step);
    } else {
      BouncesHandled(b, inbox, step);
    }
  }

  lemma BouncesArrive(b: Broker, inbox: set<string>, step: BrokerStep)
    requires BouncesOk(b) && ConsumeEnabled(b, step) && (step.LateStore? || step.LateLoss? || step.Stray?)
    ensures BouncesOk(BrokerNext(b, inbox, step))
  {
    var b' := BrokerNext(b, inbox, step);
    assert b'.dlq == b.dlq && b'.handlers == b.handlers;
  }

  lemma BouncesHandled(b: Broker, inbox: set<string>, step: BrokerStep)
    requires BouncesOk(b) && ConsumeEnabled(b, step)
    requires !step.Return? && !step.RejectPoison? && !step.LateStore? && !step.LateLoss? && !step.Stray?
    ensures BouncesOk(BrokerNext(b, inbox, step))
  {
    var b' := BrokerNext(b, inbox, step);
    assert b'.dlq == b.dlq && forall m :: m in b'.queue ==> m in b.queue;
  }

  /** What the relay publishes for a row is the event of the row's order. */
  lemma PublishedBody(row: Row, orders: set<nat>)
    requires FromOrder(row, orders)
    ensures Genuine(Serialize(row.payload), orders)
    ensures Carries(Message(Serialize(row.payload), 0), EventId(row.payload.data.orderId))
  {
    BuiltEventParses(row.payload.data, row.payload.occurredAt);
  }

  lemma AcceptStep(db: Db, b: Broker, step: DbStep)
    requires DbInv(db) && MessagesOk(b, db.orders) && DbEnabled(db, step)
    ensures MessagesOk(Accept(db, step, b), DbNext(db, step).orders)
  {
    var b' := Accept(db, step, b);
    if step.Publish? {
      var r := db.relays[step.relay];
      var row := r.batch[r.sent];
      assert row in r.batch;
      PublishedBody(row, db.orders);
      assert DbNext(db, step).orders == db.orders;
      forall x | Known(b', x) ensures Genuine(x, db.orders) {
        assert Known(b, x) || x == Serialize(row.payload);
      }
    } else {
      assert b' == b && db.orders <= DbNext(db, step).orders;
    }
  }

  lemma StoreStep(b: Broker, st: Store, orders: set<nat>, step: BrokerStep)
    requires ConsumerInv(b, st, orders) && ConsumeEnabled(b, step)
    ensures StoreOk(StoreNext(b, st, step), orders)
  {
    if step.CommitEffect? {
      assert Known(b, b.handlers[step.tag].msg.body);
      assert HandlerOk(b.handlers[step.tag], st);
    }
  }

  lemma HandlersCommit(b: Broker, st: Store, k: nat)
    requires HandlersOk(b.handlers, st) && ConsumeEnabled(b, CommitEffect(k))
    ensures HandlersOk(BrokerNext(b, st.inbox, CommitEffect(k)).handlers, StoreNext(b, st, CommitEffect(k)))
  {
    var b', st' := BrokerNext(b, st.inbox, CommitEffect(k)), StoreNext(b, st, CommitEffect(k));
    var id := HandlerEvent(b, k).eventId;
    assert Holds(b.handlers[k], id);
    forall j | j in b'.handlers ensures HandlerOk(b'.handlers[j], st') {
      if j != k { assert !Holds(b.handlers[j], id); }
    }
  }

  lemma HandlersStep(b: Broker, st: Store, step: BrokerStep)
    requires HandlersOk(b.handlers, st) && ConsumeEnabled(b, step)
    ensures HandlersOk(BrokerNext(b, st.inbox, step).handlers, StoreNext(b, st, step))
  {
    if step.CommitEffect? { HandlersCommit(b, st, step.tag); }
  }

  // ---------------------------------------------------------------- invariant: nothing is lost

  /** A copy of the event is queued, being handled, or dead-lettered. */
  ghost predicate InTransit(b: Broker, id: string) {
    || (exists m :: m in b.queue && Carries(m, id))
    || (exists m :: m in b.dlq && Carries(m, id))
    || (exists k :: k in b.handlers && Carries(b.handlers[k].msg, id))
  }

  /** The broker or the consumer side has taken responsibility for order `o`. */
  ghost predicate Safe(b: Broker, st: Store, o: nat) {
    || InTransit(b, EventId(o))
    || (EventId(o) in st.effects && (st.tasksOn ==> ReceiptJobId(o) in st.receipts))
  }

  ghost predicate Waiting(outbox: seq<Row>, o: nat) {
    exists r :: r in outbox && r.publishedAt.None? && r.payload.data.orderId == o
  }

  ghost predicate OrdersCovered(orders: set<nat>, outbox: seq<Row>, b: Broker, st: Store) {
    forall o :: o in orders ==> Waiting(outbox, o) || Safe(b, st, o)
  }

  ghost predicate MarkedSafe(outbox: seq<Row>, b: Broker, st: Store) {
    forall r :: r in outbox && r.publishedAt.Some? ==> Safe(b, st, r.payload.data.orderId)
  }

  ghost predicate SentSafe(relays: map<nat, Relay>, b: Broker, st: Store) {
    forall k, i :: k in relays && 0 <= i < relays[k].sent <= |relays[k].batch| ==>
      Safe(b, st, relays[k].batch[i].payload.data.orderId)
  }

  ghost predicate SafetyOk(s: State) {
    && OrdersCovered(s.db.orders, s.db.outbox, s.broker, s.store)
    && MarkedSafe(s.db.outbox, s.broker, s.store)
    && SentSafe(s.db.relays, s.broker, s.store)
  }

  ghost predicate Inv(s: State) {
    DbInv(s.db) && ConsumerInv(s.broker, s.store, s.db.orders) && SafetyOk(s)
  }

  /** An acknowledged delivery's order has its effect and, with a task queue, its receipt. */
  lemma AckedIsDone(b: Broker, st: Store, orders: set<nat>, o: nat, k: nat)
    requires ConsumerInv(b, st, orders) && AtStage(b, k, Notified) && Carries(b.handlers[k].msg, EventId(o))
    ensures EventId(o) in st.effects && (st.tasksOn ==> ReceiptJobId(o) in st.receipts)
  {
    var p := HandlerEvent(b, k);
    assert HandlerOk(b.handlers[k], st) && Known(b, b.handlers[k].msg.body);
    KeysInjective(o, p.orderId);
  }

  /** Short of an acknowledgement, a delivered copy goes on existing somewhere. */
  lemma CopyKept(b: Broker, inbox: set<string>, step: BrokerStep, id: string, k: nat)
    requires ConsumeEnabled(b, step) && step != Ack(k)
    requires k in b.handlers && Carries(b.handlers[k].msg, id)
    ensures InTransit(BrokerNext(b, inbox, step), id)
  {
    var b', m := BrokerNext(b, inbox, step), b.handlers[k].msg;
    if step == Return(k) {
      var m' := Message(m.body, m.bounces + 1);
      assert Carries(m', id) && (m' in b'.queue || m' in b'.dlq);
    } else {
      assert k in b'.handlers && b'.handlers[k].msg == m;
    }
  }

  lemma HandlerSafe(b: Broker, st: Store, orders: set<nat>, step: BrokerStep, o: nat, k: nat)
    requires ConsumerInv(b, st, orders) && ConsumeEnabled(b, step)
    requires k in b.handlers && Carries(b.handlers[k].msg, EventId(o))
    ensures Safe(BrokerNext(b, st.inbox, step), StoreNext(b, st, step), o)
  {
    if step == Ack(k) {
      AckedIsDone(b, st, orders, o, k);
    } else {
      CopyKept(b, st.inbox, step, EventId(o), k);
    }
  }

  lemma StoredCopyKept(b: Broker, inbox: set<string>, step: BrokerStep, id: string, m: Message)
    requires ConsumeEnabled(b, step) && (m in b.queue || m in b.dlq) && Carries(m, id)
    ensures InTransit(BrokerNext(b, inbox, step), id)
  {
    var b' := BrokerNext(b, inbox, step);
    assert m in b'.queue || m in b'.dlq || (step.Deliver? && b'.handlers[step.tag].msg == m);
  }

  /** Once somebody has taken responsibility for an order, no step of anybody gives it up. */
  lemma SafeStable(b: Broker, st: Store, orders: set<nat>, step: BrokerStep, o: nat)
    requires ConsumerInv(b, st, orders) && ConsumeEnabled(b, step) && Safe(b, st, o)
    ensures Safe(BrokerNext(b, st.inbox, step), StoreNext(b, st, step), o)
  {
    var id := EventId(o);
    if InTransit(b, id) {
      if m :| (m in b.queue || m in b.dlq) && Carries(m, id) {
        StoredCopyKept(b, st.inbox, step, id, m);
      } else {
        var k :| k in b.handlers && Carries(b.handlers[k].msg, id);
        HandlerSafe(b, st, orders, step, o, k);
      }
    }
  }

  lemma SafeAfterAccept(db: Db, b: Broker, st: Store, step: DbStep, o: nat)
    requires DbEnabled(db, step) && Safe(b, st, o)
    ensures Safe(Accept(db, step, b), st, o)
  {
    var b', id := Accept(db, step, b), EventId(o);
    if InTransit(b, id) {
      if m :| m in b.queue && Carries(m, id) { assert m in b'.queue; }
      else if m :| m in b.dlq && Carries(m, id) { assert m in b'.dlq; }
      else { assert b'.handlers == b.handlers; }
    }
  }

  /** The row a relay is about to mark as sent is, by identity, one the broker confirmed. */
  lemma SentRowIsSafe(s: State, k: nat, q: Row)
    requires DbInv(s.db) && SentSafe(s.db.relays, s.broker, s.store) && k in s.db.relays
    requires q in s.db.outbox && q.id in SentIds(s.db.relays[k])
    ensures Safe(s.broker, s.store, q.payload.data.orderId)
  {
    var relay := s.db.relays[k];
    var b :| b in relay.batch[..relay.sent] && b.id == q.id;
    var i :| 0 <= i < relay.sent && relay.batch[i] == b;
    assert b in relay.batch && b in s.db.outbox;
    assert b == q;
  }

  lemma MarkedRowIsSafe(s: State, k: nat, r: Row)
    requires DbInv(s.db) && MarkedSafe(s.db.outbox, s.broker, s.store) && SentSafe(s.db.relays, s.broker, s.store)
    requires DbEnabled(s.db, CommitRelay(k)) && r in DbNext(s.db, CommitRelay(k)).outbox && r.publishedAt.Some?
    ensures Safe(s.broker, s.store, r.payload.data.orderId)
  {
    var relay := s.db.relays[k];
    MarkRowsMembers(s.db.outbox, SentIds(relay), FailedId(relay), relay.startedAt);
    var q :| q in s.db.outbox && r == MarkRow(q, SentIds(relay), FailedId(relay), relay.startedAt);
    assert r.payload == q.payload;
    if q.id in SentIds(relay) { SentRowIsSafe(s, k, q); }
  }

  lemma PublishedRowIsSafe(s: State, step: DbStep, r: Row)
    requires DbInv(s.db) && SafetyOk(s) && DbEnabled(s.db, step)
    requires r in DbNext(s.db, step).outbox && r.publishedAt.Some?
    ensures Safe(s.broker, s.store, r.payload.data.orderId)
  {
    match step {
      case Place(_, _, _, _) => InsertRowMembers(s.db.outbox, NewRow(step));
      case CommitRelay(k) => MarkedRowIsSafe(s, k, r);
      case DeleteOld => CleanUpMembers(s.db.outbox, s.db.now);
      case _ =>
    }
  }

  /** An unsent row that a pass marks is one the broker confirmed. */
  lemma MarkedIsCovered(s: State, k: nat, r: Row)
    requires DbInv(s.db) && SentSafe(s.db.relays, s.broker, s.store)
    requires DbEnabled(s.db, CommitRelay(k)) && r in s.db.outbox && r.publishedAt.None?
    ensures var o := r.payload.data.orderId;
      Waiting(DbNext(s.db, CommitRelay(k)).outbox, o) || Safe(s.broker, s.store, o)
  {
    var relay := s.db.relays[k];
    MarkRowsMembers(s.db.outbox, SentIds(relay), FailedId(relay), relay.startedAt);
    var r' := MarkRow(r, SentIds(relay), FailedId(relay), relay.startedAt);
    assert r' in DbNext(s.db, CommitRelay(k)).outbox;
    if r'.publishedAt.Some? { SentRowIsSafe(s, k, r); }
  }

  lemma UnsentIsKept(db: Db, step: DbStep, r: Row)
    requires DbEnabled(db, step) && !step.CommitRelay? && r in db.outbox && r.publishedAt.None?
    ensures r in DbNext(db, step).outbox
  {
    match step {
      case Place(_, _, _, _) => InsertRowMembers(db.outbox, NewRow(step));
      case DeleteOld => CleanUpMembers(db.outbox, db.now);
      case _ =>
    }
  }

  lemma NewOrderWaits(db: Db, step: DbStep)
    requires DbEnabled(db, step) && step.Place?
    ensures Waiting(DbNext(db, step).outbox, step.data.orderId)
    ensures var row := NewRow(step);
      && row in DbNext(db, step).outbox
      && row.id == step.rowId && row.createdAt == step.createdAt && row.publishedAt == None && row.attempts == 0
      && row.payload.data == step.data && row.payload.occurredAt == step.occurredAt
  {
    InsertRowMembers(db.outbox, NewRow(step));
    assert NewRow(step) in DbNext(db, step).outbox;
  }

  lemma OrderIsCovered(s: State, step: DbStep, o: nat)
    requires DbInv(s.db) && SafetyOk(s) && DbEnabled(s.db, step) && o in DbNext(s.db, step).orders
    ensures Waiting(DbNext(s.db, step).outbox, o) || Safe(s.broker, s.store, o)
  {
    if o !in s.db.orders {
      NewOrderWaits(s.db, step);
    } else if Waiting(s.db.outbox, o) {
      var r :| r in s.db.outbox && r.publishedAt.None? && r.payload.data.orderId == o;
      if step.CommitRelay? { MarkedIsCovered(s, step.relay, r); } else { UnsentIsKept(s.db, step, r); }
    }
  }

  lemma SentIsSafe(s: State, step: DbStep, k: nat, i: nat)
    requires DbInv(s.db) && SafetyOk(s) && DbEnabled(s.db, step)
    requires k in DbNext(s.db, step).relays
    requires i < DbNext(s.db, step).relays[k].sent <= |DbNext(s.db, step).relays[k].batch|
    ensures Safe(Accept(s.db, step, s.broker), s.store, DbNext(s.db, step).relays[k].batch[i].payload.data.orderId)
  {
    var row := DbNext(s.db, step).relays[k].batch[i];
    if k in s.db.relays && i < s.db.relays[k].sent {
      assert row == s.db.relays[k].batch[i];
      SafeAfterAccept(s.db, s.broker, s.store, step, row.payload.data.orderId);
    } else {
      assert step == Publish(k, Confirmed) && i == s.db.relays[k].sent;
      assert row in s.db.relays[k].batch && FromOrder(row, s.db.orders);
      PublishedBody(row, s.db.orders);
      assert Message(Serialize(row.payload), 0) in Accept(s.db, step, s.broker).queue;
    }
  }

  lemma SafetyProduce(s: State, step: DbStep)
    requires Inv(s) && DbEnabled(s.db, step)
    ensures SafetyOk(Apply(s, Produce(step)))
  {
    var s' := Apply(s, Produce(step));
    forall o | o in s'.db.orders ensures Waiting(s'.db.outbox, o) || Safe(s'.broker, s'.store, o) {
      OrderIsCovered(s, step, o);
      if Safe(s.broker, s.store, o) { SafeAfterAccept(s.db, s.broker, s.store, step, o); }
    }
    forall r | r in s'.db.outbox && r.publishedAt.Some? ensures Safe(s'.broker, s'.store, r.payload.data.orderId) {
      PublishedRowIsSafe(s, step, r);
      SafeAfterAccept(s.db, s.broker, s.store, step, r.payload.data.orderId);
    }
    forall k, i | k in s'.db.relays && 0 <= i < s'.db.relays[k].sent <= |s'.db.relays[k].batch|
      ensures Safe(s'.broker, s'.store, s'.db.relays[k].batch[i].payload.data.orderId) { SentIsSafe(s, step, k, i); }
  }

  lemma SafetyConsume(s: State, step: BrokerStep)
    requires Inv(s) && ConsumeEnabled(s.broker, step)
    ensures SafetyOk(Apply(s, Consume(step)))
  {
    var s' := Apply(s, Consume(step));
    forall o: nat | Safe(s.broker, s.store, o) ensures Safe(s'.broker, s'.store, o) {
      SafeStable(s.broker, s.store, s.db.orders, step, o);
    }
  }

  /** The producing side leaves deliveries and tables of the consuming side alone. */
  lemma ConsumerKept(db: Db, b: Broker, st: Store, p: DbStep)
    requires DbInv(db) && ConsumerInv(b, st, db.orders) && DbEnabled(db, p)
    ensures ConsumerInv(Accept(db, p, b), st, DbNext(db, p).orders)
  {
    AcceptStep(db, b, p);
    assert Accept(db, p, b).handlers == b.handlers;
    assert db.orders <= DbNext(db, p).orders;
  }

  lemma InvProduce(s: State, p: DbStep)
    requires Inv(s) && DbEnabled(s.db, p)
    ensures Inv(s.(db := DbNext(s.db, p), broker := Accept(s.db, p, s.broker)))
  {
    OutboxStep(s.db, p);
    RelaysStep(s.db, p);
    ConsumerKept(s.db, s.broker, s.store, p);
    SafetyProduce(s, p);
  }

  lemma InvConsume(s: State, c: BrokerStep)
    requires Inv(s) && ConsumeEnabled(s.broker, c)
    ensures Inv(s.(broker := BrokerNext(s.broker, s.store.inbox, c), store := StoreNext(s.broker, s.store, c)))
  {
    MessagesStep(s.broker, s.store.inbox, s.db.orders, c);
    BouncesStep(s.broker, s.store.inbox, c);
    StoreStep(s.broker, s.store, s.db.orders, c);
    HandlersStep(s.broker, s.store, c);
    SafetyConsume(s, c);
  }

  lemma InvStep(s: State, step: Step)
    requires Inv(s) && Enabled(s, step)
    ensures Inv(Apply(s, step))
  {
    match step {
      case Produce(p) => InvProduce(s, p);
      case Consume(c) => InvConsume(s, c);
    }
  }

  lemma {:induction false} InvRun(s: State, steps: seq<Step>)
    requires Inv(s) && Runs(s, steps)
    ensures Inv(Final(s, steps))
    decreases |steps|
  {
    if steps != [] {
      InvStep(s, steps[0]);
      InvRun(Apply(s, steps[0]), steps[1..]);
    }
  }
}
