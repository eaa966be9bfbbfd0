/** Checkouts and the event pipeline over one database: the COMMIT of a checkout is the moment
    its order and its outbox row appear to the relays. */
module CheckoutPipeline {
  import opened Events
  import CC = ConcurrentCheckout
  import Checkout
  import P = Pipeline

  datatype State = State(shop: CC.State, pipe: P.State)

  /** A statement of a checkout, with the id and time the outbox row gets if it is the COMMIT;
      or anything that happens in the pipeline apart from new orders. */
  datatype Step =
    | Shop(step: CC.Step, rowId: nat, createdAt: nat, occurredAt: string)
    | Pipe(move: P.Step)

  ghost predicate Enabled(s: State, step: Step) {
    match step
    case Shop(c, rowId, createdAt, _) =>
      CC.Enabled(s.shop, c) && (c.Commit? ==> rowId !in s.pipe.db.usedIds && createdAt <= s.pipe.db.now)
    case Pipe(m) => P.Enabled(s.pipe, m) && !(m.Produce? && m.p.Place?)
  }

  /** The order that the COMMIT of an open checkout places. */
  function Placing(tx: CC.Tx, step: Step): P.Step
    requires step.Shop?
  {
    P.Produce(P.Place(Checkout.EventRow(tx.orderId, tx.req, tx.price, tx.email), step.rowId, step.createdAt, step.occurredAt))
  }

  ghost function Apply(s: State, step: Step): State
    requires Enabled(s, step)
  {
    match step
    case Pipe(m) => s.(pipe := P.Apply(s.pipe, m))
    case Shop(c, _, _, _) =>
      var shop := CC.Apply(s.shop, c);
      if c.Commit? && P.Enabled(s.pipe, Placing(s.shop.open[c.t], step))
      then State(shop, P.Apply(s.pipe, Placing(s.shop.open[c.t], step)))
      else s.(shop := shop)
  }

  ghost predicate Runs(s: State, steps: seq<Step>)
    decreases |steps|
  {
    steps == [] || (Enabled(s, steps[0]) && Runs(Apply(s, steps[0]), steps[1..]))
  }

  ghost function Final(s: State, steps: seq<Step>): State
    requires Runs(s, steps)
    decreases |steps|
  {
    if steps == [] then s else Final(Apply(s, steps[0]), steps[1..])
  }

  function Init(shop: Checkout.Shop, firstId: nat, tasksOn: bool, now: nat): State {
    State(CC.Init(shop, firstId), P.Init(tasksOn, now))
  }

  function Placed(log: seq<(Checkout.Request, nat)>): set<nat> { set e | e in log :: e.1 }

  ghost predicate HasOrder(orders: seq<Checkout.Order>, o: nat) {
    exists i :: 0 <= i < |orders| && orders[i].id == o
  }

  /** The pipeline knows exactly the orders of the checkouts that have committed. */
  ghost predicate Inv(s: State) {
    && CC.Inv(s.shop) && P.Inv(s.pipe)
    && s.pipe.db.orders == Placed(s.shop.log)
    && forall o :: o in s.pipe.db.orders ==> HasOrder(s.shop.shop.orders, o)
  }

  /** A commit places an order the pipeline has not seen, with the event row it stores. */
  lemma CommitPlaces(s: State, step: Step)
    requires Inv(s) && Enabled(s, step) && step.Shop? && step.step.Commit?
    ensures var tx, s' := s.shop.open[step.step.t], Apply(s, step);
      && P.Enabled(s.pipe, Placing(tx, step))
      && s'.pipe == P.Apply(s.pipe, Placing(tx, step))
      && s'.shop.shop.outbox == s.shop.shop.outbox + [Placing(tx, step).p.data]
      && s'.pipe.db.orders == s.pipe.db.orders + {tx.orderId}
  {
    var tx := s.shop.open[step.step.t];
    assert tx.orderId in s.pipe.db.orders ==> HasOrder(s.shop.shop.orders, tx.orderId);
  }

  lemma OrdersKept(s: CC.State, c: CC.Step, o: nat)
    requires CC.Enabled(s, c) && HasOrder(s.shop.orders, o)
    ensures HasOrder(CC.Apply(s, c).shop.orders, o)
  {
    var i :| 0 <= i < |s.shop.orders| && s.shop.orders[i].id == o;
    assert CC.Apply(s, c).shop.orders[i].id == o;
  }

  lemma CommitHasOrders(s: State, step: Step, o: nat)
    requires Inv(s) && Enabled(s, step) && step.Shop? && step.step.Commit?
    requires o in s.pipe.db.orders || o == s.shop.open[step.step.t].orderId
    ensures HasOrder(CC.Apply(s.shop, step.step).shop.orders, o)
  {
    if o in s.pipe.db.orders {
      OrdersKept(s.shop, step.step, o);
    } else {
      assert CC.Apply(s.shop, step.step).shop.orders[|s.shop.shop.orders|].id == o;
    }
  }

  lemma PlacedSnoc(log: seq<(Checkout.Request, nat)>, e: (Checkout.Request, nat))
    ensures Placed(log + [e]) == Placed(log) + {e.1}
  {
    assert forall x :: x in log + [e] <==> x in log || x == e;
  }

  lemma CommitKeeps(s: State, step: Step)
    requires Inv(s) && Enabled(s, step) && step.Shop? && step.step.Commit?
    ensures Inv(Apply(s, step))
  {
    var c, s' := step.step, Apply(s, step);
    var tx := s.shop.open[c.t];
    CommitPlaces(s, step);
    CC.InvStep(s.shop, c);
    P.InvStep(s.pipe, Placing(tx, step));
    PlacedSnoc(s.shop.log, (tx.req, tx.orderId));
    forall o | o in s'.pipe.db.orders ensures HasOrder(s'.shop.shop.orders, o) {
      CommitHasOrders(s, step, o);
    }
  }

  lemma InvStep(s: State, step: Step)
    requires Inv(s) && Enabled(s, step)
    ensures Inv(Apply(s, step))
  {
    if step.Pipe? {
      P.InvStep(s.pipe, step.move);
    } else if step.step.Commit? {
      CommitKeeps(s, step);
    } else {
      CC.InvStep(s.shop, step.step);
      forall o | o in s.pipe.db.orders ensures HasOrder(CC.Apply(s.shop, step.step).shop.orders, o) {
        OrdersKept(s.shop, step.step, o);
      }
    }
  }

  lemma {:induction false} InvRun(s: State, steps: seq<Step>)
    requires Inv(s) && Runs(s, steps)
    ensures Inv(Final(s, steps))
    decreases |steps|
  {
    if steps != [] {
      InvStep(s, steps[0]);
      InvRun(Apply(s, steps[0]), steps[1..]);
    }
  }

  /** From click to receipt: in every run of checkouts, relays, consumers and clean-ups, with
      any failures, each committed checkout has its order in the table, and its event is
      unsent, in transit, dead-lettered, or has had its effect and receipt; and nothing else
      has an effect. */
  lemma CommittedCheckoutsArrive(shop: Checkout.Shop, firstId: nat, tasksOn: bool, now: nat, steps: seq<Step>)
    requires CC.FreshIds(shop, firstId) && Runs(Init(shop, firstId, tasksOn, now), steps)
    ensures var s := Final(Init(shop, firstId, tasksOn, now), steps);
      && (forall o :: o in Placed(s.shop.log) ==>
            && HasOrder(s.shop.shop.orders, o)
            && (P.Waiting(s.pipe.db.outbox, o) || P.Safe(s.pipe.broker, s.pipe.store, o)))
      && (forall id :: id in s.pipe.store.effects ==>
            && s.pipe.store.effects[id] >= 0 && s.pipe.store.effects[id] in Placed(s.shop.log)
            && id == EventId(s.pipe.store.effects[id]))
  {
    InvRun(Init(shop, firstId, tasksOn, now), steps);
  }
}
