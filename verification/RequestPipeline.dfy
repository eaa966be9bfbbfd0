/** Idempotent order requests and the event pipeline over one database: the COMMIT of a
    request is the moment its order and its outbox row appear to the relays. */
module RequestPipeline {
  import opened Events
  import Orders
  import I = Idempotency
  import P = Pipeline

  datatype State = State(requests: I.State, pipe: P.State)

  datatype Step =
    | Request(step: I.Step, rowId: nat, createdAt: nat)
    | Pipe(move: P.Step)

  ghost predicate Enabled(s: State, step: Step) {
    match step
    case Request(c, rowId, createdAt) =>
      I.Enabled(s.requests, c) && (c.Commit? ==> rowId !in s.pipe.db.usedIds && createdAt <= s.pipe.db.now)
    case Pipe(m) => P.Enabled(s.pipe, m) && !(m.Produce? && m.p.Place?)
  }

  function Placing(event: OrderPlaced, step: Step): P.Step
    requires step.Request?
  {
    P.Produce(P.Place(event.data, step.rowId, step.createdAt, event.occurredAt))
  }

  ghost function Apply(s: State, step: Step): State
    requires Enabled(s, step)
  {
    match step
    case Pipe(m) => s.(pipe := P.Apply(s.pipe, m))
    case Request(c, _, _) =>
      var requests := I.Apply(s.requests, c);
      if c.Commit? && P.Enabled(s.pipe, Placing(s.requests.stages[c.r].event, step))
      then State(requests, P.Apply(s.pipe, Placing(s.requests.stages[c.r].event, step)))
      else s.(requests := requests)
  }

  ghost predicate Runs(s: State, steps: seq<Step>)
    decreases |steps|
  {
    steps == [] || (Enabled(s, steps[0]) && Runs(Apply(s, steps[0]), steps[1..]))
  }

  ghost function Final(s: State, steps: seq<Step>): State
    requires Runs(s, steps)
    decreases |steps|
  {
    if steps == [] then s else Final(Apply(s, steps[0]), steps[1..])
  }

  function Init(products: map<int, Orders.Price>, firstId: nat, tasksOn: bool, now: nat): State {
    State(I.Init(products, firstId), P.Init(tasksOn, now))
  }

  /** The pipeline knows exactly the committed orders. */
  ghost predicate Inv(s: State) {
    I.Inv(s.requests) && P.Inv(s.pipe) && s.pipe.db.orders == s.requests.db.orders.Keys
  }

  /** A commit places an order the pipeline has not seen; the row the relay will publish is the
      very event the request stored. */
  lemma CommitPlaces(s: State, step: Step)
    requires Inv(s) && Enabled(s, step) && step.Request? && step.step.Commit?
    ensures var event, s' := s.requests.stages[step.step.r].event, Apply(s, step);
      && P.Enabled(s.pipe, Placing(event, step))
      && s'.pipe == P.Apply(s.pipe, Placing(event, step))
      && P.NewRow(Placing(event, step).p).payload == event
      && s'.requests.db.outbox == s.requests.db.outbox + [event]
      && s'.pipe.db.orders == s'.requests.db.orders.Keys
  {
    var r := step.step.r;
    var g := s.requests.stages[r];
    assert I.StageOk(g, s.requests.calls[r], r, s.requests.db.keys, s.requests.origin, s.requests.db.nextOrderId);
  }

  lemma OtherStepsPlaceNothing(s: I.State, c: I.Step)
    requires I.Enabled(s, c) && !c.Commit?
    ensures I.Apply(s, c).db.orders == s.db.orders
  {
  }

  lemma InvStep(s: State, step: Step)
    requires Inv(s) && Enabled(s, step)
    ensures Inv(Apply(s, step))
  {
    if step.Pipe? {
      P.InvStep(s.pipe, step.move);
    } else {
      I.InvStep(s.requests, step.step);
      if step.step.Commit? {
        CommitPlaces(s, step);
        P.InvStep(s.pipe, Placing(s.requests.stages[step.step.r].event, step));
      } else {
        OtherStepsPlaceNothing(s.requests, step.step);
      }
    }
  }

  lemma {:induction false} InvRun(s: State, steps: seq<Step>)
    requires Inv(s) && Runs(s, steps)
    ensures Inv(Final(s, steps))
    decreases |steps|
  {
    if steps != [] {
      InvStep(s, steps[0]);
      InvRun(Apply(s, steps[0]), steps[1..]);
    }
  }

  lemma AnsweredAtState(s: State, r: nat)
    requires Inv(s) && r < |s.requests.calls| && I.Succeeded(s.requests.stages[r])
    ensures var o := s.requests.stages[r].answer.orderId;
      o in s.requests.db.orders && (P.Waiting(s.pipe.db.outbox, o) || P.Safe(s.pipe.broker, s.pipe.store, o))
  {
    I.AnswerIsKeyed(s.requests, r);
  }

  lemma EffectsAtState(s: State, id: string)
    requires Inv(s) && id in s.pipe.store.effects
    ensures s.pipe.store.effects[id] >= 0 && s.pipe.store.effects[id] in s.requests.db.orders
  {
    assert P.StoreOk(s.pipe.store, s.pipe.db.orders);
  }

  /** In every run of requests, relays, consumers and clean-ups, with any failures, the order of
      every successful answer is committed, and its event is unsent, in transit,
      dead-lettered, or has had its effect and receipt; and nothing else has an effect. */
  lemma AnsweredOrdersArrive(products: map<int, Orders.Price>, firstId: nat, tasksOn: bool, now: nat, steps: seq<Step>, r: nat)
    requires Runs(Init(products, firstId, tasksOn, now), steps)
    requires var s := Final(Init(products, firstId, tasksOn, now), steps).requests;
      |s.stages| == |s.calls| && r < |s.stages| && I.Succeeded(s.stages[r])
    ensures var s := Final(Init(products, firstId, tasksOn, now), steps);
      var o := s.requests.stages[r].answer.orderId;
      && o in s.requests.db.orders
      && (P.Waiting(s.pipe.db.outbox, o) || P.Safe(s.pipe.broker, s.pipe.store, o))
      && (forall id :: id in s.pipe.store.effects ==>
            s.pipe.store.effects[id] >= 0 && s.pipe.store.effects[id] in s.requests.db.orders)
  {
    InvRun(Init(products, firstId, tasksOn, now), steps);
    var s := Final(Init(products, firstId, tasksOn, now), steps);
    AnsweredAtState(s, r);
    forall id | id in s.pipe.store.effects
      ensures s.pipe.store.effects[id] >= 0 && s.pipe.store.effects[id] in s.requests.db.orders
    {
      EffectsAtState(s, id);
    }
  }
}
