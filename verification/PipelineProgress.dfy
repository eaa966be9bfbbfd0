/** The pipeline can always finish: from every reachable state, with no further failure, the
    relays send what is unsent and the consumers settle what is queued, and then every
    committed order has its effect and its receipt or lies in the dead-letter queue. */
module PipelineProgress {
  import opened Base
  import opened Events
  import opened Outbox
  import opened Pipeline
  import R = Relay

  /** Nothing fails in this step. */
  predicate Smooth(step: Step) {
    match step
    case Produce(p) => (p.Publish? && p.outcome == Confirmed) || p.Claim? || p.Mark? || p.CommitRelay?
    case Consume(c) => !c.Return? && !c.Stray? && !c.LateStore? && !c.LateLoss?
  }

  ghost predicate AllSmooth(steps: seq<Step>) {
    forall i :: 0 <= i < |steps| ==> Smooth(steps[i])
  }

  // ---------------------------------------------------------------- relays

  /** What an open pass still has to do when nothing fails any more. */
  function RestOf(r: Relay, k: nat): seq<Step>
    requires r.sent <= |r.batch|
  {
    if r.marked then [Produce(CommitRelay(k))] + []
    else (if r.failed then [] else R.Confirmations(k, |r.batch| - r.sent)) + R.EndSteps(k, R.Commits)
  }

  lemma SmoothAppend(a: seq<Step>, b: seq<Step>)
    requires AllSmooth(a) && AllSmooth(b)
    ensures AllSmooth(a + b)
  {
  }

  lemma SmoothRest(r: Relay, k: nat)
    requires r.sent <= |r.batch|
    ensures AllSmooth(RestOf(r, k))
  {
    if !r.marked && !r.failed {
      SmoothAppend(R.Confirmations(k, |r.batch| - r.sent), R.EndSteps(k, R.Commits));
    }
  }

  /** A pass that has not failed: the remaining publishes, then its end. */
  lemma FinishHealthy(s: State, k: nat)
    requires k in s.db.relays && !s.db.relays[k].marked && !s.db.relays[k].failed
    requires s.db.relays[k].sent <= |s.db.relays[k].batch|
    ensures var steps := RestOf(s.db.relays[k], k);
      && Runs(s, steps)
      && Final(s, steps).db.relays == s.db.relays - {k} && Final(s, steps).db.orders == s.db.orders
  {
    var n := |s.db.relays[k].batch| - s.db.relays[k].sent;
    R.PublishMany(s, k, n);
    R.ConfirmsMoveMark(s, k, n);
    var s1 := Final(s, R.Confirmations(k, n));
    assert s1.db.relays - {k} == s.db.relays - {k};
    R.EndRun(s1, k, R.Commits);
    RunsAppend(s, R.Confirmations(k, n), R.EndSteps(k, R.Commits));
  }

  lemma FinishRelay(s: State, k: nat)
    requires k in s.db.relays && RelayOk(s.db.outbox, s.db.relays[k])
    ensures var steps := RestOf(s.db.relays[k], k);
      && Runs(s, steps)
      && Final(s, steps).db.relays == s.db.relays - {k} && Final(s, steps).db.orders == s.db.orders
  {
    var r := s.db.relays[k];
    if r.marked {
      RunsCons(s, Produce(CommitRelay(k)), []);
    } else if r.failed {
      R.EndRun(s, k, R.Commits);
      assert RestOf(r, k) == R.EndSteps(k, R.Commits);
    } else {
      FinishHealthy(s, k);
    }
  }

  lemma {:induction false} FinishRelays(s: State) returns (steps: seq<Step>)
    requires Inv(s)
    ensures Runs(s, steps) && AllSmooth(steps) && Inv(Final(s, steps))
    ensures Final(s, steps).db.relays == map[] && Final(s, steps).db.orders == s.db.orders
    decreases |s.db.relays|
  {
    steps := [];
    if s.db.relays != map[] {
      var k :| k in s.db.relays;
      assert RelayOk(s.db.outbox, s.db.relays[k]);
      var first := RestOf(s.db.relays[k], k);
      FinishRelay(s, k);
      SmoothRest(s.db.relays[k], k);
      InvRun(s, first);
      assert (s.db.relays - {k}).Keys == s.db.relays.Keys - {k};
      var rest := FinishRelays(Final(s, first));
      RunsAppend(s, first, rest);
      SmoothAppend(first, rest);
      steps := first + rest;
    }
  }

  lemma {:induction false} NonePending(rows: seq<Row>)
    ensures R.Pending(rows) <= |rows|
    ensures R.Pending(rows) == 0 ==> forall r :: r in rows ==> r.publishedAt.Some?
    decreases |rows|
  {
    if rows != [] {
      NonePending(rows[1..]);
      assert rows == [rows[0]] + rows[1..];
    }
  }

  /** One pass over everything that is unsent. */
  function FullPass(s: State): seq<Step> {
    var n := |SelectBatch(s.db.outbox, {}, 0, |s.db.outbox|)|;
    R.Opening(0, 0, |s.db.outbox|, n) + (R.FailSteps(0, None) + R.EndSteps(0, R.Commits))
  }

  function Accepting(i: nat): Outcome { Confirmed }

  lemma SendAll(s: State)
    requires Inv(s) && s.db.relays == map[]
    ensures Runs(s, FullPass(s))
    ensures var s' := Final(s, FullPass(s));
      && s'.db.relays == map[] && s'.db.orders == s.db.orders
      && s'.db.outbox == MarkRows(s.db.outbox, Ids(SelectBatch(s.db.outbox, {}, 0, |s.db.outbox|)), None, s.db.now)
  {
    var batch := SelectBatch(s.db.outbox, {}, 0, |s.db.outbox|);
    assert LockedIds(s.db.relays) == {};
    assert batch[..|batch|] == batch;
    R.PassIsRun(s, 0, 0, |s.db.outbox|, Accepting, R.Commits);
  }

  lemma NothingUnsent(outbox: seq<Row>, now: nat)
    requires UniqueIds(outbox)
    ensures forall r :: r in MarkRows(outbox, Ids(SelectBatch(outbox, {}, 0, |outbox|)), None, now) ==> r.publishedAt.Some?
  {
    R.AcceptingPass(outbox, |outbox|, now);
    NonePending(outbox);
    NonePending(MarkRows(outbox, Ids(SelectBatch(outbox, {}, 0, |outbox|)), None, now));
  }

  lemma SmoothPass(s: State)
    ensures AllSmooth(FullPass(s))
  {
    var n := |SelectBatch(s.db.outbox, {}, 0, |s.db.outbox|)|;
    assert AllSmooth(R.Confirmations(0, n));
    SmoothAppend([Produce(Claim(0, 0, |s.db.outbox|))], R.Confirmations(0, n));
    SmoothAppend(R.Opening(0, 0, |s.db.outbox|, n), R.FailSteps(0, None) + R.EndSteps(0, R.Commits));
  }

  ghost predicate AllSent(outbox: seq<Row>) {
    forall r :: r in outbox ==> r.publishedAt.Some?
  }

  /** The producing side comes to rest. */
  lemma Produced(s: State) returns (steps: seq<Step>)
    requires Inv(s)
    ensures Runs(s, steps) && AllSmooth(steps)
    ensures AllSent(Final(s, steps).db.outbox) && Final(s, steps).db.orders == s.db.orders
  {
    var a := FinishRelays(s);
    var s1 := Final(s, a);
    SendAll(s1);
    NothingUnsent(s1.db.outbox, s1.db.now);
    RunsAppend(s, a, FullPass(s1));
    SmoothPass(s1);
    SmoothAppend(a, FullPass(s1));
    steps := a + FullPass(s1);
  }

  // ---------------------------------------------------------------- consumers

  /** The next step of a delivery when nothing fails. */
  function NextOf(h: Handler, k: nat): BrokerStep {
    if ParseOrderPlaced(h.msg.body).None? then RejectPoison(k)
    else match h.stage
      case Received => InsertInbox(k)
      case Claimed => InsertEffect(k)
      case Written => CommitEffect(k)
      case Committed => Notify(k)
      case Notified => Ack(k)
  }

  function Rank(stage: Stage): nat {
    match stage
    case Received => 5
    case Claimed => 4
    case Written => 3
    case Committed => 2
    case Notified => 1
  }

  /** No other delivery holds the inbox row that delivery k is about to insert. */
  ghost predicate Free(b: Broker, k: nat) {
    AtStage(b, k, Received) ==>
      forall j :: j in b.handlers && j != k ==> !Holds(b.handlers[j], HandlerEvent(b, k).eventId)
  }

  ghost predicate SettledAway(s: State, s': State, k: nat) {
    && s'.broker.handlers == s.broker.handlers - {k}
    && s'.broker.queue == s.broker.queue && s'.db == s.db
  }

  lemma {:induction false} FinishHandler(s: State, k: nat) returns (steps: seq<Step>)
    requires k in s.broker.handlers && Free(s.broker, k)
    ensures Runs(s, steps) && AllSmooth(steps) && SettledAway(s, Final(s, steps), k)
    decreases Rank(s.broker.handlers[k].stage)
  {
    var h := s.broker.handlers[k];
    var step := Consume(NextOf(h, k));
    var s1 := Apply(s, step);
    if k in s1.broker.handlers {
      var rest := FinishHandler(s1, k);
      RunsCons(s, step, rest);
      steps := [step] + rest;
      assert s1.broker.handlers - {k} == s.broker.handlers - {k};
    } else {
      RunsCons(s, step, []);
      steps := [step] + [];
    }
  }

  /** Some delivery is not waiting for another. */
  lemma SomeoneIsFree(b: Broker) returns (k: nat)
    requires b.handlers != map[]
    ensures k in b.handlers && Free(b, k)
  {
    if j :| j in b.handlers && (b.handlers[j].stage == Claimed || b.handlers[j].stage == Written) {
      k := j;
    } else {
      k :| k in b.handlers;
    }
  }

  lemma {:induction false} FinishHandlers(s: State) returns (steps: seq<Step>)
    ensures Runs(s, steps) && AllSmooth(steps)
    ensures var s' := Final(s, steps);
      s'.broker.handlers == map[] && s'.broker.queue == s.broker.queue && s'.db == s.db
    decreases |s.broker.handlers|
  {
    steps := [];
    if s.broker.handlers != map[] {
      var k := SomeoneIsFree(s.broker);
      var first := FinishHandler(s, k);
      assert (s.broker.handlers - {k}).Keys == s.broker.handlers.Keys - {k};
      var rest := FinishHandlers(Final(s, first));
      RunsAppend(s, first, rest);
      steps := first + rest;
    }
  }

  lemma {:induction false} DrainQueue(s: State) returns (steps: seq<Step>)
    requires s.broker.handlers == map[]
    ensures Runs(s, steps) && AllSmooth(steps)
    ensures var s' := Final(s, steps);
      s'.broker.handlers == map[] && s'.broker.queue == multiset{} && s'.db == s.db
    decreases |s.broker.queue|
  {
    steps := [];
    if s.broker.queue != multiset{} {
      var m :| m in s.broker.queue;
      var deliver := Consume(Deliver(0, m));
      var s1 := Apply(s, deliver);
      var handle := FinishHandler(s1, 0);
      assert s1.broker.handlers - {0} == map[];
      var rest := DrainQueue(Final(s1, handle));
      RunsAppend(s1, handle, rest);
      RunsCons(s, deliver, handle + rest);
      steps := [deliver] + (handle + rest);
    }
  }

  // ---------------------------------------------------------------- theorem

  ghost predicate DeadLettered(b: Broker, o: nat) {
    exists m :: m in b.dlq && Carries(m, EventId(o))
  }

  /** The consuming side comes to rest. */
  lemma Consumed(s: State) returns (steps: seq<Step>)
    ensures Runs(s, steps) && AllSmooth(steps)
    ensures var s' := Final(s, steps);
      s'.broker.handlers == map[] && s'.broker.queue == multiset{} && s'.db == s.db
  {
    var c := FinishHandlers(s);
    var d := DrainQueue(Final(s, c));
    RunsAppend(s, c, d);
    steps := c + d;
  }

  /** With both sides at rest, every order has arrived. */
  lemma AtRest(s: State, o: nat)
    requires Inv(s) && o in s.db.orders
    requires s.broker.handlers == map[] && s.broker.queue == multiset{} && AllSent(s.db.outbox)
    ensures || DeadLettered(s.broker, o)
            || (EventId(o) in s.store.effects && (s.store.tasksOn ==> ReceiptJobId(o) in s.store.receipts))
  {
    assert Waiting(s.db.outbox, o) || Safe(s.broker, s.store, o);
  }

  /** From every reachable state some continuation without any failure takes every order
      committed so far to its effect and receipt, unless it lies in the dead-letter queue. */
  lemma EveryOrderCanSettle(tasksOn: bool, now: nat, steps: seq<Step>) returns (more: seq<Step>)
    requires Runs(Init(tasksOn, now), steps)
    ensures var s := Final(Init(tasksOn, now), steps);
      && Runs(s, more) && AllSmooth(more)
      && var s' := Final(s, more);
      && s'.db.orders == s.db.orders
      && forall o :: o in s.db.orders ==>
           || DeadLettered(s'.broker, o)
           || (EventId(o) in s'.store.effects && (s'.store.tasksOn ==> ReceiptJobId(o) in s'.store.receipts))
  {
    InvRun(Init(tasksOn, now), steps);
    var s := Final(Init(tasksOn, now), steps);
    var a := Produced(s);
    var b := Consumed(Final(s, a));
    RunsAppend(s, a, b);
    more := a + b;
    InvRun(s, more);
    forall o | o in s.db.orders
      ensures var s' := Final(s, more);
        || DeadLettered(s'.broker, o)
        || (EventId(o) in s'.store.effects && (s'.store.tasksOn ==> ReceiptJobId(o) in s'.store.receipts))
    {
      AtRest(Final(s, more), o);
    }
  }
}
