/** `applyOrderPlacedEffect` and `handleMessage` (src/messaging/consumer.ts, with the
    transaction wrapper of src/messaging/pg-store.ts and the receipt queue of
    src/queue/order-tasks.ts) as imperative code, tied to the protocol steps of Pipeline. */
module Consumer {
  import opened Base
  import opened Events
  import opened Pipeline

  datatype Settlement = Acked | Rejected(requeue: bool)

  datatype Outcome = AckedNew | Skipped | Dead | Requeued | Failed

  /** What can go wrong around one delivery: the transaction may fail, the demo hook may ask
      for a requeue, enqueueing the receipt may fail. */
  datatype Faults = Faults(commits: bool, hookRequeues: bool, enqueues: bool)

  /** The consumer's tables after the effect transaction of `p` commits. */
  function WithEffect(st: Store, p: Parsed): Store {
    if p.eventId in st.inbox then st
    else st.(inbox := st.inbox + {p.eventId},
             effects := if p.eventId in st.effects then st.effects else st.effects[p.eventId := p.orderId],
             applied := st.applied + [p.eventId])
  }

  function WithReceipt(st: Store, p: Parsed): Store {
    if st.tasksOn then st.(receipts := st.receipts + {ReceiptJobId(p.orderId)}) else st
  }

  /** Tables and settlement after one delivery, fault by fault. */
  function Handled(st: Store, body: Body, f: Faults): (Store, Settlement) {
    match ParseOrderPlaced(body)
    case None => (st, Rejected(false))
    case Some(p) =>
      if !f.commits then (st, Rejected(true))
      else if f.hookRequeues || !f.enqueues then (WithEffect(st, p), Rejected(true))
      else (WithReceipt(WithEffect(st, p), p), Acked)
  }

  class Tables {
    var st: Store

    constructor (tasksOn: bool)
      ensures st == Store(tasksOn, {}, map[], [], {})
    {
      st := Store(tasksOn, {}, map[], [], {});
    }

    /** One transaction; None stands for a thrown error after ROLLBACK. */
    method ApplyOrderPlacedEffect(p: Parsed, commits: bool) returns (applied: Option<bool>)
      modifies this
      ensures applied == (if commits then Some(p.eventId !in old(st.inbox)) else None)
      ensures st == (if commits then WithEffect(old(st), p) else old(st))
    {
      var tx := st;
      var inserted := p.eventId !in tx.inbox;
      if inserted {
        tx := tx.(inbox := tx.inbox + {p.eventId}, applied := tx.applied + [p.eventId]);
        if p.eventId !in tx.effects {
          tx := tx.(effects := tx.effects[p.eventId := p.orderId]);
        }
      }
      if !commits {
        return None;
      }
      st := tx;
      return Some(inserted);
    }

    /** `queue.add` with a job id: adding an id that is already there changes nothing. */
    method EnqueueReceipt(orderId: int, works: bool) returns (ok: bool)
      modifies this
      ensures ok == works
      ensures st == (if works && st.tasksOn then old(st).(receipts := old(st).receipts + {ReceiptJobId(orderId)}) else old(st))
    {
      if works && st.tasksOn {
        st := st.(receipts := st.receipts + {ReceiptJobId(orderId)});
      }
      ok := works;
    }

    /** One delivery, settled exactly once; an ack implies the effect and the receipt. */
    method HandleMessage(body: Body, f: Faults) returns (settlement: Settlement, outcome: Outcome)
      modifies this
      ensures (st, settlement) == Handled(old(st), body, f)
      ensures outcome ==
        (if ParseOrderPlaced(body).None? then Dead
         else if !f.commits then Failed
         else if f.hookRequeues then Requeued
         else if !f.enqueues then Failed
         else if ParseOrderPlaced(body).value.eventId in old(st.inbox) then Skipped
         else AckedNew)
      ensures settlement == (match outcome
                             case AckedNew => Acked
                             case Skipped => Acked
                             case Dead => Rejected(false)
                             case Requeued => Rejected(true)
                             case Failed => Rejected(true))
      ensures settlement == Acked ==>
        var p := ParseOrderPlaced(body).value;
        p.eventId in st.inbox && (st.tasksOn ==> ReceiptJobId(p.orderId) in st.receipts)
    {
      var event := ParseOrderPlaced(body);
      if event.None? {
        return Rejected(false), Dead;
      }
      var applied := ApplyOrderPlacedEffect(event.value, f.commits);
      if applied.None? {
        return Rejected(true), Failed;
      }
      if f.hookRequeues {
        return Rejected(true), Requeued;
      }
      var enqueued := EnqueueReceipt(event.value.orderId, f.enqueues);
      if !enqueued {
        return Rejected(true), Failed;
      }
      return Acked, if applied.value then AckedNew else Skipped;
    }
  }

  /** A delivery whose transaction commits; one that gets all the way to the ack. */
  predicate Commits(f: Faults) { f.commits }

  predicate GetsThrough(f: Faults) { f.commits && !f.hookRequeues && f.enqueues }

  /** However often and with whatever faults an event is delivered, the tables end up as after
      a single delivery: with effect and receipt if some delivery got through, with the
      effect alone if the best one only committed, and untouched if none did. */
  lemma {:induction false} RedeliveryIsIdempotent(st: Store, body: Body, faults: seq<Faults>)
    requires ParseOrderPlaced(body).Some?
    ensures var p := ParseOrderPlaced(body).value;
      Deliveries(st, body, faults) ==
        if exists f :: f in faults && GetsThrough(f) then WithReceipt(WithEffect(st, p), p)
        else if exists f :: f in faults && Commits(f) then WithEffect(st, p)
        else st
    decreases |faults|
  {
    var p := ParseOrderPlaced(body).value;
    if faults != [] {
      assert faults == [faults[0]] + faults[1..];
      RedeliveryIsIdempotent(Handled(st, body, faults[0]).0, body, faults[1..]);
      assert GetsThrough(faults[0]) ==> faults[0] in faults;
      assert Commits(faults[0]) ==> faults[0] in faults;
      assert WithEffect(WithEffect(st, p), p) == WithEffect(st, p);
    }
  }

  function Deliveries(st: Store, body: Body, faults: seq<Faults>): Store
    decreases |faults|
  {
    if faults == [] then st else Deliveries(Handled(st, body, faults[0]).0, body, faults[1..])
  }

  // ---------------------------------------------------------------- a delivery is a protocol run

  function EffectSteps(st: Store, p: Parsed, k: nat): seq<Step> {
    if p.eventId in st.inbox then [Consume(InsertInbox(k))] + []
    else [Consume(InsertInbox(k))] + ([Consume(InsertEffect(k))] + ([Consume(CommitEffect(k))] + []))
  }

  function SettleSteps(f: Faults, k: nat): seq<Step> {
    if f.hookRequeues || !f.enqueues then [Consume(Return(k))] + []
    else [Consume(Notify(k))] + ([Consume(Ack(k))] + [])
  }

  /** A transaction that fails after its first `done` statements, and the reject that follows;
      a duplicate has only the one statement. */
  function RollbackSteps(st: Store, p: Parsed, k: nat, done: nat): seq<Step> {
    if done == 0 || p.eventId in st.inbox then [Consume(Return(k))] + []
    else if done == 1 then [Consume(InsertInbox(k))] + ([Consume(Return(k))] + [])
    else [Consume(InsertInbox(k))] + ([Consume(InsertEffect(k))] + ([Consume(Return(k))] + []))
  }

  /** The broker without delivery k. */
  function Without(b: Broker, k: nat): Broker { b.(handlers := b.handlers - {k}) }

  /** The effect transaction alone. */
  lemma EffectIsRun(s: State, k: nat)
    requires ConsumeEnabled(s.broker, InsertInbox(k))
    ensures var p := HandlerEvent(s.broker, k);
      && Runs(s, EffectSteps(s.store, p, k))
      && Final(s, EffectSteps(s.store, p, k))
           == State(s.db, SetStage(s.broker, k, Committed), WithEffect(s.store, p))
  {
    var p := HandlerEvent(s.broker, k);
    var a, b, c := Consume(InsertInbox(k)), Consume(InsertEffect(k)), Consume(CommitEffect(k));
    var s1 := Apply(s, a);
    if p.eventId in s.store.inbox {
      RunsCons(s, a, []);
    } else {
      var s2 := Apply(s1, b);
      RunsCons(s2, c, []);
      RunsCons(s1, b, [c] + []);
      RunsCons(s, a, [b] + ([c] + []));
    }
  }

  /** Wherever the transaction fails, ROLLBACK and the reject leave the tables alone and give
      the message back to the broker. */
  lemma RollbackIsRun(s: State, k: nat, done: nat)
    requires ConsumeEnabled(s.broker, InsertInbox(k))
    ensures var steps := RollbackSteps(s.store, HandlerEvent(s.broker, k), k, done);
      Runs(s, steps) && Final(s, steps) == s.(broker := TakeBack(Without(s.broker, k), s.broker.handlers[k].msg))
  {
    var p := HandlerEvent(s.broker, k);
    var a, b, r := Consume(InsertInbox(k)), Consume(InsertEffect(k)), Consume(Return(k));
    if done == 0 || p.eventId in s.store.inbox {
      RunsCons(s, r, []);
    } else {
      var s1 := Apply(s, a);
      assert Without(s1.broker, k) == Without(s.broker, k);
      if done == 1 {
        RunsCons(s1, r, []);
        RunsCons(s, a, [r] + []);
      } else {
        var s2 := Apply(s1, b);
        assert Without(s2.broker, k) == Without(s.broker, k);
        RunsCons(s2, r, []);
        RunsCons(s1, b, [r] + []);
        RunsCons(s, a, [b] + ([r] + []));
      }
    }
  }

  lemma SettleIsRun(s: State, k: nat, f: Faults)
    requires AtStage(s.broker, k, Committed)
    ensures var p := HandlerEvent(s.broker, k);
      && Runs(s, SettleSteps(f, k))
      && Final(s, SettleSteps(f, k)) ==
           if f.hookRequeues || !f.enqueues then s.(broker := TakeBack(Without(s.broker, k), s.broker.handlers[k].msg))
           else State(s.db, Without(s.broker, k), WithReceipt(s.store, p))
  {
    if f.hookRequeues || !f.enqueues {
      RunsCons(s, Consume(Return(k)), []);
    } else {
      var n, a := Consume(Notify(k)), Consume(Ack(k));
      var s1 := Apply(s, n);
      assert Without(s1.broker, k) == Without(s.broker, k);
      RunsCons(s1, a, []);
      RunsCons(s, n, [a] + []);
    }
  }

  /** The protocol's steps for one delivery, fault by fault. */
  function HandleSteps(st: Store, body: Body, k: nat, f: Faults, done: nat): seq<Step> {
    match ParseOrderPlaced(body)
    case None => [Consume(RejectPoison(k))] + []
    case Some(p) => if f.commits then EffectSteps(st, p, k) + SettleSteps(f, k) else RollbackSteps(st, p, k, done)
  }

  /** What the settlement does to the broker. */
  function Settled(b: Broker, k: nat, how: Settlement): Broker
    requires k in b.handlers
  {
    match how
    case Acked => Without(b, k)
    case Rejected(requeue) =>
      if requeue then TakeBack(Without(b, k), b.handlers[k].msg)
      else Without(b, k).(dlq := b.dlq + multiset{b.handlers[k].msg})
  }

  /** Every delivery, whatever goes wrong around it and after whichever statement, does to the
      tables and the queues what the protocol's steps do. */
  lemma HandlingIsRun(s: State, k: nat, f: Faults, done: nat)
    requires k in s.broker.handlers && s.broker.handlers[k].stage == Received
    requires ParseOrderPlaced(s.broker.handlers[k].msg.body).Some? ==> ConsumeEnabled(s.broker, InsertInbox(k))
    ensures var body := s.broker.handlers[k].msg.body;
      var steps := HandleSteps(s.store, body, k, f, done);
      var (st', settlement) := Handled(s.store, body, f);
      && Runs(s, steps)
      && Final(s, steps) == State(s.db, Settled(s.broker, k, settlement), st')
  {
    var parsed := ParseOrderPlaced(s.broker.handlers[k].msg.body);
    if parsed.None? {
      RunsCons(s, Consume(RejectPoison(k)), []);
    } else if f.commits {
      CommittedIsRun(s, k, f);
    } else {
      RollbackIsRun(s, k, done);
    }
  }

  lemma CommittedIsRun(s: State, k: nat, f: Faults)
    requires ConsumeEnabled(s.broker, InsertInbox(k)) && f.commits
    ensures var p := HandlerEvent(s.broker, k);
      var steps := EffectSteps(s.store, p, k) + SettleSteps(f, k);
      var (st', settlement) := Handled(s.store, s.broker.handlers[k].msg.body, f);
      && Runs(s, steps)
      && Final(s, steps) == State(s.db, Settled(s.broker, k, settlement), st')
  {
    var effect := EffectSteps(s.store, HandlerEvent(s.broker, k), k);
    EffectIsRun(s, k);
    var mid := Final(s, effect);
    SettleIsRun(mid, k, f);
    RunsAppend(s, effect, SettleSteps(f, k));
    assert Without(mid.broker, k) == Without(s.broker, k);
  }
}
