/** What holds in every reachable state of the pipeline.  A run is an arbitrary sequence of
    steps of any number of relays and consumers, with crashes, timeouts, late stores and
    clean-ups anywhere; every prefix of a run is a run, so a claim about the final state of
    every run is a claim about every reachable state. */
module PipelineTheorems {
  import opened Base
  import opened Events
  import opened Outbox
  import opened Pipeline

  lemma InitInv(tasksOn: bool, now: nat)
    ensures Inv(Init(tasksOn, now))
  {
  }

  /** No event is lost: a committed order has an unsent outbox row, or a copy of its event is
      queued, being handled or dead-lettered, or its effect is committed and, where a task
      queue is configured, its receipt job has been enqueued. */
  lemma NoEventLost(tasksOn: bool, now: nat, steps: seq<Step>)
    requires Runs(Init(tasksOn, now), steps)
    ensures var s := Final(Init(tasksOn, now), steps);
      forall o :: o in s.db.orders ==>
        || Waiting(s.db.outbox, o)
        || InTransit(s.broker, EventId(o))
        || (EventId(o) in s.store.effects && (s.store.tasksOn ==> ReceiptJobId(o) in s.store.receipts))
  {
    InitInv(tasksOn, now);
    InvRun(Init(tasksOn, now), steps);
  }

  /** Effects are exactly-once in result: no event is ever applied twice, the inbox row exists
      iff the effect row does, every effect belongs to the committed order its event id
      names, and no two effects belong to one order. */
  lemma EffectsAppliedOnce(tasksOn: bool, now: nat, steps: seq<Step>)
    requires Runs(Init(tasksOn, now), steps)
    ensures var s := Final(Init(tasksOn, now), steps);
      && Distinct(s.store.applied)
      && (forall id :: id in s.store.applied <==> id in s.store.effects)
      && s.store.inbox == s.store.effects.Keys
      && (forall id :: id in s.store.effects ==>
            0 <= s.store.effects[id] && s.store.effects[id] in s.db.orders && id == EventId(s.store.effects[id]))
      && (forall i, j :: i in s.store.effects && j in s.store.effects && s.store.effects[i] == s.store.effects[j] ==> i == j)
  {
    InitInv(tasksOn, now);
    InvRun(Init(tasksOn, now), steps);
  }

  /** Parallel skip-locked relays never hold a common row, and every row they hold is unsent. */
  lemma ClaimsDisjoint(tasksOn: bool, now: nat, steps: seq<Step>)
    requires Runs(Init(tasksOn, now), steps)
    ensures var s := Final(Init(tasksOn, now), steps);
      && (forall j, k :: j in s.db.relays && k in s.db.relays && j != k ==>
            Ids(s.db.relays[j].batch) !! Ids(s.db.relays[k].batch))
      && (forall k, r :: k in s.db.relays && r in s.db.relays[k].batch ==> r in s.db.outbox && r.publishedAt.None?)
  {
    InitInv(tasksOn, now);
    InvRun(Init(tasksOn, now), steps);
    var s := Final(Init(tasksOn, now), steps);
    forall k, r | k in s.db.relays && r in s.db.relays[k].batch ensures r in s.db.outbox && r.publishedAt.None? {
      assert RelayOk(s.db.outbox, s.db.relays[k]);
    }
  }

  /** A message is dead-lettered only if it is unreadable or has been returned four times, and
      every copy that can still be delivered has been returned at most three times. */
  lemma DeadLettersAreExplained(tasksOn: bool, now: nat, steps: seq<Step>)
    requires Runs(Init(tasksOn, now), steps)
    ensures var b := Final(Init(tasksOn, now), steps).broker;
      && (forall m :: m in b.dlq ==> m.bounces == 4 || ParseOrderPlaced(m.body).None?)
      && (forall m :: m in b.queue ==> m.bounces <= 3)
      && (forall k :: k in b.handlers ==> b.handlers[k].msg.bounces <= 3)
  {
    InitInv(tasksOn, now);
    InvRun(Init(tasksOn, now), steps);
  }

  /** Closing a pass turns exactly the confirmed prefix of its batch from unsent to sent, as of
      the start of the pass, counts one attempt for each row of that prefix and for the one
      that failed, and touches nothing else. */
  lemma PassMarksPrefix(db: Db, k: nat, i: nat)
    requires DbInv(db) && DbEnabled(db, CommitRelay(k)) && i < |db.outbox|
    ensures var r, row := db.relays[k], db.outbox[i];
      var row' := DbNext(db, CommitRelay(k)).outbox[i];
      var sent, failed := row in r.batch[..r.sent], r.failed && row == r.batch[r.sent];
      && (row.publishedAt.None? && row'.publishedAt.Some? <==> sent)
      && row'.publishedAt == (if sent then Some(r.startedAt) else row.publishedAt)
      && row'.attempts == row.attempts + (if sent || failed then 1 else 0)
      && (row'.id, row'.createdAt, row'.payload) == (row.id, row.createdAt, row.payload)
  {
    var r, row := db.relays[k], db.outbox[i];
    assert RelayOk(db.outbox, r) && row in db.outbox;
    forall j | 0 <= j < |r.batch| && r.batch[j].id == row.id ensures r.batch[j] == row {
      assert r.batch[j] in r.batch;
    }
    if row.id in SentIds(r) {
      var b :| b in r.batch[..r.sent] && b.id == row.id;
      var j :| 0 <= j < r.sent && r.batch[j] == b;
    }
    if row in r.batch[..r.sent] {
      assert row in r.batch;
    }
  }

  // ------------------------------------------------ failure-free runs publish exactly once

  ghost predicate CleanStep(step: Step) {
    match step
    case Produce(Publish(_, outcome)) => outcome == Confirmed
    case Produce(KillRelay(_)) => false
    case _ => true
  }

  /** Open relay `k` has had row `id` confirmed. */
  ghost predicate SentBy(relays: map<nat, Relay>, k: nat, id: nat) {
    k in relays && relays[k].sent <= |relays[k].batch| && id in SentIds(relays[k])
  }

  ghost predicate Sent(relays: map<nat, Relay>, id: nat) {
    exists k :: SentBy(relays, k, id)
  }

  /** A row has been published iff it is marked or in the confirmed prefix of an open pass. */
  ghost predicate PublishedOk(db: Db) {
    && Distinct(db.published)
    && (forall id :: id in db.published ==> id in db.usedIds)
    && RowsPublishedOk(db.outbox, db.published, db.relays)
    && UnpublishedKept(db.outbox, db.published, db.usedIds)
  }

  ghost predicate RowPublishedOk(r: Row, published: seq<nat>, relays: map<nat, Relay>) {
    r.id in published <==> r.publishedAt.Some? || Sent(relays, r.id)
  }

  ghost predicate RowsPublishedOk(outbox: seq<Row>, published: seq<nat>, relays: map<nat, Relay>) {
    forall r :: r in outbox ==> RowPublishedOk(r, published, relays)
  }

  ghost predicate HasRow(outbox: seq<Row>, id: nat) {
    exists r :: r in outbox && r.id == id
  }

  ghost predicate UnpublishedKept(outbox: seq<Row>, published: seq<nat>, usedIds: set<nat>) {
    forall id :: id in usedIds && id !in published ==> HasRow(outbox, id)
  }

  lemma PrefixGrows(r: Relay)
    requires UniqueIds(r.batch) && r.sent < |r.batch|
    ensures SentIds(r.(sent := r.sent + 1)) == SentIds(r) + {r.batch[r.sent].id}
    ensures r.batch[r.sent].id !in SentIds(r)
    ensures SentIds(r) <= Ids(r.batch)
  {
    assert r.batch[..r.sent + 1] == r.batch[..r.sent] + [r.batch[r.sent]];
  }

  lemma NextIsUnsent(db: Db, k: nat)
    requires DbInv(db) && DbEnabled(db, Publish(k, Confirmed))
    ensures !Sent(db.relays, db.relays[k].batch[db.relays[k].sent].id)
  {
    var r := db.relays[k];
    var next := r.batch[r.sent].id;
    assert RelayOk(db.outbox, r);
    PrefixGrows(r);
    assert r.batch[r.sent] in r.batch && next in Ids(r.batch);
    forall j ensures !SentBy(db.relays, j, next) {
      if j != k && j in db.relays { assert next !in Ids(db.relays[j].batch); }
    }
  }

  lemma SentAfterPublish(db: Db, k: nat, id: nat)
    requires DbInv(db) && DbEnabled(db, Publish(k, Confirmed))
    ensures Sent(DbNext(db, Publish(k, Confirmed)).relays, id)
      <==> Sent(db.relays, id) || id == db.relays[k].batch[db.relays[k].sent].id
  {
    var r, relays' := db.relays[k], DbNext(db, Publish(k, Confirmed)).relays;
    assert RelayOk(db.outbox, r);
    PrefixGrows(r);
    assert relays' == db.relays[k := r.(sent := r.sent + 1)];
    forall j ensures SentBy(relays', j, id) <==> SentBy(db.relays, j, id) || (j == k && id == r.batch[r.sent].id) {}
    if id == r.batch[r.sent].id { assert SentBy(relays', k, id); }
  }

  lemma RowAfterPublish(db: Db, k: nat, q: Row)
    requires DbInv(db) && DbEnabled(db, Publish(k, Confirmed)) && q in db.outbox
    requires RowPublishedOk(q, db.published, db.relays)
    ensures var db' := DbNext(db, Publish(k, Confirmed)); RowPublishedOk(q, db'.published, db'.relays)
  {
    var row := db.relays[k].batch[db.relays[k].sent];
    SentAfterPublish(db, k, q.id);
    assert row in db.relays[k].batch && row in db.outbox;
  }

  lemma PublishedOnPublish(db: Db, k: nat)
    requires DbInv(db) && PublishedOk(db) && DbEnabled(db, Publish(k, Confirmed))
    ensures PublishedOk(DbNext(db, Publish(k, Confirmed)))
  {
    var db' := DbNext(db, Publish(k, Confirmed));
    var row := db.relays[k].batch[db.relays[k].sent];
    assert row in db.relays[k].batch && row in db.outbox;
    NextIsUnsent(db, k);
    assert RowPublishedOk(row, db.published, db.relays);
    forall q | q in db'.outbox ensures RowPublishedOk(q, db'.published, db'.relays) {
      RowAfterPublish(db, k, q);
    }
  }

  lemma SentAfterCommit(db: Db, k: nat, id: nat)
    requires DbInv(db) && DbEnabled(db, CommitRelay(k))
    ensures Sent(db.relays, id) <==> Sent(DbNext(db, CommitRelay(k)).relays, id) || id in SentIds(db.relays[k])
  {
    var relays' := DbNext(db, CommitRelay(k)).relays;
    forall j ensures SentBy(db.relays, j, id) <==> SentBy(relays', j, id) || (j == k && id in SentIds(db.relays[k])) {}
    if id in SentIds(db.relays[k]) { assert SentBy(db.relays, k, id); }
  }

  lemma RowAfterCommit(db: Db, k: nat, p: Row)
    requires DbInv(db) && DbEnabled(db, CommitRelay(k)) && p in db.outbox
    requires RowPublishedOk(p, db.published, db.relays)
    ensures var r := db.relays[k];
      RowPublishedOk(MarkRow(p, SentIds(r), FailedId(r), r.startedAt), db.published, DbNext(db, CommitRelay(k)).relays)
  {
    SentAfterCommit(db, k, p.id);
  }

  lemma MarkingKeepsRows(outbox: seq<Row>, sent: set<nat>, failed: Option<nat>, now: nat, published: seq<nat>, usedIds: set<nat>)
    requires UnpublishedKept(outbox, published, usedIds)
    ensures UnpublishedKept(MarkRows(outbox, sent, failed, now), published, usedIds)
  {
    var outbox' := MarkRows(outbox, sent, failed, now);
    MarkRowsMembers(outbox, sent, failed, now);
    forall id | id in usedIds && id !in published ensures HasRow(outbox', id) {
      var p :| p in outbox && p.id == id;
      assert MarkRow(p, sent, failed, now) in outbox';
    }
  }

  lemma PublishedOnCommit(db: Db, k: nat)
    requires DbInv(db) && PublishedOk(db) && DbEnabled(db, CommitRelay(k))
    ensures PublishedOk(DbNext(db, CommitRelay(k)))
  {
    var r, db' := db.relays[k], DbNext(db, CommitRelay(k));
    MarkingKeepsRows(db.outbox, SentIds(r), FailedId(r), r.startedAt, db.published, db.usedIds);
    MarkRowsMembers(db.outbox, SentIds(r), FailedId(r), r.startedAt);
    forall q | q in db'.outbox ensures RowPublishedOk(q, db'.published, db'.relays) {
      var p :| p in db.outbox && q == MarkRow(p, SentIds(r), FailedId(r), r.startedAt);
      RowAfterCommit(db, k, p);
    }
  }

  lemma SentAreUsed(db: Db, id: nat)
    requires DbInv(db) && Sent(db.relays, id)
    ensures id in db.usedIds
  {
    var k :| SentBy(db.relays, k, id);
    assert RelayOk(db.outbox, db.relays[k]);
  }

  lemma PublishedOnPlace(db: Db, step: DbStep)
    requires DbInv(db) && PublishedOk(db) && DbEnabled(db, step) && step.Place?
    ensures PublishedOk(DbNext(db, step))
  {
    var db', row := DbNext(db, step), NewRow(step);
    InsertRowMembers(db.outbox, row);
    assert !Sent(db.relays, row.id) by {
      if Sent(db.relays, row.id) { SentAreUsed(db, row.id); }
    }
    forall id | id in db'.usedIds && id !in db'.published ensures exists q :: q in db'.outbox && q.id == id {
      if id == row.id { assert row in db'.outbox; }
    }
  }

  lemma PublishedOnDelete(db: Db)
    requires DbInv(db) && PublishedOk(db)
    ensures PublishedOk(DbNext(db, DeleteOld))
  {
    CleanUpMembers(db.outbox, db.now);
    var db' := DbNext(db, DeleteOld);
    forall id | id in db'.usedIds && id !in db'.published ensures exists q :: q in db'.outbox && q.id == id {
      var p :| p in db.outbox && p.id == id;
      assert p in db'.outbox;
    }
  }

  lemma PublishedOnBookkeeping(db: Db, step: DbStep)
    requires DbInv(db) && PublishedOk(db) && DbEnabled(db, step)
    requires step.Tick? || step.Claim? || step.Mark?
    ensures PublishedOk(DbNext(db, step))
  {
    var db' := DbNext(db, step);
    forall id ensures Sent(db'.relays, id) <==> Sent(db.relays, id) {
      assert forall k :: SentBy(db'.relays, k, id) <==> SentBy(db.relays, k, id);
    }
  }

  lemma PublishedStep(db: Db, p: DbStep)
    requires DbInv(db) && PublishedOk(db) && DbEnabled(db, p) && CleanStep(Produce(p))
    ensures PublishedOk(DbNext(db, p))
  {
    match p {
      case Publish(k, _) => PublishedOnPublish(db, k);
      case CommitRelay(k) => PublishedOnCommit(db, k);
      case Place(_, _, _, _) => PublishedOnPlace(db, p);
      case DeleteOld => PublishedOnDelete(db);
      case _ => PublishedOnBookkeeping(db, p);
    }
  }

  lemma {:induction false} PublishedRun(s: State, steps: seq<Step>)
    requires Inv(s) && PublishedOk(s.db) && Runs(s, steps)
    requires forall i :: 0 <= i < |steps| ==> CleanStep(steps[i])
    ensures PublishedOk(Final(s, steps).db)
    decreases |steps|
  {
    if steps != [] {
      assert CleanStep(steps[0]);
      InvStep(s, steps[0]);
      if steps[0].Produce? { PublishedStep(s.db, steps[0].p); }
      PublishedRun(Apply(s, steps[0]), steps[1..]);
    }
  }

  /** In a run without relay deaths and failed publishes no row is published twice, and once
      no pass is open and no row waits, every row ever inserted was published exactly once,
      including the rows the retention job has deleted since. */
  lemma PublishedExactlyOnce(tasksOn: bool, now: nat, steps: seq<Step>)
    requires Runs(Init(tasksOn, now), steps)
    requires forall i :: 0 <= i < |steps| ==> CleanStep(steps[i])
    ensures var db := Final(Init(tasksOn, now), steps).db;
      && Distinct(db.published)
      && (db.relays == map[] && (forall r :: r in db.outbox ==> r.publishedAt.Some?) ==>
            forall id :: id in db.published <==> id in db.usedIds)
  {
    InitInv(tasksOn, now);
    PublishedRun(Init(tasksOn, now), steps);
  }
}
