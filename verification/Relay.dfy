/** `relayOnce` and `relayLoop` (src/outbox/relay.ts) as imperative code over an outbox table
    and a broker, tied to the protocol steps of module Pipeline. */
module Relay {
  import opened Base
  import opened Events
  import opened Outbox
  import opened Pipeline

  class Database {
    var outbox: seq<Row>

    constructor (rows: seq<Row>)
      ensures outbox == rows
    {
      outbox := rows;
    }
  }

  /** `stored`: bodies the broker confirmed, in order; `wire`: publishes given up on. */
  class Sink {
    var stored: seq<Body>
    var wire: seq<Body>

    constructor ()
      ensures stored == [] && wire == []
    {
      stored, wire := [], [];
    }

    /** `sink.publish` under its timeout; `outcome` is what the network made of it. */
    method Publish(event: OrderPlaced, outcome: Outcome)
      modifies this
      ensures stored == old(stored) + (if outcome == Confirmed then [Serialize(event)] else [])
      ensures wire == old(wire) + (if outcome == TimedOut then [Serialize(event)] else [])
    {
      match outcome {
        case Confirmed => stored := stored + [Serialize(event)];
        case Refused =>
        case TimedOut => wire := wire + [Serialize(event)];
      }
    }
  }

  datatype PassResult = Pass(published: nat, failed: nat) | Threw

  /** How many of the publishes i, i+1, ..., n-1 are confirmed before one fails, plus i. */
  function Confirms(outcomes: nat -> Outcome, i: nat, n: nat): (k: nat)
    requires i <= n
    ensures i <= k <= n
    ensures forall j :: i <= j < k ==> outcomes(j) == Confirmed
    ensures k < n ==> outcomes(k) != Confirmed
    decreases n - i
  {
    if i < n && outcomes(i) == Confirmed then Confirms(outcomes, i + 1, n) else i
  }

  function Bodies(rows: seq<Row>): seq<Body> {
    seq(|rows|, i requires 0 <= i < |rows| => Serialize(rows[i].payload))
  }

  function FailedAt(batch: seq<Row>, n: nat): Option<nat> {
    if n < |batch| then Some(batch[n].id) else None
  }

  lemma PrefixIds(rows: seq<Row>, sentIds: seq<nat>)
    requires |sentIds| <= |rows| && forall j :: 0 <= j < |sentIds| ==> sentIds[j] == rows[j].id
    ensures (set id | id in sentIds) == Ids(rows[..|sentIds|])
  {
    var sent, n := set id | id in sentIds, |sentIds|;
    forall id | id in sent ensures id in Ids(rows[..n]) {
      var j :| 0 <= j < n && sentIds[j] == id;
      assert rows[..n][j].id == id;
    }
    forall r | r in rows[..n] ensures r.id in sent {
      var j :| 0 <= j < n && rows[..n][j] == r;
      assert sentIds[j] == r.id;
    }
  }

  /** The publish loop of a pass: stops at the first failure. */
  method PublishBatch(sink: Sink, rows: seq<Row>, outcomes: nat -> Outcome) returns (sentIds: seq<nat>, failedId: Option<nat>)
    modifies sink
    ensures var n := Confirms(outcomes, 0, |rows|);
      && sentIds == seq(n, j requires 0 <= j < n => rows[j].id)
      && failedId == FailedAt(rows, n)
      && sink.stored == old(sink.stored) + Bodies(rows[..n])
      && sink.wire == old(sink.wire)
           + (if n < |rows| && outcomes(n) == TimedOut then [Serialize(rows[n].payload)] else [])
  {
    sentIds, failedId := [], None;
    var i := 0;
    while i < |rows| && failedId.None?
      invariant 0 <= i <= |rows|
      invariant failedId.None? ==>
        && Confirms(outcomes, 0, |rows|) == Confirms(outcomes, i, |rows|)
        && sentIds == seq(i, j requires 0 <= j < i => rows[j].id)
        && sink.stored == old(sink.stored) + Bodies(rows[..i])
        && sink.wire == old(sink.wire)
      invariant failedId.Some? ==>
        var n := Confirms(outcomes, 0, |rows|);
        && n < |rows| && failedId == Some(rows[n].id)
        && sentIds == seq(n, j requires 0 <= j < n => rows[j].id)
        && sink.stored == old(sink.stored) + Bodies(rows[..n])
        && sink.wire == old(sink.wire) + (if outcomes(n) == TimedOut then [Serialize(rows[n].payload)] else [])
      decreases |rows| - i, failedId.None?
    {
      var row := rows[i];
      sink.Publish(row.payload, outcomes(i));
      if outcomes(i) == Confirmed {
        sentIds := sentIds + [row.id];
        assert Bodies(rows[..i + 1]) == Bodies(rows[..i]) + [Serialize(row.payload)];
        i := i + 1;
      } else {
        failedId := Some(row.id);
      }
    }
  }

  /** One pass.  `locked`: rows other relays hold; `outcomes(i)`: fate of the i-th publish;
      `survives`: whether the hook, the UPDATEs and the COMMIT all go through. */
  method RelayOnce(db: Database, sink: Sink, batchSize: nat, locked: set<nat>, since: nat, now: nat,
                   outcomes: nat -> Outcome, survives: bool) returns (result: PassResult)
    modifies db, sink
    ensures var batch := SelectBatch(old(db.outbox), locked, since, batchSize);
      var n := Confirms(outcomes, 0, |batch|);
      && sink.stored == old(sink.stored) + Bodies(batch[..n])
      && sink.wire == old(sink.wire)
           + (if n < |batch| && outcomes(n) == TimedOut then [Serialize(batch[n].payload)] else [])
      && result == (if survives then Pass(n, if n < |batch| then 1 else 0) else Threw)
      && db.outbox == (if survives then MarkRows(old(db.outbox), Ids(batch[..n]), FailedAt(batch, n), now)
                       else old(db.outbox))
  {
    var rows := SelectBatch(db.outbox, locked, since, batchSize);
    var sentIds, failedId := PublishBatch(sink, rows, outcomes);
    if !survives {
      return Threw;
    }
    var sent := set id | id in sentIds;
    db.outbox := MarkRows(db.outbox, sent, failedId, now);
    PrefixIds(rows, sentIds);
    return Pass(|sentIds|, if failedId.Some? then 1 else 0);
  }

  // ---------------------------------------------------------------- draining

  function Pending(rows: seq<Row>): nat {
    if rows == [] then 0 else (if rows[0].publishedAt.None? then 1 else 0) + Pending(rows[1..])
  }

  lemma MarkIgnoresOthers(rows: seq<Row>, sent: set<nat>, id: nat, now: nat)
    requires forall r :: r in rows ==> r.id != id
    ensures MarkRows(rows, sent + {id}, None, now) == MarkRows(rows, sent, None, now)
  {
    assert forall i :: 0 <= i < |rows| ==> rows[i] in rows;
  }

  lemma MarkRowsCons(rows: seq<Row>, sent: set<nat>, now: nat)
    requires rows != []
    ensures MarkRows(rows, sent, None, now) == [MarkRow(rows[0], sent, None, now)] + MarkRows(rows[1..], sent, None, now)
  {
  }

  /** An accepting pass over an unlocked table lowers the number of unsent rows by the batch
      size, or to zero. */
  lemma {:induction false} AcceptingPass(rows: seq<Row>, limit: nat, now: nat)
    requires UniqueIds(rows)
    ensures Pending(MarkRows(rows, Ids(SelectBatch(rows, {}, 0, limit)), None, now)) == Max(0, Pending(rows) - limit)
    decreases |rows|
  {
    var batch := SelectBatch(rows, {}, 0, limit);
    if rows == [] {
    } else if limit == 0 {
      assert Ids(batch) == {};
      assert MarkRows(rows, {}, None, now) == rows;
    } else {
      var head, rest := rows[0], rows[1..];
      assert forall r :: r in rest ==> r.id != head.id;
      MarkRowsCons(rows, Ids(batch), now);
      var marked := MarkRows(rows, Ids(batch), None, now);
      assert marked[0] == MarkRow(head, Ids(batch), None, now);
      assert marked[1..] == MarkRows(rest, Ids(batch), None, now);
      if head.publishedAt.None? {
        var batch' := SelectBatch(rest, {}, 0, limit - 1);
        AcceptingPass(rest, limit - 1, now);
        assert Ids(batch) == Ids(batch') + {head.id};
        MarkIgnoresOthers(rest, Ids(batch'), head.id, now);
      } else {
        AcceptingPass(rest, limit, now);
        assert batch == SelectBatch(rest, {}, 0, limit);
      }
    }
  }

  lemma MarkKeepsIds(rows: seq<Row>, sent: set<nat>, failed: Option<nat>, now: nat)
    requires UniqueIds(rows)
    ensures UniqueIds(MarkRows(rows, sent, failed, now))
  {
  }

  /** Everything the sink is given it accepts, and no pass is interrupted. */
  ghost predicate Smooth(outcomes: (nat, nat) -> Outcome, survives: nat -> bool) {
    (forall i, j :: outcomes(i, j) == Confirmed) && forall i :: survives(i)
  }

  function CeilDiv(n: nat, d: nat): nat
    requires d > 0
  {
    (n + d - 1) / d
  }

  /** Unsent rows left of n after so many passes, and how many of the passes found nothing. */
  function Left(n: nat, batchSize: nat, passes: nat): nat {
    if passes == 0 then n else Max(0, Left(n, batchSize, passes - 1) - batchSize)
  }

  function Idle(n: nat, batchSize: nat, passes: nat): nat {
    if passes == 0 then 0
    else Idle(n, batchSize, passes - 1) + (if Min(batchSize, Left(n, batchSize, passes - 1)) == 0 then 1 else 0)
  }

  /** n rows are drained by ceil(n / batchSize) passes; every pass after those is idle. */
  lemma {:induction false} LeftAndIdle(n: nat, batchSize: nat, passes: nat)
    ensures Left(n, batchSize, passes) == Max(0, n - passes * batchSize)
    ensures Idle(n, batchSize, passes) == if batchSize == 0 then passes else Max(0, passes - CeilDiv(n, batchSize))
  {
    if passes > 0 {
      LeftAndIdle(n, batchSize, passes - 1);
      TimesSucc(passes - 1, batchSize);
      if batchSize > 0 { DrainedInCeilPasses(n, batchSize, passes - 1); }
    }
  }

  lemma TimesSucc(a: nat, b: nat)
    ensures (a + 1) * b == a * b + b
  {
  }

  /** The body of the loop: one pass, and whether it is to be followed by a pause. */
  method LoopPass(db: Database, sink: Sink, batchSize: nat, now: nat, outcomes: nat -> Outcome, survives: bool)
    returns (pause: bool)
    requires UniqueIds(db.outbox)
    modifies db, sink
    ensures UniqueIds(db.outbox)
    ensures survives && (forall j :: outcomes(j) == Confirmed) ==>
      && Pending(db.outbox) == Max(0, Pending(old(db.outbox)) - batchSize)
      && (pause <==> Min(batchSize, Pending(old(db.outbox))) == 0)
  {
    ghost var rows := db.outbox;
    ghost var batch := SelectBatch(rows, {}, 0, batchSize);
    var result := RelayOnce(db, sink, batchSize, {}, 0, now, outcomes, survives);
    if result.Pass? {
      MarkKeepsIds(rows, Ids(batch[..result.published]), FailedAt(batch, result.published), now);
    }
    assert batch[..|batch|] == batch;
    AcceptingPass(rows, batchSize, now);
    BatchSize(rows, batchSize);
    pause := result.Threw? || result.published == 0 || result.failed > 0;
  }

  /** `relayLoop` until the abort signal, here after `passes` passes; `sleeps` counts the
      pauses.  A pass that throws is followed by a pause and the next pass.  When all goes
      well and nobody else is at work, k passes send min(n, k * batchSize) of the n unsent
      rows, and the loop pauses exactly once for each pass beyond the ceil(n / batchSize)
      that drain the table. */
  method RelayLoop(db: Database, sink: Sink, batchSize: nat, passes: nat, now: nat,
                   outcomes: (nat, nat) -> Outcome, survives: nat -> bool) returns (sleeps: nat)
    requires UniqueIds(db.outbox)
    modifies db, sink
    ensures UniqueIds(db.outbox) && sleeps <= passes
    ensures Smooth(outcomes, survives) ==>
      && Pending(db.outbox) == Max(0, Pending(old(db.outbox)) - passes * batchSize)
      && sleeps == (if batchSize == 0 then passes else Max(0, passes - CeilDiv(Pending(old(db.outbox)), batchSize)))
  {
    sleeps := 0;
    ghost var n := Pending(db.outbox);
    var pass: nat := 0;
    while pass < passes
      invariant 0 <= sleeps <= pass <= passes
      invariant UniqueIds(db.outbox)
      invariant Smooth(outcomes, survives) ==>
        Pending(db.outbox) == Left(n, batchSize, pass) && sleeps == Idle(n, batchSize, pass)
    {
      var pause := LoopPass(db, sink, batchSize, now, (j: nat) => outcomes(pass, j), survives(pass));
      if pause {
        sleeps := sleeps + 1;
      }
      pass := pass + 1;
    }
    LeftAndIdle(n, batchSize, passes);
  }

  lemma {:induction false} BatchSize(rows: seq<Row>, limit: nat)
    ensures |SelectBatch(rows, {}, 0, limit)| == Min(limit, Pending(rows))
    decreases |rows|
  {
    if rows != [] && limit > 0 {
      BatchSize(rows[1..], if rows[0].publishedAt.None? then limit - 1 else limit);
    }
  }

  /** ceil(n / batchSize) accepting passes drain n rows and fewer do not. */
  lemma DrainedInCeilPasses(n: nat, batchSize: nat, passes: nat)
    requires batchSize > 0
    ensures Max(0, n - passes * batchSize) == 0 <==> passes >= CeilDiv(n, batchSize)
  {
    var c := CeilDiv(n, batchSize);
    CeilBounds(n, batchSize, c);
    if passes >= c {
      MulMonotone(c, passes, batchSize);
    } else {
      MulMonotone(passes, c - 1, batchSize);
    }
  }

  lemma CeilBounds(n: nat, b: nat, c: nat)
    requires b > 0 && c == CeilDiv(n, b)
    ensures n <= c * b && (c > 0 ==> (c - 1) * b < n)
  {
    assert n + b - 1 == c * b + (n + b - 1) % b;
    assert (c - 1) * b == c * b - b;
  }

  // ---------------------------------------------------------------- a pass is a protocol run

  function Messages(bodies: seq<Body>): multiset<Message> {
    if bodies == [] then multiset{} else multiset{Message(bodies[0], 0)} + Messages(bodies[1..])
  }

  function Confirmations(k: nat, n: nat): seq<Step> {
    seq(n, _ => Produce(Publish(k, Confirmed)))
  }

  /** The state after relay `k` has had its next row confirmed. */
  function AfterOne(s: State, k: nat): State
    requires k in s.db.relays && s.db.relays[k].sent < |s.db.relays[k].batch|
  {
    var r := s.db.relays[k];
    State(s.db.(relays := s.db.relays[k := r.(sent := r.sent + 1)], published := s.db.published + [r.batch[r.sent].id]),
          s.broker.(queue := s.broker.queue + multiset{Message(Serialize(r.batch[r.sent].payload), 0)}),
          s.store)
  }

  /** The state after relay `k` has had its next n rows confirmed. */
  function AfterConfirms(s: State, k: nat, n: nat): State
    requires k in s.db.relays && s.db.relays[k].sent + n <= |s.db.relays[k].batch|
    decreases n
  {
    if n == 0 then s else AfterConfirms(AfterOne(s, k), k, n - 1)
  }

  lemma UpdateTwice<K, V>(m: map<K, V>, k: K, a: V, b: V)
    ensures m[k := a][k := b] == m[k := b]
  {
  }

  /** The confirms move the relay's own mark and nothing else of the producing side. */
  lemma {:induction false} ConfirmsMoveMark(s: State, k: nat, n: nat)
    requires k in s.db.relays && s.db.relays[k].sent + n <= |s.db.relays[k].batch|
    ensures var r, s' := s.db.relays[k], AfterConfirms(s, k, n);
      && s'.db.relays == s.db.relays[k := r.(sent := r.sent + n)]
      && s'.db.outbox == s.db.outbox && s'.db.orders == s.db.orders && s'.store == s.store
    decreases n
  {
    if n > 0 {
      var r := s.db.relays[k];
      ConfirmsMoveMark(AfterOne(s, k), k, n - 1);
      UpdateTwice(s.db.relays, k, r.(sent := r.sent + 1), r.(sent := r.sent + n));
    }
  }

  lemma MessagesCons(first: Row, rest: seq<Row>)
    ensures Messages(Bodies([first] + rest)) == multiset{Message(Serialize(first.payload), 0)} + Messages(Bodies(rest))
  {
    assert Bodies([first] + rest)[1..] == Bodies(rest);
  }

  /** The messages of a relay's next n rows. */
  function NextMessages(r: Relay, n: nat): multiset<Message>
    requires r.sent + n <= |r.batch|
    decreases n
  {
    if n == 0 then multiset{}
    else multiset{Message(Serialize(r.batch[r.sent].payload), 0)} + NextMessages(r.(sent := r.sent + 1), n - 1)
  }

  lemma {:induction false} NextMessagesAre(r: Relay, n: nat)
    requires r.sent + n <= |r.batch|
    ensures NextMessages(r, n) == Messages(Bodies(r.batch[r.sent..r.sent + n]))
    decreases n
  {
    if n > 0 {
      assert r.batch[r.sent..r.sent + n] == [r.batch[r.sent]] + r.batch[r.sent + 1..r.sent + 1 + (n - 1)];
      MessagesCons(r.batch[r.sent], r.batch[r.sent + 1..r.sent + 1 + (n - 1)]);
      NextMessagesAre(r.(sent := r.sent + 1), n - 1);
    }
  }

  lemma JoinAssoc<T>(a: multiset<T>, b: multiset<T>, c: multiset<T>)
    ensures a + b + c == a + (b + c) && a + multiset{} == a
  {
  }

  /** They queue exactly the events of the confirmed rows. */
  lemma {:induction false} ConfirmsQueueEvents(s: State, k: nat, n: nat)
    requires k in s.db.relays && s.db.relays[k].sent + n <= |s.db.relays[k].batch|
    ensures AfterConfirms(s, k, n).broker == s.broker.(queue := s.broker.queue + NextMessages(s.db.relays[k], n))
    decreases n
  {
    var r := s.db.relays[k];
    if n == 0 {
      JoinAssoc(s.broker.queue, multiset{}, multiset{});
    } else {
      ConfirmsQueueEvents(AfterOne(s, k), k, n - 1);
      assert AfterOne(s, k).db.relays[k] == r.(sent := r.sent + 1);
      JoinAssoc(s.broker.queue, multiset{Message(Serialize(r.batch[r.sent].payload), 0)}, NextMessages(r.(sent := r.sent + 1), n - 1));
    }
  }

  lemma ConfirmOne(s: State, k: nat)
    requires k in s.db.relays && !s.db.relays[k].failed && !s.db.relays[k].marked
    requires s.db.relays[k].sent < |s.db.relays[k].batch|
    ensures Enabled(s, Produce(Publish(k, Confirmed)))
    ensures Apply(s, Produce(Publish(k, Confirmed))) == AfterOne(s, k)
  {
  }

  lemma {:induction false} PublishMany(s: State, k: nat, n: nat)
    requires k in s.db.relays && !s.db.relays[k].failed && !s.db.relays[k].marked
    requires s.db.relays[k].sent + n <= |s.db.relays[k].batch|
    ensures Runs(s, Confirmations(k, n))
    ensures Final(s, Confirmations(k, n)) == AfterConfirms(s, k, n)
    decreases n
  {
    if n > 0 {
      assert Confirmations(k, n) == [Produce(Publish(k, Confirmed))] + Confirmations(k, n - 1);
      ConfirmOne(s, k);
      PublishMany(AfterOne(s, k), k, n - 1);
      RunsCons(s, Produce(Publish(k, Confirmed)), Confirmations(k, n - 1));
    }
  }

  /** The steps before the failing publish, and from it on. */
  function Opening(k: nat, since: nat, batchSize: nat, n: nat): seq<Step> {
    [Produce(Claim(k, since, batchSize))] + Confirmations(k, n)
  }

  /** How a pass ends: its marks commit, or it is rolled back before or after marking. */
  datatype Ending = Commits | RolledBack(marked: bool)

  function EndSteps(k: nat, ending: Ending): seq<Step> {
    match ending
    case Commits => [Produce(Mark(k))] + ([Produce(CommitRelay(k))] + [])
    case RolledBack(marked) =>
      if marked then [Produce(Mark(k))] + ([Produce(KillRelay(k))] + []) else [Produce(KillRelay(k))] + []
  }

  function FailSteps(k: nat, failure: Option<Outcome>): seq<Step> {
    if failure.Some? then [Produce(Publish(k, failure.value))] + [] else []
  }

  /** What the pass leaves of the table. */
  function TableAfter(outbox: seq<Row>, batch: seq<Row>, n: nat, now: nat, ending: Ending): seq<Row>
    requires n <= |batch|
  {
    if ending == Commits then MarkRows(outbox, Ids(batch[..n]), FailedAt(batch, n), now) else outbox
  }

  /** What a pass over `batch` with n confirms leaves behind, however it ends. */
  ghost predicate PassEffect(s: State, s': State, batch: seq<Row>, n: nat, failure: Option<Outcome>, ending: Ending)
    requires n <= |batch| && (failure.Some? <==> n < |batch|)
  {
    && s'.db.outbox == TableAfter(s.db.outbox, batch, n, s.db.now, ending)
    && s'.db.relays == s.db.relays && s'.db.orders == s.db.orders
    && s'.broker == s.broker.(
         queue := s.broker.queue + Messages(Bodies(batch[..n])),
         wire := s.broker.wire
           + (if failure == Some(TimedOut) then multiset{Serialize(batch[n].payload)} else multiset{}))
    && s'.store == s.store
  }

  /** What RelayOnce does to the table, the queue and the wire, whether it commits or throws,
      is what a run of the protocol does: claim, the confirmed publishes, the failing one if
      any, then mark and commit, or the end of the transaction without a trace. */
  lemma PassIsRun(s: State, k: nat, since: nat, batchSize: nat, outcomes: nat -> Outcome, ending: Ending)
    requires k !in s.db.relays
    ensures var batch := SelectBatch(s.db.outbox, LockedIds(s.db.relays), since, batchSize);
      var n := Confirms(outcomes, 0, |batch|);
      var failure := if n < |batch| then Some(outcomes(n)) else None;
      var steps := Opening(k, since, batchSize, n) + (FailSteps(k, failure) + EndSteps(k, ending));
      Runs(s, steps) && PassEffect(s, Final(s, steps), batch, n, failure, ending)
  {
    var batch := SelectBatch(s.db.outbox, LockedIds(s.db.relays), since, batchSize);
    var n := Confirms(outcomes, 0, |batch|);
    var failure := if n < |batch| then Some(outcomes(n)) else None;
    ClaimAndPublish(s, k, since, batchSize, n);
    var s1 := Apply(s, Produce(Claim(k, since, batchSize)));
    var s2 := AfterConfirms(s1, k, n);
    ConfirmsMoveMark(s1, k, n);
    ConfirmsQueueEvents(s1, k, n);
    NextMessagesAre(s1.db.relays[k], n);
    UpdateTwice(s.db.relays, k, s1.db.relays[k], s2.db.relays[k]);
    RestOfPass(s, s2, k, batch, n, failure, ending);
    RunsAppend(s, Opening(k, since, batchSize, n), FailSteps(k, failure) + EndSteps(k, ending));
  }

  /** From the last confirmed publish to the end of the pass. */
  lemma RestOfPass(s: State, s2: State, k: nat, batch: seq<Row>, n: nat, failure: Option<Outcome>, ending: Ending)
    requires k !in s.db.relays && n <= |batch|
    requires (failure.Some? <==> n < |batch|) && failure != Some(Confirmed)
    requires s2.db.relays == s.db.relays[k := Relay(s.db.now, batch, n, false, false)]
    requires s2.db.outbox == s.db.outbox && s2.db.orders == s.db.orders && s2.store == s.store
    requires s2.broker == s.broker.(queue := s.broker.queue + Messages(Bodies(batch[0..n])))
    ensures var steps := FailSteps(k, failure) + EndSteps(k, ending);
      Runs(s2, steps) && PassEffect(s, Final(s2, steps), batch, n, failure, ending)
  {
    FailureRun(s2, k, failure);
    var s3 := Final(s2, FailSteps(k, failure));
    EndRun(s3, k, ending);
    RunsAppend(s2, FailSteps(k, failure), EndSteps(k, ending));
    assert batch[0..n] == batch[..n];
    assert s3.db.relays - {k} == s.db.relays;
  }

  lemma ClaimAndPublish(s: State, k: nat, since: nat, batchSize: nat, n: nat)
    requires k !in s.db.relays
    requires n <= |SelectBatch(s.db.outbox, LockedIds(s.db.relays), since, batchSize)|
    ensures Runs(s, Opening(k, since, batchSize, n))
    ensures Final(s, Opening(k, since, batchSize, n)) == AfterConfirms(Apply(s, Produce(Claim(k, since, batchSize))), k, n)
  {
    PublishMany(Apply(s, Produce(Claim(k, since, batchSize))), k, n);
    RunsCons(s, Produce(Claim(k, since, batchSize)), Confirmations(k, n));
  }

  /** The failing publish that ends a pass early, if the batch is not through. */
  lemma FailureRun(s: State, k: nat, failure: Option<Outcome>)
    requires k in s.db.relays && !s.db.relays[k].failed && !s.db.relays[k].marked
    requires (failure.Some? <==> s.db.relays[k].sent < |s.db.relays[k].batch|) && failure != Some(Confirmed)
    ensures Runs(s, FailSteps(k, failure))
    ensures var r := s.db.relays[k];
      Final(s, FailSteps(k, failure)) == State(
        s.db.(relays := s.db.relays[k := r.(failed := failure.Some?)]),
        s.broker.(wire := s.broker.wire
          + (if failure == Some(TimedOut) then multiset{Serialize(r.batch[r.sent].payload)} else multiset{})),
        s.store)
  {
    var r := s.db.relays[k];
    if failure.Some? {
      RunsCons(s, Produce(Publish(k, failure.value)), []);
    } else {
      assert s.db.relays[k := r] == s.db.relays;
    }
  }

  lemma EndRun(s: State, k: nat, ending: Ending)
    requires k in s.db.relays
    requires var r := s.db.relays[k];
      !r.marked && r.sent <= |r.batch| && (r.failed <==> r.sent < |r.batch|)
    ensures Runs(s, EndSteps(k, ending))
    ensures var r, s' := s.db.relays[k], Final(s, EndSteps(k, ending));
      s' == s.(db := s.db.(outbox := TableAfter(s.db.outbox, r.batch, r.sent, r.startedAt, ending), relays := s.db.relays - {k}))
  {
    var mark, commit, kill := Produce(Mark(k)), Produce(CommitRelay(k)), Produce(KillRelay(k));
    if ending == RolledBack(false) {
      RunsCons(s, kill, []);
    } else {
      var s1 := Apply(s, mark);
      assert s1.db.relays - {k} == s.db.relays - {k};
      if ending == Commits {
        RunsCons(s1, commit, []);
        RunsCons(s, mark, [commit] + []);
      } else {
        RunsCons(s1, kill, []);
        RunsCons(s, mark, [kill] + []);
      }
    }
  }
}
