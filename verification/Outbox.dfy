/** The `outbox` table (src/migrations/1791300000000-OutboxAndProcessedMessages.ts) and the
    four statements that touch it: the insert beside an order, the relay's claim, the relay's
    marks, and the retention clean-up.  The table is kept as the sequence of its rows in
    `ORDER BY created_at, id` order; `id` is a uuid, compared as the 128-bit number it is. */
module Outbox {
  import opened Base
  import opened Events

  datatype Row = Row(id: nat, createdAt: nat, payload: OrderPlaced, publishedAt: Option<nat>, attempts: nat)

  predicate Before(a: Row, b: Row) {
    a.createdAt < b.createdAt || (a.createdAt == b.createdAt && a.id < b.id)
  }

  ghost predicate Sorted(rows: seq<Row>) {
    forall i, j :: 0 <= i < j < |rows| ==> Before(rows[i], rows[j])
  }

  ghost predicate UniqueIds(rows: seq<Row>) {
    forall i, j :: 0 <= i < j < |rows| ==> rows[i].id != rows[j].id
  }

  function Ids(rows: seq<Row>): set<nat> { set r | r in rows :: r.id }

  /** INSERT: `created_at` is the start of the inserting transaction, so a row may become
      visible in front of rows that were committed earlier. */
  function InsertRow(rows: seq<Row>, row: Row): seq<Row> {
    if rows == [] || Before(row, rows[0]) then [row] + rows
    else [rows[0]] + InsertRow(rows[1..], row)
  }

  lemma {:induction false} InsertRowMembers(rows: seq<Row>, row: Row)
    ensures forall r :: r in InsertRow(rows, row) <==> r == row || r in rows
  {
    if !(rows == [] || Before(row, rows[0])) {
      assert rows == [rows[0]] + rows[1..];
      InsertRowMembers(rows[1..], row);
    }
  }

  lemma {:induction false} InsertRowOrder(rows: seq<Row>, row: Row)
    requires Sorted(rows) && UniqueIds(rows) && forall r :: r in rows ==> r.id != row.id
    ensures Sorted(InsertRow(rows, row)) && UniqueIds(InsertRow(rows, row))
  {
    if !(rows == [] || Before(row, rows[0])) {
      var head, rest := rows[0], InsertRow(rows[1..], row);
      InsertRowOrder(rows[1..], row);
      InsertRowMembers(rows[1..], row);
      forall j | 0 <= j < |rest| ensures Before(head, rest[j]) && head.id != rest[j].id {
        assert rest[j] in rest;
        if rest[j] != row {
          var i :| 0 <= i < |rows[1..]| && rows[1..][i] == rest[j];
          assert rows[i + 1] == rest[j];
        }
      }
    } else {
      assert forall j :: 0 <= j < |rows| ==> rows[j] in rows;
    }
  }

  predicate Claimable(row: Row, locked: set<nat>, since: nat) {
    row.publishedAt.None? && row.id !in locked && since <= row.createdAt
  }

  /** SELECT ... WHERE published_at IS NULL ORDER BY created_at, id FOR UPDATE SKIP LOCKED
      LIMIT limit; `since` is the optional lower bound on `created_at` (0 when not given). */
  function SelectBatch(rows: seq<Row>, locked: set<nat>, since: nat, limit: nat): seq<Row> {
    if rows == [] || limit == 0 then []
    else if Claimable(rows[0], locked, since) then [rows[0]] + SelectBatch(rows[1..], locked, since, limit - 1)
    else SelectBatch(rows[1..], locked, since, limit)
  }

  /** A claim takes only free unsent rows, oldest first, at most `limit` of them, and never
      passes over an older free row for a younger one. */
  lemma {:induction false} SelectBatchIsOldestFree(rows: seq<Row>, locked: set<nat>, since: nat, limit: nat)
    requires Sorted(rows)
    ensures var batch := SelectBatch(rows, locked, since, limit);
      && |batch| <= limit
      && Sorted(batch)
      && (forall r :: r in batch ==> r in rows && Claimable(r, locked, since))
      && (forall r :: r in rows && Claimable(r, locked, since) && r !in batch ==>
            |batch| == limit && forall b :: b in batch ==> Before(b, r))
  {
    if rows != [] && limit > 0 {
      var head, rest := rows[0], rows[1..];
      assert rows == [head] + rest;
      var take := if Claimable(head, locked, since) then limit - 1 else limit;
      SelectBatchIsOldestFree(rest, locked, since, take);
      var batch := SelectBatch(rest, locked, since, take);
      forall r | r in rest ensures Before(head, r) {
        var j :| 0 <= j < |rest| && rest[j] == r;
        assert rows[j + 1] == r;
      }
      forall j | 0 <= j < |batch| ensures Before(head, batch[j]) { assert batch[j] in batch; }
    }
  }

  /** The same in the columns themselves: unsent, unlocked, not older than asked for, ordered by
      created_at and then id, and left out only behind a full batch of older ones. */
  lemma SelectBatchInColumns(rows: seq<Row>, locked: set<nat>, since: nat, limit: nat)
    requires Sorted(rows)
    ensures var batch := SelectBatch(rows, locked, since, limit);
      && |batch| <= limit
      && (forall r :: r in batch ==> r in rows && r.publishedAt == None && r.id !in locked && r.createdAt >= since)
      && (forall i, j :: 0 <= i < j < |batch| ==>
            batch[i].createdAt < batch[j].createdAt || (batch[i].createdAt == batch[j].createdAt && batch[i].id < batch[j].id))
      && (forall r :: r in rows && r.publishedAt == None && r.id !in locked && r.createdAt >= since && r !in batch ==>
            && |batch| == limit
            && forall b :: b in batch ==> b.createdAt < r.createdAt || (b.createdAt == r.createdAt && b.id < r.id))
  {
    SelectBatchIsOldestFree(rows, locked, since, limit);
  }

  lemma {:induction false} SelectBatchMembers(rows: seq<Row>, locked: set<nat>, since: nat, limit: nat)
    requires UniqueIds(rows)
    ensures var batch := SelectBatch(rows, locked, since, limit);
      && UniqueIds(batch)
      && (forall r :: r in batch ==> r in rows && r.publishedAt.None? && r.id !in locked)
  {
    if rows != [] && limit > 0 {
      var head, rest := rows[0], rows[1..];
      assert rows == [head] + rest;
      var take := if Claimable(head, locked, since) then limit - 1 else limit;
      SelectBatchMembers(rest, locked, since, take);
      var batch := SelectBatch(rest, locked, since, take);
      forall j | 0 <= j < |batch| ensures head.id != batch[j].id {
        assert batch[j] in rest;
        var k :| 0 <= k < |rest| && rest[k] == batch[j];
        assert rows[k + 1] == batch[j];
      }
    }
  }

  /** The two UPDATE statements that close a pass, seen through one row. */
  function MarkRow(row: Row, sent: set<nat>, failed: Option<nat>, now: nat): Row {
    if row.id in sent then row.(publishedAt := Some(now), attempts := row.attempts + 1)
    else if failed == Some(row.id) then row.(attempts := row.attempts + 1)
    else row
  }

  function MarkRows(rows: seq<Row>, sent: set<nat>, failed: Option<nat>, now: nat): seq<Row> {
    seq(|rows|, i requires 0 <= i < |rows| => MarkRow(rows[i], sent, failed, now))
  }

  lemma MarkRowsMembers(rows: seq<Row>, sent: set<nat>, failed: Option<nat>, now: nat)
    ensures forall r :: r in rows ==> MarkRow(r, sent, failed, now) in MarkRows(rows, sent, failed, now)
    ensures forall m :: m in MarkRows(rows, sent, failed, now) ==>
              exists r :: r in rows && m == MarkRow(r, sent, failed, now)
  {
    var marked := MarkRows(rows, sent, failed, now);
    forall r | r in rows ensures MarkRow(r, sent, failed, now) in marked {
      var i :| 0 <= i < |rows| && rows[i] == r;
      assert marked[i] == MarkRow(r, sent, failed, now);
    }
    forall m | m in marked ensures exists r :: r in rows && m == MarkRow(r, sent, failed, now) {
      var i :| 0 <= i < |marked| && marked[i] == m;
      assert rows[i] in rows;
    }
  }

  const RETENTION_SEC: nat := 7 * 24 * 60 * 60

  predicate Expired(row: Row, now: nat) {
    row.publishedAt.Some? && row.publishedAt.value < now - RETENTION_SEC
  }

  /** DELETE FROM outbox WHERE published_at IS NOT NULL AND published_at < now() - 7 days. */
  function CleanUp(rows: seq<Row>, now: nat): seq<Row> {
    if rows == [] then []
    else if Expired(rows[0], now) then CleanUp(rows[1..], now)
    else [rows[0]] + CleanUp(rows[1..], now)
  }

  lemma {:induction false} CleanUpKeeps(rows: seq<Row>, now: nat)
    ensures forall r :: r in CleanUp(rows, now) <==> r in rows && !Expired(r, now)
  {
    if rows != [] {
      assert rows == [rows[0]] + rows[1..];
      CleanUpKeeps(rows[1..], now);
    }
  }

  lemma {:induction false} CleanUpOrder(rows: seq<Row>, now: nat)
    ensures Sorted(rows) ==> Sorted(CleanUp(rows, now))
    ensures UniqueIds(rows) ==> UniqueIds(CleanUp(rows, now))
  {
    if rows != [] {
      CleanUpOrder(rows[1..], now);
      CleanUpKeeps(rows[1..], now);
      var rest := CleanUp(rows[1..], now);
      forall j | 0 <= j < |rest| ensures exists k :: 0 < k < |rows| && rows[k] == rest[j] {
        assert rest[j] in rows[1..];
        var k :| 0 <= k < |rows[1..]| && rows[1..][k] == rest[j];
        assert rows[k + 1] == rest[j];
      }
    }
  }

  /** The clean-up removes exactly the rows sent more than 7 days (604800 seconds) ago and
      reorders nothing. */
  lemma CleanUpMembers(rows: seq<Row>, now: nat)
    ensures forall r :: r in CleanUp(rows, now) <==>
              r in rows && !(r.publishedAt.Some? && r.publishedAt.value + 604800 < now)
    ensures forall r :: r in CleanUp(rows, now) <==> r in rows && !Expired(r, now)
    ensures Sorted(rows) ==> Sorted(CleanUp(rows, now))
    ensures UniqueIds(rows) ==> UniqueIds(CleanUp(rows, now))
  {
    CleanUpKeeps(rows, now);
    CleanUpOrder(rows, now);
  }
}
