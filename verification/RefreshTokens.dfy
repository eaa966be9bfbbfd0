/** Refresh-token families (src/auth/refresh-token.service.ts): issue, rotate with reuse
    detection, revoke.  Each transaction is one atomic step.  A token stands for its HMAC;
    `token_hash` is unique, so an insert of a stored hash fails and rolls back.  Instants are
    milliseconds. */
module RefreshTokens {
  import opened Base

  const REFRESH_TTL_MS: nat := 7 * 24 * 60 * 60 * 1000
  const REFRESH_ABSOLUTE_TTL_MS: nat := 30 * 24 * 60 * 60 * 1000

  datatype Row = Row(
    token: string, userId: nat, familyId: nat, createdAt: nat,
    usedAt: Option<nat>, revokedAt: Option<nat>, expiresAt: nat, startedAt: nat)

  datatype Reason = Unknown | Revoked | Reused | Expired

  datatype Rotation =
    | Rotated(userId: nat, familyId: nat, token: string)
    | Rejected(reason: Reason)
    | Threw

  predicate TokenChar(c: char) {
    'A' <= c <= 'Z' || 'a' <= c <= 'z' || '0' <= c <= '9' || c == '_' || c == '-'
  }

  predicate MatchesPattern(token: string) {
    |token| == 43 && forall i :: 0 <= i < |token| ==> TokenChar(token[i])
  }

  // ---------------------------------------------------------------- the statements

  /** SELECT ... WHERE token_hash = ?  The position of the row, or the table's length. */
  function Find(rows: seq<Row>, token: string): (i: nat)
    ensures i <= |rows|
    ensures i < |rows| ==> rows[i].token == token
    ensures forall j :: 0 <= j < i ==> rows[j].token != token
  {
    if rows == [] || rows[0].token == token then 0
    else
      var i := Find(rows[1..], token);
      assert forall j :: 0 < j < 1 + i ==> rows[j] == rows[1..][j - 1];
      1 + i
  }

  function RevokeRow(row: Row, familyId: nat, now: nat): Row {
    if row.familyId == familyId && row.revokedAt.None? then row.(revokedAt := Some(now)) else row
  }

  /** UPDATE ... SET revoked_at = now() WHERE family_id = ? AND revoked_at IS NULL. */
  function RevokeRows(rows: seq<Row>, familyId: nat, now: nat): (r: seq<Row>)
    ensures |r| == |rows| && forall i :: 0 <= i < |rows| ==> r[i] == RevokeRow(rows[i], familyId, now)
  {
    seq(|rows|, i requires 0 <= i < |rows| => RevokeRow(rows[i], familyId, now))
  }

  /** Rows the UPDATE affects. */
  function LiveRows(rows: seq<Row>, familyId: nat): nat {
    if rows == [] then 0
    else
      var last := rows[|rows| - 1];
      LiveRows(rows[..|rows| - 1], familyId) + (if last.familyId == familyId && last.revokedAt.None? then 1 else 0)
  }

  function FirstRow(userId: nat, familyId: nat, token: string, now: nat): Row {
    Row(token, userId, familyId, now, None, None, now + REFRESH_TTL_MS, now)
  }

  function NextRow(row: Row, next: string, now: nat): Row {
    Row(next, row.userId, row.familyId, now, None, None,
        Min(now + REFRESH_TTL_MS, row.startedAt + REFRESH_ABSOLUTE_TTL_MS), row.startedAt)
  }

  /** The rotation transaction: revoked before used before expired, as the code tests them. */
  function Rotate(rows: seq<Row>, token: string, next: string, now: nat): (seq<Row>, Rotation) {
    var i := Find(rows, token);
    if !MatchesPattern(token) || i == |rows| then (rows, Rejected(Unknown))
    else
      var row := rows[i];
      if row.revokedAt.Some? then (rows, Rejected(Revoked))
      else if row.usedAt.Some? then (RevokeRows(rows, row.familyId, now), Rejected(Reused))
      else if row.expiresAt <= now then (rows, Rejected(Expired))
      else if Find(rows, next) < |rows| then (rows, Threw)
      else (rows[i := row.(usedAt := Some(now))] + [NextRow(row, next, now)], Rotated(row.userId, row.familyId, next))
  }

  class RefreshTokenService {
    var rows: seq<Row>

    constructor ()
      ensures rows == []
    {
      rows := [];
    }

    method Issue(userId: nat, familyId: nat, token: string, now: nat) returns (ok: bool)
      modifies this
      ensures ok <==> forall r :: r in old(rows) ==> r.token != token
      ensures rows == (if ok then old(rows) + [FirstRow(userId, familyId, token, now)] else old(rows))
      ensures ok ==> rows[|rows| - 1] == Row(token, userId, familyId, now, None, None, now + 604800000, now)
    {
      var i := Find(rows, token);
      ok := i == |rows|;
      assert !ok ==> rows[i] in rows;
      if ok {
        rows := rows + [Row(token, userId, familyId, now, None, None, now + REFRESH_TTL_MS, now)];
      }
    }

    method RevokeFamily(familyId: nat, now: nat) returns (affected: nat)
      modifies this
      ensures rows == RevokeRows(old(rows), familyId, now)
      ensures affected == LiveRows(old(rows), familyId)
    {
      affected := LiveRows(rows, familyId);
      rows := RevokeRows(rows, familyId, now);
    }

    method RotateToken(token: string, next: string, now: nat) returns (result: Rotation, revokedRows: nat)
      modifies this
      ensures (rows, result) == Rotate(old(rows), token, next, now)
      ensures result == Rejected(Reused) ==>
        revokedRows == LiveRows(old(rows), old(rows)[Find(old(rows), token)].familyId)
      ensures result != Rejected(Reused) ==> revokedRows == 0
    {
      revokedRows := 0;
      if !MatchesPattern(token) {
        return Rejected(Unknown), 0;
      }
      var i := Find(rows, token);
      if i == |rows| {
        return Rejected(Unknown), 0;
      }
      var row := rows[i];
      if row.revokedAt.Some? {
        return Rejected(Revoked), 0;
      }
      if row.usedAt.Some? {
        revokedRows := RevokeFamily(row.familyId, now);
        return Rejected(Reused), revokedRows;
      }
      if row.expiresAt <= now {
        return Rejected(Expired), 0;
      }
      var tx := rows[i := row.(usedAt := Some(now))];
      if Find(rows, next) < |rows| {
        return Threw, 0;
      }
      rows := tx + [NextRow(row, next, now)];
      result := Rotated(row.userId, row.familyId, next);
    }
  }

  // ---------------------------------------------------------------- runs

  datatype Step =
    | Login(userId: nat, familyId: nat, token: string)
    | Refresh(token: string, next: string)
    | Revoke(familyId: nat)
    | Tick(elapsed: nat)

  /** `rotations` is a history: tokens that were rotated successfully, in order. */
  datatype State = State(rows: seq<Row>, now: nat, rotations: seq<string>)

  /** Family ids and tokens handed out are random; the model asks that they are new. */
  ghost predicate Enabled(s: State, step: Step) {
    match step
    case Login(_, f, token) =>
      MatchesPattern(token) && Find(s.rows, token) == |s.rows| && forall i :: 0 <= i < |s.rows| ==> s.rows[i].familyId != f
    case Refresh(_, next) => MatchesPattern(next)
    case Revoke(_) => true
    case Tick(_) => true
  }

  function Apply(s: State, step: Step): State {
    match step
    case Login(u, f, token) => s.(rows := s.rows + [FirstRow(u, f, token, s.now)])
    case Refresh(token, next) =>
      var (rows, result) := Rotate(s.rows, token, next, s.now);
      s.(rows := rows, rotations := if result.Rotated? then s.rotations + [token] else s.rotations)
    case Revoke(f) => s.(rows := RevokeRows(s.rows, f, s.now))
    case Tick(d) => s.(now := s.now + d)
  }

  ghost predicate Runs(s: State, steps: seq<Step>)
    decreases |steps|
  {
    steps == [] || (Enabled(s, steps[0]) && Runs(Apply(s, steps[0]), steps[1..]))
  }

  function Final(s: State, steps: seq<Step>): State
    decreases |steps|
  {
    if steps == [] then s else Final(Apply(s, steps[0]), steps[1..])
  }

  // ---------------------------------------------------------------- invariant

  /** The family of each row, in insertion order. */
  function Fams(rows: seq<Row>): (fams: seq<nat>)
    ensures |fams| == |rows| && forall i :: 0 <= i < |rows| ==> fams[i] == rows[i].familyId
  {
    seq(|rows|, i requires 0 <= i < |rows| => rows[i].familyId)
  }

  /** Position i is the youngest of its family. */
  ghost predicate Newest(fams: seq<nat>, i: nat) {
    i < |fams| && forall j :: i < j < |fams| ==> fams[j] != fams[i]
  }

  /** Position j directly follows position i in their family. */
  ghost predicate Follows(fams: seq<nat>, i: nat, j: nat) {
    i < j < |fams| && fams[i] == fams[j] && forall k :: i < k < j ==> fams[k] != fams[i]
  }

  ghost predicate SameFamilyOk(a: Row, b: Row) {
    a.familyId == b.familyId ==> a.userId == b.userId && a.startedAt == b.startedAt && a.revokedAt == b.revokedAt
  }

  ghost predicate RowOk(row: Row, now: nat) {
    && MatchesPattern(row.token)
    && row.startedAt <= row.createdAt <= now
    && row.expiresAt == Min(row.createdAt + 604800000, row.startedAt + 2592000000)   // 7 and 30 days
    && (row.usedAt.Some? ==> row.usedAt.value < row.expiresAt)
  }

  /** Every family is a chain: exactly its newest row is unused, and a row was used at the
      instant its successor was created. */
  ghost predicate ChainsOk(rows: seq<Row>) {
    && (forall i: nat :: i < |rows| ==> (rows[i].usedAt.None? <==> Newest(Fams(rows), i)))
    && (forall i: nat, j: nat :: Follows(Fams(rows), i, j) ==> rows[i].usedAt == Some(rows[j].createdAt))
  }

  ghost predicate FamiliesOk(rows: seq<Row>, now: nat) {
    && (forall i, j :: 0 <= i < j < |rows| ==> rows[i].token != rows[j].token)
    && (forall i, j :: 0 <= i < j < |rows| ==> SameFamilyOk(rows[i], rows[j]))
    && (forall i :: 0 <= i < |rows| ==> RowOk(rows[i], now))
  }

  /** A token has been rotated iff its row is marked used; nothing is rotated twice. */
  ghost predicate RotationsOk(rows: seq<Row>, rotations: seq<string>) {
    && Distinct(rotations)
    && (forall i :: 0 <= i < |rows| ==> (rows[i].token in rotations <==> rows[i].usedAt.Some?))
    && (forall t :: t in rotations ==> exists i :: 0 <= i < |rows| && rows[i].token == t)
  }

  ghost predicate Inv(s: State) {
    FamiliesOk(s.rows, s.now) && ChainsOk(s.rows) && RotationsOk(s.rows, s.rotations)
  }

  lemma RevokeKeepsChains(rows: seq<Row>, f: nat, now: nat, rotations: seq<string>)
    requires ChainsOk(rows) && RotationsOk(rows, rotations)
    ensures ChainsOk(RevokeRows(rows, f, now)) && RotationsOk(RevokeRows(rows, f, now), rotations)
  {
    var rows' := RevokeRows(rows, f, now);
    assert Fams(rows') == Fams(rows);
    forall t | t in rotations ensures exists i :: 0 <= i < |rows'| && rows'[i].token == t {
      var i :| 0 <= i < |rows| && rows[i].token == t;
      assert rows'[i].token == t;
    }
  }

  lemma RevokeKeepsFamilies(rows: seq<Row>, f: nat, now: nat)
    requires FamiliesOk(rows, now)
    ensures FamiliesOk(RevokeRows(rows, f, now), now)
  {
    var rows' := RevokeRows(rows, f, now);
    forall i, j | 0 <= i < j < |rows'| ensures SameFamilyOk(rows'[i], rows'[j]) && rows'[i].token != rows'[j].token {
      assert SameFamilyOk(rows[i], rows[j]);
    }
    forall i | 0 <= i < |rows'| ensures RowOk(rows'[i], now) { assert RowOk(rows[i], now); }
  }

  /** The rows after a successful rotation of row i. */
  function Extended(rows: seq<Row>, i: nat, next: string, now: nat): seq<Row>
    requires i < |rows|
  {
    rows[i := rows[i].(usedAt := Some(now))] + [NextRow(rows[i], next, now)]
  }

  lemma NextRowOk(row: Row, next: string, now: nat)
    requires RowOk(row, now) && MatchesPattern(next) && now < row.expiresAt
    ensures RowOk(NextRow(row, next, now), now) && RowOk(row.(usedAt := Some(now)), now)
  {
  }

  lemma ExtendFamilies(rows: seq<Row>, i: nat, next: string, now: nat)
    requires FamiliesOk(rows, now) && i < |rows|
    requires rows[i].revokedAt.None? && now < rows[i].expiresAt
    requires MatchesPattern(next) && Find(rows, next) == |rows|
    ensures FamiliesOk(Extended(rows, i, next, now), now)
  {
    var n, rows' := |rows|, Extended(rows, i, next, now);
    NextRowOk(rows[i], next, now);
    forall j | 0 <= j < n ensures RowOk(rows'[j], now) {
      assert RowOk(rows[j], now);
    }
    forall j | 0 <= j < n ensures SameFamilyOk(rows'[j], rows'[n]) && rows'[j].token != rows'[n].token {
      assert j < i ==> SameFamilyOk(rows[j], rows[i]);
      assert i < j ==> SameFamilyOk(rows[i], rows[j]);
    }
    forall j, k | 0 <= j < k < n ensures SameFamilyOk(rows'[j], rows'[k]) && rows'[j].token != rows'[k].token {
      assert SameFamilyOk(rows[j], rows[k]) && rows[j].token != rows[k].token;
    }
  }

  /** A new row makes its family's previous newest row old and changes no other verdict. */
  lemma AppendFam(fams: seq<nat>, f: nat)
    ensures Newest(fams + [f], |fams|)
    ensures forall j: nat :: j < |fams| ==> (Newest(fams + [f], j) <==> Newest(fams, j) && fams[j] != f)
    ensures forall j: nat, k: nat :: Follows(fams + [f], j, k) <==>
              Follows(fams, j, k) || (k == |fams| && Newest(fams, j) && fams[j] == f)
  {
    var fams' := fams + [f];
    assert fams'[|fams|] == f && forall m :: 0 <= m < |fams| ==> fams'[m] == fams[m];
    forall j: nat, k: nat ensures Follows(fams', j, k) <==> Follows(fams, j, k) || (k == |fams| && Newest(fams, j) && fams[j] == f) {
      if k == |fams| && j < k && Follows(fams', j, k) {
        assert forall m :: j < m < |fams| ==> fams'[m] != fams'[j];
      }
    }
  }

  lemma ExtendChains(rows: seq<Row>, i: nat, next: string, now: nat)
    requires ChainsOk(rows) && i < |rows| && rows[i].usedAt.None?
    ensures ChainsOk(Extended(rows, i, next, now))
  {
    var rows' := Extended(rows, i, next, now);
    var fams, f := Fams(rows), rows[i].familyId;
    assert Fams(rows') == fams + [f];
    AppendFam(fams, f);
    forall j: nat | j < |rows| && Newest(fams, j) && fams[j] == f ensures j == i {
      assert Newest(fams, i) && (j < i || i <= j);
    }
  }

  lemma ExtendRotations(rows: seq<Row>, i: nat, next: string, now: nat, rotations: seq<string>)
    requires FamiliesOk(rows, now) && RotationsOk(rows, rotations) && i < |rows| && rows[i].usedAt.None?
    requires Find(rows, next) == |rows|
    ensures RotationsOk(Extended(rows, i, next, now), rotations + [rows[i].token])
  {
    var n, rows', rotations' := |rows|, Extended(rows, i, next, now), rotations + [rows[i].token];
    forall j | 0 <= j < |rows'| ensures rows'[j].token in rotations' <==> rows'[j].usedAt.Some? {
      if j == n {
        assert next !in rotations;
      } else {
        assert j != i ==> rows[j].token != rows[i].token;
      }
    }
    forall t | t in rotations' ensures exists j :: 0 <= j < |rows'| && rows'[j].token == t {
      if t in rotations {
        var j :| 0 <= j < n && rows[j].token == t;
        assert rows'[j].token == t;
      } else {
        assert rows'[i].token == t;
      }
    }
  }

  lemma LoginChains(rows: seq<Row>, row: Row)
    requires ChainsOk(rows) && row.usedAt.None? && forall i :: 0 <= i < |rows| ==> rows[i].familyId != row.familyId
    ensures ChainsOk(rows + [row])
  {
    assert Fams(rows + [row]) == Fams(rows) + [row.familyId];
    AppendFam(Fams(rows), row.familyId);
  }

  lemma LoginFamilies(rows: seq<Row>, row: Row, now: nat)
    requires FamiliesOk(rows, now) && RowOk(row, now) && Find(rows, row.token) == |rows|
    requires forall i :: 0 <= i < |rows| ==> rows[i].familyId != row.familyId
    ensures FamiliesOk(rows + [row], now)
  {
    var rows' := rows + [row];
    forall i, j | 0 <= i < j < |rows'| ensures rows'[i].token != rows'[j].token && SameFamilyOk(rows'[i], rows'[j]) {
      assert j < |rows| ==> SameFamilyOk(rows[i], rows[j]);
    }
  }

  lemma LoginRotations(rows: seq<Row>, row: Row, rotations: seq<string>)
    requires RotationsOk(rows, rotations) && row.usedAt.None? && Find(rows, row.token) == |rows|
    ensures RotationsOk(rows + [row], rotations)
  {
    var rows' := rows + [row];
    assert row.token !in rotations;
    forall t | t in rotations ensures exists i :: 0 <= i < |rows'| && rows'[i].token == t {
      var i :| 0 <= i < |rows| && rows[i].token == t;
      assert rows'[i].token == t;
    }
  }

  lemma RefreshKeeps(s: State, token: string, next: string)
    requires Inv(s) && MatchesPattern(next)
    ensures Inv(Apply(s, Refresh(token, next)))
  {
    var i := Find(s.rows, token);
    var result := Rotate(s.rows, token, next, s.now).1;
    if result == Rejected(Reused) {
      RevokeKeepsChains(s.rows, s.rows[i].familyId, s.now, s.rotations);
      RevokeKeepsFamilies(s.rows, s.rows[i].familyId, s.now);
    } else if result.Rotated? {
      ExtendFamilies(s.rows, i, next, s.now);
      ExtendChains(s.rows, i, next, s.now);
      ExtendRotations(s.rows, i, next, s.now, s.rotations);
    }
  }

  lemma InvStep(s: State, step: Step)
    requires Inv(s) && Enabled(s, step)
    ensures Inv(Apply(s, step))
  {
    match step {
      case Login(u, f, token) =>
        LoginFamilies(s.rows, FirstRow(u, f, token, s.now), s.now);
        LoginChains(s.rows, FirstRow(u, f, token, s.now));
        LoginRotations(s.rows, FirstRow(u, f, token, s.now), s.rotations);
      case Refresh(token, next) => RefreshKeeps(s, token, next);
      case Revoke(f) =>
        RevokeKeepsChains(s.rows, f, s.now, s.rotations);
        RevokeKeepsFamilies(s.rows, f, s.now);
      case Tick(_) =>
    }
  }

  lemma {:induction false} InvRun(s: State, steps: seq<Step>)
    requires Inv(s) && Runs(s, steps)
    ensures Inv(Final(s, steps))
    decreases |steps|
  {
    if steps != [] {
      InvStep(s, steps[0]);
      InvRun(Apply(s, steps[0]), steps[1..]);
    }
  }

  // ---------------------------------------------------------------- theorems

  function Init(now: nat): State { State([], now, []) }

  /** Position j is unused, belongs to family f, and no other row of f is unused. */
  ghost predicate IsTheUnusedRow(rows: seq<Row>, f: nat, j: nat) {
    && j < |rows| && rows[j].familyId == f && rows[j].usedAt.None?
    && forall k :: 0 <= k < |rows| && rows[k].familyId == f && rows[k].usedAt.None? ==> k == j
  }

  ghost predicate HasOneUnusedRow(rows: seq<Row>, f: nat) {
    exists j: nat :: IsTheUnusedRow(rows, f, j)
  }

  lemma {:induction false} NewestOf(fams: seq<nat>, i: nat) returns (j: nat)
    requires i < |fams|
    ensures Newest(fams, j) && fams[j] == fams[i]
    decreases |fams| - i
  {
    if Newest(fams, i) {
      j := i;
    } else {
      var k :| i < k < |fams| && fams[k] == fams[i];
      j := NewestOf(fams, k);
    }
  }

  lemma OneUnusedRow(rows: seq<Row>, i: nat) returns (j: nat)
    requires ChainsOk(rows) && i < |rows|
    ensures IsTheUnusedRow(rows, rows[i].familyId, j)
  {
    j := NewestOf(Fams(rows), i);
    forall k: nat | k < |rows| && rows[k].familyId == rows[i].familyId && rows[k].usedAt.None? ensures k == j {
      assert Newest(Fams(rows), k);
      assert k < j || j <= k;
    }
  }

  /** In every reachable state each family is a chain with exactly one unused row, its newest;
      its rows share user, start and revocation; each row was used at the moment its
      successor appeared and before it expired; and nothing lives past 30 days from the
      family's start. */
  lemma FamiliesAreChains(now: nat, steps: seq<Step>)
    requires Runs(Init(now), steps)
    ensures var s := Final(Init(now), steps);
      && ChainsOk(s.rows)
      && FamiliesOk(s.rows, s.now)
      && (forall i :: 0 <= i < |s.rows| ==> HasOneUnusedRow(s.rows, s.rows[i].familyId))
  {
    InvRun(Init(now), steps);
    var rows := Final(Init(now), steps).rows;
    forall i | 0 <= i < |rows| ensures HasOneUnusedRow(rows, rows[i].familyId) {
      var j := OneUnusedRow(rows, i);
    }
  }

  /** Over a whole run no token is rotated twice. */
  lemma RotatedAtMostOnce(now: nat, steps: seq<Step>)
    requires Runs(Init(now), steps)
    ensures Distinct(Final(Init(now), steps).rotations)
  {
    InvRun(Init(now), steps);
  }

  ghost predicate FamilyRevoked(rows: seq<Row>, f: nat) {
    forall i :: 0 <= i < |rows| && rows[i].familyId == f ==> rows[i].revokedAt.Some?
  }

  /** Rows of family f, wherever they stand, are the same in both tables. */
  ghost predicate FamilyUntouched(rows: seq<Row>, rows': seq<Row>, f: nat) {
    && |rows| <= |rows'|
    && (forall i :: 0 <= i < |rows| && (rows[i].familyId == f || rows'[i].familyId == f) ==> rows'[i] == rows[i])
    && (forall i :: |rows| <= i < |rows'| ==> rows'[i].familyId != f)
  }

  lemma RevokedStep(s: State, step: Step, f: nat, i: nat)
    requires Inv(s) && Enabled(s, step) && FamilyRevoked(s.rows, f)
    requires i < |s.rows| && s.rows[i].familyId == f
    ensures FamilyRevoked(Apply(s, step).rows, f) && FamilyUntouched(s.rows, Apply(s, step).rows, f)
  {
    if step.Refresh? {
      var k := Find(s.rows, step.token);
      if k < |s.rows| && s.rows[k].familyId != f {
        RotationIsLocal(s, step.token, step.next, f);
      }
    }
  }

  /** Once a family is revoked it never changes again, and no token of it is ever rotated:
      every later attempt is answered `revoked`. */
  lemma {:induction false} RevokedForever(s: State, steps: seq<Step>, f: nat, token: string, next: string)
    requires Inv(s) && Runs(s, steps) && FamilyRevoked(s.rows, f)
    requires var i := Find(s.rows, token); i < |s.rows| && s.rows[i].familyId == f
    ensures var s' := Final(s, steps);
      FamilyRevoked(s'.rows, f) && Rotate(s'.rows, token, next, s'.now) == (s'.rows, Rejected(Revoked))
    decreases |steps|
  {
    var i := Find(s.rows, token);
    assert RowOk(s.rows[i], s.now);
    if steps != [] {
      RevokedStep(s, steps[0], f, i);
      InvStep(s, steps[0]);
      var s1 := Apply(s, steps[0]);
      assert s1.rows[i].token == token;
      assert Find(s1.rows, token) == i;
      RevokedForever(s1, steps[1..], f, token, next);
    }
  }

  /** Positions of the rows that revoking a family changes. */
  function Changed(rows: seq<Row>, f: nat, now: nat): set<nat> {
    set i | 0 <= i < |rows| && RevokeRow(rows[i], f, now) != rows[i]
  }

  lemma {:induction false} LiveRowsAreChanged(rows: seq<Row>, f: nat, now: nat)
    ensures LiveRows(rows, f) == |Changed(rows, f, now)|
    decreases |rows|
  {
    if rows != [] {
      var n := |rows| - 1;
      LiveRowsAreChanged(rows[..n], f, now);
      var here := if RevokeRow(rows[n], f, now) != rows[n] then {n} else {};
      assert Changed(rows, f, now) == Changed(rows[..n], f, now) + here;
    }
  }

  /** Revoking a family, by reuse or by logout, leaves every row of it revoked and every other
      family as it was, and reports exactly the number of rows it changed. */
  lemma RevocationIsLocal(rows: seq<Row>, f: nat, now: nat, g: nat)
    ensures FamilyRevoked(RevokeRows(rows, f, now), f)
    ensures g != f ==> FamilyUntouched(rows, RevokeRows(rows, f, now), g)
    ensures LiveRows(rows, f) == |Changed(rows, f, now)|
    ensures forall i :: 0 <= i < |rows| && rows[i].familyId == f ==>
      RevokeRows(rows, f, now)[i] == if rows[i].revokedAt.None? then rows[i].(revokedAt := Some(now)) else rows[i]
  {
    LiveRowsAreChanged(rows, f, now);
  }

  /** A detected reuse is such a revocation of the token's family. */
  lemma ReuseRevokesOnlyItsFamily(s: State, token: string, next: string, g: nat)
    requires Inv(s) && Rotate(s.rows, token, next, s.now).1 == Rejected(Reused)
    ensures var f := s.rows[Find(s.rows, token)].familyId;
      var rows' := Rotate(s.rows, token, next, s.now).0;
      FamilyRevoked(rows', f) && (g != f ==> FamilyUntouched(s.rows, rows', g))
  {
    RevocationIsLocal(s.rows, s.rows[Find(s.rows, token)].familyId, s.now, g);
  }

  /** A rotation leaves the table alone, extends the token's family, or revokes it. */
  lemma RotateCases(rows: seq<Row>, token: string, next: string, now: nat)
    ensures var i, rows' := Find(rows, token), Rotate(rows, token, next, now).0;
      || rows' == rows
      || (i < |rows| && rows' == Extended(rows, i, next, now))
      || (i < |rows| && rows' == RevokeRows(rows, rows[i].familyId, now))
  {
  }

  /** A rotation, whatever its outcome, touches no family but the token's own. */
  lemma RotationIsLocal(s: State, token: string, next: string, g: nat)
    requires var i := Find(s.rows, token); i < |s.rows| ==> s.rows[i].familyId != g
    ensures FamilyUntouched(s.rows, Rotate(s.rows, token, next, s.now).0, g)
  {
    var i := Find(s.rows, token);
    RotateCases(s.rows, token, next, s.now);
    if i < |s.rows| {
      ExtendIsLocal(s.rows, i, next, s.now, g);
      RevocationIsLocal(s.rows, s.rows[i].familyId, s.now, g);
    }
    assert FamilyUntouched(s.rows, s.rows, g);
  }

  lemma ExtendIsLocal(rows: seq<Row>, i: nat, next: string, now: nat, g: nat)
    requires i < |rows| && rows[i].familyId != g
    ensures FamilyUntouched(rows, Extended(rows, i, next, now), g)
  {
  }

  /** No row stores this token. */
  ghost predicate Free(rows: seq<Row>, token: string) {
    forall i :: 0 <= i < |rows| ==> rows[i].token != token
  }

  lemma FindIs(rows: seq<Row>, i: nat)
    requires i < |rows| && forall j, k :: 0 <= j < k < |rows| ==> rows[j].token != rows[k].token
    ensures Find(rows, rows[i].token) == i
  {
    var k := Find(rows, rows[i].token);
    assert k <= i && rows[k].token == rows[i].token;
  }

  /** A rotation succeeds exactly for the unused, unexpired, unrevoked token of a family, when
      the new token is not already stored. */
  lemma RotationSucceedsIff(s: State, token: string, next: string)
    requires Inv(s)
    ensures Rotate(s.rows, token, next, s.now).1.Rotated? <==>
      && Free(s.rows, next)
      && exists i: nat :: Newest(Fams(s.rows), i) && s.rows[i].token == token &&
           s.rows[i].revokedAt.None? && s.now < s.rows[i].expiresAt
  {
    var k := Find(s.rows, token);
    if k < |s.rows| {
      assert RowOk(s.rows[k], s.now);
      forall i | 0 <= i < |s.rows| && s.rows[i].token == token ensures i == k {
        assert i < k || k <= i;
      }
    }
    var n := Find(s.rows, next);
    assert n < |s.rows| ==> s.rows[n].token == next;
  }

  /** A letter, a digit, '-' or '_', by its character code. */
  ghost predicate InAlphabet(c: char) {
    var code := c as int;
    65 <= code <= 90 || 97 <= code <= 122 || 48 <= code <= 57 || code == 45 || code == 95
  }

  lemma FreeIff(rows: seq<Row>, token: string)
    ensures Free(rows, token) <==> Find(rows, token) == |rows|
  {
    var k := Find(rows, token);
    assert k < |rows| ==> rows[k].token == token;
  }

  /** What is malformed is not stored. */
  lemma MalformedIsFree(s: State, token: string)
    requires Inv(s)
    requires |token| != 43 || exists k :: 0 <= k < |token| && !InAlphabet(token[k])
    ensures Free(s.rows, token)
  {
    forall i | 0 <= i < |s.rows| ensures s.rows[i].token != token {
      assert RowOk(s.rows[i], s.now);
    }
  }

  /** What becomes of a well-formed token that is stored in row i. */
  lemma RotateAt(rows: seq<Row>, i: nat, next: string, now: nat)
    requires i < |rows| && Find(rows, rows[i].token) == i && MatchesPattern(rows[i].token)
    ensures var row, (rows', result) := rows[i], Rotate(rows, rows[i].token, next, now);
      && (result == Rejected(Revoked) <==> row.revokedAt.Some?)
      && (result == Rejected(Reused) <==> row.revokedAt.None? && row.usedAt.Some?)
      && (result == Rejected(Expired) <==> row.revokedAt.None? && row.usedAt.None? && row.expiresAt <= now)
      && result != Rejected(Unknown)
      && (result == Rejected(Revoked) || result == Rejected(Expired) ==> rows' == rows)
      && (result.Rotated? <==>
            row.revokedAt.None? && row.usedAt.None? && now < row.expiresAt && Find(rows, next) == |rows|)
  {
  }

  /** Every refusal has its one reason, tested in this order: the token is not 43 characters
      of the base64url alphabet or not stored; its row is revoked; used; over. */
  lemma RefusalsAre(s: State, token: string, next: string)
    requires Inv(s)
    ensures var (rows', result) := Rotate(s.rows, token, next, s.now);
      && (result == Rejected(Unknown) <==> Free(s.rows, token))
      && (result == Rejected(Unknown) || result == Rejected(Revoked) || result == Rejected(Expired) ==> rows' == s.rows)
      && forall i :: 0 <= i < |s.rows| && s.rows[i].token == token ==>
           var row := s.rows[i];
           && (result == Rejected(Revoked) <==> row.revokedAt.Some?)
           && (result == Rejected(Reused) <==> row.revokedAt.None? && row.usedAt.Some?)
           && (result == Rejected(Expired) <==> row.revokedAt.None? && row.usedAt.None? && row.expiresAt <= s.now)
  {
    FreeIff(s.rows, token);
    forall i | 0 <= i < |s.rows| && s.rows[i].token == token
      ensures Find(s.rows, token) == i && MatchesPattern(token)
    {
      FindIs(s.rows, i);
      assert RowOk(s.rows[i], s.now);
    }
    if i :| 0 <= i < |s.rows| && s.rows[i].token == token { RotateAt(s.rows, i, next, s.now); }
  }

  /** In every reachable state every token expires exactly 7 days after it was created or 30
      days after its family began, whichever comes first. */
  lemma ExpiryIsExact(now: nat, steps: seq<Step>)
    requires Runs(Init(now), steps)
    ensures forall row :: row in Final(Init(now), steps).rows ==>
      row.expiresAt == if row.createdAt + 604800000 < row.startedAt + 2592000000
                       then row.createdAt + 604800000 else row.startedAt + 2592000000
  {
    InvRun(Init(now), steps);
    var s := Final(Init(now), steps);
    forall i | 0 <= i < |s.rows| ensures RowOk(s.rows[i], s.now) {}
  }

  /** Hence the newest token of a family rotates at exactly the instants before both limits, as
      long as the family is not revoked and the new token is free. */
  lemma RotatesUntilItsLimits(now: nat, steps: seq<Step>, i: nat, next: string)
    requires Runs(Init(now), steps) && i < |Final(Init(now), steps).rows|
    requires var rows := Final(Init(now), steps).rows;
      forall j :: i < j < |rows| ==> rows[j].familyId != rows[i].familyId
    ensures var s := Final(Init(now), steps);
      var row := s.rows[i];
      Rotate(s.rows, row.token, next, s.now).1.Rotated? <==>
        && row.revokedAt.None? && Free(s.rows, next)
        && s.now < row.createdAt + 604800000 && s.now < row.startedAt + 2592000000
  {
    InvRun(Init(now), steps);
    var s := Final(Init(now), steps);
    FindIs(s.rows, i);
    assert RowOk(s.rows[i], s.now) && Newest(Fams(s.rows), i);
    FreeIff(s.rows, next);
    RotateAt(s.rows, i, next, s.now);
  }

  /** A successful rotation uses up the presented row and adds one, for the same user, family
      and start, holding the token handed out, with seven days of its own at most. */
  lemma RotationHandsOver(rows: seq<Row>, token: string, next: string, now: nat)
    requires Rotate(rows, token, next, now).1.Rotated?
    ensures var (rows', result) := Rotate(rows, token, next, now);
      exists i :: 0 <= i < |rows| && rows[i].token == token
        && result == Rotated(rows[i].userId, rows[i].familyId, next)
        && rows' == rows[i := rows[i].(usedAt := Some(now))]
             + [Row(next, rows[i].userId, rows[i].familyId, now, None, None,
                    Min(now + 604800000, rows[i].startedAt + 2592000000), rows[i].startedAt)]
  {
    assert rows[Find(rows, token)].token == token;
  }
}
