/** `login`, `refresh` and `logout` (src/auth/auth.service.ts) and the guard that every
    request passes (src/auth/auth.guard.ts): how the refresh-token table and the denylist
    work together over a whole run.  A request is one step per transaction, signature and
    denylist write, so requests interleave between them, and may end between them. */
module Auth {
  import opened Base
  import RT = RefreshTokens
  import opened Denylist

  /** `signedAt` is a history; the token itself carries `exp`. */
  datatype Access = Access(jti: string, familyId: nat, signedAt: nat)

  function Exp(a: Access): nat { ExpiryOf(a.signedAt) }

  /** verifyAccess, then the denylist; a denylist that cannot be read denies. */
  predicate GuardPasses(keys: Keys, a: Access, t: nat, redisOk: bool) {
    Unexpired(Exp(a), t) && redisOk && !IsDenied(keys, a.jti, Decimal(a.familyId), t)
  }

  datatype RefreshReply = Pair(access: Access, refreshToken: string) | Unauthorized | Error

  datatype LogoutReply = LoggedOut | Unavailable

  // ---------------------------------------------------------------- the service

  class AuthService {
    const tokens: RT.RefreshTokenService
    const denylist: AccessDenylist

    constructor (tokens: RT.RefreshTokenService, denylist: AccessDenylist)
      ensures this.tokens == tokens && this.denylist == denylist
    {
      this.tokens := tokens;
      this.denylist := denylist;
    }

    /** `next` and `jti` are the fresh random values; `userFound`: the owner still exists;
        `redisOk`: the denylist write of a detected reuse goes through. */
    method Refresh(token: string, next: string, jti: string, now: nat, userFound: bool, redisOk: bool)
      returns (reply: RefreshReply)
      modifies tokens, denylist
      ensures var (rows, result) := RT.Rotate(old(tokens.rows), token, next, now);
        && tokens.rows == rows
        && denylist.keys == AfterRotation(old(denylist.keys), old(tokens.rows), token, result, now, redisOk)
        && reply == ReplyTo(result, jti, now, userFound)
    {
      var i := RT.Find(tokens.rows, token);
      var family := if i < |tokens.rows| then tokens.rows[i].familyId else 0;
      var result, _ := tokens.RotateToken(token, next, now);
      match result {
        case Rejected(reason) =>
          if reason == RT.Reused && redisOk {
            denylist.DenyFamily(Decimal(family), now);
          }
          reply := Unauthorized;
        case Threw => reply := Error;
        case Rotated(_, f, t) =>
          reply := if userFound then Pair(Access(jti, f, now), t) else Unauthorized;
      }
    }

    /** The database first: a failing denylist leaves the family revoked all the same. */
    method Logout(a: Access, now: nat, redisOk: bool) returns (reply: LogoutReply)
      modifies tokens, denylist
      ensures tokens.rows == RT.RevokeRows(old(tokens.rows), a.familyId, now)
      ensures denylist.keys == (if redisOk then RevokeAccess(old(denylist.keys), a.jti, Exp(a), now) else old(denylist.keys))
      ensures reply == LoggedOut <==> redisOk
    {
      var affected := tokens.RevokeFamily(a.familyId, now);
      if !redisOk {
        return Unavailable;
      }
      var written := denylist.Revoke(a.jti, Exp(a), now);
      return LoggedOut;
    }
  }

  function ReplyTo(result: RT.Rotation, jti: string, now: nat, userFound: bool): RefreshReply {
    match result
    case Rotated(_, f, t) => if userFound then Pair(Access(jti, f, now), t) else Unauthorized
    case Rejected(_) => Unauthorized
    case Threw => Error
  }

  function AfterRotation(keys: Keys, rows: seq<RT.Row>, token: string, result: RT.Rotation, now: nat, redisOk: bool): Keys {
    var i := RT.Find(rows, token);
    if result == RT.Rejected(RT.Reused) && redisOk && i < |rows|
    then RevokeFamily(keys, Decimal(rows[i].familyId), now) else keys
  }

  // ---------------------------------------------------------------- runs

  /** `signing`: families for which a request is about to sign an access token; `denying`:
      families whose detected reuse is about to be written to the denylist; `leaving`: access
      tokens of logouts about to be written.  `issued`, `left` and `denials` are histories:
      every token ever signed, the tokens of completed logouts, and for each family the
      instant of its last denial. */
  datatype State = State(
    tokens: RT.State,
    keys: Keys,
    signing: multiset<nat>,
    denying: multiset<nat>,
    leaving: multiset<Access>,
    issued: set<Access>,
    left: set<Access>,
    denials: map<nat, nat>)

  datatype Step =
    | Login(userId: nat, familyId: nat, token: string)
    | Refresh(token: string, next: string)
    | Sign(familyId: nat, jti: string)
    | GiveUp(familyId: nat)
    | DenyReuse(familyId: nat)
    | SkipReuse(familyId: nat)
    | Logout(access: Access)
    | DenyAccess(access: Access)
    | SkipAccess(access: Access)
    | Tick(elapsed: nat)

  /** The step of the refresh-token table that an authentication step contains. */
  function TableStep(step: Step): RT.Step {
    match step
    case Login(u, f, token) => RT.Login(u, f, token)
    case Refresh(token, next) => RT.Refresh(token, next)
    case Logout(a) => RT.Revoke(a.familyId)
    case Tick(d) => RT.Tick(d)
    case _ => RT.Tick(0)
  }

  ghost predicate NewJti(issued: set<Access>, jti: string) {
    forall a :: a in issued ==> a.jti != jti
  }

  ghost predicate Enabled(s: State, step: Step) {
    && RT.Enabled(s.tokens, TableStep(step))
    && match step
       case Login(_, _, _) => true
       case Refresh(_, _) => true
       case Sign(f, jti) => f in s.signing && NewJti(s.issued, jti)
       case GiveUp(f) => f in s.signing
       case DenyReuse(f) => f in s.denying
       case SkipReuse(f) => f in s.denying
       case Logout(a) => a in s.issued && GuardPasses(s.keys, a, s.tokens.now, true)
       case DenyAccess(a) => a in s.leaving && a in s.issued
       case SkipAccess(a) => a in s.leaving
       case Tick(_) => true
  }

  /** The family whose reuse this refresh reveals. */
  function ReusedFamily(rows: seq<RT.Row>, token: string, next: string, now: nat): Option<nat> {
    var i := RT.Find(rows, token);
    if RT.Rotate(rows, token, next, now).1 == RT.Rejected(RT.Reused) && i < |rows| then Some(rows[i].familyId) else None
  }

  ghost function Apply(s: State, step: Step): State
    requires Enabled(s, step)
  {
    var now := s.tokens.now;
    var s1 := s.(tokens := RT.Apply(s.tokens, TableStep(step)));
    match step
    case Login(_, f, _) => s1.(signing := s.signing + multiset{f})
    case Refresh(token, next) =>
      var result, reused := RT.Rotate(s.tokens.rows, token, next, now).1, ReusedFamily(s.tokens.rows, token, next, now);
      s1.(signing := if result.Rotated? then s.signing + multiset{result.familyId} else s.signing,
          denying := if reused.Some? then s.denying + multiset{reused.value} else s.denying)
    case Sign(f, jti) => s1.(signing := s.signing - multiset{f}, issued := s.issued + {Access(jti, f, now)})
    case GiveUp(f) => s1.(signing := s.signing - multiset{f})
    case DenyReuse(f) =>
      s1.(denying := s.denying - multiset{f}, keys := RevokeFamily(s.keys, Decimal(f), now), denials := s.denials[f := now])
    case SkipReuse(f) => s1.(denying := s.denying - multiset{f})
    case Logout(a) => s1.(leaving := s.leaving + multiset{a})
    case DenyAccess(a) =>
      s1.(leaving := s.leaving - multiset{a}, keys := RevokeAccess(s.keys, a.jti, Exp(a), now), left := s.left + {a})
    case SkipAccess(a) => s1.(leaving := s.leaving - multiset{a})
    case Tick(_) => s1
  }

  ghost predicate Runs(s: State, steps: seq<Step>)
    decreases |steps|
  {
    steps == [] || (Enabled(s, steps[0]) && Runs(Apply(s, steps[0]), steps[1..]))
  }

  ghost function Final(s: State, steps: seq<Step>): State
    requires Runs(s, steps)
    decreases |steps|
  {
    if steps == [] then s else Final(Apply(s, steps[0]), steps[1..])
  }

  function TableSteps(steps: seq<Step>): seq<RT.Step> {
    seq(|steps|, i requires 0 <= i < |steps| => TableStep(steps[i]))
  }

  /** Seen from the refresh-token table, an authentication run is a run of that table. */
  lemma {:induction false} RunProjects(s: State, steps: seq<Step>)
    requires Runs(s, steps)
    ensures RT.Runs(s.tokens, TableSteps(steps)) && Final(s, steps).tokens == RT.Final(s.tokens, TableSteps(steps))
    decreases |steps|
  {
    if steps != [] {
      assert TableSteps(steps)[1..] == TableSteps(steps[1..]);
      RunProjects(Apply(s, steps[0]), steps[1..]);
    }
  }

  // ---------------------------------------------------------------- invariant

  ghost predicate IssuedOk(issued: set<Access>, now: nat) {
    && (forall a, b :: a in issued && b in issued && a.jti == b.jti ==> a == b)
    && (forall a :: a in issued ==> a.signedAt <= now)
  }

  /** The key of a token is there if its logout completed, as long as that matters, and only
      if it did. */
  ghost predicate JtiKeyOk(keys: Keys, a: Access, left: set<Access>, now: nat) {
    && (JtiKey(a.jti) in keys ==> a in left)
    && (a in left && Unexpired(Exp(a), now) ==> JtiKey(a.jti) in keys && keys[JtiKey(a.jti)] >= 1000 * Exp(a))
  }

  /** The key of a family is there iff it was denied, and lasts 600 s from its last denial. */
  ghost predicate FamilyKeyOk(keys: Keys, f: nat, denials: map<nat, nat>) {
    && (FamilyKey(Decimal(f)) in keys <==> f in denials)
    && (f in denials ==> keys[FamilyKey(Decimal(f))] == denials[f] + 1000 * ACCESS_TTL_SEC)
  }

  ghost predicate KeysOk(keys: Keys, issued: set<Access>, left: set<Access>, denials: map<nat, nat>, now: nat) {
    && left <= issued
    && (forall a :: a in issued ==> JtiKeyOk(keys, a, left, now))
    && (forall f :: FamilyKeyOk(keys, f, denials))
    && (forall k :: k in keys ==> KeyOfToken(k, issued) || KeyOfFamily(k))
  }

  ghost predicate KeyOfToken(k: string, issued: set<Access>) {
    exists a :: a in issued && k == JtiKey(a.jti)
  }

  ghost predicate KeyOfFamily(k: string) {
    exists f: nat :: k == FamilyKey(Decimal(f))
  }

  ghost predicate Inv(s: State) {
    && RT.Inv(s.tokens)
    && IssuedOk(s.issued, s.tokens.now)
    && KeysOk(s.keys, s.issued, s.left, s.denials, s.tokens.now)
  }

  lemma SignKeeps(keys: Keys, issued: set<Access>, left: set<Access>, denials: map<nat, nat>, now: nat, a: Access)
    requires KeysOk(keys, issued, left, denials, now) && NewJti(issued, a.jti)
    ensures KeysOk(keys, issued + {a}, left, denials, now)
  {
    assert forall k :: KeyOfToken(k, issued) ==> KeyOfToken(k, issued + {a});
    if JtiKey(a.jti) in keys {
      assert KeyOfToken(JtiKey(a.jti), issued) || KeyOfFamily(JtiKey(a.jti));
      if b :| b in issued && JtiKey(a.jti) == JtiKey(b.jti) {
        KeysApart(a.jti, b.jti);
      } else {
        var f: nat :| JtiKey(a.jti) == FamilyKey(Decimal(f));
        KeysApart(a.jti, Decimal(f));
      }
    }
  }

  lemma DenyReuseKeeps(keys: Keys, issued: set<Access>, left: set<Access>, denials: map<nat, nat>, now: nat, f: nat)
    requires KeysOk(keys, issued, left, denials, now)
    ensures KeysOk(RevokeFamily(keys, Decimal(f), now), issued, left, denials[f := now], now)
  {
    var keys', denials' := RevokeFamily(keys, Decimal(f), now), denials[f := now];
    assert KeyOfFamily(FamilyKey(Decimal(f)));
    forall a | a in issued ensures JtiKeyOk(keys', a, left, now) {
      KeysApart(a.jti, Decimal(f));
    }
    forall g ensures FamilyKeyOk(keys', g, denials') {
      assert FamilyKeyOk(keys, g, denials);
      KeysApart(Decimal(g), Decimal(f));
      if g != f && Decimal(g) == Decimal(f) { DecimalInjective(g, f); }
    }
  }

  lemma DenyAccessKeeps(keys: Keys, issued: set<Access>, left: set<Access>, denials: map<nat, nat>, now: nat, b: Access)
    requires KeysOk(keys, issued, left, denials, now) && IssuedOk(issued, now) && b in issued
    ensures KeysOk(RevokeAccess(keys, b.jti, Exp(b), now), issued, left + {b}, denials, now)
  {
    var keys' := RevokeAccess(keys, b.jti, Exp(b), now);
    CeilingCovers(Exp(b), now);
    assert KeyOfToken(JtiKey(b.jti), issued);
    forall a | a in issued ensures JtiKeyOk(keys', a, left + {b}, now) {
      assert JtiKeyOk(keys, a, left, now);
      KeysApart(a.jti, b.jti);
    }
    forall f ensures FamilyKeyOk(keys', f, denials) {
      assert FamilyKeyOk(keys, f, denials);
      KeysApart(b.jti, Decimal(f));
    }
  }

  lemma TimeKeeps(keys: Keys, issued: set<Access>, left: set<Access>, denials: map<nat, nat>, now: nat, later: nat)
    requires KeysOk(keys, issued, left, denials, now) && now <= later
    ensures KeysOk(keys, issued, left, denials, later)
  {
    forall a | a in issued ensures JtiKeyOk(keys, a, left, later) {
      assert JtiKeyOk(keys, a, left, now);
    }
  }

  lemma InvStep(s: State, step: Step)
    requires Inv(s) && Enabled(s, step)
    ensures Inv(Apply(s, step))
  {
    RT.InvStep(s.tokens, TableStep(step));
    var now := s.tokens.now;
    match step {
      case Sign(f, jti) => SignKeeps(s.keys, s.issued, s.left, s.denials, now, Access(jti, f, now));
      case DenyReuse(f) => DenyReuseKeeps(s.keys, s.issued, s.left, s.denials, now, f);
      case DenyAccess(a) => DenyAccessKeeps(s.keys, s.issued, s.left, s.denials, now, a);
      case Tick(d) => TimeKeeps(s.keys, s.issued, s.left, s.denials, now, now + d);
      case _ =>
    }
  }

  lemma {:induction false} InvRun(s: State, steps: seq<Step>)
    requires Inv(s) && Runs(s, steps)
    ensures Inv(Final(s, steps))
    decreases |steps|
  {
    if steps != [] {
      InvStep(s, steps[0]);
      InvRun(Apply(s, steps[0]), steps[1..]);
    }
  }

  // ---------------------------------------------------------------- access tokens

  function Init(now: nat): State {
    State(RT.Init(now), map[], multiset{}, multiset{}, multiset{}, {}, {}, map[])
  }

  /** A denial of the token's family is in force. */
  predicate FamilyDenied(denials: map<nat, nat>, f: nat, now: nat) {
    f in denials && now < denials[f] + 1000 * ACCESS_TTL_SEC
  }

  lemma Verdict(s: State, a: Access)
    requires Inv(s) && a in s.issued && Unexpired(Exp(a), s.tokens.now)
    ensures GuardPasses(s.keys, a, s.tokens.now, true) <==>
            (a !in s.left && !FamilyDenied(s.denials, a.familyId, s.tokens.now))
  {
    assert JtiKeyOk(s.keys, a, s.left, s.tokens.now) && FamilyKeyOk(s.keys, a.familyId, s.denials);
  }

  /** The guard is exact: in every reachable state a signed token passes iff the denylist can be
      read, the token is in its 600 seconds, no completed logout used it, and its family was
      not denied within the last 600 seconds. */
  lemma GuardIsExact(now: nat, steps: seq<Step>, a: Access, redisOk: bool)
    requires Runs(Init(now), steps) && a in Final(Init(now), steps).issued
    ensures var s := Final(Init(now), steps);
      var t, f := s.tokens.now, a.familyId;
      GuardPasses(s.keys, a, t, redisOk) <==>
        && redisOk && t / 1000 < a.signedAt / 1000 + 600
        && a !in s.left && !(f in s.denials && t < s.denials[f] + 600000)
  {
    InvRun(Init(now), steps);
    var s := Final(Init(now), steps);
    AccessLife(a.signedAt, s.tokens.now);
    if Unexpired(Exp(a), s.tokens.now) { Verdict(s, a); }
  }

  /** A denial or a logout changes the verdict on no token but the family's or its own. */
  lemma VerdictsAreLocal(s: State, step: Step, a: Access, t: nat)
    requires Inv(s) && Enabled(s, step) && a in s.issued
    requires (step.DenyReuse? && step.familyId != a.familyId) || (step.DenyAccess? && step.access != a)
    ensures IsDenied(Apply(s, step).keys, a.jti, Decimal(a.familyId), t) <==> IsDenied(s.keys, a.jti, Decimal(a.familyId), t)
  {
    var family := Decimal(a.familyId);
    if step.DenyReuse? {
      KeysApart(a.jti, Decimal(step.familyId));
      KeysApart(family, Decimal(step.familyId));
      if family == Decimal(step.familyId) { DecimalInjective(a.familyId, step.familyId); }
    } else {
      KeysApart(a.jti, step.access.jti);
      KeysApart(step.access.jti, family);
    }
  }

  /** What is denied stays denied: logouts are not undone, denials only move forward. */
  ghost predicate Lasts(s: State, s': State, a: Access, f: nat) {
    && s.issued <= s'.issued && (a in s.left ==> a in s'.left)
    && (f in s.denials && s.denials[f] <= s.tokens.now ==>
          f in s'.denials && s.denials[f] <= s'.denials[f] <= s'.tokens.now)
    && s.tokens.now <= s'.tokens.now
  }

  lemma LastsStep(s: State, step: Step, a: Access, f: nat)
    requires Enabled(s, step)
    ensures Lasts(s, Apply(s, step), a, f)
  {
  }

  lemma {:induction false} DenialsLast(s: State, steps: seq<Step>, a: Access, f: nat)
    requires Runs(s, steps)
    ensures Lasts(s, Final(s, steps), a, f)
    decreases |steps|
  {
    if steps != [] {
      LastsStep(s, steps[0], a, f);
      DenialsLast(Apply(s, steps[0]), steps[1..], a, f);
    }
  }

  /** Some reachable state, then an enabled step, then any continuation. */
  ghost predicate History(now: nat, before: seq<Step>, step: Step, after: seq<Step>) {
    && Runs(Init(now), before)
    && var s := Final(Init(now), before);
    Enabled(s, step) && Runs(Apply(s, step), after)
  }

  lemma NeverPasses(s: State, a: Access, redisOk: bool)
    requires Inv(s) && a in s.issued
    requires a in s.left || (a.familyId in s.denials && a.signedAt <= s.denials[a.familyId])
    ensures !GuardPasses(s.keys, a, s.tokens.now, redisOk)
  {
    if Unexpired(Exp(a), s.tokens.now) {
      Verdict(s, a);
      if a !in s.left { DenialCoversIff(s.denials[a.familyId], a.signedAt); }
    }
  }

  /** After a completed logout the access token used for it never passes the guard again. */
  lemma LogoutBlocksAccess(now: nat, before: seq<Step>, a: Access, after: seq<Step>, redisOk: bool)
    requires History(now, before, DenyAccess(a), after)
    ensures var s := Final(Apply(Final(Init(now), before), DenyAccess(a)), after);
      !GuardPasses(s.keys, a, s.tokens.now, redisOk)
  {
    var s := Apply(Final(Init(now), before), DenyAccess(a));
    InvRun(Init(now), before);
    InvStep(Final(Init(now), before), DenyAccess(a));
    DenialsLast(s, after, a, a.familyId);
    InvRun(s, after);
    NeverPasses(Final(s, after), a, redisOk);
  }

  /** Once the denial of a detected reuse is written, no access token of the family signed
      until then ever passes the guard again.  One signed later, by a refresh that had
      rotated before, passes only from 600 s after the denial on (GuardIsExact). */
  lemma ReuseBlocksAccess(now: nat, before: seq<Step>, f: nat, after: seq<Step>, a: Access, redisOk: bool)
    requires History(now, before, DenyReuse(f), after)
    requires a in Final(Init(now), before).issued && a.familyId == f
    ensures var s := Final(Apply(Final(Init(now), before), DenyReuse(f)), after);
      !GuardPasses(s.keys, a, s.tokens.now, redisOk)
  {
    var s := Apply(Final(Init(now), before), DenyReuse(f));
    InvRun(Init(now), before);
    InvStep(Final(Init(now), before), DenyReuse(f));
    DenialsLast(s, after, a, f);
    InvRun(s, after);
    NeverPasses(Final(s, after), a, redisOk);
  }

  // ---------------------------------------------------------------- refresh tokens

  /** Revoking changes neither where a token is found nor whose family it is in. */
  lemma RevokeKeepsPlace(rows: seq<RT.Row>, f: nat, now: nat, token: string)
    ensures RT.Find(RT.RevokeRows(rows, f, now), token) == RT.Find(rows, token)
    ensures RT.FamilyRevoked(RT.RevokeRows(rows, f, now), f)
  {
    var rows', i := RT.RevokeRows(rows, f, now), RT.Find(rows, token);
    assert i < |rows| ==> rows'[i].token == token;
    assert forall j :: 0 <= j < |rows| ==> rows'[j].token == rows[j].token;
  }

  /** The token is stored and belongs to family f. */
  ghost predicate InFamily(rows: seq<RT.Row>, token: string, f: nat) {
    var i := RT.Find(rows, token);
    i < |rows| && rows[i].familyId == f
  }

  lemma DeadForever(s: State, steps: seq<Step>, f: nat, token: string, next: string)
    requires Inv(s) && Runs(s, steps) && RT.FamilyRevoked(s.tokens.rows, f) && InFamily(s.tokens.rows, token, f)
    ensures var s' := Final(s, steps);
      RT.Rotate(s'.tokens.rows, token, next, s'.tokens.now) == (s'.tokens.rows, RT.Rejected(RT.Revoked))
  {
    RunProjects(s, steps);
    RT.RevokedForever(s.tokens, TableSteps(steps), f, token, next);
  }

  /** The step revokes family f: a logout, or a refresh that reveals its reuse. */
  ghost predicate Revokes(s: State, step: Step, f: nat) {
    || (step.Logout? && step.access.familyId == f)
    || (step.Refresh? && ReusedFamily(s.tokens.rows, step.token, step.next, s.tokens.now) == Some(f))
  }

  lemma RevokedRows(s: State, step: Step, f: nat)
    requires Enabled(s, step) && Revokes(s, step, f)
    ensures Apply(s, step).tokens.rows == RT.RevokeRows(s.tokens.rows, f, s.tokens.now)
  {
  }

  lemma RevocationKills(s: State, step: Step, f: nat, token: string)
    requires Inv(s) && Enabled(s, step) && Revokes(s, step, f) && InFamily(s.tokens.rows, token, f)
    ensures var s1 := Apply(s, step);
      Inv(s1) && RT.FamilyRevoked(s1.tokens.rows, f) && InFamily(s1.tokens.rows, token, f)
  {
    InvStep(s, step);
    RevokedRows(s, step, f);
    RevokeKeepsPlace(s.tokens.rows, f, s.tokens.now, token);
  }

  /** After a logout or a detected reuse, whether or not the denylist is ever written, no
      refresh token of the family is ever rotated again. */
  lemma RevocationEndsFamily(now: nat, before: seq<Step>, step: Step, after: seq<Step>, f: nat, token: string, next: string)
    requires History(now, before, step, after) && Revokes(Final(Init(now), before), step, f)
    requires InFamily(Final(Init(now), before).tokens.rows, token, f)
    ensures var s := Final(Apply(Final(Init(now), before), step), after);
      RT.Rotate(s.tokens.rows, token, next, s.tokens.now) == (s.tokens.rows, RT.Rejected(RT.Revoked))
  {
    var s := Final(Init(now), before);
    InvRun(Init(now), before);
    RevocationKills(s, step, f, token);
    DeadForever(Apply(s, step), after, f, token, next);
  }

  /** A refresh that reveals a reuse leaves that family's denial to be written. */
  lemma ReuseOwesDenial(s: State, token: string, next: string)
    requires Inv(s) && Enabled(s, Refresh(token, next))
    requires exists i :: 0 <= i < |s.tokens.rows| && s.tokens.rows[i].token == token
                      && s.tokens.rows[i].revokedAt.None? && s.tokens.rows[i].usedAt.Some?
    ensures exists i :: 0 <= i < |s.tokens.rows| && s.tokens.rows[i].token == token
                     && s.tokens.rows[i].familyId in Apply(s, Refresh(token, next)).denying
  {
    var i :| 0 <= i < |s.tokens.rows| && s.tokens.rows[i].token == token
          && s.tokens.rows[i].revokedAt.None? && s.tokens.rows[i].usedAt.Some?;
    RT.FindIs(s.tokens.rows, i);
    RT.RefusalsAre(s.tokens, token, next);
  }

  /** What the caller of a refresh is given: the refresh token of the one row that was added,
      and an access token of the presented token's family, signed now; or the refusal. */
  lemma ReplyIsTheNewRow(rows: seq<RT.Row>, token: string, next: string, jti: string, now: nat, userFound: bool)
    ensures var (rows', result) := RT.Rotate(rows, token, next, now);
      var reply := ReplyTo(result, jti, now, userFound);
      && (reply.Pair? <==> result.Rotated? && userFound)
      && (reply.Error? <==> result.Threw?)
      && (reply.Pair? ==>
            && |rows'| == |rows| + 1 && rows'[|rows|].token == reply.refreshToken
            && rows'[|rows|].usedAt.None? && rows'[|rows|].revokedAt.None?
            && reply.access == Access(jti, rows'[|rows|].familyId, now)
            && exists i :: 0 <= i < |rows| && rows[i].token == token && rows[i].familyId == reply.access.familyId)
  {
    if RT.Rotate(rows, token, next, now).1.Rotated? { RT.RotationHandsOver(rows, token, next, now); }
  }

  // ---------------------------------------------------------------- a request is a run

  lemma RunsCons(s: State, step: Step, rest: seq<Step>)
    requires Enabled(s, step) && Runs(Apply(s, step), rest)
    ensures Runs(s, [step] + rest) && Final(s, [step] + rest) == Final(Apply(s, step), rest)
  {
    assert ([step] + rest)[1..] == rest;
  }

  /** What a request does after its rotation. */
  function LastStep(result: RT.Rotation, reused: Option<nat>, jti: string, userFound: bool, redisOk: bool): Option<Step> {
    if result.Rotated? then Some(if userFound then Sign(result.familyId, jti) else GiveUp(result.familyId))
    else if reused.Some? then Some(if redisOk then DenyReuse(reused.value) else SkipReuse(reused.value))
    else None
  }

  function FinishSteps(last: Option<Step>): seq<Step> { if last.Some? then [last.value] + [] else [] }

  ghost function Finish(s: State, last: Option<Step>): State
    requires last.Some? ==> Enabled(s, last.value)
  {
    if last.Some? then Apply(s, last.value) else s
  }

  lemma FinishRun(s: State, last: Option<Step>)
    requires last.Some? ==> Enabled(s, last.value)
    ensures Runs(s, FinishSteps(last)) && Final(s, FinishSteps(last)) == Finish(s, last)
  {
    if last.Some? { RunsCons(s, last.value, []); }
  }

  function RefreshSteps(s: State, token: string, next: string, jti: string, userFound: bool, redisOk: bool): seq<Step> {
    [Refresh(token, next)] +
      FinishSteps(LastStep(RT.Rotate(s.tokens.rows, token, next, s.tokens.now).1,
                           ReusedFamily(s.tokens.rows, token, next, s.tokens.now), jti, userFound, redisOk))
  }

  /** A refresh that nobody interferes with leaves the table and the denylist, and hands out,
      what the protocol's steps do. */
  lemma RefreshIsRun(s: State, token: string, next: string, jti: string, userFound: bool, redisOk: bool)
    requires RT.MatchesPattern(next) && NewJti(s.issued, jti)
    ensures var now := s.tokens.now;
      var (rows, result) := RT.Rotate(s.tokens.rows, token, next, now);
      var reply, steps := ReplyTo(result, jti, now, userFound), RefreshSteps(s, token, next, jti, userFound, redisOk);
      && Runs(s, steps)
      && var s' := Final(s, steps);
      && s'.tokens.rows == rows && s'.keys == AfterRotation(s.keys, s.tokens.rows, token, result, now, redisOk)
      && s'.issued == s.issued + (if reply.Pair? then {reply.access} else {})
  {
    var now := s.tokens.now;
    var result := RT.Rotate(s.tokens.rows, token, next, now).1;
    var reused := ReusedFamily(s.tokens.rows, token, next, now);
    var s1, last := Apply(s, Refresh(token, next)), LastStep(result, reused, jti, userFound, redisOk);
    RotationEnables(s, token, next, jti, userFound, redisOk);
    FinishRun(s1, last);
    RunsCons(s, Refresh(token, next), FinishSteps(last));
    Finished(s, token, next, jti, userFound, redisOk);
  }

  lemma RotationEnables(s: State, token: string, next: string, jti: string, userFound: bool, redisOk: bool)
    requires RT.MatchesPattern(next) && NewJti(s.issued, jti)
    ensures var last := LastStep(RT.Rotate(s.tokens.rows, token, next, s.tokens.now).1,
                                 ReusedFamily(s.tokens.rows, token, next, s.tokens.now), jti, userFound, redisOk);
      last.Some? ==> Enabled(Apply(s, Refresh(token, next)), last.value)
  {
  }

  lemma RefreshEffect(s: State, token: string, next: string)
    requires RT.MatchesPattern(next)
    ensures var s1 := Apply(s, Refresh(token, next));
      && s1.tokens.rows == RT.Rotate(s.tokens.rows, token, next, s.tokens.now).0 && s1.tokens.now == s.tokens.now
      && s1.keys == s.keys && s1.issued == s.issued
  {
  }

  lemma FinishKeepsTable(s: State, last: Option<Step>)
    requires last.Some? ==> Enabled(s, last.value)
    requires last.Some? ==> TableStep(last.value) == RT.Tick(0)
    ensures Finish(s, last).tokens == s.tokens
  {
  }

  lemma SignEffect(s: State, f: nat, jti: string)
    requires Enabled(s, Sign(f, jti))
    ensures var s' := Apply(s, Sign(f, jti));
      s'.keys == s.keys && s'.issued == s.issued + {Access(jti, f, s.tokens.now)}
  {
  }

  lemma DenyEffect(s: State, f: nat)
    requires Enabled(s, DenyReuse(f))
    ensures var s' := Apply(s, DenyReuse(f));
      s'.keys == RevokeFamily(s.keys, Decimal(f), s.tokens.now) && s'.issued == s.issued
  {
  }

  lemma SkipEffect(s: State, step: Step)
    requires Enabled(s, step) && (step.GiveUp? || step.SkipReuse?)
    ensures Apply(s, step).keys == s.keys && Apply(s, step).issued == s.issued
  {
  }

  lemma FinishEffect(s: State, last: Option<Step>)
    requires last.Some? ==> Enabled(s, last.value)
    requires last.Some? ==> last.value.Sign? || last.value.GiveUp? || last.value.DenyReuse? || last.value.SkipReuse?
    ensures var s' := Finish(s, last);
      && s'.keys == (if last.Some? && last.value.DenyReuse? then RevokeFamily(s.keys, Decimal(last.value.familyId), s.tokens.now) else s.keys)
      && s'.issued == (if last.Some? && last.value.Sign? then s.issued + {Access(last.value.jti, last.value.familyId, s.tokens.now)} else s.issued)
  {
    match last {
      case None =>
      case Some(Sign(f, jti)) => SignEffect(s, f, jti);
      case Some(DenyReuse(f)) => DenyEffect(s, f);
      case Some(step) => SkipEffect(s, step);
    }
  }

  lemma Finished(s: State, token: string, next: string, jti: string, userFound: bool, redisOk: bool)
    requires RT.MatchesPattern(next) && NewJti(s.issued, jti)
    ensures var now := s.tokens.now;
      var (rows, result) := RT.Rotate(s.tokens.rows, token, next, now);
      var last := LastStep(result, ReusedFamily(s.tokens.rows, token, next, now), jti, userFound, redisOk);
      var reply, s1 := ReplyTo(result, jti, now, userFound), Apply(s, Refresh(token, next));
      && (last.Some? ==> Enabled(s1, last.value))
      && var s' := Finish(s1, last);
      && s'.tokens.rows == rows && s'.keys == AfterRotation(s.keys, s.tokens.rows, token, result, now, redisOk)
      && s'.issued == s.issued + (if reply.Pair? then {reply.access} else {})
  {
    RotationEnables(s, token, next, jti, userFound, redisOk);
    RefreshEffect(s, token, next);
    var last := LastStep(RT.Rotate(s.tokens.rows, token, next, s.tokens.now).1,
                         ReusedFamily(s.tokens.rows, token, next, s.tokens.now), jti, userFound, redisOk);
    FinishKeepsTable(Apply(s, Refresh(token, next)), last);
    FinishEffect(Apply(s, Refresh(token, next)), last);
  }

  /** The same for a logout by a token that passes the guard. */
  lemma LogoutIsRun(s: State, a: Access, redisOk: bool)
    requires a in s.issued && GuardPasses(s.keys, a, s.tokens.now, true)
    ensures var steps := [Logout(a)] + ([if redisOk then DenyAccess(a) else SkipAccess(a)] + []);
      && Runs(s, steps)
      && var s' := Final(s, steps);
      && s'.tokens.rows == RT.RevokeRows(s.tokens.rows, a.familyId, s.tokens.now)
      && s'.keys == (if redisOk then RevokeAccess(s.keys, a.jti, Exp(a), s.tokens.now) else s.keys)
      && (redisOk ==> a in s'.left) && s'.leaving == s.leaving
  {
    var s1 := Apply(s, Logout(a));
    var last := if redisOk then DenyAccess(a) else SkipAccess(a);
    RunsCons(s1, last, []);
    RunsCons(s, Logout(a), [last] + []);
  }
}
