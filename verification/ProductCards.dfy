/** Cache-aside reads of one product card with single-flight loading, over every interleaving
    of readers, writers, invalidations, failing calls and the passing of time
    (src/products/product-card.service.ts, src/cache/redis-cache.ts, src/cache/ttl.ts).
    One transition per call to Redis or to the database; a command whose client has given up
    waiting may still reach Redis at any later time.  Keys of different products do not meet
    (CardKeysApart), so one product is enough. */
module ProductCards {
  import opened Base
  import RedisLock

  const CARD_TTL_BASE_SEC: nat := 300
  const CARD_TTL_SPREAD_SEC: nat := 60
  const NEGATIVE_TTL_SEC: nat := 30
  const LOCK_TTL_MS: nat := 5000
  const LOCK_WAIT_BUDGET_MS: nat := 2000
  const LOCK_POLL_MS: nat := 25

  function CardKey(productId: nat): string { "product:card:" + Decimal(productId) }

  function CardLockKey(productId: nat): string { "lock:product:card:" + Decimal(productId) }

  /** baseSec + Math.floor(Math.random() * (spreadSec + 1)) */
  function JitteredTtl(baseSec: nat, spreadSec: nat, random: real): int {
    baseSec + (random * (spreadSec + 1) as real).Floor
  }

  /** The serialized card. */
  datatype Card = Card(json: string)

  /** A committed change of what `loadCard` returns (None: no such product). */
  datatype Version = Version(card: Option<Card>, committedAt: nat)

  /** The result of one `loadCard`; `version` and `at` are a history. */
  datatype Load = Load(card: Option<Card>, version: nat, at: nat)

  datatype Entry = Entry(load: Load, storedAt: nat, expiresAt: nat)

  datatype Served = FromCache(entry: Entry, at: nat) | FromDb(load: Load)

  function LoadOf(a: Served): Load { if a.FromCache? then a.entry.load else a.load }

  /** Where a reader is: the name says what it will do next. */
  datatype Stage =
    | Starting
    | Checking(deadline: nat, failed: nat)
    | Acquiring(deadline: nat, failed: nat)
    | Sleeping(deadline: nat, failed: nat, until: nat)
    | Polling(deadline: nat, failed: nat)
    | Rechecking
    | Loading(locked: bool)
    | Storing(load: Load, locked: bool)
    | Releasing(answer: Option<Served>)
    | Done(served: Served)
    | Threw

  /** A command to Redis that nobody waits for any more. */
  datatype Command =
    | SetCard(load: Load, ttlSec: nat)
    | DropCard
    | TakeLock(r: nat)
    | GiveLock(r: nat)

  /** A reader draws a fresh token for every attempt and keeps only one, so its number stands
      for the token it holds.  `wire`: commands that may still reach Redis.  `loads` is a
      history: how often `loadCard` ran. */
  datatype State = State(
    now: nat,
    singleFlight: bool,
    versions: seq<Version>,
    cache: Option<Entry>,
    lock: Option<RedisLock.Holder<nat>>,
    wire: multiset<Command>,
    readers: seq<Stage>,
    loads: nat)

  /** A command works; fails without effect; takes effect while its reply is lost; or times
      out on its way. */
  datatype Fate = Works | Lost | ReplyLost | Late

  predicate TakesEffect(f: Fate) { f == Works || f == ReplyLost }

  datatype Step =
    | Tick(elapsed: nat)
    | Write(card: Option<Card>)
    | Invalidate(fate: Fate)
    | Arrive
    | Lookup(r: nat, ok: bool)
    | Check(r: nat)
    | Acquire(r: nat, fate: Fate)
    | Wake(r: nat)
    | LoadCard(r: nat, ok: bool)
    | Store(r: nat, fate: Fate, random: real)
    | Release(r: nat, fate: Fate)
    | Crash(r: nat)
    | Reach(command: Command)
    | Vanish(command: Command)

  predicate LooksUp(g: Stage) { g.Starting? || g.Rechecking? || g.Polling? }

  predicate Ended(g: Stage) { g.Done? || g.Threw? }

  predicate Enabled(s: State, step: Step) {
    match step
    case Tick(_) => true
    case Write(_) => true
    case Invalidate(_) => true
    case Arrive => true
    case Lookup(r, _) => r < |s.readers| && LooksUp(s.readers[r])
    case Check(r) => r < |s.readers| && s.readers[r].Checking?
    case Acquire(r, _) => r < |s.readers| && s.readers[r].Acquiring?
    case Wake(r) => r < |s.readers| && s.readers[r].Sleeping? && s.readers[r].until <= s.now
    case LoadCard(r, _) => r < |s.readers| && s.readers[r].Loading? && |s.versions| > 0
    case Store(r, _, random) => r < |s.readers| && s.readers[r].Storing? && 0.0 <= random < 1.0
    case Release(r, _) => r < |s.readers| && s.readers[r].Releasing?
    case Crash(r) => r < |s.readers| && !Ended(s.readers[r])
    case Reach(c) => c in s.wire
    case Vanish(c) => c in s.wire
  }

  predicate Hit(cache: Option<Entry>, now: nat) { cache.Some? && now < cache.value.expiresAt }

  function AfterHit(g: Stage, served: Served): Stage {
    if g.Rechecking? then Releasing(Some(served)) else Done(served)
  }

  function AfterMiss(g: Stage, now: nat, singleFlight: bool): Stage
    requires LooksUp(g)
  {
    match g
    case Starting => if singleFlight then Checking(now + LOCK_WAIT_BUDGET_MS, 0) else Loading(false)
    case Rechecking => Loading(true)
    case Polling(deadline, failed) => Checking(deadline, failed)
  }

  /** Where a lookup leads; a failed one counts as a miss. */
  function AfterLookup(g: Stage, cache: Option<Entry>, now: nat, singleFlight: bool, ok: bool): Stage
    requires LooksUp(g)
  {
    if ok && Hit(cache, now) then AfterHit(g, FromCache(cache.value, now)) else AfterMiss(g, now, singleFlight)
  }

  function AfterAcquire(g: Stage, lock: Option<RedisLock.Holder<nat>>, now: nat, fate: Fate): Stage
    requires g.Acquiring?
  {
    if fate != Works then Loading(false)
    else if RedisLock.Live(lock, now) then Sleeping(g.deadline, g.failed + 1, now + LOCK_POLL_MS)
    else Rechecking
  }

  function TtlSec(card: Option<Card>, random: real): int {
    if card.None? then NEGATIVE_TTL_SEC else JitteredTtl(CARD_TTL_BASE_SEC, CARD_TTL_SPREAD_SEC, random)
  }

  function CurrentLoad(s: State): Load
    requires |s.versions| > 0
  {
    Load(s.versions[|s.versions| - 1].card, |s.versions| - 1, s.now)
  }

  function Goto(s: State, r: nat, g: Stage): State
    requires r < |s.readers|
  {
    s.(readers := s.readers[r := g])
  }

  /** What a command does when it reaches Redis. */
  function Execute(s: State, c: Command): State {
    match c
    case SetCard(load, ttlSec) => s.(cache := Some(Entry(load, s.now, s.now + 1000 * ttlSec)))
    case DropCard => s.(cache := None)
    case TakeLock(r) => s.(lock := RedisLock.Take(s.lock, r, LOCK_TTL_MS, s.now))
    case GiveLock(r) => s.(lock := RedisLock.Give(s.lock, r, s.now))
  }

  function Send(s: State, c: Command, fate: Fate): State {
    if TakesEffect(fate) then Execute(s, c)
    else if fate == Late then s.(wire := s.wire + multiset{c})
    else s
  }

  function StoreCommand(load: Load, random: real): Command
    requires 0.0 <= random < 1.0
  {
    TtlRange(load.card, random);
    SetCard(load, TtlSec(load.card, random))
  }

  /** A step of a reader, as opposed to one of the world around the readers. */
  predicate IsOwn(step: Step) {
    step.Lookup? || step.Check? || step.Acquire? || step.Wake? || step.LoadCard? || step.Store? || step.Release? || step.Crash?
  }

  /** Where a reader's own step leads it. */
  function Next(s: State, step: Step): Stage
    requires IsOwn(step) && Enabled(s, step)
  {
    var g := s.readers[step.r];
    match step
    case Lookup(_, ok) => AfterLookup(g, s.cache, s.now, s.singleFlight, ok)
    case Check(_) => if s.now < g.deadline then Acquiring(g.deadline, g.failed) else Loading(false)
    case Acquire(_, fate) => AfterAcquire(g, s.lock, s.now, fate)
    case Wake(_) => Polling(g.deadline, g.failed)
    case LoadCard(_, ok) => if ok then Storing(CurrentLoad(s), g.locked) else if g.locked then Releasing(None) else Threw
    case Store(_, _, _) => if g.locked then Releasing(Some(FromDb(g.load))) else Done(FromDb(g.load))
    case Release(_, _) => if g.answer.Some? then Done(g.answer.value) else Threw
    case Crash(_) => Threw
  }

  /** What the own step of a reader in stage g does to everything else. */
  function Effect(s: State, g: Stage, step: Step): State
    requires IsOwn(step) && (step.Store? ==> g.Storing? && 0.0 <= step.random < 1.0)
  {
    match step
    case Acquire(r, fate) => Send(s, TakeLock(r), fate)
    case LoadCard(_, _) => s.(loads := s.loads + 1)
    case Store(_, fate, random) => Send(s, StoreCommand(g.load, random), fate)
    case Release(r, fate) => Send(s, GiveLock(r), fate)
    case _ => s
  }

  function Apply(s: State, step: Step): State
    requires Enabled(s, step)
  {
    match step
    case Tick(ms) => s.(now := s.now + ms)
    case Write(card) => s.(versions := s.versions + [Version(card, s.now)])
    case Invalidate(fate) => Send(s, DropCard, fate)
    case Arrive => s.(readers := s.readers + [Starting])
    case Reach(c) => Execute(s.(wire := s.wire - multiset{c}), c)
    case Vanish(c) => s.(wire := s.wire - multiset{c})
    case _ => Effect(Goto(s, step.r, Next(s, step)), s.readers[step.r], step)
  }

  predicate Runs(s: State, steps: seq<Step>)
    decreases |steps|
  {
    steps == [] || (Enabled(s, steps[0]) && Runs(Apply(s, steps[0]), steps[1..]))
  }

  function Final(s: State, steps: seq<Step>): State
    requires Runs(s, steps)
    decreases |steps|
  {
    if steps == [] then s else Final(Apply(s, steps[0]), steps[1..])
  }

  /** A cold cache over a database that already has some value. */
  function Init(card: Option<Card>, singleFlight: bool): State {
    State(0, singleFlight, [Version(card, 0)], None, None, multiset{}, [], 0)
  }

  // ---------------------------------------------------------------- keys and lifetimes

  lemma CardKeysApart(p: nat, q: nat)
    ensures CardKey(p) != CardLockKey(q)
    ensures CardKey(p) == CardKey(q) || CardLockKey(p) == CardLockKey(q) ==> p == q
  {
    assert CardKey(p)[0] == 'p' && CardLockKey(q)[0] == 'l';
    if CardKey(p) == CardKey(q) { PrefixedDecimalInjective("product:card:", p, q); }
    if CardLockKey(p) == CardLockKey(q) { PrefixedDecimalInjective("lock:product:card:", p, q); }
  }

  /** The jitter draws exactly the whole seconds from base to base + spread. */
  lemma JitterRange(base: nat, spread: nat, random: real)
    requires 0.0 <= random < 1.0
    ensures base <= JitteredTtl(base, spread, random) <= base + spread
  {
    var n := (spread + 1) as real;
    assert random * n <= 1.0 * n && random * n != 1.0 * n;
    FloorRange(random * n, spread);
  }

  lemma FloorRange(x: real, n: nat)
    requires 0.0 <= x < (n + 1) as real
    ensures 0 <= x.Floor <= n
  {
  }

  lemma JitterReaches(base: nat, spread: nat, ttl: nat)
    requires base <= ttl <= base + spread
    ensures exists random: real :: 0.0 <= random < 1.0 && JitteredTtl(base, spread, random) == ttl
  {
    var n := (spread + 1) as real;
    var random := (ttl - base) as real / n;
    assert random * n == (ttl - base) as real;
    assert 0.0 <= random < 1.0 && JitteredTtl(base, spread, random) == ttl;
  }

  /** How long an entry for this card is to live, in milliseconds: 5 to 6 minutes, or half a
      minute for an absence. */
  predicate RightLife(card: Option<Card>, ms: int) {
    if card.None? then ms == 30000 else 300000 <= ms <= 360000
  }

  lemma TtlRange(card: Option<Card>, random: real)
    requires 0.0 <= random < 1.0
    ensures RightLife(card, 1000 * TtlSec(card, random))
  {
    JitterRange(CARD_TTL_BASE_SEC, CARD_TTL_SPREAD_SEC, random);
  }

  /** The times in numbers: a read that misses waits for 2 seconds, looks again 25 ms after
      each refusal, and holds the lock it gets for at most 5 seconds. */
  lemma Timings(s: State, r: nat)
    requires r < |s.readers|
    ensures s.readers[r] == Starting && s.singleFlight && s.cache.None? ==>
      Apply(s, Lookup(r, true)).readers[r] == Checking(s.now + 2000, 0)
    ensures s.readers[r].Acquiring? ==>
      var g, s' := s.readers[r], Apply(s, Acquire(r, Works));
      if s.lock.Some? && s.now < s.lock.value.expiresAt
      then s'.readers[r] == Sleeping(g.deadline, g.failed + 1, s.now + 25) && s'.lock == s.lock
      else s'.readers[r] == Rechecking && s'.lock == Some(RedisLock.Holder(r, s.now + 5000))
  {
  }

  /** A reader that has its answer gives back the lock it holds, if it still holds it, and
      nobody else's. */
  lemma ReleaseFreesOwnLock(s: State, r: nat)
    requires Enabled(s, Release(r, Works))
    ensures var lock' := Apply(s, Release(r, Works)).lock;
      && (s.lock.Some? && s.lock.value.token == r ==> lock'.None? || lock'.value.expiresAt <= s.now)
      && (s.lock.Some? && s.lock.value.token != r ==> lock' == s.lock)
  {
  }

  // ---------------------------------------------------------------- invariant of every run

  /** The load read what the database held at that instant. */
  ghost predicate LoadOk(load: Load, versions: seq<Version>, now: nat) {
    && load.version < |versions| && load.card == versions[load.version].card
    && versions[load.version].committedAt <= load.at <= now
    && (load.version + 1 < |versions| ==> load.at <= versions[load.version + 1].committedAt)
  }

  ghost predicate EntryOk(e: Entry, versions: seq<Version>, now: nat) {
    && LoadOk(e.load, versions, now)
    && e.load.at <= e.storedAt <= now
    && RightLife(e.load.card, e.expiresAt - e.storedAt)
  }

  ghost predicate ServedOk(a: Served, versions: seq<Version>, now: nat) {
    match a
    case FromDb(load) => LoadOk(load, versions, now)
    case FromCache(e, at) => EntryOk(e, versions, now) && e.storedAt <= at <= now && at < e.expiresAt
  }

  /** A waiting reader has failed to acquire at most once per poll interval since it began. */
  ghost predicate Paced(deadline: nat, failed: nat, reached: nat) {
    deadline + LOCK_POLL_MS * failed <= reached + LOCK_WAIT_BUDGET_MS
  }

  ghost predicate StageOk(g: Stage, versions: seq<Version>, now: nat) {
    match g
    case Checking(deadline, failed) => failed <= 80 && Paced(deadline, failed, now)
    case Acquiring(deadline, failed) => failed < 80 && Paced(deadline, failed, now)
    case Sleeping(deadline, failed, until) => failed <= 80 && Paced(deadline, failed, until)
    case Polling(deadline, failed) => failed <= 80 && Paced(deadline, failed, now)
    case Storing(load, _) => LoadOk(load, versions, now)
    case Releasing(answer) => answer.Some? ==> ServedOk(answer.value, versions, now)
    case Done(served) => ServedOk(served, versions, now)
    case _ => true
  }

  /** A card on its way to Redis was loaded as it should be and will live as long as it may. */
  ghost predicate CommandOk(c: Command, versions: seq<Version>, now: nat) {
    c.SetCard? ==> LoadOk(c.load, versions, now) && RightLife(c.load.card, 1000 * c.ttlSec)
  }

  ghost predicate Inv(s: State) {
    && |s.versions| > 0
    && (forall c :: c in s.wire ==> CommandOk(c, s.versions, s.now))
    && (forall i :: 0 <= i < |s.versions| ==> s.versions[i].committedAt <= s.now)
    && (s.cache.Some? ==> EntryOk(s.cache.value, s.versions, s.now))
    && (forall r :: 0 <= r < |s.readers| ==> StageOk(s.readers[r], s.versions, s.now))
  }

  ghost predicate SameOrOneMore(versions: seq<Version>, now: nat, versions': seq<Version>) {
    versions' == versions || exists v: Version :: versions' == versions + [v] && v.committedAt == now
  }

  lemma LoadStill(load: Load, versions: seq<Version>, now: nat, versions': seq<Version>, now': nat)
    requires LoadOk(load, versions, now) && now <= now' && SameOrOneMore(versions, now, versions')
    ensures LoadOk(load, versions', now')
  {
  }

  lemma StageStill(g: Stage, versions: seq<Version>, now: nat, versions': seq<Version>, now': nat)
    requires StageOk(g, versions, now) && now <= now' && SameOrOneMore(versions, now, versions')
    ensures StageOk(g, versions', now')
  {
    if g.Storing? {
      LoadStill(g.load, versions, now, versions', now');
    } else if g.Done? {
      LoadStill(LoadOf(g.served), versions, now, versions', now');
    } else if g.Releasing? && g.answer.Some? {
      LoadStill(LoadOf(g.answer.value), versions, now, versions', now');
    }
  }

  lemma InvTime(s: State, step: Step)
    requires Inv(s) && Enabled(s, step) && (step.Tick? || step.Write?)
    ensures Inv(Apply(s, step))
  {
    var s' := Apply(s, step);
    assert SameOrOneMore(s.versions, s.now, s'.versions) by {
      if step.Write? { assert s'.versions == s.versions + [Version(step.card, s.now)]; }
    }
    forall r | 0 <= r < |s.readers| ensures StageOk(s'.readers[r], s'.versions, s'.now) {
      StageStill(s.readers[r], s.versions, s.now, s'.versions, s'.now);
    }
    forall c | c in s.wire ensures CommandOk(c, s'.versions, s'.now) {
      if c.SetCard? { LoadStill(c.load, s.versions, s.now, s'.versions, s'.now); }
    }
    if s.cache.Some? { LoadStill(s.cache.value.load, s.versions, s.now, s'.versions, s'.now); }
  }

  /** Sending a command that is in order, or letting one reach Redis, keeps everything so. */
  lemma InvSend(s: State, c: Command, fate: Fate)
    requires Inv(s) && CommandOk(c, s.versions, s.now)
    ensures Inv(Send(s, c, fate)) && Inv(Execute(s, c))
  {
  }

  lemma InvGoto(s: State, r: nat, g: Stage)
    requires Inv(s) && r < |s.readers| && StageOk(g, s.versions, s.now)
    ensures Inv(Goto(s, r, g))
  {
  }

  lemma LookupOk(g: Stage, cache: Option<Entry>, versions: seq<Version>, now: nat, singleFlight: bool, ok: bool)
    requires LooksUp(g) && StageOk(g, versions, now) && (cache.Some? ==> EntryOk(cache.value, versions, now))
    ensures StageOk(AfterLookup(g, cache, now, singleFlight, ok), versions, now)
  {
  }

  /** The stage a reader's own step leads to. */
  lemma NextOk(s: State, step: Step)
    requires Inv(s) && IsOwn(step) && Enabled(s, step)
    ensures StageOk(Next(s, step), s.versions, s.now)
  {
    var g := s.readers[step.r];
    assert StageOk(g, s.versions, s.now);
    if step.Lookup? { LookupOk(g, s.cache, s.versions, s.now, s.singleFlight, step.ok); }
  }

  lemma InvStep(s: State, step: Step)
    requires Inv(s) && Enabled(s, step)
    ensures Inv(Apply(s, step))
  {
    match step {
      case Tick(_) => InvTime(s, step);
      case Write(_) => InvTime(s, step);
      case Invalidate(fate) => InvSend(s, DropCard, fate);
      case Arrive =>
      case Reach(c) =>
        assert CommandOk(c, s.versions, s.now);
        InvSend(s.(wire := s.wire - multiset{c}), c, Works);
      case Vanish(_) =>
      case _ => InvOwn(s, step);
    }
  }

  lemma InvEffect(s: State, g: Stage, step: Step)
    requires Inv(s) && IsOwn(step)
    requires step.Store? ==> g.Storing? && 0.0 <= step.random < 1.0 && LoadOk(g.load, s.versions, s.now)
    ensures Inv(Effect(s, g, step))
  {
    match step {
      case Acquire(r, fate) => InvSend(s, TakeLock(r), fate);
      case Release(r, fate) => InvSend(s, GiveLock(r), fate);
      case Store(_, fate, random) =>
        TtlRange(g.load.card, random);
        InvSend(s, StoreCommand(g.load, random), fate);
      case _ =>
    }
  }

  lemma InvOwn(s: State, step: Step)
    requires Inv(s) && IsOwn(step) && Enabled(s, step)
    ensures Inv(Effect(Goto(s, step.r, Next(s, step)), s.readers[step.r], step))
  {
    var g := s.readers[step.r];
    assert StageOk(g, s.versions, s.now);
    NextOk(s, step);
    InvGoto(s, step.r, Next(s, step));
    InvEffect(Goto(s, step.r, Next(s, step)), g, step);
  }

  lemma {:induction false} InvRun(s: State, steps: seq<Step>)
    requires Inv(s) && Runs(s, steps)
    ensures Inv(Final(s, steps))
    decreases |steps|
  {
    if steps != [] {
      InvStep(s, steps[0]);
      InvRun(Apply(s, steps[0]), steps[1..]);
    }
  }

  // ---------------------------------------------------------------- bounded staleness, bounded waiting

  /** In every run, with any failures: a card served from the cache was stored within the 300
      to 360 seconds its entry was given (an absence within 30), and whatever is served was
      the database's value at the instant it was loaded. */
  lemma ServedIsRecent(card: Option<Card>, singleFlight: bool, steps: seq<Step>, r: nat)
    requires Runs(Init(card, singleFlight), steps)
    requires var s := Final(Init(card, singleFlight), steps); r < |s.readers| && s.readers[r].Done?
    ensures var s := Final(Init(card, singleFlight), steps);
      var a := s.readers[r].served;
      && LoadOk(LoadOf(a), s.versions, s.now)
      && (a.FromCache? ==>
            && LoadOf(a).at <= a.entry.storedAt <= a.at < a.entry.expiresAt
            && (if LoadOf(a).card.None? then a.entry.expiresAt == a.entry.storedAt + 30000
                else a.entry.storedAt + 300000 <= a.entry.expiresAt <= a.entry.storedAt + 360000))
  {
    InvRun(Init(card, singleFlight), steps);
    var s := Final(Init(card, singleFlight), steps);
    assert StageOk(s.readers[r], s.versions, s.now);
  }

  function FailedAcquires(g: Stage): nat {
    if g.Checking? || g.Acquiring? || g.Sleeping? || g.Polling? then g.failed else 0
  }

  /** No waiting reader ever fails to acquire more than 80 times. */
  lemma AtMost80FailedAcquires(card: Option<Card>, singleFlight: bool, steps: seq<Step>, r: nat)
    requires Runs(Init(card, singleFlight), steps)
    requires r < |Final(Init(card, singleFlight), steps).readers|
    ensures FailedAcquires(Final(Init(card, singleFlight), steps).readers[r]) <= 80
  {
    InvRun(Init(card, singleFlight), steps);
    var s := Final(Init(card, singleFlight), steps);
    assert StageOk(s.readers[r], s.versions, s.now);
  }

  // ---------------------------------------------------------------- single flight

  predicate Unexpired(s: State) {
    && (s.cache.Some? ==> s.now < s.cache.value.expiresAt)
    && (s.lock.Some? ==> s.now < s.lock.value.expiresAt)
  }

  /** Calls succeed, nothing is invalidated, nobody dies or runs out of its waiting budget, and
      neither the entry nor a held lock expires. */
  predicate CalmStep(s: State, step: Step)
    requires Enabled(s, step)
  {
    && Unexpired(Apply(s, step))
    && match step
       case Invalidate(_) => false
       case Crash(_) => false
       case Lookup(_, ok) => ok
       case Check(r) => s.now < s.readers[r].deadline
       case Acquire(_, fate) => fate == Works
       case LoadCard(_, ok) => ok
       case Store(_, fate, _) => fate == Works
       case Release(_, fate) => fate == Works
       case _ => true
  }

  predicate CalmRun(s: State, steps: seq<Step>)
    requires Runs(s, steps)
    decreases |steps|
  {
    steps == [] || (CalmStep(s, steps[0]) && CalmRun(Apply(s, steps[0]), steps[1..]))
  }

  predicate UnderLock(g: Stage) { g.Rechecking? || g.Loading? || g.Storing? || g.Releasing? }

  ghost predicate CalmStage(g: Stage, r: nat, cache: Option<Entry>, lock: Option<RedisLock.Holder<nat>>, loads: nat) {
    && (UnderLock(g) ==> lock.Some? && lock.value.token == r)
    && (g.Loading? ==> g.locked && loads == 0)
    && (g.Storing? ==> g.locked && loads == 1 && cache.None?)
    && (g.Releasing? ==> g.answer.Some? && cache.Some? && LoadOf(g.answer.value) == cache.value.load)
    && (g.Done? ==> cache.Some? && LoadOf(g.served) == cache.value.load)
    && !g.Threw?
  }

  /** Between the one load and its store, the lock is held by the reader about to store. */
  ghost predicate OneFlight(cache: Option<Entry>, lock: Option<RedisLock.Holder<nat>>, readers: seq<Stage>, loads: nat) {
    && loads <= 1
    && (loads == 0 ==> cache.None?)
    && (loads == 1 && cache.None? ==> lock.Some? && lock.value.token < |readers| && readers[lock.value.token].Storing?)
    && (forall r :: 0 <= r < |readers| ==> CalmStage(readers[r], r, cache, lock, loads))
  }

  ghost predicate CalmInv(s: State) {
    s.singleFlight && s.wire == multiset{} && Unexpired(s) && OneFlight(s.cache, s.lock, s.readers, s.loads)
  }

  /** Moving a reader, with cache, lock and count as they are. */
  lemma CalmGoto(s: State, r: nat, g: Stage)
    requires OneFlight(s.cache, s.lock, s.readers, s.loads) && r < |s.readers|
    requires CalmStage(g, r, s.cache, s.lock, s.loads) && (s.readers[r].Storing? ==> g.Storing?)
    ensures OneFlight(s.cache, s.lock, s.readers[r := g], s.loads)
  {
  }

  lemma CalmLookup(s: State, r: nat)
    requires CalmInv(s) && Enabled(s, Lookup(r, true))
    ensures CalmInv(Apply(s, Lookup(r, true)))
  {
    var g := Next(s, Lookup(r, true));
    assert CalmStage(s.readers[r], r, s.cache, s.lock, s.loads);
    CalmGoto(s, r, g);
  }

  lemma CalmWait(s: State, step: Step)
    requires CalmInv(s) && Enabled(s, step) && ((step.Check? && s.now < s.readers[step.r].deadline) || step.Wake?)
    ensures CalmInv(Apply(s, step))
  {
    CalmGoto(s, step.r, Next(s, step));
  }

  lemma CalmKeeps(s: State, step: Step)
    requires CalmInv(s) && Enabled(s, step) && CalmStep(s, step)
    ensures CalmInv(Apply(s, step))
  {
    if step.Lookup? {
      CalmLookup(s, step.r);
    } else if step.Check? || step.Wake? {
      CalmWait(s, step);
    } else if IsOwn(step) {
      assert CalmStage(s.readers[step.r], step.r, s.cache, s.lock, s.loads);
    }
  }

  lemma {:induction false} CalmRunKeeps(s: State, steps: seq<Step>)
    requires CalmInv(s) && Runs(s, steps) && CalmRun(s, steps)
    ensures CalmInv(Final(s, steps))
    decreases |steps|
  {
    if steps != [] {
      CalmKeeps(s, steps[0]);
      CalmRunKeeps(Apply(s, steps[0]), steps[1..]);
    }
  }

  /** Any number of concurrent readers of a cold key: `loadCard` runs at most once, exactly
      once as soon as one reader has its answer, and every answer is that one load. */
  lemma LoadsOnce(card: Option<Card>, steps: seq<Step>)
    requires Runs(Init(card, true), steps) && CalmRun(Init(card, true), steps)
    ensures var s := Final(Init(card, true), steps);
      && s.loads <= 1
      && (forall r :: 0 <= r < |s.readers| && s.readers[r].Done? ==> s.loads == 1)
      && (forall q, r :: 0 <= q < |s.readers| && 0 <= r < |s.readers| && s.readers[q].Done? && s.readers[r].Done? ==>
            LoadOf(s.readers[q].served) == LoadOf(s.readers[r].served))
  {
    CalmRunKeeps(Init(card, true), steps);
  }

  lemma RunsCons(s: State, step: Step, rest: seq<Step>)
    requires Enabled(s, step) && Runs(Apply(s, step), rest)
    ensures Runs(s, [step] + rest) && Final(s, [step] + rest) == Final(Apply(s, step), rest)
  {
    assert ([step] + rest)[1..] == rest;
  }

  lemma {:induction false} RunsAppend(s: State, a: seq<Step>, b: seq<Step>)
    requires Runs(s, a) && Runs(Final(s, a), b)
    ensures Runs(s, a + b) && Final(s, a + b) == Final(Final(s, a), b)
    decreases |a|
  {
    if a == [] {
      assert a + b == b;
    } else {
      assert (a + b)[0] == a[0] && (a + b)[1..] == a[1..] + b;
      RunsAppend(Apply(s, a[0]), a[1..], b);
    }
  }

  /** What a reader that finds an empty cache does up to its acquire, and from there, if the
      lock is free, up to its load. */
  function Approach(r: nat): seq<Step> { [Arrive] + ([Lookup(r, true)] + ([Check(r)] + [])) }

  function Fetch(r: nat): seq<Step> { [Acquire(r, Works)] + ([Lookup(r, true)] + ([LoadCard(r, true)] + [])) }

  lemma ApproachRun(s: State, r: nat)
    requires r == |s.readers| && s.singleFlight && s.cache.None?
    ensures Runs(s, Approach(r))
    ensures Final(s, Approach(r)) == s.(readers := s.readers + [Acquiring(s.now + LOCK_WAIT_BUDGET_MS, 0)])
  {
    var s1 := Apply(s, Arrive);
    var s2 := Apply(s1, Lookup(r, true));
    RunsCons(s2, Check(r), []);
    RunsCons(s1, Lookup(r, true), [Check(r)] + []);
    RunsCons(s, Arrive, [Lookup(r, true)] + ([Check(r)] + []));
  }

  lemma FetchRun(s: State, r: nat)
    requires r < |s.readers| && s.readers[r].Acquiring? && s.cache.None? && |s.versions| > 0
    requires !RedisLock.Live(s.lock, s.now)
    ensures Runs(s, Fetch(r))
    ensures Final(s, Fetch(r)) == Goto(s, r, Storing(CurrentLoad(s), true))
              .(lock := Some(RedisLock.Holder(r, s.now + LOCK_TTL_MS)), loads := s.loads + 1)
  {
    var s1 := TakesLock(s, r);
    var s2 := Misses(s1, r);
    assert s2.readers[r := Storing(CurrentLoad(s), true)] == s.readers[r := Storing(CurrentLoad(s), true)];
    RunsCons(s2, LoadCard(r, true), []);
    RunsCons(s1, Lookup(r, true), [LoadCard(r, true)] + []);
    RunsCons(s, Acquire(r, Works), [Lookup(r, true)] + ([LoadCard(r, true)] + []));
  }

  lemma TakesLock(s: State, r: nat) returns (s1: State)
    requires r < |s.readers| && s.readers[r].Acquiring? && !RedisLock.Live(s.lock, s.now)
    ensures Enabled(s, Acquire(r, Works)) && Apply(s, Acquire(r, Works)) == s1
    ensures s1 == Goto(s, r, Rechecking).(lock := Some(RedisLock.Holder(r, s.now + LOCK_TTL_MS)))
  {
    s1 := Apply(s, Acquire(r, Works));
  }

  lemma Misses(s: State, r: nat) returns (s1: State)
    requires r < |s.readers| && s.readers[r] == Rechecking && s.cache.None?
    ensures Enabled(s, Lookup(r, true)) && Apply(s, Lookup(r, true)) == s1 == Goto(s, r, Loading(true))
  {
    s1 := Apply(s, Lookup(r, true));
  }

  /** k readers, each arriving when the lock of the one before has just run out. */
  function SlowReaders(k: nat): seq<Step> {
    if k == 0 then [] else SlowReaders(k - 1) + ([Tick(LOCK_TTL_MS)] + (Approach(k - 1) + Fetch(k - 1)))
  }

  /** The lock's lifetime is what single flight hangs on: without any failing call, loads that
      take as long as the lock lives let k readers load k times, for every k. */
  lemma {:induction false} SlowLoadsPileUp(card: Option<Card>, k: nat)
    ensures Runs(Init(card, true), SlowReaders(k))
    ensures var s := Final(Init(card, true), SlowReaders(k));
      && s.loads == k == |s.readers| && s.cache.None? && s.singleFlight && |s.versions| > 0
      && (s.lock.Some? ==> s.lock.value.expiresAt <= s.now + LOCK_TTL_MS)
  {
    if k > 0 {
      SlowLoadsPileUp(card, k - 1);
      var s := Final(Init(card, true), SlowReaders(k - 1));
      var later := Apply(s, Tick(LOCK_TTL_MS));
      ApproachRun(later, k - 1);
      FetchRun(Final(later, Approach(k - 1)), k - 1);
      RunsAppend(later, Approach(k - 1), Fetch(k - 1));
      RunsCons(s, Tick(LOCK_TTL_MS), Approach(k - 1) + Fetch(k - 1));
      RunsAppend(Init(card, true), SlowReaders(k - 1), [Tick(LOCK_TTL_MS)] + (Approach(k - 1) + Fetch(k - 1)));
    }
  }

  /** One turn of the polling loop of reader r. */
  function Turn(r: nat): seq<Step> { Try(r) + Poll(r) }

  function Try(r: nat): seq<Step> { [Check(r)] + ([Acquire(r, Works)] + []) }

  function Poll(r: nat): seq<Step> { [Tick(LOCK_POLL_MS)] + ([Wake(r)] + ([Lookup(r, true)] + [])) }

  function Turns(r: nat, k: nat): seq<Step> { if k == 0 then [] else Turns(r, k - 1) + Turn(r) }

  /** Reader r waits in vain: the lock is held past its deadline and the cache stays empty. */
  ghost predicate WaitsInVain(s: State, r: nat, deadline: nat, failed: nat) {
    && r < |s.readers| && s.readers[r] == Checking(deadline, failed) && s.cache.None?
    && s.lock.Some? && deadline < s.lock.value.expiresAt
    && s.now + LOCK_WAIT_BUDGET_MS == deadline + LOCK_POLL_MS * failed
  }

  lemma TryRun(s: State, r: nat, deadline: nat, failed: nat)
    requires WaitsInVain(s, r, deadline, failed) && failed < 80
    ensures Runs(s, Try(r))
    ensures Final(s, Try(r)) == Goto(s, r, Sleeping(deadline, failed + 1, s.now + LOCK_POLL_MS))
  {
    var s1 := Apply(s, Check(r));
    RunsCons(s1, Acquire(r, Works), []);
    RunsCons(s, Check(r), [Acquire(r, Works)] + []);
    assert s1.readers[r := Apply(s1, Acquire(r, Works)).readers[r]] == s.readers[r := Apply(s1, Acquire(r, Works)).readers[r]];
  }

  lemma PollRun(s: State, r: nat)
    requires r < |s.readers| && s.readers[r].Sleeping? && s.readers[r].until == s.now + LOCK_POLL_MS && s.cache.None?
    ensures Runs(s, Poll(r))
    ensures Final(s, Poll(r)) == Goto(s, r, Checking(s.readers[r].deadline, s.readers[r].failed)).(now := s.now + LOCK_POLL_MS)
  {
    var s1 := Apply(s, Tick(LOCK_POLL_MS));
    var s2 := Apply(s1, Wake(r));
    RunsCons(s2, Lookup(r, true), []);
    RunsCons(s1, Wake(r), [Lookup(r, true)] + []);
    RunsCons(s, Tick(LOCK_POLL_MS), [Wake(r)] + ([Lookup(r, true)] + []));
  }

  lemma {:induction false} TurnsRun(s: State, r: nat, deadline: nat, k: nat)
    requires WaitsInVain(s, r, deadline, 0) && k <= 80
    ensures Runs(s, Turns(r, k)) && WaitsInVain(Final(s, Turns(r, k)), r, deadline, k)
  {
    if k > 0 {
      TurnsRun(s, r, deadline, k - 1);
      var s1 := Final(s, Turns(r, k - 1));
      TryRun(s1, r, deadline, k - 1);
      var s2 := Final(s1, Try(r));
      PollRun(s2, r);
      RunsAppend(s1, Try(r), Poll(r));
      RunsAppend(s, Turns(r, k - 1), Turn(r));
    }
  }

  /** The bound of 80 is met: with a lock held throughout and the cache empty, a waiting reader
      is refused 80 times and then loads without the lock. */
  lemma EightyIsReached(s: State, r: nat, deadline: nat)
    requires WaitsInVain(s, r, deadline, 0)
    ensures Runs(s, Turns(r, 80))
    ensures var s' := Final(s, Turns(r, 80));
      r < |s'.readers| && s'.readers[r] == Checking(deadline, 80) && Apply(s', Check(r)).readers[r] == Loading(false)
  {
    TurnsRun(s, r, deadline, 80);
  }

  // ---------------------------------------------------------------- invalidation

  predicate OlderLoad(g: Stage, v: nat) { g.Storing? && g.load.version < v }

  /** Some reader has loaded a version before v and not stored it yet. */
  ghost predicate OlderPending(readers: seq<Stage>, v: nat) {
    exists r :: 0 <= r < |readers| && OlderLoad(readers[r], v)
  }

  predicate OlderCommand(c: Command, v: nat) { c.SetCard? && c.load.version < v }

  /** A version before v is on its way to the cache. */
  ghost predicate OlderOnWire(wire: multiset<Command>, v: nat) {
    exists c :: c in wire && OlderCommand(c, v)
  }

  predicate OlderCached(cache: Option<Entry>, now: nat, v: nat) {
    Hit(cache, now) && cache.value.load.version < v
  }

  predicate AnswersOld(g: Stage, v: nat) {
    || (g.Done? && LoadOf(g.served).version < v)
    || (g.Releasing? && g.answer.Some? && LoadOf(g.answer.value).version < v)
  }

  /** From here on, readers numbered n or higher see version v or a later one. */
  ghost predicate Coherent(s: State, v: nat, n: nat) {
    && v < |s.versions| && n <= |s.readers|
    && !OlderCached(s.cache, s.now, v) && !OlderPending(s.readers, v) && !OlderOnWire(s.wire, v)
    && (forall r :: n <= r < |s.readers| ==> !AnswersOld(s.readers[r], v))
  }

  lemma CoherentSend(s: State, c: Command, fate: Fate, v: nat, n: nat)
    requires Coherent(s, v, n) && !OlderCommand(c, v)
    ensures Coherent(Send(s, c, fate), v, n) && Coherent(Execute(s, c), v, n)
  {
    forall d | d in Send(s, c, fate).wire ensures !OlderCommand(d, v) {
      assert d == c || d in s.wire;
    }
  }

  lemma CoherentGoto(s: State, r: nat, g: Stage, v: nat, n: nat)
    requires Coherent(s, v, n) && r < |s.readers| && !OlderLoad(g, v) && (n <= r ==> !AnswersOld(g, v))
    ensures Coherent(Goto(s, r, g), v, n)
  {
    forall q | 0 <= q < |s.readers| ensures !OlderLoad(Goto(s, r, g).readers[q], v) {
      assert !OlderLoad(s.readers[q], v);
    }
  }

  lemma CoherentNext(s: State, step: Step, v: nat, n: nat)
    requires Coherent(s, v, n) && IsOwn(step) && Enabled(s, step)
    ensures !OlderLoad(s.readers[step.r], v) && !OlderLoad(Next(s, step), v)
    ensures n <= step.r ==> !AnswersOld(Next(s, step), v)
  {
    assert !OlderLoad(s.readers[step.r], v);
    assert n <= step.r ==> !AnswersOld(s.readers[step.r], v);
  }

  lemma CoherentEffect(s: State, g: Stage, step: Step, v: nat, n: nat)
    requires Coherent(s, v, n) && IsOwn(step) && !OlderLoad(g, v)
    requires step.Store? ==> g.Storing? && 0.0 <= step.random < 1.0
    ensures Coherent(Effect(s, g, step), v, n)
  {
    match step {
      case Acquire(r, fate) => CoherentSend(s, TakeLock(r), fate, v, n);
      case Release(r, fate) => CoherentSend(s, GiveLock(r), fate, v, n);
      case Store(_, fate, random) => CoherentSend(s, StoreCommand(g.load, random), fate, v, n);
      case _ =>
    }
  }

  lemma CoherentOwn(s: State, step: Step, v: nat, n: nat)
    requires Coherent(s, v, n) && IsOwn(step) && Enabled(s, step)
    ensures Coherent(Effect(Goto(s, step.r, Next(s, step)), s.readers[step.r], step), v, n)
  {
    CoherentNext(s, step, v, n);
    CoherentGoto(s, step.r, Next(s, step), v, n);
    CoherentEffect(Goto(s, step.r, Next(s, step)), s.readers[step.r], step, v, n);
  }

  lemma CoherentStep(s: State, step: Step, v: nat, n: nat)
    requires Coherent(s, v, n) && Enabled(s, step)
    ensures Coherent(Apply(s, step), v, n)
  {
    match step {
      case Tick(_) =>
      case Write(_) =>
      case Invalidate(fate) => CoherentSend(s, DropCard, fate, v, n);
      case Arrive =>
        forall q | 0 <= q < |s.readers| + 1 ensures !OlderLoad(Apply(s, step).readers[q], v) {
          assert q < |s.readers| ==> !OlderLoad(s.readers[q], v);
        }
      case Reach(c) =>
        assert !OlderCommand(c, v);
        CoherentLess(s, c, v, n);
        CoherentSend(s.(wire := s.wire - multiset{c}), c, Works, v, n);
      case Vanish(c) => CoherentLess(s, c, v, n);
      case _ => CoherentOwn(s, step, v, n);
    }
  }

  lemma CoherentLess(s: State, c: Command, v: nat, n: nat)
    requires Coherent(s, v, n)
    ensures Coherent(s.(wire := s.wire - multiset{c}), v, n)
  {
    var s' := s.(wire := s.wire - multiset{c});
    forall d | d in s'.wire ensures !OlderCommand(d, v) {
      assert d in s.wire;
    }
  }

  lemma {:induction false} CoherentRun(s: State, steps: seq<Step>, v: nat, n: nat)
    requires Coherent(s, v, n) && Runs(s, steps)
    ensures Coherent(Final(s, steps), v, n)
    decreases |steps|
  {
    if steps != [] {
      CoherentStep(s, steps[0], v, n);
      CoherentRun(Apply(s, steps[0]), steps[1..], v, n);
    }
  }

  /** A run from s in which a reader that arrives after s gets a version before v. */
  ghost predicate ReadsOld(s: State, steps: seq<Step>, r: nat, v: nat) {
    Runs(s, steps) && |s.readers| <= r < |Final(s, steps).readers| && Final(s, steps).readers[r].Done? && AnswersOld(Final(s, steps).readers[r], v)
  }

  /** With an old entry in the cache, the next reader gets it. */
  lemma OldEntryIsRead(s: State, v: nat)
    requires OlderCached(s.cache, s.now, v)
    ensures ReadsOld(s, [Arrive] + ([Lookup(|s.readers|, true)] + []), |s.readers|, v)
  {
    var s1 := Apply(s, Arrive);
    RunsCons(s1, Lookup(|s.readers|, true), []);
    RunsCons(s, Arrive, [Lookup(|s.readers|, true)] + []);
  }

  lemma OldReadAfter(s: State, step: Step, v: nat)
    requires Enabled(s, step)
    requires var s' := Apply(s, step); |s'.readers| == |s.readers| && OlderCached(s'.cache, s'.now, v)
    ensures exists steps :: ReadsOld(s, steps, |s.readers|, v)
  {
    var rest := [Arrive] + ([Lookup(|s.readers|, true)] + []);
    OldEntryIsRead(Apply(s, step), v);
    RunsCons(s, step, rest);
    assert ReadsOld(s, [step] + rest, |s.readers|, v);
  }

  /** An old load about to be stored, or an old card on the wire, can still reach the cache. */
  lemma OldLoadIsRead(s: State, v: nat)
    requires OlderPending(s.readers, v) || OlderOnWire(s.wire, v)
    requires forall c :: c in s.wire ==> CommandOk(c, s.versions, s.now)
    ensures exists steps :: ReadsOld(s, steps, |s.readers|, v)
  {
    if p :| 0 <= p < |s.readers| && OlderLoad(s.readers[p], v) {
      TtlRange(s.readers[p].load.card, 0.0);
      OldReadAfter(s, Store(p, Works, 0.0), v);
    } else {
      var c :| c in s.wire && OlderCommand(c, v);
      assert CommandOk(c, s.versions, s.now);
      OldReadAfter(s, Reach(c), v);
    }
  }

  /** Exactly when `invalidate` works.  After it, at database version v, some read that starts
      later may still see an older version if and only if an older load is still waiting to be
      stored or on its way to Redis, or the delete has not taken effect and an older entry is
      alive. */
  lemma InvalidationCoherentIff(s: State, fate: Fate)
    requires Inv(s)
    ensures var v := |s.versions| - 1;
      (exists steps, r :: ReadsOld(Apply(s, Invalidate(fate)), steps, r, v)) <==>
      (OlderPending(s.readers, v) || OlderOnWire(s.wire, v) || (!TakesEffect(fate) && OlderCached(s.cache, s.now, v)))
  {
    var v, s' := |s.versions| - 1, Apply(s, Invalidate(fate));
    InvStep(s, Invalidate(fate));
    if OlderPending(s.readers, v) || OlderOnWire(s.wire, v) {
      assert OlderOnWire(s.wire, v) ==> OlderOnWire(s'.wire, v) by {
        if c :| c in s.wire && OlderCommand(c, v) { assert c in s'.wire; }
      }
      OldLoadIsRead(s', v);
    } else if !TakesEffect(fate) && OlderCached(s.cache, s.now, v) {
      OldEntryIsRead(s', v);
    } else if steps, r :| ReadsOld(s', steps, r, v) {
      assert forall c :: c in s'.wire ==> c in s.wire || c == DropCard;
      CoherentRun(s', steps, v, |s'.readers|);
    }
  }
}
