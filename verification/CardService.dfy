/** `ProductCardService` and `RedisCache` (src/products/product-card.service.ts,
    src/cache/redis-cache.ts) as code.  A read runs against the shared state of ProductCards:
    before each of its calls everybody else may move, and its own calls are the protocol's
    steps, which have to be allowed where the code makes them. */
module CardService {
  import opened Base
  import opened ProductCards
  import RedisLock

  // ---------------------------------------------------------------- the cache

  datatype Cached = Cached(value: Option<Card>, expiresAt: nat)

  type Entries = map<string, Cached>

  /** Some(value) on a hit, where the value may itself be a cached absence. */
  function Found(entries: Entries, key: string, now: nat): Option<Option<Card>> {
    if key in entries && now < entries[key].expiresAt then Some(entries[key].value) else None
  }

  class RedisCache {
    var entries: Entries

    constructor ()
      ensures entries == map[]
    {
      entries := map[];
    }

    /** Never throws: an unreachable server is a miss. */
    method Get(key: string, now: nat, up: bool) returns (hit: Option<Option<Card>>)
      ensures hit == if up then Found(entries, key, now) else None
    {
      if !up {
        return None;
      }
      if key !in entries || entries[key].expiresAt <= now {
        return None;
      }
      return Some(entries[key].value);
    }

    method Set(key: string, value: Option<Card>, ttlSec: nat, now: nat, up: bool)
      modifies this
      ensures entries == if up then old(entries)[key := Cached(value, now + 1000 * ttlSec)] else old(entries)
    {
      if up {
        entries := entries[key := Cached(value, now + 1000 * ttlSec)];
      }
    }

    method Del(key: string, up: bool)
      modifies this
      ensures entries == if up then old(entries) - {key} else old(entries)
    {
      if up {
        entries := entries - {key};
      }
    }
  }

  /** `invalidateCards` of src/orders/orders.service.ts: after an order commits, the card of every
      product in it is dropped and no other, except where the delete of that very card fails;
      without a product-card service nothing happens. */
  method InvalidateCards(cache: RedisCache?, productIds: seq<nat>, up: nat -> bool)
    modifies cache
    ensures cache != null ==> cache.entries == old(cache.entries) - Dropped(productIds, up)
    ensures cache != null ==> forall key :: key in cache.entries <==>
      && key in old(cache.entries)
      && forall i: nat :: i < |productIds| && up(i) ==> key != "product:card:" + Decimal(productIds[i])
  {
    if cache == null {
      return;
    }
    for i := 0 to |productIds|
      invariant cache.entries == old(cache.entries) - Dropped(productIds[..i], up)
    {
      DroppedSnoc(productIds[..i], productIds[i], up);
      assert productIds[..i + 1] == productIds[..i] + [productIds[i]];
      cache.Del(CardKey(productIds[i]), up(i));
    }
    assert productIds[..|productIds|] == productIds;
  }

  function Dropped(productIds: seq<nat>, up: nat -> bool): set<string> {
    set i | 0 <= i < |productIds| && up(i) :: CardKey(productIds[i])
  }

  lemma DroppedSnoc(productIds: seq<nat>, p: nat, up: nat -> bool)
    ensures Dropped(productIds + [p], up) == Dropped(productIds, up) + if up(|productIds|) then {CardKey(p)} else {}
  {
    var n, more := |productIds|, productIds + [p];
    forall k | k in Dropped(productIds, up) ensures k in Dropped(more, up) {
      var i :| 0 <= i < n && up(i) && CardKey(productIds[i]) == k;
      assert more[i] == productIds[i];
    }
    assert up(n) ==> CardKey(more[n]) in Dropped(more, up);
  }

  /** What was stored is found, absences included, exactly until its time is up or it is
      deleted, and no other key notices. */
  lemma StoredUntilExpiry(entries: Entries, key: string, value: Option<Card>, ttlSec: nat, now: nat, other: string, t: nat)
    requires now <= t
    ensures var stored := entries[key := Cached(value, now + 1000 * ttlSec)];
      && (Found(stored, key, t) == Some(value) <==> t < now + 1000 * ttlSec)
      && Found(stored - {key}, key, t) == None
      && (other != key ==> Found(stored, other, t) == Found(entries, other, t) == Found(stored - {key}, other, t))
  {
  }

  // ---------------------------------------------------------------- Redis and the database, shared

  /** What other processes and chance do around one read, call by call: the steps others take
      before the call, as far as they can; whether a lookup gets an answer; the fate of a
      command; whether the database answers; Math.random(); how long a sleep overshoots. */
  datatype World = World(
    others: nat -> seq<Step>,
    answers: nat -> bool,
    fates: nat -> Fate,
    loads: nat -> bool,
    random: real,
    overshoot: nat -> nat)

  /** None of these is a step of reader r. */
  predicate OfOthers(steps: seq<Step>, r: nat) {
    forall i :: 0 <= i < |steps| && IsOwn(steps[i]) ==> steps[i].r != r
  }

  ghost predicate KeptFor(s: State, s': State, r: nat) {
    && r < |s.readers| && r < |s'.readers| && s'.readers[r] == s.readers[r]
    && s.now <= s'.now && s'.singleFlight == s.singleFlight && |s.versions| <= |s'.versions|
  }

  lemma OthersStep(s: State, step: Step, r: nat)
    requires Enabled(s, step) && r < |s.readers| && (IsOwn(step) ==> step.r != r)
    ensures KeptFor(s, Apply(s, step), r)
  {
  }

  /** Others leave a reader where it is, and time does not run backwards. */
  lemma {:induction false} OthersKeep(s: State, steps: seq<Step>, r: nat)
    requires Runs(s, steps) && OfOthers(steps, r) && r < |s.readers|
    ensures KeptFor(s, Final(s, steps), r)
    decreases |steps|
  {
    if steps != [] {
      OthersStep(s, steps[0], r);
      OthersKeep(Apply(s, steps[0]), steps[1..], r);
    }
  }

  lemma StepKeeps(s: State, step: Step)
    requires Enabled(s, step)
    ensures |s.readers| <= |Apply(s, step).readers| && |s.versions| <= |Apply(s, step).versions|
  {
  }

  lemma RunsSnoc(s: State, steps: seq<Step>, step: Step)
    requires Runs(s, steps) && Enabled(Final(s, steps), step)
    ensures Runs(s, steps + [step]) && Final(s, steps + [step]) == Apply(Final(s, steps), step)
  {
    RunsCons(Final(s, steps), step, []);
    RunsAppend(s, steps, [step] + []);
    assert [step] + [] == [step];
  }

  datatype Attempt = Won | Busy | Broken

  /** The shared state as reader `r` meets it.  `trace` is every step anybody has taken since
      `start`, so a valid object is a run of the protocol. */
  class Shared {
    var s: State
    var calls: nat
    ghost var start: State
    ghost var trace: seq<Step>
    const r: nat
    const world: World

    constructor (s: State, r: nat, world: World)
      requires r < |s.readers| && |s.versions| > 0 && 0.0 <= world.random < 1.0
      ensures Valid() && this.s == s && start == s && trace == [] && this.r == r && this.world == world
    {
      this.s, this.r, this.world, calls := s, r, world, 0;
      start, trace := s, [];
    }

    ghost predicate Valid()
      reads this
    {
      && Runs(start, trace) && Final(start, trace) == s
      && r < |s.readers| && |s.versions| > 0 && 0.0 <= world.random < 1.0
    }

    ghost function Stage(): Stage
      reads this
      requires Valid()
    {
      s.readers[r]
    }

    /** Everybody else moves on before the next call of this read. */
    method Await()
      requires Valid()
      modifies this
      ensures Valid() && Stage() == old(Stage()) && start == old(start)
      ensures s.now >= old(s.now) && s.singleFlight == old(s.singleFlight) && calls == old(calls) + 1
    {
      var steps := world.others(calls);
      calls := calls + 1;
      if Runs(s, steps) && OfOthers(steps, r) {
        OthersKeep(s, steps, r);
        RunsAppend(start, trace, steps);
        trace := trace + steps;
        s := Final(s, steps);
      }
    }

    method Do(step: Step)
      requires Valid() && Enabled(s, step)
      modifies this
      ensures Valid() && s == Apply(old(s), step) && start == old(start) && calls == old(calls)
    {
      RunsSnoc(start, trace, step);
      StepKeeps(s, step);
      trace := trace + [step];
      s := Apply(s, step);
    }

    /** cache.get */
    method Get() returns (hit: Option<Entry>)
      requires Valid() && LooksUp(Stage())
      modifies this
      ensures Valid() && start == old(start) && s.now >= old(s.now) && s.singleFlight == old(s.singleFlight)
      ensures Stage() == if hit.Some? then AfterHit(old(Stage()), FromCache(hit.value, s.now))
                         else AfterMiss(old(Stage()), s.now, s.singleFlight)
    {
      Await();
      var ok := world.answers(calls);
      hit := if ok && Hit(s.cache, s.now) then s.cache else None;
      Do(Lookup(r, ok));
    }

    /** Date.now() at the head of the loop. */
    method Clock() returns (now: nat)
      requires Valid() && Stage().Checking?
      modifies this
      ensures Valid() && start == old(start) && now == s.now >= old(s.now) && s.singleFlight == old(s.singleFlight)
      ensures Stage() == if now < old(Stage()).deadline then Acquiring(old(Stage()).deadline, old(Stage()).failed)
                         else Loading(false)
    {
      Await();
      now := s.now;
      Do(Check(r));
    }

    /** lock.acquire: the token, null, or an error. */
    method Acquire() returns (attempt: Attempt)
      requires Valid() && Stage().Acquiring?
      modifies this
      ensures Valid() && start == old(start) && s.now >= old(s.now) && s.singleFlight == old(s.singleFlight)
      ensures Stage() == match attempt
                         case Won => Rechecking
                         case Busy => Sleeping(old(Stage()).deadline, old(Stage()).failed + 1, s.now + LOCK_POLL_MS)
                         case Broken => Loading(false)
    {
      Await();
      var fate := world.fates(calls);
      attempt := if fate != Works then Broken else if RedisLock.Live(s.lock, s.now) then Busy else Won;
      Do(ProductCards.Acquire(r, fate));
    }

    method Sleep(ms: nat)
      requires Valid() && Stage().Sleeping? && Stage().until <= s.now + ms
      modifies this
      ensures Valid() && start == old(start) && s.now >= old(Stage()).until && s.singleFlight == old(s.singleFlight)
      ensures Stage() == Polling(old(Stage()).deadline, old(Stage()).failed)
    {
      Await();
      Do(Tick(ms + world.overshoot(calls)));
      Do(Wake(r));
    }

    /** repo.loadCard: the card or its absence; None is a thrown error. */
    method Load() returns (card: Option<Option<Card>>)
      requires Valid() && Stage().Loading?
      modifies this
      ensures Valid() && start == old(start) && s.now >= old(s.now) && s.singleFlight == old(s.singleFlight)
      ensures card.Some? ==>
        Stage().Storing? && Stage().locked == old(Stage()).locked && Stage().load.card == card.value
      ensures card.None? ==> Stage() == if old(Stage()).locked then Releasing(None) else Threw
    {
      Await();
      var ok := world.loads(calls);
      card := if ok then Some(CurrentLoad(s).card) else None;
      Do(LoadCard(r, ok));
    }

    /** cache.set with the lifetime of a card or of an absence. */
    method Set(card: Option<Card>) returns (ttlSec: nat)
      requires Valid() && Stage().Storing? && Stage().load.card == card
      modifies this
      ensures Valid() && start == old(start) && s.now >= old(s.now) && s.singleFlight == old(s.singleFlight)
      ensures ttlSec == TtlSec(card, world.random)
      ensures var answer := FromDb(old(Stage()).load);
        Stage() == if old(Stage()).locked then Releasing(Some(answer)) else Done(answer)
    {
      Await();
      TtlRange(card, world.random);
      ttlSec := TtlSec(card, world.random);
      Do(Store(r, world.fates(calls), world.random));
    }

    /** lock.release, which never throws. */
    method Unlock()
      requires Valid() && Stage().Releasing?
      modifies this
      ensures Valid() && start == old(start) && s.now >= old(s.now) && s.singleFlight == old(s.singleFlight)
      ensures Stage() == if old(Stage()).answer.Some? then Done(old(Stage()).answer.value) else Threw
    {
      Await();
      Do(Release(r, world.fates(calls)));
    }
  }

  // ---------------------------------------------------------------- one read

  datatype Call = TryLock | QueryCard | StoreCard(card: Option<Card>, ttlSec: nat) | Unlocked

  /** The answer, or an error. */
  datatype Outcome = Answer(card: Option<Card>) | Error

  /** The protocol's reader has ended with this outcome. */
  ghost predicate EndedWith(g: Stage, o: Outcome) {
    match o
    case Answer(card) => g.Done? && LoadOf(g.served).card == card
    case Error => g.Threw?
  }

  /** It has this outcome in hand and only the lock left to give back. */
  ghost predicate ReleasingWith(g: Stage, o: Outcome) {
    && g.Releasing?
    && match o
       case Answer(card) => g.answer.Some? && LoadOf(g.answer.value).card == card
       case Error => g.answer.None?
  }

  /** One query, and a store of exactly what it returned, if it returned. */
  ghost predicate LoadCalls(calls: seq<Call>, o: Outcome) {
    match o
    case Answer(card) =>
      && |calls| == 2 && calls[0] == QueryCard && calls[1].StoreCard? && calls[1].card == card
      && RightLife(card, 1000 * calls[1].ttlSec)
    case Error => calls == [QueryCard]
  }

  function Tries(n: nat): seq<Call> { seq(n, _ => TryLock) }

  method LoadAndStore(io: Shared) returns (outcome: Outcome, calls: seq<Call>)
    requires io.Valid() && io.Stage().Loading?
    modifies io
    ensures io.Valid() && io.start == old(io.start) && io.s.singleFlight == old(io.s.singleFlight)
    ensures if old(io.Stage()).locked then ReleasingWith(io.Stage(), outcome) else EndedWith(io.Stage(), outcome)
    ensures LoadCalls(calls, outcome)
  {
    var loaded := io.Load();
    if loaded.None? {
      return Error, [QueryCard];
    }
    var card := loaded.value;
    var ttlSec := io.Set(card);
    TtlRange(card, io.world.random);
    return Answer(card), [QueryCard, StoreCard(card, ttlSec)];
  }

  /** What one read that missed costs: at most 80 attempts at the lock; then nothing more if a
      poll found the card; a load without the lock if an attempt failed or time ran out; or,
      with the lock, at most one load, and in any case the unlock, last of all. */
  ghost predicate MissCost(calls: seq<Call>, o: Outcome) {
    exists n: nat, load: seq<Call> :: MissCalls(calls, o, n, load)
  }

  ghost predicate MissCalls(calls: seq<Call>, o: Outcome, n: nat, load: seq<Call>) {
    && n <= 80
    && ( || (n > 0 && o.Answer? && load == [] && calls == Tries(n))
         || (LoadCalls(load, o) && calls == Tries(n) + load)
         || (n > 0 && ((load == [] && o.Answer?) || LoadCalls(load, o)) && calls == Tries(n) + load + [Unlocked]))
  }

  /** The polling loop, amid whatever everybody else does. */
  method LoadOnMiss(io: Shared) returns (outcome: Outcome, calls: seq<Call>)
    requires io.Valid() && (if io.s.singleFlight then io.Stage() == Checking(io.s.now + LOCK_WAIT_BUDGET_MS, 0) else io.Stage() == Loading(false))
    modifies io
    ensures io.Valid() && io.start == old(io.start) && io.s.singleFlight == old(io.s.singleFlight)
    ensures EndedWith(io.Stage(), outcome) && MissCost(calls, outcome)
  {
    if !io.s.singleFlight {
      outcome, calls := LoadAndStore(io);
      assert MissCalls(calls, outcome, 0, calls);
      return;
    }
    calls := [];
    var deadline := io.s.now + LOCK_WAIT_BUDGET_MS;
    ghost var n := 0;
    while true
      invariant io.Valid() && io.start == old(io.start) && io.s.singleFlight == old(io.s.singleFlight)
      invariant io.Stage() == Checking(deadline, n) && calls == Tries(n)
      invariant n <= 80 && Paced(deadline, n, io.s.now)
      decreases 80 - n
    {
      var now := io.Clock();
      if now >= deadline {
        break;
      }
      var attempt := io.Acquire();
      calls := calls + [TryLock];
      if attempt == Broken {
        break;
      }
      if attempt == Won {
        outcome, calls := UnderLock(io, calls, n + 1);
        return;
      }
      n := n + 1;
      io.Sleep(LOCK_POLL_MS);
      var hit := io.Get();
      if hit.Some? {
        outcome := Answer(hit.value.load.card);
        assert MissCalls(calls, outcome, n, []);
        return;
      }
    }
    outcome, calls := WithoutLock(io, calls, |calls|);
  }

  /** Look once more, load if need be, and always unlock. */
  method UnderLock(io: Shared, tries: seq<Call>, ghost n: nat) returns (outcome: Outcome, calls: seq<Call>)
    requires io.Valid() && io.Stage() == Rechecking && 0 < n <= 80 && tries == Tries(n)
    modifies io
    ensures io.Valid() && io.start == old(io.start) && io.s.singleFlight == old(io.s.singleFlight)
    ensures EndedWith(io.Stage(), outcome) && MissCost(calls, outcome)
  {
    var load: seq<Call> := [];
    var again := io.Get();
    if again.Some? {
      outcome := Answer(again.value.load.card);
    } else {
      outcome, load := LoadAndStore(io);
    }
    io.Unlock();
    calls := tries + load + [Unlocked];
    assert MissCalls(calls, outcome, n, load);
  }

  method WithoutLock(io: Shared, tries: seq<Call>, ghost n: nat) returns (outcome: Outcome, calls: seq<Call>)
    requires io.Valid() && io.Stage() == Loading(false) && n <= 80 && tries == Tries(n)
    modifies io
    ensures io.Valid() && io.start == old(io.start) && io.s.singleFlight == old(io.s.singleFlight)
    ensures EndedWith(io.Stage(), outcome) && MissCost(calls, outcome)
  {
    var load;
    outcome, load := LoadAndStore(io);
    calls := tries + load;
    assert MissCalls(calls, outcome, n, load);
  }

  /** The whole read.  Whatever everybody else does meanwhile, it is a run of the protocol that
      takes reader r from its start to its end with this very outcome; so it makes no step
      the protocol does not allow, and everything proved of the protocol's readers holds of
      it.  A hit costs nothing more. */
  method GetCard(io: Shared) returns (outcome: Outcome, calls: seq<Call>)
    requires io.Valid() && io.Stage() == Starting
    modifies io
    ensures io.Valid() && io.start == old(io.start)
    ensures EndedWith(io.Stage(), outcome)
    ensures (calls == [] && outcome.Answer? && io.Stage().served.FromCache?) || MissCost(calls, outcome)
  {
    var lookup := io.Get();
    if lookup.Some? {
      return Answer(lookup.value.load.card), [];
    }
    outcome, calls := LoadOnMiss(io);
  }

  /** Without a cache or a lock a read is one query. */
  method GetCardUncached(io: Shared) returns (outcome: Outcome)
    requires io.Valid()
    modifies io
    ensures io.Valid() && io.start == old(io.start) && io.Stage() == old(io.Stage())
    ensures outcome.Answer? ==> outcome.card == CurrentLoad(io.s).card
  {
    io.Await();
    outcome := if io.world.loads(io.calls) then Answer(CurrentLoad(io.s).card) else Error;
  }

  // ---------------------------------------------------------------- what a read amounts to

  function Count(calls: seq<Call>, c: Call): nat {
    if calls == [] then 0 else Count(calls[..|calls| - 1], c) + if calls[|calls| - 1] == c then 1 else 0
  }

  lemma {:induction false} CountAppend(a: seq<Call>, b: seq<Call>, c: Call)
    ensures Count(a + b, c) == Count(a, c) + Count(b, c)
    decreases |b|
  {
    if b == [] {
      assert a + b == a;
    } else {
      assert (a + b)[..|a + b| - 1] == a + b[..|b| - 1];
      CountAppend(a, b[..|b| - 1], c);
    }
  }

  lemma {:induction false} CountTries(n: nat, c: Call)
    ensures Count(Tries(n), c) == if c == TryLock then n else 0
  {
    if n > 0 {
      assert Tries(n)[..n - 1] == Tries(n - 1);
      CountTries(n - 1, c);
    }
  }

  lemma CountOne(c: Call, d: Call)
    ensures Count([c], d) == if c == d then 1 else 0
  {
    assert [c][..0] == [];
  }

  lemma CountLoad(load: seq<Call>, o: Outcome, c: Call)
    requires load == [] || LoadCalls(load, o)
    ensures Count(load, QueryCard) == if load == [] then 0 else 1
    ensures c == TryLock || c == Unlocked ==> Count(load, c) == 0
  {
    if |load| == 2 {
      assert load[..1] == [load[0]] && [load[0]][..0] == [];
    } else if |load| == 1 {
      assert load[..0] == [];
    }
  }

  /** A read that missed tries the lock at most 80 times and loads at most once; it unlocks at
      most once, and then last; and if it neither loaded nor unlocked, polling answered it. */
  lemma ReadCosts(calls: seq<Call>, o: Outcome)
    requires MissCost(calls, o)
    ensures Count(calls, TryLock) <= 80 && Count(calls, QueryCard) <= 1 && Count(calls, Unlocked) <= 1
    ensures Count(calls, Unlocked) == 1 ==> calls[|calls| - 1] == Unlocked && Count(calls, TryLock) > 0
    ensures Count(calls, QueryCard) == 0 ==> o.Answer?
  {
    var n: nat, load :| MissCalls(calls, o, n, load);
    CountsOf(n, load, o, TryLock);
    CountsOf(n, load, o, QueryCard);
    CountsOf(n, load, o, Unlocked);
    assert Tries(n) + [] == Tries(n);
  }

  lemma CountsOf(n: nat, load: seq<Call>, o: Outcome, c: Call)
    requires load == [] || LoadCalls(load, o)
    requires c == TryLock || c == QueryCard || c == Unlocked
    ensures var k := (if c == TryLock then n else 0) + (if c == QueryCard && load != [] then 1 else 0);
      && Count(Tries(n) + load, c) == k
      && Count(Tries(n) + load + [Unlocked], c) == k + (if c == Unlocked then 1 else 0)
  {
    CountTries(n, c);
    CountLoad(load, o, c);
    CountAppend(Tries(n), load, c);
    CountAppend(Tries(n) + load, [Unlocked], c);
    CountOne(Unlocked, c);
  }

  /** What the protocol promises its readers, the code's callers get: from a consistent shared
      state, the answer was the database's value when it was loaded and, out of the cache,
      stored within the lifetime of its entry. */
  lemma AnswerIsRecent(start: State, trace: seq<Step>, r: nat, o: Outcome)
    requires Inv(start) && Runs(start, trace)
    requires r < |Final(start, trace).readers| && EndedWith(Final(start, trace).readers[r], o) && o.Answer?
    ensures var s := Final(start, trace);
      var a := s.readers[r].served;
      && LoadOk(LoadOf(a), s.versions, s.now) && s.versions[LoadOf(a).version].card == o.card
      && (a.FromCache? ==>
            a.entry.storedAt <= a.at < a.entry.expiresAt && RightLife(o.card, a.entry.expiresAt - a.entry.storedAt))
  {
    InvRun(start, trace);
    var s := Final(start, trace);
    assert StageOk(s.readers[r], s.versions, s.now);
  }
}
