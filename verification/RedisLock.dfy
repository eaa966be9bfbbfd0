/** The Redis lock of src/cache/redis-lock.ts: SET name token PX ttl NX to acquire, and a script
    that deletes the key only if it still holds the caller's token to release.  A key set at
    instant t with PX ttl exists for the instants before t + ttl. */
module RedisLock {
  import opened Base

  datatype Holder<T> = Holder(token: T, expiresAt: nat)

  predicate Live<T>(h: Option<Holder<T>>, now: nat) { h.Some? && now < h.value.expiresAt }

  /** SET ... NX */
  function Take<T>(h: Option<Holder<T>>, token: T, ttlMs: nat, now: nat): Option<Holder<T>> {
    if Live(h, now) then h else Some(Holder(token, now + ttlMs))
  }

  /** Compare and delete. */
  function Give<T(==)>(h: Option<Holder<T>>, token: T, now: nat): Option<Holder<T>> {
    if Live(h, now) && h.value.token == token then None else h
  }

  type Keys = map<string, Holder<string>>

  function At(keys: Keys, name: string): Option<Holder<string>> {
    if name in keys then Some(keys[name]) else None
  }

  function Put(keys: Keys, name: string, h: Option<Holder<string>>): Keys {
    match h
    case None => keys - {name}
    case Some(holder) => keys[name := holder]
  }

  class Lock {
    var keys: Keys

    constructor ()
      ensures keys == map[]
    {
      keys := map[];
    }

    /** The caller gets the lock exactly when nobody holds it. */
    method Acquire(name: string, token: string, ttlMs: nat, now: nat) returns (acquired: bool)
      modifies this
      ensures acquired <==> !Live(At(old(keys), name), now)
      ensures keys == Put(old(keys), name, Take(At(old(keys), name), token, ttlMs, now))
    {
      if name in keys && now < keys[name].expiresAt {
        assert keys == keys[name := keys[name]];
        return false;
      }
      keys := keys[name := Holder(token, now + ttlMs)];
      return true;
    }

    /** Removes the lock exactly when the caller is its live owner. */
    method Release(name: string, token: string, now: nat) returns (removed: bool)
      modifies this
      ensures removed <==> Live(At(old(keys), name), now) && old(keys)[name].token == token
      ensures keys == Put(old(keys), name, Give(At(old(keys), name), token, now))
    {
      if name in keys && now < keys[name].expiresAt && keys[name].token == token {
        keys := keys - {name};
        return true;
      }
      assert name in keys ==> keys == keys[name := keys[name]];
      assert name !in keys ==> keys == keys - {name};
      return false;
    }
  }

  // ---------------------------------------------------------------- every run of the lock

  /** `log` is a history: the successful acquisitions and the release calls, in order. */
  datatype Event =
    | Took(name: string, token: string, until: nat)
    | Gave(name: string, token: string)

  datatype State = State(now: nat, keys: Keys, log: seq<Event>)

  datatype Step =
    | Tick(elapsed: nat)
    | Acquire(name: string, token: string, ttlMs: nat)
    | Release(name: string, token: string)

  /** Tokens are random uuids: never drawn twice. */
  ghost predicate Drawn(log: seq<Event>, token: string) {
    exists i :: 0 <= i < |log| && log[i].token == token
  }

  ghost predicate Enabled(s: State, step: Step) {
    step.Acquire? ==> !Drawn(s.log, step.token)
  }

  function Apply(s: State, step: Step): State {
    match step
    case Tick(ms) => s.(now := s.now + ms)
    case Acquire(name, token, ttlMs) =>
      s.(keys := Put(s.keys, name, Take(At(s.keys, name), token, ttlMs, s.now)),
         log := if Live(At(s.keys, name), s.now) then s.log else s.log + [Took(name, token, s.now + ttlMs)])
    case Release(name, token) =>
      s.(keys := Put(s.keys, name, Give(At(s.keys, name), token, s.now)),
         log := s.log + [Gave(name, token)])
  }

  const Init := State(0, map[], [])

  ghost predicate Runs(s: State, steps: seq<Step>)
    decreases |steps|
  {
    steps == [] || (Enabled(s, steps[0]) && Runs(Apply(s, steps[0]), steps[1..]))
  }

  function Final(s: State, steps: seq<Step>): State
    decreases |steps|
  {
    if steps == [] then s else Final(Apply(s, steps[0]), steps[1..])
  }

  /** Ownership by the record alone: acquired, not over yet, and not released since. */
  ghost predicate OwnsBy(log: seq<Event>, i: nat, name: string, token: string, now: nat) {
    && i < |log| && log[i].Took? && log[i].name == name && log[i].token == token && now < log[i].until
    && forall j :: i < j < |log| ==> log[j] != Gave(name, token)
  }

  ghost predicate Owns(log: seq<Event>, name: string, token: string, now: nat) {
    exists i: nat :: OwnsBy(log, i, name, token, now)
  }

  ghost predicate StoredAs(keys: Keys, name: string, token: string, now: nat) {
    Live(At(keys, name), now) && keys[name].token == token
  }

  /** What Redis stores is what the record says, now and at every later instant until then. */
  ghost predicate Inv(s: State) {
    forall name, token, t: nat :: s.now <= t ==>
      (Owns(s.log, name, token, t) <==> StoredAs(s.keys, name, token, t))
  }

  lemma OwnsAfter(log: seq<Event>, e: Event, name: string, token: string, t: nat)
    requires Drawn(log, token) ==> !(e.Took? && e.token == token)
    ensures Owns(log + [e], name, token, t) <==>
      (if e == Gave(name, token) then false
       else Owns(log, name, token, t) || (e.Took? && e.name == name && e.token == token && t < e.until))
  {
    var log' := log + [e];
    if Owns(log', name, token, t) {
      var i: nat :| OwnsBy(log', i, name, token, t);
      if i < |log| {
        assert OwnsBy(log, i, name, token, t) by {
          assert forall j :: i < j < |log| ==> log'[j] == log[j];
        }
      }
      assert log'[|log|] == e;
    }
    if Owns(log, name, token, t) && e != Gave(name, token) {
      var i: nat :| OwnsBy(log, i, name, token, t);
      assert OwnsBy(log', i, name, token, t);
    }
    if e.Took? && e.name == name && e.token == token && t < e.until {
      assert OwnsBy(log', |log|, name, token, t);
    }
  }

  lemma InvStep(s: State, step: Step)
    requires Inv(s) && Enabled(s, step)
    ensures Inv(Apply(s, step))
  {
    var s' := Apply(s, step);
    forall name, token, t: nat | s'.now <= t
      ensures Owns(s'.log, name, token, t) <==> StoredAs(s'.keys, name, token, t)
    {
      assert Owns(s.log, name, token, t) <==> StoredAs(s.keys, name, token, t);
      match step {
        case Tick(_) =>
        case Acquire(n, k, ttlMs) =>
          if !Live(At(s.keys, n), s.now) { OwnsAfter(s.log, Took(n, k, s.now + ttlMs), name, token, t); }
        case Release(n, k) =>
          OwnsAfter(s.log, Gave(n, k), name, token, t);
      }
    }
  }

  lemma {:induction false} InvRun(s: State, steps: seq<Step>)
    requires Inv(s) && Runs(s, steps)
    ensures Inv(Final(s, steps))
    decreases |steps|
  {
    if steps != [] {
      InvStep(s, steps[0]);
      InvRun(Apply(s, steps[0]), steps[1..]);
    }
  }

  /** In every run, at every instant from now on, at most one token owns a name, and it is the
      one Redis stores. */
  lemma OneOwner(steps: seq<Step>, name: string, token: string, t: nat)
    requires Runs(Init, steps) && Final(Init, steps).now <= t
    ensures var s := Final(Init, steps);
      && (Owns(s.log, name, token, t) <==> StoredAs(s.keys, name, token, t))
      && (forall other :: Owns(s.log, name, token, t) && Owns(s.log, name, other, t) ==> token == other)
  {
    InvRun(Init, steps);
    var s := Final(Init, steps);
    forall other | Owns(s.log, name, token, t) && Owns(s.log, name, other, t) ensures token == other {
      assert StoredAs(s.keys, name, token, t) && StoredAs(s.keys, name, other, t);
    }
  }

  /** A release, however late, takes nothing from anybody else: every other token owns
      afterwards exactly what it owned before. */
  lemma LateReleaseHarmless(steps: seq<Step>, name: string, late: string, at: string, owner: string, t: nat)
    requires Runs(Init, steps) && Final(Init, steps).now <= t && late != owner
    ensures var s := Final(Init, steps);
      var s' := Apply(s, Release(name, late));
      && (Owns(s'.log, at, owner, t) <==> Owns(s.log, at, owner, t))
      && (StoredAs(s'.keys, at, owner, t) <==> StoredAs(s.keys, at, owner, t))
  {
    InvRun(Init, steps);
    var s := Final(Init, steps);
    InvStep(s, Release(name, late));
    OwnsAfter(s.log, Gave(name, late), at, owner, t);
  }

  /** Whoever is refused was refused because some other token owns the name at that instant. */
  lemma RefusedOnlyWhileOwned(steps: seq<Step>, name: string)
    requires Runs(Init, steps)
    ensures var s := Final(Init, steps);
      Live(At(s.keys, name), s.now) <==> exists token :: Owns(s.log, name, token, s.now)
  {
    InvRun(Init, steps);
    var s := Final(Init, steps);
    if Live(At(s.keys, name), s.now) {
      assert StoredAs(s.keys, name, s.keys[name].token, s.now);
    }
  }
}
