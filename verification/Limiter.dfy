/** The sliding-window limiter (src/ratelimit/sliding-window-limiter.ts): a Redis sorted set
    that is pruned on every call and expires as a whole, against the plain definition over
    the full history of admissions.  Instants and the window are milliseconds.  Members are
    random uuids, so the set is the sequence of its scores in order. */
module Limiter {
  import opened Base

  datatype Entry = Entry(scores: seq<int>, expiresAt: int)

  type Keys = map<string, Entry>

  datatype Reply = Reply(allowed: bool, remaining: int, retryMs: int) | ScriptError

  datatype LimitResult = Limit(allowed: bool, remaining: int, retryAfterSec: int) | Threw

  /** The elements greater than `bound`, in order: what ZREMRANGEBYSCORE -inf bound leaves. */
  function Prune(s: seq<int>, bound: int): seq<int> {
    if s == [] then []
    else
      var rest := Prune(s[..|s| - 1], bound);
      if s[|s| - 1] > bound then rest + [s[|s| - 1]] else rest
  }

  /** The scores Redis still holds under `key` at `now`; an expired key is gone. */
  function Visible(keys: Keys, key: string, now: int): seq<int> {
    if key in keys && now < keys[key].expiresAt then keys[key].scores else []
  }

  /** The Lua script.  PEXPIRE with a non-positive window deletes the key; arithmetic on the
      missing oldest element of an empty set is an error. */
  function Script(keys: Keys, key: string, window: int, limit: int, now: int): (Keys, Reply) {
    var scores := Prune(Visible(keys, key, now), now - window);
    var count := |scores|;
    var pruned := if scores == [] then keys - {key} else keys[key := Entry(scores, keys[key].expiresAt)];
    if count < limit then
      (if window <= 0 then keys - {key} else keys[key := Entry(scores + [now], now + window)],
       Reply(true, limit - count - 1, 0))
    else if scores == [] then (pruned, ScriptError)
    else (pruned, Reply(false, 0, scores[0] + window - now))
  }

  /** Math.max(1, Math.ceil(retryMs / 1000)). */
  function RetryAfterSec(retryMs: int): int { Max(1, -((-retryMs) / 1000)) }

  /** What `consume` makes of a reply, or of Redis not answering. */
  function Answer(reply: Reply, limit: int, failOpen: bool): LimitResult {
    match reply
    case Reply(allowed, remaining, retryMs) => Limit(allowed, remaining, if allowed then 0 else RetryAfterSec(retryMs))
    case ScriptError => if failOpen then Limit(true, limit, 0) else Threw
  }

  /** What becomes of a call to Redis: it is answered, it never runs, or its reply is lost. */
  datatype Fate = Answered | NotRun | ReplyLost

  function KeyOf(prefix: string, id: string): string { prefix + ":" + id }

  /** What the caller of `consume` gets. */
  function ResultOf(keys: Keys, key: string, window: int, limit: int, now: int, fate: Fate, failOpen: bool): LimitResult {
    Answer(if fate == Answered then Script(keys, key, window, limit, now).1 else ScriptError, limit, failOpen)
  }

  class SlidingWindowLimiter {
    const limit: int
    const windowMs: int
    const prefix: string
    const failOpen: bool
    var keys: Keys

    constructor (limit: int, windowMs: int, prefix: string, failOpen: bool)
      ensures this.limit == limit && this.windowMs == windowMs && this.prefix == prefix && this.failOpen == failOpen
      ensures keys == map[]
    {
      this.limit, this.windowMs, this.prefix, this.failOpen := limit, windowMs, prefix, failOpen;
      keys := map[];
    }

    /** On an error the set is untouched if the script never ran, and changed if only its reply
        was lost; the caller cannot tell. */
    method Consume(id: string, now: int, fate: Fate) returns (result: LimitResult)
      modifies this
      ensures keys == if fate == NotRun then old(keys) else Script(old(keys), KeyOf(prefix, id), windowMs, limit, now).0
      ensures result == ResultOf(old(keys), KeyOf(prefix, id), windowMs, limit, now, fate, failOpen)
    {
      var reply := ScriptError;
      if fate != NotRun {
        var (keys', answer) := Script(keys, KeyOf(prefix, id), windowMs, limit, now);
        keys := keys';
        if fate == Answered {
          reply := answer;
        }
      }
      match reply {
        case ScriptError =>
          if !failOpen { return Threw; }
          return Limit(true, limit, 0);
        case Reply(allowed, remaining, retryMs) =>
          return Limit(allowed, remaining, if allowed then 0 else RetryAfterSec(retryMs));
      }
    }
  }

  // ---------------------------------------------------------------- facts about pruning

  lemma {:induction false} PrunePrune(s: seq<int>, a: int, b: int)
    requires a <= b
    ensures Prune(Prune(s, a), b) == Prune(s, b)
    decreases |s|
  {
    if s != [] {
      PrunePrune(s[..|s| - 1], a, b);
      var rest := Prune(s[..|s| - 1], a);
      assert s[|s| - 1] > a ==> (rest + [s[|s| - 1]])[..|rest|] == rest;
    }
  }

  lemma PruneSnoc(s: seq<int>, x: int, bound: int)
    ensures Prune(s + [x], bound) == Prune(s, bound) + (if x > bound then [x] else [])
  {
    assert (s + [x])[..|s|] == s;
  }

  lemma {:induction false} PruneAll(s: seq<int>, bound: int)
    requires forall i :: 0 <= i < |s| ==> s[i] <= bound
    ensures Prune(s, bound) == []
    decreases |s|
  {
    if s != [] { PruneAll(s[..|s| - 1], bound); }
  }

  lemma {:induction false} PruneMembers(s: seq<int>, bound: int)
    ensures forall i :: 0 <= i < |Prune(s, bound)| ==> Prune(s, bound)[i] > bound && Prune(s, bound)[i] in s
    ensures Ordered(s) ==> Ordered(Prune(s, bound))
    decreases |s|
  {
    if s != [] {
      var init, last := s[..|s| - 1], s[|s| - 1];
      PruneMembers(init, bound);
      var rest := Prune(init, bound);
      if Ordered(s) {
        forall i | 0 <= i < |rest| ensures rest[i] <= last {
          var j :| 0 <= j < |init| && init[j] == rest[i];
          assert s[j] <= s[|s| - 1];
        }
      }
    }
  }

  lemma {:induction false} PruneShrinks(s: seq<int>, a: int, b: int)
    requires a <= b
    ensures |Prune(s, b)| <= |Prune(s, a)|
    decreases |s|
  {
    if s != [] { PruneShrinks(s[..|s| - 1], a, b); }
  }

  ghost predicate Ordered(s: seq<int>) {
    forall i, j :: 0 <= i < j < |s| ==> s[i] <= s[j]
  }

  // ---------------------------------------------------------------- runs

  /** `admitted` is a history: for each client all its admissions by the script, unpruned. */
  datatype State = State(keys: Keys, admitted: map<string, seq<int>>, clock: int)

  datatype Call = Call(id: string, at: int, fate: Fate)

  function History(admitted: map<string, seq<int>>, id: string): seq<int> {
    if id in admitted then admitted[id] else []
  }

  /** The script, run for this call. */
  function Serve(s: State, call: Call, prefix: string, window: int, limit: int): (State, Reply) {
    var (keys, reply) := Script(s.keys, KeyOf(prefix, call.id), window, limit, call.at);
    (State(keys,
           if reply.Reply? && reply.allowed then s.admitted[call.id := History(s.admitted, call.id) + [call.at]] else s.admitted,
           call.at),
     reply)
  }

  function Next(s: State, call: Call, prefix: string, window: int, limit: int): State {
    if call.fate == NotRun then s.(clock := call.at) else Serve(s, call, prefix, window, limit).0
  }

  /** Instants never go back. */
  ghost predicate Monotone(clock: int, calls: seq<Call>)
    decreases |calls|
  {
    calls == [] || (clock <= calls[0].at && Monotone(calls[0].at, calls[1..]))
  }

  function After(s: State, calls: seq<Call>, prefix: string, window: int, limit: int): State
    decreases |calls|
  {
    if calls == [] then s else After(Next(s, calls[0], prefix, window, limit), calls[1..], prefix, window, limit)
  }

  // ---------------------------------------------------------------- invariant

  /** At instant t the key shows after pruning what the full history shows. */
  ghost predicate SameView(keys: Keys, key: string, history: seq<int>, window: int, t: int) {
    Prune(Visible(keys, key, t), t - window) == Prune(history, t - window)
  }

  /** From `clock` on the deleted scores and the expired keys are never missed. */
  ghost predicate ViewOk(keys: Keys, key: string, history: seq<int>, window: int, clock: int) {
    forall t :: t >= clock ==> SameView(keys, key, history, window, t)
  }

  /** Admission i was not made on top of a full window. */
  ghost predicate RoomAt(history: seq<int>, i: nat, window: int, limit: int)
    requires i < |history|
  {
    |Prune(history[..i], history[i] - window)| < limit
  }

  ghost predicate SpacedOk(history: seq<int>, window: int, limit: int, clock: int) {
    && Ordered(history)
    && (forall i :: 0 <= i < |history| ==> history[i] <= clock)
    && (forall i: nat :: i < |history| ==> RoomAt(history, i, window, limit))
  }

  ghost predicate Inv(s: State, prefix: string, window: int, limit: int) {
    forall id :: ViewOk(s.keys, KeyOf(prefix, id), History(s.admitted, id), window, s.clock)
              && SpacedOk(History(s.admitted, id), window, limit, s.clock)
  }

  lemma KeysDiffer(prefix: string, a: string, b: string)
    requires a != b
    ensures KeyOf(prefix, a) != KeyOf(prefix, b)
  {
    assert KeyOf(prefix, a)[|prefix| + 1..] == a;
    assert KeyOf(prefix, b)[|prefix| + 1..] == b;
  }

  /** The window at t of what is visible after an admission at `now`, and of the history. */
  lemma AdmitAt(scores: seq<int>, history: seq<int>, window: int, now: int, t: int)
    requires scores == Prune(history, now - window) && now <= t
    ensures Prune(scores + [now], t - window) == Prune(history + [now], t - window)
  {
    PruneSnoc(scores, now, t - window);
    PruneSnoc(history, now, t - window);
    PrunePrune(history, now - window, t - window);
  }

  lemma AdmitView(keys: Keys, key: string, history: seq<int>, window: int, limit: int, clock: int, now: int)
    requires ViewOk(keys, key, history, window, clock) && clock <= now
    requires forall i :: 0 <= i < |history| ==> history[i] <= clock
    requires |Prune(Visible(keys, key, now), now - window)| < limit
    ensures ViewOk(Script(keys, key, window, limit, now).0, key, history + [now], window, now)
  {
    var keys' := Script(keys, key, window, limit, now).0;
    var scores := Prune(Visible(keys, key, now), now - window);
    assert SameView(keys, key, history, window, now);
    forall t | t >= now ensures SameView(keys', key, history + [now], window, t) {
      if t < now + window {
        AdmitAt(scores, history, window, now, t);
        assert Visible(keys', key, t) == scores + [now];
      } else {
        PruneAll(history + [now], t - window);
        assert Visible(keys', key, t) == [];
      }
    }
  }

  lemma DenyView(keys: Keys, key: string, history: seq<int>, window: int, limit: int, clock: int, now: int)
    requires ViewOk(keys, key, history, window, clock) && clock <= now
    requires |Prune(Visible(keys, key, now), now - window)| >= limit
    ensures ViewOk(Script(keys, key, window, limit, now).0, key, history, window, now)
  {
    var keys' := Script(keys, key, window, limit, now).0;
    var scores := Prune(Visible(keys, key, now), now - window);
    assert SameView(keys, key, history, window, now);
    forall t | t >= now ensures SameView(keys', key, history, window, t) {
      assert SameView(keys, key, history, window, t);
      PrunePrune(history, now - window, t - window);
      if scores == [] {
        assert Visible(keys', key, t) == [];
      } else if t < keys[key].expiresAt {
        assert Visible(keys', key, t) == scores;
      } else {
        assert Visible(keys', key, t) == [] == Visible(keys, key, t);
      }
    }
  }

  lemma AdmitSpaced(history: seq<int>, window: int, limit: int, clock: int, now: int)
    requires SpacedOk(history, window, limit, clock) && clock <= now && |Prune(history, now - window)| < limit
    ensures SpacedOk(history + [now], window, limit, now)
  {
    var h := history + [now];
    forall i: nat | i < |h| ensures RoomAt(h, i, window, limit) {
      if i < |history| {
        assert RoomAt(history, i, window, limit) && h[..i] == history[..i];
      } else {
        assert h[..i] == history;
      }
    }
  }

  lemma ServeOther(s: State, call: Call, prefix: string, window: int, limit: int, id: string)
    requires Inv(s, prefix, window, limit) && s.clock <= call.at && id != call.id
    ensures var s' := Serve(s, call, prefix, window, limit).0;
      && ViewOk(s'.keys, KeyOf(prefix, id), History(s'.admitted, id), window, s'.clock)
      && SpacedOk(History(s'.admitted, id), window, limit, s'.clock)
  {
    KeysDiffer(prefix, id, call.id);
    var s' := Serve(s, call, prefix, window, limit).0;
    var key := KeyOf(prefix, id);
    assert ViewOk(s.keys, key, History(s.admitted, id), window, s.clock);
    assert SpacedOk(History(s.admitted, id), window, limit, s.clock);
    forall t | t >= s'.clock ensures SameView(s'.keys, key, History(s'.admitted, id), window, t) {
      assert SameView(s.keys, key, History(s.admitted, id), window, t);
      assert Visible(s'.keys, key, t) == Visible(s.keys, key, t);
    }
  }

  lemma ServeOwn(s: State, call: Call, prefix: string, window: int, limit: int)
    requires Inv(s, prefix, window, limit) && s.clock <= call.at
    ensures var s' := Serve(s, call, prefix, window, limit).0;
      && ViewOk(s'.keys, KeyOf(prefix, call.id), History(s'.admitted, call.id), window, s'.clock)
      && SpacedOk(History(s'.admitted, call.id), window, limit, s'.clock)
  {
    var key, h, now := KeyOf(prefix, call.id), History(s.admitted, call.id), call.at;
    assert ViewOk(s.keys, key, h, window, s.clock) && SpacedOk(h, window, limit, s.clock);
    assert SameView(s.keys, key, h, window, now);
    var s' := Serve(s, call, prefix, window, limit).0;
    if |Prune(Visible(s.keys, key, now), now - window)| < limit {
      AdmitView(s.keys, key, h, window, limit, s.clock, now);
      AdmitSpaced(h, window, limit, s.clock, now);
      assert History(s'.admitted, call.id) == h + [now];
    } else {
      DenyView(s.keys, key, h, window, limit, s.clock, now);
      assert History(s'.admitted, call.id) == h;
      assert SpacedOk(h, window, limit, now);
    }
  }

  lemma InvStep(s: State, call: Call, prefix: string, window: int, limit: int)
    requires Inv(s, prefix, window, limit) && s.clock <= call.at
    ensures Inv(Serve(s, call, prefix, window, limit).0, prefix, window, limit)
  {
    var s' := Serve(s, call, prefix, window, limit).0;
    forall id ensures ViewOk(s'.keys, KeyOf(prefix, id), History(s'.admitted, id), window, s'.clock)
                   && SpacedOk(History(s'.admitted, id), window, limit, s'.clock)
    {
      if id == call.id { ServeOwn(s, call, prefix, window, limit); }
      else { ServeOther(s, call, prefix, window, limit, id); }
    }
  }

  lemma InvTime(s: State, now: int, prefix: string, window: int, limit: int)
    requires Inv(s, prefix, window, limit) && s.clock <= now
    ensures Inv(s.(clock := now), prefix, window, limit)
  {
    forall id ensures ViewOk(s.keys, KeyOf(prefix, id), History(s.admitted, id), window, now)
                   && SpacedOk(History(s.admitted, id), window, limit, now)
    {
      assert ViewOk(s.keys, KeyOf(prefix, id), History(s.admitted, id), window, s.clock);
      assert SpacedOk(History(s.admitted, id), window, limit, s.clock);
    }
  }

  lemma {:induction false} InvRun(s: State, calls: seq<Call>, prefix: string, window: int, limit: int)
    requires Inv(s, prefix, window, limit) && Monotone(s.clock, calls)
    ensures Inv(After(s, calls, prefix, window, limit), prefix, window, limit)
    decreases |calls|
  {
    if calls != [] {
      if calls[0].fate == NotRun { InvTime(s, calls[0].at, prefix, window, limit); }
      else { InvStep(s, calls[0], prefix, window, limit); }
      InvRun(Next(s, calls[0], prefix, window, limit), calls[1..], prefix, window, limit);
    }
  }

  function Init(clock: int): State { State(map[], map[], clock) }

  // ---------------------------------------------------------------- theorems

  /** The admissions of a history in the window that ends at t, by their positions. */
  function InWindow(h: seq<int>, window: int, t: int): set<nat> {
    set i: nat | i < |h| && t - window < h[i] <= t
  }

  function Above(h: seq<int>, bound: int): set<nat> {
    set i: nat | i < |h| && h[i] > bound
  }

  lemma {:induction false} PruneCounts(h: seq<int>, bound: int)
    ensures |Prune(h, bound)| == |Above(h, bound)|
    decreases |h|
  {
    if h != [] {
      var n := |h| - 1;
      PruneCounts(h[..n], bound);
      assert Above(h, bound) == Above(h[..n], bound) + if h[n] > bound then {n} else {};
    }
  }

  /** For calls up to now, the pruned history counts the window. */
  lemma WindowCounts(h: seq<int>, window: int, t: int)
    requires forall i :: 0 <= i < |h| ==> h[i] <= t
    ensures |Prune(h, t - window)| == |InWindow(h, window, t)|
  {
    PruneCounts(h, t - window);
    assert InWindow(h, window, t) == Above(h, t - window);
  }

  /** For limit >= 1, whatever the window and the calls before, those that failed or whose
      reply was lost included, a call that reaches the script is allowed by it iff fewer
      than `limit` of ALL admissions of that client so far fall in the last window; the
      pruning and the expiry of keys are unobservable.  `remaining` is what is left. */
  lemma DecisionIsPlainCount(start: int, calls: seq<Call>, call: Call, prefix: string, window: int, limit: int)
    requires limit >= 1 && Monotone(start, calls) && After(Init(start), calls, prefix, window, limit).clock <= call.at
    ensures var s := After(Init(start), calls, prefix, window, limit);
      var used := |InWindow(History(s.admitted, call.id), window, call.at)|;
      var reply := Serve(s, call, prefix, window, limit).1;
      && reply.Reply?
      && (reply.allowed <==> used < limit)
      && (reply.allowed ==> reply.remaining == limit - used - 1)
      && used <= limit
  {
    InvRun(Init(start), calls, prefix, window, limit);
    var s := After(Init(start), calls, prefix, window, limit);
    Decision(s, call, prefix, window, limit);
    assert SpacedOk(History(s.admitted, call.id), window, limit, s.clock);
    WindowCounts(History(s.admitted, call.id), window, call.at);
  }

  /** The same of what `consume` returns: an answered call is allowed iff fewer than `limit`
      admissions of the whole history lie in the last window; `remaining` is what is left,
      and a denial asks for a wait of at least one second.  An unanswered call is let
      through, or throws. */
  lemma ConsumeIsExact(start: int, calls: seq<Call>, call: Call, prefix: string, window: int, limit: int, failOpen: bool)
    requires limit >= 1 && Monotone(start, calls) && After(Init(start), calls, prefix, window, limit).clock <= call.at
    ensures var s := After(Init(start), calls, prefix, window, limit);
      var used := |InWindow(History(s.admitted, call.id), window, call.at)|;
      var result := ResultOf(s.keys, KeyOf(prefix, call.id), window, limit, call.at, call.fate, failOpen);
      && (call.fate == Answered ==>
            && result.Limit?
            && (result.allowed <==> used < limit)
            && (result.allowed ==> result.remaining == limit - used - 1 && result.retryAfterSec == 0)
            && (!result.allowed ==> result.remaining == 0 && result.retryAfterSec >= 1))
      && (call.fate != Answered ==> result == if failOpen then Limit(true, limit, 0) else Threw)
  {
    DecisionIsPlainCount(start, calls, call, prefix, window, limit);
  }

  lemma Decision(s: State, call: Call, prefix: string, window: int, limit: int)
    requires limit >= 1 && Inv(s, prefix, window, limit) && s.clock <= call.at
    ensures var used := |Prune(History(s.admitted, call.id), call.at - window)|;
      var reply := Serve(s, call, prefix, window, limit).1;
      && reply.Reply?
      && (reply.allowed <==> used < limit)
      && (reply.allowed ==> reply.remaining == limit - used - 1)
      && used <= limit
  {
    var h := History(s.admitted, call.id);
    assert ViewOk(s.keys, KeyOf(prefix, call.id), h, window, s.clock) && SpacedOk(h, window, limit, s.clock);
    assert SameView(s.keys, KeyOf(prefix, call.id), h, window, call.at);
    WindowBound(h, window, limit, s.clock, call.at);
    assert h[..CountUpTo(h, call.at)] == h;
  }

  /** The number of leading elements at or before t; for an ordered history, of all of them. */
  function CountUpTo(h: seq<int>, t: int): (k: nat)
    ensures k <= |h| && (forall i :: 0 <= i < k ==> h[i] <= t) && (k < |h| ==> h[k] > t)
  {
    if h == [] || h[0] > t then 0
    else
      var k := CountUpTo(h[1..], t);
      assert k < |h[1..]| ==> h[k + 1] == h[1..][k];
      assert forall i :: 0 < i <= k ==> h[i] == h[1..][i - 1];
      k + 1
  }

  /** At every instant t, call or no call, the window (t - window, t] holds at most `limit`
      admissions. */
  lemma WindowBound(h: seq<int>, window: int, limit: int, clock: int, t: int)
    requires SpacedOk(h, window, limit, clock) && limit >= 1
    ensures |Prune(h[..CountUpTo(h, t)], t - window)| <= limit
  {
    var k := CountUpTo(h, t);
    if k > 0 {
      var i: nat := k - 1;
      assert h[..k] == h[..i] + [h[i]];
      assert RoomAt(h, i, window, limit);
      PruneSnoc(h[..i], h[i], t - window);
      PruneShrinks(h[..i], h[i] - window, t - window);
    } else {
      assert h[..0] == [];
    }
  }

  /** At every instant t, call or no call, the window up to t holds at most `limit` admissions. */
  lemma NoWindowOverfull(start: int, calls: seq<Call>, prefix: string, window: int, limit: int, id: string, t: int)
    requires limit >= 1 && Monotone(start, calls)
    ensures |InWindow(History(After(Init(start), calls, prefix, window, limit).admitted, id), window, t)| <= limit
  {
    InvRun(Init(start), calls, prefix, window, limit);
    var s := After(Init(start), calls, prefix, window, limit);
    var h := History(s.admitted, id);
    assert SpacedOk(h, window, limit, s.clock);
    WindowHolds(h, window, limit, s.clock, t);
  }

  lemma LaterIsLater(h: seq<int>, t: int, i: nat)
    requires Ordered(h) && CountUpTo(h, t) <= i < |h|
    ensures h[i] > t
  {
    var k := CountUpTo(h, t);
    assert k < i ==> h[k] <= h[i];
  }

  lemma WindowHolds(h: seq<int>, window: int, limit: int, clock: int, t: int)
    requires SpacedOk(h, window, limit, clock) && limit >= 1
    ensures |InWindow(h, window, t)| <= limit
  {
    WindowBound(h, window, limit, clock, t);
    var k := CountUpTo(h, t);
    PruneCounts(h[..k], t - window);
    forall i: nat ensures i in InWindow(h, window, t) <==> i in Above(h[..k], t - window) {
      if k <= i < |h| { LaterIsLater(h, t, i); }
    }
    assert InWindow(h, window, t) == Above(h[..k], t - window);
  }

  /** One client denied at `now`, when `retryMs` was returned. */
  lemma DeniedReply(s: State, call: Call, prefix: string, window: int, limit: int)
    requires limit >= 1 && Inv(s, prefix, window, limit) && s.clock <= call.at
    requires !Serve(s, call, prefix, window, limit).1.allowed
    ensures var h, reply := Prune(History(s.admitted, call.id), call.at - window), Serve(s, call, prefix, window, limit).1;
      |h| == limit && reply.retryMs == h[0] + window - call.at
  {
    Decision(s, call, prefix, window, limit);
    assert ViewOk(s.keys, KeyOf(prefix, call.id), History(s.admitted, call.id), window, s.clock);
    assert SameView(s.keys, KeyOf(prefix, call.id), History(s.admitted, call.id), window, call.at);
  }

  lemma {:induction false} PruneFirst(s: seq<int>, bound: int)
    requires Ordered(s) && s != []
    ensures bound < s[0] ==> Prune(s, bound) == s
    ensures bound >= s[0] ==> |Prune(s, bound)| < |s|
    decreases |s|
  {
    var init := s[..|s| - 1];
    assert s == init + [s[|s| - 1]];
    if init != [] {
      PruneFirst(init, bound);
      assert init[0] == s[0] && s[0] <= s[|s| - 1];
    }
  }

  /** A full window p has room again at `later`, when q of it is left, iff its oldest has left. */
  lemma RoomAgain(p: seq<int>, q: seq<int>, window: int, now: int, later: int)
    requires Ordered(p) && p != [] && q == Prune(p, later - window)
    ensures |q| < |p| <==> later - now >= p[0] + window - now
  {
    PruneFirst(p, later - window);
  }

  lemma WindowLater(h: seq<int>, p: seq<int>, q: seq<int>, window: int, now: int, later: int)
    requires Ordered(h) && now <= later && p == Prune(h, now - window) && p != [] && q == Prune(h, later - window)
    ensures |q| < |p| <==> later - now >= p[0] + window - now
  {
    PruneMembers(h, now - window);
    PrunePrune(h, now - window, later - window);
    RoomAgain(p, q, window, now, later);
  }

  /** The returned wait is exact: whatever calls come in between, as long as none of them
      admits that client, a call d milliseconds after a denied one is allowed iff
      d >= retryMs.  So waiting the whole seconds of Retry-After always suffices. */
  lemma RetryIsExact(s: State, call: Call, between: seq<Call>, later: Call, prefix: string, window: int, limit: int)
    requires limit >= 1 && Inv(s, prefix, window, limit) && s.clock <= call.at && later.id == call.id
    requires !Serve(s, call, prefix, window, limit).1.allowed && Monotone(call.at, between)
    requires var s' := After(Serve(s, call, prefix, window, limit).0, between, prefix, window, limit);
      s'.clock <= later.at && History(s'.admitted, call.id) == History(s.admitted, call.id)
    ensures var denied := Serve(s, call, prefix, window, limit).1;
      var s' := After(Serve(s, call, prefix, window, limit).0, between, prefix, window, limit);
      var again := Serve(s', later, prefix, window, limit).1;
      && again.Reply?
      && (again.allowed <==> later.at - call.at >= denied.retryMs)
      && (later.at - call.at >= 1000 * RetryAfterSec(denied.retryMs) ==> again.allowed)
  {
    var s1 := Serve(s, call, prefix, window, limit).0;
    InvStep(s, call, prefix, window, limit);
    InvRun(s1, between, prefix, window, limit);
    ClockAdvances(s1, between, prefix, window, limit);
    RetryOn(s, call, After(s1, between, prefix, window, limit), later, prefix, window, limit);
  }

  /** The same for any later state with the same admissions of that client. */
  lemma RetryOn(s: State, call: Call, s': State, later: Call, prefix: string, window: int, limit: int)
    requires limit >= 1 && Inv(s, prefix, window, limit) && Inv(s', prefix, window, limit)
    requires s.clock <= call.at <= s'.clock <= later.at && later.id == call.id
    requires !Serve(s, call, prefix, window, limit).1.allowed
    requires History(s'.admitted, call.id) == History(s.admitted, call.id)
    ensures var denied, again := Serve(s, call, prefix, window, limit).1, Serve(s', later, prefix, window, limit).1;
      && again.Reply?
      && (again.allowed <==> later.at - call.at >= denied.retryMs)
      && (later.at - call.at >= 1000 * RetryAfterSec(denied.retryMs) ==> again.allowed)
  {
    DeniedReply(s, call, prefix, window, limit);
    Decision(s', later, prefix, window, limit);
    var h := History(s.admitted, call.id);
    assert SpacedOk(h, window, limit, s.clock);
    WindowLater(h, Prune(h, call.at - window), Prune(h, later.at - window), window, call.at, later.at);
    CeilingCovers(Serve(s, call, prefix, window, limit).1.retryMs);
  }

  lemma {:induction false} ClockAdvances(s: State, calls: seq<Call>, prefix: string, window: int, limit: int)
    requires Monotone(s.clock, calls)
    ensures s.clock <= After(s, calls, prefix, window, limit).clock
    decreases |calls|
  {
    if calls != [] { ClockAdvances(Next(s, calls[0], prefix, window, limit), calls[1..], prefix, window, limit); }
  }

  lemma CeilingCovers(retryMs: int)
    ensures 1000 * RetryAfterSec(retryMs) >= retryMs
  {
  }

  /** Retry-After is the least whole number of seconds, from one up, after which an answered call
      of a denied client is allowed, as long as nothing of that client is admitted before. */
  lemma RetryAfterIsLeast(s: State, call: Call, between: seq<Call>, later: Call, prefix: string, window: int, limit: int,
                          failOpen: bool, seconds: nat)
    requires limit >= 1 && Inv(s, prefix, window, limit) && s.clock <= call.at && call.fate == later.fate == Answered
    requires !Serve(s, call, prefix, window, limit).1.allowed && Monotone(call.at, between)
    requires later.id == call.id && later.at == call.at + 1000 * seconds && seconds >= 1
    requires var s' := After(Serve(s, call, prefix, window, limit).0, between, prefix, window, limit);
      s'.clock <= later.at && History(s'.admitted, call.id) == History(s.admitted, call.id)
    ensures var key := KeyOf(prefix, call.id);
      var denied := ResultOf(s.keys, key, window, limit, call.at, call.fate, failOpen);
      var s' := After(Serve(s, call, prefix, window, limit).0, between, prefix, window, limit);
      var again := ResultOf(s'.keys, key, window, limit, later.at, later.fate, failOpen);
      && denied.Limit? && !denied.allowed && again.Limit?
      && (again.allowed <==> seconds >= denied.retryAfterSec)
  {
    RetryIsExact(s, call, between, later, prefix, window, limit);
    DeniedReply(s, call, prefix, window, limit);
    LeastSeconds(Serve(s, call, prefix, window, limit).1.retryMs, seconds);
  }

  lemma LeastSeconds(retryMs: int, seconds: nat)
    requires seconds >= 1
    ensures 1000 * seconds >= retryMs <==> seconds >= RetryAfterSec(retryMs)
  {
  }

  /** limit >= 1 is needed: with limit <= 0 nothing is ever admitted to the set, the script
      fails on it at every call, and a fail-open limiter lets every call through. */
  lemma NonPositiveLimitFailsOpen(start: int, calls: seq<Call>, call: Call, prefix: string, window: int, limit: int, failOpen: bool)
    requires limit <= 0 && Monotone(start, calls) && After(Init(start), calls, prefix, window, limit).clock <= call.at
    ensures var reply := Serve(After(Init(start), calls, prefix, window, limit), call, prefix, window, limit).1;
      Answer(reply, limit, failOpen) == (if failOpen then Limit(true, limit, 0) else Threw)
  {
    InvRun(Init(start), calls, prefix, window, limit);
    var s := After(Init(start), calls, prefix, window, limit);
    var h := History(s.admitted, call.id);
    assert SpacedOk(h, window, limit, s.clock) && ViewOk(s.keys, KeyOf(prefix, call.id), h, window, s.clock);
    assert h != [] ==> RoomAt(h, 0, window, limit);
    assert SameView(s.keys, KeyOf(prefix, call.id), h, window, call.at);
  }
}
