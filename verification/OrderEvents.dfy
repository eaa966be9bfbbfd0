/** Order status events over server-sent events: the bounded history and the subscriptions of
    src/orders/order-events.service.ts, and `streamEvents` of src/orders/orders.controller.ts,
    which replays what a client missed and then subscribes it.  The server is single-threaded,
    so nothing is emitted between the replay and the subscription. */
module OrderEvents {
  import opened Base

  const HISTORY_LIMIT: nat := 200

  datatype Event = Event(id: nat, orderId: nat, status: string)

  /** Number(header ?? 0): absent, a number, or NaN, which nothing is greater than. */
  datatype LastEventId = Absent | Numeric(n: int) | NotANumber

  predicate IsAfter(e: Event, last: LastEventId) {
    match last
    case Absent => e.id > 0
    case Numeric(n) => e.id > n
    case NotANumber => false
  }

  /** Events of order `o` after `last`, in order. */
  function Pick(events: seq<Event>, last: LastEventId, o: nat): seq<Event> {
    if events == [] then []
    else
      var e := events[|events| - 1];
      Pick(events[..|events| - 1], last, o) + (if IsAfter(e, last) && e.orderId == o then [e] else [])
  }

  /** push, and shift when the limit is exceeded. */
  function Remember(history: seq<Event>, e: Event): seq<Event> {
    var h := history + [e];
    if |h| > HISTORY_LIMIT then h[1..] else h
  }

  datatype Stream = Stream(orderId: nat, written: seq<Event>)

  function Notified(s: Stream, e: Event): Stream {
    if e.orderId == s.orderId then s.(written := s.written + [e]) else s
  }

  class OrderEventsService {
    var history: seq<Event>
    var nextEventId: nat
    var streams: map<nat, Stream>   // open connections and what was written to each

    constructor ()
      ensures history == [] && nextEventId == 1 && streams == map[]
    {
      history, nextEventId, streams := [], 1, map[];
    }

    method EmitStatusChanged(orderId: nat, status: string) returns (event: Event)
      modifies this
      ensures event == Event(old(nextEventId), orderId, status) && nextEventId == old(nextEventId) + 1
      ensures history == Remember(old(history), event)
      ensures streams.Keys == old(streams).Keys
      ensures forall c :: c in streams ==>
        var before := old(streams)[c];
        streams[c] == Stream(before.orderId, before.written + (if before.orderId == orderId then [event] else []))
    {
      event := Event(nextEventId, orderId, status);
      nextEventId := nextEventId + 1;
      history := history + [event];
      if |history| > HISTORY_LIMIT {
        history := history[1..];
      }
      streams := map c | c in streams :: Notified(streams[c], event);
    }

    /** Replay, then subscribe: the connection has been sent exactly the remembered events of
        its order after the given id, and is open. */
    method StreamEvents(conn: nat, orderId: nat, last: LastEventId)
      requires conn !in streams
      modifies this`streams
      ensures streams == old(streams)[conn := Stream(orderId, Pick(history, last, orderId))]
      ensures forall e :: e in streams[conn].written <==>
        && e in history && e.orderId == orderId
        && match last
           case Absent => e.id > 0
           case Numeric(n) => e.id > n
           case NotANumber => false
    {
      var written: seq<Event> := [];
      var i := 0;
      while i < |history|
        invariant 0 <= i <= |history|
        invariant written == Pick(history[..i], last, orderId)
        invariant streams == old(streams)
      {
        var event := history[i];
        assert history[..i + 1][..i] == history[..i];
        if IsAfter(event, last) && event.orderId == orderId {
          written := written + [event];
        }
        i := i + 1;
      }
      assert history[..|history|] == history;
      PickMembers(history, last, orderId);
      streams := streams[conn := Stream(orderId, written)];
    }

    method Close(conn: nat)
      modifies this`streams
      ensures streams == old(streams) - {conn}
    {
      streams := streams - {conn};
    }
  }

  // ---------------------------------------------------------------- one client over many connections

  /** `wire`: events written to the open connection that have not reached the client.
      `base`, `log` and `upTo` are histories: how many events had left the history when the
      client first turned up, every event emitted after those, and, for a client that is
      away, how much of the log it had been served completely when its connection broke. */
  datatype State = State(
    history: seq<Event>, nextEventId: nat, base: nat, log: seq<Event>,
    orderId: nat, connected: bool, wire: seq<Event>, received: seq<Event>, upTo: nat)

  datatype Step = Emit(orderId: nat, status: string) | Resume | Receive | Break

  predicate Enabled(s: State, step: Step) {
    match step
    case Emit(_, _) => true
    case Resume => !s.connected
    case Receive => s.connected && s.wire != []
    case Break => s.connected
  }

  /** A client sends the id of the last event that reached it, if any. */
  function LastSeen(received: seq<Event>): LastEventId {
    if received == [] then Absent else Numeric(received[|received| - 1].id)
  }

  /** All events before this position that are for the client have reached it. */
  function ServedUpTo(s: State): int {
    if !s.connected then s.upTo
    else if s.wire == [] then |s.log|
    else s.wire[0].id - 1 - s.base
  }

  /** A connection may break at any moment; what is then still on the wire is lost. */
  function Apply(s: State, step: Step): State
    requires Enabled(s, step)
  {
    match step
    case Emit(o, status) =>
      var e := Event(s.nextEventId, o, status);
      s.(history := Remember(s.history, e), nextEventId := s.nextEventId + 1, log := s.log + [e],
         wire := if s.connected then Notified(Stream(s.orderId, s.wire), e).written else s.wire)
    case Resume => s.(connected := true, wire := Pick(s.history, LastSeen(s.received), s.orderId))
    case Receive => s.(received := s.received + [s.wire[0]], wire := s.wire[1..])
    case Break => s.(connected := false, wire := [], upTo := Max(0, ServedUpTo(s)))
  }

  /** A client of order `orderId` turns up while the server remembers `history`. */
  function Init(orderId: nat, base: nat, history: seq<Event>): State {
    State(history, base + |history| + 1, base, history, orderId, false, [], [], 0)
  }

  predicate Runs(s: State, steps: seq<Step>)
    decreases |steps|
  {
    steps == [] || (Enabled(s, steps[0]) && Runs(Apply(s, steps[0]), steps[1..]))
  }

  function Final(s: State, steps: seq<Step>): State
    requires Runs(s, steps)
    decreases |steps|
  {
    if steps == [] then s else Final(Apply(s, steps[0]), steps[1..])
  }

  /** Every time the client resumes, at most 200 events of any order were emitted
      after the point up to which it had been served, the ones lost on the wire included. */
  ghost predicate ShortAbsences(s: State, steps: seq<Step>)
    requires Runs(s, steps)
    decreases |steps|
  {
    steps == [] ||
    ((steps[0] == Resume ==> |s.log| - s.upTo <= 200) && ShortAbsences(Apply(s, steps[0]), steps[1..]))
  }

  // ---------------------------------------------------------------- facts about picking

  lemma {:induction false} PickAppend(a: seq<Event>, b: seq<Event>, last: LastEventId, o: nat)
    ensures Pick(a + b, last, o) == Pick(a, last, o) + Pick(b, last, o)
    decreases |b|
  {
    if b == [] {
      assert a + b == a;
    } else {
      var init := b[..|b| - 1];
      assert (a + b)[..|a + b| - 1] == a + init;
      PickAppend(a, init, last, o);
    }
  }

  /** The picked events are those of this order after this id: none for NaN. */
  lemma {:induction false} PickMembers(events: seq<Event>, last: LastEventId, o: nat)
    ensures forall e :: e in Pick(events, last, o) <==>
      && e in events && e.orderId == o
      && match last
         case Absent => e.id > 0
         case Numeric(n) => e.id > n
         case NotANumber => false
    decreases |events|
  {
    if events != [] {
      assert events == events[..|events| - 1] + [events[|events| - 1]];
      PickMembers(events[..|events| - 1], last, o);
    }
  }

  lemma {:induction false} PickSame(events: seq<Event>, p: LastEventId, q: LastEventId, o: nat)
    requires forall i :: 0 <= i < |events| && events[i].orderId == o ==> (IsAfter(events[i], p) <==> IsAfter(events[i], q))
    ensures Pick(events, p, o) == Pick(events, q, o)
    decreases |events|
  {
    if events != [] { PickSame(events[..|events| - 1], p, q, o); }
  }

  lemma {:induction false} PickNone(events: seq<Event>, last: LastEventId, o: nat)
    requires forall i :: 0 <= i < |events| && events[i].orderId == o ==> !IsAfter(events[i], last)
    ensures Pick(events, last, o) == []
    decreases |events|
  {
    if events != [] { PickNone(events[..|events| - 1], last, o); }
  }

  /** The last event picked from an ascending log is at or after every event of the order. */
  lemma {:induction false} PickLast(events: seq<Event>, base: nat, o: nat)
    requires Numbered(events, base)
    ensures var p := Pick(events, Absent, o);
      && (forall i :: 0 <= i < |events| && events[i].orderId == o ==> p != [] && events[i].id <= p[|p| - 1].id)
      && (p != [] ==> p[|p| - 1].id <= base + |events|)
    decreases |events|
  {
    if events != [] { PickLast(events[..|events| - 1], base, o); }
  }

  // ---------------------------------------------------------------- invariant

  /** The log holds ids base + 1, base + 2, ... */
  ghost predicate Numbered(log: seq<Event>, base: nat) {
    forall i :: 0 <= i < |log| ==> log[i].id == base + i + 1
  }

  /** The youngest HISTORY_LIMIT events, or all of them. */
  function Youngest(log: seq<Event>): seq<Event> { log[Max(0, |log| - HISTORY_LIMIT)..] }

  ghost predicate ServerOk(history: seq<Event>, nextEventId: nat, base: nat, log: seq<Event>) {
    Numbered(log, base) && nextEventId == base + |log| + 1 && history == Youngest(log)
  }

  /** What reached the client and what is on the wire are together its order's events; a
      client that is away has them up to `upTo`. */
  ghost predicate ClientOk(s: State) {
    if s.connected then s.received + s.wire == Pick(s.log, Absent, s.orderId)
    else s.wire == [] && s.upTo <= |s.log| && s.received == Pick(s.log[..s.upTo], Absent, s.orderId)
  }

  ghost predicate Inv(s: State) { ServerOk(s.history, s.nextEventId, s.base, s.log) && ClientOk(s) }

  /** The bounded history is always the youngest part of the log. */
  lemma HistoryIsYoungest(history: seq<Event>, nextEventId: nat, base: nat, log: seq<Event>, e: Event)
    requires ServerOk(history, nextEventId, base, log) && e.id == nextEventId
    ensures ServerOk(Remember(history, e), nextEventId + 1, base, log + [e])
    ensures var all := log + [e]; Remember(history, e) == if |all| <= 200 then all else all[|all| - 200..]
  {
    assert Remember(history, e) == Youngest(log + [e]);
  }

  lemma PickSnoc(log: seq<Event>, e: Event, last: LastEventId, o: nat)
    ensures Pick(log + [e], last, o) == Pick(log, last, o) + (if IsAfter(e, last) && e.orderId == o then [e] else [])
  {
    assert (log + [e])[..|log|] == log;
  }

  lemma EmitKeeps(s: State, o: nat, status: string)
    requires Inv(s)
    ensures Inv(Apply(s, Emit(o, status)))
  {
    var e, s' := Event(s.nextEventId, o, status), Apply(s, Emit(o, status));
    HistoryIsYoungest(s.history, s.nextEventId, s.base, s.log, e);
    if s.connected {
      PickSnoc(s.log, e, Absent, s.orderId);
      assert s'.received + s'.wire == s.received + s.wire + (if o == s.orderId then [e] else []);
    } else {
      assert s'.log[..s.upTo] == s.log[..s.upTo];
    }
  }

  /** What comes before a picked event is what the log picks before that event. */
  lemma {:induction false} PickBefore(log: seq<Event>, base: nat, o: nat, p: seq<Event>, q: seq<Event>)
    requires Numbered(log, base) && Pick(log, Absent, o) == p + q && q != []
    ensures base < q[0].id <= base + |log| && p == Pick(log[..q[0].id - 1 - base], Absent, o)
    decreases |log|
  {
    var n := |log| - 1;
    var init, e := log[..n], log[n];
    var before := Pick(init, Absent, o);
    if e.orderId == o {
      assert (p + q)[..|p + q| - 1] == before;
      if |q| == 1 {
        assert p == before && q[0] == e;
      } else {
        assert before == p + q[..|q| - 1];
        PickBefore(init, base, o, p, q[..|q| - 1]);
        assert init[..q[0].id - 1 - base] == log[..q[0].id - 1 - base];
      }
    } else {
      PickBefore(init, base, o, p, q);
      assert init[..q[0].id - 1 - base] == log[..q[0].id - 1 - base];
    }
  }

  lemma BreakKeeps(s: State)
    requires Inv(s) && s.connected
    ensures Inv(Apply(s, Break)) && Apply(s, Break).upTo == ServedUpTo(s)
  {
    if s.wire == [] {
      assert s.log[..|s.log|] == s.log && s.received + s.wire == s.received;
    } else {
      PickBefore(s.log, s.base, s.orderId, s.received, s.wire);
    }
  }

  /** Where what the server can still replay of the rest begins. */
  function ReplayStart(s: State): int { Max(s.upTo, |s.log| - HISTORY_LIMIT) }

  /** The client's last id separates its order's events before `upTo` from all later ones. */
  lemma LastSeenSeparates(s: State, i: nat)
    requires Inv(s) && !s.connected && i < |s.log|
    ensures i < s.upTo && s.log[i].orderId == s.orderId ==> !IsAfter(s.log[i], LastSeen(s.received))
    ensures i >= s.upTo ==> IsAfter(s.log[i], LastSeen(s.received)) && IsAfter(s.log[i], Absent)
  {
    var had := s.log[..s.upTo];
    PickLast(had, s.base, s.orderId);
    assert i < s.upTo ==> had[i] == s.log[i];
    assert s.log[i].id == s.base + i + 1;
  }

  lemma HadIsSkipped(s: State, start: nat, h: nat)
    requires Inv(s) && !s.connected && start <= h <= |s.log| && (start < h ==> h <= s.upTo)
    ensures Pick(s.log[start..h], LastSeen(s.received), s.orderId) == []
  {
    var had := s.log[start..h];
    forall i | 0 <= i < |had| && had[i].orderId == s.orderId ensures !IsAfter(had[i], LastSeen(s.received)) {
      LastSeenSeparates(s, start + i);
    }
    PickNone(had, LastSeen(s.received), s.orderId);
  }

  lemma RestIsSent(s: State, h: nat)
    requires Inv(s) && !s.connected && s.upTo <= h <= |s.log|
    ensures Pick(s.log[h..], LastSeen(s.received), s.orderId) == Pick(s.log[h..], Absent, s.orderId)
  {
    var rest, last := s.log[h..], LastSeen(s.received);
    forall i | 0 <= i < |rest| ensures IsAfter(rest[i], last) && IsAfter(rest[i], Absent) {
      LastSeenSeparates(s, h + i);
    }
    PickSame(rest, last, Absent, s.orderId);
  }

  lemma SplitHistory(log: seq<Event>, h: nat)
    requires Max(0, |log| - HISTORY_LIMIT) <= h <= |log|
    ensures Youngest(log) == log[Max(0, |log| - HISTORY_LIMIT)..h] + log[h..]
  {
  }

  /** A resuming client is sent nothing it has, and everything from ReplayStart on. */
  lemma ReplayIs(s: State)
    requires Inv(s) && !s.connected
    ensures Apply(s, Resume).wire == Pick(s.log[ReplayStart(s)..], Absent, s.orderId)
  {
    var h, start := ReplayStart(s), Max(0, |s.log| - HISTORY_LIMIT);
    SplitHistory(s.log, h);
    PickAppend(s.log[start..h], s.log[h..], LastSeen(s.received), s.orderId);
    HadIsSkipped(s, start, h);
    RestIsSent(s, h);
  }

  lemma PickAppend3(a: seq<Event>, b: seq<Event>, c: seq<Event>, last: LastEventId, o: nat)
    ensures Pick(a + b + c, last, o) == Pick(a, last, o) + Pick(b, last, o) + Pick(c, last, o)
  {
    PickAppend(a + b, c, last, o);
    PickAppend(a, b, last, o);
  }

  /** The whole log as a client that is away sees it: received, lost, still to be replayed. */
  lemma LogSplits(s: State)
    requires Inv(s) && !s.connected
    ensures Pick(s.log, Absent, s.orderId)
         == s.received + Pick(s.log[s.upTo..ReplayStart(s)], Absent, s.orderId)
            + Pick(s.log[ReplayStart(s)..], Absent, s.orderId)
  {
    var m, h := s.upTo, ReplayStart(s);
    assert s.log[..m] + s.log[m..h] + s.log[h..] == s.log;
    PickAppend3(s.log[..m], s.log[m..h], s.log[h..], Absent, s.orderId);
  }

  /** A resuming client will be complete again exactly when no event of its order has fallen
      out of the history since the point up to which it was served. */
  lemma ResumeCompleteIff(s: State)
    requires Inv(s) && !s.connected
    ensures (s.received + Apply(s, Resume).wire == Pick(s.log, Absent, s.orderId)) <==>
            (Pick(s.log[s.upTo..ReplayStart(s)], Absent, s.orderId) == [])
  {
    ReplayIs(s);
    LogSplits(s);
    var lost, rest := Pick(s.log[s.upTo..ReplayStart(s)], Absent, s.orderId), Apply(s, Resume).wire;
    assert s.received + rest == s.received + lost + rest ==> |lost| == 0;
    assert lost == [] ==> s.received + lost == s.received;
  }

  lemma ResumeKeeps(s: State)
    requires Inv(s) && !s.connected && |s.log| - s.upTo <= HISTORY_LIMIT
    ensures Inv(Apply(s, Resume))
  {
    assert s.log[s.upTo..ReplayStart(s)] == [];
    ResumeCompleteIff(s);
  }

  lemma ReceiveKeeps(s: State)
    requires Inv(s) && Enabled(s, Receive)
    ensures Inv(Apply(s, Receive))
  {
    assert s.received + [s.wire[0]] + s.wire[1..] == s.received + s.wire;
  }

  lemma {:induction false} InvRun(s: State, steps: seq<Step>)
    requires Inv(s) && Runs(s, steps) && ShortAbsences(s, steps)
    ensures Inv(Final(s, steps))
    decreases |steps|
  {
    if steps != [] {
      match steps[0] {
        case Emit(o, status) => EmitKeeps(s, o, status);
        case Resume => ResumeKeeps(s);
        case Receive => ReceiveKeeps(s);
        case Break => BreakKeeps(s);
      }
      InvRun(Apply(s, steps[0]), steps[1..]);
    }
  }

  ghost predicate Increasing(p: seq<Event>, bound: nat) {
    && (forall i, j :: 0 <= i < j < |p| ==> p[i].id < p[j].id)
    && (forall i :: 0 <= i < |p| ==> p[i].id <= bound)
  }

  // ---------------------------------------------------------------- theorems

  /** A client whose connection breaks any number of times, be it during a replay or with
      events on the wire, and that each time resumes with at most 200 events of any order
      emitted after the point up to which it was served: what has reached it is always its
      order's events from the first remembered one on, in increasing id, without gap or
      duplicate; while it is connected the rest is on the wire, so once the wire is empty
      it has them all. */
  lemma ResumesWithoutGapOrDuplicate(orderId: nat, base: nat, history: seq<Event>, steps: seq<Step>)
    requires Numbered(history, base) && |history| <= 200
    requires Runs(Init(orderId, base, history), steps) && ShortAbsences(Init(orderId, base, history), steps)
    ensures GapFree(Final(Init(orderId, base, history), steps), orderId)
  {
    InvRun(Init(orderId, base, history), steps);
    OrderKept(Init(orderId, base, history), steps);
    InvIsGapFree(Final(Init(orderId, base, history), steps));
  }

  /** In increasing id, events of this order only, none missing up to the last one received;
      and on an open connection whatever has not been received is on the wire. */
  ghost predicate GapFree(s: State, orderId: nat) {
    && (forall i, j :: 0 <= i < j < |s.received| ==> s.received[i].id < s.received[j].id)
    && (forall e :: e in s.received ==> e in s.log && e.orderId == orderId)
    && (forall e :: e in s.log && e.orderId == orderId && s.received != [] && e.id <= s.received[|s.received| - 1].id ==>
          e in s.received)
    && (forall e :: s.connected && e in s.log && e.orderId == orderId ==> e in s.received || e in s.wire)
  }

  lemma InvIsGapFree(s: State)
    requires Inv(s)
    ensures GapFree(s, s.orderId)
  {
    var all := Pick(s.log, Absent, s.orderId);
    ReceivedIsPrefix(s);
    PickIncreasing(s.log, s.base, s.orderId);
    LogMembers(s, s.orderId);
    NoGap(s, all);
    forall e | e in s.received ensures e in all {
      var k :| 0 <= k < |s.received| && s.received[k] == e;
      assert all[k] == e;
    }
    assert s.connected ==> forall e :: e in all ==> e in s.received || e in s.wire;
  }

  lemma {:induction false} OrderKept(s: State, steps: seq<Step>)
    requires Runs(s, steps)
    ensures Final(s, steps).orderId == s.orderId
    decreases |steps|
  {
    if steps != [] { OrderKept(Apply(s, steps[0]), steps[1..]); }
  }

  lemma ReceivedIsPrefix(s: State)
    requires Inv(s)
    ensures s.received <= Pick(s.log, Absent, s.orderId)
  {
    if !s.connected { LogSplits(s); }
  }

  lemma LogMembers(s: State, o: nat)
    requires Inv(s)
    ensures forall e :: e in Pick(s.log, Absent, o) <==> e in s.log && e.orderId == o
  {
    PickMembers(s.log, Absent, o);
    assert forall e :: e in s.log ==> e.id > 0;
  }

  /** In a prefix of an increasing sequence nothing up to its last element is missing. */
  lemma NoGap(s: State, all: seq<Event>)
    requires s.received <= all && Increasing(all, s.base + |s.log|)
    ensures forall e :: e in all && s.received != [] && e.id <= s.received[|s.received| - 1].id ==> e in s.received
  {
    forall e | e in all && s.received != [] && e.id <= s.received[|s.received| - 1].id ensures e in s.received {
      var k :| 0 <= k < |all| && all[k] == e;
      assert all[|s.received| - 1] == s.received[|s.received| - 1];
      assert k < |s.received|;
      assert s.received[k] == e;
    }
  }

  lemma {:induction false} PickIncreasing(events: seq<Event>, base: nat, o: nat)
    requires Numbered(events, base)
    ensures Increasing(Pick(events, Absent, o), base + |events|)
    decreases |events|
  {
    if events != [] {
      var init, e := events[..|events| - 1], events[|events| - 1];
      PickIncreasing(init, base, o);
      IncreasingSnoc(Pick(init, Absent, o), base + |init|, e);
    }
  }

  lemma IncreasingSnoc(p: seq<Event>, bound: nat, e: Event)
    requires Increasing(p, bound) && e.id == bound + 1
    ensures Increasing(p + [e], bound + 1) && Increasing(p, bound + 1)
  {
  }

  // ---------------------------------------------------------------- what does not suffice

  lemma RunsCons(s: State, step: Step, rest: seq<Step>)
    requires Enabled(s, step) && Runs(Apply(s, step), rest)
    ensures Runs(s, [step] + rest) && Final(s, [step] + rest) == Final(Apply(s, step), rest)
  {
    assert ([step] + rest)[1..] == rest;
  }

  /** A full history of one order. */
  function Full(o: nat): seq<Event> { seq(HISTORY_LIMIT, i requires 0 <= i < HISTORY_LIMIT => Event(i + 1, o, "")) }

  /** Resume, get one event, lose the connection. */
  function Interrupted(): seq<Step> { [Resume] + ([Receive] + ([Break] + [])) }

  function TwoMore(o: nat): seq<Step> { [Emit(o, "")] + ([Emit(o, "")] + []) }

  lemma {:induction false} PickAllOf(log: seq<Event>, o: nat)
    requires forall i :: 0 <= i < |log| ==> log[i].orderId == o && log[i].id > 0
    ensures Pick(log, Absent, o) == log
    decreases |log|
  {
    if log != [] {
      PickAllOf(log[..|log| - 1], o);
      assert log == log[..|log| - 1] + [log[|log| - 1]];
    }
  }

  lemma FirstResume(o: nat)
    ensures var s := Init(o, 0, Full(o));
      Inv(Apply(s, Resume)) && Apply(s, Resume) == s.(connected := true, wire := Full(o))
  {
    var s := Init(o, 0, Full(o));
    assert Youngest(s.log) == s.log;
    ResumeKeeps(s);
    PickAllOf(s.log, o);
  }

  lemma InterruptedRun(o: nat)
    ensures var s := Init(o, 0, Full(o));
      && Runs(s, Interrupted())
      && var s' := Final(s, Interrupted());
      Inv(s') && !s'.connected && s'.upTo == 1 && s'.log == Full(o) && s'.orderId == o && s'.base == 0
  {
    var s0 := Init(o, 0, Full(o));
    FirstResume(o);
    var s1 := Apply(s0, Resume);
    ReceiveKeeps(s1);
    var s2 := Apply(s1, Receive);
    BreakKeeps(s2);
    ThreeSteps(s0, Resume, Receive, Break, s1, s2, Apply(s2, Break));
  }

  lemma ThreeSteps(s: State, a: Step, b: Step, c: Step, s1: State, s2: State, s3: State)
    requires Enabled(s, a) && Apply(s, a) == s1 && Enabled(s1, b) && Apply(s1, b) == s2 && Enabled(s2, c) && Apply(s2, c) == s3
    ensures Runs(s, [a] + ([b] + ([c] + []))) && Final(s, [a] + ([b] + ([c] + []))) == s3
  {
    RunsCons(s2, c, []);
    RunsCons(s1, b, [c] + []);
    RunsCons(s, a, [b] + ([c] + []));
  }

  lemma TwoMoreRun(s: State, o: nat)
    requires Inv(s) && !s.connected
    ensures Runs(s, TwoMore(o))
    ensures var s' := Final(s, TwoMore(o));
      && Inv(s') && !s'.connected && s'.upTo == s.upTo && s'.orderId == s.orderId
      && |s'.log| == |s.log| + 2 && s.log <= s'.log
  {
    EmitKeeps(s, o, "");
    var s1 := Apply(s, Emit(o, ""));
    EmitKeeps(s1, o, "");
    RunsCons(s1, Emit(o, ""), []);
    RunsCons(s, Emit(o, ""), [Emit(o, "")] + []);
  }

  /** Counting only what is emitted while the client is away does not do: 200 events are being
      replayed, the connection breaks after the first, and with no more than two events
      emitted before the next resume the second one is already gone. */
  lemma CountingOnlyTheAbsenceFails(o: nat)
    ensures Runs(Init(o, 0, Full(o)), Interrupted())
    ensures var away := Final(Init(o, 0, Full(o)), Interrupted());
      && Runs(away, TwoMore(o))
      && var s := Final(away, TwoMore(o));
      !s.connected && s.received + Apply(s, Resume).wire != Pick(s.log, Absent, s.orderId)
  {
    InterruptedRun(o);
    var away := Final(Init(o, 0, Full(o)), Interrupted());
    TwoMoreRun(away, o);
    var s := Final(away, TwoMore(o));
    assert s.log[1..2] == [Full(o)[1]];
    PickAllOf(s.log[1..2], o);
    ResumeCompleteIff(s);
  }
}
