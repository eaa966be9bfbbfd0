/** `withRetry` and `bump` (src/demo-retry.ts): concurrent read-then-write of one balance row
    under REPEATABLE READ, where the first updater wins and losers are retried.

    A transaction's snapshot is taken by its first statement.  An UPDATE of a row that was
    committed after the snapshot fails with 40001; an UPDATE of a row that another open
    transaction has written waits for it. */
module Retry {
  import opened Base

  // ---------------------------------------------------------------- the retry loop

  datatype TxResult<T> = Ok(value: T) | Err(code: string)

  predicate Retryable(code: string) { code == "40001" || code == "40P01" }

  /** Attempt n is the first that is not repeated: those before it met 40001 or 40P01 with
      attempts left, it did not. */
  ghost predicate Decides<T>(run: nat -> TxResult<T>, n: nat, maxAttempts: int) {
    && n >= 1
    && (forall i :: 1 <= i < n ==> run(i) == Err("40001") || run(i) == Err("40P01"))
    && (n > 1 ==> n <= maxAttempts)
    && (run(n) == Err("40001") || run(n) == Err("40P01") ==> n >= maxAttempts)
  }

  /** `run(i)` is what the i-th attempt's transaction ends with.  The result is that of the
      first attempt that succeeds, fails with a code that is not retried, or is the last. */
  method WithRetry<T(!new)>(run: nat -> TxResult<T>, maxAttempts: int) returns (result: TxResult<T>, attempts: nat)
    ensures result == run(attempts) && Decides(run, attempts, maxAttempts)
  {
    var attempt: nat := 1;
    while true
      invariant 1 <= attempt <= Max(1, maxAttempts)
      invariant forall i :: 1 <= i < attempt ==> run(i).Err? && Retryable(run(i).code)
      decreases maxAttempts - attempt
    {
      var r := run(attempt);
      if r.Err? && Retryable(r.code) && attempt < maxAttempts {
        attempt := attempt + 1;
      } else {
        return r, attempt;
      }
    }
  }

  // ---------------------------------------------------------------- concurrent bumps

  /** Between attempts; has read `value` when `seen` bumps had committed; has written and
      holds the row; committed; threw 40001 to its caller; failed otherwise. */
  datatype Stage = Idle | Read(value: int, seen: nat) | Wrote(value: int) | Done | GaveUp | Broken

  /** `lostTo` is a history: for each 40001, the position in the commit log of the commit
      that the attempt lost to. */
  datatype Bump = Bump(delta: int, stage: Stage, attempt: nat, lostTo: seq<nat>)

  /** Bumps are numbered 0, 1, ...; `log`: bumps in commit order; its length is the version
      of the row. */
  datatype State = State(balance: int, log: seq<nat>, bumps: seq<Bump>)

  datatype Step = Select(b: nat) | Update(b: nat) | Commit(b: nat) | Crash(b: nat)

  predicate Conflict(s: State, b: nat) {
    b < |s.bumps| && s.bumps[b].stage.Read? && s.bumps[b].stage.seen < |s.log|
  }

  ghost predicate Enabled(s: State, step: Step) {
    && step.b < |s.bumps|
    && var stage := s.bumps[step.b].stage;
    match step
    case Select(_) => stage.Idle?
    case Update(b) =>
      stage.Read? && (Conflict(s, b) || forall j :: 0 <= j < |s.bumps| && j != b ==> !s.bumps[j].stage.Wrote?)
    case Commit(_) => stage.Wrote?
    case Crash(_) => stage.Idle? || stage.Read? || stage.Wrote?
  }

  /** A failed UPDATE: retry, or throw 40001 once the attempts are used up. */
  function Lose(bump: Bump, maxAttempts: int): Bump
    requires bump.stage.Read?
  {
    var lost := bump.(lostTo := bump.lostTo + [bump.stage.seen]);
    if bump.attempt < maxAttempts then lost.(stage := Idle, attempt := bump.attempt + 1)
    else lost.(stage := GaveUp)
  }

  ghost function Apply(s: State, step: Step, maxAttempts: int): State
    requires Enabled(s, step)
  {
    var bump := s.bumps[step.b];
    match step
    case Select(b) => s.(bumps := s.bumps[b := bump.(stage := Read(s.balance, |s.log|))])
    case Update(b) =>
      if Conflict(s, b) then s.(bumps := s.bumps[b := Lose(bump, maxAttempts)])
      else s.(bumps := s.bumps[b := bump.(stage := Wrote(bump.stage.value + bump.delta))])
    case Commit(b) => State(bump.stage.value, s.log + [b], s.bumps[b := bump.(stage := Done)])
    case Crash(b) => s.(bumps := s.bumps[b := bump.(stage := Broken)])
  }

  function Init(balance: int, deltas: seq<int>): State {
    State(balance, [], seq(|deltas|, b requires 0 <= b < |deltas| => Bump(deltas[b], Idle, 1, [])))
  }

  ghost predicate Runs(s: State, steps: seq<Step>, maxAttempts: int)
    decreases |steps|
  {
    steps == [] || (Enabled(s, steps[0]) && Runs(Apply(s, steps[0], maxAttempts), steps[1..], maxAttempts))
  }

  ghost function Final(s: State, steps: seq<Step>, maxAttempts: int): State
    requires Runs(s, steps, maxAttempts)
    decreases |steps|
  {
    if steps == [] then s else Final(Apply(s, steps[0], maxAttempts), steps[1..], maxAttempts)
  }

  // ---------------------------------------------------------------- invariant

  function DeltaSum(deltas: seq<int>, log: seq<nat>): int {
    if log == [] then 0
    else
      var last := log[|log| - 1];
      DeltaSum(deltas, log[..|log| - 1]) + (if last < |deltas| then deltas[last] else 0)
  }

  /** The losses of bump b: strictly later commits each time, none of them its own. */
  ghost predicate LossesOk(lost: seq<nat>, b: nat, log: seq<nat>) {
    && (forall i :: 0 <= i < |lost| ==> lost[i] < |log| && log[lost[i]] != b)
    && (forall i, j :: 0 <= i < j < |lost| ==> lost[i] < lost[j])
  }

  ghost predicate BumpOk(bump: Bump, b: nat, log: seq<nat>, balance: int, maxAttempts: int) {
    && (bump.stage == Done <==> b in log)
    && bump.attempt <= |bump.lostTo| + 1
    && (bump.stage.Idle? || bump.stage.Read? || bump.stage.Wrote? ==> |bump.lostTo| + 1 == bump.attempt)
    && (bump.stage.Read? ==>
          && bump.stage.seen <= |log|
          && (bump.stage.seen == |log| ==> bump.stage.value == balance)
          && (forall i :: 0 <= i < |bump.lostTo| ==> bump.lostTo[i] < bump.stage.seen))
    && (bump.stage.Wrote? ==> bump.stage.value == balance + bump.delta)
    && (bump.stage.Done? ==> |bump.lostTo| + 1 == bump.attempt)
    && (bump.attempt > 1 ==> bump.attempt <= maxAttempts)
    && (bump.stage.GaveUp? ==> |bump.lostTo| == bump.attempt >= maxAttempts)
    && LossesOk(bump.lostTo, b, log)
  }

  ghost predicate Inv(s: State, init: int, deltas: seq<int>, maxAttempts: int) {
    && |s.bumps| == |deltas|
    && (forall b :: 0 <= b < |s.bumps| ==>
          s.bumps[b].delta == deltas[b] && BumpOk(s.bumps[b], b, s.log, s.balance, maxAttempts))
    && (forall i, j :: 0 <= i < j < |s.bumps| ==> !(s.bumps[i].stage.Wrote? && s.bumps[j].stage.Wrote?))
    && Distinct(s.log)
    && (forall i :: 0 <= i < |s.log| ==> s.log[i] < |deltas|)
    && s.balance == init + DeltaSum(deltas, s.log)
  }

  lemma OthersAfterCommit(bump: Bump, j: nat, log: seq<nat>, balance: int, maxAttempts: int, b: nat, balance': int)
    requires BumpOk(bump, j, log, balance, maxAttempts) && !bump.stage.Wrote? && j != b
    ensures BumpOk(bump, j, log + [b], balance', maxAttempts)
  {
  }

  lemma InvCommit(s: State, b: nat, init: int, deltas: seq<int>, maxAttempts: int)
    requires Inv(s, init, deltas, maxAttempts) && Enabled(s, Commit(b))
    ensures Inv(Apply(s, Commit(b), maxAttempts), init, deltas, maxAttempts)
  {
    var s' := Apply(s, Commit(b), maxAttempts);
    assert BumpOk(s.bumps[b], b, s.log, s.balance, maxAttempts);
    assert s'.log[..|s'.log| - 1] == s.log;
    forall j | 0 <= j < |s'.bumps| ensures BumpOk(s'.bumps[j], j, s'.log, s'.balance, maxAttempts) {
      if j != b { OthersAfterCommit(s.bumps[j], j, s.log, s.balance, maxAttempts, b, s'.balance); }
    }
  }

  /** A 40001 is charged to the first commit after the attempt's snapshot: some other bump's,
      and later than every commit this bump lost to before. */
  lemma LossRecorded(bump: Bump, b: nat, log: seq<nat>, balance: int, maxAttempts: int)
    requires BumpOk(bump, b, log, balance, maxAttempts) && bump.stage.Read? && bump.stage.seen < |log|
    ensures BumpOk(Lose(bump, maxAttempts), b, log, balance, maxAttempts)
  {
    assert log[bump.stage.seen] in log;
  }

  lemma InvLocal(s: State, step: Step, init: int, deltas: seq<int>, maxAttempts: int)
    requires Inv(s, init, deltas, maxAttempts) && Enabled(s, step) && !step.Commit?
    ensures Inv(Apply(s, step, maxAttempts), init, deltas, maxAttempts)
  {
    var bump := s.bumps[step.b];
    assert BumpOk(bump, step.b, s.log, s.balance, maxAttempts);
    if Conflict(s, step.b) { LossRecorded(bump, step.b, s.log, s.balance, maxAttempts); }
  }

  lemma {:induction false} InvRun(s: State, steps: seq<Step>, init: int, deltas: seq<int>, maxAttempts: int)
    requires Inv(s, init, deltas, maxAttempts) && Runs(s, steps, maxAttempts)
    ensures Inv(Final(s, steps, maxAttempts), init, deltas, maxAttempts)
    decreases |steps|
  {
    if steps != [] {
      if steps[0].Commit? { InvCommit(s, steps[0].b, init, deltas, maxAttempts); }
      else { InvLocal(s, steps[0], init, deltas, maxAttempts); }
      InvRun(Apply(s, steps[0], maxAttempts), steps[1..], init, deltas, maxAttempts);
    }
  }

  lemma InitInv(init: int, deltas: seq<int>, maxAttempts: int)
    ensures Inv(Init(init, deltas), init, deltas, maxAttempts)
  {
  }

  // ---------------------------------------------------------------- theorems

  /** No update is lost: the balance is the initial balance plus the deltas of exactly the
      bumps that committed, each of them once. */
  lemma NoLostUpdate(init: int, deltas: seq<int>, steps: seq<Step>, maxAttempts: int)
    requires Runs(Init(init, deltas), steps, maxAttempts)
    ensures var s := Final(Init(init, deltas), steps, maxAttempts);
      && s.balance == init + DeltaSum(deltas, s.log)
      && Distinct(s.log) && |s.bumps| == |deltas|
      && (forall b :: 0 <= b < |s.bumps| ==> (b in s.log <==> s.bumps[b].stage == Done))
  {
    InvRun(Init(init, deltas), steps, init, deltas, maxAttempts);
  }

  /** Every 40001 abort of a bump is charged to a commit of another bump, and no two aborts
      of one bump to the same commit; so nobody aborts as often as there are bumps. */
  lemma AbortsAreCharged(init: int, deltas: seq<int>, steps: seq<Step>, maxAttempts: int, b: nat)
    requires Runs(Init(init, deltas), steps, maxAttempts) && b < |deltas|
    ensures var s := Final(Init(init, deltas), steps, maxAttempts);
      && |s.bumps| == |deltas|
      && LossesOk(s.bumps[b].lostTo, b, s.log)
      && |s.bumps[b].lostTo| < |deltas|
  {
    InvRun(Init(init, deltas), steps, init, deltas, maxAttempts);
    var s := Final(Init(init, deltas), steps, maxAttempts);
    FewLosses(s.bumps[b].lostTo, b, s.log, |deltas|);
  }

  lemma FewLosses(lost: seq<nat>, b: nat, log: seq<nat>, n: nat)
    requires LossesOk(lost, b, log) && Distinct(log) && b < n
    requires forall i :: 0 <= i < |log| ==> log[i] < n
    ensures |lost| < n
  {
    var winners := seq(|lost|, i requires 0 <= i < |lost| => log[lost[i]]);
    assert Distinct(winners + [b]);
    Pigeonhole(winners + [b], n);
  }

  lemma {:induction false} Pigeonhole(xs: seq<nat>, n: nat)
    requires Distinct(xs) && forall i :: 0 <= i < |xs| ==> xs[i] < n
    ensures |xs| <= n
    decreases n
  {
    if xs != [] {
      assert xs[0] < n;
      if i :| 0 <= i < |xs| && xs[i] == n - 1 {
        Pigeonhole(xs[..i] + xs[i + 1..], n - 1);
      } else {
        Pigeonhole(xs, n - 1);
      }
    }
  }

  /** With at most maxAttempts concurrent bumps nobody ever gives up. */
  lemma EnoughAttempts(init: int, deltas: seq<int>, steps: seq<Step>, maxAttempts: int, b: nat)
    requires Runs(Init(init, deltas), steps, maxAttempts) && b < |deltas| <= maxAttempts
    ensures var s := Final(Init(init, deltas), steps, maxAttempts);
      |s.bumps| == |deltas| && s.bumps[b].stage != GaveUp && s.bumps[b].attempt <= |deltas|
  {
    InvRun(Init(init, deltas), steps, init, deltas, maxAttempts);
    AbortsAreCharged(init, deltas, steps, maxAttempts, b);
  }

  // ---------------------------------------------------------------- everybody commits

  ghost predicate CrashFree(steps: seq<Step>) {
    forall i :: 0 <= i < |steps| ==> !steps[i].Crash?
  }

  /** Nobody can move any more, short of dying. */
  ghost predicate Stuck(s: State) {
    forall step :: Enabled(s, step) ==> step.Crash?
  }

  /** Steps a bump has taken: two per lost attempt, up to three in the current one. */
  function Work(bump: Bump): nat {
    2 * |bump.lostTo| +
    match bump.stage
    case Read(_, _) => 1
    case Wrote(_) => 2
    case Done => 3
    case _ => 0
  }

  function TotalWork(bumps: seq<Bump>): nat {
    if bumps == [] then 0 else TotalWork(bumps[..|bumps| - 1]) + Work(bumps[|bumps| - 1])
  }

  lemma {:induction false} WorkUpdate(bumps: seq<Bump>, b: nat, bump: Bump)
    requires b < |bumps|
    ensures TotalWork(bumps[b := bump]) == TotalWork(bumps) - Work(bumps[b]) + Work(bump)
    decreases |bumps|
  {
    var n := |bumps| - 1;
    if b == n {
      assert bumps[b := bump][..n] == bumps[..n];
    } else {
      assert bumps[b := bump][..n] == bumps[..n][b := bump];
      WorkUpdate(bumps[..n], b, bump);
    }
  }

  /** n times m, added up. */
  function Times(n: nat, m: nat): nat { if n == 0 then 0 else Times(n - 1, m) + m }

  lemma {:induction false} TimesIsProduct(n: nat, m: nat)
    ensures Times(n, m) == n * m
  {
    if n > 0 {
      TimesIsProduct(n - 1, m);
      assert n * m == (n - 1) * m + m;
    }
  }

  lemma {:induction false} WorkBound(bumps: seq<Bump>, most: nat)
    requires forall b :: 0 <= b < |bumps| ==> Work(bumps[b]) <= most
    ensures TotalWork(bumps) <= Times(|bumps|, most)
    decreases |bumps|
  {
    if bumps != [] { WorkBound(bumps[..|bumps| - 1], most); }
  }

  lemma {:induction false} NoWorkYet(bumps: seq<Bump>)
    requires forall b :: 0 <= b < |bumps| ==> Work(bumps[b]) == 0
    ensures TotalWork(bumps) == 0
    decreases |bumps|
  {
    if bumps != [] { NoWorkYet(bumps[..|bumps| - 1]); }
  }

  ghost predicate Unbroken(bumps: seq<Bump>) {
    forall b :: 0 <= b < |bumps| ==> !bumps[b].stage.Broken?
  }

  /** Without a crash every step adds one to the total work. */
  lemma {:induction false} WorkIsRunLength(s: State, steps: seq<Step>, maxAttempts: int)
    requires Runs(s, steps, maxAttempts) && CrashFree(steps) && Unbroken(s.bumps)
    ensures var s' := Final(s, steps, maxAttempts);
      Unbroken(s'.bumps) && TotalWork(s'.bumps) == TotalWork(s.bumps) + |steps|
    decreases |steps|
  {
    if steps != [] {
      var step := steps[0];
      assert !step.Crash?;
      var s1 := Apply(s, step, maxAttempts);
      assert s1.bumps == s.bumps[step.b := s1.bumps[step.b]];
      WorkUpdate(s.bumps, step.b, s1.bumps[step.b]);
      WorkIsRunLength(s1, steps[1..], maxAttempts);
    }
  }

  /** Somebody can move unless all have ended. */
  lemma StuckIsEnded(s: State, b: nat)
    requires Stuck(s) && b < |s.bumps|
    ensures s.bumps[b].stage.Done? || s.bumps[b].stage.GaveUp? || s.bumps[b].stage.Broken?
  {
    forall j | 0 <= j < |s.bumps| ensures !s.bumps[j].stage.Idle? && !s.bumps[j].stage.Wrote? {
      assert !Enabled(s, Select(j)) && !Enabled(s, Commit(j));
    }
    assert !Enabled(s, Update(b));
  }

  function Sum(deltas: seq<int>): int {
    if deltas == [] then 0 else Sum(deltas[..|deltas| - 1]) + deltas[|deltas| - 1]
  }

  lemma {:induction false} SumWithout(deltas: seq<int>, log: seq<nat>, i: nat)
    requires i < |log| && log[i] < |deltas|
    ensures DeltaSum(deltas, log) == DeltaSum(deltas, log[..i] + log[i + 1..]) + deltas[log[i]]
    decreases |log|
  {
    var n := |log| - 1;
    if i < n {
      SumWithout(deltas, log[..n], i);
      var rest := log[..i] + log[i + 1..];
      assert rest[n - 1] == log[n];
      assert rest[..n - 1] == log[..n][..i] + log[..n][i + 1..];
    } else {
      assert log[..i] + log[i + 1..] == log[..n];
    }
  }

  lemma {:induction false} SumOfInit(deltas: seq<int>, log: seq<nat>)
    requires deltas != [] && forall i :: 0 <= i < |log| ==> log[i] < |deltas| - 1
    ensures DeltaSum(deltas, log) == DeltaSum(deltas[..|deltas| - 1], log)
    decreases |log|
  {
    if log != [] { SumOfInit(deltas, log[..|log| - 1]); }
  }

  lemma WithoutLast(log: seq<nat>, i: nat, n: nat)
    requires Distinct(log) && i < |log| && log[i] == n
    requires (forall k :: 0 <= k < |log| ==> log[k] <= n) && forall b :: 0 <= b <= n ==> b in log
    ensures var rest := log[..i] + log[i + 1..];
      Distinct(rest) && (forall k :: 0 <= k < |rest| ==> rest[k] < n) && forall b :: 0 <= b < n ==> b in rest
  {
    var rest := log[..i] + log[i + 1..];
    forall b | 0 <= b < n ensures b in rest {
      assert b in log;
      var k :| 0 <= k < |log| && log[k] == b;
      assert rest[if k < i then k else k - 1] == b;
    }
    forall k | 0 <= k < |rest| ensures rest[k] < n {
      assert rest[k] == log[if k < i then k else k + 1];
    }
  }

  /** A log in which everybody occurs once adds up to the sum of all deltas. */
  lemma {:induction false} SumOfAll(deltas: seq<int>, log: seq<nat>)
    requires Distinct(log) && (forall i :: 0 <= i < |log| ==> log[i] < |deltas|)
    requires forall b :: 0 <= b < |deltas| ==> b in log
    ensures DeltaSum(deltas, log) == Sum(deltas)
    decreases |deltas|
  {
    if deltas == [] {
      Pigeonhole(log, 0);
    } else {
      var n := |deltas| - 1;
      assert n in log;
      var i :| 0 <= i < |log| && log[i] == n;
      WithoutLast(log, i, n);
      SumWithout(deltas, log, i);
      SumOfInit(deltas, log[..i] + log[i + 1..]);
      SumOfAll(deltas[..n], log[..i] + log[i + 1..]);
    }
  }

  lemma WorkOfEach(s: State, init: int, deltas: seq<int>, maxAttempts: int, b: nat)
    requires Inv(s, init, deltas, maxAttempts) && b < |s.bumps|
    ensures Work(s.bumps[b]) <= 2 * |deltas| + 1
  {
    assert BumpOk(s.bumps[b], b, s.log, s.balance, maxAttempts);
    FewLosses(s.bumps[b].lostTo, b, s.log, |deltas|);
  }

  lemma WorkOfState(s: State, init: int, deltas: seq<int>, maxAttempts: int)
    requires Inv(s, init, deltas, maxAttempts)
    ensures TotalWork(s.bumps) <= Times(|deltas|, 2 * |deltas| + 1)
  {
    forall b | 0 <= b < |s.bumps| ensures Work(s.bumps[b]) <= 2 * |deltas| + 1 {
      WorkOfEach(s, init, deltas, maxAttempts, b);
    }
    WorkBound(s.bumps, 2 * |deltas| + 1);
  }

  lemma FreshBumps(init: int, deltas: seq<int>)
    ensures TotalWork(Init(init, deltas).bumps) == 0 && Unbroken(Init(init, deltas).bumps)
  {
    NoWorkYet(Init(init, deltas).bumps);
  }

  lemma WorkOfRun(init: int, deltas: seq<int>, steps: seq<Step>, maxAttempts: int)
    requires Runs(Init(init, deltas), steps, maxAttempts) && CrashFree(steps)
    ensures |steps| <= Times(|deltas|, 2 * |deltas| + 1)
  {
    var work := TotalWork(Final(Init(init, deltas), steps, maxAttempts).bumps);
    assert |steps| == work by {
      FreshBumps(init, deltas);
      WorkIsRunLength(Init(init, deltas), steps, maxAttempts);
    }
    assert work <= Times(|deltas|, 2 * |deltas| + 1) by {
      WorkInTheEnd(init, deltas, steps, maxAttempts);
    }
  }

  lemma WorkInTheEnd(init: int, deltas: seq<int>, steps: seq<Step>, maxAttempts: int)
    requires Runs(Init(init, deltas), steps, maxAttempts)
    ensures TotalWork(Final(Init(init, deltas), steps, maxAttempts).bumps) <= Times(|deltas|, 2 * |deltas| + 1)
  {
    InitInv(init, deltas, maxAttempts);
    InvRun(Init(init, deltas), steps, init, deltas, maxAttempts);
    WorkOfState(Final(Init(init, deltas), steps, maxAttempts), init, deltas, maxAttempts);
  }

  /** A schedule without other errors comes to an end within n * (2n + 1) steps. */
  lemma RunsAreShort(init: int, deltas: seq<int>, steps: seq<Step>, maxAttempts: int)
    requires Runs(Init(init, deltas), steps, maxAttempts) && CrashFree(steps)
    ensures |steps| <= |deltas| * (2 * |deltas| + 1)
  {
    WorkOfRun(init, deltas, steps, maxAttempts);
    TimesIsProduct(|deltas|, 2 * |deltas| + 1);
  }

  /** With at most maxAttempts concurrent bumps and no other error, every schedule comes to an
      end, and where it ends, all bumps have committed and the balance has moved by the sum
      of all deltas. */
  lemma AllCommit(init: int, deltas: seq<int>, steps: seq<Step>, maxAttempts: int)
    requires Runs(Init(init, deltas), steps, maxAttempts) && CrashFree(steps) && |deltas| <= maxAttempts
    ensures |steps| <= |deltas| * (2 * |deltas| + 1)
    ensures var s := Final(Init(init, deltas), steps, maxAttempts);
      Stuck(s) ==>
        && |s.bumps| == |deltas|
        && (forall b :: 0 <= b < |s.bumps| ==> s.bumps[b].stage == Done)
        && s.balance == init + Sum(deltas)
  {
    var s := Final(Init(init, deltas), steps, maxAttempts);
    RunsAreShort(init, deltas, steps, maxAttempts);
    InvRun(Init(init, deltas), steps, init, deltas, maxAttempts);
    WorkIsRunLength(Init(init, deltas), steps, maxAttempts);
    if Stuck(s) {
      forall b | 0 <= b < |deltas| ensures s.bumps[b].stage == Done && b in s.log {
        EnoughAttempts(init, deltas, steps, maxAttempts, b);
        StuckIsEnded(s, b);
      }
      SumOfAll(deltas, s.log);
    }
  }

  // ---------------------------------------------------------------- the protocol is the retry loop

  /** What the attempts of a bump met: 40001 once per loss, then the COMMIT if it came to it. */
  function AttemptsOf(bump: Bump): nat -> TxResult<()> {
    (i: nat) => if i <= |bump.lostTo| then Err("40001") else Ok(())
  }

  /** A bump that has committed or given up has done what the retry loop does with what its
      attempts met: it decided at the same attempt, and with the same result. */
  lemma BumpIsRetryLoop(init: int, deltas: seq<int>, steps: seq<Step>, maxAttempts: int, b: nat)
    requires Runs(Init(init, deltas), steps, maxAttempts) && maxAttempts >= 1
    requires var s := Final(Init(init, deltas), steps, maxAttempts);
      b < |s.bumps| && (s.bumps[b].stage.Done? || s.bumps[b].stage.GaveUp?)
    ensures var bump := Final(Init(init, deltas), steps, maxAttempts).bumps[b];
      && Decides(AttemptsOf(bump), bump.attempt, maxAttempts)
      && (bump.stage.Done? <==> AttemptsOf(bump)(bump.attempt) == Ok(()))
      && (bump.stage.GaveUp? <==> AttemptsOf(bump)(bump.attempt) == Err("40001"))
  {
    InvRun(Init(init, deltas), steps, init, deltas, maxAttempts);
    assert BumpOk(Final(Init(init, deltas), steps, maxAttempts).bumps[b], b,
                  Final(Init(init, deltas), steps, maxAttempts).log,
                  Final(Init(init, deltas), steps, maxAttempts).balance, maxAttempts);
  }

  // ---------------------------------------------------------------- the bound is sharp

  /** After k rounds bumps 1..k have committed and bump 0 has lost to each of them. */
  ghost predicate Starved(s: State, n: nat, k: nat, maxAttempts: int) {
    && |s.bumps| == n > 0
    && |s.log| == k
    && (forall b :: k < b < n ==> s.bumps[b].stage == Idle)
    && (forall b :: 1 <= b <= k && b < n ==> s.bumps[b].stage == Done)
    && (if k < maxAttempts then s.bumps[0].stage == Idle && s.bumps[0].attempt == k + 1
        else s.bumps[0].stage == GaveUp)
  }

  lemma RunsCons(s: State, step: Step, rest: seq<Step>, maxAttempts: int)
    requires Enabled(s, step) && Runs(Apply(s, step, maxAttempts), rest, maxAttempts)
    ensures Runs(s, [step] + rest, maxAttempts)
    ensures Final(s, [step] + rest, maxAttempts) == Final(Apply(s, step, maxAttempts), rest, maxAttempts)
  {
    assert ([step] + rest)[1..] == rest;
  }

  function Round(j: nat): seq<Step> {
    [Select(j)] + ([Select(0)] + ([Update(j)] + ([Commit(j)] + ([Update(0)] + []))))
  }

  lemma StarveOnce(s: State, n: nat, k: nat, maxAttempts: int)
    requires Starved(s, n, k, maxAttempts) && k < maxAttempts && k + 1 < n
    ensures Runs(s, Round(k + 1), maxAttempts)
    ensures Starved(Final(s, Round(k + 1), maxAttempts), n, k + 1, maxAttempts)
  {
    var j := k + 1;
    var s1 := Apply(s, Select(j), maxAttempts);
    var s2 := Apply(s1, Select(0), maxAttempts);
    var s3 := Apply(s2, Update(j), maxAttempts);
    var s4 := Apply(s3, Commit(j), maxAttempts);
    var s5 := Apply(s4, Update(0), maxAttempts);
    assert Starved(s5, n, j, maxAttempts);
    RunsCons(s4, Update(0), [], maxAttempts);
    RunsCons(s3, Commit(j), [Update(0)] + [], maxAttempts);
    RunsCons(s2, Update(j), [Commit(j)] + ([Update(0)] + []), maxAttempts);
    RunsCons(s1, Select(0), [Update(j)] + ([Commit(j)] + ([Update(0)] + [])), maxAttempts);
    RunsCons(s, Select(j), [Select(0)] + ([Update(j)] + ([Commit(j)] + ([Update(0)] + []))), maxAttempts);
  }

  lemma {:induction false} RunsAppend(s: State, a: seq<Step>, b: seq<Step>, maxAttempts: int)
    requires Runs(s, a, maxAttempts) && Runs(Final(s, a, maxAttempts), b, maxAttempts)
    ensures Runs(s, a + b, maxAttempts)
    ensures Final(s, a + b, maxAttempts) == Final(Final(s, a, maxAttempts), b, maxAttempts)
    decreases |a|
  {
    if a == [] {
      assert a + b == b;
    } else {
      assert (a + b)[0] == a[0] && (a + b)[1..] == a[1..] + b;
      RunsAppend(Apply(s, a[0], maxAttempts), a[1..], b, maxAttempts);
    }
  }

  lemma {:induction false} StarveMany(init: int, deltas: seq<int>, k: nat, maxAttempts: int) returns (steps: seq<Step>)
    requires k <= maxAttempts && k < |deltas| && maxAttempts >= 1
    ensures Runs(Init(init, deltas), steps, maxAttempts)
    ensures Starved(Final(Init(init, deltas), steps, maxAttempts), |deltas|, k, maxAttempts)
  {
    if k == 0 {
      steps := [];
    } else {
      var before := StarveMany(init, deltas, k - 1, maxAttempts);
      StarveOnce(Final(Init(init, deltas), before, maxAttempts), |deltas|, k - 1, maxAttempts);
      RunsAppend(Init(init, deltas), before, Round(k), maxAttempts);
      steps := before + Round(k);
    }
  }

  ghost predicate GivesUp(init: int, deltas: seq<int>, steps: seq<Step>, maxAttempts: int, b: nat) {
    && Runs(Init(init, deltas), steps, maxAttempts)
    && var s := Final(Init(init, deltas), steps, maxAttempts);
    b < |s.bumps| && s.bumps[b].stage == GaveUp
  }

  /** Some schedule makes some bump give up exactly when there are more bumps than attempts:
      with maxAttempts = 5, five concurrent bumps always get through and six may not. */
  lemma GivesUpIffMoreThanMaxAttempts(init: int, deltas: seq<int>, maxAttempts: int)
    requires maxAttempts >= 1
    ensures (exists steps, b :: GivesUp(init, deltas, steps, maxAttempts, b)) <==> |deltas| > maxAttempts
  {
    if |deltas| > maxAttempts {
      var steps := StarveMany(init, deltas, maxAttempts, maxAttempts);
      assert GivesUp(init, deltas, steps, maxAttempts, 0);
    } else if steps, b :| GivesUp(init, deltas, steps, maxAttempts, b) {
      InvRun(Init(init, deltas), steps, init, deltas, maxAttempts);
      EnoughAttempts(init, deltas, steps, maxAttempts, b);
    }
  }
}
