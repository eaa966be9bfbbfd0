/** Any number of checkouts interleaved statement by statement at READ COMMITTED.

    A guarded UPDATE takes the row lock and keeps it to the end of its transaction.  If the
    committed row fails the guard the statement affects no row at once; if it passes but
    another transaction holds the row, the statement waits and then evaluates the guard
    again on the row as committed by then.  New row versions and new rows become visible at
    COMMIT.  The foreign keys of the inserts take key-share locks, which do not conflict
    with updates of non-key columns, so the inserts never wait. */
module ConcurrentCheckout {
  import opened Checkout

  /** `done` counts executed statements: 1 stock, 2 balance, 3 order, 4 item, 5 job, 6 outbox. */
  datatype Tx = Tx(req: Request, done: nat, price: int, newStock: int, email: string, newBalance: int, orderId: nat)

  /** `log` is a history: requests in the order their transactions committed. */
  datatype State = State(
    shop: Shop,
    open: map<nat, Tx>,
    nextOrderId: nat,
    verdicts: map<nat, Verdict>,
    log: seq<(Request, nat)>)

  datatype Step =
    | Begin(t: nat, req: Request)
    | Exec(t: nat)
    | Commit(t: nat)
    | Abort(t: nat)

  predicate HoldsProduct(tx: Tx, p: nat) { tx.done >= 1 && tx.req.productId == p }

  predicate HoldsUser(tx: Tx, u: nat) { tx.done >= 2 && tx.req.userId == u }

  /** Transaction t's next statement need not wait. */
  ghost predicate CanExec(s: State, t: nat)
    requires t in s.open
  {
    var tx := s.open[t];
    if tx.done == 0 then
      StockGuard(s.shop, tx.req) ==> forall j :: j in s.open && j != t ==> !HoldsProduct(s.open[j], tx.req.productId)
    else if tx.done == 1 then
      FundsGuard(s.shop, tx.req.userId, tx.price * tx.req.quantity) ==>
        forall j :: j in s.open && j != t ==> !HoldsUser(s.open[j], tx.req.userId)
    else tx.done < 6
  }

  ghost predicate Enabled(s: State, step: Step) {
    match step
    case Begin(t, _) => t !in s.open && t !in s.verdicts
    case Exec(t) => t in s.open && CanExec(s, t)
    case Commit(t) => t in s.open && s.open[t].done == 6
    case Abort(t) => t in s.open
  }

  function Close(s: State, t: nat, v: Verdict): State {
    s.(open := s.open - {t}, verdicts := s.verdicts[t := v])
  }

  function ExecNext(s: State, t: nat): State
    requires t in s.open
  {
    var tx := s.open[t];
    if tx.done == 0 then
      if StockGuard(s.shop, tx.req) then
        var p := s.shop.products[tx.req.productId];
        s.(open := s.open[t := tx.(done := 1, price := p.priceCents, newStock := p.stock - tx.req.quantity)])
      else Close(s, t, InsufficientStock)
    else if tx.done == 1 then
      var total := tx.price * tx.req.quantity;
      if FundsGuard(s.shop, tx.req.userId, total) then
        var u := s.shop.users[tx.req.userId];
        s.(open := s.open[t := tx.(done := 2, email := u.email, newBalance := u.balanceCents - total)])
      else Close(s, t, InsufficientFunds)
    else if tx.done == 2 then
      s.(open := s.open[t := tx.(done := 3, orderId := s.nextOrderId)], nextOrderId := s.nextOrderId + 1)
    else s.(open := s.open[t := tx.(done := tx.done + 1)])
  }

  ghost function Apply(s: State, step: Step): State
    requires Enabled(s, step)
  {
    match step
    case Begin(t, req) =>
      if req.quantity <= 0 then Close(s, t, BadQuantity)
      else s.(open := s.open[t := Tx(req, 0, 0, 0, "", 0, 0)])
    case Exec(t) => ExecNext(s, t)
    case Commit(t) =>
      var tx := s.open[t];
      Close(s, t, Placed(tx.orderId)).(
        shop := Write(s.shop, tx.req, tx.orderId, tx.price, tx.email, tx.newStock, tx.newBalance),
        log := s.log + [(tx.req, tx.orderId)])
    case Abort(t) => Close(s, t, Failed)
  }

  function Init(shop: Shop, firstId: nat): State { State(shop, map[], firstId, map[], []) }

  ghost predicate Runs(s: State, steps: seq<Step>)
    decreases |steps|
  {
    steps == [] || (Enabled(s, steps[0]) && Runs(Apply(s, steps[0]), steps[1..]))
  }

  ghost function Final(s: State, steps: seq<Step>): State
    requires Runs(s, steps)
    decreases |steps|
  {
    if steps == [] then s else Final(Apply(s, steps[0]), steps[1..])
  }

  // ---------------------------------------------------------------- invariant

  /** A held row is, in the committed table, still what the holder saw when it locked it. */
  ghost predicate TxOk(shop: Shop, nextOrderId: nat, tx: Tx) {
    && tx.req.quantity > 0 && tx.done <= 6
    && (tx.done >= 1 ==>
          && StockGuard(shop, tx.req)
          && shop.products[tx.req.productId] == Product(tx.newStock + tx.req.quantity, tx.price))
    && (tx.done >= 2 ==>
          && FundsGuard(shop, tx.req.userId, tx.price * tx.req.quantity)
          && shop.users[tx.req.userId] == User(tx.newBalance + tx.price * tx.req.quantity, tx.email))
    && (tx.done >= 3 ==> tx.orderId < nextOrderId)
  }

  ghost predicate Apart(a: Tx, b: Tx) {
    && (a.done >= 1 && b.done >= 1 ==> a.req.productId != b.req.productId)
    && (a.done >= 2 && b.done >= 2 ==> a.req.userId != b.req.userId)
    && (a.done >= 3 && b.done >= 3 ==> a.orderId != b.orderId)
  }

  /** Order ids in the table were drawn already and belong to no open transaction. */
  ghost predicate IdsOk(orders: seq<Order>, open: map<nat, Tx>, nextOrderId: nat) {
    && (forall i :: 0 <= i < |orders| ==> orders[i].id < nextOrderId)
    && (forall i, t :: 0 <= i < |orders| && t in open && open[t].done >= 3 ==> orders[i].id != open[t].orderId)
  }

  ghost predicate Inv(s: State) {
    && (forall t :: t in s.open ==> TxOk(s.shop, s.nextOrderId, s.open[t]))
    && (forall t, u :: t in s.open && u in s.open && t != u ==> Apart(s.open[t], s.open[u]))
    && IdsOk(s.shop.orders, s.open, s.nextOrderId)
  }

  lemma CommitIsSerial(s: State, t: nat)
    requires Inv(s) && Enabled(s, Commit(t))
    ensures var tx := s.open[t];
      (Apply(s, Commit(t)).shop, Placed(tx.orderId)) == Serial(s.shop, tx.req, tx.orderId)
  {
    assert TxOk(s.shop, s.nextOrderId, s.open[t]);
  }

  lemma InvCommit(s: State, t: nat)
    requires Inv(s) && Enabled(s, Commit(t))
    ensures Inv(Apply(s, Commit(t)))
  {
    var tx, s' := s.open[t], Apply(s, Commit(t));
    forall j | j in s'.open ensures TxOk(s'.shop, s'.nextOrderId, s'.open[j]) {
      assert TxOk(s.shop, s.nextOrderId, s.open[j]) && Apart(tx, s.open[j]);
    }
  }

  lemma InvExec(s: State, t: nat)
    requires Inv(s) && Enabled(s, Exec(t))
    ensures Inv(Apply(s, Exec(t)))
  {
    var tx, s' := s.open[t], Apply(s, Exec(t));
    assert TxOk(s.shop, s.nextOrderId, tx);
    forall j | j in s'.open && j != t
      ensures TxOk(s'.shop, s'.nextOrderId, s'.open[j]) && (t in s'.open ==> Apart(s'.open[t], s'.open[j]) && Apart(s'.open[j], s'.open[t]))
    {
      assert TxOk(s.shop, s.nextOrderId, s.open[j]) && Apart(tx, s.open[j]);
      assert tx.done == 0 && t in s'.open ==> !HoldsProduct(s.open[j], tx.req.productId);
      assert tx.done == 1 && t in s'.open ==> !HoldsUser(s.open[j], tx.req.userId);
    }
  }

  lemma InvStep(s: State, step: Step)
    requires Inv(s) && Enabled(s, step)
    ensures Inv(Apply(s, step))
  {
    match step {
      case Exec(t) => InvExec(s, t);
      case Commit(t) => InvCommit(s, t);
      case _ =>
    }
  }

  // ---------------------------------------------------------------- serializability

  /** The checkouts of a log, one after the other. */
  function Replay(shop: Shop, log: seq<(Request, nat)>): Shop {
    if log == [] then shop
    else
      var last := log[|log| - 1];
      Serial(Replay(shop, log[..|log| - 1]), last.0, last.1).0
  }

  ghost predicate AllPlaced(shop: Shop, log: seq<(Request, nat)>) {
    forall i :: 0 <= i < |log| ==> Serial(Replay(shop, log[..i]), log[i].0, log[i].1).1 == Placed(log[i].1)
  }

  lemma ReplayStep(shop: Shop, s: State, step: Step)
    requires Inv(s) && Enabled(s, step)
    requires s.shop == Replay(shop, s.log) && AllPlaced(shop, s.log)
    ensures var s' := Apply(s, step); s'.shop == Replay(shop, s'.log) && AllPlaced(shop, s'.log)
  {
    if step.Commit? {
      var s' := Apply(s, step);
      CommitIsSerial(s, step.t);
      assert s'.log[..|s'.log| - 1] == s.log;
      forall i | 0 <= i < |s'.log|
        ensures Serial(Replay(shop, s'.log[..i]), s'.log[i].0, s'.log[i].1).1 == Placed(s'.log[i].1)
      {
        if i < |s.log| { assert s'.log[..i] == s.log[..i]; }
      }
    }
  }

  lemma {:induction false} ReplayRun(shop: Shop, s: State, steps: seq<Step>)
    requires Inv(s) && Runs(s, steps)
    requires s.shop == Replay(shop, s.log) && AllPlaced(shop, s.log)
    ensures var s' := Final(s, steps); Inv(s') && s'.shop == Replay(shop, s'.log) && AllPlaced(shop, s'.log)
    decreases |steps|
  {
    if steps != [] {
      InvStep(s, steps[0]);
      ReplayStep(shop, s, steps[0]);
      ReplayRun(shop, Apply(s, steps[0]), steps[1..]);
    }
  }

  ghost predicate FreshIds(shop: Shop, firstId: nat) {
    forall i :: 0 <= i < |shop.orders| ==> shop.orders[i].id < firstId
  }

  /** Every interleaving leaves the tables exactly as the committed checkouts would leave
      them if they ran one at a time in commit order, each of them succeeding. */
  lemma Serializable(shop: Shop, firstId: nat, steps: seq<Step>)
    requires FreshIds(shop, firstId) && Runs(Init(shop, firstId), steps)
    ensures var s := Final(Init(shop, firstId), steps);
      s.shop == Replay(shop, s.log) && AllPlaced(shop, s.log)
  {
    ReplayRun(shop, Init(shop, firstId), steps);
  }

  /** A refusal is the one the checkout would get alone with the database at that moment, and
      no step but a commit changes a committed row. */
  lemma RefusalsAreSerial(shop: Shop, firstId: nat, steps: seq<Step>, t: nat)
    requires FreshIds(shop, firstId) && Runs(Init(shop, firstId), steps)
    requires var s := Final(Init(shop, firstId), steps); Enabled(s, Exec(t)) && t !in Apply(s, Exec(t)).open
    ensures var s := Final(Init(shop, firstId), steps);
      && var v, req := Apply(s, Exec(t)).verdicts[t], s.open[t].req;
      && v == Serial(s.shop, req, s.nextOrderId).1
      && (v == InsufficientStock || v == InsufficientFunds)
      && (v == InsufficientStock <==>
            (req.productId in s.shop.products ==> s.shop.products[req.productId].stock < req.quantity))
      && Apply(s, Exec(t)).shop == s.shop
  {
    ReplayRun(shop, Init(shop, firstId), steps);
    var s := Final(Init(shop, firstId), steps);
    assert TxOk(s.shop, s.nextOrderId, s.open[t]);
    VerdictIs(s.shop, s.open[t].req, s.nextOrderId);
  }

  lemma {:induction false} ReplayConserves(shop: Shop, log: seq<(Request, nat)>, p: nat, u: nat)
    requires NonNegative(shop)
    ensures var shop' := Replay(shop, log);
      && Stock(shop', p) + UnitsSold(shop'.items, p) == Stock(shop, p) + UnitsSold(shop.items, p)
      && Balance(shop', u) + CentsCharged(shop'.orders, u) == Balance(shop, u) + CentsCharged(shop.orders, u)
      && NonNegative(shop')
    decreases |log|
  {
    if log != [] {
      var last := log[|log| - 1];
      ReplayConserves(shop, log[..|log| - 1], p, u);
      SerialConserves(Replay(shop, log[..|log| - 1]), last.0, last.1, p, u);
    }
  }

  lemma GrownStep(before: Shop, s: State, step: Step)
    requires Inv(s) && Enabled(s, step) && Grown(before, s.shop, |s.log|)
    ensures var s' := Apply(s, step); Grown(before, s'.shop, |s'.log|)
  {
    if step.Commit? {
      CommitIsSerial(s, step.t);
      SerialGrows(before, s.shop, |s.log|, s.open[step.t].req, s.open[step.t].orderId);
    }
  }

  lemma {:induction false} GrownRun(before: Shop, s: State, steps: seq<Step>)
    requires Inv(s) && Runs(s, steps) && Grown(before, s.shop, |s.log|)
    ensures Grown(before, Final(s, steps).shop, |Final(s, steps).log|)
    decreases |steps|
  {
    if steps != [] {
      InvStep(s, steps[0]);
      GrownStep(before, s, steps[0]);
      GrownRun(before, Apply(s, steps[0]), steps[1..]);
    }
  }

  /** In every reachable state stock and balances are non-negative; stock plus the units in
      item rows and balance plus the totals of order rows are what they were at the start;
      and each committed checkout has added exactly one order, one item, one job and one
      outbox row, all about the same order. */
  lemma MoneyAndStockConserved(shop: Shop, firstId: nat, steps: seq<Step>, p: nat, u: nat)
    requires NonNegative(shop) && FreshIds(shop, firstId) && Runs(Init(shop, firstId), steps)
    ensures var s := Final(Init(shop, firstId), steps);
      && NonNegative(s.shop)
      && Stock(s.shop, p) + UnitsSold(s.shop.items, p) == Stock(shop, p) + UnitsSold(shop.items, p)
      && Balance(s.shop, u) + CentsCharged(s.shop.orders, u) == Balance(shop, u) + CentsCharged(shop.orders, u)
      && Grown(shop, s.shop, |s.log|)
  {
    var s := Final(Init(shop, firstId), steps);
    ReplayRun(shop, Init(shop, firstId), steps);
    ReplayConserves(shop, s.log, p, u);
    GrownRun(shop, Init(shop, firstId), steps);
  }

  ghost predicate AllCharged(before: Shop, s: State) {
    && SameCatalogue(before, s.shop) && Grown(before, s.shop, |s.log|)
    && forall i :: 0 <= i < |s.log| ==> ChargedAtList(before, s.shop, i, s.log[i].0, s.log[i].1)
  }

  lemma ChargedCommit(before: Shop, s: State, t: nat)
    requires Inv(s) && Enabled(s, Commit(t)) && AllCharged(before, s)
    ensures var s' := Apply(s, Commit(t));
      && SameCatalogue(before, s'.shop)
      && forall i :: 0 <= i < |s'.log| ==> ChargedAtList(before, s'.shop, i, s'.log[i].0, s'.log[i].1)
  {
    var s', tx := Apply(s, Commit(t)), s.open[t];
    CommitIsSerial(s, t);
    SerialCharges(before, s.shop, |s.log|, tx.req, tx.orderId);
    forall i | 0 <= i < |s.log| ensures ChargedAtList(before, s'.shop, i, s'.log[i].0, s'.log[i].1) {
      SerialKeepsRows(before, s.shop, i, s.log[i].0, s.log[i].1, tx.req, tx.orderId);
    }
  }

  lemma ChargedStep(before: Shop, s: State, step: Step)
    requires Inv(s) && Enabled(s, step) && AllCharged(before, s)
    ensures AllCharged(before, Apply(s, step))
  {
    GrownStep(before, s, step);
    if step.Commit? {
      ChargedCommit(before, s, step.t);
    } else {
      assert Apply(s, step).shop == s.shop && Apply(s, step).log == s.log;
    }
  }

  lemma {:induction false} ChargedRun(before: Shop, s: State, steps: seq<Step>)
    requires Inv(s) && Runs(s, steps) && AllCharged(before, s)
    ensures AllCharged(before, Final(s, steps))
    decreases |steps|
  {
    if steps != [] {
      InvStep(s, steps[0]);
      ChargedStep(before, s, steps[0]);
      ChargedRun(before, Apply(s, steps[0]), steps[1..]);
    }
  }

  /** In every reachable state the catalogue and the users' addresses are what they were, and
      the i-th checkout to commit has bought its product at the list price, on its own
      account: its order, item, job and outbox row say so in every field. */
  lemma EveryoneIsChargedTheListPrice(shop: Shop, firstId: nat, steps: seq<Step>)
    requires FreshIds(shop, firstId) && Runs(Init(shop, firstId), steps)
    ensures var s := Final(Init(shop, firstId), steps);
      && SameCatalogue(shop, s.shop)
      && forall i :: 0 <= i < |s.log| ==> ChargedAtList(shop, s.shop, i, s.log[i].0, s.log[i].1)
  {
    ChargedRun(shop, Init(shop, firstId), steps);
  }

  // ---------------------------------------------------------------- no deadlock

  /** Transaction t's next statement needs a row that transaction j holds. */
  ghost predicate WaitsFor(s: State, t: nat, j: nat) {
    && t in s.open && j in s.open && j != t
    && var tx := s.open[t];
    && ((tx.done == 0 && StockGuard(s.shop, tx.req) && HoldsProduct(s.open[j], tx.req.productId)) ||
        (tx.done == 1 && FundsGuard(s.shop, tx.req.userId, tx.price * tx.req.quantity) && HoldsUser(s.open[j], tx.req.userId)))
  }

  /** Everybody locks the product before the user, so whoever is waited for is further on. */
  lemma WaitsAreOrdered(s: State, t: nat, j: nat)
    requires WaitsFor(s, t, j)
    ensures s.open[t].done < s.open[j].done
  {
  }

  ghost predicate Furthest(s: State, t: nat) {
    t in s.open && forall j :: j in s.open ==> s.open[j].done <= s.open[t].done
  }

  ghost predicate Progress(step: Step) { step.Exec? || step.Commit? }

  lemma RunsCons(s: State, step: Step, rest: seq<Step>)
    requires Enabled(s, step) && Runs(Apply(s, step), rest)
    ensures Runs(s, [step] + rest) && Final(s, [step] + rest) == Final(Apply(s, step), rest)
  {
    assert ([step] + rest)[1..] == rest;
  }

  /** The transaction furthest on waits for nobody. */
  lemma FurthestCanMove(s: State, t: nat)
    requires Furthest(s, t) && s.open[t].done <= 6
    ensures Enabled(s, if s.open[t].done == 6 then Commit(t) else Exec(t))
  {
    forall j | j in s.open && j != t ensures !WaitsFor(s, t, j) {
      if WaitsFor(s, t, j) { WaitsAreOrdered(s, t, j); }
    }
  }

  /** Its next step ends it, or takes it one statement further. */
  lemma GetsFurther(s: State, t: nat)
    requires Furthest(s, t) && s.open[t].done <= 6
    requires Enabled(s, if s.open[t].done == 6 then Commit(t) else Exec(t))
    ensures var open' := Apply(s, if s.open[t].done == 6 then Commit(t) else Exec(t)).open;
      && open' - {t} == s.open - {t}
      && (t in open' ==> Furthest(Apply(s, Exec(t)), t) && s.open[t].done < 6 && open'[t].done == s.open[t].done + 1)
      && (t !in open' ==> open' == s.open - {t})
  {
  }

  /** Transaction t can be driven to its end without anybody else moving. */
  lemma {:induction false} FinishOne(s: State, t: nat) returns (steps: seq<Step>)
    requires Inv(s) && Furthest(s, t)
    ensures Runs(s, steps) && Inv(Final(s, steps))
    ensures forall i :: 0 <= i < |steps| ==> Progress(steps[i])
    ensures Final(s, steps).open == s.open - {t}
    decreases 7 - s.open[t].done
  {
    assert TxOk(s.shop, s.nextOrderId, s.open[t]);
    var step := if s.open[t].done == 6 then Commit(t) else Exec(t);
    FurthestCanMove(s, t);
    InvStep(s, step);
    var s1 := Apply(s, step);
    GetsFurther(s, t);
    if t in s1.open {
      var rest := FinishOne(s1, t);
      RunsCons(s, step, rest);
      steps := [step] + rest;
    } else {
      RunsCons(s, step, []);
      steps := [step] + [];
    }
  }

  lemma {:induction false} SomeoneIsFurthest(open: map<nat, Tx>) returns (t: nat)
    requires open != map[]
    ensures t in open && forall j :: j in open ==> open[j].done <= open[t].done
    decreases |open|
  {
    var x :| x in open;
    t := x;
    var rest := open - {x};
    if rest != map[] {
      assert rest.Keys == open.Keys - {x};
      var u := SomeoneIsFurthest(rest);
      if open[x].done < open[u].done { t := u; }
      assert forall j :: j in open ==> j in rest || j == x;
    } else {
      assert forall j :: j in open && j != x ==> j in rest;
    }
  }

  lemma {:induction false} RunsAppend(s: State, a: seq<Step>, b: seq<Step>)
    requires Runs(s, a) && Runs(Final(s, a), b)
    ensures Runs(s, a + b) && Final(s, a + b) == Final(Final(s, a), b)
    decreases |a|
  {
    if a == [] {
      assert a + b == b;
    } else {
      assert (a + b)[0] == a[0] && (a + b)[1..] == a[1..] + b;
      RunsAppend(Apply(s, a[0]), a[1..], b);
    }
  }

  lemma {:induction false} AllFinish(s: State) returns (steps: seq<Step>)
    requires Inv(s)
    ensures Runs(s, steps) && Final(s, steps).open == map[]
    ensures forall i :: 0 <= i < |steps| ==> Progress(steps[i])
    ensures s.open != map[] ==> steps != []
    decreases |s.open|
  {
    if s.open == map[] {
      steps := [];
    } else {
      var t := SomeoneIsFurthest(s.open);
      var first := FinishOne(s, t);
      var s1 := Final(s, first);
      assert s1.open.Keys == s.open.Keys - {t};
      var rest := AllFinish(s1);
      RunsAppend(s, first, rest);
      steps := first + rest;
    }
  }

  /** Concurrent checkouts cannot deadlock: from every reachable state the open transactions
      alone, with no rollback forced on any of them, can run until none is open; in
      particular some open transaction has an enabled step. */
  lemma NoDeadlock(shop: Shop, firstId: nat, steps: seq<Step>) returns (more: seq<Step>)
    requires FreshIds(shop, firstId) && Runs(Init(shop, firstId), steps)
    ensures var s := Final(Init(shop, firstId), steps);
      && Runs(s, more) && Final(s, more).open == map[]
      && (forall i :: 0 <= i < |more| ==> Progress(more[i]))
      && (s.open != map[] ==> more != [] && Enabled(s, more[0]))
  {
    ReplayRun(shop, Init(shop, firstId), steps);
    more := AllFinish(Final(Init(shop, firstId), steps));
  }
}
