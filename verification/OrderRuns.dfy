// What reconciliation can rely on over whole runs of the execution service: which orders it still
// finds open, that redelivered updates change nothing, and where every filled quantity comes from.
module OrderRuns {
  import opened Wrappers
  import opened JobLifecycle
  import opened ExecutionTables
  import opened RedisKeys
  import opened ExecutionConsumer
  import opened ExecutionRuns
  import Reconciliation
  import TradeIds

  // ---- Every order belongs to a settling job ----

  ghost predicate OrdersSettle(db: Db) {
    forall k | k in db.orders :: k in db.jobs && Reconciliation.Settling(db.jobs[k].status)
  }

  lemma UpdateKeepsOrdersSettling(db: Db, e: Reconciliation.OrderUpdate)
    requires OrdersSettle(db)
    ensures OrdersSettle(Reconciliation.Step(db, e))
  {
    var out := Reconciliation.Step(db, e);
    Reconciliation.StepFrame(db, e);
    forall k | k in out.orders ensures Reconciliation.Settling(out.jobs[k].status) {
      Reconciliation.GuardedStep(db, e, k);
    }
  }

  // What a delivery of an intent without a job leaves of its own rows.
  lemma NewJobSettles(cfg: Settings, s: State, d: Delivery)
    requires d.intent.clientOrderId !in s.db.jobs && d.intent.clientOrderId !in s.db.orders
    ensures var k, out := d.intent.clientOrderId, Process(cfg, s, d).db;
      && (k in out.orders <==> OutcomeOf(cfg, s, d) == Executed)
      && (k in out.orders ==>
            && k in out.jobs && out.jobs[k].accountId == cfg.accountId
            && out.jobs[k].status == if EndsFilled(cfg, s.db, d) then Filled else Acknowledged)
  {
    var job, db := Ref(d), AddJob(s.db, Ref(d), cfg.accountId);
    assert db.jobs[job.clientOrderId] == JobRow(job.id, cfg.accountId, Queued, None);
    if OutcomeOf(cfg, s, d) == Executed {
      var approved := WriteStatus(db, job, Approved, None);
      assert OwnsRow(approved, job) && approved.fills == s.db.fills;
      AcknowledgedRow(approved, d);
      PersistedRow(cfg, Acknowledge(approved, d), d);
    }
  }

  lemma AcknowledgedRow(db: Db, d: Delivery)
    requires OwnsRow(db, Ref(d))
    ensures var out := Acknowledge(db, d);
      && OwnsRow(out, Ref(d)) && out.jobs[d.intent.clientOrderId].status == Acknowledged
      && out.jobs[d.intent.clientOrderId].accountId == db.jobs[d.intent.clientOrderId].accountId
      && out.orders == db.orders && out.fills == db.fills
  {
  }

  // The final status is written: there is no fill row to write, or its trade id is new.
  predicate EndsFilled(cfg: Settings, db: Db, d: Delivery) {
    d.response.Accepted? &&
    (NonZero(d.response.fillPrice).None? || NonZero(d.response.fillQty).None? ||
     !HasFill(db.fills, cfg.accountId, NewFill(cfg, d).exchangeTradeId))
  }

  lemma PersistedRow(cfg: Settings, db: Db, d: Delivery)
    requires d.response.Accepted? && OwnsRow(db, Ref(d)) && d.intent.clientOrderId !in db.orders
    requires db.jobs[d.intent.clientOrderId].status == Acknowledged
    ensures var k, out := d.intent.clientOrderId, Persist(cfg, db, d);
      && k in out.orders && k in out.jobs && out.jobs[k].accountId == db.jobs[k].accountId
      && out.jobs[k].status == if EndsFilled(cfg, db, d) then Filled else Acknowledged
  {
  }

  // A delivery leaves the order and fill rows of other client order ids alone.
  lemma DeliveryLeavesOtherOrders(cfg: Settings, db: Db, d: Delivery, outcome: Outcome, k: string)
    requires k != d.intent.clientOrderId
    ensures var out := DbAfter(cfg, db, d, outcome);
      && db.fills <= out.fills && (k in out.orders <==> k in db.orders)
      && (k in db.orders ==> out.orders[k] == db.orders[k])
  {
    var created := AddJob(db, Ref(d), cfg.accountId);
    var approved := WriteStatus(created, Ref(d), Approved, None);
    if d.response.Accepted? {
      PersistLeavesOtherOrders(cfg, Acknowledge(approved, d), d, k);
    }
  }

  lemma PersistLeavesOtherOrders(cfg: Settings, db: Db, d: Delivery, k: string)
    requires d.response.Accepted? && k != d.intent.clientOrderId
    ensures var out := Persist(cfg, db, d);
      && db.fills <= out.fills && (k in out.orders <==> k in db.orders)
      && (k in db.orders ==> out.orders[k] == db.orders[k])
  {
  }

  lemma DeliveryKeepsOrdersSettling(cfg: Settings, s: State, d: Delivery)
    requires OrdersSettle(s.db) && FreshJob(s.db, d)
    ensures OrdersSettle(Process(cfg, s, d).db)
  {
    var own, out := d.intent.clientOrderId, Process(cfg, s, d).db;
    if own in s.db.jobs {
      ResubmissionIsUnrecorded(cfg, s, d);
    } else {
      NewJobSettles(cfg, s, d);
      forall k | k in out.orders ensures k in out.jobs && Reconciliation.Settling(out.jobs[k].status) {
        if k != own {
          DeliveryLeavesOtherOrders(cfg, s.db, d, OutcomeOf(cfg, s, d), k);
          DeliveryLeavesOldRows(cfg, s.db, d, OutcomeOf(cfg, s, d), k);
        }
      }
    }
  }

  // In every run each order row belongs to a job that a fill can still finish or nothing can change.
  lemma {:induction false} OrdersAlwaysSettle(cfg: Settings, s: State, acts: seq<Action>)
    requires OrdersSettle(s.db) && FreshRun(cfg, s, acts)
    ensures OrdersSettle(RunAll(cfg, s, acts).db)
  {
    if acts != [] {
      var init, last := acts[..|acts| - 1], acts[|acts| - 1];
      FreshPrefix(cfg, s, acts);
      OrdersAlwaysSettle(cfg, s, init);
      match last {
        case Deliver(d) => DeliveryKeepsOrdersSettling(cfg, RunAll(cfg, s, init), d);
        case Update(e) => UpdateKeepsOrdersSettling(RunAll(cfg, s, init).db, e);
        case SetStop(_, _) =>
        case ClearStop(_) =>
      }
    }
  }

  // ---- Redelivery over whole runs ----

  // The update is not ours, or comes after the delivery that created its job.
  predicate JobIsKnown(db: Db, e: Reconciliation.OrderUpdate) {
    Reconciliation.IsOurs(e.clientOrderId) ==> e.clientOrderId in db.jobs
  }

  lemma ActKeepsAbsorbed(cfg: Settings, s: State, a: Action, e: Reconciliation.OrderUpdate)
    requires OrdersSettle(s.db) && (a.Deliver? ==> FreshJob(s.db, a.delivery))
    requires JobIsKnown(s.db, e) && Reconciliation.Absorbed(s.db, e)
    ensures JobIsKnown(Act(cfg, s, a).db, e) && Reconciliation.Absorbed(Act(cfg, s, a).db, e)
  {
    match a
    case Update(f) =>
      Reconciliation.StepFrame(s.db, f);
      Reconciliation.AbsorbedIsStable(s.db, e, f);
    case Deliver(d) =>
      if Reconciliation.IsOurs(e.clientOrderId) { DeliveryKeepsAbsorbed(cfg, s, d, e); }
    case SetStop(_, _) =>
    case ClearStop(_) =>
  }

  lemma DeliveryKeepsAbsorbed(cfg: Settings, s: State, d: Delivery, e: Reconciliation.OrderUpdate)
    requires FreshJob(s.db, d) && e.clientOrderId in s.db.jobs && Reconciliation.Absorbed(s.db, e)
    ensures e.clientOrderId in Process(cfg, s, d).db.jobs && Reconciliation.Absorbed(Process(cfg, s, d).db, e)
  {
    if d.intent.clientOrderId == e.clientOrderId {
      ResubmissionIsUnrecorded(cfg, s, d);
    } else {
      DeliveryLeavesOldRows(cfg, s.db, d, OutcomeOf(cfg, s, d), e.clientOrderId);
      DeliveryLeavesOtherOrders(cfg, s.db, d, OutcomeOf(cfg, s, d), e.clientOrderId);
      Reconciliation.AbsorbedWhereUntouched(s.db, Process(cfg, s, d).db, e);
    }
  }

  lemma {:induction false} ProcessedUpdateStaysAbsorbed(cfg: Settings, s: State, acts: seq<Action>, i: nat)
    requires OrdersSettle(s.db) && FreshRun(cfg, s, acts)
    requires i < |acts| && acts[i].Update? && JobIsKnown(RunAll(cfg, s, acts[..i]).db, acts[i].event)
    ensures JobIsKnown(RunAll(cfg, s, acts).db, acts[i].event)
    ensures Reconciliation.Absorbed(RunAll(cfg, s, acts).db, acts[i].event)
  {
    var init, last := acts[..|acts| - 1], acts[|acts| - 1];
    FreshPrefix(cfg, s, acts);
    if i < |init| {
      assert init[..i] == acts[..i] && init[i] == acts[i];
      ProcessedUpdateStaysAbsorbed(cfg, s, init, i);
      OrdersAlwaysSettle(cfg, s, init);
      ActKeepsAbsorbed(cfg, RunAll(cfg, s, init), last, acts[i].event);
    } else {
      Reconciliation.StepFrame(RunAll(cfg, s, init).db, last.event);
      Reconciliation.ProcessedIsAbsorbed(RunAll(cfg, s, init).db, last.event);
    }
  }

  // Exactly-once effect in every reachable state: from the delivery that creates its job on, an update
  // that was processed can be redelivered at any later point of any run without changing anything.
  lemma RedeliveryInARunHasNoEffect(cfg: Settings, acts: seq<Action>, i: nat)
    requires FreshRun(cfg, EMPTY, acts)
    requires i < |acts| && acts[i].Update? && JobIsKnown(RunAll(cfg, EMPTY, acts[..i]).db, acts[i].event)
    ensures Act(cfg, RunAll(cfg, EMPTY, acts), acts[i]) == RunAll(cfg, EMPTY, acts)
  {
    ProcessedUpdateStaysAbsorbed(cfg, EMPTY, acts, i);
    Reconciliation.AbsorbedExactly(RunAll(cfg, EMPTY, acts).db, acts[i].event);
  }

  // The run without repeated updates; deliveries and switches stay.
  function OnceEach(acts: seq<Action>): seq<Action> {
    if acts == [] then []
    else
      var init, last := acts[..|acts| - 1], acts[|acts| - 1];
      if last.Update? && last in init then OnceEach(init) else OnceEach(init) + [last]
  }

  // An update that will be repeated comes after the delivery of its job.
  ghost predicate RepeatsFollowJobs(cfg: Settings, acts: seq<Action>) {
    forall i, j | 0 <= i < j < |acts| && acts[i].Update? && acts[j] == acts[i] ::
      JobIsKnown(RunAll(cfg, EMPTY, acts[..i]).db, acts[i].event)
  }

  lemma RepeatsFollowJobsPrefix(cfg: Settings, acts: seq<Action>)
    requires RepeatsFollowJobs(cfg, acts) && acts != []
    ensures RepeatsFollowJobs(cfg, acts[..|acts| - 1])
  {
    var init := acts[..|acts| - 1];
    forall i, j | 0 <= i < j < |init| && init[i].Update? && init[j] == init[i]
      ensures JobIsKnown(RunAll(cfg, EMPTY, init[..i]).db, init[i].event)
    {
      assert init[..i] == acts[..i] && init[i] == acts[i] && init[j] == acts[j];
    }
  }

  // Exactly-once effect of a whole run: tables and keys end as if every update had been delivered once.
  lemma {:induction false} RepeatedUpdatesHaveNoEffect(cfg: Settings, acts: seq<Action>)
    requires FreshRun(cfg, EMPTY, acts) && RepeatsFollowJobs(cfg, acts)
    ensures RunAll(cfg, EMPTY, acts) == RunAll(cfg, EMPTY, OnceEach(acts))
  {
    if acts != [] {
      var init, last := acts[..|acts| - 1], acts[|acts| - 1];
      FreshPrefix(cfg, EMPTY, acts);
      RepeatsFollowJobsPrefix(cfg, acts);
      RepeatedUpdatesHaveNoEffect(cfg, init);
      if last.Update? && last in init {
        var i :| 0 <= i < |init| && init[i] == last;
        assert acts[i] == last && acts[..i] == init[..i];
        RedeliveryInARunHasNoEffect(cfg, init, i);
      } else {
        var once := OnceEach(init);
        assert (once + [last])[..|once|] == once;
      }
    }
  }

  // ---- Updates after an accepted delivery ----

  lemma CancelCounts(db: Db, k: string) returns (e: Reconciliation.OrderUpdate)
    requires Reconciliation.IsOurs(k) && k in db.jobs && db.jobs[k].status == Acknowledged
    ensures e.clientOrderId == k && Reconciliation.Step(db, e) != db
  {
    e := Reconciliation.OrderUpdate(k, "77", Reconciliation.Cancel, 0.0, 0.0, 0.0, 0.0, "USDT", 0.0, 0, "");
    Reconciliation.AbsorbedExactly(db, e);
  }

  // The consumer writes filled at once for every accepted response, executed or merely placed.  What the
  // exchange reports about the order afterwards then changes no table; it still counts exactly if the
  // order's fill row collided with a known trade id.
  lemma UpdatesAreDroppedExactly(cfg: Settings, s: State, d: Delivery)
    requires Reconciliation.IsOurs(d.intent.clientOrderId)
    requires d.intent.clientOrderId !in s.db.jobs && d.intent.clientOrderId !in s.db.orders
    requires OutcomeOf(cfg, s, d) == Executed
    ensures var out := Process(cfg, s, d).db;
      (forall e: Reconciliation.OrderUpdate | e.clientOrderId == d.intent.clientOrderId ::
        Reconciliation.Step(out, e) == out)
      <==> EndsFilled(cfg, s.db, d)
  {
    var k, out := d.intent.clientOrderId, Process(cfg, s, d).db;
    NewJobSettles(cfg, s, d);
    if !EndsFilled(cfg, s.db, d) {
      var cancel := CancelCounts(out, k);
    }
  }

  // And so it stays, whatever happens next: an accepted order without an immediate fill (no price and
  // quantity in the response) is never reconciled.
  lemma FilledJobsIgnoreLaterUpdates(cfg: Settings, s: State, d: Delivery, acts: seq<Action>,
      e: Reconciliation.OrderUpdate)
    requires d.intent.clientOrderId !in s.db.jobs && d.intent.clientOrderId !in s.db.orders
    requires OutcomeOf(cfg, s, d) == Executed && EndsFilled(cfg, s.db, d)
    requires e.clientOrderId == d.intent.clientOrderId && FreshRun(cfg, Process(cfg, s, d), acts)
    ensures var end := RunAll(cfg, Process(cfg, s, d), acts); Act(cfg, end, Update(e)) == end
  {
    NewJobSettles(cfg, s, d);
    TerminalJobsNeverChange(cfg, Process(cfg, s, d), acts, e.clientOrderId);
  }

  lemma PlacedOrderRow(cfg: Settings, d: Delivery)
    requires OutcomeOf(cfg, EMPTY, d) == Executed && d.response.fillPrice.None? && d.response.fillQty.None?
    ensures var db := Process(cfg, EMPTY, d).db;
      d.intent.clientOrderId in db.orders && db.orders[d.intent.clientOrderId].filledQty == 0.0 && db.fills == []
  {
    var db := AddJob(EMPTY.db, Ref(d), cfg.accountId);
    ApprovalKeepsRows(db, d);
    PersistedRows(cfg, Acknowledge(WriteStatus(db, Ref(d), Approved, None), d), d);
  }

  // An order accepted without a fill, then any update of it, say FILLED 2 of 2: the job has been filled since
  // the acceptance, the order's filled quantity is still 0, and there is no fill row.
  lemma PlacedOrderIsNotReconciled(cfg: Settings, d: Delivery, e: Reconciliation.OrderUpdate)
    requires OutcomeOf(cfg, EMPTY, d) == Executed && d.response.fillPrice.None? && d.response.fillQty.None?
    requires e.clientOrderId == d.intent.clientOrderId
    ensures var k, db := e.clientOrderId, RunAll(cfg, EMPTY, [Deliver(d), Update(e)]).db;
      && k in db.jobs && db.jobs[k].status == Filled
      && k in db.orders && db.orders[k].filledQty == 0.0 && db.fills == []
  {
    PairOfActions(cfg, EMPTY, Deliver(d), Update(e));
    PlacedOrderRow(cfg, d);
    NewJobSettles(cfg, EMPTY, d);
    FilledJobsIgnoreLaterUpdates(cfg, EMPTY, d, [], e);
  }

  lemma PairOfActions(cfg: Settings, s: State, a: Action, b: Action)
    ensures RunAll(cfg, s, [a, b]) == Act(cfg, Act(cfg, s, a), b)
  {
    assert [a, b][..1] == [a] && [a][..0] == [];
    assert RunAll(cfg, s, [a]) == Act(cfg, s, a);
  }

  // ---- Conservation over whole runs ----

  ghost predicate FillsHaveOrders(db: Db) {
    forall i | 0 <= i < |db.fills| :: db.fills[i].clientOrderId in db.orders
  }

  // Filled quantity less recorded legs, for an order that exists.
  function Balance(db: Db, k: string): real {
    if k in db.orders then Reconciliation.Unrecorded(db, k) else 0.0
  }

  lemma {:induction false} NoLegs(fills: seq<FillRow>, k: string)
    requires forall i | 0 <= i < |fills| :: fills[i].clientOrderId != k
    ensures LegTotal(fills, k) == 0.0
  {
    if fills != [] { NoLegs(fills[..|fills| - 1], k); }
  }

  // The execution gets a fill row.
  predicate WritesFillRow(cfg: Settings, db: Db, d: Delivery) {
    d.response.Accepted? && NonZero(d.response.fillPrice).Some? && NonZero(d.response.fillQty).Some? &&
    !HasFill(db.fills, cfg.accountId, NewFill(cfg, d).exchangeTradeId)
  }

  // What a new order is booked with but has no fill row for.
  function UnrecordedExecution(cfg: Settings, db: Db, d: Delivery): real
    requires d.response.Accepted?
  {
    if WritesFillRow(cfg, db, d) then 0.0 else OrZero(d.response.fillQty)
  }

  predicate CreatesOrder(db: Db, d: Delivery) {
    d.intent.clientOrderId !in db.orders && OwnsRow(db, Ref(d))
  }

  lemma PersistedRows(cfg: Settings, db: Db, d: Delivery)
    requires d.response.Accepted?
    ensures var out := Persist(cfg, db, d);
      && out.orders ==
           (if CreatesOrder(db, d) then db.orders[d.intent.clientOrderId := NewOrder(cfg, d)] else db.orders)
      && out.fills ==
           (if CreatesOrder(db, d) && WritesFillRow(cfg, db, d) then db.fills + [NewFill(cfg, d)] else db.fills)
  {
  }

  lemma NewOrderBalance(cfg: Settings, db: Db, d: Delivery, k: string)
    requires d.response.Accepted? && FillsHaveOrders(db) && CreatesOrder(db, d)
    ensures Balance(Persist(cfg, db, d), k)
         == Balance(db, k) + (if k == d.intent.clientOrderId then UnrecordedExecution(cfg, db, d) else 0.0)
  {
    PersistedRows(cfg, db, d);
    if k == d.intent.clientOrderId { NoLegs(db.fills, k); }
    if WritesFillRow(cfg, db, d) { LegTotalAppend(db.fills, NewFill(cfg, d), k); }
  }

  lemma PersistBooks(cfg: Settings, db: Db, d: Delivery, k: string)
    requires d.response.Accepted? && FillsHaveOrders(db)
    ensures FillsHaveOrders(Persist(cfg, db, d))
    ensures Balance(Persist(cfg, db, d), k) == Balance(db, k) +
      (if k == d.intent.clientOrderId && CreatesOrder(db, d) then UnrecordedExecution(cfg, db, d) else 0.0)
  {
    PersistedRows(cfg, db, d);
    if CreatesOrder(db, d) { NewOrderBalance(cfg, db, d, k); }
  }

  // The part of an order's total that one action books without a leg: an execution that creates the
  // order, because its job is new, or a lossy final fill event.
  function Loss(cfg: Settings, s: State, a: Action, k: string): real {
    match a
    case Deliver(d) =>
      if OutcomeOf(cfg, s, d) == Executed && k == d.intent.clientOrderId
        && CreatesOrder(AddJob(s.db, Ref(d), cfg.accountId), d)
      then UnrecordedExecution(cfg, s.db, d) else 0.0
    case Update(e) => if k in s.db.orders && Reconciliation.Lossy(s.db, e, k) then Reconciliation.Leg(s.db, e) else 0.0
    case _ => 0.0
  }

  lemma ApprovalKeepsRows(db: Db, d: Delivery)
    ensures var mid := Acknowledge(WriteStatus(db, Ref(d), Approved, None), d);
      mid.orders == db.orders && mid.fills == db.fills && (OwnsRow(mid, Ref(d)) <==> OwnsRow(db, Ref(d)))
  {
  }

  lemma OtherOutcomesKeepRows(cfg: Settings, db: Db, d: Delivery, outcome: Outcome)
    requires outcome != Executed && (outcome == SubmitFailed ==> !d.response.Accepted?)
    ensures DbAfter(cfg, db, d, outcome).orders == db.orders && DbAfter(cfg, db, d, outcome).fills == db.fills
  {
  }

  lemma ExecutionBooks(cfg: Settings, before: Db, d: Delivery, k: string)
    requires d.response.Accepted? && FillsHaveOrders(before)
    ensures var db := AddJob(before, Ref(d), cfg.accountId);
      && FillsHaveOrders(AfterApproval(cfg, db, d))
      && Balance(AfterApproval(cfg, db, d), k) == Balance(before, k) +
           (if k == d.intent.clientOrderId && CreatesOrder(db, d) then UnrecordedExecution(cfg, before, d) else 0.0)
  {
    var db := AddJob(before, Ref(d), cfg.accountId);
    ApprovalKeepsRows(db, d);
    PersistBooks(cfg, Acknowledge(WriteStatus(db, Ref(d), Approved, None), d), d, k);
  }

  lemma DeliveryBooks(cfg: Settings, s: State, d: Delivery, k: string)
    requires FillsHaveOrders(s.db)
    ensures var out := Process(cfg, s, d).db;
      FillsHaveOrders(out) && Balance(out, k) == Balance(s.db, k) + Loss(cfg, s, Deliver(d), k)
  {
    var outcome := OutcomeOf(cfg, s, d);
    if outcome == Executed { ExecutionBooks(cfg, s.db, d, k); } else { OtherOutcomesKeepRows(cfg, s.db, d, outcome); }
  }

  lemma UpdateBooks(cfg: Settings, s: State, e: Reconciliation.OrderUpdate, k: string)
    requires FillsHaveOrders(s.db)
    ensures var out := Reconciliation.Step(s.db, e);
      FillsHaveOrders(out) && Balance(out, k) == Balance(s.db, k) + Loss(cfg, s, Update(e), k)
  {
    Reconciliation.StepFrame(s.db, e);
    Reconciliation.NewFillsAreOfTheOrder(s.db, e);
    if k in s.db.orders { Reconciliation.StepConserves(s.db, e, k); }
  }

  function LossTotal(cfg: Settings, s: State, acts: seq<Action>, k: string): real {
    if acts == [] then 0.0
    else LossTotal(cfg, s, acts[..|acts| - 1], k) + Loss(cfg, RunAll(cfg, s, acts[..|acts| - 1]), acts[|acts| - 1], k)
  }

  lemma {:induction false} BooksBalance(cfg: Settings, s: State, acts: seq<Action>, k: string)
    requires FillsHaveOrders(s.db)
    ensures FillsHaveOrders(RunAll(cfg, s, acts).db)
    ensures Balance(RunAll(cfg, s, acts).db, k) == Balance(s.db, k) + LossTotal(cfg, s, acts, k)
  {
    if acts != [] {
      var init, last := acts[..|acts| - 1], acts[|acts| - 1];
      BooksBalance(cfg, s, init, k);
      match last {
        case Deliver(d) => DeliveryBooks(cfg, RunAll(cfg, s, init), d, k);
        case Update(e) => UpdateBooks(cfg, RunAll(cfg, s, init), e, k);
        case SetStop(_, _) =>
        case ClearStop(_) =>
      }
    }
  }

  // From empty tables, every order's filled quantity is the sum of its legs, plus what executions booked
  // without a fill row and what lossy final fill events moved.
  lemma FilledQtyOfARun(cfg: Settings, acts: seq<Action>, k: string)
    requires k in RunAll(cfg, EMPTY, acts).db.orders
    ensures var db := RunAll(cfg, EMPTY, acts).db;
      db.orders[k].filledQty == LegTotal(db.fills, k) + LossTotal(cfg, EMPTY, acts, k)
  {
    BooksBalance(cfg, EMPTY, acts, k);
  }

  // ---- Which orders stay open ----

  // The trade id the consumer would have recorded for order k is that of another order's fill.
  ghost predicate Collided(db: Db, k: string)
    requires k in db.orders
  {
    exists i | 0 <= i < |db.fills| :: CollidesWith(db.orders[k], k, db.fills[i])
  }

  // An exchange order id serves as trade id; without one a generated id does.
  predicate CollidesWith(order: OrderRow, k: string, f: FillRow) {
    && f.clientOrderId != k && f.accountId == order.accountId
    && (order.exchangeOrderId.Some? && order.exchangeOrderId.value != "" ==>
      f.exchangeTradeId == order.exchangeOrderId.value)
  }

  ghost predicate OpenOrdersCollided(db: Db) {
    forall k | k in db.orders && k in db.jobs && !IsTerminal(db.jobs[k].status) :: Collided(db, k)
  }

  lemma CollisionsStay(db: Db, out: Db, k: string)
    requires k in db.orders && k in out.orders && Collided(db, k) && db.fills <= out.fills
    requires out.orders[k].accountId == db.orders[k].accountId
    requires out.orders[k].exchangeOrderId == db.orders[k].exchangeOrderId
    ensures Collided(out, k)
  {
    var i :| 0 <= i < |db.fills| && CollidesWith(db.orders[k], k, db.fills[i]);
    assert CollidesWith(out.orders[k], k, out.fills[i]);
  }

  lemma UpdateKeepsCollisions(db: Db, e: Reconciliation.OrderUpdate)
    requires OpenOrdersCollided(db) && OrdersSettle(db)
    ensures OpenOrdersCollided(Reconciliation.Step(db, e))
  {
    var out := Reconciliation.Step(db, e);
    Reconciliation.StepFrame(db, e);
    forall k | k in out.orders && k in out.jobs && !IsTerminal(out.jobs[k].status) ensures Collided(out, k) {
      Reconciliation.StepKeepsOrderIds(db, e, k);
      CollisionsStay(db, out, k);
    }
  }

  lemma NewOpenOrderCollided(cfg: Settings, s: State, d: Delivery)
    requires FillsHaveOrders(s.db) && OutcomeOf(cfg, s, d) == Executed && !EndsFilled(cfg, s.db, d)
    requires d.intent.clientOrderId !in s.db.jobs && d.intent.clientOrderId !in s.db.orders
    ensures var k, out := d.intent.clientOrderId, Process(cfg, s, d).db; k in out.orders && Collided(out, k)
  {
    var k, out, id := d.intent.clientOrderId, Process(cfg, s, d).db, NewFill(cfg, d).exchangeTradeId;
    ExecutedRows(cfg, s, d);
    var i :| 0 <= i < |s.db.fills| && SameTrade(s.db.fills[i], cfg.accountId, id);
    assert CollidesWith(out.orders[k], k, out.fills[i]);
  }

  // The order and fill rows after an execution of an intent without a job.
  lemma ExecutedRows(cfg: Settings, s: State, d: Delivery)
    requires OutcomeOf(cfg, s, d) == Executed
    requires d.intent.clientOrderId !in s.db.jobs && d.intent.clientOrderId !in s.db.orders
    ensures var out := Process(cfg, s, d).db;
      && out.orders == s.db.orders[d.intent.clientOrderId := NewOrder(cfg, d)]
      && out.fills == if WritesFillRow(cfg, s.db, d) then s.db.fills + [NewFill(cfg, d)] else s.db.fills
  {
    var db := AddJob(s.db, Ref(d), cfg.accountId);
    ApprovalKeepsRows(db, d);
    PersistedRows(cfg, Acknowledge(WriteStatus(db, Ref(d), Approved, None), d), d);
  }

  lemma DeliveryKeepsCollisions(cfg: Settings, s: State, d: Delivery)
    requires OpenOrdersCollided(s.db) && OrdersSettle(s.db) && FillsHaveOrders(s.db) && FreshJob(s.db, d)
    ensures OpenOrdersCollided(Process(cfg, s, d).db)
  {
    var own, out := d.intent.clientOrderId, Process(cfg, s, d).db;
    if own in s.db.jobs {
      ResubmissionIsUnrecorded(cfg, s, d);
    } else {
      NewJobSettles(cfg, s, d);
      forall k | k in out.orders && k in out.jobs && !IsTerminal(out.jobs[k].status) ensures Collided(out, k) {
        if k == own {
          NewOpenOrderCollided(cfg, s, d);
        } else {
          DeliveryLeavesOtherOrders(cfg, s.db, d, OutcomeOf(cfg, s, d), k);
          DeliveryLeavesOldRows(cfg, s.db, d, OutcomeOf(cfg, s, d), k);
          CollisionsStay(s.db, out, k);
        }
      }
    }
  }

  lemma {:induction false} CollisionsAreKept(cfg: Settings, s: State, acts: seq<Action>)
    requires OpenOrdersCollided(s.db) && OrdersSettle(s.db) && FillsHaveOrders(s.db) && FreshRun(cfg, s, acts)
    ensures OpenOrdersCollided(RunAll(cfg, s, acts).db)
  {
    if acts != [] {
      var init, last := acts[..|acts| - 1], acts[|acts| - 1];
      FreshPrefix(cfg, s, acts);
      CollisionsAreKept(cfg, s, init);
      OrdersAlwaysSettle(cfg, s, init);
      BooksBalance(cfg, s, init, "");
      match last {
        case Deliver(d) => DeliveryKeepsCollisions(cfg, RunAll(cfg, s, init), d);
        case Update(e) => UpdateKeepsCollisions(RunAll(cfg, s, init).db, e);
        case SetStop(_, _) =>
        case ClearStop(_) =>
      }
    }
  }

  // The only orders that any run from empty tables leaves for the reconciler to move are those whose
  // trade id collided with another order's fill.
  lemma OnlyCollidedOrdersStayOpen(cfg: Settings, acts: seq<Action>, k: string)
    requires FreshRun(cfg, EMPTY, acts)
    requires var db := RunAll(cfg, EMPTY, acts).db; k in db.orders && k in db.jobs && !IsTerminal(db.jobs[k].status)
    ensures Collided(RunAll(cfg, EMPTY, acts).db, k)
  {
    CollisionsAreKept(cfg, EMPTY, acts);
  }

  // ---- A run that loses a leg ----

  lemma FirstExecution(cfg: Settings, d: Delivery)
    requires Unobjected(d) && WritesFillRow(cfg, EMPTY.db, d)
    ensures Process(cfg, EMPTY, d).db.fills == [NewFill(cfg, d)]
  {
    ExecutedExactly(cfg, EMPTY, d);
    ExecutedRows(cfg, EMPTY, d);
  }

  lemma CollidingExecution(cfg: Settings, s: State, e: Delivery)
    requires OutcomeOf(cfg, s, e) == Executed
    requires e.intent.clientOrderId !in s.db.jobs && e.intent.clientOrderId !in s.db.orders
    requires NonZero(e.response.fillPrice).Some? && NonZero(e.response.fillQty).Some?
    requires HasFill(s.db.fills, cfg.accountId, NewFill(cfg, e).exchangeTradeId)
    ensures var k, db := e.intent.clientOrderId, Process(cfg, s, e).db;
      && k in db.jobs && db.jobs[k].status == Acknowledged && db.jobs[k].accountId == cfg.accountId
      && k in db.orders && db.orders[k] == NewOrder(cfg, e) && db.fills == s.db.fills
  {
    ExecutedRows(cfg, s, e);
    NewJobSettles(cfg, s, e);
  }

  lemma SecondExecutionCollides(cfg: Settings, d: Delivery, e: Delivery)
    requires Unobjected(d) && Unobjected(e) && d.intent.clientOrderId != e.intent.clientOrderId
    requires d.intent.symbol != e.intent.symbol
    requires WritesFillRow(cfg, EMPTY.db, d) && NonZero(e.response.fillPrice).Some? && NonZero(e.response.fillQty).Some?
    requires NewFill(cfg, e).exchangeTradeId == NewFill(cfg, d).exchangeTradeId
    ensures var k, db := e.intent.clientOrderId, Process(cfg, Process(cfg, EMPTY, d), e).db;
      && k in db.jobs && db.jobs[k].status == Acknowledged && db.jobs[k].accountId == cfg.accountId
      && k in db.orders && db.orders[k] == NewOrder(cfg, e) && db.fills == [NewFill(cfg, d)]
      && k !in Process(cfg, EMPTY, d).db.jobs
  {
    FirstExecution(cfg, d);
    OneJobRow(cfg, d);
    SecondIntentExecutes(cfg, d, e);
    assert SameTrade([NewFill(cfg, d)][0], cfg.accountId, NewFill(cfg, e).exchangeTradeId);
    CollidingExecution(cfg, Process(cfg, EMPTY, d), e);
  }

  lemma OneJobRow(cfg: Settings, d: Delivery)
    ensures Process(cfg, EMPTY, d).db.jobs.Keys <= {d.intent.clientOrderId}
    ensures Process(cfg, EMPTY, d).db.orders.Keys <= {d.intent.clientOrderId}
  {
  }

  lemma SecondIntentExecutes(cfg: Settings, d: Delivery, e: Delivery)
    requires Unobjected(e) && d.intent.clientOrderId != e.intent.clientOrderId && d.intent.symbol != e.intent.symbol
    ensures OutcomeOf(cfg, Process(cfg, EMPTY, d), e) == Executed
  {
    ExecutedExactly(cfg, Process(cfg, EMPTY, d), e);
  }

  // Two orders on two symbols, both numbered 77 by the exchange and both filled for 1 when placed.
  function FirstOf77(): Delivery {
    var accepted := Accepted(Some("77"), Some(100.0), Some(1.0), Some(0.0), "USDT");
    Delivery(TradeIntent("tp2-a", "BTCUSDT", "BUY", 1.0), 1, "", 0, 0, 0, 0, false, AllSevenPass(), accepted)
  }

  function SecondOf77(): Delivery {
    FirstOf77().(intent := TradeIntent("tp2-b", "ETHUSDT", "BUY", 2.0), jobId := 2)
  }

  // The rest of the second order: 1.5 of 2, and 2 of 2 in the same millisecond.
  function PartOfSecond(): Reconciliation.OrderUpdate {
    Reconciliation.OrderUpdate("tp2-b", "77", Reconciliation.PartialFill, 1.5, 2.0, 100.0, 0.0, "USDT", 0.0,
                               1700000000000, "ETHUSDT")
  }

  function RestOfSecond(): Reconciliation.OrderUpdate {
    PartOfSecond().(status := Reconciliation.FullFill, filledQty := 2.0)
  }

  function LosingRun(): seq<Action> {
    [Deliver(FirstOf77()), Deliver(SecondOf77()), Update(PartOfSecond()), Update(RestOfSecond())]
  }

  // After the two deliveries the second order is open at 1 of 2, and has no leg.
  lemma BothAreExecuted(cfg: Settings)
    ensures var mid := Process(cfg, EMPTY, FirstOf77());
      var k, db := "tp2-b", Process(cfg, mid, SecondOf77()).db;
      && k !in mid.db.jobs && k in db.jobs && db.jobs[k].status == Acknowledged
      && k in db.orders && db.orders[k].filledQty == 1.0 && LegTotal(db.fills, k) == 0.0
      && |db.fills| == 1 && db.fills[0].exchangeTradeId == "77"
  {
    SevenChecksPass();
    SecondExecutionCollides(cfg, FirstOf77(), SecondOf77());
    NoLegs(Process(cfg, Process(cfg, EMPTY, FirstOf77()), SecondOf77()).db.fills, "tp2-b");
  }

  lemma TradeIdIsLonger(e: Reconciliation.OrderUpdate)
    ensures Reconciliation.TradeId(e) != e.exchangeOrderId
  {
    TradeIds.LastColon(e.exchangeOrderId, e.tradeTimeMs);
  }

  lemma LastLegIsLost(db: Db, part: Reconciliation.OrderUpdate, rest: Reconciliation.OrderUpdate)
    requires part == PartOfSecond() && rest == RestOfSecond()
    requires var k := part.clientOrderId;
      && k in db.jobs && db.jobs[k].status == Acknowledged
      && k in db.orders && db.orders[k].filledQty == 1.0 && LegTotal(db.fills, k) == 0.0
      && |db.fills| == 1 && db.fills[0].exchangeTradeId == part.exchangeOrderId
    ensures var k, out := part.clientOrderId, Reconciliation.Run(db, [part, rest]);
      && k in out.orders && out.orders[k].filledQty == 2.0 && LegTotal(out.fills, k) == 0.5
      && k in out.jobs && out.jobs[k].status == Filled
  {
    TradeIdIsLonger(part);
    Reconciliation.SharedTradeIdLosesTheFinalLeg(db, part, rest);
  }

  lemma LosingRunIsClocked()
    ensures Clocked(LosingRun())
  {
  }

  // Filled quantity 2, legs of 0.5: the execution of the second order collided with the first, and its
  // final leg with its partial one.
  lemma FinalFillLosesItsLegInARun(cfg: Settings)
    ensures Clocked(LosingRun()) && FreshRun(cfg, EMPTY, LosingRun())
    ensures var k, db := "tp2-b", RunAll(cfg, EMPTY, LosingRun()).db;
      && k in db.orders && db.orders[k].filledQty == 2.0 && LegTotal(db.fills, k) == 0.5
      && k in db.jobs && db.jobs[k].status == Filled
  {
    LosingRunIsClocked();
    BothAreExecuted(cfg);
    LastLegIsLost(Process(cfg, Process(cfg, EMPTY, FirstOf77()), SecondOf77()).db, PartOfSecond(), RestOfSecond());
    TwoDeliveriesTwoUpdates(cfg, FirstOf77(), SecondOf77(), PartOfSecond(), RestOfSecond());
  }

  lemma TwoDeliveriesTwoUpdates(
    cfg: Settings, d: Delivery, e: Delivery, f: Reconciliation.OrderUpdate, g: Reconciliation.OrderUpdate)
    requires e.intent.clientOrderId !in Process(cfg, EMPTY, d).db.jobs
    ensures var acts := [Deliver(d), Deliver(e), Update(f), Update(g)];
      && FreshRun(cfg, EMPTY, acts)
      && RunAll(cfg, EMPTY, acts).db == Reconciliation.Run(Process(cfg, Process(cfg, EMPTY, d), e).db, [f, g])
  {
    Reconciliation.RunOfTwo(Process(cfg, Process(cfg, EMPTY, d), e).db, f, g);
    FourActions(cfg, EMPTY, Deliver(d), Deliver(e), Update(f), Update(g));
    FreshPairRun(cfg, d, e, f, g);
  }

  lemma OneMoreAction(cfg: Settings, s: State, acts: seq<Action>, a: Action)
    ensures RunAll(cfg, s, acts + [a]) == Act(cfg, RunAll(cfg, s, acts), a)
  {
    assert (acts + [a])[..|acts|] == acts;
  }

  lemma FourActions(cfg: Settings, s: State, a: Action, b: Action, c: Action, d: Action)
    ensures RunAll(cfg, s, [a, b, c, d]) == Act(cfg, Act(cfg, Act(cfg, Act(cfg, s, a), b), c), d)
  {
    PairOfActions(cfg, s, a, b);
    OneMoreAction(cfg, s, [a, b], c);
    OneMoreAction(cfg, s, [a, b, c], d);
    assert [a, b] + [c] == [a, b, c] && [a, b, c] + [d] == [a, b, c, d];
  }

  lemma FreshPairRun(cfg: Settings, d: Delivery, e: Delivery, f: Reconciliation.OrderUpdate,
      g: Reconciliation.OrderUpdate)
    requires e.intent.clientOrderId !in Process(cfg, EMPTY, d).db.jobs
    ensures FreshRun(cfg, EMPTY, [Deliver(d), Deliver(e), Update(f), Update(g)])
  {
    var acts := [Deliver(d), Deliver(e), Update(f), Update(g)];
    assert acts[..0] == [] && acts[..1] == [Deliver(d)] && [Deliver(d)][..0] == [];
    assert RunAll(cfg, EMPTY, acts[..0]) == EMPTY && RunAll(cfg, EMPTY, acts[..1]) == Process(cfg, EMPTY, d);
  }
}
