// Whole runs of the execution service: intent deliveries, exchange order updates and operator
// stops, in any sequence.  Deliveries and updates are processed one at a time.
module ExecutionRuns {
  import opened Wrappers
  import opened JobLifecycle
  import opened ExecutionTables
  import opened RedisKeys
  import opened RiskGate
  import opened ExecutionConsumer
  import Reconciliation

  datatype Action =
    | Deliver(delivery: Delivery)
    | Update(event: Reconciliation.OrderUpdate)
    | SetStop(key: Key, expiresAt: int)
    | ClearStop(key: Key)

  // Operators set and clear the four switches; they neither hold locks nor clear cooldowns.
  predicate IsSwitch(key: Key) {
    !key.JobLock? && !key.SymbolCooldown?
  }

  function Act(cfg: Settings, s: State, a: Action): State {
    match a
    case Deliver(d) => Process(cfg, s, d)
    case Update(e) => s.(db := Reconciliation.Step(s.db, e))
    case SetStop(key, expiresAt) => if IsSwitch(key) then s.(keys := s.keys[key := expiresAt]) else s
    case ClearStop(key) => if IsSwitch(key) then s.(keys := s.keys - {key}) else s
  }

  function RunAll(cfg: Settings, s: State, acts: seq<Action>): State {
    if acts == [] then s else Act(cfg, RunAll(cfg, s, acts[..|acts| - 1]), acts[|acts| - 1])
  }

  // The outcome of the delivery at position i of a run.
  function OutcomeAt(cfg: Settings, s: State, acts: seq<Action>, i: nat): Outcome
    requires i < |acts| && acts[i].Deliver?
  {
    OutcomeOf(cfg, RunAll(cfg, s, acts[..i]), acts[i].delivery)
  }

  predicate ReachedAdapter(o: Outcome) {
    o == SubmitFailed || o == Executed
  }

  // The clock never runs backwards, within a delivery or between two of them.
  ghost predicate Clocked(acts: seq<Action>) {
    && (forall i | 0 <= i < |acts| && acts[i].Deliver? ::
          acts[i].delivery.lockAt <= acts[i].delivery.gateAt <= acts[i].delivery.cooldownAt)
    && (forall i, j | 0 <= i < j < |acts| && acts[i].Deliver? && acts[j].Deliver? ::
          acts[i].delivery.cooldownAt <= acts[j].delivery.lockAt)
  }

  lemma ClockedPair(d: Delivery, e: Delivery)
    requires d.lockAt <= d.gateAt <= d.cooldownAt <= e.lockAt <= e.gateAt <= e.cooldownAt
    ensures Clocked([Deliver(d), Deliver(e)])
  {
  }

  lemma ClockedPrefix(acts: seq<Action>, n: nat)
    requires Clocked(acts) && n <= |acts|
    ensures Clocked(acts[..n])
  {
  }

  // ---- Separation in time ----

  // The earliest expiry a delivery could give a key.
  function NewExpiry(cfg: Settings, d: Delivery, key: Key): int
    requires !IsSwitch(key)
  {
    if key.JobLock? then d.lockAt + cfg.jobLockTtl else d.cooldownAt + cfg.symbolCooldown
  }

  predicate ExpiresFrom(keys: Keys, key: Key, t: int) {
    key in keys && keys[key] >= t
  }

  lemma ActKeepsExpiry(cfg: Settings, s: State, a: Action, key: Key, t: int)
    requires !IsSwitch(key) && ExpiresFrom(s.keys, key, t) && (a.Deliver? ==> t <= NewExpiry(cfg, a.delivery, key))
    ensures ExpiresFrom(Act(cfg, s, a).keys, key, t)
  {
    if a.Deliver? { KeysKeepExpiry(cfg, s.keys, a.delivery, OutcomeOf(cfg, s, a.delivery), key, t); }
  }

  lemma KeysKeepExpiry(cfg: Settings, keys: Keys, d: Delivery, outcome: Outcome, key: Key, t: int)
    requires !IsSwitch(key) && ExpiresFrom(keys, key, t) && t <= NewExpiry(cfg, d, key)
    ensures ExpiresFrom(KeysAfter(cfg, keys, d, outcome), key, t)
  {
  }

  // A key written during the delivery at position i with an expiry of at least t keeps an expiry
  // of at least t through the rest of the run.
  lemma {:induction false} ExpiryNeverShrinks(cfg: Settings, s: State, acts: seq<Action>, i: nat, key: Key, t: int)
    requires i < |acts| && acts[i].Deliver? && Clocked(acts) && !IsSwitch(key)
      && t <= NewExpiry(cfg, acts[i].delivery, key)
    requires ExpiresFrom(RunAll(cfg, s, acts[..i + 1]).keys, key, t)
    ensures ExpiresFrom(RunAll(cfg, s, acts).keys, key, t)
  {
    if i + 1 == |acts| {
      assert acts[..i + 1] == acts;
    } else {
      var init := acts[..|acts| - 1];
      assert init[..i + 1] == acts[..i + 1];
      ClockedPrefix(acts, |acts| - 1);
      ExpiryNeverShrinks(cfg, s, init, i, key, t);
      ActKeepsExpiry(cfg, RunAll(cfg, s, init), acts[|acts| - 1], key, t);
    }
  }

  // After an execution on a symbol, no intent on that symbol passes the gate until the cooldown
  // is over, whatever intents, updates and switches come between.
  lemma CooldownSeparatesExecutions(cfg: Settings, s: State, acts: seq<Action>, i: nat, j: nat)
    requires i < j < |acts| && acts[i].Deliver? && acts[j].Deliver? && Clocked(acts)
    requires acts[i].delivery.intent.symbol == acts[j].delivery.intent.symbol
    requires OutcomeAt(cfg, s, acts, i) == Executed
    requires ReachedAdapter(OutcomeAt(cfg, s, acts, j))
    ensures acts[j].delivery.gateAt >= acts[i].delivery.cooldownAt + cfg.symbolCooldown
  {
    var d, e := acts[i].delivery, acts[j].delivery;
    var key, prefix := SymbolCooldown(cfg.accountId, e.intent.symbol), acts[..j];
    ClockedPrefix(acts, j);
    assert prefix[..i] == acts[..i] && prefix[..i + 1] == acts[..i + 1];
    assert acts[..i + 1][..i] == acts[..i];
    ExpiryNeverShrinks(cfg, s, prefix, i, key, d.cooldownAt + cfg.symbolCooldown);
    var before := RunAll(cfg, s, prefix);
    var keys := Locked(cfg, before.keys, e);
    assert HardStops(cfg.accountId, e.intent.symbol)[4] == key;
    assert !Live(keys, key, e.gateAt);
  }

  // Positions of executions on one symbol, in order.
  ghost predicate ExecutionsOn(cfg: Settings, s: State, acts: seq<Action>, symbol: string, at: seq<nat>) {
    && (forall a | 0 <= a < |at| :: ExecutionAt(cfg, s, acts, symbol, at[a]))
    && (forall a, b | 0 <= a < b < |at| :: at[a] < at[b])
  }

  ghost predicate ExecutionAt(cfg: Settings, s: State, acts: seq<Action>, symbol: string, i: nat) {
    i < |acts| && acts[i].Deliver? && acts[i].delivery.intent.symbol == symbol && OutcomeAt(cfg, s, acts, i) == Executed
  }

  lemma NextExecution(cfg: Settings, s: State, acts: seq<Action>, symbol: string, i: nat, j: nat)
    requires Clocked(acts) && i < j && ExecutionAt(cfg, s, acts, symbol, i) && ExecutionAt(cfg, s, acts, symbol, j)
    ensures acts[j].delivery.cooldownAt >= acts[j].delivery.gateAt >= acts[i].delivery.cooldownAt + cfg.symbolCooldown
  {
    CooldownSeparatesExecutions(cfg, s, acts, i, j);
  }

  // c added up n times.
  function Repeated(n: nat, c: int): (sum: int)
    ensures sum == n * c
  {
    if n == 0 then 0 else Repeated(n - 1, c) + c
  }

  lemma ExecutionsBeforeTheLast(cfg: Settings, s: State, acts: seq<Action>, symbol: string, at: seq<nat>)
    requires |at| > 1 && ExecutionsOn(cfg, s, acts, symbol, at)
    ensures ExecutionsOn(cfg, s, acts, symbol, at[..|at| - 1])
    ensures ExecutionAt(cfg, s, acts, symbol, at[|at| - 2]) && ExecutionAt(cfg, s, acts, symbol, at[|at| - 1])
    ensures at[|at| - 2] < at[|at| - 1]
  {
  }

  // However many there are, n executions on a symbol span at least n - 1 cooldowns.
  lemma {:induction false} ExecutionsAreSpaced(cfg: Settings, s: State, acts: seq<Action>, symbol: string, at: seq<nat>)
    requires Clocked(acts) && at != [] && ExecutionsOn(cfg, s, acts, symbol, at)
    ensures ExecutionAt(cfg, s, acts, symbol, at[0]) && ExecutionAt(cfg, s, acts, symbol, at[|at| - 1])
    ensures var first, last := acts[at[0]].delivery, acts[at[|at| - 1]].delivery;
      && last.cooldownAt >= first.cooldownAt + Repeated(|at| - 1, cfg.symbolCooldown)
      && (|at| > 1 ==> last.gateAt >= first.cooldownAt + Repeated(|at| - 1, cfg.symbolCooldown))
  {
    if |at| > 1 {
      ExecutionsBeforeTheLast(cfg, s, acts, symbol, at);
      ExecutionsAreSpaced(cfg, s, acts, symbol, at[..|at| - 1]);
      NextExecution(cfg, s, acts, symbol, at[|at| - 2], at[|at| - 1]);
    }
  }

  // One client order id reaches the adapter at most once per lock lifetime.
  lemma LockSeparatesSubmissions(cfg: Settings, s: State, acts: seq<Action>, i: nat, j: nat)
    requires i < j < |acts| && acts[i].Deliver? && acts[j].Deliver? && Clocked(acts)
    requires acts[i].delivery.intent.clientOrderId == acts[j].delivery.intent.clientOrderId
    requires OutcomeAt(cfg, s, acts, i) != Duplicate && OutcomeAt(cfg, s, acts, j) != Duplicate
    ensures acts[j].delivery.lockAt >= acts[i].delivery.lockAt + cfg.jobLockTtl
  {
    var d, e := acts[i].delivery, acts[j].delivery;
    var prefix := acts[..j];
    ClockedPrefix(acts, j);
    assert prefix[..i + 1] == acts[..i + 1] && acts[..i + 1][..i] == acts[..i];
    ExpiryNeverShrinks(cfg, s, prefix, i, JobLock(d.intent.clientOrderId), d.lockAt + cfg.jobLockTtl);
  }

  // The lock is the only barrier: the job row of an earlier execution stops nothing.  An intent, delivered
  // before or not, is submitted exactly when its lock is free and the gate lets it through.
  lemma ResubmittedExactlyAfterTheLock(cfg: Settings, s: State, d: Delivery)
    ensures ReachedAdapter(OutcomeOf(cfg, s, d)) <==>
      && !Live(s.keys, JobLock(d.intent.clientOrderId), d.lockAt)
      && !d.riskRaises
      && GateOpen(s.keys, cfg.accountId, d.intent.symbol, d.results, d.gateAt)
  {
    var lock := JobLock(d.intent.clientOrderId);
    var keys := Locked(cfg, s.keys, d);
    var stops := HardStops(cfg.accountId, d.intent.symbol);
    forall i | 0 <= i < |stops| ensures Live(keys, stops[i], d.gateAt) <==> Live(s.keys, stops[i], d.gateAt) {
      assert stops[i] != lock;
    }
  }

  // Such a second submission leaves no trace in the tables: its job id has no row to write to.
  lemma ResubmissionIsUnrecorded(cfg: Settings, s: State, d: Delivery)
    requires d.intent.clientOrderId in s.db.jobs && s.db.jobs[d.intent.clientOrderId].id != d.jobId
    ensures Process(cfg, s, d).db == s.db
  {
  }

  const EMPTY: State := State(Db(map[], map[], [], []), map[])

  // Two deliveries to a service that starts empty, both executed.
  ghost predicate ExecutesTwice(cfg: Settings, acts: seq<Action>) {
    && |acts| == 2 && Clocked(acts) && acts[0].Deliver? && acts[1].Deliver?
    && acts[0].delivery.intent == acts[1].delivery.intent
    && OutcomeAt(cfg, EMPTY, acts, 0) == Executed && OutcomeAt(cfg, EMPTY, acts, 1) == Executed
  }

  // Neither the risk engine, nor a check, nor the adapter objects.
  predicate Unobjected(d: Delivery) {
    !d.riskRaises && d.response.Accepted? && forall r | r in d.results :: r.passed
  }

  lemma ExecutedExactly(cfg: Settings, s: State, d: Delivery)
    ensures OutcomeOf(cfg, s, d) == Executed <==>
      && !Live(s.keys, JobLock(d.intent.clientOrderId), d.lockAt)
      && Unobjected(d) && NoLiveStop(s.keys, cfg.accountId, d.intent.symbol, d.gateAt)
  {
    ResubmittedExactlyAfterTheLock(cfg, s, d);
  }

  // An intent delivered twice is executed twice exactly if nothing objects to either delivery, the lock
  // of the first has expired when the second asks for it, and so has the cooldown when its gate is evaluated.
  lemma ExecutesTwiceExactly(cfg: Settings, d: Delivery, e: Delivery)
    requires d.intent == e.intent && Clocked([Deliver(d), Deliver(e)])
    ensures ExecutesTwice(cfg, [Deliver(d), Deliver(e)]) <==>
      && Unobjected(d) && Unobjected(e)
      && e.lockAt >= d.lockAt + cfg.jobLockTtl && e.gateAt >= d.cooldownAt + cfg.symbolCooldown
  {
    var acts := [Deliver(d), Deliver(e)];
    var cooldown := SymbolCooldown(cfg.accountId, d.intent.symbol);
    assert acts[..0] == [] && acts[..1] == [Deliver(d)] && [Deliver(d)][..0] == [];
    assert RunAll(cfg, EMPTY, acts[..0]) == EMPTY && RunAll(cfg, EMPTY, acts[..1]) == Process(cfg, EMPTY, d);
    ExecutedExactly(cfg, EMPTY, d);
    if Unobjected(d) {
      var mid := Process(cfg, EMPTY, d);
      ExecutedExactly(cfg, mid, e);
      assert HardStops(cfg.accountId, d.intent.symbol)[4] == cooldown;
    }
  }

  // The seven structural checks of the engine, in order.
  function CheckNames(): seq<string> {
    ["symbol_policy", "trading_mode", "missing_account_context", "max_position_size", "unsupported_order_type",
     "max_daily_loss", "max_concurrent_exposure"]
  }

  function AllSevenPass(): seq<CheckResult> {
    seq(7, i requires 0 <= i < 7 => CheckResult(CheckNames()[i], true, ""))
  }

  lemma SevenChecksPass()
    ensures |AllSevenPass()| == 7 && forall r | r in AllSevenPass() :: r.passed
  {
  }

  ghost predicate AllChecksPass(acts: seq<Action>) {
    forall i | 0 <= i < |acts| :: acts[i].Deliver? && acts[i].delivery.results == AllSevenPass()
  }

  // A run in which one client order id is accepted by the adapter twice, 400 seconds apart, although all
  // seven checks are made both times.
  lemma OneIntentCanExecuteTwice()
    ensures exists cfg: Settings, acts: seq<Action> ::
      && ExecutesTwice(cfg, acts) && cfg.jobLockTtl == 30 && cfg.symbolCooldown == 300
      && AllChecksPass(acts)
  {
    var cfg := Settings("5b1f0a52-0000-4000-8000-000000000001", 30, 300);
    var intent := TradeIntent("tp2-8c1d", "BTCUSDT", "BUY", 1.0);
    var accepted := Accepted(Some("paper-1"), Some(100.0), Some(1.0), Some(0.0), "USDT");
    var first := Delivery(intent, 1, "trade-1", 0, 0, 0, 0, false, AllSevenPass(), accepted);
    var second := first.(jobId := 2, lockAt := 400, gateAt := 400, cooldownAt := 400);
    var acts := [Deliver(first), Deliver(second)];
    ClockedPair(first, second);
    SevenChecksPass();
    ExecutesTwiceExactly(cfg, first, second);
    assert ExecutesTwice(cfg, acts) && AllChecksPass(acts);
  }

  // ---- Legal job histories ----

  // Every job's recorded statuses form a legal path from queued to its present status.
  ghost predicate LegalHistories(db: Db) {
    forall k :: LegalHistory(db, k)
  }

  ghost predicate LegalHistory(db: Db, k: string) {
    var p := StatusPath(db.history, k);
    if k in db.jobs then LegalPath(p) && p[0] == Queued && p[|p| - 1] == db.jobs[k].status else p == []
  }

  lemma WriteKeepsHistories(db: Db, job: JobRef, to: JobStatus, result: Option<JobResult>)
    requires LegalHistories(db)
    requires OwnsRow(db, job) ==> CanTransition(db.jobs[job.clientOrderId].status, to)
    ensures LegalHistories(WriteStatus(db, job, to, result))
  {
    var out := WriteStatus(db, job, to, result);
    if OwnsRow(db, job) {
      forall k ensures LegalHistory(out, k) {
        assert LegalHistory(db, k);
        StatusPathAppend(db.history, StatusWrite(job.clientOrderId, to), k);
        if k == job.clientOrderId { LegalPathExtends(StatusPath(db.history, k), to); }
      }
    }
  }

  lemma CreationKeepsHistories(db: Db, job: JobRef, accountId: string)
    requires LegalHistories(db)
    ensures LegalHistories(AddJob(db, job, accountId))
  {
    var out := AddJob(db, job, accountId);
    if job.clientOrderId !in db.jobs {
      forall k ensures LegalHistory(out, k) {
        assert LegalHistory(db, k);
        StatusPathAppend(db.history, StatusWrite(job.clientOrderId, Queued), k);
      }
    }
  }

  lemma RowsWithoutStatusKeepHistories(db: Db, out: Db)
    requires LegalHistories(db) && out.jobs == db.jobs && out.history == db.history
    ensures LegalHistories(out)
  {
    forall k ensures LegalHistory(out, k) { assert LegalHistory(db, k); }
  }

  lemma WriteKeepsHistoriesIf(db: Db, e: Reconciliation.OrderUpdate, believed: JobRow, to: JobStatus,
      result: Option<JobResult>)
    requires LegalHistories(db) && e.clientOrderId in db.jobs
    requires CanTransition(believed.status, to) ==> CanTransition(db.jobs[e.clientOrderId].status, to)
    ensures LegalHistories(Reconciliation.WriteIfAllowed(db, e, believed, to, result))
  {
    if CanTransition(believed.status, to) {
      WriteKeepsHistories(db, JobRef(e.clientOrderId, believed.id), to, result);
    }
  }

  lemma UpdateKeepsHistories(db: Db, e: Reconciliation.OrderUpdate)
    requires LegalHistories(db)
    ensures LegalHistories(Reconciliation.Step(db, e))
  {
    if Reconciliation.Routed(db, e) {
      if e.status.PartialFill? {
        PartialFillKeepsHistories(db, e);
      } else if e.status.FullFill? {
        FullFillKeepsHistories(db, e);
      } else if !e.status.OtherStatus? {
        WriteKeepsHistoriesIf(db, e, db.jobs[e.clientOrderId], Canceled, None);
      }
    }
  }

  // partially_filled and filled may both be written, the second guarded by a stale status.
  lemma PartialFillKeepsHistories(db: Db, e: Reconciliation.OrderUpdate)
    requires LegalHistories(db) && Reconciliation.Routed(db, e)
    ensures LegalHistories(Reconciliation.PartialFillStep(db, e))
  {
    var k := e.clientOrderId;
    if k in db.orders && Reconciliation.NewLeg(db, e) {
      var job, order, complete := db.jobs[k], db.orders[k], e.filledQty >= e.origQty;
      var db1 := AddFill(db, Reconciliation.LegRow(job, order, e));
      var db2 := SetFilled(db1, k, e.filledQty, e.avgPrice, if complete then OrderFilled else OrderPartiallyFilled);
      RowsWithoutStatusKeepHistories(db, db2);
      WriteKeepsHistoriesIf(db2, e, job, PartiallyFilled, None);
      var db3 := if job.status != PartiallyFilled
                 then Reconciliation.WriteIfAllowed(db2, e, job, PartiallyFilled, None) else db2;
      assert db3.jobs[k].status == job.status || (job.status == Acknowledged && db3.jobs[k].status == PartiallyFilled);
      WriteKeepsHistoriesIf(db3, e, job, Filled, Reconciliation.FillResult(e));
    }
  }

  lemma FullFillKeepsHistories(db: Db, e: Reconciliation.OrderUpdate)
    requires LegalHistories(db) && Reconciliation.Routed(db, e)
    ensures LegalHistories(Reconciliation.FullFillStep(db, e))
  {
    var k := e.clientOrderId;
    if k in db.orders {
      var job, order := db.jobs[k], db.orders[k];
      var db1 := if Reconciliation.NewLeg(db, e) then AddFill(db, Reconciliation.LegRow(job, order, e)) else db;
      var db2 := SetFilled(db1, k, e.filledQty, e.avgPrice, OrderFilled);
      RowsWithoutStatusKeepHistories(db, db2);
      WriteKeepsHistoriesIf(db2, e, job, Filled, Reconciliation.FillResult(e));
    }
  }

  // The job id generated for a delivery is not the id of a row that is already there.
  predicate FreshJob(db: Db, d: Delivery) {
    d.intent.clientOrderId in db.jobs ==> db.jobs[d.intent.clientOrderId].id != d.jobId
  }

  // Every delivery of the run comes with a fresh job id.
  ghost predicate FreshRun(cfg: Settings, s: State, acts: seq<Action>) {
    forall i | 0 <= i < |acts| && acts[i].Deliver? :: FreshJob(RunAll(cfg, s, acts[..i]).db, acts[i].delivery)
  }

  lemma FreshPrefix(cfg: Settings, s: State, acts: seq<Action>)
    requires acts != [] && FreshRun(cfg, s, acts)
    ensures FreshRun(cfg, s, acts[..|acts| - 1])
    ensures var last := acts[|acts| - 1];
      last.Deliver? ==> FreshJob(RunAll(cfg, s, acts[..|acts| - 1]).db, last.delivery)
  {
    var init := acts[..|acts| - 1];
    forall i | 0 <= i < |init| && init[i].Deliver? ensures FreshJob(RunAll(cfg, s, init[..i]).db, init[i].delivery) {
      assert init[..i] == acts[..i] && init[i] == acts[i];
    }
  }

  predicate NotMineOr(db: Db, job: JobRef, s: JobStatus) {
    OwnsRow(db, job) ==> db.jobs[job.clientOrderId].status == s
  }

  lemma DeliveryKeepsHistories(cfg: Settings, s: State, d: Delivery)
    requires LegalHistories(s.db) && FreshJob(s.db, d)
    ensures LegalHistories(Process(cfg, s, d).db)
  {
    var job, outcome := Ref(d), OutcomeOf(cfg, s, d);
    if outcome != Duplicate {
      var db := AddJob(s.db, job, cfg.accountId);
      CreationKeepsHistories(s.db, job, cfg.accountId);
      assert NotMineOr(db, job, Queued);
      if outcome == RiskErrored {
        WriteKeepsHistories(db, job, Failed, None);
      } else if outcome == GateClosed {
        WriteKeepsHistories(db, job, Blocked, None);
      } else {
        ApprovalKeepsHistories(cfg, db, d);
      }
    }
  }

  lemma ApprovalKeepsHistories(cfg: Settings, db: Db, d: Delivery)
    requires LegalHistories(db) && NotMineOr(db, Ref(d), Queued)
    ensures LegalHistories(AfterApproval(cfg, db, d))
  {
    var job := Ref(d);
    var approved := WriteStatus(db, job, Approved, None);
    WriteKeepsHistories(db, job, Approved, None);
    assert NotMineOr(approved, job, Approved);
    if d.response.Accepted? {
      WriteKeepsHistories(approved, job, Submitted, None);
      WriteKeepsHistories(WriteStatus(approved, job, Submitted, None), job, Acknowledged, None);
      assert NotMineOr(Acknowledge(approved, d), job, Acknowledged);
      PersistKeepsHistories(cfg, Acknowledge(approved, d), d);
    } else {
      WriteKeepsHistories(approved, job, Failed, None);
    }
  }

  lemma PersistKeepsHistories(cfg: Settings, db: Db, d: Delivery)
    requires d.response.Accepted? && LegalHistories(db) && NotMineOr(db, Ref(d), Acknowledged)
    ensures LegalHistories(Persist(cfg, db, d))
  {
    var k := d.intent.clientOrderId;
    if k !in db.orders && OwnsRow(db, Ref(d)) {
      var db1 := AddOrder(db, Ref(d), NewOrder(cfg, d));
      RowsWithoutStatusKeepHistories(db, db1);
      if NonZero(d.response.fillPrice).None? || NonZero(d.response.fillQty).None? {
        WriteKeepsHistories(db1, Ref(d), Filled, ExecutionResult(d));
      } else {
        var db2 := AddFill(db1, NewFill(cfg, d));
        RowsWithoutStatusKeepHistories(db1, db2);
        WriteKeepsHistories(db2, Ref(d), Filled, ExecutionResult(d));
      }
    }
  }

  // The table's promise over every run: consumer and reconciler writes together never leave the
  // transition table, and each job is given at most seven statuses.
  lemma {:induction false} EveryHistoryIsLegal(cfg: Settings, s: State, acts: seq<Action>)
    requires LegalHistories(s.db) && FreshRun(cfg, s, acts)
    ensures LegalHistories(RunAll(cfg, s, acts).db)
    ensures forall k :: |StatusPath(RunAll(cfg, s, acts).db.history, k)| <= 7
  {
    if acts != [] {
      var init, last := acts[..|acts| - 1], acts[|acts| - 1];
      FreshPrefix(cfg, s, acts);
      EveryHistoryIsLegal(cfg, s, init);
      var mid := RunAll(cfg, s, init);
      match last {
        case Deliver(d) => DeliveryKeepsHistories(cfg, mid, d);
        case Update(e) => UpdateKeepsHistories(mid.db, e);
        case SetStop(_, _) =>
        case ClearStop(_) =>
      }
    }
    var out := RunAll(cfg, s, acts).db;
    forall k ensures |StatusPath(out.history, k)| <= 7 {
      assert LegalHistory(out, k);
      if k in out.jobs { LegalPathsDescend(StatusPath(out.history, k)); }
    }
  }

  lemma WriteLeavesOtherRows(db: Db, job: JobRef, to: JobStatus, result: Option<JobResult>, k: string)
    requires k in db.jobs && (k == job.clientOrderId ==> db.jobs[k].id != job.id)
    ensures k in WriteStatus(db, job, to, result).jobs && WriteStatus(db, job, to, result).jobs[k] == db.jobs[k]
  {
  }

  lemma DeliveryLeavesOldRows(cfg: Settings, db: Db, d: Delivery, outcome: Outcome, k: string)
    requires k in db.jobs && FreshJob(db, d)
    ensures k in DbAfter(cfg, db, d, outcome).jobs && DbAfter(cfg, db, d, outcome).jobs[k] == db.jobs[k]
  {
    var created := AddJob(db, Ref(d), cfg.accountId);
    WriteLeavesOtherRows(created, Ref(d), Approved, None, k);
    var approved := WriteStatus(created, Ref(d), Approved, None);
    WriteLeavesOtherRows(approved, Ref(d), Submitted, None, k);
    WriteLeavesOtherRows(WriteStatus(approved, Ref(d), Submitted, None), Ref(d), Acknowledged, None, k);
    WriteLeavesOtherRows(approved, Ref(d), Failed, None, k);
    WriteLeavesOtherRows(created, Ref(d), Failed, None, k);
    WriteLeavesOtherRows(created, Ref(d), Blocked, None, k);
    if d.response.Accepted? { PersistLeavesOldRows(cfg, Acknowledge(approved, d), d, k); }
  }

  lemma PersistLeavesOldRows(cfg: Settings, db: Db, d: Delivery, k: string)
    requires d.response.Accepted? && k in db.jobs && (k == d.intent.clientOrderId ==> db.jobs[k].id != d.jobId)
    ensures k in Persist(cfg, db, d).jobs && Persist(cfg, db, d).jobs[k] == db.jobs[k]
  {
  }

  // A job that is over stays exactly as it is.
  lemma {:induction false} TerminalJobsNeverChange(cfg: Settings, s: State, acts: seq<Action>, k: string)
    requires k in s.db.jobs && IsTerminal(s.db.jobs[k].status) && FreshRun(cfg, s, acts)
    ensures k in RunAll(cfg, s, acts).db.jobs && RunAll(cfg, s, acts).db.jobs[k] == s.db.jobs[k]
  {
    if acts != [] {
      var init, last := acts[..|acts| - 1], acts[|acts| - 1];
      FreshPrefix(cfg, s, acts);
      TerminalJobsNeverChange(cfg, s, init, k);
      ActLeavesTerminalJobs(cfg, RunAll(cfg, s, init), last, k);
    }
  }

  lemma ActLeavesTerminalJobs(cfg: Settings, s: State, a: Action, k: string)
    requires k in s.db.jobs && IsTerminal(s.db.jobs[k].status) && (a.Deliver? ==> FreshJob(s.db, a.delivery))
    ensures k in Act(cfg, s, a).db.jobs && Act(cfg, s, a).db.jobs[k] == s.db.jobs[k]
  {
    match a
    case Deliver(d) => DeliveryLeavesOldRows(cfg, s.db, d, OutcomeOf(cfg, s, d), k);
    case Update(e) => Reconciliation.StepFrame(s.db, e);
    case SetStop(_, _) =>
    case ClearStop(_) =>
  }
}
