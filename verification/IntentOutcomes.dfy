// What one delivery of an intent leaves in the tables and the keys, outcome by outcome.
module IntentOutcomes {
  import opened Wrappers
  import opened JobLifecycle
  import opened ExecutionTables
  import opened RedisKeys
  import opened RiskGate
  import opened ExecutionConsumer

  // The five switches that can close the gate for an account and a symbol.
  predicate AnyStopLive(keys: Keys, accountId: string, symbol: string, now: int) {
    || Live(keys, KillSwitch(accountId), now) || Live(keys, UserPause(accountId), now)
    || Live(keys, SymbolPause(accountId, symbol), now) || Live(keys, CircuitBreaker(accountId), now)
    || Live(keys, SymbolCooldown(accountId, symbol), now)
  }

  // The outcome in terms of the keys as the delivery finds them.
  lemma OutcomeExactly(cfg: Settings, s: State, d: Delivery)
    ensures
      var locked := Live(s.keys, JobLock(d.intent.clientOrderId), d.lockAt);
      var stopped := AnyStopLive(s.keys, cfg.accountId, d.intent.symbol, d.gateAt);
      var failing := exists i :: 0 <= i < |d.results| && !d.results[i].passed;
      match OutcomeOf(cfg, s, d)
      case Duplicate => locked
      case RiskErrored => !locked && d.riskRaises
      case GateClosed => !locked && !d.riskRaises && (stopped || failing)
      case SubmitFailed =>
        !locked && !d.riskRaises && !stopped && !failing && (d.response.Raised? || d.response.Rejected?)
      case Executed => !locked && !d.riskRaises && !stopped && !failing && d.response.Accepted?
  {
    GateOpensExactly(Locked(cfg, s.keys, d), cfg.accountId, d.intent.symbol, d.results, d.gateAt);
  }

  // The lock is taken for its lifetime by every delivery that finds it free, and the cooldown starts only
  // with an execution.
  lemma KeysOutcome(cfg: Settings, s: State, d: Delivery)
    ensures
      var out, lock := Process(cfg, s, d).keys, JobLock(d.intent.clientOrderId);
      match OutcomeOf(cfg, s, d)
      case Duplicate => out == s.keys
      case Executed =>
        out == s.keys[lock := d.lockAt + cfg.jobLockTtl]
                     [SymbolCooldown(cfg.accountId, d.intent.symbol) := d.cooldownAt + cfg.symbolCooldown]
      case _ => out == s.keys[lock := d.lockAt + cfg.jobLockTtl]
  {
  }

  // From before to out the job of a new intent was added with the last of these statuses, all of them
  // were recorded, and no other job was touched.
  ghost predicate JobAdded(
    before: Db, out: Db, cfg: Settings, d: Delivery, statuses: seq<JobStatus>, result: Option<JobResult>)
    requires statuses != []
  {
    var k := d.intent.clientOrderId;
    && out.jobs == before.jobs[k := JobRow(d.jobId, cfg.accountId, statuses[|statuses| - 1], result)]
    && out.history == before.history + Writes(k, statuses)
  }

  function Writes(clientOrderId: string, statuses: seq<JobStatus>): seq<StatusWrite> {
    seq(|statuses|, i requires 0 <= i < |statuses| => StatusWrite(clientOrderId, statuses[i]))
  }

  lemma AcknowledgedIntent(cfg: Settings, before: Db, d: Delivery)
    requires d.intent.clientOrderId !in before.jobs
    ensures
      var approved := WriteStatus(AddJob(before, Ref(d), cfg.accountId), Ref(d), Approved, None);
      var out := Acknowledge(approved, d);
      && JobAdded(before, approved, cfg, d, [Queued, Approved], None)
      && JobAdded(before, out, cfg, d, [Queued, Approved, Submitted, Acknowledged], None)
      && out.orders == approved.orders == before.orders && out.fills == approved.fills == before.fills
      && OwnsRow(out, Ref(d))
  {
    var k := d.intent.clientOrderId;
    assert Writes(k, [Queued, Approved]) == [StatusWrite(k, Queued)] + [StatusWrite(k, Approved)];
    assert Writes(k, [Queued, Approved, Submitted, Acknowledged])
        == Writes(k, [Queued, Approved]) + [StatusWrite(k, Submitted)] + [StatusWrite(k, Acknowledged)];
  }

  // A duplicate leaves no trace.  A new intent that is not executed leaves its job, failed if the risk
  // engine raised or the submission did not succeed, blocked if the gate was closed, and nothing else.
  lemma UnexecutedIntentOutcome(cfg: Settings, s: State, d: Delivery)
    requires OutcomeOf(cfg, s, d) != Executed
    ensures
      var out := Process(cfg, s, d).db;
      && out.orders == s.db.orders && out.fills == s.db.fills
      && (OutcomeOf(cfg, s, d) == Duplicate ==> out == s.db)
    ensures d.intent.clientOrderId !in s.db.jobs ==>
      var out := Process(cfg, s, d).db;
      match OutcomeOf(cfg, s, d)
      case Duplicate => true
      case RiskErrored => JobAdded(s.db, out, cfg, d, [Queued, Failed], None)
      case GateClosed => JobAdded(s.db, out, cfg, d, [Queued, Blocked], None)
      case SubmitFailed => JobAdded(s.db, out, cfg, d, [Queued, Approved, Failed], None)
      case Executed => true
  {
    var k := d.intent.clientOrderId;
    if k !in s.db.jobs {
      AcknowledgedIntent(cfg, s.db, d);
      assert Writes(k, [Queued, Failed]) == [StatusWrite(k, Queued)] + [StatusWrite(k, Failed)];
      assert Writes(k, [Queued, Blocked]) == [StatusWrite(k, Queued)] + [StatusWrite(k, Blocked)];
      assert Writes(k, [Queued, Approved, Failed]) == Writes(k, [Queued, Approved]) + [StatusWrite(k, Failed)];
    }
  }

  // Absent and zero quantities and prices count as nothing.
  predicate Positive(x: Option<real>) {
    x.Some? && x.value != 0.0
  }

  // The trade id of the execution: the exchange's order id, or a generated one.
  function ExecutionTradeId(d: Delivery): string
    requires d.response.Accepted?
  {
    match d.response.exchangeOrderId
    case None => d.freshTradeId
    case Some(id) => if id == "" then d.freshTradeId else id
  }

  // The order of an execution: filled, for the intended size, with what the adapter reported.
  ghost predicate IsOrderOf(order: OrderRow, cfg: Settings, d: Delivery)
    requires d.response.Accepted?
  {
    && order.accountId == cfg.accountId && order.exchangeOrderId == d.response.exchangeOrderId
    && order.symbol == d.intent.symbol && order.side == d.intent.side
    && order.status == OrderFilled && order.quantity == d.intent.size
    && (Positive(d.response.fillQty) ==> order.filledQty == d.response.fillQty.value)
    && (!Positive(d.response.fillQty) ==> order.filledQty == 0.0)
    && order.avgFillPrice == (if Positive(d.response.fillPrice) then d.response.fillPrice else None)
  }

  ghost predicate IsFillOf(f: FillRow, cfg: Settings, d: Delivery)
    requires d.response.Accepted?
  {
    && f.clientOrderId == d.intent.clientOrderId && f.accountId == cfg.accountId
    && f.exchangeTradeId == ExecutionTradeId(d) && f.symbol == d.intent.symbol && f.side == d.intent.side
    && Some(f.price) == d.response.fillPrice && Some(f.qty) == d.response.fillQty
    && f.commission == (if d.response.commission.Some? then d.response.commission.value else 0.0)
    && f.commissionAsset == d.response.commissionAsset && f.realizedPnl == None && f.timestampMs == d.recordedAtMs
  }

  // An executed new intent leaves an acknowledged or filled job, its order, and its fill if a price and a
  // quantity were reported and the trade id is new; filled is written unless the trade id was known.
  lemma ExecutedIntentOutcome(cfg: Settings, s: State, d: Delivery)
    requires OutcomeOf(cfg, s, d) == Executed
    requires d.intent.clientOrderId !in s.db.jobs && d.intent.clientOrderId !in s.db.orders
    ensures d.response.Accepted?
    ensures
      var k, out := d.intent.clientOrderId, Process(cfg, s, d).db;
      var reported := Positive(d.response.fillPrice) && Positive(d.response.fillQty);
      var known := exists f | f in s.db.fills ::
        f.accountId == cfg.accountId && f.exchangeTradeId == ExecutionTradeId(d);
      && k in out.orders && out.orders == s.db.orders[k := out.orders[k]] && IsOrderOf(out.orders[k], cfg, d)
      && (if reported && !known then
            |out.fills| == |s.db.fills| + 1 && s.db.fills <= out.fills && IsFillOf(out.fills[|s.db.fills|], cfg, d)
          else out.fills == s.db.fills)
      && (if reported && known then JobAdded(s.db, out, cfg, d, [Queued, Approved, Submitted, Acknowledged], None)
          else JobAdded(s.db, out, cfg, d, [Queued, Approved, Submitted, Acknowledged, Filled],
                        Some(JobResult(d.response.exchangeOrderId, d.response.fillQty, d.response.fillPrice))))
  {
    var db := Acknowledge(WriteStatus(AddJob(s.db, Ref(d), cfg.accountId), Ref(d), Approved, None), d);
    AcknowledgedIntent(cfg, s.db, d);
    PersistOutcome(cfg, db, d);
    KnownTrade(s.db.fills, cfg.accountId, ExecutionTradeId(d));
    var k := d.intent.clientOrderId;
    assert Writes(k, [Queued, Approved, Submitted, Acknowledged, Filled])
        == Writes(k, [Queued, Approved, Submitted, Acknowledged]) + [StatusWrite(k, Filled)];
  }

  lemma PersistOutcome(cfg: Settings, db: Db, d: Delivery)
    requires d.response.Accepted? && OwnsRow(db, Ref(d)) && d.intent.clientOrderId !in db.orders
    ensures
      var k, out := d.intent.clientOrderId, Persist(cfg, db, d);
      var reported := Positive(d.response.fillPrice) && Positive(d.response.fillQty);
      var known := HasFill(db.fills, cfg.accountId, ExecutionTradeId(d));
      && k in out.orders && out.orders == db.orders[k := out.orders[k]] && IsOrderOf(out.orders[k], cfg, d)
      && (if reported && !known then
            |out.fills| == |db.fills| + 1 && db.fills <= out.fills && IsFillOf(out.fills[|db.fills|], cfg, d)
          else out.fills == db.fills)
      && (if reported && known then out.jobs == db.jobs && out.history == db.history
          else
            && out.jobs == db.jobs[k := JobRow(d.jobId, db.jobs[k].accountId, Filled,
                 Some(JobResult(d.response.exchangeOrderId, d.response.fillQty, d.response.fillPrice)))]
            && out.history == db.history + [StatusWrite(k, Filled)])
  {
  }
}
