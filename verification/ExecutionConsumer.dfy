// The intent consumer: each delivered trade intent is locked, gated, submitted and persisted.
// Process is what one delivery does to the tables and the expiring keys; the class at the end is
// the consumer, proved to do exactly that.  The run theorems are in ExecutionRuns.
module ExecutionConsumer {
  import opened Wrappers
  import opened JobLifecycle
  import opened ExecutionTables
  import opened RedisKeys
  import opened RiskGate

  datatype Settings = Settings(accountId: string, jobLockTtl: int, symbolCooldown: int)

  // clientOrderId is the deterministic digest of the intent.
  datatype TradeIntent = TradeIntent(clientOrderId: string, symbol: string, side: string, size: real)

  datatype AdapterResponse =
    | Raised
    | Rejected
    | Accepted(exchangeOrderId: Option<string>, fillPrice: Option<real>, fillQty: Option<real>,
               commission: Option<real>, commissionAsset: string)

  // One delivery of an intent, with everything the environment answers while it is processed:
  // fresh ids, the clock at the lock, the gate, the cooldown write and the fill row, whether the
  // risk engine raises, the structural check results and the adapter's response.
  datatype Delivery = Delivery(
    intent: TradeIntent, jobId: nat, freshTradeId: string,
    lockAt: int, gateAt: int, cooldownAt: int, recordedAtMs: int,
    riskRaises: bool, results: seq<CheckResult>, response: AdapterResponse)

  datatype Outcome = Duplicate | RiskErrored | GateClosed | SubmitFailed | Executed

  datatype State = State(db: Db, keys: Keys)

  function Ref(d: Delivery): JobRef {
    JobRef(d.intent.clientOrderId, d.jobId)
  }

  // Python's truth value of an optional decimal: absent and zero are both false.
  function NonZero(x: Option<real>): Option<real> {
    if x.Some? && x.value != 0.0 then x else None
  }

  function OrZero(x: Option<real>): real {
    if x.Some? then x.value else 0.0
  }

  function NewOrder(cfg: Settings, d: Delivery): OrderRow
    requires d.response.Accepted?
  {
    OrderRow(cfg.accountId, d.response.exchangeOrderId, d.intent.symbol, d.intent.side, OrderFilled,
             d.intent.size, OrZero(d.response.fillQty), NonZero(d.response.fillPrice))
  }

  function NewFill(cfg: Settings, d: Delivery): FillRow
    requires d.response.Accepted? && d.response.fillPrice.Some? && d.response.fillQty.Some?
  {
    var r := d.response;
    FillRow(d.intent.clientOrderId, cfg.accountId,
            if r.exchangeOrderId.Some? && r.exchangeOrderId.value != "" then r.exchangeOrderId.value
            else d.freshTradeId,
            d.intent.symbol, d.intent.side, r.fillPrice.value, r.fillQty.value, OrZero(r.commission),
            r.commissionAsset, None, d.recordedAtMs)
  }

  function ExecutionResult(d: Delivery): Option<JobResult>
    requires d.response.Accepted?
  {
    Some(JobResult(d.response.exchangeOrderId, d.response.fillQty, d.response.fillPrice))
  }

  // Order, fill and final status are written as one block that any constraint violation ends.
  function Persist(cfg: Settings, db: Db, d: Delivery): Db
    requires d.response.Accepted?
  {
    if d.intent.clientOrderId in db.orders || !OwnsRow(db, Ref(d)) then db
    else
      var db1 := AddOrder(db, Ref(d), NewOrder(cfg, d));
      if NonZero(d.response.fillPrice).None? || NonZero(d.response.fillQty).None? then
        WriteStatus(db1, Ref(d), Filled, ExecutionResult(d))
      else
        var row := NewFill(cfg, d);
        if HasFill(db1.fills, row.accountId, row.exchangeTradeId) then db1
        else WriteStatus(AddFill(db1, row), Ref(d), Filled, ExecutionResult(d))
  }

  function Locked(cfg: Settings, keys: Keys, d: Delivery): Keys {
    keys[JobLock(d.intent.clientOrderId) := d.lockAt + cfg.jobLockTtl]
  }

  // The outcome once the lock is taken, by the keys as they are then.
  function LockedOutcome(cfg: Settings, keys: Keys, d: Delivery): Outcome {
    if d.riskRaises then RiskErrored
    else if !GateOpen(keys, cfg.accountId, d.intent.symbol, d.results, d.gateAt) then GateClosed
    else if !d.response.Accepted? then SubmitFailed
    else Executed
  }

  function OutcomeOf(cfg: Settings, s: State, d: Delivery): Outcome {
    if Live(s.keys, JobLock(d.intent.clientOrderId), d.lockAt) then Duplicate
    else LockedOutcome(cfg, Locked(cfg, s.keys, d), d)
  }

  // The expiring keys after a delivery with the given outcome.
  function KeysAfter(cfg: Settings, before: Keys, d: Delivery, outcome: Outcome): Keys {
    if outcome == Duplicate then before else CooledDown(cfg, Locked(cfg, before, d), d, outcome)
  }

  function CooledDown(cfg: Settings, keys: Keys, d: Delivery, outcome: Outcome): Keys {
    if outcome != Executed then keys
    else keys[SymbolCooldown(cfg.accountId, d.intent.symbol) := d.cooldownAt + cfg.symbolCooldown]
  }

  function Acknowledge(db: Db, d: Delivery): Db {
    WriteStatus(WriteStatus(db, Ref(d), Submitted, None), Ref(d), Acknowledged, None)
  }

  // The tables once the gate has let the intent through.
  function AfterApproval(cfg: Settings, db: Db, d: Delivery): Db {
    var approved := WriteStatus(db, Ref(d), Approved, None);
    if d.response.Accepted? then Persist(cfg, Acknowledge(approved, d), d)
    else WriteStatus(approved, Ref(d), Failed, None)
  }

  // The tables after a delivery with the given outcome.
  function DbAfter(cfg: Settings, before: Db, d: Delivery, outcome: Outcome): Db {
    var db := AddJob(before, Ref(d), cfg.accountId);
    match outcome
    case Duplicate => before
    case RiskErrored => WriteStatus(db, Ref(d), Failed, None)
    case GateClosed => WriteStatus(db, Ref(d), Blocked, None)
    case _ => AfterApproval(cfg, db, d)
  }

  function Process(cfg: Settings, s: State, d: Delivery): State {
    var outcome := OutcomeOf(cfg, s, d);
    State(DbAfter(cfg, s.db, d, outcome), KeysAfter(cfg, s.keys, d, outcome))
  }

  class Consumer {
    const cfg: Settings
    const redis: Redis
    const repository: ExecutionRepository
    const riskEngine: ExecutionRiskEngine
    const cooldown: CooldownControl
    var jobsProcessed: nat
    var jobsBlocked: nat

    // The consumer, its risk engine and both cooldown controls share one Redis.
    ghost predicate Wired() {
      riskEngine.redis == redis && riskEngine.cooldown.redis == redis && cooldown.redis == redis
    }

    function Snapshot(): State
      reads redis, repository
    {
      State(repository.Contents(), redis.keys)
    }

    constructor (cfg: Settings, redis: Redis, repository: ExecutionRepository)
      ensures this.cfg == cfg && this.redis == redis && this.repository == repository && Wired()
      ensures jobsProcessed == 0 && jobsBlocked == 0
    {
      this.cfg, this.redis, this.repository := cfg, redis, repository;
      riskEngine := new ExecutionRiskEngine(redis);
      cooldown := new CooldownControl(redis);
      jobsProcessed, jobsBlocked := 0, 0;
    }

    method ProcessIntent(d: Delivery) returns (outcome: Outcome)
      requires Wired()
      modifies this, redis, repository
      ensures outcome == OutcomeOf(cfg, old(Snapshot()), d)
      ensures repository.Contents() == DbAfter(cfg, old(repository.Contents()), d, outcome)
      ensures redis.keys == KeysAfter(cfg, old(redis.keys), d, outcome)
      ensures jobsProcessed == old(jobsProcessed) + (if outcome == Executed then 1 else 0)
      ensures jobsBlocked == old(jobsBlocked) + (if outcome == GateClosed then 1 else 0)
    {
      var acquired := redis.SetIfAbsent(JobLock(d.intent.clientOrderId), cfg.jobLockTtl, d.lockAt);
      if !acquired {
        return Duplicate;
      }
      outcome := ProcessLocked(d);
    }

    method ProcessLocked(d: Delivery) returns (outcome: Outcome)
      requires Wired()
      modifies this, redis, repository
      ensures outcome == LockedOutcome(cfg, old(redis.keys), d) != Duplicate
      ensures repository.Contents() == DbAfter(cfg, old(repository.Contents()), d, outcome)
      ensures redis.keys == CooledDown(cfg, old(redis.keys), d, outcome)
      ensures jobsProcessed == old(jobsProcessed) + (if outcome == Executed then 1 else 0)
      ensures jobsBlocked == old(jobsBlocked) + (if outcome == GateClosed then 1 else 0)
    {
      // A failed insert is logged and otherwise ignored.
      var created := repository.CreateJob(Ref(d), cfg.accountId);
      if d.riskRaises {
        repository.UpdateJobStatus(Ref(d), Failed, None);
        return RiskErrored;
      }
      var decision := riskEngine.Evaluate(cfg.accountId, d.intent.symbol, d.results, d.gateAt);
      if !decision.passed {
        jobsBlocked := jobsBlocked + 1;
        repository.UpdateJobStatus(Ref(d), Blocked, None);
        return GateClosed;
      }
      outcome := SubmitApproved(d);
    }

    // The gate is open: submit, persist, and start the cooldown.
    method SubmitApproved(d: Delivery) returns (outcome: Outcome)
      requires Wired()
      modifies this, redis, repository
      ensures outcome == if d.response.Accepted? then Executed else SubmitFailed
      ensures repository.Contents() == AfterApproval(cfg, old(repository.Contents()), d)
      ensures redis.keys == CooledDown(cfg, old(redis.keys), d, outcome)
      ensures jobsBlocked == old(jobsBlocked)
        && jobsProcessed == old(jobsProcessed) + (if outcome == Executed then 1 else 0)
    {
      repository.UpdateJobStatus(Ref(d), Approved, None);
      if !d.response.Accepted? {
        repository.UpdateJobStatus(Ref(d), Failed, None);
        return SubmitFailed;
      }
      PersistExecution(d);
      cooldown.SetCooldown(cfg.accountId, d.intent.symbol, cfg.symbolCooldown, d.cooldownAt);
      jobsProcessed := jobsProcessed + 1;
      outcome := Executed;
    }

    method PersistExecution(d: Delivery)
      requires d.response.Accepted?
      modifies repository
      ensures repository.Contents() == Persist(cfg, Acknowledge(old(repository.Contents()), d), d)
    {
      repository.UpdateJobStatus(Ref(d), Submitted, None);
      repository.UpdateJobStatus(Ref(d), Acknowledged, None);
      var ok := repository.CreateOrder(Ref(d), NewOrder(cfg, d));
      if !ok {
        return;
      }
      if NonZero(d.response.fillPrice).Some? && NonZero(d.response.fillQty).Some? {
        ok := repository.InsertFill(NewFill(cfg, d));
        if !ok {
          return;
        }
      }
      repository.UpdateJobStatus(Ref(d), Filled, ExecutionResult(d));
    }
  }
}
