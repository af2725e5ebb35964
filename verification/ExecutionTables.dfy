// The job, order, fill and execution-event tables, and the repository that rewrites them.
//
// Orders and jobs are looked up by their unique client order id, so that column is the key here.
// A job is addressed by a JobRef, which also carries the id the writer believes the row has: a
// status write through a stale or unsaved id leaves the table alone, as a missing primary key does.
module ExecutionTables {
  import opened Wrappers
  import opened JobLifecycle

  datatype OrderStatus = OrderNew | OrderPartiallyFilled | OrderFilled | OrderFailed

  datatype JobRef = JobRef(clientOrderId: string, id: nat)

  datatype JobResult = JobResult(exchangeOrderId: Option<string>, filledQty: Option<real>, avgPrice: Option<real>)

  datatype JobRow = JobRow(id: nat, accountId: string, status: JobStatus, result: Option<JobResult>)

  datatype OrderRow = OrderRow(
    accountId: string, exchangeOrderId: Option<string>, symbol: string, side: string,
    status: OrderStatus, quantity: real, filledQty: real, avgFillPrice: Option<real>)

  datatype FillRow = FillRow(
    clientOrderId: string, accountId: string, exchangeTradeId: string, symbol: string, side: string,
    price: real, qty: real, commission: real, commissionAsset: string,
    realizedPnl: Option<real>, timestampMs: int)

  // One row of the execution_events table: the status a job was given.
  datatype StatusWrite = StatusWrite(clientOrderId: string, status: JobStatus)

  datatype Db = Db(
    jobs: map<string, JobRow>,
    orders: map<string, OrderRow>,
    fills: seq<FillRow>,
    history: seq<StatusWrite>)

  // ---- Reading ----

  predicate SameTrade(f: FillRow, accountId: string, exchangeTradeId: string) {
    f.accountId == accountId && f.exchangeTradeId == exchangeTradeId
  }

  predicate HasFill(fills: seq<FillRow>, accountId: string, exchangeTradeId: string) {
    exists i | 0 <= i < |fills| :: SameTrade(fills[i], accountId, exchangeTradeId)
  }

  lemma KnownTrade(fills: seq<FillRow>, accountId: string, exchangeTradeId: string)
    ensures HasFill(fills, accountId, exchangeTradeId) <==>
      exists f | f in fills :: f.accountId == accountId && f.exchangeTradeId == exchangeTradeId
  {
    if exists f :: f in fills && f.accountId == accountId && f.exchangeTradeId == exchangeTradeId {
      var f :| f in fills && f.accountId == accountId && f.exchangeTradeId == exchangeTradeId;
      var i :| 0 <= i < |fills| && fills[i] == f;
    }
  }

  // The unique constraint on (account, exchange trade id).
  ghost predicate UniqueTrades(fills: seq<FillRow>) {
    forall i, j | 0 <= i < j < |fills| :: !SameTrade(fills[i], fills[j].accountId, fills[j].exchangeTradeId)
  }

  // The total quantity of the fill legs recorded for one order.
  function LegTotal(fills: seq<FillRow>, clientOrderId: string): real {
    if fills == [] then 0.0
    else
      var last := fills[|fills| - 1];
      LegTotal(fills[..|fills| - 1], clientOrderId) + (if last.clientOrderId == clientOrderId then last.qty else 0.0)
  }

  // The statuses written for one job, oldest first.
  function StatusPath(history: seq<StatusWrite>, clientOrderId: string): seq<JobStatus> {
    if history == [] then []
    else
      var last := history[|history| - 1];
      StatusPath(history[..|history| - 1], clientOrderId) +
      (if last.clientOrderId == clientOrderId then [last.status] else [])
  }

  // ---- Writing ----

  function AddJob(db: Db, job: JobRef, accountId: string): Db {
    if job.clientOrderId in db.jobs then db
    else db.(jobs := db.jobs[job.clientOrderId := JobRow(job.id, accountId, Queued, None)],
             history := db.history + [StatusWrite(job.clientOrderId, Queued)])
  }

  predicate OwnsRow(db: Db, job: JobRef) {
    job.clientOrderId in db.jobs && db.jobs[job.clientOrderId].id == job.id
  }

  function WriteStatus(db: Db, job: JobRef, status: JobStatus, result: Option<JobResult>): Db {
    if !OwnsRow(db, job) then db
    else
      var row := db.jobs[job.clientOrderId];
      db.(jobs := db.jobs[job.clientOrderId :=
            row.(status := status, result := if result.Some? then result else row.result)],
          history := db.history + [StatusWrite(job.clientOrderId, status)])
  }

  // An order row needs the row of the job it names: the job id is a foreign key.
  function AddOrder(db: Db, job: JobRef, row: OrderRow): Db {
    if job.clientOrderId in db.orders || !OwnsRow(db, job) then db
    else db.(orders := db.orders[job.clientOrderId := row])
  }

  function AddFill(db: Db, row: FillRow): Db {
    if HasFill(db.fills, row.accountId, row.exchangeTradeId) then db else db.(fills := db.fills + [row])
  }

  function SetFilled(db: Db, clientOrderId: string, filledQty: real, avgPrice: real, status: OrderStatus): Db {
    if clientOrderId !in db.orders then db
    else db.(orders := db.orders[clientOrderId :=
               db.orders[clientOrderId].(filledQty := filledQty, avgFillPrice := Some(avgPrice), status := status)])
  }

  lemma AddFillKeepsTradesUnique(db: Db, row: FillRow)
    requires UniqueTrades(db.fills)
    ensures UniqueTrades(AddFill(db, row).fills)
  {
  }

  lemma LegTotalAppend(fills: seq<FillRow>, row: FillRow, clientOrderId: string)
    ensures LegTotal(fills + [row], clientOrderId)
         == LegTotal(fills, clientOrderId) + (if row.clientOrderId == clientOrderId then row.qty else 0.0)
  {
    assert (fills + [row])[..|fills|] == fills;
  }

  lemma StatusPathAppend(history: seq<StatusWrite>, w: StatusWrite, clientOrderId: string)
    ensures StatusPath(history + [w], clientOrderId)
         == StatusPath(history, clientOrderId) + (if w.clientOrderId == clientOrderId then [w.status] else [])
  {
    assert (history + [w])[..|history|] == history;
  }

  class ExecutionRepository {
    var jobs: map<string, JobRow>
    var orders: map<string, OrderRow>
    var fills: seq<FillRow>
    var history: seq<StatusWrite>

    function Contents(): Db
      reads this
    {
      Db(jobs, orders, fills, history)
    }

    constructor ()
      ensures Contents() == Db(map[], map[], [], [])
    {
      jobs, orders, fills, history := map[], map[], [], [];
    }

    // Fails on a client order id that already has a row, as the unique column makes the insert raise.
    method CreateJob(job: JobRef, accountId: string) returns (ok: bool)
      modifies this
      ensures ok <==> job.clientOrderId !in old(jobs)
      ensures Contents() == AddJob(old(Contents()), job, accountId)
      ensures orders == old(orders) && fills == old(fills)
      ensures jobs == if ok then old(jobs)[job.clientOrderId := JobRow(job.id, accountId, Queued, None)] else old(jobs)
      ensures history == if ok then old(history) + [StatusWrite(job.clientOrderId, Queued)] else old(history)
    {
      ok := job.clientOrderId !in jobs;
      if ok {
        jobs := jobs[job.clientOrderId := JobRow(job.id, accountId, Queued, None)];
        history := history + [StatusWrite(job.clientOrderId, Queued)];
      }
    }

    method GetJobByClientOrderId(clientOrderId: string) returns (job: Option<JobRow>)
      ensures job == if clientOrderId in jobs then Some(jobs[clientOrderId]) else None
    {
      job := if clientOrderId in jobs then Some(jobs[clientOrderId]) else None;
    }

    method UpdateJobStatus(job: JobRef, status: JobStatus, result: Option<JobResult>)
      modifies this
      ensures Contents() == WriteStatus(old(Contents()), job, status, result)
      ensures orders == old(orders) && fills == old(fills)
      ensures
        var k := job.clientOrderId;
        if k in old(jobs) && old(jobs)[k].id == job.id then
          && jobs == old(jobs)[k := jobs[k]] && jobs[k].status == status
          && jobs[k].id == job.id && jobs[k].accountId == old(jobs)[k].accountId
          && jobs[k].result == (if result == None then old(jobs)[k].result else result)
          && history == old(history) + [StatusWrite(k, status)]
        else jobs == old(jobs) && history == old(history)
    {
      if job.clientOrderId !in jobs || jobs[job.clientOrderId].id != job.id {
        return;
      }
      var row := jobs[job.clientOrderId].(status := status);
      if result.Some? {
        row := row.(result := result);
      }
      jobs := jobs[job.clientOrderId := row];
      history := history + [StatusWrite(job.clientOrderId, status)];
    }

    // Fails on a client order id that already has an order, and on a job id without a row, as the unique
    // column and the foreign key make the insert raise.
    method CreateOrder(job: JobRef, row: OrderRow) returns (ok: bool)
      modifies this
      ensures Contents() == AddOrder(old(Contents()), job, row)
      ensures var k := job.clientOrderId; ok <==> k !in old(orders) && k in old(jobs) && old(jobs)[k].id == job.id
      ensures jobs == old(jobs) && fills == old(fills) && history == old(history)
      ensures orders == if ok then old(orders)[job.clientOrderId := row] else old(orders)
    {
      ok := job.clientOrderId !in orders && job.clientOrderId in jobs && jobs[job.clientOrderId].id == job.id;
      if ok {
        orders := orders[job.clientOrderId := row];
      }
    }

    method GetOrderByClientOrderId(clientOrderId: string) returns (order: Option<OrderRow>)
      ensures order == if clientOrderId in orders then Some(orders[clientOrderId]) else None
    {
      order := if clientOrderId in orders then Some(orders[clientOrderId]) else None;
    }

    method GetFillByExchangeTradeId(accountId: string, exchangeTradeId: string) returns (found: Option<FillRow>)
      ensures found.Some? <==> HasFill(fills, accountId, exchangeTradeId)
      ensures found.Some? <==> exists f | f in fills :: f.accountId == accountId && f.exchangeTradeId == exchangeTradeId
      ensures found.Some? ==>
        found.value in fills && found.value.accountId == accountId && found.value.exchangeTradeId == exchangeTradeId
    {
      for i := 0 to |fills|
        invariant !HasFill(fills[..i], accountId, exchangeTradeId)
      {
        assert fills[i] in fills;
        if SameTrade(fills[i], accountId, exchangeTradeId) {
          return Some(fills[i]);
        }
      }
      found := None;
      assert !HasFill(fills, accountId, exchangeTradeId);
      KnownTrade(fills, accountId, exchangeTradeId);
    }

    // Fails on a trade id the account already has, as the unique constraint makes the insert raise.
    method InsertFill(row: FillRow) returns (ok: bool)
      modifies this
      ensures ok <==> !HasFill(old(fills), row.accountId, row.exchangeTradeId)
      ensures Contents() == AddFill(old(Contents()), row)
      ensures ok <==> forall f | f in old(fills) ::
        f.accountId != row.accountId || f.exchangeTradeId != row.exchangeTradeId
      ensures jobs == old(jobs) && orders == old(orders) && history == old(history)
      ensures fills == if ok then old(fills) + [row] else old(fills)
    {
      KnownTrade(fills, row.accountId, row.exchangeTradeId);
      ok := !HasFill(fills, row.accountId, row.exchangeTradeId);
      if ok {
        fills := fills + [row];
      }
    }

    method UpdateOrderFilledQty(clientOrderId: string, filledQty: real, avgPrice: real, status: OrderStatus)
      modifies this
      ensures Contents() == SetFilled(old(Contents()), clientOrderId, filledQty, avgPrice, status)
      ensures jobs == old(jobs) && fills == old(fills) && history == old(history)
      ensures
        if clientOrderId !in old(orders) then orders == old(orders)
        else
          var was := old(orders)[clientOrderId];
          orders == old(orders)[clientOrderId :=
            OrderRow(was.accountId, was.exchangeOrderId, was.symbol, was.side, status, was.quantity,
                     filledQty, Some(avgPrice))]
    {
      if clientOrderId !in orders {
        return;
      }
      var order := orders[clientOrderId].(filledQty := filledQty, avgFillPrice := Some(avgPrice), status := status);
      orders := orders[clientOrderId := order];
    }
  }
}
