// What each exchange update leaves in the tables, row by row and status by status.
module UpdateOutcomes {
  import opened Wrappers
  import opened JobLifecycle
  import opened ExecutionTables
  import opened Reconciliation
  import TradeIds

  // Only updates of orders with our prefix whose job is known and not over are acted on.
  lemma RoutedExactly(db: Db, e: OrderUpdate)
    ensures Routed(db, e) <==>
      && |e.clientOrderId| >= 4 && e.clientOrderId[..4] == "tp2-" && e.clientOrderId in db.jobs
      && db.jobs[e.clientOrderId].status !in {Blocked, Filled, Canceled, RolledBack}
    ensures !Routed(db, e) || e.status.OtherStatus? ==> Step(db, e) == db
  {
    if e.clientOrderId in db.jobs { EnteredFrom(db.jobs[e.clientOrderId].status, Queued); }
  }

  // Canceled, rejected and expired alike: a job with an order at the exchange becomes canceled, any other
  // stays as it is, and no order or fill is touched.
  lemma CancelOutcome(db: Db, e: OrderUpdate)
    requires Routed(db, e) && (e.status.Cancel? || e.status.Reject? || e.status.Expire?)
    ensures
      var k, out := e.clientOrderId, Step(db, e);
      var job := db.jobs[k];
      && out.orders == db.orders && out.fills == db.fills
      && (if job.status in {Submitted, Acknowledged, PartiallyFilled} then
            && out.jobs == db.jobs[k := JobRow(job.id, job.accountId, Canceled, job.result)]
            && out.history == db.history + [StatusWrite(k, Canceled)]
          else out == db)
  {
    EnteredFrom(db.jobs[e.clientOrderId].status, Canceled);
  }

  // A fill of this account with the trade id of the update is already recorded.
  predicate Known(db: Db, accountId: string, e: OrderUpdate) {
    exists f | f in db.fills ::
      f.accountId == accountId && f.exchangeTradeId == e.exchangeOrderId + ":t" + TradeIds.Decimal(e.tradeTimeMs)
  }

  // The row of the leg between the order's total so far and the reported one.
  ghost predicate IsLegOf(f: FillRow, e: OrderUpdate, job: JobRow, order: OrderRow) {
    && f.clientOrderId == e.clientOrderId && f.accountId == job.accountId
    && f.exchangeTradeId == e.exchangeOrderId + ":t" + TradeIds.Decimal(e.tradeTimeMs)
    && f.symbol == (if e.symbol == "" then order.symbol else e.symbol) && f.side == order.side
    && f.qty == e.filledQty - order.filledQty && f.price == e.avgPrice && f.timestampMs == e.tradeTimeMs
    && f.commission == e.commission && f.commissionAsset == e.commissionAsset && f.realizedPnl == Some(e.realizedPnl)
  }

  lemma KnownExactly(db: Db, accountId: string, e: OrderUpdate)
    ensures Known(db, accountId, e) <==> HasFill(db.fills, accountId, TradeId(e))
  {
    KnownTrade(db.fills, accountId, TradeId(e));
  }

  // The order row carries the reported total and price; nothing else of it changes.
  ghost predicate OrderMoved(was: OrderRow, now: OrderRow, e: OrderUpdate, status: OrderStatus) {
    now == OrderRow(was.accountId, was.exchangeOrderId, was.symbol, was.side, status, was.quantity,
                    e.filledQty, Some(e.avgPrice))
  }

  // An order is complete once the reported total reaches its original quantity.
  function Completion(e: OrderUpdate): OrderStatus {
    if e.filledQty < e.origQty then OrderPartiallyFilled else OrderFilled
  }

  // The result recorded with a filled job.
  function Report(e: OrderUpdate): Option<JobResult> {
    Some(JobResult(Some(e.exchangeOrderId), Some(e.filledQty), Some(e.avgPrice)))
  }

  // A partial fill with nothing new changes nothing.  Otherwise it adds its leg and moves the order, which is
  // filled exactly if the total reaches the original quantity; an acknowledged job becomes partially filled,
  // and a complete order fills an acknowledged or partially filled one.
  lemma PartialFillOutcome(db: Db, e: OrderUpdate)
    requires Routed(db, e) && e.status.PartialFill?
    ensures
      var k, out := e.clientOrderId, Step(db, e);
      var job := db.jobs[k];
      k !in db.orders || e.filledQty <= db.orders[k].filledQty || Known(db, job.accountId, e) ==> out == db
    ensures
      var k, out := e.clientOrderId, Step(db, e);
      var job := db.jobs[k];
      k in db.orders && e.filledQty > db.orders[k].filledQty && !Known(db, job.accountId, e) ==>
        && |out.fills| == |db.fills| + 1 && db.fills <= out.fills
        && IsLegOf(out.fills[|db.fills|], e, job, db.orders[k])
        && k in out.orders && out.orders == db.orders[k := out.orders[k]]
        && OrderMoved(db.orders[k], out.orders[k], e, Completion(e))
        && PartialFillStatuses(db, out, e)
  {
    var k := e.clientOrderId;
    var job := db.jobs[k];
    KnownExactly(db, job.accountId, e);
    if k in db.orders && NewLeg(db, e) { PartialFillRows(db, e); }
  }

  ghost predicate PartialFillStatuses(db: Db, out: Db, e: OrderUpdate)
    requires e.clientOrderId in db.jobs
  {
    var k := e.clientOrderId;
    var job := db.jobs[k];
    var moved := if job.status == Acknowledged then [StatusWrite(k, PartiallyFilled)] else [];
    if e.filledQty >= e.origQty && job.status in {Acknowledged, PartiallyFilled} then
      && out.jobs == db.jobs[k := JobRow(job.id, job.accountId, Filled, Report(e))]
      && out.history == db.history + moved + [StatusWrite(k, Filled)]
    else
      && (if job.status == Acknowledged
          then out.jobs == db.jobs[k := JobRow(job.id, job.accountId, PartiallyFilled, job.result)]
          else out.jobs == db.jobs)
      && out.history == db.history + moved
  }

  lemma PartialFillRows(db: Db, e: OrderUpdate)
    requires Routed(db, e) && e.status.PartialFill? && e.clientOrderId in db.orders && NewLeg(db, e)
    ensures
      var k, out := e.clientOrderId, Step(db, e);
      && out.fills == db.fills + [LegRow(db.jobs[k], db.orders[k], e)]
      && k in out.orders && out.orders == db.orders[k := out.orders[k]]
      && OrderMoved(db.orders[k], out.orders[k], e, Completion(e))
      && PartialFillStatuses(db, out, e)
  {
    var k := e.clientOrderId;
    EnteredFrom(db.jobs[k].status, PartiallyFilled);
    EnteredFrom(db.jobs[k].status, Filled);
  }

  // A final fill always moves the order to filled at the reported total; it adds its leg if that is
  // positive and new, and fills an acknowledged or partially filled job.
  lemma FullFillOutcome(db: Db, e: OrderUpdate)
    requires Routed(db, e) && e.status.FullFill?
    ensures e.clientOrderId !in db.orders ==> Step(db, e) == db
    ensures
      var k, out := e.clientOrderId, Step(db, e);
      var job := db.jobs[k];
      k in db.orders ==>
        && k in out.orders && out.orders == db.orders[k := out.orders[k]]
        && OrderMoved(db.orders[k], out.orders[k], e, OrderFilled)
        && (if e.filledQty > db.orders[k].filledQty && !Known(db, job.accountId, e) then
              && |out.fills| == |db.fills| + 1 && db.fills <= out.fills
              && IsLegOf(out.fills[|db.fills|], e, job, db.orders[k])
            else out.fills == db.fills)
        && (if job.status in {Acknowledged, PartiallyFilled} then
              && out.jobs == db.jobs[k := JobRow(job.id, job.accountId, Filled, Report(e))]
              && out.history == db.history + [StatusWrite(k, Filled)]
            else out.jobs == db.jobs && out.history == db.history)
  {
    var k := e.clientOrderId;
    KnownExactly(db, db.jobs[k].accountId, e);
    EnteredFrom(db.jobs[k].status, Filled);
    if k in db.orders { FullFillRows(db, e); }
  }

  lemma FullFillRows(db: Db, e: OrderUpdate)
    requires Routed(db, e) && e.status.FullFill? && e.clientOrderId in db.orders
    ensures
      var k, out := e.clientOrderId, Step(db, e);
      && out.fills == (if NewLeg(db, e) then db.fills + [LegRow(db.jobs[k], db.orders[k], e)] else db.fills)
      && k in out.orders && out.orders == db.orders[k := out.orders[k]]
      && OrderMoved(db.orders[k], out.orders[k], e, OrderFilled)
  {
  }
}
