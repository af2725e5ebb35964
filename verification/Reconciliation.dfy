// The reconciler: exchange order updates, delivered at least once and in any order, are turned
// into fill legs, order totals and job statuses.  Step is what one update does to the tables;
// NormalizedEventConsumer at the end is the event handler, proved to do exactly that.
module Reconciliation {
  import opened Wrappers
  import opened JobLifecycle
  import opened ExecutionTables
  import TradeIds

  datatype ExchangeStatus = PartialFill | FullFill | Cancel | Reject | Expire | OtherStatus(text: string)

  // An order update after parsing; filledQty is the cumulative filled quantity of the order.
  datatype OrderUpdate = OrderUpdate(
    clientOrderId: string, exchangeOrderId: string, status: ExchangeStatus,
    filledQty: real, origQty: real, avgPrice: real, commission: real, commissionAsset: string,
    realizedPnl: real, tradeTimeMs: int, symbol: string)

  // Orders submitted by this platform carry the tp2- prefix.
  predicate IsOurs(clientOrderId: string) {
    "tp2-" <= clientOrderId
  }

  function TradeId(e: OrderUpdate): string {
    TradeIds.Format(e.exchangeOrderId, e.tradeTimeMs)
  }

  function Leg(db: Db, e: OrderUpdate): real
    requires e.clientOrderId in db.orders
  {
    e.filledQty - db.orders[e.clientOrderId].filledQty
  }

  function LegRow(job: JobRow, order: OrderRow, e: OrderUpdate): FillRow {
    FillRow(e.clientOrderId, job.accountId, TradeId(e), if e.symbol != "" then e.symbol else order.symbol,
            order.side, e.avgPrice, e.filledQty - order.filledQty, e.commission, e.commissionAsset,
            Some(e.realizedPnl), e.tradeTimeMs)
  }

  // ---- One update ----

  // The update reaches a handler: it is for one of our jobs, and the job is not over.
  predicate Routed(db: Db, e: OrderUpdate) {
    IsOurs(e.clientOrderId) && e.clientOrderId in db.jobs && !IsTerminal(db.jobs[e.clientOrderId].status)
  }

  // The update carries a leg the tables do not hold yet.
  predicate NewLeg(db: Db, e: OrderUpdate)
    requires e.clientOrderId in db.jobs && e.clientOrderId in db.orders
  {
    Leg(db, e) > 0.0 && !HasFill(db.fills, db.jobs[e.clientOrderId].accountId, TradeId(e))
  }

  function WriteIfAllowed(db: Db, e: OrderUpdate, believed: JobRow, to: JobStatus, result: Option<JobResult>): Db {
    if CanTransition(believed.status, to) then WriteStatus(db, JobRef(e.clientOrderId, believed.id), to, result) else db
  }

  function FillResult(e: OrderUpdate): Option<JobResult> {
    Some(JobResult(Some(e.exchangeOrderId), Some(e.filledQty), Some(e.avgPrice)))
  }

  function CancelStep(db: Db, e: OrderUpdate): Db
    requires Routed(db, e)
  {
    WriteIfAllowed(db, e, db.jobs[e.clientOrderId], Canceled, None)
  }

  // All status writes of one update are guarded by the status read before the first of them.
  function PartialFillStep(db: Db, e: OrderUpdate): Db
    requires Routed(db, e)
  {
    if e.clientOrderId !in db.orders || !NewLeg(db, e) then db
    else
      var job, order := db.jobs[e.clientOrderId], db.orders[e.clientOrderId];
      var complete := e.filledQty >= e.origQty;
      var db1 := AddFill(db, LegRow(job, order, e));
      var db2 := SetFilled(db1, e.clientOrderId, e.filledQty, e.avgPrice,
                           if complete then OrderFilled else OrderPartiallyFilled);
      var db3 := if job.status != PartiallyFilled then WriteIfAllowed(db2, e, job, PartiallyFilled, None) else db2;
      if complete then WriteIfAllowed(db3, e, job, Filled, FillResult(e)) else db3
  }

  function FullFillStep(db: Db, e: OrderUpdate): Db
    requires Routed(db, e)
  {
    if e.clientOrderId !in db.orders then db
    else
      var job, order := db.jobs[e.clientOrderId], db.orders[e.clientOrderId];
      var db1 := if NewLeg(db, e) then AddFill(db, LegRow(job, order, e)) else db;
      var db2 := SetFilled(db1, e.clientOrderId, e.filledQty, e.avgPrice, OrderFilled);
      WriteIfAllowed(db2, e, job, Filled, FillResult(e))
  }

  function Step(db: Db, e: OrderUpdate): Db {
    if !Routed(db, e) then db
    else match e.status
      case Cancel => CancelStep(db, e)
      case Reject => CancelStep(db, e)
      case Expire => CancelStep(db, e)
      case PartialFill => PartialFillStep(db, e)
      case FullFill => FullFillStep(db, e)
      case OtherStatus(_) => db
  }

  function Run(db: Db, es: seq<OrderUpdate>): Db {
    if es == [] then db else Step(Run(db, es[..|es| - 1]), es[|es| - 1])
  }

  lemma RunAppend(db: Db, es: seq<OrderUpdate>, e: OrderUpdate)
    ensures Run(db, es + [e]) == Step(Run(db, es), e)
  {
    assert (es + [e])[..|es|] == es;
  }

  // ---- What a step leaves alone ----

  // From db to out only the job and order k may have changed; fills and history only grew.
  ghost predicate OnlyTouches(db: Db, out: Db, k: string) {
    && out.jobs.Keys == db.jobs.Keys && out.orders.Keys == db.orders.Keys
    && db.fills <= out.fills && db.history <= out.history
    && (forall j | j in db.jobs :: out.jobs[j].id == db.jobs[j].id && out.jobs[j].accountId == db.jobs[j].accountId)
    && (forall j | j in db.jobs && j != k :: out.jobs[j] == db.jobs[j])
    && (forall j | j in db.orders && j != k :: out.orders[j] == db.orders[j])
  }

  lemma WriteFrame(db: Db, e: OrderUpdate, believed: JobRow, to: JobStatus, result: Option<JobResult>)
    ensures OnlyTouches(db, WriteIfAllowed(db, e, believed, to, result), e.clientOrderId)
  {
    var out := WriteIfAllowed(db, e, believed, to, result);
    if out != db {
      assert out.orders == db.orders && out.fills == db.fills;
      assert out.history == db.history + [StatusWrite(e.clientOrderId, to)];
      assert out.jobs.Keys == db.jobs.Keys;
    }
  }

  lemma FillFrame(db: Db, e: OrderUpdate, row: FillRow, status: OrderStatus)
    ensures OnlyTouches(db, SetFilled(AddFill(db, row), e.clientOrderId, e.filledQty, e.avgPrice, status),
      e.clientOrderId)
    ensures OnlyTouches(db, SetFilled(db, e.clientOrderId, e.filledQty, e.avgPrice, status), e.clientOrderId)
  {
  }

  lemma StepFrame(db: Db, e: OrderUpdate)
    ensures OnlyTouches(db, Step(db, e), e.clientOrderId)
  {
    if !Routed(db, e) || e.status.OtherStatus? {
    } else if e.status.PartialFill? {
      PartialFillFrame(db, e);
    } else if e.status.FullFill? {
      FullFillFrame(db, e);
    } else {
      WriteFrame(db, e, db.jobs[e.clientOrderId], Canceled, None);
    }
  }

  lemma PartialFillFrame(db: Db, e: OrderUpdate)
    requires Routed(db, e)
    ensures OnlyTouches(db, PartialFillStep(db, e), e.clientOrderId)
  {
    if e.clientOrderId in db.orders && NewLeg(db, e) {
      var job, order := db.jobs[e.clientOrderId], db.orders[e.clientOrderId];
      var status := if e.filledQty >= e.origQty then OrderFilled else OrderPartiallyFilled;
      FillFrame(db, e, LegRow(job, order, e), status);
      var db2 := SetFilled(AddFill(db, LegRow(job, order, e)), e.clientOrderId, e.filledQty, e.avgPrice, status);
      WriteFrame(db2, e, job, PartiallyFilled, None);
      var db3 := if job.status != PartiallyFilled then WriteIfAllowed(db2, e, job, PartiallyFilled, None) else db2;
      WriteFrame(db3, e, job, Filled, FillResult(e));
    }
  }

  lemma FullFillFrame(db: Db, e: OrderUpdate)
    requires Routed(db, e)
    ensures OnlyTouches(db, FullFillStep(db, e), e.clientOrderId)
  {
    if e.clientOrderId in db.orders {
      var job, order := db.jobs[e.clientOrderId], db.orders[e.clientOrderId];
      FillFrame(db, e, LegRow(job, order, e), OrderFilled);
      var db1 := if NewLeg(db, e) then AddFill(db, LegRow(job, order, e)) else db;
      var db2 := SetFilled(db1, e.clientOrderId, e.filledQty, e.avgPrice, OrderFilled);
      WriteFrame(db2, e, job, Filled, FillResult(e));
    }
  }

  lemma HasFillGrows(small: seq<FillRow>, big: seq<FillRow>, accountId: string, tradeId: string)
    requires small <= big && HasFill(small, accountId, tradeId)
    ensures HasFill(big, accountId, tradeId)
  {
    var i :| 0 <= i < |small| && SameTrade(small[i], accountId, tradeId);
    assert big[i] == small[i];
  }

  // ---- At-least-once delivery has exactly-once effect ----

  // A fill event can still finish the job, or nothing can change it any more.
  predicate Settling(s: JobStatus) {
    CanTransition(s, Filled) || IsTerminal(s)
  }

  // The order row already says what a final fill event would write, and the job's status does not follow it.
  predicate Closed(db: Db, e: OrderUpdate)
    requires e.clientOrderId in db.jobs && e.clientOrderId in db.orders
  {
    var order := db.orders[e.clientOrderId];
    && order.filledQty == e.filledQty && order.avgFillPrice == Some(e.avgPrice) && order.status == OrderFilled
    && !CanTransition(db.jobs[e.clientOrderId].status, Filled)
  }

  // The guard that stops e: job over, leg not positive or known, order row and status as e would leave them.
  predicate Absorbed(db: Db, e: OrderUpdate) {
    !Routed(db, e) ||
    match e.status
    case PartialFill => e.clientOrderId in db.orders ==> !NewLeg(db, e)
    case FullFill => e.clientOrderId in db.orders ==> Closed(db, e)
    case OtherStatus(_) => true
    case _ => !CanTransition(db.jobs[e.clientOrderId].status, Canceled)
  }

  lemma AbsorbedExactly(db: Db, e: OrderUpdate)
    ensures Absorbed(db, e) <==> Step(db, e) == db
  {
    if Routed(db, e) && e.clientOrderId in db.orders {
      if e.status.PartialFill? && NewLeg(db, e) {
        PartialFillGrows(db, e);
      } else if e.status.FullFill? {
        FullFillChanges(db, e);
      }
    }
  }

  lemma PartialFillGrows(db: Db, e: OrderUpdate)
    requires Routed(db, e) && e.clientOrderId in db.orders && NewLeg(db, e)
    ensures PartialFillStep(db, e).fills != db.fills
  {
    var row := LegRow(db.jobs[e.clientOrderId], db.orders[e.clientOrderId], e);
    assert PartialFillStep(db, e).fills == db.fills + [row];
  }

  lemma FullFillChanges(db: Db, e: OrderUpdate)
    requires Routed(db, e) && e.clientOrderId in db.orders
    ensures Closed(db, e) <==> FullFillStep(db, e) == db
  {
    var k, out := e.clientOrderId, FullFillStep(db, e);
    assert out.orders[k].filledQty == e.filledQty && out.orders[k].avgFillPrice == Some(e.avgPrice)
      && out.orders[k].status == OrderFilled;
    if CanTransition(db.jobs[k].status, Filled) {
      assert |out.history| == |db.history| + 1;
    } else if Closed(db, e) {
      assert out.orders == db.orders;
    }
  }

  lemma PartialFillIsAbsorbed(db: Db, e: OrderUpdate)
    requires Routed(db, e) && e.clientOrderId in db.orders && NewLeg(db, e) && e.status.PartialFill?
    ensures Absorbed(PartialFillStep(db, e), e)
  {
    PartialFillFrame(db, e);
    assert PartialFillStep(db, e).orders[e.clientOrderId].filledQty == e.filledQty;
  }

  lemma FullFillIsAbsorbed(db: Db, e: OrderUpdate)
    requires Routed(db, e) && e.clientOrderId in db.orders && e.status.FullFill?
    ensures Absorbed(FullFillStep(db, e), e)
  {
  }

  // Whatever the tables say, processing an update leaves one of the guards against it shut.
  lemma ProcessedIsAbsorbed(db: Db, e: OrderUpdate)
    ensures Absorbed(Step(db, e), e)
  {
    if Routed(db, e) && e.clientOrderId in db.orders && e.status.PartialFill? {
      if NewLeg(db, e) { PartialFillIsAbsorbed(db, e); }
    } else if Routed(db, e) && e.clientOrderId in db.orders && e.status.FullFill? {
      FullFillIsAbsorbed(db, e);
    }
  }

  // If the order has a row, its job is settling.
  predicate Guarded(db: Db, k: string) {
    k in db.jobs && k in db.orders ==> Settling(db.jobs[k].status)
  }

  // f does not move the order's total back below e, or away from it if e is final: final fill events
  // repeat the same quantity and price, and no partial fill exceeds them.
  predicate Compatible(e: OrderUpdate, f: OrderUpdate) {
    && (e.status.FullFill? && f.status.FullFill? ==> f.filledQty == e.filledQty && f.avgPrice == e.avgPrice)
    && (e.status.FullFill? && f.status.PartialFill? ==> f.filledQty <= e.filledQty)
    && (e.status.PartialFill? && f.status.FullFill? ==> e.filledQty <= f.filledQty)
  }

  lemma UnroutedStaysUnrouted(db: Db, e: OrderUpdate, f: OrderUpdate)
    requires !Routed(db, e)
    ensures !Routed(Step(db, f), e)
  {
    StepFrame(db, f);
  }

  // e is still absorbed where its own job and order are as before and fills only grew.
  lemma AbsorbedWhereUntouched(db: Db, out: Db, e: OrderUpdate)
    requires Absorbed(db, e) && db.fills <= out.fills
    requires e.clientOrderId in db.jobs
    requires e.clientOrderId in out.jobs && out.jobs[e.clientOrderId] == db.jobs[e.clientOrderId]
    requires e.clientOrderId in db.orders <==> e.clientOrderId in out.orders
    requires e.clientOrderId in db.orders ==> out.orders[e.clientOrderId] == db.orders[e.clientOrderId]
    ensures Absorbed(out, e)
  {
    if Routed(db, e) && e.status.PartialFill? && e.clientOrderId in db.orders {
      var account := db.jobs[e.clientOrderId].accountId;
      if HasFill(db.fills, account, TradeId(e)) { HasFillGrows(db.fills, out.fills, account, TradeId(e)); }
    }
  }

  lemma AbsorbedAfterPartialFill(db: Db, e: OrderUpdate, f: OrderUpdate)
    requires Absorbed(db, e) && Routed(db, e) && f.clientOrderId == e.clientOrderId && e.clientOrderId in db.orders
      && NewLeg(db, f)
    requires Guarded(db, e.clientOrderId) || (f.status.PartialFill? && Compatible(e, f))
    ensures Absorbed(PartialFillStep(db, f), e)
  {
    var k, out := e.clientOrderId, PartialFillStep(db, f);
    PartialFillFrame(db, f);
    assert out.orders[k].filledQty == f.filledQty > db.orders[k].filledQty;
    if e.status.PartialFill? && HasFill(db.fills, db.jobs[k].accountId, TradeId(e)) {
      HasFillGrows(db.fills, out.fills, db.jobs[k].accountId, TradeId(e));
    }
  }

  lemma AbsorbedAfterFullFill(db: Db, e: OrderUpdate, f: OrderUpdate)
    requires Absorbed(db, e) && Routed(db, e) && f.clientOrderId == e.clientOrderId && e.clientOrderId in db.orders
    requires Guarded(db, e.clientOrderId) || (f.status.FullFill? && Compatible(e, f))
    ensures Absorbed(FullFillStep(db, f), e)
  {
    var k, out := e.clientOrderId, FullFillStep(db, f);
    FullFillFrame(db, f);
    assert out.orders[k].filledQty == f.filledQty;
    assert out.jobs[k].status == if CanTransition(db.jobs[k].status, Filled) then Filled else db.jobs[k].status;
    if e.status.PartialFill? && HasFill(db.fills, db.jobs[k].accountId, TradeId(e)) {
      HasFillGrows(db.fills, out.fills, db.jobs[k].accountId, TradeId(e));
    }
  }

  lemma AbsorbedIsStable(db: Db, e: OrderUpdate, f: OrderUpdate)
    requires Absorbed(db, e)
    requires f.clientOrderId == e.clientOrderId ==> Guarded(db, e.clientOrderId) || Compatible(e, f)
    ensures Absorbed(Step(db, f), e)
  {
    if !Routed(db, e) {
      UnroutedStaysUnrouted(db, e, f);
    } else if f.clientOrderId != e.clientOrderId {
      StepFrame(db, f);
      AbsorbedWhereUntouched(db, Step(db, f), e);
    } else if f.status.PartialFill? && f.clientOrderId in db.orders && NewLeg(db, f) {
      AbsorbedAfterPartialFill(db, e, f);
    } else if f.status.FullFill? && f.clientOrderId in db.orders {
      AbsorbedAfterFullFill(db, e, f);
    }
  }

  lemma FillsKeepSettling(db: Db, f: OrderUpdate)
    requires Routed(db, f) && Settling(db.jobs[f.clientOrderId].status)
    ensures f.clientOrderId in PartialFillStep(db, f).jobs
      && Settling(PartialFillStep(db, f).jobs[f.clientOrderId].status)
    ensures f.clientOrderId in FullFillStep(db, f).jobs && Settling(FullFillStep(db, f).jobs[f.clientOrderId].status)
  {
  }

  lemma GuardedStep(db: Db, f: OrderUpdate, k: string)
    requires Guarded(db, k)
    ensures Guarded(Step(db, f), k)
  {
    StepFrame(db, f);
    if k == f.clientOrderId && k in db.orders && Routed(db, f) {
      if f.status.PartialFill? || f.status.FullFill? { FillsKeepSettling(db, f); }
    }
  }

  lemma {:induction false} ProcessedStaysAbsorbed(db: Db, es: seq<OrderUpdate>, i: nat)
    requires i < |es|
    requires Guarded(db, es[i].clientOrderId) ||
      forall j | 0 <= j < |es| && es[j].clientOrderId == es[i].clientOrderId :: Compatible(es[i], es[j])
    ensures Absorbed(Run(db, es), es[i])
  {
    var init, last := es[..|es| - 1], es[|es| - 1];
    if i < |init| {
      assert forall j | 0 <= j < |init| :: init[j] == es[j];
      ProcessedStaysAbsorbed(db, init, i);
      GuardedIsKept(db, init, es[i].clientOrderId);
      AbsorbedIsStable(Run(db, init), es[i], last);
    } else {
      ProcessedIsAbsorbed(Run(db, init), last);
    }
  }

  lemma {:induction false} GuardedIsKept(db: Db, es: seq<OrderUpdate>, k: string)
    ensures Guarded(db, k) ==> Guarded(Run(db, es), k)
  {
    if es != [] && Guarded(db, k) {
      GuardedIsKept(db, es[..|es| - 1], k);
      GuardedStep(Run(db, es[..|es| - 1]), es[|es| - 1], k);
    }
  }

  lemma {:induction false} NoJobIsCreated(db: Db, es: seq<OrderUpdate>, k: string)
    ensures k in Run(db, es).jobs <==> k in db.jobs
    ensures k in Run(db, es).orders <==> k in db.orders
  {
    if es != [] {
      NoJobIsCreated(db, es[..|es| - 1], k);
      StepFrame(Run(db, es[..|es| - 1]), es[|es| - 1]);
    }
  }

  // Any update already processed may be delivered again, at any later point of any stream that
  // mixes the updates of any number of orders.
  lemma RedeliveryHasNoEffect(db: Db, es: seq<OrderUpdate>, i: nat)
    requires i < |es| && Guarded(db, es[i].clientOrderId)
    ensures Run(db, es + [es[i]]) == Run(db, es)
  {
    ProcessedStaysAbsorbed(db, es, i);
    AbsorbedExactly(Run(db, es), es[i]);
    RunAppend(db, es, es[i]);
  }

  ghost predicate Consistent(es: seq<OrderUpdate>) {
    forall i, j | 0 <= i < |es| && 0 <= j < |es| && es[i].clientOrderId == es[j].clientOrderId ::
      Compatible(es[i], es[j])
  }

  // The same from any tables at all, for streams in which an order's final fill events agree and bound
  // its partial fills.
  lemma ConsistentRedeliveryHasNoEffect(db: Db, es: seq<OrderUpdate>, i: nat)
    requires i < |es| && Consistent(es)
    ensures Run(db, es + [es[i]]) == Run(db, es)
  {
    ProcessedStaysAbsorbed(db, es, i);
    AbsorbedExactly(Run(db, es), es[i]);
    RunAppend(db, es, es[i]);
  }

  // The stream without its repetitions: every update where it first occurs.
  function Firsts(es: seq<OrderUpdate>): seq<OrderUpdate> {
    if es == [] then []
    else
      var init, last := es[..|es| - 1], es[|es| - 1];
      if last in init then Firsts(init) else Firsts(init) + [last]
  }

  lemma {:induction false} FirstsOccurOnce(es: seq<OrderUpdate>)
    ensures forall e :: e in Firsts(es) <==> e in es
    ensures forall i, j | 0 <= i < j < |Firsts(es)| :: Firsts(es)[i] != Firsts(es)[j]
  {
    if es != [] {
      var init, last := es[..|es| - 1], es[|es| - 1];
      FirstsOccurOnce(init);
      assert es == init + [last];
      forall i | 0 <= i < |Firsts(init)| ensures Firsts(init)[i] in init { assert Firsts(init)[i] in Firsts(init); }
    }
  }

  // At-least-once delivery has exactly-once effect: a stream leaves the tables it would leave without
  // any repetition.
  lemma {:induction false} RepetitionsHaveNoEffect(db: Db, es: seq<OrderUpdate>)
    requires (forall e | e in es :: Guarded(db, e.clientOrderId)) || Consistent(es)
    ensures Run(db, es) == Run(db, Firsts(es))
  {
    if es != [] {
      var init, last := es[..|es| - 1], es[|es| - 1];
      assert es == init + [last];
      assert forall i | 0 <= i < |init| :: init[i] == es[i];
      RepetitionsHaveNoEffect(db, init);
      if last in init {
        var i :| 0 <= i < |init| && init[i] == last;
        if Consistent(es) { ConsistentRedeliveryHasNoEffect(db, init, i); } else { RedeliveryHasNoEffect(db, init, i); }
      } else {
        RunAppend(db, Firsts(init), last);
      }
    }
  }

  ghost predicate SafeToRedeliver(db: Db, k: string) {
    forall es: seq<OrderUpdate>, i: nat | i < |es| && es[i].clientOrderId == k ::
      Run(db, es + [es[i]]) == Run(db, es)
  }

  // Over all streams, consistent or not, only the tables at the start decide: an order row whose job is
  // not settling can lose filled quantity to a redelivered final fill event that a later one contradicts.
  lemma RedeliveryIsSafeExactly(db: Db, k: string)
    requires IsOurs(k)
    ensures SafeToRedeliver(db, k) <==> Guarded(db, k)
  {
    if Guarded(db, k) {
      forall es: seq<OrderUpdate>, i: nat | i < |es| && es[i].clientOrderId == k
        ensures Run(db, es + [es[i]]) == Run(db, es)
      {
        RedeliveryHasNoEffect(db, es, i);
      }
    } else {
      var one := OrderUpdate(k, "X", FullFill, 1.0, 2.0, 1.0, 0.0, "USDT", 0.0, 1, "S");
      var two := one.(filledQty := 2.0, tradeTimeMs := 2);
      var es := [one, two];
      RunAppend(db, [one], two);
      RunAppend(db, [], one);
      RunAppend(db, es, one);
      assert [] + [one] == [one] && [one] + [two] == es;
      assert Run(db, []) == db;
      var db1 := Step(db, one);
      assert db1.orders[k].filledQty == 1.0 && db1.jobs[k].status == db.jobs[k].status;
      var db2 := Step(db1, two);
      assert db2.orders[k].filledQty == 2.0 && db2.jobs[k].status == db.jobs[k].status;
      assert Step(db2, one).orders[k].filledQty == 1.0;
      assert es[0].clientOrderId == k && Run(db, es + [es[0]]) != Run(db, es);
    }
  }

  // ---- Filled quantity is the sum of the recorded legs ----

  // The part of an order's filled quantity that no recorded leg accounts for.
  function Unrecorded(db: Db, k: string): real
    requires k in db.orders
  {
    db.orders[k].filledQty - LegTotal(db.fills, k)
  }

  // A final fill event that moves the total without recording the difference as a leg.
  predicate Lossy(db: Db, e: OrderUpdate, k: string) {
    e.clientOrderId == k && Routed(db, e) && e.status.FullFill? && k in db.orders &&
    (Leg(db, e) < 0.0 || (Leg(db, e) > 0.0 && HasFill(db.fills, db.jobs[k].accountId, TradeId(e))))
  }

  lemma LegRecorded(db: Db, e: OrderUpdate, k: string, row: FillRow, status: OrderStatus)
    requires k in db.orders && e.clientOrderId in db.orders && row.clientOrderId == e.clientOrderId
    requires !HasFill(db.fills, row.accountId, row.exchangeTradeId)
    ensures var out := SetFilled(AddFill(db, row), e.clientOrderId, e.filledQty, e.avgPrice, status);
      Unrecorded(out, k) == if k == e.clientOrderId then Unrecorded(db, k) + Leg(db, e) - row.qty else Unrecorded(db, k)
  {
    LegTotalAppend(db.fills, row, k);
  }

  lemma PartialFillConserves(db: Db, e: OrderUpdate, k: string)
    requires Routed(db, e) && k in db.orders
    ensures k in PartialFillStep(db, e).orders && Unrecorded(PartialFillStep(db, e), k) == Unrecorded(db, k)
  {
    if e.clientOrderId in db.orders && NewLeg(db, e) {
      var row := LegRow(db.jobs[e.clientOrderId], db.orders[e.clientOrderId], e);
      LegRecorded(db, e, k, row, if e.filledQty >= e.origQty then OrderFilled else OrderPartiallyFilled);
    }
  }

  lemma FullFillConserves(db: Db, e: OrderUpdate, k: string)
    requires Routed(db, e) && k in db.orders && e.status.FullFill?
    ensures k in FullFillStep(db, e).orders
    ensures Unrecorded(FullFillStep(db, e), k) == Unrecorded(db, k) + (if Lossy(db, e, k) then Leg(db, e) else 0.0)
  {
    if e.clientOrderId in db.orders && NewLeg(db, e) {
      LegRecorded(db, e, k, LegRow(db.jobs[e.clientOrderId], db.orders[e.clientOrderId], e), OrderFilled);
    }
  }

  // What one update adds to the unrecorded part: nothing, except that a lossy one adds its whole leg.
  lemma StepConserves(db: Db, e: OrderUpdate, k: string)
    requires k in db.orders
    ensures k in Step(db, e).orders
    ensures Unrecorded(Step(db, e), k) == Unrecorded(db, k) + (if Lossy(db, e, k) then Leg(db, e) else 0.0)
  {
    if Routed(db, e) && e.status.PartialFill? {
      PartialFillConserves(db, e, k);
    } else if Routed(db, e) && e.status.FullFill? {
      FullFillConserves(db, e, k);
    }
  }

  function LossTotal(db: Db, es: seq<OrderUpdate>, k: string): real
    requires k in db.orders
  {
    if es == [] then 0.0
    else
      var before := Run(db, es[..|es| - 1]);
      NoJobIsCreated(db, es[..|es| - 1], k);
      LossTotal(db, es[..|es| - 1], k) +
      (if Lossy(before, es[|es| - 1], k) then Leg(before, es[|es| - 1]) else 0.0)
  }

  // Conservation over every stream: the filled quantity is the initial one plus all recorded legs
  // plus what lossy final fills moved.
  lemma {:induction false} FilledQtyIsConserved(db: Db, es: seq<OrderUpdate>, k: string)
    requires k in db.orders
    ensures k in Run(db, es).orders
    ensures Run(db, es).orders[k].filledQty
         == db.orders[k].filledQty + (LegTotal(Run(db, es).fills, k) - LegTotal(db.fills, k)) + LossTotal(db, es, k)
  {
    NoJobIsCreated(db, es, k);
    if es != [] {
      FilledQtyIsConserved(db, es[..|es| - 1], k);
      StepConserves(Run(db, es[..|es| - 1]), es[|es| - 1], k);
    }
  }

  // Without final fill events no hypothesis is needed: a leg suppressed by a trade-id collision
  // is absorbed by the next accepted event.
  lemma {:induction false} PartialFillsLoseNothing(db: Db, es: seq<OrderUpdate>, k: string)
    requires k in db.orders
    requires forall e | e in es && e.clientOrderId == k :: !e.status.FullFill?
    ensures LossTotal(db, es, k) == 0.0
  {
    if es != [] {
      PartialFillsLoseNothing(db, es[..|es| - 1], k);
      assert es[|es| - 1] in es;
    }
  }

  lemma KnownFinalLegIsDropped(db: Db, e: OrderUpdate)
    requires Routed(db, e) && e.clientOrderId in db.orders && CanTransition(db.jobs[e.clientOrderId].status, Filled)
    requires HasFill(db.fills, db.jobs[e.clientOrderId].accountId, TradeId(e))
    ensures var out := FullFillStep(db, e);
      && out.fills == db.fills && e.clientOrderId in out.orders && out.orders[e.clientOrderId].filledQty == e.filledQty
      && e.clientOrderId in out.jobs && out.jobs[e.clientOrderId].status == Filled
  {
  }

  lemma FirstLegIsRecorded(db: Db, e: OrderUpdate)
    requires Routed(db, e) && e.clientOrderId in db.orders && NewLeg(db, e) && e.filledQty < e.origQty
    requires db.jobs[e.clientOrderId].status == Acknowledged
    ensures var out, row := PartialFillStep(db, e), LegRow(db.jobs[e.clientOrderId], db.orders[e.clientOrderId], e);
      && out.fills == db.fills + [row] && e.clientOrderId in out.orders && e.clientOrderId in out.jobs
      && out.jobs[e.clientOrderId].accountId == db.jobs[e.clientOrderId].accountId
      && out.jobs[e.clientOrderId].status == PartiallyFilled
  {
  }

  // The loss is real: two fills of one order in the same millisecond share a trade id, and if the second
  // completes the order its leg is dropped while the total moves on.
  lemma SharedTradeIdLosesTheFinalLeg(db: Db, first: OrderUpdate, last: OrderUpdate)
    requires Routed(db, first) && first.clientOrderId in db.orders
      && db.jobs[first.clientOrderId].status == Acknowledged
    requires first.status.PartialFill? && first.filledQty < first.origQty && NewLeg(db, first)
    requires last.status.FullFill? && last.clientOrderId == first.clientOrderId && SameExecution(first, last)
    ensures var k, out := first.clientOrderId, Run(db, [first, last]);
      && k in out.orders && out.orders[k].filledQty == last.filledQty
      && LegTotal(out.fills, k) == LegTotal(db.fills, k) + (first.filledQty - db.orders[k].filledQty)
      && k in out.jobs && out.jobs[k].status == Filled
  {
    var k, mid := first.clientOrderId, Step(db, first);
    var row := LegRow(db.jobs[k], db.orders[k], first);
    RunOfTwo(db, first, last);
    FirstLegIsRecorded(db, first);
    LegTotalAppend(db.fills, row, k);
    assert SameTrade(mid.fills[|db.fills|], db.jobs[k].accountId, TradeId(last));
    KnownFinalLegIsDropped(mid, last);
  }

  // A step records at most one fill row: the leg, if it is new.
  lemma StepFills(db: Db, e: OrderUpdate)
    ensures Step(db, e).fills == db.fills ||
      (Routed(db, e) && e.clientOrderId in db.orders && NewLeg(db, e) &&
       Step(db, e).fills == db.fills + [LegRow(db.jobs[e.clientOrderId], db.orders[e.clientOrderId], e)])
  {
  }

  lemma StepAddsPositiveLegs(db: Db, e: OrderUpdate)
    ensures db.fills <= Step(db, e).fills
    ensures forall i | |db.fills| <= i < |Step(db, e).fills| :: Step(db, e).fills[i].qty > 0.0
    ensures UniqueTrades(db.fills) ==> UniqueTrades(Step(db, e).fills)
  {
    StepFills(db, e);
    if Step(db, e).fills != db.fills {
      var row := LegRow(db.jobs[e.clientOrderId], db.orders[e.clientOrderId], e);
      assert row.qty > 0.0 && AddFill(db, row).fills == Step(db, e).fills;
      if UniqueTrades(db.fills) { AddFillKeepsTradesUnique(db, row); }
    }
  }

  lemma RunOfTwo(db: Db, e: OrderUpdate, f: OrderUpdate)
    ensures Run(db, [e, f]) == Step(Step(db, e), f)
  {
    RunAppend(db, [], e);
    RunAppend(db, [e], f);
    assert [] + [e] == [e] && [e] + [f] == [e, f];
  }

  // An order keeps its account and its exchange order id.
  lemma StepKeepsOrderIds(db: Db, e: OrderUpdate, k: string)
    requires k in db.orders
    ensures var out := Step(db, e);
      && k in out.orders && out.orders[k].accountId == db.orders[k].accountId
      && out.orders[k].exchangeOrderId == db.orders[k].exchangeOrderId
  {
    if Routed(db, e) && e.clientOrderId in db.orders {
      FillsKeepOrderIds(db, e, k);
    }
  }

  lemma FillsKeepOrderIds(db: Db, e: OrderUpdate, k: string)
    requires Routed(db, e) && k in db.orders && e.clientOrderId in db.orders
    ensures forall out | out == PartialFillStep(db, e) || out == FullFillStep(db, e) ::
      && k in out.orders && out.orders[k].accountId == db.orders[k].accountId
      && out.orders[k].exchangeOrderId == db.orders[k].exchangeOrderId
  {
  }

  lemma NewFillsAreOfTheOrder(db: Db, e: OrderUpdate)
    ensures db.fills <= Step(db, e).fills
    ensures forall i | |db.fills| <= i < |Step(db, e).fills| ::
      Step(db, e).fills[i].clientOrderId == e.clientOrderId && e.clientOrderId in db.orders
  {
    StepFills(db, e);
  }

  // Every leg ever recorded is positive, and (account, trade id) stays unique.
  lemma {:induction false} LegsArePositiveAndUnique(db: Db, es: seq<OrderUpdate>)
    ensures db.fills <= Run(db, es).fills
    ensures forall i | |db.fills| <= i < |Run(db, es).fills| :: Run(db, es).fills[i].qty > 0.0
    ensures UniqueTrades(db.fills) ==> UniqueTrades(Run(db, es).fills)
  {
    if es != [] {
      var mid := Run(db, es[..|es| - 1]);
      LegsArePositiveAndUnique(db, es[..|es| - 1]);
      StepAddsPositiveLegs(mid, es[|es| - 1]);
      var out := Run(db, es);
      forall i | |db.fills| <= i < |out.fills| ensures out.fills[i].qty > 0.0 {
        if i < |mid.fills| { assert out.fills[i] == mid.fills[i]; }
      }
    }
  }

  // ---- Partial fills may arrive in any order ----

  predicate SameExecution(e: OrderUpdate, f: OrderUpdate) {
    e.exchangeOrderId == f.exchangeOrderId && e.tradeTimeMs == f.tradeTimeMs
  }

  ghost predicate DistinctExecutions(es: seq<OrderUpdate>) {
    forall i, j | 0 <= i < j < |es| :: !SameExecution(es[i], es[j])
  }

  // Incomplete partial fills of order k, none of whose executions is recorded yet.
  ghost predicate FreshPartials(db: Db, es: seq<OrderUpdate>, k: string) {
    && IsOurs(k) && k in db.jobs && !IsTerminal(db.jobs[k].status) && k in db.orders
    && (forall e | e in es :: e.clientOrderId == k && e.status.PartialFill? && e.filledQty < e.origQty)
    && (forall e | e in es :: !HasFill(db.fills, db.jobs[k].accountId, TradeId(e)))
    && DistinctExecutions(es)
  }

  function MaxCumulative(initial: real, es: seq<OrderUpdate>): real {
    if es == [] then initial
    else
      var m := MaxCumulative(initial, es[..|es| - 1]);
      if es[|es| - 1].filledQty > m then es[|es| - 1].filledQty else m
  }

  function StatusAfterPartials(s: JobStatus, progress: bool): JobStatus {
    if s == Acknowledged && progress then PartiallyFilled else s
  }

  // What a partial fill with an unrecorded execution does to order k.
  ghost predicate PartialEffect(db: Db, out: Db, e: OrderUpdate, k: string)
    requires k in db.jobs && k in db.orders && k == e.clientOrderId
  {
    && out.jobs.Keys == db.jobs.Keys && out.orders.Keys == db.orders.Keys
    && out.jobs[k].accountId == db.jobs[k].accountId
    && out.orders[k].filledQty == (if Leg(db, e) > 0.0 then e.filledQty else db.orders[k].filledQty)
    && out.jobs[k].status == StatusAfterPartials(db.jobs[k].status, Leg(db, e) > 0.0)
    && out.fills == if Leg(db, e) > 0.0 then db.fills + [LegRow(db.jobs[k], db.orders[k], e)] else db.fills
  }

  lemma PartialStepEffect(db: Db, e: OrderUpdate, k: string)
    requires Routed(db, e) && k == e.clientOrderId && k in db.orders && e.status.PartialFill? && e.filledQty < e.origQty
    requires !HasFill(db.fills, db.jobs[k].accountId, TradeId(e))
    ensures PartialEffect(db, Step(db, e), e, k)
  {
    StepFrame(db, e);
  }

  lemma PrefixOfFresh(db: Db, es: seq<OrderUpdate>, k: string)
    requires FreshPartials(db, es, k) && es != []
    ensures FreshPartials(db, es[..|es| - 1], k)
  {
    forall e | e in es[..|es| - 1] ensures e in es { }
  }

  // Every fill of out is one of db or carries the trade id of one of the updates.
  ghost predicate FillsFrom(db: Db, out: Db, es: seq<OrderUpdate>) {
    forall i | 0 <= i < |out.fills| :: out.fills[i] in db.fills || FromUpdate(out.fills[i], es)
  }

  ghost predicate FromUpdate(f: FillRow, es: seq<OrderUpdate>) {
    exists j | 0 <= j < |es| :: f.exchangeTradeId == TradeId(es[j])
  }

  lemma FillsFromStep(db: Db, mid: Db, out: Db, es: seq<OrderUpdate>, row: FillRow)
    requires es != [] && FillsFrom(db, mid, es[..|es| - 1])
    requires out.fills == mid.fills || (out.fills == mid.fills + [row] && row.exchangeTradeId == TradeId(es[|es| - 1]))
    ensures FillsFrom(db, out, es)
  {
    forall i | 0 <= i < |out.fills| ensures out.fills[i] in db.fills || FromUpdate(out.fills[i], es) {
      if i < |mid.fills| {
        assert out.fills[i] == mid.fills[i];
        if mid.fills[i] !in db.fills {
          var j :| 0 <= j < |es| - 1 && mid.fills[i].exchangeTradeId == TradeId(es[..|es| - 1][j]);
          assert out.fills[i].exchangeTradeId == TradeId(es[j]);
        }
      } else {
        assert out.fills[i].exchangeTradeId == TradeId(es[|es| - 1]);
      }
    }
  }

  // The filled quantity ends at the largest cumulative seen, the legs add up to what was gained,
  // and the job moves to partially_filled exactly if something was.
  ghost predicate ReachedTheMaximum(db: Db, out: Db, es: seq<OrderUpdate>, k: string)
    requires k in db.orders && k in db.jobs
  {
    var initial := db.orders[k].filledQty;
    && out.jobs.Keys == db.jobs.Keys && out.orders.Keys == db.orders.Keys
    && out.orders[k].filledQty == MaxCumulative(initial, es)
    && LegTotal(out.fills, k) - LegTotal(db.fills, k) == MaxCumulative(initial, es) - initial
    && out.jobs[k].accountId == db.jobs[k].accountId
    && out.jobs[k].status == StatusAfterPartials(db.jobs[k].status, MaxCumulative(initial, es) > initial)
  }

  lemma MaximumStep(db: Db, mid: Db, out: Db, es: seq<OrderUpdate>, k: string)
    requires k in db.jobs && k in db.orders && k in mid.jobs && k in mid.orders
    requires es != [] && es[|es| - 1].clientOrderId == k
    requires ReachedTheMaximum(db, mid, es[..|es| - 1], k) && PartialEffect(mid, out, es[|es| - 1], k)
    requires MaxCumulative(db.orders[k].filledQty, es[..|es| - 1]) >= db.orders[k].filledQty
    ensures ReachedTheMaximum(db, out, es, k)
  {
    LegTotalAppend(mid.fills, LegRow(mid.jobs[k], mid.orders[k], es[|es| - 1]), k);
  }

  lemma {:induction false} PartialsReachTheMaximum(db: Db, es: seq<OrderUpdate>, k: string)
    requires FreshPartials(db, es, k)
    ensures ReachedTheMaximum(db, Run(db, es), es, k) && FillsFrom(db, Run(db, es), es)
  {
    if es != [] {
      var init, last := es[..|es| - 1], es[|es| - 1];
      PrefixOfFresh(db, es, k);
      PartialsReachTheMaximum(db, init, k);
      MaxCumulativeBounds(db.orders[k].filledQty, init);
      assert last in es;
      FreshUntilNow(db, es, k, Run(db, init));
      PartialStepEffect(Run(db, init), last, k);
      MaximumStep(db, Run(db, init), Run(db, es), es, k);
      FillsFromStep(db, Run(db, init), Run(db, es), es, LegRow(Run(db, init).jobs[k], Run(db, init).orders[k], last));
    }
  }

  lemma FreshUntilNow(db: Db, es: seq<OrderUpdate>, k: string, mid: Db)
    requires FreshPartials(db, es, k) && es != [] && FillsFrom(db, mid, es[..|es| - 1])
    ensures !HasFill(mid.fills, db.jobs[k].accountId, TradeId(es[|es| - 1]))
  {
    var last, account := es[|es| - 1], db.jobs[k].accountId;
    forall i | 0 <= i < |mid.fills| ensures !SameTrade(mid.fills[i], account, TradeId(last)) {
      if mid.fills[i] in db.fills {
        var j :| 0 <= j < |db.fills| && db.fills[j] == mid.fills[i];
        assert last in es && !SameTrade(db.fills[j], account, TradeId(last));
      } else {
        var j :| 0 <= j < |es| - 1 && mid.fills[i].exchangeTradeId == TradeId(es[..|es| - 1][j]);
        var e := es[j];
        assert !SameExecution(e, last);
        if TradeId(e) == TradeId(last) {
          TradeIds.FormatInjective(e.exchangeOrderId, e.tradeTimeMs, last.exchangeOrderId, last.tradeTimeMs);
        }
      }
    }
  }

  lemma {:induction false} MaxCumulativeBounds(initial: real, es: seq<OrderUpdate>)
    ensures MaxCumulative(initial, es) >= initial
    ensures forall e | e in es :: MaxCumulative(initial, es) >= e.filledQty
    ensures MaxCumulative(initial, es) == initial || exists e | e in es :: MaxCumulative(initial, es) == e.filledQty
  {
    if es != [] {
      var init, last := es[..|es| - 1], es[|es| - 1];
      MaxCumulativeBounds(initial, init);
      forall e | e in es ensures MaxCumulative(initial, es) >= e.filledQty {
        if e != last { assert e in init; }
      }
      if MaxCumulative(initial, es) != initial {
        if last.filledQty > MaxCumulative(initial, init) {
          assert last in es;
        } else {
          var e :| e in init && MaxCumulative(initial, init) == e.filledQty;
          assert e in es;
        }
      }
    }
  }

  lemma TwiceInMultiset<T>(s: seq<T>, i: nat, j: nat)
    requires i < j < |s| && s[i] == s[j]
    ensures multiset(s)[s[i]] >= 2
  {
    assert s == s[..j] + s[j..];
    assert s[..j][i] == s[i] && s[j..][0] == s[i];
    assert s[i] in multiset(s[..j]) && s[i] in multiset(s[j..]);
  }

  lemma OnceInMultiset(es: seq<OrderUpdate>, i: nat)
    requires i < |es| && DistinctExecutions(es)
    ensures multiset(es)[es[i]] == 1
  {
    var e, before, after := es[i], es[..i], es[i + 1..];
    assert es == before + [e] + after;
    assert e !in before by {
      forall j | 0 <= j < |before| ensures before[j] != e { assert !SameExecution(es[j], es[i]); }
    }
    assert e !in after by {
      forall j | 0 <= j < |after| ensures after[j] != e { assert !SameExecution(es[i], es[i + 1 + j]); }
    }
  }

  lemma PermutedExecutionsDiffer(es: seq<OrderUpdate>, fs: seq<OrderUpdate>, i: nat, j: nat)
    requires DistinctExecutions(es) && multiset(es) == multiset(fs) && i < j < |fs|
    ensures !SameExecution(fs[i], fs[j])
  {
    assert fs[i] in multiset(fs) && fs[j] in multiset(fs);
    var a :| 0 <= a < |es| && es[a] == fs[i];
    var b :| 0 <= b < |es| && es[b] == fs[j];
    if fs[i] == fs[j] {
      TwiceInMultiset(fs, i, j);
      OnceInMultiset(es, a);
      assert false;
    } else if a < b {
      assert !SameExecution(es[a], es[b]);
    } else {
      assert !SameExecution(es[b], es[a]);
    }
  }

  lemma PermutationStaysFresh(db: Db, es: seq<OrderUpdate>, fs: seq<OrderUpdate>, k: string)
    requires FreshPartials(db, es, k) && multiset(es) == multiset(fs)
    ensures FreshPartials(db, fs, k)
  {
    forall e | e in fs ensures e in es { assert e in multiset(fs); }
    forall i, j | 0 <= i < j < |fs| ensures !SameExecution(fs[i], fs[j]) {
      PermutedExecutionsDiffer(es, fs, i, j);
    }
  }

  // Any two orders of the same partial fills leave the same filled quantity, the same total of
  // legs and the same job status.
  lemma PartialFillsCommute(db: Db, es: seq<OrderUpdate>, fs: seq<OrderUpdate>, k: string)
    requires FreshPartials(db, es, k) && multiset(es) == multiset(fs)
    ensures k in Run(db, es).orders && k in Run(db, fs).orders && k in Run(db, es).jobs && k in Run(db, fs).jobs
    ensures Run(db, es).orders[k].filledQty == Run(db, fs).orders[k].filledQty
    ensures LegTotal(Run(db, es).fills, k) == LegTotal(Run(db, fs).fills, k)
    ensures Run(db, es).jobs[k].status == Run(db, fs).jobs[k].status
  {
    var initial := db.orders[k].filledQty;
    PermutationStaysFresh(db, es, fs, k);
    PartialsReachTheMaximum(db, es, k);
    PartialsReachTheMaximum(db, fs, k);
    MaxCumulativeBounds(initial, es);
    MaxCumulativeBounds(initial, fs);
    forall e ensures e in es <==> e in fs { assert e in multiset(es) <==> e in multiset(fs); }
    assert MaxCumulative(initial, es) == MaxCumulative(initial, fs);
  }

  // ---- The final fill may arrive anywhere among the partial ones ----

  // A final fill of order k whose execution is neither recorded nor among es, and which no partial fill
  // of es exceeds.
  ghost predicate FitsAsFinal(db: Db, es: seq<OrderUpdate>, final: OrderUpdate, k: string)
    requires k in db.jobs && k in db.orders
  {
    && final.clientOrderId == k && final.status.FullFill? && CanTransition(db.jobs[k].status, Filled)
    && !HasFill(db.fills, db.jobs[k].accountId, TradeId(final))
    && (forall e | e in es :: !SameExecution(e, final))
    && MaxCumulative(db.orders[k].filledQty, es) <= final.filledQty
  }

  // The job is filled, the order's total is q, and the legs make up the difference.
  ghost predicate EndsAt(db: Db, out: Db, k: string, q: real)
    requires k in db.orders
  {
    && k in out.orders && k in out.jobs && out.jobs[k].status == Filled
    && out.orders[k].filledQty == q && out.orders[k].status == OrderFilled
    && LegTotal(out.fills, k) - LegTotal(db.fills, k) == q - db.orders[k].filledQty
  }

  lemma NotYetRecorded(db: Db, mid: Db, es: seq<OrderUpdate>, final: OrderUpdate, accountId: string)
    requires FillsFrom(db, mid, es) && !HasFill(db.fills, accountId, TradeId(final))
    requires forall e | e in es :: !SameExecution(e, final)
    ensures !HasFill(mid.fills, accountId, TradeId(final))
  {
    forall i | 0 <= i < |mid.fills| ensures !SameTrade(mid.fills[i], accountId, TradeId(final)) {
      if mid.fills[i] in db.fills {
        var j :| 0 <= j < |db.fills| && db.fills[j] == mid.fills[i];
        assert !SameTrade(db.fills[j], accountId, TradeId(final));
      } else {
        var j :| 0 <= j < |es| && mid.fills[i].exchangeTradeId == TradeId(es[j]);
        var e := es[j];
        assert e in es && !SameExecution(e, final);
        if TradeId(e) == TradeId(final) {
          TradeIds.FormatInjective(e.exchangeOrderId, e.tradeTimeMs, final.exchangeOrderId, final.tradeTimeMs);
        }
      }
    }
  }

  lemma FinalFillCompletes(db: Db, final: OrderUpdate, k: string)
    requires IsOurs(k) && k in db.jobs && k in db.orders && final.clientOrderId == k && final.status.FullFill?
    requires CanTransition(db.jobs[k].status, Filled) && Leg(db, final) >= 0.0
    requires !HasFill(db.fills, db.jobs[k].accountId, TradeId(final))
    ensures EndsAt(db, FullFillStep(db, final), k, final.filledQty)
  {
    var row := LegRow(db.jobs[k], db.orders[k], final);
    LegTotalAppend(db.fills, row, k);
    assert FullFillStep(db, final).fills == if Leg(db, final) > 0.0 then db.fills + [row] else db.fills;
  }

  lemma {:induction false} FinishedStaysFinished(db: Db, es: seq<OrderUpdate>, k: string)
    requires k in db.jobs && IsTerminal(db.jobs[k].status) && forall e | e in es :: e.clientOrderId == k
    ensures Run(db, es) == db
  {
    if es != [] {
      FinishedStaysFinished(db, es[..|es| - 1], k);
      assert es[|es| - 1] in es;
    }
  }

  lemma StillCompletable(db: Db, mid: Db, es: seq<OrderUpdate>, final: OrderUpdate, k: string)
    requires k in db.jobs && k in db.orders && FitsAsFinal(db, es, final, k) && ReachedTheMaximum(db, mid, es, k)
    ensures k in mid.jobs && k in mid.orders && mid.jobs[k].accountId == db.jobs[k].accountId
    ensures CanTransition(mid.jobs[k].status, Filled) && Leg(mid, final) >= 0.0
  {
  }

  lemma GainsAddUp(db: Db, mid: Db, out: Db, es: seq<OrderUpdate>, k: string, q: real)
    requires k in db.jobs && k in db.orders && k in mid.orders
    requires ReachedTheMaximum(db, mid, es, k) && EndsAt(mid, out, k, q)
    ensures EndsAt(db, out, k, q)
  {
  }

  lemma FinalFillEnds(db: Db, pre: seq<OrderUpdate>, final: OrderUpdate, k: string)
    requires FreshPartials(db, pre, k) && FitsAsFinal(db, pre, final, k)
    ensures EndsAt(db, Run(db, pre + [final]), k, final.filledQty)
  {
    var mid := Run(db, pre);
    PartialsReachTheMaximum(db, pre, k);
    NotYetRecorded(db, mid, pre, final, db.jobs[k].accountId);
    StillCompletable(db, mid, pre, final, k);
    FinalFillCompletes(mid, final, k);
    GainsAddUp(db, mid, FullFillStep(mid, final), pre, k, final.filledQty);
    RunAppend(db, pre, final);
  }

  // Wherever the final fill arrives among the partial ones, and whatever is repeated or late after it,
  // the order ends filled at the final quantity, all of it in legs.
  lemma FinalFillDecides(db: Db, pre: seq<OrderUpdate>, final: OrderUpdate, post: seq<OrderUpdate>, k: string)
    requires FreshPartials(db, pre, k) && FitsAsFinal(db, pre, final, k)
    requires forall e | e in post :: e.clientOrderId == k
    ensures EndsAt(db, Run(db, pre + [final] + post), k, final.filledQty)
  {
    FinalFillEnds(db, pre, final, k);
    RunConcat(db, pre + [final], post);
    FinishedStaysFinished(Run(db, pre + [final]), post, k);
  }

  lemma {:induction false} RunConcat(db: Db, es: seq<OrderUpdate>, fs: seq<OrderUpdate>)
    ensures Run(db, es + fs) == Run(Run(db, es), fs)
  {
    if fs == [] {
      assert es + fs == es;
    } else {
      var init, last := fs[..|fs| - 1], fs[|fs| - 1];
      RunConcat(db, es, init);
      assert es + fs == (es + init) + [last] && fs == init + [last];
      RunAppend(db, es + init, last);
      RunAppend(Run(db, es), init, last);
    }
  }

  lemma DistinctWithTheFinal(es: seq<OrderUpdate>, final: OrderUpdate)
    requires DistinctExecutions(es) && forall e | e in es :: !SameExecution(e, final)
    ensures DistinctExecutions(es + [final])
  {
    var all := es + [final];
    forall i, j | 0 <= i < j < |all| ensures !SameExecution(all[i], all[j]) {
      assert all[i] == es[i] && es[i] in es;
      if j < |es| { assert !SameExecution(es[i], es[j]); }
    }
  }

  lemma DistinctUpTo(es: seq<OrderUpdate>, fs: seq<OrderUpdate>, n: nat)
    requires DistinctExecutions(es) && multiset(es) == multiset(fs) && n < |fs|
    ensures DistinctExecutions(fs[..n] + [fs[n]])
  {
    var part := fs[..n] + [fs[n]];
    forall i, j | 0 <= i < j < |part| ensures !SameExecution(part[i], part[j]) {
      PermutedExecutionsDiffer(es, fs, i, j);
    }
  }

  lemma FinalIsSomewhere(es: seq<OrderUpdate>, final: OrderUpdate, fs: seq<OrderUpdate>) returns (n: nat)
    requires multiset(fs) == multiset(es + [final])
    ensures n < |fs| && fs[n] == final && forall e | e in fs :: e in es || e == final
  {
    assert final in multiset(es + [final]) && final in multiset(fs);
    forall e | e in fs ensures e in es || e == final { assert e in multiset(fs); }
    n :| 0 <= n < |fs| && fs[n] == final;
  }

  // The whole stream of an order in any order of arrival: partial fills es and one final fill.
  lemma CompleteStreamsCommute(db: Db, es: seq<OrderUpdate>, final: OrderUpdate, fs: seq<OrderUpdate>, k: string)
    requires FreshPartials(db, es, k) && FitsAsFinal(db, es, final, k)
    requires multiset(fs) == multiset(es + [final])
    ensures EndsAt(db, Run(db, fs), k, final.filledQty)
  {
    DistinctWithTheFinal(es, final);
    var n := FinalIsSomewhere(es, final, fs);
    DistinctUpTo(es + [final], fs, n);
    var pre, post := fs[..n], fs[n + 1..];
    assert fs == pre + [final] + post;
    assert forall e | e in pre :: e in fs;
    assert forall e | e in post :: e in fs;
    PartOfAFreshStream(db, es, pre, final, k);
    FinalFillDecides(db, pre, final, post, k);
  }

  lemma PartOfAFreshStream(db: Db, es: seq<OrderUpdate>, pre: seq<OrderUpdate>, final: OrderUpdate, k: string)
    requires FreshPartials(db, es, k) && FitsAsFinal(db, es, final, k)
    requires DistinctExecutions(pre + [final]) && forall e | e in pre :: e in es || e == final
    ensures FreshPartials(db, pre, k) && FitsAsFinal(db, pre, final, k)
  {
    var all := pre + [final];
    forall e | e in pre ensures e in es && !SameExecution(e, final) {
      var i :| 0 <= i < |pre| && pre[i] == e;
      assert !SameExecution(all[i], all[|pre|]);
    }
    forall i, j | 0 <= i < j < |pre| ensures !SameExecution(pre[i], pre[j]) {
      assert !SameExecution(all[i], all[j]);
    }
    MaxCumulativeBounds(db.orders[k].filledQty, es);
    MaxCumulativeBounds(db.orders[k].filledQty, pre);
  }

  // ---- The event handler ----

  class NormalizedEventConsumer {
    const repository: ExecutionRepository?
    var orphansSeen: nat
    var fillsProcessed: nat

    constructor (repository: ExecutionRepository?)
      ensures this.repository == repository && orphansSeen == 0 && fillsProcessed == 0
    {
      this.repository := repository;
      orphansSeen, fillsProcessed := 0, 0;
    }

    // The tables end as Step says; one fill is counted per row inserted, one orphan per update
    // that is not ours, has no job, or whose job is over.
    method HandleUserOrder(e: OrderUpdate)
      modifies this, repository
      ensures repository != null ==>
        && repository.Contents() == Step(old(repository.Contents()), e)
        && fillsProcessed - old(fillsProcessed) == |repository.fills| - old(|repository.fills|)
        && (orphansSeen == if old(Routed(repository.Contents(), e)) then old(orphansSeen) else old(orphansSeen) + 1)
      ensures repository == null ==>
        && fillsProcessed == old(fillsProcessed)
        && (orphansSeen == if IsOurs(e.clientOrderId) then old(orphansSeen) else old(orphansSeen) + 1)
    {
      if !IsOurs(e.clientOrderId) {
        orphansSeen := orphansSeen + 1;
        return;
      }
      if repository == null {
        return;
      }
      var found := repository.GetJobByClientOrderId(e.clientOrderId);
      if found.None? {
        orphansSeen := orphansSeen + 1;
        return;
      }
      var job := found.value;
      if IsTerminal(job.status) {
        orphansSeen := orphansSeen + 1;
        return;
      }
      if e.status.Cancel? || e.status.Reject? || e.status.Expire? {
        HandleCancel(job, e);
      } else if e.status.PartialFill? {
        HandlePartialFill(job, e);
      } else if e.status.FullFill? {
        HandleFullFill(job, e);
      }
    }

    method HandleCancel(job: JobRow, e: OrderUpdate)
      requires repository != null
      requires Routed(repository.Contents(), e) && job == repository.jobs[e.clientOrderId]
      modifies repository
      ensures repository.Contents() == CancelStep(old(repository.Contents()), e)
      ensures repository.orders == old(repository.orders) && repository.fills == old(repository.fills)
      ensures e.clientOrderId in repository.jobs
      ensures repository.jobs[e.clientOrderId].status ==
        if job.status in {Submitted, Acknowledged, PartiallyFilled} then Canceled else job.status
    {
      EnteredFrom(job.status, Canceled);
      if !CanTransition(job.status, Canceled) {
        return;
      }
      repository.UpdateJobStatus(JobRef(e.clientOrderId, job.id), Canceled, None);
    }

    // job is the row as it was read; its status is not read again between the writes.
    method HandlePartialFill(job: JobRow, e: OrderUpdate)
      requires repository != null
      requires Routed(repository.Contents(), e) && job == repository.jobs[e.clientOrderId]
      modifies `fillsProcessed, repository
      ensures repository.Contents() == PartialFillStep(old(repository.Contents()), e)
      ensures fillsProcessed - old(fillsProcessed) == |repository.fills| - old(|repository.fills|)
    {
      var found := repository.GetOrderByClientOrderId(e.clientOrderId);
      if found.None? {
        return;
      }
      var order := found.value;
      var legQty := e.filledQty - order.filledQty;
      if legQty <= 0.0 {
        return;
      }
      var existing := repository.GetFillByExchangeTradeId(job.accountId, TradeId(e));
      if existing.Some? {
        return;
      }
      var inserted := repository.InsertFill(LegRow(job, order, e));
      fillsProcessed := fillsProcessed + 1;
      var newStatus := if e.filledQty >= e.origQty then OrderFilled else OrderPartiallyFilled;
      repository.UpdateOrderFilledQty(e.clientOrderId, e.filledQty, e.avgPrice, newStatus);
      if job.status != PartiallyFilled && CanTransition(job.status, PartiallyFilled) {
        repository.UpdateJobStatus(JobRef(e.clientOrderId, job.id), PartiallyFilled, None);
      }
      if e.filledQty >= e.origQty {
        FinalizeFill(job, e);
      }
    }

    method HandleFullFill(job: JobRow, e: OrderUpdate)
      requires repository != null
      requires Routed(repository.Contents(), e) && job == repository.jobs[e.clientOrderId]
      modifies `fillsProcessed, repository
      ensures repository.Contents() == FullFillStep(old(repository.Contents()), e)
      ensures fillsProcessed - old(fillsProcessed) == |repository.fills| - old(|repository.fills|)
    {
      var found := repository.GetOrderByClientOrderId(e.clientOrderId);
      if found.None? {
        return;
      }
      var order := found.value;
      var legQty := e.filledQty - order.filledQty;
      if legQty > 0.0 {
        var existing := repository.GetFillByExchangeTradeId(job.accountId, TradeId(e));
        if existing.None? {
          var inserted := repository.InsertFill(LegRow(job, order, e));
          fillsProcessed := fillsProcessed + 1;
        }
      }
      repository.UpdateOrderFilledQty(e.clientOrderId, e.filledQty, e.avgPrice, OrderFilled);
      FinalizeFill(job, e);
    }

    method FinalizeFill(job: JobRow, e: OrderUpdate)
      requires repository != null
      modifies repository
      ensures repository.Contents() == WriteIfAllowed(old(repository.Contents()), e, job, Filled, FillResult(e))
    {
      if !CanTransition(job.status, Filled) {
        return;
      }
      repository.UpdateJobStatus(JobRef(e.clientOrderId, job.id), Filled, FillResult(e));
    }
  }
}
