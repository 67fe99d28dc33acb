/** What each statement of a service transaction reads, checks and writes. */
module Statements {
  import opened Wrappers
  import opened Lifecycle
  import opened Tables

  datatype Stmt =
    | InsertOrder(order: Id, asset: Id, plan: Option<Id>)
    | AssignOrder(order: Id, target: Option<Id>, actor: Actor, now: Time)
    | StartOrder(order: Id, actor: Actor, now: Time)
    | CancelOrder(order: Id, now: Time)
    | CheckCompletable(order: Id, actor: Actor)
    | ConsumePart(order: Id, line: Line, user: Id)
    | CloseOrder(order: Id, now: Time, assetWas: AssetStatus)
    | ProbeAutoIndex(asset: Id)
    | InsertAutoOrder(order: Id, asset: Id, assetWas: AssetStatus)
    | InsertPart(part: Id, row: Part, user: Id)
    | ChangeStock(part: Id, delta: int, reason: Reason, user: Id)
    | EditPart(part: Id, name: Option<string>, threshold: Option<nat>, unitCost: Option<nat>)
    | DeletePart(part: Id)

  /** The writes of a statement and the running total of `complete` after it. */
  datatype Effect = Effect(writes: Writes, cost: nat)

  function SaveOrder(id: Id, was: Option<Status>, o: Order): Writes {
    NO_WRITES.(orders := map[id := o], audit := [OrderAudit(id, was, o.status)])
  }

  function NewOrder(asset: Id, plan: Option<Id>, source: Source): Order {
    Order(asset, plan, Open, source, None, None, None, None, None, None)
  }

  function AssignedRow(o: Order, target: Option<Id>, actor: Actor, now: Time): Result<Order> {
    var user := if target.Some? then target.value else actor.id;
    if user != actor.id && !actor.privileged then Err(Forbidden)
    else if o.status != Open && o.status != Assigned then Err(Conflict)
    else if o.assignee.Some? && o.assignee != Some(actor.id) && !actor.privileged then Err(Forbidden)
    else if o.status == Open then Ok(o.(status := Assigned, assignedAt := Some(now), assignee := Some(user)))
    else Ok(o.(assignee := Some(user)))
  }

  function StartedRow(o: Order, actor: Actor, now: Time): Result<Order> {
    if o.assignee != Some(actor.id) && !actor.privileged then Err(Forbidden)
    else if !CanTransition(o.status, InProgress) then Err(Conflict)
    else Ok(o.(status := InProgress, startedAt := Some(now)))
  }

  function CancelledRow(o: Order, now: Time): Result<Order> {
    if !CanTransition(o.status, Cancelled) then Err(Conflict)
    else Ok(o.(status := Cancelled, cancelledAt := Some(now)))
  }

  function CompletedRow(o: Order, now: Time, cost: nat): Order {
    o.(status := Completed, completedAt := Some(now), totalCost := Some(cost))
  }

  function Completable(o: Order, actor: Actor): Result<Order> {
    if o.assignee != Some(actor.id) && !actor.privileged then Err(Forbidden)
    else if !CanTransition(o.status, Completed) then Err(Conflict)
    else Ok(o)
  }

  function LockOrder(c: Core, id: Id): Result<Order> {
    if id in c.orders then Ok(c.orders[id]) else Err(NotFound)
  }

  function LockPart(c: Core, id: Id): Result<Part> {
    if id in c.parts then Ok(c.parts[id]) else Err(NotFound)
  }

  /** The stock change every inventory movement goes through: one row update and one ledger row. */
  function StockWrites(c: Core, id: Id, delta: int, reason: Reason, order: Option<Id>, user: Id): Result<Writes> {
    match LockPart(c, id)
    case Err(e) => Err(e)
    case Ok(part) =>
      var after := part.quantity + delta;
      if after < 0 then Err(Conflict)
      else Ok(NO_WRITES.(parts := map[id := Some(part.(quantity := after))],
                         ledger := [LedgerRow(id, delta, reason, order, user, after)]))
  }

  /** Foreign keys with ON DELETE RESTRICT: a ledger or usage row that names the part. */
  predicate Referenced(c: Core, part: Id) {
    || (exists i :: 0 <= i < |c.ledger| && c.ledger[i].part == part)
    || (exists i :: 0 <= i < |c.usage| && c.usage[i].part == part)
  }

  predicate HasActiveAuto(c: Core, asset: Id) {
    exists o :: o in c.orders && IsActiveAuto(c.orders[o], asset)
  }

  function UpdateOrder(c: Core, id: Id, row: Order -> Result<Order>): Result<Writes> {
    match LockOrder(c, id)
    case Err(e) => Err(e)
    case Ok(o) =>
      match row(o)
      case Err(e) => Err(e)
      case Ok(saved) => Ok(SaveOrder(id, Some(o.status), saved))
  }

  function ConsumeWrites(c: Core, order: Id, line: Line, user: Id): Result<Writes> {
    match StockWrites(c, line.part, 0 - line.quantity, Consumed, Some(order), user)
    case Err(e) => Err(e)
    case Ok(w) => Ok(w.(usage := [UsageRow(order, line.part, line.quantity, c.parts[line.part].unitCost)]))
  }

  function CloseWrites(c: Core, id: Id, now: Time, assetWas: AssetStatus, cost: nat): Result<Writes> {
    match LockOrder(c, id)
    case Err(e) => Err(e)
    case Ok(o) =>
      var w := SaveOrder(id, Some(o.status), CompletedRow(o, now, cost));
      if assetWas == Operational then Ok(w)
      else Ok(w.(audit := w.audit + [AssetAudit(o.asset, Some(assetWas), Operational)],
                 history := [HistoryRow(o.asset, assetWas, Operational, ByCompletion)]))
  }

  /** Marking the asset critical writes its audit and history rows even when it already was. */
  function AutoWrites(id: Id, asset: Id, assetWas: AssetStatus): Writes {
    SaveOrder(id, None, NewOrder(asset, None, Auto)).(
      audit := [AssetAudit(asset, Some(assetWas), Critical), OrderAudit(id, None, Open)],
      history := [HistoryRow(asset, assetWas, Critical, ByMonitoring)],
      notices := [NewNotice(CriticalAsset, asset)])
  }

  function MoveStock(c: Core, id: Id, delta: int, reason: Reason, user: Id): Result<Writes> {
    match StockWrites(c, id, delta, reason, None, user)
    case Err(e) => Err(e)
    case Ok(w) => Ok(w.(audit := [PartAudit(id, Some(c.parts[id]), w.parts[id])]))
  }

  function InsertPartWrites(c: Core, id: Id, row: Part, user: Id): Result<Writes> {
    if id in c.parts then Err(Conflict)
    else Ok(NO_WRITES.(parts := map[id := Some(row)],
                       ledger := if row.quantity > 0
                                 then [LedgerRow(id, row.quantity, Restocked, None, user, row.quantity)] else [],
                       audit := [PartAudit(id, None, Some(row))]))
  }

  function EditedRow(p: Part, name: Option<string>, threshold: Option<nat>, unitCost: Option<nat>): Part {
    Part(if name.Some? then name.value else p.name, p.quantity,
         if threshold.Some? then threshold.value else p.threshold,
         if unitCost.Some? then unitCost.value else p.unitCost)
  }

  function EditPartWrites(c: Core, id: Id, name: Option<string>, threshold: Option<nat>, unitCost: Option<nat>)
    : Result<Writes>
  {
    match LockPart(c, id)
    case Err(e) => Err(e)
    case Ok(p) =>
      var saved := EditedRow(p, name, threshold, unitCost);
      Ok(NO_WRITES.(parts := map[id := Some(saved)], audit := [PartAudit(id, Some(p), Some(saved))]))
  }

  function DeletePartWrites(c: Core, id: Id): Result<Writes> {
    match LockPart(c, id)
    case Err(e) => Err(e)
    case Ok(p) =>
      if Referenced(c, id) then Err(Conflict)
      else Ok(NO_WRITES.(parts := map[id := None], audit := [PartAudit(id, Some(p), None)]))
  }

  function WritesOf(stmt: Stmt, c: Core, cost: nat): Result<Writes> {
    match stmt
    case InsertOrder(id, asset, plan) =>
      if id in c.orders then Err(Conflict)
      else Ok(SaveOrder(id, None, NewOrder(asset, plan, if plan.Some? then Planned else Manual)))
    case AssignOrder(id, target, actor, now) => UpdateOrder(c, id, o => AssignedRow(o, target, actor, now))
    case StartOrder(id, actor, now) => UpdateOrder(c, id, o => StartedRow(o, actor, now))
    case CancelOrder(id, now) => UpdateOrder(c, id, o => CancelledRow(o, now))
    case CheckCompletable(id, actor) =>
      (match LockOrder(c, id)
       case Err(e) => Err(e)
       case Ok(o) => match Completable(o, actor) case Err(e) => Err(e) case Ok(_) => Ok(NO_WRITES))
    case ConsumePart(order, line, user) => ConsumeWrites(c, order, line, user)
    case CloseOrder(id, now, assetWas) => CloseWrites(c, id, now, assetWas, cost)
    case ProbeAutoIndex(asset) => if HasActiveAuto(c, asset) then Err(Conflict) else Ok(NO_WRITES)
    case InsertAutoOrder(id, asset, assetWas) =>
      if id in c.orders then Err(Conflict) else Ok(AutoWrites(id, asset, assetWas))
    case InsertPart(id, row, user) => InsertPartWrites(c, id, row, user)
    case ChangeStock(id, delta, reason, user) => MoveStock(c, id, delta, reason, user)
    case EditPart(id, name, threshold, unitCost) => EditPartWrites(c, id, name, threshold, unitCost)
    case DeletePart(id) => DeletePartWrites(c, id)
  }

  function Exec(stmt: Stmt, c: Core, cost: nat): Result<Effect> {
    match WritesOf(stmt, c, cost)
    case Err(e) => Err(e)
    case Ok(w) =>
      Ok(Effect(w, if stmt.ConsumePart? then cost + c.parts[stmt.line.part].unitCost * stmt.line.quantity else cost))
  }

  /** Saving an order changes its row and appends its audit row. */
  lemma OrderSaved(c: Core, id: Id, was: Option<Status>, o: Order)
    ensures Overlay(c, SaveOrder(id, was, o)) ==
            c.(orders := c.orders[id := o], audit := c.audit + [OrderAudit(id, was, o.status)])
  {
  }

  lemma RaisingSaved(c: Core, id: Id, asset: Id, was: AssetStatus)
    ensures Overlay(c, AutoWrites(id, asset, was)) ==
            c.(orders := c.orders[id := NewOrder(asset, None, Auto)],
               audit := c.audit + [AssetAudit(asset, Some(was), Critical)] + [OrderAudit(id, None, Open)],
               history := c.history + [HistoryRow(asset, was, Critical, ByMonitoring)],
               notices := c.notices + [NewNotice(CriticalAsset, asset)])
  {
  }

  /** An AUTO order of the asset that is neither completed nor cancelled. */
  lemma ActiveAutoMeans(c: Core, asset: Id)
    ensures HasActiveAuto(c, asset) <==>
              exists o :: o in c.orders && c.orders[o].asset == asset && c.orders[o].source == Auto
                          && c.orders[o].status != Completed && c.orders[o].status != Cancelled
  {
    forall o | o in c.orders
      ensures IsActiveAuto(c.orders[o], asset) <==>
                c.orders[o].asset == asset && c.orders[o].source == Auto
                && c.orders[o].status != Completed && c.orders[o].status != Cancelled
    {
    }
  }
}
