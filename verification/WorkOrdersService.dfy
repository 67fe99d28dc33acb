/** The work-order calls, each one transaction over the shared database. */
module WorkOrdersServices {
  import opened Wrappers
  import opened Lifecycle
  import opened Tables
  import opened Statements
  import opened Transactions
  import opened Sites
  import opened Store
  import opened InventoryServices

  class WorkOrdersService {
    const db: Database
    const inventory: InventoryService

    constructor (db: Database, inventory: InventoryService)
      requires inventory.db == db
      ensures this.db == db && this.inventory == inventory && SameDatabase()
    {
      this.db, this.inventory := db, inventory;
    }

    /** Both services were injected with one database. */
    predicate SameDatabase() {
      inventory.db == db
    }

    method LockWorkOrder(id: Id) returns (r: Result<Order>)
      ensures r == LockOrder(db.Rows(), id)
    {
      if id !in db.orders { return Err(NotFound); }
      return Ok(db.orders[id]);
    }

    method Save(id: Id, was: Option<Status>, o: Order)
      modifies db
      ensures db.State() == old(db.State()).(core := Overlay(old(db.Rows()), SaveOrder(id, was, o)))
      ensures id in db.orders && db.orders[id] == o
    {
      OrderSaved(db.Rows(), id, was, o);
      hide Overlay;
      db.orders := db.orders[id := o];
      db.audit := db.audit + [OrderAudit(id, was, o.status)];
    }

    /** The database supplies the new row's id. */
    method Create(id: Id, asset: Id, plan: Option<Id>) returns (r: Result<Order>)
      modifies db
      ensures Follows(RunSite(old(db.State()), CreateOrder(id, asset, plan)), r, old(db.State()), db.State())
    {
      if asset !in db.assets { return Err(NotFound); }
      var source := Manual;
      if plan.Some? {
        if plan.value !in db.plans { return Err(NotFound); }
        if db.plans[plan.value].asset != asset { return Err(Conflict); }
        source := Planned;
      }
      SingleCall(db.Rows(), InsertOrder(id, asset, plan));
      hide Run, Overlay;
      if id in db.orders { return Err(Conflict); }
      var o := NewOrder(asset, plan, source);
      Save(id, None, o);
      return Ok(o);
    }

    method Assign(id: Id, target: Option<Id>, actor: Actor, now: Time) returns (r: Result<Order>)
      modifies db
      ensures FollowsCall(Call(AssignOrder(id, target, actor, now)), r, old(db.State()), db.State())
    {
      SingleCall(db.Rows(), AssignOrder(id, target, actor, now));
      hide Run, Overlay;
      var locked := LockWorkOrder(id);
      if locked.Err? { return locked; }
      var o := locked.value;
      var user := if target.Some? then target.value else actor.id;
      if user != actor.id && !actor.privileged { return Err(Forbidden); }
      if o.status != Open && o.status != Assigned { return Err(Conflict); }
      if o.assignee.Some? && o.assignee != Some(actor.id) && !actor.privileged { return Err(Forbidden); }
      if o.status == Open {
        assert CanTransition(o.status, Assigned);
        o := o.(status := Assigned, assignedAt := Some(now));
      }
      o := o.(assignee := Some(user));
      Save(id, Some(locked.value.status), o);
      return Ok(o);
    }

    method Start(id: Id, actor: Actor, now: Time) returns (r: Result<Order>)
      modifies db
      ensures FollowsCall(Call(StartOrder(id, actor, now)), r, old(db.State()), db.State())
    {
      SingleCall(db.Rows(), StartOrder(id, actor, now));
      hide Run, Overlay;
      var locked := LockWorkOrder(id);
      if locked.Err? { return locked; }
      var o := locked.value;
      if o.assignee != Some(actor.id) && !actor.privileged { return Err(Forbidden); }
      if !CanTransition(o.status, InProgress) { return Err(Conflict); }
      o := o.(status := InProgress, startedAt := Some(now));
      Save(id, Some(locked.value.status), o);
      return Ok(o);
    }

    method Cancel(id: Id, now: Time) returns (r: Result<Order>)
      modifies db
      ensures FollowsCall(Call(CancelOrder(id, now)), r, old(db.State()), db.State())
    {
      SingleCall(db.Rows(), CancelOrder(id, now));
      hide Run, Overlay;
      var locked := LockWorkOrder(id);
      if locked.Err? { return locked; }
      var o := locked.value;
      if !CanTransition(o.status, Cancelled) { return Err(Conflict); }
      o := o.(status := Cancelled, cancelledAt := Some(now));
      Save(id, Some(locked.value.status), o);
      return Ok(o);
    }

    /** The transaction of `complete`: whatever throws inside it undoes everything it did. */
    method Complete(id: Id, lines: seq<Line>, actor: Actor, now: Time) returns (r: Result<Order>)
      requires SameDatabase()
      modifies db
      ensures Follows(RunSite(old(db.State()), CompleteOrder(id, lines, actor, now)), r, old(db.State()), db.State())
      ensures r.Ok? ==> id in db.orders && r.value == db.orders[id]
    {
      var begun := db.State();
      r := CompleteInTransaction(id, lines, actor, now);
      if r.Err? {
        db.Rollback(begun);
      }
    }

    method CompleteInTransaction(id: Id, lines: seq<Line>, actor: Actor, now: Time) returns (r: Result<Order>)
      requires SameDatabase()
      modifies db
      ensures var spec := OrderCompleted(old(db.State()), id, lines, actor, now);
              if r.Ok? then spec == Ok(db.State()) else spec == Err(r.error)
      ensures r.Ok? ==> id in db.orders && r.value == db.orders[id]
    {
      ghost var begun := db.State();
      var locked := LockWorkOrder(id);
      if locked.Err? { return locked; }
      var o := locked.value;
      ghost var op := Op.Complete(id, lines, actor, now, StatusOf(begun, o.asset));
      if o.assignee != Some(actor.id) && !actor.privileged {
        Refused(begun.core, op);
        return Err(Forbidden);
      }
      if !CanTransition(o.status, Completed) {
        Refused(begun.core, op);
        return Err(Conflict);
      }
      Admitted(begun.core, op);
      hide Run, RunPrefix, Overlay, Completable, CanTransition, CloseWrites;
      var totalCost := ConsumeParts(id, lines, actor.id, begun, op);
      if totalCost.Err? { return Err(totalCost.error); }
      ghost var m := Memory(db.Rows(), totalCost.value);
      CompletionRuns(begun, op, m);
      r := CloseOrder(id, o, totalCost.value, now);
    }

    /** The loop over the parts used. The running total is in cents. */
    method ConsumeParts(id: Id, lines: seq<Line>, user: Id, ghost begun: Site, ghost op: Op) returns (r: Result<nat>)
      requires SameDatabase() && op.Complete? && op.order == id && op.lines == lines && op.actor.id == user
      requires begun == db.State() && RunPrefix(begun.core, op, 1) == Ok(Memory(begun.core, 0))
      modifies db
      ensures r.Err? ==> Run(begun.core, op) == Err(r.error)
      ensures r.Ok? ==> RunPrefix(begun.core, op, |lines| + 1) == Ok(Memory(db.Rows(), r.value))
      ensures r.Ok? ==> db.assets == begun.assets && db.plans == begun.plans
    {
      hide Run, RunPrefix, Overlay, StockWrites;
      var totalCost: nat := 0;
      var i := 0;
      while i < |lines|
        invariant 0 <= i <= |lines|
        invariant db.assets == begun.assets && db.plans == begun.plans
        invariant RunPrefix(begun.core, op, i + 1) == Ok(Memory(db.Rows(), totalCost))
      {
        ghost var m := Memory(db.Rows(), totalCost);
        NextStatement(begun.core, op, i + 1, m);
        var consumed := inventory.Consume(lines[i].part, lines[i].quantity, id, user);
        if consumed.Err? { return Err(consumed.error); }
        db.usage := db.usage + [UsageRow(id, lines[i].part, lines[i].quantity, consumed.value.unitCost)];
        totalCost := totalCost + consumed.value.unitCost * lines[i].quantity;
        ConsumedAndUsed(m, id, lines[i], user, db.Rows(), consumed.value);
        i := i + 1;
      }
      return Ok(totalCost);
    }

    /** Saves the order, then returns its asset to service and moves its plan along. */
    method CloseOrder(id: Id, was: Order, totalCost: nat, now: Time) returns (r: Result<Order>)
      requires id in db.orders && db.orders[id] == was
      modifies db
      ensures r.Err? <==> was.asset !in old(db.assets)
      ensures r.Err? ==> r.error == NotFound
      ensures r.Ok? ==>
                var before := old(db.State());
                var w := CloseWrites(before.core, id, now, before.assets[was.asset], totalCost);
                w.Ok? && db.State() == Site(Overlay(before.core, w.value), before.assets[was.asset := Operational],
                                            PlansAfter(before.plans, was.plan, now))
      ensures r.Ok? ==> id in db.orders && r.value == db.orders[id]
    {
      hide Overlay, CloseWrites;
      ghost var before := db.State();
      var o := was.(status := Completed, completedAt := Some(now), totalCost := Some(totalCost));
      db.orders := db.orders[id := o];
      if o.asset !in db.assets { return Err(NotFound); }
      var assetWas := db.assets[o.asset];
      if assetWas != Operational {
        db.assets := db.assets[o.asset := Operational];
      }
      if o.plan.Some? && o.plan.value in db.plans {
        var plan := db.plans[o.plan.value];
        db.plans := db.plans[o.plan.value :=
          plan.(lastCompletedAt := Some(now), nextDueAt := Some(now + plan.intervalDays * DAY))];
      }
      db.audit := db.audit + [OrderAudit(id, Some(was.status), Completed)];
      if assetWas != Operational {
        db.audit := db.audit + [AssetAudit(o.asset, Some(assetWas), Operational)];
        db.history := db.history + [HistoryRow(o.asset, assetWas, Operational, ByCompletion)];
      }
      Closed(before.core, id, now, assetWas, totalCost, was, db.Rows());
      return Ok(o);
    }
  }

  // ---- Proof steps of the completion ----

  lemma Refused(c: Core, op: Op)
    requires op.Complete? && op.order in c.orders && Completable(c.orders[op.order], op.actor).Err?
    ensures Run(c, op) == Err(Completable(c.orders[op.order], op.actor).error)
  {
    assert RunPrefix(c, op, 0) == Ok(Memory(c, 0));
    NextStatement(c, op, 0, Memory(c, 0));
  }

  lemma Admitted(c: Core, op: Op)
    requires op.Complete? && op.order in c.orders && Completable(c.orders[op.order], op.actor).Ok?
    ensures RunPrefix(c, op, 1) == Ok(Memory(c, 0))
  {
    assert RunPrefix(c, op, 0) == Ok(Memory(c, 0));
    NextStatement(c, op, 0, Memory(c, 0));
    OverlayNothing(c);
  }

  /** Once the parts are consumed, only closing the order is left. */
  lemma CompletionRuns(begun: Site, op: Op, m: Memory)
    requires op.Complete? && RunPrefix(begun.core, op, |op.lines| + 1) == Ok(m)
    ensures m.core.orders == begun.core.orders && op.order in begun.core.orders
    ensures var w := CloseWrites(m.core, op.order, op.now, op.assetWas, m.cost);
            w.Ok? && Run(begun.core, op) == Ok(Overlay(m.core, w.value))
  {
    hide RunPrefix, Overlay;
    CompletionLeavesOrders(begun.core, op, |op.lines| + 1);
    NextStatement(begun.core, op, |op.lines| + 1, m);
  }

  /** Taking the units and recording their use is the one consumption statement. */
  lemma ConsumedAndUsed(m: Memory, order: Id, line: Line, user: Id, after: Core, part: Part)
    requires var w := StockWrites(m.core, line.part, 0 - line.quantity, Consumed, Some(order), user);
             && w.Ok?
             && var d := Overlay(m.core, w.value);
                after == d.(usage := d.usage + [UsageRow(order, line.part, line.quantity, part.unitCost)])
    requires line.part in after.parts && after.parts[line.part] == part
    ensures var effect := Exec(ConsumePart(order, line, user), m.core, m.cost);
            && effect.Ok? && Overlay(m.core, effect.value.writes) == after
            && effect.value.cost == m.cost + part.unitCost * line.quantity
  {
  }

  lemma Closed(c: Core, id: Id, now: Time, assetWas: AssetStatus, cost: nat, was: Order, after: Core)
    requires id in c.orders && c.orders[id] == was
    requires after.audit == c.audit + [OrderAudit(id, Some(was.status), Completed)]
                            + if assetWas == Operational then []
                              else [AssetAudit(was.asset, Some(assetWas), Operational)]
    requires after.history == c.history
                              + if assetWas == Operational then []
                                else [HistoryRow(was.asset, assetWas, Operational, ByCompletion)]
    requires after.orders == c.orders[id := CompletedRow(was, now, cost)] && after.parts == c.parts
    requires after.ledger == c.ledger && after.usage == c.usage && after.notices == c.notices
    ensures CloseWrites(c, id, now, assetWas, cost).Ok?
    ensures Overlay(c, CloseWrites(c, id, now, assetWas, cost).value) == after
  {
  }
}
