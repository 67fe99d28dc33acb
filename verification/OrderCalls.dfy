/** Exactly when each order call succeeds, and which error it gives otherwise. */
module OrderCalls {
  import opened Wrappers
  import opened Lifecycle
  import opened Tables
  import opened Statements
  import opened Transactions
  import opened Completion

  predicate MayAct(o: Order, actor: Actor) {
    actor.privileged || o.assignee == Some(actor.id)
  }

  /** The call saved this row and its audit row, and wrote nothing else. */
  ghost predicate SavedOnly(c: Core, d: Core, id: Id, was: Status, o: Order) {
    d == c.(orders := c.orders[id := o], audit := c.audit + [OrderAudit(id, Some(was), o.status)])
  }

  /** Anyone may take an order nobody else has; only the privileged assign others or take over. */
  lemma AssignOutcome(c: Core, id: Id, target: Option<Id>, actor: Actor, now: Time)
    ensures var r := Run(c, Call(AssignOrder(id, target, actor, now)));
            var user := if target == None then actor.id else target.value;
            var known, mine := id in c.orders, actor.privileged || user == actor.id;
            && (r.Ok? <==> known && mine && c.orders[id].status in {Open, Assigned}
                           && (actor.privileged || c.orders[id].assignee in {None, Some(actor.id)}))
            && (r == Err(NotFound) <==> !known)
            && (r == Err(Conflict) <==> known && mine && c.orders[id].status !in {Open, Assigned})
            && (r.Ok? ==>
                  var o := c.orders[id];
                  && r.value.orders.Keys == c.orders.Keys
                  && r.value.orders[id] == o.(status := Assigned, assignee := Some(user),
                                             assignedAt := if o.status == Open then Some(now) else o.assignedAt)
                  && SavedOnly(c, r.value, id, o.status, r.value.orders[id]))
  {
    hide Run, Overlay;
    SingleCall(c, AssignOrder(id, target, actor, now));
    if id in c.orders {
      SaveAsWrites(c, id, AssignedRow(c.orders[id], target, actor, now));
    }
  }

  /** Starting also restarts a blocked order. */
  lemma StartOutcome(c: Core, id: Id, actor: Actor, now: Time)
    ensures var r := Run(c, Call(StartOrder(id, actor, now)));
            && (r.Ok? <==> id in c.orders && MayAct(c.orders[id], actor) && c.orders[id].status in {Assigned, Blocked})
            && (r == Err(NotFound) <==> id !in c.orders)
            && (r == Err(Forbidden) <==> id in c.orders && !MayAct(c.orders[id], actor))
            && (r.Ok? ==>
                  var o := c.orders[id];
                  SavedOnly(c, r.value, id, o.status, o.(status := InProgress, startedAt := Some(now))))
  {
    hide Run, Overlay;
    SingleCall(c, StartOrder(id, actor, now));
    if id in c.orders {
      SaveAsWrites(c, id, StartedRow(c.orders[id], actor, now));
    }
  }

  /** Cancelling works exactly from the active statuses. */
  lemma CancelOutcome(c: Core, id: Id, now: Time)
    ensures var r := Run(c, Call(CancelOrder(id, now)));
            && (r.Ok? <==> id in c.orders && IsActive(c.orders[id].status))
            && (r == Err(NotFound) <==> id !in c.orders)
            && (r == Err(Conflict) <==> id in c.orders && !IsActive(c.orders[id].status))
            && (r.Ok? ==>
                  var o := c.orders[id];
                  SavedOnly(c, r.value, id, o.status, o.(status := Cancelled, cancelledAt := Some(now))))
  {
    hide Run, Overlay;
    SingleCall(c, CancelOrder(id, now));
    if id in c.orders {
      SaveAsWrites(c, id, CancelledRow(c.orders[id], now));
    }
  }

  lemma SaveAsWrites(c: Core, id: Id, row: Result<Order>)
    requires id in c.orders
    ensures row.Ok? ==> SavedOnly(c, Overlay(c, SaveOrder(id, Some(c.orders[id].status), row.value)), id,
                                  c.orders[id].status, row.value)
  {
    if row.Ok? {
      OrderSaved(c, id, Some(c.orders[id].status), row.value);
    }
  }

  /** Completing works exactly for those who may act, from IN_PROGRESS, with stock for every part. The
      guards come first, each with its own error. */
  lemma CompleteOutcome(c: Core, op: Op)
    requires op.Complete?
    ensures Run(c, op).Ok? <==>
            && op.order in c.orders && MayAct(c.orders[op.order], op.actor) && c.orders[op.order].status == InProgress
            && forall i :: 0 <= i < |op.lines| ==>
                 op.lines[i].part in c.parts && Wanted(op.lines, op.lines[i].part) <= c.parts[op.lines[i].part].quantity
    ensures op.order !in c.orders ==> Run(c, op) == Err(NotFound)
    ensures op.order in c.orders && !MayAct(c.orders[op.order], op.actor) ==> Run(c, op) == Err(Forbidden)
    ensures op.order in c.orders && MayAct(c.orders[op.order], op.actor) && c.orders[op.order].status != InProgress ==>
              Run(c, op) == Err(Conflict)
  {
    CompletionSucceedsIff(c, op);
    hide Run, Total, RunPrefix, Overlay;
    assert forall s: Status :: CanTransition(s, Completed) <==> s == InProgress;
    assert RunPrefix(c, op, 0) == Ok(Memory(c, 0)) by { NothingRun(c, op); }
    NextStatement(c, op, 0, Memory(c, 0));
  }

  lemma NothingRun(c: Core, op: Op)
    ensures RunPrefix(c, op, 0) == Ok(Memory(c, 0))
  {
  }
}
