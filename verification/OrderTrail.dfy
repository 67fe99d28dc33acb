/** The audit trail of a work order replays its life. */
module OrderTrail {
  import opened Wrappers
  import opened Lifecycle
  import opened Tables
  import opened Statements
  import opened Transactions

  /** The audit rows of one order, oldest first. */
  function TrailOf(audit: seq<AuditRow>, order: Id): seq<AuditRow> {
    if audit == [] then []
    else
      var earlier, last := TrailOf(audit[..|audit| - 1], order), audit[|audit| - 1];
      if last.OrderAudit? && last.order == order then earlier + [last] else earlier
  }

  /** One step of the trail: an allowed transition, or a reassignment of an assigned order. */
  predicate Link(from: Status, to: Status) {
    CanTransition(from, to) || (from == Assigned && to == Assigned)
  }

  /** The trail starts with creation in OPEN, has no gaps, and ends in `status`. */
  ghost predicate Chained(trail: seq<AuditRow>, status: Status) {
    && |trail| > 0
    && (forall i :: 0 <= i < |trail| ==> trail[i].OrderAudit?)
    && trail[0].before == None && trail[0].after == Open
    && (forall i :: 0 < i < |trail| ==>
          trail[i].before == Some(trail[i - 1].after) && Link(trail[i - 1].after, trail[i].after))
    && trail[|trail| - 1].after == status
  }

  /** The timestamps and the cost that each status implies, and is implied by. */
  predicate Stamped(o: Order) {
    && (o.status == Completed <==> o.completedAt.Some?)
    && (o.status == Completed <==> o.totalCost.Some?)
    && (o.status == Cancelled <==> o.cancelledAt.Some?)
    && (o.status in {Assigned, InProgress, Blocked, Completed} ==> o.assignedAt.Some? && o.assignee.Some?)
    && (o.status in {InProgress, Blocked, Completed} ==> o.startedAt.Some?)
  }

  ghost predicate Traced(c: Core, order: Id) {
    if order in c.orders then Stamped(c.orders[order]) && Chained(TrailOf(c.audit, order), c.orders[order].status)
    else TrailOf(c.audit, order) == []
  }

  ghost predicate AllTraced(c: Core) {
    forall order: Id :: Traced(c, order)
  }

  lemma {:induction false} TrailConcat(a: seq<AuditRow>, b: seq<AuditRow>, order: Id)
    ensures TrailOf(a + b, order) == TrailOf(a, order) + TrailOf(b, order)
  {
    if b == [] {
      assert a + b == a;
    } else {
      TrailConcat(a, b[..|b| - 1], order);
      assert (a + b)[..|a + b| - 1] == a + b[..|b| - 1];
    }
  }

  lemma ChainExtends(trail: seq<AuditRow>, status: Status, row: AuditRow)
    requires Chained(trail, status) && row.OrderAudit? && row.before == Some(status) && Link(status, row.after)
    ensures Chained(trail + [row], row.after)
  {
  }

  /** At most one of the rows a statement audits is about an order, and it is the one it saves. */
  lemma AuditedOrder(stmt: Stmt, c: Core, cost: nat, order: Id)
    requires Exec(stmt, c, cost).Ok?
    ensures var w := Exec(stmt, c, cost).value.writes;
            TrailOf(w.audit, order) ==
            if order in w.orders
            then [OrderAudit(order, if order in c.orders then Some(c.orders[order].status) else None,
                             w.orders[order].status)]
            else []
  {
    var w := Exec(stmt, c, cost).value.writes;
    assert |w.audit| <= 2;
    if |w.audit| > 0 {
      assert w.audit[..|w.audit| - 1] == if |w.audit| == 2 then [w.audit[0]] else [];
      assert TrailOf([], order) == [];
      assert [w.audit[0]][..0] == [];
    }
  }

  /** Every order row a statement saves is a new open order or a link from the row it replaces. */
  lemma SavedRowsAreLinked(stmt: Stmt, c: Core, cost: nat, order: Id)
    requires Exec(stmt, c, cost).Ok? && order in Exec(stmt, c, cost).value.writes.orders
    requires stmt.CloseOrder? ==> stmt.order in c.orders && CanTransition(c.orders[stmt.order].status, Completed)
    ensures var o := Exec(stmt, c, cost).value.writes.orders[order];
            if order in c.orders
            then Link(c.orders[order].status, o.status) && (Stamped(c.orders[order]) ==> Stamped(o))
            else o.status == Open && Stamped(o)
  {
  }

  lemma LinkedWritesKeepTrace(c: Core, w: Writes, order: Id)
    requires Traced(c, order)
    requires order !in w.orders ==> TrailOf(w.audit, order) == []
    requires order in w.orders ==>
               var o, isNew := w.orders[order], order !in c.orders;
               && TrailOf(w.audit, order) ==
                    [OrderAudit(order, if isNew then None else Some(c.orders[order].status), o.status)]
               && if isNew then o.status == Open && Stamped(o)
                  else Link(c.orders[order].status, o.status) && (Stamped(c.orders[order]) ==> Stamped(o))
    ensures Traced(Overlay(c, w), order)
  {
    TrailConcat(c.audit, w.audit, order);
    if order in w.orders && order in c.orders {
      ChainExtends(TrailOf(c.audit, order), c.orders[order].status, TrailOf(w.audit, order)[0]);
    }
  }

  lemma StatementKeepsTrace(stmt: Stmt, c: Core, cost: nat, order: Id)
    requires Traced(c, order) && Exec(stmt, c, cost).Ok?
    requires stmt.CloseOrder? ==> stmt.order in c.orders && CanTransition(c.orders[stmt.order].status, Completed)
    ensures Traced(Overlay(c, Exec(stmt, c, cost).value.writes), order)
  {
    hide Exec, Traced, Overlay, TrailOf;
    var w := Exec(stmt, c, cost).value.writes;
    AuditedOrder(stmt, c, cost, order);
    if order in w.orders {
      SavedRowsAreLinked(stmt, c, cost, order);
    }
    LinkedWritesKeepTrace(c, w, order);
  }

  lemma {:induction false} PrefixKeepsTraces(c: Core, op: Op, k: nat)
    requires AllTraced(c) && Valid(op) && k <= Length(op) && RunPrefix(c, op, k).Ok?
    ensures AllTraced(RunPrefix(c, op, k).value.core)
  {
    hide Exec, Overlay, Traced;
    if k > 0 {
      PrefixKeepsTraces(c, op, k - 1);
      var m, stmt := RunPrefix(c, op, k - 1).value, StmtAt(op, k - 1);
      if stmt.CloseOrder? {
        CompletionLeavesOrders(c, op, k - 1);
      }
      forall order: Id
        ensures Traced(RunPrefix(c, op, k).value.core, order)
      {
        StatementKeepsTrace(stmt, m.core, m.cost, order);
      }
    }
  }
}
