/** Double entry: what completion takes from stock is what it puts on the order, once, and priced. */
module Reconciliation {
  import opened Wrappers
  import opened Lifecycle
  import opened Tables
  import opened Statements
  import opened Transactions

  /** Units the ledger says an order consumed of a part. */
  function ConsumedUnits(ledger: seq<LedgerRow>, order: Id, part: Id): int {
    if ledger == [] then 0
    else
      var row := ledger[|ledger| - 1];
      ConsumedUnits(ledger[..|ledger| - 1], order, part)
      + if row.order == Some(order) && row.part == part && row.reason == Consumed then -row.delta else 0
  }

  /** Units the work-order parts of an order list for a part. */
  function UsedUnits(usage: seq<UsageRow>, order: Id, part: Id): int {
    if usage == [] then 0
    else
      var row := usage[|usage| - 1];
      UsedUnits(usage[..|usage| - 1], order, part)
      + if row.order == order && row.part == part then row.quantity else 0
  }

  /** What the work-order parts of an order cost at their snapshot prices. */
  function Expenses(usage: seq<UsageRow>, order: Id): nat {
    if usage == [] then 0
    else
      var row := usage[|usage| - 1];
      Expenses(usage[..|usage| - 1], order) + if row.order == order then row.unitCost * row.quantity else 0
  }

  ghost predicate Untouched(c: Core, order: Id) {
    && (forall i :: 0 <= i < |c.ledger| ==> c.ledger[i].order != Some(order))
    && (forall i :: 0 <= i < |c.usage| ==> c.usage[i].order != order)
  }

  predicate IsCompleted(c: Core, order: Id) {
    order in c.orders && c.orders[order].status == Completed
  }

  ghost predicate Matched(c: Core) {
    forall order: Id, part: Id :: ConsumedUnits(c.ledger, order, part) == UsedUnits(c.usage, order, part)
  }

  /** Only completed orders have touched stock, and their total is the sum of their snapshots. */
  ghost predicate Settled(c: Core, order: Id) {
    if IsCompleted(c, order) then c.orders[order].totalCost == Some(Expenses(c.usage, order))
    else Untouched(c, order)
  }

  ghost predicate Reconciled(c: Core) {
    Matched(c) && forall order: Id :: Settled(c, order)
  }

  lemma UsageAppend(usage: seq<UsageRow>, row: UsageRow, order: Id, part: Id)
    ensures UsedUnits(usage + [row], order, part) == UsedUnits(usage, order, part)
            + if row.order == order && row.part == part then row.quantity else 0
    ensures Expenses(usage + [row], order) == Expenses(usage, order)
            + if row.order == order then row.unitCost * row.quantity else 0
  {
  }

  lemma {:induction false} UntouchedMeansNothing(usage: seq<UsageRow>, order: Id, part: Id)
    requires forall i :: 0 <= i < |usage| ==> usage[i].order != order
    ensures UsedUnits(usage, order, part) == 0 && Expenses(usage, order) == 0
  {
    if usage != [] {
      UntouchedMeansNothing(usage[..|usage| - 1], order, part);
    }
  }

  // ---- The two sides of the entry ----

  lemma ConsumptionMatches(c: Core, d: Core, entry: LedgerRow, used: UsageRow)
    requires Matched(c) && d.ledger == c.ledger + [entry] && d.usage == c.usage + [used]
    requires entry.reason == Consumed && entry.order == Some(used.order) && entry.part == used.part
    requires -entry.delta == used.quantity
    ensures Matched(d)
  {
  }

  lemma OtherPostingMatches(c: Core, d: Core, entry: LedgerRow)
    requires Matched(c) && d.ledger == c.ledger + [entry] && d.usage == c.usage && entry.order == None
    ensures Matched(d)
  {
  }

  lemma StatementMatches(stmt: Stmt, c: Core, cost: nat)
    requires Matched(c) && Exec(stmt, c, cost).Ok?
    ensures Matched(Overlay(c, Exec(stmt, c, cost).value.writes))
  {
    var w := Exec(stmt, c, cost).value.writes;
    var d := Overlay(c, w);
    if stmt.ConsumePart? {
      ConsumptionMatches(c, d, w.ledger[0], w.usage[0]);
    } else if w.ledger != [] {
      assert d.usage == c.usage;
      OtherPostingMatches(c, d, w.ledger[0]);
    } else {
      assert d.usage == c.usage && d.ledger == c.ledger;
    }
  }

  // ---- One statement that is not part of a completion ----

  lemma StatementSettles(stmt: Stmt, c: Core, cost: nat, order: Id)
    requires !stmt.ConsumePart? && !stmt.CloseOrder?
    requires Exec(stmt, c, cost).Ok? && Settled(c, order)
    ensures var d := Overlay(c, Exec(stmt, c, cost).value.writes);
            && Settled(d, order)
            && (IsCompleted(c, order) ==> IsCompleted(d, order) && d.orders[order] == c.orders[order])
  {
    var w := Exec(stmt, c, cost).value.writes;
    var d := Overlay(c, w);
    assert d.usage == c.usage;
    assert IsCompleted(c, order) <==> IsCompleted(d, order);
    forall i | 0 <= i < |d.ledger| && Untouched(c, order)
      ensures d.ledger[i].order != Some(order)
    {
      assert d.ledger[i] == if i < |c.ledger| then c.ledger[i] else w.ledger[i - |c.ledger|];
    }
  }

  // ---- The statements of a completion ----

  /** Part way through completing `order`: no order row has changed, no other order's entries have,
      and the running total is what the order's parts cost so far. */
  ghost predicate Midway(c: Core, m: Memory, order: Id) {
    && m.core.orders == c.orders
    && (forall o: Id :: o != order ==>
          Expenses(m.core.usage, o) == Expenses(c.usage, o) && (Untouched(c, o) ==> Untouched(m.core, o)))
    && m.cost == Expenses(m.core.usage, order)
  }

  lemma ConsumptionStaysMidway(c: Core, m: Memory, stmt: Stmt)
    requires stmt.ConsumePart? && Midway(c, m, stmt.order) && Exec(stmt, m.core, m.cost).Ok?
    ensures var effect := Exec(stmt, m.core, m.cost).value;
            Midway(c, Memory(Overlay(m.core, effect.writes), effect.cost), stmt.order)
  {
    var effect := Exec(stmt, m.core, m.cost).value;
    var d := Overlay(m.core, effect.writes);
    var entry, used := effect.writes.ledger[0], effect.writes.usage[0];
    assert d.ledger == m.core.ledger + [entry] && d.usage == m.core.usage + [used];
    assert d.orders == m.core.orders;
    UsageAppend(m.core.usage, used, stmt.order, 0);
    forall o: Id | o != stmt.order
      ensures Expenses(d.usage, o) == Expenses(c.usage, o) && (Untouched(c, o) ==> Untouched(d, o))
    {
      UsageAppend(m.core.usage, used, o, 0);
    }
  }

  lemma {:induction false} CompletionStaysMidway(c: Core, op: Op, k: nat)
    requires op.Complete? && 0 < k <= |op.lines| + 1 && RunPrefix(c, op, k).Ok?
    requires forall order: Id :: Settled(c, order)
    ensures Midway(c, RunPrefix(c, op, k).value, op.order)
    ensures op.order in c.orders && CanTransition(c.orders[op.order].status, Completed)
  {
    hide Midway;
    if k == 1 {
      assert RunPrefix(c, op, 0) == Ok(Memory(c, 0));
      OverlayNothing(c);
      assert Settled(c, op.order);
      UntouchedMeansNothing(c.usage, op.order, 0);
      MidwayAtStart(c, op.order);
    } else {
      CompletionStaysMidway(c, op, k - 1);
      ConsumptionStaysMidway(c, RunPrefix(c, op, k - 1).value, StmtAt(op, k - 1));
    }
  }

  lemma MidwayAtStart(c: Core, order: Id)
    requires Expenses(c.usage, order) == 0
    ensures Midway(c, Memory(c, 0), order)
  {
  }

  lemma ClosingSettles(c: Core, m: Memory, stmt: Stmt, order: Id)
    requires stmt.CloseOrder? && Midway(c, m, stmt.order) && stmt.order in c.orders && Settled(c, order)
    ensures Exec(stmt, m.core, m.cost).Ok?
    ensures var d := Overlay(m.core, Exec(stmt, m.core, m.cost).value.writes);
            && Settled(d, order) && IsCompleted(d, stmt.order)
            && (order != stmt.order && order in c.orders ==> order in d.orders && d.orders[order] == c.orders[order])
  {
    var d := Overlay(m.core, Exec(stmt, m.core, m.cost).value.writes);
    assert d.usage == m.core.usage && d.ledger == m.core.ledger;
  }

  // ---- Whole calls ----

  lemma {:induction false} PrefixMatches(c: Core, op: Op, k: nat)
    requires Matched(c) && k <= Length(op) && RunPrefix(c, op, k).Ok?
    ensures Matched(RunPrefix(c, op, k).value.core)
  {
    hide Exec, Overlay, Matched;
    if k > 0 {
      PrefixMatches(c, op, k - 1);
      var m := RunPrefix(c, op, k - 1).value;
      StatementMatches(StmtAt(op, k - 1), m.core, m.cost);
    }
  }

  lemma {:induction false} PrefixSettles(c: Core, op: Op, k: nat, order: Id)
    requires !op.Complete? && Valid(op) && k <= Length(op) && RunPrefix(c, op, k).Ok? && Settled(c, order)
    ensures var d := RunPrefix(c, op, k).value.core;
            Settled(d, order) && (IsCompleted(c, order) ==> IsCompleted(d, order) && d.orders[order] == c.orders[order])
  {
    hide Exec, Overlay, Settled;
    if k > 0 {
      PrefixSettles(c, op, k - 1, order);
      var m := RunPrefix(c, op, k - 1).value;
      StatementSettles(StmtAt(op, k - 1), m.core, m.cost, order);
    }
  }

  /** A successful call keeps the entries reconciled and never changes a completed order. */
  lemma RunReconciles(c: Core, op: Op)
    requires Reconciled(c) && Valid(op) && Run(c, op).Ok?
    ensures var d := Run(c, op).value;
            && Reconciled(d)
            && (forall order :: IsCompleted(c, order) ==> IsCompleted(d, order) && d.orders[order] == c.orders[order])
            && (op.Complete? ==> !IsCompleted(c, op.order) && IsCompleted(d, op.order))
  {
    hide Exec, Overlay, Matched, Settled;
    var d, n := Run(c, op).value, Length(op);
    PrefixMatches(c, op, n);
    if op.Complete? {
      CompletionStaysMidway(c, op, n - 1);
    }
    forall order: Id
      ensures Settled(d, order)
      ensures IsCompleted(c, order) ==> IsCompleted(d, order) && d.orders[order] == c.orders[order]
      ensures op.Complete? ==> IsCompleted(d, op.order)
    {
      if op.Complete? {
        ClosingSettles(c, RunPrefix(c, op, n - 1).value, StmtAt(op, n - 1), order);
      } else {
        PrefixSettles(c, op, n, order);
      }
    }
  }
}
