/** The parts loop of a completion: when it succeeds, and what it leaves. */
module Completion {
  import opened Wrappers
  import opened Lifecycle
  import opened Tables
  import opened Statements
  import opened Transactions

  function Total(f: Line -> nat, lines: seq<Line>): nat {
    if lines == [] then 0 else Total(f, lines[..|lines| - 1]) + f(lines[|lines| - 1])
  }

  function UnitsOf(part: Id): Line -> nat {
    (l: Line) => if l.part == part then l.quantity else 0
  }

  /** Units of a part over the whole list, duplicates included. */
  function Wanted(lines: seq<Line>, part: Id): nat {
    Total(UnitsOf(part), lines)
  }

  function PriceIn(parts: map<Id, Part>): Line -> nat {
    (l: Line) => if l.part in parts then parts[l.part].unitCost * l.quantity else 0
  }

  predicate FitsStock(parts: map<Id, Part>, lines: seq<Line>) {
    forall i :: 0 <= i < |lines| ==>
      lines[i].part in parts && Wanted(lines, lines[i].part) <= parts[lines[i].part].quantity
  }

  predicate MayComplete(c: Core, op: Op)
    requires op.Complete?
  {
    op.order in c.orders && Completable(c.orders[op.order], op.actor).Ok?
  }

  /** The parts table with the units of a list taken out. */
  function Debited(parts: map<Id, Part>, lines: seq<Line>): map<Id, Part> {
    map p | p in parts :: parts[p].(quantity := parts[p].quantity - Wanted(lines, p))
  }

  lemma TotalAppend(f: Line -> nat, lines: seq<Line>, k: nat)
    requires k < |lines|
    ensures Total(f, lines[..k + 1]) == Total(f, lines[..k]) + f(lines[k])
  {
    assert lines[..k + 1][..|lines[..k + 1]| - 1] == lines[..k];
  }

  lemma FitsStockAppend(parts: map<Id, Part>, lines: seq<Line>, k: nat)
    requires k < |lines|
    ensures FitsStock(parts, lines[..k + 1]) <==>
            && FitsStock(parts, lines[..k])
            && lines[k].part in parts && Wanted(lines[..k + 1], lines[k].part) <= parts[lines[k].part].quantity
  {
    var more, fewer := lines[..k + 1], lines[..k];
    forall p: Id
      ensures Wanted(more, p) == Wanted(fewer, p) + UnitsOf(p)(lines[k])
    {
      TotalAppend(UnitsOf(p), lines, k);
    }
    if FitsStock(parts, more) {
      assert more[k] == lines[k];
      forall i | 0 <= i < k
        ensures fewer[i].part in parts && Wanted(fewer, fewer[i].part) <= parts[fewer[i].part].quantity
      {
        assert more[i] == fewer[i];
      }
    }
  }

  /** One consumption against tables already debited by the first k lines. */
  lemma ConsumeNext(c: Core, m: Memory, order: Id, lines: seq<Line>, k: nat, user: Id)
    requires k < |lines| && m.core.parts == Debited(c.parts, lines[..k])
    ensures var outcome := Exec(ConsumePart(order, lines[k], user), m.core, m.cost);
            && (outcome.Ok? <==> lines[k].part in c.parts
                                 && Wanted(lines[..k + 1], lines[k].part) <= c.parts[lines[k].part].quantity)
            && (outcome.Ok? ==>
                  && Overlay(m.core, outcome.value.writes).parts == Debited(c.parts, lines[..k + 1])
                  && outcome.value.cost == m.cost + PriceIn(c.parts)(lines[k]))
  {
    var outcome := Exec(ConsumePart(order, lines[k], user), m.core, m.cost);
    forall p: Id
      ensures Wanted(lines[..k + 1], p) == Wanted(lines[..k], p) + UnitsOf(p)(lines[k])
    {
      TotalAppend(UnitsOf(p), lines, k);
    }
    if outcome.Ok? {
      assert Overlay(m.core, outcome.value.writes).parts == Debited(c.parts, lines[..k + 1]);
    }
  }

  lemma {:induction false} LoopSucceedsIff(c: Core, op: Op, k: nat)
    requires op.Complete? && MayComplete(c, op) && k <= |op.lines|
    ensures RunPrefix(c, op, k + 1).Ok? <==> FitsStock(c.parts, op.lines[..k])
    ensures RunPrefix(c, op, k + 1).Ok? ==>
              var m := RunPrefix(c, op, k + 1).value;
              && m.core.parts == Debited(c.parts, op.lines[..k])
              && m.cost == Total(PriceIn(c.parts), op.lines[..k])
  {
    if k == 0 {
      assert RunPrefix(c, op, 0) == Ok(Memory(c, 0));
      OverlayNothing(c);
      assert c.parts == Debited(c.parts, []);
    } else {
      hide Exec, Overlay, FitsStock, Debited, Total;
      LoopSucceedsIff(c, op, k - 1);
      FitsStockAppend(c.parts, op.lines, k - 1);
      if RunPrefix(c, op, k).Ok? {
        ConsumeNext(c, RunPrefix(c, op, k).value, op.order, op.lines, k - 1, op.actor.id);
        TotalAppend(PriceIn(c.parts), op.lines, k - 1);
      }
    }
  }

  lemma ClosingTouchesOneRow(stmt: Stmt, c: Core, cost: nat)
    requires stmt.CloseOrder? && stmt.order in c.orders
    ensures Exec(stmt, c, cost).Ok?
    ensures var d := Overlay(c, Exec(stmt, c, cost).value.writes);
            d.parts == c.parts && d.orders == c.orders[stmt.order := CompletedRow(c.orders[stmt.order], stmt.now, cost)]
  {
  }

  lemma ClosingSucceeds(c: Core, op: Op)
    requires op.Complete? && RunPrefix(c, op, |op.lines| + 1).Ok?
    ensures Run(c, op).Ok?
    ensures var m, d := RunPrefix(c, op, |op.lines| + 1).value, Run(c, op).value;
            op.order in c.orders && d.parts == m.core.parts
            && d.orders == c.orders[op.order := CompletedRow(c.orders[op.order], op.now, m.cost)]
  {
    hide Exec, Overlay;
    CompletionLeavesOrders(c, op, |op.lines| + 1);
    var m := RunPrefix(c, op, |op.lines| + 1).value;
    ClosingTouchesOneRow(StmtAt(op, |op.lines| + 1), m.core, m.cost);
  }

  /** A completion succeeds exactly when its guards pass, every listed part exists and each distinct
      part's total over the whole list fits its stock. It then takes exactly those totals and prices
      the list at the prices it found. */
  lemma CompletionSucceedsIff(c: Core, op: Op)
    requires op.Complete?
    ensures Run(c, op).Ok? <==> MayComplete(c, op) && FitsStock(c.parts, op.lines)
    ensures Run(c, op).Ok? ==>
              var d := Run(c, op).value;
              && d.parts == Debited(c.parts, op.lines)
              && d.orders == c.orders[op.order :=
                   c.orders[op.order].(status := Completed, completedAt := Some(op.now),
                                       totalCost := Some(Total(PriceIn(c.parts), op.lines)))]
  {
    hide Exec, Overlay, FitsStock, Debited, Total, Completable;
    var n := |op.lines|;
    assert op.lines[..n] == op.lines;
    if MayComplete(c, op) {
      LoopSucceedsIff(c, op, n);
      if RunPrefix(c, op, n + 1).Ok? {
        ClosingSucceeds(c, op);
      }
    } else {
      FailureSticks(c, op, n + 2);
    }
  }

  lemma {:induction false} FailureSticks(c: Core, op: Op, k: nat)
    requires op.Complete? && !MayComplete(c, op) && 0 < k <= Length(op)
    ensures RunPrefix(c, op, k).Err?
  {
    if k > 1 {
      FailureSticks(c, op, k - 1);
    } else {
      assert RunPrefix(c, op, 0) == Ok(Memory(c, 0));
    }
  }

  // ---- Every row a completion writes ----

  /** After k lines: one ledger row and one work-order part each, in list order, with the stock each
      left and the price it found; nothing else has been written but stock. */
  ghost predicate LinesWritten(c: Core, d: Core, op: Op, k: nat)
    requires op.Complete? && k <= |op.lines|
  {
    && |d.ledger| == |c.ledger| + k && c.ledger <= d.ledger
    && |d.usage| == |c.usage| + k && c.usage <= d.usage
    && d.audit == c.audit && d.history == c.history && d.notices == c.notices
    && forall i :: 0 <= i < k ==> LineWritten(c, d, op, i)
  }

  ghost predicate LineWritten(c: Core, d: Core, op: Op, i: nat)
    requires op.Complete? && i < |op.lines|
    requires |c.ledger| + i < |d.ledger| && |c.usage| + i < |d.usage|
  {
    var part, quantity := op.lines[i].part, op.lines[i].quantity;
    && part in c.parts
    && d.usage[|c.usage| + i] == UsageRow(op.order, part, quantity, c.parts[part].unitCost)
    && d.ledger[|c.ledger| + i] == LedgerRow(part, 0 - quantity, Consumed, Some(op.order), op.actor.id,
                                             c.parts[part].quantity - Wanted(op.lines[..i + 1], part))
  }

  lemma ConsumeWritesRows(c: Core, m: Memory, op: Op, k: nat)
    requires op.Complete? && k < |op.lines| && m.core.parts == Debited(c.parts, op.lines[..k])
    requires Exec(ConsumePart(op.order, op.lines[k], op.actor.id), m.core, m.cost).Ok?
    ensures var effect := Exec(ConsumePart(op.order, op.lines[k], op.actor.id), m.core, m.cost).value;
            var d := Overlay(m.core, effect.writes);
            var part, quantity := op.lines[k].part, op.lines[k].quantity;
            && part in c.parts
            && d.usage == m.core.usage + [UsageRow(op.order, part, quantity, c.parts[part].unitCost)]
            && d.ledger == m.core.ledger +
                           [LedgerRow(part, 0 - quantity, Consumed, Some(op.order), op.actor.id,
                                      c.parts[part].quantity - Wanted(op.lines[..k + 1], part))]
            && d.audit == m.core.audit && d.history == m.core.history && d.notices == m.core.notices
  {
    TotalAppend(UnitsOf(op.lines[k].part), op.lines, k);
  }

  lemma ConsumedAppend(c: Core, so: Core, d: Core, op: Op, k: nat, entry: LedgerRow, used: UsageRow)
    requires op.Complete? && k < |op.lines| && LinesWritten(c, so, op, k)
    requires d.ledger == so.ledger + [entry] && d.usage == so.usage + [used]
    requires d.audit == so.audit && d.history == so.history && d.notices == so.notices
    requires op.lines[k].part in c.parts
    requires var part, quantity := op.lines[k].part, op.lines[k].quantity;
             && used == UsageRow(op.order, part, quantity, c.parts[part].unitCost)
             && entry == LedgerRow(part, 0 - quantity, Consumed, Some(op.order), op.actor.id,
                                   c.parts[part].quantity - Wanted(op.lines[..k + 1], part))
    ensures LinesWritten(c, d, op, k + 1)
  {
    hide Wanted;
    forall i | 0 <= i < k
      ensures LineWritten(c, d, op, i)
    {
      assert LineWritten(c, so, op, i);
      assert d.usage[|c.usage| + i] == so.usage[|c.usage| + i] && d.ledger[|c.ledger| + i] == so.ledger[|c.ledger| + i];
    }
    assert LineWritten(c, d, op, k);
  }

  lemma LoopStarts(c: Core, op: Op)
    requires op.Complete? && MayComplete(c, op)
    ensures RunPrefix(c, op, 1) == Ok(Memory(c, 0))
  {
    assert RunPrefix(c, op, 0) == Ok(Memory(c, 0));
    hide Overlay;
    OverlayNothing(c);
  }

  lemma LoopSteps(c: Core, op: Op, k: nat)
    requires op.Complete? && k < |op.lines| && RunPrefix(c, op, k + 2).Ok?
    ensures RunPrefix(c, op, k + 1).Ok?
    ensures var m := RunPrefix(c, op, k + 1).value;
            var effect := Exec(ConsumePart(op.order, op.lines[k], op.actor.id), m.core, m.cost);
            effect.Ok? && RunPrefix(c, op, k + 2).value.core == Overlay(m.core, effect.value.writes)
  {
    hide Exec, Overlay;
  }

  lemma {:induction false} LoopWritesRows(c: Core, op: Op, k: nat)
    requires op.Complete? && MayComplete(c, op) && k <= |op.lines| && RunPrefix(c, op, k + 1).Ok?
    ensures LinesWritten(c, RunPrefix(c, op, k + 1).value.core, op, k)
  {
    if k == 0 {
      hide RunPrefix;
      LoopStarts(c, op);
    } else {
      hide Exec, Overlay, RunPrefix, FitsStock, Debited, LinesWritten, Wanted, MayComplete, StmtAt;
      LoopSteps(c, op, k - 1);
      LoopSucceedsIff(c, op, k - 1);
      LoopWritesRows(c, op, k - 1);
      var m, d := RunPrefix(c, op, k).value, RunPrefix(c, op, k + 1).value.core;
      ConsumeWritesRows(c, m, op, k - 1);
      ConsumedAppend(c, m.core, d, op, k - 1, d.ledger[|d.ledger| - 1], d.usage[|d.usage| - 1]);
    }
  }

  lemma ClosingWritesRows(stmt: Stmt, c: Core, cost: nat)
    requires stmt.CloseOrder? && stmt.order in c.orders && Exec(stmt, c, cost).Ok?
    ensures var d, o, was := Overlay(c, Exec(stmt, c, cost).value.writes), c.orders[stmt.order], stmt.assetWas;
            && d.ledger == c.ledger && d.usage == c.usage && d.notices == c.notices
            && d.audit == c.audit + [OrderAudit(stmt.order, Some(o.status), Completed)]
                          + (if was == Operational then [] else [AssetAudit(o.asset, Some(was), Operational)])
            && d.history == c.history
                            + (if was == Operational then [] else [HistoryRow(o.asset, was, Operational, ByCompletion)])
  {
  }

  /** What a completion appends: per line a ledger row and a work-order part, the order's audit row, and
      for an asset that was out of service its audit and history rows. */
  lemma CompletionWritesRows(c: Core, op: Op)
    requires op.Complete? && Run(c, op).Ok?
    ensures var d := Run(c, op).value;
            && op.order in c.orders
            && LinesWritten(c, d.(audit := c.audit, history := c.history), op, |op.lines|)
            && var o, was := c.orders[op.order], op.assetWas;
               && d.audit == c.audit + [OrderAudit(op.order, Some(InProgress), Completed)]
                             + (if was == Operational then [] else [AssetAudit(o.asset, Some(was), Operational)])
               && d.history == c.history
                               + (if was == Operational then []
                                  else [HistoryRow(o.asset, was, Operational, ByCompletion)])
  {
    CompletionSucceedsIff(c, op);
    assert c.orders[op.order].status == InProgress;
    hide Exec, Overlay, FitsStock, Debited, Total, Completable;
    var n := |op.lines|;
    CompletionLeavesOrders(c, op, n + 1);
    LoopWritesRows(c, op, n);
    var m := RunPrefix(c, op, n + 1).value;
    ClosingWritesRows(StmtAt(op, n + 1), m.core, m.cost);
    hide LineWritten, Run, RunPrefix;
    SameLinesWritten(c, m.core, Run(c, op).value.(audit := c.audit, history := c.history), op);
  }

  lemma SameLinesWritten(c: Core, so: Core, d: Core, op: Op)
    requires op.Complete? && LinesWritten(c, so, op, |op.lines|)
    requires d.ledger == so.ledger && d.usage == so.usage
    requires d.audit == so.audit && d.history == so.history && d.notices == so.notices
    ensures LinesWritten(c, d, op, |op.lines|)
  {
    forall i | 0 <= i < |op.lines|
      ensures LineWritten(c, d, op, i)
    {
      assert LineWritten(c, so, op, i);
    }
  }

  /** The first line that cannot be served decides the error. */
  lemma FirstBadLineFails(c: Core, op: Op, k: nat)
    requires op.Complete? && MayComplete(c, op) && k < |op.lines|
    requires FitsStock(c.parts, op.lines[..k]) && !FitsStock(c.parts, op.lines[..k + 1])
    ensures Run(c, op) == Err(if op.lines[k].part in c.parts then Conflict else NotFound)
  {
    hide Overlay, FitsStock, Debited, Total, Completable, Exec;
    LoopSucceedsIff(c, op, k);
    LoopSucceedsIff(c, op, k + 1);
    var m := RunPrefix(c, op, k + 1).value;
    BadLineError(c, m, op, k);
    NextStatement(c, op, k + 1, m);
  }

  lemma BadLineError(c: Core, m: Memory, op: Op, k: nat)
    requires op.Complete? && k < |op.lines| && m.core.parts == Debited(c.parts, op.lines[..k])
    requires Exec(ConsumePart(op.order, op.lines[k], op.actor.id), m.core, m.cost).Err?
    ensures WritesOf(ConsumePart(op.order, op.lines[k], op.actor.id), m.core, m.cost) ==
            Err(if op.lines[k].part in c.parts then Conflict else NotFound)
  {
  }

  // ---- The order of the list does not matter ----

  function Without(lines: seq<Line>, i: nat): seq<Line>
    requires i < |lines|
  {
    lines[..i] + lines[i + 1..]
  }

  lemma {:induction false} TotalWithout(f: Line -> nat, lines: seq<Line>, i: nat)
    requires i < |lines|
    ensures Total(f, lines) == Total(f, Without(lines, i)) + f(lines[i])
  {
    var n := |lines| - 1;
    if i == n {
      assert Without(lines, i) == lines[..n];
    } else {
      TotalWithout(f, lines[..n], i);
      assert Without(lines, i)[..|Without(lines, i)| - 1] == Without(lines[..n], i);
    }
  }

  lemma WithoutRemovesOne(lines: seq<Line>, i: nat)
    requires i < |lines|
    ensures multiset(Without(lines, i)) == multiset(lines) - multiset{lines[i]}
  {
    assert lines == lines[..i] + [lines[i]] + lines[i + 1..];
  }

  lemma {:induction false} TotalIgnoresOrder(f: Line -> nat, a: seq<Line>, b: seq<Line>)
    requires multiset(a) == multiset(b)
    ensures Total(f, a) == Total(f, b)
    decreases |a|
  {
    if a == [] {
      assert |multiset(b)| == 0;
    } else {
      var n := |a| - 1;
      assert a[n] in multiset(b);
      var i :| 0 <= i < |b| && b[i] == a[n];
      assert a[..n] == Without(a, n);
      WithoutRemovesOne(a, n);
      WithoutRemovesOne(b, i);
      TotalWithout(f, b, i);
      TotalIgnoresOrder(f, a[..n], Without(b, i));
    }
  }

  lemma StockIgnoresOrder(parts: map<Id, Part>, a: seq<Line>, b: seq<Line>)
    requires multiset(a) == multiset(b)
    ensures Debited(parts, a) == Debited(parts, b)
    ensures FitsStock(parts, a) ==> FitsStock(parts, b)
  {
    forall p: Id
      ensures Wanted(a, p) == Wanted(b, p)
    {
      TotalIgnoresOrder(UnitsOf(p), a, b);
    }
    hide Wanted;
    forall i | FitsStock(parts, a) && 0 <= i < |b|
      ensures b[i].part in parts && Wanted(b, b[i].part) <= parts[b[i].part].quantity
    {
      assert b[i] in multiset(a);
    }
  }

  /** Two completions whose lists are permutations of each other succeed together, with the same
      stock, the same order row and the same total. */
  lemma CompletionIgnoresListOrder(c: Core, op: Op, lines: seq<Line>)
    requires op.Complete? && multiset(lines) == multiset(op.lines)
    ensures var permuted := op.(lines := lines);
            && (Run(c, permuted).Ok? <==> Run(c, op).Ok?)
            && (Run(c, op).Ok? ==> Run(c, permuted).value.parts == Run(c, op).value.parts
                                   && Run(c, permuted).value.orders == Run(c, op).value.orders)
  {
    hide Run, FitsStock, Debited, Total, Completable;
    CompletionSucceedsIff(c, op);
    CompletionSucceedsIff(c, op.(lines := lines));
    StockIgnoresOrder(c.parts, lines, op.lines);
    StockIgnoresOrder(c.parts, op.lines, lines);
    TotalIgnoresOrder(PriceIn(c.parts), lines, op.lines);
  }
}
