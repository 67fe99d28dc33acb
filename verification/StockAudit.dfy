/** Every stock movement that is not a consumption is audited with what it changed. */
module StockAudit {
  import opened Wrappers
  import opened Tables
  import opened Statements
  import opened Transactions
  import opened Ledger

  /** Units moved by hand, as the ledger has it. */
  function MovedUnits(ledger: seq<LedgerRow>, part: Id): int {
    if ledger == [] then 0
    else
      var row := ledger[|ledger| - 1];
      MovedUnits(ledger[..|ledger| - 1], part) + if row.part == part && row.reason != Consumed then row.delta else 0
  }

  function QuantityIn(row: Option<Part>): int {
    if row.Some? then row.value.quantity else 0
  }

  /** The change of stock an audit row shows for a part. */
  function ChangeIn(row: AuditRow, part: Id): int {
    if row.PartAudit? && row.part == part then QuantityIn(row.rowAfter) - QuantityIn(row.rowBefore) else 0
  }

  function AuditedUnits(audit: seq<AuditRow>, part: Id): int {
    if audit == [] then 0 else AuditedUnits(audit[..|audit| - 1], part) + ChangeIn(audit[|audit| - 1], part)
  }

  ghost predicate Audited(c: Core, part: Id) {
    MovedUnits(c.ledger, part) == AuditedUnits(c.audit, part)
  }

  lemma {:induction false} MovedConcat(a: seq<LedgerRow>, b: seq<LedgerRow>, part: Id)
    ensures MovedUnits(a + b, part) == MovedUnits(a, part) + MovedUnits(b, part)
  {
    if b == [] {
      assert a + b == a;
    } else {
      MovedConcat(a, b[..|b| - 1], part);
      assert (a + b)[..|a + b| - 1] == a + b[..|b| - 1];
    }
  }

  lemma {:induction false} AuditedConcat(a: seq<AuditRow>, b: seq<AuditRow>, part: Id)
    ensures AuditedUnits(a + b, part) == AuditedUnits(a, part) + AuditedUnits(b, part)
  {
    if b == [] {
      assert a + b == a;
    } else {
      AuditedConcat(a, b[..|b| - 1], part);
      assert (a + b)[..|a + b| - 1] == a + b[..|b| - 1];
    }
  }

  lemma ShortAudit(audit: seq<AuditRow>, part: Id)
    requires |audit| <= 2
    ensures |audit| == 0 ==> AuditedUnits(audit, part) == 0
    ensures |audit| == 1 ==> AuditedUnits(audit, part) == ChangeIn(audit[0], part)
    ensures |audit| == 2 ==> AuditedUnits(audit, part) == ChangeIn(audit[0], part) + ChangeIn(audit[1], part)
  {
  }

  lemma ShortLedger(ledger: seq<LedgerRow>, part: Id)
    requires |ledger| <= 1
    ensures MovedUnits(ledger, part) ==
            if |ledger| == 1 && ledger[0].part == part && ledger[0].reason != Consumed then ledger[0].delta else 0
  {
  }

  /** One statement moves by hand what it audits; a deleted part has no stock left to account for. */
  lemma WritesAreAudited(stmt: Stmt, c: Core, cost: nat, part: Id)
    requires WritesOf(stmt, c, cost).Ok?
    requires stmt.InsertPart? ==> stmt.row.quantity >= 0
    requires stmt.ChangeStock? ==> stmt.reason != Consumed
    requires stmt.DeletePart? && stmt.part in c.parts ==> c.parts[stmt.part].quantity == 0
    ensures var w := WritesOf(stmt, c, cost).value;
            MovedUnits(w.ledger, part) == AuditedUnits(w.audit, part)
  {
    var w := WritesOf(stmt, c, cost).value;
    ShortLedger(w.ledger, part);
    ShortAudit(w.audit, part);
    hide MovedUnits, AuditedUnits, Referenced, HasActiveAuto;
  }

  lemma DeletedIsEmpty(stmt: Stmt, c: Core, cost: nat)
    requires AllBooked(c) && stmt.DeletePart? && WritesOf(stmt, c, cost).Ok?
    ensures stmt.part in c.parts && c.parts[stmt.part].quantity == 0
  {
    hide AllBooked, Referenced;
    UnreferencedIsEmpty(c, stmt.part);
  }

  lemma OverlayIsAudited(c: Core, w: Writes, part: Id)
    requires Audited(c, part) && MovedUnits(w.ledger, part) == AuditedUnits(w.audit, part)
    ensures Audited(Overlay(c, w), part)
  {
    MovedConcat(c.ledger, w.ledger, part);
    AuditedConcat(c.audit, w.audit, part);
  }

  lemma StatementIsAudited(stmt: Stmt, c: Core, cost: nat, part: Id)
    requires AllBooked(c) && Audited(c, part) && Exec(stmt, c, cost).Ok?
    requires stmt.InsertPart? ==> stmt.row.quantity >= 0
    requires stmt.ChangeStock? ==> stmt.reason != Consumed
    ensures Audited(Overlay(c, Exec(stmt, c, cost).value.writes), part)
  {
    hide WritesOf, Overlay, Audited, AllBooked;
    if stmt.DeletePart? {
      DeletedIsEmpty(stmt, c, cost);
    }
    WritesAreAudited(stmt, c, cost, part);
    OverlayIsAudited(c, WritesOf(stmt, c, cost).value, part);
  }

  lemma {:induction false} PrefixIsAudited(c: Core, op: Op, k: nat, part: Id)
    requires AllBooked(c) && Valid(op) && k <= Length(op) && RunPrefix(c, op, k).Ok? && Audited(c, part)
    ensures Audited(RunPrefix(c, op, k).value.core, part)
  {
    hide Exec, Overlay, AllBooked, Audited;
    if k > 0 {
      PrefixIsAudited(c, op, k - 1, part);
      PrefixKeepsBooks(c, op, k - 1);
      var m := RunPrefix(c, op, k - 1).value;
      StatementIsAudited(StmtAt(op, k - 1), m.core, m.cost, part);
    }
  }
}
