/** The inventory ledger as the record of every part's stock. */
module Ledger {
  import opened Wrappers
  import opened Tables
  import opened Statements
  import opened Transactions

  function RowsOf(ledger: seq<LedgerRow>, part: Id): seq<LedgerRow> {
    if ledger == [] then []
    else
      var earlier, last := RowsOf(ledger[..|ledger| - 1], part), ledger[|ledger| - 1];
      if last.part == part then earlier + [last] else earlier
  }

  function Balance(rows: seq<LedgerRow>): int {
    if rows == [] then 0 else Balance(rows[..|rows| - 1]) + rows[|rows| - 1].delta
  }

  /** Every row records the balance it leaves, and no balance is negative. */
  ghost predicate Running(rows: seq<LedgerRow>) {
    forall i :: 0 <= i < |rows| ==> rows[i].resulting == Balance(rows[..i + 1]) && rows[i].resulting >= 0
  }

  /** The stock of a part is the balance of its ledger; a part that does not exist has no ledger. */
  ghost predicate Booked(c: Core, part: Id) {
    var rows := RowsOf(c.ledger, part);
    Running(rows) && if part in c.parts then c.parts[part].quantity == Balance(rows) else rows == []
  }

  ghost predicate AllBooked(c: Core) {
    forall part: Id :: Booked(c, part)
  }

  lemma RowsOfAppend(ledger: seq<LedgerRow>, row: LedgerRow, part: Id)
    ensures RowsOf(ledger + [row], part) ==
            if row.part == part then RowsOf(ledger, part) + [row] else RowsOf(ledger, part)
  {
  }

  lemma RunningAppend(rows: seq<LedgerRow>, row: LedgerRow)
    requires Running(rows) && row.resulting == Balance(rows) + row.delta && row.resulting >= 0
    ensures Running(rows + [row]) && Balance(rows + [row]) == row.resulting
  {
    var more := rows + [row];
    assert more[..|more| - 1] == rows && more[..|more|] == more;
    forall i | 0 <= i < |rows|
      ensures more[i] == rows[i] && more[..i + 1] == rows[..i + 1]
    {
    }
  }

  lemma {:induction false} RowsOfIsEmpty(ledger: seq<LedgerRow>, part: Id)
    ensures RowsOf(ledger, part) == [] <==> forall i :: 0 <= i < |ledger| ==> ledger[i].part != part
  {
    if ledger != [] {
      RowsOfIsEmpty(ledger[..|ledger| - 1], part);
      assert ledger == ledger[..|ledger| - 1] + [ledger[|ledger| - 1]];
    }
  }

  /** A stock change that records what it leaves keeps the books. */
  lemma PostingKeepsBooks(c: Core, d: Core, row: LedgerRow)
    requires AllBooked(c) && d.ledger == c.ledger + [row] && row.resulting >= 0
    requires row.part in d.parts && d.parts[row.part].quantity == row.resulting
    requires row.resulting == (if row.part in c.parts then c.parts[row.part].quantity else 0) + row.delta
    requires forall p :: p != row.part ==> (p in c.parts <==> p in d.parts)
    requires forall p :: p != row.part && p in c.parts ==> d.parts[p] == c.parts[p]
    ensures AllBooked(d)
  {
    forall p: Id
      ensures Booked(d, p)
    {
      assert Booked(c, p);
      RowsOfAppend(c.ledger, row, p);
      if p == row.part {
        RunningAppend(RowsOf(c.ledger, p), row);
      }
    }
  }

  /** A statement that leaves the ledger and every stock level alone keeps the books. */
  lemma NoPostingKeepsBooks(c: Core, d: Core)
    requires AllBooked(c) && d.ledger == c.ledger
    requires forall p :: p in d.parts ==>
               if p in c.parts then d.parts[p].quantity == c.parts[p].quantity else d.parts[p].quantity == 0
    requires forall p :: p in c.parts && p !in d.parts ==> RowsOf(c.ledger, p) == []
    ensures AllBooked(d)
  {
    forall p: Id
      ensures Booked(d, p)
    {
      assert Booked(c, p);
    }
  }

  lemma StatementKeepsBooks(stmt: Stmt, c: Core, cost: nat)
    requires AllBooked(c) && Exec(stmt, c, cost).Ok?
    requires stmt.InsertPart? ==> stmt.row.quantity >= 0
    ensures AllBooked(Overlay(c, Exec(stmt, c, cost).value.writes))
  {
    var w := Exec(stmt, c, cost).value.writes;
    var d := Overlay(c, w);
    if w.ledger == [] {
      assert d.ledger == c.ledger;
      if stmt.DeletePart? {
        RowsOfIsEmpty(c.ledger, stmt.part);
      }
      NoPostingKeepsBooks(c, d);
    } else {
      PostingKeepsBooks(c, d, w.ledger[0]);
    }
  }

  lemma {:induction false} PrefixKeepsBooks(c: Core, op: Op, k: nat)
    requires AllBooked(c) && Valid(op) && k <= Length(op) && RunPrefix(c, op, k).Ok?
    ensures AllBooked(RunPrefix(c, op, k).value.core)
  {
    hide Exec, Overlay, AllBooked;
    if k > 0 {
      PrefixKeepsBooks(c, op, k - 1);
      var m := RunPrefix(c, op, k - 1).value;
      StatementKeepsBooks(StmtAt(op, k - 1), m.core, m.cost);
    }
  }

  lemma UnreferencedIsEmpty(c: Core, part: Id)
    requires AllBooked(c) && part in c.parts && !Referenced(c, part)
    ensures c.parts[part].quantity == 0
  {
    RowsOfIsEmpty(c.ledger, part);
    assert Booked(c, part);
  }

  /** Only parts with no ledger can be deleted, and those have no stock. */
  lemma OnlyEmptyPartsAreDeleted(c: Core, part: Id)
    requires AllBooked(c) && part in c.parts
    requires Run(c, Call(DeletePart(part))).Ok?
    ensures c.parts[part].quantity == 0
    ensures part !in Run(c, Call(DeletePart(part))).value.parts
  {
    var op := Call(DeletePart(part));
    assert RunPrefix(c, op, 0) == Ok(Memory(c, 0));
    assert RunPrefix(c, op, 1).Ok?;
    assert Exec(DeletePart(part), c, 0).Ok?;
    UnreferencedIsEmpty(c, part);
  }
}
