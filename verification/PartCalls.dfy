/** Exactly when each inventory call succeeds, which error it gives otherwise, and what it spares. */
module PartCalls {
  import opened Wrappers
  import opened Tables
  import opened Statements
  import opened Transactions
  import opened Ledger

  /** Every part but one, and everything that belongs to orders, is as it was. */
  ghost predicate OnlyPart(c: Core, d: Core, id: Id) {
    && d.orders == c.orders && d.usage == c.usage && d.history == c.history && d.notices == c.notices
    && (forall p :: p != id ==> (p in c.parts <==> p in d.parts))
    && (forall p :: p != id && p in c.parts ==> d.parts[p] == c.parts[p])
  }

  lemma WritesToOnePart(c: Core, w: Writes, id: Id, row: Option<Part>)
    requires w.orders == map[] && w.usage == [] && w.history == [] && w.notices == [] && w.parts == map[id := row]
    ensures var d := Overlay(c, w);
            && OnlyPart(c, d, id) && d.ledger == c.ledger + w.ledger && d.audit == c.audit + w.audit
            && (if row.Some? then id in d.parts && d.parts[id] == row.value else id !in d.parts)
  {
  }

  /** Stock moves by any amount that does not make it negative, and by nothing else. */
  lemma MoveOutcome(c: Core, id: Id, delta: int, reason: Reason, user: Id)
    ensures var r := Run(c, Call(ChangeStock(id, delta, reason, user)));
            && (r.Ok? <==> id in c.parts && c.parts[id].quantity + delta >= 0)
            && (r == Err(NotFound) <==> id !in c.parts)
            && (r == Err(Conflict) <==> id in c.parts && c.parts[id].quantity + delta < 0)
            && (r.Ok? ==>
                  && OnlyPart(c, r.value, id)
                  && id in r.value.parts
                  && r.value.parts[id] == c.parts[id].(quantity := c.parts[id].quantity + delta)
                  && RowsOf(r.value.ledger, id) == RowsOf(c.ledger, id)
                       + [LedgerRow(id, delta, reason, None, user, r.value.parts[id].quantity)]
                  && r.value.audit == c.audit + [PartAudit(id, Some(c.parts[id]), Some(r.value.parts[id]))])
  {
    hide Run, RowsOf, Overlay, OnlyPart;
    SingleCall(c, ChangeStock(id, delta, reason, user));
    if id in c.parts {
      RowsOfAppend(c.ledger, LedgerRow(id, delta, reason, None, user, c.parts[id].quantity + delta), id);
      var spec := WritesOf(ChangeStock(id, delta, reason, user), c, 0);
      if spec.Ok? {
        WritesToOnePart(c, spec.value, id, Some(c.parts[id].(quantity := c.parts[id].quantity + delta)));
      }
    }
  }

  /** An update changes the given columns only: never stock or ledger, and no order's snapshots. */
  lemma EditOutcome(c: Core, id: Id, name: Option<string>, threshold: Option<nat>, unitCost: Option<nat>)
    ensures var r := Run(c, Call(EditPart(id, name, threshold, unitCost)));
            && (r.Ok? <==> id in c.parts)
            && (r.Err? ==> r.error == NotFound)
            && (r.Ok? ==>
                  && OnlyPart(c, r.value, id) && r.value.ledger == c.ledger
                  && id in r.value.parts
                  && r.value.audit == c.audit + [PartAudit(id, Some(c.parts[id]), Some(r.value.parts[id]))]
                  && var was, now := c.parts[id], r.value.parts[id];
                     && now.quantity == was.quantity
                     && (if name.Some? then now.name == name.value else now.name == was.name)
                     && (if threshold.Some? then now.threshold == threshold.value else now.threshold == was.threshold)
                     && (if unitCost.Some? then now.unitCost == unitCost.value else now.unitCost == was.unitCost))
  {
    SingleCall(c, EditPart(id, name, threshold, unitCost));
    hide Run;
  }

  /** A part can be deleted exactly while it has no ledger row and no order has used it. */
  lemma DeleteOutcome(c: Core, id: Id)
    ensures var r := Run(c, Call(DeletePart(id)));
            var used := exists i :: 0 <= i < |c.usage| && c.usage[i].part == id;
            && (r.Ok? <==> id in c.parts && RowsOf(c.ledger, id) == [] && !used)
            && (r == Err(NotFound) <==> id !in c.parts)
            && (r == Err(Conflict) <==> id in c.parts && (RowsOf(c.ledger, id) != [] || used))
            && (r.Ok? ==> OnlyPart(c, r.value, id) && id !in r.value.parts && r.value.ledger == c.ledger
                          && r.value.audit == c.audit + [PartAudit(id, Some(c.parts[id]), None)])
  {
    SingleCall(c, DeletePart(id));
    RowsOfIsEmpty(c.ledger, id);
    hide Run, RowsOf;
  }

  /** A new part starts with the stock its opening ledger row says, and with none it has no row. */
  lemma InsertOutcome(c: Core, id: Id, row: Part, user: Id)
    requires AllBooked(c) && row.quantity >= 0
    ensures var r := Run(c, Call(InsertPart(id, row, user)));
            && (r.Ok? <==> id !in c.parts)
            && (r.Ok? ==>
                  && OnlyPart(c, r.value, id) && id in r.value.parts && r.value.parts[id] == row
                  && r.value.audit == c.audit + [PartAudit(id, None, Some(row))]
                  && RowsOf(r.value.ledger, id) ==
                     if row.quantity == 0 then []
                     else [LedgerRow(id, row.quantity, Restocked, None, user, row.quantity)])
  {
    hide Run, RowsOf, AllBooked, Overlay, OnlyPart;
    SingleCall(c, InsertPart(id, row, user));
    if id !in c.parts {
      UnknownHasNoLedger(c, id);
      var w := WritesOf(InsertPart(id, row, user), c, 0).value;
      WritesToOnePart(c, w, id, Some(row));
      RowsOfAppend(c.ledger, LedgerRow(id, row.quantity, Restocked, None, user, row.quantity), id);
      assert c.ledger + [] == c.ledger;
    }
  }

  lemma UnknownHasNoLedger(c: Core, id: Id)
    requires AllBooked(c) && id !in c.parts
    ensures RowsOf(c.ledger, id) == []
  {
    assert Booked(c, id);
  }
}
