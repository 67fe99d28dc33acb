/** Stock movements: every change of a part locks its row and, for quantities, appends a ledger row. */
module InventoryServices {
  import opened Wrappers
  import opened Tables
  import opened Statements
  import opened Transactions
  import opened Store

  lemma PartSaved(parts: map<Id, Part>, id: Id, row: Part)
    ensures OverlayParts(parts, map[id := Some(row)]) == parts[id := row]
  {
  }

  lemma PartRemoved(parts: map<Id, Part>, id: Id)
    ensures OverlayParts(parts, map[id := None]) == parts - {id}
  {
  }

  function StockMoved(c: Core, id: Id, delta: int, reason: Reason, order: Option<Id>, user: Id): Result<Core> {
    Applied(c, StockWrites(c, id, delta, reason, order, user))
  }

  class InventoryService {
    const db: Database

    constructor (db: Database)
      ensures this.db == db
    {
      this.db := db;
    }

    method LockPart(id: Id) returns (r: Result<Part>)
      ensures r == Statements.LockPart(db.Rows(), id)
    {
      if id !in db.parts { return Err(NotFound); }
      return Ok(db.parts[id]);
    }

    method ApplyStockChange(id: Id, delta: int, reason: Reason, order: Option<Id>, user: Id) returns (r: Result<Part>)
      modifies db
      ensures FollowsCore(StockMoved(old(db.Rows()), id, delta, reason, order, user), r, old(db.State()), db.State())
      ensures r.Ok? ==> id in db.parts && r.value == db.parts[id]
    {
      var part := LockPart(id);
      if part.Err? { return part; }
      var quantityAfter := part.value.quantity + delta;
      if quantityAfter < 0 { return Err(Conflict); }
      var saved := part.value.(quantity := quantityAfter);
      db.parts := db.parts[id := saved];
      db.ledger := db.ledger + [LedgerRow(id, delta, reason, order, user, saved.quantity)];
      PartSaved(old(db.parts), id, saved);
      return Ok(saved);
    }

    /** Runs inside the caller's transaction. */
    method Consume(id: Id, quantity: nat, order: Id, user: Id) returns (r: Result<Part>)
      modifies db
      ensures FollowsCore(StockMoved(old(db.Rows()), id, 0 - quantity, Consumed, Some(order), user), r,
                          old(db.State()), db.State())
      ensures r.Ok? ==> id in db.parts && r.value == db.parts[id]
    {
      r := ApplyStockChange(id, 0 - quantity, Consumed, Some(order), user);
    }

    method MoveStock(id: Id, delta: int, reason: Reason, user: Id) returns (r: Result<Part>)
      modifies db
      ensures FollowsCall(Call(ChangeStock(id, delta, reason, user)), r, old(db.State()), db.State())
      ensures r.Ok? ==> id in db.parts && r.value == db.parts[id]
    {
      SingleCall(db.Rows(), ChangeStock(id, delta, reason, user));
      hide Run;
      var before := LockPart(id);
      r := ApplyStockChange(id, delta, reason, None, user);
      if r.Ok? {
        db.audit := db.audit + [PartAudit(id, Some(before.value), Some(r.value))];
      }
    }

    method Restock(id: Id, quantity: nat, user: Id) returns (r: Result<Part>)
      requires quantity >= 1
      modifies db
      ensures FollowsCall(Call(ChangeStock(id, quantity, Restocked, user)), r, old(db.State()), db.State())
    {
      r := MoveStock(id, quantity, Restocked, user);
    }

    method Adjust(id: Id, delta: int, user: Id) returns (r: Result<Part>)
      requires delta != 0
      modifies db
      ensures FollowsCall(Call(ChangeStock(id, delta, Adjusted, user)), r, old(db.State()), db.State())
    {
      r := MoveStock(id, delta, Adjusted, user);
    }

    /** The database supplies the new row's id. */
    method Create(id: Id, row: Part, user: Id) returns (r: Result<Part>)
      requires row.quantity >= 0
      modifies db
      ensures FollowsCall(Call(InsertPart(id, row, user)), r, old(db.State()), db.State())
    {
      SingleCall(db.Rows(), InsertPart(id, row, user));
      hide Run;
      if id in db.parts { return Err(Conflict); }
      db.parts := db.parts[id := row];
      if row.quantity > 0 {
        db.ledger := db.ledger + [LedgerRow(id, row.quantity, Restocked, None, user, row.quantity)];
      }
      db.audit := db.audit + [PartAudit(id, None, Some(row))];
      PartSaved(old(db.parts), id, row);
      return Ok(row);
    }

    method SaveEdited(id: Id, was: Part, part: Part)
      modifies db
      ensures db.State() == old(db.State()).(core := Overlay(old(db.Rows()),
                NO_WRITES.(parts := map[id := Some(part)], audit := [PartAudit(id, Some(was), Some(part))])))
    {
      db.parts := db.parts[id := part];
      db.audit := db.audit + [PartAudit(id, Some(was), Some(part))];
      PartSaved(old(db.parts), id, part);
    }

    method Update(id: Id, name: Option<string>, threshold: Option<nat>, unitCost: Option<nat>) returns (r: Result<Part>)
      modifies db
      ensures FollowsCall(Call(EditPart(id, name, threshold, unitCost)), r, old(db.State()), db.State())
      ensures r.Ok? ==> id in old(db.parts) && r.value.quantity == old(db.parts)[id].quantity
    {
      SingleCall(db.Rows(), EditPart(id, name, threshold, unitCost));
      hide Run;
      var locked := LockPart(id);
      if locked.Err? { return locked; }
      var part := locked.value;
      if name.Some? { part := part.(name := name.value); }
      if threshold.Some? { part := part.(threshold := threshold.value); }
      if unitCost.Some? { part := part.(unitCost := unitCost.value); }
      assert part == EditedRow(locked.value, name, threshold, unitCost);
      hide EditedRow, Overlay;
      SaveEdited(id, locked.value, part);
      return Ok(part);
    }

    method Remove(id: Id) returns (r: Result<Part>)
      modifies db
      ensures FollowsCall(Call(DeletePart(id)), r, old(db.State()), db.State())
    {
      SingleCall(db.Rows(), DeletePart(id));
      hide Run;
      var locked := LockPart(id);
      if locked.Err? { return locked; }
      // foreign keys of the ledger and of work-order parts restrict deletion
      if Referenced(db.Rows(), id) { return Err(Conflict); }
      db.parts := db.parts - {id};
      db.audit := db.audit + [PartAudit(id, Some(locked.value), None)];
      PartRemoved(old(db.parts), id);
      return locked;
    }
  }
}
