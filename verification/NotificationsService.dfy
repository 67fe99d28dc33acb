/** Notifications and the two hourly checks, loops that test the table as they append to it. */
module NotificationsServices {
  import opened Wrappers
  import opened Tables
  import opened Notifications
  import opened Sites
  import opened Store

  class NotificationsService {
    const db: Database

    constructor (db: Database)
      ensures this.db == db
    {
      this.db := db;
    }

    method Record(kind: NoticeKind, entity: Id)
      modifies db`notices
      ensures db.notices == old(db.notices) + [NewNotice(kind, entity)]
    {
      db.notices := db.notices + [NewNotice(kind, entity)];
    }

    method HasActiveNotification(kind: NoticeKind, entity: Id) returns (found: bool)
      ensures found <==> HasActive(db.notices, kind, entity)
      ensures found <==> exists i :: 0 <= i < |db.notices| && db.notices[i].kind == kind
                                     && db.notices[i].entity == entity && db.notices[i].status != Resolved
    {
      ActiveMeans(db.notices, kind, entity);
      return exists i :: 0 <= i < |db.notices| && IsOpen(db.notices[i], kind, entity);
    }

    method AcknowledgeNotice(id: Id) returns (r: Result<Notice>)
      modifies db
      ensures Follows(RunSite(old(db.State()), Acknowledge(id)), r, old(db.State()), db.State())
      ensures r.Ok? ==> forall kind, e :: IsOpen(r.value, kind, e) <==> IsOpen(old(db.notices)[id], kind, e)
    {
      if id >= |db.notices| { return Err(NotFound); }
      var notice := db.notices[id];
      if notice.status == Resolved { return Err(Conflict); }
      notice := notice.(status := Acknowledged);
      db.notices := db.notices[id := notice];
      return Ok(notice);
    }

    method ResolveNotice(id: Id, user: Id, now: Time) returns (r: Result<Notice>)
      modifies db
      ensures Follows(RunSite(old(db.State()), Resolve(id, user, now)), r, old(db.State()), db.State())
      ensures r.Ok? ==> Signed(r.value) && r.value.status == Resolved
    {
      if id >= |db.notices| { return Err(NotFound); }
      var notice := db.notices[id];
      if notice.status == Resolved { return Err(Conflict); }
      notice := notice.(status := Resolved, resolvedAt := Some(now), resolvedBy := Some(user));
      db.notices := db.notices[id := notice];
      return Ok(notice);
    }
  }

  // ---- Queries that list rows by a key, smallest first ----

  function QuantityIn(parts: map<Id, Part>): Id -> int {
    p => if p in parts then parts[p].quantity else 0
  }

  function DueIn(plans: map<Id, Plan>): Id -> int {
    p => if p in plans && plans[p].nextDueAt.Some? then plans[p].nextDueAt.value else 0
  }

  predicate SortedBy(ids: seq<Id>, key: Id -> int) {
    forall i, j :: 0 <= i < j < |ids| ==> key(ids[i]) <= key(ids[j])
  }

  lemma SortedMeans(ids: seq<Id>, key: Id -> int)
    requires SortedBy(ids, key)
    ensures forall i, j :: 0 <= i < j < |ids| ==> key(ids[i]) <= key(ids[j])
  {
  }

  lemma {:induction false} SmallestExists(ids: set<Id>, key: Id -> int)
    requires ids != {}
    ensures exists m :: m in ids && forall id :: id in ids ==> key(m) <= key(id)
    decreases |ids|
  {
    var x :| x in ids;
    if ids == {x} {
      assert forall id :: id in ids ==> key(x) <= key(id);
    } else {
      SmallestExists(ids - {x}, key);
      var m :| m in ids - {x} && forall id :: id in ids - {x} ==> key(m) <= key(id);
      var least := if key(x) <= key(m) then x else m;
      assert least in ids && forall id :: id in ids ==> key(least) <= key(id);
    }
  }

  /** ORDER BY key: every id once; ids with equal keys come in any order. */
  method OrderBy(ids: set<Id>, key: Id -> int) returns (found: seq<Id>)
    ensures Lists(found, ids) && SortedBy(found, key)
  {
    found := [];
    var todo := ids;
    while todo != {}
      invariant todo <= ids && Lists(found, ids - todo) && SortedBy(found, key)
      invariant forall i, id :: 0 <= i < |found| && id in todo ==> key(found[i]) <= key(id)
      decreases |todo|
    {
      SmallestExists(todo, key);
      var next :| next in todo && forall id :: id in todo ==> key(next) <= key(id);
      assert next !in found;
      found, todo := found + [next], todo - {next};
    }
    assert ids - {} == ids;
  }

  lemma NextDuePlan(notices: seq<Notice>, orders: map<Id, Order>, found: seq<Id>, k: nat)
    requires Distinct(found) && k < |found|
    ensures var so, next := Unserved(orders, found[..k]), Unserved(orders, found[..k + 1]);
            var added := Missing(notices, OverdueMaintenance, so);
            if HasActiveOrder(orders, found[k]) then next == so
            else
              && HasActive(notices + added, OverdueMaintenance, found[k]) ==
                 HasActive(notices, OverdueMaintenance, found[k])
              && Missing(notices, OverdueMaintenance, next) ==
                 added + if HasActive(notices, OverdueMaintenance, found[k]) then []
                         else [NewNotice(OverdueMaintenance, found[k])]
  {
    hide HasActive, Missing;
    assert found[..k + 1][..k] == found[..k];
    UnservedDistinct(orders, found[..k + 1]);
    if !HasActiveOrder(orders, found[k]) {
      var so, next := Unserved(orders, found[..k]), Unserved(orders, found[..k + 1]);
      assert next == so + [found[k]];
      assert next[..|so|] == so && next[..|so| + 1] == next;
      NotYetListed(notices, OverdueMaintenance, next, |so|);
    }
  }

  class ScheduledChecksService {
    const db: Database
    const notifications: NotificationsService

    constructor (db: Database, notifications: NotificationsService)
      requires notifications.db == db
      ensures this.db == db && this.notifications == notifications && SameDatabase()
    {
      this.db, this.notifications := db, notifications;
    }

    predicate SameDatabase() {
      notifications.db == db
    }

    method FindAllLowStock() returns (found: seq<Id>)
      ensures Lists(found, LowParts(db.parts)) && SortedBy(found, QuantityIn(db.parts))
      ensures forall p :: p in found <==> p in db.parts && db.parts[p].quantity <= db.parts[p].threshold
      ensures forall i, j :: 0 <= i < j < |found| && found[i] in db.parts && found[j] in db.parts ==>
                db.parts[found[i]].quantity <= db.parts[found[j]].quantity
    {
      found := OrderBy(LowParts(db.parts), QuantityIn(db.parts));
      SortedMeans(found, QuantityIn(db.parts));
    }

    method FindAllDue(now: Time) returns (found: seq<Id>)
      ensures Lists(found, DuePlans(db.plans, now)) && SortedBy(found, DueIn(db.plans))
      ensures forall p :: p in found <==>
                && p in db.plans && db.plans[p].active && db.plans[p].nextDueAt.Some?
                && db.plans[p].nextDueAt.value <= now
      ensures forall i, j :: 0 <= i < j < |found| && found[i] in db.plans && found[j] in db.plans
                             && db.plans[found[i]].nextDueAt.Some? && db.plans[found[j]].nextDueAt.Some? ==>
                db.plans[found[i]].nextDueAt.value <= db.plans[found[j]].nextDueAt.value
    {
      found := OrderBy(DuePlans(db.plans, now), DueIn(db.plans));
      SortedMeans(found, DueIn(db.plans));
    }

    method CheckLowStock() returns (lowStockParts: seq<Id>)
      requires SameDatabase()
      modifies db`notices
      ensures Lists(lowStockParts, LowParts(db.parts))
      ensures db.State() == LowStockChecked(old(db.State()), lowStockParts)
      ensures forall p :: p in LowParts(db.parts) ==> HasActive(db.notices, LowStock, p)
    {
      lowStockParts := FindAllLowStock();
      ghost var before := db.notices;
      var i := 0;
      while i < |lowStockParts|
        invariant 0 <= i <= |lowStockParts|
        invariant db.notices == before + Missing(before, LowStock, lowStockParts[..i])
      {
        NotYetListed(before, LowStock, lowStockParts, i);
        var alreadyNotified := notifications.HasActiveNotification(LowStock, lowStockParts[i]);
        if !alreadyNotified {
          notifications.Record(LowStock, lowStockParts[i]);
        }
        i := i + 1;
      }
      assert lowStockParts[..i] == lowStockParts;
      forall p | p in LowParts(db.parts)
        ensures HasActive(db.notices, LowStock, p)
      {
        MissingActivates(before, LowStock, lowStockParts, LowStock, p);
      }
    }

    method CheckOverdueMaintenance(now: Time) returns (duePlans: seq<Id>)
      requires SameDatabase()
      modifies db`notices
      ensures Lists(duePlans, DuePlans(db.plans, now))
      ensures db.State() == OverdueChecked(old(db.State()), duePlans)
    {
      duePlans := FindAllDue(now);
      assert Missing(db.notices, OverdueMaintenance, Unserved(db.orders, duePlans[..0])) == [];
      hide Lists, HasActive, HasActiveOrder, Missing, DuePlans;
      ghost var before, orders := db.notices, db.orders;
      var i := 0;
      while i < |duePlans|
        invariant 0 <= i <= |duePlans|
        invariant db.notices == before + Missing(before, OverdueMaintenance, Unserved(orders, duePlans[..i]))
      {
        NextDuePlan(before, orders, duePlans, i);
        var hasOpenWorkOrder := HasActiveOrder(db.orders, duePlans[i]);
        if !hasOpenWorkOrder {
          var alreadyNotified := notifications.HasActiveNotification(OverdueMaintenance, duePlans[i]);
          if !alreadyNotified {
            notifications.Record(OverdueMaintenance, duePlans[i]);
          }
        }
        i := i + 1;
      }
      assert duePlans[..i] == duePlans;
    }
  }
}
