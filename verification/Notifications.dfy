/** The notifications table and what the hourly checks append to it. */
module Notifications {
  import opened Wrappers
  import opened Tables

  predicate IsOpen(n: Notice, kind: NoticeKind, entity: Id) {
    n.kind == kind && n.entity == entity && n.status in {Unread, Acknowledged}
  }

  /** `hasActiveNotification`. */
  predicate HasActive(notices: seq<Notice>, kind: NoticeKind, entity: Id) {
    exists i :: 0 <= i < |notices| && IsOpen(notices[i], kind, entity)
  }

  predicate AtMostOne(notices: seq<Notice>, kind: NoticeKind, entity: Id) {
    forall i, j :: 0 <= i < j < |notices| ==> !(IsOpen(notices[i], kind, entity) && IsOpen(notices[j], kind, entity))
  }

  /** A notice is resolved exactly when it says by whom and when. */
  predicate Signed(n: Notice) {
    n.status == Resolved <==> n.resolvedAt.Some? && n.resolvedBy.Some?
  }

  /** The two kinds the hourly checks look after. */
  predicate IsReconciled(kind: NoticeKind) {
    kind == LowStock || kind == OverdueMaintenance
  }

  ghost predicate NoticesOk(notices: seq<Notice>) {
    && (forall kind, entity: Id :: IsReconciled(kind) ==> AtMostOne(notices, kind, entity))
    && (forall i :: 0 <= i < |notices| ==> Signed(notices[i]))
  }

  predicate Distinct(ids: seq<Id>) {
    forall i, j :: 0 <= i < j < |ids| ==> ids[i] != ids[j]
  }

  function AcknowledgedNotice(notices: seq<Notice>, id: Id): Result<Notice> {
    if id >= |notices| then Err(NotFound)
    else if notices[id].status == Resolved then Err(Conflict)
    else Ok(notices[id].(status := Acknowledged))
  }

  function ResolvedNotice(notices: seq<Notice>, id: Id, actor: Id, now: Time): Result<Notice> {
    if id >= |notices| then Err(NotFound)
    else if notices[id].status == Resolved then Err(Conflict)
    else Ok(notices[id].(status := Resolved, resolvedAt := Some(now), resolvedBy := Some(actor)))
  }

  /** One new notice for every listed entity with none active, judged by the table as it was. */
  function Missing(notices: seq<Notice>, kind: NoticeKind, found: seq<Id>): seq<Notice> {
    if found == [] then []
    else
      var earlier, last := Missing(notices, kind, found[..|found| - 1]), found[|found| - 1];
      if HasActive(notices, kind, last) then earlier else earlier + [NewNotice(kind, last)]
  }

  lemma HasActiveAppend(notices: seq<Notice>, n: Notice, kind: NoticeKind, entity: Id)
    ensures HasActive(notices + [n], kind, entity) <==> HasActive(notices, kind, entity) || IsOpen(n, kind, entity)
  {
    var more := notices + [n];
    assert more[|notices|] == n;
    forall i | 0 <= i < |notices| ensures more[i] == notices[i] {}
  }

  lemma AtMostOneAppend(notices: seq<Notice>, n: Notice, kind: NoticeKind, entity: Id)
    requires AtMostOne(notices, kind, entity) && (IsOpen(n, kind, entity) ==> !HasActive(notices, kind, entity))
    ensures AtMostOne(notices + [n], kind, entity)
  {
  }

  /** After the appends, what is active is what was, and everything listed. */
  lemma {:induction false} MissingActivates(notices: seq<Notice>, kind: NoticeKind, found: seq<Id>,
                                           k: NoticeKind, e: Id)
    ensures HasActive(notices + Missing(notices, kind, found), k, e) <==>
            HasActive(notices, k, e) || (k == kind && e in found)
  {
    if found == [] {
      assert notices + [] == notices;
    } else {
      var earlier, last := found[..|found| - 1], found[|found| - 1];
      MissingActivates(notices, kind, earlier, k, e);
      assert found == earlier + [last];
      var so := notices + Missing(notices, kind, earlier);
      HasActiveAppend(so, NewNotice(kind, last), k, e);
      assert notices + (Missing(notices, kind, earlier) + [NewNotice(kind, last)]) == so + [NewNotice(kind, last)];
      hide HasActive;
    }
  }

  /** Testing the growing table entity by entity decides as testing the table once, because no entity
      is listed twice. */
  lemma NotYetListed(notices: seq<Notice>, kind: NoticeKind, found: seq<Id>, k: nat)
    requires Distinct(found) && k < |found|
    ensures HasActive(notices + Missing(notices, kind, found[..k]), kind, found[k]) <==>
            HasActive(notices, kind, found[k])
    ensures Missing(notices, kind, found[..k + 1]) ==
            Missing(notices, kind, found[..k])
            + if HasActive(notices, kind, found[k]) then [] else [NewNotice(kind, found[k])]
  {
    MissingActivates(notices, kind, found[..k], kind, found[k]);
    assert found[..k + 1][..k] == found[..k];
  }

  lemma {:induction false} MissingKeepsOk(notices: seq<Notice>, kind: NoticeKind, found: seq<Id>)
    requires NoticesOk(notices) && Distinct(found)
    ensures NoticesOk(notices + Missing(notices, kind, found))
  {
    if found == [] {
      assert notices + [] == notices;
    } else {
      var k := |found| - 1;
      MissingKeepsOk(notices, kind, found[..k]);
      assert found[..k + 1] == found;
      NotYetListed(notices, kind, found, k);
      var so := notices + Missing(notices, kind, found[..k]);
      if !HasActive(notices, kind, found[k]) {
        var n := NewNotice(kind, found[k]);
        assert notices + (Missing(notices, kind, found[..k]) + [n]) == so + [n];
        AppendKeepsOk(so, n);
      }
    }
  }

  lemma AppendKeepsOk(notices: seq<Notice>, n: Notice)
    requires NoticesOk(notices) && Signed(n) && (IsReconciled(n.kind) ==> !HasActive(notices, n.kind, n.entity))
    ensures NoticesOk(notices + [n])
  {
    forall kind, entity: Id | IsReconciled(kind)
      ensures AtMostOne(notices + [n], kind, entity)
    {
      assert AtMostOne(notices, kind, entity);
      AtMostOneAppend(notices, n, kind, entity);
    }
  }

  /** Acknowledging or resolving never makes a second notice active. */
  lemma ChangeKeepsOk(notices: seq<Notice>, id: Id, n: Notice)
    requires NoticesOk(notices) && id < |notices| && Signed(n)
    requires n.kind == notices[id].kind && n.entity == notices[id].entity && notices[id].status != Resolved
    ensures NoticesOk(notices[id := n])
  {
    var after := notices[id := n];
    forall kind, entity: Id | IsReconciled(kind)
      ensures AtMostOne(after, kind, entity)
    {
      assert AtMostOne(notices, kind, entity);
      forall i | 0 <= i < |notices| ensures after[i] == notices[i] || i == id {}
      assert forall i :: 0 <= i < |notices| && IsOpen(after[i], kind, entity) ==> IsOpen(notices[i], kind, entity);
    }
  }

  /** What is appended: for each listed entity with nothing active, and no other, an unread notice that
      nobody has resolved. */
  lemma {:induction false} MissingRows(notices: seq<Notice>, kind: NoticeKind, found: seq<Id>, n: Notice)
    ensures n in Missing(notices, kind, found) <==>
              && n == Notice(kind, n.entity, Unread, None, None)
              && n.entity in found && !HasActive(notices, kind, n.entity)
    ensures |Missing(notices, kind, found)| <= |found|
  {
    if found != [] {
      hide HasActive;
      var k := |found| - 1;
      MissingRows(notices, kind, found[..k], n);
      assert found == found[..k] + [found[k]];
    }
  }

  /** Active is what has not been resolved. */
  lemma ActiveMeans(notices: seq<Notice>, kind: NoticeKind, entity: Id)
    ensures HasActive(notices, kind, entity) <==>
              exists i :: 0 <= i < |notices| && notices[i].kind == kind && notices[i].entity == entity
                          && notices[i].status != Resolved
  {
    forall i | 0 <= i < |notices|
      ensures IsOpen(notices[i], kind, entity) <==>
                notices[i].kind == kind && notices[i].entity == entity && notices[i].status != Resolved
    {
    }
  }

  /** A second run over the same entities, in any order, adds nothing. */
  lemma {:induction false} NothingMissing(notices: seq<Notice>, kind: NoticeKind, found: seq<Id>)
    requires forall i :: 0 <= i < |found| ==> HasActive(notices, kind, found[i])
    ensures Missing(notices, kind, found) == []
  {
    hide HasActive;
    if found != [] {
      NothingMissing(notices, kind, found[..|found| - 1]);
      assert HasActive(notices, kind, found[|found| - 1]);
    }
  }

  /** Acknowledging works on any unresolved notice, and leaves what is active active. */
  lemma AcknowledgeOutcome(notices: seq<Notice>, id: Id, kind: NoticeKind, entity: Id)
    ensures var r := AcknowledgedNotice(notices, id);
            && (r.Ok? <==> id < |notices| && notices[id].status != Resolved)
            && (r == Err(NotFound) <==> id >= |notices|)
            && (r.Ok? ==> r.value.status == Acknowledged
                          && (HasActive(notices[id := r.value], kind, entity) <==> HasActive(notices, kind, entity)))
  {
    var r := AcknowledgedNotice(notices, id);
    if r.Ok? {
      var after := notices[id := r.value];
      forall i | 0 <= i < |notices|
        ensures IsOpen(after[i], kind, entity) <==> IsOpen(notices[i], kind, entity)
      {
      }
    }
  }

  /** Resolving works once, and makes room for the next notification: the entity has no active one
      left, so the next check that lists it appends exactly one. */
  lemma ResolveOutcome(notices: seq<Notice>, id: Id, user: Id, now: Time)
    requires NoticesOk(notices)
    ensures var r := ResolvedNotice(notices, id, user, now);
            && (r.Ok? <==> id < |notices| && notices[id].status != Resolved)
            && (r == Err(NotFound) <==> id >= |notices|)
            && (r.Ok? ==>
                  && r.value == notices[id].(status := Resolved, resolvedAt := Some(now), resolvedBy := Some(user))
                  && ResolvedNotice(notices[id := r.value], id, user, now) == Err(Conflict)
                  && (IsReconciled(r.value.kind) ==>
                        && !HasActive(notices[id := r.value], r.value.kind, r.value.entity)
                        && Missing(notices[id := r.value], r.value.kind, [r.value.entity])
                             == [NewNotice(r.value.kind, r.value.entity)]))
  {
    var r := ResolvedNotice(notices, id, user, now);
    if r.Ok? && IsReconciled(r.value.kind) {
      var after := notices[id := r.value];
      assert AtMostOne(notices, r.value.kind, r.value.entity);
      assert IsOpen(notices[id], r.value.kind, r.value.entity);
      forall i | 0 <= i < |after|
        ensures !IsOpen(after[i], r.value.kind, r.value.entity)
      {
        if i != id {
          assert after[i] == notices[i];
        }
      }
      assert [r.value.entity][..0] == [];
    }
  }
}
