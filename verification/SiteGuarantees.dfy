/** What holds after any sequence of whole calls, and what single checks and evaluations achieve. */
module SiteGuarantees {
  import opened Wrappers
  import opened Lifecycle
  import opened Tables
  import opened Statements
  import opened Transactions
  import opened Notifications
  import opened Telemetry
  import opened Sites
  import opened AssetHistory
  import opened Ledger
  import opened Reconciliation
  import opened OrderTrail
  import opened AutoOrders
  import opened StockAudit
  import opened Guarantees

  ghost predicate SiteOk(s: Site) {
    Sound(s.core) && NoticesOk(s.core.notices) && AllRecorded(s)
  }

  // ---- Notices and alerts of one call ----

  lemma {:induction false} QuietPrefix(c: Core, op: Op, k: nat)
    requires !op.RaiseAuto? && Valid(op) && k <= Length(op) && RunPrefix(c, op, k).Ok?
    ensures RunPrefix(c, op, k).value.core.notices == c.notices
  {
    if k > 0 {
      hide Exec, Overlay;
      QuietPrefix(c, op, k - 1);
      var m := RunPrefix(c, op, k - 1).value;
      QuietStatement(StmtAt(op, k - 1), m.core, m.cost);
    }
  }

  lemma QuietStatement(stmt: Stmt, c: Core, cost: nat)
    requires !stmt.InsertAutoOrder? && Exec(stmt, c, cost).Ok?
    ensures Overlay(c, Exec(stmt, c, cost).value.writes).notices == c.notices
  {
  }

  lemma RaisingKeepsNotices(c: Core, op: Op)
    requires op.RaiseAuto? && Run(c, op).Ok? && NoticesOk(c.notices)
    ensures NoticesOk(Run(c, op).value.notices)
  {
    RaisingWrites(c, op);
    assert RunPrefix(c, op, 0) == Ok(Memory(c, 0));
    assert Exec(StmtAt(op, 0), c, 0).value.writes == NO_WRITES;
    assert RunPrefix(c, op, 1).value.core == Overlay(c, NO_WRITES);
    OverlayNothing(c);
    AppendKeepsOk(c.notices, NewNotice(CriticalAsset, op.asset));
    hide NoticesOk;
    assert Run(c, op).value.notices == c.notices + [NewNotice(CriticalAsset, op.asset)];
  }

  lemma RunKeepsNotices(c: Core, op: Op)
    requires Valid(op) && Run(c, op).Ok? && NoticesOk(c.notices)
    ensures NoticesOk(Run(c, op).value.notices)
  {
    if op.RaiseAuto? {
      RaisingKeepsNotices(c, op);
    } else {
      QuietPrefix(c, op, Length(op));
    }
  }

  lemma {:induction false} SameAlerts(notices: seq<Notice>, id: Id, n: Notice, asset: Id)
    requires id < |notices| && n.kind == notices[id].kind && n.entity == notices[id].entity
    ensures AlertsOf(notices[id := n], asset) == AlertsOf(notices, asset)
  {
    var k := |notices| - 1;
    var after := notices[id := n];
    if id < k {
      SameAlerts(notices[..k], id, n, asset);
      assert after[..k] == notices[..k][id := n];
    } else {
      assert after[..k] == notices[..k];
    }
  }

  lemma {:induction false} MissingAlertsNobody(notices: seq<Notice>, kind: NoticeKind, found: seq<Id>, asset: Id)
    requires kind != CriticalAsset
    ensures AlertsOf(notices + Missing(notices, kind, found), asset) == AlertsOf(notices, asset)
  {
    if found == [] {
      assert notices + [] == notices;
    } else {
      var earlier, n := found[..|found| - 1], NewNotice(kind, found[|found| - 1]);
      MissingAlertsNobody(notices, kind, earlier, asset);
      var so := notices + Missing(notices, kind, earlier);
      assert notices + (Missing(notices, kind, earlier) + [n]) == so + [n];
      TalliesAppend(so, n, [], HistoryRow(0, Operational, Operational, ByHand), asset);
      hide HasActive, AlertsOf;
    }
  }

  // ---- Changes that leave orders and stock alone ----

  lemma SoundFrame(c: Core, d: Core)
    requires Sound(c) && d.orders == c.orders && d.parts == c.parts && d.ledger == c.ledger && d.usage == c.usage
    requires forall order: Id :: TrailOf(d.audit, order) == TrailOf(c.audit, order)
    requires forall part: Id :: AuditedUnits(d.audit, part) == AuditedUnits(c.audit, part)
    requires forall asset: Id :: AlertsOf(d.notices, asset) == AlertsOf(c.notices, asset)
    requires forall asset: Id :: AutoHistoryOf(d.history, asset) == AutoHistoryOf(c.history, asset)
    ensures Sound(d)
  {
    forall part: Id ensures Booked(d, part) {
      assert Booked(c, part);
    }
    forall part: Id ensures Audited(d, part) {
      assert Audited(c, part);
    }
    forall order: Id ensures Settled(d, order) && Traced(d, order) {
      assert Settled(c, order) && Traced(c, order);
    }
    forall asset: Id ensures OneActiveAuto(d, asset) && Tallied(d, asset) {
      assert OneActiveAuto(c, asset) && Tallied(c, asset);
      assert AutoOrdersOf(d, asset) == AutoOrdersOf(c, asset);
    }
  }

  lemma StatusWritesAreSound(c: Core, asset: Id, was: Option<AssetStatus>, next: AssetStatus)
    requires Sound(c)
    ensures Sound(Overlay(c, AssetWrites(asset, was, next)))
  {
    var w := AssetWrites(asset, was, next);
    var d := Overlay(c, w);
    forall order: Id ensures TrailOf(d.audit, order) == TrailOf(c.audit, order) {
      TrailConcat(c.audit, w.audit, order);
      assert w.audit[..0] == [];
    }
    forall part: Id ensures AuditedUnits(d.audit, part) == AuditedUnits(c.audit, part) {
      AuditedConcat(c.audit, w.audit, part);
      ShortAudit(w.audit, part);
    }
    forall a: Id ensures AutoHistoryOf(d.history, a) == AutoHistoryOf(c.history, a) {
      if was.Some? {
        TalliesAppend([], NewNotice(LowStock, 0), c.history, w.history[0], a);
      } else {
        assert d.history == c.history;
      }
    }
    assert d.orders == c.orders && d.parts == c.parts;
    assert d.ledger == c.ledger && d.usage == c.usage && d.notices == c.notices;
    hide Sound, Overlay;
    SoundFrame(c, d);
  }

  lemma NoticesAreSound(c: Core, notices: seq<Notice>)
    requires Sound(c) && forall asset: Id :: AlertsOf(notices, asset) == AlertsOf(c.notices, asset)
    ensures Sound(c.(notices := notices))
  {
    SoundFrame(c, c.(notices := notices));
  }

  // ---- One call keeps the site in order ----

  lemma CoreCallKeeps(c: Core, op: Op)
    requires Sound(c) && NoticesOk(c.notices) && Valid(op) && Run(c, op).Ok?
    ensures Sound(Run(c, op).value) && NoticesOk(Run(c, op).value.notices)
  {
    hide Sound, NoticesOk, Run;
    RunKeepsSound(c, op);
    RunKeepsNotices(c, op);
  }

  lemma NoticeCallKeeps(c: Core, id: Id, n: Notice)
    requires Sound(c) && NoticesOk(c.notices) && id < |c.notices| && c.notices[id].status != Resolved
    requires n.kind == c.notices[id].kind && n.entity == c.notices[id].entity && Signed(n)
    ensures Sound(c.(notices := c.notices[id := n])) && NoticesOk(c.notices[id := n])
  {
    hide Sound;
    ChangeKeepsOk(c.notices, id, n);
    forall asset: Id ensures AlertsOf(c.notices[id := n], asset) == AlertsOf(c.notices, asset) {
      SameAlerts(c.notices, id, n, asset);
    }
    NoticesAreSound(c, c.notices[id := n]);
  }

  lemma CheckKeeps(c: Core, kind: NoticeKind, found: seq<Id>)
    requires Sound(c) && NoticesOk(c.notices) && IsReconciled(kind) && Distinct(found)
    ensures var notices := c.notices + Missing(c.notices, kind, found);
            Sound(c.(notices := notices)) && NoticesOk(notices)
  {
    hide Sound;
    var notices := c.notices + Missing(c.notices, kind, found);
    MissingKeepsOk(c.notices, kind, found);
    forall asset: Id ensures AlertsOf(notices, asset) == AlertsOf(c.notices, asset) {
      MissingAlertsNobody(c.notices, kind, found, asset);
    }
    NoticesAreSound(c, notices);
  }

  lemma CallKeepsSite(s: Site, op: SiteOp)
    requires SiteOk(s) && Permitted(s, op) && RunSite(s, op).Ok?
    ensures SiteOk(RunSite(s, op).value)
  {
    hide Sound, NoticesOk, Run, Overlay, Recorded, Missing, HasActiveAuto, TripsHotTemperatureRule;
    forall asset: Id ensures Recorded(RunSite(s, op).value, asset) {
      assert Recorded(s, asset);
      CallIsRecorded(s, op, asset);
    }
    match op
    case CreateAsset(asset, _, _) =>
      StatusWritesAreSound(s.core, asset, None, Operational);
      StatusWritesKeepNotices(s.core, asset, None, Operational);
    case UpdateStatus(asset, status) =>
      StatusWritesAreSound(s.core, asset, Some(s.assets[asset]), status);
      StatusWritesKeepNotices(s.core, asset, Some(s.assets[asset]), status);
    case SavePlan(_, _) =>
    case CreateOrder(order, asset, plan) => CoreCallKeeps(s.core, Call(InsertOrder(order, asset, plan)));
    case CompleteOrder(order, lines, actor, now) =>
      CoreCallKeeps(s.core, Complete(order, lines, actor, now, StatusOf(s, s.core.orders[order].asset)));
    case EvaluateAsset(asset, _, order) =>
      if RunSite(s, op).value != s {
        CoreCallKeeps(s.core, RaiseAuto(order, asset, s.assets[asset]));
      }
    case CheckLowStock(found) => CheckKeeps(s.core, LowStock, found);
    case CheckOverdue(found, _) =>
      UnservedDistinct(s.core.orders, found);
      CheckKeeps(s.core, OverdueMaintenance, Unserved(s.core.orders, found));
    case Acknowledge(id) =>
      NoticeIsChangeable(s, id);
      NoticeCallKeeps(s.core, id, AcknowledgedNotice(s.core.notices, id).value);
    case Resolve(id, user, now) => NoticeCallKeeps(s.core, id, ResolvedNotice(s.core.notices, id, user, now).value);
    case Other(call) => CoreCallKeeps(s.core, call);
  }

  lemma NoticeIsChangeable(s: Site, id: Id)
    requires NoticesOk(s.core.notices) && AcknowledgedNotice(s.core.notices, id).Ok?
    ensures Signed(AcknowledgedNotice(s.core.notices, id).value)
  {
  }

  lemma StatusWritesKeepNotices(c: Core, asset: Id, was: Option<AssetStatus>, next: AssetStatus)
    ensures Overlay(c, AssetWrites(asset, was, next)).notices == c.notices
  {
  }

  lemma {:induction false} CallsKeepSite(s: Site, ops: seq<SiteOp>)
    requires SiteOk(s)
    ensures SiteOk(RunCalls(s, ops))
  {
    hide SiteOk, RunSite, Permitted;
    if ops != [] {
      var before, op := RunCalls(s, ops[..|ops| - 1]), ops[|ops| - 1];
      CallsKeepSite(s, ops[..|ops| - 1]);
      if Permitted(before, op) && RunSite(before, op).Ok? {
        CallKeepsSite(before, op);
      }
    }
  }

  lemma EmptySiteIsOk()
    ensures SiteOk(EMPTY_SITE)
  {
  }

  /** After any sequence of calls no part and no plan has two active notifications of its kind. */
  lemma NoDuplicateNotices(ops: seq<SiteOp>, part: Id, plan: Id)
    ensures var notices := RunCalls(EMPTY_SITE, ops).core.notices;
            && AtMostOne(notices, LowStock, part) && AtMostOne(notices, OverdueMaintenance, plan)
            && forall i :: 0 <= i < |notices| ==> Signed(notices[i])
  {
    EmptySiteIsOk();
    CallsKeepSite(EMPTY_SITE, ops);
  }

  // ---- What one run of a check achieves ----

  /** After a low-stock run every low part has exactly one active notification, every other part has
      what it had, and a second run, in whatever order it lists the parts, adds nothing. */
  lemma LowStockRun(s: Site, found: seq<Id>, again: seq<Id>, part: Id)
    requires NoticesOk(s.core.notices)
    requires Lists(found, LowParts(s.core.parts)) && Lists(again, LowParts(s.core.parts))
    ensures var d := LowStockChecked(s, found);
            && AtMostOne(d.core.notices, LowStock, part)
            && (HasActive(d.core.notices, LowStock, part) <==>
                  || HasActive(s.core.notices, LowStock, part)
                  || (part in s.core.parts && s.core.parts[part].quantity <= s.core.parts[part].threshold))
            && LowStockChecked(d, again) == d
    ensures RunSite(s, CheckLowStock(found)) == Ok(LowStockChecked(s, found))
    ensures LowStockChecked(s, found) ==
            s.(core := s.core.(notices := s.core.notices + Missing(s.core.notices, LowStock, found)))
  {
    var d := LowStockChecked(s, found);
    hide HasActive, AtMostOne;
    MissingKeepsOk(s.core.notices, LowStock, found);
    assert IsReconciled(LowStock);
    MissingActivates(s.core.notices, LowStock, found, LowStock, part);
    forall i | 0 <= i < |again|
      ensures HasActive(d.core.notices, LowStock, again[i])
    {
      MissingActivates(s.core.notices, LowStock, found, LowStock, again[i]);
    }
    NothingMissing(d.core.notices, LowStock, again);
    assert d.core.notices + [] == d.core.notices;
  }

  /** An active plan with a due date that has come. */
  predicate IsDue(s: Site, plan: Id, now: Time) {
    plan in s.plans && s.plans[plan].active && s.plans[plan].nextDueAt != None && s.plans[plan].nextDueAt.value <= now
  }

  /** Some work order of the plan is neither completed nor cancelled. */
  ghost predicate IsServed(s: Site, plan: Id) {
    exists o :: o in s.core.orders && s.core.orders[o].plan == Some(plan)
                && s.core.orders[o].status != Completed && s.core.orders[o].status != Cancelled
  }

  lemma DueAndServed(s: Site, plan: Id, now: Time)
    ensures plan in DuePlans(s.plans, now) <==> IsDue(s, plan, now)
    ensures HasActiveOrder(s.core.orders, plan) <==> IsServed(s, plan)
  {
    forall o | o in s.core.orders
      ensures IsActive(s.core.orders[o].status) <==>
                s.core.orders[o].status != Completed && s.core.orders[o].status != Cancelled
    {
    }
  }

  /** After an overdue run every due plan has an active work order or exactly one active notification,
      and an immediate second run adds nothing. */
  lemma OverdueRun(s: Site, found: seq<Id>, again: seq<Id>, now: Time, plan: Id)
    requires NoticesOk(s.core.notices)
    requires Lists(found, DuePlans(s.plans, now)) && Lists(again, DuePlans(s.plans, now))
    ensures var d := OverdueChecked(s, found);
            && AtMostOne(d.core.notices, OverdueMaintenance, plan)
            && (HasActive(d.core.notices, OverdueMaintenance, plan) <==>
                  || HasActive(s.core.notices, OverdueMaintenance, plan)
                  || (IsDue(s, plan, now) && !IsServed(s, plan)))
            && (IsDue(s, plan, now) ==> IsServed(d, plan) || HasActive(d.core.notices, OverdueMaintenance, plan))
            && OverdueChecked(d, again) == d
    ensures RunSite(s, CheckOverdue(found, now)) == Ok(OverdueChecked(s, found))
    ensures exists rows :: OverdueChecked(s, found) == s.(core := s.core.(notices := s.core.notices + rows))
  {
    DueAndServed(s, plan, now);
    var d, todo := OverdueChecked(s, found), Unserved(s.core.orders, found);
    UnservedDistinct(s.core.orders, found);
    UnservedListed(s.core.orders, found, plan);
    MissingKeepsOk(s.core.notices, OverdueMaintenance, todo);
    assert IsReconciled(OverdueMaintenance);
    MissingActivates(s.core.notices, OverdueMaintenance, todo, OverdueMaintenance, plan);
    var later := Unserved(d.core.orders, again);
    forall i | 0 <= i < |later|
      ensures HasActive(d.core.notices, OverdueMaintenance, later[i])
    {
      assert later[i] in later;
      UnservedListed(d.core.orders, again, later[i]);
      UnservedListed(s.core.orders, found, later[i]);
      MissingActivates(s.core.notices, OverdueMaintenance, todo, OverdueMaintenance, later[i]);
    }
    NothingMissing(d.core.notices, OverdueMaintenance, later);
    assert d.core.notices + [] == d.core.notices;
  }

  // ---- What one evaluation achieves ----

  /** The rows of one alert: the order, the two audit rows, the history row and the notification. */
  ghost predicate Alerted(c: Core, d: Core, asset: Id, was: AssetStatus, order: Id) {
    d == c.(orders := c.orders[order := Order(asset, None, Open, Auto, None, None, None, None, None, None)],
            audit := c.audit + [AssetAudit(asset, Some(was), Critical)] + [OrderAudit(order, None, Open)],
            history := c.history + [HistoryRow(asset, was, Critical, ByMonitoring)],
            notices := c.notices + [Notice(CriticalAsset, asset, Unread, None, None)])
  }

  /** An evaluation that runs without interference never fails once its order id is new. If the last
      three readings were above 80 degrees, the asset exists and no AUTO order of it is active, it marks
      the asset critical and writes the rows of one alert; otherwise it changes nothing. */
  lemma EvaluationRaises(s: Site, asset: Id, ingested: seq<Reading>, order: Id)
    requires order !in s.core.orders
    ensures var r, had := AssetEvaluated(s, asset, ingested, order), HasActiveAuto(s.core, asset);
            var trips := Streak(ingested) >= 3;
            && r.Ok?
            && (trips && asset in s.assets ==> HasActiveAuto(r.value.core, asset))
            && (if trips && asset in s.assets && !had then
                  && r.value.assets == s.assets[asset := Critical] && r.value.plans == s.plans
                  && Alerted(s.core, r.value.core, asset, s.assets[asset], order)
                else r.value == s)
    ensures RunSite(s, EvaluateAsset(asset, ingested, order)) == AssetEvaluated(s, asset, ingested, order)
  {
    RuleIsStreak(ingested);
    hide Run, HasActiveAuto, TripsHotTemperatureRule, Recent, Streak, Overlay, AutoWrites;
    if asset in s.assets {
      EvaluatorLosesIff(s.core, RaiseAuto(order, asset, s.assets[asset]));
      if !HasActiveAuto(s.core, asset) {
        Raised(s.core, RaiseAuto(order, asset, s.assets[asset]));
        RaisingSaved(s.core, order, asset, s.assets[asset]);
      }
    }
  }

  // ---- What one order call achieves ----

  /** Completing an order on the site is completing it in the tables with the status its asset has. On
      success the asset is back in service, and the plan of the order, if it exists, was last completed
      now and is next due its interval of days from now; every other asset and plan is as it was. */
  lemma CompletionClearsPlan(s: Site, order: Id, lines: seq<Line>, actor: Actor, now: Time, plan: Id, later: Time)
    requires OrderCompleted(s, order, lines, actor, now).Ok? && plan in s.plans
    ensures var d, o := OrderCompleted(s, order, lines, actor, now).value, s.core.orders[order];
            var due := now + s.plans[plan].intervalDays * (24 * 60 * 60 * 1000);
            && d.assets == s.assets[o.asset := Operational]
            && d.plans.Keys == s.plans.Keys
            && (o.plan != Some(plan) ==> d.plans[plan] == s.plans[plan])
            && (o.plan == Some(plan) ==>
                  && d.plans[plan] == s.plans[plan].(lastCompletedAt := Some(now), nextDueAt := Some(due))
                  && (IsDue(d, plan, later) <==> s.plans[plan].active && later >= due))
  {
    hide Run;
  }

  lemma CompletionOutcome(s: Site, order: Id, lines: seq<Line>, actor: Actor, now: Time)
    ensures var r := OrderCompleted(s, order, lines, actor, now);
            && RunSite(s, CompleteOrder(order, lines, actor, now)) == r
            && (order !in s.core.orders ==> r == Err(NotFound))
            && (order in s.core.orders ==>
                  var at := s.core.orders[order].asset;
                  var was := if at in s.assets then s.assets[at] else Operational;
                  var run := Run(s.core, Complete(order, lines, actor, now, was));
                  && (run.Err? ==> r == Err(run.error))
                  && (run.Ok? && at !in s.assets ==> r == Err(NotFound))
                  && (run.Ok? && at in s.assets ==> r.Ok? && r.value.core == run.value))
  {
    hide Run;
  }

  /** Creating an order works exactly on an existing asset, for none or one of its own plans. The new
      order is open and unassigned, PLANNED exactly if it has a plan, and serves that plan. */
  lemma CreateOutcome(s: Site, order: Id, asset: Id, plan: Option<Id>)
    ensures var r := OrderCreated(s, order, asset, plan);
            var planKnown := plan == None || plan.value in s.plans;
            var planFits := planKnown && (plan == None || s.plans[plan.value].asset == asset);
            && (r.Ok? <==> asset in s.assets && planFits && order !in s.core.orders)
            && (r == Err(NotFound) <==> asset !in s.assets || !planKnown)
            && (r.Ok? ==>
                  && r.value == s.(core := s.core.(
                       orders := s.core.orders[order :=
                         Order(asset, plan, Open, if plan == None then Manual else Planned,
                               None, None, None, None, None, None)],
                       audit := s.core.audit + [OrderAudit(order, None, Open)]))
                  && (plan.Some? ==> IsServed(r.value, plan.value)))
    ensures RunSite(s, CreateOrder(order, asset, plan)) == OrderCreated(s, order, asset, plan)
  {
    hide Run, Overlay;
    SingleCall(s.core, InsertOrder(order, asset, plan));
    var source := if plan == None then Manual else Planned;
    OrderSaved(s.core, order, None, NewOrder(asset, plan, source));
    var r := OrderCreated(s, order, asset, plan);
    if r.Ok? {
      assert order in r.value.core.orders && r.value.core.orders[order].plan == plan;
    }
  }

  // ---- What the other calls of the site achieve ----

  /** A new asset of an existing type and location is operational; a status update writes one audit and
      one history row, and nothing at all if the asset has that status already. */
  lemma AssetOutcome(s: Site, asset: Id, typeExists: bool, locationExists: bool, status: AssetStatus)
    ensures RunSite(s, CreateAsset(asset, typeExists, locationExists)) ==
            if !typeExists || !locationExists then Err(NotFound)
            else if asset in s.assets then Err(Conflict)
            else Ok(s.(assets := s.assets[asset := Operational],
                       core := s.core.(audit := s.core.audit + [AssetAudit(asset, None, Operational)])))
    ensures RunSite(s, UpdateStatus(asset, status)) ==
            if asset !in s.assets then Err(NotFound)
            else if s.assets[asset] == status then Ok(s)
            else Ok(s.(assets := s.assets[asset := status],
                       core := s.core.(
                         audit := s.core.audit + [AssetAudit(asset, Some(s.assets[asset]), status)],
                         history := s.core.history + [HistoryRow(asset, s.assets[asset], status, ByHand)])))
  {
    hide Overlay;
    StatusSaved(s.core, asset, None, Operational);
    if asset in s.assets {
      StatusSaved(s.core, asset, Some(s.assets[asset]), status);
    }
    assert s.core.history + [] == s.core.history;
  }

  /** Acknowledging and resolving change one unresolved notification, in its status and signature. */
  lemma NoticeOutcome(s: Site, id: Id, user: Id, now: Time)
    ensures var notices := s.core.notices;
            && RunSite(s, Acknowledge(id)) ==
               (if id >= |notices| then Err(NotFound)
                else if notices[id].status == Resolved then Err(Conflict)
                else Ok(s.(core := s.core.(notices := notices[id := notices[id].(status := Acknowledged)]))))
            && RunSite(s, Resolve(id, user, now)) ==
               (if id >= |notices| then Err(NotFound)
                else if notices[id].status == Resolved then Err(Conflict)
                else Ok(s.(core := s.core.(notices := notices[id :=
                       notices[id].(status := Resolved, resolvedAt := Some(now), resolvedBy := Some(user))]))))
  {
  }
}
