/** Assets, maintenance plans and notifications beside the shared tables, one whole call at a time. */
module Sites {
  import opened Wrappers
  import opened Lifecycle
  import opened Tables
  import opened Statements
  import opened Transactions
  import opened Notifications
  import opened Telemetry

  datatype Plan = Plan(asset: Id, intervalDays: nat, lastCompletedAt: Option<Time>, nextDueAt: Option<Time>,
                       active: bool)

  datatype Site = Site(core: Core, assets: map<Id, AssetStatus>, plans: map<Id, Plan>)

  const EMPTY_SITE := Site(EMPTY_CORE, map[], map[])

  const DAY: nat := 86_400_000

  /** Asset types and locations are not tables of this model: whether those of a new asset exist is an
      input. */
  datatype SiteOp =
    | CreateAsset(asset: Id, typeExists: bool, locationExists: bool)
    | UpdateStatus(asset: Id, status: AssetStatus)
    | SavePlan(plan: Id, row: Plan)
    | CreateOrder(order: Id, asset: Id, forPlan: Option<Id>)
    | CompleteOrder(order: Id, lines: seq<Line>, actor: Actor, now: Time)
    | EvaluateAsset(asset: Id, ingested: seq<Reading>, order: Id)
    | CheckLowStock(found: seq<Id>)
    | CheckOverdue(found: seq<Id>, now: Time)
    | Acknowledge(notice: Id)
    | Resolve(notice: Id, user: Id, now: Time)
    | Other(op: Op)

  // ---- What the hourly checks look for ----

  function LowParts(parts: map<Id, Part>): set<Id> {
    set p | p in parts && parts[p].quantity <= parts[p].threshold
  }

  function DuePlans(plans: map<Id, Plan>, now: Time): set<Id> {
    set p | p in plans && plans[p].active && plans[p].nextDueAt.Some? && plans[p].nextDueAt.value <= now
  }

  predicate HasActiveOrder(orders: map<Id, Order>, plan: Id) {
    exists o :: o in orders && orders[o].plan == Some(plan) && IsActive(orders[o].status)
  }

  /** The listed plans that no active work order serves. */
  function Unserved(orders: map<Id, Order>, found: seq<Id>): seq<Id> {
    if found == [] then []
    else
      var earlier, last := Unserved(orders, found[..|found| - 1]), found[|found| - 1];
      if HasActiveOrder(orders, last) then earlier else earlier + [last]
  }

  /** A query result: every matching id once, in some order. */
  predicate Lists(found: seq<Id>, ids: set<Id>) {
    Distinct(found) && (forall id :: id in found ==> id in ids) && (forall id :: id in ids ==> id in found)
  }

  lemma {:induction false} UnservedListed(orders: map<Id, Order>, found: seq<Id>, id: Id)
    ensures id in Unserved(orders, found) <==> id in found && !HasActiveOrder(orders, id)
  {
    if found != [] {
      UnservedListed(orders, found[..|found| - 1], id);
      assert found == found[..|found| - 1] + [found[|found| - 1]];
    }
  }

  lemma {:induction false} UnservedDistinct(orders: map<Id, Order>, found: seq<Id>)
    requires Distinct(found)
    ensures Distinct(Unserved(orders, found))
  {
    if found != [] {
      var n := |found| - 1;
      UnservedDistinct(orders, found[..n]);
      UnservedListed(orders, found[..n], found[n]);
      assert found[n] !in found[..n];
    }
  }

  // ---- The calls ----

  function AssetWrites(asset: Id, was: Option<AssetStatus>, next: AssetStatus): Writes {
    NO_WRITES.(audit := [AssetAudit(asset, was, next)],
               history := if was.Some? then [HistoryRow(asset, was.value, next, ByHand)] else [])
  }

  lemma StatusSaved(c: Core, asset: Id, was: Option<AssetStatus>, next: AssetStatus)
    ensures Overlay(c, AssetWrites(asset, was, next)) ==
            c.(audit := c.audit + [AssetAudit(asset, was, next)],
               history := c.history + if was.Some? then [HistoryRow(asset, was.value, next, ByHand)] else [])
  {
  }

  function WithNotices(s: Site, notices: seq<Notice>): Site {
    s.(core := s.core.(notices := notices))
  }

  function StatusUpdated(s: Site, asset: Id, status: AssetStatus): Result<Site> {
    if asset !in s.assets then Err(NotFound)
    else if s.assets[asset] == status then Ok(s)
    else
      var w := AssetWrites(asset, Some(s.assets[asset]), status);
      Ok(Site(Overlay(s.core, w), s.assets[asset := status], s.plans))
  }

  function OnCore(s: Site, outcome: Result<Core>): Result<Site> {
    match outcome
    case Err(e) => Err(e)
    case Ok(c) => Ok(s.(core := c))
  }

  function OrderCreated(s: Site, order: Id, asset: Id, plan: Option<Id>): Result<Site> {
    if asset !in s.assets then Err(NotFound)
    else if plan.Some? && plan.value !in s.plans then Err(NotFound)
    else if plan.Some? && s.plans[plan.value].asset != asset then Err(Conflict)
    else OnCore(s, Run(s.core, Call(InsertOrder(order, asset, plan))))
  }

  /** Completing an order puts its plan's next date one interval ahead, if the plan still exists. */
  function PlansAfter(plans: map<Id, Plan>, plan: Option<Id>, now: Time): map<Id, Plan> {
    if plan.Some? && plan.value in plans then
      var row := plans[plan.value];
      plans[plan.value := row.(lastCompletedAt := Some(now), nextDueAt := Some(now + row.intervalDays * DAY))]
    else plans
  }

  function StatusOf(s: Site, asset: Id): AssetStatus {
    if asset in s.assets then s.assets[asset] else Operational
  }

  function OrderCompleted(s: Site, order: Id, lines: seq<Line>, actor: Actor, now: Time): Result<Site> {
    if order !in s.core.orders then Err(NotFound)
    else
      var o := s.core.orders[order];
      match Run(s.core, Complete(order, lines, actor, now, StatusOf(s, o.asset)))
      case Err(e) => Err(e)
      case Ok(c) =>
        if o.asset !in s.assets then Err(NotFound)
        else Ok(Site(c, s.assets[o.asset := Operational], PlansAfter(s.plans, o.plan, now)))
  }

  /** Nothing happens unless the rule trips, no AUTO order is active and the asset still exists. */
  function AssetEvaluated(s: Site, asset: Id, ingested: seq<Reading>, order: Id): Result<Site> {
    if !TripsHotTemperatureRule(Recent(ingested)) || HasActiveAuto(s.core, asset) || asset !in s.assets then Ok(s)
    else
      match Run(s.core, RaiseAuto(order, asset, s.assets[asset]))
      case Err(e) => Err(e)
      case Ok(c) => Ok(Site(c, s.assets[asset := Critical], s.plans))
  }

  function NoticeChanged(s: Site, id: Id, changed: Result<Notice>): Result<Site>
    requires changed.Ok? ==> id < |s.core.notices|
  {
    match changed
    case Err(e) => Err(e)
    case Ok(n) => Ok(WithNotices(s, s.core.notices[id := n]))
  }

  function LowStockChecked(s: Site, found: seq<Id>): Site {
    WithNotices(s, s.core.notices + Missing(s.core.notices, LowStock, found))
  }

  function OverdueChecked(s: Site, found: seq<Id>): Site {
    WithNotices(s, s.core.notices + Missing(s.core.notices, OverdueMaintenance, Unserved(s.core.orders, found)))
  }

  predicate Permitted(s: Site, op: SiteOp) {
    match op
    case CompleteOrder(_, lines, _, _) => forall i :: 0 <= i < |lines| ==> lines[i].quantity >= 1
    case CheckLowStock(found) => Lists(found, LowParts(s.core.parts))
    case CheckOverdue(found, now) => Lists(found, DuePlans(s.plans, now))
    case Other(op) => Valid(op) && op.Call? && !op.stmt.InsertOrder?
    case _ => true
  }

  function RunSite(s: Site, op: SiteOp): Result<Site> {
    match op
    case CreateAsset(asset, typeExists, locationExists) =>
      if !typeExists || !locationExists then Err(NotFound)
      else if asset in s.assets then Err(Conflict)
      else Ok(Site(Overlay(s.core, AssetWrites(asset, None, Operational)), s.assets[asset := Operational], s.plans))
    case UpdateStatus(asset, status) => StatusUpdated(s, asset, status)
    case SavePlan(plan, row) => if row.asset !in s.assets then Err(NotFound) else Ok(s.(plans := s.plans[plan := row]))
    case CreateOrder(order, asset, plan) => OrderCreated(s, order, asset, plan)
    case CompleteOrder(order, lines, actor, now) => OrderCompleted(s, order, lines, actor, now)
    case EvaluateAsset(asset, ingested, order) => AssetEvaluated(s, asset, ingested, order)
    case CheckLowStock(found) => Ok(LowStockChecked(s, found))
    case CheckOverdue(found, _) => Ok(OverdueChecked(s, found))
    case Acknowledge(id) => NoticeChanged(s, id, AcknowledgedNotice(s.core.notices, id))
    case Resolve(id, user, now) => NoticeChanged(s, id, ResolvedNotice(s.core.notices, id, user, now))
    case Other(op) => OnCore(s, Run(s.core, op))
  }

  /** A call that fails, or that validation rejects, changes nothing. */
  function Serve(s: Site, op: SiteOp): Site {
    if Permitted(s, op) && RunSite(s, op).Ok? then RunSite(s, op).value else s
  }

  function RunCalls(s: Site, ops: seq<SiteOp>): Site {
    if ops == [] then s else Serve(RunCalls(s, ops[..|ops| - 1]), ops[|ops| - 1])
  }
}
