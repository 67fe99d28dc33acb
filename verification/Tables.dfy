/** The rows and tables that work orders, inventory and condition monitoring share. */
module Tables {
  import opened Wrappers
  import opened Lifecycle

  type Id = nat
  type Time = nat

  datatype Actor = Actor(id: Id, privileged: bool)

  datatype Source = Manual | Planned | Auto

  datatype AssetStatus = Operational | UnderMaintenance | Critical | Decommissioned

  /** Money is counted in whole cents; module Cost relates this to the code's floating point. */
  datatype Order = Order(asset: Id, plan: Option<Id>, status: Status, source: Source,
                         assignee: Option<Id>, assignedAt: Option<Time>, startedAt: Option<Time>,
                         completedAt: Option<Time>, cancelledAt: Option<Time>, totalCost: Option<nat>)

  datatype Part = Part(name: string, quantity: int, threshold: nat, unitCost: nat)

  datatype Reason = Consumed | Restocked | Adjusted

  datatype LedgerRow = LedgerRow(part: Id, delta: int, reason: Reason, order: Option<Id>, user: Id, resulting: int)

  datatype UsageRow = UsageRow(order: Id, part: Id, quantity: nat, unitCost: nat)

  datatype AuditRow =
    | OrderAudit(order: Id, before: Option<Status>, after: Status)
    | PartAudit(part: Id, rowBefore: Option<Part>, rowAfter: Option<Part>)
    | AssetAudit(asset: Id, statusBefore: Option<AssetStatus>, statusAfter: AssetStatus)

  datatype Writer = ByHand | ByCompletion | ByMonitoring

  datatype HistoryRow = HistoryRow(asset: Id, previous: AssetStatus, next: AssetStatus, writer: Writer)

  datatype NoticeKind = CriticalAsset | OverdueMaintenance | LowStock

  datatype NoticeStatus = Unread | Acknowledged | Resolved

  datatype Notice = Notice(kind: NoticeKind, entity: Id, status: NoticeStatus,
                           resolvedAt: Option<Time>, resolvedBy: Option<Id>)

  function NewNotice(kind: NoticeKind, entity: Id): Notice {
    Notice(kind, entity, Unread, None, None)
  }

  /** One line of a completion request: a part and how many units were used. */
  datatype Line = Line(part: Id, quantity: nat)

  /** The tables that are written under row locks, and the rows appended with them. */
  datatype Core = Core(orders: map<Id, Order>, parts: map<Id, Part>,
                       ledger: seq<LedgerRow>, usage: seq<UsageRow>, audit: seq<AuditRow>,
                       history: seq<HistoryRow>, notices: seq<Notice>)

  const EMPTY_CORE := Core(map[], map[], [], [], [], [], [])

  predicate IsActiveAuto(o: Order, asset: Id) {
    o.asset == asset && o.source == Auto && IsActive(o.status)
  }

  /** What a transaction has written but not committed. A part bound to None is deleted. */
  datatype Writes = Writes(orders: map<Id, Order>, parts: map<Id, Option<Part>>,
                           ledger: seq<LedgerRow>, usage: seq<UsageRow>, audit: seq<AuditRow>,
                           history: seq<HistoryRow>, notices: seq<Notice>)

  const NO_WRITES := Writes(map[], map[], [], [], [], [], [])

  function OverlayParts(parts: map<Id, Part>, changes: map<Id, Option<Part>>): map<Id, Part> {
    map p | p in parts.Keys + changes.Keys && (p in changes ==> changes[p].Some?)
      :: if p in changes then changes[p].value else parts[p]
  }

  /** The tables as a transaction with these writes sees them, and as they are once it commits. */
  function Overlay(c: Core, w: Writes): Core {
    Core(c.orders + w.orders, OverlayParts(c.parts, w.parts),
         c.ledger + w.ledger, c.usage + w.usage, c.audit + w.audit,
         c.history + w.history, c.notices + w.notices)
  }

  function Compose(earlier: Writes, later: Writes): Writes {
    Writes(earlier.orders + later.orders, earlier.parts + later.parts,
           earlier.ledger + later.ledger, earlier.usage + later.usage, earlier.audit + later.audit,
           earlier.history + later.history, earlier.notices + later.notices)
  }

  lemma OverlayPartsCompose(parts: map<Id, Part>, earlier: map<Id, Option<Part>>, later: map<Id, Option<Part>>)
    ensures OverlayParts(parts, earlier + later) == OverlayParts(OverlayParts(parts, earlier), later)
  {
  }

  lemma AppendAssociative<T>(a: seq<T>, b: seq<T>, d: seq<T>)
    ensures a + (b + d) == (a + b) + d
  {
  }

  /** Buffering two batches of writes and applying them once is applying them one after the other. */
  lemma OverlayCompose(c: Core, earlier: Writes, later: Writes)
    ensures Overlay(c, Compose(earlier, later)) == Overlay(Overlay(c, earlier), later)
  {
    assert c.orders + (earlier.orders + later.orders) == (c.orders + earlier.orders) + later.orders;
    OverlayPartsCompose(c.parts, earlier.parts, later.parts);
    AppendAssociative(c.ledger, earlier.ledger, later.ledger);
    AppendAssociative(c.usage, earlier.usage, later.usage);
    AppendAssociative(c.audit, earlier.audit, later.audit);
    AppendAssociative(c.history, earlier.history, later.history);
    AppendAssociative(c.notices, earlier.notices, later.notices);
  }

  lemma OverlayNothing(c: Core)
    ensures Overlay(c, NO_WRITES) == c
  {
  }
}
