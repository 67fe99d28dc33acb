/** The database the services share, updated in place. */
module Store {
  import opened Wrappers
  import opened Tables
  import opened Transactions
  import opened Sites

  class Database {
    var orders: map<Id, Order>
    var parts: map<Id, Part>
    var ledger: seq<LedgerRow>
    var usage: seq<UsageRow>
    var audit: seq<AuditRow>
    var history: seq<HistoryRow>
    var notices: seq<Notice>
    var assets: map<Id, AssetStatus>
    var plans: map<Id, Plan>

    constructor ()
      ensures State() == EMPTY_SITE
    {
      orders, parts, assets, plans := map[], map[], map[], map[];
      ledger, usage, audit, history, notices := [], [], [], [], [];
    }

    function Rows(): Core
      reads this
    {
      Core(orders, parts, ledger, usage, audit, history, notices)
    }

    function State(): Site
      reads this
    {
      Site(Rows(), assets, plans)
    }

    /** What the database does with the writes of a transaction whose callback throws. */
    method Rollback(begun: Site)
      modifies this
      ensures State() == begun
    {
      assets, plans := begun.assets, begun.plans;
      orders, parts, ledger, usage := begun.core.orders, begun.core.parts, begun.core.ledger, begun.core.usage;
      audit, history, notices := begun.core.audit, begun.core.history, begun.core.notices;
    }
  }

  /** A service call did what its specification says: all of it, or nothing and the same error. */
  predicate Follows<T(==)>(spec: Result<Site>, r: Result<T>, before: Site, after: Site) {
    match spec
    case Err(e) => r == Err(e) && after == before
    case Ok(d) => r.Ok? && after == d
  }

  /** The same for what writes only the shared tables. */
  predicate FollowsCore<T(==)>(spec: Result<Core>, r: Result<T>, before: Site, after: Site) {
    Follows(OnCore(before, spec), r, before, after)
  }

  /** The same for a call of the shared tables. */
  predicate FollowsCall<T(==)>(op: Op, r: Result<T>, before: Site, after: Site) {
    FollowsCore(Run(before.core, op), r, before, after)
  }
}
