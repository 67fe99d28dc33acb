/** The status history of an asset, written by hand, by completions and by condition monitoring. */
module AssetHistory {
  import opened Wrappers
  import opened Lifecycle
  import opened Tables
  import opened Statements
  import opened Transactions
  import opened Sites
  import opened Telemetry

  function HistoryOf(history: seq<HistoryRow>, asset: Id): seq<HistoryRow> {
    if history == [] then []
    else
      var earlier, last := HistoryOf(history[..|history| - 1], asset), history[|history| - 1];
      if last.asset == asset then earlier + [last] else earlier
  }

  /** The audit rows about the status of an asset, its creation included. */
  function StatusTrailOf(audit: seq<AuditRow>, asset: Id): seq<AuditRow> {
    if audit == [] then []
    else
      var earlier, last := StatusTrailOf(audit[..|audit| - 1], asset), audit[|audit| - 1];
      if last.AssetAudit? && last.asset == asset then earlier + [last] else earlier
  }

  /** Which changes each writer records. Only monitoring records a status that did not change. */
  predicate WriterOk(row: HistoryRow) {
    match row.writer
    case ByHand => row.previous != row.next
    case ByCompletion => row.previous != Operational && row.next == Operational
    case ByMonitoring => row.next == Critical
  }

  /** The rows lead from OPERATIONAL to `status` without a gap. */
  ghost predicate Leads(rows: seq<HistoryRow>, status: AssetStatus) {
    && (forall i :: 0 <= i < |rows| ==> WriterOk(rows[i]))
    && (rows != [] ==> rows[0].previous == Operational)
    && (forall i :: 0 < i < |rows| ==> rows[i].previous == rows[i - 1].next)
    && status == if rows == [] then Operational else rows[|rows| - 1].next
  }

  /** The audit trail is the creation followed by the history, row for row. */
  ghost predicate Mirrors(trail: seq<AuditRow>, rows: seq<HistoryRow>, asset: Id) {
    && |trail| == |rows| + 1
    && trail[0] == AssetAudit(asset, None, Operational)
    && (forall i :: 0 <= i < |rows| ==> trail[i + 1] == AssetAudit(asset, Some(rows[i].previous), rows[i].next))
  }

  ghost predicate Recorded(s: Site, asset: Id) {
    var rows, trail := HistoryOf(s.core.history, asset), StatusTrailOf(s.core.audit, asset);
    if asset in s.assets then Leads(rows, s.assets[asset]) && Mirrors(trail, rows, asset)
    else rows == [] && trail == []
  }

  ghost predicate AllRecorded(s: Site) {
    forall asset: Id :: Recorded(s, asset)
  }

  lemma {:induction false} HistoryConcat(a: seq<HistoryRow>, b: seq<HistoryRow>, asset: Id)
    ensures HistoryOf(a + b, asset) == HistoryOf(a, asset) + HistoryOf(b, asset)
  {
    if b == [] {
      assert a + b == a;
    } else {
      HistoryConcat(a, b[..|b| - 1], asset);
      assert (a + b)[..|a + b| - 1] == a + b[..|b| - 1];
    }
  }

  lemma {:induction false} StatusTrailConcat(a: seq<AuditRow>, b: seq<AuditRow>, asset: Id)
    ensures StatusTrailOf(a + b, asset) == StatusTrailOf(a, asset) + StatusTrailOf(b, asset)
  {
    if b == [] {
      assert a + b == a;
    } else {
      StatusTrailConcat(a, b[..|b| - 1], asset);
      assert (a + b)[..|a + b| - 1] == a + b[..|b| - 1];
    }
  }

  /** What a batch of writes says about the status of an asset. */
  ghost predicate Says(w: Writes, asset: Id, rows: seq<HistoryRow>, trail: seq<AuditRow>) {
    HistoryOf(w.history, asset) == rows && StatusTrailOf(w.audit, asset) == trail
  }

  /** The two states have recorded the same about the asset. */
  ghost predicate SameRecord(c: Core, d: Core, asset: Id) {
    HistoryOf(c.history, asset) == HistoryOf(d.history, asset)
    && StatusTrailOf(c.audit, asset) == StatusTrailOf(d.audit, asset)
  }

  lemma SilentWrites(c: Core, w: Writes, asset: Id)
    requires Says(w, asset, [], [])
    ensures SameRecord(c, Overlay(c, w), asset)
  {
    HistoryConcat(c.history, w.history, asset);
    StatusTrailConcat(c.audit, w.audit, asset);
  }

  lemma LeadsExtends(rows: seq<HistoryRow>, status: AssetStatus, row: HistoryRow)
    requires Leads(rows, status) && row.previous == status && WriterOk(row)
    ensures Leads(rows + [row], row.next)
  {
  }

  lemma MirrorsExtends(trail: seq<AuditRow>, rows: seq<HistoryRow>, row: HistoryRow)
    requires Mirrors(trail, rows, row.asset)
    ensures Mirrors(trail + [AssetAudit(row.asset, Some(row.previous), row.next)], rows + [row], row.asset)
  {
  }

  /** Appending one linked row, with its audit row, moves the status along. */
  lemma ChangeIsRecorded(s: Site, c: Core, w: Writes, d: Site, row: HistoryRow)
    requires row.asset in s.assets && Recorded(s, row.asset)
    requires c == s.core || SameRecord(s.core, c, row.asset)
    requires d.core == Overlay(c, w) && row.asset in d.assets && d.assets[row.asset] == row.next
    requires row.previous == s.assets[row.asset] && WriterOk(row)
    requires Says(w, row.asset, [row], [AssetAudit(row.asset, Some(row.previous), row.next)])
    ensures Recorded(d, row.asset)
  {
    HistoryConcat(c.history, w.history, row.asset);
    StatusTrailConcat(c.audit, w.audit, row.asset);
    var rows, trail := HistoryOf(c.history, row.asset), StatusTrailOf(c.audit, row.asset);
    LeadsExtends(rows, s.assets[row.asset], row);
    MirrorsExtends(trail, rows, row);
    hide Leads, Mirrors;
  }

  lemma NothingRecorded(s: Site, d: Site, asset: Id)
    requires Recorded(s, asset) && SameRecord(s.core, d.core, asset)
    requires asset in s.assets <==> asset in d.assets
    requires asset in s.assets ==> d.assets[asset] == s.assets[asset]
    ensures Recorded(d, asset)
  {
  }

  // ---- Statements and calls that leave the status alone ----

  lemma OneRow(audit: AuditRow, asset: Id)
    ensures StatusTrailOf([audit], asset) == if audit.AssetAudit? && audit.asset == asset then [audit] else []
  {
  }

  lemma OneHistoryRow(row: HistoryRow, asset: Id)
    ensures HistoryOf([row], asset) == if row.asset == asset then [row] else []
  {
  }

  lemma SilentStatement(stmt: Stmt, c: Core, cost: nat, asset: Id)
    requires !stmt.CloseOrder? && !stmt.InsertAutoOrder? && Exec(stmt, c, cost).Ok?
    ensures SameRecord(c, Overlay(c, Exec(stmt, c, cost).value.writes), asset)
  {
    var w := Exec(stmt, c, cost).value.writes;
    assert w.history == [] && |w.audit| <= 1 && (w.audit != [] ==> !w.audit[0].AssetAudit?);
    if w.audit != [] {
      assert w.audit == [w.audit[0]];
      OneRow(w.audit[0], asset);
    }
    SilentWrites(c, w, asset);
  }

  lemma {:induction false} SilentPrefix(c: Core, op: Op, k: nat, asset: Id)
    requires Valid(op) && k <= Length(op) && RunPrefix(c, op, k).Ok?
    requires op.Complete? ==> k < Length(op)
    requires op.RaiseAuto? ==> k < Length(op)
    ensures SameRecord(c, RunPrefix(c, op, k).value.core, asset)
  {
    if k > 0 {
      SilentPrefix(c, op, k - 1, asset);
      hide Exec, SameRecord, Overlay;
      var m := RunPrefix(c, op, k - 1).value;
      SilentStatement(StmtAt(op, k - 1), m.core, m.cost, asset);
      SameRecordTransitive(c, m.core, RunPrefix(c, op, k).value.core, asset);
    }
  }

  lemma SameRecordTransitive(c: Core, d: Core, e: Core, asset: Id)
    requires SameRecord(c, d, asset) && SameRecord(d, e, asset)
    ensures SameRecord(c, e, asset)
  {
  }

  // ---- The three writers ----

  lemma ByHandSays(asset: Id, was: Option<AssetStatus>, next: AssetStatus, other: Id)
    ensures Says(AssetWrites(asset, was, next), other,
                 if was.Some? && other == asset then [HistoryRow(asset, was.value, next, ByHand)] else [],
                 if other == asset then [AssetAudit(asset, was, next)] else [])
  {
  }

  lemma MonitoringSays(order: Id, asset: Id, was: AssetStatus, other: Id)
    ensures Says(AutoWrites(order, asset, was), other,
                 if other == asset then [HistoryRow(asset, was, Critical, ByMonitoring)] else [],
                 if other == asset then [AssetAudit(asset, Some(was), Critical)] else [])
  {
    var first, second := AssetAudit(asset, Some(was), Critical), OrderAudit(order, None, Open);
    OneHistoryRow(HistoryRow(asset, was, Critical, ByMonitoring), other);
    OneRow(first, other);
    OneRow(second, other);
    StatusTrailConcat([first], [second], other);
    assert [first] + [second] == [first, second];
  }

  lemma ClosingSays(c: Core, stmt: Stmt, cost: nat, other: Id)
    requires stmt.CloseOrder? && stmt.order in c.orders
    ensures var asset, was := c.orders[stmt.order].asset, stmt.assetWas;
            var speaks := other == asset && was != Operational;
            Says(Exec(stmt, c, cost).value.writes, other,
                 if speaks then [HistoryRow(asset, was, Operational, ByCompletion)] else [],
                 if speaks then [AssetAudit(asset, Some(was), Operational)] else [])
  {
    var o, was := c.orders[stmt.order], stmt.assetWas;
    var first := OrderAudit(stmt.order, Some(o.status), Completed);
    var second := AssetAudit(o.asset, Some(was), Operational);
    OneHistoryRow(HistoryRow(o.asset, was, Operational, ByCompletion), other);
    OneRow(first, other);
    OneRow(second, other);
    StatusTrailConcat([first], [second], other);
    assert [first] + [second] == [first, second];
  }

  lemma CreationLeads(asset: Id)
    ensures Leads([], Operational) && Mirrors([AssetAudit(asset, None, Operational)], [], asset)
  {
  }

  lemma CreationIsRecorded(s: Site, op: SiteOp, asset: Id)
    requires op.CreateAsset? && Recorded(s, asset) && RunSite(s, op).Ok?
    ensures Recorded(RunSite(s, op).value, asset)
  {
    var w := AssetWrites(op.asset, None, Operational);
    ByHandSays(op.asset, None, Operational, asset);
    if asset == op.asset {
      CreationLeads(asset);
      HistoryConcat(s.core.history, w.history, asset);
      StatusTrailConcat(s.core.audit, w.audit, asset);
      hide Leads, Mirrors;
    } else {
      SilentWrites(s.core, w, asset);
    }
  }

  lemma UpdateIsRecorded(s: Site, op: SiteOp, asset: Id)
    requires op.UpdateStatus? && Recorded(s, asset) && RunSite(s, op).Ok?
    ensures Recorded(RunSite(s, op).value, asset)
  {
    var was, d := s.assets[op.asset], RunSite(s, op).value;
    if was != op.status {
      var w := AssetWrites(op.asset, Some(was), op.status);
      ByHandSays(op.asset, Some(was), op.status, asset);
      assert d.core == Overlay(s.core, w) && d.assets == s.assets[op.asset := op.status];
      hide Recorded, SameRecord, Says, Overlay, AssetWrites, RunSite;
      if asset == op.asset {
        ChangeIsRecorded(s, s.core, w, d, HistoryRow(asset, was, op.status, ByHand));
      } else {
        SilentWrites(s.core, w, asset);
        NothingRecorded(s, d, asset);
      }
    }
  }

  lemma RaisingWrites(c: Core, op: Op)
    requires op.RaiseAuto? && Run(c, op).Ok?
    ensures RunPrefix(c, op, 1).Ok?
    ensures Run(c, op).value == Overlay(RunPrefix(c, op, 1).value.core, AutoWrites(op.order, op.asset, op.assetWas))
  {
    hide Overlay, AutoWrites, HasActiveAuto;
    assert StmtAt(op, 1) == InsertAutoOrder(op.order, op.asset, op.assetWas);
  }

  lemma EvaluationIsRecorded(s: Site, op: SiteOp, asset: Id)
    requires op.EvaluateAsset? && Recorded(s, asset) && RunSite(s, op).Ok?
    ensures Recorded(RunSite(s, op).value, asset)
  {
    var d := RunSite(s, op).value;
    if d != s {
      var was := s.assets[op.asset];
      var raise := RaiseAuto(op.order, op.asset, was);
      var m := RunPrefix(s.core, raise, 1).value;
      var w := AutoWrites(op.order, op.asset, was);
      RaisingWrites(s.core, raise);
      hide Recorded, SameRecord, RunPrefix, AutoWrites, Overlay, TripsHotTemperatureRule, Recent, HasActiveAuto;
      SilentPrefix(s.core, raise, 1, asset);
      MonitoringSays(op.order, op.asset, was, asset);
      if asset == op.asset {
        ChangeIsRecorded(s, m.core, w, d, HistoryRow(asset, was, Critical, ByMonitoring));
      } else {
        SilentWrites(m.core, w, asset);
        SameRecordTransitive(s.core, m.core, d.core, asset);
        NothingRecorded(s, d, asset);
      }
    }
  }

  lemma CompletionIsRecorded(s: Site, op: SiteOp, asset: Id)
    requires op.CompleteOrder? && Permitted(s, op) && Recorded(s, asset) && RunSite(s, op).Ok?
    ensures Recorded(RunSite(s, op).value, asset)
  {
    var d, o := RunSite(s, op).value, s.core.orders[op.order];
    var was, n := s.assets[o.asset], |op.lines| + 1;
    var call := Complete(op.order, op.lines, op.actor, op.now, was);
    var m, stmt := RunPrefix(s.core, call, n).value, CloseOrder(op.order, op.now, was);
    var w := Exec(stmt, m.core, m.cost).value.writes;
    SilentPrefix(s.core, call, n, asset);
    CompletionLeavesOrders(s.core, call, n);
    ClosingSays(m.core, stmt, m.cost, asset);
    assert d.core == Overlay(m.core, w);
    hide Recorded, SameRecord, RunSite, RunPrefix, Exec, Overlay;
    if asset == o.asset && was != Operational {
      ChangeIsRecorded(s, m.core, w, d, HistoryRow(asset, was, Operational, ByCompletion));
    } else {
      SilentWrites(m.core, w, asset);
      SameRecordTransitive(s.core, m.core, d.core, asset);
      NothingRecorded(s, d, asset);
    }
  }

  lemma OtherCallIsSilent(s: Site, op: Op, asset: Id)
    requires op.Call? && Valid(op) && Recorded(s, asset) && Run(s.core, op).Ok?
    ensures Recorded(s.(core := Run(s.core, op).value), asset)
  {
    SilentPrefix(s.core, op, 1, asset);
    hide SameRecord, Recorded;
    NothingRecorded(s, s.(core := Run(s.core, op).value), asset);
  }

  lemma CallIsRecorded(s: Site, op: SiteOp, asset: Id)
    requires Permitted(s, op) && Recorded(s, asset) && RunSite(s, op).Ok?
    ensures Recorded(RunSite(s, op).value, asset)
  {
    hide Recorded, Run, Overlay;
    match op
    case CreateAsset(_, _, _) => CreationIsRecorded(s, op, asset);
    case UpdateStatus(_, _) => UpdateIsRecorded(s, op, asset);
    case EvaluateAsset(_, _, _) => EvaluationIsRecorded(s, op, asset);
    case CompleteOrder(_, _, _, _) => CompletionIsRecorded(s, op, asset);
    case CreateOrder(order, at, plan) => OtherCallIsSilent(s, Call(InsertOrder(order, at, plan)), asset);
    case Other(call) => OtherCallIsSilent(s, call, asset);
    case _ => NothingRecorded(s, RunSite(s, op).value, asset);
  }

  lemma {:induction false} RunsAreRecorded(s: Site, ops: seq<SiteOp>)
    requires AllRecorded(s)
    ensures AllRecorded(RunCalls(s, ops))
  {
    hide Recorded, RunSite, Permitted;
    if ops != [] {
      var before, op := RunCalls(s, ops[..|ops| - 1]), ops[|ops| - 1];
      RunsAreRecorded(s, ops[..|ops| - 1]);
      forall asset: Id
        ensures Recorded(RunCalls(s, ops), asset)
      {
        assert Recorded(before, asset);
        if Permitted(before, op) && RunSite(before, op).Ok? {
          CallIsRecorded(before, op, asset);
        }
      }
    }
  }

  /** After any sequence of calls, an asset's history leads from OPERATIONAL to its current status
      through rows its three writers may write, and the audit trail tells the same story. */
  lemma HistoryReplaysStatus(ops: seq<SiteOp>, asset: Id)
    ensures var s := RunCalls(EMPTY_SITE, ops);
            var rows, trail := HistoryOf(s.core.history, asset), StatusTrailOf(s.core.audit, asset);
            if asset in s.assets then Leads(rows, s.assets[asset]) && Mirrors(trail, rows, asset)
            else rows == [] && trail == []
  {
    forall a: Id ensures Recorded(EMPTY_SITE, a) {}
    RunsAreRecorded(EMPTY_SITE, ops);
    assert Recorded(RunCalls(EMPTY_SITE, ops), asset);
  }
}
