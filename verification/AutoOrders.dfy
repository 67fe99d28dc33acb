/** Automatically raised work orders: at most one active per asset, and one alert for each. */
module AutoOrders {
  import opened Wrappers
  import opened Tables
  import opened Statements
  import opened Transactions
  import opened Interleaving

  ghost predicate OneActiveAuto(c: Core, asset: Id) {
    forall o, p :: o in c.orders && p in c.orders ==>
      IsActiveAuto(c.orders[o], asset) && IsActiveAuto(c.orders[p], asset) ==> o == p
  }

  function AutoOrdersOf(c: Core, asset: Id): set<Id> {
    set o | o in c.orders && c.orders[o].source == Auto && c.orders[o].asset == asset
  }

  function AlertsOf(notices: seq<Notice>, asset: Id): nat {
    if notices == [] then 0
    else
      var n := notices[|notices| - 1];
      AlertsOf(notices[..|notices| - 1], asset) + if n.kind == CriticalAsset && n.entity == asset then 1 else 0
  }

  function AutoHistoryOf(history: seq<HistoryRow>, asset: Id): nat {
    if history == [] then 0
    else
      var h := history[|history| - 1];
      AutoHistoryOf(history[..|history| - 1], asset) + if h.writer == ByMonitoring && h.asset == asset then 1 else 0
  }

  /** One order, one alert and one history row for every time monitoring fired. */
  ghost predicate Tallied(c: Core, asset: Id) {
    |AutoOrdersOf(c, asset)| == AlertsOf(c.notices, asset) == AutoHistoryOf(c.history, asset)
  }

  ghost predicate AutoSound(c: Core) {
    forall asset: Id :: OneActiveAuto(c, asset) && Tallied(c, asset)
  }

  lemma TalliesAppend(notices: seq<Notice>, n: Notice, history: seq<HistoryRow>, h: HistoryRow, asset: Id)
    ensures AlertsOf(notices + [n], asset) ==
            AlertsOf(notices, asset) + if n.kind == CriticalAsset && n.entity == asset then 1 else 0
    ensures AutoHistoryOf(history + [h], asset) ==
            AutoHistoryOf(history, asset) + if h.writer == ByMonitoring && h.asset == asset then 1 else 0
  {
  }

  /** No statement but the insertion can collide with the partial unique index: the set of active
      AUTO orders of an asset never gains a member. */
  lemma OnlyInsertionAddsAuto(stmt: Stmt, c: Core, cost: nat, asset: Id)
    requires Exec(stmt, c, cost).Ok? && (stmt.InsertAutoOrder? ==> stmt.asset != asset)
    ensures AgreeOn(c, Overlay(c, Exec(stmt, c, cost).value.writes), AutoKey(asset))
  {
    ExecIsCovered(stmt, c, cost);
  }

  lemma StatementKeepsOneActive(stmt: Stmt, c: Core, cost: nat, asset: Id)
    requires OneActiveAuto(c, asset) && Exec(stmt, c, cost).Ok?
    requires stmt.InsertAutoOrder? ==> !HasActiveAuto(c, stmt.asset)
    ensures OneActiveAuto(Overlay(c, Exec(stmt, c, cost).value.writes), asset)
  {
    if !(stmt.InsertAutoOrder? && stmt.asset == asset) {
      OnlyInsertionAddsAuto(stmt, c, cost, asset);
    }
  }

  lemma InsertionAddsOne(c: Core, id: Id, at: Id, was: AssetStatus, asset: Id)
    requires id !in c.orders
    ensures |AutoOrdersOf(Overlay(c, AutoWrites(id, at, was)), asset)| ==
            |AutoOrdersOf(c, asset)| + if at == asset then 1 else 0
  {
    assert AutoOrdersOf(Overlay(c, AutoWrites(id, at, was)), asset) ==
           AutoOrdersOf(c, asset) + if at == asset then {id} else {};
  }

  lemma InsertionTallies(c: Core, id: Id, at: Id, was: AssetStatus, asset: Id)
    requires Tallied(c, asset) && id !in c.orders
    ensures Tallied(Overlay(c, AutoWrites(id, at, was)), asset)
  {
    var w := AutoWrites(id, at, was);
    InsertionAddsOne(c, id, at, was, asset);
    hide AutoOrdersOf, NewOrder, OverlayParts;
    TalliesAppend(c.notices, w.notices[0], c.history, w.history[0], asset);
  }

  lemma QuietWritesTally(c: Core, w: Writes, rows: set<Row>, asset: Id)
    requires Tallied(c, asset) && Covered(c, w, rows) && AutoKey(asset) !in rows
    requires w.notices == [] && |w.history| <= 1 && (w.history != [] ==> w.history[0].writer != ByMonitoring)
    ensures Tallied(Overlay(c, w), asset)
  {
    var d := Overlay(c, w);
    assert AutoOrdersOf(d, asset) == AutoOrdersOf(c, asset);
    assert d.notices == c.notices;
    if w.history == [] {
      assert d.history == c.history;
    } else {
      TalliesAppend([], NewNotice(LowStock, 0), c.history, w.history[0], asset);
      assert d.history == c.history + [w.history[0]];
    }
  }

  lemma StatementKeepsTally(stmt: Stmt, c: Core, cost: nat, asset: Id)
    requires Tallied(c, asset) && Exec(stmt, c, cost).Ok?
    ensures Tallied(Overlay(c, Exec(stmt, c, cost).value.writes), asset)
  {
    if stmt.InsertAutoOrder? {
      InsertionTallies(c, stmt.order, stmt.asset, stmt.assetWas, asset);
    } else if stmt.ProbeAutoIndex? {
      OverlayNothing(c);
    } else {
      hide Tallied;
      ExecIsCovered(stmt, c, cost);
      QuietWritesTally(c, Exec(stmt, c, cost).value.writes, Reads(stmt), asset);
    }
  }

  lemma StatementKeepsAuto(stmt: Stmt, c: Core, cost: nat)
    requires AutoSound(c) && Exec(stmt, c, cost).Ok?
    requires stmt.InsertAutoOrder? ==> !HasActiveAuto(c, stmt.asset)
    ensures AutoSound(Overlay(c, Exec(stmt, c, cost).value.writes))
  {
    hide Exec, Overlay, OneActiveAuto, Tallied;
    forall asset: Id
      ensures var d := Overlay(c, Exec(stmt, c, cost).value.writes);
              OneActiveAuto(d, asset) && Tallied(d, asset)
    {
      StatementKeepsOneActive(stmt, c, cost, asset);
      StatementKeepsTally(stmt, c, cost, asset);
    }
  }

  lemma ProbeChangesNothing(stmt: Stmt, c: Core, cost: nat)
    requires stmt.ProbeAutoIndex? && Exec(stmt, c, cost).Ok?
    ensures !HasActiveAuto(c, stmt.asset) && Overlay(c, Exec(stmt, c, cost).value.writes) == c
  {
  }

  lemma {:induction false} PrefixKeepsAuto(c: Core, op: Op, k: nat)
    requires AutoSound(c) && Valid(op) && k <= Length(op) && RunPrefix(c, op, k).Ok?
    ensures AutoSound(RunPrefix(c, op, k).value.core)
    ensures op.RaiseAuto? && k == 1 ==> !HasActiveAuto(RunPrefix(c, op, k).value.core, op.asset)
  {
    if k > 0 {
      PrefixKeepsAuto(c, op, k - 1);
      var m, stmt := RunPrefix(c, op, k - 1).value, StmtAt(op, k - 1);
      hide Exec, Overlay, AutoSound, HasActiveAuto;
      if stmt.ProbeAutoIndex? {
        ProbeChangesNothing(stmt, m.core, m.cost);
      }
      StatementKeepsAuto(stmt, m.core, m.cost);
    }
  }

  /** An evaluator's transaction fails exactly when the asset already has an active AUTO order (or the
      fresh row id is taken), and otherwise leaves the asset with one. */
  lemma EvaluatorLosesIff(c: Core, op: Op)
    requires op.RaiseAuto?
    ensures Run(c, op).Err? <==> HasActiveAuto(c, op.asset) || op.order in c.orders
    ensures Run(c, op).Ok? ==> HasActiveAuto(Run(c, op).value, op.asset)
  {
    OverlayNothing(c);
    assert RunPrefix(c, op, 0) == Ok(Memory(c, 0));
    assert RunPrefix(c, op, 1) == if HasActiveAuto(c, op.asset) then Err(Conflict) else Ok(Memory(c, 0));
    if !HasActiveAuto(c, op.asset) && op.order !in c.orders {
      var d := Run(c, op).value;
      assert op.order in d.orders && IsActiveAuto(d.orders[op.order], op.asset);
    }
  }
}
