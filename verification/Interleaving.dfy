/** Concurrent transactions under READ COMMITTED with row locks held to commit. Every schedule of
    lock-and-execute, commit and abort steps leaves the tables of some serial execution. */
module Interleaving {
  import opened Wrappers
  import opened Lifecycle
  import opened Tables
  import opened Statements
  import opened Transactions

  /** What a transaction can lock: a row, or a key of the partial unique index on AUTO orders. */
  datatype Row = OrderRow(id: Id) | PartRow(id: Id) | AssetRow(id: Id) | AutoKey(asset: Id)

  /** The row a statement must lock before it runs against the view v. */
  function RowOf(stmt: Stmt, v: Core): Row {
    match stmt
    case InsertOrder(id, _, _) => OrderRow(id)
    case AssignOrder(id, _, _, _) => OrderRow(id)
    case StartOrder(id, _, _) => OrderRow(id)
    case CancelOrder(id, _) => OrderRow(id)
    case CheckCompletable(id, _) => OrderRow(id)
    case ConsumePart(_, line, _) => PartRow(line.part)
    case CloseOrder(id, _, _) => if id in v.orders then AssetRow(v.orders[id].asset) else OrderRow(id)
    case ProbeAutoIndex(asset) => AutoKey(asset)
    case InsertAutoOrder(id, _, _) => OrderRow(id)
    case InsertPart(id, _, _) => PartRow(id)
    case ChangeStock(id, _, _, _) => PartRow(id)
    case EditPart(id, _, _, _) => PartRow(id)
    case DeletePart(id) => PartRow(id)
  }

  /** A transaction in flight: its program counter, lock set, private writes and running total. */
  datatype Local = Local(held: set<Row>, writes: Writes, cost: nat)

  datatype Txn = Txn(op: Op, pc: nat, local: Local)

  /** Executes one statement on the transaction's own view and buffers its writes. */
  function Step(stmt: Stmt, c: Core, l: Local): Result<Local> {
    var view := Overlay(c, l.writes);
    match Exec(stmt, view, l.cost)
    case Err(e) => Err(e)
    case Ok(effect) => Ok(Local(l.held + {RowOf(stmt, view)}, Compose(l.writes, effect.writes), effect.cost))
  }

  datatype System = System(core: Core, txns: map<nat, Txn>, log: seq<Op>)

  datatype Action =
    | Begin(t: nat, op: Op)
    | Evaluate(t: nat, order: Id, asset: Id, assetWas: AssetStatus)
    | Execute(t: nat)
    | Commit(t: nat)
    | Abort(t: nat)

  predicate LockedByOther(s: System, t: nat, row: Row) {
    exists u :: u in s.txns && u != t && row in s.txns[u].local.held
  }

  function Drop(s: System, t: nat): System {
    System(s.core, s.txns - {t}, s.log)
  }

  function WantedRow(s: System, t: nat): Row
    requires t in s.txns && s.txns[t].pc < Length(s.txns[t].op)
  {
    RowOf(StmtAt(s.txns[t].op, s.txns[t].pc), Overlay(s.core, s.txns[t].local.writes))
  }

  /** A statement that throws rolls its transaction back. */
  function Resume(s: System, t: nat, outcome: Result<Local>): System
    requires t in s.txns
  {
    match outcome
    case Err(_) => Drop(s, t)
    case Ok(l) => s.(txns := s.txns[t := Txn(s.txns[t].op, s.txns[t].pc + 1, l)])
  }

  /** One step of the system. An action that is not enabled, or that must wait, changes
      nothing. */
  function Next(s: System, a: Action): System {
    match a
    case Begin(t, op) =>
      if t in s.txns || !Valid(op) || op.RaiseAuto? then s
      else s.(txns := s.txns[t := Txn(op, 0, Local({}, NO_WRITES, 0))])
    case Evaluate(t, order, asset, assetWas) =>
      // the check for an active AUTO order is made here, before and outside the transaction
      if t in s.txns || HasActiveAuto(s.core, asset) then s
      else s.(txns := s.txns[t := Txn(RaiseAuto(order, asset, assetWas), 0, Local({}, NO_WRITES, 0))])
    case Execute(t) =>
      if t !in s.txns || s.txns[t].pc >= Length(s.txns[t].op) || LockedByOther(s, t, WantedRow(s, t)) then s
      else Resume(s, t, Step(StmtAt(s.txns[t].op, s.txns[t].pc), s.core, s.txns[t].local))
    case Commit(t) =>
      if t !in s.txns || s.txns[t].pc != Length(s.txns[t].op) then s
      else System(Overlay(s.core, s.txns[t].local.writes), s.txns - {t}, s.log + [s.txns[t].op])
    case Abort(t) => Drop(s, t)
  }

  function Boot(c: Core): System {
    System(c, map[], [])
  }

  function RunSchedule(c: Core, schedule: seq<Action>): System {
    if schedule == [] then Boot(c)
    else Next(RunSchedule(c, schedule[..|schedule| - 1]), schedule[|schedule| - 1])
  }

  // ---- What the actions do ----

  const IDLE := Local({}, NO_WRITES, 0)

  /** A call begins if it is valid and its number is free; an evaluator, if no AUTO order of its asset is
      then active in the committed tables. */
  lemma BeginOutcome(s: System, t: nat, op: Op)
    requires t !in s.txns
    ensures Valid(op) && !op.RaiseAuto? ==> Next(s, Begin(t, op)) == s.(txns := s.txns[t := Txn(op, 0, IDLE)])
    ensures op.RaiseAuto? ==>
              var active := exists o :: o in s.core.orders && s.core.orders[o].asset == op.asset
                                        && s.core.orders[o].source == Auto
                                        && s.core.orders[o].status != Completed && s.core.orders[o].status != Cancelled;
              Next(s, Evaluate(t, op.order, op.asset, op.assetWas)) ==
              if active then s else s.(txns := s.txns[t := Txn(op, 0, IDLE)])
  {
    if op.RaiseAuto? {
      ActiveAutoMeans(s.core, op.asset);
    }
    hide HasActiveAuto, Valid;
  }

  /** A statement waits exactly while another transaction holds its row. Otherwise it runs on the
      committed tables under the transaction's own writes: it takes the lock and buffers its writes, or
      it fails and the transaction is gone. Committed tables never change. */
  lemma ExecuteOutcome(s: System, t: nat)
    requires t in s.txns && s.txns[t].pc < Length(s.txns[t].op)
    ensures var d, txn := Next(s, Execute(t)), s.txns[t];
            var stmt, view := StmtAt(txn.op, txn.pc), Overlay(s.core, txn.local.writes);
            var row, effect := RowOf(stmt, view), Exec(stmt, view, txn.local.cost);
            && d.core == s.core && d.log == s.log
            && (if exists u :: u in s.txns && u != t && row in s.txns[u].local.held then d == s
                else if effect.Err? then d.txns == s.txns - {t}
                else
                  var writes := Compose(txn.local.writes, effect.value.writes);
                  var l := Local(txn.local.held + {row}, writes, effect.value.cost);
                  d.txns == s.txns[t := Txn(txn.op, txn.pc + 1, l)])
  {
    hide Exec, RowOf, Overlay, Compose, Valid;
  }

  /** A commit applies all writes at once and ends the transaction; an abort ends it without a trace. */
  lemma EndOutcome(s: System, t: nat)
    requires t in s.txns
    ensures Next(s, Abort(t)) == System(s.core, s.txns - {t}, s.log)
    ensures Next(s, Commit(t)) ==
            if s.txns[t].pc < Length(s.txns[t].op) || s.txns[t].pc > Length(s.txns[t].op) then s
            else System(Overlay(s.core, s.txns[t].local.writes), s.txns - {t}, s.log + [s.txns[t].op])
  {
    hide Overlay;
  }

  // ---- What a statement reads, and what it writes, is covered by locks ----

  /** The rows a statement's outcome depends on. */
  function Reads(stmt: Stmt): set<Row> {
    match stmt
    case InsertOrder(id, _, _) => {OrderRow(id)}
    case AssignOrder(id, _, _, _) => {OrderRow(id)}
    case StartOrder(id, _, _) => {OrderRow(id)}
    case CancelOrder(id, _) => {OrderRow(id)}
    case CheckCompletable(id, _) => {OrderRow(id)}
    case ConsumePart(_, line, _) => {PartRow(line.part)}
    case CloseOrder(id, _, _) => {OrderRow(id)}
    case ProbeAutoIndex(asset) => {AutoKey(asset)}
    case InsertAutoOrder(id, asset, _) => {OrderRow(id), AutoKey(asset)}
    case InsertPart(id, _, _) => {PartRow(id)}
    case ChangeStock(id, _, _, _) => {PartRow(id)}
    case EditPart(id, _, _, _) => {PartRow(id)}
    case DeletePart(id) => {PartRow(id)}
  }

  /** The two states look the same to whoever holds the row. For an index key it is enough that no
      active AUTO order of the asset has appeared. */
  ghost predicate AgreeOn(c: Core, d: Core, row: Row) {
    match row
    case OrderRow(id) => (id in c.orders <==> id in d.orders) && (id in c.orders ==> c.orders[id] == d.orders[id])
    case PartRow(id) =>
      && (id in c.parts <==> id in d.parts)
      && (id in c.parts ==> c.parts[id] == d.parts[id])
      && (Referenced(c, id) <==> Referenced(d, id))
    case AssetRow(_) => true
    case AutoKey(asset) =>
      forall o :: o in d.orders && IsActiveAuto(d.orders[o], asset)
        ==> o in c.orders && IsActiveAuto(c.orders[o], asset)
  }

  ghost predicate Agree(c: Core, d: Core, rows: set<Row>) {
    forall row :: row in rows ==> AgreeOn(c, d, row)
  }

  /** Writes w, made on top of c, stay within the rows held; none of them revives an AUTO order. */
  ghost predicate Covered(c: Core, w: Writes, rows: set<Row>) {
    && (forall o :: o in w.orders ==>
          && OrderRow(o) in rows
          && (o in c.orders ==>
                && w.orders[o].asset == c.orders[o].asset
                && w.orders[o].source == c.orders[o].source
                && (IsActive(w.orders[o].status) ==> IsActive(c.orders[o].status)))
          && (o !in c.orders && w.orders[o].source == Auto ==> AutoKey(w.orders[o].asset) in rows))
    && (forall p :: p in w.parts ==> PartRow(p) in rows)
    && (forall i :: 0 <= i < |w.ledger| ==> PartRow(w.ledger[i].part) in rows)
    && (forall i :: 0 <= i < |w.usage| ==> PartRow(w.usage[i].part) in rows)
  }

  lemma ReferencedOverlay(c: Core, w: Writes, p: Id)
    ensures Referenced(Overlay(c, w), p) <==>
            || Referenced(c, p)
            || (exists i :: 0 <= i < |w.ledger| && w.ledger[i].part == p)
            || (exists i :: 0 <= i < |w.usage| && w.usage[i].part == p)
  {
    var v := Overlay(c, w);
    forall i | 0 <= i < |c.ledger| ensures v.ledger[i] == c.ledger[i] {}
    forall i | 0 <= i < |w.ledger| ensures v.ledger[|c.ledger| + i] == w.ledger[i] {}
    forall i | 0 <= i < |c.usage| ensures v.usage[i] == c.usage[i] {}
    forall i | 0 <= i < |w.usage| ensures v.usage[|c.usage| + i] == w.usage[i] {}
    forall i | |c.ledger| <= i < |v.ledger| ensures v.ledger[i] == w.ledger[i - |c.ledger|] {}
    forall i | |c.usage| <= i < |v.usage| ensures v.usage[i] == w.usage[i - |c.usage|] {}
  }

  /** Another transaction's commit is invisible on every row this one holds. */
  lemma CommitIsInvisible(c: Core, w: Writes, theirs: set<Row>, mine: set<Row>)
    requires Covered(c, w, theirs) && theirs !! mine
    ensures Agree(c, Overlay(c, w), mine)
  {
    forall row | row in mine
      ensures AgreeOn(c, Overlay(c, w), row)
    {
      assert row !in theirs;
      if row.PartRow? {
        ReferencedOverlay(c, w, row.id);
      }
    }
  }

  /** A transaction's own view keeps agreeing when the committed tables agree. */
  lemma ViewsAgree(c: Core, d: Core, w: Writes, rows: set<Row>)
    requires Agree(c, d, rows)
    ensures Agree(Overlay(c, w), Overlay(d, w), rows)
  {
    forall row | row in rows
      ensures AgreeOn(Overlay(c, w), Overlay(d, w), row)
    {
      assert AgreeOn(c, d, row);
      if row.PartRow? {
        ReferencedOverlay(c, w, row.id);
        ReferencedOverlay(d, w, row.id);
      }
    }
  }

  lemma ExecDependsOnReads(stmt: Stmt, v: Core, d: Core, cost: nat)
    requires Agree(v, d, Reads(stmt)) && Exec(stmt, v, cost).Ok?
    ensures Exec(stmt, d, cost) == Exec(stmt, v, cost)
    ensures RowOf(stmt, d) == RowOf(stmt, v)
  {
    match stmt
    case InsertAutoOrder(id, _, _) => assert AgreeOn(v, d, OrderRow(id));
    case ProbeAutoIndex(asset) => assert AgreeOn(v, d, AutoKey(asset));
    case InsertOrder(id, _, _) => assert AgreeOn(v, d, OrderRow(id));
    case AssignOrder(id, _, _, _) => assert AgreeOn(v, d, OrderRow(id));
    case StartOrder(id, _, _) => assert AgreeOn(v, d, OrderRow(id));
    case CancelOrder(id, _) => assert AgreeOn(v, d, OrderRow(id));
    case CheckCompletable(id, _) => assert AgreeOn(v, d, OrderRow(id));
    case CloseOrder(id, _, _) => assert AgreeOn(v, d, OrderRow(id));
    case ConsumePart(_, line, _) => assert AgreeOn(v, d, PartRow(line.part));
    case InsertPart(id, _, _) => assert AgreeOn(v, d, PartRow(id));
    case ChangeStock(id, _, _, _) => assert AgreeOn(v, d, PartRow(id));
    case EditPart(id, _, _, _) => assert AgreeOn(v, d, PartRow(id));
    case DeletePart(id) => assert AgreeOn(v, d, PartRow(id));
  }

  lemma ExecIsCovered(stmt: Stmt, v: Core, cost: nat)
    requires Exec(stmt, v, cost).Ok?
    ensures Covered(v, Exec(stmt, v, cost).value.writes, Reads(stmt))
  {
  }

  lemma CoveredCompose(c: Core, earlier: Writes, later: Writes, rows: set<Row>, more: set<Row>)
    requires Covered(c, earlier, rows) && Covered(Overlay(c, earlier), later, more)
    ensures Covered(c, Compose(earlier, later), rows + more)
  {
  }

  // ---- A transaction's private state as a function of the committed tables ----

  /** The private state after k statements run without interference against c. */
  function Private(c: Core, op: Op, k: nat): Result<Local>
    requires k <= Length(op)
  {
    if k == 0 then Ok(Local({}, NO_WRITES, 0))
    else
      match Private(c, op, k - 1)
      case Err(e) => Err(e)
      case Ok(l) => Step(StmtAt(op, k - 1), c, l)
  }

  /** Executing into a private write set and executing directly on the tables agree. */
  lemma {:induction false} PrivateRefinesRun(c: Core, op: Op, k: nat)
    requires k <= Length(op)
    ensures Private(c, op, k).Ok? <==> RunPrefix(c, op, k).Ok?
    ensures Private(c, op, k).Ok? ==>
              var l, m := Private(c, op, k).value, RunPrefix(c, op, k).value;
              Overlay(c, l.writes) == m.core && l.cost == m.cost
  {
    hide Exec, RowOf, Overlay, Compose;
    if k == 0 {
      OverlayNothing(c);
    } else {
      PrivateRefinesRun(c, op, k - 1);
      if Private(c, op, k).Ok? {
        var l := Private(c, op, k - 1).value;
        var effect := Exec(StmtAt(op, k - 1), Overlay(c, l.writes), l.cost).value;
        OverlayCompose(c, l.writes, effect.writes);
      }
    }
  }

  lemma StepLocks(stmt: Stmt, c: Core, l: Local)
    requires Step(stmt, c, l).Ok?
    ensures Step(stmt, c, l).value.held == l.held + {RowOf(stmt, Overlay(c, l.writes))}
  {
  }

  lemma RowIsRead(stmt: Stmt, v: Core)
    requires !stmt.CloseOrder?
    ensures Reads(stmt) == {RowOf(stmt, v)} + if stmt.InsertAutoOrder? then {AutoKey(stmt.asset)} else {}
  {
  }

  /** By the time a statement has run, every row it reads is locked. */
  lemma {:induction false} ReadsAreHeld(c: Core, op: Op, k: nat, j: nat)
    requires j < k <= Length(op) && Valid(op) && Private(c, op, k).Ok?
    ensures Reads(StmtAt(op, j)) <= Private(c, op, k).value.held
    decreases k
  {
    hide Exec, RowOf;
    var l := Private(c, op, k - 1).value;
    var stmt := StmtAt(op, k - 1);
    StepLocks(stmt, c, l);
    if j < k - 1 {
      ReadsAreHeld(c, op, k - 1, j);
    } else if stmt.CloseOrder? {
      ReadsAreHeld(c, op, k - 1, 0);
    } else {
      RowIsRead(stmt, Overlay(c, l.writes));
      if stmt.InsertAutoOrder? {
        ReadsAreHeld(c, op, k - 1, 0);
      }
    }
  }

  lemma {:induction false} PrivateIsCovered(c: Core, op: Op, k: nat)
    requires k <= Length(op) && Valid(op) && Private(c, op, k).Ok?
    ensures Covered(c, Private(c, op, k).value.writes, Private(c, op, k).value.held)
  {
    hide Exec, RowOf;
    if k > 0 {
      PrivateIsCovered(c, op, k - 1);
      ReadsAreHeld(c, op, k, k - 1);
      var l := Private(c, op, k - 1).value;
      var stmt := StmtAt(op, k - 1);
      var view := Overlay(c, l.writes);
      StepLocks(stmt, c, l);
      ExecIsCovered(stmt, view, l.cost);
      CoveredCompose(c, l.writes, Exec(stmt, view, l.cost).value.writes, l.held, Reads(stmt));
      assert l.held + Reads(stmt) <= Private(c, op, k).value.held;
    }
  }

  lemma StepIsStable(stmt: Stmt, c: Core, d: Core, l: Local)
    requires Step(stmt, c, l).Ok? && Agree(c, d, Reads(stmt))
    ensures Step(stmt, d, l) == Step(stmt, c, l)
  {
    ViewsAgree(c, d, l.writes, Reads(stmt));
    ExecDependsOnReads(stmt, Overlay(c, l.writes), Overlay(d, l.writes), l.cost);
  }

  lemma HeldGrows(c: Core, op: Op, k: nat)
    requires 0 < k <= Length(op) && Private(c, op, k).Ok?
    ensures Private(c, op, k - 1).Ok? && Private(c, op, k - 1).value.held <= Private(c, op, k).value.held
  {
  }

  /** Private state survives any change of the tables that agrees on the rows held. */
  lemma {:induction false} PrivateIsStable(c: Core, d: Core, op: Op, k: nat)
    requires k <= Length(op) && Valid(op) && Private(c, op, k).Ok?
    requires Agree(c, d, Private(c, op, k).value.held)
    ensures Private(d, op, k) == Private(c, op, k)
  {
    hide Exec, RowOf;
    if k > 0 {
      HeldGrows(c, op, k);
      PrivateIsStable(c, d, op, k - 1);
      ReadsAreHeld(c, op, k, k - 1);
      StepIsStable(StmtAt(op, k - 1), c, d, Private(c, op, k - 1).value);
    }
  }

  // ---- The system invariant ----

  ghost predicate LocksDisjoint(s: System) {
    forall t, u :: t in s.txns && u in s.txns && t != u ==> s.txns[t].local.held !! s.txns[u].local.held
  }

  /** Each transaction's private state is what it would compute alone from the committed tables. */
  ghost predicate InStep(s: System) {
    forall t :: t in s.txns ==>
      && Valid(s.txns[t].op)
      && s.txns[t].pc <= Length(s.txns[t].op)
      && Private(s.core, s.txns[t].op, s.txns[t].pc) == Ok(s.txns[t].local)
  }

  ghost predicate Serial(c: Core, s: System) {
    LocksDisjoint(s) && InStep(s) && Replay(c, s.log) == Ok(s.core)
  }

  lemma CommitKeepsOthersInStep(c: Core, s: System, t: nat, u: nat)
    requires Serial(c, s) && t in s.txns && u in s.txns && t != u && s.txns[t].pc == Length(s.txns[t].op)
    ensures Private(Overlay(s.core, s.txns[t].local.writes), s.txns[u].op, s.txns[u].pc) == Ok(s.txns[u].local)
  {
    hide Exec, RowOf, Step, Overlay, RunPrefix;
    var txn := s.txns[t];
    PrivateIsCovered(s.core, txn.op, txn.pc);
    CommitIsInvisible(s.core, txn.local.writes, txn.local.held, s.txns[u].local.held);
    PrivateIsStable(s.core, Overlay(s.core, txn.local.writes), s.txns[u].op, s.txns[u].pc);
  }

  lemma CommitExtendsReplay(c: Core, s: System, t: nat)
    requires Serial(c, s) && t in s.txns && s.txns[t].pc == Length(s.txns[t].op)
    ensures Replay(c, s.log + [s.txns[t].op]) == Ok(Overlay(s.core, s.txns[t].local.writes))
  {
    hide Exec, RowOf, Step, Overlay;
    PrivateRefinesRun(s.core, s.txns[t].op, s.txns[t].pc);
    var log := s.log + [s.txns[t].op];
    assert log[..|log| - 1] == s.log;
  }

  lemma CommitKeepsSerial(c: Core, s: System, t: nat)
    requires Serial(c, s) && t in s.txns && s.txns[t].pc == Length(s.txns[t].op)
    ensures Serial(c, Next(s, Commit(t)))
  {
    hide Exec, RowOf, Step, Private, Overlay, Run, Replay, RunPrefix, Valid;
    forall u | u in s.txns && u != t
      ensures Private(Overlay(s.core, s.txns[t].local.writes), s.txns[u].op, s.txns[u].pc) == Ok(s.txns[u].local)
    {
      CommitKeepsOthersInStep(c, s, t, u);
    }
    CommitExtendsReplay(c, s, t);
  }

  lemma ResumeKeepsSerial(c: Core, s: System, t: nat, outcome: Result<Local>)
    requires Serial(c, s) && t in s.txns && s.txns[t].pc < Length(s.txns[t].op)
    requires !LockedByOther(s, t, WantedRow(s, t))
    requires outcome.Ok? ==> outcome.value.held == s.txns[t].local.held + {WantedRow(s, t)}
    requires Private(s.core, s.txns[t].op, s.txns[t].pc + 1) == outcome
    ensures Serial(c, Resume(s, t, outcome))
  {
    hide Exec, RowOf, Step, Private, Valid;
  }

  lemma ExecuteKeepsSerial(c: Core, s: System, t: nat)
    requires Serial(c, s)
    ensures Serial(c, Next(s, Execute(t)))
  {
    hide Exec, RowOf, Valid;
    if t in s.txns && s.txns[t].pc < Length(s.txns[t].op) && !LockedByOther(s, t, WantedRow(s, t)) {
      var txn := s.txns[t];
      var stmt := StmtAt(txn.op, txn.pc);
      var outcome := Step(stmt, s.core, txn.local);
      if outcome.Ok? {
        StepLocks(stmt, s.core, txn.local);
      }
      ResumeKeepsSerial(c, s, t, outcome);
    }
  }

  lemma NextKeepsSerial(c: Core, s: System, a: Action)
    requires Serial(c, s)
    ensures Serial(c, Next(s, a))
  {
    hide Exec, RowOf, Overlay, Run, Replay, HasActiveAuto;
    match a
    case Begin(_, _) =>
    case Evaluate(_, _, _, _) =>
    case Execute(t) => ExecuteKeepsSerial(c, s, t);
    case Commit(t) =>
      if t in s.txns && s.txns[t].pc == Length(s.txns[t].op) {
        CommitKeepsSerial(c, s, t);
      }
    case Abort(_) =>
  }

  lemma {:induction false} ScheduleKeepsSerial(c: Core, schedule: seq<Action>)
    ensures Serial(c, RunSchedule(c, schedule))
  {
    if schedule != [] {
      ScheduleKeepsSerial(c, schedule[..|schedule| - 1]);
      NextKeepsSerial(c, RunSchedule(c, schedule[..|schedule| - 1]), schedule[|schedule| - 1]);
    }
  }

  /** Once it has closed its order, a completion holds the order's asset until it ends. */
  lemma ClosingHoldsAsset(c: Core, op: Op)
    requires op.Complete? && Private(c, op, Length(op)).Ok?
    ensures op.order in c.orders && AssetRow(c.orders[op.order].asset) in Private(c, op, Length(op)).value.held
  {
    hide Exec, Overlay, RunPrefix, RowOf;
    var n := |op.lines| + 1;
    PrivateRefinesRun(c, op, n);
    CompletionLeavesOrders(c, op, n);
    var l := Private(c, op, n).value;
    StepLocks(StmtAt(op, n), c, l);
    ClosingLocksAsset(StmtAt(op, n), Overlay(c, l.writes));
  }

  lemma ClosingLocksAsset(stmt: Stmt, v: Core)
    requires stmt.CloseOrder? && stmt.order in v.orders
    ensures RowOf(stmt, v) == AssetRow(v.orders[stmt.order].asset)
  {
  }

  /** So of two completions about to commit, in any reachable state, neither is for the other's asset. */
  lemma CompletionsExcludeAsset(c: Core, schedule: seq<Action>, t: nat, u: nat)
    requires var s := RunSchedule(c, schedule);
             && t in s.txns && u in s.txns && t != u
             && s.txns[t].op.Complete? && s.txns[t].pc == Length(s.txns[t].op)
             && s.txns[u].op.Complete? && s.txns[u].pc == Length(s.txns[u].op)
    ensures var s := RunSchedule(c, schedule);
            && s.txns[t].op.order in s.core.orders && s.txns[u].op.order in s.core.orders
            && s.core.orders[s.txns[t].op.order].asset != s.core.orders[s.txns[u].op.order].asset
  {
    var s := RunSchedule(c, schedule);
    ScheduleKeepsSerial(c, schedule);
    hide RunSchedule, Private, Replay, Valid;
    ClosingHoldsAsset(s.core, s.txns[t].op);
    ClosingHoldsAsset(s.core, s.txns[u].op);
    assert s.txns[t].local.held !! s.txns[u].local.held;
  }

  /** Serializability: whatever the schedule, the committed tables are those of the committed calls
      run one by one, alone, in commit order. Aborted calls appear nowhere in that order. */
  lemma Serializable(c: Core, schedule: seq<Action>)
    ensures var s := RunSchedule(c, schedule);
            Replay(c, s.log) == Ok(s.core)
  {
    ScheduleKeepsSerial(c, schedule);
  }

  // ---- Conversely, every serial execution is a schedule ----

  function Opening(op: Op): Action {
    if op.RaiseAuto? then Evaluate(0, op.order, op.asset, op.assetWas) else Begin(0, op)
  }

  /** The schedule `base` followed by the start and the first k statements of one call. */
  function Drive(base: seq<Action>, op: Op, k: nat): seq<Action> {
    if k == 0 then base + [Opening(op)] else Drive(base, op, k - 1) + [Execute(0)]
  }

  function SerialSchedule(log: seq<Op>): seq<Action> {
    if log == [] then []
    else
      var op := log[|log| - 1];
      Drive(SerialSchedule(log[..|log| - 1]), op, Length(op)) + [Commit(0)]
  }

  lemma LastAction(c: Core, base: seq<Action>, a: Action)
    ensures RunSchedule(c, base + [a]) == Next(RunSchedule(c, base), a)
  {
  }

  lemma {:induction false} DriveRunsAlone(c: Core, base: seq<Action>, op: Op, k: nat)
    requires Valid(op) && k <= Length(op) && RunSchedule(c, base).txns == map[]
    requires Private(RunSchedule(c, base).core, op, k).Ok?
    requires op.RaiseAuto? ==> !HasActiveAuto(RunSchedule(c, base).core, op.asset)
    ensures var s := RunSchedule(c, base);
            RunSchedule(c, Drive(base, op, k)) ==
              System(s.core, map[0 := Txn(op, k, Private(s.core, op, k).value)], s.log)
  {
    hide Exec, RowOf, Valid, HasActiveAuto, RunSchedule;
    var s := RunSchedule(c, base);
    if k == 0 {
      LastAction(c, base, Opening(op));
    } else {
      HeldGrows(s.core, op, k);
      DriveRunsAlone(c, base, op, k - 1);
      LastAction(c, Drive(base, op, k - 1), Execute(0));
    }
  }

  lemma RaisedMeansFree(c: Core, op: Op)
    requires op.RaiseAuto? && Run(c, op).Ok?
    ensures !HasActiveAuto(c, op.asset)
  {
    assert RunPrefix(c, op, 0) == Ok(Memory(c, 0));
    assert RunPrefix(c, op, 1).Ok?;
  }

  lemma SoloCallCommits(c: Core, base: seq<Action>, op: Op)
    requires Valid(op) && RunSchedule(c, base).txns == map[] && Run(RunSchedule(c, base).core, op).Ok?
    ensures var s := RunSchedule(c, base);
            RunSchedule(c, Drive(base, op, Length(op)) + [Commit(0)]) ==
              System(Run(s.core, op).value, map[], s.log + [op])
  {
    hide Exec, RowOf, Valid, HasActiveAuto, RunSchedule, Drive, Overlay;
    var s := RunSchedule(c, base);
    PrivateRefinesRun(s.core, op, Length(op));
    if op.RaiseAuto? {
      RaisedMeansFree(s.core, op);
    }
    hide RunPrefix, Private;
    DriveRunsAlone(c, base, op, Length(op));
    LastAction(c, Drive(base, op, Length(op)), Commit(0));
  }

  /** Run one after the other, any calls that succeed are produced by some schedule of the system. */
  lemma {:induction false} SerialIsReachable(c: Core, log: seq<Op>)
    requires Replay(c, log).Ok? && forall i :: 0 <= i < |log| ==> Valid(log[i])
    ensures RunSchedule(c, SerialSchedule(log)) == System(Replay(c, log).value, map[], log)
  {
    if log != [] {
      hide Run, Valid, RunSchedule, Drive;
      var n := |log| - 1;
      assert log[..n] + [log[n]] == log;
      SerialIsReachable(c, log[..n]);
      SoloCallCommits(c, SerialSchedule(log[..n]), log[n]);
    }
  }
}
