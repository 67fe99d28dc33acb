/** Service calls as sequences of statements, run alone and all-or-nothing. */
module Transactions {
  import opened Wrappers
  import opened Tables
  import opened Statements

  /** A service call. `assetWas` is the asset status the call read: no lock protects that status
      from the other writers, so to the tables of Core it is an input. */
  datatype Op =
    | Complete(order: Id, lines: seq<Line>, actor: Actor, now: Time, assetWas: AssetStatus)
    | RaiseAuto(order: Id, asset: Id, assetWas: AssetStatus)
    | Call(stmt: Stmt)

  /** What request validation lets through. */
  predicate Valid(op: Op) {
    match op
    case Complete(_, lines, _, _, _) => forall i :: 0 <= i < |lines| ==> lines[i].quantity >= 1
    case RaiseAuto(_, _, _) => true
    case Call(stmt) =>
      match stmt
      case InsertOrder(_, _, _) => true
      case AssignOrder(_, _, _, _) => true
      case StartOrder(_, _, _) => true
      case CancelOrder(_, _) => true
      case InsertPart(_, row, _) => row.quantity >= 0
      case ChangeStock(_, delta, reason, _) => delta != 0 && reason != Consumed && (reason == Restocked ==> delta >= 1)
      case EditPart(_, _, _, _) => true
      case DeletePart(_) => true
      case _ => false
  }

  function Length(op: Op): nat {
    match op
    case Complete(_, lines, _, _, _) => |lines| + 2
    case RaiseAuto(_, _, _) => 2
    case Call(_) => 1
  }

  function StmtAt(op: Op, k: nat): Stmt
    requires k < Length(op)
  {
    match op
    case Complete(order, lines, actor, now, assetWas) =>
      if k == 0 then CheckCompletable(order, actor)
      else if k <= |lines| then ConsumePart(order, lines[k - 1], actor.id)
      else CloseOrder(order, now, assetWas)
    case RaiseAuto(order, asset, assetWas) =>
      if k == 0 then ProbeAutoIndex(asset) else InsertAutoOrder(order, asset, assetWas)
    case Call(stmt) => stmt
  }

  datatype Memory = Memory(core: Core, cost: nat)

  /** The first k statements, each applied directly to the tables. */
  function RunPrefix(c: Core, op: Op, k: nat): Result<Memory>
    requires k <= Length(op)
  {
    if k == 0 then Ok(Memory(c, 0))
    else
      match RunPrefix(c, op, k - 1)
      case Err(e) => Err(e)
      case Ok(m) =>
        match Exec(StmtAt(op, k - 1), m.core, m.cost)
        case Err(e) => Err(e)
        case Ok(effect) => Ok(Memory(Overlay(m.core, effect.writes), effect.cost))
  }

  /** A whole call run alone: the tables it leaves, or the error that rolled it back. */
  function Run(c: Core, op: Op): Result<Core> {
    match RunPrefix(c, op, Length(op))
    case Err(e) => Err(e)
    case Ok(m) => Ok(m.core)
  }

  /** Runs the calls one by one; fails if any of them fails. */
  function Replay(c: Core, log: seq<Op>): Result<Core> {
    if log == [] then Ok(c)
    else
      match Replay(c, log[..|log| - 1])
      case Err(e) => Err(e)
      case Ok(before) => Run(before, log[|log| - 1])
  }

  /** Until it closes the order, a completion has changed no order row. */
  lemma {:induction false} CompletionLeavesOrders(c: Core, op: Op, k: nat)
    requires op.Complete? && 0 < k <= |op.lines| + 1 && RunPrefix(c, op, k).Ok?
    ensures RunPrefix(c, op, k).value.core.orders == c.orders
    ensures op.order in c.orders && Completable(c.orders[op.order], op.actor).Ok?
  {
    var m := RunPrefix(c, op, k - 1).value;
    if k > 1 {
      CompletionLeavesOrders(c, op, k - 1);
    }
    assert Exec(StmtAt(op, k - 1), m.core, m.cost).value.writes.orders == map[];
  }

  function Applied(c: Core, spec: Result<Writes>): Result<Core> {
    match spec
    case Err(e) => Err(e)
    case Ok(w) => Ok(Overlay(c, w))
  }

  /** A call of one statement is that statement, all or nothing. */
  lemma SingleCall(c: Core, stmt: Stmt)
    ensures Run(c, Call(stmt)) == Applied(c, WritesOf(stmt, c, 0))
  {
    assert RunPrefix(c, Call(stmt), 0) == Ok(Memory(c, 0));
    assert Run(c, Call(stmt)) == match RunPrefix(c, Call(stmt), 1) case Err(e) => Err(e) case Ok(m) => Ok(m.core);
    hide WritesOf, Overlay;
  }

  lemma {:induction false} FailureStays(c: Core, op: Op, k: nat, n: nat)
    requires k <= n <= Length(op) && RunPrefix(c, op, k).Err?
    ensures RunPrefix(c, op, n) == RunPrefix(c, op, k)
  {
    if k < n {
      FailureStays(c, op, k, n - 1);
    }
  }

  /** The specification of one statement of a call, after the statements before it. */
  lemma NextStatement(c: Core, op: Op, k: nat, m: Memory)
    requires k < Length(op) && RunPrefix(c, op, k) == Ok(m)
    ensures var outcome := WritesOf(StmtAt(op, k), m.core, m.cost);
            && (outcome.Err? ==> Run(c, op) == Err(outcome.error))
            && (outcome.Ok? ==>
                  RunPrefix(c, op, k + 1) ==
                  Ok(Memory(Overlay(m.core, outcome.value), Exec(StmtAt(op, k), m.core, m.cost).value.cost)))
  {
    hide WritesOf, Overlay;
    if WritesOf(StmtAt(op, k), m.core, m.cost).Err? {
      FailureStays(c, op, k + 1, Length(op));
    }
  }

  /** Raising an order where none is active inserts it, unless its id is taken. */
  lemma Raised(c: Core, op: Op)
    requires op.RaiseAuto? && !HasActiveAuto(c, op.asset)
    ensures Run(c, op) == if op.order in c.orders then Err(Conflict)
                          else Ok(Overlay(c, AutoWrites(op.order, op.asset, op.assetWas)))
  {
    assert RunPrefix(c, op, 0) == Ok(Memory(c, 0));
    hide Overlay, AutoWrites;
    NextStatement(c, op, 0, Memory(c, 0));
    OverlayNothing(c);
    NextStatement(c, op, 1, Memory(c, 0));
  }
}
