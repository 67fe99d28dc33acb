/** What holds of the tables after any schedule of concurrent service calls. */
module Guarantees {
  import opened Wrappers
  import opened Tables
  import opened Transactions
  import opened Interleaving
  import opened Ledger
  import opened Reconciliation
  import opened OrderTrail
  import opened AutoOrders
  import opened StockAudit

  ghost predicate AllAudited(c: Core) {
    forall part: Id :: Audited(c, part)
  }

  ghost predicate Sound(c: Core) {
    AllBooked(c) && AllAudited(c) && Reconciled(c) && AllTraced(c) && AutoSound(c)
  }

  lemma EmptyIsSound()
    ensures Sound(EMPTY_CORE)
  {
  }

  lemma RunKeepsSound(c: Core, op: Op)
    requires Sound(c) && Valid(op) && Run(c, op).Ok?
    ensures Sound(Run(c, op).value)
  {
    hide AllBooked, Reconciled, AllTraced, AutoSound, RunPrefix, Audited;
    forall part: Id ensures Audited(Run(c, op).value, part) {
      assert Audited(c, part);
      PrefixIsAudited(c, op, Length(op), part);
    }
    PrefixKeepsBooks(c, op, Length(op));
    RunReconciles(c, op);
    PrefixKeepsTraces(c, op, Length(op));
    PrefixKeepsAuto(c, op, Length(op));
  }

  ghost predicate AllValid(log: seq<Op>) {
    forall i :: 0 <= i < |log| ==> Valid(log[i])
  }

  lemma {:induction false} ReplayKeepsSound(c: Core, log: seq<Op>)
    requires Sound(c) && AllValid(log) && Replay(c, log).Ok?
    ensures Sound(Replay(c, log).value)
  {
    hide Sound, Run;
    if log != [] {
      ReplayKeepsSound(c, log[..|log| - 1]);
      RunKeepsSound(Replay(c, log[..|log| - 1]).value, log[|log| - 1]);
    }
  }

  lemma {:induction false} LogIsValid(c: Core, schedule: seq<Action>)
    ensures AllValid(RunSchedule(c, schedule).log)
  {
    hide Valid, Overlay, WantedRow, Step;
    if schedule != [] {
      LogIsValid(c, schedule[..|schedule| - 1]);
      ScheduleKeepsSerial(c, schedule[..|schedule| - 1]);
    }
  }

  /** The main result for the shared tables. Start from tables that are in order (an empty database
      is), let any number of calls interleave at the granularity of their row locks, let any of them
      abort anywhere: the ledger explains all stock, consumption matches the completed orders, every
      order's trail replays its status, and no asset has two active AUTO orders. */
  lemma EveryScheduleIsSound(c: Core, schedule: seq<Action>)
    requires Sound(c)
    ensures Sound(RunSchedule(c, schedule).core)
  {
    hide Sound;
    Serializable(c, schedule);
    LogIsValid(c, schedule);
    ReplayKeepsSound(c, RunSchedule(c, schedule).log);
  }

  lemma BalanceIsRecorded(rows: seq<LedgerRow>)
    requires Running(rows)
    ensures Balance(rows) >= 0
  {
    assert rows[..|rows|] == rows;
    hide Balance;
    if rows != [] {
      assert rows[|rows| - 1].resulting == Balance(rows[..|rows| - 1 + 1]);
    } else {
      NoBalance();
    }
  }

  lemma NoBalance()
    ensures Balance([]) == 0
  {
  }

  /** Read out for one part, order and asset of a database that started empty. */
  lemma AfterAnySchedule(schedule: seq<Action>, part: Id, order: Id, asset: Id)
    ensures var c := RunSchedule(EMPTY_CORE, schedule).core;
            var rows := RowsOf(c.ledger, part);
            && (part in c.parts ==> c.parts[part].quantity == Balance(rows) >= 0)
            && Running(rows)
            && MovedUnits(c.ledger, part) == AuditedUnits(c.audit, part)
            && ConsumedUnits(c.ledger, order, part) == UsedUnits(c.usage, order, part)
            && (!IsCompleted(c, order) ==> Untouched(c, order))
            && (IsCompleted(c, order) ==> c.orders[order].totalCost == Some(Expenses(c.usage, order)))
            && (order in c.orders ==> Stamped(c.orders[order])
                                      && Chained(TrailOf(c.audit, order), c.orders[order].status))
            && OneActiveAuto(c, asset)
            && |AutoOrdersOf(c, asset)| == AlertsOf(c.notices, asset) == AutoHistoryOf(c.history, asset)
  {
    EmptyIsSound();
    EveryScheduleIsSound(EMPTY_CORE, schedule);
    var c := RunSchedule(EMPTY_CORE, schedule).core;
    hide RunSchedule;
    assert Booked(c, part) && Audited(c, part) && Settled(c, order) && Traced(c, order);
    assert OneActiveAuto(c, asset) && Tallied(c, asset);
    hide RowsOf, Running, Balance, OneActiveAuto, Chained, Stamped, Untouched, Expenses;
    BalanceIsRecorded(RowsOf(c.ledger, part));
  }

  // ---- Concurrent double submits ----

  lemma {:induction false} CompletionSticks(c: Core, log: seq<Op>, i: nat)
    requires Reconciled(c) && AllValid(log) && Replay(c, log).Ok? && i < |log| && log[i].Complete?
    ensures Reconciled(Replay(c, log).value) && IsCompleted(Replay(c, log).value, log[i].order)
    decreases |log|
  {
    hide Reconciled, Run;
    var earlier, n := log[..|log| - 1], |log| - 1;
    ReplayReconciles(c, earlier);
    RunReconciles(Replay(c, earlier).value, log[n]);
    if i < n {
      assert log[i] == earlier[i];
      CompletionSticks(c, earlier, i);
    }
  }

  lemma {:induction false} ReplayReconciles(c: Core, log: seq<Op>)
    requires Reconciled(c) && AllValid(log) && Replay(c, log).Ok?
    ensures Reconciled(Replay(c, log).value)
  {
    hide Reconciled, Run;
    if log != [] {
      ReplayReconciles(c, log[..|log| - 1]);
      RunReconciles(Replay(c, log[..|log| - 1]).value, log[|log| - 1]);
    }
  }

  lemma {:induction false} LogCompletesOnce(c: Core, log: seq<Op>, i: nat, j: nat)
    requires Reconciled(c) && AllValid(log) && Replay(c, log).Ok?
    requires i < j < |log| && log[i].Complete? && log[j].Complete?
    ensures log[i].order != log[j].order
    decreases |log|
  {
    hide Reconciled, Run;
    var earlier, n := log[..|log| - 1], |log| - 1;
    assert log[i] == earlier[i];
    if j < n {
      assert log[j] == earlier[j];
      LogCompletesOnce(c, earlier, i, j);
    } else {
      CompletionSticks(c, earlier, i);
      RunReconciles(Replay(c, earlier).value, log[n]);
    }
  }

  /** However many submissions of one completion race, at most one of them commits. */
  lemma DoubleSubmitCommitsOnce(schedule: seq<Action>, i: nat, j: nat)
    requires i < j < |RunSchedule(EMPTY_CORE, schedule).log|
    requires RunSchedule(EMPTY_CORE, schedule).log[i].Complete? && RunSchedule(EMPTY_CORE, schedule).log[j].Complete?
    ensures RunSchedule(EMPTY_CORE, schedule).log[i].order != RunSchedule(EMPTY_CORE, schedule).log[j].order
  {
    EmptyIsSound();
    Serializable(EMPTY_CORE, schedule);
    LogIsValid(EMPTY_CORE, schedule);
    LogCompletesOnce(EMPTY_CORE, RunSchedule(EMPTY_CORE, schedule).log, i, j);
  }
}
